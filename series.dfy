/** The series accessor of `src/endpoints/series.rs`: the records it decodes
    (kept down to the fields their emptiness looks at) and the URL its
    `fetch` requests. */
module Series {
  import opened Primitives
  import opened Queries
  import opened Errors

  const OBJECT_NAME: string := "series"

  /** A serie as listed; the other fields are decoded data only. */
  datatype SerieBrief = SerieBrief(id: string, name: string)

  /** A serie in detail; the other fields are decoded data only. */
  datatype Serie = Serie(id: string, name: string)
  {
    /** `IsEmpty for Serie`: no name and no id. */
    predicate IsEmpty() {
      name == "" && id == ""
    }
  }

  /** `IsEmpty for Vec<SerieBrief>`: the list has no element. */
  predicate ListIsEmpty(list: seq<SerieBrief>) {
    |list| == 0
  }

  /** A serie fetched by id resolves to an empty response exactly when its
      name and id are both empty, and is otherwise returned as decoded. */
  lemma SerieResolution(s: Serie)
    ensures SetError(Data(s), (x: Serie) => x.IsEmpty()) ==
      if s.name == "" && s.id == "" then Err(EmptyResponse) else Ok(s)
  {
  }

  /** A serie list resolves to an empty response exactly when it is empty. */
  lemma SerieListResolution(list: seq<SerieBrief>)
    ensures SetError(Data(list), ListIsEmpty) ==
      if list == [] then Err(EmptyResponse) else Ok(list)
  {
  }

  /** The accessor, holding the lowercase language code. */
  datatype SerieApi = SerieApi(lang: string)
  {
    /** `fetch`: the URL is the base, the language, `/series`, a separator
        chosen from the rendered query and the query itself; the reply is
        resolved as every queryable accessor resolves it. */
    method Fetch<T>(query: Option<Query>, get: string -> Delivery<T>, isEmpty: T -> bool)
      returns (url: string, r: Result<T>)
      ensures url == RequestUrl(lang, OBJECT_NAME, Rendered(query))
      ensures query.None? ==> url == URL_BASE + lang + "/series/"
      ensures r == Resolve(get(url), isEmpty)
    {
      var urlQuery := "";
      var separator := "/";
      if query.Some? {
        urlQuery := query.value.ToString();
      }
      if '&' in urlQuery || '=' in urlQuery {
        separator := "?";
      }
      url := URL_BASE + lang + "/" + OBJECT_NAME + separator + urlQuery;
      r := Resolve(get(url), isEmpty);
    }
  }
}
