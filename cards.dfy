/** The cards accessor of `src/endpoints/cards.rs`: the records it decodes
    (kept down to the fields their emptiness looks at) and the URL its
    `fetch` requests. Unlike sets and series, it takes an already rendered
    query string. */
module Cards {
  import opened Primitives
  import opened Queries
  import opened Errors

  const OBJECT_NAME: string := "cards"

  /** A card as listed; the other fields are decoded data only. */
  datatype CardBrief = CardBrief(id: string, localId: string, name: string)

  /** A card in detail; the other fields are decoded data only. Every field
      has a default, so a body without them decodes to `Default()`. */
  datatype Card = Card(id: string, localId: string, name: string)
  {
    static function Default(): Card {
      Card("", "", "")
    }

    /** `IsEmpty for Card`: no name and no id. */
    predicate IsEmpty() {
      name == "" && id == ""
    }
  }

  /** `IsEmpty for Vec<CardBrief>`: the list has no element. */
  predicate ListIsEmpty(list: seq<CardBrief>) {
    |list| == 0
  }

  /** A card fetched by id resolves to an empty response exactly when its
      name and id are both empty (the local id plays no part), and is
      otherwise returned as decoded. In particular the default card, which
      the API's empty object decodes to, is an empty response. */
  lemma CardResolution(c: Card)
    ensures SetError(Data(c), (x: Card) => x.IsEmpty()) ==
      if c.name == "" && c.id == "" then Err(EmptyResponse) else Ok(c)
    ensures SetError(Data(Card.Default()), (x: Card) => x.IsEmpty()) == Err(EmptyResponse)
  {
  }

  /** A card list resolves to an empty response exactly when it is empty. */
  lemma CardListResolution(list: seq<CardBrief>)
    ensures SetError(Data(list), ListIsEmpty) ==
      if list == [] then Err(EmptyResponse) else Ok(list)
  {
  }

  /** The rendered text of an optional query string; none renders as "". */
  function QueryText(query: Option<string>): string {
    match query
    case None => ""
    case Some(s) => s
  }

  /** The accessor, holding the lowercase language code. */
  datatype CardApi = CardApi(lang: string)
  {
    /** `fetch`: the URL is the base, the language, `/cards`, a separator
        chosen from the query string and the query string itself, neither
        encoded nor trimmed; the reply is resolved as every queryable
        accessor resolves it. */
    method Fetch<T>(query: Option<string>, get: string -> Delivery<T>, isEmpty: T -> bool)
      returns (url: string, r: Result<T>)
      ensures url == RequestUrl(lang, OBJECT_NAME, QueryText(query))
      ensures query.None? ==> url == URL_BASE + lang + "/cards/"
      ensures r == Resolve(get(url), isEmpty)
    {
      var urlQuery := "";
      var separator := "/";
      if query.Some? {
        urlQuery := query.value;
      }
      if '&' in urlQuery || '=' in urlQuery {
        separator := "?";
      }
      url := URL_BASE + lang + "/" + OBJECT_NAME + separator + urlQuery;
      r := Resolve(get(url), isEmpty);
    }
  }

  /** A bare card id becomes a path segment of the URL. */
  lemma CardIdIsPathSegment(lang: string)
    ensures RequestUrl(lang, OBJECT_NAME, "sih3-136") == URL_BASE + lang + "/cards/sih3-136"
  {
    BareIdIsPathSegment(lang, OBJECT_NAME, "sih3-136");
  }
}
