/** The query builder of `src/query.rs`: a four-field value whose setters lock
    each other out (an id lookup against the filter/pagination/sort group),
    its rendering to the string appended to request URLs, and the URL
    assembly the queryable accessors share. */
module Queries {
  import opened Primitives
  import opened Text

  /** Constant part of every request URL. */
  const URL_BASE: string := "https://api.tcgdex.net/v2/"

  /** Sort direction; `Display` prints the variant name. */
  datatype Order = ASC | DESC {
    function ToString(): string {
      match this
      case ASC => "ASC"
      case DESC => "DESC"
    }
  }

  /** The first word of every filter term, in order. */
  function FirstTokens(filter: seq<string>): seq<string>
    requires forall i :: 0 <= i < |filter| ==> HasToken(filter[i])
  {
    seq(|filter|, i requires 0 <= i < |filter| => FirstToken(filter[i]))
  }

  /** The loop of `with_filtering`: push the first word of each term. The
      result is the list `FirstTokens` describes, so that every entry is the
      first whitespace-delimited run of the matching term. */
  method FixFilter(filter: seq<string>) returns (fixed: seq<string>)
    requires forall i :: 0 <= i < |filter| ==> HasToken(filter[i])
    ensures fixed == FirstTokens(filter)
  {
    fixed := [];
    var i := 0;
    while i < |filter|
      invariant 0 <= i <= |filter|
      invariant |fixed| == i
      invariant forall j :: 0 <= j < i ==> fixed[j] == FirstToken(filter[j])
    {
      fixed := fixed + [FirstToken(filter[i])];
      i := i + 1;
    }
  }

  /** The text `with_pagination` stores. */
  function PaginationString(page: u8, itemsPerPage: u16): string {
    "pagination:page=" + DecimalString(page as nat)
    + "&pagination:itemsPerPage=" + DecimalString(itemsPerPage as nat)
  }

  /** The text `with_sorting` stores. */
  function SortingString(field: string, order: Order): string {
    "sort:field=" + field + "&sort:order=" + order.ToString()
  }

  /** The fields of a query that are not empty, in their original order. */
  function NonEmpty(fields: seq<string>): (kept: seq<string>)
    ensures |kept| <= |fields|
    ensures forall i :: 0 <= i < |kept| ==> kept[i] != ""
    ensures forall s :: s in kept <==> s in fields && s != ""
    ensures kept == [] <==> forall i :: 0 <= i < |fields| ==> fields[i] == ""
  {
    if fields == [] then []
    else (if fields[0] == "" then [] else [fields[0]]) + NonEmpty(fields[1..])
  }

  datatype Query = Query(id: string, filtering: string, pagination: string, sorting: string)
  {
    /** `Query::new()` and `Query::default()`: the empty query, which renders
        to the empty string and satisfies the builder's invariant. */
    static function New(): (q: Query)
      ensures q.Valid()
      ensures q.ToString() == ""
    {
      Query("", "", "", "")
    }

    /** The group lock: an id excludes the other three fields. */
    predicate IdExclusive() {
      id != "" ==> filtering == "" && pagination == "" && sorting == ""
    }

    /** What every query built by the setters satisfies: the group lock, and
        the two formatted fields carry their `=`. */
    predicate Valid() {
      && IdExclusive()
      && (pagination != "" ==> '=' in pagination)
      && (sorting != "" ==> '=' in sorting)
    }

    /** `with_id`: sets the id only while filtering, sorting and pagination
        are all empty; the other fields never change. */
    function WithId(newId: string): (r: Query)
      ensures r.filtering == filtering && r.pagination == pagination && r.sorting == sorting
      ensures r.id == if filtering == "" && sorting == "" && pagination == "" then newId else id
      ensures Valid() ==> r.Valid()
    {
      if filtering == "" && sorting == "" && pagination == "" then this.(id := newId) else this
    }

    /** `with_filtering`: with no id set, replaces the filtering by the first
        words of the terms joined with `&`; with an id set, changes nothing
        (and the terms are never looked at, so nothing can panic). */
    function WithFiltering(filter: seq<string>): (r: Query)
      requires id == "" ==> forall i :: 0 <= i < |filter| ==> HasToken(filter[i])
      ensures id != "" ==> r == this
      ensures id == "" ==> r == this.(filtering := Join(FirstTokens(filter), "&"))
      ensures Valid() ==> r.Valid()
    {
      if id == "" then this.(filtering := Join(FirstTokens(filter), "&")) else this
    }

    /** `with_pagination`: with no id set, replaces the pagination by
        `pagination:page=P&pagination:itemsPerPage=N`. */
    function WithPagination(page: u8, itemsPerPage: u16): (r: Query)
      ensures id != "" ==> r == this
      ensures id == "" ==> r == this.(pagination := PaginationString(page, itemsPerPage))
      ensures Valid() ==> r.Valid()
    {
      if id == "" then
        assert ("pagination:page=")[15] == '=';
        this.(pagination := PaginationString(page, itemsPerPage))
      else this
    }

    /** `with_sorting`: with no id set, replaces the sorting by
        `sort:field=F&sort:order=ASC` or `...=DESC`. */
    function WithSorting(field: string, order: Order): (r: Query)
      ensures id != "" ==> r == this
      ensures id == "" ==> r == this.(sorting := SortingString(field, order))
      ensures Valid() ==> r.Valid()
    {
      if id == "" then
        assert ("sort:field=")[10] == '=';
        this.(sorting := SortingString(field, order))
      else this
    }

    /** `Display for Query`: the non-empty fields among id, filtering,
        pagination and sorting, in that order, joined with `&`. */
    function ToString(): string {
      Join(NonEmpty([id, filtering, pagination, sorting]), "&")
    }
  }

  /** The rendering is empty exactly when all four fields are. */
  lemma RenderEmpty(q: Query)
    ensures q.ToString() == "" <==>
      q.id == "" && q.filtering == "" && q.pagination == "" && q.sorting == ""
  {
    var fields := [q.id, q.filtering, q.pagination, q.sorting];
    var kept := NonEmpty(fields);
    JoinEmpty(kept, "&");
    if kept != [] {
      assert kept[0] in kept;
    }
    if kept == [] {
      assert q.id in fields && q.filtering in fields && q.pagination in fields && q.sorting in fields;
    }
  }

  /** A query holding an id renders to exactly that id. */
  lemma RenderId(q: Query)
    requires q.IdExclusive() && q.id != ""
    ensures q.ToString() == q.id
  {
    var fields := [q.id, q.filtering, q.pagination, q.sorting];
    assert NonEmpty(fields[1..]) == [];
    assert NonEmpty(fields) == [q.id];
  }

  /** Every character of every field shows up in the rendering, and the
      rendering holds nothing else but the `&` between fields. */
  lemma RenderContains(q: Query, c: char)
    ensures c in q.id || c in q.filtering || c in q.pagination || c in q.sorting
      ==> c in q.ToString()
    ensures c in q.ToString()
      ==> c in q.id || c in q.filtering || c in q.pagination || c in q.sorting || c == '&'
  {
    var fields := [q.id, q.filtering, q.pagination, q.sorting];
    var kept := NonEmpty(fields);
    JoinContains(kept, "&", c);
    if c in q.id || c in q.filtering || c in q.pagination || c in q.sorting {
      var f :| f in fields && c in f;
      assert f in kept;
      var i :| 0 <= i < |kept| && kept[i] == f;
      assert InSomePart(kept, c);
    }
    if InSomePart(kept, c) {
      var i :| 0 <= i < |kept| && c in kept[i];
      assert kept[i] in fields;
    }
  }

  /** Filtering out the empty fields keeps the order and the number of
      occurrences of the others: it works piecewise over a concatenation. */
  lemma {:induction false} NonEmptyAppend(a: seq<string>, b: seq<string>)
    ensures NonEmpty(a + b) == NonEmpty(a) + NonEmpty(b)
  {
    if a != [] {
      assert (a + b)[1..] == a[1..] + b;
      NonEmptyAppend(a[1..], b);
    } else {
      assert a + b == b;
    }
  }

  /** Without an id, a query with all three group fields renders as the
      filtering, the pagination and the sorting, in that order. */
  lemma RenderFullGroup(q: Query)
    requires q.id == "" && q.filtering != "" && q.pagination != "" && q.sorting != ""
    ensures q.ToString() == q.filtering + "&" + q.pagination + "&" + q.sorting
  {
    var group := [q.filtering, q.pagination, q.sorting];
    assert [q.id, q.filtering, q.pagination, q.sorting] == [q.id] + group;
    NonEmptyAppend([q.id], group);
    assert [q.id][1..] == [];
    assert NonEmpty([q.id]) == [];
    NonEmptyKeepsAll(group);
    assert NonEmpty([q.id, q.filtering, q.pagination, q.sorting]) == group;
    JoinThree(q.filtering, q.pagination, q.sorting, "&");
  }

  /** Fields that are all non-empty are all kept. */
  lemma {:induction false} NonEmptyKeepsAll(fields: seq<string>)
    requires forall i :: 0 <= i < |fields| ==> fields[i] != ""
    ensures NonEmpty(fields) == fields
  {
    if fields != [] {
      assert forall i :: 0 <= i < |fields| - 1 ==> fields[1..][i] == fields[i + 1];
      NonEmptyKeepsAll(fields[1..]);
      assert fields == [fields[0]] + fields[1..];
    }
  }

  lemma JoinThree(a: string, b: string, c: string, sep: string)
    ensures Join([a, b, c], sep) == a + sep + b + sep + c
  {
    assert [a, b, c][1..] == [b, c] && [b, c][1..] == [c];
    assert Join([c], sep) == c;
    assert Join([b, c], sep) == b + sep + c;
  }

  /** Each setter overwrites its own field: of two calls the second wins. */
  lemma SettersOverwrite(q: Query, page: u8, n: u16, page': u8, n': u16,
                         f: string, o: Order, f': string, o': Order)
    ensures q.WithPagination(page, n).WithPagination(page', n') == q.WithPagination(page', n')
    ensures q.WithSorting(f, o).WithSorting(f', o') == q.WithSorting(f', o')
  {
  }

  /** Within the filter group, the order of the setters does not matter. */
  lemma GroupSettersCommute(q: Query, page: u8, n: u16, f: string, o: Order)
    ensures q.WithPagination(page, n).WithSorting(f, o) == q.WithSorting(f, o).WithPagination(page, n)
  {
  }

  /** Across the two groups it does: the first group set wins. */
  lemma IdAndGroupDoNotCommute()
    ensures Query.New().WithId("a").WithPagination(1, 2).id == "a"
    ensures Query.New().WithPagination(1, 2).WithId("a").id == ""
  {
  }

  /** One builder call, as chained by a caller. */
  datatype Setter =
    | SetId(newId: string)
    | SetFiltering(filter: seq<string>)
    | SetPagination(page: u8, itemsPerPage: u16)
    | SetSorting(field: string, order: Order)

  /** The effect of one call; None where `with_filtering` panics (a term
      with no word while no id is set). */
  function Step(q: Query, s: Setter): Option<Query> {
    match s
    case SetId(newId) => Some(q.WithId(newId))
    case SetFiltering(filter) =>
      if q.id == "" && !(forall i :: 0 <= i < |filter| ==> HasToken(filter[i])) then None
      else Some(q.WithFiltering(filter))
    case SetPagination(page, n) => Some(q.WithPagination(page, n))
    case SetSorting(field, order) => Some(q.WithSorting(field, order))
  }

  /** A chain of builder calls; None if one of them panics. */
  function Run(q: Query, calls: seq<Setter>): Option<Query>
    decreases |calls|
  {
    if calls == [] then Some(q)
    else match Step(q, calls[0])
      case None => None
      case Some(q') => Run(q', calls[1..])
  }

  /** Every chain of setters keeps the builder's invariant. */
  lemma {:induction false} RunPreservesValid(q: Query, calls: seq<Setter>)
    requires q.Valid()
    ensures Run(q, calls).Some? ==> Run(q, calls).value.Valid()
    decreases |calls|
  {
    if calls != [] {
      match Step(q, calls[0])
      case None =>
      case Some(q') => RunPreservesValid(q', calls[1..]);
    }
  }

  /** From `Query::new()`, no chain of setters ever yields an id together
      with a filtering, a pagination or a sorting. */
  lemma NoChainBreaksTheLock(calls: seq<Setter>)
    ensures Run(Query.New(), calls).Some? ==> Run(Query.New(), calls).value.IdExclusive()
  {
    RunPreservesValid(Query.New(), calls);
  }

  /** The rendering of a query from the setters: a lone id when one is set,
      otherwise the `&`-join of the set group fields. */
  lemma RenderOfId(id: string)
    requires id != ""
    ensures Query.New().WithId(id).ToString() == id
  {
    RenderId(Query.New().WithId(id));
  }

  /** The page number and page size can be read back from the pagination
      text: different arguments never render alike. */
  lemma PaginationInjective(p: u8, n: u16, p': u8, n': u16)
    requires PaginationString(p, n) == PaginationString(p', n')
    ensures p == p' && n == n'
  {
    var head := "pagination:page=";
    var mid := "&pagination:itemsPerPage=";
    var d, e := DecimalString(p as nat), DecimalString(n as nat);
    var d', e' := DecimalString(p' as nat), DecimalString(n' as nat);
    PaginationParts(p, n);
    PaginationParts(p', n');
    PrefixCancel(head, d + (mid + e), d' + (mid + e'));
    assert (mid + e)[0] == '&' && (mid + e')[0] == '&';
    DigitsBeforeSeparator(d, d', mid + e, mid + e');
    DecimalInjective(p as nat, p' as nat);
    PrefixCancel(mid, e, e');
    DecimalInjective(n as nat, n' as nat);
  }

  /** The pagination text, grouped from the right. */
  lemma PaginationParts(p: u8, n: u16)
    ensures PaginationString(p, n) == "pagination:page=" + (DecimalString(p as nat)
      + ("&pagination:itemsPerPage=" + DecimalString(n as nat)))
  {
  }

  /** Equal texts with a common prefix agree after it. */
  lemma PrefixCancel(h: string, x: string, y: string)
    requires h + x == h + y
    ensures x == y
  {
    assert x == (h + x)[|h|..];
    assert y == (h + y)[|h|..];
  }

  /** A run of digits followed by a text that starts with a non-digit is
      determined by the whole. */
  lemma DigitsBeforeSeparator(d: string, d': string, x: string, x': string)
    requires AllDigits(d) && AllDigits(d')
    requires x != [] && !IsDigit(x[0]) && x' != [] && !IsDigit(x'[0])
    requires d + x == d' + x'
    ensures d == d' && x == x'
  {
    var k := if |d| < |d'| then |d| else |d'|;
    assert (d + x)[k] == (d' + x')[k];
    assert IsDigit((d + x)[k]) <==> k < |d|;
    assert IsDigit((d' + x')[k]) <==> k < |d'|;
    assert |d| == |d'|;
    assert d == (d + x)[..|d|];
    assert d' == (d' + x')[..|d'|];
    assert x == (d + x)[|d|..];
    assert x' == (d' + x')[|d'|..];
  }

  /** The rendered sorting ends with the order's name, so the order can be
      read back from it. */
  lemma SortingOrderReadable(f: string, o: Order, f': string, o': Order)
    requires SortingString(f, o) == SortingString(f', o')
    ensures o == o' && f == f'
  {
    var s, s' := SortingString(f, o), SortingString(f', o');
    assert s[|s| - 3] == if o == ASC then 'A' else 'E';
    assert s'[|s'| - 3] == if o' == ASC then 'A' else 'E';
    var head := "sort:field=";
    var tail := "&sort:order=" + o.ToString();
    assert s == head + f + tail;
    assert s' == head + f' + tail;
    assert f == s[|head|..|s| - |tail|];
    assert f' == s'[|head|..|s'| - |tail|];
  }

  /** The separator between the resource and the rendered query: the query
      delimiter `?` when the text holds `&` or `=`, a path `/` otherwise. */
  function Separator(rendered: string): string {
    if '&' in rendered || '=' in rendered then "?" else "/"
  }

  /** The URL every queryable accessor requests. */
  function RequestUrl(lang: string, resource: string, rendered: string): string {
    URL_BASE + lang + "/" + resource + Separator(rendered) + rendered
  }

  /** The rendered text of an optional query; no query renders as "". */
  function Rendered(query: Option<Query>): string {
    match query
    case None => ""
    case Some(q) => q.ToString()
  }

  /** With no query (or an empty one) the URL lists the resource and ends
      with a slash. */
  lemma UrlWithoutQuery(lang: string, resource: string)
    ensures RequestUrl(lang, resource, "") == URL_BASE + lang + "/" + resource + "/"
  {
  }

  /** A bare id holding neither `&` nor `=` becomes a path segment. */
  lemma BareIdIsPathSegment(lang: string, resource: string, id: string)
    requires '&' !in id && '=' !in id
    ensures RequestUrl(lang, resource, id) == URL_BASE + lang + "/" + resource + "/" + id
  {
  }

  /** The URL is the fixed prefix, one separator and the query verbatim. */
  lemma UrlShape(lang: string, resource: string, rendered: string)
    ensures var url := RequestUrl(lang, resource, rendered);
      var prefix := URL_BASE + lang + "/" + resource;
      && |url| == |prefix| + 1 + |rendered|
      && url[..|prefix|] == prefix
      && (url[|prefix|] == '?' <==> '&' in rendered || '=' in rendered)
      && (url[|prefix|] == '/' <==> !('&' in rendered || '=' in rendered))
      && url[|prefix| + 1..] == rendered
  {
    var url := RequestUrl(lang, resource, rendered);
    var prefix := URL_BASE + lang + "/" + resource;
    assert url == prefix + Separator(rendered) + rendered;
  }

  /** A query from the setters that has a pagination or a sorting always
      takes the query delimiter `?`, since both texts hold `=`. */
  lemma GroupQueriesTakeQueryDelimiter(q: Query)
    requires q.Valid()
    requires q.pagination != "" || q.sorting != ""
    ensures Separator(q.ToString()) == "?"
  {
    RenderContains(q, '=');
  }

  /** Known limitation: an id that itself holds `=` is sent as parameters. */
  lemma IdWithEqualsIsSentAsParameters(id: string)
    requires '=' in id
    ensures Separator(Query.New().WithId(id).ToString()) == "?"
  {
    RenderOfId(id);
  }

  /** The id example of the builder's documentation. */
  lemma DocumentedIdQuery()
    ensures Query.New().WithId("swsh3-136").ToString() == "swsh3-136"
  {
    RenderOfId("swsh3-136");
  }

  /** A term that is one word is kept whole. */
  lemma SingleWordTerm()
    ensures HasToken("hp=100") && FirstToken("hp=100") == "hp=100"
  {
    var s := "hp=100";
    FirstTokenAt(s, 0, 6);
    assert s[0..6] == s;
  }

  /** A term with trailing text keeps only its first word. */
  lemma TermTruncatedToFirstWord()
    ensures HasToken("hp=100 extra text") && FirstToken("hp=100 extra text") == "hp=100"
  {
    var t := "hp=100 extra text";
    assert IsWhitespace(t[6]);
    FirstTokenAt(t, 0, 6);
  }

  /** Without an id or a pagination, a query renders as its filtering and
      its sorting joined by `&`. */
  lemma RenderFilteringAndSorting(q: Query)
    requires q.id == "" && q.pagination == "" && q.filtering != "" && q.sorting != ""
    ensures q.ToString() == q.filtering + "&" + q.sorting
  {
    var fields := [q.id, q.filtering, q.pagination, q.sorting];
    assert fields[3..] == [q.sorting];
    assert NonEmpty(fields[3..]) == [q.sorting];
    assert NonEmpty(fields[2..]) == [q.sorting];
    assert NonEmpty(fields[1..]) == [q.filtering, q.sorting];
    assert NonEmpty(fields) == [q.filtering, q.sorting];
    assert Join([q.sorting], "&") == q.sorting;
  }

  /** A filtering followed by a sorting renders as the two joined by `&`. */
  lemma RenderFilterThenSort(filter: seq<string>, field: string, order: Order)
    requires forall i :: 0 <= i < |filter| ==> HasToken(filter[i])
    requires Join(FirstTokens(filter), "&") != ""
    ensures Query.New().WithFiltering(filter).WithSorting(field, order).ToString()
      == Join(FirstTokens(filter), "&") + "&" + SortingString(field, order)
  {
    var joined := Join(FirstTokens(filter), "&");
    var q := Query.New().WithFiltering(filter);
    assert q == Query("", joined, "", "");
    var r := q.WithSorting(field, order);
    assert r == Query("", joined, "", SortingString(field, order));
    RenderFilteringAndSorting(r);
  }
}
