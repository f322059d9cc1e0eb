# tcgdex_api in Dafny

A model of the deterministic core of `tcgdex_api`, a blocking Rust client
for the TCGdex REST API (Pokémon trading-card data). Once the HTTP
transport is treated as an input, the client comes down to four pieces,
and the model has one Dafny module for each:

- **Query builder** (`queries.dfy`, module `Queries`). This models
  `src/query.rs`. `Query` has four string fields: `id`, `filtering`,
  `pagination` and `sorting`. Its setters follow a group lock: an id lookup
  and the filter/pagination/sort group exclude each other, and whichever is
  set first wins. A query renders as the `&`-join of its non-empty fields.
  The same module holds the URL that the queryable accessors build from
  the rendered text. The separator is `?` (the query delimiter of section
  3.4 of RFC 3986) when that text holds `&` or `=`. Otherwise it is `/`, so
  a bare id becomes a path segment.
- **Error taxonomy and resolver** (`errors.dfy`, module `Errors`). This
  models `src/errors.rs`. It has the three error kinds (transport, API
  problem, empty response), their predicates, the accessor, `Display`, and
  an equality that is not reflexive. It also has `set_error`, which sorts a
  decoded body into success, an API error or an empty response. The
  problem record has the shape of an RFC 7807 problem-details object
  (section 3.1: `type`, `title`, `status`).
- **Queryable accessors** (`sets.dfy`, `series.dfy`, `cards.dfy`). Each
  has its record's emptiness test (name and id both empty), the emptiness
  of its brief list (no element), and its `fetch`. `fetch` is a method
  that builds the URL by reassigning its two locals, as the source does.
  It then resolves the reply of an abstract `get`.
- **Client and languages** (`lib.dfy`, module `Lib`). The six languages,
  their display names and their two-letter lowercase codes. `Tcgdex` is a
  class whose language `set_lang` changes in place. Every accessor it hands
  out carries the current language's code.

`primitives.dfy` holds `Option`, `u8` and `u16`. `text.dfy` holds the
parts of Rust's string library the core uses: `char::is_whitespace` (the
Unicode White_Space set), `split_whitespace`, `join` and decimal
formatting, each with the properties the core relies on.

The builder is a value type. The Rust setters take `self` by value and
return it, so no query can be shared or aliased. The push loop inside
`with_filtering` is the method `Queries.FixFilter`. It is proved against
`FirstTokens`, which the functional setter `WithFiltering` uses. Indexing
`[0]` into an empty word list panics, so `WithFiltering` requires that
every term has a word, but only when no id is set, because only then does
the loop run. In a chain of setters (`Queries.Run`) such a panic is `None`.

Three behaviours of the code are easy to miss:

- With no query, the code always appends the separator `/`. So the URL
  ends in `/sets/`, `/series/` or `/cards/`, with a trailing slash, not
  in a bare resource name.
- `Display` for an API error is `Error type : <type>` followed by a
  newline. The integration tests expect `Tcgdex error : …` instead.
- The cards accessor takes an already rendered `Option<String>`. The tests
  pass it a `Query`.

## Model

| member | source | states |
|---|---|---|
| `Text.IsWhitespace` | src/query.rs:73 | Membership in Unicode's White_Space property, the set `char::is_whitespace` tests and `split_whitespace` splits on. |
| `Text.SplitWhitespace` | src/query.rs:73 | Every word is non-empty and free of whitespace. The word list is empty exactly when the term has no non-whitespace character, which is when `[0]` panics. |
| `Text.FirstToken` | src/query.rs:73 | The `[0]` of the collected words, defined only when there is a word. `FirstTokenIsFirstRun` and `FirstTokenAt` pin it down. |
| `Text.FirstTokenIsFirstRun` | src/query.rs:73 | The first word starts right after the leading whitespace. It runs to the next whitespace character or to the end of the term. |
| `Text.FirstTokenAt` | src/query.rs:73 | Conversely, a non-empty whitespace-free run that follows only whitespace and ends at whitespace or at the end is the first word. |
| `Text.Join` | src/query.rs:75 | `join("&")`: the parts with the separator between neighbours. `JoinContains` and `JoinEmpty` state what it contains and when it is empty. |
| `Text.JoinContains` | src/query.rs:75 | A character is in a `&`-join exactly when it is in some part, or in the separator once there are two parts or more. |
| `Text.JoinEmpty` | src/query.rs:104 | A join is empty exactly when every part is empty and no non-empty separator is placed. |
| `Text.DecimalString` | src/query.rs:84 | The decimal rendering of the page and page size is at least one digit, all digits, with no leading zero. |
| `Text.DecimalRoundTrip` | src/query.rs:84 | Reading the decimal rendering back gives the number. |
| `Text.DecimalInjective` | src/query.rs:84 | Different numbers never render to the same digits. |
| `Text.ToLowerAscii` | src/lib.rs:137 | Lower-casing of the language name, letter by letter; on the six ASCII variant names it agrees with `to_lowercase`. |
| `Queries.Order.ToString` | src/query.rs:16-20 | The variant name, `ASC` or `DESC`. `SortingOrderReadable` proves the two orders stay apart in the sorting text. |
| `Queries.FirstTokens` | src/query.rs:71-74 | The first word of every term, in order. It is the specification `FixFilter` is proved against. |
| `Queries.PaginationString` | src/query.rs:82-84 | The exact `format!` text of the pagination. `PaginationInjective` proves both numbers can be read back from it. |
| `Queries.SortingString` | src/query.rs:91-92 | The exact `format!` text of the sorting. `SortingOrderReadable` proves field and order can be read back from it. |
| `Queries.FixFilter` | src/query.rs:71-74 | The loop pushes, in input order, the first word of each term and nothing else. |
| `Queries.NonEmpty` | src/query.rs:99-103 | The kept fields are exactly the non-empty ones. None is kept exactly when all are empty. |
| `Queries.NonEmptyAppend` | src/query.rs:99-103 | The filter works piecewise over a concatenation, so it keeps the order and the number of occurrences of the non-empty fields. |
| `Queries.NonEmptyKeepsAll` | src/query.rs:99-103 | When every field is non-empty, every field is kept, in place. |
| `Queries.Query.New` | src/query.rs:51-58 | `new()` (and `Default`) satisfies the builder invariant and renders to the empty string. |
| `Queries.Query.WithId` | src/query.rs:61-66 | Sets the id only while filtering, sorting and pagination are empty. Never touches the other three fields. Keeps the invariant. |
| `Queries.Query.WithFiltering` | src/query.rs:69-78 | With no id, replaces the filtering with the `&`-join of the terms' first words. With an id, returns the query unchanged. Keeps the invariant. |
| `Queries.Query.WithPagination` | src/query.rs:81-87 | With no id, replaces the pagination with `pagination:page=P&pagination:itemsPerPage=N`. With an id, it is a no-op. Keeps the invariant. |
| `Queries.Query.WithSorting` | src/query.rs:90-95 | With no id, replaces the sorting with `sort:field=F&sort:order=ASC` or `DESC`. With an id, it is a no-op. Keeps the invariant. |
| `Queries.Query.ToString` | src/query.rs:97-105 | `Display`: the non-empty fields among id, filtering, pagination and sorting, in that order, joined with `&`. The `Render…` lemmas below state its properties. |
| `Queries.RenderEmpty` | src/query.rs:97-105 | A query renders to the empty string exactly when all four fields are empty. |
| `Queries.RenderId` | src/query.rs:97-105 | A query holding an id, under the group lock, renders to exactly that id. |
| `Queries.RenderContains` | src/query.rs:99-104 | Every character of every field appears in the rendering, and every character of the rendering comes from a field or is the `&` separator. |
| `Queries.RenderFilteringAndSorting` | src/query.rs:99-104 | Without id and pagination, the rendering is the filtering, `&`, then the sorting, in that fixed order. |
| `Queries.RenderFullGroup` | src/query.rs:99-104 | Without an id and with all three group fields set, the rendering is the filtering, `&`, the pagination, `&`, then the sorting. |
| `Queries.RenderFilterThenSort` | src/query.rs:36 | The documented chain `new().with_filtering(..).with_sorting(..)` renders as the joined first words, `&`, then the sorting text. |
| `Queries.RenderOfId` | src/query.rs:39 | `new().with_id(id)` renders to exactly `id`. |
| `Queries.DocumentedIdQuery` | src/query.rs:39 | `new().with_id("swsh3-136")` renders to `swsh3-136`. |
| `Queries.SingleWordTerm` | src/query.rs:36 | The one-word term `hp=100` is kept whole. |
| `Queries.TermTruncatedToFirstWord` | src/query.rs:71-75 | The term `hp=100 extra text` is cut to `hp=100`. |
| `Queries.SettersOverwrite` | src/query.rs:81-95 | A second pagination or sorting call replaces the first instead of appending to it. |
| `Queries.GroupSettersCommute` | src/query.rs:81-95 | Within the filter group, the pagination and sorting calls can come in either order. |
| `Queries.IdAndGroupDoNotCommute` | src/query.rs:26-28 | Across the groups, call order decides: the id wins if set first, and is dropped if set after a pagination. |
| `Queries.Step` | src/query.rs:61-95 | One setter call applied to a query, or `None` where `with_filtering` panics on a term with no word while no id is set. |
| `Queries.Run` | src/query.rs:61-95 | A chain of setter calls applied in order, `None` as soon as one panics. `RunPreservesValid` states what every chain keeps. |
| `Queries.RunPreservesValid` | src/query.rs:26-95 | Every chain of setter calls that does not panic keeps the group lock, and keeps `=` in the pagination and sorting texts. |
| `Queries.NoChainBreaksTheLock` | src/query.rs:26-28 | From `new()`, no chain of setters yields an id together with a filtering, pagination or sorting. |
| `Queries.PaginationInjective` | src/query.rs:81-84 | Different page numbers or page sizes never render alike, so both can be read back from the text. |
| `Queries.SortingOrderReadable` | src/query.rs:90-92 | Different fields or orders never render alike, so both can be read back from the text. |
| `Queries.Separator` | src/endpoints/sets.rs:157-167 | `/` by default, `?` when the rendered query holds `&` or `=`. |
| `Queries.RequestUrl` | src/endpoints/sets.rs:169-172 | The `format!` of base, language, `/`, resource, separator and rendered query. `UrlShape` states its shape. |
| `Queries.Rendered` | src/endpoints/sets.rs:156-163 | The rendered query, or the empty string when there is none. |
| `Queries.UrlWithoutQuery` | src/endpoints/sets.rs:156-172 | With no query, the URL is base, language, `/`, resource and a trailing `/`. |
| `Queries.UrlShape` | src/endpoints/sets.rs:165-172 | The URL is the fixed prefix, then one separator, which is `?` exactly when the query holds `&` or `=` and `/` otherwise, then the query verbatim. |
| `Queries.BareIdIsPathSegment` | src/endpoints/cards.rs:200-204 | A query with neither `&` nor `=` is appended as a path segment after `/`. |
| `Queries.GroupQueriesTakeQueryDelimiter` | src/endpoints/sets.rs:160-167 | A query built by the setters with a pagination or sorting always takes `?`. |
| `Queries.IdWithEqualsIsSentAsParameters` | src/endpoints/sets.rs:165-167 | An id that itself holds `=` is sent after `?` as if it were parameters. |
| `Errors.Error.IsReqwest` | src/errors.rs:52-56 | Holds exactly for a transport error. `ExactlyOneKind` relates the three predicates. |
| `Errors.Error.IsTcgdexApi` | src/errors.rs:58-62 | Holds exactly for an API error. |
| `Errors.Error.IsEmptyResponse` | src/errors.rs:64-68 | Holds exactly for an empty response. |
| `Errors.Error.ToString` | src/errors.rs:80-88 | `Display`: `Response is empty`, the transport error's own text, or `Error type : <type>`, each API and empty line ending in a newline. `DisplayKeepsOnlyType` and `DisplayDistinguishesEmpty` state what the text tells apart. |
| `Errors.Error.GetTcgdexError` | src/errors.rs:72-77 | Gives `Some(p)` exactly for `TcgdexApi(p)`, with `p` unchanged, and `None` for the two other kinds. |
| `Errors.Eq` | src/errors.rs:103-112 | Two errors are equal exactly when they are the same and not a transport error. |
| `Errors.EqIsPartialEquivalence` | src/errors.rs:103-112 | Equality is symmetric and transitive, reflexive on API and empty errors, and never holds for a transport error compared with itself. |
| `Errors.ExactlyOneKind` | src/errors.rs:52-68 | Exactly one of `is_reqwest`, `is_tcgdexapi` and `is_empty_response` holds for every error. |
| `Errors.DisplayKeepsOnlyType` | src/errors.rs:80-88 | Two API errors display alike exactly when their problem types are equal. |
| `Errors.DisplayDistinguishesEmpty` | src/errors.rs:80-88 | `Response is empty` never reads like an API error's `Error type : …`. |
| `Errors.SetError` | src/errors.rs:114-128 | A problem record becomes `TcgdexApi` carrying it unchanged. Empty data becomes `EmptyResponse`. Only non-empty data succeeds, and it is handed over unchanged. |
| `Errors.ResolverRoundTrip` | src/errors.rs:114-128 | The resolver never reports a transport error. The problem record of an API error reads back unchanged through `get_tcgdex_error`. |
| `Errors.Resolve` | src/endpoints/sets.rs:174-175 | A transport failure becomes `Reqwest` through `?`. A decoded body gives exactly what `set_error` gives for it. Success means non-empty decoded data, handed over unchanged. |
| `Sets.Set.IsEmpty` | src/endpoints/sets.rs:115-119 | A set is empty when its name and its id are both empty. |
| `Sets.ListIsEmpty` | src/endpoints/sets.rs:121-125 | A set list is empty when it has no element. |
| `Sets.SetResolution` | src/endpoints/sets.rs:115-119 | A set resolves to `EmptyResponse` exactly when its name and id are both empty. Otherwise it is returned as decoded. |
| `Sets.SetListResolution` | src/endpoints/sets.rs:121-125 | A set list resolves to `EmptyResponse` exactly when it has no element. |
| `Sets.SetApi.Fetch` | src/endpoints/sets.rs:151-176 | Requests base + language + `/sets` + separator + rendered query, with `/sets/` when there is no query, and resolves the reply. |
| `Series.Serie.IsEmpty` | src/endpoints/series.rs:46-50 | A serie is empty when its name and its id are both empty. |
| `Series.ListIsEmpty` | src/endpoints/series.rs:52-56 | A serie list is empty when it has no element. |
| `Series.SerieResolution` | src/endpoints/series.rs:46-50 | A serie resolves to `EmptyResponse` exactly when its name and id are both empty. |
| `Series.SerieListResolution` | src/endpoints/series.rs:52-56 | A serie list resolves to `EmptyResponse` exactly when it has no element. |
| `Series.SerieApi.Fetch` | src/endpoints/series.rs:82-107 | Requests base + language + `/series` + separator + rendered query, with `/series/` when there is no query, and resolves the reply. |
| `Cards.Card.Default` | src/endpoints/cards.rs:76-78 | The derived default card, with every modelled field empty. |
| `Cards.Card.IsEmpty` | src/endpoints/cards.rs:155-159 | A card is empty when its name and its id are both empty; the local id plays no part. |
| `Cards.ListIsEmpty` | src/endpoints/cards.rs:161-165 | A card list is empty when it has no element. |
| `Cards.QueryText` | src/endpoints/cards.rs:191-197 | The query string, or the empty string when there is none. |
| `Cards.CardResolution` | src/endpoints/cards.rs:155-159 | A card resolves to `EmptyResponse` exactly when its name and id are both empty, so the all-default card is empty. |
| `Cards.CardListResolution` | src/endpoints/cards.rs:161-165 | A card list resolves to `EmptyResponse` exactly when it has no element. |
| `Cards.CardApi.Fetch` | src/endpoints/cards.rs:186-208 | Requests base + language + `/cards` + separator + the query string verbatim, with `/cards/` for `None`, and resolves the reply. |
| `Cards.CardIdIsPathSegment` | src/endpoints/cards.rs:204 | The bare id `sih3-136` gives `…/<lang>/cards/sih3-136`. |
| `Lib.Lang.ToString` | src/lib.rs:52-56 | `Display`: the variant name, `EN` to `ES`. |
| `Lib.Lang.Code` | src/lib.rs:136-138 | The code handed to the accessors is two lowercase ASCII letters. |
| `Lib.LangCodes` | src/lib.rs:32-56 | The codes are `en`, `fr`, `de`, `it`, `pt` and `es`, and no two languages share one. |
| `Lib.Tcgdex.constructor` | src/lib.rs:71-84 | `new()` (and `Default`) starts in English. |
| `Lib.Tcgdex.SetLang` | src/lib.rs:87-90 | Replaces the language and returns the same client for chaining. |
| `Lib.Tcgdex.Sets` | src/lib.rs:136-138 | The sets accessor carries the current language's code. |
| `Lib.Tcgdex.Series` | src/lib.rs:130-132 | The series accessor carries the current language's code. |
| `Lib.Tcgdex.Cards` | src/lib.rs:142-144 | The cards accessor carries the current language's code. |

## Left out

- HTTP transport. `client.get(url).send()?.json()?` is the parameter `get`, a function from the URL to a decoded body or a transport failure. The `reqwest` client field of `Tcgdex` is not modelled.
- JSON decoding. serde's untagged variant order, field renames and defaults are library behaviour. Records keep only the fields their emptiness reads, plus the card's local id.
- `Display` for a transport error delegates to reqwest. The model gives back the transport error's own description.
- `std::error::Error::source` and `From<reqwest::Error>` are not modelled as separate members. `From` appears only as the `Reqwest` wrapping inside `Errors.Resolve`.
- The list endpoints (types, categories, HP, illustrators, rarities, retreat costs) and their six accessors in `src/lib.rs` are not modelled. Each only formats a constant path and issues a GET.
- `Response<T>` is declared in module `Errors`, next to the problem record, because Dafny modules cannot import each other in a cycle.
- Lower-casing covers ASCII only. Rust's `to_lowercase` is Unicode-aware, but it is applied only to the six ASCII variant names, where the two agree.
- No URL encoding: the source does none (section 2.1 of RFC 3986), so the query is appended verbatim in the model too.
- The integration tests are not modelled. They run against the live API, and their data counts drift.
