/** The error taxonomy of `src/errors.rs` and the resolver that sorts a
    decoded response into success, an API-reported problem or an empty
    result. The decoded envelope `Response<T>` of `src/query.rs` is declared
    here, next to the problem record it carries. */
module Errors {
  import opened Primitives

  /** The problem record the API sends back (the fields of an RFC 7807
      problem-details object, section 3.1, plus what the API adds). */
  datatype TcgdexError = TcgdexError(
    typ: string,
    title: string,
    status: u16,
    endpoint: string,
    httpMethod: string,
    lang: string,
    details: string)

  /** A failure of the HTTP transport or of JSON decoding; only the text it
      displays is modelled. */
  datatype TransportError = TransportError(description: string)

  /** The decoded body of a response: a problem record or the data asked for. */
  datatype Response<T> = Error(problem: TcgdexError) | Data(data: T)

  /** The three kinds of error the client returns. */
  datatype Error =
    | Reqwest(cause: TransportError)
    | TcgdexApi(problem: TcgdexError)
    | EmptyResponse
  {
    predicate IsReqwest() {
      Reqwest?
    }

    predicate IsTcgdexApi() {
      TcgdexApi?
    }

    predicate IsEmptyResponse() {
      EmptyResponse?
    }

    /** `get_tcgdex_error`: the problem record exactly for an API error. */
    function GetTcgdexError(): (r: Option<TcgdexError>)
      ensures r.Some? <==> IsTcgdexApi()
      ensures r.Some? ==> this == TcgdexApi(r.value)
    {
      match this
      case TcgdexApi(p) => Some(p)
      case _ => None
    }

    /** `Display`: a fixed line for an empty response, the problem type for
        an API error, and the transport's own text for a transport error. */
    function ToString(): string {
      match this
      case EmptyResponse => "Response is empty\n"
      case Reqwest(e) => e.description
      case TcgdexApi(p) => "Error type : " + p.typ + "\n"
    }
  }

  /** `PartialEq for Error`: API errors compare by their problem records,
      empty responses are equal, and a transport error equals nothing, not
      even itself. */
  predicate Eq(a: Error, b: Error)
    ensures Eq(a, b) <==> a == b && !a.IsReqwest()
  {
    match (a, b)
    case (TcgdexApi(p), TcgdexApi(q)) => p == q
    case (EmptyResponse, EmptyResponse) => true
    case _ => false
  }

  /** `Result<T>`: the value asked for, or an error. */
  datatype Result<T> = Ok(value: T) | Err(error: Error)

  /** `set_error`: a problem record becomes an API error carrying it
      unchanged; data that is empty becomes an empty-response error; any
      other data is returned unchanged. */
  function SetError<T>(response: Response<T>, isEmpty: T -> bool): (r: Result<T>)
    ensures r.Ok? <==> response.Data? && !isEmpty(response.data)
    ensures r.Ok? ==> r.value == response.data
    ensures response.Error? ==> r == Err(TcgdexApi(response.problem))
    ensures response.Data? && isEmpty(response.data) ==> r == Err(EmptyResponse)
  {
    match response
    case Data(obj) => if isEmpty(obj) then Err(EmptyResponse) else Ok(obj)
    case Error(error) => Err(TcgdexApi(error))
  }

  /** What one GET hands back: the decoded body, or the transport's failure
      (a failed send or a body that does not decode). */
  datatype Delivery<T> = Delivered(response: Response<T>) | Failed(cause: TransportError)

  /** The end of every queryable `fetch`: a transport failure is propagated
      by `?` through `From<reqwest::Error>`, a decoded body goes through
      `set_error`. Success means data that is not empty, handed over as
      decoded. */
  function Resolve<T>(delivery: Delivery<T>, isEmpty: T -> bool): (r: Result<T>)
    ensures delivery.Failed? ==> r == Err(Reqwest(delivery.cause))
    ensures delivery.Delivered? ==> r == SetError(delivery.response, isEmpty)
    ensures r.Ok? <==> delivery.Delivered? && delivery.response.Data? && !isEmpty(delivery.response.data)
    ensures r.Ok? ==> r.value == delivery.response.data
  {
    match delivery
    case Failed(e) => Err(Reqwest(e))
    case Delivered(response) => SetError(response, isEmpty)
  }

  /** Every error is of exactly one kind. */
  lemma ExactlyOneKind(e: Error)
    ensures e.IsReqwest() || e.IsTcgdexApi() || e.IsEmptyResponse()
    ensures !(e.IsReqwest() && e.IsTcgdexApi())
    ensures !(e.IsReqwest() && e.IsEmptyResponse())
    ensures !(e.IsTcgdexApi() && e.IsEmptyResponse())
  {
  }

  /** Equality is symmetric and transitive, but not reflexive. */
  lemma EqIsPartialEquivalence(a: Error, b: Error, c: Error)
    ensures Eq(a, b) ==> Eq(b, a)
    ensures Eq(a, b) && Eq(b, c) ==> Eq(a, c)
    ensures a.IsReqwest() ==> !Eq(a, a)
    ensures !a.IsReqwest() ==> Eq(a, a)
  {
  }

  /** The resolver never reports a transport error, and the problem record
      of an API error can be read back from the result unchanged. */
  lemma ResolverRoundTrip<T>(p: TcgdexError, response: Response<T>, isEmpty: T -> bool)
    ensures SetError(response, isEmpty).Err? ==> !SetError(response, isEmpty).error.IsReqwest()
    ensures SetError(Error(p), isEmpty).error.GetTcgdexError() == Some(p)
  {
  }

  /** The displayed text of an API error keeps only the problem type: two API
      errors display alike exactly when their types are equal. */
  lemma DisplayKeepsOnlyType(p: TcgdexError, q: TcgdexError)
    ensures TcgdexApi(p).ToString() == TcgdexApi(q).ToString() <==> p.typ == q.typ
  {
    var head := "Error type : ";
    var s, t := TcgdexApi(p).ToString(), TcgdexApi(q).ToString();
    if s == t {
      assert s == head + p.typ + "\n" && t == head + q.typ + "\n";
      assert p.typ == s[|head|..|s| - 1];
      assert q.typ == t[|head|..|t| - 1];
    }
  }

  /** The empty-response text never looks like an API error's text. */
  lemma DisplayDistinguishesEmpty(p: TcgdexError)
    ensures EmptyResponse.ToString() != TcgdexApi(p).ToString()
  {
    assert EmptyResponse.ToString()[0] == 'R';
    assert TcgdexApi(p).ToString()[0] == 'E';
  }
}
