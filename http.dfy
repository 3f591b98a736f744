/**
 * Values that cross service boundaries: request fields as a validator sees
 * them, and the outcome of one outbound HTTP request made with a Guzzle
 * client (a returned response, or a thrown exception).
 */
module Http {

  datatype Option<+T> = None | Some(value: T)

  /** A field of an incoming JSON request. */
  datatype Value = Absent | Null | Int(i: int) | Str(s: string)

  /**
   * An exception thrown by an outbound request.
   * RequestError(Some(code)) is a Guzzle ClientException (4xx) or
   * ServerException (5xx), which carry the response; RequestError(None) is a
   * RequestException without a response; OtherError is any other exception.
   */
  datatype Exc = RequestError(status: Option<int>) | OtherError

  datatype Outcome<+B> = Returned(status: int, body: B) | Threw(exc: Exc)

  /** Guzzle's default `http_errors`: a 4xx or 5xx answer is thrown, not returned. */
  function ClientCall<B>(status: int, body: B): (o: Outcome<B>)
    ensures o.Returned? <==> status < 400
    ensures o.Returned? ==> o.status == status && o.body == body
    ensures o.Threw? ==> o.exc == RequestError(Some(status))
  {
    if status < 400 then Returned(status, body) else Threw(RequestError(Some(status)))
  }

  /** The outcome is a ClientException whose response has the given status. */
  predicate IsClientError<B>(o: Outcome<B>, code: int)
  {
    o.Threw? && o.exc.RequestError? && o.exc.status == Some(code) && 400 <= code < 500
  }

  function Abs(x: int): (r: nat)
    ensures r == x || r == -x
  {
    if x < 0 then -x else x
  }

  /** PHP `empty()` on a string: true for "" and for "0". */
  predicate EmptyString(s: string)
  {
    s == "" || s == "0"
  }

  function Digit(d: nat): char
    requires d < 10
  {
    "0123456789"[d]
  }

  /** PHP's decimal rendering of an integer in string concatenation. */
  function IntToString(n: int): (s: string)
    ensures |s| >= 1
    decreases if n < 0 then 1 - n else n
  {
    if n < 0 then "-" + IntToString(-n)
    else if n < 10 then [Digit(n)]
    else IntToString(n / 10) + [Digit(n % 10)]
  }
}
