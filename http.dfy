/**
 * The shapes shared by the proxy handlers and the components that call them:
 * the outcome of one outbound call, the JSON envelope a handler returns, the
 * session cookie, and JavaScript's truthiness rules for optional strings.
 */
module Http {
  import opened Wrappers

  /**
   * The outcome of one `fetch` plus `.json()`: either something was thrown
   * (network failure, malformed JSON) or a decoded reply arrived. `error` is
   * the thrown `Error`'s message, or None when the thrown value is not an `Error`.
   */
  datatype Call<T> = Threw(error: Option<string>) | Replied(reply: T)

  /** A JSON object whose field values the portal only copies, never inspects. */
  type Object = map<string, string>

  /** A cookie as far as the model tracks it: name, value and max-age in seconds. */
  datatype Cookie = Cookie(name: string, value: string, maxAge: int)

  /** Both session cookies live for 30 days. */
  const SessionMaxAge: int := 60 * 60 * 24 * 30

  /**
   * The JSON envelope a handler returns: HTTP status, the `success` flag, the
   * optional `message`, the handler-specific payload and the cookie it sets.
   */
  datatype Response<D> = Response(status: int, success: bool, message: Option<string>, data: Option<D>, cookie: Option<Cookie>)
  {
    /** `response.ok` as the browser computes it. */
    predicate Ok() {
      200 <= status <= 299
    }
  }

  /** A handler's answer together with every outbound backend call it made, in order. */
  datatype Exchange<D, C> = Exchange(response: Response<D>, calls: seq<C>)

  /** `NextResponse.json(body)` without an explicit status: 200 and no cookie. */
  function Json<D>(success: bool, message: Option<string>, data: Option<D>): (r: Response<D>)
    ensures r.status == 200 && r.Ok() && r.cookie == None
    ensures r.success == success && r.message == message && r.data == data
  {
    Response(200, success, message, data, None)
  }

  /** `NextResponse.json({ success: false, message }, { status })`. */
  function Failure<D>(status: int, message: string): (r: Response<D>)
    ensures r.status == status && !r.success && r.message == Some(message)
    ensures r.data == None && r.cookie == None
  {
    Response(status, false, Some(message), None, None)
  }

  /** A string-valued JSON field or cookie is truthy when present and non-empty. */
  predicate Truthy(s: Option<string>) {
    s.Some? && s.value != ""
  }

  /** `s || fallback` for an optional string. */
  function Or(s: Option<string>, fallback: string): (r: string)
    ensures Truthy(s) ==> r == s.value
    ensures !Truthy(s) ==> r == fallback
  {
    if Truthy(s) then s.value else fallback
  }

  /**
   * `s.length` in JavaScript: UTF-16 code units, so a character beyond the
   * Basic Multilingual Plane (above U+FFFF) counts as two.
   */
  function Utf16Length(s: string): (n: nat)
    ensures |s| <= n <= 2 * |s|
  {
    if s == [] then 0
    else (if s[0] as int > 0xFFFF then 2 else 1) + Utf16Length(s[1..])
  }

  /** For text within the Basic Multilingual Plane the two lengths agree. */
  lemma {:induction false} Utf16LengthOfBmp(s: string)
    requires forall k :: 0 <= k < |s| ==> s[k] as int <= 0xFFFF
    ensures Utf16Length(s) == |s|
  {
    if s != [] {
      Utf16LengthOfBmp(s[1..]);
    }
  }

  /** Each character beyond the Basic Multilingual Plane adds one unit over the character count. */
  lemma {:induction false} Utf16LengthOfAstral(s: string)
    requires forall k :: 0 <= k < |s| ==> s[k] as int > 0xFFFF
    ensures Utf16Length(s) == 2 * |s|
  {
    if s != [] {
      Utf16LengthOfAstral(s[1..]);
    }
  }

  /** `s.startsWith(prefix)`. */
  predicate StartsWith(s: string, prefix: string) {
    |prefix| <= |s| && s[..|prefix|] == prefix
  }

  /** The value of `key` in a JSON object, as an optional string. */
  function Field(o: Object, key: string): (r: Option<string>)
    ensures r.Some? <==> key in o
    ensures key in o ==> r.value == o[key]
  {
    if key in o then Some(o[key]) else None
  }
}
