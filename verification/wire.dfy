/**
 * What crosses the boundary of the RPC layer: the logical form fields of a
 * request, the outcomes of the collaborators it calls (the NaCl form
 * sealer, the HTTP client, the JSON decoder), and the errors it returns
 * with their texts.
 */
module Wire {
  import opened StrConv
  import opened Text

  datatype Option<+T> = None | Some(value: T)

  /** url.Values: each field name maps to its list of values. */
  type Form = map<string, seq<string>>

  /** Who issued a command, as the caller passes it in. */
  datatype AuthInfo = AuthInfo(twitchUsername: string, usernameValidated: bool)

  /** What ServerInfo.Seal produced: the sealed form to POST, or its error. */
  datatype Sealing = Sealed(form: Form) | SealFailed(reason: string)

  /** Reading the whole reply body: its text, or the read error. */
  datatype Body = Read(text: string) | ReadFailed(reason: string)

  /**
   * An HTTP reply as the backend code sees it: the status code, the first
   * `Content-Type` and `FFZ-Cache` header values ("" when absent), the
   * outcome of reading the body, and the error, if any, of closing it.
   */
  datatype Reply = Reply(
    status: int,
    contentType: string,
    cacheHint: string,
    body: Body,
    closeError: Option<string>)

  /** What http.Client.PostForm produced: a reply, or a transport error. */
  datatype PostOutcome = Replied(reply: Reply) | TransportFailed(reason: string)

  /** An arbitrary JSON value, as json.Unmarshal into interface{} builds it. */
  datatype Json =
    | JNull
    | JBool(b: bool)
    | JNumber(text: string)
    | JString(s: string)
    | JArray(items: seq<Json>)
    | JObject(members: seq<(string, Json)>)

  /** What json.Unmarshal produced: the value, or its error text. */
  datatype Decoding = Decoded(value: Json) | DecodeFailed(reason: string)

  /** The oracles each backend call consults. */
  type Sealer = Form -> Sealing
  type Poster = (string, Form) -> PostOutcome
  type Decoder = string -> Decoding

  /** Every error a backend call can return. */
  datatype Error =
      /** An error from Seal, passed on unchanged. */
    | SealError(reason: string)
      /** An error from PostForm, passed on unchanged. */
    | TransportError(reason: string)
      /** An error from reading the reply body, passed on unchanged. */
    | BodyReadError(reason: string)
      /** An error from closing the reply body, passed on unchanged. */
    | CloseError(reason: string)
      /** ErrAuthorizationNeeded: the backend answered 401. */
    | AuthorizationNeeded
      /** ErrForwardedFromBackend: the backend's own JSON error value. */
    | ForwardedFromBackend(jsonError: Json)
      /** A JSON error reply whose body did not decode. */
    | JsonDecodeError(reason: string, body: string)
      /** httpError: a non-2xx reply that is not JSON. */
    | HttpError(code: int)
      /** A 2xx reply whose `FFZ-Cache` header is not a 64-bit integer. */
    | NonIntegerCacheDuration(hint: string, err: NumError)
      /** ErrBackendNotOK: a non-2xx reply to a topic notice. */
    | BackendNotOK(code: int, response: string)

  datatype Result<+T> = Ok(value: T) | Err(error: Error)

  /** A call that returns only an error: `Pass` stands for nil. */
  datatype Outcome = Pass | Fail(error: Error)

  const AuthorizationNeededText := "Must authenticate Twitch username to use this command"

  /** A status code in [200, 299]. */
  predicate Is2xx(status: int)
  {
    200 <= status <= 299
  }

  /**
   * The text of an error (its Error() method), where it does not depend on
   * json.Marshal or strconv.Quote: for ForwardedFromBackend and
   * NonIntegerCacheDuration it is None.
   */
  function ErrorText(e: Error): Option<string>
  {
    match e
    case SealError(r) => Some(r)
    case TransportError(r) => Some(r)
    case BodyReadError(r) => Some(r)
    case CloseError(r) => Some(r)
    case AuthorizationNeeded => Some(AuthorizationNeededText)
    case ForwardedFromBackend(_) => None
    case JsonDecodeError(r, body) =>
      Some("error decoding json error from backend: " + r + " | " + body)
    case HttpError(code) => Some("backend http error: " + FormatInt(code))
    case NonIntegerCacheDuration(_, _) => None
    case BackendNotOK(code, response) =>
      Some("backend returned " + FormatInt(code) + ": " + response)
  }

  const HttpErrorPrefix := "backend http error: "

  /**
   * The text of httpError carries its status code: the part after the
   * fixed prefix reads back, as a decimal, to the code.
   */
  lemma HttpErrorTextCarriesCode(code: int)
    requires MinInt64 <= code <= MaxInt64
    ensures var t := ErrorText(HttpError(code));
      && t.Some? && |t.value| > |HttpErrorPrefix|
      && t.value[..|HttpErrorPrefix|] == HttpErrorPrefix
      && ParseInt64(t.value[|HttpErrorPrefix|..]) == Parsed(code)
  {
    var t := HttpErrorPrefix + FormatInt(code);
    assert ErrorText(HttpError(code)) == Some(t);
    assert t[|HttpErrorPrefix|..] == FormatInt(code);
    ParseFormat(code);
  }

  /** Two different status codes never give the same httpError text. */
  lemma HttpErrorTextInjective(a: int, b: int)
    requires ErrorText(HttpError(a)) == ErrorText(HttpError(b))
    ensures a == b
  {
    var ta := HttpErrorPrefix + FormatInt(a);
    var tb := HttpErrorPrefix + FormatInt(b);
    assert ta[|HttpErrorPrefix|..] == FormatInt(a);
    assert tb[|HttpErrorPrefix|..] == FormatInt(b);
    FormatIntInjective(a, b);
  }

  /**
   * The text of ErrBackendNotOK determines both its code and its response:
   * the code's digits contain no ':', so the first ':' ends them.
   */
  lemma BackendNotOKTextInjective(a: int, ra: string, b: int, rb: string)
    requires ErrorText(BackendNotOK(a, ra)) == ErrorText(BackendNotOK(b, rb))
    ensures a == b && ra == rb
  {
    NoColon(a);
    NoColon(b);
    PrefixedColonSplit("backend returned ", FormatInt(a), ra, FormatInt(b), rb);
    FormatIntInjective(a, b);
  }

  /** After a common prefix, the first ':' separates the two parts. */
  lemma PrefixedColonSplit(pre: string, x: string, rx: string, y: string, ry: string)
    requires ':' !in x && ':' !in y
    requires pre + x + ": " + rx == pre + y + ": " + ry
    ensures x == y && rx == ry
  {
    var sx := x + ": " + rx;
    var sy := y + ": " + ry;
    assert pre + x + ": " + rx == pre + sx;
    assert pre + y + ": " + ry == pre + sy;
    PrefixCancel(pre, sx, sy);
    ColonSplit(x, rx, y, ry);
  }

  lemma PrefixCancel(pre: string, x: string, y: string)
    requires pre + x == pre + y
    ensures x == y
  {
    assert x == (pre + x)[|pre|..];
  }

  lemma NoColon(n: int)
    ensures ':' !in FormatInt(n)
  {
    if ':' in FormatInt(n) {
      FormatIntChars(n, ':');
    }
  }

  lemma ColonSplit(x: string, rx: string, y: string, ry: string)
    requires ':' !in x && ':' !in y
    requires x + ": " + rx == y + ": " + ry
    ensures x == y && rx == ry
  {
    var s := x + ": " + rx;
    var t := y + ": " + ry;
    assert s[..|x|] == x && t[..|y|] == y;
    IndexOfAt(s, ':', |x|);
    IndexOfAt(t, ':', |y|);
    assert x == s[..|x|] && y == t[..|y|];
    assert rx == s[|x| + 2..] && ry == t[|y| + 2..];
  }
}
