/**
 * How SendRemoteCommand classifies a non-2xx reply other than 401: the
 * `Content-Type` is cut at its first ';' and trimmed, and only the exact
 * JSON media type leads to decoding the body as the backend's own error.
 */
module Classifier {
  import opened Text
  import opened Wire

  const JsonMediaType := "application/json"

  /**
   * The media type compared against JSON: the header unchanged when it has
   * no ';', otherwise the white-space-trimmed part before the first ';'.
   */
  function MediaType(contentType: string): (t: string)
    ensures ';' !in contentType ==> t == contentType
    ensures ';' in contentType ==> ';' !in t && |t| < |contentType|
  {
    var splitIdx := IndexOf(contentType, ';');
    if splitIdx == -1 then contentType
    else
      var head := contentType[..splitIdx];
      TrimSpaceKeepsOut(head, ';');
      TrimSpace(head)
  }

  predicate SelectsJson(contentType: string)
  {
    MediaType(contentType) == JsonMediaType
  }

  /** `contentType` is the JSON media type padded with white space, then parameters. */
  predicate JsonWithParams(contentType: string, before: string, after: string, params: string)
  {
    && AllSpace(before) && AllSpace(after)
    && contentType == before + JsonMediaType + after + ";" + params
  }

  /** Any padding of the JSON media type, followed by parameters, selects JSON. */
  lemma JsonWithParamsSelectsJson(before: string, after: string, params: string)
    requires AllSpace(before) && AllSpace(after)
    ensures SelectsJson(before + JsonMediaType + after + ";" + params)
  {
    var head := before + JsonMediaType + after;
    var ct := head + ";" + params;
    assert ct == before + JsonMediaType + after + ";" + params;
    assert ';' !in before && ';' !in after;
    assert ';' !in head;
    assert ct[..|head|] == head;
    IndexOfAt(ct, ';', |head|);
    TrimSpacePadded(before, JsonMediaType, after);
  }

  /**
   * Which content types take the JSON path, in both directions: exactly
   * the JSON media type itself, or the JSON media type with white space
   * around it followed by ';' and any parameters.  Without a ';' no
   * trimming happens, so " application/json" is not JSON.
   */
  lemma SelectsJsonIff(contentType: string)
    ensures SelectsJson(contentType) <==>
      || contentType == JsonMediaType
      || exists before, after, params :: JsonWithParams(contentType, before, after, params)
  {
    if ';' in contentType {
      if exists before, after, params :: JsonWithParams(contentType, before, after, params) {
        var before, after, params :| JsonWithParams(contentType, before, after, params);
        JsonWithParamsSelectsJson(before, after, params);
      }
      if SelectsJson(contentType) {
        var before, after, params := JsonShape(contentType);
      }
      assert contentType != JsonMediaType by { JsonMediaTypeHasNoParams(); }
    } else {
      assert MediaType(contentType) == contentType;
      assert !exists before, after, params :: JsonWithParams(contentType, before, after, params);
    }
  }

  lemma JsonMediaTypeHasNoParams()
    ensures ';' !in JsonMediaType
  {
  }

  /** Splits a content type that selects JSON and has parameters into its parts. */
  lemma JsonShape(contentType: string) returns (before: string, after: string, params: string)
    requires SelectsJson(contentType) && ';' in contentType
    ensures JsonWithParams(contentType, before, after, params)
  {
    var i := IndexOf(contentType, ';');
    var head := contentType[..i];
    assert TrimSpace(head) == JsonMediaType;
    before, after := TrimSpaceSplits(head);
    params := contentType[i + 1..];
    CutAt(contentType, i);
  }

  lemma CutAt(s: string, i: nat)
    requires i < |s| && s[i] == ';'
    ensures s == s[..i] + ";" + s[i + 1..]
  {
  }

  /**
   * The error a non-2xx, non-401 reply becomes: for a JSON content type the
   * decoded body forwarded as the backend's own error, or a decode error
   * carrying the body; for anything else httpError with the status code.
   */
  function ClassifyFailure(status: int, contentType: string, body: string, decode: Decoder): (e: Error)
    ensures e.ForwardedFromBackend? <==> SelectsJson(contentType) && decode(body).Decoded?
    ensures e.ForwardedFromBackend? ==> decode(body) == Decoded(e.jsonError)
    ensures e.JsonDecodeError? <==> SelectsJson(contentType) && decode(body).DecodeFailed?
    ensures e.JsonDecodeError? ==> e.body == body && decode(body) == DecodeFailed(e.reason)
    ensures e.HttpError? <==> !SelectsJson(contentType)
    ensures e.HttpError? ==> e.code == status
  {
    if MediaType(contentType) == JsonMediaType then
      match decode(body)
      case Decoded(v) => ForwardedFromBackend(v)
      case DecodeFailed(reason) => JsonDecodeError(reason, body)
    else
      HttpError(status)
  }

  /** A JSON error reply with a charset parameter is forwarded as JSON. */
  lemma JsonWithCharsetIsForwarded(status: int, body: string, decode: Decoder, v: Json)
    requires decode(body) == Decoded(v)
    ensures ClassifyFailure(status, "application/json; charset=utf-8", body, decode) == ForwardedFromBackend(v)
  {
    assert "application/json; charset=utf-8" == "" + JsonMediaType + "" + ";" + " charset=utf-8";
    JsonWithParamsSelectsJson("", "", " charset=utf-8");
  }

  /** A plain-text error reply is never decoded: it becomes httpError. */
  lemma PlainTextIsHttpError(status: int, body: string, decode: Decoder)
    ensures ClassifyFailure(status, "text/plain", body, decode) == HttpError(status)
  {
    assert ';' !in "text/plain";
  }

  /** Leading white space is only trimmed when a ';' follows. */
  lemma PaddedWithoutParamsIsNotJson(status: int, body: string, decode: Decoder)
    ensures ClassifyFailure(status, " application/json", body, decode) == HttpError(status)
  {
    assert ';' !in " application/json";
  }
}
