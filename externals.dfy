/**
 * Values exchanged with the library routines and converters that the network proxies call but
 * do not define: Node's `Buffer` conversions, `JSON.parse`, `URLSearchParams`, and the converters
 * `headersArrayToObject`, `normalizeFulfillParameters` and `normalizeContinueOverrides`.
 * They are kept uninterpreted: a `Codecs` value bundles one arbitrary total function per routine,
 * and nothing in the model depends on what those functions compute.
 */
module Externals {
  import opened Wrappers

  newtype byte = x: int | 0 <= x < 256

  type Bytes = seq<byte>

  /** One entry of the wire's header list. */
  datatype HeaderEntry = HeaderEntry(name: string, value: string)

  /** The decoded name-to-value header object. */
  type HeaderObject = map<string, string>

  /** A parsed JSON value. */
  datatype JsonValue =
    | JNull
    | JBool(b: bool)
    | JNumber(n: real)
    | JString(s: string)
    | JArray(items: seq<JsonValue>)
    | JObject(members: map<string, JsonValue>)

  /** A body given by the caller either as text or as raw bytes (`string | Buffer`). */
  datatype Body = Text(text: string) | Binary(bytes: Bytes)

  /** The caller's argument to `Route.fulfill`; every member is optional. */
  datatype FulfillResponse = FulfillResponse(
    status: Option<int>,
    headers: Option<HeaderObject>,
    contentType: Option<string>,
    body: Option<Body>,
    path: Option<string>)

  /**
   * What `normalizeFulfillParameters` hands back, forwarded verbatim to the channel. The
   * normalizer itself may fail (reading a `path` that cannot be read), hence its `Result`.
   */
  datatype NormalizedFulfill = NormalizedFulfill(
    status: int,
    headers: seq<HeaderEntry>,
    body: string,
    isBase64: bool)

  /** The caller's argument to `Route.continue`; every member is optional. */
  datatype ContinueOverrides = ContinueOverrides(
    httpMethod: Option<string>,
    headers: Option<HeaderObject>,
    postData: Option<Body>)

  /** What `normalizeContinueOverrides` hands back; post data is raw bytes when present. */
  datatype NormalizedContinue = NormalizedContinue(
    httpMethod: Option<string>,
    headers: Option<seq<HeaderEntry>>,
    postData: Option<Bytes>)

  /** The external routines, one uninterpreted function each. */
  datatype Codecs = Codecs(
    headersArrayToObject: seq<HeaderEntry> -> HeaderObject,
    base64Decode: string -> Bytes,
    base64Encode: Bytes -> string,
    utf8Decode: Bytes -> string,
    jsonParse: string -> Result<JsonValue>,
    formParse: string -> seq<(string, string)>,
    normalizeFulfill: FulfillResponse -> Result<NormalizedFulfill>,
    normalizeContinue: ContinueOverrides -> NormalizedContinue)
}
