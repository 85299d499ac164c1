/** The Lambda response dictionary both handlers return, kept structured. */
module Envelope {
  import opened Wrappers

  /** One octet of an HTTP body. */
  newtype byte = x: int | 0 <= x < 256

  /** A response body. `JsonObject` and `JsonString` are values the handler
      passes to `json.dumps`; `Raw` is a string placed in the envelope as is. */
  datatype Body =
    | JsonObject(members: seq<(string, string)>)
    | JsonString(text: string)
    | Raw(text: string)

  /** `headers` and `isBase64Encoded` are `None` when the dictionary has no such key. */
  datatype Response = Response(
    statusCode: int,
    headers: Option<map<string, string>>,
    body: Body,
    isBase64Encoded: Option<bool>)

  /** The response carries header `name` with value `value`. */
  predicate HasHeader(r: Response, name: string, value: string) {
    r.headers.Some? && name in r.headers.value && r.headers.value[name] == value
  }

  /** The JSON object body has member `key` with value `value`. */
  predicate HasMember(r: Response, key: string, value: string) {
    r.body.JsonObject? && (key, value) in r.body.members
  }
}
