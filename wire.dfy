/**
 * The wire-level message shape shared by the three components.
 *
 * Every frame is one JSON object. Its scalar fields are modelled as strings (an
 * absent field is a missing key); the one array-valued field the clients read,
 * `data` of a `history` frame, is kept apart as a sequence of objects.
 */
module Wire {
  import opened Wrappers

  /** A JSON object with string-valued fields. */
  type Record = map<string, string>

  /** A whole frame: its scalar fields, and the `data` array when present. */
  datatype Frame = Frame(fields: Record, data: Option<seq<Record>>)

  /** `r.k` read as an optional value. */
  function Get(r: Record, k: string): Option<string>
  {
    if k in r then Some(r[k]) else None
  }

  /** JavaScript truthiness of a string field: present and not the empty string. */
  predicate Truthy(r: Record, k: string)
  {
    k in r && r[k] != ""
  }

  /** The field as a template literal `${r.k}` prints it: `undefined` when absent. */
  function Text(r: Record, k: string): string
  {
    if k in r then r[k] else "undefined"
  }

  /** A frame's `type` tag equals `tag` (`msg.type === tag`). */
  predicate HasType(r: Record, tag: string)
  {
    Get(r, "type") == Some(tag)
  }

  /** The WebSocket scheme both pages derive from `window.location.protocol`. */
  function WsScheme(protocol: string): (s: string)
    ensures s == "wss:" || s == "ws:"
    ensures s == "wss:" <==> protocol == "https:"
  {
    if protocol == "https:" then "wss:" else "ws:"
  }

  /** `${scheme}//${host}${path}`. */
  function WsUrl(protocol: string, host: string, path: string): string
  {
    WsScheme(protocol) + "//" + host + path
  }
}
