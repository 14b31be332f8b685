// `serde_json::Value` and the parts of serde / uuid that the core calls but
// whose internals (JSON text syntax, UTF-8, the UUID text form) are not
// modelled: they are bundled as partial functions in a `Codec`.
module JsonValue {
  import opened Wrappers
  import opened Entities

  datatype Json =
    | Null
    | Bool(b: bool)
    | Number(n: int)
    | Str(s: string)
    | Array(items: seq<Json>)
    | Object(fields: map<string, Json>)

  /** `Value::get(key)` with a string index: only objects have fields. */
  function Get(v: Json, key: string): (r: Option<Json>)
    ensures r.Some? <==> v.Object? && key in v.fields
    ensures r.Some? ==> r.value == v.fields[key]
  {
    if v.Object? && key in v.fields then Some(v.fields[key]) else None
  }

  /** What `serde_json::to_value` yields for an empty struct such as `PublicConnectResponse {}`. */
  const EMPTY_OBJECT: Json := Object(map[])

  /**
   * The library functions the core calls as black boxes:
   * - fromStr: `serde_json::from_str::<Value>` (error: its diagnostic);
   * - toText: `Value`'s `Display` (`to_string`), i.e. JSON text;
   * - utf8: `String::from_utf8` used by `Message::into_text` on binary frames;
   * - parseUuid: `Uuid::parse_str` / `Uuid::try_parse`;
   * - uuidToJson: serde's serialisation of a `Uuid`.
   */
  datatype Codec = Codec(
    fromStr: string -> Result<Json, string>,
    toText: Json -> string,
    utf8: seq<bv8> -> Result<string, string>,
    parseUuid: string -> Result<Uuid, string>,
    uuidToJson: Uuid -> Json)
}
