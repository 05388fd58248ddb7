/** JSON values as the gateway holds them after decoding, shared by every component. */
module JsonValues {

  datatype Option<+T> = None | Some(value: T)

  /** Numbers are exact: none of the modelled code depends on rounding. */
  datatype Json =
    | Null
    | Bool(b: bool)
    | Number(n: real)
    | String(s: string)
    | List(items: seq<Json>)
    | Object(fields: map<string, Json>)

  /** The fields of an object; a type assertion that fails leaves Go a nil map, which reads as empty. */
  function Fields(v: Json): map<string, Json> {
    if v.Object? then v.fields else map[]
  }

  function FieldOf(v: Json, key: string): Option<Json> {
    if v.Object? && key in v.fields then Some(v.fields[key]) else None
  }

  function Metadata(v: Json): Json {
    match FieldOf(v, "metadata")
    case Some(metadata) => metadata
    case None => Null
  }

  /** A string field of metadata, or "" when it is absent or of another type. */
  function MetadataText(v: Json, key: string): string {
    match FieldOf(Metadata(v), key)
    case Some(String(text)) => text
    case _ => ""
  }

  /** The value reached through a list of object keys, if every key on the way exists. */
  function ValueAt(v: Json, keys: seq<string>): Option<Json>
    decreases |keys|
  {
    if keys == [] then Some(v)
    else if v.Object? && keys[0] in v.fields then ValueAt(v.fields[keys[0]], keys[1..])
    else None
  }

  /** The text at the end of a list of object keys, or "" when there is none. */
  function TextAt(v: Json, keys: seq<string>): string {
    match ValueAt(v, keys)
    case Some(String(text)) => text
    case _ => ""
  }

  lemma {:induction false} MetadataTextIsAt(v: Json, key: string)
    ensures MetadataText(v, key) == TextAt(v, ["metadata", key])
    ensures FieldOf(Metadata(v), key) == ValueAt(v, ["metadata", key])
  {
    var keys := ["metadata", key];
    assert keys[1..] == [key] && [key][1..] == [];
    if v.Object? && "metadata" in v.fields {
      assert ValueAt(v.fields["metadata"], [key]) == FieldOf(v.fields["metadata"], key);
    }
  }
}
