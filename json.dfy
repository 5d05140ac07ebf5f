/** Values as JSON.parse produces them and JSON.stringify consumes them.
    Numbers are reals (no NaN or Infinity); a missing property reads as null.
    The textual codec itself is a collaborator: a parse/stringify pair whose
    only assumed property is that parsing undoes printing. */
module Json {
  import opened Wrappers

  datatype Json =
    | JNull
    | JBool(b: bool)
    | JNum(n: real)
    | JStr(s: string)
    | JArr(items: seq<Json>)
    | JObj(fields: map<string, Json>)

  /** JavaScript truthiness of a parsed value. */
  predicate Truthy(v: Json) {
    match v
    case JNull => false
    case JBool(b) => b
    case JNum(n) => n != 0.0
    case JStr(s) => s != ""
    case JArr(_) => true
    case JObj(_) => true
  }

  /** Property access `v.name`; absent properties and non-objects read as null. */
  function Field(v: Json, name: string): (r: Json)
    ensures !v.JObj? ==> r == JNull
    ensures v.JObj? && name in v.fields ==> r == v.fields[name]
  {
    if v.JObj? && name in v.fields then v.fields[name] else JNull
  }

  /** JSON.parse (None where it throws) and JSON.stringify. */
  datatype Codec = Codec(parse: string -> Option<Json>, stringify: Json -> string)

  /** What the model assumes of the codec: the empty text is not JSON, and
      parsing the printed form of a value gives the value back. */
  ghost predicate LawfulCodec(c: Codec) {
    && c.parse("") == None
    && forall v :: c.parse(c.stringify(v)) == Some(v)
  }

  /** Printed JSON is never the empty text. */
  lemma StringifyNonEmpty(c: Codec, v: Json)
    requires LawfulCodec(c)
    ensures c.stringify(v) != ""
  {
    assert c.parse(c.stringify(v)) == Some(v);
  }
}
