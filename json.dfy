/** Untyped JSON documents, as the server stores them, and the object-literal
    spread `{ id, ...body, [field]: stamp }` the handlers build records with. */
module Json {

  datatype Value =
    | Null
    | Bool(b: bool)
    | Num(n: int)
    | Str(s: string)
    | Arr(elems: seq<Value>)
    | Obj(fields: map<string, Value>)

  /** A JSON object: field name to value. */
  type Record = map<string, Value>

  /** `record.field === "text"` */
  predicate HasString(r: Record, field: string, text: string) {
    field in r && r[field] == Str(text)
  }

  /** The object literal `{ id: id, ...body, [field]: stamp }`. In a spread, later keys win:
      a body `id` replaces the generated one, and the stamp replaces any body field of the
      same name. Everything else of the body is copied verbatim. */
  function Stamped(id: string, body: Record, field: string, stamp: string): (r: Record)
    requires field != "id"
    ensures r.Keys == body.Keys + {"id", field}
    ensures r[field] == Str(stamp)
    ensures r["id"] == (if "id" in body then body["id"] else Str(id))
    ensures forall k | k in body && k != field :: r[k] == body[k]
  {
    map["id" := Str(id)] + body + map[field := Str(stamp)]
  }
}
