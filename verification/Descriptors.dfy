/** What a Python client demands of one published operation (python/ai_protocol/protocol.py). */
module Descriptors {
  import opened Responses
  import opened Text

  /** No schema reference leads out of the document. */
  predicate LocalReferences(v: Json) {
    match v
    case Obj(fields) =>
      forall k | k in fields ::
        && (k in {"$ref", "$dynamicRef"} ==> fields[k].Str? && fields[k].s != "" && fields[k].s[0] == '#')
        && LocalReferences(fields[k])
    case Arr(items) => forall i | 0 <= i < |items| :: LocalReferences(items[i])
    case _ => true
  }

  predicate ValidOperation(d: Json) {
    && d.Obj?
    && Field(d, "name").Str? && Field(d, "name").s != ""
    && Field(d, "description").Str?
    && Field(d, "method") == Str("POST")
    && Field(d, "path").Str? && Route(Field(d, "path").s)
    && Field(d, "input_schema").Obj? && LocalReferences(Field(d, "input_schema"))
  }

  /** Every operation is valid and no two share a name. */
  predicate ValidOperations(ds: seq<Json>) {
    && (forall i | 0 <= i < |ds| :: ValidOperation(ds[i]))
    && forall i, j | 0 <= i < j < |ds| :: Field(ds[i], "name") != Field(ds[j], "name")
  }

  predicate Offers(ds: seq<Json>, name: string) {
    exists i :: 0 <= i < |ds| && Field(ds[i], "name") == Str(name)
  }
}
