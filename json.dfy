/**
 * Decoded JSON as the handlers see it after `json.Unmarshal` into
 * `[]map[string]interface{}`.  A record is a Go `map[string]interface{}`.
 */
module Json {

  /** A dynamic Go value held in an `interface{}`. */
  datatype Value =
    | Null                                 // nil
    | Bool(b: bool)                        // bool
    | Number(x: real)                      // float64: the only numeric type JSON decoding produces
    | Str(s: string)                       // string
    | Array(items: seq<Value>)             // []interface{}
    | Object(fields: map<string, Value>)   // map[string]interface{}
    | RecordList(records: seq<map<string, Value>>)
      // []map[string]interface{}: a typed slice that Go code can build but
      // that decoding JSON into interface{} never yields

  type Record = map<string, Value>

  /** `r[k]` on a Go map: the zero value nil when the key is absent. */
  function Lookup(r: Record, k: string): (v: Value)
    ensures k !in r ==> v == Null
    ensures k in r ==> v == r[k]
  {
    if k in r then r[k] else Null
  }

  /** `v, ok := r[k]; ok && v != nil`. */
  predicate PresentNonNull(r: Record, k: string) {
    k in r && r[k] != Null
  }

  /** A value that JSON decoding into interface{} can produce: no typed record slices anywhere. */
  predicate Decoded(v: Value)
    decreases v
  {
    match v
    case RecordList(_) => false
    case Array(items) => forall i | 0 <= i < |items| :: Decoded(items[i])
    case Object(fields) => forall k | k in fields :: Decoded(fields[k])
    case _ => true
  }

  /** A record produced by decoding a JSON object. */
  predicate DecodedRecord(r: Record) {
    forall k | k in r :: Decoded(r[k])
  }
}
