/** Arbitrary structured data, as produced and consumed by a JSON codec.
    The request builders store such values without looking inside them. */
module Json {

  datatype Value =
    | Null
    | Bool(b: bool)
    | Number(n: int)
    | Str(s: string)
    | Array(items: seq<Value>)
    | Object(fields: map<string, Value>)
}
