/**
 * An abstract JSON value (serde_json's `Value`). The core only ever looks
 * inside objects and strings; arrays are built by the listing endpoint;
 * numbers, booleans and null are kept as an uninspected literal.
 */
module Json {
  datatype Value =
    | Object(fields: map<string, Value>)
    | Array(items: seq<Value>)
    | Str(s: string)
    | Scalar(literal: string)
}
