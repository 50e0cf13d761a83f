/**
  The JSON value (`serde_json::Value`) that the model replies with. Numbers are kept as
  integers: the core only ever asks whether a value is a number, never what it is.
*/
module Json {

  datatype Json =
    | JNull
    | JBool(b: bool)
    | JNum(n: int)
    | JStr(s: string)
    | JArr(elems: seq<Json>)
    | JObj(obj: map<string, Json>)
}
