/** The values that `JSON.parse` produces and that an Express `res.json` call
    serialises. */
module Json {
  import opened JsText

  datatype Option<+T> = None | Some(value: T)

  /** A JSON value. Numbers are kept as integers: nothing in the model computes
      with them. Object members are kept in the order the parser produced them. */
  datatype Value =
    | Null
    | Bool(b: bool)
    | Number(n: int)
    | String(s: JsString)
    | Array(items: seq<Value>)
    | Object(members: seq<(JsString, Value)>)

  /** `JSON.parse` as an oracle: the value of a well-formed JSON text, or `None`
      where the library throws a `SyntaxError`. */
  type Parser = JsString -> Option<Value>
}
