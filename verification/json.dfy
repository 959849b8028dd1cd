/** The JSON values the logger writes, before text serialisation. Numbers the
    game supplies as floats stay `JReal`; objects are insertion-ordered. */
module Json {
  import opened Dict

  datatype Json =
    | JInt(i: int)
    | JReal(r: real)
    | JStr(s: string)
    | JArr(items: seq<Json>)
    | JObj(fields: Dict<Json>)
}
