/** The structured document exchanged between the scene-file converter and
    the renderer: JSON values as the converter writes them and the renderer's
    `serde_json::Value` reads them. Numbers only ever hold the block count. */
module Json {

  datatype Json =
    | JStr(s: string)
    | JNum(n: nat)
    | JArr(items: seq<Json>)
    | JObj(fields: map<string, Json>)
}
