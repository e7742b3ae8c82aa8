/** JSON values as the services store them: objects keep their entries in order, numbers their printed token. */
module CanonicalJson {
  import opened Common

  datatype Json =
    | JNull
    | JBool(b: bool)
    | JNum(token: string)
    | JStr(s: string)
    | JArr(items: seq<Json>)
    | JObj(entries: seq<Entry>)

  datatype Entry = Entry(key: string, value: Json)

  /** The value under a key: the first entry that has it. */
  function Lookup(entries: seq<Entry>, key: string): Option<Json> {
    if entries == [] then None
    else if entries[0].key == key then Some(entries[0].value)
    else Lookup(entries[1..], key)
  }
}
