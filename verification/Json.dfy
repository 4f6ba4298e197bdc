/** Values as the services read them off the wire. */
module Json {

  datatype Option<+T> = None | Some(value: T)

  /** Objects keep their fields in insertion order; undefined and null are both JNull. */
  datatype Json = JNull | JNum(n: real) | JStr(s: string) | JArr(items: seq<Json>) | JObj(fields: seq<(string, Json)>)

  function Lookup(fields: seq<(string, Json)>, key: string): Json {
    if fields == [] then JNull
    else if fields[0].0 == key then fields[0].1
    else Lookup(fields[1..], key)
  }

  /** Every object the services parse has distinct keys. */
  ghost predicate DistinctKeys(fields: seq<(string, Json)>) {
    forall i, j | 0 <= i < j < |fields| :: fields[i].0 != fields[j].0
  }
}
