/** JSON values as documents and request bodies carry them. */
module Json {

  datatype Value = JNull | JBool(b: bool) | JNum(n: int) | JStr(s: string) | JArr(items: seq<Value>)

  /** A JSON object: field name to value. */
  type Object = map<string, Value>

  /**
   * The object literal `{ key: v, ...rest }`: the spread comes after `key`, so a field of
   * `rest` with the same name wins.
   */
  function FieldThenSpread(key: string, v: Value, rest: Object): (r: Object)
    ensures r.Keys == rest.Keys + {key}
    ensures key in rest ==> r[key] == rest[key]
    ensures key !in rest ==> r[key] == v
    ensures forall k :: k in rest ==> r[k] == rest[k]
  {
    map[key := v] + rest
  }

  /** The object literal `{ ...rest, key: v }`: the field written last wins. */
  function SpreadThenField(rest: Object, key: string, v: Value): (r: Object)
    ensures r.Keys == rest.Keys + {key}
    ensures r[key] == v
    ensures forall k :: k in rest && k != key ==> r[k] == rest[k]
  {
    rest[key := v]
  }
}
