/** The plain data a node's `serialize()` returns and `deserialize()` reads
    back: JSON-like values, with an object as a map from keys to values. A
    field whose value is `undefined` is an absent key. */
module Json {
  import opened Wrappers

  datatype Json =
    | JNull
    | JBool(b: bool)
    | JInt(i: int)
    | JStr(s: string)
    | JArr(items: seq<Json>)
    | JObj(fields: map<string, Json>)

  /** The string under `key`, if there is one. */
  function GetStr(o: map<string, Json>, key: string): (r: Option<string>)
    ensures r.Some? <==> key in o && o[key].JStr?
    ensures r.Some? ==> o[key] == JStr(r.value)
  {
    if key in o && o[key].JStr? then Some(o[key].s) else None
  }

  /** The boolean under `key`, if there is one. */
  function GetBool(o: map<string, Json>, key: string): (r: Option<bool>)
    ensures r.Some? <==> key in o && o[key].JBool?
    ensures r.Some? ==> o[key] == JBool(r.value)
  {
    if key in o && o[key].JBool? then Some(o[key].b) else None
  }

  /** A list of strings as a JSON array. */
  function StrArr(xs: seq<string>): (r: seq<Json>)
    ensures |r| == |xs|
    ensures forall k :: 0 <= k < |r| ==> r[k] == JStr(xs[k])
  {
    if |xs| == 0 then [] else [JStr(xs[0])] + StrArr(xs[1..])
  }

  /** The strings of a JSON array, or nothing if an item is not a string. */
  function ArrStr(items: seq<Json>): (r: Option<seq<string>>)
    ensures r.Some? <==> forall k :: 0 <= k < |items| ==> items[k].JStr?
    ensures r.Some? ==> |r.value| == |items| && forall k :: 0 <= k < |items| ==> items[k] == JStr(r.value[k])
  {
    if |items| == 0 then Some([])
    else if !items[0].JStr? then None
    else
      var rest := ArrStr(items[1..]);
      if rest.None? then
        var k :| 0 <= k < |items| - 1 && !items[1..][k].JStr?;
        assert !items[k + 1].JStr?;
        None
      else Some([items[0].s] + rest.value)
  }

  /** Reading back an encoded list gives the list. */
  lemma {:induction false} ArrStrOfStrArr(xs: seq<string>)
    ensures ArrStr(StrArr(xs)) == Some(xs)
  {
    if |xs| > 0 {
      ArrStrOfStrArr(xs[1..]);
      var items := StrArr(xs);
      assert items[1..] == StrArr(xs[1..]);
      assert items[0] == JStr(xs[0]);
      assert [xs[0]] + xs[1..] == xs;
    }
  }
}
