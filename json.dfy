/** JSON values, the payloads that responses carry. */
module Json {
  import opened Wrappers

  /** A JSON value. Objects are maps: key order is not significant. */
  datatype JsonValue =
    | JNull
    | JBool(b: bool)
    | JInt(n: int)
    | JStr(s: string)
    | JArr(items: seq<JsonValue>)
    | JObj(fields: map<string, JsonValue>)

  /** An optional string field as JavaScript truthiness sees it: present and non-empty. */
  predicate Truthy(s: Option<string>) {
    s.Some? && s.value != ""
  }

  /** The JSON array of the given strings. */
  function StrArray(ss: seq<string>): (j: JsonValue)
    ensures j.JArr? && |j.items| == |ss|
    ensures forall i :: 0 <= i < |ss| ==> j.items[i] == JStr(ss[i])
  {
    JArr(seq(|ss|, i requires 0 <= i < |ss| => JStr(ss[i])))
  }

  /** Reads back an array of strings; None when some item is not a string. */
  function StringItems(items: seq<JsonValue>): (r: Option<seq<string>>)
    decreases |items|
  {
    if |items| == 0 then Some([])
    else if !items[0].JStr? then None
    else
      match StringItems(items[1..])
      case None => None
      case Some(rest) => Some([items[0].s] + rest)
  }

  /** Reading back a string array gives the strings it was made from. */
  lemma {:induction false} StringItemsOfStrArray(ss: seq<string>)
    ensures StringItems(StrArray(ss).items) == Some(ss)
  {
    if |ss| > 0 {
      StringItemsOfStrArray(ss[1..]);
      assert StrArray(ss).items[1..] == StrArray(ss[1..]).items;
      assert ss == [ss[0]] + ss[1..];
    }
  }
}
