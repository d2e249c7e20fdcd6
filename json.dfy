/**
 * JSON values as `JSON.stringify` receives them. The text layout of the
 * serialised form is not modelled: a JSON value tree stands for its text.
 * Objects keep their members in insertion order, as JavaScript objects do for
 * keys that are not array indexes; integer-like keys are not reordered.
 */
module Json {
  import opened Wrappers

  datatype Json =
    | JNull
    | JBool(b: bool)
    | JNum(n: int)
    | JStr(s: string)
    | JArr(items: seq<Json>)
    | JObj(members: seq<(string, Json)>)

  /** The value stored under `key` in an object's member list (first occurrence). */
  function Lookup(members: seq<(string, Json)>, key: string): (r: Option<Json>)
    ensures r.None? <==> forall i :: 0 <= i < |members| ==> members[i].0 != key
    ensures r.Some? ==> exists i :: 0 <= i < |members| && members[i] == (key, r.value)
  {
    if |members| == 0 then None
    else if members[0].0 == key then Some(members[0].1)
    else Lookup(members[1..], key)
  }

  /** The set of keys an object's member list holds. */
  function Keys(members: seq<(string, Json)>): (ks: set<string>)
    ensures forall k :: k in ks <==> Lookup(members, k).Some?
  {
    set i | 0 <= i < |members| :: members[i].0
  }

  /**
   * Assignment `obj[key] = value` on a JavaScript object: an existing key keeps
   * its position and takes the new value, a new key goes at the end.
   */
  function Put(members: seq<(string, Json)>, key: string, value: Json): (r: seq<(string, Json)>)
    ensures Lookup(r, key) == Some(value)
    ensures forall k :: k != key ==> Lookup(r, k) == Lookup(members, k)
  {
    if |members| == 0 then [(key, value)]
    else if members[0].0 == key then [(key, value)] + members[1..]
    else [members[0]] + Put(members[1..], key, value)
  }

  /** A member whose value may be `undefined`: `JSON.stringify` leaves such a key out. */
  function PutDefined(members: seq<(string, Json)>, key: string, value: Option<Json>): (r: seq<(string, Json)>)
    ensures Lookup(r, key) == (if value.Some? then value else Lookup(members, key))
    ensures forall k :: k != key ==> Lookup(r, k) == Lookup(members, k)
  {
    if value.Some? then Put(members, key, value.value) else members
  }

  /** Property access `j[key]` on a JSON value; absent unless `j` is an object holding `key`. */
  function Get(j: Json, key: string): Option<Json>
  {
    if j.JObj? then Lookup(j.members, key) else None
  }

  /** Property access along a path of keys. */
  function GetPath(j: Json, path: seq<string>): Option<Json>
    decreases |path|
  {
    if |path| == 0 then Some(j)
    else match Get(j, path[0])
      case None => None
      case Some(v) => GetPath(v, path[1..])
  }

  /** The JSON array items for a list of strings, in order. */
  function Strings(ss: seq<string>): (js: seq<Json>)
    ensures |js| == |ss| && forall i :: 0 <= i < |ss| ==> js[i] == JStr(ss[i])
  {
    if |ss| == 0 then [] else [JStr(ss[0])] + Strings(ss[1..])
  }

  /** Reads back an array of JSON strings; absent if some item is not a string. */
  function AsStrings(js: seq<Json>): (r: Option<seq<string>>)
    ensures r.Some? ==> |r.value| == |js|
  {
    if |js| == 0 then Some([])
    else if !js[0].JStr? then None
    else match AsStrings(js[1..])
      case None => None
      case Some(rest) => Some([js[0].s] + rest)
  }

  lemma {:induction false} StringsRoundTrip(ss: seq<string>)
    ensures AsStrings(Strings(ss)) == Some(ss)
  {
    if |ss| > 0 {
      StringsRoundTrip(ss[1..]);
      assert Strings(ss)[1..] == Strings(ss[1..]);
      assert [ss[0]] + ss[1..] == ss;
    }
  }
}
