/**
 * The decoded JSON values that `json.loads` hands to the connector, with
 * the three pieces of Python behaviour the parsers depend on: truthiness,
 * `dict.get` / `in` / `keys()`, and what iterating over a value yields.
 *
 * A JSON object is kept as the list of its members in document order.
 * `json.loads` builds a Python dict from that list, so a key that occurs
 * more than once keeps the position of its FIRST occurrence and the value
 * of its LAST one; `Lookup` and `Keys` below follow exactly that rule, so
 * every member list denotes the dict Python would build.
 */
module Json {
  import opened Wrappers

  datatype Json =
    | JNull                                   // None
    | JBool(b: bool)                          // True / False
    | JInt(i: int)                            // int
    | JFloat(x: real)                         // float
    | JString(s: string)                      // str
    | JArray(items: seq<Json>)                // list
    | JObject(members: seq<(string, Json)>)   // dict

  /** `bool(j)` in Python. */
  predicate Truthy(j: Json) {
    match j
    case JNull => false
    case JBool(b) => b
    case JInt(i) => i != 0
    case JFloat(x) => x != 0.0
    case JString(s) => s != ""
    case JArray(items) => items != []
    case JObject(members) => members != []
  }

  /** True when some member of the list has this key (`key in d`). */
  predicate HasKey(members: seq<(string, Json)>, key: string) {
    exists i :: 0 <= i < |members| && members[i].0 == key
  }

  /** `d[key]` when present: the value of the last member with that key. */
  function Lookup(members: seq<(string, Json)>, key: string): (r: Option<Json>)
    ensures r.Some? <==> HasKey(members, key)
    ensures r.Some? ==> exists i :: 0 <= i < |members| && members[i] == (key, r.value)
                                     && forall j :: i < j < |members| ==> members[j].0 != key
  {
    if members == [] then None
    else if members[|members| - 1].0 == key then Some(members[|members| - 1].1)
    else
      var r := Lookup(members[..|members| - 1], key);
      assert forall i :: 0 <= i < |members| - 1 ==> members[..|members| - 1][i] == members[i];
      r
  }

  /** `d.get(key, default)`. */
  function GetOr(members: seq<(string, Json)>, key: string, default: Json): Json {
    Lookup(members, key).GetOr(default)
  }

  /** `list(d.keys())`: every key once, in the order of its first occurrence. */
  function Keys(members: seq<(string, Json)>): (ks: seq<string>)
    ensures forall i, j :: 0 <= i < j < |ks| ==> ks[i] != ks[j]
    ensures forall k :: k in ks <==> HasKey(members, k)
  {
    if members == [] then []
    else
      var prefix := members[..|members| - 1];
      var ks := Keys(prefix);
      var k := members[|members| - 1].0;
      assert forall key :: HasKey(members, key) <==> HasKey(prefix, key) || key == k by {
        forall key | HasKey(members, key) && key != k ensures HasKey(prefix, key) {
          var i :| 0 <= i < |members| && members[i].0 == key;
          assert prefix[i] == members[i];
        }
        forall key | HasKey(prefix, key) ensures HasKey(members, key) {
          var i :| 0 <= i < |prefix| && prefix[i].0 == key;
          assert members[i] == prefix[i];
        }
        assert members[|members| - 1].0 == k;
      }
      if k in ks then ks else ks + [k]
  }

  /** The one-character strings of `s`, which is what `for x in s` yields. */
  function Chars(s: string): (r: seq<Json>)
    ensures |r| == |s| && forall i :: 0 <= i < |s| ==> r[i] == JString([s[i]])
  {
    if s == [] then [] else [JString([s[0]])] + Chars(s[1..])
  }

  /** The keys of a dict as strings, which is what `for x in d` yields. */
  function KeyStrings(keys: seq<string>): (r: seq<Json>)
    ensures |r| == |keys| && forall i :: 0 <= i < |keys| ==> r[i] == JString(keys[i])
  {
    if keys == [] then [] else [JString(keys[0])] + KeyStrings(keys[1..])
  }

  /** What `for x in j` iterates over, or None when Python raises
      "object is not iterable" (None, bools and numbers). */
  function Iterate(j: Json): (r: Option<seq<Json>>)
    ensures r.None? <==> (j.JNull? || j.JBool? || j.JInt? || j.JFloat?)
  {
    match j
    case JArray(items) => Some(items)
    case JObject(members) => Some(KeyStrings(Keys(members)))
    case JString(s) => Some(Chars(s))
    case _ => None
  }
}
