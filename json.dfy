/** Values produced by Python's `json.loads`, and the few Python operations the scanner
    core applies to them: subscripting by a string key, iterating, testing membership in
    a set of strings, and truthiness. */
module Json {
  import opened Outcomes

  /** A decoded JSON document. An object keeps its members in document order,
      duplicates included; `Lookup` and `Iterate` give them dict semantics. */
  datatype Json =
    | JNull
    | JBool(b: bool)
    | JNumber(n: real)
    | JString(s: string)
    | JArray(items: seq<Json>)
    | JObject(members: seq<(string, Json)>)

  /** The value `json.loads` keeps for `key`: the last member with that name. */
  function Lookup(members: seq<(string, Json)>, key: string): (r: Option<Json>)
    ensures r.None? <==> forall i :: 0 <= i < |members| ==> members[i].0 != key
    ensures r.Some? ==> exists i :: 0 <= i < |members| && members[i] == (key, r.value)
                                    && forall j :: i < j < |members| ==> members[j].0 != key
  {
    if members == [] then None
    else if members[|members| - 1].0 == key then Some(members[|members| - 1].1)
    else Lookup(members[..|members| - 1], key)
  }

  /** The keys of a dict in iteration order: each name once, where it first appeared. */
  function DistinctKeys(members: seq<(string, Json)>): (r: seq<string>)
    ensures forall k :: k in r <==> exists i :: 0 <= i < |members| && members[i].0 == k
    ensures forall i, j :: 0 <= i < j < |r| ==> r[i] != r[j]
    ensures |r| <= |members| && (r == [] <==> members == [])
  {
    if members == [] then []
    else
      var prev := DistinctKeys(members[..|members| - 1]);
      var k := members[|members| - 1].0;
      assert forall i :: 0 <= i < |members| - 1 ==> members[..|members| - 1][i] == members[i];
      if k in prev then prev else prev + [k]
  }

  /** Python's `value[key]` with a string key. */
  function Subscript(value: Json, key: string): (r: Outcome<Json>)
    ensures r.Ok? ==> value.JObject? && Lookup(value.members, key) == Some(r.value)
    ensures value.JObject? && Lookup(value.members, key).Some? ==> r == Ok(Lookup(value.members, key).value)
    ensures value.JObject? && Lookup(value.members, key).None? ==> r == Raised(KeyError(key))
    ensures !value.JObject? ==> r == Raised(TypeError)
  {
    match value
    case JObject(members) =>
      (match Lookup(members, key)
       case Some(v) => Ok(v)
       case None => Raised(KeyError(key)))
    case _ => Raised(TypeError)
  }

  /** What a Python `for` loop over the value yields: a list its items, a string its
      characters, a dict its keys; other values are not iterable. */
  function Iterate(value: Json): (r: Outcome<seq<Json>>)
    ensures value.JArray? ==> r == Ok(value.items)
    ensures value.JString? ==> r.Ok? && |r.value| == |value.s|
                               && forall i :: 0 <= i < |value.s| ==> r.value[i] == JString([value.s[i]])
    ensures value.JObject? ==> r.Ok? && |r.value| == |DistinctKeys(value.members)|
                               && forall i :: 0 <= i < |r.value| ==> r.value[i] == JString(DistinctKeys(value.members)[i])
    ensures r.Raised? <==> value.JNull? || value.JBool? || value.JNumber?
  {
    match value
    case JArray(items) => Ok(items)
    case JString(s) => Ok(seq(|s|, i requires 0 <= i < |s| => JString([s[i]])))
    case JObject(members) =>
      var keys := DistinctKeys(members);
      Ok(seq(|keys|, i requires 0 <= i < |keys| => JString(keys[i])))
    case _ => Raised(TypeError)
  }

  /** Python's `value in strings` for a set of strings: only a string can be equal to a
      member; a list or a dict is unhashable and raises. */
  function InStrings(value: Json, strings: set<string>): (r: Outcome<bool>)
    ensures r == Ok(true) <==> value.JString? && value.s in strings
    ensures r.Raised? <==> value.JArray? || value.JObject?
  {
    match value
    case JString(s) => Ok(s in strings)
    case JArray(_) => Raised(TypeError)
    case JObject(_) => Raised(TypeError)
    case _ => Ok(false)
  }

  /** Python truthiness of a decoded value. */
  predicate Truthy(value: Json) {
    match value
    case JNull => false
    case JBool(b) => b
    case JNumber(n) => n != 0.0
    case JString(s) => s != ""
    case JArray(items) => items != []
    case JObject(members) => members != []
  }
}
