/**
 * JSON values as the web client and the contract exchange them. The client
 * writes them as JavaScript object literals; the contract reads and writes
 * them through serde. Only the shapes that occur in this system are modelled:
 * there are no arrays and no fractional numbers in any message.
 */
module Json {
  import opened Wrappers

  datatype Json =
    | JNull
    | JBool(b: bool)
    | JNumber(n: int)
    | JString(s: string)
    | JObject(members: seq<(string, Json)>)

  /** The value of the first member named `key`, if there is one. */
  function Get(members: seq<(string, Json)>, key: string): (r: Option<Json>)
    ensures r.None? <==> forall i :: 0 <= i < |members| ==> members[i].0 != key
    ensures r.Some? ==> exists i :: 0 <= i < |members| && members[i] == (key, r.value)
  {
    if members == [] then None
    else if members[0].0 == key then Some(members[0].1)
    else
      var r := Get(members[1..], key);
      assert r.Some? ==> exists i :: 1 <= i < |members| && members[i] == (key, r.value) by {
        if r.Some? {
          var i :| 0 <= i < |members[1..]| && members[1..][i] == (key, r.value);
          assert members[i + 1] == (key, r.value);
        }
      }
      r
  }

  /** No member name occurs twice (serde refuses a repeated field). */
  predicate DistinctKeys(members: seq<(string, Json)>)
  {
    forall i, j :: 0 <= i < j < |members| ==> members[i].0 != members[j].0
  }

  /** Every member name is one of `allowed` (serde's `deny_unknown_fields`). */
  predicate KnownKeys(members: seq<(string, Json)>, allowed: set<string>)
  {
    forall i :: 0 <= i < |members| ==> members[i].0 in allowed
  }

  /** JavaScript truthiness of a parsed JSON value: `if (!result)` takes the falsy ones. */
  function Truthy(j: Json): (r: bool)
    ensures j.JObject? ==> r
    ensures j.JNull? ==> !r
  {
    match j
    case JNull => false
    case JBool(b) => b
    case JNumber(n) => n != 0
    case JString(s) => s != ""
    case JObject(_) => true
  }
}
