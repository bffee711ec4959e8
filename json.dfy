/** JSON-like values: the query documents sent to the service, the GeoJSON it
    returns, and the features a layer renders. An object is an ordered list of
    key/value pairs, so the order in which the source writes keys is kept. */
module Json {
  import opened Wrappers

  datatype Value =
    | JNull
    | JBool(b: bool)
    | JNumber(n: real)
    | JString(s: string)
    | JArray(items: seq<Value>)
    | JObject(members: seq<(string, Value)>)

  /** The value of the first member named `key`. */
  function Lookup(members: seq<(string, Value)>, key: string): (r: Option<Value>)
    ensures r.Some? <==> exists i :: 0 <= i < |members| && members[i].0 == key
    ensures r.Some? ==> exists i :: 0 <= i < |members| && members[i] == (key, r.value)
  {
    if |members| == 0 then None
    else if members[0].0 == key then Some(members[0].1)
    else
      var r := Lookup(members[1..], key);
      assert forall i :: 0 <= i < |members| - 1 ==> members[1..][i] == members[i + 1];
      r
  }

  /** Property access `v[key]`; `None` stands for `undefined`. */
  function Member(v: Value, key: string): Option<Value> {
    if v.JObject? then Lookup(v.members, key) else None
  }

  function AsArray(v: Value): Option<seq<Value>> {
    if v.JArray? then Some(v.items) else None
  }

  function AsNumber(v: Value): Option<real> {
    if v.JNumber? then Some(v.n) else None
  }

  /** An object with a single member. */
  function Single(key: string, v: Value): Value {
    JObject([(key, v)])
  }

  /** JavaScript's ToBoolean on a value that is present (NaN is not modelled). */
  predicate Truthy(v: Value) {
    match v
    case JNull => false
    case JBool(b) => b
    case JNumber(n) => n != 0.0
    case JString(s) => s != ""
    case JArray(_) => true
    case JObject(_) => true
  }

  lemma {:induction false} LookupFirst(members: seq<(string, Value)>, key: string, i: nat)
    requires i < |members| && members[i].0 == key
    requires forall j :: 0 <= j < i ==> members[j].0 != key
    ensures Lookup(members, key) == Some(members[i].1)
  {
    if i > 0 {
      LookupFirst(members[1..], key, i - 1);
    }
  }
}
