/**
  The value `json.loads` produces. The decoder itself is not modelled: callers
  receive it as a function `string -> Option<Json>`, `None` meaning that
  `json.JSONDecodeError` was raised.
 */
module JsonData {
  import opened Common

  datatype Json =
    | JNull
    | JBool(b: bool)
    | JNumber(n: real)
    | JString(s: string)
    | JArray(items: seq<Json>)
    | JObject(members: map<string, Json>)

  /** A list of strings as a JSON array. */
  function Strings(xs: seq<string>): (v: Json)
    ensures v.JArray? && |v.items| == |xs|
    ensures forall i :: 0 <= i < |xs| ==> v.items[i] == JString(xs[i])
  {
    JArray(seq(|xs|, i requires 0 <= i < |xs| => JString(xs[i])))
  }

  /** The list of strings a JSON array of strings holds; `None` for any other value. */
  function AsStrings(v: Json): (r: Option<seq<string>>)
    ensures r.Some? ==> v == Strings(r.value)
    ensures r.None? ==> !v.JArray? || exists i :: 0 <= i < |v.items| && !v.items[i].JString?
  {
    if v.JArray? && forall i :: 0 <= i < |v.items| ==> v.items[i].JString? then
      Some(seq(|v.items|, i requires 0 <= i < |v.items| => v.items[i].s))
    else
      None
  }

  lemma AsStringsOfStrings(xs: seq<string>)
    ensures AsStrings(Strings(xs)) == Some(xs)
  {
    var v := Strings(xs);
    assert forall i :: 0 <= i < |v.items| ==> v.items[i].JString?;
    var r := seq(|v.items|, i requires 0 <= i < |v.items| => v.items[i].s);
    assert r == xs;
  }

  /** `d.get(key) is None`: the key is missing or maps to `null`. */
  predicate AbsentOrNull(m: map<string, Json>, key: string) {
    key !in m || m[key] == JNull
  }
}
