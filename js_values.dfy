/** The JavaScript values the proxy handler reads and forwards: values that
    JSON.parse can produce, plus `undefined` for a property that is absent.
    Also the three pieces of JavaScript semantics the handler relies on:
    truthiness (`!x`), property reads with object rest
    (`const { a, b, ...rest } = v`), and string conversion in template
    literals (`${v}`). */
module JsValues {
  import Decimal

  datatype Option<+T> = None | Some(value: T)

  /** The outcome of an operation that may throw, as in an ECMAScript
      completion record: a normal value, or an exception with its message. */
  datatype Completion<+T> = Normal(value: T) | Throw(message: string)

  /** A value produced by JSON.parse. An object keeps its own properties in
      JavaScript's enumeration order. JSON.parse never produces two properties
      with the same key (see DistinctKeys); the type does not enforce this, and
      where a value has two members with one key, Get reads the first.
      Numbers are integral. */
  datatype Json =
    | JNull
    | JBool(b: bool)
    | JNumber(n: int)
    | JString(s: string)
    | JArray(items: seq<Json>)
    | JObject(members: seq<(string, Json)>)

  /** JavaScript's ToBoolean of a property read; None stands for `undefined`.
      The falsy values among those JSON.parse yields are null, false, 0 and "". */
  function Truthy(v: Option<Json>): (b: bool)
    ensures b <==> v.Some? && v.value !in {JNull, JBool(false), JNumber(0), JString("")}
  {
    match v
    case None => false
    case Some(JNull) => false
    case Some(JBool(b)) => b
    case Some(JNumber(n)) => n != 0
    case Some(JString(s)) => s != ""
    case Some(JArray(_)) => true
    case Some(JObject(_)) => true
  }

  predicate DistinctKeys(members: seq<(string, Json)>) {
    forall i, j :: 0 <= i < j < |members| ==> members[i].0 != members[j].0
  }

  /** Reads property `key` of an object: its value, or None (`undefined`). */
  function Get(members: seq<(string, Json)>, key: string): (r: Option<Json>)
    ensures r.None? <==> forall i :: 0 <= i < |members| ==> members[i].0 != key
    ensures r.Some? ==> (key, r.value) in members
  {
    if members == [] then None
    else if members[0].0 == key then Some(members[0].1)
    else Get(members[1..], key)
  }

  lemma {:induction false} GetFindsMember(members: seq<(string, Json)>, i: nat)
    requires DistinctKeys(members) && i < |members|
    ensures Get(members, members[i].0) == Some(members[i].1)
  {
    if i > 0 {
      assert members[0].0 != members[i].0;
      assert members[1..][i - 1] == members[i];
      GetFindsMember(members[1..], i - 1);
    }
  }

  /** The object rest `...rest` of a destructuring that names `keys`: the
      remaining properties, in their original order. */
  function Without(members: seq<(string, Json)>, keys: set<string>): (r: seq<(string, Json)>)
    ensures forall p :: p in r <==> p in members && p.0 !in keys
    ensures |r| <= |members|
  {
    if members == [] then []
    else if members[0].0 in keys then Without(members[1..], keys)
    else [members[0]] + Without(members[1..], keys)
  }

  /** Every property not named in `keys` reads the same after removal; the named
      ones read `undefined`. */
  lemma {:induction false} GetWithout(members: seq<(string, Json)>, keys: set<string>, key: string)
    ensures Get(Without(members, keys), key) == if key in keys then None else Get(members, key)
  {
    if members != [] {
      GetWithout(members[1..], keys, key);
    }
  }

  /** Removal works member by member and keeps the order of what remains. */
  lemma {:induction false} WithoutAppend(a: seq<(string, Json)>, b: seq<(string, Json)>, keys: set<string>)
    ensures Without(a + b, keys) == Without(a, keys) + Without(b, keys)
  {
    if a == [] {
      assert a + b == b;
    } else {
      assert (a + b)[0] == a[0] && (a + b)[1..] == a[1..] + b;
      WithoutAppend(a[1..], b, keys);
    }
  }

  lemma {:induction false} WithoutKeepsDistinct(members: seq<(string, Json)>, keys: set<string>)
    requires DistinctKeys(members)
    ensures DistinctKeys(Without(members, keys))
  {
    if members != [] {
      var tail := members[1..];
      assert DistinctKeys(tail) by {
        forall i, j | 0 <= i < j < |tail| ensures tail[i].0 != tail[j].0 {
          assert tail[i] == members[i + 1] && tail[j] == members[j + 1];
        }
      }
      WithoutKeepsDistinct(tail, keys);
      var rest := Without(tail, keys);
      if members[0].0 !in keys {
        forall p | p in rest ensures p.0 != members[0].0 {
          var k :| 0 <= k < |tail| && tail[k] == p;
          assert members[k + 1] == p;
        }
        var r := [members[0]] + rest;
        forall i, j | 0 <= i < j < |r| ensures r[i].0 != r[j].0 {
          if i == 0 {
            assert r[j] == rest[j - 1] && rest[j - 1] in rest;
          } else {
            assert r[i] == rest[i - 1] && r[j] == rest[j - 1];
          }
        }
      }
    }
  }

  lemma {:induction false} WithoutAbsentKeys(members: seq<(string, Json)>, keys: set<string>)
    requires forall i :: 0 <= i < |members| ==> members[i].0 !in keys
    ensures Without(members, keys) == members
  {
    if members != [] {
      WithoutAbsentKeys(members[1..], keys);
    }
  }

  /** The own enumerable properties of an array seen as an object: its
      elements under the keys "0", "1", ... */
  function IndexedMembers(items: seq<Json>): seq<(string, Json)> {
    seq(|items|, i requires 0 <= i < |items| => (Decimal.NatToDecimal(i), items[i]))
  }

  /** The own enumerable properties of a string seen as an object: one
      single-character string per index. */
  function CharMembers(s: string): seq<(string, Json)> {
    seq(|s|, i requires 0 <= i < |s| => (Decimal.NatToDecimal(i), JString([s[i]])))
  }

  /** V8's TypeError message when converting an object to a primitive finds
      neither a callable toString nor a valueOf that returns a primitive. */
  const ToPrimitiveMessage := "Cannot convert object to primitive value"

  /** Holds of a value whose string conversion throws: an object with an own
      "toString" property, or an array holding such a value at any depth.
      A "toString" that came from JSON is never callable, so the conversion
      falls through to Object.prototype.valueOf, which returns the object
      itself and not a primitive. An object without an own "toString" uses
      Object.prototype.toString; an array uses Array.prototype.join. */
  predicate ToStringThrows(v: Json) {
    match v
    case JObject(members) => Get(members, "toString").Some?
    case JArray(items) => exists i :: 0 <= i < |items| && ToStringThrows(items[i])
    case _ => false
  }

  function JoinWithCommas(parts: seq<string>): string {
    if |parts| == 0 then ""
    else if |parts| == 1 then parts[0]
    else parts[0] + "," + JoinWithCommas(parts[1..])
  }

  /** JavaScript's ToString of a value, as a template literal `${v}` applies
      it: strings verbatim, numbers in decimal, an object as "[object Object]"
      unless it has an own "toString", an array as the comma-join of its
      elements' texts; the conversion throws exactly for ToStringThrows. */
  function ToJsString(v: Json): (r: Completion<string>)
    decreases v, 1
    ensures r.Throw? <==> ToStringThrows(v)
    ensures r.Throw? ==> r.message == ToPrimitiveMessage
    ensures v.JNull? ==> r == Normal("null")
    ensures v.JBool? ==> r == Normal(if v.b then "true" else "false")
    ensures v.JNumber? ==> r == Normal(Decimal.IntToDecimal(v.n))
    ensures v.JString? ==> r == Normal(v.s)
    ensures v.JObject? && !ToStringThrows(v) ==> r == Normal("[object Object]")
    ensures v.JArray? && r.Normal? ==> r.value == JoinWithCommas(ElementTexts(v.items, v).value)
  {
    match v
    case JNull => Normal("null")
    case JBool(b) => Normal(if b then "true" else "false")
    case JNumber(n) => Normal(Decimal.IntToDecimal(n))
    case JString(s) => Normal(s)
    case JArray(items) =>
      (match ElementTexts(items, v)
       case Throw(message) => Throw(message)
       case Normal(texts) => Normal(JoinWithCommas(texts)))
    case JObject(members) =>
      if Get(members, "toString").Some? then Throw(ToPrimitiveMessage) else Normal("[object Object]")
  }

  /** The element texts Array.prototype.join collects, left to right: null
      becomes the empty string, any other element is converted, and the first
      exception propagates. `parent` is the array the items belong to. */
  function ElementTexts(items: seq<Json>, ghost parent: Json): (r: Completion<seq<string>>)
    requires forall i :: 0 <= i < |items| ==> items[i] < parent
    decreases parent, 0, |items|
    ensures r.Throw? <==> exists i :: 0 <= i < |items| && ToStringThrows(items[i])
    ensures r.Throw? ==> r.message == ToPrimitiveMessage
    ensures r.Normal? ==> |r.value| == |items|
    ensures r.Normal? ==> forall i :: 0 <= i < |items| ==>
      if items[i] == JNull then r.value[i] == "" else ToJsString(items[i]) == Normal(r.value[i])
  {
    if items == [] then Normal([])
    else
      var head := if items[0] == JNull then Normal("") else ToJsString(items[0]);
      match head
      case Throw(message) => Throw(message)
      case Normal(text) =>
        match ElementTexts(items[1..], parent)
        case Throw(message) => Throw(message)
        case Normal(texts) => Normal([text] + texts)
  }
}
