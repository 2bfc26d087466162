/**
 * JSON values as JSON.stringify writes them and JSON.parse reads them back:
 * the tree a JSON round trip carries from one object graph to a fresh one.
 */
module Json {
  import opened Wrappers

  datatype Json =
    | JNull
    | JBool(b: bool)
    | JNumber(n: real)
    | JString(s: string)
    | JArray(items: seq<Json>)
    | JObject(members: map<string, Json>)

  /** The member `key` of an object, `None` when `j` is not an object or lacks the key. */
  function Member(j: Json, key: string): (r: Option<Json>)
    ensures r.Some? <==> j.JObject? && key in j.members
  {
    if j.JObject? && key in j.members then Some(j.members[key]) else None
  }

  function AsString(j: Json): (r: Option<string>)
    ensures r.Some? <==> j.JString?
  {
    if j.JString? then Some(j.s) else None
  }

  function StringMember(j: Json, key: string): Option<string> {
    var v :- Member(j, key);
    AsString(v)
  }

  /** `null` reads back as `None`, a string as `Some`; anything else does not read. */
  function NullableMember(j: Json, key: string): Option<Option<string>> {
    var v :- Member(j, key);
    if v.JNull? then Some(None) else if v.JString? then Some(Some(v.s)) else None
  }

  /** A number that is a whole number reads back as an integer. */
  function IntMember(j: Json, key: string): Option<int> {
    var v :- Member(j, key);
    if v.JNumber? && v.n.Floor as real == v.n then Some(v.n.Floor) else None
  }

  function RealMember(j: Json, key: string): Option<real> {
    var v :- Member(j, key);
    if v.JNumber? then Some(v.n) else None
  }

  function NullJ(o: Option<string>): Json {
    match o
    case None => JNull
    case Some(s) => JString(s)
  }

  function StringJ(s: string): Json {
    JString(s)
  }

  /** The items JSON.stringify writes for an array whose elements it writes with `enc`. */
  function ArrayJ<T>(xs: seq<T>, enc: T -> Json): (items: seq<Json>)
    ensures |items| == |xs|
    ensures forall i :: 0 <= i < |xs| ==> items[i] == enc(xs[i])
  {
    if xs == [] then [] else [enc(xs[0])] + ArrayJ(xs[1..], enc)
  }

  /** The array JSON.parse rebuilds from `items`, each read by `dec`; `None` when some item does not read. */
  function ArrayOf<T>(items: seq<Json>, dec: Json -> Option<T>): (r: Option<seq<T>>)
    ensures r.None? <==> exists i :: 0 <= i < |items| && dec(items[i]).None?
    ensures r.Some? ==> |r.value| == |items| && forall i :: 0 <= i < |items| ==> dec(items[i]) == Some(r.value[i])
  {
    if items == [] then Some([])
    else
      var first :- dec(items[0]);
      var rest :- ArrayOf(items[1..], dec);
      assert forall i :: 1 <= i < |items| ==> items[i] == items[1..][i - 1];
      Some([first] + rest)
  }

  /** An array whose every element reads back through `dec` survives the round trip whole and in order. */
  lemma ArrayRoundTrip<T>(xs: seq<T>, enc: T -> Json, dec: Json -> Option<T>)
    requires forall i :: 0 <= i < |xs| ==> dec(enc(xs[i])) == Some(xs[i])
    ensures ArrayOf(ArrayJ(xs, enc), dec) == Some(xs)
  {
    var r := ArrayOf(ArrayJ(xs, enc), dec);
    assert r.Some?;
    assert r.value == xs;
  }

  function StringListMember(j: Json, key: string): Option<seq<string>> {
    var v :- Member(j, key);
    if v.JArray? then ArrayOf(v.items, AsString) else None
  }

  lemma StringMemberOf(j: Json, key: string, x: string)
    requires Member(j, key) == Some(JString(x))
    ensures StringMember(j, key) == Some(x)
  {
  }

  lemma NullableMemberOf(j: Json, key: string, o: Option<string>)
    requires Member(j, key) == Some(NullJ(o))
    ensures NullableMember(j, key) == Some(o)
  {
  }

  lemma StringListMemberOf(j: Json, key: string, ss: seq<string>)
    requires Member(j, key) == Some(JArray(ArrayJ(ss, StringJ)))
    ensures StringListMember(j, key) == Some(ss)
  {
    ArrayRoundTrip(ss, StringJ, AsString);
  }
}
