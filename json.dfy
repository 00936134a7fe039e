/** JSON values as the engine sees them after `JSON.parse`, and the few
    JavaScript operations the engine applies to them: property access,
    truthiness, `.length`, `Object.keys`, `Object.values` and conversion to a
    string by concatenation. An object keeps its members in insertion order;
    `for ... in`, `Object.keys` and `Object.values` list them in the order
    `OwnKeys.Enumerated` gives, array-index keys first. */
module Json {
  import opened Options
  import opened Strings
  import opened Ordered
  import opened OwnKeys

  datatype Json =
    | JNull
    | JBool(b: bool)
    | JNum(n: int)
    | JStr(s: string)
    | JArr(items: seq<Json>)
    | JObj(members: seq<(string, Json)>)

  /** `v[key]` for a property name: only objects have named members here;
      anything else yields `undefined`. */
  function Prop(v: Json, key: string): (r: Option<Json>)
    ensures r.Some? ==> v.JObj? && key in KeysOf(v.members)
  {
    if v.JObj? then Get(v.members, key) else None
  }

  /** `!!v`, with `None` standing for `undefined`. */
  predicate Truthy(v: Option<Json>) {
    match v
    case None => false
    case Some(JNull) => false
    case Some(JBool(b)) => b
    case Some(JNum(n)) => n != 0
    case Some(JStr(s)) => s != ""
    case Some(JArr(_)) => true
    case Some(JObj(_)) => true
  }

  /** `v.length`: defined for arrays and strings, `undefined` otherwise.
      An object with a member named `length` is read as having none, which
      JavaScript would not do (`{ length: 1 }.length` is 1). */
  function Length(v: Json): (r: Option<nat>)
    ensures r.Some? <==> v.JArr? || v.JStr?
  {
    match v
    case JArr(items) => Some(|items|)
    case JStr(s) => Some(|s|)
    case _ => None
  }

  function IndexKeys(n: nat): (ks: seq<string>)
    ensures |ks| == n && forall i :: 0 <= i < n ==> ks[i] == NatToString(i)
  {
    if n == 0 then [] else IndexKeys(n - 1) + [NatToString(n - 1)]
  }

  /** `Object.keys(v)` for a value that is not `null`: an object's keys in
      enumeration order, an array's or a string's indices, and nothing for a
      number or a boolean. Each key of an object is listed as often as the
      object holds it. */
  function ObjectKeys(v: Json): (ks: seq<string>)
    ensures v.JObj? ==> |ks| == |v.members| && forall k :: k in ks <==> k in KeysOf(v.members)
    ensures v.JArr? ==> |ks| == |v.items|
    ensures v.JStr? ==> |ks| == |v.s|
    ensures !(v.JObj? || v.JArr? || v.JStr?) ==> ks == []
  {
    match v
    case JObj(ms) =>
      EnumeratedKeysListed(ms);
      KeysOf(Enumerated(ms))
    case JArr(items) => IndexKeys(|items|)
    case JStr(s) => IndexKeys(|s|)
    case _ => []
  }

  /** An object none of whose keys is an array index lists its keys in the
      order they were added. */
  lemma ObjectKeysInInsertionOrder(v: Json)
    requires v.JObj? && forall x :: x in v.members ==> !IsIndexKey(x.0)
    ensures ObjectKeys(v) == KeysOf(v.members)
  {
    InsertionOrderWithoutIndices(v.members);
    assert Enumerated(v.members) == v.members;
  }

  /** Each key of an object is listed as often as the object holds it. */
  lemma ObjectKeysPermute(v: Json)
    requires v.JObj?
    ensures multiset(ObjectKeys(v)) == multiset(KeysOf(v.members))
  {
    EnumeratedKeysMultiset(v.members);
  }

  function CharStrings(s: string): (vs: seq<Json>)
    ensures |vs| == |s| && forall i :: 0 <= i < |s| ==> vs[i] == JStr([s[i]])
  {
    if s == [] then [] else [JStr([s[0]])] + CharStrings(s[1..])
  }

  /** `Object.values(v)`, in the same order as `ObjectKeys(v)`: for an
      object, each value beside the key it is stored under. */
  function ObjectValues(v: Json): (vs: seq<Json>)
    ensures |vs| == |ObjectKeys(v)|
    ensures v.JObj? ==> forall i :: 0 <= i < |vs| ==> (ObjectKeys(v)[i], vs[i]) in v.members
  {
    match v
    case JObj(ms) =>
      EnumeratedPermutes(ms);
      ValuesOf(Enumerated(ms))
    case JArr(items) => items
    case JStr(s) => CharStrings(s)
    case _ => []
  }

  /** `'' + v`, as string concatenation converts a value. Arrays convert as
      `Array.prototype.join` does (`null` elements become empty), objects
      as `[object Object]`. */
  function ToText(v: Option<Json>): string {
    match v
    case None => "undefined"
    case Some(j) => JsonText(j)
  }

  function JsonText(j: Json): string {
    match j
    case JNull => "null"
    case JBool(b) => if b then "true" else "false"
    case JNum(n) => IntToString(n)
    case JStr(s) => s
    case JArr(items) => JoinedText(items)
    case JObj(_) => "[object Object]"
  }

  function JoinedText(items: seq<Json>): string
    decreases items
  {
    if items == [] then ""
    else
      var first := if items[0].JNull? then "" else JsonText(items[0]);
      if |items| == 1 then first else first + "," + JoinedText(items[1..])
  }

  /** `{}` */
  const EmptyObject: Json := JObj([])

  /** `{ key: value }` */
  function Single(key: string, value: Json): (r: Json)
    ensures Prop(r, key) == Some(value)
  {
    JObj([(key, value)])
  }

  /** A list of strings as a JSON array. */
  function Strs(ss: seq<string>): (r: Json)
    ensures r.JArr? && |r.items| == |ss|
    ensures forall i :: 0 <= i < |ss| ==> r.items[i] == JStr(ss[i])
  {
    if ss == [] then JArr([]) else JArr([JStr(ss[0])] + Strs(ss[1..]).items)
  }
}
