/** The JSON-like values every checker of the repository reads: Python's
    None, bool, int, float, str, list and insertion-ordered dict. */
module JsonTree {
  import opened Text

  /** A float keeps the text the JSON library prints for it. */
  datatype Json =
    | Null
    | Bool(b: bool)
    | Int(n: int)
    | Float(r: real, text: string)
    | Str(s: string)
    | Arr(items: seq<Json>)
    | Obj(members: seq<Member>)

  datatype Member = Member(key: string, value: Json)

  datatype Option<+T> = None | Some(value: T)

  function KeyOf(m: Member): string { m.key }

  predicate StringOrNull(v: Json) { v.Null? || v.Str? }

  /** The items of a list, and none of anything else. */
  function Listed(v: Json): seq<Json> { if v.Arr? then v.items else [] }

  function Texts(names: seq<string>): (r: seq<Json>)
    ensures |r| == |names|
    ensures forall i | 0 <= i < |names| :: r[i] == Str(names[i])
  {
    seq(|names|, i requires 0 <= i < |names| => Str(names[i]))
  }

  // ----- dictionaries as member lists -----

  ghost predicate Distinct(ms: seq<Member>) { DistinctBy(KeyOf, ms) }

  predicate HasKey(ms: seq<Member>, k: string) {
    exists i | 0 <= i < |ms| :: ms[i].key == k
  }

  /** `ms[k]` where present; the last entry wins, as when a dict is filled. */
  function Lookup(ms: seq<Member>, k: string): (r: Option<Json>)
    ensures r.Some? <==> HasKey(ms, k)
    ensures r.Some? ==> Member(k, r.value) in ms
  {
    if ms == [] then None
    else if ms[|ms| - 1].key == k then Some(ms[|ms| - 1].value)
    else
      var r := Lookup(ms[..|ms| - 1], k);
      assert HasKey(ms, k) ==> HasKey(ms[..|ms| - 1], k);
      r
  }

  lemma {:induction false} LookupAt(ms: seq<Member>, i: nat)
    requires Distinct(ms) && i < |ms|
    ensures Lookup(ms, ms[i].key) == Some(ms[i].value)
  {
    if i < |ms| - 1 {
      assert KeyOf(ms[i]) != KeyOf(ms[|ms| - 1]);
      LookupAt(ms[..|ms| - 1], i);
    }
  }

  /** Every dictionary in the tree has distinct keys: the trees Python can hold. */
  ghost predicate WellFormed(v: Json) {
    match v
    case Arr(items) => forall x | x in items :: WellFormed(x)
    case Obj(ms) => Distinct(ms) && forall x | x in ms :: WellFormed(x.value)
    case _ => true
  }

  /** Same JSON value: dictionaries are compared without their order. */
  ghost predicate Same(v: Json, w: Json) {
    match v
    case Arr(a) => w.Arr? && |a| == |w.items| && forall i | 0 <= i < |a| :: Same(a[i], w.items[i])
    case Obj(a) => w.Obj? && SameOnLeft(a, w.members) && SameOnRight(a, w.members)
    case _ => v == w
  }

  ghost predicate SameOnLeft(a: seq<Member>, b: seq<Member>) {
    forall x | x in a :: exists y | y in b :: x.key == y.key && Same(x.value, y.value)
  }

  ghost predicate SameOnRight(a: seq<Member>, b: seq<Member>) {
    forall y | y in b :: exists x | x in a :: x.key == y.key && Same(x.value, y.value)
  }

  /** Python's `==`: as `Same`, but True equals 1 and numbers compare by value. */
  predicate PyEq(v: Json, w: Json) {
    if IsNumeric(v) && IsNumeric(w) then NumericValue(v) == NumericValue(w)
    else
      match v
      case Arr(a) => w.Arr? && |a| == |w.items| && forall i | 0 <= i < |a| :: PyEq(a[i], w.items[i])
      case Obj(a) => w.Obj? && PyEqOnLeft(a, w.members) && PyEqOnRight(a, w.members)
      case _ => v == w
  }

  predicate PyEqOnLeft(a: seq<Member>, b: seq<Member>) {
    forall x | x in a :: exists y | y in b :: x.key == y.key && PyEq(x.value, y.value)
  }

  predicate PyEqOnRight(a: seq<Member>, b: seq<Member>) {
    forall y | y in b :: exists x | x in a :: x.key == y.key && PyEq(x.value, y.value)
  }

  predicate IsNumeric(v: Json) { v.Bool? || v.Int? || v.Float? }

  function NumericValue(v: Json): real
    requires IsNumeric(v)
  {
    match v
    case Bool(b) => if b then 1.0 else 0.0
    case Int(n) => n as real
    case Float(r, _) => r
  }

  lemma {:induction false} SameReflexive(v: Json)
    ensures Same(v, v)
  {
    match v
    case Arr(items) =>
      forall i | 0 <= i < |items| ensures Same(items[i], items[i]) { SameReflexive(items[i]); }
    case Obj(ms) =>
      forall x | x in ms ensures x.key == x.key && Same(x.value, x.value) { SameReflexive(x.value); }
      assert SameOnLeft(ms, ms) && SameOnRight(ms, ms);
    case _ =>
  }

  lemma {:induction false} PyEqReflexive(v: Json)
    ensures PyEq(v, v)
  {
    match v
    case Arr(items) =>
      forall i | 0 <= i < |items| ensures PyEq(items[i], items[i]) { PyEqReflexive(items[i]); }
    case Obj(ms) =>
      forall x | x in ms ensures x.key == x.key && PyEq(x.value, x.value) { PyEqReflexive(x.value); }
      assert PyEqOnLeft(ms, ms) && PyEqOnRight(ms, ms);
    case _ =>
  }

  // ----- reading a value that should be a dictionary -----

  predicate Has(v: Json, k: string) { v.Obj? && HasKey(v.members, k) }

  /** `v.get(k, default)`. */
  function GetOr(v: Json, k: string, default: Json): Json {
    if v.Obj? then
      match Lookup(v.members, k)
      case Some(x) => x
      case None => default
    else default
  }

  /** `v.get(k)`, and Null on anything that is not a dictionary. */
  function Get(v: Json, k: string): Json { GetOr(v, k, Null) }

  /** Python's truth value. */
  predicate Truthy(v: Json) {
    match v
    case Null => false
    case Bool(b) => b
    case Int(n) => n != 0
    case Float(r, _) => r != 0.0
    case Str(s) => s != ""
    case Arr(items) => items != []
    case Obj(ms) => ms != []
  }

  // ----- nesting height -----

  function Max(a: int, b: int): int { if a < b then b else a }

  /** Number of container edges on the longest path down. */
  function Height(v: Json): nat {
    match v
    case Arr(items) => if items == [] then 0 else 1 + ItemsHeight(items)
    case Obj(ms) => if ms == [] then 0 else 1 + MembersHeight(ms)
    case _ => 0
  }

  function ItemsHeight(items: seq<Json>): nat {
    if items == [] then 0 else Max(Height(items[0]), ItemsHeight(items[1..]))
  }

  function MembersHeight(ms: seq<Member>): nat {
    if ms == [] then 0 else Max(Height(ms[0].value), MembersHeight(ms[1..]))
  }

  lemma {:induction false} ItemsHeightBound(items: seq<Json>, i: nat)
    requires i < |items|
    ensures Height(items[i]) <= ItemsHeight(items)
  {
    if i > 0 { ItemsHeightBound(items[1..], i - 1); }
  }

  lemma {:induction false} MembersHeightBound(ms: seq<Member>, i: nat)
    requires i < |ms|
    ensures Height(ms[i].value) <= MembersHeight(ms)
  {
    if i > 0 { MembersHeightBound(ms[1..], i - 1); }
  }

  lemma {:induction false} ItemsHeightLeast(items: seq<Json>, h: nat)
    requires forall i | 0 <= i < |items| :: Height(items[i]) <= h
    ensures ItemsHeight(items) <= h
  {
    if items != [] { ItemsHeightLeast(items[1..], h); }
  }

  lemma {:induction false} MembersHeightLeast(ms: seq<Member>, h: nat)
    requires forall i | 0 <= i < |ms| :: Height(ms[i].value) <= h
    ensures MembersHeight(ms) <= h
  {
    if ms != [] { MembersHeightLeast(ms[1..], h); }
  }
}
