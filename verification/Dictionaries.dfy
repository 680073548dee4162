/** Storing into a Python dictionary: `d[k] = v` keeps the place of a present key and
    appends a new one. */
module Dictionaries {
  import opened JsonTree

  function Replaced(ms: seq<Member>, key: string, x: Json): (r: seq<Member>)
    ensures |r| == |ms|
    ensures forall i | 0 <= i < |ms| :: r[i] == if ms[i].key == key then Member(key, x) else ms[i]
  {
    seq(|ms|, i requires 0 <= i < |ms| => if ms[i].key == key then Member(key, x) else ms[i])
  }

  /** `d[key] = x`. */
  function SetMember(ms: seq<Member>, key: string, x: Json): seq<Member> {
    if HasKey(ms, key) then Replaced(ms, key, x) else ms + [Member(key, x)]
  }

  lemma {:induction false} SetMemberDistinct(ms: seq<Member>, key: string, x: Json)
    requires Distinct(ms)
    ensures Distinct(SetMember(ms, key, x))
  {
    var r := SetMember(ms, key, x);
    forall i, j | 0 <= i < j < |r| ensures KeyOf(r[i]) != KeyOf(r[j]) {
      if j < |ms| { assert KeyOf(ms[i]) != KeyOf(ms[j]); }
    }
  }

  lemma {:induction false} SetMemberGet(ms: seq<Member>, key: string, x: Json, k: string)
    requires Distinct(ms)
    ensures Get(Obj(SetMember(ms, key, x)), k) == if k == key then x else Get(Obj(ms), k)
    ensures Has(Obj(SetMember(ms, key, x)), k) <==> k == key || Has(Obj(ms), k)
  {
    var r := SetMember(ms, key, x);
    SetMemberDistinct(ms, key, x);
    if k == key {
      var i :| 0 <= i < |r| && r[i] == Member(key, x);
      LookupAt(r, i);
    } else if HasKey(ms, k) {
      var i :| 0 <= i < |ms| && ms[i].key == k;
      LookupAt(ms, i);
      assert r[i] == ms[i];
      LookupAt(r, i);
    } else {
      forall i | 0 <= i < |r| ensures r[i].key != k {
        if i < |ms| { assert ms[i].key != k; }
      }
    }
  }

  /** Storing what is already there changes nothing. */
  lemma {:induction false} SetMemberFix(ms: seq<Member>, key: string, x: Json)
    requires Distinct(ms) && HasKey(ms, key) && Get(Obj(ms), key) == x
    ensures SetMember(ms, key, x) == ms
  {
    forall i | 0 <= i < |ms| && ms[i].key == key ensures ms[i] == Member(key, x) { LookupAt(ms, i); }
  }

  lemma {:induction false} SetMemberKeys(ms: seq<Member>, key: string, x: Json, m: Member)
    requires m in SetMember(ms, key, x)
    ensures m.key == key || m in ms
  {
    var r := SetMember(ms, key, x);
    var i :| 0 <= i < |r| && r[i] == m;
  }

  /** `d.update(extra)`. */
  function Update(ms: seq<Member>, extra: seq<Member>): seq<Member> {
    if extra == [] then ms
    else
      var n := |extra| - 1;
      SetMember(Update(ms, extra[..n]), extra[n].key, extra[n].value)
  }

  /** An update with new, distinct keys appends them. */
  lemma {:induction false} UpdateAppends(ms: seq<Member>, extra: seq<Member>)
    requires Distinct(extra) && forall x | x in extra :: !HasKey(ms, x.key)
    ensures Update(ms, extra) == ms + extra
  {
    if extra != [] {
      var n := |extra| - 1;
      assert extra[n] in extra;
      UpdateAppends(ms, extra[..n]);
      forall i | 0 <= i < |ms + extra[..n]| ensures (ms + extra[..n])[i].key != extra[n].key {
        if i >= |ms| { assert KeyOf(extra[i - |ms|]) != KeyOf(extra[n]); }
      }
      assert ms + extra == (ms + extra[..n]) + [extra[n]];
    }
  }

  lemma {:induction false} JoinDistinct(a: seq<Member>, b: seq<Member>)
    requires Distinct(a) && Distinct(b) && forall x | x in b :: !HasKey(a, x.key)
    ensures Distinct(a + b)
  {
    var r := a + b;
    forall i, j | 0 <= i < j < |r| ensures KeyOf(r[i]) != KeyOf(r[j]) {
      if j < |a| {
        assert KeyOf(a[i]) != KeyOf(a[j]);
      } else if i >= |a| {
        assert KeyOf(b[i - |a|]) != KeyOf(b[j - |a|]);
      } else {
        assert b[j - |a|] in b;
      }
    }
  }

  /** Reading a joined dictionary reads the part that has the key. */
  lemma {:induction false} JoinGet(a: seq<Member>, b: seq<Member>, k: string)
    requires Distinct(a + b)
    ensures Get(Obj(a + b), k) == if HasKey(a, k) then Get(Obj(a), k) else Get(Obj(b), k)
    ensures Has(Obj(a + b), k) <==> HasKey(a, k) || HasKey(b, k)
  {
    var r := a + b;
    JoinParts(a, b);
    if HasKey(a, k) {
      var i :| 0 <= i < |a| && a[i].key == k;
      LookupAt(a, i);
      assert r[i] == a[i];
      LookupAt(r, i);
    } else if HasKey(b, k) {
      var i :| 0 <= i < |b| && b[i].key == k;
      LookupAt(b, i);
      assert r[|a| + i] == b[i];
      LookupAt(r, |a| + i);
    } else {
      forall i | 0 <= i < |r| ensures r[i].key != k {
        if i < |a| { assert a[i].key != k; } else { assert b[i - |a|].key != k; }
      }
    }
  }

  lemma {:induction false} JoinParts(a: seq<Member>, b: seq<Member>)
    requires Distinct(a + b)
    ensures Distinct(a) && Distinct(b)
  {
    var r := a + b;
    forall i, j | 0 <= i < j < |a| ensures KeyOf(a[i]) != KeyOf(a[j]) { assert KeyOf(r[i]) != KeyOf(r[j]); }
    forall i, j | 0 <= i < j < |b| ensures KeyOf(b[i]) != KeyOf(b[j]) {
      assert KeyOf(r[|a| + i]) != KeyOf(r[|a| + j]);
    }
  }
}
