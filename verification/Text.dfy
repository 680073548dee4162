/** Strings as the rest of the model needs them: Python's code-point order,
    stable sorting by a string key, decimal numerals, and splitting. */
module Text {

  // ----- code-point order -----

  /** Python's `a < b` on strings. */
  predicate Less(a: string, b: string) {
    if b == "" then false
    else if a == "" then true
    else a[0] < b[0] || (a[0] == b[0] && Less(a[1..], b[1..]))
  }

  lemma {:induction false} LessIrreflexive(a: string)
    ensures !Less(a, a)
  {
    if a != "" { LessIrreflexive(a[1..]); }
  }

  lemma {:induction false} LessTransitive(a: string, b: string, c: string)
    requires Less(a, b) && Less(b, c)
    ensures Less(a, c)
  {
    if a != "" && a[0] == b[0] && b[0] == c[0] { LessTransitive(a[1..], b[1..], c[1..]); }
  }

  lemma {:induction false} LessTotal(a: string, b: string)
    ensures a == b || Less(a, b) || Less(b, a)
  {
    if a != "" && b != "" && a[0] == b[0] {
      LessTotal(a[1..], b[1..]);
      assert a == [a[0]] + a[1..] && b == [b[0]] + b[1..];
    }
  }

  // ----- stable sorting by a string key -----

  ghost predicate StrictlySortedBy<T(!new)>(key: T -> string, xs: seq<T>) {
    forall i, j | 0 <= i < j < |xs| :: Less(key(xs[i]), key(xs[j]))
  }

  ghost predicate DistinctBy<T(!new)>(key: T -> string, xs: seq<T>) {
    forall i, j | 0 <= i < j < |xs| :: key(xs[i]) != key(xs[j])
  }

  /** Places `x` before the first element whose key is not smaller. */
  function Insert<T(!new)>(key: T -> string, x: T, xs: seq<T>): (r: seq<T>)
    ensures |r| == |xs| + 1
    ensures forall y :: y in r <==> y == x || y in xs
  {
    if xs == [] || !Less(key(xs[0]), key(x)) then [x] + xs
    else
      var rest := Insert(key, x, xs[1..]);
      assert forall y :: y in xs <==> y == xs[0] || y in xs[1..];
      [xs[0]] + rest
  }

  /** Python's `sorted(xs, key=key)`: ascending and stable. */
  function SortBy<T(!new)>(key: T -> string, xs: seq<T>): (r: seq<T>)
    ensures |r| == |xs|
    ensures forall y :: y in r <==> y in xs
  {
    if xs == [] then []
    else
      assert forall y :: y in xs <==> y == xs[0] || y in xs[1..];
      Insert(key, xs[0], SortBy(key, xs[1..]))
  }

  lemma {:induction false} InsertKeepsStrictOrder<T(!new)>(key: T -> string, x: T, xs: seq<T>)
    requires StrictlySortedBy(key, xs)
    requires forall y | y in xs :: key(y) != key(x)
    ensures StrictlySortedBy(key, Insert(key, x, xs))
  {
    if xs == [] {
    } else if Less(key(xs[0]), key(x)) {
      InsertKeepsStrictOrder(key, x, xs[1..]);
      var rest := Insert(key, x, xs[1..]);
      forall j | 0 <= j < |rest| ensures Less(key(xs[0]), key(rest[j])) {
        assert rest[j] in rest;
        if rest[j] != x {
          var k :| 0 <= k < |xs[1..]| && xs[1..][k] == rest[j];
          assert rest[j] == xs[k + 1];
        }
      }
    } else {
      LessTotal(key(xs[0]), key(x));
      assert xs[0] in xs;
      forall j | 0 <= j < |xs| ensures Less(key(x), key(xs[j])) {
        if j > 0 { LessTransitive(key(x), key(xs[0]), key(xs[j])); }
      }
    }
  }

  lemma {:induction false} SortByIsStrict<T(!new)>(key: T -> string, xs: seq<T>)
    requires DistinctBy(key, xs)
    ensures StrictlySortedBy(key, SortBy(key, xs))
  {
    if xs != [] {
      SortByIsStrict(key, xs[1..]);
      forall y | y in SortBy(key, xs[1..]) ensures key(y) != key(xs[0]) {
        var k :| 0 <= k < |xs[1..]| && xs[1..][k] == y;
        assert y == xs[k + 1];
      }
      InsertKeepsStrictOrder(key, xs[0], SortBy(key, xs[1..]));
    }
  }

  /** A strictly ascending sequence is fixed by the set of its elements. */
  lemma {:induction false} StrictOrderIsUnique<T(!new)>(key: T -> string, xs: seq<T>, ys: seq<T>)
    requires StrictlySortedBy(key, xs) && StrictlySortedBy(key, ys)
    requires forall z :: z in xs <==> z in ys
    ensures xs == ys
  {
    assert xs == [] ==> ys == [] by {
      if ys != [] { assert ys[0] in xs; }
    }
    if xs != [] {
      assert xs[0] in xs;
      assert xs[0] in ys;
      assert ys[0] in ys;
      assert ys[0] in xs;
      var i :| 0 <= i < |ys| && ys[i] == xs[0];
      var j :| 0 <= j < |xs| && xs[j] == ys[0];
      if i > 0 && j > 0 {
        LessTransitive(key(xs[0]), key(ys[0]), key(xs[0]));
        LessIrreflexive(key(xs[0]));
      }
      assert xs[0] == ys[0];
      forall z ensures z in xs[1..] <==> z in ys[1..] {
        if z in xs[1..] {
          StrictTail(key, xs, z);
          assert z in ys;
        }
        if z in ys[1..] {
          StrictTail(key, ys, z);
          assert z in xs;
        }
      }
      StrictOrderIsUnique(key, xs[1..], ys[1..]);
    }
  }

  lemma {:induction false} StrictTail<T(!new)>(key: T -> string, xs: seq<T>, z: T)
    requires StrictlySortedBy(key, xs) && xs != [] && z in xs[1..]
    ensures z in xs && z != xs[0]
  {
    var k :| 0 <= k < |xs[1..]| && xs[1..][k] == z;
    assert xs[k + 1] == z;
    LessIrreflexive(key(z));
  }

  /** Sorting forgets the order it was given, as long as the keys differ. */
  lemma {:induction false} SortByIgnoresOrder<T(!new)>(key: T -> string, xs: seq<T>, ys: seq<T>)
    requires DistinctBy(key, xs) && DistinctBy(key, ys)
    requires forall z :: z in xs <==> z in ys
    ensures SortBy(key, xs) == SortBy(key, ys)
  {
    SortByIsStrict(key, xs);
    SortByIsStrict(key, ys);
    StrictOrderIsUnique(key, SortBy(key, xs), SortBy(key, ys));
  }

  lemma {:induction false} StrictIsDistinct<T(!new)>(key: T -> string, xs: seq<T>)
    requires StrictlySortedBy(key, xs)
    ensures DistinctBy(key, xs)
  {
    forall i, j | 0 <= i < j < |xs| ensures key(xs[i]) != key(xs[j]) {
      LessIrreflexive(key(xs[i]));
    }
  }

  function Self(s: string): string { s }

  /** Removes later repetitions. */
  function Unique(xs: seq<string>): (r: seq<string>)
    ensures forall y :: y in r <==> y in xs
  {
    if xs == [] then []
    else
      var rest := Unique(xs[..|xs| - 1]);
      var x := xs[|xs| - 1];
      assert xs == xs[..|xs| - 1] + [x];
      if x in rest then rest else rest + [x]
  }

  lemma {:induction false} UniqueIsDistinct(xs: seq<string>)
    ensures DistinctBy(Self, Unique(xs))
  {
    if xs != [] { UniqueIsDistinct(xs[..|xs| - 1]); }
  }

  /** Python's `sorted(set(xs))`. */
  function SortedSet(xs: seq<string>): (r: seq<string>)
    ensures forall y :: y in r <==> y in xs
  {
    SortBy(Self, Unique(xs))
  }

  lemma {:induction false} SortedSetIsStrict(xs: seq<string>)
    ensures StrictlySortedBy(Self, SortedSet(xs)) && DistinctBy(Self, SortedSet(xs))
  {
    UniqueIsDistinct(xs);
    SortByIsStrict(Self, Unique(xs));
    StrictIsDistinct(Self, SortedSet(xs));
  }

  lemma {:induction false} SortedSetIgnoresOrder(xs: seq<string>, ys: seq<string>)
    requires forall z :: z in xs <==> z in ys
    ensures SortedSet(xs) == SortedSet(ys)
  {
    SortedSetIsStrict(xs);
    SortedSetIsStrict(ys);
    StrictOrderIsUnique(Self, SortedSet(xs), SortedSet(ys));
  }

  // ----- decimal numerals -----

  predicate IsDigit(c: char) { '0' <= c <= '9' }

  predicate IsLetter(c: char) { 'a' <= c <= 'z' || 'A' <= c <= 'Z' }

  predicate AllDigits(s: string) { forall i | 0 <= i < |s| :: IsDigit(s[i]) }

  function DigitChar(d: nat): (c: char)
    requires d < 10
    ensures IsDigit(c) && DigitValue(c) == d
  {
    ('0' as int + d) as char
  }

  function DigitValue(c: char): (d: nat)
    requires IsDigit(c)
    ensures d < 10
  {
    c as int - '0' as int
  }

  function NatText(n: nat): (s: string)
    ensures s != "" && AllDigits(s)
    ensures s[0] == '0' ==> s == "0"
  {
    if n < 10 then [DigitChar(n)] else NatText(n / 10) + [DigitChar(n % 10)]
  }

  function IntText(n: int): string {
    if n < 0 then "-" + NatText(-n) else NatText(n)
  }

  /** Python's `int(s)` on a string of ASCII digits. */
  function NatValue(s: string): nat
    requires AllDigits(s)
  {
    if s == "" then 0 else 10 * NatValue(s[..|s| - 1]) + DigitValue(s[|s| - 1])
  }

  lemma {:induction false} NatTextRoundTrip(n: nat)
    ensures NatValue(NatText(n)) == n
    ensures n != 0 ==> NatText(n)[0] != '0'
  {
    if n < 10 {
      assert NatText(n)[..0] == "";
    } else {
      NatTextRoundTrip(n / 10);
      var s := NatText(n);
      assert s[..|s| - 1] == NatText(n / 10);
      assert s[0] == NatText(n / 10)[0];
    }
  }

  // ----- splitting -----

  /** Python's `s.split(sep)` for a one-character separator. */
  function Split(s: string, sep: char): (parts: seq<string>)
    ensures parts != []
  {
    if s == "" then [""]
    else if s[0] == sep then [""] + Split(s[1..], sep)
    else
      var rest := Split(s[1..], sep);
      [[s[0]] + rest[0]] + rest[1..]
  }

  lemma {:induction false} SplitAtSeparator(a: string, b: string, sep: char)
    requires sep !in a
    ensures Split(a + [sep] + b, sep) == [a] + Split(b, sep)
    ensures Split(a, sep) == [a]
  {
    if a == "" {
      assert a + [sep] + b == [sep] + b;
    } else {
      SplitAtSeparator(a[1..], b, sep);
      assert (a + [sep] + b)[1..] == a[1..] + [sep] + b;
      assert a == [a[0]] + a[1..];
    }
  }

  lemma {:induction false} SplitPartsHaveNoSeparator(s: string, sep: char)
    ensures forall i | 0 <= i < |Split(s, sep)| :: sep !in Split(s, sep)[i]
  {
    if s != "" { SplitPartsHaveNoSeparator(s[1..], sep); }
  }

  // ----- joining -----

  lemma {:induction false} Regroup<T>(a: seq<T>, b: seq<T>, c: seq<T>)
    ensures a + b + c == a + (b + c)
  {
  }

  lemma {:induction false} RegroupFour<T>(a: seq<T>, b: seq<T>, c: seq<T>, d: seq<T>)
    ensures a + (b + (c + d)) == (a + b + c) + d
    ensures a + (b + c + d) == (a + b + c) + d
  {
  }

  lemma {:induction false} NothingJoined<T>(a: seq<T>, b: seq<T>)
    ensures a + b == [] <==> a == [] && b == []
  {
    assert |a + b| == |a| + |b|;
  }

  /** Appending to `start + sum` is appending to `sum`. */
  ghost function Joined<T>(start: seq<T>, sum: seq<T>, more: seq<T>): (r: seq<T>)
    ensures r == sum + more
    ensures start + sum + more == start + r
  {
    Regroup(start, sum, more);
    sum + more
  }

  predicate StartsWith(s: string, prefix: string) { prefix <= s }

  predicate EndsWith(s: string, suffix: string) {
    |suffix| <= |s| && s[|s| - |suffix|..] == suffix
  }
}
