/** What the hash-bound artifacts of src/ainir/mcp_tool_call.py and
    src/ainir/evidence_provider.py share: fixed-key records read from and written to
    dictionaries, token shapes, and hashes of projections. */
module Artifacts {
  import opened Text
  import opened JsonTree
  import opened CanonicalJson
  import opened JsonPointer
  import opened JsonSchema
  import opened WorkspacePath

  /** What the code takes from libraries: SHA-256 as "sha256:" text, ISO-8601
      timestamps as instants, the credential patterns, and the wording of
      messages. */
  datatype Library = Library(
    sha: string -> string,
    instant: string -> Option<int>,
    showInstant: int -> string,
    sens: Sensitivity,
    wording: Notice -> string)

  datatype Notice =
    | UnknownTool
    | PointerMissing
    | EmptyResource
    | BadPath(error: PathError)
    | SensitiveArgument
    | SchemaMismatch(finding: Finding)

  function Instant(v: Json, lib: Library): Option<int> { if v.Str? then lib.instant(v.s) else None }

  // ----- token shapes -----

  predicate SafeToken(v: Json) {
    v.Str? && 1 <= |v.s| <= 200 &&
    forall c | c in v.s :: IsLetter(c) || IsDigit(c) || c in {'_', '.', ':', '@', '/', '+', '-'}
  }

  predicate SafeToolName(v: Json) {
    v.Str? && 1 <= |v.s| <= 128 && forall c | c in v.s :: IsLetter(c) || IsDigit(c) || c in {'_', '.', '-'}
  }

  predicate ProfileId(v: Json) {
    v.Str? && 3 <= |v.s| <= 128 && 'a' <= v.s[0] <= 'z' &&
    forall c | c in v.s :: 'a' <= c <= 'z' || IsDigit(c) || c in {'_', '.', '-'}
  }

  predicate IsSha(v: Json) {
    v.Str? && |v.s| == 71 && StartsWith(v.s, "sha256:") &&
    forall i | 7 <= i < 71 :: IsDigit(v.s[i]) || 'a' <= v.s[i] <= 'f'
  }

  predicate ShaOrNull(v: Json) { v.Null? || IsSha(v) }

  predicate NonEmptyText(v: Json) { v.Str? && v.s != "" }

  predicate OneOf(v: Json, names: seq<string>) { v.Str? && v.s in names }

  predicate PrefixedText(v: Json, prefix: string) { v.Str? && StartsWith(v.s, prefix) }

  predicate NoRepeats(items: seq<Json>) { forall i, j | 0 <= i < j < |items| :: items[i] != items[j] }

  predicate UniqueSafeStrings(v: Json, allowEmpty: bool) {
    && v.Arr?
    && (allowEmpty || v.items != [])
    && (forall x | x in v.items :: SafeToken(x))
    && NoRepeats(v.items)
  }

  predicate AllWithin(v: Json, names: seq<string>) {
    v.Arr? && forall x | x in v.items :: OneOf(x, names)
  }

  /** The strings of a list of strings. */
  function Strings(v: Json): (r: seq<string>)
    ensures forall s :: s in r <==> v.Arr? && Str(s) in v.items
  {
    if v.Arr? then ItemStrings(v.items) else []
  }

  function ItemStrings(items: seq<Json>): (r: seq<string>)
    ensures forall s :: s in r <==> Str(s) in items
  {
    if items == [] then []
    else
      var rest := ItemStrings(items[1..]);
      assert forall s :: Str(s) in items <==> Str(s) == items[0] || Str(s) in items[1..];
      if items[0].Str? then [items[0].s] + rest else rest
  }

  lemma {:induction false} TextsContents(names: seq<string>)
    ensures forall s :: Str(s) in Texts(names) <==> s in names
    ensures forall x | x in Texts(names) :: x.Str? && x.s in names
  {
    forall s | s in names ensures Str(s) in Texts(names) {
      var i :| 0 <= i < |names| && names[i] == s;
      assert Texts(names)[i] == Str(s);
    }
  }

  lemma {:induction false} SortedTextsAreUnique(names: seq<string>)
    ensures NoRepeats(Texts(SortedSet(names)))
  {
    SortedSetIsStrict(names);
    var sorted := SortedSet(names);
    forall i, j | 0 <= i < j < |sorted| ensures Texts(sorted)[i] != Texts(sorted)[j] {
      assert Self(sorted[i]) != Self(sorted[j]);
    }
  }

  // ----- fixed-key records -----

  ghost predicate DistinctKeys(keys: seq<string>) {
    forall i, j | 0 <= i < j < |keys| :: keys[i] != keys[j]
  }

  function Record(keys: seq<string>, values: seq<Json>): (ms: seq<Member>)
    requires |keys| == |values|
    ensures |ms| == |keys|
    ensures forall i | 0 <= i < |keys| :: ms[i] == Member(keys[i], values[i])
  {
    seq(|keys|, i requires 0 <= i < |keys| => Member(keys[i], values[i]))
  }

  /** `v.get(k)` for each of the keys. */
  function Fields(v: Json, keys: seq<string>): (values: seq<Json>)
    ensures |values| == |keys|
    ensures forall i | 0 <= i < |keys| :: values[i] == Get(v, keys[i])
  {
    seq(|keys|, i requires 0 <= i < |keys| => Get(v, keys[i]))
  }

  predicate OnlyKeys(v: Json, keys: seq<string>) {
    v.Obj? && forall m | m in v.members :: m.key in keys
  }

  /** What a record writes, reading it gives back. */
  lemma {:induction false} RecordReadsBack(keys: seq<string>, values: seq<Json>)
    requires |keys| == |values| && DistinctKeys(keys)
    ensures var v := Obj(Record(keys, values));
            Fields(v, keys) == values && OnlyKeys(v, keys) && Distinct(v.members)
  {
    var ms := Record(keys, values);
    forall i | 0 <= i < |keys| ensures Get(Obj(ms), keys[i]) == values[i] { LookupAt(ms, i); }
  }

  // ----- projections and hashes -----

  /** The dictionary without some keys, every value copied through canonical JSON. */
  function Project(ms: seq<Member>, dropped: set<string>): seq<Member> {
    if ms == [] then []
    else
      var m := ms[|ms| - 1];
      Project(ms[..|ms| - 1], dropped) + (if m.key in dropped then [] else [NormMember(m)])
  }

  function Digest(v: Json, lib: Library): string { lib.sha(CanonicalText(v)) }

  function ProjectionDigest(v: Json, dropped: set<string>, lib: Library): string
    requires v.Obj?
  {
    Digest(Obj(Project(v.members, dropped)), lib)
  }

  /** `prefix + digest.removeprefix("sha256:")[:20]`. */
  function IdFor(prefix: string, digest: string): string {
    var hex := if StartsWith(digest, "sha256:") then digest[7..] else digest;
    prefix + hex[..if |hex| < 20 then |hex| else 20]
  }

  /** A hash looks like one, and a message says something. */
  ghost predicate WellBehaved(lib: Library) {
    (forall t :: IsSha(Str(lib.sha(t)))) && (forall n :: lib.wording(n) != "")
  }

  /** An instant survives being written out and read again. */
  ghost predicate ClockAgrees(lib: Library) {
    forall t | lib.instant(t).Some? :: lib.instant(lib.showInstant(lib.instant(t).value)) == lib.instant(t)
  }

  /** The projection sees only the kept fields. */
  lemma {:induction false} ProjectIgnoresDropped(keys: seq<string>, v: seq<Json>, w: seq<Json>, dropped: set<string>)
    requires |keys| == |v| == |w|
    requires forall i | 0 <= i < |keys| :: keys[i] in dropped || v[i] == w[i]
    ensures Project(Record(keys, v), dropped) == Project(Record(keys, w), dropped)
  {
    var n := |keys| - 1;
    if n >= 0 {
      ProjectIgnoresDropped(keys[..n], v[..n], w[..n], dropped);
      assert Record(keys, v)[..n] == Record(keys[..n], v[..n]);
      assert Record(keys, w)[..n] == Record(keys[..n], w[..n]);
    }
  }

  /** Values that copying leaves alone are kept as they are. */
  lemma {:induction false} ProjectLast(keys: seq<string>, values: seq<Json>, last: Member)
    requires |keys| == |values| && last.key !in keys
    requires forall x | x in values :: Norm(x) == x
    ensures Project(Record(keys, values) + [last], {last.key}) == Record(keys, values)
  {
    var ms := Record(keys, values);
    assert (ms + [last])[..|ms|] == ms;
    ProjectPlain(ms, {last.key});
  }

  lemma {:induction false} ProjectPlain(ms: seq<Member>, dropped: set<string>)
    requires forall i | 0 <= i < |ms| :: ms[i].key !in dropped && Norm(ms[i].value) == ms[i].value
    ensures Project(ms, dropped) == ms
  {
    if ms != [] { ProjectPlain(ms[..|ms| - 1], dropped); }
  }

  lemma {:induction false} ProjectContents(ms: seq<Member>, dropped: set<string>, y: Member)
    ensures y in Project(ms, dropped) <==> exists x | x in ms :: x.key !in dropped && y == NormMember(x)
  {
    if ms != [] {
      var n := |ms| - 1;
      ProjectContents(ms[..n], dropped, y);
      if y in Project(ms, dropped) {
        if y in Project(ms[..n], dropped) {
          var x :| x in ms[..n] && x.key !in dropped && y == NormMember(x);
          assert x in ms;
        } else {
          assert ms[n] in ms;
        }
      }
      if x :| x in ms && x.key !in dropped && y == NormMember(x) {
        var k :| 0 <= k < |ms| && ms[k] == x;
        if k < n { assert ms[..n][k] == x; }
      }
    }
  }

  lemma {:induction false} ProjectFits(ms: seq<Member>, dropped: set<string>)
    requires Distinct(ms)
    ensures Distinct(Project(ms, dropped))
  {
    if ms != [] {
      var n := |ms| - 1;
      ProjectFits(ms[..n], dropped);
      var p := Project(ms[..n], dropped);
      forall k | 0 <= k < |p| ensures KeyOf(p[k]) != KeyOf(ms[n]) {
        ProjectContents(ms[..n], dropped, p[k]);
        var x :| x in ms[..n] && x.key !in dropped && p[k] == NormMember(x);
        var i :| 0 <= i < n && ms[i] == x;
        assert KeyOf(ms[i]) != KeyOf(ms[n]);
      }
    }
  }

  lemma {:induction false} ProjectWellFormed(ms: seq<Member>, dropped: set<string>, floats: FloatReader)
    requires WellFormed(Obj(ms)) && FloatsRead(Obj(ms), floats)
    ensures WellFormed(Obj(Project(ms, dropped))) && FloatsRead(Obj(Project(ms, dropped)), floats)
  {
    ProjectFits(ms, dropped);
    forall y | y in Project(ms, dropped) ensures WellFormed(y.value) && FloatsRead(y.value, floats) {
      ProjectContents(ms, dropped, y);
      var x :| x in ms && x.key !in dropped && y == NormMember(x);
      NormWellFormed(x.value);
      NormFloatsRead(x.value, floats);
    }
  }

  lemma {:induction false} SameCopies(v: Json, w: Json)
    requires Same(Norm(v), Norm(w))
    ensures Same(v, w)
  {
    NormIsSame(v);
    NormIsSame(w);
    SameSymmetric(w, Norm(w));
    SameTransitive(v, Norm(v), Norm(w));
    SameTransitive(v, Norm(w), w);
  }

  ghost predicate Matched(x: Member, b: seq<Member>) { exists y | y in b :: y.key == x.key && Same(x.value, y.value) }

  lemma {:induction false} OnLeftMatch(a: seq<Member>, b: seq<Member>, p: Member) returns (q: Member)
    requires SameOnLeft(a, b) && p in a
    ensures q in b && p.key == q.key && Same(p.value, q.value)
  {
    q :| q in b && p.key == q.key && Same(p.value, q.value);
  }

  lemma {:induction false} KeptIsMatched(a: seq<Member>, b: seq<Member>, dropped: set<string>, x: Member)
    requires SameOnLeft(Project(a, dropped), Project(b, dropped))
    requires x in a && x.key !in dropped
    ensures Matched(x, b)
  {
    ProjectContents(a, dropped, NormMember(x));
    var q := OnLeftMatch(Project(a, dropped), Project(b, dropped), NormMember(x));
    ProjectContents(b, dropped, q);
    var y :| y in b && y.key !in dropped && q == NormMember(y);
    SameCopies(x.value, y.value);
  }

  /** Equal projections leave only the dropped fields to differ. */
  lemma {:induction false} SameProjectionSameFields(a: seq<Member>, b: seq<Member>, dropped: set<string>)
    requires Same(Obj(Project(a, dropped)), Obj(Project(b, dropped)))
    ensures forall x | x in a && x.key !in dropped :: Matched(x, b)
  {
    forall x | x in a && x.key !in dropped ensures Matched(x, b) { KeptIsMatched(a, b, dropped, x); }
  }

  /** Equal digests of two projections either come from equal contents or exhibit
      two different texts with one hash. */
  ghost predicate HashCollision(lib: Library, s: string, t: string) { s != t && lib.sha(s) == lib.sha(t) }

  lemma {:induction false} EqualDigests(a: Json, b: Json, dropped: set<string>, lib: Library, floats: FloatReader)
    requires a.Obj? && b.Obj? && WellFormed(a) && WellFormed(b) && FloatsRead(a, floats) && FloatsRead(b, floats)
    requires ProjectionDigest(a, dropped, lib) == ProjectionDigest(b, dropped, lib)
    ensures var p, q := Obj(Project(a.members, dropped)), Obj(Project(b.members, dropped));
            HashCollision(lib, CanonicalText(p), CanonicalText(q)) || Same(p, q)
  {
    var p, q := Obj(Project(a.members, dropped)), Obj(Project(b.members, dropped));
    ProjectWellFormed(a.members, dropped, floats);
    ProjectWellFormed(b.members, dropped, floats);
    CanonicalTextIdentifies(p, q, floats);
  }
}
