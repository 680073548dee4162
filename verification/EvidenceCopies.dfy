/** src/ainir/evidence_provider.py: a provider keeps the canonical copy of its bundle, and the
    copy is as valid as the bundle. */
module EvidenceCopies {
  import opened Text
  import opened JsonTree
  import opened CanonicalJson
  import opened Artifacts
  import opened EvidenceRecords
  import opened EvidenceBundles

  // ----- the hash -----

  lemma {:induction false} CopiedTwice(x: Member)
    requires WellFormed(x.value)
    ensures NormMember(NormMember(x)) == NormMember(x)
  {
    NormIdempotent(x.value);
  }

  lemma {:induction false} CopyProjectsTo(ms: seq<Member>, dropped: set<string>, y: Member)
    requires WellFormed(Obj(ms)) && y in Project(ms, dropped)
    ensures y in Project(SortBy(KeyOf, NormMembers(ms)), dropped)
  {
    var sorted := SortBy(KeyOf, NormMembers(ms));
    ProjectContents(ms, dropped, y);
    var x :| x in ms && x.key !in dropped && y == NormMember(x);
    CopiedTwice(x);
    SortedMembers(ms, y);
    assert y in sorted && y.key !in dropped && y == NormMember(y);
    ProjectContents(sorted, dropped, y);
  }

  lemma {:induction false} CopyProjectsFrom(ms: seq<Member>, dropped: set<string>, y: Member)
    requires WellFormed(Obj(ms)) && y in Project(SortBy(KeyOf, NormMembers(ms)), dropped)
    ensures y in Project(ms, dropped)
  {
    var sorted := SortBy(KeyOf, NormMembers(ms));
    ProjectContents(sorted, dropped, y);
    var z :| z in sorted && z.key !in dropped && y == NormMember(z);
    SortedMembers(ms, z);
    var x :| x in ms && z == NormMember(x);
    CopiedTwice(x);
    ProjectContents(ms, dropped, y);
  }

  lemma {:induction false} SameMembersSameText(a: seq<Member>, b: seq<Member>)
    requires Distinct(a) && Distinct(b) && forall y :: y in a <==> y in b
    ensures CanonicalText(Obj(a)) == CanonicalText(Obj(b))
  {
    NormMembersContents(a);
    NormMembersContents(b);
    NormMembersDistinct(a);
    NormMembersDistinct(b);
    SortByIgnoresOrder(KeyOf, NormMembers(a), NormMembers(b));
  }

  /** A tree and its copy have one projection hash. */
  lemma {:induction false} ProjectionDigestNorm(v: Json, dropped: set<string>, lib: Library)
    requires WellFormed(v) && v.Obj?
    ensures ProjectionDigest(Norm(v), dropped, lib) == ProjectionDigest(v, dropped, lib)
  {
    NormWellFormed(v);
    var a, b := Project(Norm(v).members, dropped), Project(v.members, dropped);
    ProjectFits(Norm(v).members, dropped);
    ProjectFits(v.members, dropped);
    forall y ensures y in a <==> y in b {
      if y in a { CopyProjectsFrom(v.members, dropped, y); }
      if y in b { CopyProjectsTo(v.members, dropped, y); }
    }
    SameMembersSameText(a, b);
  }

  // ----- the parts -----

  /** `c` holds the copies of what `b` holds. */
  ghost predicate Copied(b: Bundle, c: Bundle) {
    forall i | 0 <= i < 10 :: BundleValues(c)[i] == Norm(BundleValues(b)[i])
  }

  lemma {:induction false} ReadBundleValues(v: Json)
    ensures BundleValues(ReadBundle(v)) == Fields(v, BUNDLE_KEYS)
  {
  }

  lemma {:induction false} ReadBundleNorm(v: Json)
    requires WellFormed(v)
    ensures Copied(ReadBundle(v), ReadBundle(Norm(v)))
  {
    ReadBundleValues(v);
    ReadBundleValues(Norm(v));
    forall i | 0 <= i < 10 ensures Fields(Norm(v), BUNDLE_KEYS)[i] == Norm(Fields(v, BUNDLE_KEYS)[i]) {
      GetNorm(v, BUNDLE_KEYS[i]);
    }
  }

  lemma {:induction false} HeaderNorm(b: Bundle, c: Bundle)
    requires Copied(b, c) && BundleHeaderFine(b)
    ensures BundleHeaderFine(c) && b.providerId.Str? && b.providerVersion.Str? && b.sourceKind.Str?
    ensures c.providerId == b.providerId && c.providerVersion == b.providerVersion && c.sourceKind == b.sourceKind
  {
    var f, g := BundleValues(b), BundleValues(c);
    assert g[0] == Norm(f[0]) && g[1] == Norm(f[1]) && g[2] == Norm(f[2]) && g[3] == Norm(f[3]) && g[4] == Norm(f[4]) && g[7] == Norm(f[7]);
  }

  lemma {:induction false} SealNorm(b: Bundle, c: Bundle, digest: string)
    requires Copied(b, c) && BundleSealFine(b, digest)
    ensures BundleSealFine(c, digest)
  {
    var f, g := BundleValues(b), BundleValues(c);
    assert g[8] == Norm(f[8]) && g[9] == Norm(f[9]);
  }

  lemma {:induction false} AcceptableIsFrom(records: seq<Json>, b: Bundle, w: World)
    requires b.providerId.Str? && b.providerVersion.Str? && b.sourceKind.Str? && AllAcceptable(records, b, w)
    ensures AllFrom(records, b.providerId.s, b.providerVersion.s, b.sourceKind.s, w)
  {
    forall r | r in records ensures RecordFine(r, w.lib) && From(r, b.providerId.s, b.providerVersion.s, b.sourceKind.s) {
      assert Acceptable(r, b, w);
      FromIsBelonging(r, b.providerId.s, b.providerVersion.s, b.sourceKind.s, b);
    }
  }

  lemma {:induction false} FineRecord(r: Json, lib: Library)
    requires RecordFine(r, lib)
    ensures r.Obj? && Get(r, "evidence_id").Str?
  {
  }

  lemma {:induction false} RecordsNorm(b: Bundle, c: Bundle, w: World)
    requires Copied(b, c) && BundleHeaderFine(b) && RecordsFine(b, w) && WellFormed(b.records)
    ensures RecordsFine(c, w)
  {
    HeaderNorm(b, c);
    var records := b.records.items;
    assert BundleValues(c)[5] == Norm(BundleValues(b)[5]);
    assert c.records == Arr(NormItems(records));
    forall r | r in records ensures WellFormed(r) && r.Obj? && Get(r, "evidence_id").Str? {
      assert Acceptable(r, b, w);
      FineRecord(r, w.lib);
    }
    AcceptableIsFrom(records, b, w);
    CopiesAcceptable(records, b.providerId.s, b.providerVersion.s, b.sourceKind.s, c, w);
    CopiesDistinct(records, w);
  }

  lemma {:induction false} SignaturePartsNorm(s: Json)
    requires WellFormed(s)
    ensures SafeId(Get(Norm(s), "key_id")) <==> SafeId(Get(s, "key_id"))
    ensures SafeId(Get(s, "key_id")) ==> Get(Norm(s), "key_id") == Get(s, "key_id")
    ensures Get(Norm(s), "algorithm") == Str(SIGNATURE_ALGORITHM) <==> Get(s, "algorithm") == Str(SIGNATURE_ALGORITHM)
    ensures Get(Norm(s), "purpose") == Str(SIGNATURE_PURPOSE) <==> Get(s, "purpose") == Str(SIGNATURE_PURPOSE)
    ensures Get(Norm(s), "value").Str? <==> Get(s, "value").Str?
    ensures Get(s, "value").Str? ==> Get(Norm(s), "value") == Get(s, "value")
  {
    GetNorm(s, "key_id");
    GetNorm(s, "algorithm");
    GetNorm(s, "purpose");
    GetNorm(s, "value");
    TestsNorm(Get(s, "key_id"));
    EqualsNorm(Get(s, "algorithm"), Str(SIGNATURE_ALGORITHM));
    EqualsNorm(Get(s, "purpose"), Str(SIGNATURE_PURPOSE));
    NormKind(Get(s, "value"));
  }

  lemma {:induction false} PresentText(v: Json, k: string, d: Json)
    requires Get(v, k).Str?
    ensures GetOr(v, k, d) == Get(v, k)
  {
  }

  /** What a signature check reads of two bundles. */
  ghost predicate SameToCheck(u: Json, v: Json) {
    var s, t := Get(u, "signature"), Get(v, "signature");
    && Get(u, "bundle_sha256").Str? && Get(u, "bundle_sha256") == Get(v, "bundle_sha256")
    && s.Null? == t.Null? && s.Obj? == t.Obj?
    && (SafeId(Get(s, "key_id")) <==> SafeId(Get(t, "key_id")))
    && (SafeId(Get(t, "key_id")) ==> Get(s, "key_id") == Get(t, "key_id"))
    && (Get(s, "algorithm") == Str(SIGNATURE_ALGORITHM) <==> Get(t, "algorithm") == Str(SIGNATURE_ALGORITHM))
    && (Get(s, "purpose") == Str(SIGNATURE_PURPOSE) <==> Get(t, "purpose") == Str(SIGNATURE_PURPOSE))
    && Get(s, "value").Str? == Get(t, "value").Str?
    && (Get(t, "value").Str? ==> Get(s, "value") == Get(t, "value"))
  }

  lemma {:induction false} SameCheck(u: Json, v: Json, keys: map<string, string>, w: World)
    requires SameToCheck(u, v)
    ensures VerifySignature(u, keys, w) == VerifySignature(v, keys, w)
  {
    PresentText(u, "bundle_sha256", Str(""));
    PresentText(v, "bundle_sha256", Str(""));
  }

  lemma {:induction false} SignatureNorm(v: Json, keys: map<string, string>, w: World)
    requires WellFormed(v) && Get(v, "bundle_sha256").Str?
    ensures VerifySignature(Norm(v), keys, w) == VerifySignature(v, keys, w)
    ensures Get(Norm(v), "signature").Null? <==> Get(v, "signature").Null?
  {
    BlockNorm(v, "signature");
    GetNorm(v, "bundle_sha256");
    NormKind(Get(v, "signature"));
    SignaturePartsNorm(Get(v, "signature"));
    SameCheck(Norm(v), v, keys, w);
  }

  /** The copy of a valid bundle is valid. */
  lemma {:induction false} BundleFineNorm(v: Json, keys: map<string, string>, required: bool, w: World)
    requires WellFormed(v) && BundleFine(v, keys, required, w)
    ensures BundleFine(Norm(v), keys, required, w)
  {
    var b, c := ReadBundle(v), ReadBundle(Norm(v));
    var f := Fields(v, BUNDLE_KEYS);
    assert f[5] == Get(v, "records") && f[8] == Get(v, "bundle_sha256");
    OnlyKeysNorm(v, BUNDLE_KEYS);
    ReadBundleNorm(v);
    HeaderNorm(b, c);
    PartWellFormed(v, "records");
    RecordsNorm(b, c, w);
    ProjectionDigestNorm(v, BUNDLE_OWN_KEYS, w.lib);
    SealNorm(b, c, BundleDigest(v, w.lib));
    SignatureNorm(v, keys, w);
  }
}
