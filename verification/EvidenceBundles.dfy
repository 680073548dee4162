/** src/ainir/evidence_provider.py: bundles of evidence records, their hash, their
    signature and their validator. */
module EvidenceBundles {
  import opened Text
  import opened JsonTree
  import opened CanonicalJson
  import opened Artifacts
  import opened EvidenceRecords

  const BUNDLE_KEYS := [
    "kind", "version", "provider_id", "provider_version", "source_kind", "records", "signature",
    "production_runtime_ready", "bundle_sha256", "bundle_id"]

  const BUNDLE_OWN_KEYS := {"bundle_id", "bundle_sha256", "signature"}
  const BUNDLE_PREFIX := "ainir.evidence.bundle."
  const MAX_EVIDENCE_RECORDS := 512

  const SIGNATURE_KEYS := ["algorithm", "key_id", "value", "purpose"]
  const SIGNATURE_ALGORITHM := "hmac-sha256"
  const SIGNATURE_PURPOSE := "offline_integrity_demo_not_public_key_attestation"

  /** HMAC (RFC 2104) as hexadecimal text, Python's `str`, and the registry's kinds. */
  datatype World = World(
    lib: Library,
    hmac: (string, string) -> string,
    show: Json -> string,
    registryKinds: seq<string>)

  predicate HexDigest(s: string) {
    |s| == 64 && forall i | 0 <= i < 64 :: IsDigit(s[i]) || 'a' <= s[i] <= 'f'
  }

  ghost predicate Proper(w: World) {
    (forall t :: IsSha(Str(w.lib.sha(t)))) && (forall k, t :: HexDigest(w.hmac(k, t)))
  }

  datatype Bundle = Bundle(
    kind: Json, version: Json, providerId: Json, providerVersion: Json, sourceKind: Json,
    records: Json, signature: Json, productionReady: Json, sha: Json, id: Json)

  function BundleValues(b: Bundle): (r: seq<Json>)
    ensures |r| == 10
  {
    [b.kind, b.version, b.providerId, b.providerVersion, b.sourceKind, b.records, b.signature, b.productionReady, b.sha, b.id]
  }

  function BundleTree(b: Bundle): Json { Obj(Record(BUNDLE_KEYS, BundleValues(b))) }

  function ReadBundle(v: Json): Bundle {
    var f := Fields(v, BUNDLE_KEYS);
    Bundle(f[0], f[1], f[2], f[3], f[4], f[5], f[6], f[7], f[8], f[9])
  }

  lemma {:induction false} BundleKeysDiffer()
    ensures DistinctKeys(BUNDLE_KEYS)
  {
    assert forall i, j | 0 <= i < j < |BUNDLE_KEYS| :: BUNDLE_KEYS[i] != BUNDLE_KEYS[j];
  }

  lemma {:induction false} BundleReadsBack(b: Bundle)
    ensures ReadBundle(BundleTree(b)) == b && OnlyKeys(BundleTree(b), BUNDLE_KEYS) && Distinct(BundleTree(b).members)
  {
    BundleKeysDiffer();
    RecordReadsBack(BUNDLE_KEYS, BundleValues(b));
  }

  /** The hash covers everything but the hash, the id and the signature. */
  function BundleDigest(v: Json, lib: Library): string
    requires v.Obj?
  {
    ProjectionDigest(v, BUNDLE_OWN_KEYS, lib)
  }

  // ----- building -----

  /** `str(record.get("evidence_id", ""))`. */
  function RecordKey(r: Json, w: World): string {
    var id := GetOr(r, "evidence_id", Str(""));
    if id.Str? then id.s else w.show(id)
  }

  function ByEvidenceId(w: World): Json -> string { r => RecordKey(r, w) }

  function Ordered(records: seq<Json>, w: World): seq<Json> { SortBy(ByEvidenceId(w), NormItems(records)) }

  function SealBundle(b: Bundle, lib: Library): Bundle {
    var digest := BundleDigest(BundleTree(b), lib);
    b.(sha := Str(digest), id := Str(IdFor(BUNDLE_PREFIX, digest)))
  }

  function DraftBundle(providerId: string, providerVersion: string, sourceKind: string, ordered: seq<Json>): Bundle {
    Bundle(Str("AiNIREvidenceBundle"), Str("ainir.evidence-bundle.v1"), Str(providerId), Str(providerVersion),
           Str(sourceKind), Arr(ordered), Null, Bool(false), Null, Null)
  }

  function BuildBundle(providerId: string, providerVersion: string, sourceKind: string, records: seq<Json>, w: World): Bundle {
    SealBundle(DraftBundle(providerId, providerVersion, sourceKind, Ordered(records, w)), w.lib)
  }

  lemma {:induction false} CopiesAgree(a: seq<Json>, b: seq<Json>)
    requires forall x :: x in a <==> x in b
    ensures forall y :: y in NormItems(a) <==> y in NormItems(b)
  {
    forall y ensures y in NormItems(a) <==> y in NormItems(b) {
      if y in NormItems(a) { CopyIsIn(a, b, y); }
      if y in NormItems(b) { CopyIsIn(b, a, y); }
    }
  }

  lemma {:induction false} CopyIsIn(a: seq<Json>, b: seq<Json>, y: Json)
    requires forall x | x in a :: x in b
    requires y in NormItems(a)
    ensures y in NormItems(b)
  {
    var i :| 0 <= i < |a| && NormItems(a)[i] == y;
    assert a[i] in b;
    var j :| 0 <= j < |b| && b[j] == a[i];
    assert NormItems(b)[j] == y;
  }

  /** The bundle, its hash and its id do not depend on the order of the records. */
  lemma {:induction false} BundleIgnoresOrder(providerId: string, providerVersion: string, sourceKind: string, a: seq<Json>, b: seq<Json>, w: World)
    requires forall x :: x in a <==> x in b
    requires DistinctBy(ByEvidenceId(w), NormItems(a)) && DistinctBy(ByEvidenceId(w), NormItems(b))
    ensures BuildBundle(providerId, providerVersion, sourceKind, a, w) == BuildBundle(providerId, providerVersion, sourceKind, b, w)
  {
    CopiesAgree(a, b);
    SortByIgnoresOrder(ByEvidenceId(w), NormItems(a), NormItems(b));
  }

  // ----- signatures -----

  datatype SignatureCheck = SignatureCheck(status: string, keyId: Json)

  function VerifySignature(v: Json, keys: map<string, string>, w: World): SignatureCheck {
    var signature := Get(v, "signature");
    if signature.Null? then SignatureCheck("not_present", Null)
    else if !signature.Obj? then SignatureCheck("failed", Null)
    else
      var keyId := Get(signature, "key_id");
      if !SafeId(keyId) then SignatureCheck("failed", Null)
      else if Get(signature, "algorithm") != Str(SIGNATURE_ALGORITHM) || Get(signature, "purpose") != Str(SIGNATURE_PURPOSE) then
        SignatureCheck("failed", keyId)
      else if !Get(signature, "value").Str? || !HexDigest(Get(signature, "value").s) then SignatureCheck("failed", keyId)
      else if keyId.s !in keys then SignatureCheck("unknown_key", keyId)
      else if |keys[keyId.s]| < 16 then SignatureCheck("failed", keyId)
      else
        var sha := GetOr(v, "bundle_sha256", Str(""));
        var expected := w.hmac(keys[keyId.s], if sha.Str? then sha.s else w.show(sha));
        SignatureCheck(if expected == Get(signature, "value").s then "verified" else "failed", keyId)
  }

  predicate SignatureFine(v: Json, keys: map<string, string>, required: bool, w: World) {
    var status := VerifySignature(v, keys, w).status;
    if required then status == "verified"
    else Get(v, "signature").Null? || status == "verified" || status == "unknown_key"
  }

  // ----- validation -----

  predicate BelongsTo(r: Json, b: Bundle) {
    var provenance := Get(r, "provenance");
    && PyEq(Get(provenance, "provider_id"), b.providerId)
    && PyEq(Get(provenance, "provider_version"), b.providerVersion)
    && PyEq(Get(provenance, "source_kind"), b.sourceKind)
  }

  ghost predicate RecordsFine(b: Bundle, w: World) {
    && b.records.Arr? && 0 < |b.records.items| <= MAX_EVIDENCE_RECORDS
    && AllAcceptable(b.records.items, b, w)
    && DistinctBy(ByEvidenceId(w), b.records.items)
  }

  predicate Acceptable(r: Json, b: Bundle, w: World) { RecordFine(r, w.lib) && BelongsTo(r, b) }

  predicate AllAcceptable(records: seq<Json>, b: Bundle, w: World) {
    forall r | r in records :: Acceptable(r, b, w)
  }

  lemma {:induction false} AcceptableStep(records: seq<Json>, i: nat, b: Bundle, w: World)
    requires i < |records|
    ensures AllAcceptable(records[..i + 1], b, w) <==> AllAcceptable(records[..i], b, w) && Acceptable(records[i], b, w)
  {
    assert forall r :: r in records[..i + 1] <==> r in records[..i] || r == records[i];
  }

  predicate BundleHeaderFine(b: Bundle) {
    && b.kind == Str("AiNIREvidenceBundle")
    && b.version == Str("ainir.evidence-bundle.v1")
    && SafeId(b.providerId) && SafeId(b.providerVersion)
    && OneOf(b.sourceKind, SOURCE_KINDS)
    && b.productionReady == Bool(false)
  }

  predicate BundleSealFine(b: Bundle, digest: string) {
    b.sha == Str(digest) && b.id == Str(IdFor(BUNDLE_PREFIX, digest))
  }

  ghost predicate BundleFine(v: Json, keys: map<string, string>, required: bool, w: World) {
    && OnlyKeys(v, BUNDLE_KEYS)
    && BundleHeaderFine(ReadBundle(v))
    && RecordsFine(ReadBundle(v), w)
    && BundleSealFine(ReadBundle(v), BundleDigest(v, w.lib))
    && SignatureFine(v, keys, required, w)
  }

  // ----- the validator -----

  /** `len(ids) == len(set(ids))`. */
  lemma {:induction false} CountingFindsRepeats(ids: seq<string>)
    ensures |set x | x in ids| <= |ids|
    ensures |set x | x in ids| == |ids| <==> DistinctBy(Self, ids)
  {
    if ids != [] {
      var n := |ids| - 1;
      CountingFindsRepeats(ids[..n]);
      var earlier, all := set x | x in ids[..n], set x | x in ids;
      assert ids == ids[..n] + [ids[n]];
      if ids[n] in earlier {
        assert all == earlier;
        var i :| 0 <= i < n && ids[i] == ids[n];
        assert Self(ids[i]) == Self(ids[n]);
      } else {
        assert all == earlier + {ids[n]};
        DistinctLast(ids);
      }
    }
  }

  lemma {:induction false} DistinctLast(ids: seq<string>)
    requires ids != [] && ids[|ids| - 1] !in ids[..|ids| - 1]
    ensures DistinctBy(Self, ids) <==> DistinctBy(Self, ids[..|ids| - 1])
  {
    var n := |ids| - 1;
    if DistinctBy(Self, ids) {
      forall i, j | 0 <= i < j < n ensures Self(ids[..n][i]) != Self(ids[..n][j]) {
        assert Self(ids[i]) != Self(ids[j]);
      }
    }
    if DistinctBy(Self, ids[..n]) {
      forall i, j | 0 <= i < j < |ids| ensures Self(ids[i]) != Self(ids[j]) {
        if j < n { assert Self(ids[..n][i]) != Self(ids[..n][j]); } else { assert ids[i] in ids[..n]; }
      }
    }
  }

  method ValidateRecords(b: Bundle, w: World) returns (valid: bool)
    ensures valid == RecordsFine(b, w)
  {
    if !b.records.Arr? { return false; }
    var records := b.records.items;
    var fits := 0 < |records| <= MAX_EVIDENCE_RECORDS;
    var acceptable := true;
    var ids: seq<string> := [];
    for i := 0 to |records|
      invariant |ids| == i && forall k | 0 <= k < i :: ids[k] == ByEvidenceId(w)(records[k])
      invariant acceptable == AllAcceptable(records[..i], b, w)
    {
      AcceptableStep(records, i, b, w);
      ids := ids + [RecordKey(records[i], w)];
      acceptable := acceptable && Acceptable(records[i], b, w);
    }
    assert records[..|records|] == records;
    CountingFindsRepeats(ids);
    SameKeysSameDistinctness(records, ids, w);
    valid := fits && acceptable && |set x | x in ids| == |ids|;
  }

  lemma {:induction false} SameKeysSameDistinctness(records: seq<Json>, ids: seq<string>, w: World)
    requires |ids| == |records| && forall k | 0 <= k < |ids| :: ids[k] == ByEvidenceId(w)(records[k])
    ensures DistinctBy(Self, ids) <==> DistinctBy(ByEvidenceId(w), records)
  {
    if DistinctBy(Self, ids) {
      forall i, j | 0 <= i < j < |records| ensures ByEvidenceId(w)(records[i]) != ByEvidenceId(w)(records[j]) {
        assert Self(ids[i]) != Self(ids[j]);
      }
    }
    if DistinctBy(ByEvidenceId(w), records) {
      forall i, j | 0 <= i < j < |ids| ensures Self(ids[i]) != Self(ids[j]) {
        assert ByEvidenceId(w)(records[i]) != ByEvidenceId(w)(records[j]);
      }
    }
  }

  method ValidateBundle(v: Json, keys: map<string, string>, required: bool, w: World) returns (valid: bool)
    ensures valid == BundleFine(v, keys, required, w)
  {
    if !OnlyKeys(v, BUNDLE_KEYS) { return false; }
    var b := ReadBundle(v);
    var recordsFine := ValidateRecords(b, w);
    valid := BundleHeaderFine(b) && recordsFine && BundleSealFine(b, BundleDigest(v, w.lib)) && SignatureFine(v, keys, required, w);
  }

  // ----- a built bundle -----

  /** Records that a provider may bundle. */
  ghost predicate Bundleable(providerId: string, providerVersion: string, sourceKind: string, records: seq<Json>, w: World) {
    && SafeId(Str(providerId)) && SafeId(Str(providerVersion)) && sourceKind in SOURCE_KINDS
    && 0 < |records| <= MAX_EVIDENCE_RECORDS
    && AllFrom(records, providerId, providerVersion, sourceKind, w)
    && DistinctBy(ByEvidenceId(w), records)
  }

  predicate AllFrom(records: seq<Json>, providerId: string, providerVersion: string, sourceKind: string, w: World) {
    forall r | r in records :: RecordFine(r, w.lib) && From(r, providerId, providerVersion, sourceKind)
  }

  predicate From(r: Json, providerId: string, providerVersion: string, sourceKind: string) {
    var provenance := Get(r, "provenance");
    && Get(provenance, "provider_id") == Str(providerId)
    && Get(provenance, "provider_version") == Str(providerVersion)
    && Get(provenance, "source_kind") == Str(sourceKind)
  }

  lemma {:induction false} FromNorm(r: Json, providerId: string, providerVersion: string, sourceKind: string)
    requires WellFormed(r)
    ensures From(Norm(r), providerId, providerVersion, sourceKind) <==> From(r, providerId, providerVersion, sourceKind)
  {
    var provenance := Get(r, "provenance");
    BlockNorm(r, "provenance");
    GetNorm(provenance, "provider_id");
    GetNorm(provenance, "provider_version");
    GetNorm(provenance, "source_kind");
    EqualsNorm(Get(provenance, "provider_id"), Str(providerId));
    EqualsNorm(Get(provenance, "provider_version"), Str(providerVersion));
    EqualsNorm(Get(provenance, "source_kind"), Str(sourceKind));
  }

  lemma {:induction false} FromIsBelonging(r: Json, providerId: string, providerVersion: string, sourceKind: string, b: Bundle)
    requires b.providerId == Str(providerId) && b.providerVersion == Str(providerVersion) && b.sourceKind == Str(sourceKind)
    ensures BelongsTo(r, b) <==> From(r, providerId, providerVersion, sourceKind)
  {
  }

  lemma {:induction false} KeyNorm(r: Json, w: World)
    requires WellFormed(r) && Get(r, "evidence_id").Str?
    ensures ByEvidenceId(w)(Norm(r)) == ByEvidenceId(w)(r)
  {
    GetNorm(r, "evidence_id");
  }

  lemma {:induction false} CopiesDistinct(records: seq<Json>, w: World)
    requires forall r | r in records :: WellFormed(r) && Get(r, "evidence_id").Str?
    ensures DistinctBy(ByEvidenceId(w), NormItems(records)) <==> DistinctBy(ByEvidenceId(w), records)
  {
    var copies := NormItems(records);
    forall i | 0 <= i < |records| ensures ByEvidenceId(w)(copies[i]) == ByEvidenceId(w)(records[i]) {
      assert records[i] in records;
      KeyNorm(records[i], w);
    }
    if DistinctBy(ByEvidenceId(w), records) {
      forall i, j | 0 <= i < j < |copies| ensures ByEvidenceId(w)(copies[i]) != ByEvidenceId(w)(copies[j]) {
        assert ByEvidenceId(w)(records[i]) != ByEvidenceId(w)(records[j]);
      }
    }
    if DistinctBy(ByEvidenceId(w), copies) {
      forall i, j | 0 <= i < j < |records| ensures ByEvidenceId(w)(records[i]) != ByEvidenceId(w)(records[j]) {
        assert ByEvidenceId(w)(copies[i]) != ByEvidenceId(w)(copies[j]);
      }
    }
  }

  /** What holds of each copy holds of the ordered list, and back. */
  lemma {:induction false} OrderedAcceptable(records: seq<Json>, b: Bundle, w: World)
    ensures AllAcceptable(Ordered(records, w), b, w) <==> AllAcceptable(NormItems(records), b, w)
  {
  }

  lemma {:induction false} CopiesAcceptable(records: seq<Json>, providerId: string, providerVersion: string, sourceKind: string, b: Bundle, w: World)
    requires b.providerId == Str(providerId) && b.providerVersion == Str(providerVersion) && b.sourceKind == Str(sourceKind)
    requires forall r | r in records :: WellFormed(r) && r.Obj?
    ensures AllAcceptable(NormItems(records), b, w) <==> AllFrom(records, providerId, providerVersion, sourceKind, w)
  {
    var copies := NormItems(records);
    forall i | 0 <= i < |records|
      ensures Acceptable(copies[i], b, w) <==> RecordFine(records[i], w.lib) && From(records[i], providerId, providerVersion, sourceKind)
    {
      assert records[i] in records;
      RecordFineNorm(records[i], w.lib);
      FromNorm(records[i], providerId, providerVersion, sourceKind);
      FromIsBelonging(copies[i], providerId, providerVersion, sourceKind, b);
    }
    if AllAcceptable(copies, b, w) {
      forall r | r in records ensures RecordFine(r, w.lib) && From(r, providerId, providerVersion, sourceKind) {
        var i :| 0 <= i < |records| && records[i] == r;
        assert copies[i] in copies;
      }
    }
  }

  lemma {:induction false} SealKeepsBundleDigest(b: Bundle, lib: Library)
    ensures BundleDigest(BundleTree(SealBundle(b, lib)), lib) == BundleDigest(BundleTree(b), lib)
  {
    var v, w := BundleValues(b), BundleValues(SealBundle(b, lib));
    assert forall i | 0 <= i < 8 :: v[i] == w[i];
    ProjectIgnoresDropped(BUNDLE_KEYS, v, w, BUNDLE_OWN_KEYS);
  }

  lemma {:induction false} UnsignedIsFine(b: Bundle, keys: map<string, string>, w: World)
    requires b.signature.Null?
    ensures SignatureFine(BundleTree(b), keys, false, w)
  {
    BundleReadsBack(b);
    assert Fields(BundleTree(b), BUNDLE_KEYS)[6] == b.signature;
  }

  lemma {:induction false} SealedBundleFine(b: Bundle, keys: map<string, string>, w: World)
    requires b.signature.Null?
    ensures BundleFine(BundleTree(SealBundle(b, w.lib)), keys, false, w) <==> BundleHeaderFine(b) && RecordsFine(b, w)
  {
    var s := SealBundle(b, w.lib);
    BundleReadsBack(s);
    SealKeepsBundleDigest(b, w.lib);
    UnsignedIsFine(s, keys, w);
    SealLeavesRecords(b, s, w);
  }

  lemma {:induction false} SealLeavesRecords(b: Bundle, s: Bundle, w: World)
    requires s == b.(sha := s.sha, id := s.id)
    ensures RecordsFine(s, w) <==> RecordsFine(b, w)
    ensures BundleHeaderFine(s) <==> BundleHeaderFine(b)
  {
    if b.records.Arr? {
      forall r ensures Acceptable(r, s, w) <==> Acceptable(r, b, w) { }
    }
  }

  /** Building accepts exactly the bundleable records: 1 to 512 valid ones of this
      provider, with distinct evidence ids. */
  lemma {:induction false} BuiltBundleValidExactly(providerId: string, providerVersion: string, sourceKind: string, records: seq<Json>,
                                keys: map<string, string>, w: World)
    requires forall r | r in records :: WellFormed(r) && r.Obj?
    ensures BundleFine(BundleTree(BuildBundle(providerId, providerVersion, sourceKind, records, w)), keys, false, w) <==>
            Bundleable(providerId, providerVersion, sourceKind, records, w)
  {
    var b := DraftBundle(providerId, providerVersion, sourceKind, Ordered(records, w));
    SealedBundleFine(b, keys, w);
    DraftRecordsFine(providerId, providerVersion, sourceKind, records, w);
  }

  lemma {:induction false} DraftRecordsFine(providerId: string, providerVersion: string, sourceKind: string, records: seq<Json>, w: World)
    requires forall r | r in records :: WellFormed(r) && r.Obj?
    ensures RecordsFine(DraftBundle(providerId, providerVersion, sourceKind, Ordered(records, w)), w) <==>
            && 0 < |records| <= MAX_EVIDENCE_RECORDS
            && AllFrom(records, providerId, providerVersion, sourceKind, w)
            && DistinctBy(ByEvidenceId(w), records)
  {
    var b := DraftBundle(providerId, providerVersion, sourceKind, Ordered(records, w));
    OrderedAcceptable(records, b, w);
    CopiesAcceptable(records, providerId, providerVersion, sourceKind, b, w);
    OrderedDistinct(records, w);
    if AllFrom(records, providerId, providerVersion, sourceKind, w) {
      FineRecordsHaveIds(records, providerId, providerVersion, sourceKind, w);
      CopiesDistinct(records, w);
    }
  }

  lemma {:induction false} FineRecordsHaveIds(records: seq<Json>, providerId: string, providerVersion: string, sourceKind: string, w: World)
    requires AllFrom(records, providerId, providerVersion, sourceKind, w)
    ensures forall r | r in records :: Get(r, "evidence_id").Str?
  {
  }

  lemma {:induction false} OrderedDistinct(records: seq<Json>, w: World)
    ensures DistinctBy(ByEvidenceId(w), Ordered(records, w)) <==> DistinctBy(ByEvidenceId(w), NormItems(records))
  {
    SortKeepsDistinctness(ByEvidenceId(w), NormItems(records));
  }

  lemma {:induction false} SortKeepsDistinctness(key: Json -> string, xs: seq<Json>)
    ensures DistinctBy(key, SortBy(key, xs)) <==> DistinctBy(key, xs)
  {
    if DistinctBy(key, xs) {
      SortByIsStrict(key, xs);
      StrictIsDistinct(key, SortBy(key, xs));
    } else {
      var i, j :| 0 <= i < j < |xs| && key(xs[i]) == key(xs[j]);
      SortKeepsRepeat(key, xs, i, j);
    }
  }

  lemma {:induction false} SortKeepsRepeat(key: Json -> string, xs: seq<Json>, i: nat, j: nat)
    requires i < j < |xs| && key(xs[i]) == key(xs[j])
    ensures !DistinctBy(key, SortBy(key, xs))
  {
    var rest := SortBy(key, xs[1..]);
    if i > 0 {
      SortKeepsRepeat(key, xs[1..], i - 1, j - 1);
      var a, b :| 0 <= a < b < |rest| && key(rest[a]) == key(rest[b]);
      InsertKeepsRepeat(key, xs[0], rest, a, b);
    } else {
      assert xs[1..][j - 1] == xs[j];
      assert xs[j] in xs[1..] && xs[j] in rest;
      var b :| 0 <= b < |rest| && rest[b] == xs[j];
      InsertMakesRepeat(key, xs[0], rest, b);
    }
  }

  lemma {:induction false} InsertKeepsRepeat(key: Json -> string, x: Json, xs: seq<Json>, a: nat, b: nat)
    requires a < b < |xs| && key(xs[a]) == key(xs[b])
    ensures !DistinctBy(key, Insert(key, x, xs))
  {
    var r := Insert(key, x, xs);
    if xs == [] || !Less(key(xs[0]), key(x)) {
      assert r[a + 1] == xs[a] && r[b + 1] == xs[b];
    } else if a > 0 {
      InsertKeepsRepeat(key, x, xs[1..], a - 1, b - 1);
      var rest := Insert(key, x, xs[1..]);
      var c, d :| 0 <= c < d < |rest| && key(rest[c]) == key(rest[d]);
      assert r[c + 1] == rest[c] && r[d + 1] == rest[d];
    } else {
      var rest := Insert(key, x, xs[1..]);
      assert xs[1..][b - 1] == xs[b];
      assert xs[b] in xs[1..] && xs[b] in rest;
      var d :| 0 <= d < |rest| && rest[d] == xs[b];
      assert r[0] == xs[0] && r[d + 1] == xs[b];
    }
  }

  lemma {:induction false} InsertMakesRepeat(key: Json -> string, x: Json, xs: seq<Json>, b: nat)
    requires b < |xs| && key(xs[b]) == key(x)
    ensures !DistinctBy(key, Insert(key, x, xs))
  {
    var r := Insert(key, x, xs);
    if xs == [] || !Less(key(xs[0]), key(x)) {
      assert r[0] == x && r[b + 1] == xs[b];
    } else if b > 0 {
      InsertMakesRepeat(key, x, xs[1..], b - 1);
      var rest := Insert(key, x, xs[1..]);
      var c, d :| 0 <= c < d < |rest| && key(rest[c]) == key(rest[d]);
      assert r[c + 1] == rest[c] && r[d + 1] == rest[d];
    } else {
      LessIrreflexive(key(x));
      assert false;
    }
  }
}
