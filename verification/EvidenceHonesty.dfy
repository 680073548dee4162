/** src/ainir/evidence_provider.py: resolving and then validating. An honest provider is
    never refused by the plumbing around its records, signed or not. */
module EvidenceHonesty {
  import opened JsonTree
  import opened CanonicalJson
  import opened Artifacts
  import opened EvidenceRecords
  import opened EvidenceBundles
  import opened EvidenceCopies
  import opened EvidenceSigning
  import opened Dictionaries
  import opened EvidenceValidation
  import opened EvidenceProvider
  import opened Text

  type Keys = map<string, string>

  // ----- honest providers -----

  /** The provider that a bundle makes, as its validator meets it. */
  function ProviderOf(bundle: Json): Provider {
    Provider(Get(Norm(bundle), "provider_id"), Get(Norm(bundle), "provider_version"),
             Get(Norm(bundle), "source_kind"), Norm(bundle), true)
  }

  /** A provider made from a bundle that is valid under its own keys. */
  ghost predicate Honest(bundle: Json, own: Keys, w: World) {
    bundle.Obj? && WellFormed(bundle) && BundleFine(Norm(bundle), own, false, w)
  }

  function SignatureSeen(bundle: Json, keys: Keys, w: World): SignatureCheck {
    Observed(Norm(bundle), Get(Norm(bundle), "source_kind"), keys, w)
  }

  /** The policy admits the provider, and its signature as the host's keys show it: the
      provider's keys show the same, and it is verified under a listed key if the policy
      asks for a signature. */
  predicate Admits(p: Policy, bundle: Json, own: Keys, keys: Keys, w: World) {
    && p.providerId == Get(Norm(bundle), "provider_id")
    && Allowed(Get(Norm(bundle), "provider_version"), p.providerVersions)
    && Allowed(Get(Norm(bundle), "source_kind"), p.sourceKinds)
    && SignatureSeen(bundle, keys, w) == SignatureSeen(bundle, own, w)
    && (Truthy(p.requireSignature) ==>
          SignatureSeen(bundle, keys, w).status == "verified" && Allowed(SignatureSeen(bundle, keys, w).keyId, p.signatureKeyIds))
  }

  /** What the request and the policy still ask of a bundled record. */
  predicate Meets(r: Json, q: Request, p: Policy, w: World) {
    && RecordNamed(r, q, w.registryKinds)
    && RecordAdmitted(r, p)
    && ScopeMatches(r, q)
    && SubjectAccepted(r, q, p)
    && InValidity(r, q, p, w.lib)
    && NotRevoked(r, q, p, w.lib)
    && Reliable(r, p)
  }

  ghost predicate NamesBundled(bundle: Json, q: Request, p: Policy, w: World) {
    exists r | r in RecordList(Norm(bundle)) :: Get(r, "evidence_id") == q.evidenceId && Meets(r, q, p, w)
  }

  // ----- what an honest provider answers -----

  function DraftAnswer(bundle: Json, request: Json, answer: Answer, record: Json, own: Keys, w: World): Resolution {
    var seen := SignatureSeen(bundle, own, w);
    Resolution(Str("AiNIREvidenceResolution"), Str("ainir.evidence-resolution.v1"), Get(request, "request_id"),
               Str(AnswerText(answer)), Get(Norm(bundle), "provider_id"), Get(Norm(bundle), "provider_version"),
               Get(Norm(bundle), "source_kind"), Get(Norm(bundle), "bundle_id"), Get(Norm(bundle), "bundle_sha256"),
               Str(seen.status), seen.keyId, Norm(record), Null, Bool(false), Null, Null)
  }

  function HonestAnswer(bundle: Json, request: Json, answer: Answer, record: Json, own: Keys, w: World): Resolution {
    SealResolution(DraftAnswer(bundle, request, answer, record, own, w), w.lib)
  }

  /** The answer to a request. */
  function AnswerTo(bundle: Json, request: Json, own: Keys, w: World): Resolution {
    var id := TextOf(Get(request, "evidence_id"), w).s;
    var index := Index(RecordList(Norm(bundle)));
    if id in index then HonestAnswer(bundle, request, Resolved, index[id], own, w)
    else HonestAnswer(bundle, request, NotFound, Null, own, w)
  }

  /** Whether the validator accepts that answer. */
  ghost predicate Accepts(bundle: Json, request: Json, policy: Json, own: Keys, keys: Keys, w: World) {
    ResolutionAccepted(request, ResolutionTree(AnswerTo(bundle, request, own, w)), policy, Some(ProviderOf(bundle)), keys, w)
  }

  /** Keys under unsafe names, which a provider drops, are never looked up. */
  lemma {:induction false} SafeKeysSuffice(bundle: Json, keys: Keys, w: World)
    ensures VerifySignature(bundle, SafeKeys(keys), w) == VerifySignature(bundle, keys, w)
  {
  }

  lemma {:induction false} SafeKeysJudgeAlike(bundle: Json, keys: Keys, signed: bool, w: World)
    ensures BundleFine(bundle, SafeKeys(keys), signed, w) <==> BundleFine(bundle, keys, signed, w)
    ensures forall kind :: Observed(bundle, kind, SafeKeys(keys), w) == Observed(bundle, kind, keys, w)
  {
    SafeKeysSuffice(bundle, keys, w);
  }

  /** A provider built from a bundle that is valid under the given keys shows and answers
      exactly that. */
  method RunHonest(bundle: Json, request: Json, own: Keys, signed: bool, w: World) returns (v: Provider, resolution: Json)
    requires bundle.Obj? && WellFormed(bundle) && BundleFine(Norm(bundle), own, signed, w)
    ensures Honest(bundle, own, w) && v == ProviderOf(bundle)
    ensures resolution == ResolutionTree(AnswerTo(bundle, request, own, w))
  {
    if signed { SignedIsFine(Norm(bundle), own, false, w); }
    SafeKeysJudgeAlike(Norm(bundle), own, signed, w);
    FineBundleAttributes(Norm(bundle), own, w);
    var provider := new BundleEvidenceProvider(bundle, own, signed, w);
    v := provider.View();
    resolution := Ask(provider, bundle, request, own, w);
  }

  /** A built provider, with its fields as the constructor leaves them. */
  ghost predicate BuiltFrom(provider: BundleEvidenceProvider, bundle: Json, own: Keys, w: World)
    reads provider
  {
    && provider.world == w && provider.bundle == Norm(bundle) && provider.valid
    && provider.records == Index(RecordList(Norm(bundle)))
    && provider.providerId == Get(Norm(bundle), "provider_id")
    && provider.providerVersion == Get(Norm(bundle), "provider_version")
    && provider.sourceKind == Get(Norm(bundle), "source_kind")
    && provider.signature == SignatureSeen(bundle, own, w)
  }

  method Ask(provider: BundleEvidenceProvider, bundle: Json, request: Json, own: Keys, w: World) returns (resolution: Json)
    requires BuiltFrom(provider, bundle, own, w)
    ensures resolution == ResolutionTree(AnswerTo(bundle, request, own, w))
  {
    resolution := provider.Resolve(request);
    ghost var (answer, record) := provider.Lookup(request);
    assert provider.Draft(request, answer, record) == DraftAnswer(bundle, request, answer, record, own, w);
  }

  lemma {:induction false} FineBundleAttributes(bundle: Json, own: map<string, string>, w: World)
    requires BundleFine(bundle, own, false, w)
    ensures Attribute(bundle, "provider_id", w) == Get(bundle, "provider_id")
    ensures Attribute(bundle, "provider_version", w) == Get(bundle, "provider_version")
    ensures Attribute(bundle, "source_kind", w) == Get(bundle, "source_kind")
  {
    var f := Fields(bundle, BUNDLE_KEYS);
    assert f[2] == Get(bundle, "provider_id") && f[3] == Get(bundle, "provider_version") && f[4] == Get(bundle, "source_kind");
  }

  // ----- the records of an honest provider -----

  lemma {:induction false} HonestRecord(bundle: Json, own: Keys, w: World, r: Json)
    requires Honest(bundle, own, w) && r in RecordList(Norm(bundle))
    ensures r.Obj? && RecordFine(r, w.lib) && Norm(r) == r && Get(r, "evidence_id").Str?
    ensures Acceptable(r, ReadBundle(Norm(bundle)), w)
  {
    var f := Fields(Norm(bundle), BUNDLE_KEYS);
    assert f[5] == Get(Norm(bundle), "records");
    CopiesAreNormal(bundle, r);
  }

  lemma {:induction false} CopiesAreNormal(bundle: Json, r: Json)
    requires WellFormed(bundle) && r in RecordList(Norm(bundle))
    ensures Norm(r) == r
  {
    GetNorm(bundle, "records");
    PartWellFormed(bundle, "records");
    var originals := Get(bundle, "records").items;
    var i :| 0 <= i < |originals| && NormItems(originals)[i] == r;
    assert originals[i] in originals;
    NormIdempotent(originals[i]);
  }

  lemma {:induction false} HonestDistinct(bundle: Json, own: Keys, w: World)
    requires Honest(bundle, own, w)
    ensures DistinctBy(ByEvidenceId(w), RecordList(Norm(bundle)))
  {
    var f := Fields(Norm(bundle), BUNDLE_KEYS);
    assert f[5] == Get(Norm(bundle), "records");
  }

  lemma {:induction false} KeysDifferIdsDiffer(records: seq<Json>, w: World)
    requires DistinctBy(ByEvidenceId(w), records) && forall r | r in records :: Get(r, "evidence_id").Str?
    ensures IdsDiffer(records)
  {
    forall i, j | 0 <= i < j < |records| ensures Get(records[i], "evidence_id") != Get(records[j], "evidence_id") {
      assert records[i] in records && records[j] in records;
      assert ByEvidenceId(w)(records[i]) != ByEvidenceId(w)(records[j]);
    }
  }

  lemma {:induction false} HonestIdsDiffer(bundle: Json, own: Keys, w: World)
    requires Honest(bundle, own, w)
    ensures IdsDiffer(RecordList(Norm(bundle))) && forall r | r in RecordList(Norm(bundle)) :: r.Obj?
  {
    forall r | r in RecordList(Norm(bundle)) ensures r.Obj? && Get(r, "evidence_id").Str? { HonestRecord(bundle, own, w, r); }
    HonestDistinct(bundle, own, w);
    KeysDifferIdsDiffer(RecordList(Norm(bundle)), w);
  }

  // ----- what the validator makes of the answer -----

  /** Keys that show the same signature judge the bundle alike, and as a signed one where
      it is verified. */
  lemma {:induction false} SameSightSameVerdict(bundle: Json, kind: Json, own: map<string, string>, keys: map<string, string>, signed: bool, w: World)
    requires BundleFine(bundle, own, false, w)
    requires Observed(bundle, kind, own, w) == Observed(bundle, kind, keys, w)
    requires signed ==> Observed(bundle, kind, keys, w).status == "verified"
    ensures BundleFine(bundle, keys, signed, w)
  {
    SightsDiffer();
  }

  lemma {:induction false} SightsDiffer()
    ensures "verified" != "not_applicable" && "verified" != "not_present" && "unknown_key" != "not_applicable"
  {
  }

  lemma {:induction false} SealKeepsResolutionDigest(r: Resolution, lib: Library)
    ensures ResolutionDigest(ResolutionTree(SealResolution(r, lib)), lib) == ResolutionDigest(ResolutionTree(r), lib)
  {
    var v, w := ResolutionValues(r), ResolutionValues(SealResolution(r, lib));
    assert forall i | 0 <= i < 14 :: v[i] == w[i];
    ProjectIgnoresDropped(RESOLUTION_KEYS, v, w, RESOLUTION_OWN_KEYS);
  }

  lemma {:induction false} SealedResolutionFine(r: Resolution, lib: Library)
    ensures var s := SealResolution(r, lib);
            && ReadResolution(ResolutionTree(s)) == s && OnlyKeys(ResolutionTree(s), RESOLUTION_KEYS)
            && ResolutionSealFine(s, ResolutionDigest(ResolutionTree(s), lib))
  {
    SealKeepsResolutionDigest(r, lib);
    ResolutionReadsBack(SealResolution(r, lib));
  }

  /** What the validator reads in an honest answer. */
  ghost predicate Shows(s: Resolution, bundle: Json, request: Json, answer: Answer, record: Json, own: Keys, w: World) {
    && s.kind == Str("AiNIREvidenceResolution") && s.version == Str("ainir.evidence-resolution.v1")
    && s.requestId == Get(request, "request_id") && s.status == Str(AnswerText(answer))
    && s.providerId == Get(Norm(bundle), "provider_id") && s.providerVersion == Get(Norm(bundle), "provider_version")
    && s.sourceKind == Get(Norm(bundle), "source_kind")
    && s.bundleId == Get(Norm(bundle), "bundle_id") && s.bundleSha == Get(Norm(bundle), "bundle_sha256")
    && s.signatureStatus == Str(SignatureSeen(bundle, own, w).status)
    && s.signatureKeyId == SignatureSeen(bundle, own, w).keyId
    && s.record == record && s.productionReady == Bool(false)
  }

  lemma {:induction false} HonestAnswerShows(bundle: Json, request: Json, answer: Answer, record: Json, own: Keys, w: World)
    ensures Shows(HonestAnswer(bundle, request, answer, record, own, w), bundle, request, answer, Norm(record), own, w)
  {
  }

  /** An honest answer, sealed, and read back as it was made. */
  ghost predicate Answers(s: Resolution, bundle: Json, request: Json, answer: Answer, record: Json, own: Keys, w: World) {
    && Shows(s, bundle, request, answer, record, own, w)
    && ReadResolution(ResolutionTree(s)) == s && OnlyKeys(ResolutionTree(s), RESOLUTION_KEYS)
    && ResolutionSealFine(s, ResolutionDigest(ResolutionTree(s), w.lib))
  }

  lemma {:induction false} Answered(bundle: Json, request: Json, answer: Answer, record: Json, own: Keys, w: World)
    ensures Answers(HonestAnswer(bundle, request, answer, record, own, w), bundle, request, answer, Norm(record), own, w)
  {
    HonestAnswerShows(bundle, request, answer, record, own, w);
    SealedResolutionFine(DraftAnswer(bundle, request, answer, record, own, w), w.lib);
  }

  lemma {:induction false} StatusListed(i: nat, status: string)
    requires i < 6 && SIGNATURE_STATUSES[i] == status
    ensures OneOf(Str(status), SIGNATURE_STATUSES)
  {
  }

  lemma {:induction false} SeenIsKnown(bundle: Json, keys: Keys, w: World)
    ensures OneOf(Str(SignatureSeen(bundle, keys, w).status), SIGNATURE_STATUSES)
  {
    StatusListed(0, "not_applicable");
    StatusListed(1, "not_present");
    StatusListed(3, "verified");
    StatusListed(4, "failed");
    StatusListed(5, "unknown_key");
  }

  lemma {:induction false} NormOfNorm(bundle: Json)
    requires WellFormed(bundle) && bundle.Obj?
    ensures Norm(Norm(bundle)) == Norm(bundle) && Norm(bundle).Obj?
  {
    NormIdempotent(bundle);
  }

  lemma {:induction false} RecomputedExactly(bundle: Json, s: Resolution, request: Json, r: Json, own: Keys, keys: Keys, w: World)
    requires Shows(s, bundle, request, Resolved, r, own, w)
    ensures SignatureRecomputed(ProviderOf(bundle), Norm(bundle), s, keys, w) <==>
            SignatureSeen(bundle, keys, w) == SignatureSeen(bundle, own, w)
    ensures SameProvider(ProviderOf(bundle), Norm(bundle), s)
  {
  }

  lemma {:induction false} FoundIsBundled(bundle: Json, s: Resolution, q: Request, r: Json)
    requires s.record == r && r.Obj? && Matching(RecordList(Norm(bundle)), q.evidenceId) == [r]
    ensures RecordBundled(Norm(bundle), s, q)
  {
    PyEqReflexive(Norm(r));
  }

  /** The provider is confirmed exactly when the host's keys show what the provider's do,
      and a verified signature where one is asked for. */
  lemma {:induction false} ConfirmedExactly(bundle: Json, s: Resolution, request: Json, q: Request, r: Json, signed: bool, own: Keys, keys: Keys, w: World)
    requires Honest(bundle, own, w) && Shows(s, bundle, request, Resolved, r, own, w)
    requires r.Obj? && Matching(RecordList(Norm(bundle)), q.evidenceId) == [r]
    requires signed ==> SignatureSeen(bundle, own, w).status == "verified"
    ensures ProviderConfirms(ProviderOf(bundle), s, q, signed, keys, w) <==>
            SignatureSeen(bundle, keys, w) == SignatureSeen(bundle, own, w)
  {
    NormOfNorm(bundle);
    RecomputedExactly(bundle, s, request, r, own, keys, w);
    FoundIsBundled(bundle, s, q, r);
    if SignatureSeen(bundle, keys, w) == SignatureSeen(bundle, own, w) {
      SameSightSameVerdict(Norm(bundle), Get(Norm(bundle), "source_kind"), own, keys, signed, w);
    }
  }

  lemma {:induction false} BelongingIsProvided(r: Json, b: Bundle, s: Resolution)
    requires BelongsTo(r, b) && b.providerId.Str? && b.providerVersion.Str? && b.sourceKind.Str?
    requires s.providerId == b.providerId && s.providerVersion == b.providerVersion && s.sourceKind == b.sourceKind
    ensures ProvidedBy(r, s)
  {
  }

  lemma {:induction false} HonestProvides(bundle: Json, s: Resolution, r: Json, own: Keys, w: World)
    requires Honest(bundle, own, w) && r in RecordList(Norm(bundle))
    requires s.providerId == Get(Norm(bundle), "provider_id") && s.providerVersion == Get(Norm(bundle), "provider_version")
    requires s.sourceKind == Get(Norm(bundle), "source_kind")
    ensures ProvidedBy(r, s)
  {
    HonestRecord(bundle, own, w, r);
    var b := ReadBundle(Norm(bundle));
    var f := Fields(Norm(bundle), BUNDLE_KEYS);
    assert f[2] == Get(Norm(bundle), "provider_id") && f[3] == Get(Norm(bundle), "provider_version") && f[4] == Get(Norm(bundle), "source_kind");
    BelongingIsProvided(r, b, s);
  }

  lemma {:induction false} CandidateIsMeets(r: Json, q: Request, p: Policy, s: Resolution, w: World)
    requires RecordFine(r, w.lib) && ProvidedBy(r, s)
    ensures CandidateFine(r, q, p, s, w) <==> Meets(r, q, p, w)
  {
  }

  lemma {:induction false} FieldsExactly(s: Resolution, bundle: Json, request: Json, q: Request, r: Json, own: Keys, w: World)
    requires Shows(s, bundle, request, Resolved, r, own, w) && q.id == Get(request, "request_id") && r.Obj?
    ensures ResolutionFieldsFine(s, q) <==> q.providerId == Get(Norm(bundle), "provider_id")
  {
    SeenIsKnown(bundle, own, w);
  }

  /** The part of admission that the validator reads in the answer. */
  predicate AdmitsAnswer(p: Policy, bundle: Json, own: Keys, w: World) {
    && p.providerId == Get(Norm(bundle), "provider_id")
    && Allowed(Get(Norm(bundle), "provider_version"), p.providerVersions)
    && Allowed(Get(Norm(bundle), "source_kind"), p.sourceKinds)
    && (Truthy(p.requireSignature) ==>
          SignatureSeen(bundle, own, w).status == "verified" && Allowed(SignatureSeen(bundle, own, w).keyId, p.signatureKeyIds))
  }

  lemma {:induction false} AdmittedExactly(s: Resolution, p: Policy, bundle: Json, request: Json, r: Json, own: Keys, w: World)
    requires Shows(s, bundle, request, Resolved, r, own, w)
    ensures ResolutionAdmitted(s, p) <==> AdmitsAnswer(p, bundle, own, w)
  {
  }

  /** Everything about a found record that is not the record itself comes down to admission
      and the address. */
  lemma {:induction false} FoundSupported(bundle: Json, request: Json, q: Request, p: Policy, s: Resolution, r: Json, own: Keys, keys: Keys, w: World)
    requires Honest(bundle, own, w) && q.id == Get(request, "request_id")
    requires Shows(s, bundle, request, Resolved, r, own, w)
    requires r in RecordList(Norm(bundle)) && Matching(RecordList(Norm(bundle)), q.evidenceId) == [r]
    ensures Supported(q, s, p, ProviderOf(bundle), keys, w) <==>
            Admits(p, bundle, own, keys, w) && q.providerId == Get(Norm(bundle), "provider_id") && Meets(r, q, p, w)
  {
    HonestRecord(bundle, own, w, r);
    HonestProvides(bundle, s, r, own, w);
    FieldsExactly(s, bundle, request, q, r, own, w);
    AdmittedExactly(s, p, bundle, request, r, own, w);
    CandidateIsMeets(r, q, p, s, w);
    if AdmitsAnswer(p, bundle, own, w) {
      ConfirmedExactly(bundle, s, request, q, r, Truthy(p.requireSignature), own, keys, w);
    }
  }

  lemma {:induction false} RequestIdReads(request: Json)
    ensures ReadRequest(request).id == Get(request, "request_id") && ReadRequest(request).evidenceId == Get(request, "evidence_id")
  {
  }

  lemma {:induction false} NamedId(request: Json, w: World)
    requires RequestFine(request, w)
    ensures ReadRequest(request).evidenceId.Str?
  {
  }

  lemma {:induction false} MissIsRefused(bundle: Json, s: Resolution, request: Json, policy: Json, own: Keys, keys: Keys, w: World)
    requires Answers(s, bundle, request, NotFound, Null, own, w)
    ensures !ResolutionAccepted(request, ResolutionTree(s), policy, Some(ProviderOf(bundle)), keys, w)
  {
    AnswersDiffer();
  }

  lemma {:induction false} AnswersDiffer()
    ensures Str(AnswerText(NotFound)) != Str("resolved")
  {
  }

  /** The record of an id is the only one, so meeting the conditions is about it. */
  lemma {:induction false} NamedIsFound(bundle: Json, q: Request, p: Policy, w: World, r: Json)
    requires IdsDiffer(RecordList(Norm(bundle)))
    requires r in RecordList(Norm(bundle)) && Get(r, "evidence_id") == q.evidenceId
    ensures NamesBundled(bundle, q, p, w) <==> Meets(r, q, p, w)
  {
    var records := RecordList(Norm(bundle));
    if x :| x in records && Get(x, "evidence_id") == q.evidenceId && Meets(x, q, p, w) { OneOfEachId(records, r, x); }
  }

  lemma {:induction false} OneOfEachId(records: seq<Json>, r: Json, x: Json)
    requires IdsDiffer(records) && r in records && x in records && Get(r, "evidence_id") == Get(x, "evidence_id")
    ensures r == x
  {
    var i :| 0 <= i < |records| && records[i] == r;
    var j :| 0 <= j < |records| && records[j] == x;
    assert i == j;
  }

  lemma {:induction false} FoundRecord(records: seq<Json>, id: string) returns (r: Json)
    requires IdsDiffer(records) && id in Index(records) && forall x | x in records :: x.Obj?
    ensures r in records && Get(r, "evidence_id") == Str(id)
    ensures Matching(records, Str(id)) == [r] && Index(records)[id] == Norm(r)
  {
    IndexAgreesWithScan(records, id);
    r := Matching(records, Str(id))[0];
  }

  lemma {:induction false} FoundAnswer(bundle: Json, request: Json, r: Json, own: Keys, w: World)
    requires Honest(bundle, own, w) && r in RecordList(Norm(bundle)) && Get(request, "evidence_id").Str?
    requires Get(request, "evidence_id").s in Index(RecordList(Norm(bundle)))
    requires Index(RecordList(Norm(bundle)))[Get(request, "evidence_id").s] == Norm(r)
    ensures Answers(AnswerTo(bundle, request, own, w), bundle, request, Resolved, r, own, w)
  {
    HonestRecord(bundle, own, w, r);
    Answered(bundle, request, Resolved, r, own, w);
  }

  lemma {:induction false} FoundVerdict(bundle: Json, request: Json, policy: Json, s: Resolution, r: Json, own: Keys, keys: Keys, w: World)
    requires Honest(bundle, own, w) && PolicyFine(policy, w) && RequestFine(request, w)
    requires Answers(s, bundle, request, Resolved, r, own, w)
    requires IdsDiffer(RecordList(Norm(bundle))) && Get(r, "evidence_id") == ReadRequest(request).evidenceId
    requires r in RecordList(Norm(bundle)) && Matching(RecordList(Norm(bundle)), ReadRequest(request).evidenceId) == [r]
    ensures ResolutionAccepted(request, ResolutionTree(s), policy, Some(ProviderOf(bundle)), keys, w) <==>
            && Admits(ReadPolicy(policy), bundle, own, keys, w)
            && ReadRequest(request).providerId == Get(Norm(bundle), "provider_id")
            && NamesBundled(bundle, ReadRequest(request), ReadPolicy(policy), w)
  {
    RequestIdReads(request);
    NamedIsFound(bundle, ReadRequest(request), ReadPolicy(policy), w, r);
    FoundSupported(bundle, request, ReadRequest(request), ReadPolicy(policy), s, r, own, keys, w);
  }

  lemma {:induction false} MissedCase(bundle: Json, request: Json, policy: Json, own: Keys, keys: Keys, w: World)
    requires Get(request, "evidence_id").Str? && ReadRequest(request).evidenceId == Get(request, "evidence_id")
    requires Get(request, "evidence_id").s !in Index(RecordList(Norm(bundle))) && IdsDiffer(RecordList(Norm(bundle)))
    requires forall r | r in RecordList(Norm(bundle)) :: r.Obj?
    ensures !Accepts(bundle, request, policy, own, keys, w)
    ensures !NamesBundled(bundle, ReadRequest(request), ReadPolicy(policy), w)
  {
    var id := Get(request, "evidence_id").s;
    Answered(bundle, request, NotFound, Null, own, w);
    MissIsRefused(bundle, AnswerTo(bundle, request, own, w), request, policy, own, keys, w);
    forall r | r in RecordList(Norm(bundle)) ensures Get(r, "evidence_id") != Str(id) {
      if Get(r, "evidence_id") == Str(id) {
        var i :| 0 <= i < |RecordList(Norm(bundle))| && RecordList(Norm(bundle))[i] == r;
        ScanFinds(RecordList(Norm(bundle)), i, id);
      }
    }
  }

  /** A valid request to an honest provider, signed or not, is accepted under a valid policy
      exactly when the policy admits the provider, the request is addressed to it and names
      a bundled record that meets its conditions. */
  lemma {:induction false} HonestVerdictExactly(bundle: Json, request: Json, policy: Json, own: Keys, keys: Keys, w: World)
    requires Honest(bundle, own, w) && PolicyFine(policy, w) && RequestFine(request, w)
    ensures Accepts(bundle, request, policy, own, keys, w) <==>
            && Admits(ReadPolicy(policy), bundle, own, keys, w)
            && ReadRequest(request).providerId == Get(Norm(bundle), "provider_id")
            && NamesBundled(bundle, ReadRequest(request), ReadPolicy(policy), w)
  {
    var id := Get(request, "evidence_id");
    RequestIdReads(request);
    NamedId(request, w);
    HonestIdsDiffer(bundle, own, w);
    if id.s in Index(RecordList(Norm(bundle))) {
      var r := FoundRecord(RecordList(Norm(bundle)), id.s);
      FoundAnswer(bundle, request, r, own, w);
      FoundVerdict(bundle, request, policy, AnswerTo(bundle, request, own, w), r, own, keys, w);
    } else {
      MissedCase(bundle, request, policy, own, keys, w);
    }
  }

  // ----- unsigned providers -----

  /** What a policy has to say to admit a provider without a signature. */
  predicate AdmitsUnsigned(p: Policy, bundle: Json) {
    && !Truthy(p.requireSignature)
    && p.providerId == Get(Norm(bundle), "provider_id")
    && Allowed(Get(Norm(bundle), "provider_version"), p.providerVersions)
    && Allowed(Get(Norm(bundle), "source_kind"), p.sourceKinds)
  }

  lemma {:induction false} UnsignedLooksAlike(bundle: Json, own: Keys, keys: Keys, w: World)
    requires WellFormed(bundle) && Get(bundle, "signature").Null?
    ensures SignatureSeen(bundle, own, w) == SignatureSeen(bundle, keys, w)
    ensures SignatureSeen(bundle, own, w).status != "verified"
  {
    GetNorm(bundle, "signature");
    SightsDiffer();
  }

  /** An honest provider without a signature, under whatever keys the host holds. */
  lemma {:induction false} HonestIsNeverRefused(bundle: Json, request: Json, policy: Json, own: Keys, keys: Keys, w: World)
    requires Honest(bundle, own, w) && Get(bundle, "signature").Null? && PolicyFine(policy, w) && RequestFine(request, w)
    ensures Accepts(bundle, request, policy, own, keys, w) <==>
            && AdmitsUnsigned(ReadPolicy(policy), bundle)
            && ReadRequest(request).providerId == Get(Norm(bundle), "provider_id")
            && NamesBundled(bundle, ReadRequest(request), ReadPolicy(policy), w)
  {
    HonestVerdictExactly(bundle, request, policy, own, keys, w);
    UnsignedLooksAlike(bundle, own, keys, w);
  }

  // ----- signed providers -----

  lemma {:induction false} SignatureWellFormed(keyId: string, key: string, sha: string, w: World)
    ensures WellFormed(SignatureTree(keyId, key, sha, w))
  {
    RecordReadsBack(SIGNATURE_KEYS, [Str(SIGNATURE_ALGORITHM), Str(keyId), Str(w.hmac(key, sha)), Str(SIGNATURE_PURPOSE)]);
  }

  lemma {:induction false} SetMemberWellFormed(ms: seq<Member>, key: string, x: Json)
    requires WellFormed(Obj(ms)) && WellFormed(x)
    ensures WellFormed(Obj(SetMember(ms, key, x)))
  {
    SetMemberDistinct(ms, key, x);
    forall m | m in SetMember(ms, key, x) ensures WellFormed(m.value) { assert m in ms || m.value == x; }
  }

  lemma {:induction false} SignedWellFormed(v: Json, keyId: string, key: string, w: World)
    requires v.Obj? && WellFormed(v)
    ensures WellFormed(WithSignature(v, keyId, key, w))
  {
    SignatureWellFormed(keyId, key, ShaText(v, w), w);
    SetMemberWellFormed(v.members, "signature", SignatureTree(keyId, key, ShaText(v, w), w));
  }

  lemma {:induction false} SignedHasHash(v: Json, keyId: string, key: string, w: World)
    requires v.Obj? && Distinct(v.members) && BundleFine(v, map[], false, w)
    ensures Get(WithSignature(v, keyId, key, w), "bundle_sha256").Str?
    ensures !Get(WithSignature(v, keyId, key, w), "signature").Null?
  {
    SignedReads(v, keyId, key, w, "bundle_sha256");
    var f := Fields(v, BUNDLE_KEYS);
    assert f[8] == Get(v, "bundle_sha256");
  }

  /** A key under which the bundle's hash has the stored HMAC. */
  predicate KeyFits(v: Json, keyId: string, key: string, keys: Keys, w: World) {
    keyId in keys && |keys[keyId]| >= 16 && w.hmac(keys[keyId], ShaText(v, w)) == w.hmac(key, ShaText(v, w))
  }

  /** Keys show the signature of a signed bundle as verified exactly when one of them fits. */
  lemma {:induction false} SignedSeen(v: Json, keyId: string, key: string, keys: Keys, w: World)
    requires Proper(w) && SafeId(Str(keyId)) && v.Obj? && WellFormed(v) && BundleFine(v, map[], false, w)
    ensures var seen := SignatureSeen(WithSignature(v, keyId, key, w), keys, w);
            seen.keyId == Str(keyId) && (seen.status == "verified" <==> KeyFits(v, keyId, key, keys, w))
  {
    var b := WithSignature(v, keyId, key, w);
    SignedWellFormed(v, keyId, key, w);
    SignedHasHash(v, keyId, key, w);
    SignatureNorm(b, keys, w);
    SignatureVerifiesExactly(v, keyId, key, keys, w);
  }

  /** Signing a valid bundle under a key that the provider holds makes an honest provider. */
  lemma {:induction false} SignedIsHonest(v: Json, keyId: string, key: string, own: Keys, w: World)
    requires Proper(w) && SafeId(Str(keyId)) && |key| >= 16 && keyId in own && own[keyId] == key
    requires v.Obj? && WellFormed(v) && BundleFine(v, map[], false, w)
    ensures Honest(WithSignature(v, keyId, key, w), own, w)
  {
    var b := WithSignature(v, keyId, key, w);
    SignedWellFormed(v, keyId, key, w);
    SignedBundleValid(v, keyId, key, own, w);
    BundleFineNorm(b, own, true, w);
    SignedIsFine(Norm(b), own, false, w);
  }

  /** What a policy has to say to admit a provider signed under `keyId`. */
  predicate AdmitsSigned(p: Policy, bundle: Json, keyId: string) {
    && p.providerId == Get(Norm(bundle), "provider_id")
    && Allowed(Get(Norm(bundle), "provider_version"), p.providerVersions)
    && Allowed(Get(Norm(bundle), "source_kind"), p.sourceKinds)
    && (Truthy(p.requireSignature) ==> Allowed(Str(keyId), p.signatureKeyIds))
  }

  lemma {:induction false} SignedAdmitted(v: Json, keyId: string, key: string, p: Policy, own: Keys, keys: Keys, w: World)
    requires Proper(w) && SafeId(Str(keyId)) && |key| >= 16 && keyId in own && own[keyId] == key
    requires v.Obj? && WellFormed(v) && BundleFine(v, map[], false, w)
    ensures var b := WithSignature(v, keyId, key, w);
            Admits(p, b, own, keys, w) <==> AdmitsSigned(p, b, keyId) && KeyFits(v, keyId, key, keys, w)
  {
    SignedSeen(v, keyId, key, own, w);
    SignedSeen(v, keyId, key, keys, w);
  }

  /** A provider made by signing a valid bundle is accepted exactly when the policy admits it
      and its key id, the host's key of that id fits, and the request is addressed to it and
      names a bundled record that meets its conditions. */
  lemma {:induction false} SignedIsNeverRefused(v: Json, keyId: string, key: string, request: Json, policy: Json, own: Keys, keys: Keys, w: World)
    requires Proper(w) && SafeId(Str(keyId)) && |key| >= 16 && keyId in own && own[keyId] == key
    requires v.Obj? && WellFormed(v) && BundleFine(v, map[], false, w)
    requires PolicyFine(policy, w) && RequestFine(request, w)
    ensures var b := WithSignature(v, keyId, key, w);
            Accepts(b, request, policy, own, keys, w) <==>
            && AdmitsSigned(ReadPolicy(policy), b, keyId) && KeyFits(v, keyId, key, keys, w)
            && ReadRequest(request).providerId == Get(Norm(b), "provider_id")
            && NamesBundled(b, ReadRequest(request), ReadPolicy(policy), w)
  {
    SignedIsHonest(v, keyId, key, own, w);
    SignedAdmitted(v, keyId, key, ReadPolicy(policy), own, keys, w);
    HonestVerdictExactly(WithSignature(v, keyId, key, w), request, policy, own, keys, w);
  }
}
