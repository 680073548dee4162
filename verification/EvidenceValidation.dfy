/** src/ainir/evidence_provider.py: policies, requests and resolutions, and the
    independent validation of one resolution under a policy. */
module EvidenceValidation {
  import opened JsonTree
  import opened CanonicalJson
  import opened Artifacts
  import opened EvidenceRecords
  import opened EvidenceBundles

  const POLICY_KEYS := [
    "kind", "version", "policy_id", "policy_sha256", "provider_id", "allowed_provider_versions",
    "allowed_source_kinds", "allowed_issuer_ids", "allowed_issuer_kinds", "allowed_evidence_kinds",
    "allowed_producer_kinds", "allowed_signature_key_ids", "minimum_reliability",
    "require_subject_binding", "require_validity_window", "require_active_revocation",
    "max_revocation_age_seconds", "require_verified_signature", "allow_trust_gate_promotion",
    "production_runtime_ready"]

  const REQUEST_KEYS := [
    "kind", "version", "request_id", "provider_id", "evidence_id", "expected_kind", "claim_scope",
    "subject_binding", "evaluation_time", "production_runtime_ready"]

  const RESOLUTION_KEYS := [
    "kind", "version", "request_id", "status", "provider_id", "provider_version", "source_kind",
    "bundle_id", "bundle_sha256", "signature_status", "signature_key_id", "record", "message",
    "production_runtime_ready", "resolution_sha256", "resolution_id"]

  const RESOLUTION_OWN_KEYS := {"resolution_id", "resolution_sha256"}

  const REQUEST_SCOPE_KEYS := ["module_id", "workflow", "claim_id", "claim_statement_sha256"]
  const REQUEST_SUBJECT_KEYS := ["raw_source_sha256", "canonical_draft_sha256"]

  const REQUEST_PREFIX := "ainir.evidence.request."
  const RESOLUTION_PREFIX := "ainir.evidence.resolution."

  const RESOLUTION_STATUSES := ["resolved", "not_found", "provider_error"]
  const SIGNATURE_STATUSES := ["not_applicable", "not_present", "unverified", "verified", "failed", "unknown_key"]

  /** Instants count microseconds. */
  const SECOND := 1_000_000

  // ----- policies -----

  datatype Policy = Policy(
    kind: Json, version: Json, policyId: Json, sha: Json, providerId: Json, providerVersions: Json,
    sourceKinds: Json, issuerIds: Json, issuerKinds: Json, evidenceKinds: Json, producerKinds: Json,
    signatureKeyIds: Json, minimumReliability: Json, requireSubject: Json, requireWindow: Json,
    requireActive: Json, maxRevocationAge: Json, requireSignature: Json, allowPromotion: Json,
    productionReady: Json)

  function ReadPolicy(v: Json): Policy {
    var f := Fields(v, POLICY_KEYS);
    Policy(f[0], f[1], f[2], f[3], f[4], f[5], f[6], f[7], f[8], f[9],
           f[10], f[11], f[12], f[13], f[14], f[15], f[16], f[17], f[18], f[19])
  }

  predicate AllIn(v: Json, names: seq<string>) { v.Arr? && forall x | x in v.items :: OneOf(x, names) }

  predicate PolicyListsFine(p: Policy) {
    && UniqueIds(p.providerVersions, true) && UniqueIds(p.sourceKinds, true) && UniqueIds(p.issuerIds, true)
    && UniqueIds(p.issuerKinds, true) && UniqueIds(p.evidenceKinds, true) && UniqueIds(p.producerKinds, true)
    && UniqueIds(p.signatureKeyIds, false)
    && AllIn(p.sourceKinds, SOURCE_KINDS)
  }

  predicate PolicyDemandsFine(p: Policy) {
    && UnitNumber(p.minimumReliability)
    && p.requireSubject.Bool? && p.requireWindow.Bool? && p.requireActive.Bool? && p.requireSignature.Bool?
    && p.maxRevocationAge.Int? && 1 <= p.maxRevocationAge.n <= 31_536_000
    && (p.requireSignature.b ==> Truthy(p.signatureKeyIds))
  }

  predicate PolicyFieldsFine(p: Policy) {
    && p.kind == Str("AiNIREvidenceProviderPolicy")
    && p.version == Str("ainir.evidence-provider-policy.v1")
    && SafeId(p.policyId) && SafeId(p.providerId)
    && PolicyListsFine(p)
    && PolicyDemandsFine(p)
    && p.allowPromotion == Bool(false)
    && p.productionReady == Bool(false)
  }

  predicate PolicyFine(v: Json, w: World) {
    && OnlyKeys(v, POLICY_KEYS)
    && PolicyFieldsFine(ReadPolicy(v))
    && ReadPolicy(v).sha == Str(ProjectionDigest(v, {"policy_sha256"}, w.lib))
  }

  // ----- requests -----

  datatype Request = Request(
    kind: Json, version: Json, id: Json, providerId: Json, evidenceId: Json, expectedKind: Json,
    scope: Json, subject: Json, evaluationTime: Json, productionReady: Json)

  function ReadRequest(v: Json): Request {
    var f := Fields(v, REQUEST_KEYS);
    Request(f[0], f[1], f[2], f[3], f[4], f[5], f[6], f[7], f[8], f[9])
  }

  predicate RequestFieldsFine(r: Request, lib: Library) {
    && r.kind == Str("AiNIREvidenceRequest")
    && r.version == Str("ainir.evidence-request.v1")
    && SafeId(r.providerId) && SafeId(r.evidenceId) && SafeIdOrNull(r.expectedKind)
    && Shaped(r.scope, REQUEST_SCOPE_KEYS)
    && SafeId(Get(r.scope, "module_id")) && SafeId(Get(r.scope, "workflow")) && SafeId(Get(r.scope, "claim_id"))
    && IsSha(Get(r.scope, "claim_statement_sha256"))
    && Shaped(r.subject, REQUEST_SUBJECT_KEYS)
    && ShaOrNull(Get(r.subject, "raw_source_sha256")) && ShaOrNull(Get(r.subject, "canonical_draft_sha256"))
    && Instant(r.evaluationTime, lib).Some?
    && r.productionReady == Bool(false)
  }

  predicate RequestFine(v: Json, w: World) {
    && OnlyKeys(v, REQUEST_KEYS)
    && RequestFieldsFine(ReadRequest(v), w.lib)
    && ReadRequest(v).id == Str(IdFor(REQUEST_PREFIX, ProjectionDigest(v, {"request_id"}, w.lib)))
  }

  // ----- resolutions -----

  datatype Resolution = Resolution(
    kind: Json, version: Json, requestId: Json, status: Json, providerId: Json, providerVersion: Json,
    sourceKind: Json, bundleId: Json, bundleSha: Json, signatureStatus: Json, signatureKeyId: Json,
    record: Json, message: Json, productionReady: Json, sha: Json, id: Json)

  function ResolutionValues(r: Resolution): (values: seq<Json>)
    ensures |values| == 16
  {
    [r.kind, r.version, r.requestId, r.status, r.providerId, r.providerVersion, r.sourceKind, r.bundleId,
     r.bundleSha, r.signatureStatus, r.signatureKeyId, r.record, r.message, r.productionReady, r.sha, r.id]
  }

  function ResolutionTree(r: Resolution): Json { Obj(Record(RESOLUTION_KEYS, ResolutionValues(r))) }

  function ReadResolution(v: Json): Resolution {
    var f := Fields(v, RESOLUTION_KEYS);
    Resolution(f[0], f[1], f[2], f[3], f[4], f[5], f[6], f[7], f[8], f[9], f[10], f[11], f[12], f[13], f[14], f[15])
  }

  lemma {:induction false} ResolutionReadsBack(r: Resolution)
    ensures ReadResolution(ResolutionTree(r)) == r && OnlyKeys(ResolutionTree(r), RESOLUTION_KEYS)
  {
    assert forall i, j | 0 <= i < j < |RESOLUTION_KEYS| :: RESOLUTION_KEYS[i] != RESOLUTION_KEYS[j];
    RecordReadsBack(RESOLUTION_KEYS, ResolutionValues(r));
  }

  function ResolutionDigest(v: Json, lib: Library): string
    requires v.Obj?
  {
    ProjectionDigest(v, RESOLUTION_OWN_KEYS, lib)
  }

  /** `x in set(list)`. */
  predicate Allowed(v: Json, list: Json) { list.Arr? && v in list.items }

  predicate ResolutionSealFine(r: Resolution, digest: string) {
    r.sha == Str(digest) && r.id == Str(IdFor(RESOLUTION_PREFIX, digest))
  }

  /** What does not depend on the policy. */
  predicate ResolutionFieldsFine(r: Resolution, q: Request) {
    && r.kind == Str("AiNIREvidenceResolution")
    && r.version == Str("ainir.evidence-resolution.v1")
    && OneOf(r.status, RESOLUTION_STATUSES)
    && r.requestId == q.id
    && r.providerId == q.providerId
    && OneOf(r.signatureStatus, SIGNATURE_STATUSES)
    && r.productionReady == Bool(false)
    && r.status == Str("resolved") && r.record.Obj?
  }

  predicate ResolutionAdmitted(r: Resolution, p: Policy) {
    && r.providerId == p.providerId
    && Allowed(r.providerVersion, p.providerVersions)
    && Allowed(r.sourceKind, p.sourceKinds)
    && (Truthy(p.requireSignature) ==> r.signatureStatus == Str("verified") && Allowed(r.signatureKeyId, p.signatureKeyIds))
  }

  // ----- the candidate record -----

  predicate RecordAdmitted(r: Json, p: Policy) {
    && Allowed(Get(r, "evidence_kind"), p.evidenceKinds)
    && Allowed(Get(Get(r, "issuer"), "id"), p.issuerIds)
    && Allowed(Get(Get(r, "issuer"), "kind"), p.issuerKinds)
    && Allowed(Get(r, "producer_kind"), p.producerKinds)
    && Get(r, "policy_version") == p.policyId
  }

  predicate RecordNamed(r: Json, q: Request, registryKinds: seq<string>) {
    && Get(r, "evidence_id") == q.evidenceId
    && (q.expectedKind.Null? || Get(r, "evidence_kind") == q.expectedKind)
    && OneOf(Get(r, "evidence_kind"), registryKinds)
  }

  predicate ProvidedBy(r: Json, s: Resolution) {
    var provenance := Get(r, "provenance");
    && Get(provenance, "provider_id") == s.providerId
    && Get(provenance, "provider_version") == s.providerVersion
    && Get(provenance, "source_kind") == s.sourceKind
  }

  predicate ScopeMatches(r: Json, q: Request) {
    var scope := Get(r, "claim_scope");
    && Get(scope, "module_id") == Get(q.scope, "module_id")
    && Get(scope, "workflow") == Get(q.scope, "workflow")
    && Allowed(Get(q.scope, "claim_id"), Get(scope, "claim_ids"))
    && Get(scope, "claim_statement_sha256") == Get(q.scope, "claim_statement_sha256")
  }

  predicate HashMatches(r: Json, q: Request, key: string) {
    var own := Get(Get(r, "subject_binding"), key);
    !own.Null? && own == Get(q.subject, key)
  }

  predicate SubjectAccepted(r: Json, q: Request, p: Policy) {
    var mode := Get(Get(r, "subject_binding"), "mode");
    if mode == Str("raw") then HashMatches(r, q, "raw_source_sha256")
    else if mode == Str("canonical") then HashMatches(r, q, "canonical_draft_sha256")
    else if mode == Str("raw_or_canonical") then HashMatches(r, q, "raw_source_sha256") || HashMatches(r, q, "canonical_draft_sha256")
    else mode == Str("none") && !Truthy(p.requireSubject)
  }

  predicate InValidity(r: Json, q: Request, p: Policy, lib: Library) {
    var now := Instant(q.evaluationTime, lib);
    var start, end := Instant(Get(Get(r, "validity"), "valid_from"), lib), Instant(Get(Get(r, "validity"), "valid_until"), lib);
    && (Truthy(p.requireWindow) ==> start.Some? && end.Some?)
    && (start.Some? && end.Some? ==> start.value < end.value)
    && now.Some?
    && (start.Some? ==> start.value <= now.value)
    && (end.Some? ==> now.value < end.value)
  }

  predicate NotRevoked(r: Json, q: Request, p: Policy, lib: Library) {
    var now, checked := Instant(q.evaluationTime, lib), Instant(Get(Get(r, "revocation"), "checked_at"), lib);
    && (Truthy(p.requireActive) ==> Get(Get(r, "revocation"), "status") == Str("active") && checked.Some?)
    && (checked.Some? && now.Some? ==>
          && checked.value <= now.value
          && (Truthy(p.requireActive) ==>
                p.maxRevocationAge.Int? && 0 <= now.value - checked.value <= p.maxRevocationAge.n * SECOND))
  }

  predicate PlainNumber(v: Json) { v.Int? || v.Float? }

  predicate Reliable(r: Json, p: Policy) {
    var score, least := Get(Get(r, "reliability"), "score"), Get(Get(r, "reliability"), "minimum_required");
    && PlainNumber(score) && PlainNumber(least) && PlainNumber(p.minimumReliability)
    && NumericValue(least) <= NumericValue(score)
    && NumericValue(p.minimumReliability) <= NumericValue(score)
  }

  /** The conditions that a record must meet for this request, resolution and policy. */
  predicate CandidateFine(r: Json, q: Request, p: Policy, s: Resolution, w: World) {
    && RecordFine(r, w.lib)
    && RecordNamed(r, q, w.registryKinds)
    && RecordAdmitted(r, p)
    && ProvidedBy(r, s)
    && ScopeMatches(r, q)
    && SubjectAccepted(r, q, p)
    && InValidity(r, q, p, w.lib)
    && NotRevoked(r, q, p, w.lib)
    && Reliable(r, p)
  }

  // ----- the provider behind a resolution -----

  /** What a provider object shows of itself; none of it is believed. */
  datatype Provider = Provider(providerId: Json, providerVersion: Json, sourceKind: Json, bundle: Json, claimsValid: bool)

  function Observed(bundle: Json, sourceKind: Json, keys: map<string, string>, w: World): SignatureCheck {
    var check := VerifySignature(bundle, keys, w);
    if Get(bundle, "signature").Null? && sourceKind == Str("fixture") then check.(status := "not_applicable") else check
  }

  function Matching(records: seq<Json>, id: Json): seq<Json> {
    if records == [] then []
    else
      var n := |records| - 1;
      Matching(records[..n], id) + (if records[n].Obj? && Get(records[n], "evidence_id") == id then [records[n]] else [])
  }

  function RecordList(bundle: Json): seq<Json> { Listed(Get(bundle, "records")) }

  predicate SameProvider(p: Provider, bundle: Json, s: Resolution) {
    && p.providerId == s.providerId && p.providerVersion == s.providerVersion && p.sourceKind == s.sourceKind
    && Get(bundle, "provider_id") == s.providerId
    && Get(bundle, "provider_version") == s.providerVersion
    && Get(bundle, "source_kind") == s.sourceKind
    && Get(bundle, "bundle_id") == s.bundleId
    && Get(bundle, "bundle_sha256") == s.bundleSha
  }

  predicate SignatureRecomputed(p: Provider, bundle: Json, s: Resolution, keys: map<string, string>, w: World) {
    var observed := Observed(bundle, p.sourceKind, keys, w);
    s.signatureStatus == Str(observed.status) && s.signatureKeyId == observed.keyId
  }

  /** The record is the one bundled record of the requested id. */
  predicate RecordBundled(bundle: Json, s: Resolution, q: Request) {
    var matching := Matching(RecordList(bundle), q.evidenceId);
    |matching| == 1 && s.record.Obj? && PyEq(Norm(s.record), Norm(matching[0]))
  }

  ghost predicate ProviderConfirms(p: Provider, s: Resolution, q: Request, signed: bool, keys: map<string, string>, w: World) {
    var bundle := Norm(p.bundle);
    && p.bundle.Obj?
    && BundleFine(bundle, keys, signed, w)
    && p.claimsValid
    && SignatureRecomputed(p, bundle, s, keys, w)
    && SameProvider(p, bundle, s)
    && RecordBundled(bundle, s, q)
  }

  // ----- acceptance -----

  /** The checks that tie the three artifacts and the provider to each other. */
  ghost predicate Supported(q: Request, s: Resolution, p: Policy, provider: Provider, keys: map<string, string>, w: World) {
    && ResolutionFieldsFine(s, q)
    && ResolutionAdmitted(s, p)
    && ProviderConfirms(provider, s, q, Truthy(p.requireSignature), keys, w)
    && CandidateFine(s.record, q, p, s, w)
  }

  ghost predicate ResolutionAccepted(request: Json, resolution: Json, policy: Json, provider: Option<Provider>, keys: map<string, string>, w: World) {
    var q, s, p := ReadRequest(request), ReadResolution(resolution), ReadPolicy(policy);
    && RequestFine(request, w)
    && PolicyFine(policy, w)
    && OnlyKeys(resolution, RESOLUTION_KEYS)
    && ResolutionSealFine(s, ResolutionDigest(resolution, w.lib))
    && provider.Some?
    && Supported(q, s, p, provider.value, keys, w)
  }

  /** `validate_evidence_resolution`, as far as its verdict. */
  method ValidateResolution(request: Json, resolution: Json, policy: Json, provider: Option<Provider>, keys: map<string, string>, w: World)
    returns (accepted: bool)
    ensures accepted == ResolutionAccepted(request, resolution, policy, provider, keys, w)
  {
    if !OnlyKeys(resolution, RESOLUTION_KEYS) || provider.None? { return false; }
    var q, s, p := ReadRequest(request), ReadResolution(resolution), ReadPolicy(policy);
    var confirmed := Confirm(provider.value, s, q, Truthy(p.requireSignature), keys, w);
    accepted := RequestFine(request, w) && PolicyFine(policy, w)
      && ResolutionSealFine(s, ResolutionDigest(resolution, w.lib))
      && ResolutionFieldsFine(s, q) && ResolutionAdmitted(s, p)
      && confirmed && CandidateFine(s.record, q, p, s, w);
  }

  method Confirm(p: Provider, s: Resolution, q: Request, signed: bool, keys: map<string, string>, w: World) returns (confirmed: bool)
    ensures confirmed == ProviderConfirms(p, s, q, signed, keys, w)
  {
    if !p.bundle.Obj? { return false; }
    var bundle := Norm(p.bundle);
    var valid := ValidateBundle(bundle, keys, signed, w);
    confirmed := valid && p.claimsValid == valid && SignatureRecomputed(p, bundle, s, keys, w)
      && SameProvider(p, bundle, s) && RecordBundled(bundle, s, q);
  }

  // ----- a tighter policy accepts less -----

  ghost predicate Within(a: Json, b: Json) { forall x | Allowed(x, a) :: Allowed(x, b) }

  /** `p` demands at least what `q` demands, and allows at most what `q` allows. */
  ghost predicate Tighter(p: Policy, q: Policy) {
    && p.policyId == q.policyId && p.providerId == q.providerId
    && Within(p.providerVersions, q.providerVersions) && Within(p.sourceKinds, q.sourceKinds)
    && Within(p.issuerIds, q.issuerIds) && Within(p.issuerKinds, q.issuerKinds)
    && Within(p.evidenceKinds, q.evidenceKinds) && Within(p.producerKinds, q.producerKinds)
    && Within(p.signatureKeyIds, q.signatureKeyIds)
    && PlainNumber(p.minimumReliability) && PlainNumber(q.minimumReliability)
    && NumericValue(q.minimumReliability) <= NumericValue(p.minimumReliability)
    && p.maxRevocationAge.Int? && q.maxRevocationAge.Int? && p.maxRevocationAge.n <= q.maxRevocationAge.n
    && (Truthy(q.requireSubject) ==> Truthy(p.requireSubject))
    && (Truthy(q.requireWindow) ==> Truthy(p.requireWindow))
    && (Truthy(q.requireActive) ==> Truthy(p.requireActive))
    && (Truthy(q.requireSignature) ==> Truthy(p.requireSignature))
  }

  lemma {:induction false} TighterCandidate(r: Json, q: Request, tight: Policy, loose: Policy, s: Resolution, w: World)
    requires Tighter(tight, loose) && CandidateFine(r, q, tight, s, w)
    ensures CandidateFine(r, q, loose, s, w)
  {
    TighterRecord(r, tight, loose);
    TighterTimes(r, q, tight, loose, w.lib);
  }

  lemma {:induction false} TighterRecord(r: Json, tight: Policy, loose: Policy)
    requires Tighter(tight, loose) && RecordAdmitted(r, tight)
    ensures RecordAdmitted(r, loose)
  {
  }

  lemma {:induction false} TighterTimes(r: Json, q: Request, tight: Policy, loose: Policy, lib: Library)
    requires Tighter(tight, loose)
    ensures SubjectAccepted(r, q, tight) ==> SubjectAccepted(r, q, loose)
    ensures InValidity(r, q, tight, lib) ==> InValidity(r, q, loose, lib)
    ensures NotRevoked(r, q, tight, lib) ==> NotRevoked(r, q, loose, lib)
    ensures Reliable(r, tight) ==> Reliable(r, loose)
  {
  }

  /** A bundle that is fine where a verified signature is required is fine where not. */
  lemma {:induction false} SignedIsFine(v: Json, keys: map<string, string>, signed: bool, w: World)
    requires BundleFine(v, keys, true, w)
    ensures BundleFine(v, keys, signed, w)
  {
  }

  lemma {:induction false} TighterProvider(p: Provider, s: Resolution, q: Request, tight: bool, loose: bool, keys: map<string, string>, w: World)
    requires loose ==> tight
    requires ProviderConfirms(p, s, q, tight, keys, w)
    ensures ProviderConfirms(p, s, q, loose, keys, w)
  {
    if tight { SignedIsFine(Norm(p.bundle), keys, loose, w); }
  }

  /** Whatever is accepted under a policy is accepted under every valid looser one. */
  lemma {:induction false} PolicyMonotonicity(request: Json, resolution: Json, tight: Json, loose: Json, provider: Option<Provider>, keys: map<string, string>, w: World)
    requires ResolutionAccepted(request, resolution, tight, provider, keys, w)
    requires PolicyFine(loose, w) && Tighter(ReadPolicy(tight), ReadPolicy(loose))
    ensures ResolutionAccepted(request, resolution, loose, provider, keys, w)
  {
    var q, s := ReadRequest(request), ReadResolution(resolution);
    TighterAcceptance(q, s, ReadPolicy(tight), ReadPolicy(loose), provider.value, keys, w);
  }

  lemma {:induction false} TighterAcceptance(q: Request, s: Resolution, tight: Policy, loose: Policy, p: Provider, keys: map<string, string>, w: World)
    requires Tighter(tight, loose) && Supported(q, s, tight, p, keys, w)
    ensures Supported(q, s, loose, p, keys, w)
  {
    TighterProvider(p, s, q, Truthy(tight.requireSignature), Truthy(loose.requireSignature), keys, w);
    TighterCandidate(s.record, q, tight, loose, s, w);
  }
}
