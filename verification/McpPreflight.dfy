/** The whole preflight: build the envelope, build the context, assess. A call passes
    exactly when one predicate over the profile, the call and the host's facts holds. */
module McpPreflight {
  import opened Text
  import opened JsonTree
  import opened CanonicalJson
  import opened JsonPointer
  import opened JsonSchema
  import opened Artifacts
  import opened McpProfile
  import opened McpEnvelope
  import opened McpEnvelopeFacts
  import opened McpHostContext
  import opened McpAssessment
  import opened McpVerdict
  import opened McpConsent

  /** One proposed call with what the host knows about it; the three untrusted trees
      are already copied through canonical JSON. */
  datatype Attempt = Attempt(profile: Profile, descriptor: Json, request: Json, transport: Json, facts: HostFacts)

  /** The second and third step, on a built envelope. */
  function Judge(a: Attempt, e: Envelope, lib: Library): Option<Status> {
    match ContextOf(EnvelopeTree(e), a.facts, lib)
    case ContextReady(c) => Some(VerdictOn(a.profile, EnvelopeTree(e), ContextTree(c), lib))
    case _ => None
  }

  /** The verdict, when all three steps go through. */
  function Preflight(a: Attempt, lib: Library): Option<Status> {
    match EnvelopeOf(a.profile, a.descriptor, a.request, a.transport, lib)
    case Failed(_) => None
    case Ready(e) => Judge(a, e, lib)
  }

  // ----- what admits a call -----

  function CalledName(a: Attempt): Json { Get(Params(a.request), "name") }

  /** The reviewed tool, when the profile has one of the called name. */
  predicate ToolReviewed(a: Attempt) {
    CalledName(a).Str? && CalledName(a).s in ToolMap(ToolList(a.profile))
  }

  function ReviewedOf(a: Attempt): Tool
    requires ToolReviewed(a)
  {
    ReadTool(ToolMap(ToolList(a.profile))[CalledName(a).s])
  }

  predicate HashesMatch(a: Attempt, t: Tool, lib: Library) {
    && t.descriptorSha == Str(Digest(a.descriptor, lib))
    && t.inputSchemaSha == Str(Digest(Get(a.descriptor, "inputSchema"), lib))
    && t.outputSchemaSha == SchemaDigest(Get(a.descriptor, "outputSchema"), lib)
  }

  /** The newest protocol demands both headers; older ones let them be absent. */
  predicate TransportAdmissible(a: Attempt) {
    var protocol, header, name := Get(a.transport, "protocol_version"), Get(a.transport, "method_header"), Get(a.transport, "name_header");
    && protocol in Listed(Get(a.profile.data, "protocol_versions"))
    && (header == Str("tools/call") || (protocol != Str(NEWEST_PROTOCOL) && header.Null?))
    && (name == CalledName(a) || (protocol != Str(NEWEST_PROTOCOL) && name.Null?))
  }

  predicate PlainCall(a: Attempt) {
    && !Has(Params(a.request), "task")
    && Get(ObjectOrEmpty(Get(a.descriptor, "execution")), "taskSupport") != Str("required")
    && !Has(Params(a.request), "inputResponses")
    && !Has(Params(a.request), "requestState")
  }

  function ArgumentsSize(a: Attempt): nat { Utf8Size(CanonicalText(Norm(Arguments(a.request)))) }

  /** Every resource the tool binds is named by the call, in a usable form. */
  ghost predicate AllUsable(bindings: seq<Json>, arguments: Json) {
    forall b | b in bindings :: Get(b, "pointer").Str? && Select(b, arguments).Usable?
  }

  ghost predicate ArgumentsAdmissible(a: Attempt, bindings: seq<Json>, lib: Library) {
    var arguments, meta := Arguments(a.request), Get(Params(a.request), "_meta");
    && AllUsable(bindings, arguments)
    && Conforms(arguments, Get(a.descriptor, "inputSchema"))
    && (forall loc :: !SensitivePlace(arguments, loc, lib.sens))
    && (meta.Obj? ==> forall loc :: !SensitivePlace(meta, loc, lib.sens))
  }

  function DeclaredAnnotations(a: Attempt): Json { Norm(ObjectOrEmpty(Get(a.descriptor, "annotations"))) }

  predicate ServerAdmissible(f: HostFacts, t: Tool) {
    && f.authenticated
    && t.serverId == Str(f.serverId)
    && t.serverOrigin == Str(f.serverOrigin)
    && t.audience == Str(f.audience)
  }

  /** Granted capabilities are exactly the reviewed ones. */
  ghost predicate CapabilitiesExact(f: HostFacts, t: Tool) {
    forall s :: s in f.grants <==> s in Strings(t.capabilities)
  }

  predicate BindsWorkspace(bindings: seq<Json>) {
    exists b | b in bindings :: Get(b, "resource_type") == Str("workspace_path")
  }

  predicate ConsentAdmissible(f: HostFacts, lib: Library) {
    && f.consentDecision == "approved"
    && InWindow(lib.instant(f.consentIssuedAt), lib.instant(f.evaluationTime), lib.instant(f.consentValidUntil))
  }

  predicate TransactionAdmissible(f: HostFacts, t: Tool) {
    if t.transactionRequired == Bool(true) then
      && f.transactionStatus == Some("prepared")
      && (t.rollbackRequired == Bool(true) ==> f.rollbackAvailable == Some(true) && f.rollbackPlan.Some?)
    else f.transactionStatus.None?
  }

  ghost predicate HostAdmissible(f: HostFacts, t: Tool, bindings: seq<Json>, lib: Library) {
    && FactsFine(f)
    && ServerAdmissible(f, t)
    && f.schemaStatus == "passed"
    && CapabilitiesExact(f, t)
    && f.resolutionStatus == "passed"
    && (BindsWorkspace(bindings) ==> f.symlinksResolved)
    && ConsentAdmissible(f, lib)
    && TransactionAdmissible(f, t)
  }

  /** The call as the reviewed tool `t` allows it. */
  ghost predicate AdmissibleFor(a: Attempt, t: Tool, lib: Library) {
    && HashesMatch(a, t, lib)
    && TransportAdmissible(a)
    && PlainCall(a)
    && t.maxArgumentsBytes.Int? && ArgumentsSize(a) <= t.maxArgumentsBytes.n
    && t.resourceBindings.Arr?
    && ArgumentsAdmissible(a, t.resourceBindings.items, lib)
    && HintsHonest(DeclaredAnnotations(a), t)
    && HostAdmissible(a.facts, t, t.resourceBindings.items, lib)
  }

  /** The profile has reviewed the called tool, and the call and the host meet its terms. */
  ghost predicate Permitted(a: Attempt, lib: Library) { ToolReviewed(a) && AdmissibleFor(a, ReviewedOf(a), lib) }

  /** ... and the profile allows it without a review. */
  ghost predicate Granted(a: Attempt, lib: Library) {
    Permitted(a, lib) && ReviewedOf(a).decisionMode == Str("allow")
  }

  /** What the verdict on a call of the reviewed tool `t` has to be. */
  ghost function DecisionFor(a: Attempt, t: Tool, lib: Library): Status {
    if AdmissibleFor(a, t, lib) then (if t.decisionMode == Str("review_required") then Status.ReviewRequired else Status.Passed)
    else if FactsFine(a.facts) then Status.Refused
    else Status.Invalid
  }

  /** The verdict on a call whose envelope and context were built. */
  ghost function Decision(a: Attempt, lib: Library): Status {
    if ToolReviewed(a) then DecisionFor(a, ReviewedOf(a), lib)
    else if FactsFine(a.facts) then Status.Refused
    else Status.Invalid
  }

  /** Both builders accept what they are given. */
  predicate Buildable(a: Attempt, lib: Library) {
    && ValidProfile(a.profile, lib)
    && InputError(a.descriptor, a.request, a.transport).None?
    && OneOf(Get(a.transport, "protocol_version"), PROTOCOL_VERSIONS) && HeadersAreText(a.transport)
    && TimesParse(a.facts, lib)
  }

  ghost predicate Admissible(a: Attempt, lib: Library) {
    && ValidProfile(a.profile, lib)
    && InputError(a.descriptor, a.request, a.transport).None?
    && Granted(a, lib)
  }

  // ----- Python equality on text -----

  lemma {:induction false} TextEquality(v: Json, s: string)
    ensures PyEq(Str(s), v) <==> v == Str(s)
    ensures PyEq(v, Str(s)) <==> v == Str(s)
    ensures PyEq(Null, v) <==> v.Null?
  {
  }

  // ----- what the envelope shows of the call -----

  ghost predicate ShowsHashes(e: Envelope, a: Attempt, lib: Library) {
    && e.descriptorSha == Str(Digest(a.descriptor, lib))
    && e.inputSchemaSha == Str(Digest(Get(a.descriptor, "inputSchema"), lib))
    && e.outputSchemaSha == SchemaDigest(Get(a.descriptor, "outputSchema"), lib)
  }

  ghost predicate ShowsTransport(e: Envelope, a: Attempt) {
    && e.toolName == CalledName(a)
    && e.protocolVersion == Get(a.transport, "protocol_version")
    && Get(e.transport, "method_header") == Get(a.transport, "method_header")
    && Get(e.transport, "name_header") == Get(a.transport, "name_header")
  }

  ghost predicate ShowsContent(e: Envelope, a: Attempt, lib: Library) {
    && e.argumentsSize == Int(ArgumentsSize(a))
    && e.sensitivePaths == Arr(Texts(SensitivePaths(a.request, lib)))
    && (e.taskRequested == Bool(false) && e.mrtrPresent == Bool(false) <==> PlainCall(a))
  }

  ghost predicate Shows(e: Envelope, a: Attempt, lib: Library) {
    && ShowsHashes(e, a, lib) && ShowsTransport(e, a) && ShowsContent(e, a, lib)
    && e.profileId == Get(a.profile.data, "profile_id")
    && e.argumentsSha.Str? && e.resourcesSha.Str? && e.sha.Str?
    && Get(e.metadata, "annotations") == DeclaredAnnotations(a)
  }

  /** The sealed envelope of an attempt, over any metadata, resources and findings. */
  function SealedDraft(a: Attempt, parts: EnvelopeParts, lib: Library): Envelope {
    SealEnvelope(
      DraftEnvelope(
        Get(a.profile.data, "profile_id"), a.descriptor, a.request, Get(a.transport, "protocol_version"), parts, lib),
      lib)
  }

  lemma {:induction false} DraftShowsTransport(a: Attempt, parts: EnvelopeParts, lib: Library)
    requires parts.transport == TransportTree(a.transport)
    ensures ShowsTransport(SealedDraft(a, parts, lib), a)
  {
    TransportReadsBack(a.transport);
  }

  lemma {:induction false} DraftShowsContent(a: Attempt, parts: EnvelopeParts, lib: Library)
    requires parts.sensitivePaths == SensitivePaths(a.request, lib)
    ensures ShowsContent(SealedDraft(a, parts, lib), a, lib)
  {
  }

  lemma {:induction false} DraftShows(a: Attempt, parts: EnvelopeParts, lib: Library)
    requires parts.metadata == MetadataTree(a.descriptor, a.request, lib)
    requires parts.transport == TransportTree(a.transport)
    requires parts.sensitivePaths == SensitivePaths(a.request, lib)
    requires WellBehaved(lib)
    ensures var e := SealedDraft(a, parts, lib);
            Shows(e, a, lib) && e.resources == Arr(parts.resources) && e.findings == Arr(parts.findings)
  {
    MetadataTreeFine(a.descriptor, a.request, lib);
    DraftShowsTransport(a, parts, lib);
    DraftShowsContent(a, parts, lib);
  }

  lemma {:induction false} InputsExact(k: Case)
    requires k.profileValid && k.envelopeValid && k.toolKnown
    requires k.profileId.Str? && k.envelope.profileId == k.profileId
    ensures AllTrue(InputOutcomes(k)) <==> k.contextValid
  {
    TextEquality(k.envelope.profileId, k.profileId.s);
    var outcomes := InputOutcomes(k);
    assert outcomes[0] && outcomes[1] && outcomes[3] && outcomes[4];
    assert outcomes[2] == k.contextValid;
  }

  lemma {:induction false} HashesExact(k: Case, a: Attempt, lib: Library)
    requires ShowsHashes(k.envelope, a, lib)
    ensures AllTrue(HashOutcomes(k)) <==> HashesMatch(a, k.tool, lib)
  {
    var outcomes := HashOutcomes(k);
    TextEquality(k.tool.descriptorSha, Digest(a.descriptor, lib));
    TextEquality(k.tool.inputSchemaSha, Digest(Get(a.descriptor, "inputSchema"), lib));
    OutputHashExact(k.tool.outputSchemaSha, Get(a.descriptor, "outputSchema"), lib);
    assert AllTrue(outcomes) <==> outcomes[0] && outcomes[1] && outcomes[2];
  }

  lemma {:induction false} OutputHashExact(declared: Json, schema: Json, lib: Library)
    ensures PyEq(SchemaDigest(schema, lib), declared) <==> declared == SchemaDigest(schema, lib)
  {
    TextEquality(declared, Digest(schema, lib));
  }

  lemma {:induction false} VersionListed(protocol: string, versions: seq<Json>)
    ensures In(Str(protocol), versions) <==> Str(protocol) in versions
  {
    forall x | x in versions ensures PyEq(Str(protocol), x) <==> x == Str(protocol) { TextEquality(x, protocol); }
  }

  lemma {:induction false} TransportExact(k: Case, a: Attempt)
    requires ShowsTransport(k.envelope, a) && CalledName(a).Str? && k.envelope.protocolVersion.Str?
    requires k.versions == Listed(Get(a.profile.data, "protocol_versions"))
    ensures AllTrue(TransportOutcomes(k)) <==> TransportAdmissible(a)
  {
    var outcomes := TransportOutcomes(k);
    VersionListed(k.envelope.protocolVersion.s, k.versions);
    TextEquality(Get(a.transport, "name_header"), CalledName(a).s);
    assert AllTrue(outcomes) <==> outcomes[0] && outcomes[1] && outcomes[2];
  }

  lemma {:induction false} NoCriticalFinding(findings: seq<Json>)
    requires AllFine(findings)
    ensures (forall f | f in findings :: !CriticalFinding(f)) <==> findings == []
  {
    if findings != [] { assert findings[0] in findings && CriticalFinding(findings[0]); }
  }

  lemma {:induction false} SizeFits(size: nat, limit: int)
    ensures FitsSize(Int(size), Int(limit)) <==> size <= limit
  {
  }

  lemma {:induction false} PathsAbsent(paths: seq<string>)
    ensures Truthy(Arr(Texts(paths))) <==> paths != []
  {
  }

  lemma {:induction false} ContentExact(k: Case, a: Attempt, findings: seq<Json>, lib: Library)
    requires ShowsContent(k.envelope, a, lib) && k.tool.maxArgumentsBytes.Int?
    requires k.envelope.findings == Arr(findings) && AllFine(findings)
    ensures AllTrue(ContentOutcomes(k)) <==>
            PlainCall(a) && ArgumentsSize(a) <= k.tool.maxArgumentsBytes.n && SensitivePaths(a.request, lib) == [] && findings == []
  {
    var outcomes := ContentOutcomes(k);
    NoCriticalFinding(findings);
    SizeFits(ArgumentsSize(a), k.tool.maxArgumentsBytes.n);
    PathsAbsent(SensitivePaths(a.request, lib));
    assert AllTrue(outcomes) <==> outcomes[0] && outcomes[1] && outcomes[2] && outcomes[3] && outcomes[4];
  }

  // ----- what the context shows of the host's facts -----

  ghost predicate Binds(c: Context, e: Envelope, f: HostFacts, lib: Library)
    requires TimesParse(f, lib) && e.sha.Str?
  {
    && c.actorId == Str(f.actorId)
    && c.evaluationTime == Stamp(f.evaluationTime, lib)
    && ReadServer(c.server) == HostServer(e, f)
    && ReadSchemaValidation(c.schemaValidation) == HostSchemaValidation(e, f)
    && c.grants == SortedNames(f.grants)
    && ReadResolution(c.resolution) == HostResolution(e, f)
    && ReadConsent(c.consent) == HostConsent(e, f, lib)
    && c.transaction == HostTransactionTree(e, f)
  }

  lemma {:induction false} ContextBinds(e: Envelope, f: HostFacts, lib: Library)
    requires TimesParse(f, lib) && e.sha.Str?
    ensures Binds(SealContext(DraftContext(e, f, lib), lib), e, f, lib)
  {
    ServerReadsBack(HostServer(e, f));
    SchemaValidationReadsBack(HostSchemaValidation(e, f));
    ResolutionReadsBack(HostResolution(e, f));
    ConsentReadsBack(HostConsent(e, f, lib));
  }

  lemma {:induction false} HeadersExact(k: Case, f: HostFacts)
    requires Newest(k) && k.envelope.toolName.Str? && AllTrue(TransportOutcomes(k))
    ensures AllTrue(HeaderOutcomes(k, HostServer(k.envelope, f)))
  {
    var outcomes, transport := HeaderOutcomes(k, HostServer(k.envelope, f)), TransportOutcomes(k);
    TextEquality(k.envelope.toolName, k.envelope.toolName.s);
    assert transport[1] && transport[2];
    assert outcomes[0] && outcomes[1];
  }

  lemma {:induction false} ServerExact(k: Case, f: HostFacts)
    requires k.envelope.protocolVersion.Str? && k.envelope.toolName.Str?
    requires AllTrue(TransportOutcomes(k))
    ensures ServerPasses(k, HostServer(k.envelope, f)) <==> ServerAdmissible(f, k.tool)
  {
    TextEquality(k.tool.serverId, f.serverId);
    TextEquality(k.tool.serverOrigin, f.serverOrigin);
    TextEquality(k.tool.audience, f.audience);
    TextEquality(k.envelope.protocolVersion, k.envelope.protocolVersion.s);
    if Newest(k) { HeadersExact(k, f); }
    var outcomes := ServerOutcomes(k, HostServer(k.envelope, f));
    assert AllTrue(outcomes) <==> outcomes[0] && outcomes[1] && outcomes[2] && outcomes[3] && outcomes[4];
  }

  lemma {:induction false} SchemaExact(k: Case, f: HostFacts)
    requires k.envelope.inputSchemaSha.Str? && k.envelope.argumentsSha.Str? && SafeToken(Str(f.validatorId))
    ensures AllTrue(SchemaOutcomes(k, HostSchemaValidation(k.envelope, f))) <==> f.schemaStatus == "passed"
  {
    var outcomes := SchemaOutcomes(k, HostSchemaValidation(k.envelope, f));
    TextEquality(k.envelope.inputSchemaSha, k.envelope.inputSchemaSha.s);
    TextEquality(k.envelope.argumentsSha, k.envelope.argumentsSha.s);
    assert AllTrue(outcomes) <==> outcomes[0] && outcomes[1] && outcomes[2] && outcomes[3];
  }

  lemma {:induction false} SortedSetsAgree(xs: seq<string>, ys: seq<string>)
    ensures SortedSet(xs) == SortedSet(ys) <==> forall s :: s in xs <==> s in ys
  {
    if forall s :: s in xs <==> s in ys { SortedSetIgnoresOrder(xs, ys); }
    if SortedSet(xs) == SortedSet(ys) {
      forall s ensures s in xs <==> s in ys { assert s in SortedSet(xs) <==> s in SortedSet(ys); }
    }
  }

  lemma {:induction false} SortedNamesKeep(names: seq<string>)
    ensures forall s :: s in Strings(SortedNames(names)) <==> s in names
  {
    TextsContents(SortedSet(names));
  }

  lemma {:induction false} CapabilitiesExactly(k: Case, f: HostFacts)
    requires k.context.grants == SortedNames(f.grants)
    ensures CapabilitiesMatch(k) <==> CapabilitiesExact(f, k.tool)
  {
    SortedNamesKeep(f.grants);
    SortedSetsAgree(Strings(SortedNames(f.grants)), Strings(k.tool.capabilities));
  }

  lemma {:induction false} ResolutionExact(k: Case, f: HostFacts, bindings: seq<Json>)
    requires k.envelope.resourcesSha.Str? && UniqueSafeStrings(SortedNames(f.scopeIds), false)
    requires TouchesWorkspace(k) <==> BindsWorkspace(bindings)
    ensures ResolutionPasses(k, HostResolution(k.envelope, f)) <==>
            f.resolutionStatus == "passed" && (BindsWorkspace(bindings) ==> f.symlinksResolved)
  {
    TextEquality(k.envelope.resourcesSha, k.envelope.resourcesSha.s);
  }

  lemma {:induction false} ConsentExact(k: Case, f: HostFacts, lib: Library)
    requires TimesParse(f, lib) && ClockAgrees(lib)
    requires k.envelope.sha.Str? && k.envelope.argumentsSha.Str? && k.envelope.resourcesSha.Str?
    requires k.context.actorId == Str(f.actorId) && k.context.evaluationTime == Stamp(f.evaluationTime, lib)
    ensures AllTrue(ConsentOutcomes(k, HostConsent(k.envelope, f, lib), lib)) <==> ConsentAdmissible(f, lib)
  {
    var outcomes := ConsentOutcomes(k, HostConsent(k.envelope, f, lib), lib);
    TextEquality(k.context.actorId, f.actorId);
    TextEquality(k.envelope.sha, k.envelope.sha.s);
    TextEquality(k.envelope.argumentsSha, k.envelope.argumentsSha.s);
    TextEquality(k.envelope.resourcesSha, k.envelope.resourcesSha.s);
    assert AllTrue(outcomes) <==> outcomes[0] && outcomes[1] && outcomes[2] && outcomes[3] && outcomes[4] && outcomes[5];
  }

  lemma {:induction false} PreparedExact(k: Case, t: HostTransaction)
    requires k.envelope.sha.Str? && k.envelope.resourcesSha.Str?
    requires t.envelopeSha == k.envelope.sha && t.resourcesSha == k.envelope.resourcesSha
    ensures AllTrue(PreparedOutcomes(k, t)) <==> t.status == Str("prepared")
    ensures AllTrue(RollbackOutcomes(t)) <==> t.rollbackAvailable == Bool(true) && IsSha(t.rollbackPlan)
  {
    TextEquality(k.envelope.sha, k.envelope.sha.s);
    TextEquality(k.envelope.resourcesSha, k.envelope.resourcesSha.s);
    var prepared, plan := PreparedOutcomes(k, t), RollbackOutcomes(t);
    assert AllTrue(prepared) <==> prepared[0] && prepared[1] && prepared[2];
    assert AllTrue(plan) <==> plan[0] && plan[1];
  }

  lemma {:induction false} TransactionExact(k: Case, f: HostFacts)
    requires k.envelope.sha.Str? && k.envelope.resourcesSha.Str? && TransactionFactsFine(f)
    requires k.context.transaction == HostTransactionTree(k.envelope, f)
    ensures TransactionPasses(k, ReadTransaction(k.context.transaction)) <==> TransactionAdmissible(f, k.tool)
  {
    if f.transactionStatus.Some? {
      var t := HostTransaction(Str(IdFor(TRANSACTION_PREFIX, k.envelope.sha.s)), Str(f.transactionStatus.value), k.envelope.sha,
        k.envelope.resourcesSha, OptionalBool(f.rollbackAvailable), OptionalText(f.rollbackPlan));
      TransactionReadsBack(t);
      PreparedExact(k, t);
    }
  }
}
