/** src/ainir/mcp_tool_call.py: the host-owned context, in which a host binds its
    server, schema check, resource resolution, consent and transaction to one envelope. */
module McpHostContext {
  import opened Text
  import opened JsonTree
  import opened CanonicalJson
  import opened Artifacts
  import opened McpProfile
  import opened McpEnvelope

  const CONTEXT_KEYS := [
    "kind", "version", "host_id", "actor_id", "evaluation_time", "server_binding",
    "schema_validation", "capability_grants", "resource_resolution", "consent", "transaction",
    "production_runtime_ready", "context_sha256", "context_id"]

  const CONTEXT_OWN_KEYS := {"context_id", "context_sha256"}

  const SERVER_KEYS := [
    "server_id", "server_origin", "authorization_audience", "authenticated", "protocol_version",
    "method_header", "name_header"]

  const SCHEMA_VALIDATION_KEYS := ["status", "validator_id", "input_schema_sha256", "arguments_sha256"]

  const RESOLUTION_KEYS := ["status", "resolver_id", "requested_resources_sha256", "scope_ids", "symlinks_resolved"]

  const CONSENT_KEYS := [
    "decision", "actor_id", "envelope_sha256", "arguments_sha256", "requested_resources_sha256",
    "issued_at", "valid_until", "consent_id"]

  const TRANSACTION_KEYS := [
    "transaction_id", "status", "envelope_sha256", "requested_resources_sha256",
    "rollback_available", "rollback_plan_sha256"]

  const CONTEXT_PREFIX := "ainir.mcp.context."
  const CONSENT_PREFIX := "ainir.mcp.consent."
  const TRANSACTION_PREFIX := "ainir.mcp.transaction."

  const STATUSES := ["passed", "failed", "not_checked"]
  const DECISIONS := ["approved", "denied", "not_requested"]
  const TRANSACTION_STATUSES := ["prepared", "refused", "not_ready"]

  // ----- records -----

  datatype Context = Context(
    kind: Json, version: Json, hostId: Json, actorId: Json, evaluationTime: Json, server: Json,
    schemaValidation: Json, grants: Json, resolution: Json, consent: Json, transaction: Json,
    productionReady: Json, sha: Json, id: Json)

  datatype Server = Server(
    serverId: Json, origin: Json, audience: Json, authenticated: Json, protocolVersion: Json,
    methodHeader: Json, nameHeader: Json)

  datatype SchemaValidation = SchemaValidation(status: Json, validatorId: Json, inputSchemaSha: Json, argumentsSha: Json)

  datatype Resolution = Resolution(status: Json, resolverId: Json, resourcesSha: Json, scopeIds: Json, symlinksResolved: Json)

  datatype Consent = Consent(
    decision: Json, actorId: Json, envelopeSha: Json, argumentsSha: Json, resourcesSha: Json,
    issuedAt: Json, validUntil: Json, id: Json)

  datatype HostTransaction = HostTransaction(
    id: Json, status: Json, envelopeSha: Json, resourcesSha: Json, rollbackAvailable: Json, rollbackPlan: Json)

  function ContextValues(c: Context): (r: seq<Json>)
    ensures |r| == 14
  {
    [c.kind, c.version, c.hostId, c.actorId, c.evaluationTime, c.server, c.schemaValidation, c.grants,
     c.resolution, c.consent, c.transaction, c.productionReady, c.sha, c.id]
  }

  function ContextTree(c: Context): Json { Obj(Record(CONTEXT_KEYS, ContextValues(c))) }

  function ReadContext(v: Json): Context {
    var f := Fields(v, CONTEXT_KEYS);
    Context(f[0], f[1], f[2], f[3], f[4], f[5], f[6], f[7], f[8], f[9], f[10], f[11], f[12], f[13])
  }

  function ServerTree(s: Server): Json {
    Obj(Record(SERVER_KEYS, [s.serverId, s.origin, s.audience, s.authenticated, s.protocolVersion, s.methodHeader, s.nameHeader]))
  }

  function ReadServer(v: Json): Server {
    var f := Fields(v, SERVER_KEYS);
    Server(f[0], f[1], f[2], f[3], f[4], f[5], f[6])
  }

  function SchemaValidationTree(s: SchemaValidation): Json {
    Obj(Record(SCHEMA_VALIDATION_KEYS, [s.status, s.validatorId, s.inputSchemaSha, s.argumentsSha]))
  }

  function ReadSchemaValidation(v: Json): SchemaValidation {
    var f := Fields(v, SCHEMA_VALIDATION_KEYS);
    SchemaValidation(f[0], f[1], f[2], f[3])
  }

  function ResolutionTree(r: Resolution): Json {
    Obj(Record(RESOLUTION_KEYS, [r.status, r.resolverId, r.resourcesSha, r.scopeIds, r.symlinksResolved]))
  }

  function ReadResolution(v: Json): Resolution {
    var f := Fields(v, RESOLUTION_KEYS);
    Resolution(f[0], f[1], f[2], f[3], f[4])
  }

  function ConsentValues(c: Consent): (r: seq<Json>)
    ensures |r| == 8
  {
    [c.decision, c.actorId, c.envelopeSha, c.argumentsSha, c.resourcesSha, c.issuedAt, c.validUntil, c.id]
  }

  function ConsentTree(c: Consent): Json { Obj(Record(CONSENT_KEYS, ConsentValues(c))) }

  function ReadConsent(v: Json): Consent {
    var f := Fields(v, CONSENT_KEYS);
    Consent(f[0], f[1], f[2], f[3], f[4], f[5], f[6], f[7])
  }

  function TransactionTree(t: HostTransaction): Json {
    Obj(Record(TRANSACTION_KEYS, [t.id, t.status, t.envelopeSha, t.resourcesSha, t.rollbackAvailable, t.rollbackPlan]))
  }

  function ReadTransaction(v: Json): HostTransaction {
    var f := Fields(v, TRANSACTION_KEYS);
    HostTransaction(f[0], f[1], f[2], f[3], f[4], f[5])
  }

  lemma {:induction false} ContextKeysDiffer()
    ensures DistinctKeys(CONTEXT_KEYS) && DistinctKeys(SERVER_KEYS) && DistinctKeys(SCHEMA_VALIDATION_KEYS)
    ensures DistinctKeys(RESOLUTION_KEYS) && DistinctKeys(CONSENT_KEYS) && DistinctKeys(TRANSACTION_KEYS)
  {
    assert forall i, j | 0 <= i < j < |CONTEXT_KEYS| :: CONTEXT_KEYS[i] != CONTEXT_KEYS[j];
    assert forall i, j | 0 <= i < j < |SERVER_KEYS| :: SERVER_KEYS[i] != SERVER_KEYS[j];
    assert forall i, j | 0 <= i < j < |CONSENT_KEYS| :: CONSENT_KEYS[i] != CONSENT_KEYS[j];
  }

  lemma {:induction false} ContextReadsBack(c: Context)
    ensures ReadContext(ContextTree(c)) == c && OnlyKeys(ContextTree(c), CONTEXT_KEYS)
  {
    ContextKeysDiffer();
    RecordReadsBack(CONTEXT_KEYS, ContextValues(c));
  }

  lemma {:induction false} ServerReadsBack(s: Server)
    ensures ReadServer(ServerTree(s)) == s && OnlyKeys(ServerTree(s), SERVER_KEYS)
  {
    ContextKeysDiffer();
    RecordReadsBack(SERVER_KEYS, [s.serverId, s.origin, s.audience, s.authenticated, s.protocolVersion, s.methodHeader, s.nameHeader]);
  }

  lemma {:induction false} SchemaValidationReadsBack(s: SchemaValidation)
    ensures ReadSchemaValidation(SchemaValidationTree(s)) == s && OnlyKeys(SchemaValidationTree(s), SCHEMA_VALIDATION_KEYS)
  {
    ContextKeysDiffer();
    RecordReadsBack(SCHEMA_VALIDATION_KEYS, [s.status, s.validatorId, s.inputSchemaSha, s.argumentsSha]);
  }

  lemma {:induction false} ResolutionReadsBack(r: Resolution)
    ensures ReadResolution(ResolutionTree(r)) == r && OnlyKeys(ResolutionTree(r), RESOLUTION_KEYS)
  {
    ContextKeysDiffer();
    RecordReadsBack(RESOLUTION_KEYS, [r.status, r.resolverId, r.resourcesSha, r.scopeIds, r.symlinksResolved]);
  }

  lemma {:induction false} ConsentReadsBack(c: Consent)
    ensures ReadConsent(ConsentTree(c)) == c && OnlyKeys(ConsentTree(c), CONSENT_KEYS)
  {
    ContextKeysDiffer();
    RecordReadsBack(CONSENT_KEYS, ConsentValues(c));
  }

  lemma {:induction false} TransactionReadsBack(t: HostTransaction)
    ensures ReadTransaction(TransactionTree(t)) == t && OnlyKeys(TransactionTree(t), TRANSACTION_KEYS)
  {
    ContextKeysDiffer();
    RecordReadsBack(TRANSACTION_KEYS, [t.id, t.status, t.envelopeSha, t.resourcesSha, t.rollbackAvailable, t.rollbackPlan]);
  }

  // ----- validation -----

  predicate ServerFine(s: Server) {
    && SafeToken(s.serverId) && SafeToken(s.origin) && SafeToken(s.audience)
    && s.authenticated.Bool?
    && OneOf(s.protocolVersion, PROTOCOL_VERSIONS)
    && StringOrNull(s.methodHeader) && StringOrNull(s.nameHeader)
  }

  predicate SchemaValidationFine(s: SchemaValidation) {
    OneOf(s.status, STATUSES) && SafeToken(s.validatorId) && IsSha(s.inputSchemaSha) && IsSha(s.argumentsSha)
  }

  predicate ResolutionFine(r: Resolution) {
    && OneOf(r.status, STATUSES)
    && SafeToken(r.resolverId)
    && IsSha(r.resourcesSha)
    && UniqueSafeStrings(r.scopeIds, false)
    && r.symlinksResolved.Bool?
  }

  predicate ConsentFine(c: Consent, digest: string, lib: Library) {
    && OneOf(c.decision, DECISIONS)
    && SafeToken(c.actorId)
    && IsSha(c.envelopeSha) && IsSha(c.argumentsSha) && IsSha(c.resourcesSha)
    && Instant(c.issuedAt, lib).Some? && Instant(c.validUntil, lib).Some?
    && c.id == Str(IdFor(CONSENT_PREFIX, digest))
  }

  predicate TransactionFine(t: HostTransaction) {
    && IsSha(t.envelopeSha) && IsSha(t.resourcesSha)
    && t.id == Str(IdFor(TRANSACTION_PREFIX, t.envelopeSha.s))
    && OneOf(t.status, TRANSACTION_STATUSES)
    && t.rollbackAvailable.Bool?
    && ShaOrNull(t.rollbackPlan)
  }

  predicate ServerPart(v: Json) { OnlyKeys(v, SERVER_KEYS) && ServerFine(ReadServer(v)) }

  predicate SchemaPart(v: Json) { OnlyKeys(v, SCHEMA_VALIDATION_KEYS) && SchemaValidationFine(ReadSchemaValidation(v)) }

  predicate ResolutionPart(v: Json) { OnlyKeys(v, RESOLUTION_KEYS) && ResolutionFine(ReadResolution(v)) }

  predicate ConsentPart(v: Json, lib: Library) {
    OnlyKeys(v, CONSENT_KEYS) && ConsentFine(ReadConsent(v), ProjectionDigest(v, {"consent_id"}, lib), lib)
  }

  predicate TransactionPart(v: Json) {
    v.Null? || (OnlyKeys(v, TRANSACTION_KEYS) && TransactionFine(ReadTransaction(v)))
  }

  predicate ContextFieldsFine(c: Context, lib: Library) {
    && c.kind == Str("AiNIRMCPHostContext")
    && c.version == Str("ainir.mcp-host-context.v1")
    && SafeToken(c.hostId) && SafeToken(c.actorId)
    && Instant(c.evaluationTime, lib).Some?
    && ServerPart(c.server)
    && SchemaPart(c.schemaValidation)
    && UniqueSafeStrings(c.grants, true)
    && ResolutionPart(c.resolution)
    && ConsentPart(c.consent, lib)
    && TransactionPart(c.transaction)
    && c.productionReady == Bool(false)
  }

  predicate ContextSealFine(c: Context, digest: string) {
    IsSha(c.sha) && c.sha == Str(digest) && c.id == Str(IdFor(CONTEXT_PREFIX, digest))
  }

  function ContextDigest(v: Json, lib: Library): string
    requires v.Obj?
  {
    ProjectionDigest(v, CONTEXT_OWN_KEYS, lib)
  }

  predicate ValidContext(v: Json, lib: Library) {
    && OnlyKeys(v, CONTEXT_KEYS)
    && ContextSealFine(ReadContext(v), ContextDigest(v, lib))
    && ContextFieldsFine(ReadContext(v), lib)
  }

  // ----- building -----

  datatype HostFacts = HostFacts(
    hostId: string, actorId: string, evaluationTime: string,
    serverId: string, serverOrigin: string, audience: string, authenticated: bool,
    validatorId: string, schemaStatus: string, grants: seq<string>,
    scopeIds: seq<string>, resolutionStatus: string, symlinksResolved: bool,
    consentDecision: string, consentIssuedAt: string, consentValidUntil: string,
    transactionStatus: Option<string>, rollbackAvailable: Option<bool>, rollbackPlan: Option<string>)

  datatype ContextResult = ContextReady(context: Context) | InvalidEnvelope | BadTimestamp

  function SortedNames(names: seq<string>): Json { Arr(Texts(SortedSet(names))) }

  /** `normalize_instant` on a timestamp that parses. */
  function Stamp(t: string, lib: Library): Json
    requires lib.instant(t).Some?
  {
    Str(lib.showInstant(lib.instant(t).value))
  }

  predicate TimesParse(facts: HostFacts, lib: Library) {
    && lib.instant(facts.consentIssuedAt).Some?
    && lib.instant(facts.consentValidUntil).Some?
    && lib.instant(facts.evaluationTime).Some?
  }

  /** The consent names the envelope, its arguments and its resources by hash; its id is
      the hash of the seven other fields. */
  function SealConsent(c: Consent, lib: Library): Consent {
    var digest := Digest(Obj(Record(CONSENT_KEYS[..7], ConsentValues(c)[..7])), lib);
    c.(id := Str(IdFor(CONSENT_PREFIX, digest)))
  }

  function HostConsent(e: Envelope, facts: HostFacts, lib: Library): Consent
    requires TimesParse(facts, lib)
  {
    SealConsent(
      Consent(Str(facts.consentDecision), Str(facts.actorId), e.sha, e.argumentsSha, e.resourcesSha,
              Stamp(facts.consentIssuedAt, lib), Stamp(facts.consentValidUntil, lib), Null), lib)
  }

  function OptionalText(s: Option<string>): Json {
    match s
    case Some(text) => Str(text)
    case None => Null
  }

  function OptionalBool(b: Option<bool>): Json {
    match b
    case Some(value) => Bool(value)
    case None => Null
  }

  function HostTransactionTree(e: Envelope, facts: HostFacts): Json
    requires e.sha.Str?
  {
    match facts.transactionStatus
    case None => Null
    case Some(status) =>
      TransactionTree(HostTransaction(Str(IdFor(TRANSACTION_PREFIX, e.sha.s)), Str(status), e.sha, e.resourcesSha,
                                      OptionalBool(facts.rollbackAvailable), OptionalText(facts.rollbackPlan)))
  }

  function HostServer(e: Envelope, facts: HostFacts): Server {
    Server(Str(facts.serverId), Str(facts.serverOrigin), Str(facts.audience), Bool(facts.authenticated),
           e.protocolVersion, Get(e.transport, "method_header"), Get(e.transport, "name_header"))
  }

  function HostSchemaValidation(e: Envelope, facts: HostFacts): SchemaValidation {
    SchemaValidation(Str(facts.schemaStatus), Str(facts.validatorId), e.inputSchemaSha, e.argumentsSha)
  }

  function HostResolution(e: Envelope, facts: HostFacts): Resolution {
    Resolution(Str(facts.resolutionStatus), Str("host.resource-resolver.v1"), e.resourcesSha,
               SortedNames(facts.scopeIds), Bool(facts.symlinksResolved))
  }

  function SealContext(c: Context, lib: Library): Context {
    var digest := ContextDigest(ContextTree(c), lib);
    c.(sha := Str(digest), id := Str(IdFor(CONTEXT_PREFIX, digest)))
  }

  function DraftContext(e: Envelope, facts: HostFacts, lib: Library): Context
    requires TimesParse(facts, lib) && e.sha.Str?
  {
    Context(Str("AiNIRMCPHostContext"), Str("ainir.mcp-host-context.v1"), Str(facts.hostId), Str(facts.actorId),
            Stamp(facts.evaluationTime, lib), ServerTree(HostServer(e, facts)),
            SchemaValidationTree(HostSchemaValidation(e, facts)), SortedNames(facts.grants),
            ResolutionTree(HostResolution(e, facts)), ConsentTree(HostConsent(e, facts, lib)),
            HostTransactionTree(e, facts), Bool(false), Null, Null)
  }

  /** What `build_mcp_host_context` makes of an envelope and the host's own facts. */
  function ContextOf(envelope: Json, facts: HostFacts, lib: Library): ContextResult {
    if !ValidEnvelope(envelope, lib) then InvalidEnvelope
    else if !TimesParse(facts, lib) then BadTimestamp
    else ContextReady(SealContext(DraftContext(ReadEnvelope(envelope), facts, lib), lib))
  }

  // ----- a built context is valid exactly when the facts are well formed -----

  predicate TransactionFactsFine(facts: HostFacts) {
    facts.transactionStatus.Some? ==>
      && facts.transactionStatus.value in TRANSACTION_STATUSES
      && facts.rollbackAvailable.Some?
      && (facts.rollbackPlan.Some? ==> IsSha(Str(facts.rollbackPlan.value)))
  }

  predicate FactsFine(facts: HostFacts) {
    && SafeToken(Str(facts.hostId)) && SafeToken(Str(facts.actorId))
    && SafeToken(Str(facts.serverId)) && SafeToken(Str(facts.serverOrigin)) && SafeToken(Str(facts.audience))
    && SafeToken(Str(facts.validatorId)) && facts.schemaStatus in STATUSES
    && (forall s | s in facts.grants :: SafeToken(Str(s)))
    && facts.scopeIds != [] && (forall s | s in facts.scopeIds :: SafeToken(Str(s)))
    && facts.resolutionStatus in STATUSES
    && facts.consentDecision in DECISIONS
    && TransactionFactsFine(facts)
  }

  lemma {:induction false} SortedNamesFine(names: seq<string>, allowEmpty: bool)
    ensures UniqueSafeStrings(SortedNames(names), allowEmpty) <==>
            (allowEmpty || names != []) && forall s | s in names :: SafeToken(Str(s))
  {
    SortedTextsAreUnique(names);
    TextsContents(SortedSet(names));
    assert names != [] ==> names[0] in SortedSet(names);
    assert SortedSet(names) != [] ==> SortedSet(names)[0] in names;
    if forall s | s in names :: SafeToken(Str(s)) {
      forall x | x in Texts(SortedSet(names)) ensures SafeToken(x) {
        assert x.s in SortedSet(names);
      }
    } else {
      var s :| s in names && !SafeToken(Str(s));
      assert Str(s) in Texts(SortedSet(names));
    }
  }

  /** Hashing the consent before its id is added is hashing it without its id. */
  lemma {:induction false} SealedConsentDigest(c: Consent, lib: Library)
    requires forall i | 0 <= i < 7 :: ConsentValues(c)[i].Str?
    ensures var sealed := SealConsent(c, lib);
            sealed.id == Str(IdFor(CONSENT_PREFIX, ProjectionDigest(ConsentTree(sealed), {"consent_id"}, lib)))
  {
    ContextKeysDiffer();
    var sealed := SealConsent(c, lib);
    var keys, values := CONSENT_KEYS[..7], ConsentValues(sealed)[..7];
    assert values == ConsentValues(c)[..7];
    assert ConsentTree(sealed).members == Record(keys, values) + [Member("consent_id", sealed.id)];
    forall x | x in values ensures Norm(x) == x {
      var i :| 0 <= i < 7 && values[i] == x;
    }
    assert "consent_id" == CONSENT_KEYS[7];
    ProjectLast(keys, values, Member("consent_id", sealed.id));
  }

  lemma {:induction false} HostConsentPart(e: Envelope, facts: HostFacts, lib: Library)
    requires TimesParse(facts, lib) && ClockAgrees(lib)
    requires IsSha(e.sha) && IsSha(e.argumentsSha) && IsSha(e.resourcesSha)
    ensures ConsentPart(ConsentTree(HostConsent(e, facts, lib)), lib) <==>
            facts.consentDecision in DECISIONS && SafeToken(Str(facts.actorId))
  {
    var draft := Consent(Str(facts.consentDecision), Str(facts.actorId), e.sha, e.argumentsSha, e.resourcesSha,
                         Stamp(facts.consentIssuedAt, lib), Stamp(facts.consentValidUntil, lib), Null);
    SealedConsentDigest(draft, lib);
    ConsentReadsBack(HostConsent(e, facts, lib));
  }

  lemma {:induction false} HostTransactionPart(e: Envelope, facts: HostFacts)
    requires IsSha(e.sha) && IsSha(e.resourcesSha)
    ensures TransactionPart(HostTransactionTree(e, facts)) <==> TransactionFactsFine(facts)
  {
    if facts.transactionStatus.Some? {
      TransactionReadsBack(HostTransaction(Str(IdFor(TRANSACTION_PREFIX, e.sha.s)), Str(facts.transactionStatus.value),
        e.sha, e.resourcesSha, OptionalBool(facts.rollbackAvailable), OptionalText(facts.rollbackPlan)));
    }
  }

  lemma {:induction false} HostServerPart(e: Envelope, facts: HostFacts)
    requires OneOf(e.protocolVersion, PROTOCOL_VERSIONS) && TransportFine(e.transport)
    ensures ServerPart(ServerTree(HostServer(e, facts))) <==>
            SafeToken(Str(facts.serverId)) && SafeToken(Str(facts.serverOrigin)) && SafeToken(Str(facts.audience))
  {
    ServerReadsBack(HostServer(e, facts));
  }

  lemma {:induction false} HostSchemaPart(e: Envelope, facts: HostFacts)
    requires IsSha(e.inputSchemaSha) && IsSha(e.argumentsSha)
    ensures SchemaPart(SchemaValidationTree(HostSchemaValidation(e, facts))) <==>
            SafeToken(Str(facts.validatorId)) && facts.schemaStatus in STATUSES
  {
    SchemaValidationReadsBack(HostSchemaValidation(e, facts));
  }

  lemma {:induction false} ResolverIsSafe()
    ensures SafeToken(Str("host.resource-resolver.v1"))
  {
  }

  lemma {:induction false} ResolutionShape(r: Resolution)
    requires SafeToken(r.resolverId) && IsSha(r.resourcesSha) && r.symlinksResolved.Bool?
    ensures ResolutionPart(ResolutionTree(r)) <==> OneOf(r.status, STATUSES) && UniqueSafeStrings(r.scopeIds, false)
  {
    ResolutionReadsBack(r);
  }

  lemma {:induction false} HostResolutionPart(e: Envelope, facts: HostFacts)
    requires IsSha(e.resourcesSha)
    ensures ResolutionPart(ResolutionTree(HostResolution(e, facts))) <==>
            facts.resolutionStatus in STATUSES && facts.scopeIds != [] && forall s | s in facts.scopeIds :: SafeToken(Str(s))
  {
    ResolverIsSafe();
    ResolutionShape(HostResolution(e, facts));
    SortedNamesFine(facts.scopeIds, false);
  }

  lemma {:induction false} SealKeepsContextDigest(c: Context, lib: Library)
    ensures ContextDigest(ContextTree(SealContext(c, lib)), lib) == ContextDigest(ContextTree(c), lib)
  {
    var v, w := ContextValues(c), ContextValues(SealContext(c, lib));
    assert forall i | 0 <= i < 12 :: v[i] == w[i];
    ProjectIgnoresDropped(CONTEXT_KEYS, v, w, CONTEXT_OWN_KEYS);
  }

  lemma {:induction false} SealedContextValid(c: Context, lib: Library)
    requires WellBehaved(lib)
    ensures ValidContext(ContextTree(SealContext(c, lib)), lib) <==> ContextFieldsFine(c, lib)
  {
    SealKeepsContextDigest(c, lib);
    ContextReadsBack(SealContext(c, lib));
  }

  /** What a context takes over from its envelope. */
  ghost predicate Bindable(e: Envelope) {
    && IsSha(e.sha) && IsSha(e.inputSchemaSha) && IsSha(e.argumentsSha) && IsSha(e.resourcesSha)
    && OneOf(e.protocolVersion, PROTOCOL_VERSIONS) && TransportFine(e.transport)
  }

  lemma {:induction false} DraftContextFine(e: Envelope, facts: HostFacts, lib: Library)
    requires Bindable(e) && TimesParse(facts, lib) && ClockAgrees(lib)
    ensures ContextFieldsFine(DraftContext(e, facts, lib), lib) <==> FactsFine(facts)
  {
    HostConsentPart(e, facts, lib);
    HostTransactionPart(e, facts);
    HostServerPart(e, facts);
    HostSchemaPart(e, facts);
    HostResolutionPart(e, facts);
    SortedNamesFine(facts.grants, true);
  }

  lemma {:induction false} ValidIsBindable(envelope: Json, lib: Library)
    requires ValidEnvelope(envelope, lib)
    ensures Bindable(ReadEnvelope(envelope))
  {
  }

  /** A context built for a valid envelope passes its own validator exactly when the
      host's own facts are well formed. */
  lemma {:induction false} BuiltContextValidExactly(envelope: Json, facts: HostFacts, lib: Library, c: Context)
    requires WellBehaved(lib) && ClockAgrees(lib)
    requires ContextOf(envelope, facts, lib) == ContextReady(c)
    ensures ValidContext(ContextTree(c), lib) <==> FactsFine(facts)
  {
    ValidIsBindable(envelope, lib);
    var e := ReadEnvelope(envelope);
    DraftContextFine(e, facts, lib);
    SealedContextValid(DraftContext(e, facts, lib), lib);
  }
}
