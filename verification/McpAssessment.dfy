/** src/ainir/mcp_tool_call.py: the assessment of an envelope and a host context under a
    reviewed profile. */
module McpAssessment {
  import opened Text
  import opened JsonTree
  import opened JsonSchema
  import opened Artifacts
  import opened McpProfile
  import opened McpEnvelope
  import opened McpHostContext

  // ----- named checks -----

  /** Checks are numbered in the order in which an assessment makes them. */
  datatype Check = Check(number: nat, passed: bool)

  const ENVELOPE_CHECK_NAMES := [
    "profile.valid", "envelope.valid", "context.valid", "profile.tool_known", "profile.binding",
    "tool.descriptor_sha256", "tool.input_schema_sha256", "tool.output_schema_sha256", "protocol.supported",
    "transport.method_header", "transport.name_header", "task.not_requested", "mrtr.not_present",
    "arguments.size", "arguments.sensitive_paths", "resources.normalized",
    "annotations.read_only_not_understated", "annotations.destructive_not_understated",
    "annotations.open_world_not_understated", "annotations.idempotence_not_overstated"]

  const HOST_CHECK_NAMES := [
    "host.server.authenticated", "host.server.id", "host.server.origin", "host.authorization.audience",
    "host.protocol.binding", "host.method_header.binding", "host.name_header.binding",
    "host.schema_validation.status", "host.schema_validation.validator",
    "host.schema_validation.schema_hash", "host.schema_validation.arguments_hash",
    "host.capabilities.exact", "host.resource_resolution.status", "host.resource_resolution.hash",
    "host.resource_resolution.symlinks", "host.resource_resolution.scope_ids",
    "host.consent.decision", "host.consent.actor", "host.consent.envelope", "host.consent.arguments",
    "host.consent.resources", "host.consent.validity",
    "host.transaction.present", "host.transaction.status", "host.transaction.envelope",
    "host.transaction.resources", "host.transaction.rollback_available",
    "host.transaction.rollback_plan", "host.transaction.not_required"]

  // The number of the first check of each group.
  const INPUT_CHECKS := 0
  const HASH_CHECKS := 5
  const TRANSPORT_CHECKS := 8
  const CONTENT_CHECKS := 11
  const READ_ONLY_CHECK := 16
  const DESTRUCTIVE_CHECK := 17
  const OPEN_WORLD_CHECK := 18
  const IDEMPOTENT_CHECK := 19
  const SERVER_CHECKS := 20
  const HEADER_CHECKS := 25
  const SCHEMA_CHECKS := 27
  const CAPABILITY_CHECK := 31
  const RESOLUTION_CHECKS := 32
  const SYMLINK_CHECK := 34
  const SCOPE_CHECK := 35
  const CONSENT_CHECKS := 36
  const TRANSACTION_CHECK := 42
  const PREPARED_CHECKS := 43
  const ROLLBACK_CHECKS := 46
  const NO_TRANSACTION_CHECK := 48
  const ALL_CHECKS := 49

  function NameAt(number: nat): string {
    if number < 20 then ENVELOPE_CHECK_NAMES[number]
    else if number < ALL_CHECKS then HOST_CHECK_NAMES[number - 20]
    else ""
  }

  ghost predicate AllPassed(checks: seq<Check>) { forall c | c in checks :: c.passed }

  // ----- the checks, group by group -----

  const NEWEST_PROTOCOL := "2026-07-28"

  const OPEN_WORLD_EFFECTS := [
    "effect.network.outbound", "effect.financial.charge", "effect.account.modify", "effect.credentials.access"]

  predicate CriticalFinding(f: Json) { f.Obj? && Get(f, "severity") == Str("critical") }

  predicate FitsSize(size: Json, limit: Json) {
    IsInt(limit) && IsInt(size) && NumericValue(size) <= NumericValue(limit)
  }

  /** What the assessment reads: the validity of its inputs, and their records. */
  datatype Case = Case(
    profileValid: bool, envelopeValid: bool, contextValid: bool, toolKnown: bool,
    profileId: Json, versions: seq<Json>, tool: Tool, envelope: Envelope, context: Context)

  predicate Newest(k: Case) { k.envelope.protocolVersion == Str(NEWEST_PROTOCOL) }

  /** Consecutive checks with their outcomes. */
  function Tick(first: nat, outcomes: seq<bool>): (checks: seq<Check>)
    ensures |checks| == |outcomes|
    ensures forall i | 0 <= i < |outcomes| :: checks[i] == Check(first + i, outcomes[i])
  {
    seq(|outcomes|, i requires 0 <= i < |outcomes| => Check(first + i, outcomes[i]))
  }

  /** Checks that are made only under a condition. */
  function TickIf(condition: bool, first: nat, outcomes: seq<bool>): seq<Check> {
    if condition then Tick(first, outcomes) else []
  }

  function InputOutcomes(k: Case): (r: seq<bool>)
    ensures |r| == 5
  {
    [k.profileValid, k.envelopeValid, k.contextValid, k.toolKnown, PyEq(k.envelope.profileId, k.profileId)]
  }

  function HashOutcomes(k: Case): (r: seq<bool>)
    ensures |r| == 3
  {
    var e, t := k.envelope, k.tool;
    [PyEq(e.descriptorSha, t.descriptorSha), PyEq(e.inputSchemaSha, t.inputSchemaSha), PyEq(e.outputSchemaSha, t.outputSchemaSha)]
  }

  function TransportOutcomes(k: Case): (r: seq<bool>)
    ensures |r| == 3
  {
    var e := k.envelope;
    var header, name := Get(e.transport, "method_header"), Get(e.transport, "name_header");
    [ In(e.protocolVersion, k.versions),
      header == Str("tools/call") || (!Newest(k) && header.Null?),
      PyEq(name, e.toolName) || (!Newest(k) && name.Null?) ]
  }

  function ContentOutcomes(k: Case): (r: seq<bool>)
    ensures |r| == 5
  {
    var e, t := k.envelope, k.tool;
    [ e.taskRequested == Bool(false),
      e.mrtrPresent == Bool(false),
      FitsSize(e.argumentsSize, t.maxArgumentsBytes),
      !Truthy(e.sensitivePaths),
      forall f | f in Listed(e.findings) :: !CriticalFinding(f) ]
  }

  function EnvelopeRow(inputs: seq<bool>, hashes: seq<bool>, transport: seq<bool>, content: seq<bool>): seq<Check>
    requires |inputs| == 5 && |hashes| == 3 && |transport| == 3 && |content| == 5
  {
    Tick(INPUT_CHECKS, inputs) + Tick(HASH_CHECKS, hashes) + Tick(TRANSPORT_CHECKS, transport) + Tick(CONTENT_CHECKS, content)
  }

  function EnvelopeChecks(k: Case): seq<Check> {
    EnvelopeRow(InputOutcomes(k), HashOutcomes(k), TransportOutcomes(k), ContentOutcomes(k))
  }

  function Hint(k: Case, name: string): Json { Get(Get(k.envelope.metadata, "annotations"), name) }

  predicate OpenWorld(t: Tool) { exists s | s in OPEN_WORLD_EFFECTS :: s in Strings(t.effects) }

  datatype Guarded = Guarded(made: bool, passed: bool)

  /** Each hint of a tool: whether it is given, and whether the contract bears it out. */
  datatype Hints = Hints(readOnly: Guarded, destructive: Guarded, openWorld: Guarded, idempotent: Guarded)

  function HintsOf(k: Case): Hints {
    Hints(
      Guarded(Hint(k, "readOnlyHint") == Bool(true), !Truthy(k.tool.mutating)),
      Guarded(Hint(k, "destructiveHint") == Bool(false), !Truthy(k.tool.destructive)),
      Guarded(Hint(k, "openWorldHint") == Bool(false), !OpenWorld(k.tool)),
      Guarded(Hint(k, "idempotentHint") == Bool(true), k.tool.idempotent == Bool(true)))
  }

  function AnnotationRow(h: Hints): seq<Check> {
    TickIf(h.readOnly.made, READ_ONLY_CHECK, [h.readOnly.passed])
    + TickIf(h.destructive.made, DESTRUCTIVE_CHECK, [h.destructive.passed])
    + TickIf(h.openWorld.made, OPEN_WORLD_CHECK, [h.openWorld.passed])
    + TickIf(h.idempotent.made, IDEMPOTENT_CHECK, [h.idempotent.passed])
  }

  function AnnotationChecks(k: Case): seq<Check> { AnnotationRow(HintsOf(k)) }

  function ServerOutcomes(k: Case, s: Server): (r: seq<bool>)
    ensures |r| == 5
  {
    [ s.authenticated == Bool(true), PyEq(s.serverId, k.tool.serverId), PyEq(s.origin, k.tool.serverOrigin),
      PyEq(s.audience, k.tool.audience), PyEq(s.protocolVersion, k.envelope.protocolVersion) ]
  }

  function HeaderOutcomes(k: Case, s: Server): (r: seq<bool>)
    ensures |r| == 2
  {
    [ s.methodHeader == Str("tools/call"), PyEq(s.nameHeader, k.envelope.toolName) ]
  }

  function ServerRow(server: seq<bool>, newest: bool, headers: seq<bool>): seq<Check>
    requires |server| == 5 && |headers| == 2
  {
    Tick(SERVER_CHECKS, server) + TickIf(newest, HEADER_CHECKS, headers)
  }

  function ServerChecks(k: Case, s: Server): seq<Check> {
    ServerRow(ServerOutcomes(k, s), Newest(k), HeaderOutcomes(k, s))
  }

  function SchemaOutcomes(k: Case, s: SchemaValidation): (r: seq<bool>)
    ensures |r| == 4
  {
    [ s.status == Str("passed"), SafeToken(s.validatorId), PyEq(s.inputSchemaSha, k.envelope.inputSchemaSha),
      PyEq(s.argumentsSha, k.envelope.argumentsSha) ]
  }

  function SchemaChecks(k: Case, s: SchemaValidation): seq<Check> { Tick(SCHEMA_CHECKS, SchemaOutcomes(k, s)) }

  predicate CapabilitiesMatch(k: Case) {
    SortedSet(Strings(k.context.grants)) == SortedSet(Strings(k.tool.capabilities))
  }

  function CapabilityChecks(k: Case): seq<Check> { Tick(CAPABILITY_CHECK, [CapabilitiesMatch(k)]) }

  predicate TouchesWorkspace(k: Case) {
    exists r | r in Listed(k.envelope.resources) :: r.Obj? && Get(r, "resource_type") == Str("workspace_path")
  }

  function ResolutionRow(resolved: seq<bool>, symlinks: Guarded, scopes: bool): seq<Check>
    requires |resolved| == 2
  {
    Tick(RESOLUTION_CHECKS, resolved)
    + TickIf(symlinks.made, SYMLINK_CHECK, [symlinks.passed])
    + Tick(SCOPE_CHECK, [scopes])
  }

  function ResolutionChecks(k: Case, r: Resolution): seq<Check> {
    ResolutionRow([r.status == Str("passed"), PyEq(r.resourcesSha, k.envelope.resourcesSha)],
                  Guarded(TouchesWorkspace(k), r.symlinksResolved == Bool(true)),
                  UniqueSafeStrings(r.scopeIds, false))
  }

  predicate InWindow(issued: Option<int>, now: Option<int>, until: Option<int>) {
    issued.Some? && now.Some? && until.Some? && issued.value <= now.value < until.value
  }

  function ConsentOutcomes(k: Case, c: Consent, lib: Library): (r: seq<bool>)
    ensures |r| == 6
  {
    [ c.decision == Str("approved"),
      PyEq(c.actorId, k.context.actorId),
      PyEq(c.envelopeSha, k.envelope.sha),
      PyEq(c.argumentsSha, k.envelope.argumentsSha),
      PyEq(c.resourcesSha, k.envelope.resourcesSha),
      InWindow(Instant(c.issuedAt, lib), Instant(k.context.evaluationTime, lib), Instant(c.validUntil, lib)) ]
  }

  function ConsentChecks(k: Case, c: Consent, lib: Library): seq<Check> {
    Tick(CONSENT_CHECKS, ConsentOutcomes(k, c, lib))
  }

  predicate NeedsTransaction(k: Case) { k.tool.transactionRequired == Bool(true) }

  predicate NeedsRollback(k: Case) { k.tool.rollbackRequired == Bool(true) }

  function PreparedOutcomes(k: Case, t: HostTransaction): (r: seq<bool>)
    ensures |r| == 3
  {
    [ t.status == Str("prepared"), PyEq(t.envelopeSha, k.envelope.sha), PyEq(t.resourcesSha, k.envelope.resourcesSha) ]
  }

  function RollbackOutcomes(t: HostTransaction): (r: seq<bool>)
    ensures |r| == 2
  {
    [ t.rollbackAvailable == Bool(true), IsSha(t.rollbackPlan) ]
  }

  function TransactionRow(needed: bool, present: bool, rollback: bool, prepared: seq<bool>, plan: seq<bool>): seq<Check>
    requires |prepared| == 3 && |plan| == 2
  {
    TickIf(needed, TRANSACTION_CHECK, [present])
    + TickIf(needed && present, PREPARED_CHECKS, prepared)
    + TickIf(needed && present && rollback, ROLLBACK_CHECKS, plan)
    + TickIf(!needed, NO_TRANSACTION_CHECK, [!present])
  }

  function TransactionChecks(k: Case, t: HostTransaction): seq<Check> {
    TransactionRow(NeedsTransaction(k), k.context.transaction.Obj?, NeedsRollback(k), PreparedOutcomes(k, t), RollbackOutcomes(t))
  }

  function HostChecks(k: Case, lib: Library): seq<Check> {
    ServerChecks(k, ReadServer(k.context.server))
    + SchemaChecks(k, ReadSchemaValidation(k.context.schemaValidation))
    + CapabilityChecks(k)
    + ResolutionChecks(k, ReadResolution(k.context.resolution))
    + ConsentChecks(k, ReadConsent(k.context.consent), lib)
    + TransactionChecks(k, ReadTransaction(k.context.transaction))
  }

  function Checks(k: Case, lib: Library): seq<Check> {
    EnvelopeChecks(k) + AnnotationChecks(k) + HostChecks(k, lib)
  }

  // ----- the verdict -----

  datatype Status = Passed | ReviewRequired | Refused | Invalid

  function StatusText(s: Status): string {
    match s
    case Passed => "passed"
    case ReviewRequired => "review_required"
    case Refused => "refused"
    case Invalid => "invalid"
  }

  predicate AnyFailed(checks: seq<Check>) { exists c | c in checks :: !c.passed }

  function Verdict(k: Case, checks: seq<Check>): Status {
    if AnyFailed(checks) then (if k.profileValid && k.envelopeValid && k.contextValid then Status.Refused else Status.Invalid)
    else if k.tool.decisionMode == Str("review_required") then Status.ReviewRequired
    else Status.Passed
  }

  /** Python's `str(v)` where it can name a tool. */
  function NameOf(v: Json): Option<string> {
    match v
    case Null => Some("None")
    case Bool(b) => Some(if b then "True" else "False")
    case Int(n) => Some(IntText(n))
    case Float(_, text) => Some(text)
    case Str(s) => Some(s)
    case _ => None
  }

  function ToolFor(p: Profile, name: Json): Option<Json> {
    var table := ToolMap(ToolList(p));
    match NameOf(name)
    case Some(s) => if s in table then Some(table[s]) else None
    case None => None
  }

  function CaseFor(p: Profile, envelope: Json, context: Json, lib: Library): Case {
    var e := ReadEnvelope(envelope);
    var tool := ToolFor(p, e.toolName);
    Case(ValidProfile(p, lib), ValidEnvelope(envelope, lib), ValidContext(context, lib), tool.Some?,
         Get(p.data, "profile_id"), Listed(Get(p.data, "protocol_versions")),
         ReadTool(if tool.Some? then tool.value else Obj([])), e, ReadContext(context))
  }

  // ----- the assessment document -----

  const ASSESSMENT_KEYS := [
    "kind", "version", "overall_status", "host_handoff_allowed", "execution_performed", "profile_id",
    "profile_sha256", "envelope_id", "envelope_sha256", "context_id", "context_sha256", "tool_name",
    "risk_class", "effects", "capabilities", "checks", "required_host_actions",
    "production_runtime_ready", "assessment_sha256", "assessment_id"]

  const ASSESSMENT_OWN_KEYS := {"assessment_id", "assessment_sha256"}

  const CHECK_KEYS := ["check", "status", "expected", "actual"]

  const ASSESSMENT_PREFIX := "ainir.mcp.assessment."

  const PASSED_ACTIONS := [
    "execute_outside_ainir_core", "preserve_assessment_for_audit",
    "resolve_resource_identity_and_scope_at_execution", "revalidate_authorization_at_execution"]

  const REVIEW_ACTIONS := [
    "do_not_execute", "obtain_final_destructive_action_confirmation", "preserve_assessment_for_audit",
    "reassess_after_final_confirmation"]

  const REFUSED_ACTIONS := ["do_not_execute", "preserve_assessment_for_audit", "review_failed_checks"]

  datatype Assessment = Assessment(
    kind: Json, version: Json, status: Json, handoffAllowed: Json, executionPerformed: Json,
    profileId: Json, profileSha: Json, envelopeId: Json, envelopeSha: Json, contextId: Json,
    contextSha: Json, toolName: Json, riskClass: Json, effects: Json, capabilities: Json,
    checks: Json, actions: Json, productionReady: Json, sha: Json, id: Json)

  function AssessmentValues(a: Assessment): (r: seq<Json>)
    ensures |r| == 20
  {
    [a.kind, a.version, a.status, a.handoffAllowed, a.executionPerformed, a.profileId, a.profileSha,
     a.envelopeId, a.envelopeSha, a.contextId, a.contextSha, a.toolName, a.riskClass, a.effects,
     a.capabilities, a.checks, a.actions, a.productionReady, a.sha, a.id]
  }

  function AssessmentTree(a: Assessment): Json { Obj(Record(ASSESSMENT_KEYS, AssessmentValues(a))) }

  function ReadAssessment(v: Json): Assessment {
    var f := Fields(v, ASSESSMENT_KEYS);
    Assessment(f[0], f[1], f[2], f[3], f[4], f[5], f[6], f[7], f[8], f[9],
               f[10], f[11], f[12], f[13], f[14], f[15], f[16], f[17], f[18], f[19])
  }

  lemma {:induction false} AssessmentKeysDiffer()
    ensures DistinctKeys(ASSESSMENT_KEYS) && DistinctKeys(CHECK_KEYS)
  {
    assert forall i, j | 0 <= i < j < |ASSESSMENT_KEYS| :: ASSESSMENT_KEYS[i] != ASSESSMENT_KEYS[j];
  }

  lemma {:induction false} AssessmentReadsBack(a: Assessment)
    ensures ReadAssessment(AssessmentTree(a)) == a && OnlyKeys(AssessmentTree(a), ASSESSMENT_KEYS)
  {
    AssessmentKeysDiffer();
    RecordReadsBack(ASSESSMENT_KEYS, AssessmentValues(a));
  }

  /** A check as a document; its two diagnostics are not modelled. */
  function CheckTree(c: Check): Json {
    Obj(Record(CHECK_KEYS, [Str(NameAt(c.number)), Str(if c.passed then "passed" else "failed"), Null, Null]))
  }

  function CheckTrees(checks: seq<Check>): (r: seq<Json>)
    ensures |r| == |checks|
    ensures forall i | 0 <= i < |checks| :: r[i] == CheckTree(checks[i])
  {
    seq(|checks|, i requires 0 <= i < |checks| => CheckTree(checks[i]))
  }

  function Actions(s: Status): seq<string> {
    match s
    case Passed => PASSED_ACTIONS
    case ReviewRequired => REVIEW_ACTIONS
    case _ => REFUSED_ACTIONS
  }

  function AssessmentDigest(v: Json, lib: Library): string
    requires v.Obj?
  {
    ProjectionDigest(v, ASSESSMENT_OWN_KEYS, lib)
  }

  function SealAssessment(a: Assessment, lib: Library): Assessment {
    var digest := AssessmentDigest(AssessmentTree(a), lib);
    a.(sha := Str(digest), id := Str(IdFor(ASSESSMENT_PREFIX, digest)))
  }

  function DraftAssessment(k: Case, profileSha: Json, checks: seq<Check>): Assessment {
    var status := Verdict(k, checks);
    Assessment(
      Str("AiNIRMCPToolCallAssessment"), Str("ainir.mcp-tool-call-assessment.v1"),
      Str(StatusText(status)), Bool(status.Passed?), Bool(false), k.profileId, profileSha,
      k.envelope.id, k.envelope.sha, k.context.id, k.context.sha, k.envelope.toolName,
      k.tool.riskClass, SortedNames(Strings(k.tool.effects)), SortedNames(Strings(k.tool.capabilities)),
      Arr(CheckTrees(checks)), Arr(Texts(Actions(status))), Bool(false), Null, Null)
  }

  function AssessmentOf(p: Profile, envelope: Json, context: Json, lib: Library): Assessment {
    var k := CaseFor(p, envelope, context, lib);
    SealAssessment(DraftAssessment(k, Get(p.data, "profile_sha256"), Checks(k, lib)), lib)
  }

  // ----- its validator -----

  function StatusOf(v: Json): Option<Status> {
    if v == Str("passed") then Some(Status.Passed)
    else if v == Str("review_required") then Some(Status.ReviewRequired)
    else if v == Str("refused") then Some(Status.Refused)
    else if v == Str("invalid") then Some(Status.Invalid)
    else None
  }

  predicate CheckFine(c: Json) {
    OnlyKeys(c, CHECK_KEYS) && NonEmptyText(Get(c, "check")) && OneOf(Get(c, "status"), ["passed", "failed"])
  }

  function CheckIds(checks: seq<Json>): (r: seq<Json>)
    ensures |r| == |checks|
  {
    seq(|checks|, i requires 0 <= i < |checks| => Get(checks[i], "check"))
  }

  predicate CheckListFine(checks: seq<Json>) {
    checks != [] && (forall c | c in checks :: CheckFine(c)) && NoRepeats(CheckIds(checks))
  }

  predicate SomeFailed(checks: seq<Json>) {
    exists c | c in checks :: c.Obj? && Get(c, "status") == Str("failed")
  }

  predicate TermsFine(v: Json, vocabulary: seq<string>, required: bool) {
    UniqueSafeStrings(v, !required) && AllWithin(v, vocabulary)
  }

  predicate AssessmentScalarsFine(a: Assessment)
    requires a.checks.Arr?
  {
    var status := StatusOf(a.status);
    var decided := status.Some? && (status.value.Passed? || status.value.ReviewRequired?);
    && a.kind == Str("AiNIRMCPToolCallAssessment")
    && a.version == Str("ainir.mcp-tool-call-assessment.v1")
    && status.Some?
    && a.executionPerformed == Bool(false)
    && a.productionReady == Bool(false)
    && a.handoffAllowed == Bool(status.value.Passed?)
    && (decided <==> !SomeFailed(a.checks.items))
    && a.actions == Arr(Texts(Actions(status.value)))
    && IsSha(a.profileSha) && IsSha(a.envelopeSha) && IsSha(a.contextSha)
    && a.envelopeId == Str(IdFor(ENVELOPE_PREFIX, a.envelopeSha.s))
    && a.contextId == Str(IdFor(CONTEXT_PREFIX, a.contextSha.s))
    && ProfileId(a.profileId)
    && SafeToolName(a.toolName)
    && (OneOf(a.riskClass, RISK_CLASSES) || (!decided && a.riskClass.Null?))
    && TermsFine(a.effects, EFFECTS, decided)
    && TermsFine(a.capabilities, CAPABILITIES, decided)
  }

  predicate AssessmentFieldsFine(a: Assessment) {
    a.checks.Arr? && CheckListFine(a.checks.items) && AssessmentScalarsFine(a)
  }

  predicate AssessmentSealFine(a: Assessment, digest: string) {
    IsSha(a.sha) && a.sha == Str(digest) && a.id == Str(IdFor(ASSESSMENT_PREFIX, digest))
  }

  predicate ValidAssessment(v: Json, lib: Library) {
    && OnlyKeys(v, ASSESSMENT_KEYS)
    && AssessmentSealFine(ReadAssessment(v), AssessmentDigest(v, lib))
    && AssessmentFieldsFine(ReadAssessment(v))
  }

  lemma {:induction false} CheckListStep(checks: seq<Json>, c: Json)
    ensures CheckIds(checks + [c]) == CheckIds(checks) + [Get(c, "check")]
    ensures CheckListFine(checks + [c]) <==>
            (checks == [] || CheckListFine(checks)) && CheckFine(c) && Get(c, "check") !in CheckIds(checks)
  {
    assert CheckIds(checks + [c]) == CheckIds(checks) + [Get(c, "check")];
    RepeatsStep(CheckIds(checks), Get(c, "check"));
  }

  /** The validator's loop over the embedded checks. */
  method ValidateChecks(checks: seq<Json>) returns (valid: bool)
    ensures valid == CheckListFine(checks)
  {
    valid := true;
    var seen: set<Json> := {};
    for i := 0 to |checks|
      invariant forall v | v in seen :: v in CheckIds(checks[..i])
      invariant valid ==> forall v | v in CheckIds(checks[..i]) :: v in seen
      invariant i > 0 ==> valid == CheckListFine(checks[..i])
      invariant i == 0 ==> valid
    {
      var c := checks[i];
      var id := Get(c, "check");
      assert checks[..i + 1] == checks[..i] + [c];
      CheckListStep(checks[..i], c);
      valid := valid && CheckFine(c) && id !in seen;
      if c.Obj? && id.Str? {
        seen := seen + {id};
      }
    }
    assert checks[..|checks|] == checks;
    valid := valid && checks != [];
  }

  method ValidateAssessment(v: Json, lib: Library) returns (valid: bool)
    ensures valid == ValidAssessment(v, lib)
  {
    if !OnlyKeys(v, ASSESSMENT_KEYS) { return false; }
    var a := ReadAssessment(v);
    valid := AssessmentSealFine(a, AssessmentDigest(v, lib)) && a.checks.Arr?;
    if a.checks.Arr? {
      var listFine := ValidateChecks(a.checks.items);
      valid := valid && listFine && AssessmentScalarsFine(a);
    }
  }
}
