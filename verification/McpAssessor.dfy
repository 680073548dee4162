/** src/ainir/mcp_tool_call.py: making an assessment. The checks are appended branch by branch;
    what a caller learns from the result is the conditions they stand for. */
module McpAssessor {
  import opened JsonTree
  import opened JsonSchema
  import opened Artifacts
  import opened McpProfile
  import opened McpEnvelope
  import opened McpHostContext
  import opened McpAssessment
  import opened McpAssessmentFacts
  import opened McpVerdict
  import opened McpConsent

  method CheckTransport(k: Case) returns (checks: seq<Check>)
    ensures checks == Tick(TRANSPORT_CHECKS, TransportOutcomes(k))
  {
    var header, name := Get(k.envelope.transport, "method_header"), Get(k.envelope.transport, "name_header");
    var methodFits, nameFits := header == Str("tools/call"), PyEq(name, k.envelope.toolName);
    if k.envelope.protocolVersion != Str(NEWEST_PROTOCOL) {
      methodFits, nameFits := header.Null? || methodFits, name.Null? || nameFits;
    }
    checks := Tick(TRANSPORT_CHECKS, [In(k.envelope.protocolVersion, k.versions), methodFits, nameFits]);
  }

  method AppendIf(checks: seq<Check>, number: nat, hint: Guarded) returns (r: seq<Check>)
    ensures r == checks + TickIf(hint.made, number, [hint.passed])
  {
    r := checks;
    if hint.made { r := r + [Check(number, hint.passed)]; }
  }

  method CheckHints(h: Hints) returns (checks: seq<Check>)
    ensures checks == AnnotationRow(h)
  {
    checks := AppendIf([], READ_ONLY_CHECK, h.readOnly);
    assert checks == TickIf(h.readOnly.made, READ_ONLY_CHECK, [h.readOnly.passed]);
    checks := AppendIf(checks, DESTRUCTIVE_CHECK, h.destructive);
    checks := AppendIf(checks, OPEN_WORLD_CHECK, h.openWorld);
    checks := AppendIf(checks, IDEMPOTENT_CHECK, h.idempotent);
  }

  ghost predicate Made(checks: seq<Check>, number: nat) { exists c | c in checks :: c.number == number }

  lemma {:induction false} MadeIf(condition: bool, first: nat, passed: bool, number: nat)
    ensures Made(TickIf(condition, first, [passed]), number) <==> condition && first == number
  {
    if condition { assert Tick(first, [passed])[0] in Tick(first, [passed]); }
  }

  lemma {:induction false} MadeJoin(a: seq<Check>, b: seq<Check>, number: nat)
    ensures Made(a + b, number) <==> Made(a, number) || Made(b, number)
  {
    if c :| c in a && c.number == number { assert c in a + b; }
    if c :| c in b && c.number == number { assert c in a + b; }
  }

  lemma {:induction false} HintMade(h: Hints, number: nat)
    ensures Made(AnnotationRow(h), number) <==>
            || (number == READ_ONLY_CHECK && h.readOnly.made) || (number == DESTRUCTIVE_CHECK && h.destructive.made)
            || (number == OPEN_WORLD_CHECK && h.openWorld.made) || (number == IDEMPOTENT_CHECK && h.idempotent.made)
  {
    var x, y := TickIf(h.readOnly.made, READ_ONLY_CHECK, [h.readOnly.passed]), TickIf(h.destructive.made, DESTRUCTIVE_CHECK, [h.destructive.passed]);
    var z, w := TickIf(h.openWorld.made, OPEN_WORLD_CHECK, [h.openWorld.passed]), TickIf(h.idempotent.made, IDEMPOTENT_CHECK, [h.idempotent.passed]);
    MadeIf(h.readOnly.made, READ_ONLY_CHECK, h.readOnly.passed, number);
    MadeIf(h.destructive.made, DESTRUCTIVE_CHECK, h.destructive.passed, number);
    MadeIf(h.openWorld.made, OPEN_WORLD_CHECK, h.openWorld.passed, number);
    MadeIf(h.idempotent.made, IDEMPOTENT_CHECK, h.idempotent.passed, number);
    MadeJoin(x, y, number);
    MadeJoin(x + y, z, number);
    MadeJoin(x + y + z, w, number);
  }

  /** A hint is checked exactly when the server gives it in its reassuring form. */
  ghost predicate HintsChecked(checks: seq<Check>, annotations: Json) {
    && (Made(checks, READ_ONLY_CHECK) <==> Get(annotations, "readOnlyHint") == Bool(true))
    && (Made(checks, DESTRUCTIVE_CHECK) <==> Get(annotations, "destructiveHint") == Bool(false))
    && (Made(checks, OPEN_WORLD_CHECK) <==> Get(annotations, "openWorldHint") == Bool(false))
    && (Made(checks, IDEMPOTENT_CHECK) <==> Get(annotations, "idempotentHint") == Bool(true))
  }

  lemma {:induction false} AnnotationChecksMade(k: Case)
    ensures HintsChecked(AnnotationChecks(k), Get(k.envelope.metadata, "annotations"))
  {
    HintMade(HintsOf(k), READ_ONLY_CHECK);
    HintMade(HintsOf(k), DESTRUCTIVE_CHECK);
    HintMade(HintsOf(k), OPEN_WORLD_CHECK);
    HintMade(HintsOf(k), IDEMPOTENT_CHECK);
  }

  /** Hints are checked when given, once each and in order, and all pass exactly when no hint
      claims more than the reviewed contract bears out. */
  method CheckAnnotations(k: Case) returns (checks: seq<Check>)
    ensures AllPassed(checks) <==> HintsHonest(Get(k.envelope.metadata, "annotations"), k.tool)
    ensures HintsChecked(checks, Get(k.envelope.metadata, "annotations")) && Ranked(checks, READ_ONLY_CHECK, SERVER_CHECKS)
    ensures checks == AnnotationChecks(k)
  {
    AnnotationChecksPass(k);
    AnnotationChecksRanked(k);
    AnnotationChecksMade(k);
    checks := CheckHints(HintsOf(k));
  }

  method CheckServer(k: Case, s: Server) returns (checks: seq<Check>)
    ensures checks == ServerChecks(k, s)
  {
    checks := Tick(SERVER_CHECKS, ServerOutcomes(k, s));
    if k.envelope.protocolVersion == Str(NEWEST_PROTOCOL) {
      checks := checks + [Check(HEADER_CHECKS, s.methodHeader == Str("tools/call")),
                          Check(HEADER_CHECKS + 1, PyEq(s.nameHeader, k.envelope.toolName))];
    }
  }

  method CheckResolution(k: Case, r: Resolution) returns (checks: seq<Check>)
    ensures checks == ResolutionChecks(k, r)
  {
    checks := [Check(RESOLUTION_CHECKS, r.status == Str("passed")),
               Check(RESOLUTION_CHECKS + 1, PyEq(r.resourcesSha, k.envelope.resourcesSha))];
    if TouchesWorkspace(k) { checks := checks + [Check(SYMLINK_CHECK, r.symlinksResolved == Bool(true))]; }
    checks := checks + [Check(SCOPE_CHECK, UniqueSafeStrings(r.scopeIds, false))];
  }

  /** All pass exactly when a required transaction is present, prepared and bound, with its
      rollback where one is required, or none is required and none is there. */
  method CheckTransaction(k: Case, transaction: Json) returns (checks: seq<Check>)
    requires transaction == k.context.transaction
    ensures AllPassed(checks) <==> TransactionPasses(k, ReadTransaction(transaction))
    ensures Ranked(checks, TRANSACTION_CHECK, ALL_CHECKS)
    ensures checks == TransactionChecks(k, ReadTransaction(transaction))
  {
    TransactionChecksPass(k, ReadTransaction(transaction));
    TransactionChecksRanked(k, ReadTransaction(transaction));
    checks := ListTransaction(k, transaction);
  }

  method ListTransaction(k: Case, transaction: Json) returns (checks: seq<Check>)
    requires transaction == k.context.transaction
    ensures checks == TransactionChecks(k, ReadTransaction(transaction))
  {
    if k.tool.transactionRequired == Bool(true) {
      checks := [Check(TRANSACTION_CHECK, transaction.Obj?)];
      if transaction.Obj? {
        var t := ReadTransaction(transaction);
        checks := checks + Tick(PREPARED_CHECKS, PreparedOutcomes(k, t));
        if k.tool.rollbackRequired == Bool(true) {
          checks := checks + Tick(ROLLBACK_CHECKS, RollbackOutcomes(t));
        }
      }
    } else {
      checks := [Check(NO_TRANSACTION_CHECK, !transaction.Obj?)];
    }
  }

  method CheckEnvelope(k: Case) returns (checks: seq<Check>)
    ensures checks == EnvelopeChecks(k)
  {
    checks := Tick(INPUT_CHECKS, InputOutcomes(k)) + Tick(HASH_CHECKS, HashOutcomes(k));
    var transport := CheckTransport(k);
    checks := checks + transport;
    checks := checks + Tick(CONTENT_CHECKS, ContentOutcomes(k));
  }

  method CheckHost(k: Case, lib: Library) returns (checks: seq<Check>)
    ensures checks == HostChecks(k, lib)
  {
    checks := CheckServer(k, ReadServer(k.context.server));
    checks := checks + SchemaChecks(k, ReadSchemaValidation(k.context.schemaValidation));
    checks := checks + CapabilityChecks(k);
    var resolution := CheckResolution(k, ReadResolution(k.context.resolution));
    checks := checks + resolution;
    checks := checks + ConsentChecks(k, ReadConsent(k.context.consent), lib);
    var transaction := CheckTransaction(k, k.context.transaction);
    checks := checks + transaction;
  }

  ghost predicate NamesDiffer(checks: seq<Check>) {
    forall i, j | 0 <= i < j < |checks| :: NameAt(checks[i].number) != NameAt(checks[j].number)
  }

  lemma {:induction false} RankedNamesDiffer(checks: seq<Check>)
    requires Ranked(checks, 0, ALL_CHECKS)
    ensures NamesDiffer(checks)
  {
    forall i, j | 0 <= i < j < |checks| ensures NameAt(checks[i].number) != NameAt(checks[j].number) {
      NameAtDiffers(checks[i].number, checks[j].number);
    }
  }

  /** What the list of checks tells: none is made twice, all of them pass exactly when the
      profile, the envelope and the context satisfy every condition of a favourable verdict,
      and an invalid input or an unknown tool shows as a failure. */
  ghost predicate ChecksTell(checks: seq<Check>, k: Case, lib: Library) {
    && checks != [] && NamesDiffer(checks)
    && (AllPassed(checks) <==> Satisfied(k, lib))
    && (AllPassed(checks) ==> k.profileValid && k.envelopeValid && k.contextValid && k.toolKnown)
  }

  lemma {:induction false} ChecksTellHolds(k: Case, lib: Library)
    ensures ChecksTell(Checks(k, lib), k, lib)
  {
    ChecksRanked(k, lib);
    RankedNamesDiffer(Checks(k, lib));
    ChecksPass(k, lib);
    UnknownToolFails(k, lib);
    if Satisfied(k, lib) { SatisfiedInputs(k, lib); }
  }

  method CollectChecks(k: Case, lib: Library) returns (checks: seq<Check>)
    ensures ChecksTell(checks, k, lib)
    ensures checks == Checks(k, lib)
  {
    checks := CheckEnvelope(k);
    var annotations := CheckAnnotations(k);
    checks := checks + annotations;
    var host := CheckHost(k, lib);
    checks := checks + host;
    ChecksTellHolds(k, lib);
  }

  /** The validators, and what the assessment reads of the artifacts. */
  method ReadCase(p: Profile, envelope: Json, context: Json, lib: Library) returns (k: Case)
    ensures k == CaseFor(p, envelope, context, lib)
  {
    var profileValid := ValidateProfile(p, lib);
    var envelopeValid := ValidateEnvelope(envelope, lib);
    var e := ReadEnvelope(envelope);
    var tool := ToolFor(p, e.toolName);
    k := Case(profileValid, envelopeValid, ValidContext(context, lib), tool.Some?,
              Get(p.data, "profile_id"), Listed(Get(p.data, "protocol_versions")),
              ReadTool(if tool.Some? then tool.value else Obj([])), e, ReadContext(context));
  }

  /** What an assessment tells: the verdict that the conditions demand, a handoff exactly for
      a pass, and which artifacts it is about. */
  ghost predicate AssessmentTells(a: Assessment, k: Case, lib: Library) {
    && a.profileId == k.profileId && a.envelopeSha == k.envelope.sha && a.contextSha == k.context.sha
    && a.toolName == k.envelope.toolName && a.executionPerformed == Bool(false)
    && (a.handoffAllowed == Bool(true) <==> Satisfied(k, lib) && k.tool.decisionMode != Str("review_required"))
    && (a.status == Str("passed") <==> a.handoffAllowed == Bool(true))
    && (a.status == Str("review_required") <==> Satisfied(k, lib) && k.tool.decisionMode == Str("review_required"))
    && (a.status == Str("refused") <==> !Satisfied(k, lib) && k.profileValid && k.envelopeValid && k.contextValid)
    && (a.status == Str("invalid") <==> !(k.profileValid && k.envelopeValid && k.contextValid))
  }

  lemma {:induction false} StatusTextsDiffer(s: Status)
    ensures StatusText(s) == "passed" <==> s.Passed?
    ensures StatusText(s) == "review_required" <==> s.ReviewRequired?
    ensures StatusText(s) == "refused" <==> s.Refused?
    ensures StatusText(s) == "invalid" <==> s.Invalid?
  {
    assert "passed"[0] == 'p' && "review_required"[2] == 'v' && "refused"[2] == 'f' && "invalid"[0] == 'i';
  }

  lemma {:induction false} VerdictTells(a: Assessment, k: Case, profileSha: Json, lib: Library)
    requires a == SealAssessment(DraftAssessment(k, profileSha, Checks(k, lib)), lib)
    ensures AssessmentTells(a, k, lib)
  {
    SealedShows(k, profileSha, Checks(k, lib), lib);
    StatusTextsDiffer(Verdict(k, Checks(k, lib)));
    VerdictMeans(k, lib);
  }

  /** The verdict, and a document that its own validator accepts whenever the three inputs
      are valid. */
  method Assess(p: Profile, envelope: Json, context: Json, lib: Library) returns (a: Assessment)
    ensures AssessmentTells(a, CaseFor(p, envelope, context, lib), lib)
    ensures a == AssessmentOf(p, envelope, context, lib)
    ensures WellBehaved(lib) && ValidProfile(p, lib) && ValidEnvelope(envelope, lib) && ValidContext(context, lib) ==>
              ValidAssessment(AssessmentTree(a), lib)
  {
    var k := ReadCase(p, envelope, context, lib);
    a := AssessCase(k, Get(p.data, "profile_sha256"), lib);
    if WellBehaved(lib) && ValidProfile(p, lib) && ValidEnvelope(envelope, lib) && ValidContext(context, lib) {
      AssessmentIsValid(p, envelope, context, lib);
    }
  }

  method AssessCase(k: Case, profileSha: Json, lib: Library) returns (a: Assessment)
    ensures AssessmentTells(a, k, lib)
    ensures a == SealAssessment(DraftAssessment(k, profileSha, Checks(k, lib)), lib)
  {
    var checks := CollectChecks(k, lib);
    a := SealAssessment(DraftAssessment(k, profileSha, checks), lib);
    VerdictTells(a, k, profileSha, lib);
  }
}
