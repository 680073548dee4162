/** What a favourable verdict means: which conditions on the profile, the envelope and
    the context it comes down to. */
module McpVerdict {
  import opened JsonTree
  import opened Artifacts
  import opened McpProfile
  import opened McpHostContext
  import opened McpAssessment

  // ----- all checks passed, group by group -----

  predicate AllTrue(outcomes: seq<bool>) { forall i | 0 <= i < |outcomes| :: outcomes[i] }

  lemma {:induction false} TickPassed(first: nat, outcomes: seq<bool>)
    ensures AllPassed(Tick(first, outcomes)) <==> AllTrue(outcomes)
  {
    if AllPassed(Tick(first, outcomes)) {
      forall i | 0 <= i < |outcomes| ensures outcomes[i] {
        assert Tick(first, outcomes)[i] in Tick(first, outcomes);
      }
    }
  }

  lemma {:induction false} TickIfPassed(condition: bool, first: nat, outcomes: seq<bool>)
    ensures AllPassed(TickIf(condition, first, outcomes)) <==> (condition ==> AllTrue(outcomes))
  {
    TickPassed(first, outcomes);
  }

  lemma {:induction false} JoinPassed(a: seq<Check>, b: seq<Check>)
    ensures AllPassed(a + b) <==> AllPassed(a) && AllPassed(b)
  {
    if AllPassed(a + b) {
      forall c | c in a ensures c.passed { assert c in a + b; }
      forall c | c in b ensures c.passed { assert c in a + b; }
    }
  }

  lemma {:induction false} JoinFourPassed(a: seq<Check>, b: seq<Check>, c: seq<Check>, d: seq<Check>)
    ensures AllPassed(a + b + c + d) <==> AllPassed(a) && AllPassed(b) && AllPassed(c) && AllPassed(d)
  {
    JoinPassed(a, b);
    JoinPassed(a + b, c);
    JoinPassed(a + b + c, d);
  }

  lemma {:induction false} EnvelopeRowPassed(a: seq<bool>, b: seq<bool>, c: seq<bool>, d: seq<bool>)
    requires |a| == 5 && |b| == 3 && |c| == 3 && |d| == 5
    ensures AllPassed(EnvelopeRow(a, b, c, d)) <==> AllTrue(a) && AllTrue(b) && AllTrue(c) && AllTrue(d)
  {
    TickPassed(INPUT_CHECKS, a);
    TickPassed(HASH_CHECKS, b);
    TickPassed(TRANSPORT_CHECKS, c);
    TickPassed(CONTENT_CHECKS, d);
    JoinFourPassed(Tick(INPUT_CHECKS, a), Tick(HASH_CHECKS, b), Tick(TRANSPORT_CHECKS, c), Tick(CONTENT_CHECKS, d));
  }

  predicate Kept(g: Guarded) { g.made ==> g.passed }

  lemma {:induction false} AnnotationRowPassed(h: Hints)
    ensures AllPassed(AnnotationRow(h)) <==> Kept(h.readOnly) && Kept(h.destructive) && Kept(h.openWorld) && Kept(h.idempotent)
  {
    TickIfPassed(h.readOnly.made, READ_ONLY_CHECK, [h.readOnly.passed]);
    TickIfPassed(h.destructive.made, DESTRUCTIVE_CHECK, [h.destructive.passed]);
    TickIfPassed(h.openWorld.made, OPEN_WORLD_CHECK, [h.openWorld.passed]);
    TickIfPassed(h.idempotent.made, IDEMPOTENT_CHECK, [h.idempotent.passed]);
    OneTrue(h.readOnly.passed);
    OneTrue(h.destructive.passed);
    OneTrue(h.openWorld.passed);
    OneTrue(h.idempotent.passed);
    JoinFourPassed(TickIf(h.readOnly.made, READ_ONLY_CHECK, [h.readOnly.passed]), TickIf(h.destructive.made, DESTRUCTIVE_CHECK, [h.destructive.passed]),
                   TickIf(h.openWorld.made, OPEN_WORLD_CHECK, [h.openWorld.passed]), TickIf(h.idempotent.made, IDEMPOTENT_CHECK, [h.idempotent.passed]));
  }

  lemma {:induction false} OneTrue(b: bool)
    ensures AllTrue([b]) <==> b
  {
    assert [b][0] == b;
  }

  lemma {:induction false} ServerRowPassed(a: seq<bool>, newest: bool, b: seq<bool>)
    requires |a| == 5 && |b| == 2
    ensures AllPassed(ServerRow(a, newest, b)) <==> AllTrue(a) && (newest ==> AllTrue(b))
  {
    TickPassed(SERVER_CHECKS, a);
    TickIfPassed(newest, HEADER_CHECKS, b);
    JoinPassed(Tick(SERVER_CHECKS, a), TickIf(newest, HEADER_CHECKS, b));
  }

  lemma {:induction false} ResolutionRowPassed(a: seq<bool>, b: Guarded, c: bool)
    requires |a| == 2
    ensures AllPassed(ResolutionRow(a, b, c)) <==> AllTrue(a) && Kept(b) && c
  {
    var x, y, z := Tick(RESOLUTION_CHECKS, a), TickIf(b.made, SYMLINK_CHECK, [b.passed]), Tick(SCOPE_CHECK, [c]);
    TickPassed(RESOLUTION_CHECKS, a);
    TickIfPassed(b.made, SYMLINK_CHECK, [b.passed]);
    TickPassed(SCOPE_CHECK, [c]);
    OneTrue(b.passed);
    OneTrue(c);
    JoinPassed(x, y);
    JoinPassed(x + y, z);
  }

  lemma {:induction false} TransactionRowPassed(needed: bool, present: bool, rollback: bool, a: seq<bool>, b: seq<bool>)
    requires |a| == 3 && |b| == 2
    ensures AllPassed(TransactionRow(needed, present, rollback, a, b)) <==>
            (if needed then present && AllTrue(a) && (rollback ==> AllTrue(b)) else !present)
  {
    TickIfPassed(needed, TRANSACTION_CHECK, [present]);
    TickIfPassed(needed && present, PREPARED_CHECKS, a);
    TickIfPassed(needed && present && rollback, ROLLBACK_CHECKS, b);
    TickIfPassed(!needed, NO_TRANSACTION_CHECK, [!present]);
    OneTrue(present);
    OneTrue(!present);
    JoinFourPassed(TickIf(needed, TRANSACTION_CHECK, [present]), TickIf(needed && present, PREPARED_CHECKS, a),
                   TickIf(needed && present && rollback, ROLLBACK_CHECKS, b), TickIf(!needed, NO_TRANSACTION_CHECK, [!present]));
  }

  ghost predicate EnvelopePasses(k: Case) {
    AllTrue(InputOutcomes(k)) && AllTrue(HashOutcomes(k)) && AllTrue(TransportOutcomes(k)) && AllTrue(ContentOutcomes(k))
  }

  predicate HintsHonest(annotations: Json, t: Tool) {
    && (Get(annotations, "readOnlyHint") == Bool(true) ==> !Truthy(t.mutating))
    && (Get(annotations, "destructiveHint") == Bool(false) ==> !Truthy(t.destructive))
    && (Get(annotations, "openWorldHint") == Bool(false) ==> !OpenWorld(t))
    && (Get(annotations, "idempotentHint") == Bool(true) ==> t.idempotent == Bool(true))
  }

  ghost predicate ServerPasses(k: Case, s: Server) {
    AllTrue(ServerOutcomes(k, s)) && (Newest(k) ==> AllTrue(HeaderOutcomes(k, s)))
  }

  ghost predicate ResolutionPasses(k: Case, r: Resolution) {
    && r.status == Str("passed")
    && PyEq(r.resourcesSha, k.envelope.resourcesSha)
    && (TouchesWorkspace(k) ==> r.symlinksResolved == Bool(true))
    && UniqueSafeStrings(r.scopeIds, false)
  }

  ghost predicate TransactionPasses(k: Case, t: HostTransaction) {
    if NeedsTransaction(k) then
      && k.context.transaction.Obj?
      && AllTrue(PreparedOutcomes(k, t))
      && (NeedsRollback(k) ==> AllTrue(RollbackOutcomes(t)))
    else !k.context.transaction.Obj?
  }

  lemma {:induction false} EnvelopeChecksPass(k: Case)
    ensures AllPassed(EnvelopeChecks(k)) <==> EnvelopePasses(k)
  {
    EnvelopeRowPassed(InputOutcomes(k), HashOutcomes(k), TransportOutcomes(k), ContentOutcomes(k));
  }

  lemma {:induction false} AnnotationChecksPass(k: Case)
    ensures AllPassed(AnnotationChecks(k)) <==> HintsHonest(Get(k.envelope.metadata, "annotations"), k.tool)
  {
    AnnotationRowPassed(HintsOf(k));
  }

  lemma {:induction false} ServerChecksPass(k: Case, s: Server)
    ensures AllPassed(ServerChecks(k, s)) <==> ServerPasses(k, s)
  {
    ServerRowPassed(ServerOutcomes(k, s), Newest(k), HeaderOutcomes(k, s));
  }

  lemma {:induction false} SchemaChecksPass(k: Case, s: SchemaValidation)
    ensures AllPassed(SchemaChecks(k, s)) <==> AllTrue(SchemaOutcomes(k, s))
  {
    TickPassed(SCHEMA_CHECKS, SchemaOutcomes(k, s));
  }

  lemma {:induction false} CapabilityChecksPass(k: Case)
    ensures AllPassed(CapabilityChecks(k)) <==> CapabilitiesMatch(k)
  {
    TickPassed(CAPABILITY_CHECK, [CapabilitiesMatch(k)]);
    OneTrue(CapabilitiesMatch(k));
  }

  lemma {:induction false} ResolutionChecksPass(k: Case, r: Resolution)
    ensures AllPassed(ResolutionChecks(k, r)) <==> ResolutionPasses(k, r)
  {
    var a := [r.status == Str("passed"), PyEq(r.resourcesSha, k.envelope.resourcesSha)];
    assert AllTrue(a) <==> a[0] && a[1];
    ResolutionRowPassed(a, Guarded(TouchesWorkspace(k), r.symlinksResolved == Bool(true)), UniqueSafeStrings(r.scopeIds, false));
  }

  lemma {:induction false} ConsentChecksPass(k: Case, c: Consent, lib: Library)
    ensures AllPassed(ConsentChecks(k, c, lib)) <==> AllTrue(ConsentOutcomes(k, c, lib))
  {
    TickPassed(CONSENT_CHECKS, ConsentOutcomes(k, c, lib));
  }

  lemma {:induction false} TransactionChecksPass(k: Case, t: HostTransaction)
    ensures AllPassed(TransactionChecks(k, t)) <==> TransactionPasses(k, t)
  {
    TransactionRowPassed(NeedsTransaction(k), k.context.transaction.Obj?, NeedsRollback(k), PreparedOutcomes(k, t), RollbackOutcomes(t));
  }

  ghost predicate HostPasses(k: Case, lib: Library) {
    && ServerPasses(k, ReadServer(k.context.server))
    && AllTrue(SchemaOutcomes(k, ReadSchemaValidation(k.context.schemaValidation)))
    && CapabilitiesMatch(k)
    && ResolutionPasses(k, ReadResolution(k.context.resolution))
    && AllTrue(ConsentOutcomes(k, ReadConsent(k.context.consent), lib))
    && TransactionPasses(k, ReadTransaction(k.context.transaction))
  }

  lemma {:induction false} JoinSixPassed(a: seq<Check>, b: seq<Check>, c: seq<Check>, d: seq<Check>, e: seq<Check>, f: seq<Check>)
    ensures AllPassed(a + b + c + d + e + f) <==>
            AllPassed(a) && AllPassed(b) && AllPassed(c) && AllPassed(d) && AllPassed(e) && AllPassed(f)
  {
    JoinFourPassed(a, b, c, d);
    JoinPassed(a + b + c + d, e);
    JoinPassed(a + b + c + d + e, f);
  }

  lemma {:induction false} HostRowPassed(k: Case, server: Server, schema: SchemaValidation, resolution: Resolution, consent: Consent,
                      transaction: HostTransaction, lib: Library)
    ensures AllPassed(ServerChecks(k, server) + SchemaChecks(k, schema) + CapabilityChecks(k) + ResolutionChecks(k, resolution)
                      + ConsentChecks(k, consent, lib) + TransactionChecks(k, transaction)) <==>
            && ServerPasses(k, server) && AllTrue(SchemaOutcomes(k, schema)) && CapabilitiesMatch(k)
            && ResolutionPasses(k, resolution) && AllTrue(ConsentOutcomes(k, consent, lib)) && TransactionPasses(k, transaction)
  {
    ServerChecksPass(k, server);
    SchemaChecksPass(k, schema);
    CapabilityChecksPass(k);
    ResolutionChecksPass(k, resolution);
    ConsentChecksPass(k, consent, lib);
    TransactionChecksPass(k, transaction);
    JoinSixPassed(ServerChecks(k, server), SchemaChecks(k, schema), CapabilityChecks(k), ResolutionChecks(k, resolution),
                  ConsentChecks(k, consent, lib), TransactionChecks(k, transaction));
  }

  lemma {:induction false} HostChecksPass(k: Case, lib: Library)
    ensures AllPassed(HostChecks(k, lib)) <==> HostPasses(k, lib)
  {
    HostRowPassed(k, ReadServer(k.context.server), ReadSchemaValidation(k.context.schemaValidation),
                  ReadResolution(k.context.resolution), ReadConsent(k.context.consent), ReadTransaction(k.context.transaction), lib);
  }

  ghost predicate Satisfied(k: Case, lib: Library) {
    EnvelopePasses(k) && HintsHonest(Get(k.envelope.metadata, "annotations"), k.tool) && HostPasses(k, lib)
  }

  lemma {:induction false} ChecksPass(k: Case, lib: Library)
    ensures AllPassed(Checks(k, lib)) <==> Satisfied(k, lib)
  {
    EnvelopeChecksPass(k);
    AnnotationChecksPass(k);
    HostChecksPass(k, lib);
    JoinPassed(EnvelopeChecks(k), AnnotationChecks(k));
    JoinPassed(EnvelopeChecks(k) + AnnotationChecks(k), HostChecks(k, lib));
  }

  lemma {:induction false} SatisfiedInputs(k: Case, lib: Library)
    requires Satisfied(k, lib)
    ensures k.profileValid && k.envelopeValid && k.contextValid && k.toolKnown
  {
    var inputs := InputOutcomes(k);
    assert inputs[0] && inputs[1] && inputs[2] && inputs[3];
  }

  /** The verdict on a case, from its conditions. */
  lemma {:induction false} VerdictMeans(k: Case, lib: Library)
    ensures var verdict := Verdict(k, Checks(k, lib));
            && (verdict.Passed? <==> Satisfied(k, lib) && k.tool.decisionMode != Str("review_required"))
            && (verdict.ReviewRequired? <==> Satisfied(k, lib) && k.tool.decisionMode == Str("review_required"))
            && (verdict.Invalid? <==> !(k.profileValid && k.envelopeValid && k.contextValid))
            && (verdict.Refused? <==> !Satisfied(k, lib) && k.profileValid && k.envelopeValid && k.contextValid)
  {
    if Satisfied(k, lib) { SatisfiedInputs(k, lib); }
    ChecksPass(k, lib);
    assert AnyFailed(Checks(k, lib)) <==> !AllPassed(Checks(k, lib));
  }
}
