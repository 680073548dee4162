/** What every assessment satisfies: its verdict follows from its checks, and the
    document passes its own validator whatever the verdict. */
module McpAssessmentFacts {
  import opened Text
  import opened JsonTree
  import opened Artifacts
  import opened McpProfile
  import opened McpEnvelope
  import opened McpHostContext
  import opened McpAssessment

  // ----- no check is named twice -----

  lemma {:induction false} EnvelopeNamesDiffer()
    ensures forall i, j | 0 <= i < j < 20 :: ENVELOPE_CHECK_NAMES[i] != ENVELOPE_CHECK_NAMES[j]
  {
  }

  lemma {:induction false} HostNamesDiffer()
    ensures forall i, j | 0 <= i < j < 29 :: HOST_CHECK_NAMES[i] != HOST_CHECK_NAMES[j]
  {
  }

  lemma {:induction false} GroupsDiffer()
    ensures forall i, j | 0 <= i < 20 && 0 <= j < 29 :: ENVELOPE_CHECK_NAMES[i] != HOST_CHECK_NAMES[j]
  {
  }

  lemma {:induction false} NamesAreText()
    ensures forall i | 0 <= i < 20 :: ENVELOPE_CHECK_NAMES[i] != ""
    ensures forall i | 0 <= i < 29 :: HOST_CHECK_NAMES[i] != ""
  {
    assert forall i | 0 <= i < 20 :: |ENVELOPE_CHECK_NAMES[i]| > 0;
    assert forall i | 0 <= i < 29 :: |HOST_CHECK_NAMES[i]| > 0;
  }

  lemma {:induction false} NameAtDiffers(a: nat, b: nat)
    requires a < b < 49
    ensures NameAt(a) != NameAt(b) && NameAt(a) != ""
  {
    EnvelopeNamesDiffer();
    HostNamesDiffer();
    GroupsDiffer();
    NamesAreText();
  }

  /** Numbers ascend within bounds. */
  ghost predicate Ranked(checks: seq<Check>, lo: nat, hi: nat) {
    && (forall i | 0 <= i < |checks| :: lo <= checks[i].number < hi)
    && (forall i, j | 0 <= i < j < |checks| :: checks[i].number < checks[j].number)
  }

  lemma {:induction false} RankedJoin(a: seq<Check>, b: seq<Check>, lo: nat, mid: nat, hi: nat)
    requires Ranked(a, lo, mid) && Ranked(b, mid, hi) && lo <= mid <= hi
    ensures Ranked(a + b, lo, hi)
  {
  }

  lemma {:induction false} JoinFour(a: seq<Check>, b: seq<Check>, c: seq<Check>, d: seq<Check>, n0: nat, n1: nat, n2: nat, n3: nat, n4: nat)
    requires n0 <= n1 <= n2 <= n3 <= n4
    requires Ranked(a, n0, n1) && Ranked(b, n1, n2) && Ranked(c, n2, n3) && Ranked(d, n3, n4)
    ensures Ranked(a + b + c + d, n0, n4)
  {
    RankedJoin(a, b, n0, n1, n2);
    RankedJoin(a + b, c, n0, n2, n3);
    RankedJoin(a + b + c, d, n0, n3, n4);
  }

  lemma {:induction false} TickRanked(first: nat, outcomes: seq<bool>)
    ensures Ranked(Tick(first, outcomes), first, first + |outcomes|)
  {
  }

  lemma {:induction false} TickIfRanked(condition: bool, first: nat, outcomes: seq<bool>)
    ensures Ranked(TickIf(condition, first, outcomes), first, first + |outcomes|)
  {
    TickRanked(first, outcomes);
  }

  lemma {:induction false} EnvelopeRowRanked(a: seq<bool>, b: seq<bool>, c: seq<bool>, d: seq<bool>)
    requires |a| == 5 && |b| == 3 && |c| == 3 && |d| == 5
    ensures Ranked(EnvelopeRow(a, b, c, d), 0, 16)
  {
    var x, y, z, w := Tick(INPUT_CHECKS, a), Tick(HASH_CHECKS, b), Tick(TRANSPORT_CHECKS, c), Tick(CONTENT_CHECKS, d);
    TickRanked(INPUT_CHECKS, a);
    TickRanked(HASH_CHECKS, b);
    TickRanked(TRANSPORT_CHECKS, c);
    TickRanked(CONTENT_CHECKS, d);
    JoinFour(x, y, z, w, 0, 5, 8, 11, 16);
  }

  lemma {:induction false} AnnotationRowRanked(h: Hints)
    ensures Ranked(AnnotationRow(h), 16, 20)
  {
    var x, y := TickIf(h.readOnly.made, READ_ONLY_CHECK, [h.readOnly.passed]), TickIf(h.destructive.made, DESTRUCTIVE_CHECK, [h.destructive.passed]);
    var z, w := TickIf(h.openWorld.made, OPEN_WORLD_CHECK, [h.openWorld.passed]), TickIf(h.idempotent.made, IDEMPOTENT_CHECK, [h.idempotent.passed]);
    TickIfRanked(h.readOnly.made, READ_ONLY_CHECK, [h.readOnly.passed]);
    TickIfRanked(h.destructive.made, DESTRUCTIVE_CHECK, [h.destructive.passed]);
    TickIfRanked(h.openWorld.made, OPEN_WORLD_CHECK, [h.openWorld.passed]);
    TickIfRanked(h.idempotent.made, IDEMPOTENT_CHECK, [h.idempotent.passed]);
    JoinFour(x, y, z, w, 16, 17, 18, 19, 20);
  }

  lemma {:induction false} ServerRowRanked(a: seq<bool>, newest: bool, b: seq<bool>)
    requires |a| == 5 && |b| == 2
    ensures Ranked(ServerRow(a, newest, b), 20, 27)
  {
    TickRanked(SERVER_CHECKS, a);
    TickIfRanked(newest, HEADER_CHECKS, b);
    RankedJoin(Tick(SERVER_CHECKS, a), TickIf(newest, HEADER_CHECKS, b), 20, 25, 27);
  }

  lemma {:induction false} ResolutionRowRanked(a: seq<bool>, b: Guarded, c: bool)
    requires |a| == 2
    ensures Ranked(ResolutionRow(a, b, c), 32, 36)
  {
    var x, y, z := Tick(RESOLUTION_CHECKS, a), TickIf(b.made, SYMLINK_CHECK, [b.passed]), Tick(SCOPE_CHECK, [c]);
    TickRanked(RESOLUTION_CHECKS, a);
    TickIfRanked(b.made, SYMLINK_CHECK, [b.passed]);
    TickRanked(SCOPE_CHECK, [c]);
    RankedJoin(x, y, 32, 34, 35);
    RankedJoin(x + y, z, 32, 35, 36);
  }

  lemma {:induction false} TransactionRowRanked(needed: bool, present: bool, rollback: bool, a: seq<bool>, b: seq<bool>)
    requires |a| == 3 && |b| == 2
    ensures Ranked(TransactionRow(needed, present, rollback, a, b), 42, 49)
  {
    var x, y := TickIf(needed, TRANSACTION_CHECK, [present]), TickIf(needed && present, PREPARED_CHECKS, a);
    var z, w := TickIf(needed && present && rollback, ROLLBACK_CHECKS, b), TickIf(!needed, NO_TRANSACTION_CHECK, [!present]);
    TickIfRanked(needed, TRANSACTION_CHECK, [present]);
    TickIfRanked(needed && present, PREPARED_CHECKS, a);
    TickIfRanked(needed && present && rollback, ROLLBACK_CHECKS, b);
    TickIfRanked(!needed, NO_TRANSACTION_CHECK, [!present]);
    JoinFour(x, y, z, w, 42, 43, 46, 48, 49);
  }

  lemma {:induction false} JoinHost(a: seq<Check>, b: seq<Check>, c: seq<Check>, d: seq<Check>, e: seq<Check>, f: seq<Check>)
    requires Ranked(a, 20, 27) && Ranked(b, 27, 31) && Ranked(c, 31, 32)
    requires Ranked(d, 32, 36) && Ranked(e, 36, 42) && Ranked(f, 42, 49)
    ensures Ranked(a + b + c + d + e + f, 20, 49)
  {
    RankedJoin(a, b, 20, 27, 31);
    RankedJoin(a + b, c, 20, 31, 32);
    RankedJoin(a + b + c, d, 20, 32, 36);
    RankedJoin(a + b + c + d, e, 20, 36, 42);
    RankedJoin(a + b + c + d + e, f, 20, 42, 49);
  }

  lemma {:induction false} ServerChecksRanked(k: Case, s: Server)
    ensures Ranked(ServerChecks(k, s), 20, 27)
  {
    ServerRowRanked(ServerOutcomes(k, s), Newest(k), HeaderOutcomes(k, s));
  }

  lemma {:induction false} SchemaChecksRanked(k: Case, s: SchemaValidation)
    ensures Ranked(SchemaChecks(k, s), 27, 31)
  {
    TickRanked(SCHEMA_CHECKS, SchemaOutcomes(k, s));
  }

  lemma {:induction false} CapabilityChecksRanked(k: Case)
    ensures Ranked(CapabilityChecks(k), 31, 32)
  {
    TickRanked(CAPABILITY_CHECK, [CapabilitiesMatch(k)]);
  }

  lemma {:induction false} ResolutionChecksRanked(k: Case, r: Resolution)
    ensures Ranked(ResolutionChecks(k, r), 32, 36)
  {
    ResolutionRowRanked([r.status == Str("passed"), PyEq(r.resourcesSha, k.envelope.resourcesSha)],
      Guarded(TouchesWorkspace(k), r.symlinksResolved == Bool(true)), UniqueSafeStrings(r.scopeIds, false));
  }

  lemma {:induction false} ConsentChecksRanked(k: Case, c: Consent, lib: Library)
    ensures Ranked(ConsentChecks(k, c, lib), 36, 42)
  {
    TickRanked(CONSENT_CHECKS, ConsentOutcomes(k, c, lib));
  }

  lemma {:induction false} TransactionChecksRanked(k: Case, t: HostTransaction)
    ensures Ranked(TransactionChecks(k, t), 42, 49)
  {
    TransactionRowRanked(NeedsTransaction(k), k.context.transaction.Obj?, NeedsRollback(k), PreparedOutcomes(k, t), RollbackOutcomes(t));
  }

  lemma {:induction false} AnnotationChecksRanked(k: Case)
    ensures Ranked(AnnotationChecks(k), 16, 20)
  {
    AnnotationRowRanked(HintsOf(k));
  }

  lemma {:induction false} EnvelopeChecksRanked(k: Case)
    ensures Ranked(EnvelopeChecks(k), 0, 16)
  {
    EnvelopeRowRanked(InputOutcomes(k), HashOutcomes(k), TransportOutcomes(k), ContentOutcomes(k));
  }

  lemma {:induction false} ChecksRanked(k: Case, lib: Library)
    ensures Ranked(Checks(k, lib), 0, 49)
  {
    var server, schema, resolution := ReadServer(k.context.server), ReadSchemaValidation(k.context.schemaValidation), ReadResolution(k.context.resolution);
    var consent, transaction := ReadConsent(k.context.consent), ReadTransaction(k.context.transaction);
    EnvelopeChecksRanked(k);
    AnnotationChecksRanked(k);
    ServerChecksRanked(k, server);
    SchemaChecksRanked(k, schema);
    CapabilityChecksRanked(k);
    ResolutionChecksRanked(k, resolution);
    ConsentChecksRanked(k, consent, lib);
    TransactionChecksRanked(k, transaction);
    JoinHost(ServerChecks(k, server), SchemaChecks(k, schema), CapabilityChecks(k),
             ResolutionChecks(k, resolution), ConsentChecks(k, consent, lib), TransactionChecks(k, transaction));
    RankedJoin(EnvelopeChecks(k), AnnotationChecks(k), 0, 16, 20);
    RankedJoin(EnvelopeChecks(k) + AnnotationChecks(k), HostChecks(k, lib), 0, 20, 49);
  }

  // ----- the embedded list of checks -----

  lemma {:induction false} CheckReadsBack(c: Check)
    requires c.number < 49
    ensures CheckFine(CheckTree(c)) && Get(CheckTree(c), "check") == Str(NameAt(c.number))
    ensures CheckTree(c).Obj? && (Get(CheckTree(c), "status") == Str("failed") <==> !c.passed)
  {
    AssessmentKeysDiffer();
    var values := [Str(NameAt(c.number)), Str(if c.passed then "passed" else "failed"), Null, Null];
    RecordReadsBack(CHECK_KEYS, values);
    var f := Fields(Obj(Record(CHECK_KEYS, values)), CHECK_KEYS);
    assert f[0] == values[0] && f[1] == values[1];
    NameAtDiffers(0, 48);
    if c.number < 48 { NameAtDiffers(c.number, 48); } else { NamesAreText(); }
  }

  lemma {:induction false} CheckTreesFine(checks: seq<Check>)
    requires Ranked(checks, 0, 49) && checks != []
    ensures CheckListFine(CheckTrees(checks))
    ensures SomeFailed(CheckTrees(checks)) <==> AnyFailed(checks)
  {
    var trees := CheckTrees(checks);
    forall i | 0 <= i < |checks|
      ensures CheckFine(trees[i]) && trees[i].Obj?
      ensures CheckIds(trees)[i] == Str(NameAt(checks[i].number))
      ensures Get(trees[i], "status") == Str("failed") <==> !checks[i].passed
    {
      CheckReadsBack(checks[i]);
    }
    forall i, j | 0 <= i < j < |checks| ensures CheckIds(trees)[i] != CheckIds(trees)[j] {
      NameAtDiffers(checks[i].number, checks[j].number);
    }
  }

  // ----- the document validates -----

  /** What holds of the records read from three valid inputs. */
  ghost predicate Sound(k: Case) {
    && ProfileId(k.profileId)
    && SafeToolName(k.envelope.toolName)
    && SealFineFor(k.envelope.sha, k.envelope.id, ENVELOPE_PREFIX)
    && SealFineFor(k.context.sha, k.context.id, CONTEXT_PREFIX)
    && (if k.toolKnown then ToolFieldsFine(k.tool)
        else k.tool.riskClass.Null? && k.tool.effects.Null? && k.tool.capabilities.Null?)
  }

  predicate SealFineFor(sha: Json, id: Json, prefix: string) { IsSha(sha) && id == Str(IdFor(prefix, sha.s)) }

  lemma {:induction false} UnknownToolIsBlank()
    ensures var t := ReadTool(Obj([])); t.riskClass.Null? && t.effects.Null? && t.capabilities.Null?
  {
  }

  lemma {:induction false} KnownToolFine(p: Profile, name: Json, lib: Library)
    requires ValidProfile(p, lib) && ToolFor(p, name).Some?
    ensures ToolFine(ToolFor(p, name).value, p, lib)
  {
    ReviewedTool(p, lib, NameOf(name).value);
  }

  lemma {:induction false} ProfileHeader(p: Profile, lib: Library)
    requires ValidProfile(p, lib)
    ensures ProfileId(Get(p.data, "profile_id")) && IsSha(Get(p.data, "profile_sha256"))
  {
  }

  lemma {:induction false} EnvelopeSealed(v: Json, lib: Library)
    requires ValidEnvelope(v, lib)
    ensures SafeToolName(ReadEnvelope(v).toolName) && SealFineFor(ReadEnvelope(v).sha, ReadEnvelope(v).id, ENVELOPE_PREFIX)
  {
  }

  lemma {:induction false} ContextSealed(v: Json, lib: Library)
    requires ValidContext(v, lib)
    ensures SealFineFor(ReadContext(v).sha, ReadContext(v).id, CONTEXT_PREFIX)
  {
  }

  lemma {:induction false} CaseIsSound(p: Profile, envelope: Json, context: Json, lib: Library)
    requires ValidProfile(p, lib) && ValidEnvelope(envelope, lib) && ValidContext(context, lib)
    ensures Sound(CaseFor(p, envelope, context, lib))
  {
    ProfileHeader(p, lib);
    EnvelopeSealed(envelope, lib);
    ContextSealed(context, lib);
    UnknownToolIsBlank();
    var name := ReadEnvelope(envelope).toolName;
    if ToolFor(p, name).Some? { KnownToolFine(p, name, lib); }
  }

  lemma {:induction false} SortedTermsFine(v: Json, vocabulary: seq<string>, required: bool)
    requires if v.Null? then !required else UniqueSafeStrings(v, false) && AllWithin(v, vocabulary)
    ensures TermsFine(SortedNames(Strings(v)), vocabulary, required)
  {
    var names := Strings(v);
    SortedNamesFine(names, !required);
    if v.Arr? {
      assert v.items[0].Str? && v.items[0].s in names by { assert v.items[0] in v.items; }
    }
    TextsContents(SortedSet(names));
    forall x | x in SortedNames(names).items ensures OneOf(x, vocabulary) {
      assert x.s in names && Str(x.s) in v.items;
    }
  }

  lemma {:induction false} EnvelopeChecksStart(k: Case)
    ensures |EnvelopeChecks(k)| == 16 && EnvelopeChecks(k)[3] == Check(3, k.toolKnown)
  {
    RowStart(InputOutcomes(k), HashOutcomes(k), TransportOutcomes(k), ContentOutcomes(k));
  }

  lemma {:induction false} RowStart(a: seq<bool>, b: seq<bool>, c: seq<bool>, d: seq<bool>)
    requires |a| == 5 && |b| == 3 && |c| == 3 && |d| == 5
    ensures |EnvelopeRow(a, b, c, d)| == 16 && EnvelopeRow(a, b, c, d)[3] == Check(3, a[3])
  {
    assert EnvelopeRow(a, b, c, d)[3] == Tick(INPUT_CHECKS, a)[3];
  }

  lemma {:induction false} StartFails(envelope: seq<Check>, annotations: seq<Check>, host: seq<Check>)
    requires |envelope| == 16
    ensures envelope + annotations + host != []
    ensures !envelope[3].passed ==> AnyFailed(envelope + annotations + host)
  {
    assert (envelope + annotations + host)[3] == envelope[3];
  }

  lemma {:induction false} UnknownToolFails(k: Case, lib: Library)
    ensures Checks(k, lib) != []
    ensures !k.toolKnown ==> AnyFailed(Checks(k, lib))
  {
    EnvelopeChecksStart(k);
    StartFails(EnvelopeChecks(k), AnnotationChecks(k), HostChecks(k, lib));
  }

  lemma {:induction false} StatusReads(s: Status)
    ensures StatusOf(Str(StatusText(s))) == Some(s)
  {
  }

  lemma {:induction false} DraftAssessmentFine(k: Case, profileSha: Json, checks: seq<Check>)
    requires Sound(k) && IsSha(profileSha)
    requires Ranked(checks, 0, 49) && checks != []
    requires !k.toolKnown ==> AnyFailed(checks)
    ensures AssessmentFieldsFine(DraftAssessment(k, profileSha, checks))
  {
    var status := Verdict(k, checks);
    StatusReads(status);
    CheckTreesFine(checks);
    SortedTermsFine(k.tool.effects, EFFECTS, status.Passed? || status.ReviewRequired?);
    SortedTermsFine(k.tool.capabilities, CAPABILITIES, status.Passed? || status.ReviewRequired?);
  }

  lemma {:induction false} SealKeepsAssessmentDigest(a: Assessment, lib: Library)
    ensures AssessmentDigest(AssessmentTree(SealAssessment(a, lib)), lib) == AssessmentDigest(AssessmentTree(a), lib)
  {
    var v, w := AssessmentValues(a), AssessmentValues(SealAssessment(a, lib));
    assert forall i | 0 <= i < 18 :: v[i] == w[i];
    ProjectIgnoresDropped(ASSESSMENT_KEYS, v, w, ASSESSMENT_OWN_KEYS);
  }

  lemma {:induction false} SealLeavesAssessment(a: Assessment, b: Assessment)
    requires b == a.(sha := b.sha, id := b.id) && AssessmentFieldsFine(a)
    ensures AssessmentFieldsFine(b)
  {
  }

  lemma {:induction false} SealedAssessmentSeal(a: Assessment, lib: Library)
    requires WellBehaved(lib)
    ensures var v := AssessmentTree(SealAssessment(a, lib));
            OnlyKeys(v, ASSESSMENT_KEYS) && ReadAssessment(v) == SealAssessment(a, lib) && AssessmentSealFine(ReadAssessment(v), AssessmentDigest(v, lib))
  {
    SealKeepsAssessmentDigest(a, lib);
    AssessmentReadsBack(SealAssessment(a, lib));
  }

  lemma {:induction false} SealedAssessmentValid(a: Assessment, lib: Library)
    requires WellBehaved(lib) && AssessmentFieldsFine(a)
    ensures ValidAssessment(AssessmentTree(SealAssessment(a, lib)), lib)
  {
    SealedAssessmentSeal(a, lib);
    SealLeavesAssessment(a, SealAssessment(a, lib));
  }

  /** The assessment of three valid inputs validates, whatever its verdict. */
  lemma {:induction false} AssessmentIsValid(p: Profile, envelope: Json, context: Json, lib: Library)
    requires WellBehaved(lib)
    requires ValidProfile(p, lib) && ValidEnvelope(envelope, lib) && ValidContext(context, lib)
    ensures ValidAssessment(AssessmentTree(AssessmentOf(p, envelope, context, lib)), lib)
  {
    var k := CaseFor(p, envelope, context, lib);
    CaseIsSound(p, envelope, context, lib);
    ProfileHeader(p, lib);
    FinishAssessment(k, Get(p.data, "profile_sha256"), lib);
  }

  lemma {:induction false} FinishAssessment(k: Case, profileSha: Json, lib: Library)
    requires WellBehaved(lib) && Sound(k) && IsSha(profileSha)
    ensures ValidAssessment(AssessmentTree(SealAssessment(DraftAssessment(k, profileSha, Checks(k, lib)), lib)), lib)
  {
    ChecksRanked(k, lib);
    UnknownToolFails(k, lib);
    DraftAssessmentFine(k, profileSha, Checks(k, lib));
    SealedAssessmentValid(DraftAssessment(k, profileSha, Checks(k, lib)), lib);
  }
}
