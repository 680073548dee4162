/** The characterisation of the preflight, over every profile, call and host. */
module McpPreflightTheorem {
  import opened JsonTree
  import opened Artifacts
  import opened McpProfile
  import opened McpEnvelope
  import opened McpEnvelopeFacts
  import opened McpHostContext
  import opened McpAssessment
  import opened McpConsent
  import opened McpPreflight
  import opened McpPreflightExact

  /** Well-formed inputs and well-behaved libraries. */
  ghost predicate Sane(a: Attempt, lib: Library) {
    WellBehaved(lib) && ClockAgrees(lib) && WellFormed(a.descriptor) && WellFormed(a.request)
  }

  ghost predicate BindingsPointed(a: Attempt) {
    BindingsOf(a.profile, a.request).Some? ==> Pointed(BindingsOf(a.profile, a.request).value)
  }

  /** What an accepted profile and an accepted input promise the later steps. */
  ghost predicate Entered(a: Attempt) {
    && BindingsPointed(a)
    && ProfileId(Get(a.profile.data, "profile_id"))
    && CalledName(a).Str? && Arguments(a.request).Obj? && Get(a.transport, "protocol_version").Str?
    && SchemaAccepted(Get(a.descriptor, "inputSchema"))
  }

  lemma {:induction false} EntryFacts(a: Attempt, lib: Library)
    requires InputError(a.descriptor, a.request, a.transport).None?
    requires BindingsPointed(a) && ProfileId(Get(a.profile.data, "profile_id"))
    ensures Entered(a)
  {
    InputFacts(a.descriptor, a.request, a.transport);
  }

  /** An envelope is made exactly for an accepted profile and accepted inputs. */
  lemma {:induction false} EnvelopeMade(a: Attempt, lib: Library)
    ensures EnvelopeOf(a.profile, a.descriptor, a.request, a.transport, lib).Ready? <==>
            ValidProfile(a.profile, lib) && InputError(a.descriptor, a.request, a.transport).None?
  {
  }

  lemma {:induction false} EnvelopeIs(a: Attempt, lib: Library)
    requires ValidProfile(a.profile, lib) && InputError(a.descriptor, a.request, a.transport).None? && BindingsPointed(a)
    ensures EnvelopeOf(a.profile, a.descriptor, a.request, a.transport, lib) == Ready(EnvelopeFor(a, lib))
  {
    ReadyMeans(a.profile, a.descriptor, a.request, a.transport, lib);
  }

  lemma {:induction false} ContextMade(e: Envelope, f: HostFacts, lib: Library)
    ensures ContextOf(EnvelopeTree(e), f, lib).ContextReady? <==> ValidEnvelope(EnvelopeTree(e), lib) && TimesParse(f, lib)
    ensures ValidEnvelope(EnvelopeTree(e), lib) ==> e.sha.Str?
    ensures ValidEnvelope(EnvelopeTree(e), lib) && TimesParse(f, lib) ==>
            ContextOf(EnvelopeTree(e), f, lib) == ContextReady(SealContext(DraftContext(e, f, lib), lib))
  {
    EnvelopeReadsBack(e);
  }

  /** The case that reaches the assessment. */
  lemma {:induction false} ReachedCase(a: Attempt, e: Envelope, c: Context, lib: Library)
    requires Sane(a, lib) && ValidProfile(a.profile, lib) && Entered(a)
    requires Shows(e, a, lib) && ValidEnvelope(EnvelopeTree(e), lib) && TimesParse(a.facts, lib)
    requires ContextOf(EnvelopeTree(e), a.facts, lib) == ContextReady(c)
    requires c == SealContext(DraftContext(e, a.facts, lib), lib)
    ensures BuiltCase(CaseMade(a, e, c, lib), a, lib)
    ensures CaseMade(a, e, c, lib).envelope == e
  {
    CaseReads(a, e, c, lib);
    BuiltContextValidExactly(EnvelopeTree(e), a.facts, lib, c);
    BuiltCaseHolds(CaseMade(a, e, c, lib), a, lib);
  }

  lemma {:induction false} ReachedTool(a: Attempt, e: Envelope, c: Context, lib: Library)
    requires CalledName(a).Str? && e.toolName == CalledName(a)
    ensures CaseMade(a, e, c, lib).toolKnown <==> ToolReviewed(a)
    ensures ToolReviewed(a) ==> CaseMade(a, e, c, lib).tool == ReviewedOf(a)
  {
    CaseReads(a, e, c, lib);
    ToolForCalled(a);
  }

  /** Once both artifacts exist, the verdict is the decision. */
  lemma {:induction false} ReachedVerdict(a: Attempt, k: Case, lib: Library)
    requires Sane(a, lib) && Entered(a) && BuiltCase(k, a, lib)
    requires k.toolKnown <==> ToolReviewed(a)
    requires ToolReviewed(a) ==> k.tool == ReviewedOf(a) && k.tool.resourceBindings.Arr? && ReviewedParts(k, a, k.tool.resourceBindings.items, lib)
    ensures Verdict(k, Checks(k, lib)) == Decision(a, lib)
  {
    if k.toolKnown {
      KnownVerdict(k, a, k.tool.resourceBindings.items, lib);
    } else {
      UnknownToolVerdict(k, lib);
    }
  }

  lemma {:induction false} ReviewedPartsHold(a: Attempt, k: Case, lib: Library)
    requires ValidProfile(a.profile, lib) && ToolReviewed(a) && k.toolKnown && k.tool == ReviewedOf(a)
    requires BindingsPointed(a)
    requires k.envelope.resources == Arr(EnvelopeResources(a.profile, a.request, lib))
    requires k.envelope.findings == Arr(EnvelopeFindings(a.profile, a.descriptor, a.request, lib))
    ensures k.tool.resourceBindings.Arr? && ReviewedParts(k, a, k.tool.resourceBindings.items, lib)
  {
    ReviewedBindings(a, lib);
  }

  /** The verdict of the preflight once its two builders succeed. */
  lemma {:induction false} BuiltVerdict(a: Attempt, e: Envelope, c: Context, k: Case, lib: Library)
    requires Sane(a, lib) && ValidProfile(a.profile, lib) && Entered(a) && e == EnvelopeFor(a, lib)
    requires k == CaseMade(a, e, c, lib) && BuiltCase(k, a, lib) && k.envelope == e
    ensures Verdict(k, Checks(k, lib)) == Decision(a, lib)
  {
    EnvelopeShows(a, lib);
    ReachedTool(a, e, c, lib);
    if ToolReviewed(a) { ReviewedPartsHold(a, k, lib); }
    ReachedVerdict(a, k, lib);
  }

  lemma {:induction false} BothBuilt(a: Attempt, e: Envelope, c: Context, lib: Library)
    requires Sane(a, lib) && ValidProfile(a.profile, lib) && Entered(a) && e == EnvelopeFor(a, lib)
    requires ContextOf(EnvelopeTree(e), a.facts, lib) == ContextReady(c)
    ensures VerdictOn(a.profile, EnvelopeTree(e), ContextTree(c), lib) == Decision(a, lib)
  {
    EnvelopeShows(a, lib);
    ContextMade(e, a.facts, lib);
    ReachedCase(a, e, c, lib);
    BuiltVerdict(a, e, c, CaseMade(a, e, c, lib), lib);
  }

  lemma {:induction false} JudgedExactly(a: Attempt, e: Envelope, lib: Library)
    requires Sane(a, lib) && ValidProfile(a.profile, lib) && Entered(a) && e == EnvelopeFor(a, lib)
    requires ContextOf(EnvelopeTree(e), a.facts, lib).ContextReady? <==> Buildable(a, lib)
    ensures Judge(a, e, lib) == if Buildable(a, lib) then Some(Decision(a, lib)) else None
  {
    var r := ContextOf(EnvelopeTree(e), a.facts, lib);
    if r.ContextReady? { BothBuilt(a, e, r.context, lib); }
  }

  lemma {:induction false} EnteredIsJudged(a: Attempt, lib: Library)
    requires Sane(a, lib) && ValidProfile(a.profile, lib) && InputError(a.descriptor, a.request, a.transport).None?
    requires Entered(a)
    ensures Preflight(a, lib) == Judge(a, EnvelopeFor(a, lib), lib)
    ensures ContextOf(EnvelopeTree(EnvelopeFor(a, lib)), a.facts, lib).ContextReady? <==> Buildable(a, lib)
  {
    EnvelopeIs(a, lib);
    BuiltEnvelopeValidExactly(a.profile, a.descriptor, a.request, a.transport, lib, EnvelopeFor(a, lib));
    ContextMade(EnvelopeFor(a, lib), a.facts, lib);
  }

  lemma {:induction false} EnteredVerdict(a: Attempt, lib: Library)
    requires Sane(a, lib) && ValidProfile(a.profile, lib) && InputError(a.descriptor, a.request, a.transport).None?
    ensures Preflight(a, lib) == if Buildable(a, lib) then Some(Decision(a, lib)) else None
  {
    ProfileFacts(a.profile, a.request, lib);
    EntryFacts(a, lib);
    EnteredIsJudged(a, lib);
    JudgedExactly(a, EnvelopeFor(a, lib), lib);
  }

  /** Building the envelope, building the context and assessing come to an end exactly for a
      buildable attempt, and then with the one decision that the profile, the call and the
      host's facts demand: a pass, a review, a refusal, or a refusal of malformed facts. */
  lemma {:induction false} PreflightExactly(a: Attempt, lib: Library)
    requires Sane(a, lib)
    ensures Preflight(a, lib) == if Buildable(a, lib) then Some(Decision(a, lib)) else None
  {
    EnvelopeMade(a, lib);
    if ValidProfile(a.profile, lib) && InputError(a.descriptor, a.request, a.transport).None? {
      EnteredVerdict(a, lib);
    }
  }

  lemma {:induction false} ListedVersionSupported(p: Profile, version: Json, lib: Library)
    requires ValidProfile(p, lib) && version in Listed(Get(p.data, "protocol_versions"))
    ensures OneOf(version, PROTOCOL_VERSIONS)
  {
  }

  lemma {:induction false} PermittedHeaders(a: Attempt, lib: Library)
    requires Permitted(a, lib) && CalledName(a).Str?
    ensures HeadersAreText(a.transport) && TimesParse(a.facts, lib)
    ensures Get(a.transport, "protocol_version") in Listed(Get(a.profile.data, "protocol_versions"))
  {
  }

  /** What the profile permits is never stopped by a builder. */
  lemma {:induction false} PermittedIsBuildable(a: Attempt, lib: Library)
    requires ValidProfile(a.profile, lib) && InputError(a.descriptor, a.request, a.transport).None? && Permitted(a, lib)
    ensures Buildable(a, lib)
    ensures ReviewedOf(a).decisionMode != Str("review_required") <==> ReviewedOf(a).decisionMode == Str("allow")
  {
    InputFacts(a.descriptor, a.request, a.transport);
    PermittedHeaders(a, lib);
    ListedVersionSupported(a.profile, Get(a.transport, "protocol_version"), lib);
    ReviewedBindings(a, lib);
    DecisionModes(ReviewedOf(a));
  }

  /** The attempt passes exactly when the profile, the call and the host's facts are
      admissible together, and is sent to a review exactly when the same holds of a tool whose
      calls are reviewed. */
  lemma {:induction false} PreflightPassesExactly(a: Attempt, lib: Library)
    requires Sane(a, lib)
    ensures Preflight(a, lib) == Some(Status.Passed) <==> Admissible(a, lib)
    ensures Preflight(a, lib) == Some(Status.ReviewRequired) <==>
            && ValidProfile(a.profile, lib) && InputError(a.descriptor, a.request, a.transport).None?
            && Permitted(a, lib) && ReviewedOf(a).decisionMode == Str("review_required")
  {
    PreflightExactly(a, lib);
    if ValidProfile(a.profile, lib) && InputError(a.descriptor, a.request, a.transport).None? && Permitted(a, lib) {
      PermittedIsBuildable(a, lib);
    }
  }
}
