/** The preflight passes a call exactly when it is admissible. */
module McpPreflightExact {
  import opened Text
  import opened JsonTree
  import opened JsonPointer
  import opened JsonSchema
  import opened Artifacts
  import opened McpProfile
  import opened McpEnvelope
  import opened McpEnvelopeFacts
  import opened McpHostContext
  import opened McpAssessment
  import opened McpAssessmentFacts
  import opened McpVerdict
  import opened McpPreflight

  // ----- resources and findings -----

  ghost predicate SomeWorkspace(resources: seq<Json>) {
    exists r | r in resources :: r.Obj? && Get(r, "resource_type") == Str("workspace_path")
  }

  lemma {:induction false} WorkspaceExtend(bindings: seq<Json>, b: Json, arguments: Json, lib: Library)
    requires Pointed(bindings + [b]) && WellBehaved(lib) && BindingFine(b)
    requires Pointed(bindings) && (SomeWorkspace(ResourceTrees(bindings, arguments, lib)) <==> BindsWorkspace(bindings))
    ensures SomeWorkspace(ResourceTrees(bindings + [b], arguments, lib)) <==> BindsWorkspace(bindings + [b])
  {
    assert (bindings + [b])[..|bindings|] == bindings;
    WorkspaceTree(bindings, b, ResourceTrees(bindings, arguments, lib), arguments, lib);
  }

  lemma {:induction false} WorkspaceTrees(bindings: seq<Json>, arguments: Json, lib: Library)
    requires Pointed(bindings) && WellBehaved(lib) && forall b | b in bindings :: BindingFine(b)
    ensures SomeWorkspace(ResourceTrees(bindings, arguments, lib)) <==> BindsWorkspace(bindings)
    decreases |bindings|
  {
    if bindings != [] {
      var front, last := bindings[..|bindings| - 1], bindings[|bindings| - 1];
      assert bindings == front + [last] && last in bindings;
      assert forall b | b in front :: b in bindings;
      WorkspaceTrees(front, arguments, lib);
      WorkspaceExtend(front, last, arguments, lib);
    }
  }

  lemma {:induction false} WorkspaceTree(bindings: seq<Json>, b: Json, resources: seq<Json>, arguments: Json, lib: Library)
    requires BindingFine(b) && WellBehaved(lib)
    requires SomeWorkspace(resources) <==> BindsWorkspace(bindings)
    ensures SomeWorkspace(resources + [ResourceTree(b, arguments, lib)]) <==> BindsWorkspace(bindings + [b])
  {
    ResourceTreeFine(b, arguments, lib);
    WorkspaceStep(bindings, b, resources, ResourceTree(b, arguments, lib));
  }

  lemma {:induction false} WorkspaceStep(bindings: seq<Json>, b: Json, resources: seq<Json>, r: Json)
    requires SomeWorkspace(resources) <==> BindsWorkspace(bindings)
    requires r.Obj? && Get(r, "resource_type") == Get(b, "resource_type")
    ensures SomeWorkspace(resources + [r]) <==> BindsWorkspace(bindings + [b])
  {
    assert forall c :: c in bindings + [b] <==> c in bindings || c == b;
    assert forall s :: s in resources + [r] <==> s in resources || s == r;
  }

  lemma {:induction false} NoSensitivePaths(request: Json, lib: Library)
    requires WellFormed(request) && Arguments(request).Obj?
    ensures var meta := Get(Params(request), "_meta");
            SensitivePaths(request, lib) == [] <==>
            && (forall loc :: !SensitivePlace(Arguments(request), loc, lib.sens))
            && (meta.Obj? ==> forall loc :: !SensitivePlace(meta, loc, lib.sens))
  {
    var arguments, meta := Arguments(request), Get(Params(request), "_meta");
    RequestPartsWellFormed(request);
    ScanEmptyExactly(arguments, lib.sens);
    if meta.Obj? { ScanEmptyExactly(meta, lib.sens); }
    EmptySortedSet(FoundPaths(arguments, meta, lib));
    FoundNothing(arguments, meta, lib);
  }

  lemma {:induction false} EmptySortedSet(found: seq<string>)
    ensures SortedSet(found) == [] <==> found == []
  {
    assert found != [] ==> found[0] in SortedSet(found);
    assert SortedSet(found) != [] ==> SortedSet(found)[0] in found;
  }

  lemma {:induction false} FoundNothing(arguments: Json, meta: Json, lib: Library)
    ensures FoundPaths(arguments, meta, lib) == [] <==>
            Scan(arguments, "", lib.sens) == [] && (meta.Obj? ==> Scan(meta, "", lib.sens) == [])
  {
  }

  lemma {:induction false} ArgumentsConform(arguments: Json, descriptor: Json)
    requires WellFormed(arguments) && WellFormed(descriptor) && SchemaAccepted(Get(descriptor, "inputSchema"))
    ensures ValueFindings(arguments, Get(descriptor, "inputSchema"), "$") == [] <==> Conforms(arguments, Get(descriptor, "inputSchema"))
  {
    GetWellFormed(descriptor, "inputSchema");
    ValueCheckExact(arguments, Get(descriptor, "inputSchema"), "$");
  }

  /** A clean call, as the envelope finds it, is one with admissible arguments. */
  lemma {:induction false} CleanExact(a: Attempt, bindings: seq<Json>, lib: Library)
    requires WellFormed(a.descriptor) && WellFormed(a.request) && Arguments(a.request).Obj?
    requires SchemaAccepted(Get(a.descriptor, "inputSchema"))
    ensures ArgumentsAdmissible(a, bindings, lib) <==>
            && AllUsable(bindings, Arguments(a.request))
            && ValueFindings(Arguments(a.request), Get(a.descriptor, "inputSchema"), "$") == []
            && SensitivePaths(a.request, lib) == []
  {
    NoSensitivePaths(a.request, lib);
    RequestPartsWellFormed(a.request);
    ArgumentsConform(Arguments(a.request), a.descriptor);
  }

  // ----- the host's side -----

  lemma {:induction false} HostExact(k: Case, f: HostFacts, bindings: seq<Json>, lib: Library)
    requires TimesParse(f, lib) && ClockAgrees(lib) && k.envelope.sha.Str?
    requires Binds(k.context, k.envelope, f, lib) && FactsFine(f)
    requires k.envelope.protocolVersion.Str? && k.envelope.toolName.Str?
    requires k.envelope.inputSchemaSha.Str? && k.envelope.argumentsSha.Str? && k.envelope.resourcesSha.Str?
    requires TouchesWorkspace(k) <==> BindsWorkspace(bindings)
    requires AllTrue(TransportOutcomes(k))
    ensures HostPasses(k, lib) <==> HostAdmissible(f, k.tool, bindings, lib)
  {
    ServerExact(k, f);
    SchemaExact(k, f);
    CapabilitiesExactly(k, f);
    SortedNamesFine(f.scopeIds, false);
    ResolutionExact(k, f, bindings);
    ConsentExact(k, f, lib);
    TransactionExact(k, f);
  }

  // ----- the case of a built envelope and a built context -----

  /** What both builders leave behind for one attempt. */
  ghost predicate BuiltCase(k: Case, a: Attempt, lib: Library) {
    && k.profileValid && k.envelopeValid
    && k.profileId == Get(a.profile.data, "profile_id") && k.profileId.Str?
    && k.versions == Listed(Get(a.profile.data, "protocol_versions"))
    && CalledName(a).Str? && k.envelope.protocolVersion.Str? && k.envelope.sha.Str?
    && Shows(k.envelope, a, lib)
    && TimesParse(a.facts, lib)
    && Binds(k.context, k.envelope, a.facts, lib)
    && (k.contextValid <==> FactsFine(a.facts))
  }

  /** The tool's part: its bindings, and what they leave in the envelope. */
  ghost predicate ToolCase(k: Case, a: Attempt, resources: seq<Json>, findings: seq<Json>, lib: Library) {
    && k.toolKnown && ToolFieldsFine(k.tool)
    && k.envelope.resources == Arr(resources) && k.envelope.findings == Arr(findings)
    && AllFine(findings)
    && (SomeWorkspace(resources) <==> BindsWorkspace(k.tool.resourceBindings.items))
    && (ArgumentsAdmissible(a, k.tool.resourceBindings.items, lib) <==> findings == [])
    && (findings == [] ==> SensitivePaths(a.request, lib) == [])
  }

  lemma {:induction false} EnvelopePassesExactly(k: Case, a: Attempt, resources: seq<Json>, findings: seq<Json>, lib: Library)
    requires BuiltCase(k, a, lib) && ToolCase(k, a, resources, findings, lib)
    ensures EnvelopePasses(k) <==>
            && FactsFine(a.facts) && HashesMatch(a, k.tool, lib) && TransportAdmissible(a) && PlainCall(a)
            && ArgumentsSize(a) <= k.tool.maxArgumentsBytes.n
            && ArgumentsAdmissible(a, k.tool.resourceBindings.items, lib)
    ensures EnvelopePasses(k) ==> AllTrue(TransportOutcomes(k))
    ensures TransportAdmissible(a) ==> AllTrue(TransportOutcomes(k))
  {
    InputsExact(k);
    HashesExact(k, a, lib);
    TransportExact(k, a);
    ContentExact(k, a, findings, lib);
  }

  lemma {:induction false} TouchesExactly(k: Case, resources: seq<Json>)
    requires k.envelope.resources == Arr(resources)
    ensures TouchesWorkspace(k) <==> SomeWorkspace(resources)
  {
  }

  lemma {:induction false} HostPassesExactly(k: Case, a: Attempt, resources: seq<Json>, findings: seq<Json>, lib: Library)
    requires BuiltCase(k, a, lib) && ToolCase(k, a, resources, findings, lib) && ClockAgrees(lib)
    requires FactsFine(a.facts) && AllTrue(TransportOutcomes(k))
    ensures HostPasses(k, lib) <==> HostAdmissible(a.facts, k.tool, k.tool.resourceBindings.items, lib)
  {
    TouchesExactly(k, resources);
    HostExact(k, a.facts, k.tool.resourceBindings.items, lib);
  }

  lemma {:induction false} CaseExact(k: Case, a: Attempt, resources: seq<Json>, findings: seq<Json>, lib: Library)
    requires BuiltCase(k, a, lib) && ToolCase(k, a, resources, findings, lib) && ClockAgrees(lib)
    ensures Satisfied(k, lib) <==> AdmissibleFor(a, k.tool, lib)
  {
    EnvelopePassesExactly(k, a, resources, findings, lib);
    if FactsFine(a.facts) && AllTrue(TransportOutcomes(k)) {
      HostPassesExactly(k, a, resources, findings, lib);
    }
  }

  // ----- from the builders to the case -----

  function EnvelopeFor(a: Attempt, lib: Library): Envelope
    requires BindingsOf(a.profile, a.request).Some? ==> Pointed(BindingsOf(a.profile, a.request).value)
  {
    CheckedEnvelope(a.profile, a.descriptor, a.request, a.transport, lib)
  }

  lemma {:induction false} EnvelopeShows(a: Attempt, lib: Library)
    requires BindingsOf(a.profile, a.request).Some? ==> Pointed(BindingsOf(a.profile, a.request).value)
    requires WellBehaved(lib)
    ensures var e := EnvelopeFor(a, lib);
            && Shows(e, a, lib)
            && e.resources == Arr(EnvelopeResources(a.profile, a.request, lib))
            && e.findings == Arr(EnvelopeFindings(a.profile, a.descriptor, a.request, lib))
  {
    DraftShows(a, PartsOf(a.profile, a.descriptor, a.request, a.transport, lib), lib);
  }

  /** The case that an attempt's envelope and context make. */
  function CaseMade(a: Attempt, e: Envelope, c: Context, lib: Library): Case {
    CaseFor(a.profile, EnvelopeTree(e), ContextTree(c), lib)
  }

  lemma {:induction false} CaseReads(a: Attempt, e: Envelope, c: Context, lib: Library)
    ensures var k := CaseMade(a, e, c, lib);
            && k.envelope == e && k.context == c
            && k.profileValid == ValidProfile(a.profile, lib)
            && k.envelopeValid == ValidEnvelope(EnvelopeTree(e), lib)
            && k.contextValid == ValidContext(ContextTree(c), lib)
            && k.profileId == Get(a.profile.data, "profile_id")
            && k.versions == Listed(Get(a.profile.data, "protocol_versions"))
            && k.toolKnown == ToolFor(a.profile, e.toolName).Some?
            && k.tool == ReadTool(if k.toolKnown then ToolFor(a.profile, e.toolName).value else Obj([]))
  {
    EnvelopeReadsBack(e);
    ContextReadsBack(c);
  }

  // ----- the tool's part of the case -----

  lemma {:induction false} UsableBindings(bindings: seq<Json>, arguments: Json)
    requires Pointed(bindings)
    ensures AllUsable(bindings, arguments) <==> forall b | b in bindings :: Select(b, arguments).Usable?
  {
  }

  lemma {:induction false} FindingsExact(a: Attempt, bindings: seq<Json>, lib: Library)
    requires WellBehaved(lib) && WellFormed(a.descriptor) && WellFormed(a.request) && Arguments(a.request).Obj?
    requires SchemaAccepted(Get(a.descriptor, "inputSchema"))
    requires BindingsOf(a.profile, a.request) == Some(bindings) && BindingsFine(bindings) && Pointed(bindings)
    ensures var findings := EnvelopeFindings(a.profile, a.descriptor, a.request, lib);
            && AllFine(findings)
            && (ArgumentsAdmissible(a, bindings, lib) <==> findings == [])
            && (findings == [] ==> SensitivePaths(a.request, lib) == [])
  {
    SensitivePathsFine(a.request, lib);
    EnvelopeFindingsFine(a.profile, a.descriptor, a.request, lib);
    UsableBindings(bindings, Arguments(a.request));
    CleanExact(a, bindings, lib);
  }

  lemma {:induction false} ReviewedBindings(a: Attempt, lib: Library)
    requires ValidProfile(a.profile, lib) && ToolReviewed(a)
    ensures ToolFieldsFine(ReviewedOf(a)) && BindingsFine(ReviewedOf(a).resourceBindings.items)
    ensures BindingsOf(a.profile, a.request) == Some(ReviewedOf(a).resourceBindings.items)
    ensures Pointed(ReviewedOf(a).resourceBindings.items)
  {
    ReviewedTool(a.profile, lib, CalledName(a).s);
  }

  lemma {:induction false} WorkspaceExact(a: Attempt, bindings: seq<Json>, lib: Library)
    requires BindingsOf(a.profile, a.request) == Some(bindings) && BindingsFine(bindings) && Pointed(bindings)
    requires WellBehaved(lib)
    ensures SomeWorkspace(EnvelopeResources(a.profile, a.request, lib)) <==> BindsWorkspace(bindings)
  {
    WorkspaceTrees(bindings, Arguments(a.request), lib);
  }

  lemma {:induction false} ToolCaseHolds(k: Case, a: Attempt, bindings: seq<Json>, lib: Library)
    requires WellBehaved(lib) && WellFormed(a.descriptor) && WellFormed(a.request) && Arguments(a.request).Obj?
    requires SchemaAccepted(Get(a.descriptor, "inputSchema"))
    requires k.toolKnown && ToolFieldsFine(k.tool) && k.tool.resourceBindings == Arr(bindings)
    requires BindingsOf(a.profile, a.request) == Some(bindings) && BindingsFine(bindings) && Pointed(bindings)
    requires k.envelope.resources == Arr(EnvelopeResources(a.profile, a.request, lib))
    requires k.envelope.findings == Arr(EnvelopeFindings(a.profile, a.descriptor, a.request, lib))
    ensures ToolCase(k, a, EnvelopeResources(a.profile, a.request, lib), EnvelopeFindings(a.profile, a.descriptor, a.request, lib), lib)
  {
    FindingsExact(a, bindings, lib);
    WorkspaceExact(a, bindings, lib);
  }

  lemma {:induction false} ToolForCalled(a: Attempt)
    requires CalledName(a).Str?
    ensures ToolFor(a.profile, CalledName(a)).Some? <==> ToolReviewed(a)
    ensures ToolReviewed(a) ==> ToolFor(a.profile, CalledName(a)).value == ToolMap(ToolList(a.profile))[CalledName(a).s]
  {
  }

  lemma {:induction false} UnknownToolVerdict(k: Case, lib: Library)
    requires !k.toolKnown && k.profileValid && k.envelopeValid
    ensures Verdict(k, Checks(k, lib)) == if k.contextValid then Status.Refused else Status.Invalid
  {
    UnknownToolFails(k, lib);
  }

  lemma {:induction false} DecisionModes(t: Tool)
    requires ToolFieldsFine(t)
    ensures t.decisionMode != Str("review_required") <==> t.decisionMode == Str("allow")
  {
  }

  /** The verdict on a built case, for a call of a reviewed tool. */
  lemma {:induction false} ReviewedVerdict(k: Case, a: Attempt, resources: seq<Json>, findings: seq<Json>, lib: Library)
    requires BuiltCase(k, a, lib) && ToolCase(k, a, resources, findings, lib) && ClockAgrees(lib)
    ensures Verdict(k, Checks(k, lib)) == DecisionFor(a, k.tool, lib)
  {
    CaseExact(k, a, resources, findings, lib);
    VerdictMeans(k, lib);
  }

  lemma {:induction false} BuiltCaseHolds(k: Case, a: Attempt, lib: Library)
    requires k.profileValid && k.envelopeValid && k.profileId == Get(a.profile.data, "profile_id") && k.profileId.Str?
    requires k.versions == Listed(Get(a.profile.data, "protocol_versions"))
    requires CalledName(a).Str? && Get(a.transport, "protocol_version").Str?
    requires Shows(k.envelope, a, lib) && TimesParse(a.facts, lib)
    requires k.context == SealContext(DraftContext(k.envelope, a.facts, lib), lib)
    requires k.contextValid <==> FactsFine(a.facts)
    ensures BuiltCase(k, a, lib)
  {
    ContextBinds(k.envelope, a.facts, lib);
  }

  /** What the builders' parts amount to for a reviewed tool. */
  ghost predicate ReviewedParts(k: Case, a: Attempt, bindings: seq<Json>, lib: Library) {
    && k.toolKnown && ToolFieldsFine(k.tool) && k.tool.resourceBindings == Arr(bindings)
    && BindingsOf(a.profile, a.request) == Some(bindings) && BindingsFine(bindings) && Pointed(bindings)
    && k.envelope.resources == Arr(EnvelopeResources(a.profile, a.request, lib))
    && k.envelope.findings == Arr(EnvelopeFindings(a.profile, a.descriptor, a.request, lib))
  }

  lemma {:induction false} KnownVerdict(k: Case, a: Attempt, bindings: seq<Json>, lib: Library)
    requires WellBehaved(lib) && ClockAgrees(lib) && WellFormed(a.descriptor) && WellFormed(a.request)
    requires Arguments(a.request).Obj? && SchemaAccepted(Get(a.descriptor, "inputSchema"))
    requires BuiltCase(k, a, lib) && ReviewedParts(k, a, bindings, lib)
    ensures Verdict(k, Checks(k, lib)) == DecisionFor(a, k.tool, lib)
  {
    ToolCaseHolds(k, a, bindings, lib);
    ReviewedVerdict(k, a, EnvelopeResources(a.profile, a.request, lib), EnvelopeFindings(a.profile, a.descriptor, a.request, lib), lib);
  }
}
