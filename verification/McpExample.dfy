/** One call of the example tool by one host: the conditions of the preflight can be met
    together, and the call passes. */
module McpExample {
  import opened Text
  import opened JsonTree
  import opened CanonicalJson
  import opened JsonPointer
  import opened JsonSchema
  import opened Artifacts
  import opened McpProfile
  import opened McpEnvelope
  import opened McpHostContext
  import opened McpAssessment
  import opened McpVerdict
  import opened McpPreflight
  import opened McpPreflightTheorem
  import opened McpExampleProfile

  // ----- the call -----

  function CallArguments(): Json { One("x", Str("v")) }

  function CallParams(): Json { Two("name", Str("t"), "arguments", CallArguments()) }

  function CallRequest(params: Json): Json { Obj(Record(REQUEST_KEYS, [Str("2.0"), Str("1"), Str("tools/call"), params])) }

  const TRANSPORT_INPUT_KEYS := ["protocol_version", "method_header", "name_header"]

  function CallTransport(): Json { Obj(Record(TRANSPORT_INPUT_KEYS, [Str(NEWEST), Str("tools/call"), Str("t")])) }

  lemma {:induction false} RequestKeysDiffer()
    ensures DistinctKeys(REQUEST_KEYS)
  {
    assert forall i, j | 0 <= i < j < |REQUEST_KEYS| :: REQUEST_KEYS[i] != REQUEST_KEYS[j];
  }

  lemma {:induction false} NamedRequestFields(r: Json, values: seq<Json>)
    requires |values| == 4 && Fields(r, REQUEST_KEYS) == values
    ensures Get(r, "jsonrpc") == values[0] && Get(r, "id") == values[1] && Get(r, "method") == values[2] && Get(r, "params") == values[3]
  {
    var f := Fields(r, REQUEST_KEYS);
    assert f[0] == values[0] && f[1] == values[1] && f[2] == values[2] && f[3] == values[3];
  }

  lemma {:induction false} RequestReads(params: Json)
    ensures var r := CallRequest(params);
            && OnlyKeys(r, REQUEST_KEYS) && Get(r, "jsonrpc") == Str("2.0") && Get(r, "id") == Str("1")
            && Get(r, "method") == Str("tools/call") && Get(r, "params") == params
            && (WellFormed(params) ==> WellFormed(r))
  {
    var values := [Str("2.0"), Str("1"), Str("tools/call"), params];
    RequestKeysDiffer();
    RecordReadsBack(REQUEST_KEYS, values);
    NamedRequestFields(CallRequest(params), values);
  }

  lemma {:induction false} CallTransportReads()
    ensures var t := CallTransport();
            Get(t, "protocol_version") == Str(NEWEST) && Get(t, "method_header") == Str("tools/call") && Get(t, "name_header") == Str("t")
  {
    var values := [Str(NEWEST), Str("tools/call"), Str("t")];
    assert forall i, j | 0 <= i < j < 3 :: TRANSPORT_INPUT_KEYS[i] != TRANSPORT_INPUT_KEYS[j];
    RecordReadsBack(TRANSPORT_INPUT_KEYS, values);
    var f := Fields(CallTransport(), TRANSPORT_INPUT_KEYS);
    assert f[0] == values[0] && f[1] == values[1] && f[2] == values[2];
  }

  /** What the request says. */
  ghost predicate Calls(request: Json, arguments: Json) {
    && OnlyKeys(request, REQUEST_KEYS) && Get(request, "jsonrpc") == Str("2.0") && Get(request, "id") == Str("1")
    && Get(request, "method") == Str("tools/call")
    && Params(request).Obj? && OnlyKeys(Params(request), PARAM_KEYS)
    && Get(Params(request), "name") == Str("t") && Arguments(request) == arguments
    && !Has(Params(request), "task") && !Has(Params(request), "inputResponses") && !Has(Params(request), "requestState")
    && Get(Params(request), "_meta").Null?
  }

  lemma {:induction false} ParamsRead(params: Json)
    requires params == CallParams()
    ensures params.Obj? && OnlyKeys(params, PARAM_KEYS) && Get(params, "name") == Str("t")
    ensures Has(params, "arguments") && Get(params, "arguments") == CallArguments() && WellFormed(params)
    ensures forall j | j != "name" && j != "arguments" :: !Has(params, j) && Get(params, j).Null?
  {
    OneReads("x", Str("v"));
    TwoReads("name", Str("t"), "arguments", CallArguments());
    assert PARAM_KEYS[0] == "name" && PARAM_KEYS[1] == "arguments";
  }

  lemma {:induction false} PresentField(v: Json, k: string, d: Json)
    requires Has(v, k)
    ensures GetOr(v, k, d) == Get(v, k)
  {
  }

  lemma {:induction false} CallsFrom(request: Json, params: Json, arguments: Json)
    requires OnlyKeys(request, REQUEST_KEYS) && Get(request, "jsonrpc") == Str("2.0") && Get(request, "id") == Str("1")
    requires Get(request, "method") == Str("tools/call") && Get(request, "params") == params
    requires params.Obj? && OnlyKeys(params, PARAM_KEYS) && Get(params, "name") == Str("t")
    requires Has(params, "arguments") && Get(params, "arguments") == arguments
    requires forall j | j != "name" && j != "arguments" :: !Has(params, j) && Get(params, j).Null?
    ensures Calls(request, arguments)
  {
    PresentField(params, "arguments", Obj([]));
  }

  lemma {:induction false} RequestCalls(request: Json, params: Json)
    requires params == CallParams() && request == CallRequest(params)
    ensures Calls(request, CallArguments()) && WellFormed(request)
  {
    ParamsRead(params);
    RequestReads(params);
    CallsFrom(request, params, CallArguments());
  }

  lemma {:induction false} CallEnters(d: Json, request: Json, arguments: Json, transport: Json)
    requires DescriptorValid(d) && Calls(request, arguments) && arguments.Obj? && Get(transport, "protocol_version").Str?
    requires SafeToolName(Str("t"))
    ensures InputError(d, request, transport).None?
  {
  }

  // ----- its arguments -----

  lemma {:induction false} TextConforms(s: Json, text: string)
    requires Bare(s) && TypeOf(s).StringT?
    ensures Conforms(Str(text), s)
  {
    assert !Has(s, "const") && !Get(s, "enum").Arr? && Get(s, "minLength").Null? && Get(s, "maxLength").Null?;
  }

  lemma {:induction false} OneMemberConforms(v: Json, s: Json, k: string, x: Json, part: Json)
    requires Bare(s) && TypeOf(s).ObjectT? && Has(s, "properties") && Get(s, "properties") == One(k, part)
    requires v == One(k, x) && Conforms(x, part)
    ensures Conforms(v, s)
  {
    OneReads(k, x);
    OneReads(k, part);
    assert !Has(s, "const") && !Get(s, "enum").Arr? && !Has(s, "required");
    assert Required(s) == Arr([]) && Properties(s) == One(k, part);
  }

  lemma {:induction false} ArgumentsAreConform()
    ensures Conforms(CallArguments(), ArgumentsSchema())
  {
    TextSchemaReads();
    TextConforms(TextSchema(), "v");
    SchemaReads();
    OneMemberConforms(CallArguments(), ArgumentsSchema(), "x", Str("v"), TextSchema());
  }

  lemma {:induction false} SizeBound(s: string)
    ensures Utf8Size(s) <= 4 * |s|
  {
    if s != "" { SizeBound(s[1..]); }
  }

  lemma {:induction false} OneIsNormal(k: string, text: string)
    ensures Norm(One(k, Str(text))) == One(k, Str(text))
  {
    var ms := [Member(k, Str(text))];
    assert NormMember(ms[0]) == ms[0];
    assert NormMembers(ms) == [NormMember(ms[0])] + NormMembers(ms[1..]) && NormMembers(ms[1..]) == [];
    assert SortBy(KeyOf, ms) == ms;
  }

  lemma {:induction false} EscapedLength(s: string)
    ensures |EscapeText(s)| <= 6 * |s|
  {
    if s != "" { EscapedLength(s[1..]); }
  }

  lemma {:induction false} SmallArguments(v: Json)
    requires v == CallArguments()
    ensures Utf8Size(CanonicalText(Norm(v))) <= 1000
  {
    OneIsNormal("x", "v");
    EscapedLength("x");
    EscapedLength("v");
    assert |PrintMember(v.members[0])| <= 20;
    assert |Print(v)| <= 30;
    SizeBound(Print(v));
  }

  lemma {:induction false} PointerOfX(loc: seq<Step>)
    requires loc == [Key("x")]
    ensures Pointer(loc) == "/x"
  {
    assert "x"[1..] == "" && ReplaceChar("x", '~', "~0") == "x" && ReplaceChar("x", '/', "~1") == "x";
    assert EscapeKey("x") == "x" && loc[1..] == [] && Pointer(loc[1..]) == "";
  }

  lemma {:induction false} FoundAtX(v: Json, loc: seq<Step>)
    requires v == CallArguments() && loc == [Key("x")]
    ensures At(v, loc) == Some(Str("v"))
  {
    OneReads("x", Str("v"));
    assert loc[1..] == [];
  }

  lemma {:induction false} XResolves(v: Json)
    requires v == CallArguments()
    ensures PointerGet(v, "/x") == Some(Str("v"))
  {
    PointerOfX([Key("x")]);
    FoundAtX(v, [Key("x")]);
    PointerFindsPlace(v, [Key("x")]);
  }

  lemma {:induction false} OpaqueSelects(b: Json, v: Json, pointer: string, text: string)
    requires Get(b, "pointer") == Str(pointer) && Get(b, "resource_type") == Str("opaque")
    requires PointerGet(v, pointer) == Some(Str(text)) && text != ""
    ensures AllUsable([b], v) && !BindsWorkspace([b])
  {
  }

  lemma {:induction false} BindingUsable(b: Json, v: Json)
    requires b == Binding() && v == CallArguments()
    ensures AllUsable([b], v) && !BindsWorkspace([b])
  {
    BindingReads();
    XResolves(v);
    OpaqueSelects(b, v, "/x", "v");
  }

  /** Nothing is taken for a credential. */
  ghost predicate NothingSensitive(sens: Sensitivity) { forall s :: !sens.key(s) && !sens.text(s) }

  lemma {:induction false} NoPlaceSensitive(v: Json, sens: Sensitivity)
    requires NothingSensitive(sens)
    ensures forall loc :: !SensitivePlace(v, loc, sens)
  {
  }

  // ----- the host -----

  function HostOf(): HostFacts {
    HostFacts("host", "actor", "now", "server", "origin", "audience", true, "validator", "passed", ["cap.compute.local"],
              ["scope"], "passed", true, "approved", "now", "until", None, None, None)
  }

  lemma {:induction false} HostWords()
    ensures PlainWord("host") && PlainWord("actor") && PlainWord("validator") && PlainWord("scope")
  {
  }

  lemma {:induction false} HostNamesSafe()
    ensures SafeToken(Str("host")) && SafeToken(Str("actor")) && SafeToken(Str("validator")) && SafeToken(Str("scope"))
  {
    HostWords();
    PlainIsSafe("host");
    PlainIsSafe("actor");
    PlainIsSafe("validator");
    PlainIsSafe("scope");
  }

  lemma {:induction false} FactsAreFine(f: HostFacts)
    requires f == HostOf()
    ensures FactsFine(f)
  {
    HostNamesSafe();
    ToolNamesSafe();
    assert STATUSES[0] == "passed" && DECISIONS[0] == "approved";
  }

  /** A library whose clock reads the host's two times in order. */
  ghost predicate ReadsTimes(lib: Library) { lib.instant("now") == Some(0) && lib.instant("until") == Some(1) }

  lemma {:induction false} OneString(s: string)
    ensures forall x :: x in Strings(Arr([Str(s)])) <==> x == s
  {
  }

  lemma {:induction false} HostIsAdmissible(f: HostFacts, t: Tool, d: Json, s: Json, bindings: seq<Json>, lib: Library)
    requires f == HostOf() && t == ComputeTool(d, s, lib) && ReadsTimes(lib)
    requires !BindsWorkspace(bindings)
    ensures HostAdmissible(f, t, bindings, lib)
  {
    FactsAreFine(f);
    OneString("cap.compute.local");
    assert forall x :: x in f.grants <==> x == "cap.compute.local";
  }

  // ----- the call passes -----

  lemma {:induction false} NoHints(d: Json, t: Tool)
    requires Get(d, "annotations").Null?
    ensures HintsHonest(Norm(ObjectOrEmpty(Get(d, "annotations"))), t)
  {
    assert Norm(Obj([])) == Obj(SortBy(KeyOf, NormMembers([])));
    assert SortBy(KeyOf, NormMembers([])) == [];
    var v := Obj([]);
    Absent(v, "readOnlyHint");
    Absent(v, "destructiveHint");
    Absent(v, "openWorldHint");
    Absent(v, "idempotentHint");
  }

  lemma {:induction false} ArgumentsFit(a: Attempt, v: Json, bindings: seq<Json>, s: Json, lib: Library)
    requires Calls(a.request, v) && Get(a.descriptor, "inputSchema") == s && Conforms(v, s) && NothingSensitive(lib.sens)
    requires AllUsable(bindings, v)
    ensures ArgumentsAdmissible(a, bindings, lib)
  {
    NoPlaceSensitive(v, lib.sens);
  }

  lemma {:induction false} PlainlyCalled(a: Attempt, v: Json)
    requires Calls(a.request, v) && Get(a.descriptor, "execution").Null?
    ensures PlainCall(a)
  {
    Absent(Obj([]), "taskSupport");
  }

  lemma {:induction false} NewestTransport(a: Attempt, v: Json)
    requires Calls(a.request, v) && a.transport == CallTransport() && Get(a.profile.data, "protocol_versions") == Arr([Str(NEWEST)])
    ensures TransportAdmissible(a)
  {
    CallTransportReads();
  }

  /** The parts of one attempt, with what is known of each. */
  ghost predicate Fits(a: Attempt, t: Tool, v: Json, b: Json, s: Json, lib: Library) {
    && Describes(a.descriptor, s) && Get(a.descriptor, "annotations").Null? && Get(a.descriptor, "execution").Null?
    && t == ComputeTool(a.descriptor, s, lib) && b == Binding()
    && Calls(a.request, v) && v == CallArguments() && Conforms(v, s)
    && a.transport == CallTransport() && a.facts == HostOf()
    && Get(a.profile.data, "protocol_versions") == Arr([Str(NEWEST)])
    && NothingSensitive(lib.sens) && ReadsTimes(lib)
  }

  lemma {:induction false} ToolShows(t: Tool, d: Json, s: Json, lib: Library)
    requires t == ComputeTool(d, s, lib)
    ensures t.descriptorSha == Str(Digest(d, lib)) && t.inputSchemaSha == Str(Digest(s, lib)) && t.outputSchemaSha.Null?
    ensures t.resourceBindings == Arr([Binding()]) && t.maxArgumentsBytes == Int(1_000_000) && t.decisionMode == Str("allow")
  {
  }

  lemma {:induction false} FittingArguments(a: Attempt, v: Json, b: Json, bindings: seq<Json>, s: Json, lib: Library)
    requires Calls(a.request, v) && v == CallArguments() && Get(a.descriptor, "inputSchema") == s && Conforms(v, s)
    requires b == Binding() && bindings == [b] && NothingSensitive(lib.sens)
    ensures ArgumentsAdmissible(a, bindings, lib) && !BindsWorkspace(bindings)
  {
    BindingUsable(b, v);
    ArgumentsFit(a, v, bindings, s, lib);
  }

  lemma {:induction false} FittingSize(a: Attempt, v: Json)
    requires Arguments(a.request) == v && v == CallArguments()
    ensures ArgumentsSize(a) <= 1_000_000
  {
    SmallArguments(v);
  }

  lemma {:induction false} FittingHashes(a: Attempt, t: Tool, s: Json, lib: Library)
    requires t.descriptorSha == Str(Digest(a.descriptor, lib)) && t.inputSchemaSha == Str(Digest(s, lib)) && t.outputSchemaSha.Null?
    requires Get(a.descriptor, "inputSchema") == s && Get(a.descriptor, "outputSchema").Null?
    ensures HashesMatch(a, t, lib)
  {
  }

  lemma {:induction false} Assembled(a: Attempt, t: Tool, bindings: seq<Json>, lib: Library)
    requires HashesMatch(a, t, lib) && TransportAdmissible(a) && PlainCall(a)
    requires t.maxArgumentsBytes == Int(1_000_000) && ArgumentsSize(a) <= 1_000_000 && t.resourceBindings == Arr(bindings)
    requires ArgumentsAdmissible(a, bindings, lib) && HintsHonest(DeclaredAnnotations(a), t) && HostAdmissible(a.facts, t, bindings, lib)
    ensures AdmissibleFor(a, t, lib)
  {
  }

  lemma {:induction false} FittingIsAdmissible(a: Attempt, t: Tool, v: Json, b: Json, bindings: seq<Json>, s: Json, lib: Library)
    requires Fits(a, t, v, b, s, lib) && bindings == [b]
    ensures AdmissibleFor(a, t, lib)
  {
    ToolShows(t, a.descriptor, s, lib);
    FittingHashes(a, t, s, lib);
    FittingArguments(a, v, b, bindings, s, lib);
    FittingSize(a, v);
    NewestTransport(a, v);
    PlainlyCalled(a, v);
    NoHints(a.descriptor, t);
    HostIsAdmissible(a.facts, t, a.descriptor, s, bindings, lib);
    Assembled(a, t, bindings, lib);
  }

  lemma {:induction false} CalledToolIs(a: Attempt, t: Tool, v: Json, tool: Json)
    requires Calls(a.request, v) && ToolMap(ToolList(a.profile)) == map["t" := tool] && tool == ToolTree(t)
    ensures ToolReviewed(a) && ReviewedOf(a) == t
  {
    ToolReadsBack(t);
  }

  lemma {:induction false} FittingIsGranted(a: Attempt, t: Tool, v: Json, b: Json, s: Json, tool: Json, lib: Library)
    requires Fits(a, t, v, b, s, lib) && ToolMap(ToolList(a.profile)) == map["t" := tool] && tool == ToolTree(t)
    ensures Granted(a, lib)
  {
    ToolShows(t, a.descriptor, s, lib);
    FittingIsAdmissible(a, t, v, b, [b], s, lib);
    CalledToolIs(a, t, v, tool);
  }

  lemma {:induction false} FittingEnters(a: Attempt, t: Tool, v: Json, b: Json, s: Json, lib: Library)
    requires Fits(a, t, v, b, s, lib)
    ensures InputError(a.descriptor, a.request, a.transport).None?
  {
    ToolNamesSafe();
    CallTransportReads();
    CallEnters(a.descriptor, a.request, v, a.transport);
  }

  /** The example profile, with what is known of it. */
  lemma {:induction false} ExampleProfile(lib: Library) returns (p: Profile, t: Tool, d: Json, s: Json)
    requires WellBehaved(lib)
    ensures ValidProfile(p, lib) && ToolMap(ToolList(p)) == map["t" := ToolTree(t)]
    ensures Get(p.data, "protocol_versions") == Arr([Str(NEWEST)])
    ensures d == Descriptor() && s == ArgumentsSchema() && t == ComputeTool(d, s, lib)
  {
    d, s := Descriptor(), ArgumentsSchema();
    t := ComputeTool(d, s, lib);
    var policies := Policies();
    p := Profile(ProfileData(ToolTree(t), policies, lib), (v: Json) => if v == Str("t.json") then Some(d) else None);
    DescriptorDescribes(d, s);
    PoliciesAreFine();
    ProfileDataIs(ToolTree(t), policies, lib);
    ProfileIsValid(p, ToolTree(t), d, s, policies, lib);
  }

  /** Some attempt is admissible, and the preflight passes it. */
  lemma {:induction false} SomeCallPasses(lib: Library) returns (a: Attempt)
    requires WellBehaved(lib) && ClockAgrees(lib) && NothingSensitive(lib.sens) && ReadsTimes(lib)
    ensures Admissible(a, lib) && Preflight(a, lib) == Some(Status.Passed)
  {
    var p, t, d, s := ExampleProfile(lib);
    var params := CallParams();
    a := Attempt(p, d, CallRequest(params), CallTransport(), HostOf());
    RequestCalls(a.request, params);
    DescriptorDescribes(d, s);
    ArgumentsAreConform();
    FittingIsGranted(a, t, CallArguments(), Binding(), s, ToolTree(t), lib);
    FittingEnters(a, t, CallArguments(), Binding(), s, lib);
    PreflightPassesExactly(a, lib);
  }

  // ----- such libraries exist -----

  function ZeroHash(): string { "sha256:" + seq(64, i => '0') }

  function PlainLibrary(): Library {
    Library((s: string) => ZeroHash(),
            (s: string) => if s == "now" then Some(0) else if s == "until" then Some(1) else None,
            (n: int) => if n == 0 then "now" else "until",
            Sensitivity((s: string) => false, (s: string) => false),
            (n: Notice) => "m")
  }

  lemma {:induction false} PlainLibraryFits()
    ensures var lib := PlainLibrary(); WellBehaved(lib) && ClockAgrees(lib) && NothingSensitive(lib.sens) && ReadsTimes(lib)
  {
    assert IsSha(Str(ZeroHash()));
    assert "now" != "until";
  }

  /** So the chain can end in a pass. */
  lemma {:induction false} PassIsPossible() returns (a: Attempt, lib: Library)
    ensures WellBehaved(lib) && ClockAgrees(lib) && Admissible(a, lib) && Preflight(a, lib) == Some(Status.Passed)
  {
    lib := PlainLibrary();
    PlainLibraryFits();
    a := SomeCallPasses(lib);
  }
}
