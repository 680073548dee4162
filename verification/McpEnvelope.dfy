/** src/ainir/mcp_tool_call.py: the normalized envelope of a proposed tool call,
    how it is built and how it is validated. */
module McpEnvelope {
  import opened Text
  import opened JsonTree
  import opened CanonicalJson
  import opened JsonPointer
  import opened JsonSchema
  import opened WorkspacePath
  import opened Artifacts
  import opened McpProfile

  const ENVELOPE_KEYS := [
    "kind", "version", "profile_id", "protocol_version", "jsonrpc_request_id", "method", "tool_name",
    "descriptor_sha256", "input_schema_sha256", "output_schema_sha256", "arguments",
    "arguments_sha256", "arguments_size", "untrusted_metadata", "transport_observations",
    "requested_resources", "requested_resources_sha256", "sensitive_argument_paths",
    "task_requested", "mrtr_input_responses_present", "normalization_findings",
    "production_runtime_ready", "envelope_sha256", "envelope_id"]

  const ENVELOPE_OWN_KEYS := {"envelope_id", "envelope_sha256"}

  const METADATA_KEYS := ["title", "description_sha256", "annotations", "execution", "client_meta_sha256"]

  const TRANSPORT_KEYS := ["method_header", "name_header"]

  const RESOURCE_KEYS := ["pointer", "resource_type", "permission", "raw_value", "normalized_value", "status", "error"]

  const FINDING_KEYS := ["rule", "severity", "target", "message"]

  const ENVELOPE_PREFIX := "ainir.mcp.envelope."

  datatype Envelope = Envelope(
    kind: Json, version: Json, profileId: Json, protocolVersion: Json, requestId: Json,
    callMethod: Json, toolName: Json, descriptorSha: Json, inputSchemaSha: Json,
    outputSchemaSha: Json, arguments: Json, argumentsSha: Json, argumentsSize: Json,
    metadata: Json, transport: Json, resources: Json, resourcesSha: Json, sensitivePaths: Json,
    taskRequested: Json, mrtrPresent: Json, findings: Json, productionReady: Json, sha: Json, id: Json)

  function EnvelopeValues(e: Envelope): (r: seq<Json>)
    ensures |r| == 24
  {
    [e.kind, e.version, e.profileId, e.protocolVersion, e.requestId, e.callMethod, e.toolName,
     e.descriptorSha, e.inputSchemaSha, e.outputSchemaSha, e.arguments, e.argumentsSha,
     e.argumentsSize, e.metadata, e.transport, e.resources, e.resourcesSha, e.sensitivePaths,
     e.taskRequested, e.mrtrPresent, e.findings, e.productionReady, e.sha, e.id]
  }

  function EnvelopeTree(e: Envelope): Json { Obj(Record(ENVELOPE_KEYS, EnvelopeValues(e))) }

  function ReadEnvelope(v: Json): Envelope {
    var f := Fields(v, ENVELOPE_KEYS);
    Envelope(f[0], f[1], f[2], f[3], f[4], f[5], f[6], f[7], f[8], f[9], f[10], f[11],
             f[12], f[13], f[14], f[15], f[16], f[17], f[18], f[19], f[20], f[21], f[22], f[23])
  }

  lemma {:induction false} EnvelopeKeysDiffer()
    ensures DistinctKeys(ENVELOPE_KEYS)
  {
    assert forall i, j | 0 <= i < j < |ENVELOPE_KEYS| :: ENVELOPE_KEYS[i] != ENVELOPE_KEYS[j];
  }

  lemma {:induction false} EnvelopeReadsBack(e: Envelope)
    ensures ReadEnvelope(EnvelopeTree(e)) == e
    ensures OnlyKeys(EnvelopeTree(e), ENVELOPE_KEYS) && Distinct(EnvelopeTree(e).members)
  {
    EnvelopeKeysDiffer();
    RecordReadsBack(ENVELOPE_KEYS, EnvelopeValues(e));
  }

  /** The hash covers everything but the hash and the id made from it. */
  function EnvelopeDigest(v: Json, lib: Library): string
    requires v.Obj?
  {
    ProjectionDigest(v, ENVELOPE_OWN_KEYS, lib)
  }

  function SealEnvelope(e: Envelope, lib: Library): Envelope {
    var digest := EnvelopeDigest(EnvelopeTree(e), lib);
    e.(sha := Str(digest), id := Str(IdFor(ENVELOPE_PREFIX, digest)))
  }

  lemma {:induction false} SealKeepsDigest(e: Envelope, lib: Library)
    ensures EnvelopeDigest(EnvelopeTree(SealEnvelope(e, lib)), lib) == EnvelopeDigest(EnvelopeTree(e), lib)
  {
    var v, w := EnvelopeValues(e), EnvelopeValues(SealEnvelope(e, lib));
    assert forall i | 0 <= i < 22 :: v[i] == w[i];
    ProjectIgnoresDropped(ENVELOPE_KEYS, v, w, ENVELOPE_OWN_KEYS);
  }

  // ----- validation -----

  function CharSize(c: char): nat {
    if c < 0x80 as char then 1 else if c < 0x800 as char then 2 else if c < 0x10000 as char then 3 else 4
  }

  /** `len(s.encode("utf-8"))`. */
  function Utf8Size(s: string): nat {
    if s == "" then 0 else CharSize(s[0]) + Utf8Size(s[1..])
  }

  predicate MetadataFine(m: Json) {
    && OnlyKeys(m, METADATA_KEYS)
    && ShaOrNull(Get(m, "description_sha256"))
    && ShaOrNull(Get(m, "client_meta_sha256"))
    && Get(m, "annotations").Obj?
    && Get(m, "execution").Obj?
  }

  predicate TransportFine(t: Json) {
    OnlyKeys(t, TRANSPORT_KEYS) && StringOrNull(Get(t, "method_header")) && StringOrNull(Get(t, "name_header"))
  }

  predicate ResourceFine(r: Json) {
    && OnlyKeys(r, RESOURCE_KEYS)
    && PrefixedText(Get(r, "pointer"), "/")
    && OneOf(Get(r, "resource_type"), RESOURCE_TYPES)
    && OneOf(Get(r, "permission"), PERMISSIONS)
    && (|| (Get(r, "status") == Str("normalized") && !Get(r, "normalized_value").Null? && Get(r, "error").Null?)
        || (Get(r, "status") == Str("invalid") && Get(r, "normalized_value").Null? && NonEmptyText(Get(r, "error"))))
  }

  predicate FindingFine(f: Json) {
    && OnlyKeys(f, FINDING_KEYS)
    && OneOf(Get(f, "severity"), ["critical", "warning", "info"])
    && NonEmptyText(Get(f, "rule")) && NonEmptyText(Get(f, "target")) && NonEmptyText(Get(f, "message"))
  }

  predicate ResourcesFine(v: Json) { v.Arr? && forall r | r in v.items :: ResourceFine(r) }

  predicate FindingsFine(v: Json) { v.Arr? && forall f | f in v.items :: FindingFine(f) }

  predicate PathsFine(v: Json) {
    v.Arr? && NoRepeats(v.items) && forall x | x in v.items :: PrefixedText(x, "/")
  }

  predicate ArgumentsFine(e: Envelope, lib: Library) {
    && e.arguments.Obj?
    && IsSha(e.argumentsSha)
    && e.argumentsSha == Str(Digest(e.arguments, lib))
    && e.argumentsSize == Int(Utf8Size(CanonicalText(e.arguments)))
  }

  predicate SealFine(e: Envelope, digest: string) {
    IsSha(e.sha) && e.sha == Str(digest) && e.id == Str(IdFor(ENVELOPE_PREFIX, digest))
  }

  predicate EnvelopeHeaderFine(e: Envelope) {
    && e.kind == Str("AiNIRMCPToolCallEnvelope")
    && e.version == Str("ainir.mcp-tool-call-envelope.v1")
    && ProfileId(e.profileId)
    && (e.requestId.Str? || e.requestId.Int?)
    && e.callMethod == Str("tools/call")
    && SafeToolName(e.toolName)
    && e.taskRequested.Bool? && e.mrtrPresent.Bool?
    && e.productionReady == Bool(false)
  }

  predicate EnvelopeHashesFine(e: Envelope, lib: Library) {
    && IsSha(e.descriptorSha) && IsSha(e.inputSchemaSha) && ShaOrNull(e.outputSchemaSha)
    && ArgumentsFine(e, lib)
    && IsSha(e.resourcesSha) && e.resourcesSha == Str(Digest(e.resources, lib))
  }

  predicate EnvelopeScalarsFine(e: Envelope, lib: Library) {
    && EnvelopeHeaderFine(e)
    && EnvelopeHashesFine(e, lib)
    && OneOf(e.protocolVersion, PROTOCOL_VERSIONS)
    && MetadataFine(e.metadata)
    && TransportFine(e.transport)
    && PathsFine(e.sensitivePaths)
  }

  predicate EnvelopeFieldsFine(e: Envelope, lib: Library) {
    EnvelopeScalarsFine(e, lib) && ResourcesFine(e.resources) && FindingsFine(e.findings)
  }

  predicate ValidEnvelope(v: Json, lib: Library) {
    && OnlyKeys(v, ENVELOPE_KEYS)
    && SealFine(ReadEnvelope(v), EnvelopeDigest(v, lib))
    && EnvelopeFieldsFine(ReadEnvelope(v), lib)
  }

  method ValidateEnvelope(v: Json, lib: Library) returns (valid: bool)
    ensures valid == ValidEnvelope(v, lib)
  {
    if !OnlyKeys(v, ENVELOPE_KEYS) { return false; }
    var e := ReadEnvelope(v);
    valid := SealFine(e, EnvelopeDigest(v, lib));
    var resourcesFine := ValidateResources(e.resources);
    var findingsFine := ValidateFindings(e.findings);
    valid := valid && EnvelopeScalarsFine(e, lib) && resourcesFine && findingsFine;
  }

  method ValidateResources(v: Json) returns (valid: bool)
    ensures valid == ResourcesFine(v)
  {
    if !v.Arr? { return false; }
    valid := true;
    for i := 0 to |v.items|
      invariant valid == forall r | r in v.items[..i] :: ResourceFine(r)
    {
      assert v.items[..i + 1] == v.items[..i] + [v.items[i]];
      valid := valid && ResourceFine(v.items[i]);
    }
    assert v.items[..|v.items|] == v.items;
  }

  method ValidateFindings(v: Json) returns (valid: bool)
    ensures valid == FindingsFine(v)
  {
    if !v.Arr? { return false; }
    valid := true;
    for i := 0 to |v.items|
      invariant valid == forall f | f in v.items[..i] :: FindingFine(f)
    {
      assert v.items[..i + 1] == v.items[..i] + [v.items[i]];
      valid := valid && FindingFine(v.items[i]);
    }
    assert v.items[..|v.items|] == v.items;
  }

  // ----- requested resources -----

  datatype Resource = Usable(value: Json) | Unusable(notice: Notice)

  /** What a binding's pointer selects, checked for its resource type. */
  function Select(binding: Json, arguments: Json): Resource
    requires Get(binding, "pointer").Str?
  {
    match PointerGet(arguments, Get(binding, "pointer").s)
    case None => Unusable(PointerMissing)
    case Some(raw) =>
      if Get(binding, "resource_type") == Str("workspace_path") then
        if !raw.Str? then Unusable(BadPath(NotAPath))
        else (match Normalize(raw.s)
          case Normalized(path) => Usable(Str(path))
          case Rejected(error) => Unusable(BadPath(error)))
      else if NonEmptyText(raw) then Usable(raw)
      else Unusable(EmptyResource)
  }

  function RawValue(binding: Json, arguments: Json): Json
    requires Get(binding, "pointer").Str?
  {
    match PointerGet(arguments, Get(binding, "pointer").s)
    case None => Null
    case Some(raw) => raw
  }

  function ShownResource(binding: Json, raw: Json, outcome: Resource, lib: Library): Json {
    Obj(Record(RESOURCE_KEYS,
      [Get(binding, "pointer"), Get(binding, "resource_type"), Get(binding, "permission"), raw,
       if outcome.Usable? then outcome.value else Null,
       Str(if outcome.Usable? then "normalized" else "invalid"),
       if outcome.Usable? then Null else Str(lib.wording(outcome.notice))]))
  }

  function ResourceTree(binding: Json, arguments: Json, lib: Library): Json
    requires Get(binding, "pointer").Str?
  {
    ShownResource(binding, RawValue(binding, arguments), Select(binding, arguments), lib)
  }

  function FindingTree(rule: string, target: string, notice: Notice, lib: Library): Json {
    Obj(Record(FINDING_KEYS, [Str(rule), Str("critical"), Str(target), Str(lib.wording(notice))]))
  }

  ghost predicate Pointed(bindings: seq<Json>) { forall b | b in bindings :: Get(b, "pointer").Str? }

  function ResourceTrees(bindings: seq<Json>, arguments: Json, lib: Library): (r: seq<Json>)
    requires Pointed(bindings)
    ensures |r| == |bindings|
  {
    if bindings == [] then []
    else
      var n := |bindings| - 1;
      ResourceTrees(bindings[..n], arguments, lib) + [ResourceTree(bindings[n], arguments, lib)]
  }

  function BindingFinding(binding: Json, arguments: Json, lib: Library): seq<Json>
    requires Get(binding, "pointer").Str?
  {
    var outcome := Select(binding, arguments);
    if outcome.Usable? then []
    else [FindingTree("MCP002.resource_binding_invalid", Get(binding, "pointer").s, outcome.notice, lib)]
  }

  function BindingFindings(bindings: seq<Json>, arguments: Json, lib: Library): seq<Json>
    requires Pointed(bindings)
  {
    if bindings == [] then []
    else
      var n := |bindings| - 1;
      BindingFindings(bindings[..n], arguments, lib) + BindingFinding(bindings[n], arguments, lib)
  }

  lemma {:induction false} CollectStep(earlier: seq<Json>, b: Json, arguments: Json, lib: Library, resources: seq<Json>, findings: seq<Json>)
    requires Collected(earlier, arguments, lib, resources, findings) && Get(b, "pointer").Str?
    ensures Collected(earlier + [b], arguments, lib, resources + [ResourceTree(b, arguments, lib)], findings + BindingFinding(b, arguments, lib))
  {
    assert (earlier + [b])[..|earlier|] == earlier;
  }

  method CollectResources(bindings: seq<Json>, arguments: Json, lib: Library) returns (resources: seq<Json>, findings: seq<Json>)
    requires Pointed(bindings)
    ensures resources == ResourceTrees(bindings, arguments, lib)
    ensures findings == BindingFindings(bindings, arguments, lib)
  {
    resources, findings := [], [];
    for i := 0 to |bindings|
      invariant Collected(bindings[..i], arguments, lib, resources, findings)
    {
      assert bindings[..i + 1] == bindings[..i] + [bindings[i]];
      assert bindings[i] in bindings;
      resources, findings := CollectNext(bindings[..i], bindings[i], arguments, lib, resources, findings);
    }
    assert bindings[..|bindings|] == bindings;
  }

  method CollectNext(ghost earlier: seq<Json>, binding: Json, arguments: Json, lib: Library, resources0: seq<Json>, findings0: seq<Json>)
    returns (resources: seq<Json>, findings: seq<Json>)
    requires Collected(earlier, arguments, lib, resources0, findings0) && Get(binding, "pointer").Str?
    ensures Collected(earlier + [binding], arguments, lib, resources, findings)
  {
    CollectStep(earlier, binding, arguments, lib, resources0, findings0);
    var resource, found := CollectResource(binding, arguments, lib);
    resources, findings := resources0 + [resource], findings0 + found;
  }

  ghost predicate Collected(bindings: seq<Json>, arguments: Json, lib: Library, resources: seq<Json>, findings: seq<Json>) {
    && Pointed(bindings)
    && resources == ResourceTrees(bindings, arguments, lib)
    && findings == BindingFindings(bindings, arguments, lib)
  }

  /** One turn of the binding loop. */
  method CollectResource(binding: Json, arguments: Json, lib: Library) returns (resource: Json, found: seq<Json>)
    requires Get(binding, "pointer").Str?
    ensures resource == ResourceTree(binding, arguments, lib)
    ensures found == BindingFinding(binding, arguments, lib)
  {
    var outcome := Select(binding, arguments);
    resource := ResourceTree(binding, arguments, lib);
    found := [];
    if outcome.Unusable? {
      found := [FindingTree("MCP002.resource_binding_invalid", Get(binding, "pointer").s, outcome.notice, lib)];
    }
  }

  // ----- building -----

  datatype BuildError =
    | InvalidProfile | InvalidDescriptor | UnknownRequestField | NotToolsCall | BadRequestId
    | BadParams | UnsupportedParam | BadToolName | BadArguments | BadProtocolVersion

  datatype Built<+T> = Ready(value: T) | Failed(error: BuildError)

  const REQUEST_KEYS := ["jsonrpc", "id", "method", "params"]
  const PARAM_KEYS := ["name", "arguments", "_meta", "task", "inputResponses", "requestState"]

  function Params(request: Json): Json { Get(request, "params") }

  function Arguments(request: Json): Json { GetOr(Params(request), "arguments", Obj([])) }

  /** The first structural error of the three untrusted inputs. */
  function InputError(descriptor: Json, request: Json, transport: Json): Option<BuildError> {
    if !DescriptorValid(descriptor) then Some(InvalidDescriptor)
    else if !OnlyKeys(request, REQUEST_KEYS) then Some(UnknownRequestField)
    else if Get(request, "jsonrpc") != Str("2.0") || Get(request, "method") != Str("tools/call") then Some(NotToolsCall)
    else if !(Get(request, "id").Str? || Get(request, "id").Int?) then Some(BadRequestId)
    else if !Params(request).Obj? then Some(BadParams)
    else if !OnlyKeys(Params(request), PARAM_KEYS) then Some(UnsupportedParam)
    else if !SafeToolName(Get(Params(request), "name")) then Some(BadToolName)
    else if !Arguments(request).Obj? then Some(BadArguments)
    else if !Get(transport, "protocol_version").Str? then Some(BadProtocolVersion)
    else None
  }

  function Prefixed(prefix: string, paths: seq<string>): (r: seq<string>)
    ensures |r| == |paths|
    ensures forall i | 0 <= i < |paths| :: r[i] == prefix + paths[i]
  {
    seq(|paths|, i requires 0 <= i < |paths| => prefix + paths[i])
  }

  function FoundPaths(arguments: Json, meta: Json, lib: Library): seq<string> {
    Scan(arguments, "", lib.sens)
    + if meta.Obj? then Prefixed("/params/_meta", Scan(meta, "", lib.sens)) else []
  }

  function SensitivePaths(request: Json, lib: Library): seq<string> {
    SortedSet(FoundPaths(Arguments(request), Get(Params(request), "_meta"), lib))
  }

  function SchemaFindingTrees(findings: seq<Finding>, lib: Library): (r: seq<Json>)
    ensures |r| == |findings|
    ensures forall i | 0 <= i < |findings| ::
      r[i] == FindingTree("MCP004.arguments_schema_invalid", "params.arguments", SchemaMismatch(findings[i]), lib)
  {
    seq(|findings|, i requires 0 <= i < |findings| =>
      FindingTree("MCP004.arguments_schema_invalid", "params.arguments", SchemaMismatch(findings[i]), lib))
  }

  function SensitiveFindingTrees(paths: seq<string>, lib: Library): (r: seq<Json>)
    ensures |r| == |paths|
    ensures forall i | 0 <= i < |paths| ::
      r[i] == FindingTree("MCP003.sensitive_argument_forbidden", paths[i], SensitiveArgument, lib)
  {
    seq(|paths|, i requires 0 <= i < |paths| =>
      FindingTree("MCP003.sensitive_argument_forbidden", paths[i], SensitiveArgument, lib))
  }

  function UnknownToolFinding(lib: Library): Json {
    FindingTree("MCP001.unknown_tool", "params.name", UnknownTool, lib)
  }

  function ObjectOrEmpty(v: Json): Json { if v.Obj? then v else Obj([]) }

  function MetadataTree(descriptor: Json, request: Json, lib: Library): Json {
    var meta := Get(Params(request), "_meta");
    Obj(Record(METADATA_KEYS,
      [Get(descriptor, "title"),
       SchemaDigest(Get(descriptor, "description"), lib),
       Norm(ObjectOrEmpty(Get(descriptor, "annotations"))),
       Norm(ObjectOrEmpty(Get(descriptor, "execution"))),
       if meta.Obj? then Str(Digest(meta, lib)) else Null]))
  }

  function TransportTree(transport: Json): Json {
    Obj(Record(TRANSPORT_KEYS, [Get(transport, "method_header"), Get(transport, "name_header")]))
  }

  /** The resource bindings of the called tool, when the profile has reviewed it. */
  function BindingsOf(p: Profile, request: Json): Option<seq<Json>> {
    var name := Get(Params(request), "name");
    var table := ToolMap(ToolList(p));
    if name.Str? && name.s in table then
      var bindings := ReadTool(table[name.s]).resourceBindings;
      Some(if bindings.Arr? then bindings.items else [])
    else None
  }

  /** The parts of an envelope that are computed from the inputs in a loop or a record. */
  datatype EnvelopeParts = EnvelopeParts(metadata: Json, transport: Json, resources: seq<Json>, sensitivePaths: seq<string>, findings: seq<Json>)

  /** The envelope before its hash and id are filled in. */
  function DraftEnvelope(profileId: Json, descriptor: Json, request: Json, protocol: Json, parts: EnvelopeParts, lib: Library): Envelope {
    var arguments := Norm(Arguments(request));
    var resources := Arr(parts.resources);
    Envelope(
      Str("AiNIRMCPToolCallEnvelope"), Str("ainir.mcp-tool-call-envelope.v1"),
      profileId, protocol, Get(request, "id"), Str("tools/call"), Get(Params(request), "name"),
      Str(Digest(descriptor, lib)), Str(Digest(Get(descriptor, "inputSchema"), lib)),
      SchemaDigest(Get(descriptor, "outputSchema"), lib),
      arguments, Str(Digest(arguments, lib)), Int(Utf8Size(CanonicalText(arguments))),
      parts.metadata, parts.transport, resources, Str(Digest(resources, lib)),
      Arr(Texts(parts.sensitivePaths)),
      Bool(Has(Params(request), "task") || Get(ObjectOrEmpty(Get(descriptor, "execution")), "taskSupport") == Str("required")),
      Bool(Has(Params(request), "inputResponses") || Has(Params(request), "requestState")),
      Arr(parts.findings), Bool(false), Null, Null)
  }

  function EnvelopeResources(p: Profile, request: Json, lib: Library): seq<Json>
    requires BindingsOf(p, request).Some? ==> Pointed(BindingsOf(p, request).value)
  {
    match BindingsOf(p, request)
    case None => []
    case Some(bindings) => ResourceTrees(bindings, Arguments(request), lib)
  }

  function EnvelopeFindings(p: Profile, descriptor: Json, request: Json, lib: Library): seq<Json>
    requires BindingsOf(p, request).Some? ==> Pointed(BindingsOf(p, request).value)
  {
    (match BindingsOf(p, request)
     case None => [UnknownToolFinding(lib)]
     case Some(bindings) => BindingFindings(bindings, Arguments(request), lib))
    + SchemaFindingTrees(ValueFindings(Arguments(request), Get(descriptor, "inputSchema"), "$"), lib)
    + SensitiveFindingTrees(SensitivePaths(request, lib), lib)
  }

  lemma {:induction false} BindingsArePointed(p: Profile, request: Json, lib: Library)
    requires ValidProfile(p, lib) && BindingsOf(p, request).Some?
    ensures BindingsFine(BindingsOf(p, request).value) && Pointed(BindingsOf(p, request).value)
  {
    ReviewedTool(p, lib, Get(Params(request), "name").s);
  }

  function PartsOf(p: Profile, descriptor: Json, request: Json, transport: Json, lib: Library): EnvelopeParts
    requires BindingsOf(p, request).Some? ==> Pointed(BindingsOf(p, request).value)
  {
    EnvelopeParts(MetadataTree(descriptor, request, lib), TransportTree(transport), EnvelopeResources(p, request, lib),
          SensitivePaths(request, lib), EnvelopeFindings(p, descriptor, request, lib))
  }

  function CheckedEnvelope(p: Profile, descriptor: Json, request: Json, transport: Json, lib: Library): Envelope
    requires BindingsOf(p, request).Some? ==> Pointed(BindingsOf(p, request).value)
  {
    var parts := PartsOf(p, descriptor, request, transport, lib);
    SealEnvelope(DraftEnvelope(Get(p.data, "profile_id"), descriptor, request, Get(transport, "protocol_version"), parts, lib), lib)
  }

  /** The envelope of three already copied inputs. */
  function EnvelopeOf(p: Profile, descriptor: Json, request: Json, transport: Json, lib: Library): Built<Envelope> {
    if !ValidProfile(p, lib) then Failed(InvalidProfile)
    else
      match InputError(descriptor, request, transport)
      case Some(error) => Failed(error)
      case None =>
        assert BindingsOf(p, request).Some? ==> Pointed(BindingsOf(p, request).value) by {
          if BindingsOf(p, request).Some? { BindingsArePointed(p, request, lib); }
        }
        Ready(CheckedEnvelope(p, descriptor, request, transport, lib))
  }

  method BuildEnvelope(p: Profile, toolDescriptor: Json, callRequest: Json, transportBinding: Json, lib: Library)
    returns (r: Built<Envelope>)
    ensures r == EnvelopeOf(p, Norm(toolDescriptor), Norm(callRequest), Norm(transportBinding), lib)
  {
    var profileValid := ValidateProfile(p, lib);
    if !profileValid { return Failed(InvalidProfile); }
    var descriptor, request, transport := Norm(toolDescriptor), Norm(callRequest), Norm(transportBinding);
    var error := InputError(descriptor, request, transport);
    if error.Some? { return Failed(error.value); }
    if BindingsOf(p, request).Some? { BindingsArePointed(p, request, lib); }
    var envelope := FillEnvelope(p, descriptor, request, transport, lib);
    r := Ready(envelope);
  }

  method FillEnvelope(p: Profile, descriptor: Json, request: Json, transport: Json, lib: Library) returns (e: Envelope)
    requires BindingsOf(p, request).Some? ==> Pointed(BindingsOf(p, request).value)
    ensures e == CheckedEnvelope(p, descriptor, request, transport, lib)
  {
    var resources: seq<Json>, findings: seq<Json> := [], [UnknownToolFinding(lib)];
    var bindings := BindingsOf(p, request);
    if bindings.Some? {
      resources, findings := CollectResources(bindings.value, Arguments(request), lib);
    }
    var schemaFindings := SchemaValueFindings(Arguments(request), Get(descriptor, "inputSchema"), "$");
    findings := findings + SchemaFindingTrees(schemaFindings, lib) + SensitiveFindingTrees(SensitivePaths(request, lib), lib);
    var parts := EnvelopeParts(MetadataTree(descriptor, request, lib), TransportTree(transport), resources, SensitivePaths(request, lib), findings);
    e := DraftEnvelope(Get(p.data, "profile_id"), descriptor, request, Get(transport, "protocol_version"), parts, lib);
    e := SealEnvelope(e, lib);
  }
}
