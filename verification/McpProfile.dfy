/** src/ainir/mcp_tool_call.py: tool descriptors, the reviewed host profile and its
    table of tools. */
module McpProfile {
  import opened Text
  import opened JsonTree
  import opened JsonSchema
  import opened Artifacts

  const PROFILE_KEYS := [
    "kind", "version", "profile_id", "profile_version", "display_name", "description", "status",
    "protocol_versions", "policies", "tools", "profile_sha256", "production_runtime_ready"]

  const POLICY_KEYS := [
    "unknown_tool", "tool_descriptions_are_evidence", "tool_annotations_are_evidence",
    "model_output_is_evidence", "ainir_executes_actions", "host_executes_actions",
    "raw_credentials_in_arguments", "task_execution", "consent_mode"]

  const TOOL_KEYS := [
    "name", "server_id", "server_origin", "authorization_audience", "descriptor",
    "descriptor_sha256", "input_schema_sha256", "output_schema_sha256", "effects", "capabilities",
    "risk_class", "mutating", "destructive", "idempotent", "resource_bindings",
    "transaction_required", "rollback_required", "max_arguments_bytes", "required_host_checks",
    "decision_mode"]

  const BINDING_KEYS := ["pointer", "resource_type", "permission"]

  const PROTOCOL_VERSIONS := ["2025-11-25", "2026-07-28"]

  const EFFECTS := [
    "effect.resource.read", "effect.resource.write", "effect.resource.delete",
    "effect.network.outbound", "effect.credentials.access", "effect.financial.charge",
    "effect.account.modify", "effect.compute.local"]

  const CAPABILITIES := [
    "cap.resource.read", "cap.resource.write", "cap.resource.delete", "cap.network.outbound",
    "cap.credentials.access", "cap.financial.charge", "cap.account.modify", "cap.compute.local"]

  const RISK_CLASSES := [
    "read_only", "state_change", "destructive", "network", "credential_sensitive", "financial",
    "account_change"]

  const RESOURCE_TYPES := ["workspace_path", "uri", "opaque"]

  const PERMISSIONS := ["read", "write", "delete", "invoke"]

  const MANDATORY_HOST_CHECKS := [
    "schema_validation", "authorization_binding", "resource_resolution", "explicit_consent"]

  // ----- tool descriptors -----

  predicate ContainsText(s: string, part: string) {
    exists i | 0 <= i <= |s| :: StartsWith(s[i..], part)
  }

  /** A `$ref` that leaves the document, anywhere in the tree. */
  predicate RefersOutside(v: Json) {
    match v
    case Obj(ms) =>
      || (var ref := Get(v, "$ref"); ref.Str? && (ContainsText(ref.s, "://") || StartsWith(ref.s, "file:")))
      || exists m | m in ms :: RefersOutside(m.value)
    case Arr(items) => exists x | x in items :: RefersOutside(x)
    case _ => false
  }

  predicate SchemaAccepted(schema: Json) {
    schema.Obj? && !RefersOutside(schema) && DefinitionFindings(schema, "$") == []
  }

  predicate DescriptorValid(d: Json) {
    && SafeToolName(Get(d, "name"))
    && SchemaAccepted(Get(d, "inputSchema"))
    && Get(Get(d, "inputSchema"), "type") == Str("object")
    && (Get(d, "outputSchema").Null? || SchemaAccepted(Get(d, "outputSchema")))
    && (Get(d, "annotations").Null? || Get(d, "annotations").Obj?)
    && (var execution := Get(d, "execution");
        execution.Null? ||
        (execution.Obj? &&
         (Get(execution, "taskSupport").Null? ||
          OneOf(Get(execution, "taskSupport"), ["forbidden", "optional", "required"]))))
  }

  // ----- tools of a profile -----

  datatype Tool = Tool(
    name: Json, serverId: Json, serverOrigin: Json, audience: Json, descriptor: Json,
    descriptorSha: Json, inputSchemaSha: Json, outputSchemaSha: Json, effects: Json,
    capabilities: Json, riskClass: Json, mutating: Json, destructive: Json, idempotent: Json,
    resourceBindings: Json, transactionRequired: Json, rollbackRequired: Json,
    maxArgumentsBytes: Json, requiredHostChecks: Json, decisionMode: Json)

  function ReadTool(v: Json): Tool {
    var f := Fields(v, TOOL_KEYS);
    Tool(f[0], f[1], f[2], f[3], f[4], f[5], f[6], f[7], f[8], f[9],
         f[10], f[11], f[12], f[13], f[14], f[15], f[16], f[17], f[18], f[19])
  }

  /** A profile together with the descriptor files beside it; loading a descriptor
      path can fail. */
  datatype Profile = Profile(data: Json, load: Json -> Option<Json>)

  function Pointers(bindings: seq<Json>): (r: seq<Json>)
    ensures |r| == |bindings|
  {
    seq(|bindings|, i requires 0 <= i < |bindings| => Get(bindings[i], "pointer"))
  }

  predicate BindingFine(b: Json) {
    && OnlyKeys(b, BINDING_KEYS)
    && PrefixedText(Get(b, "pointer"), "/")
    && OneOf(Get(b, "resource_type"), RESOURCE_TYPES)
    && OneOf(Get(b, "permission"), PERMISSIONS)
  }

  predicate BindingsFine(bindings: seq<Json>) {
    (forall b | b in bindings :: BindingFine(b)) && NoRepeats(Pointers(bindings))
  }

  predicate ToolFieldsFine(t: Tool) {
    && SafeToolName(t.name)
    && SafeToken(t.serverId) && SafeToken(t.serverOrigin) && SafeToken(t.audience)
    && IsSha(t.descriptorSha) && IsSha(t.inputSchemaSha) && ShaOrNull(t.outputSchemaSha)
    && UniqueSafeStrings(t.effects, false) && AllWithin(t.effects, EFFECTS)
    && UniqueSafeStrings(t.capabilities, false) && AllWithin(t.capabilities, CAPABILITIES)
    && OneOf(t.riskClass, RISK_CLASSES)
    && OneOf(t.decisionMode, ["allow", "review_required"])
    && (t.riskClass == Str("destructive") ==> t.decisionMode == Str("review_required"))
    && t.mutating.Bool? && t.destructive.Bool? && t.idempotent.Bool?
    && t.transactionRequired.Bool? && t.rollbackRequired.Bool?
    && (t.destructive.b ==> t.mutating.b)
    && (t.rollbackRequired.b ==> t.transactionRequired.b)
    && (t.riskClass == Str("read_only") ==> !t.mutating.b)
    && t.maxArgumentsBytes.Int? && 1 <= t.maxArgumentsBytes.n <= 1_000_000
    && t.resourceBindings.Arr? && t.resourceBindings.items != []
    && UniqueSafeStrings(t.requiredHostChecks, false)
    && (forall s | s in MANDATORY_HOST_CHECKS :: Str(s) in t.requiredHostChecks.items)
  }

  /** The hash of a schema that may be absent. */
  function SchemaDigest(schema: Json, lib: Library): Json {
    if schema.Null? then Null else Str(Digest(schema, lib))
  }

  predicate DescriptorBound(t: Tool, d: Json, lib: Library) {
    && DescriptorValid(d)
    && PyEq(Get(d, "name"), t.name)
    && t.descriptorSha == Str(Digest(d, lib))
    && t.inputSchemaSha == Str(Digest(Get(d, "inputSchema"), lib))
    && t.outputSchemaSha == SchemaDigest(Get(d, "outputSchema"), lib)
  }

  predicate ToolFine(v: Json, p: Profile, lib: Library) {
    && OnlyKeys(v, TOOL_KEYS)
    && var t := ReadTool(v);
       && ToolFieldsFine(t)
       && BindingsFine(t.resourceBindings.items)
       && p.load(t.descriptor).Some?
       && DescriptorBound(t, p.load(t.descriptor).value, lib)
  }

  function ToolNames(tools: seq<Json>): (r: seq<Json>)
    ensures |r| == |tools|
  {
    seq(|tools|, i requires 0 <= i < |tools| => Get(tools[i], "name"))
  }

  predicate ToolsFine(tools: seq<Json>, p: Profile, lib: Library) {
    (forall v | v in tools :: ToolFine(v, p, lib)) && NoRepeats(ToolNames(tools))
  }

  predicate PoliciesFine(policies: Json) {
    && OnlyKeys(policies, POLICY_KEYS)
    && Get(policies, "unknown_tool") == Str("refuse")
    && PyEq(Get(policies, "tool_descriptions_are_evidence"), Bool(false))
    && PyEq(Get(policies, "tool_annotations_are_evidence"), Bool(false))
    && PyEq(Get(policies, "model_output_is_evidence"), Bool(false))
    && PyEq(Get(policies, "ainir_executes_actions"), Bool(false))
    && PyEq(Get(policies, "host_executes_actions"), Bool(true))
    && Get(policies, "raw_credentials_in_arguments") == Str("refuse")
    && Get(policies, "task_execution") == Str("refuse")
    && Get(policies, "consent_mode") == Str("explicit_per_call")
  }

  predicate HeaderFine(data: Json, lib: Library) {
    && OnlyKeys(data, PROFILE_KEYS)
    && Get(data, "kind") == Str("AiNIRMCPToolCallProfile")
    && Get(data, "version") == Str("ainir.mcp-tool-call-profile.v1")
    && ProfileId(Get(data, "profile_id"))
    && OneOf(Get(data, "status"), ["reviewed", "bundled"])
    && UniqueSafeStrings(Get(data, "protocol_versions"), false)
    && AllWithin(Get(data, "protocol_versions"), PROTOCOL_VERSIONS)
    && PoliciesFine(Get(data, "policies"))
    && IsSha(Get(data, "profile_sha256"))
    && Get(data, "profile_sha256") == Str(ProjectionDigest(data, {"profile_sha256"}, lib))
    && Get(data, "production_runtime_ready") == Bool(false)
  }

  /** What an accepted profile promises. */
  predicate ValidProfile(p: Profile, lib: Library) {
    && HeaderFine(p.data, lib)
    && Get(p.data, "tools").Arr?
    && Get(p.data, "tools").items != []
    && ToolsFine(Get(p.data, "tools").items, p, lib)
  }

  function ToolList(p: Profile): seq<Json> { Listed(Get(p.data, "tools")) }

  // ----- the validator's loops -----

  lemma {:induction false} RepeatsStep(items: seq<Json>, x: Json)
    ensures NoRepeats(items + [x]) <==> NoRepeats(items) && x !in items
  {
    var all := items + [x];
    if NoRepeats(all) {
      forall i, j | 0 <= i < j < |items| ensures items[i] != items[j] {
        assert all[i] != all[j];
      }
      forall i | 0 <= i < |items| ensures items[i] != x {
        assert all[i] != all[|items|];
      }
    }
  }

  lemma {:induction false} BindingsStep(bindings: seq<Json>, b: Json)
    ensures Pointers(bindings + [b]) == Pointers(bindings) + [Get(b, "pointer")]
    ensures BindingsFine(bindings + [b]) <==>
            BindingsFine(bindings) && BindingFine(b) && Get(b, "pointer") !in Pointers(bindings)
  {
    assert Pointers(bindings + [b]) == Pointers(bindings) + [Get(b, "pointer")];
    RepeatsStep(Pointers(bindings), Get(b, "pointer"));
  }

  method ValidateBindings(bindings: seq<Json>) returns (valid: bool)
    ensures valid == BindingsFine(bindings)
  {
    valid := true;
    var seen: set<Json> := {};
    for i := 0 to |bindings|
      invariant forall v | v in seen :: v in Pointers(bindings[..i])
      invariant valid ==> forall v | v in Pointers(bindings[..i]) :: v in seen
      invariant valid == BindingsFine(bindings[..i])
    {
      var b := bindings[i];
      var pointer := Get(b, "pointer");
      assert bindings[..i + 1] == bindings[..i] + [b];
      BindingsStep(bindings[..i], b);
      valid := valid && BindingFine(b) && pointer !in seen;
      if b.Obj? && pointer.Str? {
        seen := seen + {pointer};
      }
    }
    assert bindings[..|bindings|] == bindings;
  }

  lemma {:induction false} ToolsStep(tools: seq<Json>, v: Json, p: Profile, lib: Library)
    ensures ToolNames(tools + [v]) == ToolNames(tools) + [Get(v, "name")]
    ensures ToolsFine(tools + [v], p, lib) <==>
            ToolsFine(tools, p, lib) && ToolFine(v, p, lib) && Get(v, "name") !in ToolNames(tools)
  {
    assert ToolNames(tools + [v]) == ToolNames(tools) + [Get(v, "name")];
    RepeatsStep(ToolNames(tools), Get(v, "name"));
  }

  method ValidateTools(tools: seq<Json>, p: Profile, lib: Library) returns (valid: bool)
    ensures valid == ToolsFine(tools, p, lib)
  {
    valid := true;
    var seen: set<Json> := {};
    for i := 0 to |tools|
      invariant forall v | v in seen :: v in ToolNames(tools[..i])
      invariant valid ==> forall v | v in ToolNames(tools[..i]) :: v in seen
      invariant valid == ToolsFine(tools[..i], p, lib)
    {
      var v := tools[i];
      var name := Get(v, "name");
      assert tools[..i + 1] == tools[..i] + [v];
      ToolsStep(tools[..i], v, p, lib);
      var fine := ValidateTool(v, p, lib);
      valid := valid && fine && name !in seen;
      if v.Obj? && name.Str? {
        seen := seen + {name};
      }
    }
    assert tools[..|tools|] == tools;
  }

  method ValidateTool(v: Json, p: Profile, lib: Library) returns (valid: bool)
    ensures valid == ToolFine(v, p, lib)
    ensures valid ==> v.Obj? && Get(v, "name").Str?
  {
    valid := false;
    if OnlyKeys(v, TOOL_KEYS) {
      var t := ReadTool(v);
      if ToolFieldsFine(t) {
        var bindingsFine := ValidateBindings(t.resourceBindings.items);
        match p.load(t.descriptor) {
          case None =>
          case Some(d) => valid := bindingsFine && DescriptorBound(t, d, lib);
        }
      }
    }
  }

  method ValidateProfile(p: Profile, lib: Library) returns (valid: bool)
    ensures valid == ValidProfile(p, lib)
  {
    var tools := Get(p.data, "tools");
    valid := HeaderFine(p.data, lib) && tools.Arr? && tools.items != [];
    if tools.Arr? {
      var fine := ValidateTools(tools.items, p, lib);
      valid := valid && fine;
    }
  }

  // ----- the table of tools -----

  /** Tools by name; a later tool replaces an earlier one of the same name. */
  function ToolMap(tools: seq<Json>): map<string, Json> {
    if tools == [] then map[]
    else
      var n := |tools| - 1;
      var name := Get(tools[n], "name");
      if tools[n].Obj? && name.Str? then ToolMap(tools[..n])[name.s := tools[n]] else ToolMap(tools[..n])
  }

  method ProfileToolMap(p: Profile) returns (table: map<string, Json>)
    ensures table == ToolMap(ToolList(p))
  {
    var tools := ToolList(p);
    table := map[];
    for i := 0 to |tools|
      invariant table == ToolMap(tools[..i])
    {
      assert tools[..i + 1][..i] == tools[..i];
      var name := Get(tools[i], "name");
      if tools[i].Obj? && name.Str? {
        table := table[name.s := tools[i]];
      }
    }
    assert tools[..|tools|] == tools;
  }

  lemma {:induction false} ToolMapContents(tools: seq<Json>, name: string)
    requires name in ToolMap(tools)
    ensures ToolMap(tools)[name] in tools && Get(ToolMap(tools)[name], "name") == Str(name)
  {
    if tools != [] {
      var n := |tools| - 1;
      if name in ToolMap(tools[..n]) { ToolMapContents(tools[..n], name); }
    }
  }

  /** In an accepted profile the table holds every tool, each under its own name. */
  lemma {:induction false} ToolMapComplete(tools: seq<Json>, i: nat)
    requires i < |tools| && NoRepeats(ToolNames(tools))
    requires tools[i].Obj? && Get(tools[i], "name").Str?
    ensures Get(tools[i], "name").s in ToolMap(tools)
    ensures ToolMap(tools)[Get(tools[i], "name").s] == tools[i]
  {
    var n := |tools| - 1;
    if i < n {
      assert ToolNames(tools)[i] != ToolNames(tools)[n];
      forall a, b | 0 <= a < b < n ensures ToolNames(tools[..n])[a] != ToolNames(tools[..n])[b] {
        assert ToolNames(tools)[a] != ToolNames(tools)[b];
      }
      ToolMapComplete(tools[..n], i);
    }
  }

  /** The reviewed tool of a name is exactly the one profile entry that bears it. */
  lemma {:induction false} ToolMapExact(p: Profile, lib: Library, name: string, v: Json)
    requires ValidProfile(p, lib)
    ensures (name in ToolMap(ToolList(p)) && ToolMap(ToolList(p))[name] == v) <==>
            (v in ToolList(p) && Get(v, "name") == Str(name))
  {
    AcceptedTools(p, lib);
    TableExact(ToolList(p), name, v);
  }

  lemma {:induction false} AcceptedTools(p: Profile, lib: Library)
    requires ValidProfile(p, lib)
    ensures NoRepeats(ToolNames(ToolList(p))) && forall v | v in ToolList(p) :: v.Obj?
  {
    forall v | v in ToolList(p) ensures v.Obj? { assert ToolFine(v, p, lib); }
  }

  lemma {:induction false} TableExact(tools: seq<Json>, name: string, v: Json)
    requires NoRepeats(ToolNames(tools)) && forall x | x in tools :: x.Obj?
    ensures (name in ToolMap(tools) && ToolMap(tools)[name] == v) <==> (v in tools && Get(v, "name") == Str(name))
  {
    if name in ToolMap(tools) { ToolMapContents(tools, name); }
    if v in tools && Get(v, "name") == Str(name) {
      var i :| 0 <= i < |tools| && tools[i] == v;
      ToolMapComplete(tools, i);
    }
  }

  lemma {:induction false} ReadToolName(v: Json)
    ensures ReadTool(v).name == Get(v, "name")
  {
  }

  /** A tool reached through the table of an accepted profile is a reviewed one. */
  lemma {:induction false} ReviewedTool(p: Profile, lib: Library, name: string)
    requires ValidProfile(p, lib) && name in ToolMap(ToolList(p))
    ensures ToolFine(ToolMap(ToolList(p))[name], p, lib)
    ensures ReadTool(ToolMap(ToolList(p))[name]).name == Str(name)
  {
    ToolMapContents(ToolList(p), name);
    ReadToolName(ToolMap(ToolList(p))[name]);
  }
}
