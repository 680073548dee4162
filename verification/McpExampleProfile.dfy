/** A profile with one reviewed tool, spelled out and valid. */
module McpExampleProfile {
  import opened Text
  import opened JsonTree
  import opened JsonSchema
  import opened Artifacts
  import opened McpProfile

  const NEWEST := "2026-07-28"

  // ----- small dictionaries -----

  function One(k: string, x: Json): Json { Obj([Member(k, x)]) }

  function Two(k: string, x: Json, l: string, y: Json): Json { Obj([Member(k, x), Member(l, y)]) }

  lemma {:induction false} Absent(v: Json, k: string)
    requires v.Obj? && forall i | 0 <= i < |v.members| :: v.members[i].key != k
    ensures !Has(v, k) && Get(v, k).Null?
  {
  }

  lemma {:induction false} OneReads(k: string, x: Json)
    ensures Has(One(k, x), k) && Get(One(k, x), k) == x
    ensures forall j | j != k :: !Has(One(k, x), j) && Get(One(k, x), j).Null?
    ensures Distinct(One(k, x).members) && (WellFormed(x) ==> WellFormed(One(k, x)))
  {
    LookupAt(One(k, x).members, 0);
    forall j | j != k ensures !Has(One(k, x), j) && Get(One(k, x), j).Null? { Absent(One(k, x), j); }
  }

  lemma {:induction false} TwoReads(k: string, x: Json, l: string, y: Json)
    requires k != l
    ensures Has(Two(k, x, l, y), k) && Get(Two(k, x, l, y), k) == x && Has(Two(k, x, l, y), l) && Get(Two(k, x, l, y), l) == y
    ensures forall j | j != k && j != l :: !Has(Two(k, x, l, y), j) && Get(Two(k, x, l, y), j).Null?
    ensures Distinct(Two(k, x, l, y).members) && (WellFormed(x) && WellFormed(y) ==> WellFormed(Two(k, x, l, y)))
  {
    LookupAt(Two(k, x, l, y).members, 0);
    LookupAt(Two(k, x, l, y).members, 1);
    forall j | j != k && j != l ensures !Has(Two(k, x, l, y), j) && Get(Two(k, x, l, y), j).Null? { Absent(Two(k, x, l, y), j); }
  }

  // ----- when a schema is accepted -----

  /** A schema with no keyword but its type and its properties. */
  ghost predicate Bare(s: Json) {
    && s.Obj? && !TypeOf(s).NoType? && (forall m | m in s.members :: m.key in {"type", "properties"})
    && (forall k | k !in {"type", "properties"} :: !Has(s, k) && Get(s, k).Null?)
  }

  lemma {:induction false} BareKeywords(s: Json, path: string)
    requires Bare(s)
    ensures Keywords(s, path) == []
  {
    assert forall m | m in s.members :: AllowedKeyword(m.key);
  }

  lemma {:induction false} BareBounds(s: Json, path: string)
    requires Bare(s)
    ensures Bounds(s, path) == []
  {
  }

  lemma {:induction false} BareNaming(s: Json, path: string)
    requires Bare(s)
    ensures NamingFindings(s, path) == []
  {
    assert !Has(s, "required") && !Has(s, "additionalProperties");
    assert Required(s) == Arr([]);
  }

  lemma {:induction false} BareScalarClean(s: Json, path: string)
    requires Bare(s) && !TypeOf(s).ObjectT? && !TypeOf(s).ArrayT?
    ensures DefinitionFindings(s, path) == []
  {
    BareKeywords(s, path);
    BareBounds(s, path);
  }

  lemma {:induction false} BareObjectClean(s: Json, ms: seq<Member>, path: string)
    requires Bare(s) && TypeOf(s).ObjectT? && Has(s, "properties") && Get(s, "properties") == Obj(ms)
    requires PropertyDefinitionFindings(ms, path) == []
    ensures DefinitionFindings(s, path) == []
  {
    BareKeywords(s, path);
    BareBounds(s, path);
    BareNaming(s, path);
  }

  lemma {:induction false} OnePropertyClean(k: string, s: Json, path: string)
    requires k != "" && DefinitionFindings(s, path + ".properties." + k) == []
    ensures PropertyDefinitionFindings([Member(k, s)], path) == []
  {
    var ms := [Member(k, s)];
    assert ms[..0] == [];
    assert PropertyDefinitionFindings([], path) == [];
  }

  lemma {:induction false} StaysInside(v: Json)
    requires v.Obj? && Get(v, "$ref").Null? && forall m | m in v.members :: !RefersOutside(m.value)
    ensures !RefersOutside(v)
  {
  }

  lemma {:induction false} TextStaysInside(s: string)
    ensures !RefersOutside(Str(s))
  {
  }

  // ----- the tool's descriptor -----

  function TextSchema(): Json { One("type", Str("string")) }

  function ArgumentsSchema(): Json { Two("properties", One("x", TextSchema()), "type", Str("object")) }

  function Descriptor(): Json { Two("inputSchema", ArgumentsSchema(), "name", Str("t")) }

  lemma {:induction false} TextSchemaReads()
    ensures Bare(TextSchema()) && TypeOf(TextSchema()).StringT? && WellFormed(TextSchema())
  {
    OneReads("type", Str("string"));
  }

  lemma {:induction false} SchemaReads()
    ensures var s := ArgumentsSchema();
            && Bare(s) && TypeOf(s).ObjectT? && Get(s, "type") == Str("object") && WellFormed(s)
            && Has(s, "properties") && Get(s, "properties") == One("x", TextSchema())
  {
    TextSchemaReads();
    OneReads("x", TextSchema());
    TwoReads("properties", One("x", TextSchema()), "type", Str("object"));
  }

  lemma {:induction false} SchemaClean()
    ensures DefinitionFindings(ArgumentsSchema(), "$") == []
  {
    TextSchemaReads();
    BareScalarClean(TextSchema(), "$" + ".properties." + "x");
    OnePropertyClean("x", TextSchema(), "$");
    SchemaReads();
    BareObjectClean(ArgumentsSchema(), [Member("x", TextSchema())], "$");
  }

  lemma {:induction false} OneStaysInside(k: string, x: Json)
    requires k != "$ref" && !RefersOutside(x)
    ensures !RefersOutside(One(k, x))
  {
    OneReads(k, x);
    StaysInside(One(k, x));
  }

  lemma {:induction false} TwoStaysInside(k: string, x: Json, l: string, y: Json)
    requires k != l && k != "$ref" && l != "$ref" && !RefersOutside(x) && !RefersOutside(y)
    ensures !RefersOutside(Two(k, x, l, y))
  {
    TwoReads(k, x, l, y);
    StaysInside(Two(k, x, l, y));
  }

  lemma {:induction false} SchemaStaysInside()
    ensures !RefersOutside(ArgumentsSchema())
  {
    TextStaysInside("string");
    TextStaysInside("object");
    OneStaysInside("type", Str("string"));
    OneStaysInside("x", TextSchema());
    TwoStaysInside("properties", One("x", TextSchema()), "type", Str("object"));
  }

  lemma {:induction false} DescriptorReads()
    ensures var d := Descriptor();
            && Get(d, "inputSchema") == ArgumentsSchema() && Get(d, "name") == Str("t") && WellFormed(d)
            && (forall j | j != "inputSchema" && j != "name" :: !Has(d, j) && Get(d, j).Null?)
  {
    SchemaReads();
    TwoReads("inputSchema", ArgumentsSchema(), "name", Str("t"));
  }

  lemma {:induction false} AcceptedDescriptor(d: Json, s: Json)
    requires Get(d, "inputSchema") == s && Get(d, "name") == Str("t")
    requires forall j | j != "inputSchema" && j != "name" :: Get(d, j).Null?
    requires SchemaAccepted(s) && Get(s, "type") == Str("object")
    ensures DescriptorValid(d)
  {
    assert Get(d, "outputSchema").Null? && Get(d, "annotations").Null? && Get(d, "execution").Null?;
  }

  lemma {:induction false} DescriptorIsValid()
    ensures DescriptorValid(Descriptor())
  {
    DescriptorReads();
    SchemaReads();
    SchemaClean();
    SchemaStaysInside();
    AcceptedDescriptor(Descriptor(), ArgumentsSchema());
  }

  // ----- the reviewed tool -----

  function Binding(): Json { Obj(Record(BINDING_KEYS, [Str("/x"), Str("opaque"), Str("read")])) }

  function ToolHead(t: Tool): (r: seq<Json>)
    ensures |r| == 10
  {
    [t.name, t.serverId, t.serverOrigin, t.audience, t.descriptor, t.descriptorSha, t.inputSchemaSha, t.outputSchemaSha, t.effects, t.capabilities]
  }

  function ToolRest(t: Tool): (r: seq<Json>)
    ensures |r| == 10
  {
    [t.riskClass, t.mutating, t.destructive, t.idempotent, t.resourceBindings, t.transactionRequired, t.rollbackRequired, t.maxArgumentsBytes, t.requiredHostChecks, t.decisionMode]
  }

  function ToolValues(t: Tool): (r: seq<Json>)
    ensures |r| == 20
  {
    ToolHead(t) + ToolRest(t)
  }

  function ToolTree(t: Tool): Json { Obj(Record(TOOL_KEYS, ToolValues(t))) }

  lemma {:induction false} ToolKeysDiffer()
    ensures DistinctKeys(TOOL_KEYS) && TOOL_KEYS[0] == "name"
  {
    assert forall i, j | 0 <= i < j < |TOOL_KEYS| :: TOOL_KEYS[i] != TOOL_KEYS[j];
  }

  lemma {:induction false} ToolHeadAt(t: Tool, v: seq<Json>)
    requires v == ToolHead(t)
    ensures v[0] == t.name && v[1] == t.serverId && v[2] == t.serverOrigin && v[3] == t.audience && v[4] == t.descriptor && v[5] == t.descriptorSha && v[6] == t.inputSchemaSha && v[7] == t.outputSchemaSha && v[8] == t.effects && v[9] == t.capabilities
  {
  }

  lemma {:induction false} ToolRestAt(t: Tool, v: seq<Json>)
    requires v == ToolRest(t)
    ensures v[0] == t.riskClass && v[1] == t.mutating && v[2] == t.destructive && v[3] == t.idempotent && v[4] == t.resourceBindings && v[5] == t.transactionRequired && v[6] == t.rollbackRequired && v[7] == t.maxArgumentsBytes && v[8] == t.requiredHostChecks && v[9] == t.decisionMode
  {
  }

  lemma {:induction false} ReadToolFrom(v: Json, t: Tool)
    requires Fields(v, TOOL_KEYS) == ToolValues(t)
    ensures ReadTool(v) == t
  {
    var f := Fields(v, TOOL_KEYS);
    assert f[..10] == ToolHead(t) && f[10..] == ToolRest(t);
    ToolHeadAt(t, f[..10]);
    ToolRestAt(t, f[10..]);
  }

  lemma {:induction false} ToolReadsBack(t: Tool)
    ensures ReadTool(ToolTree(t)) == t && OnlyKeys(ToolTree(t), TOOL_KEYS) && Get(ToolTree(t), "name") == t.name
  {
    ToolKeysDiffer();
    RecordReadsBack(TOOL_KEYS, ToolValues(t));
    ReadToolFrom(ToolTree(t), t);
    assert Fields(ToolTree(t), TOOL_KEYS)[0] == t.name;
  }

  lemma {:induction false} BindingReads()
    ensures var b := Binding();
            OnlyKeys(b, BINDING_KEYS) && Get(b, "pointer") == Str("/x") && Get(b, "resource_type") == Str("opaque") && Get(b, "permission") == Str("read")
  {
    var values := [Str("/x"), Str("opaque"), Str("read")];
    assert forall i, j | 0 <= i < j < |BINDING_KEYS| :: BINDING_KEYS[i] != BINDING_KEYS[j];
    RecordReadsBack(BINDING_KEYS, values);
    var f := Fields(Binding(), BINDING_KEYS);
    assert f[0] == values[0] && f[1] == values[1] && f[2] == values[2];
  }

  lemma {:induction false} BindingIsFine()
    ensures BindingsFine([Binding()])
  {
    BindingReads();
    assert RESOURCE_TYPES[2] == "opaque" && PERMISSIONS[0] == "read";
  }

  /** An allowed tool that only computes, whose one argument names an opaque resource. */
  function ComputeTool(d: Json, s: Json, lib: Library): Tool {
    Tool(Str("t"), Str("server"), Str("origin"), Str("audience"), Str("t.json"), Str(Digest(d, lib)), Str(Digest(s, lib)), Null,
         Arr([Str("effect.compute.local")]), Arr([Str("cap.compute.local")]), Str("read_only"),
         Bool(false), Bool(false), Bool(true), Arr([Binding()]), Bool(false), Bool(false), Int(1_000_000),
         Arr(Texts(MANDATORY_HOST_CHECKS)), Str("allow"))
  }

  predicate PlainWord(s: string) { 1 <= |s| <= 128 && forall i | 0 <= i < |s| :: IsLetter(s[i]) || s[i] in {'_', '.'} }

  lemma {:induction false} PlainIsSafe(s: string)
    requires PlainWord(s)
    ensures SafeToken(Str(s)) && SafeToolName(Str(s))
  {
  }

  lemma {:induction false} ToolWords()
    ensures PlainWord("t") && PlainWord("server") && PlainWord("origin") && PlainWord("audience")
    ensures PlainWord("effect.compute.local") && PlainWord("cap.compute.local")
  {
  }

  lemma {:induction false} CheckWords()
    ensures forall i | 0 <= i < 4 :: PlainWord(MANDATORY_HOST_CHECKS[i])
    ensures forall i, j | 0 <= i < j < 4 :: MANDATORY_HOST_CHECKS[i] != MANDATORY_HOST_CHECKS[j]
  {
  }

  lemma {:induction false} ToolNamesSafe()
    ensures SafeToolName(Str("t")) && SafeToken(Str("server")) && SafeToken(Str("origin")) && SafeToken(Str("audience"))
    ensures SafeToken(Str("effect.compute.local")) && SafeToken(Str("cap.compute.local"))
  {
    ToolWords();
    PlainIsSafe("t");
    PlainIsSafe("server");
    PlainIsSafe("origin");
    PlainIsSafe("audience");
    PlainIsSafe("effect.compute.local");
    PlainIsSafe("cap.compute.local");
  }

  lemma {:induction false} ListedNames()
    ensures OneOf(Str("effect.compute.local"), EFFECTS) && OneOf(Str("cap.compute.local"), CAPABILITIES)
    ensures OneOf(Str("read_only"), RISK_CLASSES) && OneOf(Str("allow"), ["allow", "review_required"])
    ensures OneOf(Str(NEWEST), PROTOCOL_VERSIONS) && OneOf(Str("reviewed"), ["reviewed", "bundled"])
  {
    assert EFFECTS[7] == "effect.compute.local" && CAPABILITIES[7] == "cap.compute.local" && RISK_CLASSES[0] == "read_only";
    assert PROTOCOL_VERSIONS[1] == NEWEST;
  }

  lemma {:induction false} OneUnique(s: string, names: seq<string>)
    requires SafeToken(Str(s)) && OneOf(Str(s), names)
    ensures UniqueSafeStrings(Arr([Str(s)]), false) && AllWithin(Arr([Str(s)]), names)
  {
  }

  lemma {:induction false} WordsListed(names: seq<string>)
    requires names != [] && (forall i | 0 <= i < |names| :: PlainWord(names[i]))
    requires forall i, j | 0 <= i < j < |names| :: names[i] != names[j]
    ensures UniqueSafeStrings(Arr(Texts(names)), false) && forall s | s in names :: Str(s) in Texts(names)
  {
    TextsContents(names);
    forall i | 0 <= i < |names| ensures SafeToken(Texts(names)[i]) { PlainIsSafe(names[i]); }
  }

  lemma {:induction false} ToolIsFine(d: Json, s: Json, lib: Library)
    requires WellBehaved(lib)
    ensures ToolFieldsFine(ComputeTool(d, s, lib))
  {
    ToolNamesSafe();
    ListedNames();
    CheckWords();
    WordsListed(MANDATORY_HOST_CHECKS);
    OneUnique("effect.compute.local", EFFECTS);
    OneUnique("cap.compute.local", CAPABILITIES);
  }

  // ----- the profile -----

  function Policies(): Json {
    Obj(Record(POLICY_KEYS,
      [Str("refuse"), Bool(false), Bool(false), Bool(false), Bool(false), Bool(true), Str("refuse"), Str("refuse"),
       Str("explicit_per_call")]))
  }

  lemma {:induction false} PoliciesAreFine()
    ensures PoliciesFine(Policies())
  {
    var values := [Str("refuse"), Bool(false), Bool(false), Bool(false), Bool(false), Bool(true), Str("refuse"), Str("refuse"), Str("explicit_per_call")];
    assert forall i, j | 0 <= i < j < |POLICY_KEYS| :: POLICY_KEYS[i] != POLICY_KEYS[j];
    RecordReadsBack(POLICY_KEYS, values);
    var f := Fields(Policies(), POLICY_KEYS);
    assert f[0] == values[0] && f[1] == values[1] && f[2] == values[2] && f[3] == values[3] && f[4] == values[4];
    assert f[5] == values[5] && f[6] == values[6] && f[7] == values[7] && f[8] == values[8];
  }

  function ProfileValues(tool: Json, policies: Json, sha: Json): (r: seq<Json>)
    ensures |r| == 12
  {
    [Str("AiNIRMCPToolCallProfile"), Str("ainir.mcp-tool-call-profile.v1"), Str("example"), Null, Null, Null, Str("reviewed"),
     Arr([Str(NEWEST)]), policies, Arr([tool]), sha, Bool(false)]
  }

  function ProfileHash(tool: Json, policies: Json, lib: Library): Json {
    Str(ProjectionDigest(Obj(Record(PROFILE_KEYS, ProfileValues(tool, policies, Null))), {"profile_sha256"}, lib))
  }

  function ProfileData(tool: Json, policies: Json, lib: Library): Json {
    Obj(Record(PROFILE_KEYS, ProfileValues(tool, policies, ProfileHash(tool, policies, lib))))
  }

  lemma {:induction false} ProfileKeysDiffer()
    ensures DistinctKeys(PROFILE_KEYS)
  {
    assert forall i, j | 0 <= i < j < |PROFILE_KEYS| :: PROFILE_KEYS[i] != PROFILE_KEYS[j];
  }

  lemma {:induction false} ProfileReads(tool: Json, policies: Json, lib: Library)
    ensures var d := ProfileData(tool, policies, lib);
            OnlyKeys(d, PROFILE_KEYS) && Fields(d, PROFILE_KEYS) == ProfileValues(tool, policies, ProfileHash(tool, policies, lib))
  {
    ProfileKeysDiffer();
    RecordReadsBack(PROFILE_KEYS, ProfileValues(tool, policies, ProfileHash(tool, policies, lib)));
  }

  lemma {:induction false} ProfileSealed(tool: Json, policies: Json, lib: Library)
    ensures var d := ProfileData(tool, policies, lib);
            d.Obj? && Str(ProjectionDigest(d, {"profile_sha256"}, lib)) == ProfileHash(tool, policies, lib)
  {
    var v, w := ProfileValues(tool, policies, Null), ProfileValues(tool, policies, ProfileHash(tool, policies, lib));
    assert PROFILE_KEYS[10] == "profile_sha256";
    assert forall i | 0 <= i < 12 && i != 10 :: v[i] == w[i];
    ProjectIgnoresDropped(PROFILE_KEYS, v, w, {"profile_sha256"});
  }

  lemma {:induction false} VersionsFine(v: Json)
    requires v == Arr([Str(NEWEST)])
    ensures UniqueSafeStrings(v, false) && AllWithin(v, PROTOCOL_VERSIONS)
  {
    ListedNames();
    assert SafeToken(Str(NEWEST));
    OneUnique(NEWEST, PROTOCOL_VERSIONS);
  }

  lemma {:induction false} HeaderFrom(data: Json, id: Json, status: Json, versions: Json, policies: Json, sha: Json, lib: Library)
    requires OnlyKeys(data, PROFILE_KEYS)
    requires Get(data, "kind") == Str("AiNIRMCPToolCallProfile") && Get(data, "version") == Str("ainir.mcp-tool-call-profile.v1")
    requires Get(data, "profile_id") == id && Get(data, "status") == status && Get(data, "protocol_versions") == versions
    requires Get(data, "policies") == policies && Get(data, "profile_sha256") == sha && Get(data, "production_runtime_ready") == Bool(false)
    requires ProfileId(id) && OneOf(status, ["reviewed", "bundled"])
    requires UniqueSafeStrings(versions, false) && AllWithin(versions, PROTOCOL_VERSIONS) && PoliciesFine(policies)
    requires IsSha(sha) && sha == Str(ProjectionDigest(data, {"profile_sha256"}, lib))
    ensures HeaderFine(data, lib)
  {
  }

  lemma {:induction false} ExampleIsAnId()
    ensures ProfileId(Str("example"))
  {
  }

  lemma {:induction false} NamedFields(d: Json, v: seq<Json>)
    requires |v| == 12 && Fields(d, PROFILE_KEYS) == v
    ensures Get(d, "kind") == v[0] && Get(d, "version") == v[1] && Get(d, "profile_id") == v[2] && Get(d, "status") == v[6]
    ensures Get(d, "protocol_versions") == v[7] && Get(d, "policies") == v[8] && Get(d, "tools") == v[9]
    ensures Get(d, "profile_sha256") == v[10] && Get(d, "production_runtime_ready") == v[11]
  {
    var f := Fields(d, PROFILE_KEYS);
    assert f[0] == v[0] && f[1] == v[1] && f[2] == v[2] && f[6] == v[6] && f[7] == v[7];
    assert f[8] == v[8] && f[9] == v[9] && f[10] == v[10] && f[11] == v[11];
  }

  /** The document of a profile around one tool. */
  ghost predicate OneToolData(d: Json, tool: Json, policies: Json, lib: Library) {
    && OnlyKeys(d, PROFILE_KEYS)
    && Fields(d, PROFILE_KEYS) == ProfileValues(tool, policies, ProfileHash(tool, policies, lib))
    && ProfileHash(tool, policies, lib) == Str(ProjectionDigest(d, {"profile_sha256"}, lib))
  }

  lemma {:induction false} ProfileDataIs(tool: Json, policies: Json, lib: Library)
    ensures OneToolData(ProfileData(tool, policies, lib), tool, policies, lib)
  {
    ProfileReads(tool, policies, lib);
    ProfileSealed(tool, policies, lib);
  }

  lemma {:induction false} HeaderValues(d: Json, tool: Json, policies: Json, sha: Json)
    requires Fields(d, PROFILE_KEYS) == ProfileValues(tool, policies, sha)
    ensures Get(d, "kind") == Str("AiNIRMCPToolCallProfile") && Get(d, "version") == Str("ainir.mcp-tool-call-profile.v1")
    ensures Get(d, "profile_id") == Str("example") && Get(d, "status") == Str("reviewed")
    ensures Get(d, "protocol_versions") == Arr([Str(NEWEST)]) && Get(d, "policies") == policies && Get(d, "tools") == Arr([tool])
    ensures Get(d, "profile_sha256") == sha && Get(d, "production_runtime_ready") == Bool(false)
  {
    NamedFields(d, ProfileValues(tool, policies, sha));
  }

  lemma {:induction false} HeaderTokens(status: Json, id: Json)
    requires status == Str("reviewed") && id == Str("example")
    ensures OneOf(status, ["reviewed", "bundled"]) && ProfileId(id)
  {
    ListedNames();
    ExampleIsAnId();
  }

  lemma {:induction false} HeaderIsFine(d: Json, tool: Json, policies: Json, versions: Json, lib: Library)
    requires WellBehaved(lib) && PoliciesFine(policies) && OneToolData(d, tool, policies, lib) && versions == Arr([Str(NEWEST)])
    ensures HeaderFine(d, lib) && Get(d, "tools") == Arr([tool]) && Get(d, "protocol_versions") == versions
  {
    HeaderValues(d, tool, policies, ProfileHash(tool, policies, lib));
    HeaderTokens(Get(d, "status"), Get(d, "profile_id"));
    VersionsFine(versions);
    HeaderFrom(d, Get(d, "profile_id"), Get(d, "status"), versions, policies, ProfileHash(tool, policies, lib), lib);
  }

  lemma {:induction false} ToolFrom(v: Json, t: Tool, d: Json, p: Profile, lib: Library)
    requires OnlyKeys(v, TOOL_KEYS) && ReadTool(v) == t && ToolFieldsFine(t) && BindingsFine(t.resourceBindings.items)
    requires p.load(t.descriptor) == Some(d) && DescriptorBound(t, d, lib)
    ensures ToolFine(v, p, lib)
  {
  }

  lemma {:induction false} DescriptorIsBound(t: Tool, d: Json, s: Json, lib: Library)
    requires DescriptorValid(d) && Get(d, "name") == t.name && t.name.Str? && Get(d, "inputSchema") == s && Get(d, "outputSchema").Null?
    requires t.descriptorSha == Str(Digest(d, lib)) && t.inputSchemaSha == Str(Digest(s, lib)) && t.outputSchemaSha.Null?
    ensures DescriptorBound(t, d, lib)
  {
  }

  /** A descriptor under the tool's name, without output schema. */
  ghost predicate Describes(d: Json, s: Json) {
    DescriptorValid(d) && Get(d, "name") == Str("t") && Get(d, "inputSchema") == s && Get(d, "outputSchema").Null?
  }

  lemma {:induction false} DescribesFrom(d: Json, s: Json)
    requires DescriptorValid(d) && Get(d, "name") == Str("t") && Get(d, "inputSchema") == s
    requires forall j | j != "inputSchema" && j != "name" :: Get(d, j).Null?
    ensures Describes(d, s) && Get(d, "annotations").Null? && Get(d, "execution").Null?
  {
  }

  lemma {:induction false} DescriptorDescribes(d: Json, s: Json)
    requires d == Descriptor() && s == ArgumentsSchema()
    ensures Describes(d, s) && Get(d, "annotations").Null? && Get(d, "execution").Null? && WellFormed(d)
  {
    DescriptorReads();
    DescriptorIsValid();
    DescribesFrom(d, s);
  }

  lemma {:induction false} ComputeToolFine(t: Tool, d: Json, s: Json, lib: Library)
    requires WellBehaved(lib) && t == ComputeTool(d, s, lib)
    ensures ToolFieldsFine(t) && BindingsFine(t.resourceBindings.items)
  {
    ToolIsFine(d, s, lib);
    BindingIsFine();
  }

  lemma {:induction false} ToolIsBound(v: Json, t: Tool, d: Json, s: Json, p: Profile, lib: Library)
    requires WellBehaved(lib) && t == ComputeTool(d, s, lib) && v == ToolTree(t) && Describes(d, s)
    requires p.load(Str("t.json")) == Some(d)
    ensures ToolFine(v, p, lib)
  {
    ToolReadsBack(t);
    ComputeToolFine(t, d, s, lib);
    DescriptorIsBound(t, d, s, lib);
    ToolFrom(v, t, d, p, lib);
  }

  lemma {:induction false} OneToolMap(v: Json, name: string)
    requires v.Obj? && Get(v, "name") == Str(name)
    ensures ToolMap([v]) == map[name := v]
  {
    var tools := [v];
    assert tools[..0] == [] && ToolMap([]) == map[];
  }

  lemma {:induction false} OneName(v: Json)
    ensures NoRepeats(ToolNames([v]))
  {
  }

  lemma {:induction false} OneToolFine(v: Json, p: Profile, lib: Library)
    requires ToolFine(v, p, lib)
    ensures ToolsFine([v], p, lib)
  {
    OneName(v);
  }

  lemma {:induction false} OneToolProfile(p: Profile, v: Json, tools: seq<Json>, lib: Library)
    requires HeaderFine(p.data, lib) && Get(p.data, "tools") == Arr(tools) && tools == [v] && ToolsFine(tools, p, lib)
    ensures ValidProfile(p, lib) && ToolList(p) == [v]
  {
  }

  lemma {:induction false} ProfileIsValid(p: Profile, v: Json, d: Json, s: Json, policies: Json, lib: Library)
    requires WellBehaved(lib) && Describes(d, s) && PoliciesFine(policies)
    requires v == ToolTree(ComputeTool(d, s, lib)) && OneToolData(p.data, v, policies, lib) && p.load(Str("t.json")) == Some(d)
    ensures ValidProfile(p, lib) && ToolMap(ToolList(p)) == map["t" := v]
    ensures Get(p.data, "protocol_versions") == Arr([Str(NEWEST)])
  {
    HeaderIsFine(p.data, v, policies, Arr([Str(NEWEST)]), lib);
    ToolIsBound(v, ComputeTool(d, s, lib), d, s, p, lib);
    ToolReadsBack(ComputeTool(d, s, lib));
    OneToolMap(v, "t");
    OneToolFine(v, p, lib);
    OneToolProfile(p, v, [v], lib);
  }
}
