/** What a built envelope satisfies: it passes its own validator exactly when its
    protocol version is supported and its headers are strings or absent, and its
    findings are empty exactly when the call itself is clean. */
module McpEnvelopeFacts {
  import opened Text
  import opened JsonTree
  import opened CanonicalJson
  import opened JsonPointer
  import opened JsonSchema
  import opened Artifacts
  import opened McpProfile
  import opened McpEnvelope

  // ----- records inside the envelope -----

  lemma {:induction false} ResourceReadsBack(values: seq<Json>)
    requires |values| == 7
    ensures var r := Obj(Record(RESOURCE_KEYS, values));
            && OnlyKeys(r, RESOURCE_KEYS)
            && Get(r, "pointer") == values[0] && Get(r, "resource_type") == values[1]
            && Get(r, "permission") == values[2] && Get(r, "normalized_value") == values[4]
            && Get(r, "status") == values[5] && Get(r, "error") == values[6]
  {
    RecordReadsBack(RESOURCE_KEYS, values);
    var f := Fields(Obj(Record(RESOURCE_KEYS, values)), RESOURCE_KEYS);
    assert f[0] == values[0] && f[1] == values[1] && f[2] == values[2] && f[4] == values[4] && f[5] == values[5] && f[6] == values[6];
  }

  lemma {:induction false} ShownResourceFine(binding: Json, raw: Json, outcome: Resource, lib: Library)
    requires BindingFine(binding) && WellBehaved(lib)
    requires outcome.Usable? ==> !outcome.value.Null?
    ensures ResourceFine(ShownResource(binding, raw, outcome, lib))
    ensures Get(ShownResource(binding, raw, outcome, lib), "resource_type") == Get(binding, "resource_type")
  {
    ResourceReadsBack([Get(binding, "pointer"), Get(binding, "resource_type"), Get(binding, "permission"), raw,
      if outcome.Usable? then outcome.value else Null,
      Str(if outcome.Usable? then "normalized" else "invalid"),
      if outcome.Usable? then Null else Str(lib.wording(outcome.notice))]);
  }

  lemma {:induction false} SelectedIsText(binding: Json, arguments: Json)
    requires Get(binding, "pointer").Str?
    ensures Select(binding, arguments).Usable? ==> Select(binding, arguments).value.Str?
  {
  }

  lemma {:induction false} ResourceTreeFine(binding: Json, arguments: Json, lib: Library)
    requires BindingFine(binding) && WellBehaved(lib)
    ensures ResourceFine(ResourceTree(binding, arguments, lib))
    ensures Get(ResourceTree(binding, arguments, lib), "resource_type") == Get(binding, "resource_type")
  {
    SelectedIsText(binding, arguments);
    ShownResourceFine(binding, RawValue(binding, arguments), Select(binding, arguments), lib);
  }

  lemma {:induction false} ResourceTreesFine(bindings: seq<Json>, arguments: Json, lib: Library)
    requires Pointed(bindings) && WellBehaved(lib)
    requires forall b | b in bindings :: BindingFine(b)
    ensures ResourcesFine(Arr(ResourceTrees(bindings, arguments, lib)))
  {
    if bindings != [] {
      var n := |bindings| - 1;
      ResourceTreesFine(bindings[..n], arguments, lib);
      ResourceTreeFine(bindings[n], arguments, lib);
    }
  }

  lemma {:induction false} FindingReadsBack(rule: string, target: string, notice: Notice, lib: Library)
    requires rule != "" && target != "" && WellBehaved(lib)
    ensures FindingFine(FindingTree(rule, target, notice, lib))
    ensures Get(FindingTree(rule, target, notice, lib), "severity") == Str("critical")
  {
    var values := [Str(rule), Str("critical"), Str(target), Str(lib.wording(notice))];
    RecordReadsBack(FINDING_KEYS, values);
    var f := Fields(Obj(Record(FINDING_KEYS, values)), FINDING_KEYS);
    assert f[0] == values[0] && f[1] == values[1] && f[2] == values[2] && f[3] == values[3];
  }

  ghost predicate AllFine(findings: seq<Json>) {
    forall f | f in findings :: FindingFine(f) && Get(f, "severity") == Str("critical")
  }

  lemma {:induction false} BindingFindingsFine(bindings: seq<Json>, arguments: Json, lib: Library)
    requires Pointed(bindings) && WellBehaved(lib)
    requires forall b | b in bindings :: BindingFine(b)
    ensures AllFine(BindingFindings(bindings, arguments, lib))
    ensures BindingFindings(bindings, arguments, lib) == [] <==>
            forall b | b in bindings :: Select(b, arguments).Usable?
  {
    if bindings != [] {
      var n := |bindings| - 1;
      BindingFindingsFine(bindings[..n], arguments, lib);
      BindingFindingFine(bindings[n], arguments, lib);
      assert forall b :: b in bindings <==> b in bindings[..n] || b == bindings[n];
    }
  }

  lemma {:induction false} BindingFindingFine(binding: Json, arguments: Json, lib: Library)
    requires BindingFine(binding) && WellBehaved(lib)
    ensures AllFine(BindingFinding(binding, arguments, lib))
    ensures BindingFinding(binding, arguments, lib) == [] <==> Select(binding, arguments).Usable?
  {
    var outcome := Select(binding, arguments);
    if outcome.Unusable? {
      FindingReadsBack("MCP002.resource_binding_invalid", Get(binding, "pointer").s, outcome.notice, lib);
    }
  }

  lemma {:induction false} SchemaFindingsFine(findings: seq<Finding>, lib: Library)
    requires WellBehaved(lib)
    ensures AllFine(SchemaFindingTrees(findings, lib))
  {
    forall f | f in SchemaFindingTrees(findings, lib) ensures FindingFine(f) && Get(f, "severity") == Str("critical") {
      var i :| 0 <= i < |findings| && SchemaFindingTrees(findings, lib)[i] == f;
      FindingReadsBack("MCP004.arguments_schema_invalid", "params.arguments", SchemaMismatch(findings[i]), lib);
    }
  }

  lemma {:induction false} SensitiveFindingsFine(paths: seq<string>, lib: Library)
    requires WellBehaved(lib) && "" !in paths
    ensures AllFine(SensitiveFindingTrees(paths, lib))
  {
    forall f | f in SensitiveFindingTrees(paths, lib) ensures FindingFine(f) && Get(f, "severity") == Str("critical") {
      var i :| 0 <= i < |paths| && SensitiveFindingTrees(paths, lib)[i] == f;
      FindingReadsBack("MCP003.sensitive_argument_forbidden", paths[i], SensitiveArgument, lib);
    }
  }

  lemma {:induction false} UnknownToolFine(lib: Library)
    requires WellBehaved(lib)
    ensures AllFine([UnknownToolFinding(lib)])
  {
    FindingReadsBack("MCP001.unknown_tool", "params.name", UnknownTool, lib);
  }

  // ----- sensitive paths -----

  ghost predicate Slashed(paths: seq<string>) { forall p | p in paths :: StartsWith(p, "/") }

  lemma {:induction false} ScanIsSlashed(v: Json, lib: Library)
    requires v.Obj? && WellFormed(v)
    ensures Slashed(Scan(v, "", lib.sens))
  {
    forall p | p in Scan(v, "", lib.sens) ensures StartsWith(p, "/") {
      var loc := ReportedPlace(v, lib.sens, p);
      assert loc != [];
    }
  }

  lemma {:induction false} PrefixedIsSlashed(paths: seq<string>)
    ensures Slashed(Prefixed("/params/_meta", paths))
  {
    forall p | p in Prefixed("/params/_meta", paths) ensures StartsWith(p, "/") {
      var i :| 0 <= i < |paths| && Prefixed("/params/_meta", paths)[i] == p;
    }
  }

  lemma {:induction false} GetWellFormed(v: Json, k: string)
    requires WellFormed(v)
    ensures WellFormed(Get(v, k)) && WellFormed(GetOr(v, k, Obj([])))
  {
    if Has(v, k) {
      var m := Member(k, Get(v, k));
      assert m in v.members && WellFormed(m.value);
    }
  }

  lemma {:induction false} RequestPartsWellFormed(request: Json)
    requires WellFormed(request)
    ensures WellFormed(Params(request)) && WellFormed(Arguments(request)) && WellFormed(Get(Params(request), "_meta"))
  {
    GetWellFormed(request, "params");
    GetWellFormed(Params(request), "arguments");
    GetWellFormed(Params(request), "_meta");
  }

  lemma {:induction false} FoundPathsSlashed(arguments: Json, meta: Json, lib: Library)
    requires arguments.Obj? && WellFormed(arguments) && WellFormed(meta)
    ensures Slashed(FoundPaths(arguments, meta, lib))
  {
    ScanIsSlashed(arguments, lib);
    if meta.Obj? { PrefixedIsSlashed(Scan(meta, "", lib.sens)); }
  }

  lemma {:induction false} SortedPathsFine(found: seq<string>)
    requires Slashed(found)
    ensures PathsFine(Arr(Texts(SortedSet(found)))) && "" !in SortedSet(found)
  {
    SortedTextsAreUnique(found);
    TextsContents(SortedSet(found));
  }

  lemma {:induction false} SensitivePathsFine(request: Json, lib: Library)
    requires WellFormed(request) && Arguments(request).Obj?
    ensures PathsFine(Arr(Texts(SensitivePaths(request, lib)))) && "" !in SensitivePaths(request, lib)
  {
    RequestPartsWellFormed(request);
    FoundPathsSlashed(Arguments(request), Get(Params(request), "_meta"), lib);
    SortedPathsFine(FoundPaths(Arguments(request), Get(Params(request), "_meta"), lib));
  }

  // ----- the built envelope -----

  lemma {:induction false} SealedEnvelopeValid(e: Envelope, lib: Library)
    requires WellBehaved(lib)
    ensures ValidEnvelope(EnvelopeTree(SealEnvelope(e, lib)), lib) <==> EnvelopeFieldsFine(e, lib)
  {
    SealKeepsDigest(e, lib);
    EnvelopeReadsBack(SealEnvelope(e, lib));
    SealLeavesFields(e, SealEnvelope(e, lib), lib);
  }

  lemma {:induction false} SealLeavesFields(e: Envelope, f: Envelope, lib: Library)
    requires f == e.(sha := f.sha, id := f.id)
    ensures EnvelopeFieldsFine(f, lib) <==> EnvelopeFieldsFine(e, lib)
  {
  }

  lemma {:induction false} MetadataTreeFine(descriptor: Json, request: Json, lib: Library)
    requires WellBehaved(lib)
    ensures MetadataFine(MetadataTree(descriptor, request, lib))
    ensures Get(MetadataTree(descriptor, request, lib), "annotations") == Norm(ObjectOrEmpty(Get(descriptor, "annotations")))
  {
    var meta := Get(Params(request), "_meta");
    var values := [Get(descriptor, "title"), SchemaDigest(Get(descriptor, "description"), lib),
       Norm(ObjectOrEmpty(Get(descriptor, "annotations"))), Norm(ObjectOrEmpty(Get(descriptor, "execution"))),
       if meta.Obj? then Str(Digest(meta, lib)) else Null];
    RecordReadsBack(METADATA_KEYS, values);
    var f := Fields(Obj(Record(METADATA_KEYS, values)), METADATA_KEYS);
    assert f[1] == values[1] && f[2] == values[2] && f[3] == values[3] && f[4] == values[4];
  }

  predicate HeadersAreText(transport: Json) {
    StringOrNull(Get(transport, "method_header")) && StringOrNull(Get(transport, "name_header"))
  }

  lemma {:induction false} TransportReadsBack(transport: Json)
    ensures var t := TransportTree(transport);
            && OnlyKeys(t, TRANSPORT_KEYS)
            && Get(t, "method_header") == Get(transport, "method_header")
            && Get(t, "name_header") == Get(transport, "name_header")
  {
    var values := [Get(transport, "method_header"), Get(transport, "name_header")];
    RecordReadsBack(TRANSPORT_KEYS, values);
    var f := Fields(Obj(Record(TRANSPORT_KEYS, values)), TRANSPORT_KEYS);
    assert f[0] == values[0] && f[1] == values[1];
  }

  lemma {:induction false} EnvelopeResourcesFine(p: Profile, request: Json, lib: Library)
    requires BindingsOf(p, request).Some? ==>
      BindingsFine(BindingsOf(p, request).value) && Pointed(BindingsOf(p, request).value)
    requires WellBehaved(lib)
    ensures ResourcesFine(Arr(EnvelopeResources(p, request, lib)))
  {
    if BindingsOf(p, request).Some? {
      ResourceTreesFine(BindingsOf(p, request).value, Arguments(request), lib);
    }
  }

  /** The call names a reviewed tool and leaves nothing to report. */
  ghost predicate CleanCall(p: Profile, descriptor: Json, request: Json, lib: Library)
    requires BindingsOf(p, request).Some? ==> Pointed(BindingsOf(p, request).value)
  {
    && BindingsOf(p, request).Some?
    && (forall b | b in BindingsOf(p, request).value :: Select(b, Arguments(request)).Usable?)
    && ValueFindings(Arguments(request), Get(descriptor, "inputSchema"), "$") == []
    && SensitivePaths(request, lib) == []
  }

  lemma {:induction false} EnvelopeFindingsFine(p: Profile, descriptor: Json, request: Json, lib: Library)
    requires BindingsOf(p, request).Some? ==>
      BindingsFine(BindingsOf(p, request).value) && Pointed(BindingsOf(p, request).value)
    requires WellBehaved(lib) && "" !in SensitivePaths(request, lib)
    ensures AllFine(EnvelopeFindings(p, descriptor, request, lib))
    ensures EnvelopeFindings(p, descriptor, request, lib) == [] <==> CleanCall(p, descriptor, request, lib)
  {
    var schemaFindings := ValueFindings(Arguments(request), Get(descriptor, "inputSchema"), "$");
    SchemaFindingsFine(schemaFindings, lib);
    SensitiveFindingsFine(SensitivePaths(request, lib), lib);
    if BindingsOf(p, request).Some? {
      BindingFindingsFine(BindingsOf(p, request).value, Arguments(request), lib);
    } else {
      UnknownToolFine(lib);
    }
  }

  lemma {:induction false} DraftHeaderFine(profileId: Json, descriptor: Json, request: Json, protocol: Json, parts: EnvelopeParts, lib: Library)
    requires ProfileId(profileId) && (Get(request, "id").Str? || Get(request, "id").Int?)
    requires SafeToolName(Get(Params(request), "name"))
    ensures EnvelopeHeaderFine(DraftEnvelope(profileId, descriptor, request, protocol, parts, lib))
  {
  }

  lemma {:induction false} DraftHashesFine(profileId: Json, descriptor: Json, request: Json, protocol: Json, parts: EnvelopeParts, lib: Library)
    requires WellBehaved(lib) && Arguments(request).Obj?
    ensures EnvelopeHashesFine(DraftEnvelope(profileId, descriptor, request, protocol, parts, lib), lib)
  {
  }

  lemma {:induction false} DraftFieldsFine(profileId: Json, descriptor: Json, request: Json, protocol: Json, parts: EnvelopeParts, lib: Library)
    requires WellBehaved(lib) && ProfileId(profileId)
    requires Get(request, "id").Str? || Get(request, "id").Int?
    requires SafeToolName(Get(Params(request), "name")) && Arguments(request).Obj?
    requires MetadataFine(parts.metadata)
    requires ResourcesFine(Arr(parts.resources)) && FindingsFine(Arr(parts.findings))
    requires PathsFine(Arr(Texts(parts.sensitivePaths)))
    ensures EnvelopeFieldsFine(DraftEnvelope(profileId, descriptor, request, protocol, parts, lib), lib) <==>
            OneOf(protocol, PROTOCOL_VERSIONS) && TransportFine(parts.transport)
  {
    DraftHeaderFine(profileId, descriptor, request, protocol, parts, lib);
    DraftHashesFine(profileId, descriptor, request, protocol, parts, lib);
  }

  lemma {:induction false} PartsFine(p: Profile, descriptor: Json, request: Json, transport: Json, lib: Library)
    requires BindingsOf(p, request).Some? ==>
      BindingsFine(BindingsOf(p, request).value) && Pointed(BindingsOf(p, request).value)
    requires WellBehaved(lib) && WellFormed(request) && Arguments(request).Obj?
    ensures var parts := PartsOf(p, descriptor, request, transport, lib);
            && MetadataFine(parts.metadata)
            && ResourcesFine(Arr(parts.resources)) && FindingsFine(Arr(parts.findings))
            && PathsFine(Arr(Texts(parts.sensitivePaths)))
            && (TransportFine(parts.transport) <==> HeadersAreText(transport))
  {
    SensitivePathsFine(request, lib);
    EnvelopeResourcesFine(p, request, lib);
    EnvelopeFindingsFine(p, descriptor, request, lib);
    MetadataTreeFine(descriptor, request, lib);
    TransportReadsBack(transport);
  }

  lemma {:induction false} CheckedEnvelopeValid(p: Profile, descriptor: Json, request: Json, transport: Json, lib: Library)
    requires BindingsOf(p, request).Some? ==>
      BindingsFine(BindingsOf(p, request).value) && Pointed(BindingsOf(p, request).value)
    requires WellBehaved(lib) && WellFormed(request) && ProfileId(Get(p.data, "profile_id"))
    requires Get(request, "id").Str? || Get(request, "id").Int?
    requires SafeToolName(Get(Params(request), "name")) && Arguments(request).Obj?
    ensures ValidEnvelope(EnvelopeTree(CheckedEnvelope(p, descriptor, request, transport, lib)), lib) <==>
            OneOf(Get(transport, "protocol_version"), PROTOCOL_VERSIONS) && HeadersAreText(transport)
  {
    PartsFine(p, descriptor, request, transport, lib);
    var parts := PartsOf(p, descriptor, request, transport, lib);
    CheckedFromParts(Get(p.data, "profile_id"), descriptor, request, Get(transport, "protocol_version"), parts, lib);
  }

  lemma {:induction false} CheckedFromParts(profileId: Json, descriptor: Json, request: Json, protocol: Json, parts: EnvelopeParts, lib: Library)
    requires WellBehaved(lib) && ProfileId(profileId)
    requires Get(request, "id").Str? || Get(request, "id").Int?
    requires SafeToolName(Get(Params(request), "name")) && Arguments(request).Obj?
    requires MetadataFine(parts.metadata)
    requires ResourcesFine(Arr(parts.resources)) && FindingsFine(Arr(parts.findings))
    requires PathsFine(Arr(Texts(parts.sensitivePaths)))
    ensures ValidEnvelope(EnvelopeTree(SealEnvelope(DraftEnvelope(profileId, descriptor, request, protocol, parts, lib), lib)), lib) <==>
            OneOf(protocol, PROTOCOL_VERSIONS) && TransportFine(parts.transport)
  {
    DraftFieldsFine(profileId, descriptor, request, protocol, parts, lib);
    SealedEnvelopeValid(DraftEnvelope(profileId, descriptor, request, protocol, parts, lib), lib);
  }

  lemma {:induction false} InputFacts(descriptor: Json, request: Json, transport: Json)
    requires InputError(descriptor, request, transport).None?
    ensures Get(request, "id").Str? || Get(request, "id").Int?
    ensures SafeToolName(Get(Params(request), "name")) && Arguments(request).Obj?
    ensures DescriptorValid(descriptor) && Get(transport, "protocol_version").Str?
  {
  }

  lemma {:induction false} ProfileFacts(p: Profile, request: Json, lib: Library)
    requires ValidProfile(p, lib)
    ensures ProfileId(Get(p.data, "profile_id"))
    ensures BindingsOf(p, request).Some? ==>
      BindingsFine(BindingsOf(p, request).value) && Pointed(BindingsOf(p, request).value)
  {
    if BindingsOf(p, request).Some? { BindingsArePointed(p, request, lib); }
  }

  lemma {:induction false} ReadyOnlyIf(p: Profile, descriptor: Json, request: Json, transport: Json, lib: Library)
    requires EnvelopeOf(p, descriptor, request, transport, lib).Ready?
    ensures ValidProfile(p, lib) && InputError(descriptor, request, transport).None?
  {
  }

  lemma {:induction false} ReadyMeans(p: Profile, descriptor: Json, request: Json, transport: Json, lib: Library)
    requires ValidProfile(p, lib) && InputError(descriptor, request, transport).None?
    requires BindingsOf(p, request).Some? ==> Pointed(BindingsOf(p, request).value)
    ensures EnvelopeOf(p, descriptor, request, transport, lib) == Ready(CheckedEnvelope(p, descriptor, request, transport, lib))
  {
  }

  /** A built envelope passes its own validator exactly when the transport's protocol
      version is a supported one and its headers are strings or absent. */
  lemma {:induction false} BuiltEnvelopeValidExactly(p: Profile, descriptor: Json, request: Json, transport: Json, lib: Library, e: Envelope)
    requires WellBehaved(lib) && WellFormed(request)
    requires EnvelopeOf(p, descriptor, request, transport, lib) == Ready(e)
    ensures ValidEnvelope(EnvelopeTree(e), lib) <==>
            OneOf(Get(transport, "protocol_version"), PROTOCOL_VERSIONS) && HeadersAreText(transport)
  {
    ReadyOnlyIf(p, descriptor, request, transport, lib);
    InputFacts(descriptor, request, transport);
    ProfileFacts(p, request, lib);
    ReadyMeans(p, descriptor, request, transport, lib);
    CheckedEnvelopeValid(p, descriptor, request, transport, lib);
  }

  // ----- a built envelope that fails its own validator -----

  /** The input checks look at a transport's protocol version only, and only for its type. */
  lemma {:induction false} AnyVersionEnters(descriptor: Json, request: Json, good: Json, other: Json)
    requires InputError(descriptor, request, good).None? && Get(other, "protocol_version").Str?
    ensures InputError(descriptor, request, other).None?
  {
  }

  lemma {:induction false} DraftTransport() returns (transport: Json)
    ensures transport == Obj([Member("protocol_version", Str("draft"))])
    ensures Get(transport, "protocol_version") == Str("draft") && !OneOf(Str("draft"), PROTOCOL_VERSIONS)
  {
    transport := Obj([Member("protocol_version", Str("draft"))]);
    assert Distinct(transport.members);
    LookupAt(transport.members, 0);
  }

  /** Whatever call can be built at all is also built under the version name `draft`, and
      then fails the validator. */
  lemma {:induction false} DraftVersionIsBuiltButInvalid(p: Profile, descriptor: Json, request: Json, good: Json, lib: Library)
    returns (transport: Json, e: Envelope)
    requires WellBehaved(lib) && WellFormed(request)
    requires EnvelopeOf(p, descriptor, request, good, lib).Ready?
    ensures transport == Obj([Member("protocol_version", Str("draft"))])
    ensures EnvelopeOf(p, descriptor, request, transport, lib) == Ready(e)
    ensures !ValidEnvelope(EnvelopeTree(e), lib)
  {
    transport := DraftTransport();
    ReadyOnlyIf(p, descriptor, request, good, lib);
    AnyVersionEnters(descriptor, request, good, transport);
    ProfileFacts(p, request, lib);
    ReadyMeans(p, descriptor, request, transport, lib);
    e := CheckedEnvelope(p, descriptor, request, transport, lib);
    BuiltEnvelopeValidExactly(p, descriptor, request, transport, lib, e);
  }
}
