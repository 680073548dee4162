/** src/ainir/draft_ast.py: the parser, whose helpers append to one shared list of
    findings while they build the parts of the AST. */
module DraftParser {
  import opened Text
  import opened JsonTree
  import opened DraftSyntax
  import opened DraftSections

  class Parser {
    var findings: seq<Rule>
    const syntax: Syntax

    constructor (syntax: Syntax)
      ensures findings == [] && this.syntax == syntax
    {
      findings := [];
      this.syntax := syntax;
    }

    method Report(failed: bool, rule: Rule)
      modifies this
      ensures findings == old(findings) + When(failed, rule)
    {
      if failed { findings := findings + [rule]; }
    }

    method CheckFields(ms: seq<Member>, allowed: set<string>)
      modifies this
      ensures findings == old(findings) + UnknownFieldRules(ms, allowed)
    {
      for i := 0 to |ms|
        invariant findings == old(findings) + UnknownFieldRules(ms[..i], allowed)
      {
        FieldMore(ms, i, allowed);
        ghost var sum := Joined(old(findings), UnknownFieldRules(ms[..i], allowed), FieldRules(ms[i], allowed));
        Report(ms[i].key !in allowed, UnknownField);
      }
      assert ms[..|ms|] == ms;
    }

    method CheckId(s: string)
      modifies this
      ensures findings == old(findings) + IdRules(s, syntax)
    {
      Report(!syntax.trimmed(s), IdentityWhitespace);
      Report(!SafeIdentity(s) || !syntax.trimmed(s), UnsafeIdentity);
    }

    method RequiredId(v: Json) returns (id: Option<string>)
      modifies this
      ensures findings == old(findings) + RequiredIdRules(v, syntax)
      ensures id == if Filled(v, syntax) && !syntax.unknown(v.s) then Some(v.s) else None
    {
      if !Filled(v, syntax) || syntax.unknown(v.s) {
        findings := findings + [RequiredIdentity];
        return None;
      }
      CheckId(v.s);
      return Some(v.s);
    }

    method ParseOptionalId(item: Json) returns (id: Option<string>)
      modifies this
      ensures findings == old(findings) + OptionalIdRules(item, syntax)
      ensures id == OptionalId(item, syntax)
    {
      var v := Get(item, "id");
      if v.Null? { return None; }
      if !Filled(v, syntax) {
        findings := findings + [SectionIdNotString];
        return None;
      }
      CheckId(v.s);
      return Some(v.s);
    }

    method ParseIdItem(v: Json, what: Label) returns (kept: seq<string>)
      modifies this
      ensures kept == if Filled(v, syntax) then [v.s] else []
      ensures findings == old(findings) + IdItemRules(v, what, syntax)
    {
      if !Filled(v, syntax) {
        findings := findings + [ItemRequired(what)];
        return [];
      }
      Report(!syntax.trimmed(v.s), ItemWhitespace(what));
      Report(!SafeIdentity(v.s) || !syntax.trimmed(v.s), ItemUnsafe(what));
      return [v.s];
    }

    method ParseIdList(v: Json, what: Label, required: bool) returns (ids: seq<string>)
      modifies this
      ensures ids == IdList(v, what, required, syntax).0
      ensures findings == old(findings) + IdList(v, what, required, syntax).1
    {
      ids := [];
      if v.Null? {
        Report(required, EffectsRequired);
      } else if !v.Arr? {
        findings := findings + [MustBeList(what)];
      } else {
        for i := 0 to |v.items|
          invariant ids == IdItems(v.items[..i], what, syntax).0
          invariant findings == old(findings) + IdItems(v.items[..i], what, syntax).1
        {
          assert v.items[..i + 1][..i] == v.items[..i];
          ghost var sum := Joined(old(findings), IdItems(v.items[..i], what, syntax).1, IdItemRules(v.items[i], what, syntax));
          var kept := ParseIdItem(v.items[i], what);
          ids := ids + kept;
        }
        assert v.items[..|v.items|] == v.items;
      }
    }

    // ----- operations -----

    method CheckOperationId(item: Json, seen: set<string>)
      modifies this
      ensures findings == old(findings) + OperationIdRules(item, seen, syntax)
    {
      var id := Get(item, "id");
      if !Filled(id, syntax) {
        findings := findings + [OperationIdRequired];
      } else {
        CheckId(id.s);
        Report(id.s in seen, DuplicateOperationId);
      }
    }

    method CheckOperationOp(item: Json)
      modifies this
      ensures findings == old(findings) + OperationOpRules(item, syntax)
    {
      var op := Get(item, "op");
      if !Filled(op, syntax) {
        findings := findings + [OperationOpRequired];
      } else {
        CheckId(op.s);
      }
    }

    method ParseOperation(item: Json, seen: set<string>) returns (kept: seq<OperationAst>)
      modifies this
      ensures kept == OperationOf(item, syntax)
      ensures findings == old(findings) + OperationRules(item, seen, syntax)
    {
      if !item.Obj? {
        findings := findings + [OperationNotObject];
        return [];
      }
      ghost var start := findings;
      CheckFields(item.members, OPERATION_FIELDS);
      ghost var sum := UnknownFieldRules(item.members, OPERATION_FIELDS);
      CheckOperationId(item, seen);
      sum := Joined(start, sum, OperationIdRules(item, seen, syntax));
      CheckOperationOp(item);
      sum := Joined(start, sum, OperationOpRules(item, syntax));
      var effects := ParseIdList(Get(item, "effects"), Effect, true);
      sum := Joined(start, sum, IdList(Get(item, "effects"), Effect, true, syntax).1);
      var capabilities := ParseIdList(Get(item, "capabilities"), Capability, false);
      sum := Joined(start, sum, IdList(Get(item, "capabilities"), Capability, false, syntax).1);
      var policies := ParseIdList(Get(item, "policies"), Policy, false);
      sum := Joined(start, sum, IdList(Get(item, "policies"), Policy, false, syntax).1);
      kept := [];
      if Filled(Get(item, "id"), syntax) && Filled(Get(item, "op"), syntax) {
        kept := [OperationAst(Get(item, "id").s, Get(item, "op").s, effects, capabilities, policies, item.members)];
      }
    }

    method ParseOperations(v: Json) returns (operations: seq<OperationAst>)
      modifies this
      ensures operations == Operations(v, syntax).0
      ensures findings == old(findings) + Operations(v, syntax).1
    {
      operations := [];
      if !v.Arr? || v.items == [] {
        findings := findings + [OperationsRequired];
        return;
      }
      var seen: set<string> := {};
      for i := 0 to |v.items|
        invariant seen == SeenIds(v.items[..i], syntax)
        invariant operations == OperationItems(v.items[..i], syntax).0
        invariant findings == old(findings) + OperationItems(v.items[..i], syntax).1
      {
        var item := v.items[i];
        SeenMore(v.items, i, syntax);
        ghost var sum := Joined(old(findings), OperationItems(v.items[..i], syntax).1, OperationRules(item, seen, syntax));
        var kept := ParseOperation(item, seen);
        operations := operations + kept;
        if item.Obj? && Filled(Get(item, "id"), syntax) { seen := seen + {Get(item, "id").s}; }
      }
      assert v.items[..|v.items|] == v.items;
    }

    // ----- sections -----

    method ParseObjects(v: Json, section: Section) returns (items: seq<Json>)
      modifies this
      ensures items == ObjectList(v, section).0
      ensures findings == old(findings) + ObjectList(v, section).1
    {
      items := [];
      if v.Null? { return; }
      if !v.Arr? {
        findings := findings + [SectionNotList(section)];
        return;
      }
      for i := 0 to |v.items|
        invariant items == ObjectItems(v.items[..i], section).0
        invariant findings == old(findings) + ObjectItems(v.items[..i], section).1
      {
        ObjectMore(v.items, i, section);
        ghost var sum := Joined(old(findings), ObjectItems(v.items[..i], section).1, When(!v.items[i].Obj?, SectionItemNotObject(section)));
        Report(!v.items[i].Obj?, SectionItemNotObject(section));
        if v.items[i].Obj? { items := items + [v.items[i]]; }
      }
      assert v.items[..|v.items|] == v.items;
    }

    method CheckReference(ev: Json)
      modifies this
      ensures findings == old(findings) + ReferenceRules(ev, syntax)
    {
      if !ev.Obj? {
        findings := findings + [ClaimEvidenceNotObject];
        return;
      }
      CheckFields(ev.members, EVIDENCE_FIELDS);
      var id := Get(ev, "id");
      if id.Str? {
        CheckId(id.s);
      } else {
        Report(!id.Null?, ClaimEvidenceIdNotString);
      }
    }

    method ParseReferences(v: Json) returns (evidence: seq<Json>)
      modifies this
      ensures evidence == ClaimEvidence(v, syntax).0
      ensures findings == old(findings) + ClaimEvidence(v, syntax).1
    {
      evidence := [];
      if v.Null? { return; }
      if !v.Arr? {
        findings := findings + [ClaimEvidenceNotList];
        return;
      }
      for i := 0 to |v.items|
        invariant evidence == References(v.items[..i], syntax).0
        invariant findings == old(findings) + References(v.items[..i], syntax).1
      {
        assert v.items[..i + 1][..i] == v.items[..i];
        ghost var sum := Joined(old(findings), References(v.items[..i], syntax).1, ReferenceRules(v.items[i], syntax));
        CheckReference(v.items[i]);
        if v.items[i].Obj? { evidence := evidence + [v.items[i]]; }
      }
      assert v.items[..|v.items|] == v.items;
    }

    method ParseClaim(item: Json) returns (c: ClaimAst)
      requires item.Obj?
      modifies this
      ensures c == ClaimOf(item, syntax)
      ensures findings == old(findings) + ClaimRules(item, syntax)
    {
      ghost var start := findings;
      CheckFields(item.members, CLAIM_FIELDS);
      ghost var sum := UnknownFieldRules(item.members, CLAIM_FIELDS);
      var id := ParseOptionalId(item);
      sum := Joined(start, sum, OptionalIdRules(item, syntax));
      var status := GetOr(item, "status", Str("hypothesized"));
      Report(!(status.Str? && status.s in CLAIM_STATUSES), ClaimStatusInvalid);
      sum := Joined(start, sum, StatusRules(item));
      var evidence := ParseReferences(Get(item, "evidence"));
      sum := Joined(start, sum, ClaimEvidence(Get(item, "evidence"), syntax).1);
      c := ClaimAst(id, StatusOf(item), evidence, item.members);
    }

    method ParseClaims(v: Json) returns (claims: seq<ClaimAst>)
      modifies this
      ensures claims == Claims(v, syntax).0
      ensures findings == old(findings) + Claims(v, syntax).1
    {
      var items := ParseObjects(v, ClaimsSection);
      ghost var start := ObjectList(v, ClaimsSection).1;
      claims := [];
      for i := 0 to |items|
        invariant claims == ClaimItems(items[..i], syntax).0
        invariant findings == old(findings) + start + ClaimItems(items[..i], syntax).1
      {
        ClaimMore(items, i, syntax);
        ghost var sum := Joined(old(findings) + start, ClaimItems(items[..i], syntax).1, ClaimRules(items[i], syntax));
        var c := ParseClaim(items[i]);
        claims := claims + [c];
      }
      assert items[..|items|] == items;
      ghost var sum := Joined(old(findings), start, ClaimItems(items, syntax).1);
    }

    method ParseEvidence(v: Json) returns (evidence: seq<EvidenceAst>)
      modifies this
      ensures evidence == Evidence(v, syntax).0
      ensures findings == old(findings) + Evidence(v, syntax).1
    {
      var items := ParseObjects(v, EvidenceSection);
      ghost var start := ObjectList(v, EvidenceSection).1;
      evidence := [];
      for i := 0 to |items|
        invariant evidence == EvidenceItems(items[..i], syntax).0
        invariant findings == old(findings) + start + EvidenceItems(items[..i], syntax).1
      {
        EvidenceMore(items, i, syntax);
        ghost var sum := Joined(old(findings) + start, EvidenceItems(items[..i], syntax).1, EvidenceRules(items[i], syntax));
        var e := ParseEvidenceItem(items[i]);
        evidence := evidence + [e];
      }
      assert items[..|items|] == items;
      ghost var sum := Joined(old(findings), start, EvidenceItems(items, syntax).1);
    }

    method ParseEvidenceItem(item: Json) returns (e: EvidenceAst)
      requires item.Obj?
      modifies this
      ensures e == EvidenceOf(item, syntax)
      ensures findings == old(findings) + EvidenceRules(item, syntax)
    {
      ghost var start := findings;
      CheckFields(item.members, EVIDENCE_FIELDS);
      ghost var sum := UnknownFieldRules(item.members, EVIDENCE_FIELDS);
      var id := ParseOptionalId(item);
      sum := Joined(start, sum, OptionalIdRules(item, syntax));
      var kind := Get(item, "kind");
      Report(!kind.Null? && !Filled(kind, syntax), EvidenceKindNotString);
      sum := Joined(start, sum, When(!kind.Null? && !Filled(kind, syntax), EvidenceKindNotString));
      e := EvidenceAst(id, if Filled(kind, syntax) then Some(kind.s) else None, item.members);
    }

    method ParsePolicies(v: Json) returns (policies: seq<PolicyAst>)
      modifies this
      ensures policies == Policies(v, syntax).0
      ensures findings == old(findings) + Policies(v, syntax).1
    {
      var items := ParseObjects(v, PoliciesSection);
      ghost var start := ObjectList(v, PoliciesSection).1;
      policies := [];
      for i := 0 to |items|
        invariant policies == PolicyItems(items[..i], syntax).0
        invariant findings == old(findings) + start + PolicyItems(items[..i], syntax).1
      {
        PolicyMore(items, i, syntax);
        ghost var sum := Joined(old(findings) + start, PolicyItems(items[..i], syntax).1, PolicyRules(items[i], syntax));
        var p := ParsePolicy(items[i]);
        policies := policies + [p];
      }
      assert items[..|items|] == items;
      ghost var sum := Joined(old(findings), start, PolicyItems(items, syntax).1);
    }

    method ParsePolicy(item: Json) returns (p: PolicyAst)
      requires item.Obj?
      modifies this
      ensures p == PolicyOf(item, syntax)
      ensures findings == old(findings) + PolicyRules(item, syntax)
    {
      CheckFields(item.members, POLICY_FIELDS);
      var id := ParseOptionalId(item);
      p := PolicyAst(id, item.members);
    }

    method ParseHoles(v: Json) returns (holes: seq<HoleAst>)
      modifies this
      ensures holes == Holes(v, syntax).0
      ensures findings == old(findings) + Holes(v, syntax).1
    {
      var items := ParseObjects(v, HolesSection);
      ghost var start := ObjectList(v, HolesSection).1;
      holes := [];
      for i := 0 to |items|
        invariant holes == HoleItems(items[..i], syntax).0
        invariant findings == old(findings) + start + HoleItems(items[..i], syntax).1
      {
        HoleMore(items, i, syntax);
        ghost var sum := Joined(old(findings) + start, HoleItems(items[..i], syntax).1, HoleRules(items[i], syntax));
        var h := ParseHole(items[i]);
        holes := holes + [h];
      }
      assert items[..|items|] == items;
      ghost var sum := Joined(old(findings), start, HoleItems(items, syntax).1);
    }

    method ParseHole(item: Json) returns (h: HoleAst)
      requires item.Obj?
      modifies this
      ensures h == HoleOf(item, syntax)
      ensures findings == old(findings) + HoleRules(item, syntax)
    {
      ghost var start := findings;
      CheckFields(item.members, HOLE_FIELDS);
      ghost var sum := UnknownFieldRules(item.members, HOLE_FIELDS);
      var id := ParseOptionalId(item);
      sum := Joined(start, sum, OptionalIdRules(item, syntax));
      var resolved := GetOr(item, "resolved", Bool(false));
      Report(!resolved.Bool?, HoleResolvedNotBoolean);
      sum := Joined(start, sum, When(!resolved.Bool?, HoleResolvedNotBoolean));
      h := HoleAst(id, resolved.Bool? && resolved.b, item.members);
    }

    // ----- the draft -----

    method ParseIdentity(raw: Json) returns (workflow: string)
      modifies this
      ensures findings == old(findings) + IdentityRules(raw, syntax)
      ensures Get(raw, "workflow").Str? ==> workflow == syntax.workflow(Get(raw, "workflow").s).0
    {
      ghost var start := findings;
      var m := RequiredId(Get(raw, "module"));
      ghost var sum := RequiredIdRules(Get(raw, "module"), syntax);
      var w := RequiredId(Get(raw, "workflow"));
      sum := Joined(start, sum, RequiredIdRules(Get(raw, "workflow"), syntax));
      var t := RequiredId(Get(raw, "task"));
      sum := Joined(start, sum, RequiredIdRules(Get(raw, "task"), syntax));
      workflow := if Get(raw, "workflow").Str? then syntax.workflow(Get(raw, "workflow").s).0 else "";
      if w.Some? { Report(syntax.workflow(w.value).1, WorkflowAlias); }
      sum := Joined(start, sum, AliasRules(Get(raw, "workflow"), syntax));
    }

    method ParseSections(raw: Json) returns (operations: seq<OperationAst>, claims: seq<ClaimAst>, evidence: seq<EvidenceAst>,
                                             policies: seq<PolicyAst>, holes: seq<HoleAst>)
      modifies this
      ensures findings == old(findings) + SectionRules(raw, syntax)
      ensures operations == Operations(Get(raw, "operations"), syntax).0 && claims == Claims(Get(raw, "claims"), syntax).0
      ensures evidence == Evidence(Get(raw, "evidence"), syntax).0 && policies == Policies(Get(raw, "policies"), syntax).0
      ensures holes == Holes(Get(raw, "holes"), syntax).0
    {
      ghost var start := findings;
      operations := ParseOperations(Get(raw, "operations"));
      ghost var sum := Operations(Get(raw, "operations"), syntax).1;
      claims := ParseClaims(Get(raw, "claims"));
      sum := Joined(start, sum, Claims(Get(raw, "claims"), syntax).1);
      evidence := ParseEvidence(Get(raw, "evidence"));
      sum := Joined(start, sum, Evidence(Get(raw, "evidence"), syntax).1);
      policies := ParsePolicies(Get(raw, "policies"));
      sum := Joined(start, sum, Policies(Get(raw, "policies"), syntax).1);
      holes := ParseHoles(Get(raw, "holes"));
      sum := Joined(start, sum, Holes(Get(raw, "holes"), syntax).1);
    }

    /** `parse_draft_ast`, after the loader's error flags. */
    method ParseDraft(raw: Json) returns (r: Parsed)
      requires findings == []
      modifies this
      ensures r == Parse(raw, syntax)
    {
      if !raw.Obj? { return Parsed(None, [RootNotObject]); }
      var flag := FirstFlag(raw, LOADER_FLAGS);
      if flag.Some? { return Parsed(None, [LoaderError(flag.value)]); }
      CheckFields(raw.members, TOP_LEVEL_FIELDS);
      ghost var sum := UnknownFieldRules(raw.members, TOP_LEVEL_FIELDS);
      var workflow := ParseIdentity(raw);
      sum := Joined([], sum, IdentityRules(raw, syntax));
      var operations, claims, evidence, policies, holes := ParseSections(raw);
      sum := Joined([], sum, SectionRules(raw, syntax));
      var passthrough := Passthrough(raw.members);
      findings := findings + PassthroughRules(Obj(passthrough), syntax);
      sum := Joined([], sum, PassthroughRules(Obj(passthrough), syntax));
      assert findings == DraftRules(raw, syntax);
      var identified := Get(raw, "module").Str? && Get(raw, "workflow").Str? && Get(raw, "task").Str?;
      if AnyCritical(findings) || !identified { return Parsed(None, findings); }
      if workflow == "" { return Parsed(None, findings + [EmptyWorkflow]); }
      r := Parsed(Some(DraftAst(Get(raw, "module").s, workflow, Get(raw, "task").s, operations, claims, evidence, policies, holes, passthrough)),
                  findings);
    }
  }

  lemma {:induction false} ObjectMore(items: seq<Json>, i: nat, section: Section)
    requires i < |items|
    ensures ObjectItems(items[..i + 1], section).0 == ObjectItems(items[..i], section).0 + (if items[i].Obj? then [items[i]] else [])
    ensures ObjectItems(items[..i + 1], section).1 == ObjectItems(items[..i], section).1 + When(!items[i].Obj?, SectionItemNotObject(section))
  {
    assert items[..i + 1] == items[..i] + [items[i]];
    ObjectItemsStep(items[..i], items[i], section);
  }

  lemma {:induction false} FieldMore(ms: seq<Member>, i: nat, allowed: set<string>)
    requires i < |ms|
    ensures UnknownFieldRules(ms[..i + 1], allowed) == UnknownFieldRules(ms[..i], allowed) + FieldRules(ms[i], allowed)
  {
    assert ms[..i + 1][..i] == ms[..i];
  }

  lemma {:induction false} ClaimMore(items: seq<Json>, i: nat, y: Syntax)
    requires i < |items| && forall x | x in items :: x.Obj?
    ensures ClaimItems(items[..i + 1], y).0 == ClaimItems(items[..i], y).0 + [ClaimOf(items[i], y)]
    ensures ClaimItems(items[..i + 1], y).1 == ClaimItems(items[..i], y).1 + ClaimRules(items[i], y)
  {
    assert items[..i + 1][..i] == items[..i];
  }

  lemma {:induction false} EvidenceMore(items: seq<Json>, i: nat, y: Syntax)
    requires i < |items| && forall x | x in items :: x.Obj?
    ensures EvidenceItems(items[..i + 1], y).0 == EvidenceItems(items[..i], y).0 + [EvidenceOf(items[i], y)]
    ensures EvidenceItems(items[..i + 1], y).1 == EvidenceItems(items[..i], y).1 + EvidenceRules(items[i], y)
  {
    assert items[..i + 1][..i] == items[..i];
  }

  lemma {:induction false} PolicyMore(items: seq<Json>, i: nat, y: Syntax)
    requires i < |items| && forall x | x in items :: x.Obj?
    ensures PolicyItems(items[..i + 1], y).0 == PolicyItems(items[..i], y).0 + [PolicyOf(items[i], y)]
    ensures PolicyItems(items[..i + 1], y).1 == PolicyItems(items[..i], y).1 + PolicyRules(items[i], y)
  {
    assert items[..i + 1][..i] == items[..i];
  }

  lemma {:induction false} HoleMore(items: seq<Json>, i: nat, y: Syntax)
    requires i < |items| && forall x | x in items :: x.Obj?
    ensures HoleItems(items[..i + 1], y).0 == HoleItems(items[..i], y).0 + [HoleOf(items[i], y)]
    ensures HoleItems(items[..i + 1], y).1 == HoleItems(items[..i], y).1 + HoleRules(items[i], y)
  {
    assert items[..i + 1][..i] == items[..i];
  }

  lemma {:induction false} SeenMore(items: seq<Json>, i: nat, y: Syntax)
    requires i < |items|
    ensures OperationItems(items[..i + 1], y).0 == OperationItems(items[..i], y).0 + OperationOf(items[i], y)
    ensures OperationItems(items[..i + 1], y).1 == OperationItems(items[..i], y).1 + OperationRules(items[i], SeenIds(items[..i], y), y)
    ensures SeenIds(items[..i + 1], y)
         == SeenIds(items[..i], y) + (if items[i].Obj? && Filled(Get(items[i], "id"), y) then {Get(items[i], "id").s} else {})
  {
    assert items[..i + 1][..i] == items[..i];
    assert forall z :: z in items[..i + 1] <==> z in items[..i] || z == items[i];
  }
}
