/** src/ainir/operation_registry.py: reviewed operation specs, their aliases, and what a
    draft operation may declare under its spec. */
module OperationRegistry {
  import opened Text
  import opened JsonTree

  /** What the registry takes from the safety registry and from Python's string methods. */
  datatype Safety = Safety(
    effectFamilies: string -> set<string>,
    operationFamilies: string -> set<string>,
    knownWorkflow: string -> bool,
    forbiddenRoles: string -> set<string>,
    compact: string -> string,
    blank: string -> bool,
    show: Json -> string)

  // ----- a spec and its defaulting properties -----

  datatype OperationSpec = OperationSpec(id: string, raw: Json)

  /** `str(x) for x in v or []`. */
  function Shown(v: Json, s: Safety): seq<string> {
    match v
    case Arr(items) => ShownItems(items, s)
    case Obj(ms) => seq(|ms|, i requires 0 <= i < |ms| => ms[i].key)
    case Str(text) => seq(|text|, i requires 0 <= i < |text| => [text[i]])
    case _ => []
  }

  function ShownItems(items: seq<Json>, s: Safety): (r: seq<string>)
    ensures |r| == |items|
  {
    seq(|items|, i requires 0 <= i < |items| => if items[i].Str? then items[i].s else s.show(items[i]))
  }

  function Field(spec: OperationSpec, name: string, s: Safety): seq<string> { Shown(Get(spec.raw, name), s) }

  function RequiredEffects(spec: OperationSpec, s: Safety): seq<string> { Field(spec, "required_effects", s) }

  /** Absent, the allowed effects are the required ones. */
  function AllowedEffects(spec: OperationSpec, s: Safety): seq<string> {
    Shown(GetOr(spec.raw, "allowed_effects", Get(spec.raw, "required_effects")), s)
  }

  function AllowedEffectFamilies(spec: OperationSpec, s: Safety): seq<string> {
    Shown(GetOr(spec.raw, "allowed_effect_families", Get(spec.raw, "required_effect_families")), s)
  }

  function AllowedCapabilityPrefixes(spec: OperationSpec, s: Safety): seq<string> {
    if Has(spec.raw, "allowed_capability_prefixes") then Field(spec, "allowed_capability_prefixes", s)
    else Field(spec, "required_capability_prefixes", s)
  }

  function AllowedCapabilities(spec: OperationSpec, s: Safety): seq<string> {
    if Has(spec.raw, "allowed_capabilities") then Field(spec, "allowed_capabilities", s)
    else if Has(spec.raw, "required_capabilities") then Field(spec, "required_capabilities", s)
    else []
  }

  predicate AllowsExtraEffects(spec: OperationSpec) { Truthy(Get(spec.raw, "allow_extra_effects")) }

  predicate AllowsExtraCapabilities(spec: OperationSpec) { Truthy(Get(spec.raw, "allow_extra_capabilities")) }

  function TrustLevel(spec: OperationSpec, s: Safety): string {
    var level := GetOr(spec.raw, "trust_level", Str("untrusted"));
    if level.Str? then level.s else s.show(level)
  }

  // ----- the tables -----

  datatype Table = Table(specs: map<string, OperationSpec>, aliases: map<string, string>)

  function WithAliases(aliases: map<string, string>, names: seq<Json>, id: string, s: Safety): map<string, string> {
    if names == [] then aliases
    else
      var n := |names| - 1;
      var earlier := WithAliases(aliases, names[..n], id, s);
      if names[n].Str? then earlier[s.compact(names[n].s) := id] else earlier
  }

  /** A first registration of an id adds its spec and overrides its aliases; later ones
      are ignored. */
  function Register(t: Table, item: Json, s: Safety): Table {
    var id := Get(item, "id");
    if !id.Str? || id.s in t.specs then t
    else
      Table(t.specs[id.s := OperationSpec(id.s, item)],
            WithAliases(t.aliases[s.compact(id.s) := id.s], Listed(Get(item, "aliases")), id.s, s))
  }

  function TableOf(items: seq<Json>, s: Safety): Table {
    if items == [] then Table(map[], map[])
    else Register(TableOf(items[..|items| - 1], s), items[|items| - 1], s)
  }

  /** `resolve_id`: the registered id, and whether an alias was followed. */
  function Resolve(t: Table, name: Json, s: Safety): Option<(string, bool)> {
    if !name.Str? || s.blank(name.s) then None
    else if name.s in t.specs then Some((name.s, false))
    else if s.compact(name.s) in t.aliases && t.aliases[s.compact(name.s)] != "" then
      Some((t.aliases[s.compact(name.s)], t.aliases[s.compact(name.s)] != name.s))
    else None
  }

  lemma {:induction false} WithAliasesLand(aliases: map<string, string>, names: seq<Json>, id: string, s: Safety, ids: set<string>)
    requires id in ids && forall a | a in aliases :: aliases[a] in ids
    ensures forall a | a in WithAliases(aliases, names, id, s) :: WithAliases(aliases, names, id, s)[a] in ids
  {
    if names != [] { WithAliasesLand(aliases, names[..|names| - 1], id, s, ids); }
  }

  /** Every alias leads to a registered id, and every spec is an item registered as is. */
  ghost predicate Sound(t: Table, items: seq<Json>) {
    && (forall a | a in t.aliases :: t.aliases[a] in t.specs)
    && (forall id | id in t.specs :: t.specs[id].id == id && t.specs[id].raw in items && Get(t.specs[id].raw, "id") == Str(id))
  }

  lemma {:induction false} TableIsSound(items: seq<Json>, s: Safety)
    ensures Sound(TableOf(items, s), items)
  {
    if items != [] {
      var n := |items| - 1;
      TableIsSound(items[..n], s);
      var t, id := TableOf(items[..n], s), Get(items[n], "id");
      if id.Str? && id.s !in t.specs {
        var ids := t.specs.Keys + {id.s};
        WithAliasesLand(t.aliases[s.compact(id.s) := id.s], Listed(Get(items[n], "aliases")), id.s, s, ids);
      }
    }
  }

  /** Whatever a name resolves to is registered. */
  lemma {:induction false} ResolutionLands(items: seq<Json>, name: Json, s: Safety)
    requires Resolve(TableOf(items, s), name, s).Some?
    ensures Resolve(TableOf(items, s), name, s).value.0 in TableOf(items, s).specs
  {
    TableIsSound(items, s);
  }

  /** Resolving what a name resolves to gives it back. */
  ghost predicate Settles(t: Table, name: Json, s: Safety)
    requires Resolve(t, name, s).Some?
  {
    var id := Resolve(t, name, s).value.0;
    Resolve(t, Str(id), s) == Some((id, false))
  }

  /** A resolved name settles exactly when it is registered itself or its alias does not
      lead to a blank id. */
  lemma {:induction false} ResolutionIdempotentExactly(items: seq<Json>, name: string, s: Safety)
    requires Resolve(TableOf(items, s), Str(name), s).Some?
    ensures Settles(TableOf(items, s), Str(name), s) <==>
            name in TableOf(items, s).specs || !s.blank(TableOf(items, s).aliases[s.compact(name)])
  {
    ResolutionLands(items, Str(name), s);
  }

  ghost predicate RegistersBlank(items: seq<Json>, s: Safety) {
    exists item | item in items :: Get(item, "id").Str? && s.blank(Get(item, "id").s)
  }

  /** Where no item registers a blank id, every resolution settles. */
  lemma {:induction false} NoBlankIdSettles(items: seq<Json>, name: Json, s: Safety)
    requires !RegistersBlank(items, s) && Resolve(TableOf(items, s), name, s).Some?
    ensures Settles(TableOf(items, s), name, s)
  {
    TableIsSound(items, s);
    ResolutionLands(items, name, s);
    var spec := TableOf(items, s).specs[Resolve(TableOf(items, s), name, s).value.0];
    assert spec.raw in items && Get(spec.raw, "id") == Str(spec.id);
  }

  /** A blank id can be registered and reached through its compact form, and then does
      not resolve to itself. */
  lemma {:induction false} BlankIdIsReachable(s: Safety)
    requires s.blank("  ") && !s.blank("!!") && s.compact("!!") == s.compact("  ")
    ensures var items := [Obj([Member("id", Str("  "))])];
            && Resolve(TableOf(items, s), Str("!!"), s) == Some(("  ", true))
            && Resolve(TableOf(items, s), Str("  "), s) == None
  {
    var item := Obj([Member("id", Str("  "))]);
    var ms := item.members;
    assert Distinct(ms);
    LookupAt(ms, 0);
    assert Get(item, "id") == Str("  ");
    assert !HasKey(ms, "aliases");
    assert Listed(Get(item, "aliases")) == [];
    var items := [item];
    assert items[..0] == [];
    assert TableOf(items, s) == Register(Table(map[], map[]), item, s);
    assert TableOf(items, s).aliases[s.compact("!!")] == "  ";
    assert "!!" !in TableOf(items, s).specs by { assert "!!"[0] != "  "[0]; }
  }

  // ----- what a draft operation declares -----

  datatype Rule =
    | SpecRequired | SpecUntrusted | NoWorkflowAllowed | WorkflowNotAllowed
    | RequiredEffectMissing(name: string) | RequiredFamilyMissing(name: string)
    | ForbiddenInDemo | ForbiddenRole(name: string) | ForbiddenFamily(name: string)
    | UnallowedEffect(name: string) | RequiredCapabilityMissing(name: string)
    | RequiredCapabilityAnyMissing | RequiredPrefixMissing(name: string)
    | UnallowedCapability(name: string) | PolicyMissing

  /** The strings of a list; what is not a string is ignored. */
  function DeclaredStrings(v: Json): seq<string> { StringsIn(Listed(v)) }

  function StringsIn(items: seq<Json>): (r: seq<string>)
    ensures forall x :: x in r <==> Str(x) in items
  {
    if items == [] then []
    else
      var n := |items| - 1;
      assert forall v :: v in items <==> v in items[..n] || v == items[n];
      StringsIn(items[..n]) + (if items[n].Str? then [items[n].s] else [])
  }

  /** One rule for each name of a list that fails a test. */
  function Flag(names: seq<string>, bad: string -> bool, rule: string -> Rule): (r: seq<Rule>)
    ensures r == [] <==> forall x | x in names :: !bad(x)
  {
    if names == [] then []
    else
      var n := |names| - 1;
      assert forall x :: x in names <==> x in names[..n] || x == names[n];
      Flag(names[..n], bad, rule) + (if bad(names[n]) then [rule(names[n])] else [])
  }

  method CollectFlags(names: seq<string>, bad: string -> bool, rule: string -> Rule) returns (out: seq<Rule>)
    ensures out == Flag(names, bad, rule)
  {
    out := [];
    for i := 0 to |names|
      invariant out == Flag(names[..i], bad, rule)
    {
      assert names[..i + 1][..i] == names[..i];
      if bad(names[i]) { out := out + [rule(names[i])]; }
    }
    assert names[..|names|] == names;
  }

  function Only(failed: bool, rule: Rule): (r: seq<Rule>)
    ensures r == [] <==> !failed
  {
    if failed then [rule] else []
  }

  function FamiliesOf(effects: seq<string>, s: Safety): set<string> {
    set e, f | e in effects && f in s.effectFamilies(e) :: f
  }

  /** A draft operation: its op name, the strings it declares, and the workflow around it. */
  datatype DraftOperation = DraftOperation(op: Json, effects: seq<string>, capabilities: seq<string>, policies: seq<string>, workflow: string)

  function ReadOperation(op: Json, workflow: string): DraftOperation {
    DraftOperation(Get(op, "op"), DeclaredStrings(Get(op, "effects")), DeclaredStrings(Get(op, "capabilities")),
                   DeclaredStrings(Get(op, "policies")), workflow)
  }

  predicate StartsWithSome(cap: string, prefixes: seq<string>) { exists p | p in prefixes :: StartsWith(cap, p) }

  predicate UnallowedEffectIn(e: string, spec: OperationSpec, s: Safety) {
    && !AllowsExtraEffects(spec)
    && e !in AllowedEffects(spec, s)
    && !(exists f | f in AllowedEffectFamilies(spec, s) :: f in s.effectFamilies(e))
  }

  predicate UnallowedCapabilityIn(c: string, spec: OperationSpec, s: Safety) {
    && !AllowsExtraCapabilities(spec)
    && c !in AllowedCapabilities(spec, s)
    && !StartsWithSome(c, AllowedCapabilityPrefixes(spec, s))
  }

  predicate NeedsAnyOf(names: seq<string>, have: seq<string>) { names != [] && !exists x | x in have :: x in names }

  function HeaderFlags(spec: OperationSpec, d: DraftOperation, trusted: seq<string>, s: Safety): seq<Rule> {
    var workflows := Field(spec, "allowed_workflows", s);
    Only(trusted != [] && TrustLevel(spec, s) !in trusted, SpecUntrusted)
    + Only(Truthy(Get(spec.raw, "forbidden_in_public_demo")), ForbiddenInDemo)
    + (if !Has(spec.raw, "allowed_workflows") then []
       else if workflows == [] then [NoWorkflowAllowed]
       else Only(d.workflow !in workflows, WorkflowNotAllowed))
  }

  function EffectFlags(spec: OperationSpec, d: DraftOperation, s: Safety): seq<Rule> {
    Flag(SortedSet(RequiredEffects(spec, s)), x => x !in d.effects, x => RequiredEffectMissing(x))
    + Flag(SortedSet(Field(spec, "required_effect_families", s)), x => x !in FamiliesOf(d.effects, s), x => RequiredFamilyMissing(x))
  }

  function RoleFlags(spec: OperationSpec, d: DraftOperation, s: Safety): seq<Rule> {
    var roles := Field(spec, "semantic_roles", s);
    Flag(SortedSet(roles), x => x in s.forbiddenRoles(d.workflow), x => ForbiddenRole(x))
    + Flag(SortedSet(Field(spec, "forbidden_roles", s)), x => x in roles, x => ForbiddenRole(x))
    + Flag(SortedSet(Field(spec, "forbidden_families", s)),
           x => x in FamiliesOf(d.effects, s) || (d.op.Str? && x in s.operationFamilies(d.op.s)), x => ForbiddenFamily(x))
    + Flag(d.effects, x => UnallowedEffectIn(x, spec, s), x => UnallowedEffect(x))
  }

  function CapabilityFlags(spec: OperationSpec, d: DraftOperation, s: Safety): seq<Rule> {
    Flag(SortedSet(Field(spec, "required_capabilities", s)), x => x !in d.capabilities, x => RequiredCapabilityMissing(x))
    + Only(NeedsAnyOf(Field(spec, "required_capability_any", s), d.capabilities), RequiredCapabilityAnyMissing)
    + Flag(Field(spec, "required_capability_prefixes", s),
           x => !exists c | c in d.capabilities :: StartsWith(c, x), x => RequiredPrefixMissing(x))
    + Flag(d.capabilities, x => UnallowedCapabilityIn(x, spec, s), x => UnallowedCapability(x))
    + Only(NeedsAnyOf(Field(spec, "requires_policy_any", s), d.policies), PolicyMissing)
  }

  function SpecFlags(spec: OperationSpec, d: DraftOperation, trusted: seq<string>, s: Safety): seq<Rule> {
    HeaderFlags(spec, d, trusted, s) + EffectFlags(spec, d, s) + RoleFlags(spec, d, s) + CapabilityFlags(spec, d, s)
  }

  /** Declared effects and capabilities lie between what the spec requires and what it
      allows, and the spec itself may be used here. */
  ghost predicate Bound(spec: OperationSpec, d: DraftOperation, trusted: seq<string>, s: Safety) {
    && (trusted != [] ==> TrustLevel(spec, s) in trusted)
    && !Truthy(Get(spec.raw, "forbidden_in_public_demo"))
    && (Has(spec.raw, "allowed_workflows") ==> d.workflow in Field(spec, "allowed_workflows", s))
    && (forall x | x in RequiredEffects(spec, s) :: x in d.effects)
    && (forall x | x in Field(spec, "required_effect_families", s) :: x in FamiliesOf(d.effects, s))
    && (forall x | x in Field(spec, "semantic_roles", s) ::
          x !in s.forbiddenRoles(d.workflow) && x !in Field(spec, "forbidden_roles", s))
    && (forall x | x in Field(spec, "forbidden_families", s) ::
          x !in FamiliesOf(d.effects, s) && !(d.op.Str? && x in s.operationFamilies(d.op.s)))
    && (forall x | x in d.effects :: !UnallowedEffectIn(x, spec, s))
    && (forall x | x in Field(spec, "required_capabilities", s) :: x in d.capabilities)
    && !NeedsAnyOf(Field(spec, "required_capability_any", s), d.capabilities)
    && (forall x | x in Field(spec, "required_capability_prefixes", s) :: exists c | c in d.capabilities :: StartsWith(c, x))
    && (forall x | x in d.capabilities :: !UnallowedCapabilityIn(x, spec, s))
    && !NeedsAnyOf(Field(spec, "requires_policy_any", s), d.policies)
  }

  lemma {:induction false} FlagsExact(spec: OperationSpec, d: DraftOperation, trusted: seq<string>, s: Safety)
    ensures SpecFlags(spec, d, trusted, s) == [] <==> Bound(spec, d, trusted, s)
  {
    HeaderExact(spec, d, trusted, s);
    EffectExact(spec, d, s);
    RoleExact(spec, d, s);
    CapabilityExact(spec, d, s);
  }

  lemma {:induction false} HeaderExact(spec: OperationSpec, d: DraftOperation, trusted: seq<string>, s: Safety)
    ensures HeaderFlags(spec, d, trusted, s) == [] <==>
            && (trusted != [] ==> TrustLevel(spec, s) in trusted)
            && !Truthy(Get(spec.raw, "forbidden_in_public_demo"))
            && (Has(spec.raw, "allowed_workflows") ==> d.workflow in Field(spec, "allowed_workflows", s))
  {
  }

  lemma {:induction false} EffectExact(spec: OperationSpec, d: DraftOperation, s: Safety)
    ensures EffectFlags(spec, d, s) == [] <==>
            && (forall x | x in RequiredEffects(spec, s) :: x in d.effects)
            && (forall x | x in Field(spec, "required_effect_families", s) :: x in FamiliesOf(d.effects, s))
  {
  }

  lemma {:induction false} RoleExact(spec: OperationSpec, d: DraftOperation, s: Safety)
    ensures RoleFlags(spec, d, s) == [] <==>
            && (forall x | x in Field(spec, "semantic_roles", s) ::
                  x !in s.forbiddenRoles(d.workflow) && x !in Field(spec, "forbidden_roles", s))
            && (forall x | x in Field(spec, "forbidden_families", s) ::
                  x !in FamiliesOf(d.effects, s) && !(d.op.Str? && x in s.operationFamilies(d.op.s)))
            && (forall x | x in d.effects :: !UnallowedEffectIn(x, spec, s))
  {
  }

  lemma {:induction false} CapabilityExact(spec: OperationSpec, d: DraftOperation, s: Safety)
    ensures CapabilityFlags(spec, d, s) == [] <==>
            && (forall x | x in Field(spec, "required_capabilities", s) :: x in d.capabilities)
            && !NeedsAnyOf(Field(spec, "required_capability_any", s), d.capabilities)
            && (forall x | x in Field(spec, "required_capability_prefixes", s) :: exists c | c in d.capabilities :: StartsWith(c, x))
            && (forall x | x in d.capabilities :: !UnallowedCapabilityIn(x, spec, s))
            && !NeedsAnyOf(Field(spec, "requires_policy_any", s), d.policies)
  {
  }

  // ----- the registry -----

  /** What is found about a raw draft operation: a missing spec where a known workflow may not
      go without one, or whatever its spec does not allow. */
  function BindingRules(t: Table, workflow: string, op: Json, trusted: seq<string>, blocksUnknown: bool, s: Safety): seq<Rule> {
    var resolved := Resolve(t, Get(op, "op"), s);
    if resolved.None? || resolved.value.0 !in t.specs then Only(s.knownWorkflow(workflow) && blocksUnknown, SpecRequired)
    else SpecFlags(t.specs[resolved.value.0], ReadOperation(op, workflow), trusted, s)
  }

  class Registry {
    var specs: map<string, OperationSpec>
    var aliasToId: map<string, string>
    const trusted: seq<string>
    const blocksUnknown: bool
    const safety: Safety

    function Contents(): Table
      reads this
    {
      Table(specs, aliasToId)
    }

    constructor (data: Json, safety: Safety)
      ensures Contents() == TableOf(Listed(Get(data, "operations")), safety)
      ensures trusted == Shown(Get(data, "trusted_spec_levels"), safety) && this.safety == safety
      ensures blocksUnknown == (GetOr(data, "unknown_operation_policy", Str("block_for_known_workflows")) == Str("block_for_known_workflows"))
    {
      this.safety := safety;
      this.trusted := Shown(Get(data, "trusted_spec_levels"), safety);
      this.blocksUnknown := GetOr(data, "unknown_operation_policy", Str("block_for_known_workflows")) == Str("block_for_known_workflows");
      this.specs, this.aliasToId := map[], map[];
      new;
      var items := Listed(Get(data, "operations"));
      for i := 0 to |items|
        invariant Contents() == TableOf(items[..i], safety)
      {
        assert items[..i + 1][..i] == items[..i];
        var id := Get(items[i], "id");
        if id.Str? && id.s !in specs {
          specs := specs[id.s := OperationSpec(id.s, items[i])];
          aliasToId := aliasToId[safety.compact(id.s) := id.s];
          AddAliases(Listed(Get(items[i], "aliases")), id.s);
        }
      }
      assert items[..|items|] == items;
    }

    /** The inner loop over one item's aliases. */
    method AddAliases(names: seq<Json>, id: string)
      modifies this`aliasToId
      ensures aliasToId == WithAliases(old(aliasToId), names, id, safety)
    {
      for i := 0 to |names|
        invariant aliasToId == WithAliases(old(aliasToId), names[..i], id, safety)
      {
        assert names[..i + 1][..i] == names[..i];
        if names[i].Str? {
          aliasToId := aliasToId[safety.compact(names[i].s) := id];
        }
      }
      assert names[..|names|] == names;
    }

    /** `operation_binding_findings`. */
    method BindingFindings(workflow: string, op: Json) returns (out: seq<Rule>)
      ensures out == BindingRules(Contents(), workflow, op, trusted, blocksUnknown, safety)
    {
      var d := ReadOperation(op, workflow);
      var resolved := Resolve(Contents(), Get(op, "op"), safety);
      if resolved.None? || resolved.value.0 !in specs {
        return Only(safety.knownWorkflow(workflow) && blocksUnknown, SpecRequired);
      }
      var spec := specs[resolved.value.0];
      out := HeaderFlags(spec, d, trusted, safety);
      var effects := CollectEffects(spec, d);
      var roles := CollectRoles(spec, d);
      var capabilities := CollectCapabilities(spec, d);
      out := out + effects + roles + capabilities;
    }

    method CollectEffects(spec: OperationSpec, d: DraftOperation) returns (out: seq<Rule>)
      ensures out == EffectFlags(spec, d, safety)
    {
      out := CollectFlags(SortedSet(RequiredEffects(spec, safety)), x => x !in d.effects, x => RequiredEffectMissing(x));
      var families := CollectFlags(SortedSet(Field(spec, "required_effect_families", safety)),
                                   x => x !in FamiliesOf(d.effects, safety), x => RequiredFamilyMissing(x));
      out := out + families;
    }

    method CollectRoles(spec: OperationSpec, d: DraftOperation) returns (out: seq<Rule>)
      ensures out == RoleFlags(spec, d, safety)
    {
      var roles := Field(spec, "semantic_roles", safety);
      out := CollectFlags(SortedSet(roles), x => x in safety.forbiddenRoles(d.workflow), x => ForbiddenRole(x));
      var own := CollectFlags(SortedSet(Field(spec, "forbidden_roles", safety)), x => x in roles, x => ForbiddenRole(x));
      var families := CollectFlags(SortedSet(Field(spec, "forbidden_families", safety)),
        x => x in FamiliesOf(d.effects, safety) || (d.op.Str? && x in safety.operationFamilies(d.op.s)), x => ForbiddenFamily(x));
      var extra := CollectFlags(d.effects, x => UnallowedEffectIn(x, spec, safety), x => UnallowedEffect(x));
      out := out + own + families + extra;
    }

    method CollectCapabilities(spec: OperationSpec, d: DraftOperation) returns (out: seq<Rule>)
      ensures out == CapabilityFlags(spec, d, safety)
    {
      out := CollectFlags(SortedSet(Field(spec, "required_capabilities", safety)), x => x !in d.capabilities, x => RequiredCapabilityMissing(x));
      out := out + Only(NeedsAnyOf(Field(spec, "required_capability_any", safety), d.capabilities), RequiredCapabilityAnyMissing);
      var prefixes := CollectFlags(Field(spec, "required_capability_prefixes", safety),
        x => !exists c | c in d.capabilities :: StartsWith(c, x), x => RequiredPrefixMissing(x));
      var extra := CollectFlags(d.capabilities, x => UnallowedCapabilityIn(x, spec, safety), x => UnallowedCapability(x));
      out := out + prefixes + extra + Only(NeedsAnyOf(Field(spec, "requires_policy_any", safety), d.policies), PolicyMissing);
    }
  }
}
