/** src/ainir/profile_manifest.py: what an additive profile manifest may add, and why
    its operations cannot widen the reviewed vocabulary. */
module ProfileManifest {
  import opened Text
  import opened JsonTree
  import opened OperationRegistry

  const EFFECT_FIELDS := ["required_effects", "allowed_effects"]
  const FAMILY_FIELDS := ["required_effect_families", "allowed_effect_families"]
  const CAPABILITY_FIELDS := ["required_capabilities", "allowed_capabilities", "required_capability_any"]
  const PREFIX_FIELDS := ["required_capability_prefixes", "allowed_capability_prefixes"]
  const OTHER_FIELDS := ["requires_policy_any", "forbidden_families", "forbidden_roles"]

  const RESERVED_FIELDS := ["effect_capability_contracts", "effect_aliases", "role_markers", "allowed_external_effects"]

  const OPERATION_KEYS := [
    "id", "aliases", "trust_level", "pure", "semantic_roles", "allowed_workflows", "required_effects",
    "allowed_effects", "required_effect_families", "allowed_effect_families", "allow_extra_effects",
    "required_capabilities", "allowed_capabilities", "required_capability_any",
    "required_capability_prefixes", "allowed_capability_prefixes", "allow_extra_capabilities",
    "requires_policy_any", "forbidden_families", "forbidden_roles", "forbidden_in_public_demo", "notes"]

  const WORKFLOW_KEYS := ["id", "aliases", "semantic_profile"]

  const SEMANTIC_KEYS := [
    "required_roles", "required_policies", "required_effects", "forbidden_families", "forbidden_roles",
    "required_transaction_roles", "required_transaction_policies", "transaction_order_roles", "transaction_contract"]

  const SEMANTIC_LISTS := [
    "required_policies", "required_effects", "forbidden_families", "forbidden_roles",
    "required_transaction_roles", "required_transaction_policies"]

  const EVIDENCE_KEYS := [
    "id", "kind", "status", "producer_kind", "produced_by", "checked_by", "reliability", "min_reliability",
    "supports_module", "supports_workflow", "supports_claims", "claim_statement_sha256", "artifact_ref",
    "artifact_sha256"]

  const EVIDENCE_TEXTS := [
    "produced_by", "checked_by", "supports_module", "supports_workflow", "claim_statement_sha256", "artifact_ref",
    "artifact_sha256"]

  const EVIDENCE_NUMBERS := ["reliability", "min_reliability"]

  /** The packaged vocabulary and the string tests the validator relies on. */
  datatype Reviewed = Reviewed(
    effects: set<string>,
    capabilities: set<string>,
    safety: Safety,
    safeToken: string -> bool,
    workflowId: string -> bool,
    trimmed: string -> bool)

  /** Issue codes; the path and the wording of an issue are not modelled. */
  datatype Issue =
    | UnknownField | StringRequired | UntrimmedString | InvalidIdentifier | ArrayRequired
    | NonEmptyArrayRequired | DuplicateValue | ReservedExtension | WorkflowExtensionRequired
    | OperationExtensionRequired | WorkflowObject | DuplicateWorkflow | OperationObject
    | ProtectedOperation | DuplicateOperation | UnknownWorkflow | DuplicateAlias
    | ExtraEffects | ExtraCapabilities | TrustLevelForbidden | RolesRequired | BroadContract
    | OperationBoolean | OperationNotes | CapabilityCoverage | UnknownEffect | UnknownCapability
    | EvidenceObject | DuplicateEvidence | CoverageMismatch | ObjectRequired | WorkflowRoles
    | OrderArray | OrderPair | EvidenceKind | EvidenceStatus | EvidenceProducer | EvidenceString | EvidenceNumber

  // ----- `_require_string` and `_string_list` -----

  function Token(v: Json, r: Reviewed): string {
    if v.Str? && !r.safety.blank(v.s) then v.s else ""
  }

  function TokenIssues(v: Json, pattern: string -> bool, r: Reviewed): seq<Issue> {
    if !v.Str? || r.safety.blank(v.s) then [StringRequired]
    else (if r.trimmed(v.s) then [] else [UntrimmedString]) + (if pattern(v.s) then [] else [InvalidIdentifier])
  }

  function Tokens(items: seq<Json>, r: Reviewed): (t: seq<string>)
    ensures |t| == |items|
    ensures forall i | 0 <= i < |items| :: t[i] == Token(items[i], r)
  {
    seq(|items|, i requires 0 <= i < |items| => Token(items[i], r))
  }

  function ItemIssues(items: seq<Json>, r: Reviewed): seq<Issue> {
    if items == [] then []
    else
      var n := |items| - 1;
      ItemIssues(items[..n], r) + TokenIssues(items[n], r.safeToken, r)
      + When(Token(items[n], r) in Tokens(items[..n], r), DuplicateValue)
  }

  /** The tokens of a list field; nothing for a value that is not a list. */
  function ListTokens(v: Json, r: Reviewed): seq<string> { Tokens(Listed(v), r) }

  function ListIssues(v: Json, allowEmpty: bool, r: Reviewed): seq<Issue> {
    if !v.Arr? then [ArrayRequired]
    else When(v.items == [] && !allowEmpty, NonEmptyArrayRequired) + ItemIssues(v.items, r)
  }

  function SetOf(names: seq<string>): (r: set<string>)
    ensures forall x :: x in r <==> x in names
  {
    set x | x in names
  }

  // ----- what the manifest uses, said declaratively -----

  function Semantic(workflow: Json): Json { Get(workflow, "semantic_profile") }

  function WorkflowIds(workflows: seq<Json>, r: Reviewed): set<string> {
    set w | w in workflows && w.Obj? :: Token(Get(w, "id"), r)
  }

  function WorkflowEffects(workflows: seq<Json>, r: Reviewed): set<string> {
    set w, e | w in workflows && w.Obj? && e in ListTokens(Get(Semantic(w), "required_effects"), r) :: e
  }

  function OperationIds(operations: seq<Json>, r: Reviewed): set<string> {
    set o | o in operations && o.Obj? :: Token(Get(o, "id"), r)
  }

  function OperationAliases(operations: seq<Json>, r: Reviewed): set<string> {
    set o, a | o in operations && o.Obj? && a in ListTokens(Get(o, "aliases"), r) :: a
  }

  function Named(operation: Json, fields: seq<string>, r: Reviewed): set<string> {
    set f, x | f in fields && x in ListTokens(Get(operation, f), r) :: x
  }

  function OperationNames(operations: seq<Json>, fields: seq<string>, r: Reviewed): set<string> {
    set o, x | o in operations && o.Obj? && x in Named(o, fields, r) :: x
  }

  function EvidenceIds(records: seq<Json>, r: Reviewed): set<string> {
    set e | e in records && e.Obj? :: Token(Get(e, "id"), r)
  }

  // ----- the issues of one operation -----

  function KeyIssues(ms: seq<Member>, allowed: seq<string>): (issues: seq<Issue>)
    ensures issues == [] <==> forall m | m in ms :: m.key in allowed
  {
    if ms == [] then []
    else
      var n := |ms| - 1;
      assert forall m :: m in ms <==> m in ms[..n] || m == ms[n];
      KeyIssues(ms[..n], allowed) + (if ms[n].key in allowed then [] else [UnknownField])
  }

  function When(failed: bool, issue: Issue): (issues: seq<Issue>)
    ensures issues == [] <==> !failed
  {
    if failed then [issue] else []
  }

  function WorkflowRefIssues(refs: seq<string>, known: set<string>): (issues: seq<Issue>)
    ensures issues == [] <==> forall x | x in refs :: x in known
  {
    if refs == [] then []
    else
      var n := |refs| - 1;
      assert forall x :: x in refs <==> x in refs[..n] || x == refs[n];
      WorkflowRefIssues(refs[..n], known) + When(refs[n] !in known, UnknownWorkflow)
  }

  function AliasIssues(aliases: seq<string>, seen: set<string>, r: Reviewed): seq<Issue> {
    if aliases == [] then []
    else
      var n := |aliases| - 1;
      AliasIssues(aliases[..n], seen, r)
      + When(r.safety.operationFamilies(aliases[n]) != {}, ProtectedOperation)
      + When(aliases[n] in seen || aliases[n] in aliases[..n], DuplicateAlias)
  }

  function OneFieldIssues(operation: Json, field: string, broad: bool, r: Reviewed): seq<Issue> {
    if !Has(operation, field) then []
    else ListIssues(Get(operation, field), true, r) + When(broad && ListTokens(Get(operation, field), r) != [], BroadContract)
  }

  function FieldIssues(operation: Json, fields: seq<string>, broad: bool, r: Reviewed): seq<Issue> {
    if fields == [] then []
    else
      var n := |fields| - 1;
      FieldIssues(operation, fields[..n], broad, r) + OneFieldIssues(operation, fields[n], broad, r)
  }

  /** The additive branch's context for its operations. */
  datatype Known = Known(workflows: set<string>, ids: set<string>, aliases: set<string>)

  function IdIssues(operation: Json, k: Known, r: Reviewed): seq<Issue> {
    var id := Token(Get(operation, "id"), r);
    TokenIssues(Get(operation, "id"), r.safeToken, r)
    + When(id != "" && r.safety.operationFamilies(id) != {}, ProtectedOperation)
    + When(id in k.ids, DuplicateOperation)
  }

  function IdentityIssues(operation: Json, k: Known, r: Reviewed): seq<Issue> {
    IdIssues(operation, k, r)
    + ListIssues(Get(operation, "semantic_roles"), false, r)
    + ListIssues(Get(operation, "allowed_workflows"), false, r)
    + WorkflowRefIssues(ListTokens(Get(operation, "allowed_workflows"), r), k.workflows)
    + ListIssues(GetOr(operation, "aliases", Arr([])), true, r)
    + AliasIssues(ListTokens(Get(operation, "aliases"), r), k.aliases, r)
  }

  function GrantIssues(operation: Json, r: Reviewed): seq<Issue> {
    When(GetOr(operation, "allow_extra_effects", Bool(false)) != Bool(false), ExtraEffects)
    + When(GetOr(operation, "allow_extra_capabilities", Bool(false)) != Bool(false), ExtraCapabilities)
    + When(!Get(operation, "trust_level").Null? && Get(operation, "trust_level") != Str("profile_fixture"), TrustLevelForbidden)
    + When(ListTokens(Get(operation, "semantic_roles"), r) == [], RolesRequired)
  }

  function ContractIssues(operation: Json, r: Reviewed): seq<Issue> {
    FieldIssues(operation, EFFECT_FIELDS, false, r)
    + FieldIssues(operation, FAMILY_FIELDS, true, r)
    + FieldIssues(operation, CAPABILITY_FIELDS, false, r)
    + FieldIssues(operation, PREFIX_FIELDS, true, r)
    + FieldIssues(operation, OTHER_FIELDS, false, r)
    + PlainIssues(operation)
  }

  function PlainIssues(operation: Json): seq<Issue> {
    When(Has(operation, "pure") && !Get(operation, "pure").Bool?, OperationBoolean)
    + When(Has(operation, "forbidden_in_public_demo") && !Get(operation, "forbidden_in_public_demo").Bool?, OperationBoolean)
    + When(Has(operation, "notes") && !Get(operation, "notes").Str?, OperationNotes)
  }

  function OperationIssues(operation: Json, k: Known, r: Reviewed): seq<Issue> {
    if !operation.Obj? then [OperationObject]
    else KeyIssues(operation.members, OPERATION_KEYS) + IdentityIssues(operation, k, r) + GrantIssues(operation, r) + ContractIssues(operation, r)
  }

  function AllOperationIssues(operations: seq<Json>, workflows: set<string>, r: Reviewed): seq<Issue> {
    if operations == [] then []
    else
      var n := |operations| - 1;
      var k := Known(workflows, OperationIds(operations[..n], r), OperationAliases(operations[..n], r));
      AllOperationIssues(operations[..n], workflows, r) + OperationIssues(operations[n], k, r)
  }

  // ----- the whole additive branch -----

  datatype Manifest = Manifest(coverage: Json, extensions: Json)

  function Workflows(m: Manifest): seq<Json> { Listed(Get(m.extensions, "workflows")) }

  function Operations(m: Manifest): seq<Json> { Listed(Get(m.extensions, "operations")) }

  function Evidence(m: Manifest): seq<Json> { Listed(Get(m.extensions, "evidence_records")) }

  function Covered(m: Manifest, heading: string, r: Reviewed): set<string> {
    SetOf(ListTokens(Get(m.coverage, heading), r))
  }

  function PlainStrings(items: seq<Json>): set<string> { set v | v in items && v.Str? :: v.s }

  function ExtensionCapabilities(m: Manifest): set<string> { PlainStrings(Listed(Get(m.extensions, "capabilities"))) }

  function Keys(v: Json): set<string> {
    if v.Obj? then set m | m in v.members :: m.key else {}
  }

  function TextValues(v: Json): set<string> {
    if v.Obj? then set m | m in v.members && m.value.Str? :: m.value.s else {}
  }

  function OperationEffects(m: Manifest, r: Reviewed): set<string> { OperationNames(Operations(m), EFFECT_FIELDS, r) }

  function OperationCapabilities(m: Manifest, r: Reviewed): set<string> { OperationNames(Operations(m), CAPABILITY_FIELDS, r) }

  /** Every effect the extensions mention, reserved fields included. */
  function ExtensionEffects(m: Manifest, r: Reviewed): set<string> {
    WorkflowEffects(Workflows(m), r) + OperationEffects(m, r)
    + Keys(Get(m.extensions, "effect_capability_contracts"))
    + PlainStrings(Listed(Get(m.extensions, "allowed_external_effects")))
    + TextValues(Get(m.extensions, "effect_aliases"))
  }

  predicate EmptyContainer(v: Json) { v == Obj([]) || v == Arr([]) }

  function ReservedIssues(extensions: Json, fields: seq<string>): (issues: seq<Issue>)
    ensures issues == [] <==> forall f | f in fields :: EmptyContainer(Get(extensions, f))
  {
    if fields == [] then []
    else
      var n := |fields| - 1;
      assert forall f :: f in fields <==> f in fields[..n] || f == fields[n];
      ReservedIssues(extensions, fields[..n]) + When(!EmptyContainer(Get(extensions, fields[n])), ReservedExtension)
  }

  /** `transaction_order_roles` lists pairs of role names. */
  predicate RolePair(v: Json) {
    v.Arr? && |v.items| == 2 && v.items[0].Str? && v.items[1].Str?
  }

  function PairIssues(pairs: seq<Json>): (issues: seq<Issue>)
    ensures issues == [] <==> forall v | v in pairs :: RolePair(v)
  {
    if pairs == [] then []
    else
      var n := |pairs| - 1;
      assert forall v :: v in pairs <==> v in pairs[..n] || v == pairs[n];
      PairIssues(pairs[..n]) + When(!RolePair(pairs[n]), OrderPair)
  }

  function OrderIssues(semantic: Json): seq<Issue> {
    if !Has(semantic, "transaction_order_roles") then []
    else
      match Get(semantic, "transaction_order_roles")
      case Arr(pairs) => PairIssues(pairs)
      case _ => [OrderArray]
  }

  function MembersOf(v: Json): seq<Member> { if v.Obj? then v.members else [] }

  function SemanticIssues(semantic: Json, r: Reviewed): seq<Issue> {
    KeyIssues(MembersOf(semantic), SEMANTIC_KEYS)
    + ListIssues(Get(semantic, "required_roles"), false, r)
    + When(ListTokens(Get(semantic, "required_roles"), r) == [], WorkflowRoles)
    + FieldIssues(semantic, SEMANTIC_LISTS, false, r)
    + OrderIssues(semantic)
  }

  function OneWorkflowIssues(w: Json, seen: set<string>, r: Reviewed): seq<Issue> {
    if !w.Obj? then [WorkflowObject]
    else
      KeyIssues(w.members, WORKFLOW_KEYS)
      + TokenIssues(Get(w, "id"), r.workflowId, r)
      + When(Token(Get(w, "id"), r) in seen, DuplicateWorkflow)
      + ListIssues(GetOr(w, "aliases", Arr([])), true, r)
      + When(!Semantic(w).Obj?, ObjectRequired)
      + SemanticIssues(Semantic(w), r)
  }

  function WorkflowIssues(workflows: seq<Json>, r: Reviewed): seq<Issue> {
    if workflows == [] then []
    else
      var n := |workflows| - 1;
      WorkflowIssues(workflows[..n], r) + OneWorkflowIssues(workflows[n], WorkflowIds(workflows[..n], r), r)
  }

  predicate IllTyped(record: Json, field: string, number: bool) {
    var v := Get(record, field);
    Has(record, field) && !(if number then v.Int? || v.Float? else v.Str?)
  }

  function TypeIssues(record: Json, fields: seq<string>, number: bool): (issues: seq<Issue>)
    ensures issues == [] <==> forall f | f in fields :: !IllTyped(record, f, number)
  {
    if fields == [] then []
    else
      var n := |fields| - 1;
      assert forall f :: f in fields <==> f in fields[..n] || f == fields[n];
      TypeIssues(record, fields[..n], number)
      + When(IllTyped(record, fields[n], number), if number then EvidenceNumber else EvidenceString)
  }

  function FixtureIssues(record: Json): seq<Issue> {
    When(Get(record, "kind") != Str("verifier_report"), EvidenceKind)
    + When(Get(record, "status") != Str("checked"), EvidenceStatus)
    + When(!Get(record, "producer_kind").Null? && Get(record, "producer_kind") != Str("profile_fixture"), EvidenceProducer)
  }

  function RecordIdIssues(record: Json, seen: set<string>, r: Reviewed): seq<Issue> {
    TokenIssues(Get(record, "id"), r.safeToken, r) + When(Token(Get(record, "id"), r) in seen, DuplicateEvidence)
  }

  function SupportIssues(record: Json, r: Reviewed): seq<Issue> {
    if Has(record, "supports_claims") then ListIssues(Get(record, "supports_claims"), false, r) else []
  }

  function RecordFieldIssues(record: Json, r: Reviewed): seq<Issue> {
    SupportIssues(record, r)
    + TypeIssues(record, EVIDENCE_TEXTS, false)
    + TypeIssues(record, EVIDENCE_NUMBERS, true)
  }

  function OneEvidenceIssues(record: Json, seen: set<string>, r: Reviewed): seq<Issue> {
    if !record.Obj? then [EvidenceObject]
    else
      KeyIssues(record.members, EVIDENCE_KEYS)
      + RecordIdIssues(record, seen, r)
      + FixtureIssues(record)
      + RecordFieldIssues(record, r)
  }

  function EvidenceIssues(records: seq<Json>, r: Reviewed): seq<Issue> {
    if records == [] then []
    else
      var n := |records| - 1;
      EvidenceIssues(records[..n], r) + OneEvidenceIssues(records[n], EvidenceIds(records[..n], r), r)
  }

  function Copies(n: nat, issue: Issue): (issues: seq<Issue>)
    ensures |issues| == n
  {
    seq(n, _ => issue)
  }

  function VocabularyIssues(m: Manifest, r: Reviewed): seq<Issue> {
    Copies(|(WorkflowEffects(Workflows(m), r) + OperationEffects(m, r)) - r.effects|, UnknownEffect)
    + Copies(|(ExtensionCapabilities(m) + OperationCapabilities(m, r)) - r.capabilities|, UnknownCapability)
  }

  /** Coverage must equal what is used, heading by heading. */
  function CoverageIssues(m: Manifest, r: Reviewed): seq<Issue> {
    When(Covered(m, "workflows", r) != WorkflowIds(Workflows(m), r), CoverageMismatch)
    + When(Covered(m, "operations", r) != OperationIds(Operations(m), r), CoverageMismatch)
    + When(Covered(m, "effects", r) != ExtensionEffects(m, r), CoverageMismatch)
    + When(Covered(m, "capabilities", r) != ExtensionCapabilities(m) + OperationCapabilities(m, r), CoverageMismatch)
    + When(Covered(m, "evidence_records", r) != EvidenceIds(Evidence(m), r), CoverageMismatch)
  }

  function ShapeIssues(m: Manifest, r: Reviewed): seq<Issue> {
    ReservedIssues(m.extensions, RESERVED_FIELDS)
    + When(Workflows(m) == [], WorkflowExtensionRequired)
    + When(Operations(m) == [], OperationExtensionRequired)
    + WorkflowIssues(Workflows(m), r)
  }

  function AdditiveIssues(m: Manifest, r: Reviewed): seq<Issue> {
    ShapeIssues(m, r)
    + AllOperationIssues(Operations(m), WorkflowIds(Workflows(m), r) + Covered(m, "workflows", r), r)
    + When(Covered(m, "capabilities", r) + ExtensionCapabilities(m) == {}, CapabilityCoverage)
    + VocabularyIssues(m, r)
    + EvidenceIssues(Evidence(m), r)
    + CoverageIssues(m, r)
  }

  // ----- the validator -----

  class Validator {
    var issues: seq<Issue>
    const reviewed: Reviewed

    constructor (reviewed: Reviewed)
      ensures issues == [] && this.reviewed == reviewed
    {
      issues := [];
      this.reviewed := reviewed;
    }

    method Report(failed: bool, issue: Issue)
      modifies this
      ensures issues == old(issues) + When(failed, issue)
    {
      if failed { issues := issues + [issue]; }
    }

    method RequireString(v: Json, pattern: string -> bool) returns (token: string)
      modifies this
      ensures token == Token(v, reviewed)
      ensures issues == old(issues) + TokenIssues(v, pattern, reviewed)
    {
      if !v.Str? || reviewed.safety.blank(v.s) {
        issues := issues + [StringRequired];
        return "";
      }
      if !reviewed.trimmed(v.s) { issues := issues + [UntrimmedString]; }
      if !pattern(v.s) { issues := issues + [InvalidIdentifier]; }
      return v.s;
    }

    method StringList(v: Json, allowEmpty: bool) returns (tokens: seq<string>)
      modifies this
      ensures tokens == ListTokens(v, reviewed)
      ensures issues == old(issues) + ListIssues(v, allowEmpty, reviewed)
    {
      if !v.Arr? {
        issues := issues + [ArrayRequired];
        return [];
      }
      Report(v.items == [] && !allowEmpty, NonEmptyArrayRequired);
      ghost var before := issues;
      tokens := [];
      var seen: set<string> := {};
      for i := 0 to |v.items|
        invariant tokens == Tokens(v.items[..i], reviewed)
        invariant forall x :: x in seen <==> x in tokens
        invariant issues == before + ItemIssues(v.items[..i], reviewed)
      {
        ItemStep(v.items, i, reviewed);
        var token := RequireString(v.items[i], reviewed.safeToken);
        Report(token in seen, DuplicateValue);
        Regroup(before, ItemIssues(v.items[..i], reviewed), TokenIssues(v.items[i], reviewed.safeToken, reviewed));
        Regroup(before, ItemIssues(v.items[..i], reviewed) + TokenIssues(v.items[i], reviewed.safeToken, reviewed),
                When(token in seen, DuplicateValue));
        seen := seen + {token};
        tokens := tokens + [token];
      }
      assert v.items[..|v.items|] == v.items;
      Regroup(old(issues), When(v.items == [] && !allowEmpty, NonEmptyArrayRequired), ItemIssues(v.items, reviewed));
    }

    /** The loop over one group of list fields. */
    method CheckFields(operation: Json, fields: seq<string>, broad: bool) returns (names: set<string>)
      modifies this
      ensures names == Named(operation, fields, reviewed)
      ensures issues == old(issues) + FieldIssues(operation, fields, broad, reviewed)
    {
      names := {};
      for i := 0 to |fields|
        invariant names == Named(operation, fields[..i], reviewed)
        invariant issues == old(issues) + FieldIssues(operation, fields[..i], broad, reviewed)
      {
        FieldStep(operation, fields, i, broad, reviewed);
        NamedStep(operation, fields, i, reviewed);
        ghost var so_far := FieldIssues(operation, fields[..i], broad, reviewed);
        Regroup(old(issues), so_far, OneFieldIssues(operation, fields[i], broad, reviewed));
        var values := CheckField(operation, fields[i], broad);
        names := names + values;
      }
      assert fields[..|fields|] == fields;
    }

    method CheckField(operation: Json, field: string, broad: bool) returns (values: set<string>)
      modifies this
      ensures values == SetOf(ListTokens(Get(operation, field), reviewed))
      ensures issues == old(issues) + OneFieldIssues(operation, field, broad, reviewed)
    {
      values := {};
      if Has(operation, field) {
        var tokens := StringList(Get(operation, field), true);
        values := SetOf(tokens);
        Report(broad && tokens != [], BroadContract);
        Regroup(old(issues), ListIssues(Get(operation, field), true, reviewed), When(broad && tokens != [], BroadContract));
      }
    }

    method CheckAliases(aliases: seq<string>, seen: set<string>) returns (all: set<string>)
      modifies this
      ensures all == seen + SetOf(aliases)
      ensures issues == old(issues) + AliasIssues(aliases, seen, reviewed)
    {
      all := seen;
      for i := 0 to |aliases|
        invariant all == seen + SetOf(aliases[..i])
        invariant issues == old(issues) + AliasIssues(aliases[..i], seen, reviewed)
      {
        AliasStep(aliases, i, seen, reviewed);
        ghost var sum := AliasIssues(aliases[..i], seen, reviewed);
        Report(reviewed.safety.operationFamilies(aliases[i]) != {}, ProtectedOperation);
        sum := Joined(old(issues), sum, When(reviewed.safety.operationFamilies(aliases[i]) != {}, ProtectedOperation));
        Report(aliases[i] in all, DuplicateAlias);
        sum := Joined(old(issues), sum, When(aliases[i] in all, DuplicateAlias));
        all := all + {aliases[i]};
      }
      assert aliases[..|aliases|] == aliases;
    }

    method CheckWorkflowRefs(refs: seq<string>, known: set<string>)
      modifies this
      ensures issues == old(issues) + WorkflowRefIssues(refs, known)
    {
      for i := 0 to |refs|
        invariant issues == old(issues) + WorkflowRefIssues(refs[..i], known)
      {
        assert refs[..i + 1][..i] == refs[..i];
        Report(refs[i] !in known, UnknownWorkflow);
      }
      assert refs[..|refs|] == refs;
    }

    method CheckKeys(ms: seq<Member>, allowed: seq<string>)
      modifies this
      ensures issues == old(issues) + KeyIssues(ms, allowed)
    {
      for i := 0 to |ms|
        invariant issues == old(issues) + KeyIssues(ms[..i], allowed)
      {
        assert ms[..i + 1][..i] == ms[..i];
        Report(ms[i].key !in allowed, UnknownField);
      }
      assert ms[..|ms|] == ms;
    }

    method CheckId(operation: Json, k: Known) returns (id: string)
      modifies this
      ensures id == Token(Get(operation, "id"), reviewed)
      ensures issues == old(issues) + IdIssues(operation, k, reviewed)
    {
      ghost var start := issues;
      id := RequireString(Get(operation, "id"), reviewed.safeToken);
      ghost var sum := TokenIssues(Get(operation, "id"), reviewed.safeToken, reviewed);
      var protected := id != "" && reviewed.safety.operationFamilies(id) != {};
      Report(protected, ProtectedOperation);
      sum := Joined(start, sum, When(protected, ProtectedOperation));
      Report(id in k.ids, DuplicateOperation);
      sum := Joined(start, sum, When(id in k.ids, DuplicateOperation));
    }

    method CheckIdentity(operation: Json, k: Known) returns (id: string, aliases: set<string>)
      requires operation.Obj?
      modifies this
      ensures id == Token(Get(operation, "id"), reviewed)
      ensures aliases == k.aliases + SetOf(ListTokens(Get(operation, "aliases"), reviewed))
      ensures issues == old(issues) + IdentityIssues(operation, k, reviewed)
    {
      ghost var start := issues;
      id := CheckId(operation, k);
      ghost var sum := IdIssues(operation, k, reviewed);
      var roles := StringList(Get(operation, "semantic_roles"), false);
      sum := Joined(start, sum, ListIssues(Get(operation, "semantic_roles"), false, reviewed));
      var refs := StringList(Get(operation, "allowed_workflows"), false);
      sum := Joined(start, sum, ListIssues(Get(operation, "allowed_workflows"), false, reviewed));
      CheckWorkflowRefs(refs, k.workflows);
      sum := Joined(start, sum, WorkflowRefIssues(refs, k.workflows));
      var names := StringList(GetOr(operation, "aliases", Arr([])), true);
      sum := Joined(start, sum, ListIssues(GetOr(operation, "aliases", Arr([])), true, reviewed));
      aliases := CheckAliases(names, k.aliases);
      sum := Joined(start, sum, AliasIssues(names, k.aliases, reviewed));
    }

    method CheckGrants(operation: Json)
      modifies this
      ensures issues == old(issues) + GrantIssues(operation, reviewed)
    {
      ghost var start := issues;
      Report(GetOr(operation, "allow_extra_effects", Bool(false)) != Bool(false), ExtraEffects);
      ghost var sum := When(GetOr(operation, "allow_extra_effects", Bool(false)) != Bool(false), ExtraEffects);
      Report(GetOr(operation, "allow_extra_capabilities", Bool(false)) != Bool(false), ExtraCapabilities);
      sum := Joined(start, sum, When(GetOr(operation, "allow_extra_capabilities", Bool(false)) != Bool(false), ExtraCapabilities));
      var level := Get(operation, "trust_level");
      Report(!level.Null? && level != Str("profile_fixture"), TrustLevelForbidden);
      sum := Joined(start, sum, When(!level.Null? && level != Str("profile_fixture"), TrustLevelForbidden));
      Report(ListTokens(Get(operation, "semantic_roles"), reviewed) == [], RolesRequired);
      sum := Joined(start, sum, When(ListTokens(Get(operation, "semantic_roles"), reviewed) == [], RolesRequired));
    }

    method CheckContract(operation: Json) returns (effects: set<string>, capabilities: set<string>)
      modifies this
      ensures effects == Named(operation, EFFECT_FIELDS, reviewed)
      ensures capabilities == Named(operation, CAPABILITY_FIELDS, reviewed)
      ensures issues == old(issues) + ContractIssues(operation, reviewed)
    {
      ghost var start := issues;
      effects := CheckFields(operation, EFFECT_FIELDS, false);
      ghost var sum := FieldIssues(operation, EFFECT_FIELDS, false, reviewed);
      var families := CheckFields(operation, FAMILY_FIELDS, true);
      sum := Joined(start, sum, FieldIssues(operation, FAMILY_FIELDS, true, reviewed));
      capabilities := CheckFields(operation, CAPABILITY_FIELDS, false);
      sum := Joined(start, sum, FieldIssues(operation, CAPABILITY_FIELDS, false, reviewed));
      var prefixes := CheckFields(operation, PREFIX_FIELDS, true);
      sum := Joined(start, sum, FieldIssues(operation, PREFIX_FIELDS, true, reviewed));
      var others := CheckFields(operation, OTHER_FIELDS, false);
      sum := Joined(start, sum, FieldIssues(operation, OTHER_FIELDS, false, reviewed));
      CheckPlainFields(operation);
      sum := Joined(start, sum, PlainIssues(operation));
    }

    method CheckPlainFields(operation: Json)
      modifies this
      ensures issues == old(issues) + PlainIssues(operation)
    {
      ghost var start := issues;
      Report(Has(operation, "pure") && !Get(operation, "pure").Bool?, OperationBoolean);
      ghost var sum := When(Has(operation, "pure") && !Get(operation, "pure").Bool?, OperationBoolean);
      Report(Has(operation, "forbidden_in_public_demo") && !Get(operation, "forbidden_in_public_demo").Bool?, OperationBoolean);
      sum := Joined(start, sum, When(Has(operation, "forbidden_in_public_demo") && !Get(operation, "forbidden_in_public_demo").Bool?, OperationBoolean));
      Report(Has(operation, "notes") && !Get(operation, "notes").Str?, OperationNotes);
      sum := Joined(start, sum, When(Has(operation, "notes") && !Get(operation, "notes").Str?, OperationNotes));
    }
  
    method CheckOperation(operation: Json, k: Known) returns (id: string, aliases: set<string>, effects: set<string>, capabilities: set<string>)
      requires operation.Obj?
      modifies this
      ensures id == Token(Get(operation, "id"), reviewed)
      ensures aliases == k.aliases + SetOf(ListTokens(Get(operation, "aliases"), reviewed))
      ensures effects == Named(operation, EFFECT_FIELDS, reviewed)
      ensures capabilities == Named(operation, CAPABILITY_FIELDS, reviewed)
      ensures issues == old(issues) + OperationIssues(operation, k, reviewed)
    {
      ghost var start := issues;
      CheckKeys(operation.members, OPERATION_KEYS);
      ghost var sum := KeyIssues(operation.members, OPERATION_KEYS);
      id, aliases := CheckIdentity(operation, k);
      sum := Joined(start, sum, IdentityIssues(operation, k, reviewed));
      CheckGrants(operation);
      sum := Joined(start, sum, GrantIssues(operation, reviewed));
      effects, capabilities := CheckContract(operation);
      sum := Joined(start, sum, ContractIssues(operation, reviewed));
    }

    /** The loop that checks every operation and accumulates what they name. */
    method CheckOperations(operations: seq<Json>, workflows: set<string>) returns (ids: set<string>, effects: set<string>, capabilities: set<string>)
      modifies this
      ensures ids == OperationIds(operations, reviewed)
      ensures effects == OperationNames(operations, EFFECT_FIELDS, reviewed)
      ensures capabilities == OperationNames(operations, CAPABILITY_FIELDS, reviewed)
      ensures issues == old(issues) + AllOperationIssues(operations, workflows, reviewed)
    {
      ids, effects, capabilities := {}, {}, {};
      var aliases: set<string> := {};
      for i := 0 to |operations|
        invariant ids == OperationIds(operations[..i], reviewed)
        invariant aliases == OperationAliases(operations[..i], reviewed)
        invariant effects == OperationNames(operations[..i], EFFECT_FIELDS, reviewed)
        invariant capabilities == OperationNames(operations[..i], CAPABILITY_FIELDS, reviewed)
        invariant issues == old(issues) + AllOperationIssues(operations[..i], workflows, reviewed)
      {
        var operation := operations[i];
        var k := Known(workflows, ids, aliases);
        UsesStep(operations, i, reviewed);
        OperationIssuesStep(operations, i, workflows, reviewed);
        Regroup(old(issues), AllOperationIssues(operations[..i], workflows, reviewed), OperationIssues(operation, k, reviewed));
        if operation.Obj? {
          var id, more, e, c := CheckOperation(operation, k);
          ids, aliases, effects, capabilities := ids + {id}, more, effects + e, capabilities + c;
        } else {
          Report(true, OperationObject);
        }
      }
      assert operations[..|operations|] == operations;
    }

    method CheckWorkflows(workflows: seq<Json>) returns (ids: set<string>, effects: set<string>)
      modifies this
      ensures ids == WorkflowIds(workflows, reviewed) && effects == WorkflowEffects(workflows, reviewed)
      ensures issues == old(issues) + WorkflowIssues(workflows, reviewed)
    {
      ids, effects := {}, {};
      for i := 0 to |workflows|
        invariant ids == WorkflowIds(workflows[..i], reviewed) && effects == WorkflowEffects(workflows[..i], reviewed)
        invariant issues == old(issues) + WorkflowIssues(workflows[..i], reviewed)
      {
        WorkflowStep(workflows, i, reviewed);
        Regroup(old(issues), WorkflowIssues(workflows[..i], reviewed), OneWorkflowIssues(workflows[i], ids, reviewed));
        if workflows[i].Obj? {
          var id, values := CheckWorkflow(workflows[i], ids);
          ids, effects := ids + {id}, effects + values;
        } else {
          Report(true, WorkflowObject);
        }
      }
      assert workflows[..|workflows|] == workflows;
    }

    method CheckWorkflow(w: Json, seen: set<string>) returns (id: string, effects: set<string>)
      requires w.Obj?
      modifies this
      ensures id == Token(Get(w, "id"), reviewed)
      ensures effects == SetOf(ListTokens(Get(Semantic(w), "required_effects"), reviewed))
      ensures issues == old(issues) + OneWorkflowIssues(w, seen, reviewed)
    {
      ghost var start := issues;
      CheckKeys(w.members, WORKFLOW_KEYS);
      ghost var sum := KeyIssues(w.members, WORKFLOW_KEYS);
      id := RequireString(Get(w, "id"), reviewed.workflowId);
      sum := Joined(start, sum, TokenIssues(Get(w, "id"), reviewed.workflowId, reviewed));
      Report(id in seen, DuplicateWorkflow);
      sum := Joined(start, sum, When(id in seen, DuplicateWorkflow));
      var aliases := StringList(GetOr(w, "aliases", Arr([])), true);
      sum := Joined(start, sum, ListIssues(GetOr(w, "aliases", Arr([])), true, reviewed));
      Report(!Semantic(w).Obj?, ObjectRequired);
      sum := Joined(start, sum, When(!Semantic(w).Obj?, ObjectRequired));
      effects := CheckSemantic(Semantic(w));
      sum := Joined(start, sum, SemanticIssues(Semantic(w), reviewed));
    }

    method CheckSemantic(semantic: Json) returns (effects: set<string>)
      modifies this
      ensures effects == SetOf(ListTokens(Get(semantic, "required_effects"), reviewed))
      ensures issues == old(issues) + SemanticIssues(semantic, reviewed)
    {
      ghost var start := issues;
      CheckKeys(MembersOf(semantic), SEMANTIC_KEYS);
      ghost var sum := KeyIssues(MembersOf(semantic), SEMANTIC_KEYS);
      var roles := StringList(Get(semantic, "required_roles"), false);
      sum := Joined(start, sum, ListIssues(Get(semantic, "required_roles"), false, reviewed));
      Report(roles == [], WorkflowRoles);
      sum := Joined(start, sum, When(roles == [], WorkflowRoles));
      effects := CheckSemanticLists(semantic);
      sum := Joined(start, sum, FieldIssues(semantic, SEMANTIC_LISTS, false, reviewed));
      CheckOrder(semantic);
      sum := Joined(start, sum, OrderIssues(semantic));
    }

    /** The loop over the list fields, which keeps the values of one of them. */
    method CheckSemanticLists(semantic: Json) returns (effects: set<string>)
      modifies this
      ensures effects == SetOf(ListTokens(Get(semantic, "required_effects"), reviewed))
      ensures issues == old(issues) + FieldIssues(semantic, SEMANTIC_LISTS, false, reviewed)
    {
      effects := {};
      for i := 0 to |SEMANTIC_LISTS|
        invariant effects == if i > 1 then SetOf(ListTokens(Get(semantic, "required_effects"), reviewed)) else {}
        invariant issues == old(issues) + FieldIssues(semantic, SEMANTIC_LISTS[..i], false, reviewed)
      {
        FieldStep(semantic, SEMANTIC_LISTS, i, false, reviewed);
        ghost var sum := FieldIssues(semantic, SEMANTIC_LISTS[..i], false, reviewed);
        Regroup(old(issues), sum, OneFieldIssues(semantic, SEMANTIC_LISTS[i], false, reviewed));
        var values := CheckField(semantic, SEMANTIC_LISTS[i], false);
        if SEMANTIC_LISTS[i] == "required_effects" { effects := effects + values; }
        EffectsAreSecond(i);
      }
      assert SEMANTIC_LISTS[..|SEMANTIC_LISTS|] == SEMANTIC_LISTS;
    }

    method CheckOrder(semantic: Json)
      modifies this
      ensures issues == old(issues) + OrderIssues(semantic)
    {
      if !Has(semantic, "transaction_order_roles") { return; }
      var v := Get(semantic, "transaction_order_roles");
      if !v.Arr? {
        issues := issues + [OrderArray];
        return;
      }
      for i := 0 to |v.items|
        invariant issues == old(issues) + PairIssues(v.items[..i])
      {
        assert v.items[..i + 1][..i] == v.items[..i];
        Regroup(old(issues), PairIssues(v.items[..i]), When(!RolePair(v.items[i]), OrderPair));
        Report(!RolePair(v.items[i]), OrderPair);
      }
      assert v.items[..|v.items|] == v.items;
    }

    /** One issue for each used name outside the reviewed vocabulary. */
    method CheckVocabulary(used: set<string>, known: set<string>, issue: Issue)
      modifies this
      ensures issues == old(issues) + Copies(|used - known|, issue)
    {
      var rest := used;
      ghost var checked: set<string> := {};
      while rest != {}
        invariant checked !! rest && checked + rest == used
        invariant issues == old(issues) + Copies(|checked - known|, issue)
        decreases rest
      {
        var x :| x in rest;
        CountStep(checked, known, x);
        CopiesStep(|checked - known|, issue);
        Regroup(old(issues), Copies(|checked - known|, issue), [issue]);
        Report(x !in known, issue);
        rest, checked := rest - {x}, checked + {x};
      }
      assert checked == used;
    }

    method CheckEvidence(records: seq<Json>) returns (ids: set<string>)
      modifies this
      ensures ids == EvidenceIds(records, reviewed)
      ensures issues == old(issues) + EvidenceIssues(records, reviewed)
    {
      ids := {};
      for i := 0 to |records|
        invariant ids == EvidenceIds(records[..i], reviewed)
        invariant issues == old(issues) + EvidenceIssues(records[..i], reviewed)
      {
        EvidenceStep(records, i, reviewed);
        Regroup(old(issues), EvidenceIssues(records[..i], reviewed), OneEvidenceIssues(records[i], ids, reviewed));
        if records[i].Obj? {
          var id := CheckRecord(records[i], ids);
          ids := ids + {id};
        } else {
          Report(true, EvidenceObject);
        }
      }
      assert records[..|records|] == records;
    }

    method CheckRecord(record: Json, seen: set<string>) returns (id: string)
      requires record.Obj?
      modifies this
      ensures id == Token(Get(record, "id"), reviewed)
      ensures issues == old(issues) + OneEvidenceIssues(record, seen, reviewed)
    {
      ghost var start := issues;
      CheckKeys(record.members, EVIDENCE_KEYS);
      ghost var sum := KeyIssues(record.members, EVIDENCE_KEYS);
      id := CheckRecordId(record, seen);
      sum := Joined(start, sum, RecordIdIssues(record, seen, reviewed));
      CheckFixture(record);
      sum := Joined(start, sum, FixtureIssues(record));
      CheckRecordFields(record);
      sum := Joined(start, sum, RecordFieldIssues(record, reviewed));
    }

    method CheckRecordId(record: Json, seen: set<string>) returns (id: string)
      modifies this
      ensures id == Token(Get(record, "id"), reviewed)
      ensures issues == old(issues) + RecordIdIssues(record, seen, reviewed)
    {
      id := RequireString(Get(record, "id"), reviewed.safeToken);
      Report(id in seen, DuplicateEvidence);
      Regroup(old(issues), TokenIssues(Get(record, "id"), reviewed.safeToken, reviewed), When(id in seen, DuplicateEvidence));
    }

    method CheckRecordFields(record: Json)
      modifies this
      ensures issues == old(issues) + RecordFieldIssues(record, reviewed)
    {
      ghost var start := issues;
      CheckSupport(record);
      ghost var sum := SupportIssues(record, reviewed);
      CheckTypes(record, EVIDENCE_TEXTS, false);
      sum := Joined(start, sum, TypeIssues(record, EVIDENCE_TEXTS, false));
      CheckTypes(record, EVIDENCE_NUMBERS, true);
      sum := Joined(start, sum, TypeIssues(record, EVIDENCE_NUMBERS, true));
    }

    method CheckSupport(record: Json)
      modifies this
      ensures issues == old(issues) + SupportIssues(record, reviewed)
    {
      if Has(record, "supports_claims") {
        var tokens := StringList(Get(record, "supports_claims"), false);
      }
    }

    method CheckFixture(record: Json)
      modifies this
      ensures issues == old(issues) + FixtureIssues(record)
    {
      ghost var start := issues;
      var producer := Get(record, "producer_kind");
      Report(Get(record, "kind") != Str("verifier_report"), EvidenceKind);
      ghost var sum := When(Get(record, "kind") != Str("verifier_report"), EvidenceKind);
      Report(Get(record, "status") != Str("checked"), EvidenceStatus);
      sum := Joined(start, sum, When(Get(record, "status") != Str("checked"), EvidenceStatus));
      Report(!producer.Null? && producer != Str("profile_fixture"), EvidenceProducer);
      sum := Joined(start, sum, When(!producer.Null? && producer != Str("profile_fixture"), EvidenceProducer));
    }

    method CheckTypes(record: Json, fields: seq<string>, number: bool)
      modifies this
      ensures issues == old(issues) + TypeIssues(record, fields, number)
    {
      for i := 0 to |fields|
        invariant issues == old(issues) + TypeIssues(record, fields[..i], number)
      {
        var issue := if number then EvidenceNumber else EvidenceString;
        assert fields[..i + 1][..i] == fields[..i];
        Regroup(old(issues), TypeIssues(record, fields[..i], number), When(IllTyped(record, fields[i], number), issue));
        Report(IllTyped(record, fields[i], number), issue);
      }
      assert fields[..|fields|] == fields;
    }

    method CheckReserved(extensions: Json, fields: seq<string>)
      modifies this
      ensures issues == old(issues) + ReservedIssues(extensions, fields)
    {
      for i := 0 to |fields|
        invariant issues == old(issues) + ReservedIssues(extensions, fields[..i])
      {
        ReservedStep(extensions, fields, i);
        var missing := !EmptyContainer(Get(extensions, fields[i]));
        Regroup(old(issues), ReservedIssues(extensions, fields[..i]), When(missing, ReservedExtension));
        Report(missing, ReservedExtension);
      }
      assert fields[..|fields|] == fields;
    }

    /** The additive branch of `validate_profile_manifest`. */
    method CheckAdditive(m: Manifest)
      modifies this
      ensures issues == old(issues) + AdditiveIssues(m, reviewed)
    {
      ghost var start := issues;
      var workflowIds, workflowEffects := CheckShape(m);
      ghost var sum := ShapeIssues(m, reviewed);
      var covered := Covered(m, "workflows", reviewed);
      var ids, effects, capabilities := CheckOperations(Operations(m), workflowIds + covered);
      sum := Joined(start, sum, AllOperationIssues(Operations(m), workflowIds + covered, reviewed));
      Report(Covered(m, "capabilities", reviewed) + ExtensionCapabilities(m) == {}, CapabilityCoverage);
      sum := Joined(start, sum, When(Covered(m, "capabilities", reviewed) + ExtensionCapabilities(m) == {}, CapabilityCoverage));
      CheckVocabularies(workflowEffects + effects, ExtensionCapabilities(m) + capabilities);
      sum := Joined(start, sum, VocabularyIssues(m, reviewed));
      var evidence := CheckEvidence(Evidence(m));
      sum := Joined(start, sum, EvidenceIssues(Evidence(m), reviewed));
      CheckCoverage(m);
      sum := Joined(start, sum, CoverageIssues(m, reviewed));
    }

    method CheckShape(m: Manifest) returns (ids: set<string>, effects: set<string>)
      modifies this
      ensures ids == WorkflowIds(Workflows(m), reviewed) && effects == WorkflowEffects(Workflows(m), reviewed)
      ensures issues == old(issues) + ShapeIssues(m, reviewed)
    {
      ghost var start := issues;
      CheckReserved(m.extensions, RESERVED_FIELDS);
      ghost var sum := ReservedIssues(m.extensions, RESERVED_FIELDS);
      Report(Workflows(m) == [], WorkflowExtensionRequired);
      sum := Joined(start, sum, When(Workflows(m) == [], WorkflowExtensionRequired));
      Report(Operations(m) == [], OperationExtensionRequired);
      sum := Joined(start, sum, When(Operations(m) == [], OperationExtensionRequired));
      ids, effects := CheckWorkflows(Workflows(m));
      sum := Joined(start, sum, WorkflowIssues(Workflows(m), reviewed));
    }

    method CheckVocabularies(effects: set<string>, capabilities: set<string>)
      modifies this
      ensures issues == old(issues) + (Copies(|effects - reviewed.effects|, UnknownEffect)
                                       + Copies(|capabilities - reviewed.capabilities|, UnknownCapability))
    {
      ghost var start := issues;
      CheckVocabulary(effects, reviewed.effects, UnknownEffect);
      ghost var sum := Copies(|effects - reviewed.effects|, UnknownEffect);
      CheckVocabulary(capabilities, reviewed.capabilities, UnknownCapability);
      sum := Joined(start, sum, Copies(|capabilities - reviewed.capabilities|, UnknownCapability));
    }

    method CheckCoverage(m: Manifest)
      modifies this
      ensures issues == old(issues) + CoverageIssues(m, reviewed)
    {
      ghost var start := issues;
      var workflows := Covered(m, "workflows", reviewed) != WorkflowIds(Workflows(m), reviewed);
      var operations := Covered(m, "operations", reviewed) != OperationIds(Operations(m), reviewed);
      var effects := Covered(m, "effects", reviewed) != ExtensionEffects(m, reviewed);
      var capabilities := Covered(m, "capabilities", reviewed) != ExtensionCapabilities(m) + OperationCapabilities(m, reviewed);
      var evidence := Covered(m, "evidence_records", reviewed) != EvidenceIds(Evidence(m), reviewed);
      Report(workflows, CoverageMismatch);
      ghost var sum := When(workflows, CoverageMismatch);
      Report(operations, CoverageMismatch);
      sum := Joined(start, sum, When(operations, CoverageMismatch));
      Report(effects, CoverageMismatch);
      sum := Joined(start, sum, When(effects, CoverageMismatch));
      Report(capabilities, CoverageMismatch);
      sum := Joined(start, sum, When(capabilities, CoverageMismatch));
      Report(evidence, CoverageMismatch);
      sum := Joined(start, sum, When(evidence, CoverageMismatch));
    }
  }

  lemma {:induction false} EffectsAreSecond(i: nat)
    requires i < |SEMANTIC_LISTS|
    ensures SEMANTIC_LISTS[i] == "required_effects" <==> i == 1
  {
  }

  lemma {:induction false} AliasStep(aliases: seq<string>, i: nat, seen: set<string>, r: Reviewed)
    requires i < |aliases|
    ensures AliasIssues(aliases[..i + 1], seen, r)
         == AliasIssues(aliases[..i], seen, r)
            + When(r.safety.operationFamilies(aliases[i]) != {}, ProtectedOperation)
            + When(aliases[i] in seen || aliases[i] in aliases[..i], DuplicateAlias)
    ensures SetOf(aliases[..i + 1]) == SetOf(aliases[..i]) + {aliases[i]}
  {
    assert aliases[..i + 1][..i] == aliases[..i];
    assert forall a :: a in aliases[..i + 1] <==> a in aliases[..i] || a == aliases[i];
  }

  lemma {:induction false} ReservedStep(extensions: Json, fields: seq<string>, i: nat)
    requires i < |fields|
    ensures ReservedIssues(extensions, fields[..i + 1])
         == ReservedIssues(extensions, fields[..i]) + When(!EmptyContainer(Get(extensions, fields[i])), ReservedExtension)
  {
    assert fields[..i + 1][..i] == fields[..i];
  }

  lemma {:induction false} CopiesStep(n: nat, issue: Issue)
    ensures Copies(n + 1, issue) == Copies(n, issue) + [issue]
  {
  }

  lemma {:induction false} EvidenceStep(records: seq<Json>, i: nat, r: Reviewed)
    requires i < |records|
    ensures var e := records[i];
            && EvidenceIds(records[..i + 1], r) == EvidenceIds(records[..i], r) + (if e.Obj? then {Token(Get(e, "id"), r)} else {})
            && EvidenceIssues(records[..i + 1], r)
               == EvidenceIssues(records[..i], r) + OneEvidenceIssues(e, EvidenceIds(records[..i], r), r)
  {
    assert forall e :: e in records[..i + 1] <==> e in records[..i] || e == records[i];
    assert records[..i + 1][..i] == records[..i];
  }

  lemma {:induction false} ItemStep(items: seq<Json>, i: nat, r: Reviewed)
    requires i < |items|
    ensures Tokens(items[..i + 1], r) == Tokens(items[..i], r) + [Token(items[i], r)]
    ensures ItemIssues(items[..i + 1], r) == ItemIssues(items[..i], r) + TokenIssues(items[i], r.safeToken, r)
      + When(Token(items[i], r) in Tokens(items[..i], r), DuplicateValue)
  {
    assert items[..i + 1][..i] == items[..i];
  }

  lemma {:induction false} FieldStep(operation: Json, fields: seq<string>, i: nat, broad: bool, r: Reviewed)
    requires i < |fields|
    ensures FieldIssues(operation, fields[..i + 1], broad, r)
         == FieldIssues(operation, fields[..i], broad, r) + OneFieldIssues(operation, fields[i], broad, r)
  {
    assert fields[..i + 1][..i] == fields[..i];
  }

  lemma {:induction false} NamedStep(operation: Json, fields: seq<string>, i: nat, r: Reviewed)
    requires i < |fields|
    ensures Named(operation, fields[..i + 1], r)
         == Named(operation, fields[..i], r) + SetOf(ListTokens(Get(operation, fields[i]), r))
  {
    assert forall f :: f in fields[..i + 1] <==> f in fields[..i] || f == fields[i];
  }

  lemma {:induction false} CountStep(done: set<string>, known: set<string>, x: string)
    requires x !in done
    ensures |(done + {x}) - known| == |done - known| + (if x in known then 0 else 1)
  {
    if x in known { assert (done + {x}) - known == done - known; }
    else { assert (done + {x}) - known == (done - known) + {x}; }
  }

  lemma {:induction false} UsesStep(operations: seq<Json>, i: nat, r: Reviewed)
    requires i < |operations|
    ensures var o := operations[i];
            && OperationIds(operations[..i + 1], r) == OperationIds(operations[..i], r) + (if o.Obj? then {Token(Get(o, "id"), r)} else {})
            && OperationAliases(operations[..i + 1], r)
               == OperationAliases(operations[..i], r) + (if o.Obj? then SetOf(ListTokens(Get(o, "aliases"), r)) else {})
    ensures NamesAfter(operations, i, EFFECT_FIELDS, r) && NamesAfter(operations, i, CAPABILITY_FIELDS, r)
  {
    assert forall o :: o in operations[..i + 1] <==> o in operations[..i] || o == operations[i];
    NamesStep(operations, i, EFFECT_FIELDS, r);
    NamesStep(operations, i, CAPABILITY_FIELDS, r);
  }

  ghost predicate NamesAfter(operations: seq<Json>, i: nat, fields: seq<string>, r: Reviewed)
    requires i < |operations|
  {
    OperationNames(operations[..i + 1], fields, r)
    == OperationNames(operations[..i], fields, r) + (if operations[i].Obj? then Named(operations[i], fields, r) else {})
  }

  lemma {:induction false} NamesStep(operations: seq<Json>, i: nat, fields: seq<string>, r: Reviewed)
    requires i < |operations|
    ensures NamesAfter(operations, i, fields, r)
  {
    assert forall o :: o in operations[..i + 1] <==> o in operations[..i] || o == operations[i];
  }

  lemma {:induction false} OperationIssuesStep(operations: seq<Json>, i: nat, workflows: set<string>, r: Reviewed)
    requires i < |operations|
    ensures var k := Known(workflows, OperationIds(operations[..i], r), OperationAliases(operations[..i], r));
            AllOperationIssues(operations[..i + 1], workflows, r)
            == AllOperationIssues(operations[..i], workflows, r) + OperationIssues(operations[i], k, r)
  {
    assert operations[..i + 1][..i] == operations[..i];
  }

  lemma {:induction false} WorkflowStep(workflows: seq<Json>, i: nat, r: Reviewed)
    requires i < |workflows|
    ensures var w := workflows[i];
            && WorkflowIds(workflows[..i + 1], r) == WorkflowIds(workflows[..i], r) + (if w.Obj? then {Token(Get(w, "id"), r)} else {})
            && WorkflowEffects(workflows[..i + 1], r)
               == WorkflowEffects(workflows[..i], r)
                  + (if w.Obj? then SetOf(ListTokens(Get(Semantic(w), "required_effects"), r)) else {})
            && WorkflowIssues(workflows[..i + 1], r)
               == WorkflowIssues(workflows[..i], r) + OneWorkflowIssues(w, WorkflowIds(workflows[..i], r), r)
  {
    assert forall w :: w in workflows[..i + 1] <==> w in workflows[..i] || w == workflows[i];
    assert workflows[..i + 1][..i] == workflows[..i];
  }

  // ----- what an accepted manifest promises -----

  lemma {:induction false} CleanOperation(operations: seq<Json>, workflows: set<string>, r: Reviewed, i: nat) returns (k: Known)
    requires AllOperationIssues(operations, workflows, r) == [] && i < |operations|
    ensures OperationIssues(operations[i], k, r) == []
  {
    var n := |operations| - 1;
    if i == n {
      k := Known(workflows, OperationIds(operations[..n], r), OperationAliases(operations[..n], r));
    } else {
      k := CleanOperation(operations[..n], workflows, r, i);
    }
  }

  lemma {:induction false} CleanField(operation: Json, fields: seq<string>, broad: bool, r: Reviewed, f: string)
    requires FieldIssues(operation, fields, broad, r) == [] && f in fields
    ensures OneFieldIssues(operation, f, broad, r) == []
  {
    var n := |fields| - 1;
    if f != fields[n] {
      assert fields == fields[..n] + [fields[n]];
      CleanField(operation, fields[..n], broad, r, f);
    }
  }

  lemma {:induction false} CleanItems(items: seq<Json>, r: Reviewed)
    requires ItemIssues(items, r) == []
    ensures forall i | 0 <= i < |items| :: items[i].Str? && Token(items[i], r) == items[i].s
  {
    if items != [] {
      var n := |items| - 1;
      CleanItems(items[..n], r);
      assert forall i | 0 <= i < n :: items[i] == items[..n][i];
    }
  }

  /** A list field without issues reads the same to the validator and to the spec. */
  lemma {:induction false} CleanFieldReads(spec: OperationSpec, f: string, broad: bool, r: Reviewed)
    requires OneFieldIssues(spec.raw, f, broad, r) == []
    ensures Field(spec, f, r.safety) == ListTokens(Get(spec.raw, f), r)
    ensures broad ==> Field(spec, f, r.safety) == []
  {
    if Has(spec.raw, f) {
      CleanItems(Get(spec.raw, f).items, r);
    }
  }

  lemma {:induction false} FieldIsNamed(spec: OperationSpec, fields: seq<string>, f: string, r: Reviewed)
    requires f in fields && FieldIssues(spec.raw, fields, false, r) == []
    ensures forall x | x in Field(spec, f, r.safety) :: x in Named(spec.raw, fields, r)
  {
    CleanField(spec.raw, fields, false, r, f);
    CleanFieldReads(spec, f, false, r);
  }

  lemma {:induction false} BroadFieldIsEmpty(spec: OperationSpec, fields: seq<string>, f: string, r: Reviewed)
    requires f in fields && FieldIssues(spec.raw, fields, true, r) == []
    ensures Field(spec, f, r.safety) == []
  {
    CleanField(spec.raw, fields, true, r, f);
    CleanFieldReads(spec, f, true, r);
  }

  /** The spec of an accepted operation allows exactly named things: its own lists, no
      family, no prefix, nothing extra. */
  lemma {:induction false} ExactContract(spec: OperationSpec, k: Known, r: Reviewed)
    requires OperationIssues(spec.raw, k, r) == []
    ensures !AllowsExtraEffects(spec) && !AllowsExtraCapabilities(spec)
    ensures AllowedEffectFamilies(spec, r.safety) == [] && AllowedCapabilityPrefixes(spec, r.safety) == []
    ensures forall x | x in AllowedEffects(spec, r.safety) :: x in Named(spec.raw, EFFECT_FIELDS, r)
    ensures forall x | x in AllowedCapabilities(spec, r.safety) :: x in Named(spec.raw, CAPABILITY_FIELDS, r)
  {
    NoExtras(spec, r);
    AllowedEffectsNamed(spec, r);
    AllowedCapabilitiesNamed(spec, r);
  }

  lemma {:induction false} NoExtras(spec: OperationSpec, r: Reviewed)
    requires GrantIssues(spec.raw, r) == []
    ensures !AllowsExtraEffects(spec) && !AllowsExtraCapabilities(spec)
  {
  }

  lemma {:induction false} AllowedEffectsNamed(spec: OperationSpec, r: Reviewed)
    requires ContractIssues(spec.raw, r) == []
    ensures AllowedEffectFamilies(spec, r.safety) == []
    ensures forall x | x in AllowedEffects(spec, r.safety) :: x in Named(spec.raw, EFFECT_FIELDS, r)
  {
    FieldIsNamed(spec, EFFECT_FIELDS, "required_effects", r);
    FieldIsNamed(spec, EFFECT_FIELDS, "allowed_effects", r);
    BroadFieldIsEmpty(spec, FAMILY_FIELDS, "required_effect_families", r);
    BroadFieldIsEmpty(spec, FAMILY_FIELDS, "allowed_effect_families", r);
  }

  lemma {:induction false} AllowedCapabilitiesNamed(spec: OperationSpec, r: Reviewed)
    requires ContractIssues(spec.raw, r) == []
    ensures AllowedCapabilityPrefixes(spec, r.safety) == []
    ensures forall x | x in AllowedCapabilities(spec, r.safety) :: x in Named(spec.raw, CAPABILITY_FIELDS, r)
  {
    FieldIsNamed(spec, CAPABILITY_FIELDS, "required_capabilities", r);
    FieldIsNamed(spec, CAPABILITY_FIELDS, "allowed_capabilities", r);
    BroadFieldIsEmpty(spec, PREFIX_FIELDS, "required_capability_prefixes", r);
    BroadFieldIsEmpty(spec, PREFIX_FIELDS, "allowed_capability_prefixes", r);
  }

  lemma {:induction false} VocabularyHolds(m: Manifest, r: Reviewed)
    requires VocabularyIssues(m, r) == []
    ensures OperationEffects(m, r) <= r.effects && WorkflowEffects(Workflows(m), r) <= r.effects
    ensures OperationCapabilities(m, r) <= r.capabilities && ExtensionCapabilities(m) <= r.capabilities
  {
    var effects := WorkflowEffects(Workflows(m), r) + OperationEffects(m, r);
    var capabilities := ExtensionCapabilities(m) + OperationCapabilities(m, r);
    assert |effects - r.effects| == 0 && |capabilities - r.capabilities| == 0;
    EmptyDifference(effects, r.effects);
    EmptyDifference(capabilities, r.capabilities);
  }

  lemma {:induction false} EmptyDifference(a: set<string>, b: set<string>)
    requires |a - b| == 0
    ensures a <= b
  {
    assert a - b == {};
    forall x | x in a ensures x in b { assert x !in a - b; }
  }

  lemma {:induction false} SixEmpty<T>(a: seq<T>, b: seq<T>, c: seq<T>, d: seq<T>, e: seq<T>, f: seq<T>)
    requires a + b + c + d + e + f == []
    ensures a == [] && b == [] && c == [] && d == [] && e == [] && f == []
  {
    NothingJoined(a + b + c + d + e, f);
    NothingJoined(a + b + c + d, e);
    NothingJoined(a + b + c, d);
    NothingJoined(a + b, c);
    NothingJoined(a, b);
  }

  lemma {:induction false} AcceptedShape(m: Manifest, r: Reviewed)
    requires ShapeIssues(m, r) == []
    ensures ReservedIssues(m.extensions, RESERVED_FIELDS) == []
  {
    var a, b := ReservedIssues(m.extensions, RESERVED_FIELDS), When(Workflows(m) == [], WorkflowExtensionRequired);
    var c := When(Operations(m) == [], OperationExtensionRequired);
    NothingJoined(a + b + c, WorkflowIssues(Workflows(m), r));
    NothingJoined(a + b, c);
    NothingJoined(a, b);
  }

  lemma {:induction false} AcceptedParts(m: Manifest, r: Reviewed)
    requires AdditiveIssues(m, r) == []
    ensures ReservedIssues(m.extensions, RESERVED_FIELDS) == []
    ensures AllOperationIssues(Operations(m), WorkflowIds(Workflows(m), r) + Covered(m, "workflows", r), r) == []
    ensures VocabularyIssues(m, r) == [] && CoverageIssues(m, r) == []
  {
    SixEmpty(ShapeIssues(m, r), AllOperationIssues(Operations(m), WorkflowIds(Workflows(m), r) + Covered(m, "workflows", r), r),
             When(Covered(m, "capabilities", r) + ExtensionCapabilities(m) == {}, CapabilityCoverage),
             VocabularyIssues(m, r), EvidenceIssues(Evidence(m), r), CoverageIssues(m, r));
    AcceptedShape(m, r);
  }

  lemma {:induction false} NamedIsReviewed(m: Manifest, r: Reviewed, operation: Json)
    requires VocabularyIssues(m, r) == [] && operation in Operations(m) && operation.Obj?
    ensures Named(operation, EFFECT_FIELDS, r) <= r.effects && Named(operation, CAPABILITY_FIELDS, r) <= r.capabilities
  {
    VocabularyHolds(m, r);
    assert Named(operation, EFFECT_FIELDS, r) <= OperationEffects(m, r);
    assert Named(operation, CAPABILITY_FIELDS, r) <= OperationCapabilities(m, r);
  }

  /** The spec of an accepted manifest's operation: exact, and within the vocabulary. */
  ghost predicate ReviewedSpec(spec: OperationSpec, r: Reviewed) {
    && !AllowsExtraEffects(spec) && !AllowsExtraCapabilities(spec)
    && AllowedEffectFamilies(spec, r.safety) == [] && AllowedCapabilityPrefixes(spec, r.safety) == []
    && (forall x | x in AllowedEffects(spec, r.safety) :: x in r.effects)
    && (forall x | x in AllowedCapabilities(spec, r.safety) :: x in r.capabilities)
  }

  lemma {:induction false} AcceptedSpecIsReviewed(m: Manifest, r: Reviewed, spec: OperationSpec)
    requires AdditiveIssues(m, r) == [] && spec.raw in Operations(m)
    ensures ReviewedSpec(spec, r)
  {
    AcceptedParts(m, r);
    var i :| 0 <= i < |Operations(m)| && Operations(m)[i] == spec.raw;
    var k := CleanOperation(Operations(m), WorkflowIds(Workflows(m), r) + Covered(m, "workflows", r), r, i);
    ExactContract(spec, k, r);
    NamedIsReviewed(m, r, spec.raw);
  }

  /** What a draft operation without findings declares, under a spec taken unchanged
      from an accepted additive manifest: required within declared, declared within
      allowed, allowed within the reviewed vocabulary. */
  lemma {:induction false} ProfilesCannotWiden(m: Manifest, r: Reviewed, spec: OperationSpec, d: DraftOperation, trusted: seq<string>)
    requires AdditiveIssues(m, r) == [] && spec.raw in Operations(m)
    requires SpecFlags(spec, d, trusted, r.safety) == []
    ensures forall x | x in RequiredEffects(spec, r.safety) :: x in d.effects
    ensures forall x | x in d.effects :: x in AllowedEffects(spec, r.safety) && x in r.effects
    ensures forall x | x in Field(spec, "required_capabilities", r.safety) :: x in d.capabilities
    ensures forall x | x in d.capabilities :: x in AllowedCapabilities(spec, r.safety) && x in r.capabilities
  {
    AcceptedSpecIsReviewed(m, r, spec);
    FlagsExact(spec, d, trusted, r.safety);
    DeclaredWithin(spec, d, r);
  }

  lemma {:induction false} DeclaredWithin(spec: OperationSpec, d: DraftOperation, r: Reviewed)
    requires !AllowsExtraEffects(spec) && !AllowsExtraCapabilities(spec)
    requires AllowedEffectFamilies(spec, r.safety) == [] && AllowedCapabilityPrefixes(spec, r.safety) == []
    requires forall x | x in d.effects :: !UnallowedEffectIn(x, spec, r.safety)
    requires forall x | x in d.capabilities :: !UnallowedCapabilityIn(x, spec, r.safety)
    ensures forall x | x in d.effects :: x in AllowedEffects(spec, r.safety)
    ensures forall x | x in d.capabilities :: x in AllowedCapabilities(spec, r.safety)
  {
  }

  /** End to end: under a registry of an accepted manifest's operations, a raw draft operation
      without findings, which names one of them or belongs to a workflow that demands it, has
      a spec, and declares what that requires and nothing unreviewed. */
  lemma {:induction false} RegistryCannotWiden(m: Manifest, r: Reviewed, items: seq<Json>, workflow: string, op: Json, trusted: seq<string>, blocksUnknown: bool)
    returns (spec: OperationSpec)
    requires AdditiveIssues(m, r) == [] && forall item | item in items :: item in Operations(m)
    requires BindingRules(TableOf(items, r.safety), workflow, op, trusted, blocksUnknown, r.safety) == []
    requires Resolve(TableOf(items, r.safety), Get(op, "op"), r.safety).Some? || (blocksUnknown && r.safety.knownWorkflow(workflow))
    ensures var t := TableOf(items, r.safety);
            var resolved := Resolve(t, Get(op, "op"), r.safety);
            resolved.Some? && resolved.value.0 in t.specs && spec == t.specs[resolved.value.0] && spec.raw in items
    ensures forall x | x in RequiredEffects(spec, r.safety) :: Str(x) in Listed(Get(op, "effects"))
    ensures forall x: string | Str(x) in Listed(Get(op, "effects")) :: x in AllowedEffects(spec, r.safety) && x in r.effects
    ensures forall x | x in Field(spec, "required_capabilities", r.safety) :: Str(x) in Listed(Get(op, "capabilities"))
    ensures forall x: string | Str(x) in Listed(Get(op, "capabilities")) :: x in AllowedCapabilities(spec, r.safety) && x in r.capabilities
  {
    var t := TableOf(items, r.safety);
    TableIsSound(items, r.safety);
    if Resolve(t, Get(op, "op"), r.safety).Some? { ResolutionLands(items, Get(op, "op"), r.safety); }
    spec := t.specs[Resolve(t, Get(op, "op"), r.safety).value.0];
    ProfilesCannotWiden(m, r, spec, ReadOperation(op, workflow), trusted);
  }

  /** An accepted manifest covers exactly what its workflows and operations use, and
      adds nothing through the reserved fields. */
  lemma {:induction false} CoverageIsExact(m: Manifest, r: Reviewed)
    requires AdditiveIssues(m, r) == []
    ensures Covered(m, "effects", r) == WorkflowEffects(Workflows(m), r) + OperationEffects(m, r)
    ensures Covered(m, "capabilities", r) == ExtensionCapabilities(m) + OperationCapabilities(m, r)
    ensures Covered(m, "effects", r) <= r.effects && Covered(m, "capabilities", r) <= r.capabilities
    ensures Covered(m, "workflows", r) == WorkflowIds(Workflows(m), r)
    ensures Covered(m, "operations", r) == OperationIds(Operations(m), r)
    ensures Covered(m, "evidence_records", r) == EvidenceIds(Evidence(m), r)
  {
    AcceptedParts(m, r);
    VocabularyHolds(m, r);
    NothingReserved(m, r);
  }

  lemma {:induction false} EmptyAddsNothing(v: Json)
    requires EmptyContainer(v)
    ensures Keys(v) == {} && PlainStrings(Listed(v)) == {} && TextValues(v) == {}
  {
  }

  lemma {:induction false} ReservedIsEmpty(m: Manifest, i: nat, f: string)
    requires ReservedIssues(m.extensions, RESERVED_FIELDS) == [] && i < |RESERVED_FIELDS| && RESERVED_FIELDS[i] == f
    ensures EmptyContainer(Get(m.extensions, f))
  {
    assert f in RESERVED_FIELDS;
  }

  lemma {:induction false} NothingReserved(m: Manifest, r: Reviewed)
    requires ReservedIssues(m.extensions, RESERVED_FIELDS) == []
    ensures ExtensionEffects(m, r) == WorkflowEffects(Workflows(m), r) + OperationEffects(m, r)
  {
    ReservedIsEmpty(m, 0, "effect_capability_contracts");
    ReservedIsEmpty(m, 1, "effect_aliases");
    ReservedIsEmpty(m, 3, "allowed_external_effects");
    EmptyAddsNothing(Get(m.extensions, "effect_capability_contracts"));
    EmptyAddsNothing(Get(m.extensions, "effect_aliases"));
    EmptyAddsNothing(Get(m.extensions, "allowed_external_effects"));
  }
}
