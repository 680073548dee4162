/** src/ainir/draft_ast.py: the strict draft AST, what parsing an untrusted tree yields
    and finds, and how an AST is printed back. */
module DraftSyntax {
  import opened Text
  import opened JsonTree
  import opened Dictionaries

  // ----- the AST -----

  datatype OperationAst = OperationAst(
    id: string, op: string, effects: seq<string>, capabilities: seq<string>, policies: seq<string>, raw: seq<Member>)

  datatype ClaimAst = ClaimAst(id: Option<string>, status: string, evidence: seq<Json>, raw: seq<Member>)

  datatype EvidenceAst = EvidenceAst(id: Option<string>, kind: Option<string>, raw: seq<Member>)

  datatype PolicyAst = PolicyAst(id: Option<string>, raw: seq<Member>)

  datatype HoleAst = HoleAst(id: Option<string>, resolved: bool, raw: seq<Member>)

  datatype DraftAst = DraftAst(
    moduleId: string, workflow: string, task: string, operations: seq<OperationAst>,
    claims: seq<ClaimAst>, evidence: seq<EvidenceAst>, policies: seq<PolicyAst>, holes: seq<HoleAst>,
    passthrough: seq<Member>)

  // ----- findings -----

  datatype Label = Effect | Capability | Policy

  datatype Section = ClaimsSection | EvidenceSection | PoliciesSection | HolesSection

  /** Rules by what they forbid; targets, messages and suggestions are not modelled. */
  datatype Rule =
    | LoaderError(flag: string) | RootNotObject | UnknownField | RequiredIdentity
    | IdentityWhitespace | UnsafeIdentity | WorkflowAlias | EmptyWorkflow
    | OperationsRequired | OperationNotObject | OperationIdRequired | DuplicateOperationId | OperationOpRequired
    | EffectsRequired | MustBeList(what: Label) | ItemRequired(what: Label) | ItemWhitespace(what: Label) | ItemUnsafe(what: Label)
    | SectionNotList(section: Section) | SectionItemNotObject(section: Section) | SectionIdNotString
    | ClaimStatusInvalid | ClaimEvidenceNotList | ClaimEvidenceNotObject | ClaimEvidenceIdNotString
    | EvidenceKindNotString | HoleResolvedNotBoolean
    | ExecutableNotBoolean | FieldNotString(field: string) | TransactionNotObject | TransactionsNotList
    | TransactionItemNotObject | AmbiguityNotObject | AmbiguityStatusInvalid | UnresolvedNotList
    | UnresolvedItemNotObject | SlotNotString | QuestionNotString | CandidatesNotStrings | ResolutionNotBoolean

  predicate Critical(rule: Rule) { !rule.WorkflowAlias? }

  /** Python's string tests, and the registry's workflow normaliser. */
  datatype Syntax = Syntax(
    blank: string -> bool,
    trimmed: string -> bool,
    unknown: string -> bool,
    workflow: string -> (string, bool))

  predicate AllCritical(rules: seq<Rule>) { forall r | r in rules :: Critical(r) }

  function When(failed: bool, rule: Rule): (r: seq<Rule>)
    ensures r == [] <==> !failed
    ensures Critical(rule) ==> AllCritical(r)
  {
    if failed then [rule] else []
  }

  // ----- identifiers -----

  /** `[A-Za-z][A-Za-z0-9_.-]{0,127}`. */
  predicate SafeIdentity(s: string) {
    1 <= |s| <= 128 && IsLetter(s[0]) && forall c | c in s :: IsLetter(c) || IsDigit(c) || c in {'_', '.', '-'}
  }

  predicate Filled(v: Json, y: Syntax) { v.Str? && !y.blank(v.s) }

  function IdRules(s: string, y: Syntax): (r: seq<Rule>)
    ensures AllCritical(r)
  {
    When(!y.trimmed(s), IdentityWhitespace) + When(!SafeIdentity(s) || !y.trimmed(s), UnsafeIdentity)
  }

  function RequiredIdRules(v: Json, y: Syntax): (r: seq<Rule>)
    ensures AllCritical(r)
  {
    if !Filled(v, y) || y.unknown(v.s) then [RequiredIdentity] else IdRules(v.s, y)
  }

  function FieldRules(m: Member, allowed: set<string>): (r: seq<Rule>)
    ensures r == [] <==> m.key in allowed
    ensures AllCritical(r)
  {
    When(m.key !in allowed, UnknownField)
  }

  function UnknownFieldRules(ms: seq<Member>, allowed: set<string>): (r: seq<Rule>)
    ensures r == [] <==> forall m | m in ms :: m.key in allowed
    ensures AllCritical(r)
  {
    if ms == [] then []
    else
      var n := |ms| - 1;
      assert forall m :: m in ms <==> m in ms[..n] || m == ms[n];
      UnknownFieldRules(ms[..n], allowed) + FieldRules(ms[n], allowed)
  }

  // ----- lists of ids -----

  function IdItemRules(v: Json, what: Label, y: Syntax): (r: seq<Rule>)
    ensures AllCritical(r)
  {
    if !Filled(v, y) then [ItemRequired(what)]
    else When(!y.trimmed(v.s), ItemWhitespace(what)) + When(!SafeIdentity(v.s) || !y.trimmed(v.s), ItemUnsafe(what))
  }

  function IdItems(items: seq<Json>, what: Label, y: Syntax): (r: (seq<string>, seq<Rule>))
    ensures AllCritical(r.1)
  {
    if items == [] then ([], [])
    else
      var n := |items| - 1;
      var (ids, rules) := IdItems(items[..n], what, y);
      (ids + (if Filled(items[n], y) then [items[n].s] else []), rules + IdItemRules(items[n], what, y))
  }

  function IdList(v: Json, what: Label, required: bool, y: Syntax): (r: (seq<string>, seq<Rule>))
    ensures AllCritical(r.1)
  {
    if v.Null? then ([], When(required, EffectsRequired))
    else if !v.Arr? then ([], [MustBeList(what)])
    else IdItems(v.items, what, y)
  }

  // ----- operations -----

  const OPERATION_FIELDS := {"id", "op", "effects", "capabilities", "policies"}

  function OperationIdRules(item: Json, seen: set<string>, y: Syntax): (r: seq<Rule>)
    ensures AllCritical(r)
  {
    var id := Get(item, "id");
    if !Filled(id, y) then [OperationIdRequired]
    else IdRules(id.s, y) + When(id.s in seen, DuplicateOperationId)
  }

  function OperationOpRules(item: Json, y: Syntax): (r: seq<Rule>)
    ensures AllCritical(r)
  {
    var op := Get(item, "op");
    if !Filled(op, y) then [OperationOpRequired] else IdRules(op.s, y)
  }

  function OperationRules(item: Json, seen: set<string>, y: Syntax): (r: seq<Rule>)
    ensures AllCritical(r)
  {
    if !item.Obj? then [OperationNotObject]
    else
      UnknownFieldRules(item.members, OPERATION_FIELDS)
      + OperationIdRules(item, seen, y)
      + OperationOpRules(item, y)
      + IdList(Get(item, "effects"), Effect, true, y).1
      + IdList(Get(item, "capabilities"), Capability, false, y).1
      + IdList(Get(item, "policies"), Policy, false, y).1
  }

  /** The operation is kept when its id and its op are non-empty strings. */
  function OperationOf(item: Json, y: Syntax): seq<OperationAst> {
    if item.Obj? && Filled(Get(item, "id"), y) && Filled(Get(item, "op"), y) then
      [OperationAst(Get(item, "id").s, Get(item, "op").s,
                    IdList(Get(item, "effects"), Effect, true, y).0,
                    IdList(Get(item, "capabilities"), Capability, false, y).0,
                    IdList(Get(item, "policies"), Policy, false, y).0, item.members)]
    else []
  }

  function SeenIds(items: seq<Json>, y: Syntax): set<string> {
    set x | x in items && x.Obj? && Filled(Get(x, "id"), y) :: Get(x, "id").s
  }

  function OperationItems(items: seq<Json>, y: Syntax): (r: (seq<OperationAst>, seq<Rule>))
    ensures AllCritical(r.1)
  {
    if items == [] then ([], [])
    else
      var n := |items| - 1;
      var (ops, rules) := OperationItems(items[..n], y);
      (ops + OperationOf(items[n], y), rules + OperationRules(items[n], SeenIds(items[..n], y), y))
  }

  function Operations(v: Json, y: Syntax): (r: (seq<OperationAst>, seq<Rule>))
    ensures AllCritical(r.1)
  {
    if !v.Arr? || v.items == [] then ([], [OperationsRequired]) else OperationItems(v.items, y)
  }

  // ----- the other sections -----

  const CLAIM_FIELDS := {"id", "status", "statement", "evidence"}
  const POLICY_FIELDS := {"id"}
  const HOLE_FIELDS := {"id", "resolved"}
  const EVIDENCE_FIELDS := {
    "id", "kind", "checked", "status", "reliability", "source", "source_ref", "producer", "producer_kind",
    "generated_by", "checked_by", "report_ref", "artifact_ref", "supports", "supports_claims",
    "claim_statement_sha256"}
  const CLAIM_STATUSES := {"hypothesized", "verified", "unverified"}

  function OptionalId(item: Json, y: Syntax): Option<string> {
    if Filled(Get(item, "id"), y) then Some(Get(item, "id").s) else None
  }

  function OptionalIdRules(item: Json, y: Syntax): (r: seq<Rule>)
    ensures AllCritical(r)
  {
    var id := Get(item, "id");
    if id.Null? then [] else if !Filled(id, y) then [SectionIdNotString] else IdRules(id.s, y)
  }

  function StatusOf(item: Json): string {
    var status := GetOr(item, "status", Str("hypothesized"));
    if status.Str? && status.s in CLAIM_STATUSES then status.s else "hypothesized"
  }

  function StatusRules(item: Json): (r: seq<Rule>)
    ensures AllCritical(r)
  {
    var status := GetOr(item, "status", Str("hypothesized"));
    When(!(status.Str? && status.s in CLAIM_STATUSES), ClaimStatusInvalid)
  }

  function ReferenceRules(ev: Json, y: Syntax): (r: seq<Rule>)
    ensures AllCritical(r)
  {
    if !ev.Obj? then [ClaimEvidenceNotObject]
    else
      UnknownFieldRules(ev.members, EVIDENCE_FIELDS)
      + (var id := Get(ev, "id");
         if id.Null? then [] else if id.Str? then IdRules(id.s, y) else [ClaimEvidenceIdNotString])
  }

  function References(items: seq<Json>, y: Syntax): (r: (seq<Json>, seq<Rule>))
    ensures AllCritical(r.1)
  {
    if items == [] then ([], [])
    else
      var n := |items| - 1;
      var (kept, rules) := References(items[..n], y);
      (kept + (if items[n].Obj? then [items[n]] else []), rules + ReferenceRules(items[n], y))
  }

  function ClaimEvidence(v: Json, y: Syntax): (r: (seq<Json>, seq<Rule>))
    ensures AllCritical(r.1)
  {
    if v.Null? then ([], [])
    else if !v.Arr? then ([], [ClaimEvidenceNotList])
    else References(v.items, y)
  }

  function ClaimOf(item: Json, y: Syntax): ClaimAst
    requires item.Obj?
  {
    ClaimAst(OptionalId(item, y), StatusOf(item), ClaimEvidence(Get(item, "evidence"), y).0, item.members)
  }

  function ClaimRules(item: Json, y: Syntax): (r: seq<Rule>)
    requires item.Obj?
    ensures AllCritical(r)
  {
    UnknownFieldRules(item.members, CLAIM_FIELDS) + OptionalIdRules(item, y) + StatusRules(item)
    + ClaimEvidence(Get(item, "evidence"), y).1
  }

  function EvidenceOf(item: Json, y: Syntax): EvidenceAst
    requires item.Obj?
  {
    var kind := Get(item, "kind");
    EvidenceAst(OptionalId(item, y), if Filled(kind, y) then Some(kind.s) else None, item.members)
  }

  function EvidenceRules(item: Json, y: Syntax): (r: seq<Rule>)
    requires item.Obj?
    ensures AllCritical(r)
  {
    UnknownFieldRules(item.members, EVIDENCE_FIELDS) + OptionalIdRules(item, y)
    + When(!Get(item, "kind").Null? && !Filled(Get(item, "kind"), y), EvidenceKindNotString)
  }

  function PolicyOf(item: Json, y: Syntax): PolicyAst
    requires item.Obj?
  {
    PolicyAst(OptionalId(item, y), item.members)
  }

  function PolicyRules(item: Json, y: Syntax): (r: seq<Rule>)
    requires item.Obj?
    ensures AllCritical(r)
  {
    UnknownFieldRules(item.members, POLICY_FIELDS) + OptionalIdRules(item, y)
  }

  function HoleOf(item: Json, y: Syntax): HoleAst
    requires item.Obj?
  {
    var resolved := GetOr(item, "resolved", Bool(false));
    HoleAst(OptionalId(item, y), resolved.Bool? && resolved.b, item.members)
  }

  function HoleRules(item: Json, y: Syntax): (r: seq<Rule>)
    requires item.Obj?
    ensures AllCritical(r)
  {
    UnknownFieldRules(item.members, HOLE_FIELDS) + OptionalIdRules(item, y)
    + When(!GetOr(item, "resolved", Bool(false)).Bool?, HoleResolvedNotBoolean)
  }

  /** `_object_list`: the objects of a list, and a finding for each other item. */
  function ObjectItems(items: seq<Json>, section: Section): (r: (seq<Json>, seq<Rule>))
    ensures (forall x | x in r.0 :: x.Obj?) && AllCritical(r.1)
  {
    if items == [] then ([], [])
    else
      var n := |items| - 1;
      var (kept, rules) := ObjectItems(items[..n], section);
      (kept + (if items[n].Obj? then [items[n]] else []), rules + When(!items[n].Obj?, SectionItemNotObject(section)))
  }

  function ObjectList(v: Json, section: Section): (r: (seq<Json>, seq<Rule>))
    ensures (forall x | x in r.0 :: x.Obj?) && AllCritical(r.1)
  {
    if v.Null? then ([], []) else if !v.Arr? then ([], [SectionNotList(section)]) else ObjectItems(v.items, section)
  }

  function ClaimItems(items: seq<Json>, y: Syntax): (r: (seq<ClaimAst>, seq<Rule>))
    requires forall x | x in items :: x.Obj?
    ensures AllCritical(r.1)
  {
    if items == [] then ([], [])
    else
      var n := |items| - 1;
      var (asts, rules) := ClaimItems(items[..n], y);
      (asts + [ClaimOf(items[n], y)], rules + ClaimRules(items[n], y))
  }

  function EvidenceItems(items: seq<Json>, y: Syntax): (r: (seq<EvidenceAst>, seq<Rule>))
    requires forall x | x in items :: x.Obj?
    ensures AllCritical(r.1)
  {
    if items == [] then ([], [])
    else
      var n := |items| - 1;
      var (asts, rules) := EvidenceItems(items[..n], y);
      (asts + [EvidenceOf(items[n], y)], rules + EvidenceRules(items[n], y))
  }

  function PolicyItems(items: seq<Json>, y: Syntax): (r: (seq<PolicyAst>, seq<Rule>))
    requires forall x | x in items :: x.Obj?
    ensures AllCritical(r.1)
  {
    if items == [] then ([], [])
    else
      var n := |items| - 1;
      var (asts, rules) := PolicyItems(items[..n], y);
      (asts + [PolicyOf(items[n], y)], rules + PolicyRules(items[n], y))
  }

  function HoleItems(items: seq<Json>, y: Syntax): (r: (seq<HoleAst>, seq<Rule>))
    requires forall x | x in items :: x.Obj?
    ensures AllCritical(r.1)
  {
    if items == [] then ([], [])
    else
      var n := |items| - 1;
      var (asts, rules) := HoleItems(items[..n], y);
      (asts + [HoleOf(items[n], y)], rules + HoleRules(items[n], y))
  }

  function Claims(v: Json, y: Syntax): (r: (seq<ClaimAst>, seq<Rule>))
    ensures AllCritical(r.1)
  {
    var (items, rules) := ObjectList(v, ClaimsSection);
    (ClaimItems(items, y).0, rules + ClaimItems(items, y).1)
  }

  function Evidence(v: Json, y: Syntax): (r: (seq<EvidenceAst>, seq<Rule>))
    ensures AllCritical(r.1)
  {
    var (items, rules) := ObjectList(v, EvidenceSection);
    (EvidenceItems(items, y).0, rules + EvidenceItems(items, y).1)
  }

  function Policies(v: Json, y: Syntax): (r: (seq<PolicyAst>, seq<Rule>))
    ensures AllCritical(r.1)
  {
    var (items, rules) := ObjectList(v, PoliciesSection);
    (PolicyItems(items, y).0, rules + PolicyItems(items, y).1)
  }

  function Holes(v: Json, y: Syntax): (r: (seq<HoleAst>, seq<Rule>))
    ensures AllCritical(r.1)
  {
    var (items, rules) := ObjectList(v, HolesSection);
    (HoleItems(items, y).0, rules + HoleItems(items, y).1)
  }

  // ----- fields that pass through -----

  const PASSTHROUGH_FIELDS := {
    "input_type", "output_type", "return", "transaction", "transactions", "environment", "executable",
    "ambiguity", "unresolved_ambiguities"}

  const TRANSACTION_FIELDS := {"id", "mode", "kind", "includes", "rollback_on"}
  const AMBIGUITY_FIELDS := {"status", "unresolved_ambiguities"}
  const UNRESOLVED_FIELDS := {"slot", "question", "candidates", "resolution_required"}

  function Passthrough(ms: seq<Member>): seq<Member> {
    if ms == [] then []
    else
      var n := |ms| - 1;
      Passthrough(ms[..n]) + (if ms[n].key in PASSTHROUGH_FIELDS then [ms[n]] else [])
  }

  function TransactionItemRules(items: seq<Json>): (r: seq<Rule>)
    ensures AllCritical(r)
  {
    if items == [] then []
    else
      var n := |items| - 1;
      TransactionItemRules(items[..n])
      + (if items[n].Obj? then UnknownFieldRules(items[n].members, TRANSACTION_FIELDS) else [TransactionItemNotObject])
  }

  function UnresolvedItemRules(item: Json, y: Syntax): (r: seq<Rule>)
    ensures AllCritical(r)
  {
    if !item.Obj? then [UnresolvedItemNotObject]
    else
      var candidates, resolution := Get(item, "candidates"), Get(item, "resolution_required");
      UnknownFieldRules(item.members, UNRESOLVED_FIELDS)
      + When(!Get(item, "slot").Null? && !Filled(Get(item, "slot"), y), SlotNotString)
      + When(!StringOrNull(Get(item, "question")), QuestionNotString)
      + When(!candidates.Null? && !(candidates.Arr? && forall x | x in candidates.items :: x.Str?), CandidatesNotStrings)
      + When(!resolution.Null? && !resolution.Bool?, ResolutionNotBoolean)
  }

  function UnresolvedRules(items: seq<Json>, y: Syntax): (r: seq<Rule>)
    ensures AllCritical(r)
  {
    if items == [] then []
    else
      var n := |items| - 1;
      UnresolvedRules(items[..n], y) + UnresolvedItemRules(items[n], y)
  }

  function UnresolvedListRules(v: Json, y: Syntax): (r: seq<Rule>)
    ensures AllCritical(r)
  {
    if v.Arr? then UnresolvedRules(v.items, y) else [UnresolvedNotList]
  }

  function AmbiguityRules(v: Json, y: Syntax): (r: seq<Rule>)
    ensures AllCritical(r)
  {
    if v.Null? then []
    else if !v.Obj? then [AmbiguityNotObject]
    else
      var status := Get(v, "status");
      UnknownFieldRules(v.members, AMBIGUITY_FIELDS)
      + When(!status.Null? && !(status.Str? && status.s in {"resolved", "requires_clarification", "blocked"}), AmbiguityStatusInvalid)
      + UnresolvedListRules(GetOr(v, "unresolved_ambiguities", Arr([])), y)
  }

  function TransactionRules(v: Json): (r: seq<Rule>)
    ensures AllCritical(r)
  {
    if v.Null? then [] else if !v.Obj? then [TransactionNotObject] else UnknownFieldRules(v.members, TRANSACTION_FIELDS)
  }

  function TransactionListRules(v: Json): (r: seq<Rule>)
    ensures AllCritical(r)
  {
    if v.Null? then [] else if !v.Arr? then [TransactionsNotList] else TransactionItemRules(v.items)
  }

  /** The checks look only at the fields that pass through. */
  function PassthroughRules(p: Json, y: Syntax): (r: seq<Rule>)
    ensures AllCritical(r)
  {
    When(Has(p, "executable") && !Get(p, "executable").Bool?, ExecutableNotBoolean)
    + When(!StringOrNull(Get(p, "input_type")), FieldNotString("input_type"))
    + When(!StringOrNull(Get(p, "output_type")), FieldNotString("output_type"))
    + When(!StringOrNull(Get(p, "return")), FieldNotString("return"))
    + When(!StringOrNull(Get(p, "environment")), FieldNotString("environment"))
    + TransactionRules(Get(p, "transaction"))
    + TransactionListRules(Get(p, "transactions"))
    + AmbiguityRules(Get(p, "ambiguity"), y)
    + (if Get(p, "unresolved_ambiguities").Null? then [] else UnresolvedListRules(Get(p, "unresolved_ambiguities"), y))
  }

  // ----- the whole draft -----

  const LOADER_FLAGS := [
    "__duplicate_key_error__", "__complex_key_error__", "__decode_error__", "__alias_error__", "__depth_error__",
    "__size_error__", "__resource_error__", "__parse_error__", "__load_error__", "__invalid_root__"]

  const TOP_LEVEL_FIELDS := {
    "module", "workflow", "task", "operations", "claims", "evidence", "policies", "holes", "input_type",
    "output_type", "return", "transaction", "transactions", "environment", "executable", "ambiguity",
    "unresolved_ambiguities", "__source_path__", "__raw_source_sha256__", "__parse_error__",
    "__duplicate_key_error__", "__complex_key_error__", "__decode_error__", "__load_error__",
    "__invalid_root__", "__size_error__", "__alias_error__", "__depth_error__", "__resource_error__"}

  function FirstFlag(raw: Json, flags: seq<string>): Option<string> {
    if flags == [] then None
    else if Has(raw, flags[0]) then Some(flags[0])
    else FirstFlag(raw, flags[1..])
  }

  function AliasRules(v: Json, y: Syntax): seq<Rule> {
    if Filled(v, y) && !y.unknown(v.s) then When(y.workflow(v.s).1, WorkflowAlias) else []
  }

  function IdentityRules(raw: Json, y: Syntax): seq<Rule> {
    RequiredIdRules(Get(raw, "module"), y)
    + RequiredIdRules(Get(raw, "workflow"), y)
    + RequiredIdRules(Get(raw, "task"), y)
    + AliasRules(Get(raw, "workflow"), y)
  }

  function SectionRules(raw: Json, y: Syntax): (r: seq<Rule>)
    ensures AllCritical(r)
  {
    Operations(Get(raw, "operations"), y).1
    + Claims(Get(raw, "claims"), y).1
    + Evidence(Get(raw, "evidence"), y).1
    + Policies(Get(raw, "policies"), y).1
    + Holes(Get(raw, "holes"), y).1
  }

  function DraftRules(raw: Json, y: Syntax): seq<Rule>
    requires raw.Obj?
  {
    UnknownFieldRules(raw.members, TOP_LEVEL_FIELDS)
    + IdentityRules(raw, y)
    + SectionRules(raw, y)
    + PassthroughRules(Obj(Passthrough(raw.members)), y)
  }

  predicate AnyCritical(rules: seq<Rule>) { exists r | r in rules :: Critical(r) }

  datatype Parsed = Parsed(ast: Option<DraftAst>, findings: seq<Rule>)

  function AstOf(raw: Json, y: Syntax): DraftAst
    requires raw.Obj? && Get(raw, "module").Str? && Get(raw, "workflow").Str? && Get(raw, "task").Str?
  {
    DraftAst(Get(raw, "module").s, y.workflow(Get(raw, "workflow").s).0, Get(raw, "task").s,
             Operations(Get(raw, "operations"), y).0, Claims(Get(raw, "claims"), y).0,
             Evidence(Get(raw, "evidence"), y).0, Policies(Get(raw, "policies"), y).0, Holes(Get(raw, "holes"), y).0,
             Passthrough(raw.members))
  }

  /** `parse_draft_ast`. */
  function Parse(raw: Json, y: Syntax): Parsed {
    if !raw.Obj? then Parsed(None, [RootNotObject])
    else
      match FirstFlag(raw, LOADER_FLAGS)
      case Some(flag) => Parsed(None, [LoaderError(flag)])
      case None =>
        var rules := DraftRules(raw, y);
        if AnyCritical(rules) || !Get(raw, "module").Str? || !Get(raw, "workflow").Str? || !Get(raw, "task").Str? then Parsed(None, rules)
        else if y.workflow(Get(raw, "workflow").s).0 == "" then Parsed(None, rules + [EmptyWorkflow])
        else Parsed(Some(AstOf(raw, y)), rules)
  }

  // ----- printing -----

  function PrintList(ms: seq<Member>, key: string, names: seq<string>): seq<Member> {
    if names != [] || HasKey(ms, key) then SetMember(ms, key, Arr(Texts(names))) else ms
  }

  function PrintOperation(o: OperationAst): seq<Member> {
    var named := SetMember(SetMember(o.raw, "id", Str(o.id)), "op", Str(o.op));
    PrintList(PrintList(SetMember(named, "effects", Arr(Texts(o.effects))), "capabilities", o.capabilities), "policies", o.policies)
  }

  function PrintId(ms: seq<Member>, id: Option<string>): seq<Member> {
    match id
    case Some(s) => SetMember(ms, "id", Str(s))
    case None => ms
  }

  function PrintClaim(c: ClaimAst): seq<Member> {
    var ms := SetMember(PrintId(c.raw, c.id), "status", Str(c.status));
    if c.evidence != [] || HasKey(ms, "evidence") then SetMember(ms, "evidence", Arr(c.evidence)) else ms
  }

  function PrintHole(h: HoleAst): seq<Member> { SetMember(PrintId(h.raw, h.id), "resolved", Bool(h.resolved)) }

  function PrintedOperations(asts: seq<OperationAst>): (r: seq<Json>)
    ensures |r| == |asts| && forall i | 0 <= i < |asts| :: r[i] == Obj(PrintOperation(asts[i]))
  {
    seq(|asts|, i requires 0 <= i < |asts| => Obj(PrintOperation(asts[i])))
  }

  function PrintedClaims(asts: seq<ClaimAst>): (r: seq<Json>)
    ensures |r| == |asts| && forall i | 0 <= i < |asts| :: r[i] == Obj(PrintClaim(asts[i]))
  {
    seq(|asts|, i requires 0 <= i < |asts| => Obj(PrintClaim(asts[i])))
  }

  function PrintedEvidence(asts: seq<EvidenceAst>): (r: seq<Json>)
    ensures |r| == |asts| && forall i | 0 <= i < |asts| :: r[i] == Obj(asts[i].raw)
  {
    seq(|asts|, i requires 0 <= i < |asts| => Obj(asts[i].raw))
  }

  function PrintedPolicies(asts: seq<PolicyAst>): (r: seq<Json>)
    ensures |r| == |asts| && forall i | 0 <= i < |asts| :: r[i] == Obj(asts[i].raw)
  {
    seq(|asts|, i requires 0 <= i < |asts| => Obj(asts[i].raw))
  }

  function PrintedHoles(asts: seq<HoleAst>): (r: seq<Json>)
    ensures |r| == |asts| && forall i | 0 <= i < |asts| :: r[i] == Obj(PrintHole(asts[i]))
  {
    seq(|asts|, i requires 0 <= i < |asts| => Obj(PrintHole(asts[i])))
  }

  function PrintSection(ms: seq<Member>, key: string, items: seq<Json>, passthrough: seq<Member>): seq<Member> {
    if items != [] || HasKey(passthrough, key) then SetMember(ms, key, Arr(items)) else ms
  }

  function PrintHead(d: DraftAst): seq<Member> {
    [Member("module", Str(d.moduleId)), Member("workflow", Str(d.workflow)), Member("task", Str(d.task)),
     Member("operations", Arr(PrintedOperations(d.operations)))]
  }

  /** `DraftAST.to_raw`. */
  function Print(d: DraftAst): seq<Member> {
    var ms := Update(PrintHead(d), d.passthrough);
    var claims := PrintSection(ms, "claims", PrintedClaims(d.claims), d.passthrough);
    var evidence := PrintSection(claims, "evidence", PrintedEvidence(d.evidence), d.passthrough);
    var policies := PrintSection(evidence, "policies", PrintedPolicies(d.policies), d.passthrough);
    PrintSection(policies, "holes", PrintedHoles(d.holes), d.passthrough)
  }
}
