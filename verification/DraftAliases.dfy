/** Why the round trip of a draft needs a settled workflow name: where the table sends one
    alias to another, a draft parses and its printed form is not clean again. */
module DraftAliases {
  import opened Text
  import opened JsonTree
  import opened DraftSyntax
  import opened DraftTheorem

  /** The smallest kind of draft: a name, a workflow, a task and one operation. */
  function SmallDraft(workflow: string, operation: Json): Json {
    Obj([Member("module", Str("m")), Member("workflow", Str(workflow)), Member("task", Str("t")),
         Member("operations", Arr([operation]))])
  }

  function SmallOperation(effects: Json): Json {
    Obj([Member("id", Str("a")), Member("op", Str("b")), Member("effects", effects)])
  }

  lemma {:induction false} AbsentIsNull(ms: seq<Member>, k: string)
    requires forall m | m in ms :: m.key != k
    ensures !Has(Obj(ms), k) && Get(Obj(ms), k).Null?
  {
    assert forall i | 0 <= i < |ms| :: ms[i] in ms;
  }

  const SMALL_FIELDS := {"module", "workflow", "task", "operations"}

  /** What the parser sees of a small draft. */
  ghost predicate Small(raw: Json, workflow: string, operation: Json) {
    && raw.Obj? && (forall m | m in raw.members :: m.key in SMALL_FIELDS)
    && Get(raw, "module") == Str("m") && Get(raw, "workflow") == Str(workflow) && Get(raw, "task") == Str("t")
    && Get(raw, "operations") == Arr([operation])
  }

  lemma {:induction false} SmallFields(ms: seq<Member>)
    requires |ms| == 4 && ms[0].key == "module" && ms[1].key == "workflow" && ms[2].key == "task" && ms[3].key == "operations"
    ensures Distinct(ms) && forall m | m in ms :: m.key in SMALL_FIELDS
    ensures Get(Obj(ms), "module") == ms[0].value && Get(Obj(ms), "workflow") == ms[1].value
    ensures Get(Obj(ms), "task") == ms[2].value && Get(Obj(ms), "operations") == ms[3].value
  {
    LookupAt(ms, 0);
    LookupAt(ms, 1);
    LookupAt(ms, 2);
    LookupAt(ms, 3);
  }

  lemma {:induction false} SmallDraftReads(workflow: string, operation: Json)
    ensures Small(SmallDraft(workflow, operation), workflow, operation)
    ensures WellFormed(operation) ==> WellFormed(SmallDraft(workflow, operation))
  {
    SmallFields(SmallDraft(workflow, operation).members);
  }

  lemma {:induction false} AbsentFromSmall(raw: Json, workflow: string, operation: Json, k: string)
    requires Small(raw, workflow, operation) && k !in SMALL_FIELDS
    ensures !Has(raw, k) && Get(raw, k).Null?
  {
    AbsentIsNull(raw.members, k);
  }

  lemma {:induction false} OperationFieldsRead(ms: seq<Member>)
    requires |ms| == 3 && ms[0].key == "id" && ms[1].key == "op" && ms[2].key == "effects"
    ensures Distinct(ms) && forall m | m in ms :: m.key in OPERATION_FIELDS
    ensures Get(Obj(ms), "id") == ms[0].value && Get(Obj(ms), "op") == ms[1].value && Get(Obj(ms), "effects") == ms[2].value
    ensures Get(Obj(ms), "capabilities").Null? && Get(Obj(ms), "policies").Null?
  {
    LookupAt(ms, 0);
    LookupAt(ms, 1);
    LookupAt(ms, 2);
    AbsentIsNull(ms, "capabilities");
    AbsentIsNull(ms, "policies");
  }

  lemma {:induction false} SmallOperationReads(effects: Json)
    ensures var op := SmallOperation(effects);
            && Get(op, "id") == Str("a") && Get(op, "op") == Str("b") && Get(op, "effects") == effects
            && Get(op, "capabilities").Null? && Get(op, "policies").Null?
            && (forall m | m in op.members :: m.key in OPERATION_FIELDS)
    ensures WellFormed(effects) ==> WellFormed(SmallOperation(effects))
  {
    OperationFieldsRead(SmallOperation(effects).members);
  }

  // ----- what its parse finds -----

  lemma {:induction false} LetterIsSafe(c: char)
    requires IsLetter(c)
    ensures SafeIdentity([c])
  {
  }

  lemma {:induction false} LetterIdRules(c: char, y: Syntax)
    requires IsLetter(c) && y.trimmed([c])
    ensures IdRules([c], y) == []
  {
    LetterIsSafe(c);
  }

  lemma {:induction false} OneEffect(c: char, y: Syntax)
    requires IsLetter(c) && Filled(Str([c]), y) && y.trimmed([c])
    ensures IdList(Arr([Str([c])]), Effect, true, y).1 == []
  {
    LetterIsSafe(c);
    var items := [Str([c])];
    assert items[..0] == [];
    assert IdItems([], Effect, y).1 == [];
    assert IdItemRules(items[0], Effect, y) == [];
  }

  lemma {:induction false} SmallOperationFine(op: Json, effects: Json, y: Syntax)
    requires op == SmallOperation(effects) && IdList(effects, Effect, true, y).1 == []
    requires forall s | s in {"a", "b"} :: !y.blank(s) && y.trimmed(s)
    ensures OperationRules(op, {}, y) == []
  {
    SmallOperationReads(effects);
    LetterIdRules('a', y);
    LetterIdRules('b', y);
    assert OperationIdRules(op, {}, y) == [];
    assert OperationOpRules(op, y) == [];
    assert IdList(Null, Capability, false, y).1 == [] && IdList(Null, Policy, false, y).1 == [];
  }

  lemma {:induction false} OneOperation(v: Json, operation: Json, y: Syntax)
    requires v == Arr([operation]) && OperationRules(operation, {}, y) == []
    ensures Operations(v, y).1 == []
  {
    var items := v.items;
    assert items[..0] == [] && SeenIds([], y) == {};
    assert OperationItems([], y).1 == [];
  }

  lemma {:induction false} AbsentSection(v: Json, y: Syntax)
    requires v.Null?
    ensures Claims(v, y).1 == [] && Evidence(v, y).1 == [] && Policies(v, y).1 == [] && Holes(v, y).1 == []
  {
  }

  lemma {:induction false} SmallSections(raw: Json, workflow: string, operation: Json, y: Syntax)
    requires Small(raw, workflow, operation) && OperationRules(operation, {}, y) == []
    ensures SectionRules(raw, y) == []
  {
    OtherSectionsAbsent(raw, workflow, operation);
    SectionsJoin(raw, Get(raw, "operations"), operation, y);
  }

  lemma {:induction false} OtherSectionsAbsent(raw: Json, workflow: string, operation: Json)
    requires Small(raw, workflow, operation)
    ensures Get(raw, "claims").Null? && Get(raw, "evidence").Null? && Get(raw, "policies").Null? && Get(raw, "holes").Null?
  {
    AbsentFromSmall(raw, workflow, operation, "claims");
    AbsentFromSmall(raw, workflow, operation, "evidence");
    AbsentFromSmall(raw, workflow, operation, "policies");
    AbsentFromSmall(raw, workflow, operation, "holes");
  }

  lemma {:induction false} SectionsJoin(raw: Json, operations: Json, operation: Json, y: Syntax)
    requires operations == Get(raw, "operations") && operations == Arr([operation]) && OperationRules(operation, {}, y) == []
    requires Get(raw, "claims").Null? && Get(raw, "evidence").Null? && Get(raw, "policies").Null? && Get(raw, "holes").Null?
    ensures SectionRules(raw, y) == []
  {
    OneOperation(operations, operation, y);
    AbsentSection(Get(raw, "claims"), y);
    AbsentSection(Get(raw, "evidence"), y);
    AbsentSection(Get(raw, "policies"), y);
    AbsentSection(Get(raw, "holes"), y);
  }

  lemma {:induction false} EmptyPassthrough(y: Syntax)
    ensures PassthroughRules(Obj([]), y) == []
  {
    forall k ensures !Has(Obj([]), k) && Get(Obj([]), k).Null? { AbsentIsNull([], k); }
    assert TransactionRules(Null) == [] && TransactionListRules(Null) == [] && AmbiguityRules(Null, y) == [];
  }

  lemma {:induction false} NothingPasses(ms: seq<Member>)
    requires forall m | m in ms :: m.key in SMALL_FIELDS
    ensures Passthrough(ms) == []
  {
    if ms != [] {
      FieldsApart();
      assert ms[|ms| - 1] in ms;
      NothingPasses(ms[..|ms| - 1]);
    }
  }

  lemma {:induction false} FieldsApart()
    ensures SMALL_FIELDS !! PASSTHROUGH_FIELDS && SMALL_FIELDS <= TOP_LEVEL_FIELDS
  {
  }

  lemma {:induction false} SmallHasNoFlag(raw: Json, workflow: string, operation: Json)
    requires Small(raw, workflow, operation)
    ensures FirstFlag(raw, LOADER_FLAGS).None? && UnknownFieldRules(raw.members, TOP_LEVEL_FIELDS) == []
  {
    forall i | 0 <= i < |LOADER_FLAGS| ensures !Has(raw, LOADER_FLAGS[i]) {
      AbsentFromSmall(raw, workflow, operation, LOADER_FLAGS[i]);
    }
    NoFlag(raw, LOADER_FLAGS);
  }

  lemma {:induction false} SmallIdentity(raw: Json, workflow: string, operation: Json, y: Syntax)
    requires Small(raw, workflow, operation) && SafeIdentity(workflow)
    requires forall s | s in {"m", "t", workflow} :: !y.blank(s) && y.trimmed(s) && !y.unknown(s)
    ensures IdentityRules(raw, y) == When(y.workflow(workflow).1, WorkflowAlias)
  {
    LetterIdRules('m', y);
    LetterIdRules('t', y);
  }

  lemma {:induction false} OnlyIdentity(raw: Json, workflow: string, operation: Json, y: Syntax)
    requires Small(raw, workflow, operation) && OperationRules(operation, {}, y) == []
    ensures DraftRules(raw, y) == IdentityRules(raw, y)
  {
    SmallSections(raw, workflow, operation, y);
    NothingPasses(raw.members);
    EmptyPassthrough(y);
    SmallHasNoFlag(raw, workflow, operation);
  }

  lemma {:induction false} AliasIsNotCritical(alias: bool)
    ensures !AnyCritical(When(alias, WorkflowAlias))
  {
  }

  lemma {:induction false} ParsesWith(raw: Json, rules: seq<Rule>, y: Syntax)
    requires raw.Obj? && FirstFlag(raw, LOADER_FLAGS).None? && DraftRules(raw, y) == rules && !AnyCritical(rules)
    requires Get(raw, "module").Str? && Get(raw, "workflow").Str? && Get(raw, "task").Str?
    requires y.workflow(Get(raw, "workflow").s).0 != ""
    ensures Parse(raw, y) == Parsed(Some(AstOf(raw, y)), rules)
    ensures AstOf(raw, y).workflow == y.workflow(Get(raw, "workflow").s).0
  {
  }

  /** A small draft under a safe name parses, with a warning exactly for an alias. */
  lemma {:induction false} SmallParses(raw: Json, workflow: string, operation: Json, y: Syntax)
    requires Small(raw, workflow, operation) && OperationRules(operation, {}, y) == [] && SafeIdentity(workflow)
    requires forall s | s in {"m", "t", workflow} :: !y.blank(s) && y.trimmed(s) && !y.unknown(s)
    requires y.workflow(workflow).0 != ""
    ensures Parse(raw, y) == Parsed(Some(AstOf(raw, y)), When(y.workflow(workflow).1, WorkflowAlias))
    ensures AstOf(raw, y).workflow == y.workflow(workflow).0
  {
    OnlyIdentity(raw, workflow, operation, y);
    SmallHasNoFlag(raw, workflow, operation);
    SmallIdentity(raw, workflow, operation, y);
    AliasIsNotCritical(y.workflow(workflow).1);
    ParsesWith(raw, When(y.workflow(workflow).1, WorkflowAlias), y);
  }

  /** A stored name that is an alias itself is reported when the printed form is parsed. */
  lemma {:induction false} StoredAliasIsReported(raw: Json, y: Syntax, d: DraftAst)
    requires WellFormed(raw) && Parse(raw, y).ast == Some(d) && y.workflow(d.workflow).1
    requires Filled(Str(d.workflow), y) && !y.unknown(d.workflow)
    ensures Parse(Obj(Print(d)), y).findings != [] && !StoresSettled(raw, y)
  {
    ParseMeans(raw, y, d);
    PrintedRules(raw, d, y);
    PrintedHasNoFlag(d);
    ParseUnclean(Obj(Print(d)), y);
    StoredWorkflow(raw, y, d);
  }

  // ----- an alias of an alias -----

  /** A normaliser whose table sends one alias to another. */
  function ChainedWorkflow(name: string): (string, bool) {
    if name == "start" then ("middle", true) else if name == "middle" then ("end", true) else (name, false)
  }

  const CHAINED := Syntax((s: string) => s == "", (s: string) => true, (s: string) => false, ChainedWorkflow)

  lemma {:induction false} ChainedNames()
    ensures SafeIdentity("start") && "start" != "middle"
  {
  }

  /** The draft of one operation under the workflow name `start`: it parses with the one
      warning that `start` is an alias, stores `middle`, and its printed form is reported again. */
  lemma {:induction false} ChainedAliasBreaksRoundTrip() returns (raw: Json, d: DraftAst)
    ensures WellFormed(raw) && Get(raw, "workflow") == Str("start")
    ensures Parse(raw, CHAINED) == Parsed(Some(d), [WorkflowAlias])
    ensures d.workflow == "middle" && !StoresSettled(raw, CHAINED)
    ensures Parse(Obj(Print(d)), CHAINED).findings != []
  {
    var operation;
    raw, operation := ChainedDraft();
    SmallParses(raw, "start", operation, CHAINED);
    d := AstOf(raw, CHAINED);
    StoredAliasIsReported(raw, CHAINED, d);
  }

  lemma {:induction false} ChainedDraft() returns (raw: Json, operation: Json)
    ensures WellFormed(raw) && Small(raw, "start", operation) && OperationRules(operation, {}, CHAINED) == []
    ensures SafeIdentity("start") && forall s | s in {"m", "t", "start"} :: !CHAINED.blank(s)
  {
    ChainedNames();
    operation := ChainedOperation();
    raw := SmallDraft("start", operation);
    SmallDraftReads("start", operation);
  }

  lemma {:induction false} ChainedOperation() returns (operation: Json)
    ensures WellFormed(operation) && OperationRules(operation, {}, CHAINED) == []
  {
    var effects := Arr([Str("c")]);
    OneEffect('c', CHAINED);
    operation := SmallOperation(effects);
    SmallOperationReads(effects);
    SmallOperationFine(operation, effects, CHAINED);
  }
}
