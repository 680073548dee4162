/** Parsing, printing and parsing again. */
module DraftTheorem {
  import opened JsonTree
  import opened Dictionaries
  import opened DraftSyntax
  import opened DraftRoundTrip
  import opened DraftSections

  // ----- passing through -----

  lemma {:induction false} PassthroughContents(ms: seq<Member>)
    ensures forall m :: m in Passthrough(ms) <==> m in ms && m.key in PASSTHROUGH_FIELDS
  {
    if ms != [] {
      var n := |ms| - 1;
      PassthroughContents(ms[..n]);
      assert forall m :: m in ms <==> m in ms[..n] || m == ms[n];
    }
  }

  lemma {:induction false} PassthroughDistinct(ms: seq<Member>)
    requires Distinct(ms)
    ensures Distinct(Passthrough(ms))
  {
    if ms != [] {
      var n := |ms| - 1;
      PassthroughDistinct(ms[..n]);
      PassthroughContents(ms[..n]);
      var p := Passthrough(ms[..n]);
      forall i | 0 <= i < |p| ensures KeyOf(p[i]) != KeyOf(ms[n]) {
        assert p[i] in p;
        var j :| 0 <= j < n && ms[j] == p[i];
        assert KeyOf(ms[j]) != KeyOf(ms[n]);
      }
    }
  }

  lemma {:induction false} PassthroughJoin(a: seq<Member>, b: seq<Member>)
    ensures Passthrough(a + b) == Passthrough(a) + Passthrough(b)
  {
    if b == [] {
      assert a + b == a;
    } else {
      var n := |b| - 1;
      assert (a + b)[..|a + b| - 1] == a + b[..n];
      PassthroughJoin(a, b[..n]);
    }
  }

  lemma {:induction false} PassthroughAll(ms: seq<Member>)
    requires forall m | m in ms :: m.key in PASSTHROUGH_FIELDS
    ensures Passthrough(ms) == ms
  {
    if ms != [] {
      var n := |ms| - 1;
      assert ms[n] in ms;
      PassthroughAll(ms[..n]);
    }
  }

  lemma {:induction false} PassthroughNone(ms: seq<Member>)
    requires forall m | m in ms :: m.key !in PASSTHROUGH_FIELDS
    ensures Passthrough(ms) == []
  {
    if ms != [] {
      var n := |ms| - 1;
      assert ms[n] in ms;
      PassthroughNone(ms[..n]);
    }
  }

  // ----- the printed tree -----

  ghost predicate OnlyPassing(ms: seq<Member>) { Distinct(ms) && forall m | m in ms :: m.key in PASSTHROUGH_FIELDS }

  const HEAD_FIELDS := {"module", "workflow", "task", "operations"}

  lemma {:induction false} HeadIsDistinct(d: DraftAst)
    ensures Distinct(PrintHead(d)) && forall m | m in PrintHead(d) :: m.key in HEAD_FIELDS
  {
  }

  lemma {:induction false} HeadReads(d: DraftAst)
    ensures Get(Obj(PrintHead(d)), "module") == Str(d.moduleId)
    ensures Get(Obj(PrintHead(d)), "workflow") == Str(d.workflow)
    ensures Get(Obj(PrintHead(d)), "task") == Str(d.task)
    ensures Get(Obj(PrintHead(d)), "operations") == Arr(PrintedOperations(d.operations))
    ensures HasKey(PrintHead(d), "module") && HasKey(PrintHead(d), "workflow") && HasKey(PrintHead(d), "task") && HasKey(PrintHead(d), "operations")
  {
    var ms := PrintHead(d);
    HeadIsDistinct(d);
    LookupAt(ms, 0);
    LookupAt(ms, 1);
    LookupAt(ms, 2);
    LookupAt(ms, 3);
  }

  lemma {:induction false} FieldsApart()
    ensures HEAD_FIELDS !! PASSTHROUGH_FIELDS
    ensures forall k | k in {"claims", "evidence", "policies", "holes"} :: k !in HEAD_FIELDS && k !in PASSTHROUGH_FIELDS
  {
  }

  function Body(d: DraftAst): seq<Member> { PrintHead(d) + d.passthrough }

  lemma {:induction false} BodyIsUpdate(d: DraftAst)
    requires OnlyPassing(d.passthrough)
    ensures Update(PrintHead(d), d.passthrough) == Body(d) && Distinct(Body(d))
    ensures Passthrough(Body(d)) == d.passthrough
  {
    HeadIsDistinct(d);
    FieldsApart();
    forall x | x in d.passthrough ensures !HasKey(PrintHead(d), x.key) {
      forall i | 0 <= i < |PrintHead(d)| ensures PrintHead(d)[i].key != x.key { assert PrintHead(d)[i] in PrintHead(d); }
    }
    UpdateAppends(PrintHead(d), d.passthrough);
    JoinDistinct(PrintHead(d), d.passthrough);
    PassthroughJoin(PrintHead(d), d.passthrough);
    PassthroughNone(PrintHead(d));
    PassthroughAll(d.passthrough);
  }

  /** A section that is printed only when it is not empty. */
  function Section(ms: seq<Member>, key: string, items: seq<Json>): seq<Member> {
    if items == [] then ms else SetMember(ms, key, Arr(items))
  }

  lemma {:induction false} SectionReads(ms: seq<Member>, key: string, items: seq<Json>, k: string)
    requires Distinct(ms) && !HasKey(ms, key)
    ensures Distinct(Section(ms, key, items))
    ensures k != key ==> Get(Obj(Section(ms, key, items)), k) == Get(Obj(ms), k) && (HasKey(Section(ms, key, items), k) <==> HasKey(ms, k))
    ensures Get(Obj(Section(ms, key, items)), key) == if items == [] then Null else Arr(items)
  {
    if items != [] {
      SetMemberDistinct(ms, key, Arr(items));
      SetMemberGet(ms, key, Arr(items), k);
      SetMemberGet(ms, key, Arr(items), key);
    }
  }

  lemma {:induction false} SectionPassthrough(ms: seq<Member>, key: string, items: seq<Json>)
    requires !HasKey(ms, key) && key !in PASSTHROUGH_FIELDS
    ensures Passthrough(Section(ms, key, items)) == Passthrough(ms)
  {
    if items != [] {
      var last := [Member(key, Arr(items))];
      PassthroughJoin(ms, last);
      PassthroughNone(last);
    }
  }

  function Sections(ms: seq<Member>, claims: seq<Json>, evidence: seq<Json>, policies: seq<Json>, holes: seq<Json>): seq<Member> {
    Section(Section(Section(Section(ms, "claims", claims), "evidence", evidence), "policies", policies), "holes", holes)
  }

  function OrNull(items: seq<Json>): Json { if items == [] then Null else Arr(items) }

  /** What the finished tree reads at each key, given what its body reads. */
  ghost predicate Reads(ms: seq<Member>, body: seq<Member>, claims: seq<Json>, evidence: seq<Json>, policies: seq<Json>, holes: seq<Json>) {
    && Distinct(ms)
    && Get(Obj(ms), "module") == Get(Obj(body), "module") && Get(Obj(ms), "workflow") == Get(Obj(body), "workflow")
    && Get(Obj(ms), "task") == Get(Obj(body), "task") && Get(Obj(ms), "operations") == Get(Obj(body), "operations")
    && Get(Obj(ms), "claims") == OrNull(claims) && Get(Obj(ms), "evidence") == OrNull(evidence)
    && Get(Obj(ms), "policies") == OrNull(policies) && Get(Obj(ms), "holes") == OrNull(holes)
    && Passthrough(ms) == Passthrough(body)
  }

  lemma {:induction false} SectionsRead(body: seq<Member>, claims: seq<Json>, evidence: seq<Json>, policies: seq<Json>, holes: seq<Json>)
    requires Distinct(body)
    requires !HasKey(body, "claims") && !HasKey(body, "evidence") && !HasKey(body, "policies") && !HasKey(body, "holes")
    ensures Reads(Sections(body, claims, evidence, policies, holes), body, claims, evidence, policies, holes)
  {
    var a := Section(body, "claims", claims);
    var b := Section(a, "evidence", evidence);
    var c := Section(b, "policies", policies);
    FieldsApart();
    OneSectionReads(body, "claims", claims);
    OneSectionReads(a, "evidence", evidence);
    OneSectionReads(b, "policies", policies);
    OneSectionReads(c, "holes", holes);
    SectionPassthrough(body, "claims", claims);
    SectionPassthrough(a, "evidence", evidence);
    SectionPassthrough(b, "policies", policies);
    SectionPassthrough(c, "holes", holes);
  }

  /** A section changes only what is read at its own key. */
  lemma {:induction false} OneSectionReads(ms: seq<Member>, key: string, items: seq<Json>)
    requires Distinct(ms) && !HasKey(ms, key)
    ensures var r := Section(ms, key, items);
            && Distinct(r) && Get(Obj(r), key) == OrNull(items)
            && ("module" != key ==> Get(Obj(r), "module") == Get(Obj(ms), "module"))
            && ("workflow" != key ==> Get(Obj(r), "workflow") == Get(Obj(ms), "workflow"))
            && ("task" != key ==> Get(Obj(r), "task") == Get(Obj(ms), "task"))
            && ("operations" != key ==> Get(Obj(r), "operations") == Get(Obj(ms), "operations"))
            && ("claims" != key ==> Get(Obj(r), "claims") == Get(Obj(ms), "claims") && (HasKey(r, "claims") <==> HasKey(ms, "claims")))
            && ("evidence" != key ==> Get(Obj(r), "evidence") == Get(Obj(ms), "evidence") && (HasKey(r, "evidence") <==> HasKey(ms, "evidence")))
            && ("policies" != key ==> Get(Obj(r), "policies") == Get(Obj(ms), "policies") && (HasKey(r, "policies") <==> HasKey(ms, "policies")))
            && ("holes" != key ==> Get(Obj(r), "holes") == Get(Obj(ms), "holes") && (HasKey(r, "holes") <==> HasKey(ms, "holes")))
  {
    SectionReads(ms, key, items, "module");
    SectionReads(ms, key, items, "workflow");
    SectionReads(ms, key, items, "task");
    SectionReads(ms, key, items, "operations");
    SectionReads(ms, key, items, "claims");
    SectionReads(ms, key, items, "evidence");
    SectionReads(ms, key, items, "policies");
    SectionReads(ms, key, items, "holes");
  }

  lemma {:induction false} NoSectionKeys(d: DraftAst)
    requires OnlyPassing(d.passthrough)
    ensures !HasKey(Body(d), "claims") && !HasKey(Body(d), "evidence") && !HasKey(Body(d), "policies") && !HasKey(Body(d), "holes")
    ensures !HasKey(d.passthrough, "claims") && !HasKey(d.passthrough, "evidence")
    ensures !HasKey(d.passthrough, "policies") && !HasKey(d.passthrough, "holes")
  {
    HeadIsDistinct(d);
    FieldsApart();
    forall i | 0 <= i < |Body(d)| ensures Body(d)[i].key in HEAD_FIELDS + PASSTHROUGH_FIELDS {
      if i < |PrintHead(d)| { assert PrintHead(d)[i] in PrintHead(d); } else { assert d.passthrough[i - |PrintHead(d)|] in d.passthrough; }
    }
    forall i | 0 <= i < |d.passthrough| ensures d.passthrough[i].key in PASSTHROUGH_FIELDS { assert d.passthrough[i] in d.passthrough; }
  }

  /** The printed draft is its body with the sections that are not empty. */
  lemma {:induction false} PrintIsSections(d: DraftAst)
    requires OnlyPassing(d.passthrough)
    ensures Print(d) == Sections(Body(d), PrintedClaims(d.claims), PrintedEvidence(d.evidence), PrintedPolicies(d.policies), PrintedHoles(d.holes))
  {
    BodyIsUpdate(d);
    NoSectionKeys(d);
  }

  lemma {:induction false} BodyReads(d: DraftAst)
    requires OnlyPassing(d.passthrough)
    ensures Get(Obj(Body(d)), "module") == Str(d.moduleId) && Get(Obj(Body(d)), "workflow") == Str(d.workflow)
    ensures Get(Obj(Body(d)), "task") == Str(d.task) && Get(Obj(Body(d)), "operations") == Arr(PrintedOperations(d.operations))
  {
    BodyIsUpdate(d);
    HeadReads(d);
    JoinGet(PrintHead(d), d.passthrough, "module");
    JoinGet(PrintHead(d), d.passthrough, "workflow");
    JoinGet(PrintHead(d), d.passthrough, "task");
    JoinGet(PrintHead(d), d.passthrough, "operations");
  }

  /** What a printed draft reads, key by key. */
  ghost predicate PrintReads(ms: seq<Member>, d: DraftAst) {
    && Distinct(ms)
    && Get(Obj(ms), "module") == Str(d.moduleId) && Get(Obj(ms), "workflow") == Str(d.workflow) && Get(Obj(ms), "task") == Str(d.task)
    && Get(Obj(ms), "operations") == Arr(PrintedOperations(d.operations))
    && Get(Obj(ms), "claims") == OrNull(PrintedClaims(d.claims)) && Get(Obj(ms), "evidence") == OrNull(PrintedEvidence(d.evidence))
    && Get(Obj(ms), "policies") == OrNull(PrintedPolicies(d.policies)) && Get(Obj(ms), "holes") == OrNull(PrintedHoles(d.holes))
    && Passthrough(ms) == d.passthrough
  }

  lemma {:induction false} PrintedReads(d: DraftAst)
    requires OnlyPassing(d.passthrough)
    ensures PrintReads(Print(d), d)
  {
    PrintIsSections(d);
    BodyIsUpdate(d);
    NoSectionKeys(d);
    BodyReads(d);
    SectionsRead(Body(d), PrintedClaims(d.claims), PrintedEvidence(d.evidence), PrintedPolicies(d.policies), PrintedHoles(d.holes));
  }

  const PRINTED_FIELDS := {
    "module", "workflow", "task", "operations", "claims", "evidence", "policies", "holes", "input_type",
    "output_type", "return", "transaction", "transactions", "environment", "executable", "ambiguity",
    "unresolved_ambiguities"}

  lemma {:induction false} SectionKeys(ms: seq<Member>, key: string, items: seq<Json>)
    requires key in PRINTED_FIELDS && forall m | m in ms :: m.key in PRINTED_FIELDS
    ensures forall m | m in Section(ms, key, items) :: m.key in PRINTED_FIELDS
  {
    if items != [] { SetKeys(ms, key, Arr(items), PRINTED_FIELDS); }
  }

  lemma {:induction false} PrintedFields(d: DraftAst)
    requires OnlyPassing(d.passthrough)
    ensures forall m | m in Print(d) :: m.key in PRINTED_FIELDS
  {
    PrintIsSections(d);
    BodyFields(d);
    var a := Section(Body(d), "claims", PrintedClaims(d.claims));
    var b := Section(a, "evidence", PrintedEvidence(d.evidence));
    var c := Section(b, "policies", PrintedPolicies(d.policies));
    SectionKeys(Body(d), "claims", PrintedClaims(d.claims));
    SectionKeys(a, "evidence", PrintedEvidence(d.evidence));
    SectionKeys(b, "policies", PrintedPolicies(d.policies));
    SectionKeys(c, "holes", PrintedHoles(d.holes));
  }

  lemma {:induction false} BodyFields(d: DraftAst)
    requires OnlyPassing(d.passthrough)
    ensures forall m | m in Body(d) :: m.key in PRINTED_FIELDS
  {
    HeadIsDistinct(d);
    assert HEAD_FIELDS <= PRINTED_FIELDS && PASSTHROUGH_FIELDS <= PRINTED_FIELDS;
  }

  lemma {:induction false} FlagsAreNotPrinted()
    ensures forall i | 0 <= i < |LOADER_FLAGS| :: LOADER_FLAGS[i] !in PRINTED_FIELDS
    ensures PRINTED_FIELDS <= TOP_LEVEL_FIELDS
  {
  }

  lemma {:induction false} NoFlag(raw: Json, flags: seq<string>)
    requires raw.Obj? && forall i | 0 <= i < |flags| :: !Has(raw, flags[i])
    ensures FirstFlag(raw, flags).None?
  {
    if flags != [] { NoFlag(raw, flags[1..]); }
  }

  lemma {:induction false} PrintedHasNoFlag(d: DraftAst)
    requires OnlyPassing(d.passthrough)
    ensures FirstFlag(Obj(Print(d)), LOADER_FLAGS).None?
    ensures UnknownFieldRules(Print(d), TOP_LEVEL_FIELDS) == []
  {
    PrintedFields(d);
    FlagsAreNotPrinted();
    forall i | 0 <= i < |LOADER_FLAGS| ensures !Has(Obj(Print(d)), LOADER_FLAGS[i]) {
      forall j | 0 <= j < |Print(d)| ensures Print(d)[j].key != LOADER_FLAGS[i] { assert Print(d)[j] in Print(d); }
    }
    NoFlag(Obj(Print(d)), LOADER_FLAGS);
  }

  // ----- what a successful parse leaves to say -----

  lemma {:induction false} NoCritical(rules: seq<Rule>)
    requires AllCritical(rules)
    ensures rules != [] ==> AnyCritical(rules)
  {
    if rules != [] { assert rules[0] in rules && Critical(rules[0]); }
  }

  lemma {:induction false} PartsNotCritical(a: seq<Rule>, b: seq<Rule>)
    requires !AnyCritical(a + b)
    ensures !AnyCritical(a) && !AnyCritical(b)
  {
    forall r | r in a ensures !Critical(r) { assert r in a + b; }
    forall r | r in b ensures !Critical(r) { assert r in a + b; }
  }

  lemma {:induction false} CleanParts(raw: Json, y: Syntax)
    requires raw.Obj? && !AnyCritical(DraftRules(raw, y))
    ensures SectionRules(raw, y) == [] && PassthroughRules(Obj(Passthrough(raw.members)), y) == []
    ensures RequiredIdRules(Get(raw, "module"), y) == [] && RequiredIdRules(Get(raw, "workflow"), y) == [] && RequiredIdRules(Get(raw, "task"), y) == []
  {
    var a, b := UnknownFieldRules(raw.members, TOP_LEVEL_FIELDS), IdentityRules(raw, y);
    var c, d := SectionRules(raw, y), PassthroughRules(Obj(Passthrough(raw.members)), y);
    PartsNotCritical(a + b + c, d);
    PartsNotCritical(a + b, c);
    PartsNotCritical(a, b);
    NoCritical(c);
    NoCritical(d);
    CleanIdentity(raw, y);
  }

  lemma {:induction false} CleanIdentity(raw: Json, y: Syntax)
    requires !AnyCritical(IdentityRules(raw, y))
    ensures RequiredIdRules(Get(raw, "module"), y) == [] && RequiredIdRules(Get(raw, "workflow"), y) == [] && RequiredIdRules(Get(raw, "task"), y) == []
  {
    var a, b, c := RequiredIdRules(Get(raw, "module"), y), RequiredIdRules(Get(raw, "workflow"), y), RequiredIdRules(Get(raw, "task"), y);
    PartsNotCritical(a + b + c, AliasRules(Get(raw, "workflow"), y));
    PartsNotCritical(a + b, c);
    PartsNotCritical(a, b);
    NoCritical(a);
    NoCritical(b);
    NoCritical(c);
  }

  // ----- the theorem -----

  function Reprinted(d: DraftAst): DraftAst {
    d.(operations := ReprintedOperations(d.operations), claims := ReprintedClaims(d.claims), holes := ReprintedHoles(d.holes))
  }

  /** The same draft apart from the raw mappings kept in its parts. */
  ghost predicate SameDraft(a: DraftAst, b: DraftAst) {
    && a.moduleId == b.moduleId && a.workflow == b.workflow && a.task == b.task && a.passthrough == b.passthrough
    && a.evidence == b.evidence && a.policies == b.policies
    && |a.operations| == |b.operations| && |a.claims| == |b.claims| && |a.holes| == |b.holes|
    && (forall i | 0 <= i < |a.operations| :: a.operations[i].(raw := []) == b.operations[i].(raw := []))
    && (forall i | 0 <= i < |a.claims| :: a.claims[i].(raw := []) == b.claims[i].(raw := []))
    && (forall i | 0 <= i < |a.holes| :: a.holes[i].(raw := []) == b.holes[i].(raw := []))
  }

  lemma {:induction false} ReprintedIsSame(d: DraftAst)
    ensures SameDraft(Reprinted(d), d)
  {
  }

  /** The workflow's canonical name is a safe identifier that normalises to itself. */
  predicate Settled(workflow: string, y: Syntax) {
    && RequiredIdRules(Str(workflow), y) == []
    && y.workflow(workflow) == (workflow, false)
  }

  /** The name that a parse would store for the workflow is settled. */
  predicate StoresSettled(raw: Json, y: Syntax) {
    Get(raw, "workflow").Str? && Settled(y.workflow(Get(raw, "workflow").s).0, y)
  }

  lemma {:induction false} StoredWorkflow(raw: Json, y: Syntax, d: DraftAst)
    requires Parse(raw, y).ast == Some(d)
    ensures Settled(d.workflow, y) <==> StoresSettled(raw, y)
  {
    ParsedIsAst(raw, y, d);
  }

  ghost predicate GoodSection(v: Json) { v.Arr? && Objects(v.items) ==> GoodItems(v.items) }

  lemma {:induction false} SectionGood(raw: Json, k: string)
    requires WellFormed(raw)
    ensures GoodSection(Get(raw, k)) && (Get(raw, k).Arr? ==> DistinctItems(Get(raw, k).items))
  {
    if Has(raw, k) {
      var m := Member(k, Get(raw, k));
      assert m in raw.members && WellFormed(m.value);
      if m.value.Arr? {
        forall x | x in m.value.items && x.Obj? ensures Distinct(x.members) { assert WellFormed(x); }
      }
    }
  }

  /** What a parsed draft is, section by section. */
  ghost predicate ParsedFrom(d: DraftAst, raw: Json, y: Syntax) {
    && OnlyPassing(d.passthrough)
    && Operations(Get(raw, "operations"), y) == (d.operations, []) && Get(raw, "operations").Arr?
    && Claims(Get(raw, "claims"), y) == (d.claims, []) && Evidence(Get(raw, "evidence"), y) == (d.evidence, [])
    && Policies(Get(raw, "policies"), y) == (d.policies, []) && Holes(Get(raw, "holes"), y) == (d.holes, [])
    && PassthroughRules(Obj(d.passthrough), y) == []
    && RequiredIdRules(Str(d.moduleId), y) == [] && RequiredIdRules(Str(d.task), y) == []
    && d.workflow != ""
  }

  lemma {:induction false} CleanSections(raw: Json, y: Syntax)
    requires SectionRules(raw, y) == []
    ensures Operations(Get(raw, "operations"), y).1 == [] && Claims(Get(raw, "claims"), y).1 == []
    ensures Evidence(Get(raw, "evidence"), y).1 == [] && Policies(Get(raw, "policies"), y).1 == []
    ensures Holes(Get(raw, "holes"), y).1 == [] && Get(raw, "operations").Arr?
  {
  }

  lemma {:induction false} ParsedIsAst(raw: Json, y: Syntax, d: DraftAst)
    requires Parse(raw, y).ast == Some(d)
    ensures raw.Obj? && !AnyCritical(DraftRules(raw, y)) && d.workflow != ""
    ensures Get(raw, "module").Str? && Get(raw, "workflow").Str? && Get(raw, "task").Str? && d == AstOf(raw, y)
  {
  }

  lemma {:induction false} ParseMeans(raw: Json, y: Syntax, d: DraftAst)
    requires WellFormed(raw) && Parse(raw, y).ast == Some(d)
    ensures ParsedFrom(d, raw, y)
  {
    ParsedIsAst(raw, y, d);
    CleanParts(raw, y);
    CleanSections(raw, y);
    PassthroughDistinct(raw.members);
    PassthroughContents(raw.members);
    AstIsParsed(raw, y);
  }

  lemma {:induction false} AstIsParsed(raw: Json, y: Syntax)
    requires raw.Obj? && Get(raw, "module").Str? && Get(raw, "workflow").Str? && Get(raw, "task").Str?
    requires Operations(Get(raw, "operations"), y).1 == [] && Get(raw, "operations").Arr?
    requires Claims(Get(raw, "claims"), y).1 == [] && Evidence(Get(raw, "evidence"), y).1 == []
    requires Policies(Get(raw, "policies"), y).1 == [] && Holes(Get(raw, "holes"), y).1 == []
    requires PassthroughRules(Obj(Passthrough(raw.members)), y) == [] && OnlyPassing(Passthrough(raw.members))
    requires RequiredIdRules(Get(raw, "module"), y) == [] && RequiredIdRules(Get(raw, "task"), y) == []
    requires AstOf(raw, y).workflow != ""
    ensures ParsedFrom(AstOf(raw, y), raw, y)
  {
  }

  lemma {:induction false} SectionsReadBack(raw: Json, d: DraftAst, y: Syntax)
    requires WellFormed(raw) && ParsedFrom(d, raw, y)
    ensures Operations(Arr(PrintedOperations(d.operations)), y) == (ReprintedOperations(d.operations), [])
    ensures Claims(OrNull(PrintedClaims(d.claims)), y) == (ReprintedClaims(d.claims), [])
    ensures Evidence(OrNull(PrintedEvidence(d.evidence)), y) == (d.evidence, [])
    ensures Policies(OrNull(PrintedPolicies(d.policies)), y) == (d.policies, [])
    ensures Holes(OrNull(PrintedHoles(d.holes)), y) == (ReprintedHoles(d.holes), [])
    ensures PrintedOperations(ReprintedOperations(d.operations)) == PrintedOperations(d.operations)
    ensures PrintedClaims(ReprintedClaims(d.claims)) == PrintedClaims(d.claims)
    ensures PrintedHoles(ReprintedHoles(d.holes)) == PrintedHoles(d.holes)
  {
    SectionGood(raw, "operations");
    SectionGood(raw, "claims");
    SectionGood(raw, "holes");
    OperationSection(Get(raw, "operations"), y);
    ClaimSection(Get(raw, "claims"), y);
    EvidenceSectionReadsBack(Get(raw, "evidence"), y);
    PolicySectionReadsBack(Get(raw, "policies"), y);
    HoleSection(Get(raw, "holes"), y);
  }

  /** Printing a draft with its printed raws gives the same tree. */
  lemma {:induction false} ReprintedPrintsSame(d: DraftAst)
    requires OnlyPassing(d.passthrough)
    requires PrintedOperations(ReprintedOperations(d.operations)) == PrintedOperations(d.operations)
    requires PrintedClaims(ReprintedClaims(d.claims)) == PrintedClaims(d.claims)
    requires PrintedHoles(ReprintedHoles(d.holes)) == PrintedHoles(d.holes)
    ensures Print(Reprinted(d)) == Print(d)
  {
    PrintIsSections(d);
    PrintIsSections(Reprinted(d));
  }

  lemma {:induction false} PrintedSectionRules(raw: Json, d: DraftAst, y: Syntax)
    requires WellFormed(raw) && ParsedFrom(d, raw, y)
    ensures SectionRules(Obj(Print(d)), y) == []
  {
    PrintedReads(d);
    SectionsReadBack(raw, d, y);
  }

  lemma {:induction false} IdentityFindings(printed: Json, d: DraftAst, y: Syntax)
    requires Get(printed, "module") == Str(d.moduleId) && Get(printed, "workflow") == Str(d.workflow) && Get(printed, "task") == Str(d.task)
    requires RequiredIdRules(Str(d.moduleId), y) == [] && RequiredIdRules(Str(d.task), y) == []
    ensures IdentityRules(printed, y) == [] <==> RequiredIdRules(Str(d.workflow), y) == [] && AliasRules(Str(d.workflow), y) == []
  {
  }

  lemma {:induction false} OnlyIdentityCounts(printed: Json, y: Syntax)
    requires printed.Obj? && UnknownFieldRules(printed.members, TOP_LEVEL_FIELDS) == [] && SectionRules(printed, y) == []
    requires PassthroughRules(Obj(Passthrough(printed.members)), y) == []
    ensures DraftRules(printed, y) == [] <==> IdentityRules(printed, y) == []
  {
  }

  /** The findings of a printed draft are those of its workflow name. */
  lemma {:induction false} PrintedRules(raw: Json, d: DraftAst, y: Syntax)
    requires WellFormed(raw) && ParsedFrom(d, raw, y)
    ensures DraftRules(Obj(Print(d)), y) == [] <==> RequiredIdRules(Str(d.workflow), y) == [] && AliasRules(Str(d.workflow), y) == []
  {
    PrintedReads(d);
    PrintedHasNoFlag(d);
    PrintedSectionRules(raw, d, y);
    IdentityFindings(Obj(Print(d)), d, y);
    OnlyIdentityCounts(Obj(Print(d)), y);
  }

  lemma {:induction false} PrintedAst(raw: Json, d: DraftAst, y: Syntax)
    requires WellFormed(raw) && ParsedFrom(d, raw, y)
    ensures Get(Obj(Print(d)), "module").Str? && Get(Obj(Print(d)), "workflow").Str? && Get(Obj(Print(d)), "task").Str?
    ensures AstOf(Obj(Print(d)), y) == Reprinted(d).(workflow := y.workflow(d.workflow).0)
  {
    PrintedReads(d);
    SectionsReadBack(raw, d, y);
  }

  lemma {:induction false} SettledMeans(workflow: string, y: Syntax)
    ensures Settled(workflow, y) <==>
            RequiredIdRules(Str(workflow), y) == [] && AliasRules(Str(workflow), y) == [] && y.workflow(workflow).0 == workflow
  {
  }

  lemma {:induction false} NothingCritical()
    ensures !AnyCritical([])
  {
  }

  lemma {:induction false} ParseClean(printed: Json, y: Syntax)
    requires printed.Obj? && FirstFlag(printed, LOADER_FLAGS).None? && DraftRules(printed, y) == []
    requires Get(printed, "module").Str? && Get(printed, "workflow").Str? && Get(printed, "task").Str?
    ensures AstOf(printed, y).workflow != "" ==> Parse(printed, y) == Parsed(Some(AstOf(printed, y)), [])
    ensures AstOf(printed, y).workflow == "" ==> Parse(printed, y).ast.None?
  {
    NothingCritical();
  }

  lemma {:induction false} ParseUnclean(printed: Json, y: Syntax)
    requires printed.Obj? && FirstFlag(printed, LOADER_FLAGS).None? && DraftRules(printed, y) != []
    ensures Parse(printed, y).findings != []
  {
  }

  lemma {:induction false} ParseVerdict(printed: Json, again: DraftAst, workflow: string, y: Syntax)
    requires printed.Obj? && FirstFlag(printed, LOADER_FLAGS).None? && again.workflow == workflow && workflow != ""
    requires Get(printed, "module").Str? && Get(printed, "workflow") == Str(workflow) && Get(printed, "task").Str?
    requires AstOf(printed, y) == again.(workflow := y.workflow(workflow).0)
    requires DraftRules(printed, y) == [] <==> RequiredIdRules(Str(workflow), y) == [] && AliasRules(Str(workflow), y) == []
    ensures Parse(printed, y) == Parsed(Some(again), []) <==> Settled(workflow, y)
  {
    SettledMeans(workflow, y);
    if DraftRules(printed, y) == [] {
      ParseClean(printed, y);
    } else {
      ParseUnclean(printed, y);
    }
  }

  /** Parsing the printed form of a parsed draft succeeds without findings and gives the
      same draft, exactly when the canonical name of its workflow is settled. */
  lemma {:induction false} ParsePrintParse(raw: Json, y: Syntax, d: DraftAst)
    requires WellFormed(raw) && Parse(raw, y).ast == Some(d)
    ensures Parse(Obj(Print(d)), y) == Parsed(Some(Reprinted(d)), []) <==> StoresSettled(raw, y)
    ensures SameDraft(Reprinted(d), d)
  {
    StoredWorkflow(raw, y, d);
    ParseMeans(raw, y, d);
    PrintedRules(raw, d, y);
    PrintedAst(raw, d, y);
    PrintedHasNoFlag(d);
    PrintedReads(d);
    ParseVerdict(Obj(Print(d)), Reprinted(d), d.workflow, y);
    ReprintedIsSame(d);
  }

  /** Printing after parsing is the identity on printed drafts. */
  lemma {:induction false} PrintParsePrint(raw: Json, y: Syntax, d: DraftAst)
    requires WellFormed(raw) && Parse(raw, y).ast == Some(d) && StoresSettled(raw, y)
    ensures Parse(Obj(Print(d)), y).ast.Some?
    ensures Print(Parse(Obj(Print(d)), y).ast.value) == Print(d)
  {
    ParsePrintParse(raw, y, d);
    ParseMeans(raw, y, d);
    SectionsReadBack(raw, d, y);
    ReprintedPrintsSame(d);
  }
}
