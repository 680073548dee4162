/** Parsing a printed draft gives back the same draft, and printing it again changes
    nothing. */
module DraftRoundTrip {
  import opened JsonTree
  import opened Dictionaries
  import opened DraftSyntax

  // ----- lists of ids -----

  lemma {:induction false} IdItemsStep(items: seq<Json>, x: Json, what: Label, y: Syntax)
    ensures IdItems(items + [x], what, y)
         == (IdItems(items, what, y).0 + (if Filled(x, y) then [x.s] else []), IdItems(items, what, y).1 + IdItemRules(x, what, y))
  {
    assert (items + [x])[..|items|] == items;
  }

  lemma {:induction false} CleanIds(items: seq<Json>, what: Label, y: Syntax)
    requires IdItems(items, what, y).1 == []
    ensures items == Texts(IdItems(items, what, y).0)
  {
    if items != [] {
      var n := |items| - 1;
      assert items == items[..n] + [items[n]];
      IdItemsStep(items[..n], items[n], what, y);
      CleanIds(items[..n], what, y);
    }
  }

  /** A clean id list reads back from its printed form. */
  lemma {:induction false} CleanIdList(v: Json, what: Label, required: bool, y: Syntax)
    requires IdList(v, what, required, y).1 == []
    ensures IdList(Arr(Texts(IdList(v, what, required, y).0)), what, required, y) == (IdList(v, what, required, y).0, [])
  {
    if v.Null? {
      assert Texts([]) == [];
    } else {
      CleanIds(v.items, what, y);
    }
  }

  // ----- operations -----

  lemma {:induction false} PrintListGet(ms: seq<Member>, key: string, names: seq<string>, k: string)
    requires Distinct(ms)
    ensures Distinct(PrintList(ms, key, names))
    ensures k != key ==> Get(Obj(PrintList(ms, key, names)), k) == Get(Obj(ms), k)
    ensures k != key ==> (HasKey(PrintList(ms, key, names), k) <==> HasKey(ms, k))
    ensures Get(Obj(PrintList(ms, key, names)), key) == if names != [] || HasKey(ms, key) then Arr(Texts(names)) else Null
    ensures HasKey(PrintList(ms, key, names), key) <==> names != [] || HasKey(ms, key)
  {
    SetMemberDistinct(ms, key, Arr(Texts(names)));
    SetMemberGet(ms, key, Arr(Texts(names)), k);
    SetMemberGet(ms, key, Arr(Texts(names)), key);
  }

  /** What each field of a printed operation reads. */
  ghost predicate OperationReads(ms: seq<Member>, o: OperationAst, named: bool, policed: bool) {
    && Distinct(ms)
    && HasKey(ms, "id") && HasKey(ms, "op") && HasKey(ms, "effects")
    && Get(Obj(ms), "id") == Str(o.id) && Get(Obj(ms), "op") == Str(o.op)
    && Get(Obj(ms), "effects") == Arr(Texts(o.effects))
    && HasKey(ms, "capabilities") == named && HasKey(ms, "policies") == policed
    && Get(Obj(ms), "capabilities") == (if named then Arr(Texts(o.capabilities)) else Null)
    && Get(Obj(ms), "policies") == (if policed then Arr(Texts(o.policies)) else Null)
  }

  lemma {:induction false} CoreReads(o: OperationAst)
    requires Distinct(o.raw)
    ensures var ms := SetMember(SetMember(SetMember(o.raw, "id", Str(o.id)), "op", Str(o.op)), "effects", Arr(Texts(o.effects)));
            && Distinct(ms) && HasKey(ms, "id") && HasKey(ms, "op") && HasKey(ms, "effects")
            && Get(Obj(ms), "id") == Str(o.id) && Get(Obj(ms), "op") == Str(o.op)
            && Get(Obj(ms), "effects") == Arr(Texts(o.effects))
            && HasKey(ms, "capabilities") == HasKey(o.raw, "capabilities") && HasKey(ms, "policies") == HasKey(o.raw, "policies")
  {
    var a := SetMember(o.raw, "id", Str(o.id));
    var b := SetMember(a, "op", Str(o.op));
    SetMemberDistinct(o.raw, "id", Str(o.id));
    SetMemberDistinct(a, "op", Str(o.op));
    SetMemberDistinct(b, "effects", Arr(Texts(o.effects)));
    var effects := Arr(Texts(o.effects));
    SetMemberGet(o.raw, "id", Str(o.id), "id");
    SetMemberGet(o.raw, "id", Str(o.id), "capabilities");
    SetMemberGet(o.raw, "id", Str(o.id), "policies");
    SetMemberGet(a, "op", Str(o.op), "id");
    SetMemberGet(a, "op", Str(o.op), "op");
    SetMemberGet(a, "op", Str(o.op), "capabilities");
    SetMemberGet(a, "op", Str(o.op), "policies");
    SetMemberGet(b, "effects", effects, "id");
    SetMemberGet(b, "effects", effects, "op");
    SetMemberGet(b, "effects", effects, "effects");
    SetMemberGet(b, "effects", effects, "capabilities");
    SetMemberGet(b, "effects", effects, "policies");
  }

  lemma {:induction false} PrintedOperationReads(o: OperationAst)
    requires Distinct(o.raw)
    ensures OperationReads(PrintOperation(o), o, o.capabilities != [] || HasKey(o.raw, "capabilities"),
                           o.policies != [] || HasKey(o.raw, "policies"))
  {
    var core := SetMember(SetMember(SetMember(o.raw, "id", Str(o.id)), "op", Str(o.op)), "effects", Arr(Texts(o.effects)));
    CoreReads(o);
    ListsRead(core, o);
  }

  lemma {:induction false} ListsRead(core: seq<Member>, o: OperationAst)
    requires Distinct(core) && HasKey(core, "id") && HasKey(core, "op") && HasKey(core, "effects")
    requires Get(Obj(core), "id") == Str(o.id) && Get(Obj(core), "op") == Str(o.op)
    requires Get(Obj(core), "effects") == Arr(Texts(o.effects))
    ensures OperationReads(PrintList(PrintList(core, "capabilities", o.capabilities), "policies", o.policies), o,
                           o.capabilities != [] || HasKey(core, "capabilities"), o.policies != [] || HasKey(core, "policies"))
  {
    var a := PrintList(core, "capabilities", o.capabilities);
    PrintListGet(core, "capabilities", o.capabilities, "id");
    PrintListGet(core, "capabilities", o.capabilities, "op");
    PrintListGet(core, "capabilities", o.capabilities, "effects");
    PrintListGet(core, "capabilities", o.capabilities, "policies");
    PrintListGet(a, "policies", o.policies, "id");
    PrintListGet(a, "policies", o.policies, "op");
    PrintListGet(a, "policies", o.policies, "effects");
    PrintListGet(a, "policies", o.policies, "capabilities");
  }

  /** An operation that already reads as it should prints to itself. */
  lemma {:induction false} OperationPrintsItself(ms: seq<Member>, o: OperationAst, named: bool, policed: bool)
    requires OperationReads(ms, o, named, policed) && o.raw == ms
    requires (o.capabilities != [] ==> named) && (o.policies != [] ==> policed)
    ensures PrintOperation(o) == ms
  {
    SetMemberFix(ms, "id", Str(o.id));
    SetMemberFix(ms, "op", Str(o.op));
    SetMemberFix(ms, "effects", Arr(Texts(o.effects)));
    if named { SetMemberFix(ms, "capabilities", Arr(Texts(o.capabilities))); }
    if policed { SetMemberFix(ms, "policies", Arr(Texts(o.policies))); }
  }

  lemma {:induction false} PrintListKeys(ms: seq<Member>, key: string, names: seq<string>, fields: set<string>)
    requires key in fields && forall m | m in ms :: m.key in fields
    ensures forall m | m in PrintList(ms, key, names) :: m.key in fields
  {
    forall m | m in SetMember(ms, key, Arr(Texts(names))) ensures m.key in fields { SetMemberKeys(ms, key, Arr(Texts(names)), m); }
  }

  lemma {:induction false} SetKeys(ms: seq<Member>, key: string, x: Json, fields: set<string>)
    requires key in fields && forall m | m in ms :: m.key in fields
    ensures forall m | m in SetMember(ms, key, x) :: m.key in fields
  {
    forall m | m in SetMember(ms, key, x) ensures m.key in fields { SetMemberKeys(ms, key, x, m); }
  }

  lemma {:induction false} PrintedOperationKeys(o: OperationAst)
    requires forall m | m in o.raw :: m.key in OPERATION_FIELDS
    ensures forall m | m in PrintOperation(o) :: m.key in OPERATION_FIELDS
  {
    var a := SetMember(o.raw, "id", Str(o.id));
    var b := SetMember(a, "op", Str(o.op));
    var c := SetMember(b, "effects", Arr(Texts(o.effects)));
    SetKeys(o.raw, "id", Str(o.id), OPERATION_FIELDS);
    SetKeys(a, "op", Str(o.op), OPERATION_FIELDS);
    SetKeys(b, "effects", Arr(Texts(o.effects)), OPERATION_FIELDS);
    PrintListKeys(c, "capabilities", o.capabilities, OPERATION_FIELDS);
    PrintListKeys(PrintList(c, "capabilities", o.capabilities), "policies", o.policies, OPERATION_FIELDS);
  }

  function ReprintedOperation(o: OperationAst): OperationAst { o.(raw := PrintOperation(o)) }

  lemma {:induction false} CleanOperation(item: Json, seen: set<string>, y: Syntax)
    requires item.Obj? && OperationRules(item, seen, y) == []
    ensures forall m | m in item.members :: m.key in OPERATION_FIELDS
    ensures Filled(Get(item, "id"), y) && IdRules(Get(item, "id").s, y) == [] && Get(item, "id").s !in seen
    ensures Filled(Get(item, "op"), y) && IdRules(Get(item, "op").s, y) == []
    ensures IdList(Get(item, "effects"), Effect, true, y).1 == []
    ensures IdList(Get(item, "capabilities"), Capability, false, y).1 == []
    ensures IdList(Get(item, "policies"), Policy, false, y).1 == []
  {
  }

  /** A tree that reads like a clean operation is one. */
  lemma {:induction false} ReadsClean(ms: seq<Member>, o: OperationAst, seen: set<string>, named: bool, policed: bool, y: Syntax)
    requires OperationReads(ms, o, named, policed) && (o.capabilities != [] ==> named) && (o.policies != [] ==> policed)
    requires forall m | m in ms :: m.key in OPERATION_FIELDS
    requires !y.blank(o.id) && IdRules(o.id, y) == [] && o.id !in seen && !y.blank(o.op) && IdRules(o.op, y) == []
    requires IdList(Arr(Texts(o.effects)), Effect, true, y) == (o.effects, [])
    requires IdList(Arr(Texts(o.capabilities)), Capability, false, y) == (o.capabilities, [])
    requires IdList(Arr(Texts(o.policies)), Policy, false, y) == (o.policies, [])
    ensures OperationRules(Obj(ms), seen, y) == [] && OperationOf(Obj(ms), y) == [o.(raw := ms)]
  {
  }

  /** One clean operation, printed and parsed again. */
  lemma {:induction false} OperationRoundTrip(item: Json, seen: set<string>, y: Syntax)
    requires item.Obj? && Distinct(item.members) && OperationRules(item, seen, y) == []
    ensures |OperationOf(item, y)| == 1
    ensures var o := OperationOf(item, y)[0];
            && Get(item, "id") == Str(o.id)
            && OperationRules(Obj(PrintOperation(o)), seen, y) == []
            && OperationOf(Obj(PrintOperation(o)), y) == [ReprintedOperation(o)]
            && PrintOperation(ReprintedOperation(o)) == PrintOperation(o)
            && Get(Obj(PrintOperation(o)), "id") == Str(o.id)
  {
    CleanOperation(item, seen, y);
    var o := OperationOf(item, y)[0];
    CleanIdList(Get(item, "effects"), Effect, true, y);
    CleanIdList(Get(item, "capabilities"), Capability, false, y);
    CleanIdList(Get(item, "policies"), Policy, false, y);
    var named, policed := o.capabilities != [] || HasKey(o.raw, "capabilities"), o.policies != [] || HasKey(o.raw, "policies");
    PrintedOperationReads(o);
    PrintedOperationKeys(o);
    OperationPrintsItself(PrintOperation(o), ReprintedOperation(o), named, policed);
    ReadsClean(PrintOperation(o), o, seen, named, policed, y);
  }

  // ----- all operations -----

  function ReprintedOperations(asts: seq<OperationAst>): (r: seq<OperationAst>)
    ensures |r| == |asts| && forall i | 0 <= i < |asts| :: r[i] == ReprintedOperation(asts[i])
  {
    seq(|asts|, i requires 0 <= i < |asts| => ReprintedOperation(asts[i]))
  }

  ghost predicate DistinctItems(items: seq<Json>) { forall x | x in items && x.Obj? :: Distinct(x.members) }

  lemma {:induction false} SeenStep(items: seq<Json>, x: Json, y: Syntax)
    ensures SeenIds(items + [x], y) == SeenIds(items, y) + (if x.Obj? && Filled(Get(x, "id"), y) then {Get(x, "id").s} else {})
  {
    assert forall z :: z in items + [x] <==> z in items || z == x;
  }

  lemma {:induction false} OperationItemsStep(items: seq<Json>, x: Json, y: Syntax)
    ensures OperationItems(items + [x], y)
         == (OperationItems(items, y).0 + OperationOf(x, y), OperationItems(items, y).1 + OperationRules(x, SeenIds(items, y), y))
  {
    assert (items + [x])[..|items|] == items;
  }

  lemma {:induction false} PrintedOperationsStep(asts: seq<OperationAst>, o: OperationAst)
    ensures PrintedOperations(asts + [o]) == PrintedOperations(asts) + [Obj(PrintOperation(o))]
    ensures ReprintedOperations(asts + [o]) == ReprintedOperations(asts) + [ReprintedOperation(o)]
  {
  }

  /** Clean operations read back from their printed forms, each with its printed tree. */
  ghost predicate OperationsReadBack(items: seq<Json>, asts: seq<OperationAst>, y: Syntax) {
    && |asts| == |items|
    && OperationItems(PrintedOperations(asts), y) == (ReprintedOperations(asts), [])
    && PrintedOperations(ReprintedOperations(asts)) == PrintedOperations(asts)
    && SeenIds(PrintedOperations(asts), y) == SeenIds(items, y)
  }

  lemma {:induction false} CleanItemIsOperation(x: Json, seen: set<string>, y: Syntax)
    requires OperationRules(x, seen, y) == []
    ensures x.Obj?
  {
  }

  lemma {:induction false} OperationsExtend(items: seq<Json>, x: Json, y: Syntax)
    requires OperationsReadBack(items, OperationItems(items, y).0, y)
    requires OperationRules(x, SeenIds(items, y), y) == [] && (x.Obj? ==> Distinct(x.members))
    ensures OperationsReadBack(items + [x], OperationItems(items + [x], y).0, y)
  {
    CleanItemIsOperation(x, SeenIds(items, y), y);
    OperationRoundTrip(x, SeenIds(items, y), y);
    var o := OperationOf(x, y)[0];
    assert OperationOf(x, y) == [o];
    OperationItemsStep(items, x, y);
    OperationAppended(items, x, OperationItems(items, y).0, o, y);
  }

  lemma {:induction false} SplitLast(items: seq<Json>, y: Syntax) returns (front: seq<Json>, last: Json)
    requires items != []
    ensures items == front + [last] && |front| < |items|
    ensures OperationItems(items, y).1 == [] ==> OperationItems(front, y).1 == [] && OperationRules(last, SeenIds(front, y), y) == []
  {
    front, last := items[..|items| - 1], items[|items| - 1];
    OperationItemsStep(front, last, y);
  }

  lemma {:induction false} OperationsRoundTrip(items: seq<Json>, y: Syntax)
    requires OperationItems(items, y).1 == [] && DistinctItems(items)
    ensures OperationsReadBack(items, OperationItems(items, y).0, y)
    decreases |items|
  {
    if items == [] {
      NoOperations(y);
    } else {
      var front, last := SplitLast(items, y);
      FrontDistinct(front, last);
      OperationsRoundTrip(front, y);
      OperationsExtend(front, last, y);
    }
  }

  lemma {:induction false} FrontDistinct(front: seq<Json>, last: Json)
    requires DistinctItems(front + [last])
    ensures DistinctItems(front) && (last.Obj? ==> Distinct(last.members))
  {
    assert forall x | x in front :: x in front + [last];
    assert last in front + [last];
  }

  lemma {:induction false} NoOperations(y: Syntax)
    ensures OperationsReadBack([], OperationItems([], y).0, y)
  {
    assert PrintedOperations([]) == [] && ReprintedOperations([]) == [];
  }

  lemma {:induction false} OperationAppended(items: seq<Json>, x: Json, asts: seq<OperationAst>, o: OperationAst, y: Syntax)
    requires x.Obj? && Get(x, "id") == Str(o.id) && Get(Obj(PrintOperation(o)), "id") == Str(o.id)
    requires OperationsReadBack(items, asts, y)
    requires OperationRules(Obj(PrintOperation(o)), SeenIds(items, y), y) == []
    requires OperationOf(Obj(PrintOperation(o)), y) == [ReprintedOperation(o)]
    requires PrintOperation(ReprintedOperation(o)) == PrintOperation(o)
    ensures OperationsReadBack(items + [x], asts + [o], y)
  {
    var printed := Obj(PrintOperation(o));
    PrintedOperationsStep(asts, o);
    PrintedOperationsStep(ReprintedOperations(asts), ReprintedOperation(o));
    OperationItemsStep(PrintedOperations(asts), printed, y);
    SeenStep(items, x, y);
    SeenStep(PrintedOperations(asts), printed, y);
  }

  lemma {:induction false} OperationSection(v: Json, y: Syntax)
    requires Operations(v, y).1 == [] && v.Arr? && DistinctItems(v.items)
    ensures var asts := Operations(v, y).0;
            && Operations(Arr(PrintedOperations(asts)), y) == (ReprintedOperations(asts), [])
            && PrintedOperations(ReprintedOperations(asts)) == PrintedOperations(asts)
  {
    OperationsRoundTrip(v.items, y);
  }

  // ----- claims -----

  lemma {:induction false} PrintIdReads(ms: seq<Member>, id: Option<string>, k: string)
    requires Distinct(ms)
    ensures Distinct(PrintId(ms, id))
    ensures k != "id" ==> Get(Obj(PrintId(ms, id)), k) == Get(Obj(ms), k) && (HasKey(PrintId(ms, id), k) <==> HasKey(ms, k))
    ensures id.Some? ==> Get(Obj(PrintId(ms, id)), "id") == Str(id.value) && HasKey(PrintId(ms, id), "id")
  {
    if id.Some? {
      SetMemberDistinct(ms, "id", Str(id.value));
      SetMemberGet(ms, "id", Str(id.value), k);
      SetMemberGet(ms, "id", Str(id.value), "id");
    }
  }

  function ReprintedClaim(c: ClaimAst): ClaimAst { c.(raw := PrintClaim(c)) }

  ghost predicate ClaimReads(ms: seq<Member>, c: ClaimAst, cited: bool) {
    && Distinct(ms)
    && Get(Obj(ms), "id") == (if c.id.Some? then Str(c.id.value) else Get(Obj(c.raw), "id"))
    && (c.id.Some? ==> HasKey(ms, "id"))
    && HasKey(ms, "status") && Get(Obj(ms), "status") == Str(c.status)
    && HasKey(ms, "evidence") == cited
    && Get(Obj(ms), "evidence") == (if cited then Arr(c.evidence) else Null)
  }

  lemma {:induction false} PrintedClaimReads(c: ClaimAst)
    requires Distinct(c.raw)
    ensures ClaimReads(PrintClaim(c), c, c.evidence != [] || HasKey(c.raw, "evidence"))
  {
    var a := PrintId(c.raw, c.id);
    var b := SetMember(a, "status", Str(c.status));
    PrintIdReads(c.raw, c.id, "evidence");
    PrintIdReads(c.raw, c.id, "status");
    SetMemberDistinct(a, "status", Str(c.status));
    SetMemberGet(a, "status", Str(c.status), "id");
    SetMemberGet(a, "status", Str(c.status), "status");
    SetMemberGet(a, "status", Str(c.status), "evidence");
    SetMemberDistinct(b, "evidence", Arr(c.evidence));
    SetMemberGet(b, "evidence", Arr(c.evidence), "id");
    SetMemberGet(b, "evidence", Arr(c.evidence), "status");
    SetMemberGet(b, "evidence", Arr(c.evidence), "evidence");
  }

  lemma {:induction false} ClaimPrintsItself(ms: seq<Member>, c: ClaimAst, cited: bool)
    requires ClaimReads(ms, c.(raw := ms), cited) && c.raw == ms && (c.evidence != [] ==> cited)
    ensures PrintClaim(c) == ms
  {
    if c.id.Some? { SetMemberFix(ms, "id", Str(c.id.value)); }
    SetMemberFix(ms, "status", Str(c.status));
    if cited { SetMemberFix(ms, "evidence", Arr(c.evidence)); }
  }

  lemma {:induction false} PrintedClaimKeys(c: ClaimAst)
    requires forall m | m in c.raw :: m.key in CLAIM_FIELDS
    ensures forall m | m in PrintClaim(c) :: m.key in CLAIM_FIELDS
  {
    var a := PrintId(c.raw, c.id);
    if c.id.Some? { SetKeys(c.raw, "id", Str(c.id.value), CLAIM_FIELDS); }
    SetKeys(a, "status", Str(c.status), CLAIM_FIELDS);
    SetKeys(SetMember(a, "status", Str(c.status)), "evidence", Arr(c.evidence), CLAIM_FIELDS);
  }

  lemma {:induction false} ReferencesStep(items: seq<Json>, x: Json, y: Syntax)
    ensures References(items + [x], y)
         == (References(items, y).0 + (if x.Obj? then [x] else []), References(items, y).1 + ReferenceRules(x, y))
  {
    assert (items + [x])[..|items|] == items;
  }

  lemma {:induction false} CleanReferences(items: seq<Json>, y: Syntax)
    requires References(items, y).1 == []
    ensures References(items, y).0 == items
  {
    if items != [] {
      var n := |items| - 1;
      assert items == items[..n] + [items[n]];
      ReferencesStep(items[..n], items[n], y);
      CleanReferences(items[..n], y);
    }
  }

  lemma {:induction false} CleanCitation(v: Json, y: Syntax)
    requires ClaimEvidence(v, y).1 == []
    ensures ClaimEvidence(Arr(ClaimEvidence(v, y).0), y) == (ClaimEvidence(v, y).0, [])
  {
    if v.Arr? { CleanReferences(v.items, y); }
  }

  lemma {:induction false} CleanClaim(item: Json, y: Syntax)
    requires item.Obj? && ClaimRules(item, y) == []
    ensures forall m | m in item.members :: m.key in CLAIM_FIELDS
    ensures OptionalIdRules(item, y) == [] && StatusRules(item) == [] && ClaimEvidence(Get(item, "evidence"), y).1 == []
  {
  }

  /** A clean optional id is absent, null, or a string kept as it is. */
  lemma {:induction false} CleanId(item: Json, y: Syntax)
    requires item.Obj? && OptionalIdRules(item, y) == []
    ensures OptionalId(item, y).None? ==> Get(item, "id").Null?
    ensures OptionalId(item, y).Some? ==> Get(item, "id") == Str(OptionalId(item, y).value)
  {
  }

  lemma {:induction false} SameIdSameRules(a: Json, b: Json, y: Syntax)
    requires a.Obj? && b.Obj? && Get(a, "id") == Get(b, "id")
    ensures OptionalId(a, y) == OptionalId(b, y) && OptionalIdRules(a, y) == OptionalIdRules(b, y)
  {
  }

  lemma {:induction false} StatusReads(item: Json, status: string)
    requires item.Obj? && Has(item, "status") && Get(item, "status") == Str(status) && status in CLAIM_STATUSES
    ensures StatusOf(item) == status && StatusRules(item) == []
  {
  }

  /** A tree that reads like a clean claim is one. */
  lemma {:induction false} ReadsLikeClaim(ms: seq<Member>, c: ClaimAst, cited: bool, y: Syntax)
    requires ClaimReads(ms, c, cited) && (c.evidence != [] ==> cited) && c.status in CLAIM_STATUSES
    requires forall m | m in ms :: m.key in CLAIM_FIELDS
    requires OptionalIdRules(Obj(ms), y) == [] && OptionalId(Obj(ms), y) == c.id
    requires ClaimEvidence(Arr(c.evidence), y) == (c.evidence, [])
    ensures ClaimRules(Obj(ms), y) == [] && ClaimOf(Obj(ms), y) == c.(raw := ms)
  {
    StatusReads(Obj(ms), c.status);
  }

  lemma {:induction false} ClaimRoundTrip(item: Json, y: Syntax)
    requires item.Obj? && Distinct(item.members) && ClaimRules(item, y) == []
    ensures var c := ClaimOf(item, y);
            && ClaimRules(Obj(PrintClaim(c)), y) == []
            && ClaimOf(Obj(PrintClaim(c)), y) == ReprintedClaim(c)
            && PrintClaim(ReprintedClaim(c)) == PrintClaim(c)
  {
    CleanClaim(item, y);
    CleanId(item, y);
    CleanCitation(Get(item, "evidence"), y);
    PrintedClaimIsClean(item, ClaimOf(item, y), y);
  }

  lemma {:induction false} PrintedClaimIsClean(item: Json, c: ClaimAst, y: Syntax)
    requires item.Obj? && c.raw == item.members && Distinct(c.raw) && forall m | m in c.raw :: m.key in CLAIM_FIELDS
    requires c.id == OptionalId(item, y) && OptionalIdRules(item, y) == []
    requires if c.id.Some? then Get(item, "id") == Str(c.id.value) else Get(item, "id").Null?
    requires c.status in CLAIM_STATUSES && ClaimEvidence(Arr(c.evidence), y) == (c.evidence, [])
    ensures ClaimRules(Obj(PrintClaim(c)), y) == []
    ensures ClaimOf(Obj(PrintClaim(c)), y) == ReprintedClaim(c)
    ensures PrintClaim(ReprintedClaim(c)) == PrintClaim(c)
  {
    var printed := PrintClaim(c);
    var cited := c.evidence != [] || HasKey(c.raw, "evidence");
    PrintedClaimReads(c);
    PrintedClaimKeys(c);
    SameIdSameRules(item, Obj(printed), y);
    ReadsLikeClaim(printed, c, cited, y);
    ClaimPrintsItself(printed, ReprintedClaim(c), cited);
  }
}
