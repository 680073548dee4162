/** The claim, evidence, policy and hole sections read back from their printed forms. */
module DraftSections {
  import opened Text
  import opened JsonTree
  import opened Dictionaries
  import opened DraftSyntax
  import opened DraftRoundTrip

  ghost predicate Objects(items: seq<Json>) { forall x | x in items :: x.Obj? }

  ghost predicate GoodItems(items: seq<Json>) { forall x | x in items :: x.Obj? && Distinct(x.members) }

  lemma {:induction false} FrontGood(front: seq<Json>, last: Json)
    requires GoodItems(front + [last])
    ensures GoodItems(front) && last.Obj? && Distinct(last.members)
  {
    assert forall x | x in front :: x in front + [last];
    assert last in front + [last];
  }

  lemma {:induction false} SplitGood(items: seq<Json>) returns (front: seq<Json>, last: Json)
    requires items != [] && GoodItems(items)
    ensures items == front + [last] && |front| < |items| && GoodItems(front) && Objects(front) && last.Obj? && Distinct(last.members)
  {
    front, last := items[..|items| - 1], items[|items| - 1];
    assert items == front + [last];
    FrontGood(front, last);
  }

  // ----- object lists -----

  lemma {:induction false} ObjectItemsStep(items: seq<Json>, x: Json, section: Section)
    ensures ObjectItems(items + [x], section)
         == (ObjectItems(items, section).0 + (if x.Obj? then [x] else []),
             ObjectItems(items, section).1 + When(!x.Obj?, SectionItemNotObject(section)))
  {
    assert (items + [x])[..|items|] == items;
  }

  lemma {:induction false} CleanObjects(items: seq<Json>, section: Section)
    requires ObjectItems(items, section).1 == []
    ensures Objects(items)
    decreases |items|
  {
    if items != [] {
      var front, last := items[..|items| - 1], items[|items| - 1];
      assert items == front + [last];
      ObjectItemsStep(front, last, section);
      CleanObjects(front, section);
    }
  }

  lemma {:induction false} ObjectsAreKept(items: seq<Json>, section: Section)
    requires Objects(items)
    ensures ObjectItems(items, section) == (items, [])
    decreases |items|
  {
    if items != [] {
      var front, last := items[..|items| - 1], items[|items| - 1];
      assert items == front + [last];
      assert forall x | x in front :: x in items;
      assert last in items;
      ObjectItemsStep(front, last, section);
      ObjectsAreKept(front, section);
      assert last.Obj?;
      assert ObjectItems(items, section).0 == front + [last] && ObjectItems(items, section).1 == [];
    }
  }

  lemma {:induction false} CleanList(v: Json, section: Section)
    requires ObjectList(v, section).1 == []
    ensures v.Null? || (v.Arr? && ObjectList(v, section).0 == v.items && Objects(v.items))
    ensures v.Null? ==> ObjectList(v, section).0 == []
  {
    if v.Arr? {
      CleanObjects(v.items, section);
      ObjectsAreKept(v.items, section);
    }
  }

  lemma {:induction false} ListOfObjects(items: seq<Json>, section: Section)
    requires Objects(items)
    ensures ObjectList(Arr(items), section) == (items, [])
  {
    ObjectsAreKept(items, section);
  }

  // ----- claims -----

  function ReprintedClaims(asts: seq<ClaimAst>): (r: seq<ClaimAst>)
    ensures |r| == |asts| && forall i | 0 <= i < |asts| :: r[i] == ReprintedClaim(asts[i])
  {
    seq(|asts|, i requires 0 <= i < |asts| => ReprintedClaim(asts[i]))
  }

  ghost predicate ClaimsReadBack(asts: seq<ClaimAst>, y: Syntax) {
    && Objects(PrintedClaims(asts))
    && ClaimItems(PrintedClaims(asts), y) == (ReprintedClaims(asts), [])
    && PrintedClaims(ReprintedClaims(asts)) == PrintedClaims(asts)
  }

  lemma {:induction false} ClaimItemsStep(items: seq<Json>, x: Json, y: Syntax)
    requires Objects(items) && x.Obj?
    ensures Objects(items + [x])
    ensures ClaimItems(items + [x], y) == (ClaimItems(items, y).0 + [ClaimOf(x, y)], ClaimItems(items, y).1 + ClaimRules(x, y))
  {
    assert (items + [x])[..|items|] == items;
  }

  lemma {:induction false} PrintedClaimsStep(asts: seq<ClaimAst>, c: ClaimAst)
    ensures PrintedClaims(asts + [c]) == PrintedClaims(asts) + [Obj(PrintClaim(c))]
    ensures ReprintedClaims(asts + [c]) == ReprintedClaims(asts) + [ReprintedClaim(c)]
  {
  }

  lemma {:induction false} ClaimAppended(asts: seq<ClaimAst>, c: ClaimAst, y: Syntax)
    requires ClaimsReadBack(asts, y)
    requires ClaimRules(Obj(PrintClaim(c)), y) == [] && ClaimOf(Obj(PrintClaim(c)), y) == ReprintedClaim(c)
    requires PrintClaim(ReprintedClaim(c)) == PrintClaim(c)
    ensures ClaimsReadBack(asts + [c], y)
  {
    PrintedClaimsStep(asts, c);
    PrintedClaimsStep(ReprintedClaims(asts), ReprintedClaim(c));
    ClaimItemsStep(PrintedClaims(asts), Obj(PrintClaim(c)), y);
  }

  lemma {:induction false} NoClaims(y: Syntax)
    ensures ClaimsReadBack(ClaimItems([], y).0, y)
  {
    assert PrintedClaims([]) == [] && ReprintedClaims([]) == [];
  }

  lemma {:induction false} ClaimsExtend(items: seq<Json>, x: Json, y: Syntax)
    requires Objects(items) && x.Obj? && Distinct(x.members)
    requires ClaimItems(items + [x], y).1 == [] && ClaimsReadBack(ClaimItems(items, y).0, y)
    ensures ClaimsReadBack(ClaimItems(items + [x], y).0, y)
  {
    ClaimItemsStep(items, x, y);
    ClaimRoundTrip(x, y);
    ClaimAppended(ClaimItems(items, y).0, ClaimOf(x, y), y);
  }

  lemma {:induction false} FrontClaimsClean(front: seq<Json>, last: Json, y: Syntax)
    requires Objects(front) && last.Obj? && Objects(front + [last]) && ClaimItems(front + [last], y).1 == []
    ensures ClaimItems(front, y).1 == []
  {
    ClaimItemsStep(front, last, y);
    NothingJoined(ClaimItems(front, y).1, ClaimRules(last, y));
  }

  lemma {:induction false} ClaimsRoundTrip(items: seq<Json>, y: Syntax)
    requires GoodItems(items) && ClaimItems(items, y).1 == []
    ensures ClaimsReadBack(ClaimItems(items, y).0, y)
    decreases |items|
  {
    if items == [] {
      NoClaims(y);
    } else {
      var front, last := SplitGood(items);
      FrontClaimsClean(front, last, y);
      ClaimsRoundTrip(front, y);
      ClaimsExtend(front, last, y);
    }
  }

  lemma {:induction false} ClaimSection(v: Json, y: Syntax)
    requires Claims(v, y).1 == [] && (v.Arr? && Objects(v.items) ==> GoodItems(v.items))
    ensures var asts := Claims(v, y).0;
            && Claims(if asts == [] then Null else Arr(PrintedClaims(asts)), y) == (ReprintedClaims(asts), [])
            && PrintedClaims(ReprintedClaims(asts)) == PrintedClaims(asts)
  {
    CleanList(v, ClaimsSection);
    if v.Arr? {
      ClaimsRoundTrip(v.items, y);
      ListOfObjects(PrintedClaims(ClaimItems(v.items, y).0), ClaimsSection);
    }
  }

  // ----- holes -----

  function ReprintedHole(h: HoleAst): HoleAst { h.(raw := PrintHole(h)) }

  function ReprintedHoles(asts: seq<HoleAst>): (r: seq<HoleAst>)
    ensures |r| == |asts| && forall i | 0 <= i < |asts| :: r[i] == ReprintedHole(asts[i])
  {
    seq(|asts|, i requires 0 <= i < |asts| => ReprintedHole(asts[i]))
  }

  lemma {:induction false} PrintedHole(item: Json, h: HoleAst, y: Syntax)
    requires item.Obj? && Distinct(item.members) && HoleRules(item, y) == [] && h == HoleOf(item, y)
    ensures var printed := PrintHole(h);
            && Distinct(printed) && (forall m | m in printed :: m.key in HOLE_FIELDS)
            && Get(Obj(printed), "id") == Get(item, "id")
            && Has(Obj(printed), "resolved") && Get(Obj(printed), "resolved") == Bool(h.resolved)
  {
    var a := PrintId(h.raw, h.id);
    CleanId(item, y);
    PrintIdReads(h.raw, h.id, "resolved");
    SetMemberDistinct(a, "resolved", Bool(h.resolved));
    SetMemberGet(a, "resolved", Bool(h.resolved), "id");
    SetMemberGet(a, "resolved", Bool(h.resolved), "resolved");
    if h.id.Some? { SetKeys(h.raw, "id", Str(h.id.value), HOLE_FIELDS); }
    SetKeys(a, "resolved", Bool(h.resolved), HOLE_FIELDS);
  }

  /** A tree that shows the hole's id and outcome reads as that hole. */
  lemma {:induction false} ShownHoleReads(item: Json, h: HoleAst, printed: seq<Member>, y: Syntax)
    requires item.Obj? && HoleRules(item, y) == [] && h == HoleOf(item, y)
    requires (forall m | m in printed :: m.key in HOLE_FIELDS) && Get(Obj(printed), "id") == Get(item, "id")
    requires Has(Obj(printed), "resolved") && Get(Obj(printed), "resolved") == Bool(h.resolved)
    ensures HoleRules(Obj(printed), y) == [] && HoleOf(Obj(printed), y) == h.(raw := printed)
  {
    CleanId(item, y);
    SameIdSameRules(item, Obj(printed), y);
  }

  lemma {:induction false} HolePrintsAgain(h: HoleAst, printed: seq<Member>)
    requires Distinct(printed) && Has(Obj(printed), "resolved") && Get(Obj(printed), "resolved") == Bool(h.resolved)
    requires h.id.Some? ==> Has(Obj(printed), "id") && Get(Obj(printed), "id") == Str(h.id.value)
    ensures PrintHole(h.(raw := printed)) == printed
  {
    if h.id.Some? { SetMemberFix(printed, "id", Str(h.id.value)); }
    SetMemberFix(printed, "resolved", Bool(h.resolved));
  }

  lemma {:induction false} HoleRoundTrip(item: Json, y: Syntax)
    requires item.Obj? && Distinct(item.members) && HoleRules(item, y) == []
    ensures var h := HoleOf(item, y);
            && HoleRules(Obj(PrintHole(h)), y) == []
            && HoleOf(Obj(PrintHole(h)), y) == ReprintedHole(h)
            && PrintHole(ReprintedHole(h)) == PrintHole(h)
  {
    var h := HoleOf(item, y);
    PrintedHole(item, h, y);
    ShownHoleReads(item, h, PrintHole(h), y);
    CleanId(item, y);
    HolePrintsAgain(h, PrintHole(h));
  }

  ghost predicate HolesReadBack(asts: seq<HoleAst>, y: Syntax) {
    && Objects(PrintedHoles(asts))
    && HoleItems(PrintedHoles(asts), y) == (ReprintedHoles(asts), [])
    && PrintedHoles(ReprintedHoles(asts)) == PrintedHoles(asts)
  }

  lemma {:induction false} HoleItemsStep(items: seq<Json>, x: Json, y: Syntax)
    requires Objects(items) && x.Obj?
    ensures Objects(items + [x])
    ensures HoleItems(items + [x], y) == (HoleItems(items, y).0 + [HoleOf(x, y)], HoleItems(items, y).1 + HoleRules(x, y))
  {
    assert (items + [x])[..|items|] == items;
  }

  lemma {:induction false} PrintedHolesStep(asts: seq<HoleAst>, h: HoleAst)
    ensures PrintedHoles(asts + [h]) == PrintedHoles(asts) + [Obj(PrintHole(h))]
    ensures ReprintedHoles(asts + [h]) == ReprintedHoles(asts) + [ReprintedHole(h)]
  {
  }

  lemma {:induction false} HolesExtend(items: seq<Json>, x: Json, y: Syntax)
    requires Objects(items) && x.Obj? && Distinct(x.members)
    requires HoleItems(items + [x], y).1 == [] && HolesReadBack(HoleItems(items, y).0, y)
    ensures HolesReadBack(HoleItems(items + [x], y).0, y)
  {
    var asts, h := HoleItems(items, y).0, HoleOf(x, y);
    HoleItemsStep(items, x, y);
    HoleRoundTrip(x, y);
    PrintedHolesStep(asts, h);
    PrintedHolesStep(ReprintedHoles(asts), ReprintedHole(h));
    HoleItemsStep(PrintedHoles(asts), Obj(PrintHole(h)), y);
  }

  lemma {:induction false} NoHoles(y: Syntax)
    ensures HolesReadBack(HoleItems([], y).0, y)
  {
    assert PrintedHoles([]) == [] && ReprintedHoles([]) == [];
  }

  lemma {:induction false} FrontHolesClean(front: seq<Json>, last: Json, y: Syntax)
    requires Objects(front) && last.Obj? && Objects(front + [last]) && HoleItems(front + [last], y).1 == []
    ensures HoleItems(front, y).1 == []
  {
    HoleItemsStep(front, last, y);
    NothingJoined(HoleItems(front, y).1, HoleRules(last, y));
  }

  lemma {:induction false} HolesRoundTrip(items: seq<Json>, y: Syntax)
    requires GoodItems(items) && HoleItems(items, y).1 == []
    ensures HolesReadBack(HoleItems(items, y).0, y)
    decreases |items|
  {
    if items == [] {
      NoHoles(y);
    } else {
      var front, last := SplitGood(items);
      FrontHolesClean(front, last, y);
      HolesRoundTrip(front, y);
      HolesExtend(front, last, y);
    }
  }

  lemma {:induction false} HoleSection(v: Json, y: Syntax)
    requires Holes(v, y).1 == [] && (v.Arr? && Objects(v.items) ==> GoodItems(v.items))
    ensures var asts := Holes(v, y).0;
            && Holes(if asts == [] then Null else Arr(PrintedHoles(asts)), y) == (ReprintedHoles(asts), [])
            && PrintedHoles(ReprintedHoles(asts)) == PrintedHoles(asts)
  {
    CleanList(v, HolesSection);
    if v.Arr? {
      HolesRoundTrip(v.items, y);
      ListOfObjects(PrintedHoles(HoleItems(v.items, y).0), HolesSection);
    }
  }

  // ----- evidence and policies print as they came -----

  lemma {:induction false} EvidencePrintsItems(items: seq<Json>, y: Syntax)
    requires Objects(items)
    ensures PrintedEvidence(EvidenceItems(items, y).0) == items
    decreases |items|
  {
    if items != [] {
      var front, last := items[..|items| - 1], items[|items| - 1];
      assert items == front + [last];
      EvidencePrintsItems(front, y);
      assert PrintedEvidence(EvidenceItems(front, y).0 + [EvidenceOf(last, y)]) == PrintedEvidence(EvidenceItems(front, y).0) + [last];
    }
  }

  lemma {:induction false} EvidenceSectionReadsBack(v: Json, y: Syntax)
    requires Evidence(v, y).1 == []
    ensures var asts := Evidence(v, y).0;
            Evidence(if asts == [] then Null else Arr(PrintedEvidence(asts)), y) == (asts, [])
  {
    CleanList(v, EvidenceSection);
    if v.Arr? {
      EvidencePrintsItems(v.items, y);
      ListOfObjects(v.items, EvidenceSection);
    }
  }

  lemma {:induction false} PoliciesPrintItems(items: seq<Json>, y: Syntax)
    requires Objects(items)
    ensures PrintedPolicies(PolicyItems(items, y).0) == items
    decreases |items|
  {
    if items != [] {
      var front, last := items[..|items| - 1], items[|items| - 1];
      assert items == front + [last];
      PoliciesPrintItems(front, y);
      assert PrintedPolicies(PolicyItems(front, y).0 + [PolicyOf(last, y)]) == PrintedPolicies(PolicyItems(front, y).0) + [last];
    }
  }

  lemma {:induction false} PolicySectionReadsBack(v: Json, y: Syntax)
    requires Policies(v, y).1 == []
    ensures var asts := Policies(v, y).0;
            Policies(if asts == [] then Null else Arr(PrintedPolicies(asts)), y) == (asts, [])
  {
    CleanList(v, PoliciesSection);
    if v.Arr? {
      PoliciesPrintItems(v.items, y);
      ListOfObjects(v.items, PoliciesSection);
    }
  }
}
