/** src/ainir/evidence_ledger.py: evidence is believed only through a ledger record, and
    a draft is warranted only when every claim is. */
module EvidenceLedger {
  import opened Text
  import opened JsonTree
  import opened JsonSchema

  const SELF_ATTEST_FIELDS := {
    "checked", "status", "reliability", "source", "source_ref", "producer", "producer_kind",
    "generated_by", "checked_by", "report_ref", "artifact_ref", "supports", "supports_claims",
    "claim_statement_sha256"}

  /** What a decision takes from outside the ledger: the registry's two lists, Python's
      `float` and `str`, SHA-256 of a text, and whether a record's artifact is the
      current draft, and which characters are blank. */
  datatype World = World(
    allowedKinds: seq<Json>,
    trustedProducers: seq<Json>,
    number: Json -> Option<real>,
    show: Json -> string,
    sha: string -> string,
    bound: Json -> bool,
    blank: char -> bool)

  datatype Reason =
    | LedgerBound | MissingId | SelfAttested(fields: seq<string>) | UnknownId | KindMismatch
    | KindNotAllowed | NotChecked | UntrustedProducer | LowReliability | BadMinimum
    | WrongModule | WrongWorkflow | WrongClaim | StatementMismatch | ArtifactNotBound

  datatype Decision = Decision(checked: bool, reason: Reason)

  function Deny(reason: Reason): Decision { Decision(false, reason) }

  // ----- the table of records -----

  function RecordTable(records: seq<Json>): map<string, Json> {
    if records == [] then map[]
    else
      var n := |records| - 1;
      var id := Get(records[n], "id");
      if id.Str? then RecordTable(records[..n])[id.s := records[n]] else RecordTable(records[..n])
  }

  // ----- one decision -----

  function SelfAttestedKeys(ev: Json): seq<string>
    requires ev.Obj?
  {
    SelfAttestedIn(ev.members)
  }

  function SelfAttestedIn(ms: seq<Member>): (r: seq<string>)
    ensures forall k :: k in r <==> k in SELF_ATTEST_FIELDS && HasKey(ms, k)
  {
    if ms == [] then []
    else
      var rest := SelfAttestedIn(ms[1..]);
      assert forall k :: HasKey(ms, k) <==> k == ms[0].key || HasKey(ms[1..], k) by { HasKeySplit(ms); }
      if ms[0].key in SELF_ATTEST_FIELDS then [ms[0].key] + rest else rest
  }

  lemma {:induction false} HasKeySplit(ms: seq<Member>)
    requires ms != []
    ensures forall k :: HasKey(ms, k) <==> k == ms[0].key || HasKey(ms[1..], k)
  {
    forall k ensures HasKey(ms, k) <==> k == ms[0].key || HasKey(ms[1..], k) {
      if HasKey(ms, k) {
        var i :| 0 <= i < |ms| && ms[i].key == k;
        if i > 0 { assert ms[1..][i - 1].key == k; }
      }
      if HasKey(ms[1..], k) {
        var i :| 0 <= i < |ms[1..]| && ms[1..][i].key == k;
        assert ms[i + 1].key == k;
      }
    }
  }

  /** Python's `claim_id in supported_claims`. */
  predicate Supports(supported: Json, claimId: Json) {
    match supported
    case Arr(items) => In(claimId, items)
    case Obj(ms) => claimId.Str? && HasKey(ms, claimId.s)
    case Str(s) => claimId.Str? && exists i | 0 <= i <= |s| :: StartsWith(s[i..], claimId.s)
    case _ => false
  }

  predicate Blank(s: string, w: World) { forall c | c in s :: w.blank(c) }

  function Reliability(rec: Json, w: World): real {
    match w.number(GetOr(rec, "reliability", Int(0)))
    case Some(r) => r
    case None => 0.0
  }

  function MinReliability(rec: Json, w: World): Option<real> {
    if Has(rec, "min_reliability") then w.number(Get(rec, "min_reliability")) else Some(0.8)
  }

  /** The context of a reference: the claim it is attached to, and the draft around it. */
  datatype Place = Place(claim: Json, moduleId: string, workflow: string)

  predicate OptionallyIs(v: Json, s: string) { Truthy(v) ==> v == Str(s) }

  predicate StatementFits(rec: Json, p: Place, w: World) {
    var expected := Get(rec, "claim_statement_sha256");
    Truthy(expected) ==> expected == Str(w.sha(w.show(GetOr(p.claim, "statement", Str("")))))
  }

  predicate ArtifactFits(rec: Json, w: World) {
    Truthy(Get(rec, "artifact_ref")) && Truthy(Get(rec, "artifact_sha256")) ==> w.bound(rec)
  }

  /** The early returns about the record a reference resolves to. */
  function DecideRecord(rec: Json, ev: Json, p: Place, w: World): Decision {
    var kind := Get(ev, "kind");
    if !kind.Null? && !PyEq(kind, Get(rec, "kind")) then Deny(KindMismatch)
    else if !In(Get(rec, "kind"), w.allowedKinds) then Deny(KindNotAllowed)
    else if Get(rec, "status") != Str("checked") then Deny(NotChecked)
    else if !In(Get(rec, "producer_kind"), w.trustedProducers) then Deny(UntrustedProducer)
    else if MinReliability(rec, w).None? then Deny(BadMinimum)
    else if Reliability(rec, w) < MinReliability(rec, w).value then Deny(LowReliability)
    else if !OptionallyIs(Get(rec, "supports_module"), p.moduleId) then Deny(WrongModule)
    else if !OptionallyIs(Get(rec, "supports_workflow"), p.workflow) then Deny(WrongWorkflow)
    else if Truthy(Get(rec, "supports_claims")) && !Supports(Get(rec, "supports_claims"), Get(p.claim, "id")) then Deny(WrongClaim)
    else if !StatementFits(rec, p, w) then Deny(StatementMismatch)
    else if !ArtifactFits(rec, w) then Deny(ArtifactNotBound)
    else Decision(true, LedgerBound)
  }

  function Decide(records: map<string, Json>, ev: Json, p: Place, w: World): Decision
    requires ev.Obj?
  {
    var id := Get(ev, "id");
    if !id.Str? || Blank(id.s, w) then Deny(MissingId)
    else if SelfAttestedKeys(ev) != [] then Deny(SelfAttested(SelfAttestedKeys(ev)))
    else if id.s !in records then Deny(UnknownId)
    else DecideRecord(records[id.s], ev, p, w)
  }

  /** What a record must be for a reference of this kind at this place. */
  predicate Vouches(rec: Json, kind: Json, p: Place, w: World) {
    && (kind.Null? || PyEq(kind, Get(rec, "kind")))
    && In(Get(rec, "kind"), w.allowedKinds)
    && Get(rec, "status") == Str("checked")
    && In(Get(rec, "producer_kind"), w.trustedProducers)
    && MinReliability(rec, w).Some? && MinReliability(rec, w).value <= Reliability(rec, w)
    && OptionallyIs(Get(rec, "supports_module"), p.moduleId)
    && OptionallyIs(Get(rec, "supports_workflow"), p.workflow)
    && (Truthy(Get(rec, "supports_claims")) ==> Supports(Get(rec, "supports_claims"), Get(p.claim, "id")))
    && StatementFits(rec, p, w)
    && ArtifactFits(rec, w)
  }

  /** The ledger's entry for an id: the last record that bears it. */
  ghost predicate IsEntry(records: seq<Json>, id: string, i: nat) {
    && i < |records| && Get(records[i], "id") == Str(id)
    && forall j | i < j < |records| :: Get(records[j], "id") != Str(id)
  }

  lemma {:induction false} TableExact(records: seq<Json>, id: string, i: nat)
    requires IsEntry(records, id, i)
    ensures id in RecordTable(records) && RecordTable(records)[id] == records[i]
  {
    var n := |records| - 1;
    if i < n {
      assert IsEntry(records[..n], id, i);
      TableExact(records[..n], id, i);
      assert Get(records[n], "id") != Str(id);
    }
  }

  lemma {:induction false} TableEntry(records: seq<Json>, id: string) returns (i: nat)
    requires id in RecordTable(records)
    ensures IsEntry(records, id, i)
  {
    var n := |records| - 1;
    if Get(records[n], "id") == Str(id) {
      i := n;
    } else {
      i := TableEntry(records[..n], id);
    }
  }

  /** The last record of this id vouches for the reference. */
  ghost predicate Vouched(records: seq<Json>, id: string, kind: Json, p: Place, w: World) {
    exists i: nat | i < |records| :: IsEntry(records, id, i) && Vouches(records[i], kind, p, w)
  }

  lemma {:induction false} VouchedExactly(records: seq<Json>, id: string, kind: Json, p: Place, w: World)
    ensures Vouched(records, id, kind, p, w) <==> id in RecordTable(records) && Vouches(RecordTable(records)[id], kind, p, w)
  {
    if i: nat :| i < |records| && IsEntry(records, id, i) && Vouches(records[i], kind, p, w) {
      TableExact(records, id, i);
    }
    if id in RecordTable(records) {
      var i := TableEntry(records, id);
      TableExact(records, id, i);
    }
  }

  /** A reference is believed exactly when it carries a usable id, attests nothing
      itself, and the last ledger record of that id vouches for it here. */
  lemma {:induction false} BelievedExactly(records: seq<Json>, ev: Json, p: Place, w: World)
    requires ev.Obj?
    ensures Decide(RecordTable(records), ev, p, w).checked <==>
            && Get(ev, "id").Str? && !Blank(Get(ev, "id").s, w)
            && (forall k | k in SELF_ATTEST_FIELDS :: !HasKey(ev.members, k))
            && Vouched(records, Get(ev, "id").s, Get(ev, "kind"), p, w)
  {
    var id := Get(ev, "id");
    NothingAttested(ev);
    if id.Str? {
      VouchedExactly(records, id.s, Get(ev, "kind"), p, w);
      if id.s in RecordTable(records) { RecordDecision(RecordTable(records)[id.s], ev, p, w); }
    }
  }

  lemma {:induction false} NothingAttested(ev: Json)
    requires ev.Obj?
    ensures SelfAttestedKeys(ev) == [] <==> forall k | k in SELF_ATTEST_FIELDS :: !HasKey(ev.members, k)
  {
    if SelfAttestedKeys(ev) != [] { assert SelfAttestedKeys(ev)[0] in SelfAttestedKeys(ev); }
  }

  lemma {:induction false} RecordDecision(rec: Json, ev: Json, p: Place, w: World)
    ensures DecideRecord(rec, ev, p, w).checked <==> Vouches(rec, Get(ev, "kind"), p, w)
  {
  }

  /** Nothing else a draft writes into a reference can earn it belief: a reference that
      agrees with a believed one on id and kind is believed unless it attests something. */
  lemma {:induction false} OnlyIdAndKindMatter(records: map<string, Json>, a: Json, b: Json, p: Place, w: World)
    requires a.Obj? && b.Obj?
    requires Get(a, "id") == Get(b, "id") && Get(a, "kind") == Get(b, "kind")
    requires Decide(records, a, p, w).checked
    ensures Decide(records, b, p, w).checked <==> forall k | k in SELF_ATTEST_FIELDS :: !HasKey(b.members, k)
  {
    NothingAttested(b);
  }

  // ----- drafts, claims and their references -----

  datatype Draft = Draft(claims: seq<Json>, moduleId: string, workflow: string)

  datatype Reference = Reference(claim: Json, ev: Json)

  predicate Verified(claim: Json) { Get(claim, "status") == Str("verified") }

  function PlaceOf(claim: Json, d: Draft): Place { Place(claim, d.moduleId, d.workflow) }

  /** The mappings in a claim's evidence list. */
  function ReferencesIn(claim: Json, evidence: seq<Json>): (r: seq<Reference>)
    ensures forall x :: x in r <==> x.claim == claim && x.ev in evidence && x.ev.Obj?
  {
    if evidence == [] then []
    else
      var n := |evidence| - 1;
      assert forall v :: v in evidence <==> v in evidence[..n] || v == evidence[n];
      ReferencesIn(claim, evidence[..n]) + (if evidence[n].Obj? then [Reference(claim, evidence[n])] else [])
  }

  function ReferencesOf(claim: Json): seq<Reference> { ReferencesIn(claim, Listed(Get(claim, "evidence"))) }

  function References(claims: seq<Json>): (r: seq<Reference>)
    ensures forall x :: x in r <==> x.claim in claims && x in ReferencesOf(x.claim)
  {
    if claims == [] then []
    else
      var n := |claims| - 1;
      assert forall v :: v in claims <==> v in claims[..n] || v == claims[n];
      References(claims[..n]) + ReferencesOf(claims[n])
  }

  function CountVerified(claims: seq<Json>): nat {
    if claims == [] then 0
    else
      var n := |claims| - 1;
      CountVerified(claims[..n]) + (if Verified(claims[n]) then 1 else 0)
  }

  predicate Believed(records: map<string, Json>, x: Reference, d: Draft, w: World) {
    x.ev.Obj? && Decide(records, x.ev, PlaceOf(x.claim, d), w).checked
  }

  datatype Failure = Failure(id: Json, reason: Reason)

  datatype Summary = Summary(
    claims: nat, verifiedClaims: nat, refs: nat, verifiedRefs: nat,
    checkedRefs: nat, checkedVerifiedRefs: nat, failures: seq<Failure>)

  /** One more reference in the counters. */
  function Tally(s: Summary, x: Reference, decision: Decision): Summary {
    var verified := Verified(x.claim);
    s.(refs := s.refs + 1,
       verifiedRefs := s.verifiedRefs + (if verified then 1 else 0),
       checkedRefs := s.checkedRefs + (if decision.checked then 1 else 0),
       checkedVerifiedRefs := s.checkedVerifiedRefs + (if decision.checked && verified then 1 else 0),
       failures := s.failures + (if decision.checked then [] else [Failure(Get(x.ev, "id"), decision.reason)]))
  }

  function TallyAll(records: map<string, Json>, refs: seq<Reference>, d: Draft, w: World): Summary
    requires forall x | x in refs :: x.ev.Obj?
  {
    if refs == [] then Summary(0, 0, 0, 0, 0, 0, [])
    else
      var n := |refs| - 1;
      Tally(TallyAll(records, refs[..n], d, w), refs[n], Decide(records, refs[n].ev, PlaceOf(refs[n].claim, d), w))
  }

  function SummaryOf(records: map<string, Json>, d: Draft, w: World): Summary {
    TallyAll(records, References(d.claims), d, w).(claims := |d.claims|, verifiedClaims := CountVerified(d.claims))
  }

  // ----- what the counters say -----

  lemma {:induction false} VerifiedCountMeans(claims: seq<Json>)
    ensures CountVerified(claims) > 0 <==> SomeVerified(claims)
  {
    if claims != [] {
      var n := |claims| - 1;
      VerifiedCountMeans(claims[..n]);
      assert forall v :: v in claims <==> v in claims[..n] || v == claims[n];
    }
  }

  /** The counters are consistent with each other and with the failures. */
  lemma {:induction false} CountersAgree(records: map<string, Json>, refs: seq<Reference>, d: Draft, w: World)
    requires forall x | x in refs :: x.ev.Obj?
    ensures var s := TallyAll(records, refs, d, w);
            && s.refs == |refs|
            && s.checkedVerifiedRefs <= s.checkedRefs <= s.refs
            && s.checkedVerifiedRefs <= s.verifiedRefs <= s.refs
            && s.refs == s.checkedRefs + |s.failures|
  {
    if refs != [] { CountersAgree(records, refs[..|refs| - 1], d, w); }
  }

  lemma {:induction false} CounterMeans(records: map<string, Json>, refs: seq<Reference>, d: Draft, w: World)
    requires forall x | x in refs :: x.ev.Obj?
    ensures TallyAll(records, refs, d, w).checkedVerifiedRefs > 0 <==> SomeVerifiedBelieved(records, refs, d, w)
  {
    if refs != [] {
      var n := |refs| - 1;
      CounterMeans(records, refs[..n], d, w);
      SomeStep(records, refs[..n], refs[n], d, w);
      assert refs == refs[..n] + [refs[n]];
    }
  }

  lemma {:induction false} SomeStep(records: map<string, Json>, refs: seq<Reference>, x: Reference, d: Draft, w: World)
    ensures SomeVerifiedBelieved(records, refs + [x], d, w) <==>
            SomeVerifiedBelieved(records, refs, d, w) || (Verified(x.claim) && Believed(records, x, d, w))
  {
    assert forall y :: y in refs + [x] <==> y in refs || y == x;
  }

  // ----- the warrant check -----

  datatype Problem =
    | ClaimRequired
    | VerifiedClaimRequired
    | EvidenceRequired
    | CheckedEvidenceRequired(failures: seq<Failure>)
    | UnwarrantedClaims(claims: seq<Unwarranted>)

  datatype Unwarranted = NotVerified(id: Json) | NoCheckedEvidence(id: Json)

  ghost predicate Warranted(records: map<string, Json>, claim: Json, d: Draft, w: World) {
    Verified(claim) && exists x | x in ReferencesOf(claim) :: Believed(records, x, d, w)
  }

  ghost predicate FullyWarranted(records: map<string, Json>, d: Draft, w: World) {
    d.claims != [] && forall c | c in d.claims :: Warranted(records, c, d, w)
  }

  function FirstFew<T>(xs: seq<T>, n: nat): seq<T> { if |xs| <= n then xs else xs[..n] }

  predicate HasBelieved(records: map<string, Json>, claim: Json, evidence: seq<Json>, d: Draft, w: World) {
    exists ev | ev in evidence :: Believed(records, Reference(claim, ev), d, w)
  }

  function Complaint(records: map<string, Json>, claim: Json, d: Draft, w: World): seq<Unwarranted> {
    if !Verified(claim) then [NotVerified(Get(claim, "id"))]
    else if !HasBelieved(records, claim, Listed(Get(claim, "evidence")), d, w) then [NoCheckedEvidence(Get(claim, "id"))]
    else []
  }

  function Complaints(records: map<string, Json>, claims: seq<Json>, d: Draft, w: World): seq<Unwarranted> {
    if claims == [] then []
    else
      var n := |claims| - 1;
      Complaints(records, claims[..n], d, w) + Complaint(records, claims[n], d, w)
  }

  predicate SomeVerified(claims: seq<Json>) { exists c | c in claims :: Verified(c) }

  predicate SomeVerifiedBelieved(records: map<string, Json>, refs: seq<Reference>, d: Draft, w: World) {
    exists x | x in refs :: Verified(x.claim) && Believed(records, x, d, w)
  }

  /** The verdict, each guard by what it means rather than by a counter. */
  function ProblemsOf(records: map<string, Json>, d: Draft, w: World): seq<Problem> {
    if d.claims == [] then [ClaimRequired]
    else if !SomeVerified(d.claims) then [VerifiedClaimRequired]
    else if References(d.claims) == [] then [EvidenceRequired]
    else if !SomeVerifiedBelieved(records, References(d.claims), d, w) then
      [CheckedEvidenceRequired(FirstFew(SummaryOf(records, d, w).failures, 4))]
    else
      var complaints := Complaints(records, d.claims, d, w);
      if complaints != [] then [UnwarrantedClaims(FirstFew(complaints, 8))] else []
  }

  lemma {:induction false} ComplaintMeans(records: map<string, Json>, claim: Json, d: Draft, w: World)
    ensures Complaint(records, claim, d, w) == [] <==> Warranted(records, claim, d, w)
  {
    var evidence := Listed(Get(claim, "evidence"));
    if ev :| ev in evidence && Believed(records, Reference(claim, ev), d, w) {
      assert Reference(claim, ev) in ReferencesOf(claim);
    }
    if x :| x in ReferencesOf(claim) && Believed(records, x, d, w) {
      assert x == Reference(claim, x.ev) && x.ev in evidence;
    }
  }

  ghost predicate AllWarranted(records: map<string, Json>, claims: seq<Json>, d: Draft, w: World) {
    forall c | c in claims :: Warranted(records, c, d, w)
  }

  lemma {:induction false} AllWarrantedStep(records: map<string, Json>, claims: seq<Json>, x: Json, d: Draft, w: World)
    ensures AllWarranted(records, claims + [x], d, w) <==> AllWarranted(records, claims, d, w) && Warranted(records, x, d, w)
  {
    assert forall v :: v in claims + [x] <==> v in claims || v == x;
  }

  lemma {:induction false} ComplaintsStep(records: map<string, Json>, claims: seq<Json>, x: Json, d: Draft, w: World)
    ensures Complaints(records, claims + [x], d, w) == [] <==> Complaints(records, claims, d, w) == [] && Complaint(records, x, d, w) == []
  {
    assert (claims + [x])[..|claims|] == claims;
    NothingJoined(Complaints(records, claims, d, w), Complaint(records, x, d, w));
  }

  lemma {:induction false} ComplaintsMean(records: map<string, Json>, claims: seq<Json>, d: Draft, w: World)
    ensures Complaints(records, claims, d, w) == [] <==> AllWarranted(records, claims, d, w)
    decreases |claims|
  {
    if claims != [] {
      var front, last := claims[..|claims| - 1], claims[|claims| - 1];
      assert claims == front + [last];
      ComplaintsMean(records, front, d, w);
      ComplaintMeans(records, last, d, w);
      ComplaintsStep(records, front, last, d, w);
      AllWarrantedStep(records, front, last, d, w);
    }
  }

  /** When every claim is warranted no guard fires, so the guards before the last loop
      only choose which problem is reported. */
  lemma {:induction false} GuardsOnlySelect(records: map<string, Json>, d: Draft, w: World)
    ensures ProblemsOf(records, d, w) == [] <==> d.claims != [] && Complaints(records, d.claims, d, w) == []
    ensures |ProblemsOf(records, d, w)| <= 1
  {
    if d.claims != [] && Complaints(records, d.claims, d, w) == [] {
      ComplaintsMean(records, d.claims, d, w);
      NoGuardFires(records, d, w, d.claims[0]);
    }
  }

  lemma {:induction false} NoGuardFires(records: map<string, Json>, d: Draft, w: World, c: Json)
    requires c in d.claims && Warranted(records, c, d, w)
    ensures SomeVerified(d.claims) && References(d.claims) != [] && SomeVerifiedBelieved(records, References(d.claims), d, w)
  {
    var x :| x in ReferencesOf(c) && Believed(records, x, d, w);
    assert x in References(d.claims);
  }

  /** No problem is reported exactly when there is a claim and every claim is verified
      with some believed reference. */
  lemma {:induction false} WarrantExactly(records: map<string, Json>, d: Draft, w: World)
    ensures ProblemsOf(records, d, w) == [] <==> FullyWarranted(records, d, w)
  {
    GuardsOnlySelect(records, d, w);
    ComplaintsMean(records, d.claims, d, w);
  }

  /** The reference counters over `refs`, next to the claim counters of `s`. */
  function Counted(records: map<string, Json>, refs: seq<Reference>, d: Draft, w: World, s: Summary): Summary
    requires forall x | x in refs :: x.ev.Obj?
  {
    TallyAll(records, refs, d, w).(claims := s.claims, verifiedClaims := s.verifiedClaims)
  }

  lemma {:induction false} TallyStep(records: map<string, Json>, refs: seq<Reference>, x: Reference, d: Draft, w: World, s: Summary)
    requires x.ev.Obj? && forall y | y in refs :: y.ev.Obj?
    ensures Counted(records, refs + [x], d, w, s)
         == Tally(Counted(records, refs, d, w, s), x, Decide(records, x.ev, PlaceOf(x.claim, d), w))
  {
    assert (refs + [x])[..|refs|] == refs;
  }

  lemma {:induction false} MoreClaims(claims: seq<Json>, i: nat)
    requires i < |claims|
    ensures References(claims[..i + 1]) == References(claims[..i]) + ReferencesOf(claims[i])
    ensures CountVerified(claims[..i + 1]) == CountVerified(claims[..i]) + (if Verified(claims[i]) then 1 else 0)
  {
    assert claims[..i + 1][..i] == claims[..i];
  }

  lemma {:induction false} MoreReferences(claim: Json, evidence: seq<Json>, j: nat, seen: seq<Reference>)
    requires j < |evidence|
    ensures seen + ReferencesIn(claim, evidence[..j + 1])
         == seen + ReferencesIn(claim, evidence[..j]) + (if evidence[j].Obj? then [Reference(claim, evidence[j])] else [])
  {
    assert evidence[..j + 1][..j] == evidence[..j];
  }

  // ----- the ledger itself -----

  class Ledger {
    var records: map<string, Json>
    const world: World

    constructor (data: Json, world: World)
      ensures records == RecordTable(Listed(Get(data, "records"))) && this.world == world
    {
      this.world := world;
      this.records := map[];
      new;
      var items := Listed(Get(data, "records"));
      for i := 0 to |items|
        invariant records == RecordTable(items[..i])
      {
        assert items[..i + 1][..i] == items[..i];
        var id := Get(items[i], "id");
        if id.Str? {
          records := records[id.s := items[i]];
        }
      }
      assert items[..|items|] == items;
    }

    /** `ledger_bound_evidence_summary`. */
    method Summarize(d: Draft) returns (s: Summary)
      ensures s == SummaryOf(records, d, world)
    {
      s := Summary(|d.claims|, 0, 0, 0, 0, 0, []);
      ghost var seen: seq<Reference> := [];
      for i := 0 to |d.claims|
        invariant seen == References(d.claims[..i])
        invariant s == Counted(records, seen, d, world, s)
        invariant s.claims == |d.claims| && s.verifiedClaims == CountVerified(d.claims[..i])
      {
        var claim := d.claims[i];
        MoreClaims(d.claims, i);
        if Verified(claim) { s := s.(verifiedClaims := s.verifiedClaims + 1); }
        s := TallyClaim(claim, d, s, seen);
        seen := seen + ReferencesOf(claim);
      }
      assert d.claims[..|d.claims|] == d.claims;
    }

    /** The inner loop over one claim's evidence. */
    method TallyClaim(claim: Json, d: Draft, s0: Summary, ghost seen: seq<Reference>) returns (s: Summary)
      requires forall x | x in seen :: x.ev.Obj?
      requires s0 == Counted(records, seen, d, world, s0)
      ensures s == Counted(records, seen + ReferencesOf(claim), d, world, s0)
      ensures s.claims == s0.claims && s.verifiedClaims == s0.verifiedClaims
    {
      s := s0;
      var evidence := Listed(Get(claim, "evidence"));
      ghost var tallied := seen;
      assert seen + [] == seen;
      for j := 0 to |evidence|
        invariant tallied == seen + ReferencesIn(claim, evidence[..j])
        invariant s == Counted(records, tallied, d, world, s0)
      {
        var ev := evidence[j];
        MoreReferences(claim, evidence, j, seen);
        if ev.Obj? {
          TallyStep(records, tallied, Reference(claim, ev), d, world, s0);
          s := Tally(s, Reference(claim, ev), Decide(records, ev, PlaceOf(claim, d), world));
          tallied := tallied + [Reference(claim, ev)];
        }
      }
      assert evidence[..|evidence|] == evidence;
    }
  
    /** `non_vacuous_evidence_findings`. */
    method NonVacuousFindings(d: Draft) returns (problems: seq<Problem>)
      ensures problems == ProblemsOf(records, d, world)
      ensures problems == [] <==> FullyWarranted(records, d, world)
    {
      var s := Summarize(d);
      VerifiedCountMeans(d.claims);
      CountersAgree(records, References(d.claims), d, world);
      CounterMeans(records, References(d.claims), d, world);
      WarrantExactly(records, d, world);
      if s.claims <= 0 { return [ClaimRequired]; }
      if s.verifiedClaims <= 0 { return [VerifiedClaimRequired]; }
      if s.refs <= 0 { return [EvidenceRequired]; }
      if s.checkedVerifiedRefs <= 0 { return [CheckedEvidenceRequired(FirstFew(s.failures, 4))]; }
      var complaints := CollectComplaints(d);
      if complaints != [] { return [UnwarrantedClaims(FirstFew(complaints, 8))]; }
      return [];
    }

    method CollectComplaints(d: Draft) returns (complaints: seq<Unwarranted>)
      ensures complaints == Complaints(records, d.claims, d, world)
    {
      complaints := [];
      for i := 0 to |d.claims|
        invariant complaints == Complaints(records, d.claims[..i], d, world)
      {
        var claim := d.claims[i];
        assert d.claims[..i + 1][..i] == d.claims[..i];
        if !Verified(claim) {
          complaints := complaints + [NotVerified(Get(claim, "id"))];
        } else {
          var accepted := FindBelieved(claim, d);
          if !accepted { complaints := complaints + [NoCheckedEvidence(Get(claim, "id"))]; }
        }
      }
      assert d.claims[..|d.claims|] == d.claims;
    }

    /** The loop that stops at the first believed reference. */
    method FindBelieved(claim: Json, d: Draft) returns (accepted: bool)
      ensures accepted == HasBelieved(records, claim, Listed(Get(claim, "evidence")), d, world)
    {
      var evidence := Listed(Get(claim, "evidence"));
      accepted := false;
      for j := 0 to |evidence|
        invariant !accepted && forall ev | ev in evidence[..j] :: !Believed(records, Reference(claim, ev), d, world)
      {
        var ev := evidence[j];
        assert evidence[..j + 1] == evidence[..j] + [ev];
        if ev.Obj? && Decide(records, ev, PlaceOf(claim, d), world).checked {
          accepted := true;
          assert Believed(records, Reference(claim, ev), d, world) && ev in evidence;
          break;
        }
      }
    }
  }
}
