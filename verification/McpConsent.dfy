/** A consent is not transferable, and a destructive tool never passes. */
module McpConsent {
  import opened JsonTree
  import opened CanonicalJson
  import opened Artifacts
  import opened McpProfile
  import opened McpEnvelope
  import opened McpHostContext
  import opened McpAssessment
  import opened McpAssessmentFacts
  import opened McpVerdict

  /** The verdict on an envelope under a context. */
  function VerdictOn(p: Profile, envelope: Json, context: Json, lib: Library): Status {
    var k := CaseFor(p, envelope, context, lib);
    Verdict(k, Checks(k, lib))
  }

  lemma {:induction false} SealedShows(k: Case, profileSha: Json, checks: seq<Check>, lib: Library)
    ensures var a := SealAssessment(DraftAssessment(k, profileSha, checks), lib);
            && a.status == Str(StatusText(Verdict(k, checks)))
            && a.handoffAllowed == Bool(Verdict(k, checks).Passed?)
            && a.riskClass == k.tool.riskClass && a.toolName == k.envelope.toolName
            && a.profileId == k.profileId && a.envelopeSha == k.envelope.sha && a.contextSha == k.context.sha
            && a.executionPerformed == Bool(false)
  {
  }

  /** The assessment's document shows that verdict. */
  lemma {:induction false} AssessmentShowsVerdict(p: Profile, envelope: Json, context: Json, lib: Library)
    ensures AssessmentOf(p, envelope, context, lib).status == Str(StatusText(VerdictOn(p, envelope, context, lib)))
    ensures AssessmentOf(p, envelope, context, lib).handoffAllowed == Bool(VerdictOn(p, envelope, context, lib).Passed?)
  {
    var k := CaseFor(p, envelope, context, lib);
    SealedShows(k, Get(p.data, "profile_sha256"), Checks(k, lib), lib);
  }

  predicate Favourable(s: Status) { s.Passed? || s.ReviewRequired? }

  lemma {:induction false} FavourableCase(k: Case, lib: Library)
    requires Favourable(Verdict(k, Checks(k, lib)))
    ensures k.profileValid && k.envelopeValid && k.contextValid && k.toolKnown
    ensures PyEq(ReadConsent(k.context.consent).envelopeSha, k.envelope.sha)
  {
    VerdictMeans(k, lib);
    var inputs := InputOutcomes(k);
    assert inputs[0] && inputs[1] && inputs[2] && inputs[3];
    assert ConsentOutcomes(k, ReadConsent(k.context.consent), lib)[2];
  }

  // ----- consent -----

  lemma {:induction false} SealBindsDigest(envelope: Json, consentSha: Json, lib: Library)
    requires ValidEnvelope(envelope, lib) && PyEq(consentSha, ReadEnvelope(envelope).sha)
    ensures envelope.Obj? && consentSha == Str(EnvelopeDigest(envelope, lib))
  {
  }

  lemma {:induction false} FavourableBinds(p: Profile, envelope: Json, context: Json, lib: Library)
    requires Favourable(VerdictOn(p, envelope, context, lib))
    ensures ValidEnvelope(envelope, lib)
    ensures ReadConsent(ReadContext(context).consent).envelopeSha == Str(EnvelopeDigest(envelope, lib))
  {
    FavourableCase(CaseFor(p, envelope, context, lib), lib);
    SealBindsDigest(envelope, ReadConsent(ReadContext(context).consent).envelopeSha, lib);
  }

  lemma {:induction false} SealFields(envelope: Json, lib: Library)
    requires ValidEnvelope(envelope, lib)
    ensures Get(envelope, "envelope_sha256") == Str(EnvelopeDigest(envelope, lib))
    ensures Get(envelope, "envelope_id") == Str(IdFor(ENVELOPE_PREFIX, EnvelopeDigest(envelope, lib)))
  {
    var f := Fields(envelope, ENVELOPE_KEYS);
    assert f[22] == Get(envelope, "envelope_sha256") && f[23] == Get(envelope, "envelope_id");
  }

  lemma {:induction false} MemberIsGet(v: Json, m: Member)
    requires v.Obj? && Distinct(v.members) && m in v.members
    ensures m.value == Get(v, m.key)
  {
    var i :| 0 <= i < |v.members| && v.members[i] == m;
    LookupAt(v.members, i);
  }

  lemma {:induction false} MatchedOnLeft(a: seq<Member>, b: seq<Member>)
    requires forall x | x in a :: Matched(x, b)
    ensures SameOnLeft(a, b)
  {
    forall x | x in a ensures exists y | y in b :: x.key == y.key && Same(x.value, y.value) {
      var y :| y in b && y.key == x.key && Same(x.value, y.value);
    }
  }

  lemma {:induction false} MatchedOnRight(a: seq<Member>, b: seq<Member>)
    requires forall y | y in b :: Matched(y, a)
    ensures SameOnRight(a, b)
  {
    forall y | y in b ensures exists x | x in a :: x.key == y.key && Same(x.value, y.value) {
      var x :| x in a && x.key == y.key && Same(y.value, x.value);
      SameSymmetric(y.value, x.value);
    }
  }

  /** Both directions of sameness follow from matching every field each way. */
  lemma {:induction false} MatchedIsSame(a: seq<Member>, b: seq<Member>)
    requires forall x | x in a :: Matched(x, b)
    requires forall y | y in b :: Matched(y, a)
    ensures Same(Obj(a), Obj(b))
  {
    MatchedOnLeft(a, b);
    MatchedOnRight(a, b);
  }

  lemma {:induction false} SealedFieldMatches(a: Json, b: Json, key: string, x: Member)
    requires a.Obj? && b.Obj? && Distinct(a.members) && x in a.members && x.key == key
    requires Get(a, key) == Get(b, key) && Get(b, key).Str?
    ensures Matched(x, b.members)
  {
    MemberIsGet(a, x);
    assert Member(key, Get(b, key)) in b.members;
  }

  ghost predicate SameSeal(a: Json, b: Json) {
    && Get(a, "envelope_sha256").Str? && Get(a, "envelope_sha256") == Get(b, "envelope_sha256")
    && Get(a, "envelope_id").Str? && Get(a, "envelope_id") == Get(b, "envelope_id")
  }

  lemma {:induction false} SealedFieldsMatch(a: Json, b: Json)
    requires a.Obj? && b.Obj? && Distinct(a.members) && SameSeal(a, b)
    requires forall x | x in a.members && x.key !in ENVELOPE_OWN_KEYS :: Matched(x, b.members)
    ensures forall x | x in a.members :: Matched(x, b.members)
  {
    forall x | x in a.members ensures Matched(x, b.members) {
      if x.key in ENVELOPE_OWN_KEYS { SealedFieldMatches(a, b, x.key, x); }
    }
  }

  lemma {:induction false} EqualProjectionsSame(a: Json, b: Json)
    requires a.Obj? && b.Obj? && Distinct(a.members) && Distinct(b.members) && SameSeal(a, b)
    requires Same(Obj(Project(a.members, ENVELOPE_OWN_KEYS)), Obj(Project(b.members, ENVELOPE_OWN_KEYS)))
    ensures Same(a, b)
  {
    SameSymmetric(Obj(Project(a.members, ENVELOPE_OWN_KEYS)), Obj(Project(b.members, ENVELOPE_OWN_KEYS)));
    SameProjectionSameFields(a.members, b.members, ENVELOPE_OWN_KEYS);
    SameProjectionSameFields(b.members, a.members, ENVELOPE_OWN_KEYS);
    SealedFieldsMatch(a, b);
    SealedFieldsMatch(b, a);
    MatchedIsSame(a.members, b.members);
  }

  lemma {:induction false} EqualDigestsSameSeal(a: Json, b: Json, lib: Library)
    requires ValidEnvelope(a, lib) && ValidEnvelope(b, lib) && EnvelopeDigest(a, lib) == EnvelopeDigest(b, lib)
    ensures SameSeal(a, b)
  {
    SealFields(a, lib);
    SealFields(b, lib);
  }

  /** Two texts that differ and yet have one hash. */
  ghost predicate Collides(a: Json, b: Json, lib: Library)
    requires a.Obj? && b.Obj?
  {
    HashCollision(lib, CanonicalText(Obj(Project(a.members, ENVELOPE_OWN_KEYS))),
                       CanonicalText(Obj(Project(b.members, ENVELOPE_OWN_KEYS))))
  }

  /** One context is judged favourably for two envelopes, under whatever profiles, only
      when they are the same envelope, field by field, or together break the hash. */
  lemma {:induction false} ConsentIsNotTransferable(p: Profile, q: Profile, a: Json, b: Json, context: Json, lib: Library, floats: FloatReader)
    requires a.Obj? && b.Obj? && WellFormed(a) && WellFormed(b) && FloatsRead(a, floats) && FloatsRead(b, floats)
    requires Favourable(VerdictOn(p, a, context, lib)) && Favourable(VerdictOn(q, b, context, lib))
    ensures Same(a, b) || Collides(a, b, lib)
  {
    FavourableBinds(p, a, context, lib);
    FavourableBinds(q, b, context, lib);
    EqualDigests(a, b, ENVELOPE_OWN_KEYS, lib, floats);
    if !Collides(a, b, lib) {
      EqualDigestsSameSeal(a, b, lib);
      EqualProjectionsSame(a, b);
    }
  }

  // ----- destructive tools -----

  lemma {:induction false} ReviewedToolIsNotDestructive(t: Tool)
    requires ToolFieldsFine(t) && t.decisionMode != Str("review_required")
    ensures t.riskClass != Str("destructive")
  {
  }

  lemma {:induction false} PassedCase(k: Case, lib: Library)
    requires Verdict(k, Checks(k, lib)).Passed?
    ensures k.profileValid && k.toolKnown && k.tool.decisionMode != Str("review_required")
  {
    FavourableCase(k, lib);
    VerdictMeans(k, lib);
  }

  /** A call that passes names a tool of the profile whose risk class is not the
      destructive one; a destructive tool's call ends in a review or a refusal. */
  lemma {:induction false} DestructiveNeverPasses(p: Profile, envelope: Json, context: Json, lib: Library)
    requires VerdictOn(p, envelope, context, lib).Passed?
    ensures ToolFor(p, ReadEnvelope(envelope).toolName).Some?
    ensures AssessmentOf(p, envelope, context, lib).riskClass != Str("destructive")
  {
    var k := CaseFor(p, envelope, context, lib);
    PassedCase(k, lib);
    KnownToolFine(p, k.envelope.toolName, lib);
    ReviewedToolIsNotDestructive(k.tool);
    SealedShows(k, Get(p.data, "profile_sha256"), Checks(k, lib), lib);
  }
}
