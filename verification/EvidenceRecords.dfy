/** src/ainir/evidence_provider.py: the structure of an evidence record, and that a copy
    through canonical JSON keeps it. */
module EvidenceRecords {
  import opened Text
  import opened JsonTree
  import opened CanonicalJson
  import opened Artifacts

  const RECORD_KEYS := [
    "kind", "version", "evidence_id", "evidence_kind", "issuer", "producer_kind", "policy_version",
    "claim_scope", "subject_binding", "validity", "revocation", "reliability", "provenance",
    "integrity", "production_runtime_ready"]

  const ISSUER_KEYS := ["id", "kind"]
  const SCOPE_KEYS := ["module_id", "workflow", "claim_ids", "claim_statement_sha256"]
  const SUBJECT_KEYS := ["mode", "raw_source_sha256", "canonical_draft_sha256"]
  const VALIDITY_KEYS := ["valid_from", "valid_until"]
  const REVOCATION_KEYS := ["status", "checked_at"]
  const RELIABILITY_KEYS := ["score", "minimum_required"]
  const PROVENANCE_KEYS := ["provider_id", "provider_version", "source_kind", "source_ref"]
  const INTEGRITY_KEYS := ["algorithm", "record_sha256"]

  const SOURCE_KINDS := ["fixture", "file", "signed_bundle"]
  const BINDING_MODES := ["raw", "canonical", "raw_or_canonical", "none"]
  const REVOCATION_STATUSES := ["active", "revoked", "suspended", "unknown"]

  /** `[A-Za-z0-9_.:@/-]{1,160}`. */
  predicate SafeId(v: Json) {
    v.Str? && 1 <= |v.s| <= 160 &&
    forall c | c in v.s :: IsLetter(c) || IsDigit(c) || c in {'_', '.', ':', '@', '/', '-'}
  }

  predicate SafeIdOrNull(v: Json) { v.Null? || SafeId(v) }

  predicate UniqueIds(v: Json, nonEmpty: bool) {
    v.Arr? && (nonEmpty ==> v.items != []) && (forall x | x in v.items :: SafeId(x)) && NoRepeats(v.items)
  }

  /** A dictionary with exactly these keys. */
  predicate Shaped(v: Json, keys: seq<string>) { OnlyKeys(v, keys) && forall k | k in keys :: Has(v, k) }

  predicate UnitNumber(v: Json) { (v.Int? || v.Float?) && 0.0 <= NumericValue(v) <= 1.0 }

  predicate InstantOrNull(v: Json, lib: Library) { v.Null? || Instant(v, lib).Some? }

  predicate IssuerFine(v: Json) { Shaped(v, ISSUER_KEYS) && SafeId(Get(v, "id")) && SafeId(Get(v, "kind")) }

  predicate ScopeFine(v: Json) {
    && Shaped(v, SCOPE_KEYS)
    && SafeId(Get(v, "module_id")) && SafeId(Get(v, "workflow"))
    && UniqueIds(Get(v, "claim_ids"), true)
    && IsSha(Get(v, "claim_statement_sha256"))
  }

  predicate SubjectFine(v: Json) {
    && Shaped(v, SUBJECT_KEYS)
    && OneOf(Get(v, "mode"), BINDING_MODES)
    && ShaOrNull(Get(v, "raw_source_sha256")) && ShaOrNull(Get(v, "canonical_draft_sha256"))
  }

  predicate ValidityFine(v: Json, lib: Library) {
    Shaped(v, VALIDITY_KEYS) && InstantOrNull(Get(v, "valid_from"), lib) && InstantOrNull(Get(v, "valid_until"), lib)
  }

  predicate RevocationFine(v: Json, lib: Library) {
    Shaped(v, REVOCATION_KEYS) && OneOf(Get(v, "status"), REVOCATION_STATUSES) && InstantOrNull(Get(v, "checked_at"), lib)
  }

  predicate ReliabilityFine(v: Json) {
    Shaped(v, RELIABILITY_KEYS) && UnitNumber(Get(v, "score")) && UnitNumber(Get(v, "minimum_required"))
  }

  predicate ShortTextOrNull(v: Json) { v.Null? || (v.Str? && 1 <= |v.s| <= 512) }

  predicate ProvenanceFine(v: Json) {
    && Shaped(v, PROVENANCE_KEYS)
    && SafeId(Get(v, "provider_id")) && SafeId(Get(v, "provider_version"))
    && OneOf(Get(v, "source_kind"), SOURCE_KINDS)
    && ShortTextOrNull(Get(v, "source_ref"))
  }

  // ----- the record's own hash -----

  function WithoutKey(ms: seq<Member>, key: string): seq<Member> {
    if ms == [] then []
    else
      var n := |ms| - 1;
      WithoutKey(ms[..n], key) + (if ms[n].key == key then [] else [ms[n]])
  }

  /** The integrity block loses the hash it carries. */
  function Unsealed(ms: seq<Member>): seq<Member> {
    if ms == [] then []
    else
      var n := |ms| - 1;
      var m := ms[n];
      Unsealed(ms[..n])
      + [if m.key == "integrity" && m.value.Obj? then Member(m.key, Obj(WithoutKey(m.value.members, "record_sha256"))) else m]
  }

  /** `sha256_json(evidence_record_projection(record))`. */
  function RecordDigest(r: Json, lib: Library): string
    requires r.Obj?
  {
    Digest(Obj(Unsealed(Norm(r).members)), lib)
  }

  predicate IntegrityFine(v: Json, digest: string) {
    && Shaped(v, INTEGRITY_KEYS)
    && Get(v, "algorithm") == Str("canonical_json_sha256")
    && Get(v, "record_sha256") == Str(digest)
  }

  predicate RecordHeaderFine(r: Json) {
    && OnlyKeys(r, RECORD_KEYS)
    && Get(r, "kind") == Str("AiNIREvidenceRecord")
    && Get(r, "version") == Str("ainir.evidence-record.v1")
    && SafeId(Get(r, "evidence_id")) && SafeId(Get(r, "evidence_kind"))
    && SafeId(Get(r, "producer_kind")) && SafeId(Get(r, "policy_version"))
    && Get(r, "production_runtime_ready") == Bool(false)
  }

  predicate RecordBlocksFine(r: Json, lib: Library) {
    && IssuerFine(Get(r, "issuer"))
    && ScopeFine(Get(r, "claim_scope"))
    && SubjectFine(Get(r, "subject_binding"))
    && ValidityFine(Get(r, "validity"), lib)
    && RevocationFine(Get(r, "revocation"), lib)
    && ReliabilityFine(Get(r, "reliability"))
    && ProvenanceFine(Get(r, "provenance"))
  }

  predicate RecordFine(r: Json, lib: Library) {
    && RecordHeaderFine(r)
    && RecordBlocksFine(r, lib)
    && IntegrityFine(Get(r, "integrity"), RecordDigest(r, lib))
  }

  // ----- copying keeps a record -----

  lemma {:induction false} SortedMembers(ms: seq<Member>, m: Member)
    ensures m in SortBy(KeyOf, NormMembers(ms)) <==> exists x | x in ms :: m == NormMember(x)
  {
    NormMembersContents(ms);
  }

  lemma {:induction false} GetIsMember(v: Json, k: string, x: Json)
    requires v.Obj? && Distinct(v.members) && Member(k, x) in v.members
    ensures Has(v, k) && Get(v, k) == x
  {
    var i :| 0 <= i < |v.members| && v.members[i] == Member(k, x);
    LookupAt(v.members, i);
  }

  /** Reading a copy is copying what is read. */
  lemma {:induction false} GetNorm(v: Json, k: string)
    requires WellFormed(v)
    ensures Get(Norm(v), k) == Norm(Get(v, k))
    ensures Has(Norm(v), k) <==> Has(v, k)
  {
    if v.Obj? {
      NormWellFormed(v);
      if Has(v, k) {
        var m := Member(k, Get(v, k));
        assert NormMember(m) == Member(k, Norm(m.value));
        SortedMembers(v.members, NormMember(m));
        assert m in v.members;
        GetIsMember(Norm(v), k, Norm(m.value));
      } else {
        forall y | y in Norm(v).members ensures y.key != k {
          SortedMembers(v.members, y);
          var x :| x in v.members && y == NormMember(x);
          assert HasKey(v.members, x.key);
        }
      }
    }
  }

  /** Copying never turns a container into a scalar or a scalar into anything else. */
  lemma {:induction false} NormKind(v: Json)
    ensures Norm(v).Obj? == v.Obj? && Norm(v).Arr? == v.Arr?
    ensures !v.Arr? && !v.Obj? ==> Norm(v) == v
  {
  }

  lemma {:induction false} OnlyKeysNorm(v: Json, keys: seq<string>)
    requires WellFormed(v)
    ensures OnlyKeys(Norm(v), keys) <==> OnlyKeys(v, keys)
  {
    if v.Obj? {
      if OnlyKeys(v, keys) {
        forall m | m in Norm(v).members ensures m.key in keys {
          SortedMembers(v.members, m);
        }
      }
      if OnlyKeys(Norm(v), keys) {
        forall x | x in v.members ensures x.key in keys {
          SortedMembers(v.members, NormMember(x));
          assert NormMember(x) in Norm(v).members;
        }
      }
    }
  }

  lemma {:induction false} ShapedNorm(v: Json, keys: seq<string>)
    requires WellFormed(v)
    ensures Shaped(Norm(v), keys) <==> Shaped(v, keys)
  {
    OnlyKeysNorm(v, keys);
    forall k | k in keys ensures Has(Norm(v), k) <==> Has(v, k) { GetNorm(v, k); }
  }

  /** Every test of a single value agrees on its copy. */
  lemma {:induction false} TestsNorm(v: Json)
    ensures SafeId(Norm(v)) <==> SafeId(v)
    ensures SafeIdOrNull(Norm(v)) <==> SafeIdOrNull(v)
    ensures IsSha(Norm(v)) <==> IsSha(v)
    ensures ShaOrNull(Norm(v)) <==> ShaOrNull(v)
    ensures UnitNumber(Norm(v)) <==> UnitNumber(v)
    ensures ShortTextOrNull(Norm(v)) <==> ShortTextOrNull(v)
    ensures !v.Arr? && !v.Obj? ==> Norm(v) == v
  {
    NormKind(v);
  }

  lemma {:induction false} OneOfNorm(v: Json, names: seq<string>)
    ensures OneOf(Norm(v), names) <==> OneOf(v, names)
  {
    NormKind(v);
  }

  lemma {:induction false} InstantNorm(v: Json, lib: Library)
    ensures Instant(Norm(v), lib) == Instant(v, lib)
    ensures InstantOrNull(Norm(v), lib) <==> InstantOrNull(v, lib)
  {
    NormKind(v);
  }

  lemma {:induction false} EqualsNorm(v: Json, w: Json)
    requires !w.Arr? && !w.Obj?
    ensures Norm(v) == w <==> v == w
  {
    NormKind(v);
  }

  lemma {:induction false} UniqueIdsNorm(v: Json, nonEmpty: bool)
    ensures UniqueIds(Norm(v), nonEmpty) <==> UniqueIds(v, nonEmpty)
    ensures UniqueIds(v, nonEmpty) ==> Norm(v) == v
  {
    NormKind(v);
    if v.Arr? {
      var copies := NormItems(v.items);
      forall i | 0 <= i < |v.items| ensures SafeId(copies[i]) <==> SafeId(v.items[i]) { TestsNorm(v.items[i]); }
      forall i | 0 <= i < |v.items| && SafeId(v.items[i]) ensures copies[i] == v.items[i] { TestsNorm(v.items[i]); }
      if forall x | x in v.items :: SafeId(x) {
        assert forall i | 0 <= i < |v.items| :: v.items[i] in v.items;
        assert copies == v.items;
      } else {
        var x :| x in v.items && !SafeId(x);
        var i :| 0 <= i < |v.items| && v.items[i] == x;
        assert copies[i] in copies;
      }
    }
  }

  lemma {:induction false} IssuerNorm(v: Json)
    requires WellFormed(v)
    ensures IssuerFine(Norm(v)) <==> IssuerFine(v)
  {
    ShapedNorm(v, ISSUER_KEYS);
    GetNorm(v, "id");
    GetNorm(v, "kind");
    TestsNorm(Get(v, "id"));
    TestsNorm(Get(v, "kind"));
  }

  lemma {:induction false} ScopeNorm(v: Json)
    requires WellFormed(v)
    ensures ScopeFine(Norm(v)) <==> ScopeFine(v)
  {
    ShapedNorm(v, SCOPE_KEYS);
    GetNorm(v, "module_id");
    GetNorm(v, "workflow");
    GetNorm(v, "claim_ids");
    GetNorm(v, "claim_statement_sha256");
    TestsNorm(Get(v, "module_id"));
    TestsNorm(Get(v, "workflow"));
    UniqueIdsNorm(Get(v, "claim_ids"), true);
    TestsNorm(Get(v, "claim_statement_sha256"));
  }

  lemma {:induction false} SubjectNorm(v: Json)
    requires WellFormed(v)
    ensures SubjectFine(Norm(v)) <==> SubjectFine(v)
  {
    ShapedNorm(v, SUBJECT_KEYS);
    GetNorm(v, "mode");
    GetNorm(v, "raw_source_sha256");
    GetNorm(v, "canonical_draft_sha256");
    OneOfNorm(Get(v, "mode"), BINDING_MODES);
    TestsNorm(Get(v, "raw_source_sha256"));
    TestsNorm(Get(v, "canonical_draft_sha256"));
  }

  lemma {:induction false} ValidityNorm(v: Json, lib: Library)
    requires WellFormed(v)
    ensures ValidityFine(Norm(v), lib) <==> ValidityFine(v, lib)
  {
    ShapedNorm(v, VALIDITY_KEYS);
    GetNorm(v, "valid_from");
    GetNorm(v, "valid_until");
    InstantNorm(Get(v, "valid_from"), lib);
    InstantNorm(Get(v, "valid_until"), lib);
  }

  lemma {:induction false} RevocationNorm(v: Json, lib: Library)
    requires WellFormed(v)
    ensures RevocationFine(Norm(v), lib) <==> RevocationFine(v, lib)
  {
    ShapedNorm(v, REVOCATION_KEYS);
    GetNorm(v, "status");
    GetNorm(v, "checked_at");
    OneOfNorm(Get(v, "status"), REVOCATION_STATUSES);
    InstantNorm(Get(v, "checked_at"), lib);
  }

  lemma {:induction false} ReliabilityNorm(v: Json)
    requires WellFormed(v)
    ensures ReliabilityFine(Norm(v)) <==> ReliabilityFine(v)
  {
    ShapedNorm(v, RELIABILITY_KEYS);
    GetNorm(v, "score");
    GetNorm(v, "minimum_required");
    TestsNorm(Get(v, "score"));
    TestsNorm(Get(v, "minimum_required"));
  }

  lemma {:induction false} ProvenanceNorm(v: Json)
    requires WellFormed(v)
    ensures ProvenanceFine(Norm(v)) <==> ProvenanceFine(v)
  {
    ShapedNorm(v, PROVENANCE_KEYS);
    GetNorm(v, "provider_id");
    GetNorm(v, "provider_version");
    GetNorm(v, "source_kind");
    GetNorm(v, "source_ref");
    TestsNorm(Get(v, "provider_id"));
    TestsNorm(Get(v, "provider_version"));
    OneOfNorm(Get(v, "source_kind"), SOURCE_KINDS);
    TestsNorm(Get(v, "source_ref"));
  }

  lemma {:induction false} IntegrityNorm(v: Json, digest: string)
    requires WellFormed(v)
    ensures IntegrityFine(Norm(v), digest) <==> IntegrityFine(v, digest)
  {
    ShapedNorm(v, INTEGRITY_KEYS);
    GetNorm(v, "algorithm");
    GetNorm(v, "record_sha256");
    EqualsNorm(Get(v, "algorithm"), Str("canonical_json_sha256"));
    EqualsNorm(Get(v, "record_sha256"), Str(digest));
  }

  lemma {:induction false} HeaderNorm(r: Json)
    requires WellFormed(r)
    ensures RecordHeaderFine(Norm(r)) <==> RecordHeaderFine(r)
  {
    OnlyKeysNorm(r, RECORD_KEYS);
    GetNorm(r, "kind");
    GetNorm(r, "version");
    GetNorm(r, "evidence_id");
    GetNorm(r, "evidence_kind");
    GetNorm(r, "producer_kind");
    GetNorm(r, "policy_version");
    GetNorm(r, "production_runtime_ready");
    EqualsNorm(Get(r, "kind"), Str("AiNIREvidenceRecord"));
    EqualsNorm(Get(r, "version"), Str("ainir.evidence-record.v1"));
    TestsNorm(Get(r, "evidence_id"));
    TestsNorm(Get(r, "evidence_kind"));
    TestsNorm(Get(r, "producer_kind"));
    TestsNorm(Get(r, "policy_version"));
    EqualsNorm(Get(r, "production_runtime_ready"), Bool(false));
  }

  lemma {:induction false} PartWellFormed(v: Json, k: string)
    requires WellFormed(v)
    ensures WellFormed(Get(v, k))
  {
    if Has(v, k) {
      var m := Member(k, Get(v, k));
      assert m in v.members && WellFormed(m.value);
    }
  }

  lemma {:induction false} BlocksNorm(r: Json, lib: Library)
    requires WellFormed(r)
    ensures RecordBlocksFine(Norm(r), lib) <==> RecordBlocksFine(r, lib)
  {
    BlockNorm(r, "issuer");
    BlockNorm(r, "claim_scope");
    BlockNorm(r, "subject_binding");
    BlockNorm(r, "validity");
    BlockNorm(r, "revocation");
    BlockNorm(r, "reliability");
    BlockNorm(r, "provenance");
    IssuerNorm(Get(r, "issuer"));
    ScopeNorm(Get(r, "claim_scope"));
    SubjectNorm(Get(r, "subject_binding"));
    ValidityNorm(Get(r, "validity"), lib);
    RevocationNorm(Get(r, "revocation"), lib);
    ReliabilityNorm(Get(r, "reliability"));
    ProvenanceNorm(Get(r, "provenance"));
  }

  lemma {:induction false} BlockNorm(r: Json, k: string)
    requires WellFormed(r)
    ensures Get(Norm(r), k) == Norm(Get(r, k)) && WellFormed(Get(r, k))
  {
    GetNorm(r, k);
    PartWellFormed(r, k);
  }

  lemma {:induction false} DigestNorm(r: Json, lib: Library)
    requires WellFormed(r) && r.Obj?
    ensures RecordDigest(Norm(r), lib) == RecordDigest(r, lib)
  {
    NormIdempotent(r);
  }

  /** A record is valid exactly when its copy is, and both have one hash. */
  lemma {:induction false} RecordFineNorm(r: Json, lib: Library)
    requires WellFormed(r) && r.Obj?
    ensures RecordFine(Norm(r), lib) <==> RecordFine(r, lib)
  {
    HeaderNorm(r);
    BlocksNorm(r, lib);
    DigestNorm(r, lib);
    BlockNorm(r, "integrity");
    IntegrityNorm(Get(r, "integrity"), RecordDigest(r, lib));
  }
}
