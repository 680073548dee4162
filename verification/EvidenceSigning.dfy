/** src/ainir/evidence_provider.py: signing a bundle keeps what its hash covers, and the
    signature verifies under the same key. */
module EvidenceSigning {
  import opened JsonTree
  import opened CanonicalJson
  import opened Artifacts
  import opened Dictionaries
  import opened EvidenceRecords
  import opened EvidenceBundles

  /** A projection that drops the key does not see what is stored under it. */
  lemma {:induction false} ProjectReplaced(ms: seq<Member>, key: string, x: Json, dropped: set<string>)
    requires key in dropped
    ensures Project(Replaced(ms, key, x), dropped) == Project(ms, dropped)
  {
    if ms != [] {
      var n := |ms| - 1;
      ProjectReplaced(ms[..n], key, x, dropped);
      assert Replaced(ms, key, x)[..n] == Replaced(ms[..n], key, x);
    }
  }

  lemma {:induction false} ProjectSetMember(ms: seq<Member>, key: string, x: Json, dropped: set<string>)
    requires key in dropped
    ensures Project(SetMember(ms, key, x), dropped) == Project(ms, dropped)
  {
    ProjectReplaced(ms, key, x, dropped);
    assert (ms + [Member(key, x)])[..|ms|] == ms;
  }

  // ----- signing -----

  function SignatureTree(keyId: string, key: string, sha: string, w: World): Json {
    Obj(Record(SIGNATURE_KEYS, [Str(SIGNATURE_ALGORITHM), Str(keyId), Str(w.hmac(key, sha)), Str(SIGNATURE_PURPOSE)]))
  }

  function ShaText(v: Json, w: World): string {
    var sha := GetOr(v, "bundle_sha256", Str(""));
    if sha.Str? then sha.s else w.show(sha)
  }

  function WithSignature(v: Json, keyId: string, key: string, w: World): Json
    requires v.Obj?
  {
    Obj(SetMember(v.members, "signature", SignatureTree(keyId, key, ShaText(v, w), w)))
  }

  datatype Signed = Signed(value: Json) | BadKeyId | ShortKey | InvalidBundle

  method SignBundle(bundle: Json, keyId: string, key: string, w: World) returns (r: Signed)
    ensures r.BadKeyId? <==> !SafeId(Str(keyId))
    ensures r.ShortKey? <==> SafeId(Str(keyId)) && |key| < 16
    ensures r.InvalidBundle? <==> SafeId(Str(keyId)) && |key| >= 16 && !BundleFine(Norm(bundle), map[], false, w)
    ensures r.Signed? ==> Norm(bundle).Obj? && r.value == WithSignature(Norm(bundle), keyId, key, w)
  {
    if !SafeId(Str(keyId)) { return BadKeyId; }
    if |key| < 16 { return ShortKey; }
    var value := Norm(bundle);
    var valid := ValidateBundle(value, map[], false, w);
    if !valid { return InvalidBundle; }
    r := Signed(WithSignature(value, keyId, key, w));
  }

  lemma {:induction false} SignatureReadsBack(keyId: string, key: string, sha: string, w: World)
    ensures var s := SignatureTree(keyId, key, sha, w);
            && s.Obj?
            && Get(s, "algorithm") == Str(SIGNATURE_ALGORITHM) && Get(s, "key_id") == Str(keyId)
            && Get(s, "value") == Str(w.hmac(key, sha)) && Get(s, "purpose") == Str(SIGNATURE_PURPOSE)
  {
    var values := [Str(SIGNATURE_ALGORITHM), Str(keyId), Str(w.hmac(key, sha)), Str(SIGNATURE_PURPOSE)];
    RecordReadsBack(SIGNATURE_KEYS, values);
    var f := Fields(Obj(Record(SIGNATURE_KEYS, values)), SIGNATURE_KEYS);
    assert f[0] == values[0] && f[1] == values[1] && f[2] == values[2] && f[3] == values[3];
  }

  lemma {:induction false} SignedReads(v: Json, keyId: string, key: string, w: World, k: string)
    requires v.Obj? && Distinct(v.members)
    ensures k != "signature" ==> Get(WithSignature(v, keyId, key, w), k) == Get(v, k)
    ensures k != "signature" ==> GetOr(WithSignature(v, keyId, key, w), k, Str("")) == GetOr(v, k, Str(""))
    ensures Get(WithSignature(v, keyId, key, w), "signature") == SignatureTree(keyId, key, ShaText(v, w), w)
  {
    SetMemberGet(v.members, "signature", SignatureTree(keyId, key, ShaText(v, w), w), k);
    SetMemberGet(v.members, "signature", SignatureTree(keyId, key, ShaText(v, w), w), "signature");
  }

  /** The signed bundle verifies exactly under a long enough key of that id whose HMAC of
      the bundle hash is the stored one; in particular under the signing key. */
  lemma {:induction false} SignatureVerifiesExactly(v: Json, keyId: string, key: string, keys: map<string, string>, w: World)
    requires Proper(w) && v.Obj? && Distinct(v.members) && SafeId(Str(keyId))
    ensures VerifySignature(WithSignature(v, keyId, key, w), keys, w).status == "verified" <==>
            keyId in keys && |keys[keyId]| >= 16 && w.hmac(keys[keyId], ShaText(v, w)) == w.hmac(key, ShaText(v, w))
    ensures VerifySignature(WithSignature(v, keyId, key, w), keys, w).keyId == Str(keyId)
  {
    SignedReads(v, keyId, key, w, "bundle_sha256");
    SignatureReadsBack(keyId, key, ShaText(v, w), w);
    StatusesDiffer();
  }

  lemma {:induction false} StatusesDiffer()
    ensures "verified" != "failed" && "verified" != "unknown_key"
  {
  }

  /** Signing leaves the hash, the id and everything they cover as they were. */
  lemma {:induction false} SigningKeepsHash(v: Json, keyId: string, key: string, w: World)
    requires v.Obj? && Distinct(v.members)
    ensures BundleDigest(WithSignature(v, keyId, key, w), w.lib) == BundleDigest(v, w.lib)
    ensures ReadBundle(WithSignature(v, keyId, key, w)) == ReadBundle(v).(signature := SignatureTree(keyId, key, ShaText(v, w), w))
  {
    ProjectSetMember(v.members, "signature", SignatureTree(keyId, key, ShaText(v, w), w), BUNDLE_OWN_KEYS);
    var f, g := Fields(v, BUNDLE_KEYS), Fields(WithSignature(v, keyId, key, w), BUNDLE_KEYS);
    BundleKeysDiffer();
    assert BUNDLE_KEYS[6] == "signature";
    forall i | 0 <= i < 10 ensures g[i] == if i == 6 then SignatureTree(keyId, key, ShaText(v, w), w) else f[i] {
      SignedReads(v, keyId, key, w, BUNDLE_KEYS[i]);
    }
  }

  lemma {:induction false} SignedKeys(v: Json, keyId: string, key: string, w: World)
    requires OnlyKeys(v, BUNDLE_KEYS)
    ensures OnlyKeys(WithSignature(v, keyId, key, w), BUNDLE_KEYS)
  {
    assert BUNDLE_KEYS[6] == "signature";
    var r := WithSignature(v, keyId, key, w).members;
    forall m | m in r ensures m.key in BUNDLE_KEYS {
      var i :| 0 <= i < |r| && r[i] == m;
      if i < |v.members| { assert v.members[i] in v.members; }
    }
  }

  lemma {:induction false} RecordsIgnoreSignature(b: Bundle, s: Bundle, w: World)
    requires s == b.(signature := s.signature)
    ensures RecordsFine(s, w) <==> RecordsFine(b, w)
    ensures BundleHeaderFine(s) <==> BundleHeaderFine(b)
  {
    if b.records.Arr? {
      forall r ensures Acceptable(r, s, w) <==> Acceptable(r, b, w) { }
    }
  }

  /** A signed valid bundle stays valid, also where a verified signature is required. */
  lemma {:induction false} SignedBundleValid(v: Json, keyId: string, key: string, keys: map<string, string>, w: World)
    requires Proper(w) && SafeId(Str(keyId)) && |key| >= 16 && keyId in keys && keys[keyId] == key
    requires v.Obj? && Distinct(v.members) && BundleFine(v, map[], false, w)
    ensures BundleFine(WithSignature(v, keyId, key, w), keys, true, w)
  {
    SignatureVerifiesExactly(v, keyId, key, keys, w);
    SigningKeepsHash(v, keyId, key, w);
    SignedKeys(v, keyId, key, w);
    RecordsIgnoreSignature(ReadBundle(v), ReadBundle(WithSignature(v, keyId, key, w)), w);
  }
}
