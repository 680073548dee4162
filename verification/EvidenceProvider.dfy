/** src/ainir/evidence_provider.py: the provider that answers requests from a bundle, and
    its index, which agrees with the validator's scan. */
module EvidenceProvider {
  import opened JsonTree
  import opened CanonicalJson
  import opened Artifacts
  import opened EvidenceRecords
  import opened EvidenceBundles
  import opened EvidenceValidation

  // ----- the index -----

  /** Records by evidence id; a later record replaces an earlier one. */
  function Index(records: seq<Json>): map<string, Json> {
    if records == [] then map[]
    else
      var n := |records| - 1;
      var id := Get(records[n], "evidence_id");
      if records[n].Obj? && id.Str? then Index(records[..n])[id.s := Norm(records[n])] else Index(records[..n])
  }

  function SafeKeys(keys: map<string, string>): map<string, string> {
    map k | k in keys && SafeId(Str(k)) :: keys[k]
  }

  function TextOf(v: Json, w: World): Json { if v.Str? then v else Str(w.show(v)) }

  /** `str(bundle.get(key, ""))`. */
  function Attribute(bundle: Json, key: string, w: World): Json { TextOf(GetOr(bundle, key, Str("")), w) }

  function SealResolution(r: Resolution, lib: Library): Resolution {
    var digest := ResolutionDigest(ResolutionTree(r), lib);
    r.(sha := Str(digest), id := Str(IdFor(RESOLUTION_PREFIX, digest)))
  }

  datatype Answer = ProviderError | NotFound | Resolved

  function AnswerText(a: Answer): string {
    match a
    case ProviderError => "provider_error"
    case NotFound => "not_found"
    case Resolved => "resolved"
  }

  class BundleEvidenceProvider {
    var bundle: Json
    var providerId: Json
    var providerVersion: Json
    var sourceKind: Json
    var signature: SignatureCheck
    var valid: bool
    var records: map<string, Json>
    const world: World

    constructor (bundle: Json, keys: map<string, string>, requireSignature: bool, w: World)
      requires bundle.Obj?
      ensures world == w && this.bundle == Norm(bundle)
      ensures providerId == Attribute(this.bundle, "provider_id", w)
      ensures providerVersion == Attribute(this.bundle, "provider_version", w)
      ensures sourceKind == Attribute(this.bundle, "source_kind", w)
      ensures signature == Observed(this.bundle, sourceKind, SafeKeys(keys), w)
      ensures valid == BundleFine(this.bundle, SafeKeys(keys), requireSignature, w)
      ensures records == Index(RecordList(this.bundle))
    {
      this.world := w;
      this.bundle := Norm(bundle);
      this.providerId, this.providerVersion, this.sourceKind := Null, Null, Null;
      this.signature := SignatureCheck("not_present", Null);
      this.records := map[];
      this.valid := false;
      new;
      Identify();
      CheckBundle(SafeKeys(keys), requireSignature);
      FillIndex(RecordList(this.bundle));
    }

    method Identify()
      modifies this`providerId, this`providerVersion, this`sourceKind
      ensures providerId == Attribute(bundle, "provider_id", world)
      ensures providerVersion == Attribute(bundle, "provider_version", world)
      ensures sourceKind == Attribute(bundle, "source_kind", world)
    {
      providerId := Attribute(bundle, "provider_id", world);
      providerVersion := Attribute(bundle, "provider_version", world);
      sourceKind := Attribute(bundle, "source_kind", world);
    }

    method CheckBundle(keys: map<string, string>, requireSignature: bool)
      modifies this`signature, this`valid
      ensures signature == Observed(bundle, sourceKind, keys, world)
      ensures valid == BundleFine(bundle, keys, requireSignature, world)
    {
      signature := Observed(bundle, sourceKind, keys, world);
      valid := ValidateBundle(bundle, keys, requireSignature, world);
    }

    method FillIndex(items: seq<Json>)
      requires records == map[]
      modifies this`records
      ensures records == Index(items)
    {
      for i := 0 to |items|
        invariant records == Index(items[..i])
      {
        assert items[..i + 1][..i] == items[..i];
        var id := Get(items[i], "evidence_id");
        if items[i].Obj? && id.Str? {
          records := records[id.s := Norm(items[i])];
        }
      }
      assert items[..|items|] == items;
    }

    /** The provider as the validator sees it. */
    function View(): Provider
      reads this
    {
      Provider(providerId, providerVersion, sourceKind, bundle, valid)
    }

    function Draft(request: Json, answer: Answer, record: Json): Resolution
      reads this
    {
      Resolution(Str("AiNIREvidenceResolution"), Str("ainir.evidence-resolution.v1"), Get(request, "request_id"),
                 Str(AnswerText(answer)), providerId, providerVersion, sourceKind, Get(bundle, "bundle_id"),
                 Get(bundle, "bundle_sha256"), Str(signature.status), signature.keyId, Norm(record), Null,
                 Bool(false), Null, Null)
    }

    /** What a request finds. */
    function Lookup(request: Json): (Answer, Json)
      reads this
    {
      var id := TextOf(Get(request, "evidence_id"), world).s;
      if !valid then (ProviderError, Null)
      else if id !in records then (NotFound, Null)
      else (Resolved, records[id])
    }

    method Resolve(request: Json) returns (resolution: Json)
      ensures var (answer, record) := Lookup(request);
              resolution == ResolutionTree(SealResolution(Draft(request, answer, record), world.lib))
    {
      var id := TextOf(Get(request, "evidence_id"), world).s;
      var answer, record := Answer.Resolved, Null;
      if !valid {
        answer := ProviderError;
      } else if id !in records {
        answer := NotFound;
      } else {
        record := records[id];
      }
      resolution := ResolutionTree(SealResolution(Draft(request, answer, record), world.lib));
    }
  }

  // ----- the index agrees with the scan -----

  ghost predicate IdsDiffer(records: seq<Json>) {
    forall i, j | 0 <= i < j < |records| :: Get(records[i], "evidence_id") != Get(records[j], "evidence_id")
  }

  lemma {:induction false} ScanMisses(records: seq<Json>, id: string)
    requires forall r | r in records :: r.Obj? ==> Get(r, "evidence_id") != Str(id)
    ensures Matching(records, Str(id)) == [] && id !in Index(records)
  {
    if records != [] {
      var n := |records| - 1;
      assert records[n] in records;
      ScanMisses(records[..n], id);
    }
  }

  lemma {:induction false} ScanFinds(records: seq<Json>, i: nat, id: string)
    requires IdsDiffer(records) && i < |records| && records[i].Obj? && Get(records[i], "evidence_id") == Str(id)
    ensures Matching(records, Str(id)) == [records[i]]
    ensures id in Index(records) && Index(records)[id] == Norm(records[i])
  {
    var n := |records| - 1;
    if i == n {
      forall r | r in records[..n] ensures Get(r, "evidence_id") != Str(id) {
        var j :| 0 <= j < n && records[j] == r;
        assert Get(records[j], "evidence_id") != Get(records[n], "evidence_id");
      }
      ScanMisses(records[..n], id);
    } else {
      ScanFinds(records[..n], i, id);
      assert Get(records[i], "evidence_id") != Get(records[n], "evidence_id");
    }
  }

  /** With distinct ids the dictionary and the linear scan find the same record, or both
      find none. */
  lemma {:induction false} IndexAgreesWithScan(records: seq<Json>, id: string)
    requires IdsDiffer(records) && forall r | r in records :: r.Obj?
    ensures id in Index(records) <==> |Matching(records, Str(id))| == 1
    ensures id in Index(records) ==>
      Matching(records, Str(id))[0] in records && Get(Matching(records, Str(id))[0], "evidence_id") == Str(id)
      && Index(records)[id] == Norm(Matching(records, Str(id))[0])
  {
    if i: nat :| i < |records| && Get(records[i], "evidence_id") == Str(id) {
      ScanFinds(records, i, id);
    } else {
      forall r | r in records ensures Get(r, "evidence_id") != Str(id) {
        var j :| 0 <= j < |records| && records[j] == r;
      }
      ScanMisses(records, id);
    }
  }
}
