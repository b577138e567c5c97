/**
 * Dose loading (load_plan_dose.py): the final optimised dose of a plan is
 * looked up first among the archive's image records (parent = the plan),
 * then through the plan's trials among the dose-volume records (parent =
 * the trial), and its float32 binary is read and reshaped in row-major order.
 */
module LoadPlanDose {
  import opened Common

  const DoseType: string := "Opt_Dose_After_EOP"

  /**
   * An `image` record or a `doseVolumeList` entry: both carry a type, a
   * parent and an array header. Header numbers are pre-parsed.
   */
  datatype DoseNode = DoseNode(
    imageType: Field,         // imageType
    parent: Field,            // dbInfo/databaseParent
    frameOfReference: Field,  // frameOfReference
    fileName: Field,          // arrayHeader/binaryFileName
    dims: Dims,               // arrayHeader/dimensions
    start: Vec3,              // arrayHeader/start
    width: Vec3)              // arrayHeader/elementSize

  /** A `patientPlanTrial` record: `dbInfo/databaseUID` and `dbInfo/databaseParent`. */
  datatype Trial = Trial(uid: Field, parent: Field)

  /** The records the dose loader reads, each list in document order. */
  datatype DoseArchive = DoseArchive(images: seq<DoseNode>, trials: seq<Trial>, doseVolumes: seq<DoseNode>)

  datatype DoseHeader = DoseHeader(frameOfReference: Option<string>, fileName: string, geometry: Geometry)

  /** The `dose` dictionary; an entry that was never written is None. */
  datatype DoseRecord = DoseRecord(header: Option<DoseHeader>, data: Option<Volume<Num>>)

  const EmptyDose: DoseRecord := DoseRecord(None, None)

  /** Python truthiness of the dictionary. */
  predicate NonEmpty(r: DoseRecord) {
    r.header.Some? || r.data.Some?
  }

  /** A final dose whose `findtext` parent equals `parent` (None matches an absent parent). */
  predicate IsDoseOf(n: DoseNode, parent: Option<string>) {
    n.imageType == Some(DoseType) && n.parent == parent
  }

  /** Position of sample `(i, j, k)` in a row-major (C order) buffer. */
  function RowMajorIndex(d: Dims, i: nat, j: nat, k: nat): nat {
    (i * d.ny + j) * d.nz + k
  }

  lemma RowMajorBound(d: Dims, i: nat, j: nat, k: nat)
    requires i < d.nx && j < d.ny && k < d.nz
    ensures RowMajorIndex(d, i, j, k) < d.Count()
  {
    var p := i * d.ny + j;
    assert p + 1 <= d.nx * d.ny by {
      assert i * d.ny + d.ny == (i + 1) * d.ny;
      MulMono(d.ny, i + 1, d.nx);
    }
    assert p * d.nz + d.nz == (p + 1) * d.nz;
    MulMono(d.nz, p + 1, d.nx * d.ny);
  }

  /** Sample `(i, j, k)` of a row-major buffer of shape `d`. */
  function RowMajorAt<T>(raw: seq<T>, d: Dims, i: nat, j: nat, k: nat): T
    requires |raw| == d.Count() && i < d.nx && j < d.ny && k < d.nz
  {
    RowMajorBound(d, i, j, k);
    raw[RowMajorIndex(d, i, j, k)]
  }

  /** `raw.reshape(d)`: the last index varies fastest. */
  function ReshapeC<T>(raw: seq<T>, d: Dims): (v: Volume<T>)
    requires |raw| == d.Count()
    ensures Shaped(v, d)
    ensures forall i, j, k :: 0 <= i < d.nx && 0 <= j < d.ny && 0 <= k < d.nz ==>
              v[i][j][k] == RowMajorAt(raw, d, i, j, k)
  {
    seq(d.nx, i requires 0 <= i < d.nx =>
      seq(d.ny, j requires 0 <= j < d.ny =>
        seq(d.nz, k requires 0 <= k < d.nz => RowMajorAt(raw, d, i, j, k))))
  }

  /**
   * Every raw sample lands in the volume: sample `n` is at
   * `(n div nz div ny, (n div nz) mod ny, n mod nz)`.
   */
  lemma ReshapeCCovers<T>(raw: seq<T>, d: Dims, n: nat) returns (i: nat, j: nat, k: nat)
    requires |raw| == d.Count() && n < |raw|
    ensures i < d.nx && j < d.ny && k < d.nz
    ensures i == n / d.nz / d.ny && j == (n / d.nz) % d.ny && k == n % d.nz
    ensures ReshapeC(raw, d)[i][j][k] == raw[n]
  {
    var ny, nz := d.ny, d.nz;
    assert d.nx > 0 && ny > 0 && nz > 0;
    var q := n / nz;
    assert q < ny * d.nx by {
      assert d.Count() == nz * (d.nx * ny);
      DivBound(n, nz, d.nx * ny);
    }
    assert q / ny < d.nx by {
      DivBound(q, ny, d.nx);
    }
    i, j, k := q / ny, q % ny, n % nz;
    assert q == i * ny + j;
    assert n == q * nz + k;
    assert RowMajorIndex(d, i, j, k) == n;
  }

  function HeaderOf(n: DoseNode): DoseHeader
    requires n.fileName.Some?
  {
    DoseHeader(n.frameOfReference, n.fileName.value, Geometry(n.dims, n.start, n.width))
  }

  /** `_load_binary_data` on the dictionary `rec`. */
  function LoadBinarySpec(rec: DoseRecord, files: map<string, seq<Num>>): Result<DoseRecord>
    requires rec.header.Some?
  {
    var h := rec.header.value;
    if h.fileName !in files then Err(BinaryNotFound(h.fileName))
    else if |files[h.fileName]| != h.geometry.dims.Count() then Err(ShapeMismatch(|files[h.fileName]|, h.geometry.dims.Count()))
    else Ok(rec.(data := Some(ReshapeC(files[h.fileName], h.geometry.dims))))
  }

  /**
   * What a matching node does: it writes the header entries (a missing file
   * name makes `os.path.join` raise first) and loads the binary.
   */
  function LoadNodeSpec(rec: DoseRecord, n: DoseNode, files: map<string, seq<Num>>): Result<DoseRecord> {
    if n.fileName.None? then Err(MissingFileName)
    else LoadBinarySpec(rec.(header := Some(HeaderOf(n))), files)
  }

  /** `_search_trial_dose`: every matching dose volume, in document order, is loaded over the previous one. */
  function SearchTrial(rec: DoseRecord, vols: seq<DoseNode>, trialUid: Option<string>, files: map<string, seq<Num>>): Result<DoseRecord> {
    if vols == [] then Ok(rec)
    else
      var last := vols[|vols| - 1];
      match SearchTrial(rec, vols[..|vols| - 1], trialUid, files)
      case Err(e) => Err(e)
      case Ok(r) => if IsDoseOf(last, trialUid) then LoadNodeSpec(r, last, files) else Ok(r)
  }

  /** The trial loop: stops at the first trial of the plan after which the dictionary is non-empty. */
  function TrialStage(rec: DoseRecord, trials: seq<Trial>, vols: seq<DoseNode>, planUid: string,
                      files: map<string, seq<Num>>, notFound: Error): Result<DoseRecord>
    decreases |trials|
  {
    if trials == [] then Err(notFound)
    else if trials[0].parent == Some(planUid) then
      match SearchTrial(rec, vols, trials[0].uid, files)
      case Err(e) => Err(e)
      case Ok(r) => if NonEmpty(r) then Ok(r) else TrialStage(r, trials[1..], vols, planUid, files, notFound)
    else TrialStage(rec, trials[1..], vols, planUid, files, notFound)
  }

  /** Index of the first image record that is the plan's final dose. */
  function FirstDirect(images: seq<DoseNode>, planUid: string): (j: Option<nat>)
    ensures j.Some? ==> j.value < |images| && IsDoseOf(images[j.value], Some(planUid))
    ensures j.Some? ==> forall k :: 0 <= k < j.value ==> !IsDoseOf(images[k], Some(planUid))
    ensures j.None? ==> forall k :: 0 <= k < |images| ==> !IsDoseOf(images[k], Some(planUid))
  {
    if images == [] then None
    else if IsDoseOf(images[0], Some(planUid)) then Some(0)
    else match FirstDirect(images[1..], planUid)
      case None => None
      case Some(k) => Some(k + 1)
  }

  /** The `imageType` texts of the scanned image records, in order. */
  function ImageTypes(images: seq<DoseNode>): (ts: seq<Option<string>>)
    ensures |ts| == |images| && forall i :: 0 <= i < |images| ==> ts[i] == images[i].imageType
  {
    if images == [] then [] else ImageTypes(images[..|images| - 1]) + [images[|images| - 1].imageType]
  }

  /** The `databaseParent` texts of the scanned image records, in order. */
  function ImageParents(images: seq<DoseNode>): (ps: seq<Option<string>>)
    ensures |ps| == |images| && forall i :: 0 <= i < |images| ==> ps[i] == images[i].parent
  {
    if images == [] then [] else ImageParents(images[..|images| - 1]) + [images[|images| - 1].parent]
  }

  /** `load_dose` on the dictionary `rec`. */
  function LoadDoseSpec(rec: DoseRecord, xml: Option<DoseArchive>, files: map<string, seq<Num>>, planUid: string): Result<DoseRecord> {
    if xml.None? then Err(XmlNotFound)
    else
      var g := xml.value;
      match FirstDirect(g.images, planUid)
      case Some(j) => LoadNodeSpec(rec, g.images[j], files)
      case None => TrialStage(rec, g.trials, g.doseVolumes, planUid, files,
                              DoseNotFound(ImageTypes(g.images), ImageParents(g.images)))
  }

  /** Once a trial search has failed, later dose volumes do not matter. */
  lemma {:induction false} SearchErrorPersists(rec: DoseRecord, vols: seq<DoseNode>, t: Option<string>, files: map<string, seq<Num>>, k: nat)
    requires k <= |vols| && SearchTrial(rec, vols[..k], t, files).Err?
    ensures SearchTrial(rec, vols, t, files) == SearchTrial(rec, vols[..k], t, files)
    decreases |vols| - k
  {
    if k < |vols| {
      assert vols[..k + 1][..k] == vols[..k];
      SearchErrorPersists(rec, vols, t, files, k + 1);
    } else {
      assert vols[..k] == vols;
    }
  }

  /**
   * A trial search leaves the dictionary as it was when no volume matches,
   * and otherwise holds the header and samples of the last matching volume.
   */
  lemma {:induction false} SearchTrialLastMatch(rec: DoseRecord, vols: seq<DoseNode>, t: Option<string>, files: map<string, seq<Num>>)
    requires SearchTrial(rec, vols, t, files).Ok?
    ensures var r := SearchTrial(rec, vols, t, files).value;
            ((forall k :: 0 <= k < |vols| ==> !IsDoseOf(vols[k], t)) ==> r == rec) &&
            (forall k :: 0 <= k < |vols| && IsDoseOf(vols[k], t) &&
                         (forall m :: k < m < |vols| ==> !IsDoseOf(vols[m], t)) ==>
               vols[k].fileName.Some? && r.header == Some(HeaderOf(vols[k])) && r.data.Some? &&
               Shaped(r.data.value, vols[k].dims))
  {
    if vols != [] {
      var init, last := vols[..|vols| - 1], vols[|vols| - 1];
      SearchTrialLastMatch(rec, init, t, files);
      var r0 := SearchTrial(rec, init, t, files).value;
      var r := SearchTrial(rec, vols, t, files).value;
      if IsDoseOf(last, t) {
        assert r == LoadNodeSpec(r0, last, files).value;
        forall k | 0 <= k < |vols| && IsDoseOf(vols[k], t) && (forall m :: k < m < |vols| ==> !IsDoseOf(vols[m], t))
          ensures k == |vols| - 1
        {
          if k < |vols| - 1 {
            assert false;
          }
        }
      } else {
        assert r == r0;
        assert forall k :: 0 <= k < |init| ==> vols[k] == init[k];
      }
    }
  }

  /** A trial search leaves the dictionary non-empty exactly when it was, or some volume matches. */
  lemma SearchTrialNonEmpty(rec: DoseRecord, vols: seq<DoseNode>, t: Option<string>, files: map<string, seq<Num>>)
    requires SearchTrial(rec, vols, t, files).Ok?
    ensures NonEmpty(SearchTrial(rec, vols, t, files).value) <==>
            NonEmpty(rec) || exists k :: 0 <= k < |vols| && IsDoseOf(vols[k], t)
  {
    SearchTrialLastMatch(rec, vols, t, files);
    if exists k :: 0 <= k < |vols| && IsDoseOf(vols[k], t) {
      var k := LastIndex(vols, t);
    }
  }

  /** The last matching volume of a list that has one. */
  lemma LastIndex(vols: seq<DoseNode>, t: Option<string>) returns (k: nat)
    requires exists k :: 0 <= k < |vols| && IsDoseOf(vols[k], t)
    ensures k < |vols| && IsDoseOf(vols[k], t) && forall m :: k < m < |vols| ==> !IsDoseOf(vols[m], t)
  {
    var i :| 0 <= i < |vols| && IsDoseOf(vols[i], t);
    k := i;
    while k + 1 < |vols| && exists m :: k < m < |vols| && IsDoseOf(vols[m], t)
      invariant k < |vols| && IsDoseOf(vols[k], t)
      decreases |vols| - k
    {
      var m :| k < m < |vols| && IsDoseOf(vols[m], t);
      k := m;
    }
  }

  /**
   * From a fresh dictionary, a dose found through the trials comes from a
   * final-dose volume whose parent is the UID of a trial of the plan.
   */
  lemma {:induction false} TrialStageProvenance(rec: DoseRecord, trials: seq<Trial>, vols: seq<DoseNode>, planUid: string,
                                               files: map<string, seq<Num>>, notFound: Error)
    requires rec == EmptyDose
    requires TrialStage(rec, trials, vols, planUid, files, notFound).Ok?
    ensures var r := TrialStage(rec, trials, vols, planUid, files, notFound).value;
            exists t, n :: t in trials && t.parent == Some(planUid) && n in vols && IsDoseOf(n, t.uid) &&
                           n.fileName.Some? && r.header == Some(HeaderOf(n)) && r.data.Some? && Shaped(r.data.value, n.dims)
  {
    var t := trials[0];
    if t.parent == Some(planUid) {
      var r := SearchTrial(rec, vols, t.uid, files).value;
      SearchTrialLastMatch(rec, vols, t.uid, files);
      if NonEmpty(r) {
        var k := LastIndex(vols, t.uid);
        assert vols[k] in vols;
      } else {
        TrialStageProvenance(r, trials[1..], vols, planUid, files, notFound);
        ProvenanceFromTail(trials, vols, planUid, TrialStage(r, trials[1..], vols, planUid, files, notFound).value);
      }
    } else {
      TrialStageProvenance(rec, trials[1..], vols, planUid, files, notFound);
      ProvenanceFromTail(trials, vols, planUid, TrialStage(rec, trials[1..], vols, planUid, files, notFound).value);
    }
  }

  /** A witness among the later trials is a witness among all of them. */
  lemma ProvenanceFromTail(trials: seq<Trial>, vols: seq<DoseNode>, planUid: string, r: DoseRecord)
    requires |trials| > 0
    requires exists t, n :: t in trials[1..] && t.parent == Some(planUid) && n in vols && IsDoseOf(n, t.uid) &&
                            n.fileName.Some? && r.header == Some(HeaderOf(n)) && r.data.Some? && Shaped(r.data.value, n.dims)
    ensures exists t, n :: t in trials && t.parent == Some(planUid) && n in vols && IsDoseOf(n, t.uid) &&
                           n.fileName.Some? && r.header == Some(HeaderOf(n)) && r.data.Some? && Shaped(r.data.value, n.dims)
  {
    var t, n :| t in trials[1..] && t.parent == Some(planUid) && n in vols && IsDoseOf(n, t.uid) &&
                n.fileName.Some? && r.header == Some(HeaderOf(n)) && r.data.Some? && Shaped(r.data.value, n.dims);
    assert t in trials;
  }

  /**
   * From a fresh dictionary, every dose `load_dose` returns is a final dose
   * whose parent is the plan itself or a trial of the plan, with the header
   * and shape of that record; a direct match is always the first one.
   */
  lemma DoseProvenance(xml: Option<DoseArchive>, files: map<string, seq<Num>>, planUid: string)
    requires LoadDoseSpec(EmptyDose, xml, files, planUid).Ok?
    ensures var r := LoadDoseSpec(EmptyDose, xml, files, planUid).value;
            var g := xml.value;
            (FirstDirect(g.images, planUid).Some? ==>
               var n := g.images[FirstDirect(g.images, planUid).value];
               n.fileName.Some? && r.header == Some(HeaderOf(n)) && r.data.Some? && Shaped(r.data.value, n.dims)) &&
            (FirstDirect(g.images, planUid).None? ==>
               exists t, n :: t in g.trials && t.parent == Some(planUid) && n in g.doseVolumes && IsDoseOf(n, t.uid) &&
                              n.fileName.Some? && r.header == Some(HeaderOf(n)) && r.data.Some? && Shaped(r.data.value, n.dims))
  {
    var g := xml.value;
    if FirstDirect(g.images, planUid).None? {
      TrialStageProvenance(EmptyDose, g.trials, g.doseVolumes, planUid, files,
                           DoseNotFound(ImageTypes(g.images), ImageParents(g.images)));
    }
  }

  /** A trial of the plan together with one of its final doses. */
  predicate TrialDoseExists(trials: seq<Trial>, vols: seq<DoseNode>, planUid: string) {
    exists t, n :: t in trials && t.parent == Some(planUid) && n in vols && IsDoseOf(n, t.uid)
  }

  /** From a fresh dictionary, the trial stage reports "not found" exactly when no trial of the plan has a final dose. */
  lemma {:induction false} TrialStageNotFound(rec: DoseRecord, trials: seq<Trial>, vols: seq<DoseNode>, planUid: string,
                                             files: map<string, seq<Num>>, notFound: Error)
    requires rec == EmptyDose
    requires notFound.DoseNotFound?
    ensures TrialStage(rec, trials, vols, planUid, files, notFound) == Err(notFound) <==>
            !TrialDoseExists(trials, vols, planUid)
  {
    if trials != [] {
      var t := trials[0];
      assert forall u :: u in trials <==> u == t || u in trials[1..];
      TrialStageNotFound(rec, trials[1..], vols, planUid, files, notFound);
      if t.parent == Some(planUid) {
        var s := SearchTrial(rec, vols, t.uid, files);
        if s.Ok? {
          SearchTrialNonEmpty(rec, vols, t.uid, files);
          if !NonEmpty(s.value) {
            assert s.value == rec by { SearchTrialLastMatch(rec, vols, t.uid, files); }
          } else {
            var k :| 0 <= k < |vols| && IsDoseOf(vols[k], t.uid);
            assert vols[k] in vols;
          }
        } else {
          SearchErrorIsLoadError(rec, vols, t.uid, files);
          var k :| 0 <= k < |vols| && IsDoseOf(vols[k], t.uid);
          assert vols[k] in vols;
        }
      }
    }
  }

  /** A failed trial search failed while loading some matching volume, never with "not found". */
  lemma {:induction false} SearchErrorIsLoadError(rec: DoseRecord, vols: seq<DoseNode>, t: Option<string>, files: map<string, seq<Num>>)
    requires SearchTrial(rec, vols, t, files).Err?
    ensures !SearchTrial(rec, vols, t, files).error.DoseNotFound?
    ensures exists k :: 0 <= k < |vols| && IsDoseOf(vols[k], t)
  {
    var init, last := vols[..|vols| - 1], vols[|vols| - 1];
    if SearchTrial(rec, init, t, files).Err? {
      SearchErrorIsLoadError(rec, init, t, files);
      var k :| 0 <= k < |init| && IsDoseOf(init[k], t);
      assert vols[k] == init[k];
    } else {
      assert IsDoseOf(vols[|vols| - 1], t);
    }
  }

  /**
   * From a fresh dictionary, `load_dose` raises the "not found" error, listing
   * the type and parent of every image record in order, exactly when no image
   * record is the plan's final dose and no trial of the plan has one.
   */
  lemma DoseNotFoundIff(xml: Option<DoseArchive>, files: map<string, seq<Num>>, planUid: string)
    requires xml.Some?
    ensures var g := xml.value;
            LoadDoseSpec(EmptyDose, xml, files, planUid) == Err(DoseNotFound(ImageTypes(g.images), ImageParents(g.images))) <==>
            (forall k :: 0 <= k < |g.images| ==> !IsDoseOf(g.images[k], Some(planUid))) &&
            !TrialDoseExists(g.trials, g.doseVolumes, planUid)
  {
    var g := xml.value;
    TrialStageNotFound(EmptyDose, g.trials, g.doseVolumes, planUid, files,
                       DoseNotFound(ImageTypes(g.images), ImageParents(g.images)));
  }

  class DoseLoader {
    const planUid: string
    var dose: DoseRecord

    constructor(planUid: string)
      ensures this.planUid == planUid && dose == EmptyDose
    {
      this.planUid := planUid;
      dose := EmptyDose;
    }

    /** `_load_binary_data`: reads the float32 binary named by the header and reshapes it (C order). */
    method LoadBinaryData(files: map<string, seq<Num>>) returns (outcome: Outcome)
      requires dose.header.Some?
      modifies this
      ensures var s := LoadBinarySpec(old(dose), files);
              (s.Ok? ==> outcome == Pass && dose == s.value) &&
              (s.Err? ==> outcome == Fail(s.error) && dose == old(dose))
    {
      var h := dose.header.value;
      if h.fileName !in files {
        return Fail(BinaryNotFound(h.fileName));
      }
      var raw := files[h.fileName];
      if |raw| != h.geometry.dims.Count() {
        return Fail(ShapeMismatch(|raw|, h.geometry.dims.Count()));
      }
      dose := dose.(data := Some(ReshapeC(raw, h.geometry.dims)));
      return Pass;
    }

    /** The body shared by both stages for a matching record: header entries, then the binary. */
    method LoadNode(n: DoseNode, files: map<string, seq<Num>>) returns (outcome: Outcome)
      modifies this
      ensures var s := LoadNodeSpec(old(dose), n, files);
              (s.Ok? ==> outcome == Pass && dose == s.value) &&
              (s.Err? ==> outcome == Fail(s.error))
    {
      if n.fileName.None? {
        return Fail(MissingFileName);
      }
      dose := dose.(header := Some(DoseHeader(n.frameOfReference, n.fileName.value, Geometry(n.dims, n.start, n.width))));
      outcome := LoadBinaryData(files);
    }

    /** `_search_trial_dose`: loads every final dose whose parent is the trial. */
    method SearchTrialDose(vols: seq<DoseNode>, trialUid: Option<string>, files: map<string, seq<Num>>) returns (outcome: Outcome)
      modifies this
      ensures var s := SearchTrial(old(dose), vols, trialUid, files);
              (s.Ok? ==> outcome == Pass && dose == s.value) &&
              (s.Err? ==> outcome == Fail(s.error))
    {
      var i := 0;
      while i < |vols|
        invariant 0 <= i <= |vols|
        invariant SearchTrial(old(dose), vols[..i], trialUid, files) == Ok(dose)
      {
        var v := vols[i];
        assert vols[..i + 1][..i] == vols[..i];
        if v.imageType == Some(DoseType) && v.parent == trialUid {
          outcome := LoadNode(v, files);
          if outcome.Fail? {
            SearchErrorPersists(old(dose), vols, trialUid, files, i + 1);
            return;
          }
        }
        i := i + 1;
      }
      assert vols[..i] == vols;
      return Pass;
    }

    /** `load_dose`: the direct lookup, then the trial fallback, then the "not found" error. */
    method LoadDose(xml: Option<DoseArchive>, files: map<string, seq<Num>>) returns (outcome: Outcome)
      modifies this
      ensures var s := LoadDoseSpec(old(dose), xml, files, planUid);
              (s.Ok? ==> outcome == Pass && dose == s.value) &&
              (s.Err? ==> outcome == Fail(s.error))
    {
      if xml.None? {
        return Fail(XmlNotFound);
      }
      var g := xml.value;
      var j, checkedTypes, checkedParents := ScanImages(g.images);
      if j.Some? {
        outcome := LoadNode(g.images[j.value], files);
        return;
      }
      outcome := TrialFallback(g.trials, g.doseVolumes, files, DoseNotFound(checkedTypes, checkedParents));
    }

    /**
     * The image loop of `load_dose`: the first record that is the plan's final
     * dose, and the type and parent of every record checked before it.
     */
    method ScanImages(images: seq<DoseNode>) returns (j: Option<nat>, checkedTypes: seq<Option<string>>,
                                                      checkedParents: seq<Option<string>>)
      ensures j == FirstDirect(images, planUid)
      ensures j.None? ==> checkedTypes == ImageTypes(images) && checkedParents == ImageParents(images)
    {
      checkedTypes := [];
      checkedParents := [];
      var i := 0;
      while i < |images|
        invariant 0 <= i <= |images|
        invariant forall k :: 0 <= k < i ==> !IsDoseOf(images[k], Some(planUid))
        invariant checkedTypes == ImageTypes(images[..i])
        invariant checkedParents == ImageParents(images[..i])
      {
        var node := images[i];
        assert images[..i + 1][..i] == images[..i];
        checkedTypes := checkedTypes + [node.imageType];
        checkedParents := checkedParents + [node.parent];
        if node.imageType == Some(DoseType) && node.parent == Some(planUid) {
          return Some(i), checkedTypes, checkedParents;
        }
        i := i + 1;
      }
      assert images[..i] == images;
      return None, checkedTypes, checkedParents;
    }

    /** The trial loop of `load_dose`: the first trial of the plan that leaves a dose ends it. */
    method TrialFallback(trials: seq<Trial>, vols: seq<DoseNode>, files: map<string, seq<Num>>, notFound: Error)
      returns (outcome: Outcome)
      modifies this
      ensures var s := TrialStage(old(dose), trials, vols, planUid, files, notFound);
              (s.Ok? ==> outcome == Pass && dose == s.value) &&
              (s.Err? ==> outcome == Fail(s.error))
    {
      var t := 0;
      while t < |trials|
        invariant 0 <= t <= |trials|
        invariant TrialStage(old(dose), trials, vols, planUid, files, notFound) ==
                  TrialStage(dose, trials[t..], vols, planUid, files, notFound)
      {
        var trial := trials[t];
        assert trials[t..][1..] == trials[t + 1..];
        if trial.parent == Some(planUid) {
          outcome := SearchTrialDose(vols, trial.uid, files);
          if outcome.Fail? {
            return;
          }
          if NonEmpty(dose) {
            return Pass;
          }
        }
        t := t + 1;
      }
      return Fail(notFound);
    }
  }
}
