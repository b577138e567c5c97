/**
 * Reference-image loading (load_image.py): the `LoadImage` object fills its
 * `image` dictionary from the archive XML (demographics, the requested plan,
 * the first CT image under it) and then reads the image binary, reshapes it
 * in column-major order and rescales it.
 */
module LoadImage {
  import opened Common

  /** The SOP class UID the constructor stores (CT Image Storage). */
  const ImageClassUid: string := "1.2.840.10008.5.1.4.1.1.2"

  /** An `image` record under `fullImageDataArray/fullImageDataArray`. */
  datatype ImageNode = ImageNode(
    imageType: Field,      // imageType
    fileName: Field,       // arrayHeader/binaryFileName
    dims: Dims,            // arrayHeader/dimensions
    start: Vec3,           // arrayHeader/start
    width: Vec3)           // arrayHeader/elementSize

  /** A `fullPlanDataArray/fullPlanDataArray` record with the children the loader reads. */
  datatype PlanNode = PlanNode(
    uid: Field,              // plan/briefPlan/dbInfo/databaseUID (first match)
    ivdt: Field,             // plan/fullDoseIVDT
    position: Field,         // plan/patientPosition
    structureSetUid: Field,  // plan/planStructureSetUID
    images: seq<ImageNode>)

  /**
   * The archive XML as the loader sees it. Numbers found anywhere in the
   * document are pre-parsed: None when the element is absent or has no text.
   */
  datatype ImageArchive = ImageArchive(
    patientName: Field,
    patientId: Field,
    patientBirthDate: Field,
    patientGender: Field,
    windowCenter: Option<real>,
    windowWidth: Option<real>,
    isocenterX: Option<real>,
    isocenterY: Option<real>,
    isocenterZ: Option<real>,
    couchChecksum: Field,
    couchInsertionPosition: Field,
    rescaleSlope: Option<real>,
    rescaleIntercept: Option<real>,
    planNodes: seq<PlanNode>)

  /** The entries a matching plan node writes. */
  datatype PlanFields = PlanFields(
    ivdt: Option<string>,
    position: Option<string>,
    structureSetUid: Option<string>,
    isocenter: Vec3,
    couchChecksum: Option<string>,
    couchInsertionPosition: Option<string>)

  /** The entries the chosen image node writes, with the rescale factors. */
  datatype ImageHeader = ImageHeader(geometry: Geometry, rescaleSlope: real, rescaleIntercept: real)

  /** The `image` dictionary; an entry that was never written is None. */
  datatype ImageRecord = ImageRecord(
    patientName: Option<string>,
    patientId: Option<string>,
    patientBirthDate: Option<string>,
    patientSex: Option<string>,
    windowCenter: Option<real>,
    windowWidth: Option<real>,
    plan: Option<PlanFields>,
    fileName: Option<string>,
    header: Option<ImageHeader>,
    data: Option<Volume<real>>)

  /** The dictionary right after construction: only the class UID. */
  const EmptyImage: ImageRecord :=
    ImageRecord(None, None, None, None, None, None, None, None, None, None)

  /** A plan node is the requested plan when the text of its first UID equals the plan UID. */
  predicate Matches(n: PlanNode, planUid: string) {
    ExtractText(n.uid) == Some(planUid)
  }

  /** A reference image has type `KVCT` or `Registered_MVCT`. */
  predicate IsReference(img: ImageNode) {
    ExtractText(img.imageType) in {Some("KVCT"), Some("Registered_MVCT")}
  }

  /** Index of the first reference image, the one whose `break` ends the scan. */
  function FirstReference(images: seq<ImageNode>): (j: Option<nat>)
    ensures j.Some? ==> j.value < |images| && IsReference(images[j.value])
    ensures j.Some? ==> forall k :: 0 <= k < j.value ==> !IsReference(images[k])
    ensures j.None? ==> forall k :: 0 <= k < |images| ==> !IsReference(images[k])
  {
    if images == [] then None
    else if IsReference(images[0]) then Some(0)
    else match FirstReference(images[1..])
      case None => None
      case Some(k) => Some(k + 1)
  }

  /** `position_node[0].text if position_node else "Unknown"`. */
  function PositionOf(f: Field): (p: Option<string>)
    ensures f.None? ==> p == Some("Unknown")
    ensures Truthy(f) ==> p == f
  {
    if f.None? then Some("Unknown") else NodeText(f)
  }

  function PlanFieldsOf(g: ImageArchive, n: PlanNode): PlanFields {
    PlanFields(
      ExtractText(n.ivdt),
      PositionOf(n.position),
      ExtractText(n.structureSetUid),
      Vec3(g.isocenterX.GetOr(0.0), g.isocenterY.GetOr(0.0), g.isocenterZ.GetOr(0.0)),
      ExtractText(g.couchChecksum),
      ExtractText(g.couchInsertionPosition))
  }

  function HeaderOf(g: ImageArchive, img: ImageNode): ImageHeader {
    ImageHeader(Geometry(img.dims, img.start, img.width), g.rescaleSlope.GetOr(1.0), g.rescaleIntercept.GetOr(-1024.0))
  }

  /**
   * What the chosen image writes: the file name only when the element
   * exists (an element without text makes `os.path.join` raise), then the
   * header entries.
   */
  function ApplyImage(rec: ImageRecord, g: ImageArchive, img: ImageNode): Result<ImageRecord> {
    if img.fileName == Some("") then Err(MissingFileName)
    else Ok(rec.(fileName := if img.fileName.Some? then img.fileName else rec.fileName,
                 header := Some(HeaderOf(g, img))))
  }

  /** What one matching plan node writes. */
  function ApplyPlan(rec: ImageRecord, g: ImageArchive, n: PlanNode): Result<ImageRecord> {
    var r := rec.(plan := Some(PlanFieldsOf(g, n)));
    match FirstReference(n.images)
    case None => Ok(r)
    case Some(j) => ApplyImage(r, g, n.images[j])
  }

  /** The plan-node loop: every matching node, in document order, writes over the previous ones. */
  function ScanPlans(rec: ImageRecord, g: ImageArchive, nodes: seq<PlanNode>, planUid: string): Result<ImageRecord> {
    if nodes == [] then Ok(rec)
    else
      var last := nodes[|nodes| - 1];
      match ScanPlans(rec, g, nodes[..|nodes| - 1], planUid)
      case Err(e) => Err(e)
      case Ok(r) => if Matches(last, planUid) then ApplyPlan(r, g, last) else Ok(r)
  }

  /** The demographic and window entries written before the plan scan. */
  function Demographics(rec: ImageRecord, g: ImageArchive): ImageRecord {
    rec.(patientName := ExtractText(g.patientName),
         patientId := ExtractText(g.patientId),
         patientBirthDate := ExtractText(g.patientBirthDate),
         patientSex := ExtractText(g.patientGender),
         windowCenter := Some(g.windowCenter.GetOr(0.0)),
         windowWidth := Some(g.windowWidth.GetOr(1000.0)))
  }

  /** `parse_xml` on the dictionary `rec`. */
  function ParseSpec(rec: ImageRecord, xml: Option<ImageArchive>, files: map<string, seq<U16>>, planUid: string): Result<ImageRecord> {
    if xml.None? then Err(XmlNotFound)
    else
      var g := xml.value;
      match ScanPlans(Demographics(rec, g), g, g.planNodes, planUid)
      case Err(e) => Err(e)
      case Ok(r) =>
        if r.fileName.None? then Err(NoBinaryFile)
        else if r.fileName.value !in files then Err(BinaryNotFound(r.fileName.value))
        else Ok(r)
  }

  /** Once the scan has failed, later plan nodes do not matter. */
  lemma {:induction false} ScanErrorPersists(rec: ImageRecord, g: ImageArchive, nodes: seq<PlanNode>, planUid: string, k: nat)
    requires k <= |nodes| && ScanPlans(rec, g, nodes[..k], planUid).Err?
    ensures ScanPlans(rec, g, nodes, planUid) == ScanPlans(rec, g, nodes[..k], planUid)
    decreases |nodes| - k
  {
    if k < |nodes| {
      assert nodes[..k + 1][..k] == nodes[..k];
      ScanErrorPersists(rec, g, nodes, planUid, k + 1);
    } else {
      assert nodes[..k] == nodes;
    }
  }

  /** The plan nodes of the requested plan, in document order. */
  function MatchingNodes(nodes: seq<PlanNode>, planUid: string): (ms: seq<PlanNode>)
    ensures forall n :: n in ms <==> n in nodes && Matches(n, planUid)
  {
    if nodes == [] then []
    else
      var last := nodes[|nodes| - 1];
      assert nodes == nodes[..|nodes| - 1] + [last];
      MatchingNodes(nodes[..|nodes| - 1], planUid) + (if Matches(last, planUid) then [last] else [])
  }

  /** Plan nodes of other plans are never read: the scan sees only the matching ones. */
  lemma {:induction false} ScanOnlyMatching(rec: ImageRecord, g: ImageArchive, nodes: seq<PlanNode>, planUid: string)
    ensures ScanPlans(rec, g, nodes, planUid) == ScanPlans(rec, g, MatchingNodes(nodes, planUid), planUid)
  {
    if nodes != [] {
      var init, last := nodes[..|nodes| - 1], nodes[|nodes| - 1];
      ScanOnlyMatching(rec, g, init, planUid);
      var ms := MatchingNodes(init, planUid);
      if Matches(last, planUid) {
        assert (ms + [last])[..|ms + [last]| - 1] == ms;
      } else {
        assert ms + [] == ms;
      }
    }
  }

  /**
   * The header, if the scan changed it, is that of the first reference
   * image of some plan node of the requested plan.
   */
  lemma {:induction false} ScanHeaderProvenance(rec: ImageRecord, g: ImageArchive, nodes: seq<PlanNode>, planUid: string)
    requires ScanPlans(rec, g, nodes, planUid).Ok?
    ensures var r := ScanPlans(rec, g, nodes, planUid).value;
            r.header == rec.header ||
            exists n :: n in nodes && Matches(n, planUid) && FirstReference(n.images).Some? &&
                        r.header == Some(HeaderOf(g, n.images[FirstReference(n.images).value]))
  {
    if nodes != [] {
      var init, last := nodes[..|nodes| - 1], nodes[|nodes| - 1];
      ScanHeaderProvenance(rec, g, init, planUid);
      assert forall n :: n in init ==> n in nodes;
    }
  }

  /** When the last node of the requested plan has a reference image, its header is the one kept. */
  lemma LastMatchingPlanWins(rec: ImageRecord, g: ImageArchive, nodes: seq<PlanNode>, planUid: string, n: PlanNode)
    requires ScanPlans(rec, g, nodes + [n], planUid).Ok?
    requires Matches(n, planUid) && FirstReference(n.images).Some?
    ensures ScanPlans(rec, g, nodes + [n], planUid).value.header == Some(HeaderOf(g, n.images[FirstReference(n.images).value]))
  {
    assert (nodes + [n])[..|nodes + [n]| - 1] == nodes;
  }

  /** Position of sample `(i, j, k)` in a column-major (`order='F'`) buffer. */
  function ColumnMajorIndex(d: Dims, i: nat, j: nat, k: nat): nat {
    i + d.nx * j + d.nx * d.ny * k
  }

  lemma ColumnMajorBound(d: Dims, i: nat, j: nat, k: nat)
    requires i < d.nx && j < d.ny && k < d.nz
    ensures ColumnMajorIndex(d, i, j, k) < d.Count()
  {
    var p := d.nx * d.ny;
    assert d.nx * j + d.nx == d.nx * (j + 1);
    assert d.nx * (j + 1) <= p by { MulMono(d.nx, j + 1, d.ny); }
    assert p * k + p == p * (k + 1);
    assert p * (k + 1) <= p * d.nz by { MulMono(p, k + 1, d.nz); }
    assert d.nx * d.ny * k == p * k;
  }

  /** Sample `(i, j, k)` of a column-major buffer of shape `d`. */
  function ColumnMajorAt<T>(raw: seq<T>, d: Dims, i: nat, j: nat, k: nat): T
    requires |raw| == d.Count() && i < d.nx && j < d.ny && k < d.nz
  {
    ColumnMajorBound(d, i, j, k);
    raw[ColumnMajorIndex(d, i, j, k)]
  }

  /** `raw.reshape(d, order='F')`: the first index varies fastest. */
  function ReshapeF<T>(raw: seq<T>, d: Dims): (v: Volume<T>)
    requires |raw| == d.Count()
    ensures Shaped(v, d)
    ensures forall i, j, k :: 0 <= i < d.nx && 0 <= j < d.ny && 0 <= k < d.nz ==>
              v[i][j][k] == ColumnMajorAt(raw, d, i, j, k)
  {
    seq(d.nx, i requires 0 <= i < d.nx =>
      seq(d.ny, j requires 0 <= j < d.ny =>
        seq(d.nz, k requires 0 <= k < d.nz => ColumnMajorAt(raw, d, i, j, k))))
  }

  /**
   * Every raw sample lands in the volume: sample `n` is at
   * `(n mod nx, (n div nx) mod ny, n div nx div ny)`.
   */
  lemma ReshapeFCovers<T>(raw: seq<T>, d: Dims, n: nat) returns (i: nat, j: nat, k: nat)
    requires |raw| == d.Count() && n < |raw|
    ensures i < d.nx && j < d.ny && k < d.nz
    ensures i == n % d.nx && j == (n / d.nx) % d.ny && k == n / d.nx / d.ny
    ensures ReshapeF(raw, d)[i][j][k] == raw[n]
  {
    var nx, ny := d.nx, d.ny;
    assert nx > 0 && ny > 0 && d.nz > 0;
    var q := n / nx;
    assert q < ny * d.nz by {
      assert d.Count() == nx * (ny * d.nz);
      DivBound(n, nx, ny * d.nz);
    }
    assert q / ny < d.nz by {
      DivBound(q, ny, d.nz);
    }
    i, j, k := n % nx, q % ny, q / ny;
    assert q == k * ny + j;
    assert n == q * nx + i;
    assert nx * j + nx * ny * k == nx * q;
    assert ColumnMajorIndex(d, i, j, k) == n;
  }

  /** `astype(float32) * slope + intercept` on every sample. */
  function Rescale(v: Volume<U16>, slope: real, intercept: real): Volume<real> {
    MapVolume(v, (x: U16) => x as real * slope + intercept)
  }

  /** Rescaling loses nothing when the slope is non-zero: the stored values come back. */
  lemma RescaleInverse(v: Volume<U16>, slope: real, intercept: real, i: nat, j: nat, k: nat)
    requires slope != 0.0
    requires i < |v| && j < |v[i]| && k < |v[i][j]|
    ensures (Rescale(v, slope, intercept)[i][j][k] - intercept) / slope == v[i][j][k] as real
  {
    var x := v[i][j][k] as real;
    assert Rescale(v, slope, intercept)[i][j][k] == x * slope + intercept;
    assert (x * slope + intercept - intercept) / slope == (x * slope) / slope;
  }

  /** `load_binary_data` on the dictionary `rec`. */
  function LoadBinarySpec(rec: ImageRecord, files: map<string, seq<U16>>): Result<ImageRecord>
    requires rec.fileName.Some? && rec.header.Some?
  {
    var name, h := rec.fileName.value, rec.header.value;
    if name !in files then Err(BinaryNotFound(name))
    else if |files[name]| != h.geometry.dims.Count() then Err(ShapeMismatch(|files[name]|, h.geometry.dims.Count()))
    else Ok(rec.(data := Some(Rescale(ReshapeF(files[name], h.geometry.dims), h.rescaleSlope, h.rescaleIntercept))))
  }

  /** A successful load leaves a volume of the declared shape whose samples are the rescaled column-major samples. */
  lemma LoadBinaryShape(rec: ImageRecord, files: map<string, seq<U16>>)
    requires rec.fileName.Some? && rec.header.Some?
    requires LoadBinarySpec(rec, files).Ok?
    ensures var r := LoadBinarySpec(rec, files).value;
            var h := rec.header.value;
            var raw := files[rec.fileName.value];
            var d := h.geometry.dims;
            r.data.Some? && Shaped(r.data.value, d) &&
            forall i, j, k :: 0 <= i < d.nx && 0 <= j < d.ny && 0 <= k < d.nz ==>
              r.data.value[i][j][k] == ColumnMajorAt(raw, d, i, j, k) as real * h.rescaleSlope + h.rescaleIntercept
  {
    var d := rec.header.value.geometry.dims;
    var v := ReshapeF(files[rec.fileName.value], d);
    assert Shaped(v, d);
  }

  class ImageLoader {
    const planUid: string
    var image: ImageRecord

    predicate Valid()
      reads this
    {
      WellFormed(image)
    }

    constructor(planUid: string)
      ensures this.planUid == planUid && image == EmptyImage && Valid()
    {
      this.planUid := planUid;
      image := EmptyImage;
    }

    /** `parse_xml`: fills the dictionary from the archive, or raises. */
    method ParseXml(xml: Option<ImageArchive>, files: map<string, seq<U16>>) returns (outcome: Outcome)
      modifies this
      ensures var s := ParseSpec(old(image), xml, files, planUid);
              (s.Ok? ==> outcome == Pass && image == s.value) &&
              (s.Err? ==> outcome == Fail(s.error))
    {
      if xml.None? {
        return Fail(XmlNotFound);
      }
      var g := xml.value;
      image := image.(patientName := ExtractText(g.patientName),
                      patientId := ExtractText(g.patientId),
                      patientBirthDate := ExtractText(g.patientBirthDate),
                      patientSex := ExtractText(g.patientGender));
      image := image.(windowCenter := Some(g.windowCenter.GetOr(0.0)),
                      windowWidth := Some(g.windowWidth.GetOr(1000.0)));
      ghost var start := image;
      assert start == Demographics(old(image), g);

      var nodes := g.planNodes;
      var i := 0;
      while i < |nodes|
        invariant 0 <= i <= |nodes|
        invariant ScanPlans(start, g, nodes[..i], planUid) == Ok(image)
      {
        var n := nodes[i];
        assert nodes[..i + 1][..i] == nodes[..i];
        if !Matches(n, planUid) {
          i := i + 1;
          continue;
        }
        image := image.(plan := Some(PlanFieldsOf(g, n)));
        ghost var planned := image;
        var j := 0;
        while j < |n.images|
          invariant 0 <= j <= |n.images|
          invariant forall k :: 0 <= k < j ==> !IsReference(n.images[k])
          invariant image == planned
        {
          var img := n.images[j];
          if !IsReference(img) {
            j := j + 1;
            continue;
          }
          assert FirstReference(n.images) == Some(j);
          if img.fileName.Some? {
            if img.fileName.value == "" {
              ScanErrorPersists(start, g, nodes, planUid, i + 1);
              return Fail(MissingFileName);
            }
            image := image.(fileName := img.fileName);
          }
          image := image.(header := Some(HeaderOf(g, img)));
          break;
        }
        assert ApplyPlan(planned, g, n) == Ok(image) by {
          if FirstReference(n.images).None? {
            assert image == planned;
          }
        }
        i := i + 1;
      }
      assert nodes[..i] == nodes;

      if image.fileName.None? {
        return Fail(NoBinaryFile);
      }
      if image.fileName.value !in files {
        return Fail(BinaryNotFound(image.fileName.value));
      }
      return Pass;
    }

    /** `load_binary_data`: reads, reshapes (column-major) and rescales the image binary. */
    method LoadBinaryData(files: map<string, seq<U16>>) returns (outcome: Outcome)
      requires image.fileName.Some? && image.header.Some?
      modifies this
      ensures var s := LoadBinarySpec(old(image), files);
              (s.Ok? ==> outcome == Pass && image == s.value) &&
              (s.Err? ==> outcome == Fail(s.error) && image == old(image))
    {
      var name := image.fileName.value;
      if name !in files {
        return Fail(BinaryNotFound(name));
      }
      var raw := files[name];
      var h := image.header.value;
      if |raw| != h.geometry.dims.Count() {
        return Fail(ShapeMismatch(|raw|, h.geometry.dims.Count()));
      }
      var shaped := ReshapeF(raw, h.geometry.dims);
      image := image.(data := Some(Rescale(shaped, h.rescaleSlope, h.rescaleIntercept)));
      return Pass;
    }

    /** `load_image`: `parse_xml` followed by `load_binary_data`. */
    method Load(xml: Option<ImageArchive>, files: map<string, seq<U16>>) returns (outcome: Outcome)
      requires Valid()
      modifies this
      ensures var s := ParseSpec(old(image), xml, files, planUid);
              (s.Err? ==> outcome == Fail(s.error)) &&
              (s.Ok? ==> s.value.fileName.Some? && s.value.header.Some? &&
                         var t := LoadBinarySpec(s.value, files);
                         (t.Ok? ==> outcome == Pass && image == t.value) &&
                         (t.Err? ==> outcome == Fail(t.error)))
    {
      outcome := ParseXml(xml, files);
      if outcome.Fail? {
        return;
      }
      ParsedHasHeader(old(image), xml, files, planUid);
      outcome := LoadBinaryData(files);
    }
  }

  /** A file name is only ever recorded together with the header of its image. */
  predicate WellFormed(r: ImageRecord) {
    r.fileName.Some? ==> r.header.Some?
  }

  /** After a successful parse the file name is known, exists, and comes with a header. */
  lemma ParsedHasHeader(rec: ImageRecord, xml: Option<ImageArchive>, files: map<string, seq<U16>>, planUid: string)
    requires WellFormed(rec)
    requires ParseSpec(rec, xml, files, planUid).Ok?
    ensures var r := ParseSpec(rec, xml, files, planUid).value;
            r.fileName.Some? && r.fileName.value in files && r.header.Some?
  {
    var g := xml.value;
    ScanKeepsWellFormed(Demographics(rec, g), g, g.planNodes, planUid);
  }

  /** After a successful parse both window entries are set, to the archive's values or 0 and 1000. */
  lemma ParsedWindow(rec: ImageRecord, xml: Option<ImageArchive>, files: map<string, seq<U16>>, planUid: string)
    requires ParseSpec(rec, xml, files, planUid).Ok?
    ensures var r := ParseSpec(rec, xml, files, planUid).value;
            xml.Some? &&
            r.windowCenter == Some(xml.value.windowCenter.GetOr(0.0)) &&
            r.windowWidth == Some(xml.value.windowWidth.GetOr(1000.0))
  {
    var g := xml.value;
    ScanKeepsWindow(Demographics(rec, g), g, g.planNodes, planUid);
  }

  /** The plan-node scan never touches the window entries. */
  lemma {:induction false} ScanKeepsWindow(rec: ImageRecord, g: ImageArchive, nodes: seq<PlanNode>, planUid: string)
    requires ScanPlans(rec, g, nodes, planUid).Ok?
    ensures var r := ScanPlans(rec, g, nodes, planUid).value;
            r.windowCenter == rec.windowCenter && r.windowWidth == rec.windowWidth
  {
    if nodes != [] {
      ScanKeepsWindow(rec, g, nodes[..|nodes| - 1], planUid);
    }
  }

  /** The scan writes a file name only together with a header. */
  lemma {:induction false} ScanKeepsWellFormed(rec: ImageRecord, g: ImageArchive, nodes: seq<PlanNode>, planUid: string)
    requires WellFormed(rec)
    requires ScanPlans(rec, g, nodes, planUid).Ok?
    ensures WellFormed(ScanPlans(rec, g, nodes, planUid).value)
  {
    if nodes != [] {
      ScanKeepsWellFormed(rec, g, nodes[..|nodes| - 1], planUid);
    }
  }
}
