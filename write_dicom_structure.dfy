/**
 * `write_dicom_structures`: the RT Structure Set writer. One ROI, one ROI
 * contour and one observation item per structure, in input order and
 * numbered from 1; each structure's colour must be a dictionary with red,
 * green and blue components; each contour loop becomes one CLOSED_PLANAR
 * contour whose data is the loop's coordinates, point after point.
 *
 * The dataset is modelled as the record the writer saves. The saving itself,
 * the date and time stamps and the console messages are not modelled;
 * `generate_uid` is the call-indexed `UidSource`.
 */
module WriteDicomStructure {
  import opened Common
  import opened LoadStructure


  /** The keys of `dicom_header` the writer reads; None when the key is absent. */
  datatype StructureHeader = StructureHeader(
    patientName: Option<string>,
    patientId: Option<string>,
    patientBirthDate: Option<string>,
    patientSex: Option<string>,
    studyUid: Option<string>,
    seriesUid: Option<string>,
    frameRefUid: Option<string>,
    seriesDescription: Option<string>,
    structureLabel: Option<string>)

  /** `dicom_header` when it is None or empty: every key absent. */
  const NoHeader := StructureHeader(None, None, None, None, None, None, None, None, None)

  /** A `StructureSetROISequence` item. */
  datatype RoiItem = RoiItem(number: nat, name: string, referencedFrameOfReferenceUid: string)

  /** A `ContourSequence` item. */
  datatype Contour = Contour(geometricType: string, numberOfPoints: nat, data: seq<real>)

  /** A `ROIContourSequence` item. */
  datatype RoiContour = RoiContour(referencedRoiNumber: nat, displayColor: seq<int>, contours: seq<Contour>)

  /** An `RTROIObservationsSequence` item. */
  datatype Observation = Observation(number: nat, referencedRoiNumber: nat, interpretedType: string)

  /** The saved RT Structure Set; the writer returns its `sopInstanceUid`. */
  datatype StructureSetFile = StructureSetFile(
    sopClassUid: string,
    sopInstanceUid: string,
    patientName: string,
    patientId: string,
    patientBirthDate: string,
    patientSex: string,
    studyInstanceUid: string,
    seriesInstanceUid: string,
    frameOfReferenceUid: string,
    seriesDescription: string,
    structureSetLabel: string,
    referencedFrameOfReferenceUids: seq<string>,
    roiSequence: seq<RoiItem>,
    roiContours: seq<RoiContour>,
    observations: seq<Observation>,
    path: string)

  // ----- Colours -----

  /** `isinstance(color, dict) and {"red", "green", "blue"}.issubset(color.keys())`. */
  predicate ValidColor(c: ColorValue) {
    c.ColorDict? && "red" in c.components && "green" in c.components && "blue" in c.components
  }

  /** `ROIDisplayColor`: the red, green and blue components, in that order. */
  function DisplayColor(c: ColorValue): (rgb: seq<int>)
    requires ValidColor(c)
    ensures |rgb| == 3
    ensures rgb[0] == c.components["red"] && rgb[1] == c.components["green"] && rgb[2] == c.components["blue"]
  {
    [c.components["red"], c.components["green"], c.components["blue"]]
  }

  // ----- Contours -----

  /** `np.array(points)` builds a 2-D array: every point has as many coordinates as the first. */
  predicate Rectangular(loop: Loop) {
    forall k :: 0 <= k < |loop| ==> |loop[k]| == |loop[0]|
  }

  /** `np.array(points).flatten().tolist()` of a rectangular loop: the coordinates, point after point. */
  function FlattenPoints(loop: Loop): seq<real> {
    if |loop| == 0 then [] else FlattenPoints(loop[..|loop| - 1]) + loop[|loop| - 1]
  }

  /** A loop whose points all have `w` coordinates flattens to `w` values per point. */
  lemma {:induction false} FlattenPointsLength(loop: Loop, w: nat)
    requires forall k :: 0 <= k < |loop| ==> |loop[k]| == w
    ensures |FlattenPoints(loop)| == |loop| * w
  {
    if |loop| > 0 {
      var n := |loop| - 1;
      FlattenPointsLength(loop[..n], w);
      assert |loop| * w == n * w + w;
    }
  }

  /** Coordinate `c` of point `k` of such a loop sits at `k * w + c` of the flattened data. */
  lemma {:induction false} FlattenPointsAt(loop: Loop, w: nat, k: nat, c: nat)
    requires forall k :: 0 <= k < |loop| ==> |loop[k]| == w
    requires k < |loop| && c < w
    ensures k * w + c < |FlattenPoints(loop)| && FlattenPoints(loop)[k * w + c] == loop[k][c]
  {
    var n := |loop| - 1;
    var init := loop[..n];
    FlattenPointsLength(init, w);
    assert FlattenPoints(loop) == FlattenPoints(init) + loop[n];
    if k < n {
      FlattenPointsAt(init, w, k, c);
      assert init[k] == loop[k];
    } else {
      assert k * w + c == |FlattenPoints(init)| + c;
    }
  }

  /** The `ContourSequence` item of one loop. */
  function ContourOf(loop: Loop): (c: Contour)
    requires Rectangular(loop)
    ensures c.geometricType == "CLOSED_PLANAR" && c.numberOfPoints == |loop|
  {
    Contour("CLOSED_PLANAR", |loop|, FlattenPoints(loop))
  }

  /** The contour sequence of a structure's loops; `np.array` raises on a ragged loop. */
  function ContourSequence(loops: seq<Loop>): (r: Result<seq<Contour>>)
    ensures r.Ok? <==> forall j :: 0 <= j < |loops| ==> Rectangular(loops[j])
    ensures r.Err? ==> r.error == RaggedContour
  {
    if forall j :: 0 <= j < |loops| ==> Rectangular(loops[j])
    then Ok(seq(|loops|, j requires 0 <= j < |loops| => ContourOf(loops[j])))
    else Err(RaggedContour)
  }

  /**
   * Each loop of a structure becomes one contour, in order, whose point count
   * is the loop's length and whose data is the loop's coordinates, three per
   * point when every point is an `(x, y, z)` triple.
   */
  lemma ContourSequenceLayout(loops: seq<Loop>)
    requires ContourSequence(loops).Ok?
    ensures var cs := ContourSequence(loops).value;
            |cs| == |loops| &&
            forall j :: 0 <= j < |loops| ==>
              && cs[j].geometricType == "CLOSED_PLANAR" && cs[j].numberOfPoints == |loops[j]|
              && cs[j].data == FlattenPoints(loops[j])
              && ((forall k :: 0 <= k < |loops[j]| ==> |loops[j][k]| == 3) ==>
                    |cs[j].data| == 3 * |loops[j]| &&
                    forall k, c :: 0 <= k < |loops[j]| && 0 <= c < 3 ==> cs[j].data[3 * k + c] == loops[j][k][c])
  {
    var cs := ContourSequence(loops).value;
    forall j | 0 <= j < |loops| && (forall k :: 0 <= k < |loops[j]| ==> |loops[j][k]| == 3)
      ensures |cs[j].data| == 3 * |loops[j]|
      ensures forall k, c :: 0 <= k < |loops[j]| && 0 <= c < 3 ==> cs[j].data[3 * k + c] == loops[j][k][c]
    {
      FlattenPointsLength(loops[j], 3);
      forall k, c | 0 <= k < |loops[j]| && 0 <= c < 3
        ensures cs[j].data[3 * k + c] == loops[j][k][c]
      {
        FlattenPointsAt(loops[j], 3, k, c);
        assert 3 * k + c == k * 3 + c;
      }
    }
  }

  // ----- ROI items -----

  /** The ROI contour item of structure `i`: the colour check first, then the contours. */
  function RoiContourOf(i: nat, s: Structure): (r: Result<RoiContour>)
    ensures r.Ok? <==> ValidColor(s.color) && ContourSequence(s.points).Ok?
    ensures !ValidColor(s.color) ==> r == Err(InvalidColor(i))
    ensures r.Ok? ==> r.value.referencedRoiNumber == i + 1
  {
    if !ValidColor(s.color) then Err(InvalidColor(i))
    else match ContourSequence(s.points)
      case Err(e) => Err(e)
      case Ok(cs) => Ok(RoiContour(i + 1, DisplayColor(s.color), cs))
  }

  /**
   * The ROI contour items of `ss` built in order; the first structure that
   * fails stops the writer with its error.
   */
  function RoiContours(ss: seq<Structure>): Result<seq<RoiContour>> {
    if |ss| == 0 then Ok([])
    else
      var n := |ss| - 1;
      match RoiContours(ss[..n])
      case Err(e) => Err(e)
      case Ok(cs) =>
        match RoiContourOf(n, ss[n])
        case Err(e) => Err(e)
        case Ok(c) => Ok(cs + [c])
  }

  /** The items are built when every structure's item is, and then item `i` is that of structure `i`. */
  lemma {:induction false} RoiContoursOk(ss: seq<Structure>)
    ensures RoiContours(ss).Ok? <==> forall i :: 0 <= i < |ss| ==> RoiContourOf(i, ss[i]).Ok?
    ensures RoiContours(ss).Ok? ==>
              |RoiContours(ss).value| == |ss| &&
              forall i :: 0 <= i < |ss| ==> RoiContourOf(i, ss[i]) == Ok(RoiContours(ss).value[i])
  {
    if |ss| > 0 {
      var n := |ss| - 1;
      RoiContoursOk(ss[..n]);
      assert forall i :: 0 <= i < n ==> ss[..n][i] == ss[i];
    }
  }

  /** A failure is the error of the first structure whose item fails. */
  lemma {:induction false} RoiContoursFirstError(ss: seq<Structure>)
    requires RoiContours(ss).Err?
    ensures exists i :: 0 <= i < |ss| && RoiContourOf(i, ss[i]) == Err(RoiContours(ss).error) &&
                        forall k :: 0 <= k < i ==> RoiContourOf(k, ss[k]).Ok?
  {
    var n := |ss| - 1;
    var init := ss[..n];
    assert forall i :: 0 <= i < n ==> init[i] == ss[i];
    if RoiContours(init).Err? {
      RoiContoursFirstError(init);
      var i :| 0 <= i < n && RoiContourOf(i, init[i]) == Err(RoiContours(init).error) &&
               forall k :: 0 <= k < i ==> RoiContourOf(k, init[k]).Ok?;
      assert RoiContourOf(i, ss[i]) == Err(RoiContours(ss).error);
    } else {
      RoiContoursOk(init);
      assert RoiContourOf(n, ss[n]) == Err(RoiContours(ss).error);
    }
  }

  /** The `StructureSetROISequence` item of structure `i`. */
  function RoiItemOf(i: nat, s: Structure, frame: string): RoiItem {
    RoiItem(i + 1, s.name, frame)
  }

  /** The `RTROIObservationsSequence` item of structure `i`. */
  function ObservationOf(i: nat): Observation {
    Observation(i + 1, i + 1, "ORGAN")
  }

  /**
   * `write_dicom_structures(structures, file_path, dicom_header)`. The UID
   * calls are made in source order: SOP instance (call 0), study default
   * (1), series default (2), frame-of-reference default (3).
   */
  function StructureSetSpec(ss: seq<Structure>, path: string, header: Option<StructureHeader>,
                            uid: UidSource): (r: Result<StructureSetFile>)
    ensures r.Ok? <==> RoiContours(ss).Ok?
    ensures r.Ok? ==> r.value.sopClassUid == RtStructureSetStorage && r.value.sopInstanceUid == uid(0) && r.value.path == path
  {
    var h := header.GetOr(NoHeader);
    var frame := h.frameRefUid.GetOr(uid(3));
    match RoiContours(ss)
    case Err(e) => Err(e)
    case Ok(cs) =>
      Ok(StructureSetFile(
        RtStructureSetStorage, uid(0),
        h.patientName.GetOr("DOE^John"), h.patientId.GetOr("00000000"),
        h.patientBirthDate.GetOr(""), h.patientSex.GetOr(""),
        h.studyUid.GetOr(uid(1)), h.seriesUid.GetOr(uid(2)), frame,
        h.seriesDescription.GetOr("Structure Set"), h.structureLabel.GetOr(""),
        [frame],
        seq(|ss|, i requires 0 <= i < |ss| => RoiItemOf(i, ss[i], frame)),
        cs,
        seq(|ss|, i requires 0 <= i < |ss| => ObservationOf(i)),
        path))
  }

  // ----- Properties -----

  /**
   * The writer raises exactly when some structure has a colour that is not
   * a red/green/blue dictionary or a ragged loop; it raises the colour error
   * of structure `i` exactly when that is the first structure to fail and
   * it fails on its colour.
   */
  lemma StructureSetRaises(ss: seq<Structure>, path: string, header: Option<StructureHeader>, uid: UidSource)
    ensures StructureSetSpec(ss, path, header, uid).Err? <==>
            exists i :: 0 <= i < |ss| && (!ValidColor(ss[i].color) || ContourSequence(ss[i].points).Err?)
    ensures forall i :: 0 <= i < |ss| ==>
              (StructureSetSpec(ss, path, header, uid) == Err(InvalidColor(i)) <==>
                !ValidColor(ss[i].color) &&
                forall k :: 0 <= k < i ==> ValidColor(ss[k].color) && ContourSequence(ss[k].points).Ok?)
  {
    var r := StructureSetSpec(ss, path, header, uid);
    RoiContoursOk(ss);
    if r.Err? {
      RoiContoursFirstError(ss);
    }
    forall i | 0 <= i < |ss|
      ensures r == Err(InvalidColor(i)) <==>
                !ValidColor(ss[i].color) &&
                forall k :: 0 <= k < i ==> ValidColor(ss[k].color) && ContourSequence(ss[k].points).Ok?
    {
      if r == Err(InvalidColor(i)) {
        var j :| 0 <= j < |ss| && RoiContourOf(j, ss[j]) == Err(InvalidColor(i)) &&
                 forall k :: 0 <= k < j ==> RoiContourOf(k, ss[k]).Ok?;
        assert !ValidColor(ss[j].color);
        assert j == i;
      }
      if !ValidColor(ss[i].color) && forall k :: 0 <= k < i ==> ValidColor(ss[k].color) && ContourSequence(ss[k].points).Ok? {
        assert RoiContourOf(i, ss[i]).Err?;
        var j :| 0 <= j < |ss| && RoiContourOf(j, ss[j]) == Err(r.error) &&
                 forall k :: 0 <= k < j ==> RoiContourOf(k, ss[k]).Ok?;
        assert j == i;
      }
    }
  }

  /**
   * A written structure set holds one ROI item, one ROI contour item and one
   * observation per structure, in input order: item `i` has ROI number
   * `i + 1`, the structure's name, its red/green/blue colour, one contour
   * per loop, and an ORGAN observation numbered `i + 1` for ROI `i + 1`.
   */
  lemma OneItemPerStructure(ss: seq<Structure>, path: string, header: Option<StructureHeader>, uid: UidSource)
    requires StructureSetSpec(ss, path, header, uid).Ok?
    ensures var f := StructureSetSpec(ss, path, header, uid).value;
            |f.roiSequence| == |ss| && |f.roiContours| == |ss| && |f.observations| == |ss| &&
            forall i :: 0 <= i < |ss| ==>
              && ValidColor(ss[i].color)
              && f.roiSequence[i].number == i + 1 && f.roiSequence[i].name == ss[i].name
              && f.roiContours[i].referencedRoiNumber == i + 1
              && f.roiContours[i].displayColor == DisplayColor(ss[i].color)
              && ContourSequence(ss[i].points).Ok?
              && f.roiContours[i].contours == ContourSequence(ss[i].points).value
              && |f.roiContours[i].contours| == |ss[i].points|
              && f.observations[i] == Observation(i + 1, i + 1, "ORGAN")
  {
    var f := StructureSetSpec(ss, path, header, uid).value;
    RoiContoursOk(ss);
    forall i | 0 <= i < |ss|
      ensures ValidColor(ss[i].color)
      ensures ContourSequence(ss[i].points).Ok?
      ensures f.roiContours[i].contours == ContourSequence(ss[i].points).value
      ensures |f.roiContours[i].contours| == |ss[i].points|
    {
      assert RoiContourOf(i, ss[i]) == Ok(f.roiContours[i]);
    }
  }

  /**
   * Every ROI refers to the one frame of reference of the structure set,
   * which is also the single item of `ReferencedFrameOfReferenceSequence`:
   * the header's `frameRefUid` when it has one, else a generated UID.
   */
  lemma SingleFrameOfReference(ss: seq<Structure>, path: string, header: Option<StructureHeader>, uid: UidSource)
    requires StructureSetSpec(ss, path, header, uid).Ok?
    ensures var f := StructureSetSpec(ss, path, header, uid).value;
            && f.referencedFrameOfReferenceUids == [f.frameOfReferenceUid]
            && (forall i :: 0 <= i < |f.roiSequence| ==> f.roiSequence[i].referencedFrameOfReferenceUid == f.frameOfReferenceUid)
            && f.frameOfReferenceUid == header.GetOr(NoHeader).frameRefUid.GetOr(uid(3))
  {
  }

  /**
   * Without a header the patient fields are "DOE^John", "00000000", "" and
   * "", the series description "Structure Set" and the label "", and the
   * study, series and frame UIDs are generated; an empty header is the same.
   */
  lemma StructureHeaderDefaults(ss: seq<Structure>, path: string, uid: UidSource)
    requires StructureSetSpec(ss, path, None, uid).Ok?
    ensures StructureSetSpec(ss, path, None, uid) == StructureSetSpec(ss, path, Some(NoHeader), uid)
    ensures var f := StructureSetSpec(ss, path, None, uid).value;
            && f.patientName == "DOE^John" && f.patientId == "00000000"
            && f.patientBirthDate == "" && f.patientSex == ""
            && f.seriesDescription == "Structure Set" && f.structureSetLabel == ""
            && f.studyInstanceUid == uid(1) && f.seriesInstanceUid == uid(2) && f.frameOfReferenceUid == uid(3)
  {
  }

  // ----- The writer -----

  /** The inner loop of `write_dicom_structures`: one contour item per loop. */
  method BuildContourSequence(loops: seq<Loop>) returns (r: Result<seq<Contour>>)
    ensures r == ContourSequence(loops)
  {
    var contours: seq<Contour> := [];
    for j := 0 to |loops|
      invariant forall k :: 0 <= k < j ==> Rectangular(loops[k])
      invariant contours == seq(j, k requires 0 <= k < j => ContourOf(loops[k]))
    {
      if !Rectangular(loops[j]) {
        return Err(RaggedContour);
      }
      contours := contours + [ContourOf(loops[j])];
    }
    r := Ok(contours);
  }

  /**
   * `write_dicom_structures`: fills the header, then appends the three items
   * of each structure in turn; a colour or contour error is raised before
   * anything is saved.
   */
  method WriteDicomStructures(ss: seq<Structure>, path: string, header: Option<StructureHeader>,
                              uid: UidSource) returns (r: Result<StructureSetFile>)
    ensures r == StructureSetSpec(ss, path, header, uid)
  {
    var h := header.GetOr(NoHeader);
    var sop := uid(0);
    var study := h.studyUid.GetOr(uid(1));
    var series := h.seriesUid.GetOr(uid(2));
    var frame := h.frameRefUid.GetOr(uid(3));
    var rois, roiContours, observations := RoiSequences(ss, frame);
    if roiContours.Err? {
      return Err(roiContours.error);
    }
    r := Ok(StructureSetFile(
      RtStructureSetStorage, sop,
      h.patientName.GetOr("DOE^John"), h.patientId.GetOr("00000000"),
      h.patientBirthDate.GetOr(""), h.patientSex.GetOr(""),
      study, series, frame,
      h.seriesDescription.GetOr("Structure Set"), h.structureLabel.GetOr(""),
      [frame], rois, roiContours.value, observations, path));
  }

  /**
   * The ROI loop of `write_dicom_structure`: the structure set ROI, ROI contour
   * and observation items, one of each per structure, numbered from 1.
   */
  method RoiSequences(ss: seq<Structure>, frame: string)
    returns (rois: seq<RoiItem>, roiContours: Result<seq<RoiContour>>, observations: seq<Observation>)
    ensures roiContours == RoiContours(ss)
    ensures roiContours.Ok? ==>
              && rois == seq(|ss|, k requires 0 <= k < |ss| => RoiItemOf(k, ss[k], frame))
              && observations == seq(|ss|, k requires 0 <= k < |ss| => ObservationOf(k))
  {
    ghost var allRois := seq(|ss|, k requires 0 <= k < |ss| => RoiItemOf(k, ss[k], frame));
    ghost var allObservations := seq(|ss|, k requires 0 <= k < |ss| => ObservationOf(k));
    rois := [];
    var items: seq<RoiContour> := [];
    observations := [];
    for i := 0 to |ss|
      invariant rois == allRois[..i]
      invariant RoiContours(ss[..i]) == Ok(items)
      invariant observations == allObservations[..i]
    {
      assert allRois[..i + 1] == rois + [RoiItemOf(i, ss[i], frame)];
      rois := rois + [RoiItemOf(i, ss[i], frame)];
      var item := RoiContourItem(i, ss[i]);
      if item.Err? {
        assert ss[..i + 1][..i] == ss[..i];
        RoiContoursPrefixErr(ss, i + 1);
        return rois, Err(item.error), observations;
      }
      RoiContoursStep(ss, i, items, item.value);
      items := items + [item.value];
      assert allObservations[..i + 1] == observations + [ObservationOf(i)];
      observations := observations + [ObservationOf(i)];
    }
    assert ss[..|ss|] == ss;
    assert allRois[..|ss|] == allRois;
    assert allObservations[..|ss|] == allObservations;
    roiContours := Ok(items);
  }

  /** One ROI contour item of the loop of `write_dicom_structure`: the colour check, then the contours. */
  method RoiContourItem(i: nat, s: Structure) returns (r: Result<RoiContour>)
    ensures r == RoiContourOf(i, s)
  {
    if !ValidColor(s.color) {
      return Err(InvalidColor(i));
    }
    var contours := BuildContourSequence(s.points);
    if contours.Err? {
      return Err(contours.error);
    }
    return Ok(RoiContour(i + 1, DisplayColor(s.color), contours.value));
  }

  /** Appending the item of structure `i` to the items of the structures before it. */
  lemma RoiContoursStep(ss: seq<Structure>, i: nat, cs: seq<RoiContour>, c: RoiContour)
    requires i < |ss| && RoiContours(ss[..i]) == Ok(cs) && RoiContourOf(i, ss[i]) == Ok(c)
    ensures RoiContours(ss[..i + 1]) == Ok(cs + [c])
  {
    assert ss[..i + 1][..i] == ss[..i];
    assert ss[..i + 1][i] == ss[i];
  }

  /** An error in the first `n` structures is the error of all of them. */
  lemma {:induction false} RoiContoursPrefixErr(ss: seq<Structure>, n: nat)
    requires n <= |ss| && RoiContours(ss[..n]).Err?
    ensures RoiContours(ss) == RoiContours(ss[..n])
    decreases |ss| - n
  {
    if n < |ss| {
      assert ss[..n + 1][..n] == ss[..n];
      RoiContoursPrefixErr(ss, n + 1);
    } else {
      assert ss[..n] == ss;
    }
  }
}
