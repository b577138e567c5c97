/**
 * RT Dose writer (write_dicom_dose.py): one multi-frame RT Dose dataset for
 * the dose grid. NaN and infinite samples become 0 in the dose record, and
 * every sample is stored as an unsigned 16-bit value in units of the dose
 * grid scaling, `max / 65535`.
 */
module WriteDicomDose {
  import opened Common

  /** RT Dose Storage. */
  const RtDoseStorage := "1.2.840.10008.5.1.4.1.1.481.2"

  /** Largest value of an unsigned 16-bit sample. */
  const U16Max: real := 65535.0

  /** The keys of `image_data` the writer reads; None when the key is absent. */
  datatype DoseImageInfo = DoseImageInfo(
    patientName: Option<string>,
    patientId: Option<string>,
    patientBirthDate: Option<string>,
    patientSex: Option<string>,
    frameRefUid: Option<string>,
    studyUid: Option<string>,
    studyDescription: Option<string>,
    seriesDescription: Option<string>)

  /** The RT Dose dataset and the path it is saved to. */
  datatype DoseFile = DoseFile(
    sopClassUid: string,
    sopInstanceUid: string,
    modality: string,
    patientName: string,
    patientId: string,
    patientBirthDate: string,
    patientSex: string,
    frameOfReferenceUid: string,
    studyInstanceUid: string,
    seriesInstanceUid: string,
    studyDescription: string,
    seriesDescription: string,
    imageOrientationPatient: seq<int>,
    imagePositionPatient: seq<real>,
    pixelSpacing: seq<real>,
    sliceThickness: real,
    rows: nat,
    columns: nat,
    numberOfFrames: nat,
    gridFrameOffsetVector: seq<real>,
    doseUnits: string,
    doseType: string,
    doseSummationType: string,
    doseGridScaling: real,
    pixels: Volume<int>,
    path: string)

  // ----- Sanitising and scaling -----

  /** `np.nan_to_num(x, nan=0, posinf=0, neginf=0)` for one sample. */
  function Sanitized(n: Num): (r: real)
    ensures n.Finite? ==> r == n.r
    ensures !n.Finite? ==> r == 0.0
  {
    if n.Finite? then n.r else 0.0
  }

  /** The dose record's samples after `nan_to_num`: every sample finite. */
  function SanitizedVolume(v: Volume<Num>): (w: Volume<Num>)
    ensures |w| == |v| && forall i :: 0 <= i < |v| ==> |w[i]| == |v[i]|
    ensures forall i, j :: 0 <= i < |v| && 0 <= j < |v[i]| ==> |w[i][j]| == |v[i][j]|
    ensures forall i, j, k :: 0 <= i < |v| && 0 <= j < |v[i]| && 0 <= k < |v[i][j]| ==>
              w[i][j][k].Finite? && w[i][j][k].r == Sanitized(v[i][j][k])
  {
    MapVolume(v, n => Finite(Sanitized(n)))
  }

  /** The sanitised samples as reals. */
  function Values(v: Volume<Num>): (w: Volume<real>)
    ensures |w| == |v| && forall i :: 0 <= i < |v| ==> |w[i]| == |v[i]|
    ensures forall i, j :: 0 <= i < |v| && 0 <= j < |v[i]| ==> |w[i][j]| == |v[i][j]|
    ensures forall i, j, k :: 0 <= i < |v| && 0 <= j < |v[i]| && 0 <= k < |v[i][j]| ==>
              w[i][j][k] == Sanitized(v[i][j][k])
  {
    MapVolume(v, Sanitized)
  }

  /** `DoseGridScaling`: the largest sample over 65535 when it is positive, else 1; always positive. */
  function GridScaling(max: real): (s: real)
    ensures s > 0.0
    ensures max > 0.0 ==> s * U16Max == max
    ensures max <= 0.0 ==> s == 1.0
  {
    if max > 0.0 then max / U16Max else 1.0
  }

  /** `np.clip(x, 0, 65535)`. */
  function Clip(x: real): (c: real)
    ensures 0.0 <= c <= U16Max
    ensures 0.0 <= x <= U16Max ==> c == x
  {
    if x < 0.0 then 0.0 else if x > U16Max then U16Max else x
  }

  /** `np.clip(v / scale, 0, 65535).astype(np.uint16)`: the stored value of a sample. */
  function Stored(v: real, scale: real): (s: int)
    requires scale > 0.0
    ensures 0 <= s <= 65535
  {
    Clip(v / scale).Floor
  }

  /** The stored values of every sample of `values`. */
  function StoredVolume(values: Volume<real>, scale: real): (w: Volume<int>)
    requires scale > 0.0
    ensures |w| == |values| && forall i :: 0 <= i < |values| ==> |w[i]| == |values[i]|
    ensures forall i, j :: 0 <= i < |values| && 0 <= j < |values[i]| ==> |w[i][j]| == |values[i][j]|
    ensures forall i, j, k :: 0 <= i < |values| && 0 <= j < |values[i]| && 0 <= k < |values[i][j]| ==>
              w[i][j][k] == Stored(values[i][j][k], scale)
  {
    MapVolume(values, x => Stored(x, scale))
  }

  /** With the scaling of a positive maximum, the voxel holding the maximum stores 65535. */
  lemma StoredVolumeHitsTop(values: Volume<real>, d: Dims)
    requires Shaped(values, d) && d.Count() > 0 && MaxSample(values, d) > 0.0
    ensures var w := StoredVolume(values, GridScaling(MaxSample(values, d)));
            exists x, y, z :: 0 <= x < d.nx && 0 <= y < d.ny && 0 <= z < d.nz && w[x][y][z] == 65535
  {
    var max := MaxSample(values, d);
    var x, y, z :| 0 <= x < d.nx && 0 <= y < d.ny && 0 <= z < d.nz && values[x][y][z] == max;
    MaxStoresTop(max);
    assert StoredVolume(values, GridScaling(max))[x][y][z] == 65535;
  }

  /**
   * A sample in `[0, 65535 * scale]` is stored as the number of whole
   * scaling units it holds: `s * scale <= v < (s + 1) * scale`.
   */
  lemma StoredBrackets(v: real, scale: real)
    requires scale > 0.0 && 0.0 <= v <= U16Max * scale
    ensures var s := Stored(v, scale);
            s as real * scale <= v && (v < (s + 1) as real * scale || s == 65535)
  {
    var q := v / scale;
    assert q * scale == v;
    assert 0.0 <= q by {
      if q < 0.0 {
        MulLt(q, 0.0, scale);
        assert false;
      }
    }
    assert q <= U16Max by {
      if q > U16Max {
        MulLt(U16Max, q, scale);
        assert false;
      }
    }
    var s := Stored(v, scale);
    assert s as real <= q < s as real + 1.0;
    MulLe(s as real, q, scale);
    DivLt(v, (s + 1) as real, scale);
  }

  lemma MulLe(a: real, b: real, c: real)
    requires a <= b && c > 0.0
    ensures a * c <= b * c
  {
  }

  lemma MulLt(a: real, b: real, c: real)
    requires a < b && c > 0.0
    ensures a * c < b * c
  {
  }

  lemma DivLt(v: real, b: real, c: real)
    requires c > 0.0 && v / c < b
    ensures v < b * c
  {
    var q := v / c;
    assert q * c == v;
    MulLt(q, b, c);
  }

  /** A negative sample is stored as 0. */
  lemma NegativeStoresZero(v: real, scale: real)
    requires scale > 0.0 && v < 0.0
    ensures Stored(v, scale) == 0
  {
  }

  /** With the scaling of a positive maximum, the maximum itself is stored as 65535. */
  lemma MaxStoresTop(max: real)
    requires max > 0.0
    ensures Stored(max, GridScaling(max)) == 65535
  {
    var s := GridScaling(max);
    assert max / s == U16Max;
  }

  // ----- The dataset -----

  /** `list(np.arange(0, n) * (-width_z * 10))`. */
  function FrameOffsets(n: nat, widthZ: real): (g: seq<real>)
    ensures |g| == n
    ensures forall k :: 0 <= k < n ==> g[k] == k as real * -(widthZ * 10.0)
  {
    seq(n, k requires 0 <= k < n => k as real * -(widthZ * 10.0))
  }

  /** Consecutive frames lie `width_z * 10` apart, the first at offset 0. */
  lemma FrameOffsetsSpacing(n: nat, widthZ: real)
    ensures n > 0 ==> FrameOffsets(n, widthZ)[0] == 0.0
    ensures forall k :: 0 < k < n ==> FrameOffsets(n, widthZ)[k] == FrameOffsets(n, widthZ)[k - 1] - widthZ * 10.0
  {
  }

  /** The path rules of the platform the writer runs on: `posixpath` or `ntpath`. */
  datatype PathRules = Posix | Windows

  /** A path separator under the platform's rules: `/`, and on Windows also a backslash. */
  predicate IsSeparator(c: char, rules: PathRules) {
    c == '/' || (rules == Windows && c == '\\')
  }

  /**
   * `os.path.dirname(path) == ""`: the path names no directory, so
   * `os.makedirs` raises. Under Windows rules a drive prefix such as `Z:`
   * is a directory name of its own.
   */
  predicate NoDirectory(path: string, rules: PathRules) {
    && (forall i :: 0 <= i < |path| ==> !IsSeparator(path[i], rules))
    && !(rules == Windows && |path| >= 2 && path[1] == ':')
  }

  /** A path naming no directory under Windows rules names none under POSIX rules either. */
  lemma NoDirectoryWindowsStricter(path: string)
    ensures NoDirectory(path, Windows) ==> NoDirectory(path, Posix)
  {
  }

  /** A drive-prefixed path with backslashes names a directory under Windows rules only. */
  lemma DrivePathNamesDirectory(drive: char, rest: string)
    requires drive != '/' && forall i :: 0 <= i < |rest| ==> rest[i] != '/'
    ensures !NoDirectory([drive, ':', '\\'] + rest, Windows)
    ensures NoDirectory([drive, ':', '\\'] + rest, Posix)
  {
    var p := [drive, ':', '\\'] + rest;
    forall i | 0 <= i < |p| ensures p[i] != '/' {
      if i >= 3 {
        assert p[i] == rest[i - 3];
      }
    }
  }

  /** `image_data` when it is None or empty: every key absent. */
  const NoInfo := DoseImageInfo(None, None, None, None, None, None, None, None)

  /**
   * The dataset for a grid of shape `d` stored as `pixels` with scaling
   * `scale`. The UID calls are made in source order: SOP instance (call 0),
   * frame-of-reference default (1), study default (2), series (3); `info`
   * is None when `image_data` is None or empty.
   */
  function DoseDataset(start: Vec3, width: Vec3, d: Dims, path: string, info: Option<DoseImageInfo>,
                       uid: UidSource, scale: real, pixels: Volume<int>): DoseFile
  {
    var i := info.GetOr(NoInfo);
    DoseFile(
      RtDoseStorage, uid(0), "RTDOSE",
      i.patientName.GetOr("Anonymous"), i.patientId.GetOr("000000"),
      i.patientBirthDate.GetOr(""), i.patientSex.GetOr("O"),
      i.frameRefUid.GetOr(uid(1)), i.studyUid.GetOr(uid(2)), uid(3),
      i.studyDescription.GetOr("RT Dose Study"), i.seriesDescription.GetOr("RT Dose Series"),
      [1, 0, 0, 0, 1, 0],
      [start.x * 10.0, start.y * 10.0, start.z * 10.0],
      [width.x * 10.0, width.y * 10.0], width.z * 10.0,
      d.ny, d.nx, d.nz, FrameOffsets(d.nz, width.z),
      "GY", "PHYSICAL", "PLAN",
      scale, pixels, path)
  }

  /**
   * Without `image_data` the patient fields are "Anonymous", "000000", ""
   * and "O", the descriptions "RT Dose Study" and "RT Dose Series", and the
   * frame, study and series UIDs are all generated; with it, each present
   * key is copied and each absent key takes the same default. With a
   * generator that never repeats itself the SOP instance and series UIDs
   * differ, and so do the generated frame and study UIDs.
   */
  lemma DoseHeaderDefaults(start: Vec3, width: Vec3, d: Dims, path: string, info: Option<DoseImageInfo>,
                           uid: UidSource, scale: real, pixels: Volume<int>)
    ensures DoseDataset(start, width, d, path, None, uid, scale, pixels) ==
            DoseDataset(start, width, d, path, Some(NoInfo), uid, scale, pixels)
    ensures var f := DoseDataset(start, width, d, path, None, uid, scale, pixels);
            f.patientName == "Anonymous" && f.patientId == "000000" && f.patientBirthDate == "" && f.patientSex == "O" &&
            f.frameOfReferenceUid == uid(1) && f.studyInstanceUid == uid(2) &&
            f.studyDescription == "RT Dose Study" && f.seriesDescription == "RT Dose Series"
    ensures info.Some? ==>
              var i, f := info.value, DoseDataset(start, width, d, path, info, uid, scale, pixels);
              && (i.patientName.None? ==> f.patientName == "Anonymous")
              && (i.patientName.Some? ==> f.patientName == i.patientName.value)
              && (i.patientId.None? ==> f.patientId == "000000")
              && (i.patientId.Some? ==> f.patientId == i.patientId.value)
              && (i.patientBirthDate.None? ==> f.patientBirthDate == "")
              && (i.patientBirthDate.Some? ==> f.patientBirthDate == i.patientBirthDate.value)
              && (i.patientSex.None? ==> f.patientSex == "O")
              && (i.patientSex.Some? ==> f.patientSex == i.patientSex.value)
              && (i.frameRefUid.None? ==> f.frameOfReferenceUid == uid(1))
              && (i.frameRefUid.Some? ==> f.frameOfReferenceUid == i.frameRefUid.value)
              && (i.studyUid.None? ==> f.studyInstanceUid == uid(2))
              && (i.studyUid.Some? ==> f.studyInstanceUid == i.studyUid.value)
              && (i.studyDescription.None? ==> f.studyDescription == "RT Dose Study")
              && (i.studyDescription.Some? ==> f.studyDescription == i.studyDescription.value)
              && (i.seriesDescription.None? ==> f.seriesDescription == "RT Dose Series")
              && (i.seriesDescription.Some? ==> f.seriesDescription == i.seriesDescription.value)
    ensures (forall a: nat, b: nat :: a != b ==> uid(a) != uid(b)) ==>
              var f := DoseDataset(start, width, d, path, info, uid, scale, pixels);
              f.sopInstanceUid != f.seriesInstanceUid &&
              (info.None? ==> f.frameOfReferenceUid != f.studyInstanceUid)
  {
  }

  /** `write_dicom_dose` on a dose record whose samples are `v`. */
  function WriteDoseSpec(start: Vec3, width: Vec3, v: Volume<Num>, d: Dims,
                         path: string, rules: PathRules, info: Option<DoseImageInfo>, uid: UidSource): (r: Result<DoseFile>)
    requires Shaped(v, d)
    ensures d.Count() == 0 <==> r == Err(EmptyArray)
    ensures d.Count() > 0 && NoDirectory(path, rules) <==> r == Err(NoOutputDirectory)
  {
    if d.Count() == 0 then Err(EmptyArray)
    else
      var values := Values(v);
      var scale := GridScaling(MaxSample(values, d));
      if NoDirectory(path, rules) then Err(NoOutputDirectory)
      else
        Ok(DoseDataset(start, width, d, path, info, uid, scale, StoredVolume(values, scale)))
  }

  /**
   * Each voxel stores its sanitised sample `a` as `Stored(a, scale)`, which
   * lies in `[0, 65535]`, and `StoredWell` holds of it: NaN, infinite and
   * negative samples store 0, and a sample `a >= 0` stores the number of
   * whole scaling units in it.
   */
  lemma DosePixels(start: Vec3, width: Vec3, v: Volume<Num>, d: Dims,
                   path: string, rules: PathRules, info: Option<DoseImageInfo>, uid: UidSource)
    requires Shaped(v, d)
    requires WriteDoseSpec(start, width, v, d, path, rules, info, uid).Ok?
    ensures var f := WriteDoseSpec(start, width, v, d, path, rules, info, uid).value;
            forall x, y, z :: 0 <= x < d.nx && 0 <= y < d.ny && 0 <= z < d.nz ==>
              var a := Sanitized(v[x][y][z]);
              f.pixels[x][y][z] == Stored(a, f.doseGridScaling) && StoredWell(a, f.doseGridScaling)
  {
    var values := Values(v);
    var max := MaxSample(values, d);
    var scale := GridScaling(max);
    var f := WriteDoseSpec(start, width, v, d, path, rules, info, uid).value;
    assert f.doseGridScaling == scale;
    assert f.pixels == StoredVolume(values, scale);
    forall x, y, z | 0 <= x < d.nx && 0 <= y < d.ny && 0 <= z < d.nz
      ensures var a := Sanitized(v[x][y][z]);
              f.pixels[x][y][z] == Stored(a, scale) && StoredWell(a, scale)
    {
      assert values[x][y][z] == Sanitized(v[x][y][z]);
      assert f.pixels[x][y][z] == Stored(values[x][y][z], scale);
      StoredSample(values[x][y][z], max);
    }
  }

  /** When the largest sanitised sample is positive, some voxel stores 65535. */
  lemma DoseMaxStored(start: Vec3, width: Vec3, v: Volume<Num>, d: Dims,
                      path: string, rules: PathRules, info: Option<DoseImageInfo>, uid: UidSource)
    requires Shaped(v, d)
    requires WriteDoseSpec(start, width, v, d, path, rules, info, uid).Ok?
    ensures var f := WriteDoseSpec(start, width, v, d, path, rules, info, uid).value;
            MaxSample(Values(v), d) > 0.0 ==>
              exists x, y, z :: 0 <= x < d.nx && 0 <= y < d.ny && 0 <= z < d.nz && f.pixels[x][y][z] == 65535
  {
    var values := Values(v);
    var max := MaxSample(values, d);
    assert WriteDoseSpec(start, width, v, d, path, rules, info, uid).value.pixels == StoredVolume(values, GridScaling(max));
    if max > 0.0 {
      StoredVolumeHitsTop(values, d);
    }
  }

  /** The bounds `DosePixels` states for one sample `a` and its stored value. */
  ghost predicate StoredWell(a: real, scale: real)
    requires scale > 0.0
  {
    var s := Stored(a, scale);
    && (a <= 0.0 ==> s == 0)
    && (a >= 0.0 ==> s as real * scale <= a && (a < (s + 1) as real * scale || s == 65535))
  }

  lemma StoredSample(a: real, max: real)
    requires a <= max
    ensures StoredWell(a, GridScaling(max))
  {
    var scale := GridScaling(max);
    if a < 0.0 {
      NegativeStoresZero(a, scale);
    } else {
      assert a <= U16Max * scale by {
        if max <= 0.0 {
          assert a == 0.0;
        }
      }
      StoredBrackets(a, scale);
    }
  }

  /**
   * `write_dicom_dose`: fills the header, sanitises the dose record's samples
   * in place, then scales them for storage.
   */
  method WriteDicomDose(start: Vec3, width: Vec3, data: array3<Num>, path: string, rules: PathRules,
                        info: Option<DoseImageInfo>, uid: UidSource) returns (r: Result<DoseFile>)
    modifies data
    ensures r == WriteDoseSpec(start, width, old(Contents(data)), ShapeOfArray(data), path, rules, info, uid)
    ensures Contents(data) == SanitizedVolume(old(Contents(data)))
  {
    var d := ShapeOfArray(data);
    ghost var v := Contents(data);
    Sanitize(data);
    if d.Count() == 0 {
      return Err(EmptyArray);
    }
    var values := Values(Contents(data));
    assert values == Values(v) by {
      SameVolume(values, Values(v), d);
    }
    var scale := GridScaling(MaxSample(values, d));
    var scaled := StoredVolume(values, scale);
    if NoDirectory(path, rules) {
      return Err(NoOutputDirectory);
    }
    r := Ok(DoseDataset(start, width, d, path, info, uid, scale, scaled));
  }

  /**
   * `dose_data["data"] = np.nan_to_num(dose_data["data"], nan=0, posinf=0,
   * neginf=0)`: every NaN or infinite sample becomes 0. The source binds the
   * key to a new array; the model writes the result into the record's array.
   */
  method Sanitize(data: array3<Num>)
    modifies data
    ensures Contents(data) == SanitizedVolume(old(Contents(data)))
  {
    var d := ShapeOfArray(data);
    ghost var v := Contents(data);
    forall x, y, z | 0 <= x < d.nx && 0 <= y < d.ny && 0 <= z < d.nz {
      data[x, y, z] := Finite(Sanitized(data[x, y, z]));
    }
    SameVolume(Contents(data), SanitizedVolume(v), d);
  }
}
