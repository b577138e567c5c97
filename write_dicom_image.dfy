/**
 * CT series writer (write_dicom_image.py): one CT Image Storage dataset per
 * z-slice of the image volume, with the slice's position, the fixed pixel
 * encoding, the slice's pixels transposed, and a zero-padded file name.
 * Negative volumes are first shifted by 1024 in the caller's array.
 */
module WriteDicomImage {
  import opened Common
  import opened Text

  /** `file_meta.MediaStorageSOPClassUID`: CT Image Storage. */
  const CtImageStorage := "1.2.840.10008.5.1.4.1.1.2"

  /** `file_meta.ImplementationClassUID`. */
  const ImplementationClassUid := "1.2.40.0.13.1.1"

  /** The keys of `plan_metadata` the writer reads; None when the key is absent. */
  datatype ImageMetadata = ImageMetadata(
    patientName: Option<string>,
    patientId: Option<string>,
    studyUid: Option<string>,
    seriesUid: Option<string>,
    frameRefUid: Option<string>)

  /** The study, series and frame-of-reference UIDs a slice carries. */
  datatype SeriesUids = SeriesUids(study: string, series: string, frameOfReference: string)

  /** One CT slice dataset and the file it is written to. */
  datatype CtSlice = CtSlice(
    mediaStorageSopClassUid: string,
    implementationClassUid: string,
    modality: string,
    imageType: seq<string>,
    patientName: string,
    patientId: string,
    uids: SeriesUids,
    sopInstanceUid: string,
    instanceNumber: nat,
    sliceThickness: real,
    pixelSpacing: seq<real>,
    rows: nat,
    columns: nat,
    imagePositionPatient: seq<real>,
    imageOrientationPatient: seq<int>,
    samplesPerPixel: nat,
    photometricInterpretation: string,
    bitsAllocated: nat,
    bitsStored: nat,
    highBit: nat,
    pixelRepresentation: nat,
    rescaleIntercept: int,
    rescaleSlope: int,
    pixels: seq<seq<real>>,
    fileName: string)

  /** What `write_dicom_image` writes and returns. */
  datatype ImageSeries = ImageSeries(slices: seq<CtSlice>, sopInstanceUids: seq<string>)

  // ----- The pixel map -----

  /** An `r`-by-`c` matrix. */
  ghost predicate Rect<T>(m: seq<seq<T>>, r: nat, c: nat) {
    |m| == r && forall i :: 0 <= i < r ==> |m[i]| == c
  }

  /** `data[:, :, k]`: the nx-by-ny plane of slice `k`. */
  function Plane<T>(v: Volume<T>, d: Dims, k: nat): (p: seq<seq<T>>)
    requires Shaped(v, d) && k < d.nz
    ensures Rect(p, d.nx, d.ny)
    ensures forall x, y :: 0 <= x < d.nx && 0 <= y < d.ny ==> p[x][y] == v[x][y][k]
  {
    seq(d.nx, x requires 0 <= x < d.nx => seq(d.ny, y requires 0 <= y < d.ny => v[x][y][k]))
  }

  /** `np.rot90(m)`: a quarter turn counter-clockwise; an r-by-c matrix becomes c-by-r. */
  function Rot90<T>(m: seq<seq<T>>, r: nat, c: nat): (q: seq<seq<T>>)
    requires Rect(m, r, c)
    ensures Rect(q, c, r)
    ensures forall i, j :: 0 <= i < c && 0 <= j < r ==> q[i][j] == m[j][c - 1 - i]
  {
    seq(c, i requires 0 <= i < c => seq(r, j requires 0 <= j < r => m[j][c - 1 - i]))
  }

  /** The shape of an r-by-c matrix after `k` quarter turns. */
  function TurnedDims(r: nat, c: nat, k: nat): (nat, nat) {
    if k % 2 == 0 then (r, c) else (c, r)
  }

  /** `np.rot90(m, k)`. */
  function Rot90k<T>(m: seq<seq<T>>, r: nat, c: nat, k: nat): (q: seq<seq<T>>)
    requires Rect(m, r, c)
    ensures Rect(q, TurnedDims(r, c, k).0, TurnedDims(r, c, k).1)
  {
    if k == 0 then m
    else
      var (pr, pc) := TurnedDims(r, c, k - 1);
      Rot90(Rot90k(m, r, c, k - 1), pr, pc)
  }

  /** `np.flip(a, 1)`: each row reversed. */
  function Flip1<T>(a: seq<seq<T>>, r: nat, c: nat): (f: seq<seq<T>>)
    requires Rect(a, r, c)
    ensures Rect(f, r, c)
    ensures forall i, j :: 0 <= i < r && 0 <= j < c ==> f[i][j] == a[i][c - 1 - j]
  {
    seq(r, i requires 0 <= i < r => seq(c, j requires 0 <= j < c => a[i][c - 1 - j]))
  }

  /** The transpose of an r-by-c matrix. */
  function Transpose<T>(m: seq<seq<T>>, r: nat, c: nat): (t: seq<seq<T>>)
    requires Rect(m, r, c)
    ensures Rect(t, c, r)
    ensures forall i, j :: 0 <= i < c && 0 <= j < r ==> t[i][j] == m[j][i]
  {
    seq(c, i requires 0 <= i < c => seq(r, j requires 0 <= j < r => m[j][i]))
  }

  /** Three quarter turns followed by a horizontal flip is exactly the transpose. */
  lemma FlipRot270IsTranspose<T>(m: seq<seq<T>>, r: nat, c: nat)
    requires Rect(m, r, c)
    ensures Flip1(Rot90k(m, r, c, 3), c, r) == Transpose(m, r, c)
  {
    var q1 := Rot90(m, r, c);
    var q2 := Rot90(q1, c, r);
    var q3 := Rot90(q2, r, c);
    assert Rot90k(m, r, c, 1) == q1;
    assert Rot90k(m, r, c, 2) == q2;
    assert Rot90k(m, r, c, 3) == q3;
    var f, t := Flip1(q3, c, r), Transpose(m, r, c);
    forall i | 0 <= i < c ensures f[i] == t[i] {
      forall j | 0 <= j < r ensures f[i][j] == t[i][j] {
        assert f[i][j] == q3[i][r - 1 - j] == q2[r - 1 - j][c - 1 - i] == q1[c - 1 - i][j] == m[j][i];
      }
    }
  }

  /** `np.flip(np.rot90(data[:, :, k], 3), 1)`: the pixel rows of slice `k`. */
  function PixelData(v: Volume<real>, d: Dims, k: nat): (p: seq<seq<real>>)
    requires Shaped(v, d) && k < d.nz
    ensures Rect(p, d.ny, d.nx)
  {
    Flip1(Rot90k(Plane(v, d, k), d.nx, d.ny, 3), d.ny, d.nx)
  }

  /** Pixel row `y`, column `x` of slice `k` is sample `(x, y, k)`: a slice has `ny` rows of `nx` pixels. */
  lemma PixelDataTransposes(v: Volume<real>, d: Dims, k: nat)
    requires Shaped(v, d) && k < d.nz
    ensures |PixelData(v, d, k)| == d.ny
    ensures forall y, x :: 0 <= y < d.ny && 0 <= x < d.nx ==>
              |PixelData(v, d, k)[y]| == d.nx && PixelData(v, d, k)[y][x] == v[x][y][k]
  {
    FlipRot270IsTranspose(Plane(v, d, k), d.nx, d.ny);
  }

  // ----- The negative fix-up -----

  /**
   * `data += 1024` when the minimum sample is negative; otherwise the data
   * are unchanged. Afterwards no sample lies below `min(0, m + 1024)` for
   * the old minimum `m`.
   */
  function Adjusted(v: Volume<real>, d: Dims): (w: Volume<real>)
    requires Shaped(v, d) && d.Count() > 0
    ensures Shaped(w, d)
    ensures var m := MinSample(v, d);
            forall x, y, z :: 0 <= x < d.nx && 0 <= y < d.ny && 0 <= z < d.nz ==>
              && w[x][y][z] == (if m < 0.0 then v[x][y][z] + 1024.0 else v[x][y][z])
              && w[x][y][z] >= (if m < 0.0 then m + 1024.0 else 0.0)
  {
    if MinSample(v, d) < 0.0 then MapVolume(v, x => x + 1024.0) else v
  }

  // ----- Slices -----

  /** The dataset of slice `i` once its UIDs and its pixel shape are chosen. */
  function Dataset(i: nat, start: Vec3, width: Vec3, rows: nat, columns: nat, pixels: seq<seq<real>>,
                   meta: ImageMetadata, uids: SeriesUids, sop: string, prefix: string): CtSlice
  {
    CtSlice(
      CtImageStorage, ImplementationClassUid, "CT", ["ORIGINAL", "PRIMARY", "AXIAL"],
      meta.patientName.GetOr("UNKNOWN"), meta.patientId.GetOr("00000000"),
      uids, sop, i + 1,
      width.z * 10.0, [width.x * 10.0, width.y * 10.0],
      rows, columns,
      [start.x * 10.0, start.y * 10.0, (start.z + i as real * width.z) * 10.0],
      [1, 0, 0, 0, 1, 0],
      1, "MONOCHROME2", 16, 16, 15, 0, -1024, 1,
      pixels, SliceFileName(prefix, i))
  }

  /** `f"{output_prefix}_{i + 1:03d}.dcm"`. */
  function SliceFileName(prefix: string, i: nat): string {
    prefix + "_" + ZeroPad3(i + 1) + ".dcm"
  }

  /** Distinct slices are written to distinct files. */
  lemma SliceFileNamesDistinct(prefix: string, i: nat, j: nat)
    requires i != j
    ensures SliceFileName(prefix, i) != SliceFileName(prefix, j)
  {
    if SliceFileName(prefix, i) == SliceFileName(prefix, j) {
      Uncat(prefix, ZeroPad3(i + 1), ZeroPad3(j + 1));
      ZeroPad3Injective(i + 1, j + 1);
    }
  }

  lemma Uncat(prefix: string, a: string, b: string)
    requires prefix + "_" + a + ".dcm" == prefix + "_" + b + ".dcm"
    ensures a == b
  {
    var s := prefix + "_" + a + ".dcm";
    var n := |prefix| + 1;
    assert |a| == |b|;
    assert s[n..n + |a|] == a;
    assert (prefix + "_" + b + ".dcm")[n..n + |b|] == b;
  }

  /**
   * Slice `i` as the loop writes it: the study, series and frame defaults
   * are generated anew for every slice (three `generate_uid` calls made
   * whether or not the key is present, then one for the SOP instance), and
   * Rows/Columns are `shape[0]`/`shape[1]`.
   */
  function SliceAsWritten(i: nat, start: Vec3, width: Vec3, v: Volume<real>, d: Dims,
                          meta: ImageMetadata, uid: UidSource, prefix: string): CtSlice
    requires Shaped(v, d) && i < d.nz
  {
    var ids := SeriesUids(meta.studyUid.GetOr(uid(4 * i)), meta.seriesUid.GetOr(uid(4 * i + 1)), meta.frameRefUid.GetOr(uid(4 * i + 2)));
    Dataset(i, start, width, d.nx, d.ny, PixelData(v, d, i), meta, ids, uid(4 * i + 3), prefix)
  }

  /** The series UIDs shared by every slice: each taken from the metadata or generated once. */
  function SharedUids(meta: ImageMetadata, uid: UidSource): SeriesUids {
    SeriesUids(meta.studyUid.GetOr(uid(0)), meta.seriesUid.GetOr(uid(1)), meta.frameRefUid.GetOr(uid(2)))
  }

  /**
   * Slice `i` as intended: one set of series UIDs for the whole series, a
   * fresh SOP instance UID per slice, and Rows/Columns giving the shape of
   * the transposed pixel matrix.
   */
  function Slice(i: nat, start: Vec3, width: Vec3, v: Volume<real>, d: Dims,
                 meta: ImageMetadata, uid: UidSource, prefix: string): CtSlice
    requires Shaped(v, d) && i < d.nz
  {
    Dataset(i, start, width, d.ny, d.nx, PixelData(v, d, i), meta, SharedUids(meta, uid), uid(3 + i), prefix)
  }

  /** With a 2-by-3 plane, the rows declared as written (2) are not the rows of pixel data (3). */
  lemma RowsAsWrittenMismatch()
    ensures var d := Dims(2, 3, 1);
            var v := seq(2, x => seq(3, y => seq(1, z => 0.0)));
            var s := SliceAsWritten(0, Vec3(0.0, 0.0, 0.0), Vec3(1.0, 1.0, 1.0), v, d,
                                    ImageMetadata(None, None, None, None, None), n => "", "ct");
            Shaped(v, d) && s.rows == 2 && |s.pixels| == 3
  {
    var d := Dims(2, 3, 1);
    var v := seq(2, x => seq(3, y => seq(1, z => 0.0)));
    assert Shaped(v, d);
    PixelDataTransposes(v, d, 0);
  }

  /**
   * Without series UIDs in the metadata and with a generator that never
   * repeats itself, the two slices of a two-slice series are written with
   * different study, series and frame-of-reference UIDs.
   */
  lemma SeriesSplitAsWritten(start: Vec3, width: Vec3, v: Volume<real>, uid: UidSource)
    requires Shaped(v, Dims(1, 1, 2))
    requires forall a: nat, b: nat :: a != b ==> uid(a) != uid(b)
    ensures var d, meta := Dims(1, 1, 2), ImageMetadata(None, None, None, None, None);
            var s0, s1 := SliceAsWritten(0, start, width, v, d, meta, uid, "ct"), SliceAsWritten(1, start, width, v, d, meta, uid, "ct");
            s0.uids.study != s1.uids.study && s0.uids.series != s1.uids.series &&
            s0.uids.frameOfReference != s1.uids.frameOfReference
  {
    assert uid(0) != uid(4) && uid(1) != uid(5) && uid(2) != uid(6);
  }

  /** The whole series, as intended. */
  function Series(start: Vec3, width: Vec3, v: Volume<real>, d: Dims,
                  meta: ImageMetadata, uid: UidSource, prefix: string): seq<CtSlice>
    requires Shaped(v, d)
  {
    seq(d.nz, i requires 0 <= i < d.nz => Slice(i, start, width, v, d, meta, uid, prefix))
  }

  /** The whole series, as the loop writes it. */
  function SeriesAsWritten(start: Vec3, width: Vec3, v: Volume<real>, d: Dims,
                           meta: ImageMetadata, uid: UidSource, prefix: string): seq<CtSlice>
    requires Shaped(v, d)
  {
    seq(d.nz, i requires 0 <= i < d.nz => SliceAsWritten(i, start, width, v, d, meta, uid, prefix))
  }

  /**
   * The series as written and the intended series differ only in the
   * declared Rows and Columns, which are swapped, and in the UIDs; the
   * first slice draws the same series UIDs in both.
   */
  lemma SeriesAsWrittenRelation(start: Vec3, width: Vec3, v: Volume<real>, d: Dims,
                                meta: ImageMetadata, uid: UidSource, prefix: string)
    requires Shaped(v, d)
    ensures var w, s := SeriesAsWritten(start, width, v, d, meta, uid, prefix), Series(start, width, v, d, meta, uid, prefix);
            && |w| == |s| == d.nz
            && (forall i :: 0 <= i < d.nz ==>
                  && w[i].rows == s[i].columns && w[i].columns == s[i].rows
                  && w[i].sopInstanceUid == uid(4 * i + 3)
                  && w[i].(rows := s[i].rows, columns := s[i].columns, uids := s[i].uids,
                           sopInstanceUid := s[i].sopInstanceUid) == s[i])
            && (d.nz > 0 ==> w[0].uids == s[0].uids)
  {
  }

  /** Every slice of the intended series carries the same study, series and frame-of-reference UIDs. */
  lemma SeriesSharesUids(start: Vec3, width: Vec3, v: Volume<real>, d: Dims,
                         meta: ImageMetadata, uid: UidSource, prefix: string)
    requires Shaped(v, d)
    ensures var ss := Series(start, width, v, d, meta, uid, prefix);
            |ss| == d.nz && forall i, j :: 0 <= i < d.nz && 0 <= j < d.nz ==> ss[i].uids == ss[j].uids
  {
  }

  /** With a generator that never repeats itself, the slices have distinct SOP instance UIDs. */
  lemma SeriesSopUidsDistinct(start: Vec3, width: Vec3, v: Volume<real>, d: Dims,
                              meta: ImageMetadata, uid: UidSource, prefix: string)
    requires Shaped(v, d)
    requires forall a: nat, b: nat :: a != b ==> uid(a) != uid(b)
    ensures var ss := Series(start, width, v, d, meta, uid, prefix);
            forall i, j :: 0 <= i < j < d.nz ==> ss[i].sopInstanceUid != ss[j].sopInstanceUid
  {
    var ss := Series(start, width, v, d, meta, uid, prefix);
    forall i, j | 0 <= i < j < d.nz ensures ss[i].sopInstanceUid != ss[j].sopInstanceUid {
      assert ss[i].sopInstanceUid == uid(3 + i) && ss[j].sopInstanceUid == uid(3 + j);
    }
  }

  /**
   * Slice `i` of the intended series is numbered `i + 1`, lies `width.z * 10`
   * beyond slice `i - 1`, and declares as Rows and Columns the shape of its
   * pixel matrix, whose pixel `(y, x)` is sample `(x, y, i)`. Its thickness,
   * pixel spacing and in-plane position are the grid's, in millimetres.
   */
  lemma SliceLayout(i: nat, start: Vec3, width: Vec3, v: Volume<real>, d: Dims,
                    meta: ImageMetadata, uid: UidSource, prefix: string)
    requires Shaped(v, d) && i < d.nz
    ensures var s := Slice(i, start, width, v, d, meta, uid, prefix);
            && s.instanceNumber == i + 1
            && |s.imagePositionPatient| == 3
            && s.imagePositionPatient[0] == start.x * 10.0 && s.imagePositionPatient[1] == start.y * 10.0
            && s.imagePositionPatient[2] == start.z * 10.0 + i as real * (width.z * 10.0)
            && s.sliceThickness == width.z * 10.0
            && s.pixelSpacing == [width.x * 10.0, width.y * 10.0]
            && s.rows == |s.pixels|
            && (forall y :: 0 <= y < s.rows ==> |s.pixels[y]| == s.columns)
            && (forall y, x :: 0 <= y < d.ny && 0 <= x < d.nx ==> s.pixels[y][x] == v[x][y][i])
  {
    PixelDataTransposes(v, d, i);
  }

  /** The series, or the ValueError raised before anything is written. */
  function WriteImageSpec(start: Option<Vec3>, width: Option<Vec3>, data: Option<Volume<real>>, d: Dims,
                          prefix: string, meta: ImageMetadata, uid: UidSource): (r: Result<ImageSeries>)
    requires data.Some? ==> Shaped(data.value, d)
    ensures (start.None? || width.None? || data.None?) <==> r == Err(MissingImageFields)
    ensures start.Some? && width.Some? && data.Some? && d.Count() == 0 <==> r == Err(EmptyArray)
    ensures r.Ok? ==> |r.value.slices| == d.nz && |r.value.sopInstanceUids| == d.nz &&
                      forall i :: 0 <= i < d.nz ==> r.value.sopInstanceUids[i] == r.value.slices[i].sopInstanceUid
  {
    if start.None? || width.None? || data.None? then Err(MissingImageFields)
    else if d.Count() == 0 then Err(EmptyArray)
    else
      var ss := Series(start.value, width.value, Adjusted(data.value, d), d, meta, uid, prefix);
      Ok(ImageSeries(ss, seq(d.nz, i requires 0 <= i < d.nz => ss[i].sopInstanceUid)))
  }

  /**
   * `write_dicom_image`: checks the fields, shifts a negative volume by 1024
   * in the caller's array, and builds one dataset per slice.
   */
  method WriteDicomImage(start: Option<Vec3>, width: Option<Vec3>, data: Option<array3<real>>,
                         prefix: string, meta: ImageMetadata, uid: UidSource) returns (r: Result<ImageSeries>)
    modifies if data.Some? then {data.value} else {}
    ensures data.None? ==> r == Err(MissingImageFields)
    ensures data.Some? ==>
              var d, v := ShapeOfArray(data.value), old(Contents(data.value));
              && r == WriteImageSpec(start, width, Some(v), d, prefix, meta, uid)
              && Contents(data.value) == if r.Ok? then Adjusted(v, d) else v
  {
    if start.None? || width.None? || data.None? {
      return Err(MissingImageFields);
    }
    var a := data.value;
    var d := ShapeOfArray(a);
    if d.Count() == 0 {
      return Err(EmptyArray);
    }
    ghost var v := Contents(a);
    AdjustNegative(a);
    var slices, sopInstanceUids := WriteSlices(start.value, width.value, a, prefix, meta, uid);
    r := Ok(ImageSeries(slices, sopInstanceUids));
  }

  /** The slice loop of `write_dicom_image`: one dataset and one SOP instance UID per z-slice. */
  method WriteSlices(start: Vec3, width: Vec3, a: array3<real>, prefix: string, meta: ImageMetadata, uid: UidSource)
    returns (slices: seq<CtSlice>, sopInstanceUids: seq<string>)
    ensures var d := ShapeOfArray(a);
            && slices == Series(start, width, Contents(a), d, meta, uid, prefix)
            && sopInstanceUids == seq(d.nz, i requires 0 <= i < d.nz => slices[i].sopInstanceUid)
  {
    var d := ShapeOfArray(a);
    var w := Contents(a);
    ghost var series := Series(start, width, w, d, meta, uid, prefix);
    slices := [];
    sopInstanceUids := [];
    var ids := SharedUids(meta, uid);
    for i := 0 to d.nz
      invariant slices == series[..i]
      invariant |sopInstanceUids| == i
      invariant forall k :: 0 <= k < i ==> sopInstanceUids[k] == slices[k].sopInstanceUid
    {
      var sop := uid(3 + i);
      var pixels := PixelData(w, d, i);
      var ds := Dataset(i, start, width, d.ny, d.nx, pixels, meta, ids, sop, prefix);
      assert ds == series[i];
      assert series[..i + 1] == series[..i] + [ds];
      slices := slices + [ds];
      sopInstanceUids := sopInstanceUids + [sop];
    }
    assert series[..d.nz] == series;
  }

  /** `if np.min(data) < 0: data += 1024`, in place. */
  method AdjustNegative(a: array3<real>)
    requires ShapeOfArray(a).Count() > 0
    modifies a
    ensures Contents(a) == Adjusted(old(Contents(a)), ShapeOfArray(a))
  {
    var d := ShapeOfArray(a);
    ghost var v := Contents(a);
    if MinSample(Contents(a), d) < 0.0 {
      forall x, y, z | 0 <= x < d.nx && 0 <= y < d.ny && 0 <= z < d.nz {
        a[x, y, z] := a[x, y, z] + 1024.0;
      }
      assert forall x, y, z :: 0 <= x < d.nx && 0 <= y < d.ny && 0 <= z < d.nz ==> a[x, y, z] == v[x][y][z] + 1024.0;
    }
    AdjustedPointwise(v, Contents(a), d);
  }

  /** A volume that agrees with the adjustment sample by sample is the adjusted volume. */
  lemma AdjustedPointwise(v: Volume<real>, c: Volume<real>, d: Dims)
    requires Shaped(v, d) && Shaped(c, d) && d.Count() > 0
    requires forall x, y, z :: 0 <= x < d.nx && 0 <= y < d.ny && 0 <= z < d.nz ==>
               c[x][y][z] == (if MinSample(v, d) < 0.0 then v[x][y][z] + 1024.0 else v[x][y][z])
    ensures c == Adjusted(v, d)
  {
    SameVolume(c, Adjusted(v, d), d);
  }
}
