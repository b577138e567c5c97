/**
 * Shared vocabulary of the TomoTherapy archive exporter: optional values and
 * results, the errors the loaders and writers raise, grid geometry, 3-D
 * volumes held as nested sequences, and the IEEE special values of float
 * samples.
 *
 * Text of an XML element is an `Option<string>` (a `Field`): `None` when no
 * element is found at the path, `Some("")` when the element is present but
 * carries no text (ElementTree and lxml then report `text` as None, while
 * `findtext` reports "").
 */
module Common {

  datatype Option<T> = None | Some(value: T) {
    function GetOr(default: T): T {
      match this
      case Some(v) => v
      case None => default
    }
  }

  /** The exceptions raised by the loaders and writers. */
  datatype Error =
    | XmlNotFound                       // FileNotFoundError: the archive XML is absent
    | BinaryNotFound(file: string)      // FileNotFoundError: a referenced binary file is absent
    | ShapeMismatch(count: nat, expected: nat)  // ValueError from numpy reshape
    | MissingFileName                   // TypeError: os.path.join with a missing file name
    | NoBinaryFile                      // FileNotFoundError: no image supplied a binary file name
    | NoApprovedLegacyPlan              // ValueError from find_legacy_plans
    | PlanNotFound(uid: string)         // ValueError from load_plan
    | DoseNotFound(checkedImageTypes: seq<Option<string>>, checkedDatabaseParents: seq<Option<string>>)
    | MissingImageFields                // ValueError from write_dicom_image
    | EmptyArray                        // ValueError from np.min / np.max of an empty array
    | HStackMismatch                    // ValueError from np.hstack
    | InvalidColor(roi: nat)            // ValueError from write_dicom_structures
    | MaskError                         // IndexError or ZeroDivisionError from generate_mask
    | NoOutputDirectory                 // FileNotFoundError: os.makedirs of an empty directory name
    | RaggedContour                     // ValueError from np.array of contour points of unequal length

  datatype Result<T> = Ok(value: T) | Err(error: Error)

  /** Success or failure of a step whose effect is on an object's fields. */
  datatype Outcome = Pass | Fail(error: Error)

  type Field = Option<string>

  /** `element.findtext(path)`: None when absent, "" when present without text. */
  function FindText(f: Field): Option<string> { f }

  /** `element.findtext(path, default=d)`. */
  function FindTextOr(f: Field, d: string): (r: string)
    ensures f.None? ==> r == d
    ensures f.Some? ==> r == f.value
  {
    f.GetOr(d)
  }

  /** `.text` of an element that was found: None when it has no text. */
  function NodeText(f: Field): (r: Option<string>)
    requires f.Some?
    ensures r.Some? <==> f.value != ""
    ensures r.Some? ==> r.value == f.value
  {
    if f.value == "" then None else f
  }

  /** lxml `nodes[0].text if nodes else None`. */
  function ExtractText(f: Field): (r: Option<string>)
    ensures r.Some? <==> f.Some? && f.value != ""
    ensures r.Some? ==> r == f
  {
    if f == Some("") then None else f
  }

  /** Python truthiness of an optional string: present and non-empty. */
  predicate Truthy(s: Option<string>) {
    s.Some? && s.value != ""
  }

  /**
   * A `briefPlan` record under `fullPlanDataArray/fullPlanDataArray/plan`,
   * with the text of the child elements the exporter reads.
   */
  datatype BriefPlan = BriefPlan(
    uid: Field,               // dbInfo/databaseUID
    planLabel: Field,         // planLabel
    typeOfPlan: Field,        // typeOfPlan
    deliveryType: Field,      // planDeliveryType
    approvedTrialUid: Field,  // approvedPlanTrialUID
    modificationDate: Field,  // modificationTimestamp/date
    modificationTime: Field)  // modificationTimestamp/time

  /** `pydicom.uid.generate_uid`: the UID returned by its n-th call (counted from 0 within one writer). */
  type UidSource = nat -> string

  /** The SOP class UID of an RT Structure Set, written by the structure writer and referenced by the plan writer. */
  const RtStructureSetStorage := "1.2.840.10008.5.1.4.1.1.481.3"

  datatype Vec3 = Vec3(x: real, y: real, z: real)

  datatype Dims = Dims(nx: nat, ny: nat, nz: nat) {
    function Count(): nat { nx * ny * nz }
  }

  /** Grid geometry of a volume, in centimetres. */
  datatype Geometry = Geometry(dims: Dims, start: Vec3, width: Vec3)

  /** A float32/float64 sample as stored in a binary file. */
  datatype Num = Finite(r: real) | NaN | PosInf | NegInf

  type U16 = x: int | 0 <= x < 65536

  /** `v[i][j][k]` for `0 <= i < nx`, `0 <= j < ny`, `0 <= k < nz`. */
  type Volume<T> = seq<seq<seq<T>>>

  ghost predicate Shaped<T>(v: Volume<T>, d: Dims) {
    && |v| == d.nx
    && (forall i :: 0 <= i < |v| ==> |v[i]| == d.ny)
    && (forall i, j :: 0 <= i < |v| && 0 <= j < |v[i]| ==> |v[i][j]| == d.nz)
  }

  /** The shape of a three-dimensional array. */
  function ShapeOfArray<T>(a: array3<T>): Dims {
    Dims(a.Length0, a.Length1, a.Length2)
  }

  /** The samples of a three-dimensional array, as a volume. */
  function Contents<T>(a: array3<T>): (v: Volume<T>)
    reads a
    ensures Shaped(v, Dims(a.Length0, a.Length1, a.Length2))
    ensures forall i, j, k :: 0 <= i < a.Length0 && 0 <= j < a.Length1 && 0 <= k < a.Length2 ==> v[i][j][k] == a[i, j, k]
  {
    seq(a.Length0, i requires 0 <= i < a.Length0 reads a =>
      seq(a.Length1, j requires 0 <= j < a.Length1 reads a =>
        seq(a.Length2, k requires 0 <= k < a.Length2 reads a => a[i, j, k])))
  }

  /** Two volumes of one shape that agree sample by sample are equal. */
  lemma SameVolume<T>(v: Volume<T>, w: Volume<T>, d: Dims)
    requires Shaped(v, d) && Shaped(w, d)
    requires forall i, j, k :: 0 <= i < d.nx && 0 <= j < d.ny && 0 <= k < d.nz ==> v[i][j][k] == w[i][j][k]
    ensures v == w
  {
    forall i | 0 <= i < d.nx ensures v[i] == w[i] {
      forall j | 0 <= j < d.ny ensures v[i][j] == w[i][j] {
      }
    }
  }

  /** Applies `f` to every sample, keeping the shape. */
  function MapVolume<A, B>(v: Volume<A>, f: A -> B): (r: Volume<B>)
    ensures |r| == |v|
    ensures forall i :: 0 <= i < |v| ==> |r[i]| == |v[i]|
    ensures forall i, j :: 0 <= i < |v| && 0 <= j < |v[i]| ==> |r[i][j]| == |v[i][j]|
    ensures forall i, j, k :: 0 <= i < |v| && 0 <= j < |v[i]| && 0 <= k < |v[i][j]| ==>
              r[i][j][k] == f(v[i][j][k])
  {
    seq(|v|, i requires 0 <= i < |v| =>
      seq(|v[i]|, j requires 0 <= j < |v[i]| =>
        seq(|v[i][j]|, k requires 0 <= k < |v[i][j]| => f(v[i][j][k]))))
  }

  /** All samples of a volume, `i` slowest and `k` fastest. */
  function Flatten<T>(v: Volume<T>): seq<T> {
    if v == [] then [] else FlattenPlane(v[0]) + Flatten(v[1..])
  }

  function FlattenPlane<T>(p: seq<seq<T>>): seq<T> {
    if p == [] then [] else p[0] + FlattenPlane(p[1..])
  }

  lemma {:induction false} InFlattenPlane<T>(p: seq<seq<T>>, j: nat, k: nat)
    requires j < |p| && k < |p[j]|
    ensures p[j][k] in FlattenPlane(p)
  {
    if j > 0 {
      InFlattenPlane(p[1..], j - 1, k);
    }
  }

  lemma {:induction false} FlattenPlaneHas<T>(p: seq<seq<T>>, x: T)
    requires x in FlattenPlane(p)
    ensures exists j, k :: 0 <= j < |p| && 0 <= k < |p[j]| && p[j][k] == x
  {
    if x in p[0] {
      var k :| 0 <= k < |p[0]| && p[0][k] == x;
      assert p[0][k] == x;
    } else {
      FlattenPlaneHas(p[1..], x);
      var j, k :| 0 <= j < |p[1..]| && 0 <= k < |p[1..][j]| && p[1..][j][k] == x;
      assert p[j + 1][k] == x;
    }
  }

  /** Every sample of the volume occurs among its flattened samples. */
  lemma {:induction false} InFlatten<T>(v: Volume<T>, i: nat, j: nat, k: nat)
    requires i < |v| && j < |v[i]| && k < |v[i][j]|
    ensures v[i][j][k] in Flatten(v)
  {
    if i == 0 {
      InFlattenPlane(v[0], j, k);
    } else {
      InFlatten(v[1..], i - 1, j, k);
    }
  }

  /** Every flattened sample is a sample of the volume. */
  lemma {:induction false} FlattenHas<T>(v: Volume<T>, x: T)
    requires x in Flatten(v)
    ensures exists i, j, k :: 0 <= i < |v| && 0 <= j < |v[i]| && 0 <= k < |v[i][j]| && v[i][j][k] == x
  {
    if x in FlattenPlane(v[0]) {
      FlattenPlaneHas(v[0], x);
      var j, k :| 0 <= j < |v[0]| && 0 <= k < |v[0][j]| && v[0][j][k] == x;
      assert v[0][j][k] == x;
    } else {
      FlattenHas(v[1..], x);
      var i, j, k :| 0 <= i < |v[1..]| && 0 <= j < |v[1..][i]| && 0 <= k < |v[1..][i][j]| && v[1..][i][j][k] == x;
      assert v[i + 1][j][k] == x;
    }
  }

  /** Largest element (numpy `max`); only defined on a non-empty sequence. */
  function SeqMax(s: seq<real>): (m: real)
    requires |s| > 0
    ensures m in s
    ensures forall x :: x in s ==> x <= m
  {
    if |s| == 1 then s[0]
    else
      var rest := SeqMax(s[1..]);
      assert forall x :: x in s ==> x == s[0] || x in s[1..];
      if s[0] >= rest then s[0] else rest
  }

  /** Smallest element (numpy `min`); only defined on a non-empty sequence. */
  function SeqMin(s: seq<real>): (m: real)
    requires |s| > 0
    ensures m in s
    ensures forall x :: x in s ==> m <= x
  {
    if |s| == 1 then s[0]
    else
      var rest := SeqMin(s[1..]);
      assert forall x :: x in s ==> x == s[0] || x in s[1..];
      if s[0] <= rest then s[0] else rest
  }

  /** Largest sample of a volume, with the index of a sample that attains it. */
  lemma VolumeMax(v: Volume<real>) returns (i: nat, j: nat, k: nat)
    requires |Flatten(v)| > 0
    ensures i < |v| && j < |v[i]| && k < |v[i][j]|
    ensures v[i][j][k] == SeqMax(Flatten(v))
    ensures forall a, b, c :: 0 <= a < |v| && 0 <= b < |v[a]| && 0 <= c < |v[a][b]| ==>
              v[a][b][c] <= SeqMax(Flatten(v))
  {
    FlattenHas(v, SeqMax(Flatten(v)));
    i, j, k :| 0 <= i < |v| && 0 <= j < |v[i]| && 0 <= k < |v[i][j]| && v[i][j][k] == SeqMax(Flatten(v));
    forall a, b, c | 0 <= a < |v| && 0 <= b < |v[a]| && 0 <= c < |v[a][b]|
      ensures v[a][b][c] <= SeqMax(Flatten(v))
    {
      InFlatten(v, a, b, c);
    }
  }

  /** Smallest sample of a volume, with the index of a sample that attains it. */
  lemma VolumeMin(v: Volume<real>) returns (i: nat, j: nat, k: nat)
    requires |Flatten(v)| > 0
    ensures i < |v| && j < |v[i]| && k < |v[i][j]|
    ensures v[i][j][k] == SeqMin(Flatten(v))
    ensures forall a, b, c :: 0 <= a < |v| && 0 <= b < |v[a]| && 0 <= c < |v[a][b]| ==>
              SeqMin(Flatten(v)) <= v[a][b][c]
  {
    FlattenHas(v, SeqMin(Flatten(v)));
    i, j, k :| 0 <= i < |v| && 0 <= j < |v[i]| && 0 <= k < |v[i][j]| && v[i][j][k] == SeqMin(Flatten(v));
    forall a, b, c | 0 <= a < |v| && 0 <= b < |v[a]| && 0 <= c < |v[a][b]|
      ensures SeqMin(Flatten(v)) <= v[a][b][c]
    {
      InFlatten(v, a, b, c);
    }
  }

  /** Smallest sample of a non-empty volume (`np.min`). */
  function MinSample(v: Volume<real>, d: Dims): (m: real)
    requires Shaped(v, d) && d.Count() > 0
    ensures forall x, y, z :: 0 <= x < d.nx && 0 <= y < d.ny && 0 <= z < d.nz ==> m <= v[x][y][z]
    ensures exists x, y, z :: 0 <= x < d.nx && 0 <= y < d.ny && 0 <= z < d.nz && v[x][y][z] == m
  {
    MinAttained(v, d);
    SeqMin(Flatten(v))
  }

  lemma MinAttained(v: Volume<real>, d: Dims)
    requires Shaped(v, d) && d.Count() > 0
    ensures |Flatten(v)| > 0
    ensures forall x, y, z :: 0 <= x < d.nx && 0 <= y < d.ny && 0 <= z < d.nz ==> SeqMin(Flatten(v)) <= v[x][y][z]
    ensures exists x, y, z :: 0 <= x < d.nx && 0 <= y < d.ny && 0 <= z < d.nz && v[x][y][z] == SeqMin(Flatten(v))
  {
    InFlatten(v, 0, 0, 0);
    var x, y, z := VolumeMin(v);
  }

  /** Largest sample of a non-empty volume (`np.max`). */
  function MaxSample(v: Volume<real>, d: Dims): (m: real)
    requires Shaped(v, d) && d.Count() > 0
    ensures forall x, y, z :: 0 <= x < d.nx && 0 <= y < d.ny && 0 <= z < d.nz ==> v[x][y][z] <= m
    ensures exists x, y, z :: 0 <= x < d.nx && 0 <= y < d.ny && 0 <= z < d.nz && v[x][y][z] == m
  {
    MaxAttained(v, d);
    SeqMax(Flatten(v))
  }

  lemma MaxAttained(v: Volume<real>, d: Dims)
    requires Shaped(v, d) && d.Count() > 0
    ensures |Flatten(v)| > 0
    ensures forall x, y, z :: 0 <= x < d.nx && 0 <= y < d.ny && 0 <= z < d.nz ==> v[x][y][z] <= SeqMax(Flatten(v))
    ensures exists x, y, z :: 0 <= x < d.nx && 0 <= y < d.ny && 0 <= z < d.nz && v[x][y][z] == SeqMax(Flatten(v))
  {
    InFlatten(v, 0, 0, 0);
    var x, y, z := VolumeMax(v);
  }

  // Monotonicity and division bounds used by the index arithmetic of the reshapes.

  lemma MulMono(a: nat, b: nat, c: nat)
    requires b <= c
    ensures a * b <= a * c
  {
  }

  lemma DivBound(a: nat, b: nat, c: nat)
    requires b > 0 && a < b * c
    ensures a / b < c
  {
  }
}
