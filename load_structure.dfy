/**
 * Structure loading (load_structure.py): the ROIs of the image's structure
 * set, their contour loops read from curve files, a voxel mask per ROI in
 * which each loop marks the pixels of its vertices on one slice, and the
 * volume the mask covers.
 */
module LoadStructure {
  import opened Common
  import opened Text

  /** A contour point: the floats of one `x,y,z;` line (a tuple of any length). */
  type Point = seq<real>

  /** One closed contour: the points of one `pointData` element. */
  type Loop = seq<Point>

  /** The `numDataPoints` attribute: absent (read as 0), an integer, or text `int()` rejects. */
  datatype IntAttr = Missing | IntValue(n: int) | NotAnInt

  /** A `pointData` element: its count attribute and its text ("" when it has none). */
  datatype PointData = PointData(count: IntAttr, text: string)

  /** A curve file: not well-formed XML, or its `pointData` elements in document order. */
  datatype CurveFile = Malformed | CurveXml(elements: seq<PointData>)

  /** Parses one comma-separated field as `float()` does; None when `float()` raises. */
  type FloatParser = string -> Option<real>

  /** One line of point text: `;` stripped from both ends, split at commas, each field a float. */
  function ParseLine(line: string, parseFloat: FloatParser): (p: Option<Point>)
    ensures p.Some? <==> forall i :: 0 <= i < |Fields(line)| ==> parseFloat(Fields(line)[i]).Some?
    ensures p.Some? ==> |p.value| == |Fields(line)| &&
                        forall i :: 0 <= i < |Fields(line)| ==> p.value[i] == parseFloat(Fields(line)[i]).value
  {
    ParseFields(Fields(line), parseFloat)
  }

  /** The comma-separated fields of a line with `;` stripped from both ends. */
  function Fields(line: string): seq<string> {
    Split(Strip(line, {';'}), ',')
  }

  function ParseFields(fields: seq<string>, parseFloat: FloatParser): (p: Option<Point>)
    ensures (p.Some? <==> forall i :: 0 <= i < |fields| ==> parseFloat(fields[i]).Some?)
    ensures p.Some? ==> |p.value| == |fields| && forall i :: 0 <= i < |fields| ==> p.value[i] == parseFloat(fields[i]).value
  {
    if fields == [] then Some([])
    else
      var init, last := fields[..|fields| - 1], fields[|fields| - 1];
      assert forall i :: 0 <= i < |init| ==> init[i] == fields[i];
      match ParseFields(init, parseFloat)
      case None => None
      case Some(ps) => if parseFloat(last).None? then None else Some(ps + [parseFloat(last).value])
  }

  /** The points of the non-empty lines; None when one of them does not parse. */
  function ParseLines(lines: seq<string>, parseFloat: FloatParser): Option<seq<Point>> {
    if lines == [] then Some([])
    else
      var init, last := lines[..|lines| - 1], lines[|lines| - 1];
      match ParseLines(init, parseFloat)
      case None => None
      case Some(ps) =>
        if last == "" then Some(ps)
        else match ParseLine(last, parseFloat)
          case None => None
          case Some(p) => Some(ps + [p])
  }

  /** The non-empty lines, in order. */
  function NonEmptyLines(lines: seq<string>): (ls: seq<string>)
    ensures forall l :: l in ls <==> l in lines && l != ""
  {
    if lines == [] then []
    else
      var init, last := lines[..|lines| - 1], lines[|lines| - 1];
      assert lines == init + [last];
      NonEmptyLines(init) + (if last == "" then [] else [last])
  }

  /** Each non-empty line gives exactly one point, in order; empty lines give none. */
  lemma {:induction false} ParseLinesPointwise(lines: seq<string>, parseFloat: FloatParser)
    requires ParseLines(lines, parseFloat).Some?
    ensures var ps, ls := ParseLines(lines, parseFloat).value, NonEmptyLines(lines);
            |ps| == |ls| && forall i :: 0 <= i < |ls| ==> ParseLine(ls[i], parseFloat) == Some(ps[i])
  {
    if lines != [] {
      var init, last := lines[..|lines| - 1], lines[|lines| - 1];
      ParseLinesPointwise(init, parseFloat);
      var ps0, ls0 := ParseLines(init, parseFloat).value, NonEmptyLines(init);
      if last == "" {
        assert NonEmptyLines(lines) == ls0;
        assert ParseLines(lines, parseFloat).value == ps0;
      } else {
        var p := ParseLine(last, parseFloat).value;
        assert NonEmptyLines(lines) == ls0 + [last];
        assert ParseLines(lines, parseFloat).value == ps0 + [p];
      }
    }
  }

  /** `int(element.get("numDataPoints", 0))` for an attribute `int()` accepts. */
  function CountOf(a: IntAttr): int
    requires !a.NotAnInt?
  {
    if a.IntValue? then a.n else 0
  }

  /**
   * What one element contributes: None when an exception is raised, Some(None)
   * when its count is not positive, otherwise its loop.
   */
  function ElementLoop(e: PointData, parseFloat: FloatParser): Option<Option<Loop>> {
    if e.count.NotAnInt? then None
    else
      var n := CountOf(e.count);
      if n <= 0 then Some(None)
      else if e.text == "" then None
      else match ParseLines(Split(Strip(e.text, Whitespace), '\n'), parseFloat)
        case None => None
        case Some(points) => Some(Some(points))
  }

  /** The element loop of `parse_curve_file`; None when an element raises. */
  function CurveFold(es: seq<PointData>, parseFloat: FloatParser): Option<seq<Loop>> {
    if es == [] then Some([])
    else
      match CurveFold(es[..|es| - 1], parseFloat)
      case None => None
      case Some(ls) =>
        match ElementLoop(es[|es| - 1], parseFloat)
        case None => None
        case Some(None) => Some(ls)
        case Some(Some(l)) => Some(ls + [l])
  }

  /** `parse_curve_file`: the loops of the file, or [] when anything raises. */
  function CurveSpec(f: CurveFile, parseFloat: FloatParser): seq<Loop> {
    if f.Malformed? then []
    else match CurveFold(f.elements, parseFloat)
      case None => []
      case Some(ls) => ls
  }

  /** The elements with a positive count, in order. */
  function Counted(es: seq<PointData>): seq<PointData> {
    if es == [] then []
    else
      var last := es[|es| - 1];
      Counted(es[..|es| - 1]) + (if last.count.IntValue? && last.count.n > 0 then [last] else [])
  }

  /** When nothing raises, there is one loop per element with a positive count, in order. */
  lemma {:induction false} OneLoopPerCountedElement(es: seq<PointData>, parseFloat: FloatParser)
    requires CurveFold(es, parseFloat).Some?
    ensures var ls, cs := CurveFold(es, parseFloat).value, Counted(es);
            |ls| == |cs| && forall i :: 0 <= i < |cs| ==> ElementLoop(cs[i], parseFloat) == Some(Some(ls[i]))
  {
    if es != [] {
      OneLoopPerCountedElement(es[..|es| - 1], parseFloat);
    }
  }

  lemma CurveFoldStep(es: seq<PointData>, parseFloat: FloatParser, i: nat, ls: seq<Loop>)
    requires i < |es| && CurveFold(es[..i], parseFloat) == Some(ls)
    ensures CurveFold(es[..i + 1], parseFloat) ==
            match ElementLoop(es[i], parseFloat)
            case None => None
            case Some(None) => Some(ls)
            case Some(Some(l)) => Some(ls + [l])
  {
    assert es[..i + 1][..i] == es[..i];
  }

  /** Once an element has raised, later elements do not matter. */
  lemma {:induction false} CurveFailurePersists(es: seq<PointData>, parseFloat: FloatParser, k: nat)
    requires k <= |es| && CurveFold(es[..k], parseFloat).None?
    ensures CurveFold(es, parseFloat).None?
    decreases |es| - k
  {
    if k < |es| {
      assert es[..k + 1][..k] == es[..k];
      CurveFailurePersists(es, parseFloat, k + 1);
    } else {
      assert es[..k] == es;
    }
  }

  /** `parse_curve_file`: loops of the `pointData` elements; [] if any step raises. */
  method ParseCurveFile(f: CurveFile, parseFloat: FloatParser) returns (loops: seq<Loop>)
    ensures loops == CurveSpec(f, parseFloat)
  {
    if f.Malformed? {
      return [];
    }
    var es := f.elements;
    var pointsData: seq<Loop> := [];
    var i := 0;
    while i < |es|
      invariant 0 <= i <= |es|
      invariant CurveFold(es[..i], parseFloat) == Some(pointsData)
    {
      CurveFoldStep(es, parseFloat, i, pointsData);
      var e := es[i];
      if e.count.NotAnInt? {
        CurveFailurePersists(es, parseFloat, i + 1);
        return [];
      }
      var n := CountOf(e.count);
      if n > 0 {
        if e.text == "" {
          CurveFailurePersists(es, parseFloat, i + 1);
          return [];
        }
        var points := ParseLines(Split(Strip(e.text, Whitespace), '\n'), parseFloat);
        if points.None? {
          CurveFailurePersists(es, parseFloat, i + 1);
          return [];
        }
        pointsData := pointsData + [points.value];
      }
      i := i + 1;
    }
    assert es[..i] == es;
    return pointsData;
  }

  // ----- Masks -----

  /** `int(x)`: truncation toward zero. */
  function Trunc(x: real): (t: int)
    ensures x >= 0.0 ==> t as real <= x < t as real + 1.0
    ensures x < 0.0 ==> t as real - 1.0 < x <= t as real
  {
    if x >= 0.0 then x.Floor else -((-x).Floor)
  }

  /** Whether `i` indexes an axis of length `n`, counting negative indices from the end. */
  predicate InAxis(i: int, n: nat) {
    -(n as int) <= i < n
  }

  /** numpy's reading of an index on an axis of length `n`. */
  function Wrap(i: int, n: nat): (w: nat)
    requires InAxis(i, n)
    ensures w < n && (w == i || w == i + n)
  {
    if i < 0 then i + n else i
  }

  /** `np.round` of a float to an integer; its tie-breaking rule is left abstract. */
  type Rounder = real -> int

  /** The slice index of a loop: its first point's z offset in slice widths, truncated. */
  function SliceIndex(loop: Loop, g: Geometry): int
    requires |loop| > 0 && |loop[0]| >= 3 && g.width.z != 0.0
  {
    Trunc((loop[0][2] - g.start.z) / g.width.z)
  }

  /** A vertex's pixel: `(round((x - sx) / wx), round((y - sy) / wy))`. */
  function Pixel(p: Point, g: Geometry, rnd: Rounder): (int, int)
    requires |p| >= 2 && g.width.x != 0.0 && g.width.y != 0.0
  {
    (rnd((p[0] - g.start.x) / g.width.x), rnd((p[1] - g.start.y) / g.width.y))
  }

  /** A vertex whose pixel indexes the slice without raising. */
  predicate OnGrid(p: Point, g: Geometry, rnd: Rounder) {
    && |p| >= 2 && g.width.x != 0.0 && g.width.y != 0.0
    && InAxis(Pixel(p, g, rnd).0, g.dims.nx)
    && InAxis(Pixel(p, g, rnd).1, g.dims.ny)
  }

  /** The row a vertex marks. */
  function Row(p: Point, g: Geometry, rnd: Rounder): nat
    requires OnGrid(p, g, rnd)
  {
    Wrap(Pixel(p, g, rnd).0, g.dims.nx)
  }

  /** The column a vertex marks. */
  function Col(p: Point, g: Geometry, rnd: Rounder): nat
    requires OnGrid(p, g, rnd)
  {
    Wrap(Pixel(p, g, rnd).1, g.dims.ny)
  }

  /** A loop `generate_mask` draws without raising IndexError or ZeroDivisionError. */
  predicate Drawable(loop: Loop, g: Geometry, rnd: Rounder) {
    && |loop| > 0 && |loop[0]| >= 3 && g.width.z != 0.0
    && InAxis(SliceIndex(loop, g), g.dims.nz)
    && forall q :: 0 <= q < |loop| ==> OnGrid(loop[q], g, rnd)
  }

  /** The slice a drawable loop is written to. */
  function Slice(loop: Loop, g: Geometry, rnd: Rounder): nat
    requires Drawable(loop, g, rnd)
  {
    Wrap(SliceIndex(loop, g), g.dims.nz)
  }

  /** The slice mask of a drawable loop: exactly the pixels of its vertices are set. */
  function SliceOf(loop: Loop, g: Geometry, rnd: Rounder): (s: seq<seq<bool>>)
    requires Drawable(loop, g, rnd)
    ensures |s| == g.dims.nx && forall i :: 0 <= i < |s| ==> |s[i]| == g.dims.ny
  {
    seq(g.dims.nx, i requires 0 <= i < g.dims.nx =>
      seq(g.dims.ny, j requires 0 <= j < g.dims.ny =>
        exists q :: 0 <= q < |loop| && Row(loop[q], g, rnd) == i && Col(loop[q], g, rnd) == j))
  }

  /** `mask[:, :, k] = s`. */
  function WriteSlice(v: Volume<bool>, d: Dims, k: nat, s: seq<seq<bool>>): (w: Volume<bool>)
    requires Shaped(v, d) && k < d.nz
    requires |s| == d.nx && forall i :: 0 <= i < |s| ==> |s[i]| == d.ny
    ensures Shaped(w, d)
    ensures forall i, j, l :: 0 <= i < d.nx && 0 <= j < d.ny && 0 <= l < d.nz ==>
              w[i][j][l] == if l == k then s[i][j] else v[i][j][l]
  {
    seq(d.nx, i requires 0 <= i < d.nx => seq(d.ny, j requires 0 <= j < d.ny => v[i][j][k := s[i][j]]))
  }

  /** `np.zeros(dims, dtype=bool)`. */
  function Zeros(d: Dims): (v: Volume<bool>)
    ensures Shaped(v, d)
    ensures forall i, j, k :: 0 <= i < d.nx && 0 <= j < d.ny && 0 <= k < d.nz ==> !v[i][j][k]
  {
    seq(d.nx, i => seq(d.ny, j => seq(d.nz, k => false)))
  }

  /** The loop of `generate_mask`, from mask `v`: each loop overwrites its slice. */
  function MaskFold(v: Volume<bool>, loops: seq<Loop>, g: Geometry, rnd: Rounder): (r: Result<Volume<bool>>)
    requires Shaped(v, g.dims)
    ensures r.Ok? ==> Shaped(r.value, g.dims)
  {
    if loops == [] then Ok(v)
    else
      var last := loops[|loops| - 1];
      match MaskFold(v, loops[..|loops| - 1], g, rnd)
      case Err(e) => Err(e)
      case Ok(m) =>
        if !Drawable(last, g, rnd) then Err(MaskError)
        else Ok(WriteSlice(m, g.dims, Slice(last, g, rnd), SliceOf(last, g, rnd)))
  }

  lemma MaskFoldStep(loops: seq<Loop>, li: nat, g: Geometry, rnd: Rounder, cur: Volume<bool>)
    requires li < |loops| && MaskFold(Zeros(g.dims), loops[..li], g, rnd) == Ok(cur)
    requires Drawable(loops[li], g, rnd)
    ensures Shaped(cur, g.dims)
    ensures MaskFold(Zeros(g.dims), loops[..li + 1], g, rnd) ==
            Ok(WriteSlice(cur, g.dims, Slice(loops[li], g, rnd), SliceOf(loops[li], g, rnd)))
  {
    assert loops[..li + 1][..li] == loops[..li];
  }

  /** `generate_mask`. */
  function MaskSpec(loops: seq<Loop>, g: Geometry, rnd: Rounder): Result<Volume<bool>> {
    MaskFold(Zeros(g.dims), loops, g, rnd)
  }

  /** Once a loop has raised, later loops do not matter. */
  lemma {:induction false} MaskErrorPersists(v: Volume<bool>, loops: seq<Loop>, g: Geometry, rnd: Rounder, k: nat)
    requires Shaped(v, g.dims)
    requires k <= |loops| && MaskFold(v, loops[..k], g, rnd).Err?
    ensures MaskFold(v, loops, g, rnd) == MaskFold(v, loops[..k], g, rnd)
    decreases |loops| - k
  {
    if k < |loops| {
      assert loops[..k + 1][..k] == loops[..k];
      MaskErrorPersists(v, loops, g, rnd, k + 1);
    } else {
      assert loops[..k] == loops;
    }
  }

  /** `generate_mask` raises exactly when one of the loops cannot be drawn. */
  lemma {:induction false} MaskRaisesIff(loops: seq<Loop>, g: Geometry, rnd: Rounder)
    ensures MaskSpec(loops, g, rnd).Err? <==> exists r :: 0 <= r < |loops| && !Drawable(loops[r], g, rnd)
  {
    if loops != [] {
      var init := loops[..|loops| - 1];
      MaskRaisesIff(init, g, rnd);
      if MaskSpec(init, g, rnd).Err? {
        var r :| 0 <= r < |init| && !Drawable(init[r], g, rnd);
        assert loops[r] == init[r];
      }
      if exists r :: 0 <= r < |loops| && !Drawable(loops[r], g, rnd) {
        var r :| 0 <= r < |loops| && !Drawable(loops[r], g, rnd);
        if r < |init| {
          assert init[r] == loops[r];
        }
      }
    }
  }

  /** The last loop whose slice is `k`, if any. */
  function LastOnSlice(loops: seq<Loop>, g: Geometry, rnd: Rounder, k: nat): (q: Option<nat>)
    requires forall r :: 0 <= r < |loops| ==> Drawable(loops[r], g, rnd)
    ensures q.Some? ==> q.value < |loops| && Slice(loops[q.value], g, rnd) == k &&
                        forall r :: q.value < r < |loops| ==> Slice(loops[r], g, rnd) != k
    ensures q.None? ==> forall r :: 0 <= r < |loops| ==> Slice(loops[r], g, rnd) != k
  {
    if loops == [] then None
    else if Slice(loops[|loops| - 1], g, rnd) == k then Some(|loops| - 1)
    else LastOnSlice(loops[..|loops| - 1], g, rnd, k)
  }

  /** Voxel `(i, j, k)` of the mask the loops describe: set by the last loop on slice `k`. */
  function Voxel(loops: seq<Loop>, g: Geometry, rnd: Rounder, i: nat, j: nat, k: nat): bool
    requires forall r :: 0 <= r < |loops| ==> Drawable(loops[r], g, rnd)
    requires i < g.dims.nx && j < g.dims.ny
  {
    match LastOnSlice(loops, g, rnd, k)
    case None => false
    case Some(q) => SliceOf(loops[q], g, rnd)[i][j]
  }

  /**
   * When `generate_mask` does not raise, every loop is drawable and each
   * slice is the slice mask of the last loop written to it, or empty when no
   * loop is.
   */
  lemma {:induction false} MaskContents(loops: seq<Loop>, g: Geometry, rnd: Rounder)
    requires MaskSpec(loops, g, rnd).Ok?
    ensures forall r :: 0 <= r < |loops| ==> Drawable(loops[r], g, rnd)
    ensures forall i, j, k :: 0 <= i < g.dims.nx && 0 <= j < g.dims.ny && 0 <= k < g.dims.nz ==>
              MaskSpec(loops, g, rnd).value[i][j][k] == Voxel(loops, g, rnd, i, j, k)
  {
    if loops != [] {
      var init, last := loops[..|loops| - 1], loops[|loops| - 1];
      MaskContents(init, g, rnd);
      var m0, m := MaskSpec(init, g, rnd).value, MaskSpec(loops, g, rnd).value;
      var s := Slice(last, g, rnd);
      assert forall r :: 0 <= r < |init| ==> loops[r] == init[r];
      forall i, j, k | 0 <= i < g.dims.nx && 0 <= j < g.dims.ny && 0 <= k < g.dims.nz
        ensures m[i][j][k] == Voxel(loops, g, rnd, i, j, k)
      {
        if k != s {
          assert LastOnSlice(loops, g, rnd, k) == LastOnSlice(init, g, rnd, k);
        }
      }
    }
  }

  /** A mask drawn from at least one loop has a set voxel: the first vertex of the last loop. */
  lemma MaskNotEmpty(loops: seq<Loop>, g: Geometry, rnd: Rounder)
    requires MaskSpec(loops, g, rnd).Ok? && loops != []
    ensures var last := loops[|loops| - 1];
            Drawable(last, g, rnd) &&
            MaskSpec(loops, g, rnd).value[Row(last[0], g, rnd)][Col(last[0], g, rnd)][Slice(last, g, rnd)]
  {
    MaskContents(loops, g, rnd);
    var last := loops[|loops| - 1];
    assert SliceOf(last, g, rnd)[Row(last[0], g, rnd)][Col(last[0], g, rnd)];
  }

  /** `slice_mask[rr, cc] = True` on a zeroed slice: the slice mask of one loop. */
  method DrawSlice(points: Loop, g: Geometry, rnd: Rounder) returns (sliceMask: array2<bool>)
    requires Drawable(points, g, rnd)
    ensures fresh(sliceMask)
    ensures sliceMask.Length0 == g.dims.nx && sliceMask.Length1 == g.dims.ny
    ensures forall i, j :: 0 <= i < g.dims.nx && 0 <= j < g.dims.ny ==> sliceMask[i, j] == SliceOf(points, g, rnd)[i][j]
  {
    sliceMask := new bool[g.dims.nx, g.dims.ny]((i, j) => false);
    forall q | 0 <= q < |points| {
      sliceMask[Row(points[q], g, rnd), Col(points[q], g, rnd)] := true;
    }
  }

  // ----- Counting voxels -----

  function CountRow(r: seq<bool>): nat {
    if r == [] then 0 else CountRow(r[..|r| - 1]) + (if r[|r| - 1] then 1 else 0)
  }

  function CountPlane(p: seq<seq<bool>>): nat {
    if p == [] then 0 else CountPlane(p[..|p| - 1]) + CountRow(p[|p| - 1])
  }

  /** `np.sum(mask)`: the number of set voxels. */
  function CountVolume(v: Volume<bool>): nat {
    if v == [] then 0 else CountVolume(v[..|v| - 1]) + CountPlane(v[|v| - 1])
  }

  /** The volume of one voxel, the product of the three widths. */
  function VoxelVolume(w: Vec3): (v: real)
    ensures w.x >= 0.0 && w.y >= 0.0 && w.z >= 0.0 ==> v >= 0.0
    ensures w.x > 0.0 && w.y > 0.0 && w.z > 0.0 ==> v > 0.0
  {
    assert w.x >= 0.0 && w.y >= 0.0 ==> w.x * w.y >= 0.0;
    assert w.x > 0.0 && w.y > 0.0 ==> w.x * w.y > 0.0;
    w.x * w.y * w.z
  }

  /** `calculate_volume`: set voxels times the voxel size. */
  function CalculateVolume(mask: Volume<bool>, width: Vec3): (vol: real)
    ensures CountVolume(mask) == 0 ==> vol == 0.0
    ensures width.x >= 0.0 && width.y >= 0.0 && width.z >= 0.0 ==> vol >= 0.0
  {
    CountVolume(mask) as real * VoxelVolume(width)
  }

  lemma {:induction false} CountRowBound(r: seq<bool>)
    ensures CountRow(r) <= |r|
    ensures CountRow(r) == 0 <==> forall k :: 0 <= k < |r| ==> !r[k]
  {
    if r != [] {
      CountRowBound(r[..|r| - 1]);
    }
  }

  lemma {:induction false} CountPlaneBound(p: seq<seq<bool>>, n: nat)
    requires forall j :: 0 <= j < |p| ==> |p[j]| == n
    ensures CountPlane(p) <= |p| * n
  {
    if p != [] {
      CountPlaneBound(p[..|p| - 1], n);
      CountRowBound(p[|p| - 1]);
      assert |p| * n == (|p| - 1) * n + n;
    }
  }

  lemma {:induction false} CountPlaneZero(p: seq<seq<bool>>)
    ensures CountPlane(p) == 0 <==> forall j, k :: 0 <= j < |p| && 0 <= k < |p[j]| ==> !p[j][k]
  {
    if p != [] {
      var init := p[..|p| - 1];
      CountPlaneZero(init);
      CountRowBound(p[|p| - 1]);
      assert forall j :: 0 <= j < |init| ==> p[j] == init[j];
    }
  }

  lemma {:induction false} CountVolumeBound(v: Volume<bool>, ny: nat, nz: nat)
    requires forall i :: 0 <= i < |v| ==> |v[i]| == ny && forall j :: 0 <= j < ny ==> |v[i][j]| == nz
    ensures CountVolume(v) <= |v| * (ny * nz)
  {
    if v != [] {
      CountVolumeBound(v[..|v| - 1], ny, nz);
      CountPlaneBound(v[|v| - 1], nz);
      assert |v| * (ny * nz) == (|v| - 1) * (ny * nz) + ny * nz;
    }
  }

  lemma {:induction false} CountVolumeZero(v: Volume<bool>)
    ensures CountVolume(v) == 0 <==>
            forall i, j, k :: 0 <= i < |v| && 0 <= j < |v[i]| && 0 <= k < |v[i][j]| ==> !v[i][j][k]
  {
    if v != [] {
      var init := v[..|v| - 1];
      CountVolumeZero(init);
      CountPlaneZero(v[|v| - 1]);
      assert forall i :: 0 <= i < |init| ==> v[i] == init[i];
    }
  }

  /** A mask's volume lies between 0 and that of the whole grid. */
  lemma VolumeWithinGrid(mask: Volume<bool>, g: Geometry)
    requires Shaped(mask, g.dims)
    requires g.width.x >= 0.0 && g.width.y >= 0.0 && g.width.z >= 0.0
    ensures 0.0 <= CalculateVolume(mask, g.width) <= g.dims.Count() as real * VoxelVolume(g.width)
  {
    var n, c, w := CountVolume(mask), g.dims.Count(), VoxelVolume(g.width);
    assert n <= c by {
      CountWithinGrid(mask, g.dims);
    }
    Scale(n as real, c as real, w);
    assert CalculateVolume(mask, g.width) == n as real * w;
  }

  /** A mask has no more set voxels than its grid has voxels. */
  lemma CountWithinGrid(mask: Volume<bool>, d: Dims)
    requires Shaped(mask, d)
    ensures CountVolume(mask) <= d.Count()
  {
    CountVolumeBound(mask, d.ny, d.nz);
    assert d.Count() == d.nx * (d.ny * d.nz);
  }

  /** With voxels of positive size, a mask's volume is 0 exactly when no voxel is set. */
  lemma VolumeZeroIff(mask: Volume<bool>, g: Geometry)
    requires Shaped(mask, g.dims) && g.width.x > 0.0 && g.width.y > 0.0 && g.width.z > 0.0
    ensures CalculateVolume(mask, g.width) == 0.0 <==>
            forall i, j, k :: 0 <= i < g.dims.nx && 0 <= j < g.dims.ny && 0 <= k < g.dims.nz ==> !mask[i][j][k]
  {
    CountVolumeZero(mask);
    var n, w := CountVolume(mask), VoxelVolume(g.width);
    if n > 0 {
      assert n as real * w > 0.0;
    }
  }

  lemma Scale(a: real, b: real, w: real)
    requires 0.0 <= a <= b && w >= 0.0
    ensures 0.0 <= a * w <= b * w
  {
    assert (b - a) * w >= 0.0;
  }


  // ----- Structures -----

  /** A `troiList` item: the ROI fields under `briefROI`, pre-parsed, and the curve file name. */
  datatype RoiNode = RoiNode(
    parent: Field,               // briefROI/dbInfo/databaseParent
    name: Field,                 // briefROI/name
    red: Option<int>,            // briefROI/color/red
    green: Option<int>,          // briefROI/color/green
    blue: Option<int>,           // briefROI/color/blue
    isDensityOverridden: Field,  // briefROI/isDensityOverridden
    overriddenDensity: Option<real>,  // briefROI/overriddenDensity
    curveDataFile: Field)        // curveDataFile

  /** A colour entry of a structure: a dictionary of components, or any other value. */
  datatype ColorValue = ColorDict(components: map<string, int>) | NotADict

  /** The dictionary `load_structures` builds for one ROI. */
  datatype Structure = Structure(
    name: string,
    color: ColorValue,
    isDensityOverridden: string,
    overriddenDensity: real,
    fileName: Option<string>,
    mask: Option<Volume<bool>>,
    volume: real,
    points: seq<Loop>)

  /** The ROI's curve loops: read only when the file name is non-empty and the file exists. */
  function RoiPoints(n: RoiNode, curveFiles: map<string, CurveFile>, parseFloat: FloatParser): seq<Loop> {
    if Truthy(n.curveDataFile) && n.curveDataFile.value in curveFiles
    then CurveSpec(curveFiles[n.curveDataFile.value], parseFloat)
    else []
  }

  /** The structure of one kept ROI; the mask step may raise. */
  function StructureOf(n: RoiNode, g: Geometry, curveFiles: map<string, CurveFile>,
                       parseFloat: FloatParser, rnd: Rounder): (r: Result<Structure>)
    ensures r.Ok? ==> (r.value.mask.None? <==> r.value.points == [])
    ensures r.Ok? && r.value.points == [] ==> r.value.volume == 0.0
    ensures r.Ok? && r.value.mask.Some? ==> r.value.volume == CalculateVolume(r.value.mask.value, g.width)
    ensures r.Ok? ==> r.value.name == FindTextOr(n.name, "Unknown")
  {
    var points := RoiPoints(n, curveFiles, parseFloat);
    var base := Structure(
      FindTextOr(n.name, "Unknown"),
      ColorDict(map["red" := n.red.GetOr(0), "green" := n.green.GetOr(0), "blue" := n.blue.GetOr(0)]),
      FindTextOr(n.isDensityOverridden, "False"),
      n.overriddenDensity.GetOr(0.0),
      if Truthy(n.curveDataFile) then n.curveDataFile else None,
      None, 0.0, points);
    if points == [] then Ok(base)
    else match MaskSpec(points, g, rnd)
      case Err(e) => Err(e)
      case Ok(m) => Ok(base.(mask := Some(m), volume := CalculateVolume(m, g.width)))
  }

  /** A structure with contour points has a mask with a set voxel, so a positive volume on a grid of positive widths. */
  lemma StructureVolumePositive(n: RoiNode, g: Geometry, curveFiles: map<string, CurveFile>,
                                parseFloat: FloatParser, rnd: Rounder)
    requires StructureOf(n, g, curveFiles, parseFloat, rnd).Ok?
    requires StructureOf(n, g, curveFiles, parseFloat, rnd).value.points != []
    requires g.width.x > 0.0 && g.width.y > 0.0 && g.width.z > 0.0
    ensures StructureOf(n, g, curveFiles, parseFloat, rnd).value.volume > 0.0
  {
    var points := RoiPoints(n, curveFiles, parseFloat);
    MaskNotEmpty(points, g, rnd);
    var m := MaskSpec(points, g, rnd).value;
    VolumeWithinGrid(m, g);
    VolumeZeroIff(m, g);
  }

  /** The ROIs of the structure set, in document order. */
  function KeptRois(rois: seq<RoiNode>, structureSetUid: Option<string>): (ks: seq<RoiNode>)
    ensures forall n :: n in ks <==> n in rois && n.parent == structureSetUid
  {
    if rois == [] then []
    else
      var last := rois[|rois| - 1];
      assert rois == rois[..|rois| - 1] + [last];
      KeptRois(rois[..|rois| - 1], structureSetUid) + (if last.parent == structureSetUid then [last] else [])
  }

  /** The ROI loop of `load_structures`: the structures it appends, or the error that stops it. */
  function StructuresFold(rois: seq<RoiNode>, structureSetUid: Option<string>, g: Geometry,
                          curveFiles: map<string, CurveFile>, parseFloat: FloatParser, rnd: Rounder): Result<seq<Structure>>
  {
    if rois == [] then Ok([])
    else
      var last := rois[|rois| - 1];
      match StructuresFold(rois[..|rois| - 1], structureSetUid, g, curveFiles, parseFloat, rnd)
      case Err(e) => Err(e)
      case Ok(ss) =>
        if last.parent != structureSetUid then Ok(ss)
        else match StructureOf(last, g, curveFiles, parseFloat, rnd)
          case Err(e) => Err(e)
          case Ok(s) => Ok(ss + [s])
  }

  lemma StructuresFoldStep(rois: seq<RoiNode>, structureSetUid: Option<string>, g: Geometry,
                           curveFiles: map<string, CurveFile>, parseFloat: FloatParser, rnd: Rounder,
                           i: nat, added: seq<Structure>)
    requires i < |rois| && StructuresFold(rois[..i], structureSetUid, g, curveFiles, parseFloat, rnd) == Ok(added)
    ensures StructuresFold(rois[..i + 1], structureSetUid, g, curveFiles, parseFloat, rnd) ==
            if rois[i].parent != structureSetUid then Ok(added)
            else match StructureOf(rois[i], g, curveFiles, parseFloat, rnd)
              case Err(e) => Err(e)
              case Ok(s) => Ok(added + [s])
  {
    assert rois[..i + 1][..i] == rois[..i];
  }

  /** One structure per ROI of the structure set, in document order. */
  lemma {:induction false} StructuresOfKeptRois(rois: seq<RoiNode>, structureSetUid: Option<string>, g: Geometry,
                                                curveFiles: map<string, CurveFile>, parseFloat: FloatParser, rnd: Rounder)
    requires StructuresFold(rois, structureSetUid, g, curveFiles, parseFloat, rnd).Ok?
    ensures var ss, ks := StructuresFold(rois, structureSetUid, g, curveFiles, parseFloat, rnd).value, KeptRois(rois, structureSetUid);
            |ss| == |ks| && forall i :: 0 <= i < |ks| ==> StructureOf(ks[i], g, curveFiles, parseFloat, rnd) == Ok(ss[i])
  {
    if rois != [] {
      StructuresOfKeptRois(rois[..|rois| - 1], structureSetUid, g, curveFiles, parseFloat, rnd);
    }
  }

  lemma {:induction false} StructuresErrorPersists(rois: seq<RoiNode>, structureSetUid: Option<string>, g: Geometry,
                                                   curveFiles: map<string, CurveFile>, parseFloat: FloatParser, rnd: Rounder, k: nat)
    requires k <= |rois| && StructuresFold(rois[..k], structureSetUid, g, curveFiles, parseFloat, rnd).Err?
    ensures StructuresFold(rois, structureSetUid, g, curveFiles, parseFloat, rnd) ==
            StructuresFold(rois[..k], structureSetUid, g, curveFiles, parseFloat, rnd)
    decreases |rois| - k
  {
    if k < |rois| {
      assert rois[..k + 1][..k] == rois[..k];
      StructuresErrorPersists(rois, structureSetUid, g, curveFiles, parseFloat, rnd, k + 1);
    } else {
      assert rois[..k] == rois;
    }
  }

  /**
   * The `LoadStructures` object: the image entries it reads (structure set
   * UID and grid geometry) and the list of structures it appends to.
   */
  class StructureLoader {
    const structureSetUid: Option<string>
    const geometry: Geometry
    var structures: seq<Structure>

    constructor(structureSetUid: Option<string>, geometry: Geometry)
      ensures this.structureSetUid == structureSetUid && this.geometry == geometry && structures == []
    {
      this.structureSetUid := structureSetUid;
      this.geometry := geometry;
      structures := [];
    }

    /** `generate_mask`: each drawable loop marks its vertex pixels on a fresh slice that replaces its slice of the mask. */
    method GenerateMask(loops: seq<Loop>, rnd: Rounder) returns (r: Result<Volume<bool>>)
      ensures r == MaskSpec(loops, geometry, rnd)
    {
      var g := geometry;
      var d := g.dims;
      var mask := new bool[d.nx, d.ny, d.nz]((i, j, k) => false);
      SameVolume(Contents(mask), Zeros(d), d);
      var li := 0;
      while li < |loops|
        invariant 0 <= li <= |loops|
        invariant ShapeOfArray(mask) == d
        invariant MaskFold(Zeros(d), loops[..li], g, rnd) == Ok(Contents(mask))
      {
        var points := loops[li];
        if !Drawable(points, g, rnd) {
          assert loops[..li + 1][..li] == loops[..li];
          MaskErrorPersists(Zeros(d), loops, g, rnd, li + 1);
          return Err(MaskError);
        }
        var sliceIndex := Slice(points, g, rnd);
        var sliceMask := DrawSlice(points, g, rnd);
        MaskFoldStep(loops, li, g, rnd, Contents(mask));
        CopySlice(mask, sliceIndex, sliceMask, SliceOf(points, g, rnd));
        li := li + 1;
      }
      assert loops[..li] == loops;
      r := Ok(Contents(mask));
    }

    /** `mask[:, :, k] = slice_mask`, in place. */
    static method CopySlice(mask: array3<bool>, k: nat, sliceMask: array2<bool>, ghost s: seq<seq<bool>>)
      requires k < mask.Length2 && sliceMask.Length0 == mask.Length0 && sliceMask.Length1 == mask.Length1
      requires |s| == mask.Length0 && forall i :: 0 <= i < |s| ==> |s[i]| == mask.Length1
      requires forall i, j :: 0 <= i < mask.Length0 && 0 <= j < mask.Length1 ==> sliceMask[i, j] == s[i][j]
      modifies mask
      ensures Contents(mask) == WriteSlice(old(Contents(mask)), ShapeOfArray(mask), k, s)
    {
      ghost var before := Contents(mask);
      forall i, j | 0 <= i < mask.Length0 && 0 <= j < mask.Length1 {
        mask[i, j, k] := sliceMask[i, j];
      }
      SameVolume(Contents(mask), WriteSlice(before, ShapeOfArray(mask), k, s), ShapeOfArray(mask));
    }

    /** The body of the ROI loop of `load_structures` for a kept ROI: its dictionary, mask and volume. */
    method LoadRoi(troi: RoiNode, curveFiles: map<string, CurveFile>, parseFloat: FloatParser, rnd: Rounder)
      returns (r: Result<Structure>)
      ensures r == StructureOf(troi, geometry, curveFiles, parseFloat, rnd)
    {
      var fileName: Option<string> := None;
      if Truthy(troi.curveDataFile) {
        fileName := troi.curveDataFile;
      }
      var points: seq<Loop> := [];
      if fileName.Some? && fileName.value in curveFiles {
        points := ParseCurveFile(curveFiles[fileName.value], parseFloat);
      }
      var structure := Structure(
        FindTextOr(troi.name, "Unknown"),
        ColorDict(map["red" := troi.red.GetOr(0), "green" := troi.green.GetOr(0), "blue" := troi.blue.GetOr(0)]),
        FindTextOr(troi.isDensityOverridden, "False"),
        troi.overriddenDensity.GetOr(0.0),
        fileName, None, 0.0, points);
      if points != [] {
        var mask := GenerateMask(points, rnd);
        if mask.Err? {
          return Err(mask.error);
        }
        structure := structure.(mask := Some(mask.value), volume := CalculateVolume(mask.value, geometry.width));
      }
      return Ok(structure);
    }

    /** `load_structures`: appends a structure for every ROI of the image's structure set. */
    method LoadStructures(xml: Option<seq<RoiNode>>, curveFiles: map<string, CurveFile>,
                          parseFloat: FloatParser, rnd: Rounder) returns (outcome: Outcome)
      modifies this
      ensures xml.None? ==> outcome == Fail(XmlNotFound) && structures == old(structures)
      ensures xml.Some? ==>
                var s := StructuresFold(xml.value, structureSetUid, geometry, curveFiles, parseFloat, rnd);
                (s.Ok? ==> outcome == Pass && structures == old(structures) + s.value) &&
                (s.Err? ==> outcome == Fail(s.error))
    {
      if xml.None? {
        return Fail(XmlNotFound);
      }
      var rois := xml.value;
      ghost var added: seq<Structure> := [];
      var i := 0;
      while i < |rois|
        invariant 0 <= i <= |rois|
        invariant StructuresFold(rois[..i], structureSetUid, geometry, curveFiles, parseFloat, rnd) == Ok(added)
        invariant structures == old(structures) + added
      {
        var troi := rois[i];
        StructuresFoldStep(rois, structureSetUid, geometry, curveFiles, parseFloat, rnd, i, added);
        if troi.parent != structureSetUid {
          i := i + 1;
          continue;
        }
        var structure := LoadRoi(troi, curveFiles, parseFloat, rnd);
        if structure.Err? {
          StructuresErrorPersists(rois, structureSetUid, geometry, curveFiles, parseFloat, rnd, i + 1);
          return Fail(structure.error);
        }
        structures := structures + [structure.value];
        added := added + [structure.value];
        i := i + 1;
      }
      assert rois[..i] == rois;
      return Pass;
    }
  }
}
