/**
 * Plan loading (load_plan.py): the `PlanLoader` object fills its `plan_data`
 * dictionary with the patient demographics, the requested plan's label and
 * timestamp, and two sinograms. A sinogram is made of the fragment files of
 * the first delivery plan that a rule selects; each fragment is trimmed to
 * whole rows of 64 leaves and the fragments are joined side by side.
 */
module LoadPlan {
  import opened Common

  /** Number of MLC leaves: the width of a sinogram row. */
  const Leaves: nat := 64

  /** A numpy array of float64 values: one-dimensional, or rows of equal width. */
  datatype ArrayValue = Flat(elems: seq<real>) | Grid(width: nat, rows: seq<seq<real>>)

  predicate Rectangular(a: ArrayValue) {
    a.Grid? ==> forall r :: 0 <= r < |a.rows| ==> |a.rows[r]| == a.width
  }

  type NdArray = a: ArrayValue | Rectangular(a) witness Flat([])

  /** `array.shape`. */
  function Shape(a: NdArray): seq<nat> {
    match a
    case Flat(e) => [|e|]
    case Grid(w, rows) => [|rows|, w]
  }

  /** A sinogram fragment file: either it cannot be read, or it holds float64 samples. */
  datatype SinogramFile = Unreadable | Readable(samples: seq<real>)

  /** A `fullDeliveryPlanDataArray` record: UID, purpose and the fragment file names. */
  datatype DeliveryPlan = DeliveryPlan(
    uid: Field,               // deliveryPlan/dbInfo/databaseUID
    purpose: Field,           // deliveryPlan/purpose
    fileNames: seq<string>)   // binaryFileNameArray/binaryFileNameArray texts ("" for no text)

  /** The first `patient/briefPatient` record. */
  datatype PatientNode = PatientNode(name: Field, id: Field, birthDate: Field, gender: Field)

  /** The records the plan loader reads, in document order. */
  datatype PlanArchive = PlanArchive(patient: Option<PatientNode>, plans: seq<BriefPlan>, deliveryPlans: seq<DeliveryPlan>)

  datatype Patient = Patient(name: string, id: string, birthDate: string, gender: string)

  datatype PlanDetails = PlanDetails(planLabel: string, date: string, time: string)

  /**
   * The `plan_data` dictionary; an entry that was never written is None.
   * Nothing writes `fluenceUid`: its lookup always yields None in a fresh loader.
   */
  datatype PlanData = PlanData(
    patient: Option<Patient>,
    details: Option<PlanDetails>,
    fluenceUid: Option<string>,
    fluenceSinogram: Option<NdArray>,
    agnosticSinogram: Option<NdArray>)

  const EmptyPlanData: PlanData := PlanData(None, None, None, None, None)

  /** `extract_sinogram`: whole rows of 64 samples, or an empty 1-D array when the file cannot be read. */
  function ExtractSinogram(f: SinogramFile): (a: NdArray)
    ensures f.Unreadable? ==> a == Flat([])
    ensures f.Readable? ==> a.Grid? && a.width == Leaves && |a.rows| == |f.samples| / Leaves
    ensures f.Readable? ==> forall r, c :: 0 <= r < |a.rows| && 0 <= c < Leaves ==> a.rows[r][c] == f.samples[Leaves * r + c]
  {
    match f
    case Unreadable => Flat([])
    case Readable(s) =>
      var n := |s| / Leaves;
      Grid(Leaves, seq(n, r requires 0 <= r < n => s[Leaves * r .. Leaves * r + Leaves]))
  }

  /** The rows of a matrix read one after the other. */
  function ConcatRows(rows: seq<seq<real>>): seq<real> {
    if rows == [] then [] else ConcatRows(rows[..|rows| - 1]) + rows[|rows| - 1]
  }

  /**
   * Reading the sinogram's rows in order gives back the file's samples up
   * to the last whole row: fewer than 64 trailing samples are dropped.
   */
  lemma ExtractSinogramKeepsPrefix(s: seq<real>)
    ensures var a := ExtractSinogram(Readable(s));
            var kept := Leaves * (|s| / Leaves);
            kept <= |s| && |s| - kept < Leaves && ConcatRows(a.rows) == s[..kept]
  {
    var a := ExtractSinogram(Readable(s));
    RowsPrefix(s, a.rows, |a.rows|);
    assert a.rows[..|a.rows|] == a.rows;
  }

  lemma {:induction false} RowsPrefix(s: seq<real>, rows: seq<seq<real>>, n: nat)
    requires n <= |rows| && Leaves * |rows| <= |s|
    requires forall r :: 0 <= r < |rows| ==> rows[r] == s[Leaves * r .. Leaves * r + Leaves]
    ensures ConcatRows(rows[..n]) == s[..Leaves * n]
  {
    if n > 0 {
      RowsPrefix(s, rows, n - 1);
      assert rows[..n][..n - 1] == rows[..n - 1];
      assert s[..Leaves * n] == s[..Leaves * (n - 1)] + s[Leaves * (n - 1) .. Leaves * n];
    }
  }

  /** Sum of the widths of 2-D arrays. */
  function Widths(parts: seq<NdArray>): nat {
    if parts == [] then 0 else Widths(parts[..|parts| - 1]) + (if parts[|parts| - 1].Grid? then parts[|parts| - 1].width else 0)
  }

  /** Row `r` of every part, side by side. */
  function JoinRow(parts: seq<NdArray>, r: nat): (row: seq<real>)
    requires forall p :: p in parts ==> p.Grid? && r < |p.rows|
    ensures |row| == Widths(parts)
  {
    if parts == [] then []
    else
      assert forall p :: p in parts[..|parts| - 1] ==> p in parts;
      JoinRow(parts[..|parts| - 1], r) + parts[|parts| - 1].rows[r]
  }

  /** All elements of 1-D arrays, in order. */
  function JoinFlat(parts: seq<NdArray>): seq<real>
    requires forall p :: p in parts ==> p.Flat?
  {
    if parts == [] then []
    else
      assert forall p :: p in parts[..|parts| - 1] ==> p in parts;
      JoinFlat(parts[..|parts| - 1]) + parts[|parts| - 1].elems
  }

  /**
   * `np.hstack`: the first array decides. 1-D arrays are concatenated; 2-D
   * arrays with the same number of rows are joined along the columns;
   * anything else raises.
   */
  function HStack(parts: seq<NdArray>): (r: Result<NdArray>)
    requires |parts| >= 1
    ensures r.Ok? <==> (forall p :: p in parts ==> p.Flat?) ||
                       (parts[0].Grid? && forall p :: p in parts ==> p.Grid? && |p.rows| == |parts[0].rows|)
    ensures r.Ok? && parts[0].Flat? ==> r.value.Flat?
    ensures r.Ok? && parts[0].Grid? ==> r.value.Grid? && |r.value.rows| == |parts[0].rows| && r.value.width == Widths(parts)
  {
    if parts[0].Flat? then
      if forall p :: p in parts ==> p.Flat? then
        var a: NdArray := Flat(JoinFlat(parts));
        Ok(a)
      else Err(HStackMismatch)
    else
      var n := |parts[0].rows|;
      if forall p :: p in parts ==> p.Grid? && |p.rows| == n then
        var a: NdArray := Grid(Widths(parts), seq(n, r requires 0 <= r < n => JoinRow(parts, r)));
        Ok(a)
      else Err(HStackMismatch)
  }

  /** Column offset of part `m` in the joined matrix. */
  lemma {:induction false} JoinRowPlacesPart(parts: seq<NdArray>, r: nat, m: nat, c: nat)
    requires forall p :: p in parts ==> p.Grid? && r < |p.rows|
    requires m < |parts| && c < |parts[m].rows[r]|
    ensures Widths(parts[..m]) + c < |JoinRow(parts, r)|
    ensures JoinRow(parts, r)[Widths(parts[..m]) + c] == parts[m].rows[r][c]
  {
    var init := parts[..|parts| - 1];
    assert forall p :: p in init ==> p in parts;
    if m < |parts| - 1 {
      assert parts[..m] == init[..m];
      JoinRowPlacesPart(init, r, m, c);
      WidthsPrefix(init, m);
    } else {
      assert parts[..m] == init;
    }
  }

  lemma {:induction false} WidthsPrefix(parts: seq<NdArray>, m: nat)
    requires m <= |parts|
    ensures Widths(parts[..m]) <= Widths(parts)
  {
    if m < |parts| {
      assert parts[..|parts| - 1][..m] == parts[..m];
      WidthsPrefix(parts[..|parts| - 1], m);
    } else {
      assert parts[..m] == parts;
    }
  }

  /**
   * Fragments are placed side by side: column `c` of row `r` of fragment `m`
   * is column `Widths(parts[..m]) + c` of row `r` of the result, which has
   * as many rows as each fragment.
   */
  lemma HStackSideBySide(parts: seq<NdArray>, m: nat, r: nat, c: nat)
    requires |parts| >= 1 && HStack(parts).Ok? && parts[0].Grid?
    requires m < |parts| && r < |parts[m].rows| && c < parts[m].width
    ensures var g := HStack(parts).value;
            r < |g.rows| && Widths(parts[..m]) + c < g.width &&
            g.rows[r][Widths(parts[..m]) + c] == parts[m].rows[r][c]
  {
    assert parts[m] in parts;
    JoinRowPlacesPart(parts, r, m, c);
  }

  /** Joining a single array gives it back. */
  lemma HStackSingle(a: NdArray)
    ensures HStack([a]) == Ok(a)
  {
    assert [a][..0] == [];
    if a.Flat? {
      assert JoinFlat([a]) == JoinFlat([a][..0]) + a.elems;
      assert JoinFlat([a]) == a.elems;
      assert forall p :: p in [a] ==> p.Flat?;
      assert HStack([a]).value == Flat(JoinFlat([a]));
    } else {
      var g := HStack([a]).value;
      assert [a][..0] == [];
      assert Widths([a]) == Widths([a][..0]) + a.width;
      forall r | 0 <= r < |a.rows| ensures g.rows[r] == a.rows[r] {
        assert JoinRow([a], r) == JoinRow([], r) + a.rows[r];
      }
      assert g.rows == a.rows;
    }
  }

  /** Which delivery plan a lookup takes: by UID, or by purpose. */
  datatype Selector = ByUid(uid: Option<string>) | ByPurpose(purpose: string)

  predicate Selects(sel: Selector, dp: DeliveryPlan) {
    match sel
    case ByUid(u) => dp.uid == u
    case ByPurpose(p) => dp.purpose == Some(p)
  }

  /** Index of the first selected delivery plan: the one whose `break` ends the lookup. */
  function FirstSelected(dps: seq<DeliveryPlan>, sel: Selector): (j: Option<nat>)
    ensures j.Some? ==> j.value < |dps| && Selects(sel, dps[j.value])
    ensures j.Some? ==> forall k :: 0 <= k < j.value ==> !Selects(sel, dps[k])
    ensures j.None? ==> forall k :: 0 <= k < |dps| ==> !Selects(sel, dps[k])
  {
    if dps == [] then None
    else if Selects(sel, dps[0]) then Some(0)
    else match FirstSelected(dps[1..], sel)
      case None => None
      case Some(k) => Some(k + 1)
  }

  /**
   * The fluence lookup compares with `plan_data.get('fluence_uid')`, which
   * nothing writes: from a fresh loader it takes the first delivery plan
   * that has no UID element, whatever the plan's UIDs are.
   */
  lemma FluenceLookupTakesUidless(dps: seq<DeliveryPlan>)
    ensures var j := FirstSelected(dps, ByUid(EmptyPlanData.fluenceUid));
            (j.Some? ==> dps[j.value].uid.None? && forall k :: 0 <= k < j.value ==> dps[k].uid.Some?) &&
            (j.None? ==> forall k :: 0 <= k < |dps| ==> dps[k].uid.Some?)
  {
  }

  /** The names of the listed files that exist, in list order. */
  function Existing(names: seq<string>, files: map<string, SinogramFile>): (es: seq<string>)
    ensures forall x :: x in es <==> x in names && x in files
  {
    if names == [] then []
    else
      var last := names[|names| - 1];
      assert names == names[..|names| - 1] + [last];
      Existing(names[..|names| - 1], files) + (if last in files then [last] else [])
  }

  /**
   * The fragment loop: a file element without text makes `os.path.join`
   * raise; a file that does not exist is skipped; every other file is
   * extracted, in list order.
   */
  function Fragments(names: seq<string>, files: map<string, SinogramFile>): Result<seq<NdArray>> {
    if names == [] then Ok([])
    else
      var last := names[|names| - 1];
      match Fragments(names[..|names| - 1], files)
      case Err(e) => Err(e)
      case Ok(fs) =>
        if last == "" then Err(MissingFileName)
        else if last in files then Ok(fs + [ExtractSinogram(files[last])])
        else Ok(fs)
  }

  /**
   * The fragment loop fails exactly when some file element has no text;
   * otherwise it yields one fragment per existing file, in list order.
   */
  lemma {:induction false} FragmentsOfExisting(names: seq<string>, files: map<string, SinogramFile>)
    ensures Fragments(names, files).Err? <==> "" in names
    ensures Fragments(names, files).Ok? ==>
              var fs, es := Fragments(names, files).value, Existing(names, files);
              |fs| == |es| && forall i :: 0 <= i < |es| ==> fs[i] == ExtractSinogram(files[es[i]])
  {
    if names != [] {
      var init := names[..|names| - 1];
      FragmentsOfExisting(init, files);
      assert names == init + [names[|names| - 1]];
    }
  }

  /** A lookup's sinogram: None when no plan is selected or none of its files exists. */
  function DeliverySinogram(dps: seq<DeliveryPlan>, sel: Selector, files: map<string, SinogramFile>): Result<Option<NdArray>> {
    match FirstSelected(dps, sel)
    case None => Ok(None)
    case Some(j) =>
      match Fragments(dps[j].fileNames, files)
      case Err(e) => Err(e)
      case Ok(fs) =>
        if fs == [] then Ok(None)
        else match HStack(fs)
          case Err(e) => Err(e)
          case Ok(a) => Ok(Some(a))
  }

  /** Later delivery plans never matter once one is selected. */
  lemma LaterPlansIgnored(dps: seq<DeliveryPlan>, more: seq<DeliveryPlan>, sel: Selector, files: map<string, SinogramFile>)
    requires FirstSelected(dps, sel).Some?
    ensures DeliverySinogram(dps + more, sel, files) == DeliverySinogram(dps, sel, files)
  {
    var j := FirstSelected(dps, sel).value;
    FirstSelectedPrefix(dps, more, sel);
    assert (dps + more)[j] == dps[j];
  }

  lemma {:induction false} FirstSelectedPrefix(dps: seq<DeliveryPlan>, more: seq<DeliveryPlan>, sel: Selector)
    requires FirstSelected(dps, sel).Some?
    ensures FirstSelected(dps + more, sel) == FirstSelected(dps, sel)
  {
    if !Selects(sel, dps[0]) {
      assert (dps + more)[1..] == dps[1..] + more;
      FirstSelectedPrefix(dps[1..], more, sel);
    }
  }

  function PatientOf(n: PatientNode): Patient {
    Patient(FindTextOr(n.name, "Unknown"), FindTextOr(n.id, "Unknown"),
            FindTextOr(n.birthDate, "Unknown"), FindTextOr(n.gender, "Unknown"))
  }

  /** Index of the first plan whose `findtext` UID is the requested one. */
  function FirstPlan(plans: seq<BriefPlan>, planUid: string): (j: Option<nat>)
    ensures j.Some? ==> j.value < |plans| && plans[j.value].uid == Some(planUid)
    ensures j.Some? ==> forall k :: 0 <= k < j.value ==> plans[k].uid != Some(planUid)
    ensures j.None? ==> forall k :: 0 <= k < |plans| ==> plans[k].uid != Some(planUid)
  {
    if plans == [] then None
    else if plans[0].uid == Some(planUid) then Some(0)
    else match FirstPlan(plans[1..], planUid)
      case None => None
      case Some(k) => Some(k + 1)
  }

  function DetailsOf(p: BriefPlan): PlanDetails {
    PlanDetails(FindTextOr(p.planLabel, "Unknown"), FindTextOr(p.modificationDate, "Unknown"),
                FindTextOr(p.modificationTime, "Unknown"))
  }

  /** `consistency_check`: warns only when both sinograms exist and their shapes differ. */
  function ConsistencyWarning(d: PlanData): (warn: bool)
    ensures warn <==> d.fluenceSinogram.Some? && d.agnosticSinogram.Some? &&
                      Shape(d.fluenceSinogram.value) != Shape(d.agnosticSinogram.value)
  {
    match (d.fluenceSinogram, d.agnosticSinogram)
    case (Some(f), Some(a)) => Shape(f) != Shape(a)
    case _ => false
  }

  /** Stores a lookup's sinogram under its key; nothing is stored when it has no fragment. */
  function StoreSinogram(d: PlanData, s: Option<NdArray>, fluence: bool): PlanData {
    if s.None? then d
    else if fluence then d.(fluenceSinogram := s)
    else d.(agnosticSinogram := s)
  }

  /** `load_plan` on the dictionary `d`: the resulting dictionary and whether the consistency check warns. */
  function LoadPlanSpec(d: PlanData, xml: Option<PlanArchive>, files: map<string, SinogramFile>, planUid: string): Result<(PlanData, bool)> {
    if xml.None? then Err(XmlNotFound)
    else
      var g := xml.value;
      var d1 := if g.patient.Some? then d.(patient := Some(PatientOf(g.patient.value))) else d;
      match FirstPlan(g.plans, planUid)
      case None => Err(PlanNotFound(planUid))
      case Some(j) =>
        var d2 := d1.(details := Some(DetailsOf(g.plans[j])));
        match DeliverySinogram(g.deliveryPlans, ByUid(d2.fluenceUid), files)
        case Err(e) => Err(e)
        case Ok(fs) =>
          var d3 := StoreSinogram(d2, fs, true);
          match DeliverySinogram(g.deliveryPlans, ByPurpose("Machine_Agnostic"), files)
          case Err(e) => Err(e)
          case Ok(as_) =>
            var d4 := StoreSinogram(d3, as_, false);
            Ok((d4, ConsistencyWarning(d4)))
  }

  /**
   * A fresh loader succeeds only for a plan UID that the archive lists; its
   * sinograms are then those the two lookups produce, and the dictionary
   * holds no other sinogram.
   */
  lemma LoadPlanOutcome(xml: Option<PlanArchive>, files: map<string, SinogramFile>, planUid: string)
    requires LoadPlanSpec(EmptyPlanData, xml, files, planUid).Ok?
    ensures var g := xml.value;
            var d := LoadPlanSpec(EmptyPlanData, xml, files, planUid).value.0;
            (exists p :: p in g.plans && p.uid == Some(planUid)) &&
            d.fluenceSinogram == DeliverySinogram(g.deliveryPlans, ByUid(None), files).value &&
            d.agnosticSinogram == DeliverySinogram(g.deliveryPlans, ByPurpose("Machine_Agnostic"), files).value
  {
    var g := xml.value;
    var j := FirstPlan(g.plans, planUid).value;
    assert g.plans[j] in g.plans;
  }

  class PlanLoader {
    const planUid: string
    var planData: PlanData

    constructor(planUid: string)
      ensures this.planUid == planUid && planData == EmptyPlanData
    {
      this.planUid := planUid;
      planData := EmptyPlanData;
    }

    /** `parse_patient_demographics`: the four patient entries, "Unknown" for missing elements. */
    method ParsePatientDemographics(g: PlanArchive)
      modifies this
      ensures planData == if g.patient.Some? then old(planData).(patient := Some(PatientOf(g.patient.value))) else old(planData)
    {
      if g.patient.Some? {
        var n := g.patient.value;
        planData := planData.(patient := Some(Patient(FindTextOr(n.name, "Unknown"), FindTextOr(n.id, "Unknown"),
                                                      FindTextOr(n.birthDate, "Unknown"), FindTextOr(n.gender, "Unknown"))));
      }
    }

    /** `validate_plan_uid`: the first plan with the requested UID supplies label, date and time. */
    method ValidatePlanUid(plans: seq<BriefPlan>) returns (found: bool)
      modifies this
      ensures found <==> exists p :: p in plans && p.uid == Some(planUid)
      ensures found ==> planData == old(planData).(details := Some(DetailsOf(plans[FirstPlan(plans, planUid).value])))
      ensures !found ==> planData == old(planData)
    {
      var i := 0;
      while i < |plans|
        invariant 0 <= i <= |plans|
        invariant forall k :: 0 <= k < i ==> plans[k].uid != Some(planUid)
      {
        var plan := plans[i];
        if plan.uid == Some(planUid) {
          assert FirstPlan(plans, planUid) == Some(i);
          planData := planData.(details := Some(PlanDetails(FindTextOr(plan.planLabel, "Unknown"),
                                                            FindTextOr(plan.modificationDate, "Unknown"),
                                                            FindTextOr(plan.modificationTime, "Unknown"))));
          return true;
        }
        i := i + 1;
      }
      return false;
    }

    /** The lookup shared by both sinogram loaders: first selected plan, its existing fragments, joined. */
    static method LoadDeliverySinogram(dps: seq<DeliveryPlan>, sel: Selector, files: map<string, SinogramFile>)
      returns (r: Result<Option<NdArray>>)
      ensures r == DeliverySinogram(dps, sel, files)
    {
      var sinogram: seq<NdArray> := [];
      var i := 0;
      while i < |dps|
        invariant 0 <= i <= |dps|
        invariant forall k :: 0 <= k < i ==> !Selects(sel, dps[k])
      {
        var plan := dps[i];
        if Selects(sel, plan) {
          assert FirstSelected(dps, sel) == Some(i);
          var names := plan.fileNames;
          var j := 0;
          while j < |names|
            invariant 0 <= j <= |names|
            invariant Fragments(names[..j], files) == Ok(sinogram)
          {
            var name := names[j];
            assert names[..j + 1][..j] == names[..j];
            if name == "" {
              FragmentsErrorPersists(names, files, j + 1);
              return Err(MissingFileName);
            }
            if name in files {
              sinogram := sinogram + [ExtractSinogram(files[name])];
            }
            j := j + 1;
          }
          assert names[..j] == names;
          break;
        }
        i := i + 1;
      }
      if |sinogram| == 0 {
        return Ok(None);
      }
      var joined := HStack(sinogram);
      if joined.Err? {
        return Err(joined.error);
      }
      return Ok(Some(joined.value));
    }

    /** `load_fluence_delivery_plan`: the sinogram of the delivery plan whose UID equals `fluence_uid`. */
    method LoadFluenceDeliveryPlan(dps: seq<DeliveryPlan>, files: map<string, SinogramFile>) returns (outcome: Outcome)
      modifies this
      ensures var s := DeliverySinogram(dps, ByUid(old(planData).fluenceUid), files);
              (s.Ok? ==> outcome == Pass && planData == StoreSinogram(old(planData), s.value, true)) &&
              (s.Err? ==> outcome == Fail(s.error) && planData == old(planData))
    {
      var r := LoadDeliverySinogram(dps, ByUid(planData.fluenceUid), files);
      if r.Err? {
        return Fail(r.error);
      }
      if r.value.Some? {
        planData := planData.(fluenceSinogram := r.value);
      }
      return Pass;
    }

    /** `load_machine_agnostic_plan`: the sinogram of the first `Machine_Agnostic` delivery plan. */
    method LoadMachineAgnosticPlan(dps: seq<DeliveryPlan>, files: map<string, SinogramFile>) returns (outcome: Outcome)
      modifies this
      ensures var s := DeliverySinogram(dps, ByPurpose("Machine_Agnostic"), files);
              (s.Ok? ==> outcome == Pass && planData == StoreSinogram(old(planData), s.value, false)) &&
              (s.Err? ==> outcome == Fail(s.error) && planData == old(planData))
    {
      var r := LoadDeliverySinogram(dps, ByPurpose("Machine_Agnostic"), files);
      if r.Err? {
        return Fail(r.error);
      }
      if r.value.Some? {
        planData := planData.(agnosticSinogram := r.value);
      }
      return Pass;
    }

    /** `load_plan`: demographics, plan validation, both sinograms, then the consistency check. */
    method Load(xml: Option<PlanArchive>, files: map<string, SinogramFile>) returns (outcome: Outcome, warn: bool)
      modifies this
      ensures var s := LoadPlanSpec(old(planData), xml, files, planUid);
              (s.Ok? ==> outcome == Pass && planData == s.value.0 && warn == s.value.1) &&
              (s.Err? ==> outcome == Fail(s.error) && !warn)
    {
      warn := false;
      if xml.None? {
        return Fail(XmlNotFound), false;
      }
      var g := xml.value;
      ParsePatientDemographics(g);
      var found := ValidatePlanUid(g.plans);
      if !found {
        return Fail(PlanNotFound(planUid)), false;
      }
      outcome := LoadFluenceDeliveryPlan(g.deliveryPlans, files);
      if outcome.Fail? {
        return;
      }
      outcome := LoadMachineAgnosticPlan(g.deliveryPlans, files);
      if outcome.Fail? {
        return;
      }
      warn := ConsistencyWarning(planData);
    }
  }

  /** Once the fragment loop has failed, later file names do not matter. */
  lemma {:induction false} FragmentsErrorPersists(names: seq<string>, files: map<string, SinogramFile>, k: nat)
    requires k <= |names| && Fragments(names[..k], files).Err?
    ensures Fragments(names, files) == Fragments(names[..k], files)
    decreases |names| - k
  {
    if k < |names| {
      assert names[..k + 1][..k] == names[..k];
      FragmentsErrorPersists(names, files, k + 1);
    } else {
      assert names[..k] == names;
    }
  }
}
