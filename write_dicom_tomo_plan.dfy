/**
 * `write_dicom_tomo_plan`: the RT Plan writer. The patient, study and series
 * header always appears; the prescription text, the fraction group, the
 * beam with its control points, the patient setup and the referenced
 * structure set appear only when the plan dictionary holds their keys.
 *
 * The plan dictionary is a record with one `Option` per key the writer
 * reads. The saving itself, the date and time stamps and the console
 * messages are not modelled; `generate_uid` is the call-indexed `UidSource`
 * and the `:.1f` number format is the parameter `fmt`.
 */
module WriteDicomTomoPlan {
  import opened Common

  const RtPlanStorage := "1.2.840.10008.5.1.4.1.1.481.5"

  /** Python's `f"{x:.1f}"`, left abstract. */
  type Formatter = real -> string

  /** One entry of `plan["controlPoints"]`: the keys the writer reads. */
  datatype ControlPointInput = ControlPointInput(
    jaws: Option<seq<real>>,
    gantryAngle: Option<real>,
    isocenter: Option<seq<real>>,
    cumulativeWeight: Option<real>)

  /** The `plan` dictionary: None when the key is absent. */
  datatype TomoPlan = TomoPlan(
    patientName: Option<string>,
    patientId: Option<string>,
    patientBirthDate: Option<string>,
    patientSex: Option<string>,
    studyUid: Option<string>,
    frameRefUid: Option<string>,
    seriesDescription: Option<string>,
    studyDescription: Option<string>,
    planLabel: Option<string>,
    rxDose: Option<real>,
    rxVolume: Option<real>,
    fractions: Option<int>,
    machine: Option<string>,
    planType: Option<string>,
    controlPoints: Option<seq<ControlPointInput>>,
    position: Option<string>,
    structureSetUid: Option<string>)

  /** A `BeamLimitingDevicePositionSequence` item. */
  datatype DevicePosition = DevicePosition(deviceType: string, leafJawPositions: seq<real>)

  /** A `ControlPointSequence` item. */
  datatype ControlPoint = ControlPoint(
    index: nat,
    nominalBeamEnergy: int,
    devicePositions: seq<DevicePosition>,
    gantryAngle: real,
    isocenter: seq<real>,
    cumulativeMetersetWeight: real)

  /** The `BeamSequence` item. */
  datatype Beam = Beam(
    manufacturer: string,
    manufacturerModelName: string,
    treatmentMachineName: string,
    primaryDosimeterUnit: string,
    sourceAxisDistance: int,
    beamName: string,
    radiationType: string,
    treatmentDeliveryType: string,
    numberOfControlPoints: nat,
    controlPoints: seq<ControlPoint>)

  /** The `ReferencedBeamSequence` item of the fraction group. */
  datatype ReferencedBeam = ReferencedBeam(beamMeterset: int, referencedBeamNumber: int)

  /** The `FractionGroupSequence` item; the two subsequences appear together. */
  datatype FractionGroup = FractionGroup(
    number: int,
    fractionsPlanned: int,
    numberOfBeams: int,
    numberOfBrachyApplicationSetups: int,
    referencedBeam: Option<ReferencedBeam>,
    targetPrescriptionDose: Option<real>)

  /** The `PatientSetupSequence` item. */
  datatype PatientSetup = PatientSetup(patientPosition: string, setupNumber: int)

  /** The `ReferencedStructureSetSequence` item. */
  datatype ReferencedStructureSet = ReferencedStructureSet(sopClassUid: string, sopInstanceUid: string)

  /** The saved RT Plan; None marks an attribute the writer does not set. */
  datatype PlanFile = PlanFile(
    sopClassUid: string,
    sopInstanceUid: string,
    patientName: string,
    patientId: string,
    patientBirthDate: string,
    patientSex: string,
    studyInstanceUid: string,
    seriesInstanceUid: string,
    frameOfReferenceUid: string,
    seriesDescription: string,
    studyDescription: string,
    planLabel: string,
    planGeometry: string,
    prescriptionDescription: Option<string>,
    fractionGroup: Option<FractionGroup>,
    beam: Option<Beam>,
    patientSetup: Option<PatientSetup>,
    referencedStructureSet: Option<ReferencedStructureSet>,
    path: string)

  // ----- Blocks -----

  /** The prescription sentence for a volume percentage and a dose in Gy. */
  function PrescriptionText(volume: real, dose: real, fmt: Formatter): string {
    fmt(volume) + "% of the prescription volume receives at least " + fmt(dose) + " Gy"
  }

  /** Control point `i` with the defaults for each key it lacks. */
  function ControlPointOf(i: nat, cp: ControlPointInput): ControlPoint {
    ControlPoint(
      i, 6,
      [DevicePosition("X", [-200.0, 200.0]), DevicePosition("ASYMY", cp.jaws.GetOr([-200.0, 200.0]))],
      cp.gantryAngle.GetOr(0.0),
      cp.isocenter.GetOr([0.0, 0.0, 0.0]),
      cp.cumulativeWeight.GetOr(0.0))
  }

  /** The control points of the plan, numbered from 0 in input order. */
  function ControlPoints(cps: seq<ControlPointInput>): seq<ControlPoint> {
    seq(|cps|, i requires 0 <= i < |cps| => ControlPointOf(i, cps[i]))
  }

  /** The single beam of a plan with a machine and a plan type. */
  function BeamOf(machine: string, planType: string, cps: seq<ControlPointInput>): Beam {
    Beam("TomoTherapy Incorporated", "Hi-Art", machine, "MINUTE", 850,
         planType + " TomoTherapy Beam", "PHOTON", "TREATMENT", |cps|, ControlPoints(cps))
  }

  /** The fraction group of a plan with `fractions`; the beam and dose references need `rxDose`. */
  function FractionGroupOf(fractions: int, rxDose: Option<real>): FractionGroup {
    FractionGroup(1, fractions, 1, 0,
                  if rxDose.Some? then Some(ReferencedBeam(1, 1)) else None,
                  rxDose)
  }

  /**
   * `write_dicom_tomo_plan(plan, file_path)`. The UID calls are made in
   * source order: SOP instance (call 0), study default (1), series (2),
   * frame-of-reference default (3).
   */
  function PlanSpec(plan: TomoPlan, path: string, uid: UidSource, fmt: Formatter): PlanFile {
    PlanFile(
      RtPlanStorage, uid(0),
      plan.patientName.GetOr("DOE^John"), plan.patientId.GetOr("00000000"),
      plan.patientBirthDate.GetOr(""), plan.patientSex.GetOr(""),
      plan.studyUid.GetOr(uid(1)), uid(2), plan.frameRefUid.GetOr(uid(3)),
      plan.seriesDescription.GetOr("TomoTherapy Plan"), plan.studyDescription.GetOr(""),
      plan.planLabel.GetOr(""), "PATIENT",
      if plan.rxDose.Some? && plan.rxVolume.Some?
      then Some(PrescriptionText(plan.rxVolume.value, plan.rxDose.value, fmt)) else None,
      if plan.fractions.Some? then Some(FractionGroupOf(plan.fractions.value, plan.rxDose)) else None,
      if plan.machine.Some? && plan.planType.Some?
      then Some(BeamOf(plan.machine.value, plan.planType.value, plan.controlPoints.GetOr([]))) else None,
      if plan.position.Some? then Some(PatientSetup(plan.position.value, 1)) else None,
      if plan.structureSetUid.Some?
      then Some(ReferencedStructureSet(RtStructureSetStorage, plan.structureSetUid.value)) else None,
      path)
  }

  // ----- Properties -----

  /**
   * Each optional block appears exactly when its keys are present: the
   * prescription text with both `rxDose` and `rxVolume`; the fraction group
   * with `fractions`, as one group of `fractions` planned fractions and one
   * beam, whose beam and dose references appear exactly with `rxDose` and
   * carry it as the target prescription dose; the beam with both `machine`
   * and `planType`; the patient setup with `position`; the structure-set
   * reference with `structureSetUID`, naming that UID.
   */
  lemma PlanOptionalBlocks(plan: TomoPlan, path: string, uid: UidSource, fmt: Formatter)
    ensures var f := PlanSpec(plan, path, uid, fmt);
            && (f.prescriptionDescription.Some? <==> plan.rxDose.Some? && plan.rxVolume.Some?)
            && (f.prescriptionDescription.Some? ==>
                  f.prescriptionDescription.value == PrescriptionText(plan.rxVolume.value, plan.rxDose.value, fmt))
            && (f.fractionGroup.Some? <==> plan.fractions.Some?)
            && (f.fractionGroup.Some? ==>
                  var g := f.fractionGroup.value;
                  && g.number == 1 && g.fractionsPlanned == plan.fractions.value && g.numberOfBeams == 1
                  && (g.referencedBeam.Some? <==> plan.rxDose.Some?)
                  && (g.targetPrescriptionDose.Some? <==> plan.rxDose.Some?)
                  && g.targetPrescriptionDose == plan.rxDose)
            && (f.beam.Some? <==> plan.machine.Some? && plan.planType.Some?)
            && (f.beam.Some? ==>
                  && f.beam.value.treatmentMachineName == plan.machine.value
                  && f.beam.value.beamName == plan.planType.value + " TomoTherapy Beam"
                  && f.beam.value.sourceAxisDistance == 850)
            && (f.patientSetup.Some? <==> plan.position.Some?)
            && (f.patientSetup.Some? ==> f.patientSetup.value.patientPosition == plan.position.value)
            && (f.referencedStructureSet.Some? <==> plan.structureSetUid.Some?)
            && (f.referencedStructureSet.Some? ==>
                  f.referencedStructureSet.value == ReferencedStructureSet(RtStructureSetStorage, plan.structureSetUid.value))
  {
  }

  /**
   * The beam holds one control point per entry of `controlPoints` (none
   * without the key), and control point `i` has index `i`, energy 6, X jaws
   * at -200 and 200, and the entry's jaws, gantry angle, isocentre and
   * cumulative weight, or -200/200, 0, the origin and 0 for a missing key.
   */
  lemma ControlPointDefaults(plan: TomoPlan, path: string, uid: UidSource, fmt: Formatter)
    requires plan.machine.Some? && plan.planType.Some?
    ensures var b := PlanSpec(plan, path, uid, fmt).beam.value;
            var cps := plan.controlPoints.GetOr([]);
            && b.numberOfControlPoints == |b.controlPoints| == |cps|
            && forall i :: 0 <= i < |cps| ==>
                 var p, cp := b.controlPoints[i], cps[i];
                 && p.index == i && p.nominalBeamEnergy == 6
                 && |p.devicePositions| == 2
                 && p.devicePositions[0] == DevicePosition("X", [-200.0, 200.0])
                 && p.devicePositions[1].deviceType == "ASYMY"
                 && p.devicePositions[1].leafJawPositions == (if cp.jaws.Some? then cp.jaws.value else [-200.0, 200.0])
                 && p.gantryAngle == (if cp.gantryAngle.Some? then cp.gantryAngle.value else 0.0)
                 && p.isocenter == (if cp.isocenter.Some? then cp.isocenter.value else [0.0, 0.0, 0.0])
                 && p.cumulativeMetersetWeight == (if cp.cumulativeWeight.Some? then cp.cumulativeWeight.value else 0.0)
  {
  }

  /**
   * Whatever the plan holds, the plan geometry is "PATIENT"; the patient
   * fields default to "DOE^John", "00000000", "" and "", the descriptions to
   * "TomoTherapy Plan" and "", and the study and frame UIDs to generated
   * ones. With a generator that never repeats itself, the SOP instance UID
   * and the series UID differ from each other and from every generated
   * default.
   */
  lemma PlanHeaderDefaults(plan: TomoPlan, path: string, uid: UidSource, fmt: Formatter)
    ensures var f := PlanSpec(plan, path, uid, fmt);
            && f.planGeometry == "PATIENT" && f.sopClassUid == RtPlanStorage && f.sopInstanceUid == uid(0)
            && (plan.patientName.None? ==> f.patientName == "DOE^John")
            && (plan.patientId.None? ==> f.patientId == "00000000")
            && (plan.patientBirthDate.None? ==> f.patientBirthDate == "")
            && (plan.patientSex.None? ==> f.patientSex == "")
            && (plan.seriesDescription.None? ==> f.seriesDescription == "TomoTherapy Plan")
            && (plan.studyUid.None? ==> f.studyInstanceUid == uid(1))
            && (plan.frameRefUid.None? ==> f.frameOfReferenceUid == uid(3))
    ensures (forall a: nat, b: nat :: a != b ==> uid(a) != uid(b)) ==>
              var f := PlanSpec(plan, path, uid, fmt);
              && f.sopInstanceUid != f.seriesInstanceUid
              && (plan.studyUid.None? ==> f.studyInstanceUid != f.sopInstanceUid && f.studyInstanceUid != f.seriesInstanceUid)
              && (plan.frameRefUid.None? ==> f.frameOfReferenceUid != f.sopInstanceUid && f.frameOfReferenceUid != f.seriesInstanceUid)
  {
  }

  // ----- The writer -----

  /** The control-point loop of `write_dicom_tomo_plan`. */
  method BuildControlPoints(cps: seq<ControlPointInput>) returns (points: seq<ControlPoint>)
    ensures |points| == |cps|
    ensures forall i :: 0 <= i < |cps| ==> points[i].index == i && points[i] == ControlPointOf(i, cps[i])
  {
    points := [];
    for i := 0 to |cps|
      invariant |points| == i
      invariant forall k :: 0 <= k < i ==> points[k].index == k && points[k] == ControlPointOf(k, cps[k])
    {
      var cp := cps[i];
      var item := ControlPoint(
        i, 6,
        [DevicePosition("X", [-200.0, 200.0]), DevicePosition("ASYMY", cp.jaws.GetOr([-200.0, 200.0]))],
        cp.gantryAngle.GetOr(0.0),
        cp.isocenter.GetOr([0.0, 0.0, 0.0]),
        cp.cumulativeWeight.GetOr(0.0));
      points := points + [item];
    }
  }

  /**
   * `write_dicom_tomo_plan`: fills the header, then sets each optional block
   * whose keys the plan holds, in source order.
   */
  method WriteDicomTomoPlan(plan: TomoPlan, path: string, uid: UidSource, fmt: Formatter) returns (f: PlanFile)
    ensures f == PlanSpec(plan, path, uid, fmt)
  {
    f := PlanFile(
      RtPlanStorage, uid(0),
      plan.patientName.GetOr("DOE^John"), plan.patientId.GetOr("00000000"),
      plan.patientBirthDate.GetOr(""), plan.patientSex.GetOr(""),
      plan.studyUid.GetOr(uid(1)), uid(2), plan.frameRefUid.GetOr(uid(3)),
      plan.seriesDescription.GetOr("TomoTherapy Plan"), plan.studyDescription.GetOr(""),
      plan.planLabel.GetOr(""), "PATIENT",
      None, None, None, None, None, path);
    if plan.rxDose.Some? && plan.rxVolume.Some? {
      f := f.(prescriptionDescription := Some(PrescriptionText(plan.rxVolume.value, plan.rxDose.value, fmt)));
    }
    if plan.fractions.Some? {
      var group := FractionGroup(1, plan.fractions.value, 1, 0, None, None);
      if plan.rxDose.Some? {
        group := group.(referencedBeam := Some(ReferencedBeam(1, 1)), targetPrescriptionDose := plan.rxDose);
      }
      f := f.(fractionGroup := Some(group));
    }
    if plan.machine.Some? && plan.planType.Some? {
      var cps := plan.controlPoints.GetOr([]);
      var points := BuildControlPoints(cps);
      assert points == ControlPoints(cps);
      f := f.(beam := Some(Beam("TomoTherapy Incorporated", "Hi-Art", plan.machine.value, "MINUTE", 850,
                                 plan.planType.value + " TomoTherapy Beam", "PHOTON", "TREATMENT",
                                 |cps|, points)));
    }
    if plan.position.Some? {
      f := f.(patientSetup := Some(PatientSetup(plan.position.value, 1)));
    }
    if plan.structureSetUid.Some? {
      f := f.(referencedStructureSet := Some(ReferencedStructureSet(RtStructureSetStorage, plan.structureSetUid.value)));
    }
  }
}
