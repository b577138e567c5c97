/**
 * Plan selection (find_plan.py): which `briefPlan` records of a patient
 * archive are approved patient plans of the requested delivery type, and
 * which legacy plans are approved.
 */
module FindPlan {
  import opened Common
  import opened Text

  /** The text TomoTherapy writes into an unset approval reference. */
  const Sentinel: string := "* * * DO NOT CHANGE THIS STRING VALUE * * *"

  /** A `legacyPlan` record: `approvalStatus` and `dbInfo/databaseUID`. */
  datatype LegacyPlan = LegacyPlan(approvalStatus: Field, uid: Field)

  /** The records of the archive XML that plan selection reads, in document order. */
  datatype PatientArchive = PatientArchive(plans: seq<BriefPlan>, legacyPlans: seq<LegacyPlan>)

  /** `(UID, label, approved)` as returned by `find_all_plans`. */
  datatype PlanEntry = PlanEntry(uid: string, planLabel: Option<string>, approved: bool)

  /** `(UID, label)` as returned by `find_plans`. */
  datatype PlanSummary = PlanSummary(uid: string, planLabel: Option<string>)

  /** The `PlanFinder` constructor: the archive XML must exist. */
  function OpenArchive(xml: Option<PatientArchive>): (r: Result<PatientArchive>)
    ensures r.Err? <==> xml.None?
    ensures r.Err? ==> r.error == XmlNotFound
    ensures r.Ok? ==> r.value == xml.value
  {
    if xml.None? then Err(XmlNotFound) else Ok(xml.value)
  }

  /**
   * The approval test as written: `approved_uid.text not in ["", SENTINEL]`.
   * ElementTree reports the text of an element without text as None, which
   * is not in the list, so such an element passes.
   */
  predicate ApprovedAsWritten(p: BriefPlan) {
    p.approvedTrialUid.Some? && NodeText(p.approvedTrialUid) !in [Some(""), Some(Sentinel)]
  }

  /** The approval rule: the reference exists and is neither empty nor the sentinel. */
  predicate IsApproved(p: BriefPlan) {
    p.approvedTrialUid.Some? && p.approvedTrialUid.value != "" && p.approvedTrialUid.value != Sentinel
  }

  /** An empty `approvedPlanTrialUID` element passes the test as written, not the rule. */
  lemma EmptyApprovalPassesAsWritten(p: BriefPlan)
    requires p.approvedTrialUid == Some("")
    ensures ApprovedAsWritten(p) && !IsApproved(p)
  {
  }

  /** Elsewhere the two tests agree. */
  lemma ApprovalTestsAgree(p: BriefPlan)
    requires p.approvedTrialUid != Some("")
    ensures ApprovedAsWritten(p) <==> IsApproved(p)
  {
  }

  /**
   * `if plan_type:` then `planDeliveryType` must be present with text equal
   * to `plan_type` (an element without text never equals a non-empty type).
   */
  predicate PassesDeliveryFilter(p: BriefPlan, planType: Option<string>) {
    !Truthy(planType) || p.deliveryType == planType
  }

  /** The filters shared by `find_all_plans` and `find_plans`, approval aside. */
  predicate Qualifies(p: BriefPlan, planType: Option<string>) {
    && PassesDeliveryFilter(p, planType)
    && p.typeOfPlan == Some("PATIENT")
    && Truthy(p.uid)
  }

  /** `plan_label.text if plan_label is not None else "UNK"`. */
  function LabelOf(p: BriefPlan): (l: Option<string>)
    ensures p.planLabel.None? ==> l == Some("UNK")
    ensures p.planLabel.Some? && p.planLabel.value != "" ==> l == p.planLabel
  {
    if p.planLabel.None? then Some("UNK") else NodeText(p.planLabel)
  }

  function Entry(p: BriefPlan): (e: PlanEntry)
    requires p.uid.Some?
  {
    PlanEntry(p.uid.value, LabelOf(p), IsApproved(p))
  }

  function Summary(p: BriefPlan): (s: PlanSummary)
    requires p.uid.Some?
  {
    PlanSummary(p.uid.value, LabelOf(p))
  }

  /** What `find_all_plans(plan_type)` returns for the plans, in document order. */
  function AllPlans(plans: seq<BriefPlan>, planType: Option<string>): seq<PlanEntry> {
    if plans == [] then []
    else
      var last := plans[|plans| - 1];
      AllPlans(plans[..|plans| - 1], planType) + (if Qualifies(last, planType) then [Entry(last)] else [])
  }

  /** What `find_plans(plan_type)` returns for the plans, in document order. */
  function ApprovedPlans(plans: seq<BriefPlan>, planType: Option<string>): seq<PlanSummary> {
    if plans == [] then []
    else
      var last := plans[|plans| - 1];
      ApprovedPlans(plans[..|plans| - 1], planType)
        + (if IsApproved(last) && Qualifies(last, planType) then [Summary(last)] else [])
  }

  /** `find_all_plans` as written: the approval flag is the test as written. */
  function AllPlansAsWritten(plans: seq<BriefPlan>, planType: Option<string>): seq<PlanEntry> {
    if plans == [] then []
    else
      var last := plans[|plans| - 1];
      AllPlansAsWritten(plans[..|plans| - 1], planType)
        + (if Qualifies(last, planType) then [PlanEntry(last.uid.value, LabelOf(last), ApprovedAsWritten(last))] else [])
  }

  /** `find_plans` as written: plans are kept by the approval test as written. */
  function ApprovedPlansAsWritten(plans: seq<BriefPlan>, planType: Option<string>): seq<PlanSummary> {
    if plans == [] then []
    else
      var last := plans[|plans| - 1];
      ApprovedPlansAsWritten(plans[..|plans| - 1], planType)
        + (if ApprovedAsWritten(last) && Qualifies(last, planType) then [Summary(last)] else [])
  }

  /** Without an empty approval reference, the lists as written are the lists by the approval rule. */
  lemma {:induction false} PlanListsAgree(plans: seq<BriefPlan>, planType: Option<string>)
    requires forall q :: 0 <= q < |plans| ==> plans[q].approvedTrialUid != Some("")
    ensures AllPlansAsWritten(plans, planType) == AllPlans(plans, planType)
    ensures ApprovedPlansAsWritten(plans, planType) == ApprovedPlans(plans, planType)
  {
    if plans != [] {
      var init, last := plans[..|plans| - 1], plans[|plans| - 1];
      assert forall q :: 0 <= q < |init| ==> init[q] == plans[q];
      PlanListsAgree(init, planType);
      ApprovalTestsAgree(last);
    }
  }

  /** A qualifying plan with an empty approval reference is listed as approved by the code as written only. */
  lemma EmptyApprovalListed(p: BriefPlan, planType: Option<string>)
    requires p.approvedTrialUid == Some("") && Qualifies(p, planType)
    ensures ApprovedPlansAsWritten([p], planType) == [Summary(p)]
    ensures ApprovedPlans([p], planType) == []
    ensures AllPlansAsWritten([p], planType)[0].approved && !AllPlans([p], planType)[0].approved
  {
    assert [p][..0] == [];
  }

  /** `find_all_plans`: every qualifying patient plan with its approval flag. */
  method FindAllPlans(a: PatientArchive, planType: Option<string>) returns (plans: seq<PlanEntry>)
    ensures plans == AllPlans(a.plans, planType)
  {
    plans := [];
    var i := 0;
    while i < |a.plans|
      invariant 0 <= i <= |a.plans|
      invariant plans == AllPlans(a.plans[..i], planType)
    {
      var plan := a.plans[i];
      assert a.plans[..i + 1][..i] == a.plans[..i];
      if Qualifies(plan, planType) {
        plans := plans + [PlanEntry(plan.uid.value, LabelOf(plan), IsApproved(plan))];
      }
      i := i + 1;
    }
    assert a.plans[..i] == a.plans;
  }

  /** `find_plans`: the approved qualifying patient plans. */
  method FindPlans(a: PatientArchive, planType: Option<string>) returns (plans: seq<PlanSummary>)
    ensures plans == ApprovedPlans(a.plans, planType)
  {
    plans := [];
    var i := 0;
    while i < |a.plans|
      invariant 0 <= i <= |a.plans|
      invariant plans == ApprovedPlans(a.plans[..i], planType)
    {
      var plan := a.plans[i];
      assert a.plans[..i + 1][..i] == a.plans[..i];
      if !IsApproved(plan) {
      } else if !PassesDeliveryFilter(plan, planType) {
      } else if plan.typeOfPlan != Some("PATIENT") {
      } else if !Truthy(plan.uid) {
      } else {
        plans := plans + [PlanSummary(plan.uid.value, LabelOf(plan))];
      }
      i := i + 1;
    }
    assert a.plans[..i] == a.plans;
  }

  /**
   * A summary is returned exactly when some plan is approved, qualifies and
   * has that summary; its UID is never empty.
   */
  lemma {:induction false} ApprovedPlansMembers(plans: seq<BriefPlan>, planType: Option<string>, x: PlanSummary)
    ensures x in ApprovedPlans(plans, planType) <==>
            exists p :: p in plans && IsApproved(p) && Qualifies(p, planType) && Summary(p) == x
    ensures x in ApprovedPlans(plans, planType) ==> x.uid != ""
  {
    if plans != [] {
      var init, last := plans[..|plans| - 1], plans[|plans| - 1];
      ApprovedPlansMembers(init, planType, x);
      assert plans == init + [last];
      assert forall p :: p in plans <==> p in init || p == last;
    }
  }

  /** Results follow document order: the archive's halves give the result's halves. */
  lemma {:induction false} ApprovedPlansAppend(a: seq<BriefPlan>, b: seq<BriefPlan>, planType: Option<string>)
    ensures ApprovedPlans(a + b, planType) == ApprovedPlans(a, planType) + ApprovedPlans(b, planType)
  {
    if b != [] {
      assert (a + b)[..|a + b| - 1] == a + b[..|b| - 1];
      ApprovedPlansAppend(a, b[..|b| - 1], planType);
    } else {
      assert a + b == a;
    }
  }

  /** The approved entries of `find_all_plans`, flags dropped. */
  function ApprovedEntries(es: seq<PlanEntry>): seq<PlanSummary> {
    if es == [] then []
    else
      var last := es[|es| - 1];
      ApprovedEntries(es[..|es| - 1]) + (if last.approved then [PlanSummary(last.uid, last.planLabel)] else [])
  }

  lemma {:induction false} ApprovedEntriesAppend(a: seq<PlanEntry>, b: seq<PlanEntry>)
    ensures ApprovedEntries(a + b) == ApprovedEntries(a) + ApprovedEntries(b)
  {
    if b != [] {
      assert (a + b)[..|a + b| - 1] == a + b[..|b| - 1];
      ApprovedEntriesAppend(a, b[..|b| - 1]);
    } else {
      assert a + b == a;
    }
  }

  /** `find_plans` is `find_all_plans` restricted to approved plans. */
  lemma {:induction false} ApprovedPlansFromAll(plans: seq<BriefPlan>, planType: Option<string>)
    ensures ApprovedPlans(plans, planType) == ApprovedEntries(AllPlans(plans, planType))
  {
    if plans != [] {
      var init, last := plans[..|plans| - 1], plans[|plans| - 1];
      ApprovedPlansFromAll(init, planType);
      ApprovedEntriesAppend(AllPlans(init, planType), if Qualifies(last, planType) then [Entry(last)] else []);
      if Qualifies(last, planType) {
        assert ApprovedEntries([Entry(last)]) == ApprovedEntries([]) + (if IsApproved(last) then [Summary(last)] else []);
      }
    }
  }

  /**
   * Without a delivery type (None or ""), delivery types are never looked
   * at: archives that differ only in them give the same plans.
   */
  lemma {:induction false} DeliveryTypeIgnoredWithoutFilter(ps: seq<BriefPlan>, qs: seq<BriefPlan>, planType: Option<string>)
    requires !Truthy(planType)
    requires |ps| == |qs|
    requires forall i :: 0 <= i < |ps| ==> qs[i] == ps[i].(deliveryType := qs[i].deliveryType)
    ensures ApprovedPlans(ps, planType) == ApprovedPlans(qs, planType)
    ensures AllPlans(ps, planType) == AllPlans(qs, planType)
  {
    if ps != [] {
      DeliveryTypeIgnoredWithoutFilter(ps[..|ps| - 1], qs[..|qs| - 1], planType);
    }
  }

  /** With a delivery type, every returned plan has exactly that delivery type. */
  lemma DeliveryTypeFilter(plans: seq<BriefPlan>, t: string, x: PlanSummary)
    requires t != "" && x in ApprovedPlans(plans, Some(t))
    ensures exists p :: p in plans && p.deliveryType == Some(t) && p.uid.Some? && Summary(p) == x
  {
    ApprovedPlansMembers(plans, Some(t), x);
  }

  /** `handle_find_plans_results`: the first plan's UID, or None for no plans. */
  function HandleFindPlansResults(plans: seq<PlanSummary>): (uid: Option<string>)
    ensures uid.None? <==> plans == []
    ensures uid.Some? ==> uid.value == plans[0].uid
  {
    if plans == [] then None else Some(plans[0].uid)
  }

  /** `approval_status and approval_status.lower() == "approved"`, with a UID. */
  predicate LegacyApproved(l: LegacyPlan) {
    && Truthy(l.approvalStatus)
    && LowerAscii(l.approvalStatus.value) == "approved"
    && Truthy(l.uid)
  }

  /** The legacy status test is a case-insensitive comparison with "approved". */
  lemma LegacyStatusCaseInsensitive(l: LegacyPlan)
    requires l.approvalStatus.Some? && Truthy(l.uid)
    ensures LegacyApproved(l) <==>
            var s := l.approvalStatus.value;
            |s| == 8 && forall i :: 0 <= i < 8 ==> s[i] == "approved"[i] || s[i] == "APPROVED"[i]
  {
    var w := "approved";
    LowerEqualsIff(l.approvalStatus.value, w);
    assert forall i :: 0 <= i < 8 ==> UpperChar(w[i]) == "APPROVED"[i];
  }

  /** UIDs of the approved legacy plans, in document order. */
  function LegacyUids(ls: seq<LegacyPlan>): seq<string> {
    if ls == [] then []
    else
      var last := ls[|ls| - 1];
      LegacyUids(ls[..|ls| - 1]) + (if LegacyApproved(last) then [last.uid.value] else [])
  }

  lemma {:induction false} LegacyUidsMembers(ls: seq<LegacyPlan>, u: string)
    ensures u in LegacyUids(ls) <==> exists l :: l in ls && LegacyApproved(l) && l.uid == Some(u)
  {
    if ls != [] {
      var init, last := ls[..|ls| - 1], ls[|ls| - 1];
      LegacyUidsMembers(init, u);
      assert ls == init + [last];
      assert forall l :: l in ls <==> l in init || l == last;
    }
  }

  /** `find_legacy_plans`: approved legacy UIDs, or ValueError when there are none. */
  method FindLegacyPlans(a: PatientArchive) returns (r: Result<seq<string>>)
    ensures r.Err? <==> forall l :: l in a.legacyPlans ==> !LegacyApproved(l)
    ensures r.Err? ==> r.error == NoApprovedLegacyPlan
    ensures r.Ok? ==> r.value == LegacyUids(a.legacyPlans) && |r.value| > 0
  {
    var approved: seq<string> := [];
    var i := 0;
    while i < |a.legacyPlans|
      invariant 0 <= i <= |a.legacyPlans|
      invariant approved == LegacyUids(a.legacyPlans[..i])
    {
      var plan := a.legacyPlans[i];
      assert a.legacyPlans[..i + 1][..i] == a.legacyPlans[..i];
      var status := plan.approvalStatus;
      if Truthy(status) && LowerAscii(status.value) == "approved" {
        if Truthy(plan.uid) {
          approved := approved + [plan.uid.value];
        }
      }
      i := i + 1;
    }
    assert a.legacyPlans[..i] == a.legacyPlans;
    if approved == [] {
      forall l | l in a.legacyPlans ensures !LegacyApproved(l) {
        if LegacyApproved(l) {
          LegacyUidsMembers(a.legacyPlans, l.uid.value);
        }
      }
      r := Err(NoApprovedLegacyPlan);
    } else {
      LegacyUidsMembers(a.legacyPlans, approved[0]);
      r := Ok(approved);
    }
  }
}
