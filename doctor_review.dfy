/**
 * The doctor's review panel: a list of sample cases, the selection, notes
 * and final-diagnosis fields, and the two submit buttons whose completion
 * is simulated by a timer.
 */
module DoctorReview {
  import opened Wrappers
  import opened Text
  import opened Records

  /** A case awaiting review, as the panel lists it. */
  datatype Case = Case(
    id: nat,
    patientName: string,
    patientAge: nat,
    submitDate: string,
    aiDiagnosis: string,
    aiConfidence: real,
    riskLevel: string,
    symptoms: string,
    images: seq<string>,
    urgency: string)

  const Placeholder := "/api/placeholder/300/300"

  /** The built-in sample cases the panel shows. */
  const PendingCases: seq<Case> := [
    Case(1, "张三", 35, "2024-01-15 14:30", "良性色素痣", 92.5, "低风险",
         "无明显症状，发现色素斑块约2个月", [Placeholder, Placeholder], "normal"),
    Case(2, "李四", 52, "2024-01-15 16:45", "基底细胞癌可能", 78.3, "高风险",
         "皮损逐渐增大，偶有出血，持续3个月", [Placeholder], "high"),
    Case(3, "王五", 28, "2024-01-15 10:15", "脂溢性皮炎", 89.7, "低风险",
         "轻微瘙痒，皮肤油腻，反复发作", [Placeholder], "low")
  ]

  /** The colour scheme of a badge; `Secondary` is the neutral fallback. */
  datatype Tone = Red | Yellow | Green | Secondary

  datatype Badge = Badge(text: string, tone: Tone)

  /** `getUrgencyBadge`: the three known urgencies get a fixed badge, anything else shows itself. */
  function UrgencyBadge(urgency: string): (b: Badge)
    ensures urgency == "high" ==> b == Badge("紧急", Red)
    ensures urgency == "normal" ==> b == Badge("普通", Yellow)
    ensures urgency == "low" ==> b == Badge("非紧急", Green)
    ensures b.tone == Secondary <==> urgency !in {"high", "normal", "low"}
    ensures b.tone == Secondary ==> b.text == urgency
  {
    if urgency == "high" then Badge("紧急", Red)
    else if urgency == "normal" then Badge("普通", Yellow)
    else if urgency == "low" then Badge("非紧急", Green)
    else Badge(urgency, Secondary)
  }

  /** `getRiskBadge`: the text is always the level's own text; the colour follows the stored grade it names. */
  function RiskBadge(level: string): (b: Badge)
    ensures b.text == level
    ensures b.tone == Green <==> RiskFromText(level) == Some(Low)
    ensures b.tone == Yellow <==> RiskFromText(level) == Some(Medium)
    ensures b.tone == Red <==> RiskFromText(level) == Some(High)
    ensures b.tone == Secondary <==> RiskFromText(level).None?
  {
    if level == "低风险" then Badge("低风险", Green)
    else if level == "中风险" then Badge("中风险", Yellow)
    else if level == "高风险" then Badge("高风险", Red)
    else Badge(level, Secondary)
  }

  /** Every sample case has a known urgency and a known risk grade. */
  lemma SampleCasesHaveKnownBadges()
    ensures forall i :: 0 <= i < |PendingCases| ==>
              UrgencyBadge(PendingCases[i].urgency).tone != Secondary &&
              RiskBadge(PendingCases[i].riskLevel).tone != Secondary
  {
  }

  /** The two review buttons. */
  datatype Decision = Confirm | Modify

  /** The completion notice; the only thing the decision affects. */
  function Notice(d: Decision): (s: string)
    ensures d == Confirm ==> s == "已确认诊断，患者将收到通知"
    ensures d == Modify ==> s == "已修正诊断，患者将收到通知"
  {
    "已" + (if d == Confirm then "确认" else "修正") + "诊断，患者将收到通知"
  }

  /**
   * The panel's state.  `scheduled` holds, in order, the decisions whose
   * completion timers have not fired yet.
   */
  class ReviewForm {
    var selectedCase: Option<Case>
    var reviewNotes: string
    var finalDiagnosis: string
    var isSubmitting: bool
    var scheduled: seq<Decision>

    /** While a submission is in flight, its completion is scheduled. */
    ghost predicate Valid()
      reads this
    {
      isSubmitting ==> scheduled != []
    }

    constructor ()
      ensures Valid()
      ensures selectedCase.None? && reviewNotes == "" && finalDiagnosis == "" && !isSubmitting && scheduled == []
    {
      selectedCase := None;
      reviewNotes := "";
      finalDiagnosis := "";
      isSubmitting := false;
      scheduled := [];
    }

    /** `handleCaseSelect`: the notes are cleared and the AI diagnosis is proposed. */
    method SelectCase(c: Case)
      modifies this
      ensures selectedCase == Some(c) && reviewNotes == "" && finalDiagnosis == c.aiDiagnosis
      ensures isSubmitting == old(isSubmitting) && scheduled == old(scheduled)
    {
      selectedCase := Some(c);
      reviewNotes := "";
      finalDiagnosis := c.aiDiagnosis;
    }

    /** The notes box's `onChange`. */
    method EditNotes(text: string)
      modifies this
      ensures reviewNotes == text
      ensures selectedCase == old(selectedCase) && finalDiagnosis == old(finalDiagnosis)
      ensures isSubmitting == old(isSubmitting) && scheduled == old(scheduled)
    {
      reviewNotes := text;
    }

    /** The final-diagnosis select's `onValueChange`. */
    method ChooseDiagnosis(d: string)
      modifies this
      ensures finalDiagnosis == d
      ensures selectedCase == old(selectedCase) && reviewNotes == old(reviewNotes)
      ensures isSubmitting == old(isSubmitting) && scheduled == old(scheduled)
    {
      finalDiagnosis := d;
    }

    /** Both submit buttons are enabled exactly while nothing is being submitted. */
    predicate SubmitEnabled()
      reads this
    {
      !isSubmitting
    }

    /**
     * `handleSubmitReview`, reached from either submit button; the buttons
     * are shown only while a case is selected.  While a
     * review is being submitted both buttons are disabled, so nothing
     * happens; blank notes change nothing either.  Otherwise the panel
     * enters the submitting state and a completion is scheduled.
     */
    method SubmitReview(decision: Decision) returns (accepted: bool)
      requires Valid() && selectedCase.Some?
      modifies this
      ensures Valid()
      ensures accepted <==> old(SubmitEnabled()) && !IsBlank(old(reviewNotes))
      ensures !accepted ==> && selectedCase == old(selectedCase) && reviewNotes == old(reviewNotes)
                            && finalDiagnosis == old(finalDiagnosis) && isSubmitting == old(isSubmitting)
                            && scheduled == old(scheduled)
      ensures accepted ==> && isSubmitting && scheduled == old(scheduled) + [decision]
                           && selectedCase == old(selectedCase) && reviewNotes == old(reviewNotes)
                           && finalDiagnosis == old(finalDiagnosis)
    {
      if !SubmitEnabled() {
        return false;
      }
      TrimEmptyIffBlank(reviewNotes);
      if Trim(reviewNotes) == "" {
        return false;
      }
      isSubmitting := true;
      scheduled := scheduled + [decision];
      accepted := true;
    }

    /**
     * The completion timer fires: the form is cleared and submitting ends,
     * whatever the decision was; the decision only chooses the notice.
     */
    method FinishReview() returns (notice: string)
      requires Valid() && scheduled != []
      modifies this
      ensures Valid()
      ensures notice == Notice(old(scheduled)[0])
      ensures selectedCase.None? && reviewNotes == "" && finalDiagnosis == ""
      ensures !isSubmitting && scheduled == old(scheduled)[1..]
    {
      notice := Notice(scheduled[0]);
      selectedCase := None;
      reviewNotes := "";
      finalDiagnosis := "";
      isSubmitting := false;
      scheduled := scheduled[1..];
    }
  }

  /**
   * A whole review: select a case, write notes, submit, and let the timer
   * fire.  With non-blank notes the form ends cleared and idle; with blank
   * notes it stays on the case.
   */
  method ReviewCase(form: ReviewForm, c: Case, notes: string, decision: Decision) returns (notice: Option<string>)
    requires form.Valid() && !form.isSubmitting && form.scheduled == []
    modifies form
    ensures form.Valid() && !form.isSubmitting && form.scheduled == []
    ensures IsBlank(notes) ==> notice.None? && form.selectedCase == Some(c) && form.finalDiagnosis == c.aiDiagnosis
    ensures !IsBlank(notes) ==> notice == Some(Notice(decision)) && form.selectedCase.None? &&
                                form.reviewNotes == "" && form.finalDiagnosis == ""
  {
    form.SelectCase(c);
    form.EditNotes(notes);
    var accepted := form.SubmitReview(decision);
    if !accepted {
      return None;
    }
    var text := form.FinishReview();
    notice := Some(text);
  }
}
