/**
 * What the dashboard tells staff for a risk score (app.py, "PATIENT SAFETY
 * STATUS" and "TREATMENT RECOMMENDATIONS"): a status banner, an ordered
 * checklist with its heading and rationale, and a status label. Each is
 * chosen by its own comparison of the score with 20 and 60; each is proved
 * to pick the table entry of the score's tier.
 */
module Recommendations {
  import opened Tiers

  /** The status banner: its headline and the sentence under it. */
  datatype Banner = Banner(headline: string, message: string)

  /** A checklist with the heading above it and the rationale beside it. */
  datatype Plan = Plan(heading: string, actions: seq<Action>, rationale: string)

  /** The banner of a tier; its headline opens with a green, yellow or red marker. */
  function BannerOf(t: Tier): (b: Banner)
    ensures |b.headline| > 0
    ensures b.headline[0] == match t case Safe => '🟢' case Caution => '🟡' case Danger => '🔴'
  {
    match t
    case Safe => Banner("🟢 PATIENT IS SAFE ✅", "Everything looks good! Patient is healthy and stable.")
    case Caution => Banner("🟡 BE CAREFUL ⚠️", "Watch patient closely. Alert doctor if condition worsens.")
    case Danger => Banner("🔴 CRITICAL DANGER! 🚨", "URGENT! Patient needs immediate medical attention!")
  }

  /** One line of a checklist; its wording is `ActionText`. */
  datatype Action =
    | MonitorEvery4Hours | MaintainTreatmentPlan | RecordVitalsRegularly | NormalActivities
    | NoImmediateIntervention | ContinueMedications
    | MonitorEvery1To2Hours | CheckLabValues | EnsureIvPatent | AlertAttending
    | ConsiderAntibiotics | MonitorFluidBalance | ReassessIn1Hour | DocumentChanges
    | NotifyPhysicianNow | ContinuousMonitoring | StatLabs | AdequateIvAccess
    | FluidResuscitation | AntibioticsWithin1Hour | ConsiderIcuTransfer | OxygenSupport
    | NotifyRapidResponse | PrepareIntubation

  function ActionText(a: Action): string
  {
    match a
    case MonitorEvery4Hours => "Continue standard monitoring every 4 hours"
    case MaintainTreatmentPlan => "Maintain current treatment plan"
    case RecordVitalsRegularly => "Record vital signs regularly"
    case NormalActivities => "Patient can have normal activities as tolerated"
    case NoImmediateIntervention => "No immediate intervention required"
    case ContinueMedications => "Continue prescribed medications as ordered"
    case MonitorEvery1To2Hours => "🔄 Increase monitoring frequency to every 1-2 hours"
    case CheckLabValues => "📊 Check lab values: lactate, WBC count, creatinine"
    case EnsureIvPatent => "💉 Ensure IV access is functional and patent"
    case AlertAttending => "📞 Alert attending physician of patient status"
    case ConsiderAntibiotics => "💊 Consider starting/adjusting antibiotics if infection suspected"
    case MonitorFluidBalance => "💧 Monitor fluid balance and urine output closely"
    case ReassessIn1Hour => "⏰ Reassess patient condition in 1 hour"
    case DocumentChanges => "📋 Document all changes in patient status"
    case NotifyPhysicianNow => "🚨 **IMMEDIATE physician notification required**"
    case ContinuousMonitoring => "📡 Initiate continuous vital signs monitoring"
    case StatLabs => "🩺 Obtain STAT labs: blood cultures, lactate, CBC, metabolic panel"
    case AdequateIvAccess => "💉 Ensure adequate IV access (consider central line placement)"
    case FluidResuscitation => "💧 Begin aggressive fluid resuscitation (30mL/kg crystalloid)"
    case AntibioticsWithin1Hour => "💊 **Start broad-spectrum antibiotics within 1 hour**"
    case ConsiderIcuTransfer => "🏥 Consider ICU transfer or escalation of care level"
    case OxygenSupport => "🫁 Provide oxygen support as needed (target SpO2 > 92%)"
    case NotifyRapidResponse => "📞 Notify rapid response team immediately"
    case PrepareIntubation => "⚡ Prepare for possible intubation if respiratory distress"
  }

  const SafeRationale := "All vitals within normal range. Patient is stable and showing no signs of deterioration."
  const CautionRationale := "Patient showing early signs of clinical deterioration. Closer observation and possible intervention needed to prevent worsening."
  const DangerRationale := "**CRITICAL**: Patient at high risk of sepsis or severe deterioration. Immediate intervention required per sepsis protocol."

  /** The checklist of a tier, in display order: 6, 8 or 10 distinct actions, never none. */
  function PlanOf(t: Tier): (p: Plan)
    ensures |p.actions| == 6 + 2 * Rank(t)
    ensures forall i, j :: 0 <= i < j < |p.actions| ==> p.actions[i] != p.actions[j]
  {
    match t
    case Safe =>
      Plan("### ✅ LOW RISK - ROUTINE CARE",
           [ MonitorEvery4Hours, MaintainTreatmentPlan, RecordVitalsRegularly, NormalActivities,
             NoImmediateIntervention, ContinueMedications ],
           SafeRationale)
    case Caution =>
      Plan("### ⚠️ MEDIUM RISK - ENHANCED MONITORING",
           [ MonitorEvery1To2Hours, CheckLabValues, EnsureIvPatent, AlertAttending,
             ConsiderAntibiotics, MonitorFluidBalance, ReassessIn1Hour, DocumentChanges ],
           CautionRationale)
    case Danger =>
      Plan("### 🚨 CRITICAL - IMMEDIATE ACTION REQUIRED",
           [ NotifyPhysicianNow, ContinuousMonitoring, StatLabs, AdequateIvAccess,
             FluidResuscitation, AntibioticsWithin1Hour, ConsiderIcuTransfer, OxygenSupport,
             NotifyRapidResponse, PrepareIntubation ],
           DangerRationale)
  }

  /** The status label of a tier; each label belongs to exactly one tier. */
  function StatusOf(t: Tier): (s: string)
    ensures s == "Stable" <==> t == Safe
    ensures s == "Monitor Closely" <==> t == Caution
    ensures s == "URGENT" <==> t == Danger
  {
    match t
    case Safe => "Stable"
    case Caution => "Monitor Closely"
    case Danger => "URGENT"
  }

  /** The banner branch on the score, which agrees with the tier of the score. */
  function StatusBanner(risk: real): (b: Banner)
    ensures b == BannerOf(Classify(risk))
  {
    if risk < 20.0 then BannerOf(Safe) else if risk < 60.0 then BannerOf(Caution) else BannerOf(Danger)
  }

  /** The checklist branch on the score: never empty, and the entry of the score's tier. */
  function Recommend(risk: real): (p: Plan)
    ensures p == PlanOf(Classify(risk))
    ensures p.actions != []
  {
    if risk < 20.0 then PlanOf(Safe) else if risk < 60.0 then PlanOf(Caution) else PlanOf(Danger)
  }

  /** The status-label branch on the score, which agrees with the tier of the score. */
  function StatusLabel(risk: real): (s: string)
    ensures s == StatusOf(Classify(risk))
  {
    if risk < 20.0 then StatusOf(Safe) else if risk < 60.0 then StatusOf(Caution) else StatusOf(Danger)
  }

  /** A higher score never yields a shorter checklist. */
  lemma ChecklistGrowsWithRisk(r1: real, r2: real)
    requires r1 <= r2
    ensures |Recommend(r1).actions| <= |Recommend(r2).actions|
  {
  }
}
