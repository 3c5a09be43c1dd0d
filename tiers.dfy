/**
 * The three severity tiers the dashboard derives from a risk percentage
 * (the model's sepsis probability times 100). The cut points 20 and 60 are
 * written out separately at each place app.py branches on the score; this
 * module holds the one reference classification the other modules are
 * proved to agree with.
 */
module Tiers {

  datatype Tier = Safe | Caution | Danger

  /** Position of a tier in the order SAFE < CAUTION < DANGER. */
  function Rank(t: Tier): nat
  {
    match t
    case Safe => 0
    case Caution => 1
    case Danger => 2
  }

  /** The tier of a risk percentage: below 20 is SAFE, below 60 is CAUTION, otherwise DANGER. */
  function Classify(risk: real): (t: Tier)
    ensures t == Safe <==> risk < 20.0
    ensures t == Caution <==> 20.0 <= risk < 60.0
    ensures t == Danger <==> 60.0 <= risk
  {
    if risk < 20.0 then Safe else if risk < 60.0 then Caution else Danger
  }

  /** A higher risk never yields a lower tier. */
  lemma ClassifyMonotone(r1: real, r2: real)
    requires r1 <= r2
    ensures Rank(Classify(r1)) <= Rank(Classify(r2))
  {
  }
}
