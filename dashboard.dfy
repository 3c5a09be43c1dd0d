/**
 * One redraw of the dashboard for the selected patient and hour, from the
 * score to everything the decision logic shows: vitals, cards, banner,
 * checklist, status label and trend.
 */
module Dashboard {
  import opened Optional
  import opened Tiers
  import opened Rng
  import opened Horizon
  import opened Vitals
  import opened Bands
  import opened Recommendations
  import opened Trend

  datatype View = View(
    risk: real, vitals: VitalSigns, cards: Cards, banner: Banner, plan: Plan, status: string,
    trend: Option<Direction>)

  /**
   * The page's decision logic in source order. `modelRisks[i]` is the
   * model's risk percentage for row i of the patient, `obs` the readings of
   * the selected row; in test mode the slider's override replaces the
   * model's risk.
   */
  method ShowPatient(rng: GlobalRng, modelRisks: seq<real>, obs: Observation, patient: int, hour: int,
                     testMode: bool, overrideRisk: int)
    returns (view: View)
    requires 0 <= hour <= MaxHour(|modelRisks|)
    modifies rng
    ensures view.risk == if testMode then overrideRisk as real else modelRisks[hour]
    ensures view.vitals == VitalsUsed(rng.source, patient, hour, obs, view.risk)
    ensures view.cards == CardsOf(view.vitals)
    ensures view.banner == BannerOf(Classify(view.risk))
    ensures view.plan == PlanOf(Classify(view.risk))
    ensures view.status == StatusOf(Classify(view.risk))
    ensures view.vitals.lactate == LactateOf(Classify(view.risk))
    ensures view.trend.Some? <==> |modelRisks| > 1
    ensures var seed := if AllPlausible(obs) then old(rng.seed) else patient + hour;
            var drawn := if AllPlausible(obs) then old(rng.drawn) else 6;
            |modelRisks| > 1 ==>
              view.trend == TrendOf(TrendSeries(modelRisks, testMode, view.risk, rng.source, seed, drawn,
                                                TrendRows(|modelRisks|)))
    ensures var seed := if AllPlausible(obs) then old(rng.seed) else patient + hour;
            var drawn := if AllPlausible(obs) then old(rng.drawn) else 6;
            rng.seed == seed && rng.drawn == drawn + (if testMode && |modelRisks| > 1 then TrendRows(|modelRisks|) else 0)
  {
    var risk := modelRisks[hour];
    if testMode {
      risk := overrideRisk as real;
    }
    ghost var seed := if AllPlausible(obs) then rng.seed else patient + hour;
    ghost var drawn := if AllPlausible(obs) then rng.drawn else 6;
    var vitals := CollectVitals(rng, obs, risk, patient, hour);
    assert rng.seed == seed && rng.drawn == drawn;
    var cards := CardsOf(vitals);
    var banner := StatusBanner(risk);
    var plan := Recommend(risk);
    var status := StatusLabel(risk);
    var trend := RiskTrend(rng, modelRisks, testMode, risk);
    view := View(risk, vitals, cards, banner, plan, status, trend);
  }

  /**
   * The five places that compare the score with 20 and 60 (synthetic
   * ranges, lactate, banner, checklist, status label) pick the same tier.
   */
  lemma SameTierEverywhere(source: Source, patient: int, hour: int, obs: Reading, name: string, risk: real)
    ensures !Plausible(obs) && name in FallbackNames ==>
      RealisticVital(source, patient, hour, obs, name, risk)
        == Some(Defaults(source, patient + hour, Classify(risk))[name])
    ensures Lactate(risk) == LactateOf(Classify(risk))
    ensures StatusBanner(risk) == BannerOf(Classify(risk))
    ensures Recommend(risk) == PlanOf(Classify(risk))
    ensures StatusLabel(risk) == StatusOf(Classify(risk))
  {
  }
}
