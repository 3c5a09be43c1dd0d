# Smart ICU dashboard: decision logic

A Dafny model of the decision logic inside the Streamlit page `app.py` of an
ICU sepsis-monitoring dashboard. The page takes a risk percentage for the
selected patient and hour, either the model's sepsis probability times 100 or,
in test mode, a manual override. It then shows:

- the vital signs, with implausible or missing readings replaced by synthetic
  values drawn from a tier-conditioned range table;
- five vital cards, each green or red against a normal band;
- a status banner, an ordered treatment checklist with its rationale, and a
  status label;
- a risk trend over the first nine hours.

The cut points 20 and 60 are written out separately at five places in the
page. The model keeps each place as its own branch on the score, and proves
that every branch agrees with one reference classification (`Tiers.Classify`).

Modules, one per concern of the page:

- `Tiers`: the SAFE / CAUTION / DANGER classification.
- `Rng`: NumPy's global generator as a class (`GlobalRng`) holding the last
  seed and the number of draws taken since; `randint` and `uniform` map a raw
  draw into their half-open ranges.
- `Vitals`: `get_realistic_vital` as a method that mutates the generator,
  proved against the function `RealisticVital`, and the `vitals` dictionary.
- `Bands`: the normal bands of the vital cards, and what synthetic vitals of
  each tier show on them.
- `Recommendations`: banner, checklist, rationale and status label.
- `Horizon`: the hour slider's bound and the trend window.
- `Trend`: the loop that builds the `hours` and `risks` lists, proved against
  the function `TrendSeries`, and the trend classification.
- `Dashboard`: one redraw of the page, composed from the above.

The generator's algorithm is an input: `Source` gives the k-th draw in
[0, 1) after seeding with s. `randint(lo, hi)` is `lo + floor(u * (hi - lo))`
and `uniform(lo, hi)` is `lo + u * (hi - lo)`. Each call takes one position of
the stream, so the positions the model gives the draws follow the number of
calls, not the number of 32-bit words NumPy consumes. The properties proved
rest on the determinism of the stream and the ranges of the draws; the clauses
that name stream positions hold for this call-count stream.

Facts about the code that the model keeps:

- `randint` ranges are half-open: `randint(88, 92)` never yields 92.
- The DANGER status label reads URGENT.
- With at most one row the page shows no trend.
- Scores are not clamped before classification. The only clamp is on the
  simulated test-mode trend points.
- The oxygen card's caption reads "Normal: 95-100%", but the card is green
  from 92 % up. The model follows the comparison.

## Model

| member | source | states |
|---|---|---|
| `Tiers.Classify` | app.py:583-606 | below 20 is SAFE, 20 up to 60 is CAUTION, 60 and up is DANGER, each as an if-and-only-if |
| `Tiers.ClassifyMonotone` | app.py:583-606 | a higher risk never yields a lower tier |
| `Rng.IntDraw` | app.py:533-556 | a `randint(lo, hi)` draw lies in the half-open range [lo, hi) |
| `Rng.UniformDraw` | app.py:537 | a `uniform(lo, hi)` draw lies in the half-open range [lo, hi) |
| `Rng.GlobalRng.Seed` | app.py:530 | seeding restarts the stream: new seed, no draws taken |
| `Rng.GlobalRng.RandInt` | app.py:533 | consumes exactly one draw of the current stream and returns a value in [lo, hi) |
| `Rng.GlobalRng.Uniform` | app.py:875 | consumes exactly one draw of the current stream and returns a value in [lo, hi) |
| `Vitals.Ranges` | app.py:531-557 | every synthetic range of every tier is non-empty |
| `Vitals.Defaults` | app.py:530-557 | the defaults dictionary has exactly the six keys HR, SBP, DBP, O2Sat, Temp, Resp |
| `Vitals.RealisticVital` | app.py:524-559 | a plausible reading is returned as is; otherwise a value exists exactly for the six fallback names |
| `Vitals.GetRealisticVital` | app.py:524-559 | returns `RealisticVital` of its inputs; a plausible reading leaves the generator untouched, otherwise the generator ends seeded with patient + hour after six draws |
| `Vitals.CollectVitals` | app.py:561-576 | the dictionary equals `VitalsUsed`, so generator state from before the call never reaches it; the generator ends re-seeded with patient + hour whenever any reading fell back |
| `Vitals.Plausible` | app.py:526 | a reading is kept iff it is present, not NaN, and strictly between 0 and 1000 |
| `Vitals.VitalsUsed` | app.py:561-576 | each of the six entries is the recorded reading when plausible, otherwise a value in its tier's half-open range; lactate is the tier's value |
| `Vitals.LactateOf` | app.py:575 | lactate is 1.2 exactly for SAFE, 2.8 exactly for CAUTION, 4.5 exactly for DANGER |
| `Vitals.Lactate` | app.py:575 | lactate is 1.2, 2.8 or 4.5 and is the value of the score's tier |
| `Vitals.ObservedKeptIffPlausible` | app.py:526-527 | for any name, the recorded reading comes back exactly when it is present and strictly between 0 and 1000 |
| `Vitals.FallbackInRange` | app.py:531-557 | a fallback lies in (0, 1000) and in its tier's half-open range, and is whole except for Temp |
| `Vitals.UnknownNameGivesNone` | app.py:559 | a name without a fallback yields None unless its reading is plausible |
| `Vitals.SeedCollision` | app.py:530 | (patient, hour) and (patient + 1, hour - 1) give identical vitals |
| `Vitals.FallbackDependsOnTierOnly` | app.py:531-557 | two scores of the same tier give the same vital |
| `Bands.HeartRateNormal` | app.py:620 | HR is normal iff 60 <= HR <= 100 |
| `Bands.TemperatureNormal` | app.py:634 | Temp is normal iff 36.5 <= T <= 37.5 |
| `Bands.BloodPressureNormal` | app.py:649 | BP is normal iff 90 <= SBP <= 140 and 60 <= DBP <= 90 |
| `Bands.RespiratoryRateNormal` | app.py:663 | RR is normal iff 12 <= RR <= 20 |
| `Bands.OxygenNormal` | app.py:678 | SpO2 is good iff SpO2 >= 92 |
| `Bands.CardsOf` | app.py:618-689 | each of the five cards is green exactly inside its band, and the temperature card says Fever exactly above 37.5 |
| `Bands.TemperatureStatusOf` | app.py:634-642 | Normal iff 36.5 <= T <= 37.5, Fever iff T > 37.5, Cold iff T < 36.5 |
| `Bands.SafeFallbacksNormal` | app.py:620-689 | every synthetic vital of a SAFE score falls in its card's normal band |
| `Bands.CautionFallbacksNoLowReadings` | app.py:620-689 | synthetic vitals of a CAUTION score never show low oxygen or a cold temperature, and heart rate is at least 90 |
| `Bands.DangerFallbacksAlarm` | app.py:620-689 | synthetic vitals of a DANGER score always show red heart-rate, breathing and oxygen cards and a fever |
| `Recommendations.BannerOf` | app.py:583-606 | the banner's headline opens with green for SAFE, yellow for CAUTION, red for DANGER |
| `Recommendations.StatusOf` | app.py:807-812 | the label is Stable exactly for SAFE, Monitor Closely exactly for CAUTION, URGENT exactly for DANGER |
| `Recommendations.PlanOf` | app.py:749-789 | SAFE has 6 actions, CAUTION 8, DANGER 10, all distinct, in fixed order |
| `Recommendations.StatusBanner` | app.py:583-606 | the banner branch picks the banner of the score's tier |
| `Recommendations.Recommend` | app.py:749-789 | the checklist branch picks the plan of the score's tier and is never empty |
| `Recommendations.StatusLabel` | app.py:807-812 | the label branch picks Stable, Monitor Closely or URGENT by the score's tier |
| `Recommendations.ChecklistGrowsWithRisk` | app.py:749-789 | a higher score never yields a shorter checklist |
| `Horizon.TrendRows` | app.py:868 | the trend window holds min(rows, 9) rows |
| `Horizon.MaxHour` | app.py:403 | the slider's largest hour is below the row count and at most 8, and at least 0 once a row exists |
| `Horizon.SelectableHoursArePlottedRows` | app.py:403-410 | the hours the slider offers are exactly the indices of the plotted rows |
| `Trend.Clamp` | app.py:876 | `min(100, max(0, x))` lies in [0, 100] and leaves in-range values alone |
| `Trend.TrendPoint` | app.py:870-879 | a test-mode point lies in [0, 100] and within 10 of an in-range override |
| `Trend.TrendSeries` | app.py:864-881 | the risks list has one point per hour, in hour order |
| `Trend.BuildTrend` | app.py:864-881 | the loop yields hours 0..k-1 and `TrendSeries` for k = min(rows, 9), and takes one draw per turn in test mode only |
| `Trend.TrendOf` | app.py:918-925 | no trend for fewer than two points; otherwise increasing iff last - first > 5, decreasing iff < -5, stable iff within the band |
| `Trend.RiskTrend` | app.py:864-925 | a trend is shown exactly when the patient has more than one row, and it is the trend of the built series |
| `Trend.LiveSeriesIsPrefix` | app.py:868-881 | outside test mode the plotted risks are exactly the model's risks of the first rows |
| `Trend.TrendIgnoresInterior` | app.py:918-925 | only the first and last risks decide the trend |
| `Trend.TrendMonotoneInLatest` | app.py:918-925 | of two series with the same first risk, the one with the higher latest risk never has the lower direction |
| `Trend.TestSeriesBounded` | app.py:873-876 | every test-mode point lies in [0, 100] and within 10 of an in-range override |
| `Trend.TestTrendDeltaBounded` | app.py:873-919 | in test mode the trend's delta lies in [-20, 20] |
| `Dashboard.ShowPatient` | app.py:502-925 | one redraw: the risk is the override in test mode, otherwise the model's; vitals, cards, banner, checklist, label and lactate follow the score's tier; the trend's draws continue the stream left by the vitals; the generator is left seeded as the vitals left it, advanced by one draw per trend row in test mode |
| `Dashboard.SameTierEverywhere` | app.py:531-812 | the synthetic table, lactate, banner, checklist and status label all pick the tier of the score |

## Left out

- Page rendering: HTML and CSS, widgets, columns, spinners, the Plotly chart and the clock display. These are presentation only.
- Model, data and configuration loading and inference. The model's risk for each row is an input (`modelRisks`).
- The alert engine, treatment engine and explainer. They live in modules that are not part of this model, and their rules are not visible.
- The generator's algorithm. Its stream is the input `Source`; `randint` is modelled as a scaled draw rather than NumPy's bit-masking method.
- `Vitals.FallbackInRange`: Temp is modelled as the unrounded `uniform` draw. The source rounds it to one decimal, which can reach the range's upper end.
- Vitals.VitalsUsed: the Temp entry's bound `< hi` holds for the unrounded draw only; the source's value, rounded to one decimal, can equal the range's upper end.
- Dashboard.ShowPatient: the trend clause assumes that the alert engine and explainer calls made between the vitals and the trend (app.py:695-857) take no draws from NumPy's global generator; their source is not part of this model.
- Dashboard.ShowPatient: the temperature card is computed from the unrounded fallback. A CAUTION fallback drawn in (37.5, 37.55) rounds to 37.5 in the source and shows Normal, while the model shows Fever.
- Dashboard.ShowPatient: stream positions are counted per call. NumPy's legacy `randint` rejects masked 32-bit words and `uniform` takes two words per value, so in the source the generator's position after the six fallbacks (app.py:533-556), and hence the test-mode trend draws (app.py:875), depend on the tier's ranges; the model places them at positions 6, 7, ... for every tier.
- Vitals.CollectVitals: assumes one script run at a time uses NumPy's global generator. Streamlit runs each browser session's script in its own thread of one process, and `np.random`'s state is shared by the process, so another session seeding or drawing between app.py:530 and the last draw at app.py:533-556 changes this run's fallback vitals; the claims that earlier generator state never reaches them, and the identical vitals of `Vitals.SeedCollision`, hold only without such interleaving.
- Dashboard.ShowPatient: assumes one script run at a time uses the global generator; a concurrent session drawing between the vitals and app.py:875 changes the test-mode trend, so the clauses that the trend continues the stream the vitals left, and the generator's end state, hold only without interleaving.
- Rng.GlobalRng.Seed: accepts any integer. `np.random.seed` raises ValueError for a seed outside [0, 2**32 - 1], so a negative or very large `patient + hour` (app.py:530) makes the source fail where the model reseeds.
- NaN, infinities and Python's `None` readings are all `Missing`. Floating-point rounding of scores is not modelled.
- `int(selected_patient)` truncation: the patient identifier is an `int` input.
- The quick-test buttons assign `override_risk` and then rerun the page, which discards the assignment. They have no observable effect.
- Streamlit's handling of a slider whose bounds are equal or inverted (one or zero rows). The model only requires the selected hour to lie in the slider's range.
