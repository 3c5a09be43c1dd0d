/**
 * The vital signs the dashboard shows for the selected patient and hour
 * (app.py, `get_realistic_vital` and the `vitals` dictionary). A reading
 * that is present and plausible is shown as recorded; any other reading is
 * replaced by a synthetic value drawn from a tier-conditioned range table,
 * with the global generator re-seeded from patient + hour on every call.
 */
module Vitals {
  import opened Optional
  import opened Tiers
  import opened Rng

  /** A cell of the patient's row: absent column and NaN are both `Missing`. */
  datatype Reading = Missing | Observed(value: real)

  /** The readings of one row, under the dataset's column names. */
  datatype Observation = Observation(
    hr: Reading, sbp: Reading, dbp: Reading, o2sat: Reading, temp: Reading, resp: Reading)

  /** The `vitals` dictionary (SpO2 and RR are the dashboard's names for O2Sat and Resp). */
  datatype VitalSigns = VitalSigns(
    hr: real, sbp: real, dbp: real, spo2: real, temp: real, rr: real, lactate: real)

  /** A reading is kept when it is not NaN and lies strictly between 0 and 1000. */
  predicate Plausible(r: Reading): (ok: bool)
    ensures ok <==> r.Observed? && 0.0 < r.value < 1000.0
  {
    r.Observed? && 0.0 < r.value < 1000.0
  }

  /** The column names that have a synthetic fallback. */
  const FallbackNames: set<string> := {"HR", "SBP", "DBP", "O2Sat", "Temp", "Resp"}

  /** A half-open integer range [lo, hi), as `randint` takes it. */
  datatype IntRange = IntRange(lo: int, hi: int)

  /** A half-open real range [lo, hi), as `uniform` takes it. */
  datatype RealRange = RealRange(lo: real, hi: real)

  datatype RangeTable = RangeTable(
    hr: IntRange, sbp: IntRange, dbp: IntRange, o2sat: IntRange, temp: RealRange, resp: IntRange)

  ghost predicate NonEmpty(t: RangeTable)
  {
    && t.hr.lo < t.hr.hi && t.sbp.lo < t.sbp.hi && t.dbp.lo < t.dbp.hi
    && t.o2sat.lo < t.o2sat.hi && t.temp.lo < t.temp.hi && t.resp.lo < t.resp.hi
  }

  /** The synthetic ranges of a tier, every one of them non-empty. */
  function Ranges(t: Tier): (g: RangeTable)
    ensures NonEmpty(g)
  {
    match t
    case Safe =>
      RangeTable(IntRange(65, 85), IntRange(110, 130), IntRange(70, 85), IntRange(96, 99),
                 RealRange(36.6, 37.2), IntRange(14, 18))
    case Caution =>
      RangeTable(IntRange(90, 110), IntRange(95, 115), IntRange(60, 75), IntRange(92, 95),
                 RealRange(37.5, 38.3), IntRange(20, 24))
    case Danger =>
      RangeTable(IntRange(115, 135), IntRange(85, 95), IntRange(55, 65), IntRange(88, 92),
                 RealRange(38.5, 39.5), IntRange(25, 32))
  }

  /**
   * The `defaults` dictionary built after seeding with `seed`: six draws in
   * the order HR, SBP, DBP, O2Sat, Temp, Resp, each from its tier's range.
   */
  function Defaults(source: Source, seed: int, t: Tier): (d: map<string, real>)
    ensures d.Keys == FallbackNames
  {
    var g := Ranges(t);
    map[
      "HR" := IntDraw(g.hr.lo, g.hr.hi, source(seed, 0)) as real,
      "SBP" := IntDraw(g.sbp.lo, g.sbp.hi, source(seed, 1)) as real,
      "DBP" := IntDraw(g.dbp.lo, g.dbp.hi, source(seed, 2)) as real,
      "O2Sat" := IntDraw(g.o2sat.lo, g.o2sat.hi, source(seed, 3)) as real,
      "Temp" := UniformDraw(g.temp.lo, g.temp.hi, source(seed, 4)),
      "Resp" := IntDraw(g.resp.lo, g.resp.hi, source(seed, 5)) as real]
  }

  /** The value `get_realistic_vital` returns, as a function of its inputs and the generator's stream. */
  function RealisticVital(source: Source, patient: int, hour: int, obs: Reading, name: string, risk: real)
    : (r: Option<real>)
    ensures Plausible(obs) ==> r == Some(obs.value)
    ensures !Plausible(obs) ==> (r.Some? <==> name in FallbackNames)
  {
    if Plausible(obs) then Some(obs.value)
    else
      var d := Defaults(source, patient + hour, Classify(risk));
      if name in d then Some(d[name]) else None
  }

  /** The lactate entry of the `vitals` dictionary: one fixed value per tier. */
  function Lactate(risk: real): (l: real)
    ensures l == 1.2 || l == 2.8 || l == 4.5
    ensures l == LactateOf(Classify(risk))
  {
    if risk < 20.0 then 1.2 else if risk < 60.0 then 2.8 else 4.5
  }

  function LactateOf(t: Tier): (l: real)
    ensures l == 1.2 <==> t == Safe
    ensures l == 2.8 <==> t == Caution
    ensures l == 4.5 <==> t == Danger
  {
    match t
    case Safe => 1.2
    case Caution => 2.8
    case Danger => 4.5
  }

  /** The `vitals` dictionary as a function of the row, the score and the generator's stream. */
  function VitalsUsed(source: Source, patient: int, hour: int, obs: Observation, risk: real): (v: VitalSigns)
    ensures Plausible(obs.hr) ==> v.hr == obs.hr.value
    ensures Plausible(obs.sbp) ==> v.sbp == obs.sbp.value
    ensures Plausible(obs.dbp) ==> v.dbp == obs.dbp.value
    ensures Plausible(obs.o2sat) ==> v.spo2 == obs.o2sat.value
    ensures Plausible(obs.temp) ==> v.temp == obs.temp.value
    ensures Plausible(obs.resp) ==> v.rr == obs.resp.value
    ensures !Plausible(obs.hr) ==>
      Ranges(Classify(risk)).hr.lo as real <= v.hr < Ranges(Classify(risk)).hr.hi as real
    ensures !Plausible(obs.sbp) ==>
      Ranges(Classify(risk)).sbp.lo as real <= v.sbp < Ranges(Classify(risk)).sbp.hi as real
    ensures !Plausible(obs.dbp) ==>
      Ranges(Classify(risk)).dbp.lo as real <= v.dbp < Ranges(Classify(risk)).dbp.hi as real
    ensures !Plausible(obs.o2sat) ==>
      Ranges(Classify(risk)).o2sat.lo as real <= v.spo2 < Ranges(Classify(risk)).o2sat.hi as real
    ensures !Plausible(obs.temp) ==>
      Ranges(Classify(risk)).temp.lo <= v.temp < Ranges(Classify(risk)).temp.hi
    ensures !Plausible(obs.resp) ==>
      Ranges(Classify(risk)).resp.lo as real <= v.rr < Ranges(Classify(risk)).resp.hi as real
    ensures v.lactate == LactateOf(Classify(risk))
  {
    VitalSigns(
      RealisticVital(source, patient, hour, obs.hr, "HR", risk).value,
      RealisticVital(source, patient, hour, obs.sbp, "SBP", risk).value,
      RealisticVital(source, patient, hour, obs.dbp, "DBP", risk).value,
      RealisticVital(source, patient, hour, obs.o2sat, "O2Sat", risk).value,
      RealisticVital(source, patient, hour, obs.temp, "Temp", risk).value,
      RealisticVital(source, patient, hour, obs.resp, "Resp", risk).value,
      Lactate(risk))
  }

  /**
   * `get_realistic_vital`: returns a plausible reading untouched without
   * touching the generator; otherwise re-seeds the generator with
   * patient + hour, draws the six defaults of the score's band and looks the
   * column up among them.
   */
  method GetRealisticVital(rng: GlobalRng, obs: Reading, name: string, risk: real, patient: int, hour: int)
    returns (r: Option<real>)
    modifies rng
    ensures r == RealisticVital(rng.source, patient, hour, obs, name, risk)
    ensures Plausible(obs) ==> rng.seed == old(rng.seed) && rng.drawn == old(rng.drawn)
    ensures !Plausible(obs) ==> rng.seed == patient + hour && rng.drawn == 6
  {
    if obs.Observed? && 0.0 < obs.value && obs.value < 1000.0 {
      return Some(obs.value);
    }
    rng.Seed(patient + hour);
    var defaults: map<string, real>;
    if risk < 20.0 {
      var hr := rng.RandInt(65, 85);
      var sbp := rng.RandInt(110, 130);
      var dbp := rng.RandInt(70, 85);
      var o2sat := rng.RandInt(96, 99);
      var temp := rng.Uniform(36.6, 37.2);
      var resp := rng.RandInt(14, 18);
      defaults := map["HR" := hr as real, "SBP" := sbp as real, "DBP" := dbp as real,
                      "O2Sat" := o2sat as real, "Temp" := temp, "Resp" := resp as real];
    } else if risk < 60.0 {
      var hr := rng.RandInt(90, 110);
      var sbp := rng.RandInt(95, 115);
      var dbp := rng.RandInt(60, 75);
      var o2sat := rng.RandInt(92, 95);
      var temp := rng.Uniform(37.5, 38.3);
      var resp := rng.RandInt(20, 24);
      defaults := map["HR" := hr as real, "SBP" := sbp as real, "DBP" := dbp as real,
                      "O2Sat" := o2sat as real, "Temp" := temp, "Resp" := resp as real];
    } else {
      var hr := rng.RandInt(115, 135);
      var sbp := rng.RandInt(85, 95);
      var dbp := rng.RandInt(55, 65);
      var o2sat := rng.RandInt(88, 92);
      var temp := rng.Uniform(38.5, 39.5);
      var resp := rng.RandInt(25, 32);
      defaults := map["HR" := hr as real, "SBP" := sbp as real, "DBP" := dbp as real,
                      "O2Sat" := o2sat as real, "Temp" := temp, "Resp" := resp as real];
    }
    r := if name in defaults then Some(defaults[name]) else None;
  }

  /**
   * The six calls that fill the `vitals` dictionary, plus the lactate entry.
   * Because every fallback re-seeds, whatever the generator held before
   * never reaches the result.
   */
  method CollectVitals(rng: GlobalRng, obs: Observation, risk: real, patient: int, hour: int)
    returns (v: VitalSigns)
    modifies rng
    ensures v == VitalsUsed(rng.source, patient, hour, obs, risk)
    ensures AllPlausible(obs) ==> rng.seed == old(rng.seed) && rng.drawn == old(rng.drawn)
    ensures !AllPlausible(obs) ==> rng.seed == patient + hour && rng.drawn == 6
  {
    var hr := GetRealisticVital(rng, obs.hr, "HR", risk, patient, hour);
    var sbp := GetRealisticVital(rng, obs.sbp, "SBP", risk, patient, hour);
    var dbp := GetRealisticVital(rng, obs.dbp, "DBP", risk, patient, hour);
    var spo2 := GetRealisticVital(rng, obs.o2sat, "O2Sat", risk, patient, hour);
    var temp := GetRealisticVital(rng, obs.temp, "Temp", risk, patient, hour);
    var rr := GetRealisticVital(rng, obs.resp, "Resp", risk, patient, hour);
    v := VitalSigns(hr.value, sbp.value, dbp.value, spo2.value, temp.value, rr.value,
                    if risk < 20.0 then 1.2 else if risk < 60.0 then 2.8 else 4.5);
  }

  predicate AllPlausible(obs: Observation)
  {
    Plausible(obs.hr) && Plausible(obs.sbp) && Plausible(obs.dbp)
    && Plausible(obs.o2sat) && Plausible(obs.temp) && Plausible(obs.resp)
  }

  /** The recorded reading comes back exactly when it is plausible. */
  lemma ObservedKeptIffPlausible(source: Source, patient: int, hour: int, obs: Reading, name: string, risk: real)
    ensures (obs.Observed? && RealisticVital(source, patient, hour, obs, name, risk) == Some(obs.value))
            <==> Plausible(obs)
  {
  }

  /** A fallback lies in the half-open range of the score's tier and is whole except for Temp. */
  lemma FallbackInRange(source: Source, patient: int, hour: int, obs: Reading, name: string, risk: real)
    requires !Plausible(obs) && name in FallbackNames
    ensures var v := RealisticVital(source, patient, hour, obs, name, risk).value;
            var g := Ranges(Classify(risk));
            && 0.0 < v < 1000.0
            && (name == "HR" ==> g.hr.lo as real <= v < g.hr.hi as real && v == v.Floor as real)
            && (name == "SBP" ==> g.sbp.lo as real <= v < g.sbp.hi as real && v == v.Floor as real)
            && (name == "DBP" ==> g.dbp.lo as real <= v < g.dbp.hi as real && v == v.Floor as real)
            && (name == "O2Sat" ==> g.o2sat.lo as real <= v < g.o2sat.hi as real && v == v.Floor as real)
            && (name == "Temp" ==> g.temp.lo <= v < g.temp.hi)
            && (name == "Resp" ==> g.resp.lo as real <= v < g.resp.hi as real && v == v.Floor as real)
  {
  }

  /** A column without a fallback gives None unless its reading is plausible. */
  lemma UnknownNameGivesNone(source: Source, patient: int, hour: int, obs: Reading, name: string, risk: real)
    requires name !in FallbackNames
    ensures RealisticVital(source, patient, hour, obs, name, risk)
            == if Plausible(obs) then Some(obs.value) else None
  {
  }

  /** The generator is seeded with patient + hour, so (p, h) and (p + 1, h - 1) give the same vital. */
  lemma SeedCollision(source: Source, patient: int, hour: int, obs: Reading, name: string, risk: real)
    ensures RealisticVital(source, patient, hour, obs, name, risk)
            == RealisticVital(source, patient + 1, hour - 1, obs, name, risk)
  {
  }

  /** Two scores of the same tier give the same synthetic vitals. */
  lemma FallbackDependsOnTierOnly(source: Source, patient: int, hour: int, obs: Reading, name: string,
                                  r1: real, r2: real)
    requires Classify(r1) == Classify(r2)
    ensures RealisticVital(source, patient, hour, obs, name, r1)
            == RealisticVital(source, patient, hour, obs, name, r2)
  {
  }
}
