/**
 * The normal bands behind the vital-sign cards (app.py, "VITAL SIGNS
 * MONITOR"): each card is green when its reading lies in the band and red
 * otherwise, and the temperature card tells a fever from a low temperature.
 */
module Bands {
  import opened Tiers
  import opened Rng
  import opened Vitals

  /** Heart rate card: normal from 60 to 100 bpm inclusive. */
  predicate HeartRateNormal(hr: real): (ok: bool)
    ensures ok <==> 60.0 <= hr <= 100.0
  {
    60.0 <= hr <= 100.0
  }

  /** Temperature card: normal from 36.5 to 37.5 °C inclusive. */
  predicate TemperatureNormal(temp: real): (ok: bool)
    ensures ok <==> 36.5 <= temp <= 37.5
  {
    36.5 <= temp <= 37.5
  }

  /** Blood pressure card: normal when systolic is in 90..140 and diastolic in 60..90. */
  predicate BloodPressureNormal(sbp: real, dbp: real): (ok: bool)
    ensures ok <==> 90.0 <= sbp <= 140.0 && 60.0 <= dbp <= 90.0
  {
    (90.0 <= sbp <= 140.0) && (60.0 <= dbp <= 90.0)
  }

  /** Breathing card: normal from 12 to 20 breaths per minute inclusive. */
  predicate RespiratoryRateNormal(rr: real): (ok: bool)
    ensures ok <==> 12.0 <= rr <= 20.0
  {
    12.0 <= rr <= 20.0
  }

  /** Oxygen card: good from 92 % up. */
  predicate OxygenNormal(spo2: real): (ok: bool)
    ensures ok <==> 92.0 <= spo2
  {
    spo2 >= 92.0
  }

  datatype TemperatureStatus = TemperatureOk | Fever | Cold

  /** The temperature card's label: Normal inside the band, else Fever above 37.5, else Cold. */
  function TemperatureStatusOf(temp: real): (s: TemperatureStatus)
    ensures s == TemperatureOk <==> TemperatureNormal(temp)
    ensures s == Fever <==> temp > 37.5
    ensures s == Cold <==> temp < 36.5
  {
    if TemperatureNormal(temp) then TemperatureOk else if temp > 37.5 then Fever else Cold
  }

  /** The state of the five cards: green or red, and the temperature card's label. */
  datatype Cards = Cards(
    heartRateOk: bool, temperature: TemperatureStatus, bloodPressureOk: bool,
    breathingOk: bool, oxygenOk: bool)

  /** The five cards of a `vitals` dictionary; blood pressure is one card for two readings. */
  function CardsOf(v: VitalSigns): (c: Cards)
    ensures c.heartRateOk <==> 60.0 <= v.hr <= 100.0
    ensures c.temperature == TemperatureOk <==> 36.5 <= v.temp <= 37.5
    ensures c.temperature == Fever <==> v.temp > 37.5
    ensures c.bloodPressureOk <==> 90.0 <= v.sbp <= 140.0 && 60.0 <= v.dbp <= 90.0
    ensures c.breathingOk <==> 12.0 <= v.rr <= 20.0
    ensures c.oxygenOk <==> 92.0 <= v.spo2
  {
    Cards(HeartRateNormal(v.hr), TemperatureStatusOf(v.temp), BloodPressureNormal(v.sbp, v.dbp),
          RespiratoryRateNormal(v.rr), OxygenNormal(v.spo2))
  }

  /** Synthetic vitals of a SAFE score always show green cards. */
  lemma SafeFallbacksNormal(source: Source, patient: int, hour: int, obs: Observation, risk: real)
    requires risk < 20.0
    ensures var v := VitalsUsed(source, patient, hour, obs, risk);
            && (!Plausible(obs.hr) ==> HeartRateNormal(v.hr))
            && (!Plausible(obs.temp) ==> TemperatureNormal(v.temp))
            && (!Plausible(obs.sbp) && !Plausible(obs.dbp) ==> BloodPressureNormal(v.sbp, v.dbp))
            && (!Plausible(obs.resp) ==> RespiratoryRateNormal(v.rr))
            && (!Plausible(obs.o2sat) ==> OxygenNormal(v.spo2))
  {
  }

  /** Synthetic vitals of a CAUTION score never show low oxygen or a low temperature. */
  lemma CautionFallbacksNoLowReadings(source: Source, patient: int, hour: int, obs: Observation, risk: real)
    requires 20.0 <= risk < 60.0
    ensures var v := VitalsUsed(source, patient, hour, obs, risk);
            && (!Plausible(obs.o2sat) ==> OxygenNormal(v.spo2))
            && (!Plausible(obs.temp) ==> TemperatureStatusOf(v.temp) != Cold)
            && (!Plausible(obs.hr) ==> v.hr >= 90.0)
  {
  }

  /** Synthetic vitals of a DANGER score always show red heart-rate, breathing and oxygen cards and a fever. */
  lemma DangerFallbacksAlarm(source: Source, patient: int, hour: int, obs: Observation, risk: real)
    requires 60.0 <= risk
    ensures var v := VitalsUsed(source, patient, hour, obs, risk);
            && (!Plausible(obs.hr) ==> !HeartRateNormal(v.hr))
            && (!Plausible(obs.temp) ==> TemperatureStatusOf(v.temp) == Fever)
            && (!Plausible(obs.resp) ==> !RespiratoryRateNormal(v.rr))
            && (!Plausible(obs.o2sat) ==> !OxygenNormal(v.spo2))
  {
  }
}
