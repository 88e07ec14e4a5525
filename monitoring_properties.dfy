/**
 * What the scoring and tier engine promises: bounds, the shape of the trigger
 * list, defaults, the stacking drop rule, monotonicity, the tier partition and
 * the dashboard's preset vectors.
 */
module MonitoringProperties {
  import opened Wrappers
  import opened Monitoring

  // ---------------------------------------------------------------------------
  // Triggers
  // ---------------------------------------------------------------------------

  /** Family ranks strictly increase along the list: at most one trigger per family, in evaluation order. */
  ghost predicate InFamilyOrder(ts: seq<Trigger>) {
    forall i, j :: 0 <= i < j < |ts| ==> FamilyRank(ts[i]) < FamilyRank(ts[j])
  }

  ghost predicate RanksBelow(ts: seq<Trigger>, k: nat) {
    forall i :: 0 <= i < |ts| ==> FamilyRank(ts[i]) < k
  }

  /** Appending the report of a band of family `k` after families below `k` keeps the order. */
  lemma AppendKeepsOrder(ts: seq<Trigger>, b: Band, k: nat)
    requires InFamilyOrder(ts) && RanksBelow(ts, k)
    requires b.Fired? ==> FamilyRank(b.trigger) == k
    ensures InFamilyOrder(ts + Reported(b)) && RanksBelow(ts + Reported(b), k + 1)
    ensures |ts + Reported(b)| <= |ts| + 1
  {
  }

  /**
   * The trigger list has at most one entry per family, in the order PERCLOS,
   * yawn, pedal, heart rate, drop, HRV, inactivity; so at most seven entries.
   */
  lemma TriggersInFamilyOrder(m: Metrics)
    ensures InFamilyOrder(Triggers(m))
    ensures |Triggers(m)| <= 7
  {
    var a := Assess(m);
    var ts := Reported(a.perclos);
    assert InFamilyOrder(ts) && RanksBelow(ts, 1);
    AppendKeepsOrder(ts, a.yawn, 1);
    ts := ts + Reported(a.yawn);
    AppendKeepsOrder(ts, a.pedal, 2);
    ts := ts + Reported(a.pedal);
    AppendKeepsOrder(ts, a.heartRate, 3);
    ts := ts + Reported(a.heartRate);
    AppendKeepsOrder(ts, a.drop, 4);
    ts := ts + Reported(a.drop);
    AppendKeepsOrder(ts, a.hrv, 5);
    ts := ts + Reported(a.hrv);
    AppendKeepsOrder(ts, a.inactivity, 6);
    ts := ts + Reported(a.inactivity);
    assert ts == Triggers(m);
  }

  /** Every band that fires adds a positive penalty, so the raw score is zero exactly when nothing is reported. */
  lemma ZeroScoreIffNoTriggers(m: Metrics)
    ensures RawScore(m) >= 0.0
    ensures RawScore(m) == 0.0 <==> Triggers(m) == []
  {
  }

  // ---------------------------------------------------------------------------
  // Defaults and the drop rule
  // ---------------------------------------------------------------------------

  /**
   * A missing optional field contributes nothing: HRV defaults to 10, above
   * every HRV band; the previous heart rate defaults to the current one, so the
   * drop is 0; inactivity defaults to 0 seconds.
   */
  lemma MissingFieldsContributeNothing(m: Metrics)
    ensures m.hrv.None? ==> Assess(m).hrv == Quiet
    ensures m.previousHeartRate.None? ==> Assess(m).drop == Quiet
    ensures m.inactivityTime.None? ==> Assess(m).inactivity == Quiet
  {
  }

  /**
   * A fall of more than 20 bpm adds exactly 35 to the raw score and reports the
   * fall, whatever the absolute heart-rate band is.
   */
  lemma SuddenDropAddsExactly35(m: Metrics, previous: real)
    requires previous - m.heartRate > 20.0
    ensures var dropped := m.(previousHeartRate := Some(previous));
      && RawScore(dropped) == RawScore(m.(previousHeartRate := None)) + 35.0
      && Assess(dropped).heartRate == HeartRateBand(m.heartRate)
      && HeartRateDrop(previous - m.heartRate) in Triggers(dropped)
  {
  }

  // ---------------------------------------------------------------------------
  // Monotonicity, family by family
  // ---------------------------------------------------------------------------

  /** Raising PERCLOS never lowers the score. */
  lemma PerclosMonotone(m: Metrics, perclos: real)
    requires m.perclos <= perclos
    ensures CogniScore(m) <= CogniScore(m.(perclos := perclos))
  {
  }

  /** Raising the yawn rate never lowers the score. */
  lemma YawnRateMonotone(m: Metrics, yawnRate: real)
    requires m.yawnRate <= yawnRate
    ensures CogniScore(m) <= CogniScore(m.(yawnRate := yawnRate))
  {
  }

  /** Raising the inactivity time (a missing one counts as 0) never lowers the score. */
  lemma InactivityMonotone(m: Metrics, inactivityTime: real)
    requires m.inactivityTime.GetOr(DEFAULT_INACTIVITY) <= inactivityTime
    ensures CogniScore(m) <= CogniScore(m.(inactivityTime := Some(inactivityTime)))
  {
  }

  /** Raising the pedal pressure never raises the score. */
  lemma PedalPressureAntitone(m: Metrics, pedalPressure: real)
    requires m.pedalPressure <= pedalPressure
    ensures CogniScore(m.(pedalPressure := pedalPressure)) <= CogniScore(m)
  {
  }

  /** Raising the HRV (a missing one counts as 10) never raises the score. */
  lemma HrvAntitone(m: Metrics, hrv: real)
    requires m.hrv.GetOr(DEFAULT_HRV) <= hrv
    ensures CogniScore(m.(hrv := Some(hrv))) <= CogniScore(m)
  {
  }

  /**
   * Raising the current heart rate never raises the score: the absolute band
   * can only get milder, and the drop from the previous reading only smaller
   * (it stays 0 when there is no previous reading).
   */
  lemma HeartRateAntitone(m: Metrics, heartRate: real)
    requires m.heartRate <= heartRate
    ensures CogniScore(m.(heartRate := heartRate)) <= CogniScore(m)
  {
  }

  // ---------------------------------------------------------------------------
  // Tiers
  // ---------------------------------------------------------------------------

  /** The tier boundaries, lowest first. */
  const TIER_BOUNDARIES: seq<real> := [WARNING_FROM, CAUTION_FROM, CRITICAL_FROM, EMERGENCY_FROM]

  /** How many of `bounds` the score has reached (closed lower bounds). */
  function BoundariesReached(score: real, bounds: seq<real>): (n: nat)
    ensures n <= |bounds|
  {
    if bounds == [] then 0
    else (if score >= bounds[0] then 1 else 0) + BoundariesReached(score, bounds[1..])
  }

  /** An independent reading of the classifier: the tier is one less than the number of boundaries reached. */
  lemma TierCountsBoundaries(score: real, triggers: seq<Trigger>)
    ensures GetTierFromCogniScore(score, triggers).tier == BoundariesReached(score, TIER_BOUNDARIES) - 1
  {
    var b := TIER_BOUNDARIES;
    assert b[1..][1..][1..][1..] == [];
    assert BoundariesReached(score, b[1..][1..][1..]) == if score >= EMERGENCY_FROM then 1 else 0;
    assert BoundariesReached(score, b[1..][1..]) == (if score >= CRITICAL_FROM then 1 else 0)
      + (if score >= EMERGENCY_FROM then 1 else 0);
    assert BoundariesReached(score, b[1..]) == (if score >= CAUTION_FROM then 1 else 0)
      + (if score >= CRITICAL_FROM then 1 else 0) + (if score >= EMERGENCY_FROM then 1 else 0);
  }

  /** A higher score never lands in a lower tier. */
  lemma TierMonotone(s1: real, s2: real, t1: seq<Trigger>, t2: seq<Trigger>)
    requires s1 <= s2
    ensures GetTierFromCogniScore(s1, t1).tier <= GetTierFromCogniScore(s2, t2).tier
  {
  }

  /** The dashboard's evaluation: score the metrics, then classify the score with its triggers. */
  function Evaluate(m: Metrics): (t: AlertTier)
    ensures 0.0 <= t.cogniScore <= MAX_SCORE
  {
    GetTierFromCogniScore(CogniScore(m), Triggers(m))
  }

  /** Every alert above normal names at least one reason, and a normal reading names none. */
  lemma AlertsCarryReasons(m: Metrics)
    ensures Evaluate(m).tier == -1 <==> Evaluate(m).triggers == []
  {
  }

  // ---------------------------------------------------------------------------
  // The dashboard's vectors (`App`: the initial state and `simulateTier`)
  // ---------------------------------------------------------------------------

  /** The initial and acknowledged state, also the preset for tier -1. */
  const BASELINE: Metrics := Metrics(15.0, 0.3, 72.0, 85.0, Some(15.0), Some(72.0), Some(0.0))

  /** The vector `simulateTier` installs for the requested tier; other requests change nothing. */
  function SimulatedMetrics(tier: int): (r: Option<Metrics>)
    ensures r.Some? <==> -1 <= tier <= 3
  {
    if tier == -1 then Some(BASELINE)
    else if tier == 0 then Some(Metrics(25.0, 0.7, 75.0, 78.0, Some(12.0), Some(75.0), Some(0.0)))
    else if tier == 1 then Some(Metrics(35.0, 1.5, 82.0, 65.0, Some(8.0), Some(82.0), Some(2.0)))
    else if tier == 2 then Some(Metrics(55.0, 2.5, 58.0, 45.0, Some(4.0), Some(58.0), Some(5.0)))
    else if tier == 3 then Some(Metrics(75.0, 3.5, 42.0, 15.0, Some(1.5), Some(65.0), Some(12.0)))
    else None
  }

  /** The baseline scores 0 and is normal, with no triggers. */
  lemma BaselineIsNormal()
    ensures CogniScore(BASELINE) == 0.0 && Triggers(BASELINE) == []
    ensures Evaluate(BASELINE) == AlertTier(-1, 0.0, Normal, ["System Active"], [])
  {
  }

  /**
   * The emergency preset sums to 210, is reported as exactly 100, and lands in
   * tier 3 with all seven families reported.
   */
  lemma EmergencyPresetClamps()
    ensures var m := SimulatedMetrics(3).value;
      && RawScore(m) == 210.0
      && CogniScore(m) == 100.0
      && Evaluate(m).tier == 3 && Evaluate(m).alertLevel == Emergency
      && "Auto Pull Over" in Evaluate(m).actions && "SOS Call" in Evaluate(m).actions
      && Triggers(m) == [PerclosSevere, YawnSevere, PedalCritical, HeartRateCritical,
                         HeartRateDrop(23.0), HrvCritical, NoInput(12.0)]
  {
  }

  /**
   * Not every preset lands on the tier it is named for: the "tier 0" vector
   * scores 5 (tier -1) and the "tier 2" vector scores 80 (tier 3).
   */
  lemma PresetTiers()
    ensures Evaluate(SimulatedMetrics(-1).value).tier == -1
    ensures CogniScore(SimulatedMetrics(0).value) == 5.0 && Evaluate(SimulatedMetrics(0).value).tier == -1
    ensures CogniScore(SimulatedMetrics(1).value) == 33.0 && Evaluate(SimulatedMetrics(1).value).tier == 1
    ensures CogniScore(SimulatedMetrics(2).value) == 80.0 && Evaluate(SimulatedMetrics(2).value).tier == 3
    ensures Evaluate(SimulatedMetrics(3).value).tier == 3
  {
  }
}
