/**
 * The dashboard's scoring and tier engine (src/types/monitoring.ts).
 *
 * A metrics record is scored family by family: each of seven metric families
 * fires at most one band, which adds a fixed penalty and reports one trigger.
 * The total is clamped to 100 and then classified into one of five alert tiers.
 */
module Monitoring {
  import opened Wrappers

  /** One reading of the driver's state (`MonitoringMetrics`). */
  datatype Metrics = Metrics(
    perclos: real,             // eye-closure percentage
    yawnRate: real,            // yawns per minute
    heartRate: real,           // beats per minute
    pedalPressure: real,       // percentage; lower means more disengaged
    hrv: Option<real>,         // milliseconds; defaults to 10
    previousHeartRate: Option<real>,  // defaults to `heartRate`
    inactivityTime: Option<real>)     // seconds; defaults to 0

  // ---------------------------------------------------------------------------
  // The static threshold table (`SensorThresholds`, `THRESHOLDS`)
  // ---------------------------------------------------------------------------

  /** Breakpoints of a family where a higher reading is worse (PERCLOS, yawn rate). */
  datatype RisingScale = RisingScale(normal: real, mild: real, moderate: real, severe: real, critical: real)

  datatype PedalScale = PedalScale(normal: real, slight: real, delayed: real, sluggish: real, critical: real)

  datatype HeartRateScale = HeartRateScale(normalMin: real, normalMax: real, fatigue: real, severe: real, critical: real)

  datatype HrvScale = HrvScale(normal: real, fatigue: real, moderate: real, severe: real, critical: real)

  datatype SensorThresholds = SensorThresholds(
    perclos: RisingScale,
    yawnRate: RisingScale,
    pedalPressure: PedalScale,
    heartRate: HeartRateScale,
    hrv: HrvScale)

  const THRESHOLDS: SensorThresholds := SensorThresholds(
    perclos := RisingScale(20.0, 30.0, 50.0, 70.0, 80.0),
    yawnRate := RisingScale(0.5, 1.0, 2.0, 3.0, 4.0),
    pedalPressure := PedalScale(85.0, 70.0, 55.0, 40.0, 20.0),
    heartRate := HeartRateScale(65.0, 90.0, 60.0, 55.0, 50.0),
    hrv := HrvScale(10.0, 8.0, 5.0, 3.0, 2.0))

  /** Defaults for the optional fields. */
  const DEFAULT_HRV: real := 10.0
  const DEFAULT_INACTIVITY: real := 0.0

  /** A sudden drop is a fall of more than this many bpm since the previous reading. */
  const SUDDEN_DROP_BPM: real := 20.0
  /** Inactivity counts after more than this many seconds without control input. */
  const INACTIVITY_SECONDS: real := 10.0
  const MAX_SCORE: real := 100.0

  // ---------------------------------------------------------------------------
  // Triggers and bands
  // ---------------------------------------------------------------------------

  /**
   * The reason a band fired. The source reports a human-readable string; the
   * model keeps the band's identity and, for the two messages that quote a
   * number, that number.
   */
  datatype Trigger =
    | PerclosCritical | PerclosSevere | PerclosModerate | PerclosMild | PerclosElevated
    | YawnCritical | YawnSevere | YawnModerate | YawnMild
    | PedalCritical | PedalSluggish | PedalDelayed | PedalSlight
    | HeartRateCritical | HeartRateSevere | HeartRateFatigue
    | HeartRateDrop(drop: real)
    | HrvCritical | HrvSevere | HrvModerate | HrvFatigue
    | NoInput(seconds: real)

  /** Position of a trigger's family in the evaluation order. */
  function FamilyRank(t: Trigger): (k: nat)
    ensures k < 7
  {
    match t
    case PerclosCritical | PerclosSevere | PerclosModerate | PerclosMild | PerclosElevated => 0
    case YawnCritical | YawnSevere | YawnModerate | YawnMild => 1
    case PedalCritical | PedalSluggish | PedalDelayed | PedalSlight => 2
    case HeartRateCritical | HeartRateSevere | HeartRateFatigue => 3
    case HeartRateDrop(_) => 4
    case HrvCritical | HrvSevere | HrvModerate | HrvFatigue => 5
    case NoInput(_) => 6
  }

  /** What one family contributes: nothing, or a penalty together with its trigger. */
  datatype Band = Quiet | Fired(penalty: real, trigger: Trigger)

  function Penalty(b: Band): (p: real)
    ensures b.Quiet? ==> p == 0.0
  {
    if b.Fired? then b.penalty else 0.0
  }

  function Reported(b: Band): (ts: seq<Trigger>)
    ensures b.Fired? ==> ts == [b.trigger]
    ensures b.Quiet? ==> ts == []
  {
    if b.Fired? then [b.trigger] else []
  }

  /** PERCLOS: the highest breakpoint reached, from critical down to normal. */
  function PerclosBand(perclos: real): (b: Band)
    ensures b.Fired? <==> perclos >= THRESHOLDS.perclos.normal
    ensures b.Fired? ==> FamilyRank(b.trigger) == 0 && 0.0 < b.penalty <= 35.0
  {
    var t := THRESHOLDS.perclos;
    if perclos >= t.critical then Fired(35.0, PerclosCritical)
    else if perclos >= t.severe then Fired(30.0, PerclosSevere)
    else if perclos >= t.moderate then Fired(20.0, PerclosModerate)
    else if perclos >= t.mild then Fired(10.0, PerclosMild)
    else if perclos >= t.normal then Fired(5.0, PerclosElevated)
    else Quiet
  }

  /** Yawn rate: the mildest band starts at the `mild` breakpoint (1/min), not at `normal`. */
  function YawnBand(yawnRate: real): (b: Band)
    ensures b.Fired? <==> yawnRate >= THRESHOLDS.yawnRate.mild
    ensures b.Fired? ==> FamilyRank(b.trigger) == 1 && 0.0 < b.penalty <= 32.0
  {
    var t := THRESHOLDS.yawnRate;
    if yawnRate >= t.critical then Fired(32.0, YawnCritical)
    else if yawnRate >= t.severe then Fired(25.0, YawnSevere)
    else if yawnRate >= t.moderate then Fired(15.0, YawnModerate)
    else if yawnRate >= t.mild then Fired(8.0, YawnMild)
    else Quiet
  }

  /** Pedal pressure: lower is worse; the mildest band ends at `slight` (70%). */
  function PedalBand(pedalPressure: real): (b: Band)
    ensures b.Fired? <==> pedalPressure <= THRESHOLDS.pedalPressure.slight
    ensures b.Fired? ==> FamilyRank(b.trigger) == 2 && 0.0 < b.penalty <= 30.0
  {
    var t := THRESHOLDS.pedalPressure;
    if pedalPressure <= t.critical then Fired(30.0, PedalCritical)
    else if pedalPressure <= t.sluggish then Fired(20.0, PedalSluggish)
    else if pedalPressure <= t.delayed then Fired(12.0, PedalDelayed)
    else if pedalPressure <= t.slight then Fired(5.0, PedalSlight)
    else Quiet
  }

  /** Absolute heart rate: lower is worse; nothing fires above `fatigue` (60 bpm). */
  function HeartRateBand(heartRate: real): (b: Band)
    ensures b.Fired? <==> heartRate <= THRESHOLDS.heartRate.fatigue
    ensures b.Fired? ==> FamilyRank(b.trigger) == 3 && 0.0 < b.penalty <= 28.0
  {
    var t := THRESHOLDS.heartRate;
    if heartRate <= t.critical then Fired(28.0, HeartRateCritical)
    else if heartRate <= t.severe then Fired(22.0, HeartRateSevere)
    else if heartRate <= t.fatigue then Fired(15.0, HeartRateFatigue)
    else Quiet
  }

  /** Sudden drop: a fall of more than 20 bpm adds 35 and quotes the fall. */
  function DropBand(drop: real): (b: Band)
    ensures b.Fired? <==> drop > SUDDEN_DROP_BPM
    ensures b.Fired? ==> b == Fired(35.0, HeartRateDrop(drop))
  {
    if drop > SUDDEN_DROP_BPM then Fired(35.0, HeartRateDrop(drop)) else Quiet
  }

  /** HRV: lower is worse; nothing fires above `fatigue` (8 ms). */
  function HrvBand(hrv: real): (b: Band)
    ensures b.Fired? <==> hrv <= THRESHOLDS.hrv.fatigue
    ensures b.Fired? ==> FamilyRank(b.trigger) == 5 && 0.0 < b.penalty <= 32.0
  {
    var t := THRESHOLDS.hrv;
    if hrv <= t.critical then Fired(32.0, HrvCritical)
    else if hrv <= t.severe then Fired(25.0, HrvSevere)
    else if hrv <= t.moderate then Fired(18.0, HrvModerate)
    else if hrv <= t.fatigue then Fired(10.0, HrvFatigue)
    else Quiet
  }

  /** Inactivity: more than 10 seconds without input adds 30 and quotes the time. */
  function InactivityBand(inactivityTime: real): (b: Band)
    ensures b.Fired? <==> inactivityTime > INACTIVITY_SECONDS
    ensures b.Fired? ==> b == Fired(30.0, NoInput(inactivityTime))
  {
    if inactivityTime > INACTIVITY_SECONDS then Fired(30.0, NoInput(inactivityTime)) else Quiet
  }

  // ---------------------------------------------------------------------------
  // The score as a sum of per-family contributions
  // ---------------------------------------------------------------------------

  /** The band each family lands in, after the optional fields take their defaults. */
  datatype Assessment = Assessment(
    perclos: Band, yawn: Band, pedal: Band, heartRate: Band, drop: Band, hrv: Band, inactivity: Band)

  function Assess(m: Metrics): Assessment {
    var hrv := m.hrv.GetOr(DEFAULT_HRV);
    var previousHeartRate := m.previousHeartRate.GetOr(m.heartRate);
    var inactivityTime := m.inactivityTime.GetOr(DEFAULT_INACTIVITY);
    Assessment(
      PerclosBand(m.perclos),
      YawnBand(m.yawnRate),
      PedalBand(m.pedalPressure),
      HeartRateBand(m.heartRate),
      DropBand(previousHeartRate - m.heartRate),
      HrvBand(hrv),
      InactivityBand(inactivityTime))
  }

  /** The unclamped sum of all penalties. */
  function RawScore(m: Metrics): real {
    var a := Assess(m);
    Penalty(a.perclos) + Penalty(a.yawn) + Penalty(a.pedal) + Penalty(a.heartRate)
      + Penalty(a.drop) + Penalty(a.hrv) + Penalty(a.inactivity)
  }

  function Min(x: real, y: real): (r: real)
    ensures r <= x && r <= y && (r == x || r == y)
  {
    if x <= y then x else y
  }

  /** The reported score: the raw sum clamped to 100. */
  function CogniScore(m: Metrics): (s: real)
    ensures 0.0 <= s <= MAX_SCORE
    ensures RawScore(m) <= MAX_SCORE ==> s == RawScore(m)
    ensures RawScore(m) >= MAX_SCORE ==> s == MAX_SCORE
  {
    Min(RawScore(m), MAX_SCORE)
  }

  /** The triggers, one per fired band, in evaluation order. */
  function Triggers(m: Metrics): seq<Trigger> {
    var a := Assess(m);
    Reported(a.perclos) + Reported(a.yawn) + Reported(a.pedal) + Reported(a.heartRate)
      + Reported(a.drop) + Reported(a.hrv) + Reported(a.inactivity)
  }

  /**
   * `calculateCogniScore`: a running score and a growing trigger list, updated
   * by seven if-chains in turn (one method per family below), then clamped.
   */
  method CalculateCogniScore(metrics: Metrics) returns (score: real, triggers: seq<Trigger>)
    ensures score == CogniScore(metrics) && triggers == Triggers(metrics)
    ensures 0.0 <= score <= MAX_SCORE
  {
    score := 0.0;
    triggers := [];

    var hrv := metrics.hrv.GetOr(DEFAULT_HRV);
    var previousHeartRate := metrics.previousHeartRate.GetOr(metrics.heartRate);
    var inactivityTime := metrics.inactivityTime.GetOr(DEFAULT_INACTIVITY);

    ghost var a := Assess(metrics);

    score, triggers := ScorePerclos(score, triggers, metrics.perclos);
    assert triggers == Reported(a.perclos);
    score, triggers := ScoreYawnRate(score, triggers, metrics.yawnRate);
    score, triggers := ScorePedalPressure(score, triggers, metrics.pedalPressure);
    score, triggers := ScoreHeartRate(score, triggers, metrics.heartRate);
    var heartRateDrop := previousHeartRate - metrics.heartRate;
    score, triggers := ScoreHeartRateDrop(score, triggers, heartRateDrop);
    score, triggers := ScoreHrv(score, triggers, hrv);
    score, triggers := ScoreInactivity(score, triggers, inactivityTime);
    assert score == RawScore(metrics) && triggers == Triggers(metrics);

    score := Min(score, MAX_SCORE);
  }

  /** The PERCLOS chain. */
  method ScorePerclos(score: real, triggers: seq<Trigger>, perclos: real) returns (score': real, triggers': seq<Trigger>)
    ensures score' == score + Penalty(PerclosBand(perclos))
    ensures triggers' == triggers + Reported(PerclosBand(perclos))
  {
    score', triggers' := score, triggers;
    if perclos >= THRESHOLDS.perclos.critical {
      score' := score' + 35.0;
      triggers' := triggers' + [PerclosCritical];
    } else if perclos >= THRESHOLDS.perclos.severe {
      score' := score' + 30.0;
      triggers' := triggers' + [PerclosSevere];
    } else if perclos >= THRESHOLDS.perclos.moderate {
      score' := score' + 20.0;
      triggers' := triggers' + [PerclosModerate];
    } else if perclos >= THRESHOLDS.perclos.mild {
      score' := score' + 10.0;
      triggers' := triggers' + [PerclosMild];
    } else if perclos >= THRESHOLDS.perclos.normal {
      score' := score' + 5.0;
      triggers' := triggers' + [PerclosElevated];
    }
  }

  /** The yawn-rate chain. */
  method ScoreYawnRate(score: real, triggers: seq<Trigger>, yawnRate: real) returns (score': real, triggers': seq<Trigger>)
    ensures score' == score + Penalty(YawnBand(yawnRate))
    ensures triggers' == triggers + Reported(YawnBand(yawnRate))
  {
    score', triggers' := score, triggers;
    if yawnRate >= THRESHOLDS.yawnRate.critical {
      score' := score' + 32.0;
      triggers' := triggers' + [YawnCritical];
    } else if yawnRate >= THRESHOLDS.yawnRate.severe {
      score' := score' + 25.0;
      triggers' := triggers' + [YawnSevere];
    } else if yawnRate >= THRESHOLDS.yawnRate.moderate {
      score' := score' + 15.0;
      triggers' := triggers' + [YawnModerate];
    } else if yawnRate >= THRESHOLDS.yawnRate.mild {
      score' := score' + 8.0;
      triggers' := triggers' + [YawnMild];
    }
  }

  /** The pedal-pressure chain. */
  method ScorePedalPressure(score: real, triggers: seq<Trigger>, pedalPressure: real) returns (score': real, triggers': seq<Trigger>)
    ensures score' == score + Penalty(PedalBand(pedalPressure))
    ensures triggers' == triggers + Reported(PedalBand(pedalPressure))
  {
    score', triggers' := score, triggers;
    if pedalPressure <= THRESHOLDS.pedalPressure.critical {
      score' := score' + 30.0;
      triggers' := triggers' + [PedalCritical];
    } else if pedalPressure <= THRESHOLDS.pedalPressure.sluggish {
      score' := score' + 20.0;
      triggers' := triggers' + [PedalSluggish];
    } else if pedalPressure <= THRESHOLDS.pedalPressure.delayed {
      score' := score' + 12.0;
      triggers' := triggers' + [PedalDelayed];
    } else if pedalPressure <= THRESHOLDS.pedalPressure.slight {
      score' := score' + 5.0;
      triggers' := triggers' + [PedalSlight];
    }
  }

  /** The absolute heart-rate chain. */
  method ScoreHeartRate(score: real, triggers: seq<Trigger>, heartRate: real) returns (score': real, triggers': seq<Trigger>)
    ensures score' == score + Penalty(HeartRateBand(heartRate))
    ensures triggers' == triggers + Reported(HeartRateBand(heartRate))
  {
    score', triggers' := score, triggers;
    if heartRate <= THRESHOLDS.heartRate.critical {
      score' := score' + 28.0;
      triggers' := triggers' + [HeartRateCritical];
    } else if heartRate <= THRESHOLDS.heartRate.severe {
      score' := score' + 22.0;
      triggers' := triggers' + [HeartRateSevere];
    } else if heartRate <= THRESHOLDS.heartRate.fatigue {
      score' := score' + 15.0;
      triggers' := triggers' + [HeartRateFatigue];
    }
  }

  /** The sudden-drop rule; it stacks on the absolute heart-rate band. */
  method ScoreHeartRateDrop(score: real, triggers: seq<Trigger>, heartRateDrop: real) returns (score': real, triggers': seq<Trigger>)
    ensures score' == score + Penalty(DropBand(heartRateDrop))
    ensures triggers' == triggers + Reported(DropBand(heartRateDrop))
  {
    score', triggers' := score, triggers;
    if heartRateDrop > SUDDEN_DROP_BPM {
      score' := score' + 35.0;
      triggers' := triggers' + [HeartRateDrop(heartRateDrop)];
    }
  }

  /** The HRV chain. */
  method ScoreHrv(score: real, triggers: seq<Trigger>, hrv: real) returns (score': real, triggers': seq<Trigger>)
    ensures score' == score + Penalty(HrvBand(hrv))
    ensures triggers' == triggers + Reported(HrvBand(hrv))
  {
    score', triggers' := score, triggers;
    if hrv <= THRESHOLDS.hrv.critical {
      score' := score' + 32.0;
      triggers' := triggers' + [HrvCritical];
    } else if hrv <= THRESHOLDS.hrv.severe {
      score' := score' + 25.0;
      triggers' := triggers' + [HrvSevere];
    } else if hrv <= THRESHOLDS.hrv.moderate {
      score' := score' + 18.0;
      triggers' := triggers' + [HrvModerate];
    } else if hrv <= THRESHOLDS.hrv.fatigue {
      score' := score' + 10.0;
      triggers' := triggers' + [HrvFatigue];
    }
  }

  /** The inactivity rule. */
  method ScoreInactivity(score: real, triggers: seq<Trigger>, inactivityTime: real) returns (score': real, triggers': seq<Trigger>)
    ensures score' == score + Penalty(InactivityBand(inactivityTime))
    ensures triggers' == triggers + Reported(InactivityBand(inactivityTime))
  {
    score', triggers' := score, triggers;
    if inactivityTime > INACTIVITY_SECONDS {
      score' := score' + 30.0;
      triggers' := triggers' + [NoInput(inactivityTime)];
    }
  }

  // ---------------------------------------------------------------------------
  // Tier classification (`getTierFromCogniScore`)
  // ---------------------------------------------------------------------------

  datatype AlertLevel = Normal | Warning | Caution | Critical | Emergency

  /** The tier number that goes with each alert level; one-to-one. */
  function TierOf(level: AlertLevel): (tier: int)
    ensures -1 <= tier <= 3
  {
    match level
    case Normal => -1
    case Warning => 0
    case Caution => 1
    case Critical => 2
    case Emergency => 3
  }

  /** The fixed responses prescribed for each alert level. */
  function ActionsFor(level: AlertLevel): seq<string> {
    match level
    case Emergency => ["RED ALERT", "Driver Acknowledgement Required", "Auto Pull Over", "SOS Call"]
    case Critical => ["Heavy Haptics", "Voice Prompt", "Take a Break Now"]
    case Caution => ["Gentle Haptics", "Steering Alert", "Stay Alert"]
    case Warning => ["Ambient Light Change", "Coffee Break Suggestion"]
    case Normal => ["System Active"]
  }

  datatype AlertTier = AlertTier(
    tier: int,
    cogniScore: real,
    alertLevel: AlertLevel,
    actions: seq<string>,
    triggers: seq<Trigger>)

  /** Lower bounds (closed) of tiers 0, 1, 2 and 3. */
  const WARNING_FROM: real := 15.0
  const CAUTION_FROM: real := 30.0
  const CRITICAL_FROM: real := 50.0
  const EMERGENCY_FROM: real := 70.0

  /**
   * First match from the top: 70, 50, 30, 15. Below 15 the tier is normal and
   * the triggers are withheld. The source's default of `[]` for `triggers` is
   * the caller passing `[]`.
   */
  function GetTierFromCogniScore(score: real, triggers: seq<Trigger>): (t: AlertTier)
    ensures t.cogniScore == score
    ensures t.tier == 3 <==> EMERGENCY_FROM <= score
    ensures t.tier == 2 <==> CRITICAL_FROM <= score < EMERGENCY_FROM
    ensures t.tier == 1 <==> CAUTION_FROM <= score < CRITICAL_FROM
    ensures t.tier == 0 <==> WARNING_FROM <= score < CAUTION_FROM
    ensures t.tier == -1 <==> score < WARNING_FROM
    ensures TierOf(t.alertLevel) == t.tier
    ensures t.actions == ActionsFor(t.alertLevel)
    ensures t.tier == -1 ==> t.triggers == [] && t.actions == ["System Active"]
    ensures t.tier != -1 ==> t.triggers == triggers
  {
    if score >= EMERGENCY_FROM then
      AlertTier(3, score, Emergency, ActionsFor(Emergency), triggers)
    else if score >= CRITICAL_FROM then
      AlertTier(2, score, Critical, ActionsFor(Critical), triggers)
    else if score >= CAUTION_FROM then
      AlertTier(1, score, Caution, ActionsFor(Caution), triggers)
    else if score >= WARNING_FROM then
      AlertTier(0, score, Warning, ActionsFor(Warning), triggers)
    else
      AlertTier(-1, score, Normal, ActionsFor(Normal), [])
  }
}
