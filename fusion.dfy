/**
 * The safety core's fusion rule and debounce
 * (CogniShield_prototype/safety_fusion_core_versal.py): vision, physiological
 * and vehicle readings are fused by a fixed priority chain into one of nine
 * tier labels, and the reported tier changes only when a different label
 * arrives more than two seconds after the last change.
 */
module SafetyFusion {
  import opened Perception

  /** `hrv_status` of the ECG/HRV sensor. */
  datatype HrvStatus = HrvOk | AnomalyDetected | SensorFailure

  /** `input_status` of the steering and pedal inputs. */
  datatype InputStatus = NormalInput | Erratic | ZeroInput

  datatype PhysioData = PhysioData(hrv: real, hrvStatus: HrvStatus)

  datatype VehicleData = VehicleData(steeringRate: real, pedalInput: real, inputStatus: InputStatus)

  /** The nine labels the fusion rule can return. */
  datatype SafetyTier =
    | Tier3Incapacitation | Tier3Microsleep
    | Tier2HighDrowsiness | Tier2ErraticSteering | Tier2Distraction
    | Tier1EarlyFatigue | Tier1PhysioDip
    | Tier0Monotony
    | TierNormal

  /** The level in a label's name: 3 down to 0, and -1 for normal. */
  function Severity(t: SafetyTier): (level: int)
    ensures -1 <= level <= 3
  {
    match t
    case Tier3Incapacitation | Tier3Microsleep => 3
    case Tier2HighDrowsiness | Tier2ErraticSteering | Tier2Distraction => 2
    case Tier1EarlyFatigue | Tier1PhysioDip => 1
    case Tier0Monotony => 0
    case TierNormal => -1
  }

  /** PERCLOS fractions above which the rules fire. */
  const MICROSLEEP_PERCLOS: real := 0.15
  const HIGH_DROWSINESS_PERCLOS: real := 0.12
  const EARLY_FATIGUE_PERCLOS: real := 0.075

  /** Seconds a new tier must wait after the last change. */
  const DEBOUNCE_TIME: real := 2.0

  predicate PhysioAlarm(physio: PhysioData) {
    physio.hrvStatus == SensorFailure || physio.hrvStatus == AnomalyDetected
  }

  predicate MicrosleepConfirmed(vision: VisionPacket, vehicle: VehicleData) {
    vision.perclos > MICROSLEEP_PERCLOS && vehicle.inputStatus == ZeroInput
  }

  /**
   * `run_4_tier_safety_logic`: the first rule that applies decides. Each label
   * is characterised below by exactly the inputs that produce it.
   */
  function RunFourTierSafetyLogic(vision: VisionPacket, physio: PhysioData, vehicle: VehicleData): (t: SafetyTier)
    ensures t == Tier3Incapacitation <==> PhysioAlarm(physio)
    ensures t == Tier3Microsleep <==> !PhysioAlarm(physio) && MicrosleepConfirmed(vision, vehicle)
    ensures t == Tier2HighDrowsiness <==>
      !PhysioAlarm(physio) && !MicrosleepConfirmed(vision, vehicle) && vision.perclos > HIGH_DROWSINESS_PERCLOS
    ensures t == Tier2ErraticSteering <==>
      !PhysioAlarm(physio) && vision.perclos <= HIGH_DROWSINESS_PERCLOS && vehicle.inputStatus == Erratic
    ensures t == Tier2Distraction <==>
      !PhysioAlarm(physio) && vision.perclos <= HIGH_DROWSINESS_PERCLOS && vehicle.inputStatus != Erratic
      && vision.gazeDistraction
    ensures t == Tier1EarlyFatigue <==>
      !PhysioAlarm(physio) && EARLY_FATIGUE_PERCLOS < vision.perclos <= HIGH_DROWSINESS_PERCLOS
      && vehicle.inputStatus != Erratic && !vision.gazeDistraction
    ensures t != Tier1PhysioDip
    ensures t == Tier0Monotony <==>
      !PhysioAlarm(physio) && vision.perclos <= EARLY_FATIGUE_PERCLOS && vehicle.inputStatus != Erratic
      && !vision.gazeDistraction && vision.yawnFreq > 0
    ensures t == TierNormal <==>
      !PhysioAlarm(physio) && vision.perclos <= EARLY_FATIGUE_PERCLOS && vehicle.inputStatus != Erratic
      && !vision.gazeDistraction && vision.yawnFreq <= 0
  {
    if physio.hrvStatus == SensorFailure || physio.hrvStatus == AnomalyDetected then
      Tier3Incapacitation
    else if vision.perclos > MICROSLEEP_PERCLOS && vehicle.inputStatus == ZeroInput then
      Tier3Microsleep
    else if vision.perclos > HIGH_DROWSINESS_PERCLOS then
      Tier2HighDrowsiness
    else if vehicle.inputStatus == Erratic then
      Tier2ErraticSteering
    else if vision.gazeDistraction then
      Tier2Distraction
    else if vision.perclos > EARLY_FATIGUE_PERCLOS then
      Tier1EarlyFatigue
    else if physio.hrvStatus == AnomalyDetected then
      Tier1PhysioDip
    else if vision.yawnFreq > 0 then
      Tier0Monotony
    else
      TierNormal
  }

  /** More eye closure never lowers the severity of the fused tier. */
  lemma PerclosRaisesSeverity(vision: VisionPacket, physio: PhysioData, vehicle: VehicleData, perclos: real)
    requires vision.perclos <= perclos
    ensures Severity(RunFourTierSafetyLogic(vision, physio, vehicle))
         <= Severity(RunFourTierSafetyLogic(vision.(perclos := perclos), physio, vehicle))
  {
  }

  /**
   * A frame without a face (PERCLOS 0, no yawn, looking forward) can only be
   * escalated by the physiological or vehicle readings.
   */
  lemma NoFaceFrameTiers(physio: PhysioData, vehicle: VehicleData)
    ensures var t := RunFourTierSafetyLogic(VisionPacket(0.0, 0, false, Forward), physio, vehicle);
      t in {Tier3Incapacitation, Tier2ErraticSteering, TierNormal}
  {
  }

  // ---------------------------------------------------------------------------
  // Debounce
  // ---------------------------------------------------------------------------

  /** The globals `current_tier` and `last_tier_time`, updated by the receive loop. */
  class SafetyCore {
    var currentTier: SafetyTier
    var lastTierTime: real
    /** The clock reading of the start and of every accepted change, oldest first. */
    ghost var changeTimes: seq<real>

    /** Accepted changes are more than DEBOUNCE_TIME apart; the last one is `lastTierTime`. */
    ghost predicate Valid()
      reads this
    {
      && |changeTimes| > 0
      && changeTimes[|changeTimes| - 1] == lastTierTime
      && forall i :: 0 < i < |changeTimes| ==> changeTimes[i] - changeTimes[i - 1] > DEBOUNCE_TIME
    }

    /** The state at start-up, with the clock reading `start`. */
    constructor (start: real)
      ensures Valid()
      ensures currentTier == TierNormal && lastTierTime == start && changeTimes == [start]
    {
      currentTier := TierNormal;
      lastTierTime := start;
      changeTimes := [start];
    }

    /**
     * Lines 157-159 of the receive loop: adopt `newTier` if it differs from the
     * current tier and more than two seconds have passed since the last change.
     * `changed` says whether the new state was reported.
     */
    method Debounce(newTier: SafetyTier, now: real) returns (changed: bool)
      requires Valid()
      modifies this
      ensures Valid()
      ensures changed <==> newTier != old(currentTier) && now - old(lastTierTime) > DEBOUNCE_TIME
      ensures changed ==>
        currentTier == newTier && lastTierTime == now && changeTimes == old(changeTimes) + [now]
      ensures !changed ==>
        currentTier == old(currentTier) && lastTierTime == old(lastTierTime) && changeTimes == old(changeTimes)
    {
      changed := false;
      if newTier != currentTier && now - lastTierTime > DEBOUNCE_TIME {
        currentTier := newTier;
        lastTierTime := now;
        changeTimes := changeTimes + [now];
        changed := true;
      }
    }

    /** One pass of the receive loop: fuse the readings, then debounce the result. */
    method Step(vision: VisionPacket, physio: PhysioData, vehicle: VehicleData, now: real) returns (changed: bool)
      requires Valid()
      modifies this
      ensures Valid()
      ensures var newTier := RunFourTierSafetyLogic(vision, physio, vehicle);
        && (changed <==> newTier != old(currentTier) && now - old(lastTierTime) > DEBOUNCE_TIME)
        && currentTier == (if changed then newTier else old(currentTier))
        && lastTierTime == (if changed then now else old(lastTierTime))
    {
      var newTier := RunFourTierSafetyLogic(vision, physio, vehicle);
      changed := Debounce(newTier, now);
    }
  }
}
