# CogniShield driver-wellness monitor: a Dafny model of its decision logic

This project models the deterministic decision logic of the CogniShield driver
monitor and proves its properties in Dafny. It has three parts.

- **Scoring and tier engine** of the dashboard (`src/types/monitoring.ts`).
  A metrics record (PERCLOS, yawn rate, heart rate, pedal pressure, and the
  optional HRV, previous heart rate and inactivity time) is scored by seven
  metric families. Each family fires at most one band, adds that band's fixed
  penalty and reports one trigger. The total is clamped to 100 and classified
  into tiers -1..3 (normal, warning, caution, critical, emergency).
- **Safety-core fusion** (`CogniShield_prototype/safety_fusion_core_versal.py`).
  A priority chain turns vision, HRV and vehicle readings into one of nine
  tier labels. A debounce step changes the reported tier only when a different
  label arrives more than 2 s after the last change.
- **Perception-core rules** (`CogniShield_prototype/ai_perception_core_jetson.py`).
  - a 60-frame window of eye-closed flags, whose mean is PERCLOS;
  - the yawn flag;
  - the yaw-then-pitch gaze decision;
  - the per-frame vision packet;
  - the calibration of the eye-aspect-ratio (EAR) threshold.

Files:

- `wrappers.dfy`: `Option`.
- `monitoring.dfy`: metrics, `THRESHOLDS`, bands, the score as a sum of
  per-family contributions, the imperative `CalculateCogniScore`, and
  `GetTierFromCogniScore`.
- `monitoring_properties.dfy`: lemmas about the engine, and the dashboard's
  preset vectors.
- `perception.dfy`: the perception rules and the `PerceptionCore` class, which
  holds `ear_threshold` and `ear_history`.
- `fusion.dfy`: the fusion rule and the `SafetyCore` class, which holds
  `current_tier` and `last_tier_time`.

Numbers are mathematical reals. Triggers are tags, not text. The two messages
that quote a reading keep it: the heart-rate drop and the inactivity time.

Where the prose description and the code differ, the model follows the code:

- The mild yawn band fires from 1 yawn/min (`THRESHOLDS.yawnRate.mild`), not
  from 0.5. The trigger texts' ranges also disagree with the table; they are
  not modelled.
- The dashboard's "tier 0" preset scores 5, which is tier -1. PERCLOS 25 is the
  "elevated" band (+5), and neither yawn rate 0.7 nor pedal pressure 78 fires.
  The "tier 2" preset scores 80, which is tier 3. `PresetTiers` states both.

## Model

| member | source | states |
|---|---|---|
| Monitoring.PerclosBand | src/types/monitoring.ts:101-116 | the PERCLOS family fires exactly when perclos >= 20; its penalty is in (0, 35] and its trigger belongs to family 0 |
| Monitoring.YawnBand | src/types/monitoring.ts:118-130 | the yawn family fires exactly when yawnRate >= 1 (the `mild` breakpoint); penalty in (0, 32] |
| Monitoring.PedalBand | src/types/monitoring.ts:132-144 | the pedal family fires exactly when pedalPressure <= 70; penalty in (0, 30] |
| Monitoring.HeartRateBand | src/types/monitoring.ts:146-155 | the absolute heart-rate family fires exactly when heartRate <= 60; penalty in (0, 28] |
| Monitoring.DropBand | src/types/monitoring.ts:157-161 | a drop of more than 20 bpm adds exactly 35 and reports the drop amount; otherwise nothing |
| Monitoring.HrvBand | src/types/monitoring.ts:163-175 | the HRV family fires exactly when hrv <= 8; penalty in (0, 32] |
| Monitoring.InactivityBand | src/types/monitoring.ts:177-180 | more than 10 s of inactivity adds exactly 30 and reports the time; otherwise nothing |
| Monitoring.CogniScore | src/types/monitoring.ts:182 | the score is in [0, 100]; it equals the raw sum when that is at most 100, and is 100 otherwise |
| Monitoring.CalculateCogniScore | src/types/monitoring.ts:93-183 | the accumulator code returns exactly the clamped sum of the seven family contributions and their triggers in family order; the score is in [0, 100] |
| Monitoring.ScorePerclos | src/types/monitoring.ts:101-116 | the PERCLOS if-chain adds that family's penalty to the running score and appends its trigger, if any |
| Monitoring.ScoreYawnRate | src/types/monitoring.ts:118-130 | the yawn if-chain adds that family's penalty and appends its trigger |
| Monitoring.ScorePedalPressure | src/types/monitoring.ts:132-144 | the pedal if-chain adds that family's penalty and appends its trigger |
| Monitoring.ScoreHeartRate | src/types/monitoring.ts:146-155 | the heart-rate if-chain adds that family's penalty and appends its trigger |
| Monitoring.ScoreHeartRateDrop | src/types/monitoring.ts:157-161 | the drop rule adds its penalty and appends its trigger, independently of the absolute band |
| Monitoring.ScoreHrv | src/types/monitoring.ts:163-175 | the HRV if-chain adds that family's penalty and appends its trigger |
| Monitoring.ScoreInactivity | src/types/monitoring.ts:177-180 | the inactivity rule adds its penalty and appends its trigger |
| Monitoring.GetTierFromCogniScore | src/types/monitoring.ts:185-227 | tiers partition the reals with closed lower bounds 70/50/30/15 (both directions of each band); cogniScore is the input; level and tier correspond one-to-one; the actions are fixed per level; tier -1 has no triggers and only "System Active"; every other tier passes its triggers through unchanged |
| MonitoringProperties.TriggersInFamilyOrder | src/types/monitoring.ts:101-180 | the trigger list has at most one entry per family, in the order PERCLOS, yawn, pedal, heart rate, drop, HRV, inactivity, so at most 7 entries |
| MonitoringProperties.ZeroScoreIffNoTriggers | src/types/monitoring.ts:101-180 | the raw score is non-negative, and it is zero exactly when no trigger is reported |
| MonitoringProperties.MissingFieldsContributeNothing | src/types/monitoring.ts:97-99 | a missing hrv, previousHeartRate or inactivityTime makes its family contribute nothing |
| MonitoringProperties.SuddenDropAddsExactly35 | src/types/monitoring.ts:146-161 | a drop of more than 20 bpm adds exactly 35 to the raw score and reports the drop, with the absolute heart-rate band unchanged |
| MonitoringProperties.PerclosMonotone | src/types/monitoring.ts:101-116 | raising perclos never lowers the score |
| MonitoringProperties.YawnRateMonotone | src/types/monitoring.ts:118-130 | raising yawnRate never lowers the score |
| MonitoringProperties.PedalPressureAntitone | src/types/monitoring.ts:132-144 | raising pedalPressure never raises the score |
| MonitoringProperties.HeartRateAntitone | src/types/monitoring.ts:146-161 | raising heartRate never raises the score, through either the absolute band or the drop |
| MonitoringProperties.HrvAntitone | src/types/monitoring.ts:163-175 | raising hrv (a missing one counts as 10) never raises the score |
| MonitoringProperties.InactivityMonotone | src/types/monitoring.ts:177-180 | raising inactivityTime (a missing one counts as 0) never lowers the score |
| MonitoringProperties.TierCountsBoundaries | src/types/monitoring.ts:185-227 | the tier equals the number of boundaries in [15, 30, 50, 70] the score reaches, minus one |
| MonitoringProperties.TierMonotone | src/types/monitoring.ts:185-227 | a higher score never gives a lower tier |
| MonitoringProperties.Evaluate | src/App.tsx:21-22 | the dashboard's evaluation reports a cogniScore in [0, 100] |
| MonitoringProperties.AlertsCarryReasons | src/types/monitoring.ts:185-227 | an evaluated tier is -1 exactly when its trigger list is empty |
| MonitoringProperties.SimulatedMetrics | src/App.tsx:75-127 | `simulateTier` installs a vector exactly for the tiers -1..3 |
| MonitoringProperties.BaselineIsNormal | src/App.tsx:8-16 | the baseline vector scores 0, has no triggers and is tier -1 / normal with "System Active" |
| MonitoringProperties.EmergencyPresetClamps | src/App.tsx:116-125 | the emergency preset sums to 210 and reports exactly 100; it is tier 3 with "Auto Pull Over" and "SOS Call", and all seven families are reported in order |
| MonitoringProperties.PresetTiers | src/App.tsx:75-127 | the presets score as they do: "tier 0" scores 5, which is tier -1; "tier 1" scores 33, tier 1; "tier 2" scores 80, tier 3; "tier 3" is tier 3 |
| Perception.GazeDirection | CogniShield_prototype/ai_perception_core_jetson.py:88-97 | yaw is checked first: yaw > 15 gives Right and yaw < -15 gives Left; otherwise pitch > 10 gives Down and pitch < -10 gives Up; otherwise Forward (each in both directions) |
| Perception.YawnFlag | CogniShield_prototype/ai_perception_core_jetson.py:230-231 | yawn_freq is 0 or 1, and it is 1 exactly when mar > 0.35 |
| Perception.ClosedFlag | CogniShield_prototype/ai_perception_core_jetson.py:220 | the appended flag is 0 or 1, and it is 1 exactly when ear < ear_threshold |
| Perception.ClosedCount | CogniShield_prototype/ai_perception_core_jetson.py:225 | the number of closed frames in a 0/1 window is between 0 and the window length |
| Perception.WindowMean | CogniShield_prototype/ai_perception_core_jetson.py:225 | PERCLOS, the mean of a non-empty 0/1 window, lies in [0, 1] |
| Perception.Slide | CogniShield_prototype/ai_perception_core_jetson.py:219-223 | one update appends the new flag and keeps the window at most 60 long; on overflow the oldest entry goes and the rest keep their order |
| Perception.Feed | CogniShield_prototype/ai_perception_core_jetson.py:219-223 | a window fed any number of flags stays at most 60 long |
| Perception.FeedKeepsLatest | CogniShield_prototype/ai_perception_core_jetson.py:219-223 | after any run of frames the window is exactly the latest 60 flags, in arrival order |
| Perception.MeanBetween | CogniShield_prototype/ai_perception_core_jetson.py:143 | the mean of samples lies within any bounds of the samples |
| Perception.DetectedEars | CogniShield_prototype/ai_perception_core_jetson.py:115-133 | calibration collects at most one EAR sample per frame |
| Perception.CalibrationBounds | CogniShield_prototype/ai_perception_core_jetson.py:140-147 | with no samples the threshold is unchanged; otherwise it is 0.7 times the mean, within 0.7 times the samples' bounds |
| Perception.PerceptionCore.constructor | CogniShield_prototype/ai_perception_core_jetson.py:26-27 | the threshold starts at 0.2 and the window starts empty |
| Perception.PerceptionCore.CalibrateEar | CogniShield_prototype/ai_perception_core_jetson.py:105-147 | the calibration loop sets ear_threshold to 0.7 × the mean of the face frames' EARs when there is at least one, and otherwise leaves it unchanged |
| Perception.PerceptionCore.UpdatePerclos | CogniShield_prototype/ai_perception_core_jetson.py:219-225 | the window becomes the slid window with the new flag last, and the returned PERCLOS is its mean |
| Perception.PerceptionCore.ProcessFrame | CogniShield_prototype/ai_perception_core_jetson.py:203-259 | with no face, the window is unchanged and the packet is (0.0, 0, false, Forward); with a face, the window slides and the packet carries the window mean, the yawn flag and the gaze; a failed pose solve gives Forward and no gaze distraction; perclos is in [0, 1]; gaze_distraction is exactly gaze != Forward |
| SafetyFusion.RunFourTierSafetyLogic | CogniShield_prototype/safety_fusion_core_versal.py:63-118 | each label holds exactly under its condition in the priority order: an HRV FAILURE or ANOMALY_DETECTED status gives TIER_3_INCAPACITATION whatever else; TIER_1_PHYSIO_DIP never results; TIER_NORMAL holds exactly when no rule applies |
| SafetyFusion.PerclosRaisesSeverity | CogniShield_prototype/safety_fusion_core_versal.py:76-118 | raising PERCLOS never lowers the severity level of the fused tier |
| SafetyFusion.NoFaceFrameTiers | CogniShield_prototype/safety_fusion_core_versal.py:63-118 | a no-face packet can only give incapacitation, erratic steering or normal |
| SafetyFusion.SafetyCore.constructor | CogniShield_prototype/safety_fusion_core_versal.py:13-15 | the core starts at TIER_NORMAL with the start-up clock reading |
| SafetyFusion.SafetyCore.Debounce | CogniShield_prototype/safety_fusion_core_versal.py:157-159 | the tier changes only when the new tier differs and more than 2.0 s have passed; on a change both fields update; otherwise neither changes; accepted changes stay more than 2 s apart |
| SafetyFusion.SafetyCore.Step | CogniShield_prototype/safety_fusion_core_versal.py:154-159 | one loop pass debounces the fused tier of its readings |

## Left out

- Trigger and action text rendering: triggers are tags, and the numbers in the drop and inactivity messages are kept as values.
- JavaScript and Python floating point, NaN and IEEE rounding: numbers are mathematical reals.
- The React presentation (`App`, `MetricsPanel`, `CogniScoreDisplay`, `SteeringWheel`), `getStatusColor` and `getHapticLevel`: display-only mappings.
- The acknowledgement countdown in `AlertModal`: it is driven by timers and UI effects, and its timeout handler does nothing.
- Camera capture, MediaPipe landmarks, OpenCV pose solving and the EAR/MAR geometry (`calculate_ear`, `calculate_mouth_ar`, the body of `get_head_gaze` before its if-chain): foreign calls. Their results arrive as `FaceReading` and `EyePair`, and a failed pose solve is `None`.
- The overlays drawn on frames, the nose projection returned by `get_head_gaze`, and the frame rate: display only.
- Sockets, JSON encoding and decoding, and printing in both `main` functions. A malformed packet and a missing key in the safety core are not modelled.
- `simulate_physiological_data` and `simulate_vehicle_dynamics`: random sensor simulators. Their readings are parameters. Statuses are the three values each simulator produces.
- `time.time()`: the clock is a parameter.
- SafetyFusion.SafetyCore.Debounce: the comparison (line 157) and the new `last_tier_time` (line 159) come from two separate clock reads. The model uses one reading `now` for both.
- Perception.PerceptionCore.CalibrateEar: the loop's fixed count of 150 camera reads is the length of `frames`. A failed read and a frame without a face are both `None`.
