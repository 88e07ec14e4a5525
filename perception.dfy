/**
 * The perception core's decision rules (CogniShield_prototype/ai_perception_core_jetson.py):
 * the PERCLOS window of eye-closed flags, the yawn flag, the gaze decision from
 * head pose, the per-frame vision packet, and the calibration of the eye
 * aspect ratio (EAR) threshold. The geometry that produces EAR, mouth aspect
 * ratio (MAR) and head angles from camera landmarks arrives as readings.
 */
module Perception {
  import opened Wrappers

  /** Frames averaged for PERCLOS (2 seconds at 30 frames per second). */
  const PERCLOS_WINDOW_SIZE: nat := 60
  /** A mouth aspect ratio above this counts as a yawn. */
  const YAWN_MOUTH_AR_THRESH: real := 0.35
  /** The EAR threshold before calibration. */
  const DEFAULT_EAR_THRESHOLD: real := 0.2
  /** Calibration sets the threshold to this fraction of the mean open-eye EAR. */
  const CALIBRATION_FACTOR: real := 0.7
  /** Head angles, in degrees, beyond which the driver is looking away. */
  const YAW_LIMIT: real := 15.0
  const PITCH_LIMIT: real := 10.0

  // ---------------------------------------------------------------------------
  // Readings and the packet sent to the safety core
  // ---------------------------------------------------------------------------

  datatype Gaze = Forward | Right | Left | Down | Up

  /** Euler angles of the head, as pose solving reports them. */
  datatype HeadPose = HeadPose(pitch: real, yaw: real)

  /** The eye aspect ratios of one frame. */
  datatype EyePair = EyePair(left: real, right: real)

  /**
   * What landmark geometry yields for a frame with a face: both EARs, the MAR,
   * and the head pose, or None when pose solving raised.
   */
  datatype FaceReading = FaceReading(eyes: EyePair, mar: real, pose: Option<HeadPose>)

  /** The vision packet: `perclos`, `yawn_freq`, `gaze_distraction`, `head_pose`. */
  datatype VisionPacket = VisionPacket(perclos: real, yawnFreq: int, gazeDistraction: bool, headPose: Gaze)

  function AverageEar(eyes: EyePair): real {
    (eyes.left + eyes.right) / 2.0
  }

  // ---------------------------------------------------------------------------
  // Per-frame decisions
  // ---------------------------------------------------------------------------

  /** The gaze decision of `get_head_gaze`: yaw first, then pitch. */
  function GazeDirection(pose: HeadPose): (g: Gaze)
    ensures g == Right <==> pose.yaw > YAW_LIMIT
    ensures g == Left <==> pose.yaw < -YAW_LIMIT
    ensures g == Down <==> -YAW_LIMIT <= pose.yaw <= YAW_LIMIT && pose.pitch > PITCH_LIMIT
    ensures g == Up <==> -YAW_LIMIT <= pose.yaw <= YAW_LIMIT && pose.pitch < -PITCH_LIMIT
    ensures g == Forward <==>
      -YAW_LIMIT <= pose.yaw <= YAW_LIMIT && -PITCH_LIMIT <= pose.pitch <= PITCH_LIMIT
  {
    if pose.yaw > YAW_LIMIT then Right
    else if pose.yaw < -YAW_LIMIT then Left
    else if pose.pitch > PITCH_LIMIT then Down
    else if pose.pitch < -PITCH_LIMIT then Up
    else Forward
  }

  /** A failed pose solve reports Forward. */
  function HeadGaze(pose: Option<HeadPose>): Gaze {
    match pose
    case None => Forward
    case Some(p) => GazeDirection(p)
  }

  /** `yawn_freq`: 1 for a yawning frame, else 0. */
  function YawnFlag(mar: real): (flag: int)
    ensures flag == 0 || flag == 1
    ensures flag == 1 <==> mar > YAWN_MOUTH_AR_THRESH
  {
    if mar > YAWN_MOUTH_AR_THRESH then 1 else 0
  }

  /** `is_closed`: 1 when the EAR is below the threshold, else 0. */
  function ClosedFlag(ear: real, threshold: real): (flag: int)
    ensures flag == 0 || flag == 1
    ensures flag == 1 <==> ear < threshold
  {
    if ear < threshold then 1 else 0
  }

  // ---------------------------------------------------------------------------
  // The PERCLOS window
  // ---------------------------------------------------------------------------

  ghost predicate IsFlags(s: seq<int>) {
    forall i :: 0 <= i < |s| ==> s[i] == 0 || s[i] == 1
  }

  /** The number of closed-eye frames in a window. */
  function ClosedCount(s: seq<int>): (n: int)
    requires IsFlags(s)
    ensures 0 <= n <= |s|
  {
    if s == [] then 0 else s[0] + ClosedCount(s[1..])
  }

  /** PERCLOS: the mean of a non-empty window of 0/1 flags, a fraction in [0, 1]. */
  function WindowMean(window: seq<int>): (p: real)
    requires IsFlags(window) && |window| > 0
    ensures 0.0 <= p <= 1.0
  {
    (ClosedCount(window) as real) / (|window| as real)
  }

  /** One window update: append the newest flag, then drop the oldest if over capacity. */
  function Slide(window: seq<int>, flag: int): (w: seq<int>)
    requires |window| <= PERCLOS_WINDOW_SIZE
    ensures |w| == if |window| < PERCLOS_WINDOW_SIZE then |window| + 1 else PERCLOS_WINDOW_SIZE
    ensures w == (window + [flag])[|window| + 1 - |w|..]
  {
    var grown := window + [flag];
    if |grown| > PERCLOS_WINDOW_SIZE then grown[1..] else grown
  }

  /** The last `PERCLOS_WINDOW_SIZE` entries of `s` (all of them when there are fewer). */
  function Latest(s: seq<int>): (w: seq<int>)
    ensures |w| <= PERCLOS_WINDOW_SIZE
  {
    if |s| <= PERCLOS_WINDOW_SIZE then s else s[|s| - PERCLOS_WINDOW_SIZE..]
  }

  /** The window after a run of frames with a face, oldest flag first. */
  function Feed(window: seq<int>, flags: seq<int>): (w: seq<int>)
    requires |window| <= PERCLOS_WINDOW_SIZE
    ensures |w| <= PERCLOS_WINDOW_SIZE
  {
    if flags == [] then window
    else Slide(Feed(window, flags[..|flags| - 1]), flags[|flags| - 1])
  }

  lemma SlideLatest(s: seq<int>, flag: int)
    ensures Slide(Latest(s), flag) == Latest(s + [flag])
  {
  }

  /**
   * However many frames pass, the window holds exactly the latest 60 flags
   * (counting the ones it started with), in arrival order.
   */
  lemma {:induction false} FeedKeepsLatest(window: seq<int>, flags: seq<int>)
    requires |window| <= PERCLOS_WINDOW_SIZE
    ensures Feed(window, flags) == Latest(window + flags)
    decreases |flags|
  {
    if flags == [] {
      assert window + flags == window;
    } else {
      var front, last := flags[..|flags| - 1], flags[|flags| - 1];
      FeedKeepsLatest(window, front);
      SlideLatest(window + front, last);
      assert window + front + [last] == window + flags;
    }
  }

  // ---------------------------------------------------------------------------
  // Calibration samples
  // ---------------------------------------------------------------------------

  function Sum(s: seq<real>): real {
    if s == [] then 0.0 else s[0] + Sum(s[1..])
  }

  /** `np.mean` of a non-empty list of samples. */
  function Mean(s: seq<real>): real
    requires |s| > 0
  {
    Sum(s) / (|s| as real)
  }

  lemma {:induction false} SumBetween(s: seq<real>, lo: real, hi: real)
    requires forall i :: 0 <= i < |s| ==> lo <= s[i] <= hi
    ensures lo * (|s| as real) <= Sum(s) <= hi * (|s| as real)
  {
    if s != [] {
      SumBetween(s[1..], lo, hi);
    }
  }

  /** The mean of samples lies between their lower and upper bounds. */
  lemma MeanBetween(s: seq<real>, lo: real, hi: real)
    requires |s| > 0
    requires forall i :: 0 <= i < |s| ==> lo <= s[i] <= hi
    ensures lo <= Mean(s) <= hi
  {
    SumBetween(s, lo, hi);
    var n := |s| as real;
    assert Mean(s) * n == Sum(s);
  }

  /** The EAR of every frame in which a face was found, in frame order. */
  function DetectedEars(frames: seq<Option<EyePair>>): (ears: seq<real>)
    ensures |ears| <= |frames|
  {
    if frames == [] then []
    else
      DetectedEars(frames[..|frames| - 1])
        + match frames[|frames| - 1] case None => [] case Some(e) => [AverageEar(e)]
  }

  /** The threshold calibration leaves behind, from the one it started with. */
  function CalibratedThreshold(frames: seq<Option<EyePair>>, threshold: real): real {
    var samples := DetectedEars(frames);
    if |samples| > 0 then Mean(samples) * CALIBRATION_FACTOR else threshold
  }

  /**
   * With no face seen during calibration the threshold stays; otherwise, when
   * every open-eye EAR lies in [lo, hi], the threshold lies in [0.7 lo, 0.7 hi].
   */
  lemma CalibrationBounds(frames: seq<Option<EyePair>>, threshold: real, lo: real, hi: real)
    requires forall e :: Some(e) in frames ==> lo <= AverageEar(e) <= hi
    ensures DetectedEars(frames) == [] ==> CalibratedThreshold(frames, threshold) == threshold
    ensures DetectedEars(frames) != [] ==>
      CALIBRATION_FACTOR * lo <= CalibratedThreshold(frames, threshold) <= CALIBRATION_FACTOR * hi
  {
    var samples := DetectedEars(frames);
    if samples != [] {
      DetectedEarsFrom(frames, lo, hi);
      MeanBetween(samples, lo, hi);
    }
  }

  lemma {:induction false} DetectedEarsFrom(frames: seq<Option<EyePair>>, lo: real, hi: real)
    requires forall e :: Some(e) in frames ==> lo <= AverageEar(e) <= hi
    ensures forall i :: 0 <= i < |DetectedEars(frames)| ==> lo <= DetectedEars(frames)[i] <= hi
    decreases |frames|
  {
    if frames != [] {
      var front := frames[..|frames| - 1];
      forall e | Some(e) in front ensures lo <= AverageEar(e) <= hi {
        assert Some(e) in frames;
      }
      DetectedEarsFrom(front, lo, hi);
    }
  }

  // ---------------------------------------------------------------------------
  // The core's state: the EAR threshold and the window
  // ---------------------------------------------------------------------------

  /** The globals `ear_threshold` and `ear_history` and the code that updates them. */
  class PerceptionCore {
    var earThreshold: real
    var earHistory: seq<int>

    ghost predicate Valid()
      reads this
    {
      IsFlags(earHistory) && |earHistory| <= PERCLOS_WINDOW_SIZE
    }

    constructor ()
      ensures Valid()
      ensures earThreshold == DEFAULT_EAR_THRESHOLD && earHistory == []
    {
      earThreshold := DEFAULT_EAR_THRESHOLD;
      earHistory := [];
    }

    /**
     * `calibrate_ear`: collect the EAR of each calibration frame that shows a
     * face (None stands for a failed read or no face), then set the threshold
     * to 70% of their mean if there is at least one.
     */
    method CalibrateEar(frames: seq<Option<EyePair>>)
      requires Valid()
      modifies this`earThreshold
      ensures Valid()
      ensures earThreshold == CalibratedThreshold(frames, old(earThreshold))
    {
      var earSamples: seq<real> := [];
      for i := 0 to |frames|
        invariant earSamples == DetectedEars(frames[..i])
      {
        assert frames[..i + 1][..i] == frames[..i];
        if frames[i].Some? {
          var ear := AverageEar(frames[i].value);
          earSamples := earSamples + [ear];
        }
      }
      assert frames[..|frames|] == frames;
      if |earSamples| > 0 {
        var avgEar := Mean(earSamples);
        earThreshold := avgEar * CALIBRATION_FACTOR;
      }
    }

    /** The PERCLOS step for a frame with a face: update the window and return its mean. */
    method UpdatePerclos(ear: real) returns (perclos: real)
      requires Valid()
      modifies this`earHistory
      ensures Valid()
      ensures earHistory == Slide(old(earHistory), ClosedFlag(ear, earThreshold))
      ensures earHistory[|earHistory| - 1] == ClosedFlag(ear, earThreshold)
      ensures perclos == WindowMean(earHistory)
    {
      var isClosed := if ear < earThreshold then 1 else 0;
      earHistory := earHistory + [isClosed];
      if |earHistory| > PERCLOS_WINDOW_SIZE {
        earHistory := earHistory[1..];
      }
      perclos := WindowMean(earHistory);
    }

    /**
     * One pass of the capture loop, from the readings to the packet. Without a
     * face the window is untouched and the packet reports nothing.
     */
    method ProcessFrame(face: Option<FaceReading>) returns (packet: VisionPacket)
      requires Valid()
      modifies this`earHistory
      ensures Valid()
      ensures face.None? ==>
        earHistory == old(earHistory) && packet == VisionPacket(0.0, 0, false, Forward)
      ensures face.Some? ==>
        && earHistory == Slide(old(earHistory), ClosedFlag(AverageEar(face.value.eyes), earThreshold))
        && packet.perclos == WindowMean(earHistory)
        && packet.yawnFreq == YawnFlag(face.value.mar)
        && packet.headPose == HeadGaze(face.value.pose)
      ensures face.Some? && face.value.pose.None? ==> packet.headPose == Forward && !packet.gazeDistraction
      ensures 0.0 <= packet.perclos <= 1.0
      ensures packet.gazeDistraction <==> packet.headPose != Forward
    {
      var perclos := 0.0;
      var yawnFreq := 0;
      var gaze := Forward;
      if face.Some? {
        var f := face.value;
        var ear := AverageEar(f.eyes);
        perclos := UpdatePerclos(ear);
        if f.mar > YAWN_MOUTH_AR_THRESH {
          yawnFreq := 1;
        }
        gaze := HeadGaze(f.pose);
      }
      packet := VisionPacket(perclos, yawnFreq, gaze != Forward, gaze);
    }
  }
}
