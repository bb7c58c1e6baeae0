/**
 * The squat repetition phase machine that `analyze_squat` runs once per video
 * frame (backend/server.py, and the same code in models/posture/ven2.py).
 *
 * Each frame either has no pose landmarks or yields a `Pose`: the left
 * shoulder's vertical pixel coordinate and the left knee angle in degrees.
 * The knee angle is an input here; how it is computed from the hip, knee and
 * ankle points is not part of this model.
 *
 * The pure function `Next` is the meaning of one frame; the class
 * `SquatTracker` holds the loop's mutable locals and its `Step` is proved to
 * perform exactly `Next`.
 */
module SquatPhase {
  import opened Wrappers

  /** The `SquatPhase` enum; `Ordinal` is the enum's value. */
  datatype Phase = Start | Descent | Bottom | Ascent | End {
    function Ordinal(): nat {
      match this
      case Start => 1
      case Descent => 2
      case Bottom => 3
      case Ascent => 4
      case End => 5
    }
  }

  /** An OpenCV colour, in (blue, green, red) order. */
  datatype Color = Color(blue: int, green: int, red: int)

  const Green := Color(0, 255, 0)
  const Red := Color(0, 0, 255)

  const GoodDepth := "Good squat depth!"
  const ShallowDepth := "Squat depth insufficient!"

  /**
   * The shoulder y must exceed 105% of the top position to start the descent
   * (image y grows downward, so the shoulder is then lower in the frame).
   */
  const BaselinePercent := 105
  /** A knee angle below this is deep enough. */
  const DepthAngle := 95.0
  /** A knee angle above this leaves the bottom. */
  const RiseAngle := 90.0
  /** A knee angle above this is standing again. */
  const StandAngle := 170.0

  /** What a frame with landmarks contributes: left shoulder y (pixels) and left knee angle (degrees). */
  datatype Pose = Pose(shoulderY: int, kneeAngle: real)

  /**
   * The loop's state: `currSquatPhase`, `topSquatPosition`,
   * `bottomSquatPosition`, `lowestKneeAngle`, `phase_frames`, `knee_angles`,
   * `feedback`, `skeletal_color` and `frame_count`.
   */
  datatype Tracker = Tracker(
    phase: Phase,
    top: Option<int>,
    bottom: Option<int>,
    lowestKneeAngle: Option<real>,
    phaseFrames: seq<nat>,
    kneeAngles: seq<real>,
    feedback: string,
    color: Color,
    frameCount: nat)

  function Last(s: seq<nat>): nat
    requires s != []
  {
    s[|s| - 1]
  }

  /** After the depth check: either depth was reached, or the timeout fired. */
  ghost predicate Verdict(s: Tracker) {
    || (s.bottom.Some? && s.feedback == GoodDepth && s.color == Green)
    || (s.bottom.None? && s.feedback == ShallowDepth && s.color == Red)
  }

  /**
   * How many entries `phase_frames` holds in a given state: the initial 0,
   * one for the baseline, and one per phase entered, except that a BOTTOM
   * entered by timeout is not logged.
   */
  function LoggedFrames(s: Tracker): nat {
    (if s.top.Some? then 1 else 0) + s.phase.Ordinal()
    - (if s.phase.Ordinal() >= Bottom.Ordinal() && s.bottom.None? then 1 else 0)
  }

  /** Transition indices are logged in frame order, and none lies ahead of the frame counter. */
  ghost predicate Logged(pf: seq<nat>, frameCount: nat) {
    && |pf| >= 1 && pf[0] == 0
    && (forall i, j :: 0 <= i < j < |pf| ==> pf[i] <= pf[j])
    && (forall i :: 0 <= i < |pf| ==> pf[i] <= frameCount)
  }

  /** What holds between the transition checks of one frame, as well as between frames. */
  ghost predicate Core(s: Tracker) {
    && Logged(s.phaseFrames, s.frameCount)
    && |s.phaseFrames| == LoggedFrames(s)
    && (s.top.None? ==> s.phase == Start)
    && (s.bottom.Some? <==> s.lowestKneeAngle.Some?)
    && (s.lowestKneeAngle.Some? ==> s.lowestKneeAngle.value < DepthAngle)
    && (s.phase.Ordinal() <= Descent.Ordinal() ==> s.bottom.None? && s.feedback == "" && s.color == Green)
    && (s.phase.Ordinal() >= Bottom.Ordinal() ==> Verdict(s))
  }

  /** What holds of the loop's state after any number of frames. */
  ghost predicate Inv(s: Tracker) {
    && Core(s)
    && |s.kneeAngles| <= s.frameCount
    && (s.top.None? <==> s.kneeAngles == [])
  }

  /** The state before the first frame. */
  function Initial(): (s: Tracker)
    ensures Inv(s) && s.phase == Start && s.phaseFrames == [0] && s.kneeAngles == []
  {
    Tracker(Start, None, None, None, [0], [], "", Green, 0)
  }

  /**
   * What every transition check keeps: it neither counts frames nor records
   * angles, only appends to the log, never moves back a phase, leaves END
   * alone and keeps a captured top position.
   */
  ghost predicate Advances(s: Tracker, r: Tracker) {
    && r.frameCount == s.frameCount && r.kneeAngles == s.kneeAngles
    && s.phaseFrames <= r.phaseFrames
    && s.phase.Ordinal() <= r.phase.Ordinal()
    && (s.phase == End ==> r.phase == End)
    && (s.top.Some? ==> r.top == s.top)
  }

  /** The first frame with landmarks fixes the top position and logs its index. */
  function CaptureBaseline(s: Tracker, p: Pose): (r: Tracker)
    ensures Advances(s, r) && r.top.Some?
    ensures s.top.None? ==> r.top == Some(p.shoulderY) && r.phaseFrames == s.phaseFrames + [s.frameCount]
  {
    if s.top.None? then s.(top := Some(p.shoulderY), phaseFrames := s.phaseFrames + [s.frameCount])
    else s
  }

  /** START to DESCENT once the shoulder y exceeds 1.05 times the top position. */
  function StartDescent(s: Tracker, p: Pose): (r: Tracker)
    requires s.top.Some?
    ensures Advances(s, r)
  {
    if s.phase == Start && 100 * p.shoulderY > BaselinePercent * s.top.value then
      s.(phase := Descent, phaseFrames := s.phaseFrames + [s.frameCount])
    else s
  }

  /** DESCENT to BOTTOM, either with enough depth or after more than `frameRate` frames. */
  function CheckDepth(s: Tracker, p: Pose, frameRate: real): (r: Tracker)
    requires s.phaseFrames != []
    ensures Advances(s, r)
  {
    if s.phase != Descent then s
    else if p.kneeAngle < DepthAngle && s.bottom.None? then
      s.(phase := Bottom, phaseFrames := s.phaseFrames + [s.frameCount],
         bottom := Some(p.shoulderY), lowestKneeAngle := Some(p.kneeAngle),
         feedback := GoodDepth, color := Green)
    else if (s.frameCount - Last(s.phaseFrames)) as real > frameRate then
      s.(feedback := ShallowDepth, color := Red, phase := Bottom)
    else s
  }

  /** BOTTOM to ASCENT once the knee opens past 90 degrees. */
  function StartAscent(s: Tracker, p: Pose): (r: Tracker)
    ensures Advances(s, r)
  {
    if s.phase == Bottom && p.kneeAngle > RiseAngle then
      s.(phase := Ascent, phaseFrames := s.phaseFrames + [s.frameCount])
    else s
  }

  /** ASCENT to END once the knee opens past 170 degrees. */
  function Finish(s: Tracker, p: Pose): (r: Tracker)
    ensures Advances(s, r)
  {
    if s.phase == Ascent && p.kneeAngle > StandAngle then
      s.(phase := End, phaseFrames := s.phaseFrames + [s.frameCount])
    else s
  }

  /**
   * One frame of the loop. The transition checks run one after another on the
   * same frame, so one frame may pass through several phases.
   */
  function Next(s: Tracker, frame: Option<Pose>, frameRate: real): (r: Tracker)
    requires s.phaseFrames != []
    ensures r.frameCount == s.frameCount + 1
    ensures s.phaseFrames <= r.phaseFrames
    ensures s.phase.Ordinal() <= r.phase.Ordinal()
    ensures s.phase == End ==> r.phase == End
    ensures s.top.Some? ==> r.top == s.top
    ensures frame.Some? && s.top.None? ==>
      r.top == Some(frame.value.shoulderY) && s.phaseFrames + [s.frameCount] <= r.phaseFrames
    ensures frame.None? ==> r == s.(frameCount := s.frameCount + 1)
    ensures frame.Some? ==> r.kneeAngles == s.kneeAngles + [frame.value.kneeAngle]
  {
    match frame
    case None => s.(frameCount := s.frameCount + 1)
    case Some(p) =>
      var s1 := CaptureBaseline(s, p);
      var s2 := StartDescent(s1, p);
      var s3 := CheckDepth(s2, p, frameRate);
      var s4 := Finish(StartAscent(s3, p), p);
      s4.(kneeAngles := s4.kneeAngles + [p.kneeAngle], frameCount := s4.frameCount + 1)
  }

  /** The state after feeding `frames`, in order, to `Next`. */
  function Run(s: Tracker, frames: seq<Option<Pose>>, frameRate: real): (r: Tracker)
    requires s.phaseFrames != []
    ensures r.frameCount == s.frameCount + |frames|
    ensures s.phaseFrames <= r.phaseFrames
    ensures s.phase.Ordinal() <= r.phase.Ordinal()
    ensures s.top.Some? ==> r.top == s.top
    decreases |frames|
  {
    if frames == [] then s
    else Next(Run(s, frames[..|frames| - 1], frameRate), frames[|frames| - 1], frameRate)
  }

  /** The knee angles of the frames that have landmarks, in order. */
  function LandmarkAngles(frames: seq<Option<Pose>>): seq<real> {
    if frames == [] then []
    else
      var rest := LandmarkAngles(frames[1..]);
      if frames[0].Some? then [frames[0].value.kneeAngle] + rest else rest
  }

  // ---------------------------------------------------------------------------
  // The invariant

  lemma LogFrame(pf: seq<nat>, frameCount: nat)
    requires Logged(pf, frameCount)
    ensures Logged(pf + [frameCount], frameCount)
    ensures Logged(pf, frameCount + 1)
  {
  }

  lemma CaptureBaselineKeepsCore(s: Tracker, p: Pose)
    requires Core(s)
    ensures Core(CaptureBaseline(s, p))
  {
    LogFrame(s.phaseFrames, s.frameCount);
  }

  lemma StartDescentKeepsCore(s: Tracker, p: Pose)
    requires Core(s) && s.top.Some?
    ensures Core(StartDescent(s, p))
  {
    LogFrame(s.phaseFrames, s.frameCount);
  }

  lemma CheckDepthKeepsCore(s: Tracker, p: Pose, frameRate: real)
    requires Core(s)
    ensures Core(CheckDepth(s, p, frameRate))
  {
    LogFrame(s.phaseFrames, s.frameCount);
  }

  lemma StartAscentKeepsCore(s: Tracker, p: Pose)
    requires Core(s)
    ensures Core(StartAscent(s, p))
  {
    LogFrame(s.phaseFrames, s.frameCount);
  }

  lemma FinishKeepsCore(s: Tracker, p: Pose)
    requires Core(s)
    ensures Core(Finish(s, p))
  {
    LogFrame(s.phaseFrames, s.frameCount);
  }

  /** The five transition checks of one frame, run in order, keep `Core`. */
  lemma ChecksKeepCore(s: Tracker, p: Pose, frameRate: real)
    requires Core(s)
    ensures var s1 := CaptureBaseline(s, p);
      Core(Finish(StartAscent(CheckDepth(StartDescent(s1, p), p, frameRate), p), p))
  {
    var s1 := CaptureBaseline(s, p);
    CaptureBaselineKeepsCore(s, p);
    var s2 := StartDescent(s1, p);
    StartDescentKeepsCore(s1, p);
    var s3 := CheckDepth(s2, p, frameRate);
    CheckDepthKeepsCore(s2, p, frameRate);
    var s4 := StartAscent(s3, p);
    StartAscentKeepsCore(s3, p);
    FinishKeepsCore(s4, p);
  }

  lemma NextKeepsInv(s: Tracker, frame: Option<Pose>, frameRate: real)
    requires Inv(s)
    ensures Inv(Next(s, frame, frameRate))
  {
    LogFrame(s.phaseFrames, s.frameCount);
    if frame.Some? {
      var p := frame.value;
      var s1 := CaptureBaseline(s, p);
      var s4 := Finish(StartAscent(CheckDepth(StartDescent(s1, p), p, frameRate), p), p);
      ChecksKeepCore(s, p, frameRate);
      LogFrame(s4.phaseFrames, s4.frameCount);
      assert Next(s, frame, frameRate) == s4.(kneeAngles := s4.kneeAngles + [p.kneeAngle], frameCount := s4.frameCount + 1);
    }
  }

  lemma {:induction false} RunKeepsInv(s: Tracker, frames: seq<Option<Pose>>, frameRate: real)
    requires Inv(s)
    ensures Inv(Run(s, frames, frameRate))
    decreases |frames|
  {
    if frames != [] {
      var prefix := frames[..|frames| - 1];
      RunKeepsInv(s, prefix, frameRate);
      NextKeepsInv(Run(s, prefix, frameRate), frames[|frames| - 1], frameRate);
    }
  }

  /** `phase_frames` never holds more than six entries: the initial 0, the baseline and four phases. */
  lemma {:induction false} PhaseFramesBounded(frames: seq<Option<Pose>>, frameRate: real)
    ensures |Run(Initial(), frames, frameRate).phaseFrames| <= 6
  {
    RunKeepsInv(Initial(), frames, frameRate);
  }

  // ---------------------------------------------------------------------------
  // Runs over many frames

  lemma {:induction false} RunSplit(s: Tracker, a: seq<Option<Pose>>, b: seq<Option<Pose>>, frameRate: real)
    requires s.phaseFrames != []
    ensures Run(s, a + b, frameRate) == Run(Run(s, a, frameRate), b, frameRate)
    decreases |b|
  {
    if b == [] {
      assert a + b == a;
    } else {
      var n := |b| - 1;
      assert (a + b)[..|a + b| - 1] == a + b[..n];
      RunSplit(s, a, b[..n], frameRate);
    }
  }

  /**
   * Along a video, the phase never goes back, END is never left, `phase_frames`
   * and `knee_angles` are only appended to, and the top position once set stays.
   */
  lemma {:induction false} RunMonotone(s: Tracker, frames: seq<Option<Pose>>, i: nat, j: nat, frameRate: real)
    requires s.phaseFrames != []
    requires i <= j <= |frames|
    ensures var early, late := Run(s, frames[..i], frameRate), Run(s, frames[..j], frameRate);
      && early.phase.Ordinal() <= late.phase.Ordinal()
      && (early.phase == End ==> late.phase == End)
      && early.phaseFrames <= late.phaseFrames
      && early.kneeAngles <= late.kneeAngles
      && (early.top.Some? ==> late.top == early.top)
  {
    var early := Run(s, frames[..i], frameRate);
    assert frames[..j] == frames[..i] + frames[i..j];
    RunSplit(s, frames[..i], frames[i..j], frameRate);
    RunAppendsAngles(early, frames[i..j], frameRate);
  }

  /** `knee_angles` gains exactly the angles of the frames with landmarks, in order. */
  lemma {:induction false} RunAppendsAngles(s: Tracker, frames: seq<Option<Pose>>, frameRate: real)
    requires s.phaseFrames != []
    ensures Run(s, frames, frameRate).kneeAngles == s.kneeAngles + LandmarkAngles(frames)
    decreases |frames|
  {
    if frames != [] {
      var n := |frames| - 1;
      RunAppendsAngles(s, frames[..n], frameRate);
      LandmarkAnglesSnoc(frames[..n], frames[n]);
      assert frames[..n] + [frames[n]] == frames;
    }
  }

  lemma {:induction false} LandmarkAnglesSnoc(frames: seq<Option<Pose>>, frame: Option<Pose>)
    ensures LandmarkAngles(frames + [frame])
         == LandmarkAngles(frames) + (if frame.Some? then [frame.value.kneeAngle] else [])
    decreases |frames|
  {
    if frames == [] {
      assert LandmarkAngles([frame][1..]) == [];
    } else {
      assert (frames + [frame])[1..] == frames[1..] + [frame];
      LandmarkAnglesSnoc(frames[1..], frame);
    }
  }

  /** Frames without landmarks only advance the frame counter. */
  lemma {:induction false} BlindFramesChangeNothing(s: Tracker, frames: seq<Option<Pose>>, frameRate: real)
    requires s.phaseFrames != []
    requires forall k :: 0 <= k < |frames| ==> frames[k].None?
    ensures Run(s, frames, frameRate) == s.(frameCount := s.frameCount + |frames|)
    decreases |frames|
  {
    if frames != [] {
      BlindFramesChangeNothing(s, frames[..|frames| - 1], frameRate);
    }
  }

  /**
   * The top position is the left shoulder y of the first frame with landmarks,
   * and that frame's index is logged right after the initial 0.
   */
  lemma {:induction false} BaselineIsFirstLandmarkFrame(frames: seq<Option<Pose>>, i: nat, frameRate: real)
    requires i < |frames| && frames[i].Some?
    requires forall k :: 0 <= k < i ==> frames[k].None?
    ensures var r := Run(Initial(), frames, frameRate);
      r.top == Some(frames[i].value.shoulderY) && |r.phaseFrames| >= 2 && r.phaseFrames[..2] == [0, i]
  {
    var before := frames[..i];
    BlindFramesChangeNothing(Initial(), before, frameRate);
    assert frames[..i + 1][..i] == before;
    var atBaseline := Run(Initial(), frames[..i + 1], frameRate);
    assert atBaseline == Next(Initial().(frameCount := i), frames[i], frameRate);
    assert [0, i] <= atBaseline.phaseFrames;
    RunMonotone(Initial(), frames, i + 1, |frames|, frameRate);
    assert frames[..|frames|] == frames;
  }

  // ---------------------------------------------------------------------------
  // One frame, transition by transition (the baseline is already captured)

  /** START moves to DESCENT exactly when the shoulder y exceeds 1.05 times the top, logging the frame. */
  lemma DescentWhenShoulderDrops(s: Tracker, p: Pose, frameRate: real)
    requires Inv(s) && s.phase == Start && s.top.Some?
    ensures var r := Next(s, Some(p), frameRate);
      && (r.phase != Start <==> 100 * p.shoulderY > BaselinePercent * s.top.value)
      && (r.phase == Start ==> r.phaseFrames == s.phaseFrames)
      && (r.phase != Start ==> r.phaseFrames[..|s.phaseFrames| + 1] == s.phaseFrames + [s.frameCount])
  {
  }

  /** Deep enough in DESCENT: BOTTOM is logged with the pass feedback, and ASCENT follows at once above 90 degrees. */
  lemma DepthReached(s: Tracker, p: Pose, frameRate: real)
    requires Inv(s) && s.phase == Descent && p.kneeAngle < DepthAngle
    ensures var r := Next(s, Some(p), frameRate);
      && r.bottom == Some(p.shoulderY) && r.lowestKneeAngle == Some(p.kneeAngle)
      && r.feedback == GoodDepth && r.color == Green
      && r.phase == (if p.kneeAngle > RiseAngle then Ascent else Bottom)
      && r.phaseFrames == s.phaseFrames + [s.frameCount] + (if p.kneeAngle > RiseAngle then [s.frameCount] else [])
  {
  }

  /**
   * Not deep enough in DESCENT after more than `frameRate` frames since the last
   * logged transition: BOTTOM with the failure feedback, not logged, and since
   * the angle is at least 95 the same frame goes on to ASCENT (and to END above 170).
   */
  lemma DepthTimeout(s: Tracker, p: Pose, frameRate: real)
    requires Inv(s) && s.phase == Descent && p.kneeAngle >= DepthAngle
    requires (s.frameCount - Last(s.phaseFrames)) as real > frameRate
    ensures var r := Next(s, Some(p), frameRate);
      && r.bottom.None? && r.feedback == ShallowDepth && r.color == Red
      && r.phase == (if p.kneeAngle > StandAngle then End else Ascent)
      && r.phaseFrames == s.phaseFrames + [s.frameCount] + (if p.kneeAngle > StandAngle then [s.frameCount] else [])
  {
  }

  /** Neither deep enough nor timed out: DESCENT continues and only the trace grows. */
  lemma DescentContinues(s: Tracker, p: Pose, frameRate: real)
    requires Inv(s) && s.phase == Descent && p.kneeAngle >= DepthAngle
    requires (s.frameCount - Last(s.phaseFrames)) as real <= frameRate
    ensures Next(s, Some(p), frameRate)
         == s.(kneeAngles := s.kneeAngles + [p.kneeAngle], frameCount := s.frameCount + 1)
  {
  }

  /** BOTTOM moves to ASCENT exactly above 90 degrees, and straight on to END above 170. */
  lemma AscentWhenKneeOpens(s: Tracker, p: Pose, frameRate: real)
    requires Inv(s) && s.phase == Bottom
    ensures var r := Next(s, Some(p), frameRate);
      && r.phase == (if p.kneeAngle > StandAngle then End else if p.kneeAngle > RiseAngle then Ascent else Bottom)
      && r.phaseFrames == s.phaseFrames
           + (if p.kneeAngle > RiseAngle then [s.frameCount] else [])
           + (if p.kneeAngle > StandAngle then [s.frameCount] else [])
      && r.feedback == s.feedback && r.color == s.color
  {
  }

  /** ASCENT moves to END exactly above 170 degrees. */
  lemma EndWhenStanding(s: Tracker, p: Pose, frameRate: real)
    requires Inv(s) && s.phase == Ascent
    ensures var r := Next(s, Some(p), frameRate);
      && (r.phase == End <==> p.kneeAngle > StandAngle)
      && r.phaseFrames == s.phaseFrames + (if p.kneeAngle > StandAngle then [s.frameCount] else [])
  {
  }

  /** After END only the angle trace and the frame counter change. */
  lemma EndIsFinal(s: Tracker, p: Pose, frameRate: real)
    requires Inv(s) && s.phase == End
    ensures Next(s, Some(p), frameRate)
         == s.(kneeAngles := s.kneeAngles + [p.kneeAngle], frameCount := s.frameCount + 1)
  {
  }

  // ---------------------------------------------------------------------------
  // The loop's locals as an object

  /** The mutable locals of `analyze_squat`'s frame loop. */
  class SquatTracker {
    var phase: Phase
    var top: Option<int>
    var bottom: Option<int>
    var lowestKneeAngle: Option<real>
    var phaseFrames: seq<nat>
    var kneeAngles: seq<real>
    var feedback: string
    var color: Color
    var frameCount: nat
    /** The video's frame rate: the depth timeout's length in frames. */
    const frameRate: real

    function State(): Tracker
      reads this
    {
      Tracker(phase, top, bottom, lowestKneeAngle, phaseFrames, kneeAngles, feedback, color, frameCount)
    }

    ghost predicate Valid()
      reads this
    {
      Inv(State())
    }

    constructor (frameRate: real)
      ensures Valid() && State() == Initial() && this.frameRate == frameRate
    {
      this.frameRate := frameRate;
      phase := Start;
      top, bottom, lowestKneeAngle := None, None, None;
      phaseFrames, kneeAngles := [0], [];
      feedback, color := "", Green;
      frameCount := 0;
    }

    /** Processes one frame read from the video: `None` when no pose was detected. */
    method Step(frame: Option<Pose>)
      requires Valid()
      modifies this
      ensures Valid()
      ensures State() == Next(old(State()), frame, frameRate)
    {
      NextKeepsInv(State(), frame, frameRate);
      if frame.Some? {
        var p := frame.value;
        CaptureBaselineStep(p);
        StartDescentStep(p);
        CheckDepthStep(p);
        StartAscentStep(p);
        FinishStep(p);
        kneeAngles := kneeAngles + [p.kneeAngle];
      }
      frameCount := frameCount + 1;
    }

    method CaptureBaselineStep(p: Pose)
      modifies this
      ensures State() == CaptureBaseline(old(State()), p)
    {
      if top.None? {
        top := Some(p.shoulderY);
        phaseFrames := phaseFrames + [frameCount];
      }
    }

    method StartDescentStep(p: Pose)
      requires top.Some?
      modifies this
      ensures State() == StartDescent(old(State()), p)
    {
      if phase == Start && 100 * p.shoulderY > BaselinePercent * top.value {
        phase := Descent;
        phaseFrames := phaseFrames + [frameCount];
      }
    }

    method CheckDepthStep(p: Pose)
      requires phaseFrames != []
      modifies this
      ensures State() == CheckDepth(old(State()), p, frameRate)
    {
      if phase == Descent {
        if p.kneeAngle < DepthAngle && bottom.None? {
          phase := Bottom;
          phaseFrames := phaseFrames + [frameCount];
          bottom := Some(p.shoulderY);
          lowestKneeAngle := Some(p.kneeAngle);
          feedback := GoodDepth;
          color := Green;
        } else if (frameCount - phaseFrames[|phaseFrames| - 1]) as real > frameRate {
          feedback := ShallowDepth;
          color := Red;
          phase := Bottom;
        }
      }
    }

    method StartAscentStep(p: Pose)
      modifies this
      ensures State() == StartAscent(old(State()), p)
    {
      if phase == Bottom && p.kneeAngle > RiseAngle {
        phase := Ascent;
        phaseFrames := phaseFrames + [frameCount];
      }
    }

    method FinishStep(p: Pose)
      modifies this
      ensures State() == Finish(old(State()), p)
    {
      if phase == Ascent && p.kneeAngle > StandAngle {
        phase := End;
        phaseFrames := phaseFrames + [frameCount];
      }
    }
  }
}
