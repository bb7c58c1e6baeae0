/**
 * The `/analyze` request around the phase machine (`analyze_squat` in
 * backend/server.py and models/posture/ven2.py): the early error responses,
 * the frame-rate default, and the frame loop that steps the tracker and
 * writes every frame to the output video.
 *
 * The uploaded video is abstracted to whether the capture opens, the frame
 * rate it reports, and, for each frame it yields, the pose landmarks found in
 * it (if any). An output frame is abstracted to the overlay drawn on it.
 */
module SquatAnalysis {
  import opened Wrappers
  import opened SquatPhase

  /** An uploaded video as the capture sees it. */
  datatype Video = Video(opens: bool, reportedFrameRate: Option<real>, frames: seq<Option<Pose>>)

  /** The multipart request: the `video` part may be missing. */
  datatype Request = Request(video: Option<Video>)

  /** A written frame: passed through, or drawn with the skeleton colour and the feedback text. */
  datatype Annotation = Unannotated | Overlay(feedback: string, color: Color)

  /**
   * An error status with its message, or the annotated video. `trace` is the
   * tracker's final state (the phase, `phase_frames` and `knee_angles`):
   * the handler discards it when it returns the file, having printed only a
   * line at each transition; it is kept here so that it can be stated.
   */
  datatype Response = Error(status: nat, message: string) | Analyzed(video: seq<Annotation>, trace: Tracker)

  const DefaultFrameRate := 30.0

  /** The capture's frame rate, with 0 or a missing value replaced by 30. */
  function EffectiveFrameRate(reported: Option<real>): (r: real)
    ensures reported.None? || reported.value == 0.0 ==> r == 30.0
    ensures r != 0.0
    ensures (reported.None? || reported.value >= 0.0) ==> r > 0.0
    ensures reported.Some? && reported.value != 0.0 ==> r == reported.value
  {
    if reported.None? || reported.value == 0.0 then DefaultFrameRate else reported.value
  }

  /** What is drawn on a frame once the tracker has processed it. */
  function AnnotationOf(s: Tracker, frame: Option<Pose>): (r: Annotation)
    ensures r.Overlay? <==> frame.Some?
    ensures r.Overlay? ==> r.feedback == s.feedback && r.color == s.color
  {
    if frame.Some? then Overlay(s.feedback, s.color) else Unannotated
  }

  /** The output video for `frames`: each frame drawn with the state reached after it. */
  function AnnotatedVideo(frames: seq<Option<Pose>>, frameRate: real): (r: seq<Annotation>)
    ensures |r| == |frames|
    decreases |frames|
  {
    if frames == [] then []
    else
      var n := |frames| - 1;
      AnnotatedVideo(frames[..n], frameRate) + [AnnotationOf(Run(Initial(), frames, frameRate), frames[n])]
  }

  /** The response to a request. */
  function Analysis(req: Request): (r: Response)
    ensures r.Error? <==> req.video.None? || !req.video.value.opens
    ensures req.video.None? ==> r.Error? && r.status == 400
    ensures req.video.Some? && !req.video.value.opens ==> r.Error? && r.status == 500
  {
    match req.video
    case None => Error(400, "No video file provided")
    case Some(v) =>
      if !v.opens then Error(500, "Failed to process the video")
      else
        var frameRate := EffectiveFrameRate(v.reportedFrameRate);
        Analyzed(AnnotatedVideo(v.frames, frameRate), Run(Initial(), v.frames, frameRate))
  }

  /** `analyze_squat`: reads frames until the capture is exhausted, stepping the tracker on each. */
  method AnalyzeSquat(req: Request) returns (r: Response)
    ensures r == Analysis(req)
  {
    if req.video.None? {
      return Error(400, "No video file provided");
    }
    var v := req.video.value;
    if !v.opens {
      return Error(500, "Failed to process the video");
    }
    var frameRate := EffectiveFrameRate(v.reportedFrameRate);
    var tracker := new SquatTracker(frameRate);
    var written: seq<Annotation> := [];
    var i := 0;
    while i < |v.frames|
      invariant 0 <= i <= |v.frames|
      invariant tracker.Valid() && tracker.frameRate == frameRate
      invariant tracker.State() == Run(Initial(), v.frames[..i], frameRate)
      invariant written == AnnotatedVideo(v.frames[..i], frameRate)
    {
      var frame := v.frames[i];
      tracker.Step(frame);
      if frame.Some? {
        written := written + [Overlay(tracker.feedback, tracker.color)];
      } else {
        written := written + [Unannotated];
      }
      RunOneMore(v.frames, i, frameRate);
      assert written == AnnotatedVideo(v.frames[..i + 1], frameRate);
      i := i + 1;
    }
    assert v.frames[..i] == v.frames;
    r := Analyzed(written, tracker.State());
  }

  lemma RunOneMore(frames: seq<Option<Pose>>, i: nat, frameRate: real)
    requires i < |frames|
    ensures Run(Initial(), frames[..i + 1], frameRate) == Next(Run(Initial(), frames[..i], frameRate), frames[i], frameRate)
    ensures AnnotatedVideo(frames[..i + 1], frameRate)
         == AnnotatedVideo(frames[..i], frameRate) + [AnnotationOf(Run(Initial(), frames[..i + 1], frameRate), frames[i])]
  {
    assert frames[..i + 1][..i] == frames[..i];
  }

  /**
   * The `k`-th output frame is the `k`-th input frame: drawn on exactly when
   * it has landmarks, with the feedback and colour in force after it.
   */
  lemma {:induction false} FrameIsWritten(frames: seq<Option<Pose>>, frameRate: real, k: nat)
    requires k < |frames|
    ensures AnnotatedVideo(frames, frameRate)[k]
         == AnnotationOf(Run(Initial(), frames[..k + 1], frameRate), frames[k])
    decreases |frames|
  {
    var n := |frames| - 1;
    assert AnnotatedVideo(frames, frameRate)
        == AnnotatedVideo(frames[..n], frameRate) + [AnnotationOf(Run(Initial(), frames, frameRate), frames[n])];
    if k < n {
      FrameIsWritten(frames[..n], frameRate, k);
      assert frames[..n][..k + 1] == frames[..k + 1];
    } else {
      assert frames[..k + 1] == frames;
    }
  }

  /**
   * A successful analysis has processed every frame: the counter equals the
   * number of frames, `knee_angles` holds the angle of each frame with
   * landmarks, `phase_frames` has at most six entries and the invariant holds.
   */
  lemma AnalysisTrace(req: Request)
    requires Analysis(req).Analyzed?
    ensures var trace, frames := Analysis(req).trace, req.video.value.frames;
      && trace.frameCount == |frames|
      && trace.kneeAngles == LandmarkAngles(frames)
      && 1 <= |trace.phaseFrames| <= 6
      && Inv(trace)
  {
    var v := req.video.value;
    var frameRate := EffectiveFrameRate(v.reportedFrameRate);
    RunAppendsAngles(Initial(), v.frames, frameRate);
    RunKeepsInv(Initial(), v.frames, frameRate);
  }
}
