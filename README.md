# powerlift-ai core, modelled in Dafny

This project models the parts of powerlift-ai that make decisions:

- **The squat analyser** (`analyze_squat`, the `/analyze` endpoint).
  - For each video frame with detected pose landmarks, it runs a phase machine: START, DESCENT, BOTTOM, ASCENT, END.
  - The machine records the frame index of each transition in `phase_frames`. It judges the squat deep enough when the knee angle drops below 95 degrees, and too shallow when DESCENT lasts longer than one second's worth of frames.
  - It writes every frame to the output video. A frame with landmarks is drawn with the feedback and skeleton colour in force after it; a frame without landmarks is written as read.
  - The same code appears in backend/server.py and in models/posture/ven2.py (the frame loop is backend/server.py:174-271, identical to models/posture/ven2.py:64-161). The table cites backend/server.py.
- **The adaptive workout scheduler** (models/schedule/adaptiveScheduler.py).
  - `adjust_params` clamps the weight and sets of an exercise according to the athlete's feedback.
  - The seven-day `workout_schedule`, `day_of_cycle` and `generate_workout` build each day's plan from adjusted or default parameters.
- **The athlete and schedule objects** (models/schedule/scheduler.py).
  - They cover construction, `update_stats`, `get_stats`, and saving and loading the stats dict.
  - `Excersise` is the `Exercise` datatype. It has no behaviour beyond holding its four values.
  - The `Schedule` object and its `get_schedule` are modelled too.

Modules:

- `SquatPhase` (squat_phase.dfy): the per-frame state, its pure transition `Next` and the fold `Run`, the invariant `Inv`, and the class `SquatTracker` holding the loop's mutable locals. Its `Step` is proved to perform exactly `Next`.
- `SquatAnalysis` (squat_analysis.dfy): the request, the error responses, the frame-rate default, and the frame loop `AnalyzeSquat`, proved equal to the pure `Analysis`.
- `AdaptiveScheduler` (adaptive_scheduler.dfy): `Adjusted` and its in-place counterpart `ParamsDict.AdjustParams`, the schedule table, `DayOfCycle`, `DefaultParams` and `GenerateWorkout`.
- `AthleteProfile` (athlete.dfy): `Athlete` and `Schedule` as classes, with the pure record functions `StatsUpdated`, `StatsOf` and `LoadFrom` that specify them.
- `Wrappers` (wrappers.dfy): `Option` and `Result`. Python's `None` and its raised exceptions become `Option` and `Result` values.

Three facts about the frame loop (backend/server.py:200-257) that the model keeps:

- The transition checks are sequential `if`s on the same frame, so one frame may pass through several phases.
- A BOTTOM entered by the depth timeout appends nothing to `phase_frames`.
- The baseline appends the index of the first frame with landmarks, after the initial 0, not a second literal 0.

## Model

| member | source | states |
|---|---|---|
| SquatPhase.Initial | backend/server.py:174-183 | the loop starts in START with `phase_frames == [0]`, no angles, and the invariant holds |
| SquatPhase.CaptureBaseline | backend/server.py:200-203 | the first frame with landmarks fixes the top position at its shoulder y and logs its index; afterwards the top is kept; no phase moves back |
| SquatPhase.StartDescent | backend/server.py:205-208 | the START-to-DESCENT check only appends to the log, never moves the phase back and leaves END alone |
| SquatPhase.CheckDepth | backend/server.py:212-230 | the depth check only appends to the log, never moves the phase back and leaves END alone |
| SquatPhase.StartAscent | backend/server.py:249-252 | the BOTTOM-to-ASCENT check only appends to the log and never moves the phase back |
| SquatPhase.Finish | backend/server.py:254-257 | the ASCENT-to-END check only appends to the log and never moves the phase back |
| SquatPhase.Next | backend/server.py:185-270 | one frame: the counter grows by one; a frame without landmarks changes nothing else; a frame with landmarks appends its knee angle; the log only grows; the phase never moves back; END is never left; the first landmark frame fixes the top |
| SquatPhase.Run | backend/server.py:184-271 | after n frames the counter has grown by n, the log has only grown, the phase has not moved back and a captured top is kept |
| SquatPhase.NextKeepsInv | backend/server.py:192-270 | each frame keeps the invariant: the log is sorted, starts at 0, holds no future frame and has one entry per logged phase; bottom position and lowest knee angle are set together and only below 95 degrees; every phase from BOTTOM on carries the pass or the fail verdict |
| SquatPhase.ChecksKeepCore | backend/server.py:200-257 | the five transition checks, run in order on a frame, keep the log and the verdict consistent |
| SquatPhase.RunKeepsInv | backend/server.py:184-271 | the invariant holds after any sequence of frames |
| SquatPhase.PhaseFramesBounded | backend/server.py:181-257 | `phase_frames` never holds more than six entries |
| SquatPhase.RunSplit | backend/server.py:184-271 | processing a video in two parts is the same as processing it at once |
| SquatPhase.RunMonotone | backend/server.py:184-271 | between an earlier and a later frame the phase never goes back, END is never left, `phase_frames` and `knee_angles` only grow and the top stays |
| SquatPhase.RunAppendsAngles | backend/server.py:259 | `knee_angles` gains exactly the knee angle of each frame with landmarks, in order |
| SquatPhase.BlindFramesChangeNothing | backend/server.py:192-270 | frames without landmarks only advance the frame counter |
| SquatPhase.BaselineIsFirstLandmarkFrame | backend/server.py:200-203 | the top position is the shoulder y of the first frame with landmarks, and `phase_frames` starts with 0 and that frame's index |
| SquatPhase.DescentWhenShoulderDrops | backend/server.py:205-208 | from START, DESCENT is entered exactly when the shoulder y exceeds 1.05 times the top (image y grows downward, so the shoulder is lower in the frame), and the frame is logged |
| SquatPhase.DepthReached | backend/server.py:216-225 | in DESCENT, a knee angle below 95 sets the bottom position, the lowest angle and "Good squat depth!" in green, logs BOTTOM, and moves on to ASCENT in the same frame above 90 degrees |
| SquatPhase.DepthTimeout | backend/server.py:226-230 | in DESCENT, more than `frame_rate` frames after the last logged transition without depth: "Squat depth insufficient!" in red; BOTTOM is entered but not logged; the same frame reaches ASCENT, or END above 170 degrees |
| SquatPhase.DescentContinues | backend/server.py:212-230 | in DESCENT, with neither depth nor timeout, only the angle and the counter change |
| SquatPhase.AscentWhenKneeOpens | backend/server.py:249-257 | from BOTTOM, ASCENT comes exactly above 90 degrees and END above 170 degrees, each logged; the feedback is kept |
| SquatPhase.EndWhenStanding | backend/server.py:254-257 | from ASCENT, END comes exactly above 170 degrees and is logged |
| SquatPhase.EndIsFinal | backend/server.py:254-259 | after END a frame only appends its angle and advances the counter |
| SquatPhase.SquatTracker.constructor | backend/server.py:174-183 | the loop's locals start in the initial state |
| SquatPhase.SquatTracker.Step | backend/server.py:185-270 | one pass of the loop body updates the locals exactly as `Next` prescribes and keeps the invariant |
| SquatAnalysis.EffectiveFrameRate | backend/server.py:162-164 | a reported rate of 0 or none becomes 30; any other reported rate is kept; the result is never 0 |
| SquatAnalysis.Analysis | backend/server.py:134-280 | the response is an error exactly when the video part is missing (400) or the capture does not open (500) |
| SquatAnalysis.AnalyzeSquat | backend/server.py:134-280 | the request handler with its frame loop returns exactly `Analysis` |
| SquatAnalysis.AnnotationOf | backend/server.py:259-271 | a frame is drawn on exactly when it has landmarks, and then with the tracker's feedback and colour |
| SquatAnalysis.AnnotatedVideo | backend/server.py:184-271 | the output video has one frame per input frame |
| SquatAnalysis.FrameIsWritten | backend/server.py:259-271 | the k-th output frame carries the overlay in force after the k-th input frame when that frame has landmarks, and is written as read otherwise |
| SquatAnalysis.AnalysisTrace | backend/server.py:184-271 | after a successful analysis the counter equals the frame count, `knee_angles` lists the angles of the landmark frames, `phase_frames` holds 1 to 6 entries and the invariant holds |
| AdaptiveScheduler.TruncateToInt | models/schedule/adaptiveScheduler.py:34 | `int()` truncates toward zero: the result is within one below a non-negative value and within one above a negative one |
| AdaptiveScheduler.StatFor | models/schedule/adaptiveScheduler.py:34 | an exercise's stat is found exactly when the exercise is in `exercise_to_stat_map`; otherwise KeyError names the exercise |
| AdaptiveScheduler.MaxWeight | models/schedule/adaptiveScheduler.py:34 | the weight cap is 110% of the stat, truncated |
| AdaptiveScheduler.Adjusted | models/schedule/adaptiveScheduler.py:33-42 | "optimal" raises the weight by 5 and the sets by 1, capped at 110% of the stat and at 6 sets; "fatigue" and "incomplete" lower them by 5 and 1, floored at 10 kg and 2 sets; any other feedback changes nothing; exercise and reps never change |
| AdaptiveScheduler.OptimalLowersToCap | models/schedule/adaptiveScheduler.py:37-38 | "optimal" sets every weight that is above the cap to the cap, so it can lower the weight |
| AdaptiveScheduler.AdjustedAll | models/schedule/adaptiveScheduler.py:33-42 | repeated `adjust_params` calls never change the exercise or the reps |
| AdaptiveScheduler.AdjustedStaysInRange | models/schedule/adaptiveScheduler.py:33-42 | parameters within the clamps stay within them after any sequence of feedback |
| AdaptiveScheduler.ParamsDict.AdjustParams | models/schedule/adaptiveScheduler.py:33-42 | the in-place update raises KeyError, changing nothing, exactly for an exercise without a stat; otherwise the dict becomes `Adjusted` of its old value |
| AdaptiveScheduler.DayOfCycle | models/schedule/adaptiveScheduler.py:115 | the cycle day is in 1..7, congruent to the day modulo 7, and a key of the schedule |
| AdaptiveScheduler.DayOfCyclePeriodic | models/schedule/adaptiveScheduler.py:115 | the cycle repeats every 7 days, and days 1 to 7 are their own cycle day |
| AdaptiveScheduler.ScheduleTable | models/schedule/adaptiveScheduler.py:81-89 | days 3, 5 and 7 are exactly the rest days; every exercise listed on the other days has a stat |
| AdaptiveScheduler.Contains | models/schedule/adaptiveScheduler.py:107 | Python's substring test holds exactly when the substring occurs at some index |
| AdaptiveScheduler.DefaultParams | models/schedule/adaptiveScheduler.py:103-108 | a default entry exists exactly when the exercise has a stat and a factor; its weight is `int(stat * factor)`, it has 4 sets, and 6 reps if the name contains "deadlift", else 8 |
| AdaptiveScheduler.Entries | models/schedule/adaptiveScheduler.py:100-111 | the comprehension only has listed exercises as keys |
| AdaptiveScheduler.EntriesSucceedIff | models/schedule/adaptiveScheduler.py:100-111 | the comprehension succeeds exactly when every listed exercise's default can be built, even for exercises that have an adjusted entry |
| AdaptiveScheduler.EntriesContents | models/schedule/adaptiveScheduler.py:100-111 | the resulting dict has the listed exercises as keys, each mapped to its adjusted entry if there is one and to its default otherwise |
| AdaptiveScheduler.GenerateWorkout | models/schedule/adaptiveScheduler.py:95-111 | a day outside the table raises KeyError |
| AdaptiveScheduler.WorkoutOfTheDay | models/schedule/adaptiveScheduler.py:95-111 | with a factor for every exercise, each cycle day yields a workout: "Rest" exactly on days 3, 5 and 7, otherwise one entry per listed exercise, adjusted if available and default otherwise |
| AthleteProfile.Position | models/schedule/scheduler.py:51-60 | each stat has one place in the load order |
| AthleteProfile.PositionOfKey | models/schedule/scheduler.py:51-60 | the load order lists each stat exactly once |
| AthleteProfile.WithFieldSets | models/schedule/scheduler.py:51-60 | assigning one attribute changes that attribute and no other |
| AthleteProfile.RecordsEqual | models/schedule/scheduler.py:3-16 | an athlete is determined by its ten stats and `day` |
| AthleteProfile.Athlete.constructor | models/schedule/scheduler.py:4-16 | the profile arguments are stored, each defaulting to None; fatigue and day start at 1 |
| AthleteProfile.Athlete.UpdateStats | models/schedule/scheduler.py:18-28 | each of best squat, bench and deadlift, weight and fatigue takes its argument unless that is None; every other attribute is unchanged |
| AthleteProfile.StatsUpdated | models/schedule/scheduler.py:18-28 | an update never changes name, dob, height, experience, gender or day |
| AthleteProfile.StatsUpdatedSets | models/schedule/scheduler.py:18-28 | an update sets exactly the five stats it takes, where the argument is not None, and nothing else |
| AthleteProfile.UpdatedRecord | models/schedule/scheduler.py:18-28 | an athlete changed as `UpdateStats` promises is the updated record |
| AthleteProfile.StatsUpdatedIdempotent | models/schedule/scheduler.py:18-28 | updating twice with the same arguments equals updating once |
| AthleteProfile.StatsOf | models/schedule/scheduler.py:30-42 | the stats dict holds every one of the ten stats with the attribute's value |
| AthleteProfile.Athlete.GetStats | models/schedule/scheduler.py:30-42 | `get_stats` returns the stats dict of the current attributes |
| AthleteProfile.FirstMissing | models/schedule/scheduler.py:51-60 | the first stat, in load order, that the dict lacks: all earlier ones are present |
| AthleteProfile.LoadFrom | models/schedule/scheduler.py:51-60 | the assignments from a given key on never touch `day`, and a raised key is one the dict lacks |
| AthleteProfile.Load | models/schedule/scheduler.py:48-60 | loading never touches `day`, and a raised key is one the dict lacks |
| AthleteProfile.LoadFromRaises | models/schedule/scheduler.py:51-60 | loading raises KeyError at the first missing stat and not at all if none is missing; `day` is never touched |
| AthleteProfile.LoadFromCopies | models/schedule/scheduler.py:51-60 | loading copies every stat before the first missing one and leaves the others untouched |
| AthleteProfile.LoadRaisesIffKeyMissing | models/schedule/scheduler.py:48-60 | loading raises exactly when some stat is missing, and names a missing one |
| AthleteProfile.LoadKeepsPartialAssignments | models/schedule/scheduler.py:51-60 | a failed load keeps the assignments made before the missing key; later attributes keep their old values |
| AthleteProfile.LoadAllPresent | models/schedule/scheduler.py:51-60 | with every stat present, loading raises nothing and copies all of them |
| AthleteProfile.Athlete.LoadFromFile | models/schedule/scheduler.py:48-60 | the in-place load assigns the attributes in order and stops at the first missing key, exactly as `LoadFrom` prescribes |
| AthleteProfile.SaveLoadRoundTrip | models/schedule/scheduler.py:44-60 | loading a saved stats dict restores all ten saved attributes, raises nothing, and keeps the loader's own `day` |
| AthleteProfile.SaveThenLoad | models/schedule/scheduler.py:44-60 | saving one athlete and loading into another makes the second equal to the first except for `day` |
| AthleteProfile.Schedule.constructor | models/schedule/scheduler.py:70-76 | the arguments are stored, each defaulting to None, and the exercise list starts empty |
| AthleteProfile.Schedule.GetScheduleAsWritten | models/schedule/scheduler.py:78-82 | `get_schedule` as written fails with AttributeError on every schedule |
| AthleteProfile.Schedule.GetSchedule | models/schedule/scheduler.py:78-82 | the corrected `get_schedule` returns the athlete and the target date |

## Left out

- `calculate_angle`: the knee angle is an input of each frame. The arccos and degree conversion are floating point and are not modelled, nor is the NaN that degenerate landmark points produce.
- Pose detection, OpenCV reading, drawing and writing: a video is the list of per-frame landmark results, and an output frame is the overlay drawn on it. The drawing of `improper_frame` on timeout has no effect on the output and is left out. The landmark coordinates' `int()` conversion happens before the model's input.
- The `print` calls only log. `frame_interval` and `paused` are computed but never change the loop's behaviour, so they are not modelled.
- File upload and paths, `send_file`, Flask, login and the user database routes are not part of this model. The model returns the final tracker state alongside the video so that it can be stated. The source discards that state when it returns the file; it only prints a line at each transition.
- Floating point: the 1.05 threshold is the exact integer comparison `100 * y > 105 * top`, and 1.1 is the exact rational 11/10. Rounding of the binary floats is not modelled.
- `update_factor_q_learning` and the exercise factors: the learning loop is randomised, so the factors are a parameter of `GenerateWorkout`.
- The 60-day driver loop of adaptiveScheduler.py is left out. It reads feedback with `input()` and calls `adjust_params` on the stored dicts.
- Aliasing: `generate_workout` puts the same dict objects from `updated_params` into the workout; the model copies `Params` values. `ParamsDict` models one dict changed in place.
- JSON files: `save_to_file` and `load_from_file` are modelled from the stats dict on. The dict is keyed by `Stat`, and `StatName` gives the JSON key of each stat. File I/O, the JSON encoding and decoding errors are left out.
- Python attribute values are the `Value` datatype. Values of other types, such as lists or dicts loaded from JSON, are not represented.
- AthleteProfile.Athlete.UpdateStats: its ensures are stated attribute by attribute; the equality with `StatsUpdated` of the old record is the separate lemma `UpdatedRecord`.
- The stage methods of `SquatTracker` (`CaptureBaselineStep` and the others) are helpers of `Step`, each proved equal to its stage function.
- models/schedule/reinf.py, the posture analysers, the ranking models and the RAG application are not part of this model.

## Findings

| source | as written | input that shows it | evidently intended | confidence | as-written member | corrected member |
|---|---|---|---|---|---|---|
| models/schedule/scheduler.py:78-82 | `get_schedule` reads `self.date`, an attribute that neither `__init__` nor any other code assigns, so every call raises AttributeError | any `Schedule()` followed by `get_schedule()` | return the athlete and the schedule's target date, `self.targetDate` | not executed | AthleteProfile.Schedule.GetScheduleAsWritten | AthleteProfile.Schedule.GetSchedule |
