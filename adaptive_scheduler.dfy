/**
 * The workout-parameter rules of models/schedule/adaptiveScheduler.py:
 * `adjust_params` (feedback-driven weight and set changes, clamped), the
 * seven-day `workout_schedule`, `day_of_cycle`, and `generate_workout`.
 *
 * The exercise factors come from a randomised learning loop; here they are
 * an opaque map passed in. Python dicts of parameters become the `Params`
 * record; the dict that `adjust_params` changes in place is the class
 * `ParamsDict`.
 */
module AdaptiveScheduler {
  import opened Wrappers

  /** The numeric entries of `athlete_stats`. */
  const AthleteStats: map<string, int> := map[
    "age" := 30, "weight" := 80,
    "bestSquat" := 150, "bestBench" := 80, "bestDeadlift" := 180,
    "targetSquat" := 220, "targetBench" := 110, "targetDeadlift" := 250,
    "duration" := 60]

  /** `exercise_to_stat_map`: which best lift bounds each exercise. */
  const ExerciseToStat: map<string, string> := map[
    "squat" := "bestSquat",
    "bench_press" := "bestBench",
    "deadlift" := "bestDeadlift",
    "seated_leg_curl" := "bestSquat",
    "bulgarian_split_squat" := "bestSquat",
    "barbell_row" := "bestDeadlift",
    "pause_deadlift" := "bestDeadlift",
    "lat_pulldown" := "bestBench",
    "dumbbell_lateral_raise" := "bestBench"]

  const MinWeight := 10
  const WeightStep := 5
  const MaxSets := 6
  const MinSets := 2
  const DefaultSets := 4

  /** A parameter dict: `{"exercise", "weight", "sets", "reps"}`. */
  datatype Params = Params(exercise: string, weight: int, sets: int, reps: int)

  /** Python's `KeyError`, for a missing string key or a missing day. */
  datatype KeyError = MissingKey(key: string) | MissingDay(day: int)

  /** Python's `int()` on a float: truncation toward zero. */
  function TruncateToInt(x: real): (n: int)
    ensures x >= 0.0 ==> n as real <= x < n as real + 1.0
    ensures x < 0.0 ==> n as real - 1.0 < x <= n as real
  {
    if x >= 0.0 then x.Floor else -((-x).Floor)
  }

  /** `athlete_stats[exercise_to_stat_map[exercise]]`, raising on an unknown exercise. */
  function StatFor(exercise: string): (r: Result<int, KeyError>)
    ensures r.Success? <==> exercise in ExerciseToStat
    ensures r.Failure? ==> r.error == MissingKey(exercise)
  {
    if exercise !in ExerciseToStat then Failure(MissingKey(exercise))
    else
      var key := ExerciseToStat[exercise];
      if key !in AthleteStats then Failure(MissingKey(key)) else Success(AthleteStats[key])
  }

  /** `int(stat * 1.1)`: the heaviest weight `adjust_params` sets. */
  function MaxWeight(stat: int): (r: int)
    ensures stat >= 0 ==> 10 * r <= 11 * stat < 10 * r + 10
  {
    TruncateToInt(stat as real * 1.1)
  }

  /** The parameters after the athlete's feedback, given the exercise's weight cap. */
  function Adjusted(p: Params, maxWeight: int, feedback: string): (r: Params)
    ensures r.exercise == p.exercise && r.reps == p.reps
    ensures feedback == "optimal" ==>
      && r.weight <= maxWeight && r.weight <= p.weight + WeightStep
      && (r.weight == maxWeight || r.weight == p.weight + WeightStep)
      && r.sets <= MaxSets && r.sets <= p.sets + 1
      && (r.sets == MaxSets || r.sets == p.sets + 1)
    ensures feedback == "fatigue" || feedback == "incomplete" ==>
      && r.weight >= MinWeight && r.weight >= p.weight - WeightStep
      && (r.weight == MinWeight || r.weight == p.weight - WeightStep)
      && r.sets >= MinSets && r.sets >= p.sets - 1
      && (r.sets == MinSets || r.sets == p.sets - 1)
    ensures feedback != "optimal" && feedback != "fatigue" && feedback != "incomplete" ==> r == p
  {
    if feedback == "optimal" then
      p.(weight := Min(p.weight + WeightStep, maxWeight), sets := Min(p.sets + 1, MaxSets))
    else if feedback == "fatigue" || feedback == "incomplete" then
      p.(weight := Max(p.weight - WeightStep, MinWeight), sets := Max(p.sets - 1, MinSets))
    else p
  }

  function Min(a: int, b: int): int { if a <= b then a else b }
  function Max(a: int, b: int): int { if a >= b then a else b }

  /** "optimal" does not always raise the weight: a weight above the cap drops to the cap. */
  lemma OptimalLowersToCap(p: Params, maxWeight: int)
    requires p.weight > maxWeight
    ensures Adjusted(p, maxWeight, "optimal").weight == maxWeight
  {
  }

  /** Once within the clamps, repeated feedback keeps the parameters within them. */
  lemma {:induction false} AdjustedStaysInRange(p: Params, maxWeight: int, feedback: seq<string>)
    requires MinWeight <= maxWeight
    requires MinWeight <= p.weight <= maxWeight && MinSets <= p.sets <= MaxSets
    ensures var r := AdjustedAll(p, maxWeight, feedback);
      MinWeight <= r.weight <= maxWeight && MinSets <= r.sets <= MaxSets && r.exercise == p.exercise && r.reps == p.reps
    decreases |feedback|
  {
    if feedback != [] {
      AdjustedStaysInRange(Adjusted(p, maxWeight, feedback[0]), maxWeight, feedback[1..]);
    }
  }

  /** The parameters after a sequence of feedback answers, one per day. */
  function AdjustedAll(p: Params, maxWeight: int, feedback: seq<string>): (r: Params)
    ensures r.exercise == p.exercise && r.reps == p.reps
    decreases |feedback|
  {
    if feedback == [] then p else AdjustedAll(Adjusted(p, maxWeight, feedback[0]), maxWeight, feedback[1..])
  }

  /** A parameter dict, which `adjust_params` changes in place. */
  class ParamsDict {
    var exercise: string
    var weight: int
    var sets: int
    var reps: int

    function Value(): Params
      reads this
    {
      Params(exercise, weight, sets, reps)
    }

    constructor (p: Params)
      ensures Value() == p
    {
      exercise, weight, sets, reps := p.exercise, p.weight, p.sets, p.reps;
    }

    /**
     * `adjust_params(params, feedback)`: raises `KeyError` before changing
     * anything when the exercise has no stat, otherwise applies `Adjusted`.
     */
    method AdjustParams(feedback: string) returns (raised: Option<KeyError>)
      modifies this
      ensures raised.Some? <==> old(exercise) !in ExerciseToStat
      ensures raised.Some? ==> raised.value == MissingKey(old(exercise)) && Value() == old(Value())
      ensures raised.None? ==>
        Value() == Adjusted(old(Value()), MaxWeight(StatFor(old(exercise)).value), feedback)
    {
      var stat := StatFor(exercise);
      if stat.Failure? {
        return Some(stat.error);
      }
      var maxWeight := MaxWeight(stat.value);
      if feedback == "optimal" {
        weight := Min(weight + WeightStep, maxWeight);
        sets := Min(sets + 1, MaxSets);
      } else if feedback == "fatigue" || feedback == "incomplete" {
        weight := Max(weight - WeightStep, MinWeight);
        sets := Max(sets - 1, MinSets);
      }
      raised := None;
    }
  }

  // ---------------------------------------------------------------------------
  // The weekly plan

  /** An entry of `workout_schedule`: "Rest" or a list of exercises. */
  datatype DayPlan = RestDay | Exercises(names: seq<string>)

  const WorkoutSchedule: map<int, DayPlan> := map[
    1 := Exercises(["squat", "bench_press", "deadlift"]),
    2 := Exercises(["squat", "bench_press", "deadlift", "seated_leg_curl", "bulgarian_split_squat"]),
    3 := RestDay,
    4 := Exercises(["squat", "bench_press", "deadlift", "barbell_row", "pause_deadlift"]),
    5 := RestDay,
    6 := Exercises(["squat", "bench_press", "deadlift", "lat_pulldown", "dumbbell_lateral_raise"]),
    7 := RestDay]

  /**
   * `(day - 1) % 7 + 1`. Python's `%` takes the sign of the divisor, and so
   * does Dafny's for a positive divisor, so this holds for every day.
   */
  function DayOfCycle(day: int): (r: int)
    ensures 1 <= r <= 7
    ensures (r - day) % 7 == 0
    ensures r in WorkoutSchedule
  {
    (day - 1) % 7 + 1
  }

  /** The cycle repeats every seven days and starts at day 1. */
  lemma DayOfCyclePeriodic(day: int)
    ensures DayOfCycle(day + 7) == DayOfCycle(day)
    ensures 1 <= day <= 7 ==> DayOfCycle(day) == day
  {
  }

  /** `t` occurs in `s` starting at index `i`. */
  ghost predicate OccursAt(s: string, t: string, i: nat) {
    i + |t| <= |s| && s[i..i + |t|] == t
  }

  lemma OccursShift(s: string, t: string, i: nat)
    requires |s| >= 1
    ensures OccursAt(s, t, i + 1) == OccursAt(s[1..], t, i)
  {
    if i + 1 + |t| <= |s| {
      var direct, shifted := s[i + 1..i + 1 + |t|], s[1..][i..i + |t|];
      assert forall k :: 0 <= k < |t| ==> direct[k] == shifted[k];
      assert direct == shifted;
    }
  }

  /** Python's `t in s` on strings. */
  function Contains(s: string, t: string): (b: bool)
    ensures b <==> exists i: nat :: OccursAt(s, t, i)
    decreases |s|
  {
    if |s| < |t| then false
    else if s[..|t|] == t then assert OccursAt(s, t, 0); true
    else
      var b := Contains(s[1..], t);
      assert b ==> exists i: nat :: OccursAt(s, t, i) by {
        if b {
          var i: nat :| OccursAt(s[1..], t, i);
          OccursShift(s, t, i);
        }
      }
      assert (exists i: nat :: OccursAt(s, t, i)) ==> b by {
        if exists i: nat :: OccursAt(s, t, i) {
          var i: nat :| OccursAt(s, t, i);
          assert i != 0;
          OccursShift(s, t, i - 1);
        }
      }
      b
  }

  /** A generated workout: "Rest", or a dict from exercise to parameters. */
  datatype Workout = Rest | Plan(entries: map<string, Params>)

  /** The parameters an exercise starts with when it has no adjusted entry yet. */
  function DefaultParams(exercise: string, factors: map<string, real>): (r: Result<Params, KeyError>)
    ensures r.Success? <==> exercise in ExerciseToStat && exercise in factors
    ensures r.Success? ==>
      && r.value.exercise == exercise
      && r.value.weight == TruncateToInt(StatFor(exercise).value as real * factors[exercise])
      && r.value.sets == DefaultSets
      && r.value.reps == (if Contains(exercise, "deadlift") then 6 else 8)
  {
    match StatFor(exercise)
    case Failure(e) => Failure(e)
    case Success(stat) =>
      if exercise !in factors then Failure(MissingKey(exercise))
      else Success(Params(exercise, TruncateToInt(stat as real * factors[exercise]), DefaultSets,
                          if Contains(exercise, "deadlift") then 6 else 8))
  }

  /**
   * The dict comprehension of `generate_workout`, exercise by exercise, with
   * `defaults` building an exercise's default entry: the default is built (and
   * may raise) even when an adjusted entry exists, and the adjusted entry wins.
   */
  function Entries(exercises: seq<string>, updated: map<string, Params>,
                   defaults: string -> Result<Params, KeyError>): (r: Result<map<string, Params>, KeyError>)
    ensures r.Success? ==> forall e :: e in r.value ==> e in exercises
    decreases |exercises|
  {
    if exercises == [] then Success(map[])
    else
      var n := |exercises| - 1;
      var e := exercises[n];
      match Entries(exercises[..n], updated, defaults)
      case Failure(err) => Failure(err)
      case Success(m) =>
        match defaults(e)
        case Failure(err) => Failure(err)
        case Success(d) => Success(m[e := if e in updated then updated[e] else d])
  }

  /** The comprehension succeeds exactly when every listed exercise's default can be built. */
  lemma {:induction false} EntriesSucceedIff(exercises: seq<string>, updated: map<string, Params>,
                                             defaults: string -> Result<Params, KeyError>)
    ensures Entries(exercises, updated, defaults).Success?
        <==> forall e :: e in exercises ==> defaults(e).Success?
    decreases |exercises|
  {
    if exercises != [] {
      var n := |exercises| - 1;
      var prefix := exercises[..n];
      EntriesSucceedIff(prefix, updated, defaults);
      assert exercises == prefix + [exercises[n]];
    }
  }

  /**
   * When the comprehension succeeds, its keys are the listed exercises, and
   * each maps to its adjusted entry if there is one and to its default otherwise.
   */
  lemma {:induction false} EntriesContents(exercises: seq<string>, updated: map<string, Params>,
                                           defaults: string -> Result<Params, KeyError>)
    requires Entries(exercises, updated, defaults).Success?
    ensures var m := Entries(exercises, updated, defaults).value;
      && m.Keys == (set e | e in exercises)
      && forall e :: e in m ==> if e in updated then m[e] == updated[e] else defaults(e) == Success(m[e])
    decreases |exercises|
  {
    if exercises != [] {
      var n := |exercises| - 1;
      var e := exercises[n];
      var prefix := exercises[..n];
      var rp := Entries(prefix, updated, defaults);
      assert rp.Success? && defaults(e).Success?;
      EntriesContents(prefix, updated, defaults);
      assert exercises == prefix + [e];
      assert (set x | x in exercises) == (set x | x in prefix) + {e};
    }
  }

  /** `generate_workout(day)`: raises for a day outside the table. */
  function GenerateWorkout(day: int, updated: map<string, Params>, factors: map<string, real>)
    : (r: Result<Workout, KeyError>)
    ensures day !in WorkoutSchedule ==> r == Failure(MissingDay(day))
  {
    if day !in WorkoutSchedule then Failure(MissingDay(day))
    else
      match WorkoutSchedule[day]
      case RestDay => Success(Rest)
      case Exercises(names) =>
        match Entries(names, updated, e => DefaultParams(e, factors))
        case Failure(err) => Failure(err)
        case Success(m) => Success(Plan(m))
  }

  /**
   * With a factor for every exercise, every cycle day yields a workout: "Rest"
   * exactly on days 3, 5 and 7, otherwise one entry per listed exercise, each
   * the adjusted entry if one exists and the defaults otherwise.
   */
  lemma WorkoutOfTheDay(day: int, updated: map<string, Params>, factors: map<string, real>)
    requires 1 <= day <= 7
    requires forall e :: e in ExerciseToStat ==> e in factors
    ensures var r := GenerateWorkout(day, updated, factors);
      && r.Success?
      && (r.value.Rest? <==> day == 3 || day == 5 || day == 7)
      && (r.value.Plan? ==>
           && WorkoutSchedule[day].Exercises?
           && r.value.entries.Keys == (set e | e in WorkoutSchedule[day].names)
           && forall e :: e in r.value.entries ==>
                if e in updated then r.value.entries[e] == updated[e]
                else DefaultParams(e, factors) == Success(r.value.entries[e]))
  {
    ScheduleTable(day);
    if WorkoutSchedule[day].Exercises? {
      var defaults := e => DefaultParams(e, factors);
      EntriesSucceedIff(WorkoutSchedule[day].names, updated, defaults);
      EntriesContents(WorkoutSchedule[day].names, updated, defaults);
    }
  }

  /** Days 3, 5 and 7 are rest days; every other day lists only exercises that have a stat. */
  lemma ScheduleTable(day: int)
    requires 1 <= day <= 7
    ensures day in WorkoutSchedule
    ensures WorkoutSchedule[day].RestDay? <==> day == 3 || day == 5 || day == 7
    ensures WorkoutSchedule[day].Exercises? ==> forall e :: e in WorkoutSchedule[day].names ==> e in ExerciseToStat
  {
    if day == 1 {
    } else if day == 2 {
    } else if day == 4 {
    } else if day == 6 {
    }
  }
}
