/**
 * The athlete profile and schedule objects of models/schedule/scheduler.py.
 *
 * Python attributes hold arbitrary values, `None` included; here they hold a
 * `Value`. Saving writes the `get_stats` dict as JSON and loading reads a dict
 * back; the file and the JSON encoding are left out, so the saved dict is a
 * map from the ten stats (each written under its `StatName`) and
 * `load_from_file` is modelled from the decoded dict on.
 */
module AthleteProfile {
  import opened Wrappers

  /** A Python value as held in an attribute or decoded from JSON. */
  datatype Value = Null | Int(i: int) | Real(r: real) | Str(s: string)

  /** The attributes of an `Athlete`. */
  datatype AthleteRecord = AthleteRecord(
    name: Value, dob: Value, height: Value, weight: Value, experience: Value, gender: Value,
    bestSquat: Value, bestBench: Value, bestDeadlift: Value, fatigue: Value, day: Value)

  /** The attributes that `get_stats` saves; `day` is not one of them. */
  datatype Stat = Name | Dob | Height | Weight | Experience | Gender | BestSquat | BestBench | BestDeadlift | Fatigue

  const StatCount := 10

  /** The `i`-th stat in the order `get_stats` writes and `load_from_file` reads them. */
  function KeyAt(i: nat): Stat
    requires i < StatCount
  {
    match i
    case 0 => Name
    case 1 => Dob
    case 2 => Height
    case 3 => Weight
    case 4 => Experience
    case 5 => Gender
    case 6 => BestSquat
    case 7 => BestBench
    case 8 => BestDeadlift
    case _ => Fatigue
  }

  /** The position of a stat in that order. */
  function Position(k: Stat): (i: nat)
    ensures i < StatCount && KeyAt(i) == k
  {
    match k
    case Name => 0
    case Dob => 1
    case Height => 2
    case Weight => 3
    case Experience => 4
    case Gender => 5
    case BestSquat => 6
    case BestBench => 7
    case BestDeadlift => 8
    case Fatigue => 9
  }

  /** Each position holds a different stat, so every stat is read and written exactly once. */
  lemma PositionOfKey(i: nat)
    requires i < StatCount
    ensures Position(KeyAt(i)) == i
  {
  }

  /** The JSON key a stat is saved under. */
  function StatName(k: Stat): string {
    match k
    case Name => "name"
    case Dob => "dob"
    case Height => "height"
    case Weight => "weight"
    case Experience => "experience"
    case Gender => "gender"
    case BestSquat => "bestSquat"
    case BestBench => "bestBench"
    case BestDeadlift => "bestDeadlift"
    case Fatigue => "fatigue"
  }

  /** The attribute holding a stat. */
  function Field(a: AthleteRecord, k: Stat): Value {
    match k
    case Name => a.name
    case Dob => a.dob
    case Height => a.height
    case Weight => a.weight
    case Experience => a.experience
    case Gender => a.gender
    case BestSquat => a.bestSquat
    case BestBench => a.bestBench
    case BestDeadlift => a.bestDeadlift
    case Fatigue => a.fatigue
  }

  /** `setattr` for a stat. */
  function WithField(a: AthleteRecord, k: Stat, v: Value): (r: AthleteRecord)
    ensures r.day == a.day
  {
    match k
    case Name => a.(name := v)
    case Dob => a.(dob := v)
    case Height => a.(height := v)
    case Weight => a.(weight := v)
    case Experience => a.(experience := v)
    case Gender => a.(gender := v)
    case BestSquat => a.(bestSquat := v)
    case BestBench => a.(bestBench := v)
    case BestDeadlift => a.(bestDeadlift := v)
    case Fatigue => a.(fatigue := v)
  }

  /** Setting a stat changes that stat and no other. */
  lemma WithFieldSets(a: AthleteRecord, k: Stat, v: Value)
    ensures Field(WithField(a, k, v), k) == v
    ensures forall other :: other != k ==> Field(WithField(a, k, v), other) == Field(a, other)
  {
  }

  /** Two records agreeing on every stat and on `day` are equal. */
  lemma RecordsEqual(x: AthleteRecord, y: AthleteRecord)
    requires forall k :: Field(x, k) == Field(y, k)
    requires x.day == y.day
    ensures x == y
  {
    assert Field(x, Name) == Field(y, Name);
    assert Field(x, Dob) == Field(y, Dob);
    assert Field(x, Height) == Field(y, Height);
    assert Field(x, Weight) == Field(y, Weight);
    assert Field(x, Experience) == Field(y, Experience);
    assert Field(x, Gender) == Field(y, Gender);
    assert Field(x, BestSquat) == Field(y, BestSquat);
    assert Field(x, BestBench) == Field(y, BestBench);
    assert Field(x, BestDeadlift) == Field(y, BestDeadlift);
    assert Field(x, Fatigue) == Field(y, Fatigue);
  }

  lemma StatCases(k: Stat)
    ensures k == Name || k == Dob || k == Height || k == Weight || k == Experience
         || k == Gender || k == BestSquat || k == BestBench || k == BestDeadlift || k == Fatigue
  {
    match k
    case Name =>
    case Dob =>
    case Height =>
    case Weight =>
    case Experience =>
    case Gender =>
    case BestSquat =>
    case BestBench =>
    case BestDeadlift =>
    case Fatigue =>
  }

  /** `get_stats`: every attribute but `day`, each under its own stat. */
  function StatsOf(a: AthleteRecord): (m: map<Stat, Value>)
    ensures forall k :: k in m && m[k] == Field(a, k)
  {
    var m := map[Name := a.name, Dob := a.dob, Height := a.height, Weight := a.weight,
                 Experience := a.experience, Gender := a.gender, BestSquat := a.bestSquat,
                 BestBench := a.bestBench, BestDeadlift := a.bestDeadlift, Fatigue := a.fatigue];
    assert forall k :: k in m && m[k] == Field(a, k) by {
      forall k ensures k in m && m[k] == Field(a, k) {
        StatCases(k);
      }
    }
    m
  }

  /** `update_stats`: each argument that is not `None` replaces its attribute. */
  function StatsUpdated(a: AthleteRecord, bestSquat: Value, bestBench: Value, bestDeadlift: Value,
                        weight: Value, fatigue: Value): (r: AthleteRecord)
    ensures r.name == a.name && r.dob == a.dob && r.height == a.height
    ensures r.experience == a.experience && r.gender == a.gender && r.day == a.day
  {
    a.(bestSquat := if bestSquat.Null? then a.bestSquat else bestSquat,
       bestBench := if bestBench.Null? then a.bestBench else bestBench,
       bestDeadlift := if bestDeadlift.Null? then a.bestDeadlift else bestDeadlift,
       weight := if weight.Null? then a.weight else weight,
       fatigue := if fatigue.Null? then a.fatigue else fatigue)
  }

  /**
   * An update sets each of the five stats it takes to the argument when that
   * is not `None` and keeps the attribute otherwise; no other stat and not
   * `day` changes.
   */
  lemma StatsUpdatedSets(a: AthleteRecord, bestSquat: Value, bestBench: Value, bestDeadlift: Value,
                         weight: Value, fatigue: Value)
    ensures var r := StatsUpdated(a, bestSquat, bestBench, bestDeadlift, weight, fatigue);
      && Field(r, BestSquat) == (if bestSquat.Null? then a.bestSquat else bestSquat)
      && Field(r, BestBench) == (if bestBench.Null? then a.bestBench else bestBench)
      && Field(r, BestDeadlift) == (if bestDeadlift.Null? then a.bestDeadlift else bestDeadlift)
      && Field(r, Weight) == (if weight.Null? then a.weight else weight)
      && Field(r, Fatigue) == (if fatigue.Null? then a.fatigue else fatigue)
      && (forall k :: k !in {BestSquat, BestBench, BestDeadlift, Weight, Fatigue} ==> Field(r, k) == Field(a, k))
      && r.day == a.day
  {
  }

  /** A record that differs from `a` as an update prescribes is the updated record. */
  lemma UpdatedRecord(a: AthleteRecord, r: AthleteRecord, bestSquat: Value, bestBench: Value, bestDeadlift: Value,
                      weight: Value, fatigue: Value)
    requires r.bestSquat == (if bestSquat.Null? then a.bestSquat else bestSquat)
    requires r.bestBench == (if bestBench.Null? then a.bestBench else bestBench)
    requires r.bestDeadlift == (if bestDeadlift.Null? then a.bestDeadlift else bestDeadlift)
    requires r.weight == (if weight.Null? then a.weight else weight)
    requires r.fatigue == (if fatigue.Null? then a.fatigue else fatigue)
    requires r.name == a.name && r.dob == a.dob && r.height == a.height
    requires r.experience == a.experience && r.gender == a.gender && r.day == a.day
    ensures r == StatsUpdated(a, bestSquat, bestBench, bestDeadlift, weight, fatigue)
  {
  }

  /** Updating twice with the same arguments is the same as updating once. */
  lemma StatsUpdatedIdempotent(a: AthleteRecord, bestSquat: Value, bestBench: Value, bestDeadlift: Value,
                               weight: Value, fatigue: Value)
    ensures var once := StatsUpdated(a, bestSquat, bestBench, bestDeadlift, weight, fatigue);
      StatsUpdated(once, bestSquat, bestBench, bestDeadlift, weight, fatigue) == once
  {
  }

  /** The position of the first stat from `i` on that is missing from `data`, or `StatCount`. */
  function FirstMissing(data: map<Stat, Value>, i: nat): (m: nat)
    requires i <= StatCount
    ensures i <= m <= StatCount
    ensures forall j :: i <= j < m ==> KeyAt(j) in data
    ensures m < StatCount ==> KeyAt(m) !in data
    decreases StatCount - i
  {
    if i == StatCount || KeyAt(i) !in data then i else FirstMissing(data, i + 1)
  }

  /**
   * The assignments of `load_from_file` from the `i`-th on: `self.k = data[k]`,
   * until a key is missing, which raises `KeyError` with the earlier
   * assignments done.
   */
  function LoadFrom(a: AthleteRecord, data: map<Stat, Value>, i: nat): (r: (AthleteRecord, Option<Stat>))
    requires i <= StatCount
    ensures r.0.day == a.day
    ensures r.1.Some? ==> r.1.value !in data
    decreases StatCount - i
  {
    if i == StatCount then (a, None)
    else if KeyAt(i) !in data then (a, Some(KeyAt(i)))
    else LoadFrom(WithField(a, KeyAt(i), data[KeyAt(i)]), data, i + 1)
  }

  /** `load_from_file` on a decoded dict. */
  function Load(a: AthleteRecord, data: map<Stat, Value>): (r: (AthleteRecord, Option<Stat>))
    ensures r.0.day == a.day
    ensures r.1.Some? ==> r.1.value !in data
  {
    LoadFrom(a, data, 0)
  }

  /** Loading from the `i`-th stat on raises with the first missing key, if any, and keeps `day`. */
  lemma {:induction false} LoadFromRaises(a: AthleteRecord, data: map<Stat, Value>, i: nat)
    requires i <= StatCount
    ensures var m := FirstMissing(data, i);
      LoadFrom(a, data, i).1 == (if m < StatCount then Some(KeyAt(m)) else None)
    ensures LoadFrom(a, data, i).0.day == a.day
    decreases StatCount - i
  {
    if i < StatCount && KeyAt(i) in data {
      LoadFromRaises(WithField(a, KeyAt(i), data[KeyAt(i)]), data, i + 1);
    }
  }

  /**
   * Loading from the `i`-th stat on copies every stat from there up to the
   * first missing key from `data` and leaves every other attribute untouched.
   */
  lemma {:induction false} LoadFromCopies(a: AthleteRecord, data: map<Stat, Value>, i: nat, k: Stat)
    requires i <= StatCount
    ensures Field(LoadFrom(a, data, i).0, k)
         == if i <= Position(k) < FirstMissing(data, i) then data[k] else Field(a, k)
    decreases StatCount - i
  {
    if i < StatCount && KeyAt(i) in data {
      WithFieldSets(a, KeyAt(i), data[KeyAt(i)]);
      LoadFromCopies(WithField(a, KeyAt(i), data[KeyAt(i)]), data, i + 1, k);
      PositionOfKey(i);
    }
  }

  /** Loading raises exactly when one of the ten stats is missing, and then names a missing one. */
  lemma LoadRaisesIffKeyMissing(a: AthleteRecord, data: map<Stat, Value>)
    ensures Load(a, data).1.Some? <==> exists k :: k !in data
    ensures Load(a, data).1.Some? ==> Load(a, data).1.value !in data
  {
    LoadFromRaises(a, data, 0);
    if FirstMissing(data, 0) == StatCount {
      forall k ensures k in data {
        assert KeyAt(Position(k)) == k;
      }
    }
  }

  /**
   * A failed load keeps what it copied: the stats before the missing key
   * hold the dict's values, the missing one and those after it are as before.
   */
  lemma LoadKeepsPartialAssignments(a: AthleteRecord, data: map<Stat, Value>, k: Stat)
    requires Load(a, data).1 == Some(k)
    ensures forall s :: Field(Load(a, data).0, s) == if Position(s) < Position(k) then data[s] else Field(a, s)
  {
    LoadFromRaises(a, data, 0);
    PositionOfKey(FirstMissing(data, 0));
    forall s ensures Field(Load(a, data).0, s) == if Position(s) < Position(k) then data[s] else Field(a, s) {
      LoadFromCopies(a, data, 0, s);
    }
  }

  /** When every stat is present, loading from the `i`-th on copies those and raises nothing. */
  lemma {:induction false} LoadAllPresent(a: AthleteRecord, data: map<Stat, Value>, i: nat)
    requires i <= StatCount
    requires forall k :: k in data
    ensures LoadFrom(a, data, i).1 == None
    ensures LoadFrom(a, data, i).0.day == a.day
    ensures forall k :: Field(LoadFrom(a, data, i).0, k) == if i <= Position(k) then data[k] else Field(a, k)
    decreases StatCount - i
  {
    if i < StatCount {
      WithFieldSets(a, KeyAt(i), data[KeyAt(i)]);
      LoadAllPresent(WithField(a, KeyAt(i), data[KeyAt(i)]), data, i + 1);
      PositionOfKey(i);
    }
  }

  /**
   * Saving then loading restores the ten saved attributes and keeps the
   * loading athlete's own `day`, which is not saved.
   */
  lemma SaveLoadRoundTrip(saved: AthleteRecord, loader: AthleteRecord)
    ensures Load(loader, StatsOf(saved)) == (saved.(day := loader.day), None)
  {
    LoadAllPresent(loader, StatsOf(saved), 0);
    RecordsEqual(Load(loader, StatsOf(saved)).0, saved.(day := loader.day));
  }

  /** An `Athlete` object. */
  class Athlete {
    var name: Value
    var dob: Value
    var height: Value
    var weight: Value
    var experience: Value
    var gender: Value
    var bestSquat: Value
    var bestBench: Value
    var bestDeadlift: Value
    var fatigue: Value
    var day: Value

    function Record(): AthleteRecord
      reads this
    {
      AthleteRecord(name, dob, height, weight, experience, gender, bestSquat, bestBench, bestDeadlift, fatigue, day)
    }

    /** Every profile argument defaults to `None`; fatigue and day always start at 1. */
    constructor (name: Value := Null, dob: Value := Null, height: Value := Null, weight: Value := Null,
                 experience: Value := Null, gender: Value := Null, bestSquat: Value := Null,
                 bestBench: Value := Null, bestDeadlift: Value := Null)
      ensures Record() == AthleteRecord(name, dob, height, weight, experience, gender,
                                        bestSquat, bestBench, bestDeadlift, Int(1), Int(1))
    {
      this.name := name;
      this.dob := dob;
      this.height := height;
      this.weight := weight;
      this.experience := experience;
      this.gender := gender;
      this.bestSquat := bestSquat;
      this.bestBench := bestBench;
      this.bestDeadlift := bestDeadlift;
      this.fatigue := Int(1);
      this.day := Int(1);
    }

    /** `update_stats`: arguments left at `None` leave their attribute alone. */
    method UpdateStats(bestSquat: Value := Null, bestBench: Value := Null, bestDeadlift: Value := Null,
                       weight: Value := Null, fatigue: Value := Null)
      modifies this
      ensures this.bestSquat == (if bestSquat.Null? then old(this.bestSquat) else bestSquat)
      ensures this.bestBench == (if bestBench.Null? then old(this.bestBench) else bestBench)
      ensures this.bestDeadlift == (if bestDeadlift.Null? then old(this.bestDeadlift) else bestDeadlift)
      ensures this.weight == (if weight.Null? then old(this.weight) else weight)
      ensures this.fatigue == (if fatigue.Null? then old(this.fatigue) else fatigue)
      ensures name == old(name) && dob == old(dob) && height == old(height)
      ensures experience == old(experience) && gender == old(gender) && day == old(day)
    {
      if !bestSquat.Null? {
        this.bestSquat := bestSquat;
      }
      if !bestBench.Null? {
        this.bestBench := bestBench;
      }
      if !bestDeadlift.Null? {
        this.bestDeadlift := bestDeadlift;
      }
      if !weight.Null? {
        this.weight := weight;
      }
      if !fatigue.Null? {
        this.fatigue := fatigue;
      }
    }

    /** `get_stats`. */
    function GetStats(): (m: map<Stat, Value>)
      reads this
      ensures m == StatsOf(Record())
    {
      StatsOf(Record())
    }

    /**
     * `load_from_file` from the decoded dict on: assigns the attributes in
     * order and raises `KeyError` (returned as the missing key) at the first
     * key the dict lacks, keeping the assignments already made.
     */
    method LoadFromFile(data: map<Stat, Value>) returns (raised: Option<Stat>)
      modifies this
      ensures (Record(), raised) == LoadFrom(old(Record()), data, 0)
    {
      assert LoadFrom(old(Record()), data, 0) == LoadFrom(Record(), data, 0);
      if Name !in data {
        return Some(Name);
      }
      name := data[Name];
      assert LoadFrom(old(Record()), data, 0) == LoadFrom(Record(), data, 1);
      if Dob !in data {
        return Some(Dob);
      }
      dob := data[Dob];
      assert LoadFrom(old(Record()), data, 0) == LoadFrom(Record(), data, 2);
      if Height !in data {
        return Some(Height);
      }
      height := data[Height];
      assert LoadFrom(old(Record()), data, 0) == LoadFrom(Record(), data, 3);
      if Weight !in data {
        return Some(Weight);
      }
      weight := data[Weight];
      assert LoadFrom(old(Record()), data, 0) == LoadFrom(Record(), data, 4);
      if Experience !in data {
        return Some(Experience);
      }
      experience := data[Experience];
      assert LoadFrom(old(Record()), data, 0) == LoadFrom(Record(), data, 5);
      if Gender !in data {
        return Some(Gender);
      }
      gender := data[Gender];
      assert LoadFrom(old(Record()), data, 0) == LoadFrom(Record(), data, 6);
      if BestSquat !in data {
        return Some(BestSquat);
      }
      bestSquat := data[BestSquat];
      assert LoadFrom(old(Record()), data, 0) == LoadFrom(Record(), data, 7);
      if BestBench !in data {
        return Some(BestBench);
      }
      bestBench := data[BestBench];
      assert LoadFrom(old(Record()), data, 0) == LoadFrom(Record(), data, 8);
      if BestDeadlift !in data {
        return Some(BestDeadlift);
      }
      bestDeadlift := data[BestDeadlift];
      assert LoadFrom(old(Record()), data, 0) == LoadFrom(Record(), data, 9);
      if Fatigue !in data {
        return Some(Fatigue);
      }
      fatigue := data[Fatigue];
      raised := None;
    }
  }

  /** `save_to_file` followed by `load_from_file`, on the same athlete or another. */
  method SaveThenLoad(saved: Athlete, loader: Athlete) returns (raised: Option<Stat>)
    modifies loader
    ensures raised == None
    ensures loader.Record() == old(saved.Record()).(day := old(loader.day))
  {
    var data := saved.GetStats();
    SaveLoadRoundTrip(saved.Record(), loader.Record());
    raised := loader.LoadFromFile(data);
  }

  // ---------------------------------------------------------------------------
  // Schedules

  /** An `Excersise` object. */
  datatype Exercise = Exercise(name: Value, reps: Value, sets: Value, intensity: Value)

  /** Python's `AttributeError`, naming the attribute that was read. */
  datatype AttributeError = AttributeError(attribute: string)

  /** The dict `get_schedule` returns. */
  datatype ScheduleView = ScheduleView(athlete: Athlete?, date: Value)

  /** A `Schedule` object. */
  class Schedule {
    var athlete: Athlete?
    var targetDate: Value
    var targetSquat: Value
    var targetBench: Value
    var targetDeadlift: Value
    var excercises: seq<Exercise>

    /** Every argument defaults to `None`; the exercise list starts empty. */
    constructor (athlete: Athlete? := null, targetDate: Value := Null, targetSquat: Value := Null,
                 targetBench: Value := Null, targetDeadlift: Value := Null)
      ensures this.athlete == athlete && this.targetDate == targetDate
      ensures this.targetSquat == targetSquat && this.targetBench == targetBench
      ensures this.targetDeadlift == targetDeadlift
      ensures excercises == []
    {
      this.athlete := athlete;
      this.targetDate := targetDate;
      this.targetSquat := targetSquat;
      this.targetBench := targetBench;
      this.targetDeadlift := targetDeadlift;
      this.excercises := [];
    }

    /**
     * `get_schedule` as written: it reads `self.date`, which no code ever
     * assigns, so the read raises `AttributeError` on every schedule.
     */
    function GetScheduleAsWritten(): (r: Result<ScheduleView, AttributeError>)
      reads this
      ensures r.Failure?
    {
      Failure(AttributeError("date"))
    }

    /** `get_schedule` reading the schedule's target date: the athlete and that date. */
    function GetSchedule(): (r: ScheduleView)
      reads this
      ensures r.athlete == athlete && r.date == targetDate
    {
      ScheduleView(athlete, targetDate)
    }
  }
}
