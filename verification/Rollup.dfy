/**
  The nightly rollup: raw events into one row per course and day, and the
  overview that adds those rows up. Days are UTC days, money is in piastres.
 */
module Rollup {
  import opened Options

  type Ms = int
  type Day = int
  type CourseId = nat
  type UserId = nat

  const DAY_MS: Ms := 24 * 3600 * 1000

  function DayOf(t: Ms): Day {
    t / DAY_MS
  }

  datatype Kind = STARTED | COMPLETED | OTHER

  /** A row of `watch_events`, of `enrollments` or of `revenue_ledger`. */
  datatype Event =
    | Watch(course: CourseId, at: Ms, user: UserId, kind: Kind, delta: int)
    | Enrolment(course: CourseId, at: Ms)
    | Line(course: CourseId, at: Ms, gross: int)

  datatype Key = Key(course: CourseId, day: Day)

  function KeyOf(e: Event): Key {
    Key(e.course, DayOf(e.at))
  }

  datatype Column = UniqueViewers | WatchSeconds | LessonsStarted | LessonsCompleted | NewEnrollments | Revenue

  datatype Stat = Stat(
    uniqueViewers: int, watchSeconds: int, lessonsStarted: int, lessonsCompleted: int,
    newEnrollments: int, revenue: int)
  {
    function Get(c: Column): int {
      match c
      case UniqueViewers => uniqueViewers
      case WatchSeconds => watchSeconds
      case LessonsStarted => lessonsStarted
      case LessonsCompleted => lessonsCompleted
      case NewEnrollments => newEnrollments
      case Revenue => revenue
    }
  }

  const ZERO := Stat(0, 0, 0, 0, 0, 0)

  // ---------------------------------------------------------------------------
  // The three grouped queries of one day
  // ---------------------------------------------------------------------------

  /** What one event adds to a summed column. */
  function Weight(e: Event, c: Column): int {
    match c
    case UniqueViewers => 0
    case WatchSeconds => if e.Watch? then e.delta else 0
    case LessonsStarted => if e.Watch? && e.kind == STARTED then 1 else 0
    case LessonsCompleted => if e.Watch? && e.kind == COMPLETED then 1 else 0
    case NewEnrollments => if e.Enrolment? then 1 else 0
    case Revenue => if e.Line? then e.gross else 0
  }

  function SumAt(events: seq<Event>, k: Key, c: Column): int {
    if events == [] then 0
    else (if KeyOf(events[0]) == k then Weight(events[0], c) else 0) + SumAt(events[1..], k, c)
  }

  function ViewersAt(events: seq<Event>, k: Key): set<UserId> {
    if events == [] then {}
    else (if events[0].Watch? && KeyOf(events[0]) == k then {events[0].user} else {}) + ViewersAt(events[1..], k)
  }

  function Value(events: seq<Event>, k: Key, c: Column): int {
    if c == UniqueViewers then |ViewersAt(events, k)| else SumAt(events, k, c)
  }

  /** What the row of a course and day should say. */
  function Fresh(events: seq<Event>, k: Key): Stat {
    Stat(Value(events, k, UniqueViewers), Value(events, k, WatchSeconds), Value(events, k, LessonsStarted),
         Value(events, k, LessonsCompleted), Value(events, k, NewEnrollments), Value(events, k, Revenue))
  }

  datatype WatchRow = WatchRow(uniqueViewers: int, watchSeconds: int, lessonsStarted: int, lessonsCompleted: int)

  function CoursesOf(events: seq<Event>, d: Day, of: Event -> bool): (r: set<CourseId>)
    ensures forall c :: c in r <==> exists i :: 0 <= i < |events| && of(events[i]) && KeyOf(events[i]) == Key(c, d)
  {
    set i | 0 <= i < |events| && of(events[i]) && KeyOf(events[i]) == Key(events[i].course, d) :: events[i].course
  }

  function WatchRows(events: seq<Event>, d: Day): map<CourseId, WatchRow> {
    map c | c in CoursesOf(events, d, (e: Event) => e.Watch?) ::
      var k := Key(c, d);
      WatchRow(|ViewersAt(events, k)|, SumAt(events, k, WatchSeconds), SumAt(events, k, LessonsStarted),
               SumAt(events, k, LessonsCompleted))
  }

  function EnrollmentRows(events: seq<Event>, d: Day): map<CourseId, int> {
    map c | c in CoursesOf(events, d, (e: Event) => e.Enrolment?) :: SumAt(events, Key(c, d), NewEnrollments)
  }

  function RevenueRows(events: seq<Event>, d: Day): map<CourseId, int> {
    map c | c in CoursesOf(events, d, (e: Event) => e.Line?) :: SumAt(events, Key(c, d), Revenue)
  }

  predicate Touched(events: seq<Event>, k: Key) {
    exists i :: 0 <= i < |events| && KeyOf(events[i]) == k
  }

  function CourseIds(events: seq<Event>, d: Day): (r: set<CourseId>)
    ensures forall c :: c in r <==> Touched(events, Key(c, d))
  {
    set i | 0 <= i < |events| && DayOf(events[i].at) == d :: events[i].course
  }

  function RolledUp(stats: map<Key, Stat>, events: seq<Event>, d: Day): map<Key, Stat> {
    stats + map c | c in CourseIds(events, d) :: Key(c, d) := Fresh(events, Key(c, d))
  }

  // ---------------------------------------------------------------------------
  // The job
  // ---------------------------------------------------------------------------

  /** A column of a kind of event that a course does not have is zero. */
  lemma {:induction false} Silent(events: seq<Event>, k: Key, c: Column)
    requires forall i :: 0 <= i < |events| && KeyOf(events[i]) == k ==> Weight(events[i], c) == 0
    ensures SumAt(events, k, c) == 0
  {
    if events != [] {
      assert forall i :: 0 <= i < |events| - 1 ==> events[1..][i] == events[i + 1];
      Silent(events[1..], k, c);
    }
  }

  lemma {:induction false} Unwatched(events: seq<Event>, k: Key)
    requires forall i :: 0 <= i < |events| && KeyOf(events[i]) == k ==> !events[i].Watch?
    ensures ViewersAt(events, k) == {}
  {
    if events != [] {
      assert forall i :: 0 <= i < |events| - 1 ==> events[1..][i] == events[i + 1];
      Unwatched(events[1..], k);
    }
  }

  function Assemble(watch: map<CourseId, WatchRow>, enrolled: map<CourseId, int>, revenue: map<CourseId, int>, c: CourseId): Stat {
    var w := if c in watch then watch[c] else WatchRow(0, 0, 0, 0);
    Stat(w.uniqueViewers, w.watchSeconds, w.lessonsStarted, w.lessonsCompleted,
         if c in enrolled then enrolled[c] else 0, if c in revenue then revenue[c] else 0)
  }

  /** Joining the three results, with zeroes for what is missing, is the fresh row. */
  lemma JoinIsFresh(events: seq<Event>, d: Day, c: CourseId)
    ensures Assemble(WatchRows(events, d), EnrollmentRows(events, d), RevenueRows(events, d), c) == Fresh(events, Key(c, d))
  {
    var k := Key(c, d);
    if c !in WatchRows(events, d) {
      Unwatched(events, k);
      Silent(events, k, WatchSeconds);
      Silent(events, k, LessonsStarted);
      Silent(events, k, LessonsCompleted);
    }
    if c !in EnrollmentRows(events, d) { Silent(events, k, NewEnrollments); }
    if c !in RevenueRows(events, d) { Silent(events, k, Revenue); }
  }

  /** A course is rolled up exactly when one of the three queries has a row for it. */
  lemma CourseIsTouched(events: seq<Event>, d: Day, c: CourseId)
    ensures c in WatchRows(events, d) || c in EnrollmentRows(events, d) || c in RevenueRows(events, d)
            <==> c in CourseIds(events, d)
  {
  }

  class AnalyticsProcessor {
    var stats: map<Key, Stat>

    constructor ()
      ensures stats == map[]
    {
      stats := map[];
    }

    /** One row per course of the day, inserted or overwritten; `day` defaults to yesterday. */
    method Process(events: seq<Event>, day: Option<Ms>, now: Ms) returns (d: Day, written: nat)
      modifies this
      ensures d == if day.Some? then DayOf(day.value) else DayOf(now) - 1
      ensures stats == RolledUp(old(stats), events, d)
      ensures written == |CourseIds(events, d)|
    {
      hide *;
      var at := if day.Some? then day.value else now - DAY_MS;
      d := DayOf(at);
      assert d == if day.Some? then DayOf(day.value) else DayOf(now) - 1 by { DayBefore(now); }
      var watch, enrolled, revenue := WatchRows(events, d), EnrollmentRows(events, d), RevenueRows(events, d);
      CoursesAreTouched(events, d);
      var courseIds := Listed(watch.Keys + enrolled.Keys + revenue.Keys);
      written := 0;
      for i := 0 to |courseIds|
        invariant written == i
        invariant forall k :: k in stats <==> k in old(stats) || (k.day == d && k.course in courseIds[..i])
        invariant forall k :: k in stats ==>
                    stats[k] == if k.day == d && k.course in courseIds[..i] then Fresh(events, k) else old(stats)[k]
      {
        var c := courseIds[i];
        JoinIsFresh(events, d, c);
        stats := stats[Key(c, d) := Assemble(watch, enrolled, revenue, c)];
        written := written + 1;
        assert courseIds[..i + 1] == courseIds[..i] + [c];
      }
      assert courseIds[..|courseIds|] == courseIds;
      RolledUpIs(old(stats), stats, events, d);
    }
  }

  lemma DayBefore(now: Ms)
    ensures DayOf(now - DAY_MS) == DayOf(now) - 1
  {
  }

  lemma CoursesAreTouched(events: seq<Event>, d: Day)
    ensures WatchRows(events, d).Keys + EnrollmentRows(events, d).Keys + RevenueRows(events, d).Keys
            == CourseIds(events, d)
  {
    hide *;
    forall c
      ensures c in WatchRows(events, d).Keys + EnrollmentRows(events, d).Keys + RevenueRows(events, d).Keys
              <==> c in CourseIds(events, d)
    {
      CourseIsTouched(events, d, c);
    }
  }

  method Listed(courses: set<CourseId>) returns (list: seq<CourseId>)
    ensures |list| == |courses| && forall c :: c in list <==> c in courses
  {
    list := [];
    var left := courses;
    while left != {}
      invariant left <= courses && |list| + |left| == |courses|
      invariant forall c :: c in courses <==> c in list || c in left
      decreases |left|
    {
      var c :| c in left;
      left := left - {c};
      list := list + [c];
    }
  }

  lemma RolledUpIs(stats: map<Key, Stat>, stats': map<Key, Stat>, events: seq<Event>, d: Day)
    requires forall k :: k in stats' <==> k in stats || (k.day == d && k.course in CourseIds(events, d))
    requires forall k :: k in stats' ==>
               stats'[k] == if k.day == d && k.course in CourseIds(events, d) then Fresh(events, k) else stats[k]
    ensures stats' == RolledUp(stats, events, d)
  {
    hide Fresh, CourseIds;
    forall k | k in RolledUp(stats, events, d) && k !in stats ensures k in stats' { assert k == Key(k.course, d); }
    forall k | k in stats' && k !in stats ensures k in RolledUp(stats, events, d) { assert k == Key(k.course, d); }
    forall k | k in stats' ensures k in RolledUp(stats, events, d) && stats'[k] == RolledUp(stats, events, d)[k] {
      assert k == Key(k.course, k.day);
    }
  }

  // ---------------------------------------------------------------------------
  // Over runs of events and rollups
  // ---------------------------------------------------------------------------

  /** `dirty`: the days that gained or lost an event since they were last rolled up. */
  datatype State = State(events: seq<Event>, stats: map<Key, Stat>, dirty: set<Day>)

  /** `Remove` is an edit by hand: no code path deletes a row of the three tables. */
  datatype Step = Record(event: Event) | Roll(day: Day) | Remove(index: nat)

  function Without(events: seq<Event>, i: nat): seq<Event>
    requires i < |events|
  {
    events[..i] + events[i + 1..]
  }

  function Next(s: State, step: Step): State {
    match step
    case Record(e) => s.(events := [e] + s.events, dirty := s.dirty + {DayOf(e.at)})
    case Roll(d) => s.(stats := RolledUp(s.stats, s.events, d), dirty := s.dirty - {d})
    case Remove(i) =>
      if i < |s.events| then s.(events := Without(s.events, i), dirty := s.dirty + {DayOf(s.events[i].at)}) else s
  }

  function Run(steps: seq<Step>): State {
    if steps == [] then State([], map[], {}) else Next(Run(steps[..|steps| - 1]), steps[|steps| - 1])
  }

  /** Where there are events on a clean day, the number is the fresh one. */
  ghost predicate Consistent(s: State) {
    forall k :: Touched(s.events, k) && k.day !in s.dirty ==> k in s.stats && s.stats[k] == Fresh(s.events, k)
  }

  /** No number of these days has lost all its events. */
  ghost predicate NoOrphans(s: State, lo: Day, hi: Day) {
    forall k :: k in s.stats && Within(k, lo, hi) ==> Touched(s.events, k)
  }

  lemma {:induction false} OthersCount(events: seq<Event>, i: nat, k: Key, c: Column)
    requires i < |events| && KeyOf(events[i]) != k
    ensures SumAt(Without(events, i), k, c) == SumAt(events, k, c)
    ensures ViewersAt(Without(events, i), k) == ViewersAt(events, k)
  {
    if i == 0 {
      assert Without(events, 0) == events[1..];
    } else {
      OthersCount(events[1..], i - 1, k, c);
      assert Without(events, i)[0] == events[0] && Without(events, i)[1..] == Without(events[1..], i - 1);
    }
  }

  /** An event that goes changes only its own course and day. */
  lemma OthersFresh(events: seq<Event>, i: nat, k: Key)
    requires i < |events| && KeyOf(events[i]) != k
    ensures Fresh(Without(events, i), k) == Fresh(events, k)
  {
    hide SumAt, ViewersAt;
    forall c { OthersCount(events, i, k, c); }
  }

  lemma StepKeepsConsistent(s: State, step: Step)
    requires Consistent(s)
    ensures Consistent(Next(s, step))
  {
    if step.Remove? && step.index < |s.events| { RemovalKeepsConsistent(s, step.index); }
  }

  lemma RemovalKeepsConsistent(s: State, i: nat)
    requires Consistent(s) && i < |s.events|
    ensures Consistent(Next(s, Remove(i)))
  {
    hide Fresh;
    var s' := Next(s, Remove(i));
    forall k | Touched(s'.events, k) && k.day !in s'.dirty ensures k in s'.stats && s'.stats[k] == Fresh(s'.events, k) {
      var j :| 0 <= j < |s'.events| && KeyOf(s'.events[j]) == k;
      assert KeyOf(s.events[if j < i then j else j + 1]) == k;
      OthersFresh(s.events, i, k);
    }
  }

  lemma {:induction false} RunsConsistent(steps: seq<Step>)
    ensures Consistent(Run(steps))
  {
    if steps != [] {
      RunsConsistent(steps[..|steps| - 1]);
      StepKeepsConsistent(Run(steps[..|steps| - 1]), steps[|steps| - 1]);
    }
  }

  /** Without removals no number is ever an orphan. */
  lemma {:induction false} OnlyRemovalsOrphan(steps: seq<Step>, lo: Day, hi: Day)
    requires forall i :: 0 <= i < |steps| ==> !steps[i].Remove?
    ensures NoOrphans(Run(steps), lo, hi)
  {
    if steps != [] {
      OnlyRemovalsOrphan(steps[..|steps| - 1], lo, hi);
      OrphanStep(Run(steps[..|steps| - 1]), steps[|steps| - 1], lo, hi);
    }
  }

  lemma OrphanStep(s: State, step: Step, lo: Day, hi: Day)
    requires NoOrphans(s, lo, hi) && !step.Remove?
    ensures NoOrphans(Next(s, step), lo, hi)
  {
    hide Fresh;
    var s' := Next(s, step);
    if step.Record? {
      assert forall i :: 0 <= i < |s.events| ==> s'.events[i + 1] == s.events[i];
      forall k | Touched(s.events, k) ensures Touched(s'.events, k) {
        var i :| 0 <= i < |s.events| && KeyOf(s.events[i]) == k;
        assert KeyOf(s'.events[i + 1]) == k;
      }
    }
  }

  // ---------------------------------------------------------------------------
  // Adding rows up
  // ---------------------------------------------------------------------------

  ghost function SumMap(m: map<Key, int>): int {
    if m == map[] then 0
    else
      var k :| k in m;
      m[k] + SumMap(m - {k})
  }

  lemma {:induction false} SumWithout(m: map<Key, int>, k: Key)
    requires k in m
    ensures SumMap(m) == m[k] + SumMap(m - {k})
    decreases |m|
  {
    var j :| j in m && SumMap(m) == m[j] + SumMap(m - {j});
    if j != k {
      assert (m - {j}).Keys == m.Keys - {j};
      SumWithout(m - {j}, k);
      assert (m - {k}).Keys == m.Keys - {k};
      SumWithout(m - {k}, j);
      assert m - {j} - {k} == m - {k} - {j};
    }
  }

  lemma SumChangedAt(m: map<Key, int>, n: map<Key, int>, k: Key)
    requires k in m && k in n && n == m[k := n[k]]
    ensures SumMap(n) == SumMap(m) + n[k] - m[k]
  {
    SumWithout(m, k);
    SumWithout(n, k);
    assert m - {k} == n - {k};
  }

  lemma {:induction false} SumOfZeroes(m: map<Key, int>)
    requires forall k :: k in m ==> m[k] == 0
    ensures SumMap(m) == 0
    decreases |m|
  {
    if m != map[] {
      var k :| k in m;
      SumWithout(m, k);
      assert (m - {k}).Keys == m.Keys - {k};
      SumOfZeroes(m - {k});
    }
  }

  predicate Within(k: Key, lo: Day, hi: Day) {
    lo <= k.day <= hi
  }

  /** The overview: the rows of the days `lo` to `hi`. */
  ghost function Overview(stats: map<Key, Stat>, lo: Day, hi: Day, c: Column): int {
    SumMap(map k | k in stats && Within(k, lo, hi) :: stats[k].Get(c))
  }

  /** The raw figure of the same days; viewers count once per course and day. */
  function Raw(events: seq<Event>, lo: Day, hi: Day, c: Column): int {
    if c == UniqueViewers then |ViewerDays(events, lo, hi)| else RawSum(events, lo, hi, c)
  }

  function RawSum(events: seq<Event>, lo: Day, hi: Day, c: Column): int {
    if events == [] then 0
    else (if Within(KeyOf(events[0]), lo, hi) then Weight(events[0], c) else 0) + RawSum(events[1..], lo, hi, c)
  }

  function ViewerDays(events: seq<Event>, lo: Day, hi: Day): set<(Key, UserId)> {
    if events == [] then {}
    else
      (if events[0].Watch? && Within(KeyOf(events[0]), lo, hi) then {(KeyOf(events[0]), events[0].user)} else {})
      + ViewerDays(events[1..], lo, hi)
  }

  lemma {:induction false} ViewerDayOf(events: seq<Event>, lo: Day, hi: Day, k: Key, u: UserId)
    ensures (k, u) in ViewerDays(events, lo, hi) <==> Within(k, lo, hi) && u in ViewersAt(events, k)
  {
    if events != [] { ViewerDayOf(events[1..], lo, hi, k, u); }
  }

  /** One event more raises the raw figure by what it raises its own course and day. */
  lemma RawStep(e: Event, rest: seq<Event>, lo: Day, hi: Day, c: Column)
    ensures Raw([e] + rest, lo, hi, c)
            == Raw(rest, lo, hi, c)
               + if Within(KeyOf(e), lo, hi) then Value([e] + rest, KeyOf(e), c) - Value(rest, KeyOf(e), c) else 0
  {
    var events := [e] + rest;
    assert events[1..] == rest;
    if c == UniqueViewers && e.Watch? && Within(KeyOf(e), lo, hi) {
      ViewerDayOf(rest, lo, hi, KeyOf(e), e.user);
      assert ViewerDays(events, lo, hi) == ViewerDays(rest, lo, hi) + {(KeyOf(e), e.user)};
      assert ViewersAt(events, KeyOf(e)) == ViewersAt(rest, KeyOf(e)) + {e.user};
      if e.user in ViewersAt(rest, KeyOf(e)) {
        assert ViewerDays(events, lo, hi) == ViewerDays(rest, lo, hi);
        assert ViewersAt(events, KeyOf(e)) == ViewersAt(rest, KeyOf(e));
      }
    }
  }

  ghost function Values(events: seq<Event>, keys: set<Key>, c: Column): map<Key, int> {
    map k | k in keys :: Value(events, k, c)
  }

  /** Grouping by course and day loses nothing as long as every event has its group. */
  lemma {:induction false} GroupsAddUp(events: seq<Event>, keys: set<Key>, lo: Day, hi: Day, c: Column)
    requires forall k :: k in keys ==> Within(k, lo, hi)
    requires forall i :: 0 <= i < |events| && Within(KeyOf(events[i]), lo, hi) ==> KeyOf(events[i]) in keys
    ensures SumMap(Values(events, keys, c)) == Raw(events, lo, hi, c)
  {
    if events == [] {
      SumOfZeroes(Values(events, keys, c));
    } else {
      var e, rest := events[0], events[1..];
      assert events == [e] + rest;
      assert forall i :: 0 <= i < |rest| ==> rest[i] == events[i + 1];
      GroupsAddUp(rest, keys, lo, hi, c);
      RawStep(e, rest, lo, hi, c);
      GroupStep(e, rest, keys, c);
    }
  }

  lemma GroupStep(e: Event, rest: seq<Event>, keys: set<Key>, c: Column)
    ensures SumMap(Values([e] + rest, keys, c))
            == SumMap(Values(rest, keys, c))
               + if KeyOf(e) in keys then Value([e] + rest, KeyOf(e), c) - Value(rest, KeyOf(e), c) else 0
  {
    hide Value;
    var before, after := Values(rest, keys, c), Values([e] + rest, keys, c);
    forall k | k in keys && k != KeyOf(e) ensures after[k] == before[k] {
      ValueElsewhere(e, rest, k, c);
    }
    if KeyOf(e) in keys {
      assert after == before[KeyOf(e) := after[KeyOf(e)]];
      SumChangedAt(before, after, KeyOf(e));
    } else {
      assert after == before;
    }
  }

  lemma ValueElsewhere(e: Event, rest: seq<Event>, k: Key, c: Column)
    requires KeyOf(e) != k
    ensures Value([e] + rest, k, c) == Value(rest, k, c)
  {
  }

  /**
    However often and in whatever order days are rolled up, once each day of a
    span was rolled up after its last event the overview of the span is the
    figure the raw events give, as long as no number of the span is an orphan.
   */
  lemma OverviewIsRaw(steps: seq<Step>, lo: Day, hi: Day, c: Column)
    requires forall d :: lo <= d <= hi ==> d !in Run(steps).dirty
    requires NoOrphans(Run(steps), lo, hi)
    ensures Overview(Run(steps).stats, lo, hi, c) == Raw(Run(steps).events, lo, hi, c)
  {
    hide Fresh, Raw, Value;
    var s := Run(steps);
    RunsConsistent(steps);
    var keys := set k | k in s.stats && Within(k, lo, hi);
    forall i | 0 <= i < |s.events| && Within(KeyOf(s.events[i]), lo, hi) ensures KeyOf(s.events[i]) in keys {
      assert Touched(s.events, KeyOf(s.events[i]));
    }
    GroupsAddUp(s.events, keys, lo, hi, c);
    forall k | k in keys ensures s.stats[k].Get(c) == Value(s.events, k, c) { FreshColumn(s.events, k, c); }
    assert Values(s.events, keys, c) == map k | k in s.stats && Within(k, lo, hi) :: s.stats[k].Get(c);
  }

  lemma FreshColumn(events: seq<Event>, k: Key, c: Column)
    ensures Fresh(events, k).Get(c) == Value(events, k, c)
  {
  }

  // ---------------------------------------------------------------------------
  // When the rows behind a number are gone
  // ---------------------------------------------------------------------------

  function StatAt(stats: map<Key, Stat>, k: Key): Stat {
    if k in stats then stats[k] else ZERO
  }

  lemma UntouchedIsZero(events: seq<Event>, k: Key)
    requires !Touched(events, k)
    ensures Fresh(events, k) == ZERO
  {
    Unwatched(events, k);
    forall c { Silent(events, k, c); }
  }

  /**
    A rollup sets a number right if and only if the course still has a row on
    that day, or the number was right before: a course whose rows are gone keeps
    its old numbers however often the day is rolled up.
   */
  lemma RerunCorrectsIff(stats: map<Key, Stat>, events: seq<Event>, k: Key)
    ensures StatAt(RolledUp(stats, events, k.day), k) == Fresh(events, k) <==>
            Touched(events, k) || StatAt(stats, k) == ZERO
  {
    hide Fresh;
    assert k == Key(k.course, k.day);
    if !Touched(events, k) { UntouchedIsZero(events, k); }
  }

  /** In every run: on a clean day a number is right if and only if its course has an event that day, or it is zero. */
  lemma CleanDayIsRightIff(steps: seq<Step>, k: Key)
    requires k.day !in Run(steps).dirty
    ensures var s := Run(steps);
            StatAt(s.stats, k) == Fresh(s.events, k) <==> Touched(s.events, k) || StatAt(s.stats, k) == ZERO
  {
    hide Fresh;
    RunsConsistent(steps);
    if !Touched(Run(steps).events, k) { UntouchedIsZero(Run(steps).events, k); }
  }

  /** One watch event, rolled up, removed, and rolled up again: the day is clean and the number stays. */
  lemma StaleRow(e: Event)
    requires e.Watch? && e.delta > 0
    ensures var k := KeyOf(e);
            var s := Run([Record(e), Roll(k.day), Remove(0), Roll(k.day)]);
            s.dirty == {} && Fresh(s.events, k) == ZERO && StatAt(s.stats, k).watchSeconds == e.delta
  {
    var k := KeyOf(e);
    var s1 := Next(State([], map[], {}), Record(e));
    var s2 := Next(s1, Roll(k.day));
    var s3 := Next(s2, Remove(0));
    assert s1.events == [e] && s3.events == [];
    assert k == Key(k.course, k.day) && Touched([e], k) by { assert [e][0] == e; }
    assert SumAt([e], k, WatchSeconds) == e.delta + SumAt([], k, WatchSeconds);
    assert s2.stats[k].watchSeconds == e.delta;
    RunOfFour(Record(e), Roll(k.day), Remove(0), Roll(k.day));
  }

  lemma RunOfFour(a: Step, b: Step, c: Step, d: Step)
    ensures Run([a, b, c, d]) == Next(Next(Next(Next(State([], map[], {}), a), b), c), d)
  {
    hide Next;
    assert [a, b, c, d][..3] == [a, b, c] && [a, b, c][..2] == [a, b] && [a, b][..1] == [a] && [a][..0] == [];
    assert Run([a]) == Next(Run([]), a);
    assert Run([a, b]) == Next(Run([a]), b);
    assert Run([a, b, c]) == Next(Run([a, b]), c);
  }
}
