/**
  The read-through cache in front of the catalogue, as a state machine: loads
  interleave with changes of the database, with busts that may fail half way, and
  with expiry. `truths` is the history of what the database would answer.
 */
module Cache {
  import opened Options

  type Ms = int
  type Key = nat
  type Value = int
  type LoadId = nat

  /** From `at` on, this is what a loader would find; a key without an answer has the value 0. */
  datatype Truth = Truth(at: Ms, answers: map<Key, Value>)

  datatype Reading = Reading(value: Value, at: Ms)

  /** A call of `remember` that missed. */
  datatype Load = Load(key: Key, ttl: Ms, startedAt: Ms, read: Option<Reading>)

  datatype Cached = Cached(value: Value, readAt: Ms, startedAt: Ms, storedAt: Ms, ttl: Ms)

  datatype State = State(now: Ms, truths: seq<Truth>, cache: map<Key, Cached>, loads: map<LoadId, Load>)

  datatype Step =
    | Tick(now: Ms)
    | Mutate(answers: map<Key, Value>)
    | Bust(removed: set<Key>)                    // what a scan deleted
    | Miss(load: LoadId, key: Key, ttl: Ms)      // nothing cached, or the cache is down
    | Read(load: LoadId)
    | Store(load: LoadId, ok: bool)

  function Answer(answers: map<Key, Value>, k: Key): Value {
    if k in answers then answers[k] else 0
  }

  function Current(s: State, k: Key): Value {
    if s.truths == [] then 0 else Answer(s.truths[|s.truths| - 1].answers, k)
  }

  /** What a lookup finds. */
  function Lookup(s: State, k: Key): Option<Value> {
    if k in s.cache && s.now < s.cache[k].storedAt + s.cache[k].ttl then Some(s.cache[k].value) else None
  }

  predicate Enabled(s: State, step: Step) {
    match step
    case Tick(t) => s.now <= t
    case Mutate(_) => true
    case Bust(_) => true
    case Miss(l, _, ttl) => l !in s.loads && ttl > 0
    case Read(l) => l in s.loads && s.loads[l].read.None?
    case Store(l, _) => l in s.loads && s.loads[l].read.Some?
  }

  function Next(s: State, step: Step): State
    requires Enabled(s, step)
  {
    match step
    case Tick(t) => s.(now := t)
    case Mutate(answers) => s.(truths := s.truths + [Truth(s.now, answers)])
    case Bust(removed) => s.(cache := s.cache - removed)
    case Miss(l, k, ttl) => s.(loads := s.loads[l := Load(k, ttl, s.now, None)])
    case Read(l) => s.(loads := s.loads[l := s.loads[l].(read := Some(Reading(Current(s, s.loads[l].key), s.now)))])
    case Store(l, ok) =>
      var load := s.loads[l];
      s.(cache := if ok then s.cache[load.key := Cached(load.read.value.value, load.read.value.at, load.startedAt, s.now, load.ttl)]
                  else s.cache,
         loads := s.loads - {l})
  }

  ghost predicate Run(s: State, steps: seq<Step>, s': State)
    decreases |steps|
  {
    if steps == [] then s == s'
    else Enabled(s, steps[0]) && Run(Next(s, steps[0]), steps[1..], s')
  }

  ghost predicate Init(s: State) {
    |s.truths| == 1 && s.truths[0].at <= s.now && s.cache == map[] && s.loads == map[]
  }

  // ---------------------------------------------------------------------------
  // How old a value can be
  // ---------------------------------------------------------------------------

  /** At moment `m` the database would have answered `v`. */
  ghost predicate TrueAt(truths: seq<Truth>, k: Key, v: Value, m: Ms) {
    exists i :: 0 <= i < |truths| && Answer(truths[i].answers, k) == v && truths[i].at <= m
                && (i + 1 < |truths| ==> m <= truths[i + 1].at)
  }

  ghost predicate LoadOk(s: State, load: Load) {
    load.startedAt <= s.now
    && (load.read.Some? ==>
          load.startedAt <= load.read.value.at <= s.now && TrueAt(s.truths, load.key, load.read.value.value, load.read.value.at))
  }

  ghost predicate CachedOk(s: State, k: Key, c: Cached) {
    c.startedAt <= c.readAt <= c.storedAt <= s.now && TrueAt(s.truths, k, c.value, c.readAt)
  }

  ghost predicate Inv(s: State) {
    && s.truths != [] && s.truths[|s.truths| - 1].at <= s.now
    && (forall l :: l in s.loads ==> LoadOk(s, s.loads[l]))
    && (forall k :: k in s.cache ==> CachedOk(s, k, s.cache[k]))
  }

  lemma TruthsGrow(truths: seq<Truth>, next: Truth, k: Key, v: Value, m: Ms)
    requires TrueAt(truths, k, v, m) && m <= next.at
    ensures TrueAt(truths + [next], k, v, m)
  {
    var i :| 0 <= i < |truths| && Answer(truths[i].answers, k) == v && truths[i].at <= m
             && (i + 1 < |truths| ==> m <= truths[i + 1].at);
    var grown := truths + [next];
    assert grown[i] == truths[i] && Answer(grown[i].answers, k) == v;
    assert grown[|truths|] == next;
    assert i + 1 < |truths| ==> grown[i + 1] == truths[i + 1];
  }

  lemma StepKeeps(s: State, step: Step)
    requires Inv(s) && Enabled(s, step)
    ensures Inv(Next(s, step))
  {
    hide TrueAt;
    match step {
      case Mutate(answers) => MutateKeeps(s, answers);
      case Read(l) => CurrentIsTrue(s, s.loads[l].key);
      case _ =>
    }
  }

  lemma MutateKeeps(s: State, answers: map<Key, Value>)
    requires Inv(s)
    ensures Inv(s.(truths := s.truths + [Truth(s.now, answers)]))
  {
    hide TrueAt;
    var next := Truth(s.now, answers);
    forall l | l in s.loads && s.loads[l].read.Some?
      ensures TrueAt(s.truths + [next], s.loads[l].key, s.loads[l].read.value.value, s.loads[l].read.value.at)
    {
      TruthsGrow(s.truths, next, s.loads[l].key, s.loads[l].read.value.value, s.loads[l].read.value.at);
    }
    forall k | k in s.cache ensures TrueAt(s.truths + [next], k, s.cache[k].value, s.cache[k].readAt) {
      TruthsGrow(s.truths, next, k, s.cache[k].value, s.cache[k].readAt);
    }
  }

  lemma CurrentIsTrue(s: State, k: Key)
    requires s.truths != [] && s.truths[|s.truths| - 1].at <= s.now
    ensures TrueAt(s.truths, k, Current(s, k), s.now)
  {
  }

  lemma {:induction false} RunKeeps(s: State, steps: seq<Step>, s': State)
    requires Inv(s) && Run(s, steps, s')
    ensures Inv(s')
    decreases |steps|
  {
    hide Inv, Next, Enabled;
    if steps != [] {
      StepKeeps(s, steps[0]);
      RunKeeps(Next(s, steps[0]), steps[1..], s');
    }
  }

  /**
    Whatever a lookup finds was the database's answer at some moment not longer
    ago than the time to live and the time its load took - in every interleaving
    with changes, and even if every bust failed.
   */
  lemma StalenessIsBounded(s0: State, steps: seq<Step>, s: State, k: Key)
    requires Init(s0) && Run(s0, steps, s) && Lookup(s, k).Some?
    ensures var c := s.cache[k];
            c.startedAt <= c.storedAt
            && exists m :: TrueAt(s.truths, k, Lookup(s, k).value, m)
                           && s.now - c.ttl - (c.storedAt - c.startedAt) < m <= s.now
  {
    RunKeeps(s0, steps, s);
    assert CachedOk(s, k, s.cache[k]);
  }

  /** What a load returns itself was true while it ran. */
  lemma LoadIsRecent(s0: State, steps: seq<Step>, s: State, l: LoadId)
    requires Init(s0) && Run(s0, steps, s) && l in s.loads && s.loads[l].read.Some?
    ensures var load := s.loads[l];
            load.startedAt <= load.read.value.at <= s.now
            && TrueAt(s.truths, load.key, load.read.value.value, load.read.value.at)
  {
    RunKeeps(s0, steps, s);
    assert LoadOk(s, s.loads[l]);
  }

  // ---------------------------------------------------------------------------
  // When reads are current
  // ---------------------------------------------------------------------------

  /** No load of the key still carries an answer that has changed since. */
  ghost predicate NoOldLoad(s: State, k: Key) {
    forall l :: l in s.loads && s.loads[l].key == k && s.loads[l].read.Some? ==> s.loads[l].read.value.value == Current(s, k)
  }

  ghost predicate Quiet(s: State, steps: seq<Step>, s': State) {
    Run(s, steps, s') && forall i :: 0 <= i < |steps| ==> !steps[i].Mutate?
  }

  lemma {:induction false} StaysCurrent(s: State, steps: seq<Step>, s': State, k: Key)
    requires Quiet(s, steps, s') && NoOldLoad(s, k) && (k in s.cache ==> s.cache[k].value == Current(s, k))
    ensures NoOldLoad(s', k) && (k in s'.cache ==> s'.cache[k].value == Current(s', k)) && Current(s', k) == Current(s, k)
    decreases |steps|
  {
    hide Answer;
    if steps != [] {
      assert !steps[0].Mutate?;
      assert forall i :: 0 <= i < |steps| - 1 ==> steps[1..][i] == steps[i + 1];
      StaysCurrent(Next(s, steps[0]), steps[1..], s', k);
    }
  }

  /**
    After a bust that removed the key, every later read until the next change is
    current if and only if no load carries an old answer over the bust.
   */
  lemma CurrentAfterBustIff(s: State, k: Key)
    requires k !in s.cache && forall l :: l in s.loads ==> s.loads[l].ttl > 0
    ensures NoOldLoad(s, k) <==>
            forall steps, s' :: Quiet(s, steps, s') && Lookup(s', k).Some? ==> Lookup(s', k).value == Current(s', k)
  {
    if NoOldLoad(s, k) {
      forall steps, s' | Quiet(s, steps, s') && Lookup(s', k).Some? ensures Lookup(s', k).value == Current(s', k) {
        StaysCurrent(s, steps, s', k);
      }
    } else {
      var l :| l in s.loads && s.loads[l].key == k && s.loads[l].read.Some? && s.loads[l].read.value.value != Current(s, k);
      OldLoadShows(s, k, l);
    }
  }

  /** The load that overlapped stores its old answer, and the next lookup finds it. */
  lemma OldLoadShows(s: State, k: Key, l: LoadId)
    requires l in s.loads && s.loads[l].key == k && s.loads[l].read.Some? && s.loads[l].ttl > 0
    ensures var s' := Next(s, Store(l, true));
            Quiet(s, [Store(l, true)], s') && Lookup(s', k) == Some(s.loads[l].read.value.value) && Current(s', k) == Current(s, k)
  {
  }

  // ---------------------------------------------------------------------------
  // The service
  // ---------------------------------------------------------------------------

  lemma {:induction false} RunSnoc(s: State, steps: seq<Step>, mid: State, step: Step)
    requires Run(s, steps, mid) && Enabled(mid, step)
    ensures Run(s, steps + [step], Next(mid, step))
    decreases |steps|
  {
    hide Next, Enabled;
    if steps == [] {
      assert [step][1..] == [] && steps + [step] == [step];
    } else {
      assert (steps + [step])[1..] == steps[1..] + [step];
      RunSnoc(Next(s, steps[0]), steps[1..], mid, step);
    }
  }

  predicate ActsFor(step: Step, l: LoadId) {
    (step.Read? || step.Store?) && step.load == l
  }

  class RedisService {
    var now: Ms
    var truths: seq<Truth>
    var cache: map<Key, Cached>
    var loads: map<LoadId, Load>

    constructor (now: Ms, answers: map<Key, Value>)
      ensures Init(Abs())
    {
      this.now, truths, cache, loads := now, [Truth(now, answers)], map[], map[];
    }

    function Abs(): State
      reads this
    {
      State(now, truths, cache, loads)
    }

    method Perform(step: Step)
      requires Enabled(Abs(), step)
      modifies this
      ensures Abs() == Next(old(Abs()), step)
    {
      var next := Next(Abs(), step);
      now, truths, cache, loads := next.now, next.truths, next.cache, next.loads;
    }

    /** Other calls, changes of the database, busts and the clock. */
    method Interfere(l: LoadId, script: seq<Step>, ghost start: State, ghost before: seq<Step>) returns (ghost steps: seq<Step>)
      requires Run(start, before, Abs()) && l in loads
      modifies this
      ensures Run(start, steps, Abs()) && l in loads && loads[l] == old(loads)[l]
    {
      steps := before;
      for i := 0 to |script|
        invariant Run(start, steps, Abs()) && l in loads && loads[l] == old(loads)[l]
      {
        if Enabled(Abs(), script[i]) && !ActsFor(script[i], l) {
          RunSnoc(start, steps, Abs(), script[i]);
          Perform(script[i]);
          steps := steps + [script[i]];
        }
      }
    }

    /** `remember`: a hit answers at once, otherwise the loader runs even if the cache is down. */
    method Remember(k: Key, ttl: Ms, l: LoadId, down: bool, storeFails: bool, world: nat -> seq<Step>)
      returns (value: Value, ghost steps: seq<Step>)
      requires Inv(Abs()) && l !in loads && ttl > 0
      modifies this
      ensures Run(old(Abs()), steps, Abs())
      ensures !down && old(Lookup(Abs(), k)).Some? ==> value == old(Lookup(Abs(), k)).value && steps == []
      ensures down || old(Lookup(Abs(), k)).None? ==>
                exists m :: old(now) <= m <= now && TrueAt(truths, k, value, m)
    {
      hide Inv, Next, Run, TrueAt;
      ghost var start := Abs();
      StartOfRun(start);
      steps := [];
      if !down {
        var hit := Lookup(Abs(), k);
        if hit.Some? {
          value := hit.value;
          return;
        }
      }
      RunSnoc(start, [], start, Miss(l, k, ttl));
      Perform(Miss(l, k, ttl));
      MissStarts(start, l, k, ttl);
      steps := Interfere(l, world(0), start, [] + [Miss(l, k, ttl)]);
      ghost var s := Abs();
      RunSnoc(start, steps, s, Step.Read(l));
      Perform(Step.Read(l));
      ReadHappens(s, l);
      steps := Interfere(l, world(1), start, steps + [Step.Read(l)]);
      value := loads[l].read.value.value;
      s := Abs();
      RunKeeps(start, steps, s);
      LoadWasTrue(s, l);
      RunSnoc(start, steps, s, Store(l, !storeFails));
      Perform(Store(l, !storeFails));
      StoreKeepsHistory(s, l, !storeFails);
      steps := steps + [Store(l, !storeFails)];
    }

    /** Anything anybody does. */
    method Meanwhile(script: seq<Step>, ghost start: State, ghost before: seq<Step>) returns (ghost steps: seq<Step>)
      requires Run(start, before, Abs())
      modifies this
      ensures Run(start, steps, Abs()) && before <= steps
    {
      hide Run, Next, Enabled;
      steps := before;
      for i := 0 to |script|
        invariant Run(start, steps, Abs()) && before <= steps
      {
        if Enabled(Abs(), script[i]) {
          ghost var s := Abs();
          RunSnoc(start, steps, s, script[i]);
          Perform(script[i]);
          steps := steps + [script[i]];
        }
      }
    }

    /**
      The scan: each batch of keys it reports is deleted, others run in between,
      and an error ends it early. `cuts` are the places of its deletions in the run
      and `at` the states they found: a key it reported that is cached at the end
      was stored by a load after its own deletion.
     */
    method DelByPattern(batches: seq<set<Key>>, failAt: nat, world: nat -> seq<Step>)
      returns (removed: nat, ghost steps: seq<Step>, ghost cuts: seq<nat>, ghost at: seq<State>)
      modifies this
      ensures Run(old(Abs()), steps, Abs())
      ensures |cuts| == |at| == if failAt < |batches| then failAt else |batches|
      ensures forall i :: 0 <= i < |cuts| ==> cuts[i] < |steps| && Deletes(old(Abs()), steps, cuts[i], at[i], batches[i])
      ensures removed == Hits(at, batches[..|at|])
      ensures forall i, k :: 0 <= i < |cuts| && k in batches[i] && k in cache ==>
                StoredIn(Next(at[i], Bust(batches[i])), steps[cuts[i] + 1..], k)
    {
      hide Next, Run, Deletes, StoredIn, Hits;
      ghost var start := Abs();
      StartOfRun(start);
      NoHits();
      removed, steps, cuts, at := 0, [], [], [];
      var n := if failAt < |batches| then failAt else |batches|;
      for i := 0 to n
        invariant Run(start, steps, Abs()) && |cuts| == |at| == i
        invariant forall j :: 0 <= j < i ==> cuts[j] < |steps| && Deletes(start, steps, cuts[j], at[j], batches[j])
        invariant removed == Hits(at, batches[..i])
      {
        ghost var was := steps;
        steps := Meanwhile(world(i), start, steps);
        ghost var s, cut := Abs(), |steps|;
        var count := DeleteKeys(batches[i]);
        RunSnoc(start, steps, s, Bust(batches[i]));
        DeletesHere(start, steps, s, batches[i]);
        forall j | 0 <= j < i ensures Deletes(start, steps + [Bust(batches[i])], cuts[j], at[j], batches[j]) {
          StillDeletes(start, was, steps + [Bust(batches[i])], cuts[j], at[j], batches[j]);
        }
        steps := steps + [Bust(batches[i])];
        OneHitMore(at, batches, i, s);
        cuts, at := cuts + [cut], at + [s];
        removed := removed + count;
      }
      ghost var was := steps;
      steps := Meanwhile(world(n), start, steps);
      forall j | 0 <= j < n ensures Deletes(start, steps, cuts[j], at[j], batches[j]) {
        StillDeletes(start, was, steps, cuts[j], at[j], batches[j]);
      }
      forall i, k | 0 <= i < |cuts| && k in batches[i] && k in cache
        ensures StoredIn(Next(at[i], Bust(batches[i])), steps[cuts[i] + 1..], k)
      {
        StoredAgain(start, steps, Abs(), cuts[i], at[i], batches[i], k);
      }
    }

    method DeleteKeys(keys: set<Key>) returns (count: nat)
      modifies this`cache
      ensures Abs() == Next(old(Abs()), Bust(keys))
      ensures count == |HitKeys(old(Abs()), keys)|
    {
      count := |HitKeys(Abs(), keys)|;
      cache := cache - keys;
    }
  }

  // ---------------------------------------------------------------------------
  // A scan among others
  // ---------------------------------------------------------------------------

  function HitKeys(s: State, keys: set<Key>): set<Key> {
    set k | k in s.cache && k in keys
  }

  /** What the deletions of a scan removed, each counted in the state it found. */
  function Hits(at: seq<State>, batches: seq<set<Key>>): nat
    requires |at| == |batches|
  {
    if at == [] then 0
    else Hits(at[..|at| - 1], batches[..|at| - 1]) + |HitKeys(at[|at| - 1], batches[|at| - 1])|
  }

  lemma NoHits()
    ensures Hits([], []) == 0
  {
  }

  lemma OneHitMore(at: seq<State>, batches: seq<set<Key>>, i: nat, s: State)
    requires i < |batches| && |at| == i
    ensures Hits(at + [s], batches[..i + 1]) == Hits(at, batches[..i]) + |HitKeys(s, batches[i])|
  {
    assert (at + [s])[..i] == at && batches[..i + 1][..i] == batches[..i];
  }

  /** Step `cut` of the run deletes these keys, and finds this state. */
  ghost predicate Deletes(start: State, steps: seq<Step>, cut: nat, mid: State, keys: set<Key>) {
    cut < |steps| && steps[cut] == Bust(keys) && Run(start, steps[..cut], mid)
  }

  lemma DeletesHere(start: State, steps: seq<Step>, s: State, keys: set<Key>)
    requires Run(start, steps, s)
    ensures Deletes(start, steps + [Bust(keys)], |steps|, s, keys)
  {
    hide Run;
    assert (steps + [Bust(keys)])[..|steps|] == steps;
  }

  lemma StillDeletes(start: State, was: seq<Step>, steps: seq<Step>, cut: nat, mid: State, keys: set<Key>)
    requires Deletes(start, was, cut, mid, keys) && was <= steps
    ensures Deletes(start, steps, cut, mid, keys)
  {
    hide Run;
    assert steps[..cut] == was[..cut] && steps[cut] == was[cut];
  }

  /** A run goes on from any of its states. */
  lemma {:induction false} RunSuffix(s: State, steps: seq<Step>, s': State, cut: nat, mid: State)
    requires Run(s, steps, s') && cut < |steps| && Run(s, steps[..cut], mid)
    ensures Enabled(mid, steps[cut]) && Run(Next(mid, steps[cut]), steps[cut + 1..], s')
    decreases cut
  {
    hide Next, Enabled;
    if cut > 0 {
      assert steps[..cut][0] == steps[0] && steps[..cut][1..] == steps[1..][..cut - 1];
      RunSuffix(Next(s, steps[0]), steps[1..], s', cut - 1, mid);
      assert steps[1..][cut..] == steps[cut + 1..];
    }
  }

  /** Some load of this key stores its answer in the run. */
  ghost predicate StoredIn(s: State, steps: seq<Step>, k: Key) {
    exists j, mid :: 0 <= j < |steps| && Run(s, steps[..j], mid) && Stores(mid, steps[j], k)
  }

  predicate Stores(s: State, step: Step, k: Key) {
    step.Store? && step.ok && step.load in s.loads && s.loads[step.load].key == k
  }

  lemma OnlyStoresCache(s: State, step: Step, k: Key)
    requires Enabled(s, step) && k !in s.cache && k in Next(s, step).cache
    ensures Stores(s, step, k)
  {
  }

  /** A key that comes back was stored. */
  lemma {:induction false} ComesBack(s: State, steps: seq<Step>, s': State, k: Key)
    requires Run(s, steps, s') && k !in s.cache && k in s'.cache
    ensures StoredIn(s, steps, k)
    decreases |steps|
  {
    hide Next, Enabled, Stores;
    var mid, rest := Next(s, steps[0]), steps[1..];
    if k in mid.cache {
      OnlyStoresCache(s, steps[0], k);
      assert Run(s, steps[..0], s);
    } else {
      ComesBack(mid, rest, s', k);
      var j, m :| 0 <= j < |rest| && Run(mid, rest[..j], m) && Stores(m, rest[j], k);
      assert steps[..j + 1][0] == steps[0] && steps[..j + 1][1..] == rest[..j];
      assert Run(s, steps[..j + 1], m) && Stores(m, steps[j + 1], k);
    }
  }

  /** What SCAN guarantees: a matching key that is there from its beginning to its end is reported. */
  ghost predicate ReportsAll(start: State, steps: seq<Step>, batches: seq<set<Key>>, matching: set<Key>) {
    forall k :: k in matching && (forall c, mid :: 0 <= c <= |steps| && Run(start, steps[..c], mid) ==> k in mid.cache) ==>
      exists i :: 0 <= i < |batches| && k in batches[i]
  }

  /** Some load of this key stores its answer from some moment of the run on. */
  ghost predicate StoredDuring(start: State, steps: seq<Step>, k: Key) {
    exists c, mid :: 0 <= c <= |steps| && Run(start, steps[..c], mid) && StoredIn(mid, steps[c..], k)
  }

  /** A matching key that is cached after a whole scan was stored while it ran. */
  lemma ScanLeavesOnlyStored(start: State, steps: seq<Step>, end: State, cuts: seq<nat>, at: seq<State>,
                             batches: seq<set<Key>>, matching: set<Key>, k: Key)
    requires Run(start, steps, end) && |cuts| == |at| == |batches| && ReportsAll(start, steps, batches, matching)
    requires forall i :: 0 <= i < |cuts| ==> Deletes(start, steps, cuts[i], at[i], batches[i])
    requires k in matching && k in end.cache
    ensures StoredDuring(start, steps, k)
  {
    hide Run, StoredIn, Next;
    if c, mid :| 0 <= c <= |steps| && Run(start, steps[..c], mid) && k !in mid.cache {
      RunRest(start, steps, end, c, mid);
      ComesBack(mid, steps[c..], end, k);
    } else {
      var i :| 0 <= i < |batches| && k in batches[i];
      assert Deletes(start, steps, cuts[i], at[i], batches[i]);
      StoredAgain(start, steps, end, cuts[i], at[i], batches[i], k);
      DeletionReached(start, steps, cuts[i], at[i], batches[i]);
    }
  }

  lemma DeletionReached(start: State, steps: seq<Step>, cut: nat, mid: State, keys: set<Key>)
    requires Deletes(start, steps, cut, mid, keys)
    ensures cut < |steps| && Run(start, steps[..cut + 1], Next(mid, Bust(keys)))
  {
    hide Run, Next;
    RunSnoc(start, steps[..cut], mid, Bust(keys));
    assert steps[..cut + 1] == steps[..cut] + [Bust(keys)];
  }

  lemma RunRest(s: State, steps: seq<Step>, s': State, cut: nat, mid: State)
    requires Run(s, steps, s') && cut <= |steps| && Run(s, steps[..cut], mid)
    ensures Run(mid, steps[cut..], s')
  {
    hide Next, Enabled, Run;
    if cut == |steps| {
      assert steps[..cut] == steps && steps[cut..] == [];
      RunIsOne(s, steps, s', mid);
      StartOfRun(mid);
    } else {
      RunSuffix(s, steps, s', cut, mid);
      RunCons(mid, steps[cut..], s');
    }
  }

  lemma {:induction false} RunIsOne(s: State, steps: seq<Step>, a: State, b: State)
    requires Run(s, steps, a) && Run(s, steps, b)
    ensures a == b
    decreases |steps|
  {
    hide Next, Enabled;
    if steps != [] { RunIsOne(Next(s, steps[0]), steps[1..], a, b); }
  }

  lemma RunCons(s: State, steps: seq<Step>, s': State)
    requires steps != [] && Enabled(s, steps[0]) && Run(Next(s, steps[0]), steps[1..], s')
    ensures Run(s, steps, s')
  {
  }

  /**
    So a scan during which nobody stores a matching key does what a bust is for: as
    long as no load carries an old answer over it, every later read is current.
   */
  lemma WholeScanMakesCurrent(start: State, steps: seq<Step>, end: State, cuts: seq<nat>, at: seq<State>,
                              batches: seq<set<Key>>, matching: set<Key>, k: Key, later: seq<Step>, s: State)
    requires Run(start, steps, end) && |cuts| == |at| == |batches| && ReportsAll(start, steps, batches, matching)
    requires forall i :: 0 <= i < |cuts| ==> Deletes(start, steps, cuts[i], at[i], batches[i])
    requires k in matching && !StoredDuring(start, steps, k)
    requires NoOldLoad(end, k) && Quiet(end, later, s) && Lookup(s, k).Some?
    ensures Lookup(s, k).value == Current(s, k)
  {
    hide Run, StoredDuring, ReportsAll, Deletes, NoOldLoad, Quiet;
    if k in end.cache { ScanLeavesOnlyStored(start, steps, end, cuts, at, batches, matching, k); }
    StaysCurrent(end, later, s, k);
  }

  lemma StoredAgain(start: State, steps: seq<Step>, end: State, cut: nat, mid: State, keys: set<Key>, k: Key)
    requires Run(start, steps, end) && Deletes(start, steps, cut, mid, keys) && k in keys && k in end.cache
    ensures StoredIn(Next(mid, Bust(keys)), steps[cut + 1..], k)
  {
    hide Run, StoredIn;
    RunSuffix(start, steps, end, cut, mid);
    ComesBack(Next(mid, Bust(keys)), steps[cut + 1..], end, k);
  }

  lemma StartOfRun(s: State)
    ensures Run(s, [], s)
  {
  }

  lemma MissStarts(s: State, l: LoadId, k: Key, ttl: Ms)
    requires Enabled(s, Miss(l, k, ttl))
    ensures Next(s, Miss(l, k, ttl)) == s.(loads := s.loads[l := Load(k, ttl, s.now, None)])
  {
  }

  lemma ReadHappens(s: State, l: LoadId)
    requires Enabled(s, Step.Read(l))
    ensures var s' := Next(s, Step.Read(l));
            l in s'.loads && s'.loads[l] == s.loads[l].(read := s'.loads[l].read) && s'.loads[l].read.Some?
  {
  }

  lemma LoadWasTrue(s: State, l: LoadId)
    requires Inv(s) && l in s.loads && s.loads[l].read.Some?
    ensures var load := s.loads[l];
            load.startedAt <= load.read.value.at <= s.now && TrueAt(s.truths, load.key, load.read.value.value, load.read.value.at)
  {
  }

  lemma StoreKeepsHistory(s: State, l: LoadId, ok: bool)
    requires Enabled(s, Store(l, ok))
    ensures Next(s, Store(l, ok)).truths == s.truths && Next(s, Store(l, ok)).now == s.now
  {
  }
}
