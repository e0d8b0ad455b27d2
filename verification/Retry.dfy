/**
  The two retry loops: one around a serializable transaction that may lose a
  race, one around a write whose acknowledgement may be lost. What the database
  does to each attempt, what others do between attempts, and the jitter are
  inputs.
 */
module Retry {
  import opened Options

  // ---------------------------------------------------------------------------
  // Waiting
  // ---------------------------------------------------------------------------

  function Pow2(n: nat): (p: nat)
    ensures p >= 1
  {
    if n == 0 then 1 else 2 * Pow2(n - 1)
  }

  /** The longest wait after attempt `n`. */
  function WindowOf(n: nat, base: nat, max: nat): nat
    requires n >= 1
  {
    if base * Pow2(n - 1) <= max then base * Pow2(n - 1) else max
  }

  /** The longest waits after the first `n` attempts together. */
  function Windows(n: nat, base: nat, max: nat): nat {
    if n == 0 then 0 else Windows(n - 1, base, max) + WindowOf(n, base, max)
  }

  /** Doubling from `base` and capping at `max` are both bounds on the whole wait. */
  lemma {:induction false} WaitIsBounded(n: nat, base: nat, max: nat)
    ensures Windows(n, base, max) <= base * (Pow2(n) - 1)
    ensures Windows(n, base, max) <= n * max
  {
    if n > 0 {
      WaitIsBounded(n - 1, base, max);
      DoubledBase(base, Pow2(n - 1));
      OneMoreMax(n, max);
    }
  }

  lemma DoubledBase(base: nat, p: nat)
    ensures base * (p - 1) + base * p == base * (2 * p - 1)
  {
  }

  lemma OneMoreMax(n: nat, max: nat)
    requires n >= 1
    ensures (n - 1) * max + max == n * max
  {
  }

  /** 7.5 seconds for the database loop, 75 milliseconds for the transaction loop. */
  lemma DefaultWaits()
    ensures Windows(4, 500, 8000) == 7500 && Windows(2, 25, 400) == 75
  {
  }

  lemma WindowsNext(n: nat, base: nat, max: nat)
    ensures Windows(0, base, max) == 0
    ensures Windows(n + 1, base, max) == Windows(n, base, max) + WindowOf(n + 1, base, max)
  {
  }

  lemma Scaled(r: real, w: real)
    requires 0.0 <= r < 1.0 && 0.0 <= w
    ensures 0.0 <= r * w <= w
  {
  }

  // ---------------------------------------------------------------------------
  // A serializable transaction
  // ---------------------------------------------------------------------------

  /** What becomes of one attempt. */
  datatype Fate =
    | Runs         // the body runs, and its writes are committed unless it throws
    | Conflicts    // P2034: nothing was done
    | AckLost      // as Runs, but the connection ends before the acknowledgement

  datatype Answer<T, E> = Returned(value: T) | Threw(error: E) | ConnectionLost | Conflict | NeverRan

  /** The state attempt `n` sees: attempts that lost left nothing behind. */
  function Seen<D>(world: (nat, D) -> D, db: D, n: nat): D {
    if n == 0 then db else world(n, Seen(world, db, n - 1))
  }

  /** The first attempt from `n` on that does not lose its race, or `attempts + 1`. */
  function Winner(fate: nat -> Fate, n: nat, attempts: nat): (w: nat)
    requires n <= attempts + 1
    ensures n <= w <= attempts + 1
    ensures forall i :: n <= i < w ==> fate(i) == Conflicts
    ensures w <= attempts ==> fate(w) != Conflicts
    decreases attempts + 1 - n
  {
    if n > attempts || fate(n) != Conflicts then n else Winner(fate, n + 1, attempts)
  }

  /**
    `withSerializableRetry`. The body is committed at most once; exactly once when
    the call returns; and when it throws, exactly if only the acknowledgement of
    the winning attempt was lost. The committed attempt read the state it changed.
   */
  method WithSerializableRetry<D(!new), T(!new), E(!new)>(
      db0: D, body: D -> Result<(D, T), E>, fate: nat -> Fate, world: (nat, D) -> D,
      attempts: int, base: nat, max: nat, random: nat -> real)
    returns (answer: Answer<T, E>, db: D, runs: nat, commits: nat, waited: real)
    requires forall n :: 0.0 <= random(n) < 1.0
    ensures attempts <= 0 ==> answer == NeverRan && db == db0 && runs == 0
    ensures attempts > 0 ==>
              var w := Winner(fate, 1, attempts);
              if w > attempts then answer == Conflict && runs == attempts && db == Seen(world, db0, attempts)
              else
                var seen := Seen(world, db0, w);
                runs == w
                && match body(seen)
                   case Err(e) => answer == Threw(e) && db == seen
                   case Ok((next, value)) =>
                     db == next && answer == if fate(w) == AckLost then ConnectionLost else Returned(value)
    ensures commits <= 1
    ensures answer.Returned? ==> commits == 1
    ensures !answer.Returned? ==> (commits == 1 <==> answer.ConnectionLost?)
    ensures 0.0 <= waited <= Windows(if runs == 0 then 0 else runs - 1, base, max) as real
  {
    hide Windows, WindowOf;
    db, runs, commits, waited := db0, 0, 0, 0.0;
    answer := NeverRan;
    WindowsNext(0, base, max);
    while runs < attempts
      invariant 0 <= runs && commits == 0 && db == Seen(world, db0, runs)
      invariant attempts <= 0 ==> runs == 0
      invariant attempts > 0 ==> runs < attempts && Winner(fate, 1, attempts) == Winner(fate, runs + 1, attempts)
      invariant runs > 0 ==> answer == Conflict
      invariant runs == 0 ==> answer == NeverRan
      invariant 0.0 <= waited <= Windows(runs, base, max) as real
      decreases attempts - runs
    {
      ghost var already := runs;
      runs := runs + 1;
      db := world(runs, db);
      if fate(runs) == Conflicts {
        answer := Conflict;
        if runs == attempts {
          break;
        }
        var delay := Jitter(runs, base, max, random(runs));
        WindowsNext(already, base, max);
        waited := waited + delay;
      } else {
        var result := body(db);
        match result {
          case Err(e) => answer := Threw(e);
          case Ok((next, value)) =>
            db, commits := next, 1;
            answer := if fate(runs) == AckLost then ConnectionLost else Returned(value);
        }
        return;
      }
    }
  }

  method Jitter(n: nat, base: nat, max: nat, r: real) returns (delay: real)
    requires n >= 1 && 0.0 <= r < 1.0
    ensures 0.0 <= delay <= WindowOf(n, base, max) as real
  {
    hide WindowOf, Pow2;
    var window := WindowOf(n, base, max);
    Scaled(r, window as real);
    delay := r * window as real;
  }

  // ---------------------------------------------------------------------------
  // A write that sets fixed values
  // ---------------------------------------------------------------------------

  datatype Try =
    | Done           // applied and acknowledged
    | Unreachable    // transient, not applied
    | LostAck        // transient, applied
    | Refused        // any other error, not applied

  predicate Transient(t: Try) {
    t == Unreachable || t == LostAck
  }

  predicate Applies(t: Try) {
    t == Done || t == LostAck
  }

  function Max(a: int, b: int): int {
    if a >= b then a else b
  }

  /** `Math.round` of a non-negative number. */
  function Round(x: real): int {
    (x + 0.5).Floor
  }

  lemma RoundedWait(r: real, w: nat)
    requires 0.0 <= r < 1.0
    ensures 0 <= Round(r * w as real) <= w
  {
    Scaled(r, w as real);
  }

  /** The attempt that ends the loop: the first that is not transient, or the last. */
  function Last(tries: nat -> Try, n: nat, attempts: nat): (w: nat)
    requires 1 <= n <= attempts
    ensures n <= w <= attempts && (w < attempts ==> !Transient(tries(w)))
    ensures forall i :: n <= i < w ==> Transient(tries(i))
    decreases attempts - n
  {
    if !Transient(tries(n)) || n == attempts then n else Last(tries, n + 1, attempts)
  }

  /** The state after attempt `n`, when others run before each attempt. */
  function AfterTries<D>(world: (nat, D) -> D, write: D -> D, tries: nat -> Try, db: D, n: nat): D {
    if n == 0 then db
    else
      var seen := world(n, AfterTries(world, write, tries, db, n - 1));
      if Applies(tries(n)) then write(seen) else seen
  }

  lemma NoTries<D>(world: (nat, D) -> D, write: D -> D, tries: nat -> Try, db: D)
    ensures AfterTries(world, write, tries, db, 0) == db
  {
  }

  lemma AfterNext<D>(world: (nat, D) -> D, write: D -> D, tries: nat -> Try, db: D, n: nat)
    requires n >= 1
    ensures var seen := world(n, AfterTries(world, write, tries, db, n - 1));
            AfterTries(world, write, tries, db, n) == if Applies(tries(n)) then write(seen) else seen
  {
  }

  lemma LastNext(tries: nat -> Try, n: nat, attempts: nat)
    requires 1 <= n <= attempts
    ensures Last(tries, n, attempts) == if !Transient(tries(n)) || n == attempts then n else Last(tries, n + 1, attempts)
  {
  }

  /** Applied again, it changes nothing more. */
  ghost predicate Idempotent<D(!new)>(write: D -> D) {
    forall d :: write(write(d)) == write(d)
  }

  /** Nobody else writes. */
  ghost predicate Quiet<D(!new)>(world: (nat, D) -> D) {
    forall n, d :: world(n, d) == d
  }

  /** With nobody else writing, however often an idempotent write is applied, it is applied once. */
  lemma {:induction false} OneApplication<D(!new)>(world: (nat, D) -> D, write: D -> D, tries: nat -> Try, db: D, n: nat)
    requires Idempotent(write) && Quiet(world)
    ensures AfterTries(world, write, tries, db, n) == if AppliedBy(tries, n) then write(db) else db
  {
    hide AppliedBy;
    if n == 0 {
      AppliedNext(tries, 0);
    } else {
      OneApplication(world, write, tries, db, n - 1);
      AppliedNext(tries, n - 1);
    }
  }

  /**
    A write whose acknowledgement was lost is applied again over what others wrote
    in between: their state survives if and only if the write does not change it.
   */
  lemma LostAckOverwritesIff<D(!new)>(world: (nat, D) -> D, write: D -> D, tries: nat -> Try, db: D, n: nat)
    requires n >= 1 && tries(n) == LostAck && Applies(tries(n + 1))
    ensures var others := world(n + 1, write(world(n, AfterTries(world, write, tries, db, n - 1))));
            AfterTries(world, write, tries, db, n + 1) == write(others)
            && (AfterTries(world, write, tries, db, n + 1) == others <==> write(others) == others)
  {
    assert AfterTries(world, write, tries, db, n) == write(world(n, AfterTries(world, write, tries, db, n - 1)));
  }

  predicate AppliedBy(tries: nat -> Try, n: nat) {
    exists i :: 1 <= i <= n && Applies(tries(i))
  }

  lemma AppliedNext(tries: nat -> Try, n: nat)
    ensures !AppliedBy(tries, 0)
    ensures AppliedBy(tries, n + 1) <==> AppliedBy(tries, n) || Applies(tries(n + 1))
  {
  }

  method RoundedJitter(n: nat, base: nat, max: nat, r: real) returns (delay: int)
    requires n >= 1 && 0.0 <= r < 1.0
    ensures 0 <= delay <= WindowOf(n, base, max)
  {
    var window := WindowOf(n, base, max);
    RoundedWait(r, window);
    delay := Round(r * window as real);
  }

  /**
    `withDatabaseRetry`: which attempt ends it and which state results, whatever
    others do in between. On a write that gives the same state when applied again,
    and with nobody else writing, that is the state of one application however many
    acknowledgements were lost - or the old one, exactly if no attempt was applied.
   */
  method WithDatabaseRetry<D(!new)>(db0: D, write: D -> D, tries: nat -> Try, world: (nat, D) -> D,
                                    options: int, base: nat, max: nat, random: nat -> real)
    returns (ok: bool, db: D, runs: nat, waited: int)
    requires forall n :: 0.0 <= random(n) < 1.0
    ensures runs == Last(tries, 1, Max(1, options))
    ensures ok <==> tries(runs) == Done
    ensures db == AfterTries(world, write, tries, db0, runs)
    ensures ok ==> db == write(world(runs, AfterTries(world, write, tries, db0, runs - 1)))
    ensures Idempotent(write) && Quiet(world) ==>
              db == if AppliedBy(tries, runs) then write(db0) else db0
    ensures 0 <= waited <= Windows(runs - 1, base, max)
  {
    hide Windows, WindowOf, AppliedBy, Idempotent, Quiet, AfterTries, Last;
    var attempts := Max(1, options);
    db, runs, waited, ok := db0, 1, 0, false;
    WindowsNext(0, base, max);
    NoTries(world, write, tries, db0);
    while true
      invariant 1 <= runs <= attempts && Last(tries, 1, attempts) == Last(tries, runs, attempts)
      invariant db == AfterTries(world, write, tries, db0, runs - 1) && !ok
      invariant 0 <= waited <= Windows(runs - 1, base, max)
      decreases attempts - runs
    {
      AfterNext(world, write, tries, db0, runs);
      LastNext(tries, runs, attempts);
      db := world(runs, db);
      if Applies(tries(runs)) { db := write(db); }
      if tries(runs) == Done || !Transient(tries(runs)) || runs >= attempts {
        ok := tries(runs) == Done;
        break;
      }
      var delay := RoundedJitter(runs, base, max, random(runs));
      WindowsNext(runs - 1, base, max);
      waited := waited + delay;
      runs := runs + 1;
    }
    if Idempotent(write) && Quiet(world) { OneApplication(world, write, tries, db0, runs); }
  }
}
