/**
  What holds when a sweep ends inside its lease and a cancel commits before the
  deletion date it checked against: one sweeper, no hold on a closed request,
  and a bounded number of claims.
 */
module DeletionSweep {
  import opened Options
  import opened DeletionModel
  import opened DeletionMoney

  // ---------------------------------------------------------------------------
  // The lease
  // ---------------------------------------------------------------------------

  /** Each sweeper at work holds the lock and is inside its lease. */
  ghost predicate Leased(s: State) {
    forall w :: w in s.sweepers ==>
      && s.lock == Some(Lease(w, s.sweepers[w].leaseEnd))
      && s.sweepers[w].now <= s.now < s.sweepers[w].leaseEnd
  }

  /** The lock alone keeps it to one sweeper. */
  lemma OneSweeper(s: State, v: SweeperId, w: SweeperId)
    requires Leased(s) && v in s.sweepers && w in s.sweepers
    ensures v == w
  {
  }

  /**
    The two assumptions: the clock does not outrun a sweep's lease, and a cancel
    that changes a row commits before that row's deletion date.
   */
  ghost predicate Careful(s: State, step: Step) {
    && (step.Tick? ==> forall w :: w in s.sweepers ==> step.now < s.sweepers[w].leaseEnd)
    && (step.CancelCommit? && step.cancel in s.cancels && s.cancels[step.cancel].request in s.db.requests ==>
          var c := s.cancels[step.cancel];
          Cancellable(s.db, c.request, c.now) ==> s.db.requests[c.request].scheduledFor > s.now)
  }

  lemma FreeMeansNobody(s: State)
    requires Leased(s) && LockFree(s)
    ensures s.sweepers == map[]
  {
  }

  lemma LeasedStep(s: State, step: Step)
    requires Leased(s) && Enabled(s, step) && Careful(s, step)
    ensures Leased(Next(s, step)) && s.now <= Next(s, step).now
  {
    if step.StartSweep? { FreeMeansNobody(s); }
    LeaseMoves(s, step);
    hide Next, Enabled;
    if !step.StartSweep? {
      forall w | w in Next(s, step).sweepers
        ensures w in s.sweepers && Next(s, step).sweepers[w].now == s.sweepers[w].now
        ensures Next(s, step).lock == Some(Lease(w, Next(s, step).sweepers[w].leaseEnd))
      {
        SweeperMoves(s, step, w);
        if SweeperStep(step) { OneSweeper(s, w, step.sweeper); }
      }
    }
  }

  predicate SweeperStep(step: Step) {
    step.StartSweep? || step.ReadDue? || step.ReadBalance? || step.HoldOrSkip? || step.Claim? || step.Erase?
    || step.WriteBack? || step.Finish? || step.Crash?
  }

  lemma LeaseMoves(s: State, step: Step)
    requires Enabled(s, step)
    ensures var s' := Next(s, step);
            && s'.now == (if step.Tick? then step.now else s.now) && s.now <= s'.now
            && (step.StartSweep? ==>
                  s'.lock == Some(Lease(step.sweeper, s.now + LEASE_MS))
                  && s'.sweepers == s.sweepers[step.sweeper := Sweeper(s.now, s.now + LEASE_MS, Starting)])
            && (!step.StartSweep? && !step.Finish? && !step.Crash? ==> s'.lock == s.lock)
            && (step.Finish? || step.Crash? ==> step.sweeper in s.sweepers && step.sweeper !in s'.sweepers)
            && (SweeperStep(step) && !step.StartSweep? ==> step.sweeper in s.sweepers)
            && (!SweeperStep(step) ==> s'.sweepers == s.sweepers)
  {
    hide Next, Enabled;
    if SweeperStep(step) {
      if step.StartSweep? { StartLease(s, step.sweeper); } else { SweepLeaseMoves(s, step); }
    } else {
      OfficeLease(s, step);
    }
  }

  lemma StartLease(s: State, w: SweeperId)
    requires Enabled(s, StartSweep(w))
    ensures var s' := Next(s, StartSweep(w));
            && s'.now == s.now && s'.lock == Some(Lease(w, s.now + LEASE_MS))
            && s'.sweepers == s.sweepers[w := Sweeper(s.now, s.now + LEASE_MS, Starting)]
  {
  }

  lemma OfficeLease(s: State, step: Step)
    requires Enabled(s, step) && !SweeperStep(step)
    ensures var s' := Next(s, step);
            && s'.now == (if step.Tick? then step.now else s.now) && s.now <= s'.now
            && s'.lock == s.lock && s'.sweepers == s.sweepers
  {
    hide HasPending, HasOpen, Ended, Edit, Move, RequestTx, ConfirmTx, AllDue, MayLogin;
  }

  lemma SweepLeaseMoves(s: State, step: Step)
    requires Enabled(s, step) && SweeperStep(step) && !step.StartSweep?
    ensures var s' := Next(s, step);
            && s'.now == s.now && (!step.Finish? && !step.Crash? ==> s'.lock == s.lock)
            && step.sweeper in s.sweepers && (step.Finish? || step.Crash? ==> step.sweeper !in s'.sweepers)
            && (forall w :: w in s'.sweepers ==>
                  w in s.sweepers && s'.sweepers[w].now == s.sweepers[w].now
                  && s'.sweepers[w].leaseEnd == s.sweepers[w].leaseEnd)
  {
    hide AllDue, Rows, HoldStep, ClaimStep, EraseStep, WriteBackStep, HasPending, HasOpen, MayLogin, Move, Ended, Balance;
  }

  lemma SweeperMoves(s: State, step: Step, w: SweeperId)
    requires Enabled(s, step) && w in Next(s, step).sweepers && !step.StartSweep?
    ensures w in s.sweepers && Next(s, step).sweepers[w].now == s.sweepers[w].now
    ensures Next(s, step).sweepers[w].leaseEnd == s.sweepers[w].leaseEnd
  {
    LeaseMoves(s, step);
    if SweeperStep(step) { SweepLeaseMoves(s, step); }
    hide Next, Enabled;
  }

  // ---------------------------------------------------------------------------
  // The rows a sweeper carries
  // ---------------------------------------------------------------------------

  /** Nothing moved since the row was read. */
  ghost predicate RowOk(s: State, row: Row) {
    && row.id in s.db.requests
    && var r := s.db.requests[row.id];
    && r.user == row.user && r.status == row.status && r.Open() && r.attempts == row.attempts
    && r.failedAt.None? && !r.Unsettled() && r.scheduledFor <= s.now
  }

  ghost predicate ClaimedOk(s: State, row: Row) {
    && row.id in s.db.requests
    && var r := s.db.requests[row.id];
    && r.user == row.user && r.status == PROCESSING && r.attempts == row.attempts + 1
    && r.failedAt.None? && !r.Unsettled() && r.scheduledFor <= s.now
  }

  /** The erase threw; it may have committed all the same. */
  ghost predicate FailedOk(s: State, row: Row) {
    || ClaimedOk(s, row)
    || (row.id in s.db.requests && s.db.requests[row.id].status == COMPLETED && !s.db.requests[row.id].Unsettled())
  }

  predicate Distinct(rows: seq<Row>) {
    forall i, j :: 0 <= i < j < |rows| ==> rows[i].id != rows[j].id
  }

  predicate Carries(phase: Phase) {
    phase.Erasing? || phase.Failing?
  }

  ghost predicate PhaseOk(s: State, phase: Phase) {
    if phase.Starting? then true else
      && Distinct(phase.rows)
      && (Carries(phase) ==> phase.rows != [])
      && (phase.Erasing? ==> ClaimedOk(s, phase.rows[0]))
      && (phase.Failing? ==> FailedOk(s, phase.rows[0]))
      && (forall i :: (if Carries(phase) then 1 else 0) <= i < |phase.rows| ==> RowOk(s, phase.rows[i]))
  }

  ghost predicate InFlight(s: State, r: ReqId) {
    exists w :: w in s.sweepers && Carries(s.sweepers[w].phase)
                && s.sweepers[w].phase.rows != [] && s.sweepers[w].phase.rows[0].id == r
  }

  ghost predicate RequestOk(s: State, r: ReqId)
    requires r in s.db.requests
  {
    var q := s.db.requests[r];
    && (q.Unsettled() ==> q.Open() && q.failedAt.None? && q.scheduledFor <= s.now)
    && (q.failedAt.Some? ==> q.status == PENDING || q.status == CANCELLED)
    && (q.status == PROCESSING ==> q.scheduledFor <= s.now)
    && Count(s.claims, r) == q.attempts
    && q.attempts <= MAX_ATTEMPTS + Count(s.losses, r)
    && (q.Open() && q.failedAt.None? && !InFlight(s, r) ==> q.attempts < MAX_ATTEMPTS + Count(s.losses, r))
  }

  ghost predicate Solo(s: State) {
    && Leased(s)
    && (forall w :: w in s.sweepers ==> PhaseOk(s, s.sweepers[w].phase))
    && (forall r :: r in s.db.requests ==> RequestOk(s, r))
  }

  // ---------------------------------------------------------------------------
  // Steps of everybody but the sweeper
  // ---------------------------------------------------------------------------

  /** What an administrator, the holder, a login or a wallet movement may do to one request. */
  ghost predicate OfficeMoves(s: State, step: Step, r: ReqId, s': State)
    requires r in s.db.requests && r in s'.db.requests
  {
    var q, q' := s.db.requests[r], s'.db.requests[r];
    || (q' == q && Count(s'.claims, r) == Count(s.claims, r) && Count(s'.losses, r) == Count(s.losses, r))
    || (q' == q.(failedAt := None, attempts := 0) && Recoverable(s.db, r)
        && Count(s'.claims, r) == 0 && Count(s'.losses, r) == 0)
    || (q' == q.(status := CANCELLED) && q.status == PENDING
        && (Recoverable(s.db, r) || (step.CancelCommit? && q.scheduledFor > s.now))
        && Count(s'.claims, r) == Count(s.claims, r) && Count(s'.losses, r) == Count(s.losses, r))
    || (q' == q.(settledAt := q'.settledAt, settledAmount := q'.settledAmount) && q.Unsettled() && q'.settledAt.Some?
        && Count(s'.claims, r) == Count(s.claims, r) && Count(s'.losses, r) == Count(s.losses, r))
  }

  lemma OfficeStep(s: State, step: Step, r: ReqId)
    requires Enabled(s, step) && Careful(s, step) && !SweeperStep(step) && r in s.db.requests
    ensures r in Next(s, step).db.requests && OfficeMoves(s, step, r, Next(s, step))
    ensures Next(s, step).sweepers == s.sweepers && s.now <= Next(s, step).now
  {
    hide HasPending, HasOpen, Ended;
  }

  lemma OfficeKeepsRow(s: State, step: Step, row: Row)
    requires Enabled(s, step) && Careful(s, step) && !SweeperStep(step)
    ensures RowOk(s, row) ==> RowOk(Next(s, step), row)
    ensures ClaimedOk(s, row) ==> ClaimedOk(Next(s, step), row)
    ensures FailedOk(s, row) ==> FailedOk(Next(s, step), row)
  {
    if row.id in s.db.requests { OfficeStep(s, step, row.id); }
    hide Next, Enabled;
  }

  lemma OfficeKeepsRequest(s: State, step: Step, r: ReqId)
    requires Enabled(s, step) && Careful(s, step) && !SweeperStep(step)
    requires r in Next(s, step).db.requests && (r in s.db.requests ==> RequestOk(s, r))
    ensures RequestOk(Next(s, step), r)
  {
    hide Next, Enabled, Careful;
    if r in s.db.requests {
      OfficeStep(s, step, r);
      assert InFlight(Next(s, step), r) <==> InFlight(s, r);
    } else {
      NewRequestOk(s, step, r);
    }
  }

  lemma NewRequestOk(s: State, step: Step, r: ReqId)
    requires Enabled(s, step) && !SweeperStep(step) && r !in s.db.requests && r in Next(s, step).db.requests
    ensures RequestOk(Next(s, step), r)
  {
    hide HasPending, HasOpen, Ended;
    RequestStep(s, step, r);
  }

  lemma OfficeKeeps(s: State, step: Step)
    requires Solo(s) && Enabled(s, step) && Careful(s, step) && !SweeperStep(step)
    ensures Solo(Next(s, step))
  {
    hide RequestOk, RowOk, ClaimedOk, FailedOk, Next, Leased, Careful, Enabled;
    LeasedStep(s, step);
    LeaseMoves(s, step);
    var s' := Next(s, step);
    forall w | w in s'.sweepers ensures PhaseOk(s', s'.sweepers[w].phase) {
      var phase := s.sweepers[w].phase;
      forall row { OfficeKeepsRow(s, step, row); }
    }
    forall r | r in s'.db.requests ensures RequestOk(s', r) { OfficeKeepsRequest(s, step, r); }
  }

  // ---------------------------------------------------------------------------
  // Steps of the sweeper
  // ---------------------------------------------------------------------------

  /** Everything a sweeper's step leaves alone: all requests but one, and the clock. */
  ghost predicate OnlyTouches(s: State, s': State, r: ReqId) {
    && s'.now == s.now && s'.db.requests.Keys == s.db.requests.Keys
    && (forall q :: q in s.db.requests && q != r ==>
          s'.db.requests[q] == s.db.requests[q]
          && Count(s'.claims, q) == Count(s.claims, q) && Count(s'.losses, q) == Count(s.losses, q))
  }

  /** A sweeper that is alone made a move that concerned request `r`. */
  lemma SoloMove(s: State, s': State, w: SweeperId, r: ReqId)
    requires Solo(s) && Leased(s') && w in s.sweepers && OnlyTouches(s, s', r)
    requires s'.sweepers.Keys <= {w}
    requires w in s'.sweepers ==> PhaseOk(s', s'.sweepers[w].phase)
    requires forall q :: InFlight(s, q) ==> q == r
    requires r in s'.db.requests ==> RequestOk(s', r)
    ensures Solo(s')
  {
  }

  lemma FlightOfOne(s: State, w: SweeperId, q: ReqId)
    requires Leased(s) && w in s.sweepers
    ensures InFlight(s, q) <==>
              Carries(s.sweepers[w].phase) && s.sweepers[w].phase.rows != [] && s.sweepers[w].phase.rows[0].id == q
  {
  }

  lemma Alone(s: State, w: SweeperId)
    requires Leased(s) && w in s.sweepers
    ensures s.sweepers.Keys == {w}
  {
  }

  /** The first row is the one that a step in this phase concerns. */
  function Head(s: State, w: SweeperId): ReqId
    requires w in s.sweepers
  {
    var phase := s.sweepers[w].phase;
    if phase.Starting? || phase.rows == [] then 0 else phase.rows[0].id
  }

  lemma SweeperTouchesHead(s: State, step: Step)
    requires Enabled(s, step) && SweeperStep(step) && !step.StartSweep?
    ensures OnlyTouches(s, Next(s, step), Head(s, step.sweeper))
  {
    hide Next, Enabled, OnlyTouches, Head;
    match step {
      case HoldOrSkip(w) => HoldTouches(s, w);
      case Claim(w) => ClaimTouches(s, w);
      case Erase(w, fault) => EraseTouches(s, w, fault);
      case WriteBack(w, lost) => WriteBackTouches(s, w, lost);
      case _ => OthersTouch(s, step);
    }
  }

  lemma HoldTouches(s: State, w: SweeperId)
    requires Enabled(s, HoldOrSkip(w))
    ensures OnlyTouches(s, Next(s, HoldOrSkip(w)), Head(s, w))
  {
  }

  lemma ClaimTouches(s: State, w: SweeperId)
    requires Enabled(s, Claim(w))
    ensures OnlyTouches(s, Next(s, Claim(w)), Head(s, w))
  {
  }

  lemma EraseTouches(s: State, w: SweeperId, fault: Fault)
    requires Enabled(s, Erase(w, fault))
    ensures OnlyTouches(s, Next(s, Erase(w, fault)), Head(s, w))
  {
  }

  lemma WriteBackTouches(s: State, w: SweeperId, lost: bool)
    requires Enabled(s, WriteBack(w, lost))
    ensures OnlyTouches(s, Next(s, WriteBack(w, lost)), Head(s, w))
  {
  }

  lemma OthersTouch(s: State, step: Step)
    requires Enabled(s, step) && (step.ReadDue? || step.ReadBalance? || step.Finish? || step.Crash?)
    ensures OnlyTouches(s, Next(s, step), Head(s, step.sweeper))
  {
    hide Rows, AllDue, HoldStep, ClaimStep, EraseStep, WriteBackStep;
  }

  lemma IdleTouchesNothing(s: State, step: Step)
    requires Enabled(s, step) && SweeperStep(step) && !step.StartSweep?
    ensures step.Finish? || step.ReadDue? || step.ReadBalance?
            || (step.Crash? && !Carries(s.sweepers[step.sweeper].phase)) ==>
              Next(s, step).db.requests == s.db.requests && Next(s, step).claims == s.claims
              && Next(s, step).losses == s.losses
  {
    hide Rows, RowOf, AllDue, HasPending, HasOpen, MayLogin, Move, ConfirmTx, RequestTx, Ended;
  }

  /** The phase after the step is right. */
  lemma PhaseStep(s: State, step: Step)
    requires Solo(s) && Enabled(s, step) && SweeperStep(step) && !step.StartSweep?
    requires step.sweeper in Next(s, step).sweepers
    ensures PhaseOk(Next(s, step), Next(s, step).sweepers[step.sweeper].phase)
  {
    hide Next, PhaseOk, Leased, RequestOk, OnlyTouches, HasPending, HasOpen, AllDue, Move, Due, EraseTx, Cancellable;
    var w := step.sweeper;
    assert PhaseOk(s, s.sweepers[w].phase);
    SweeperTouchesHead(s, step);
    LeaseMoves(s, step);
    match step {
      case ReadDue(_, ids) => DueRowsOk(s, w, ids);
      case ReadBalance(_) => ReadBalancePhase(s, w);
      case HoldOrSkip(_) => HoldPhase(s, w);
      case Claim(_) => ClaimPhase(s, w);
      case Erase(_, fault) => ErasePhase(s, w, fault);
      case WriteBack(_, lost) => WriteBackPhase(s, w, lost);
      case Crash(_, thrown) => CrashLeaves(s, w, thrown);
    }
  }

  lemma CrashLeaves(s: State, w: SweeperId, thrown: bool)
    requires Enabled(s, Crash(w, thrown))
    ensures w !in Next(s, Crash(w, thrown)).sweepers
  {
  }

  lemma DueRowsOk(s: State, w: SweeperId, ids: seq<ReqId>)
    requires Solo(s) && Enabled(s, ReadDue(w, ids))
    ensures PhaseOk(Next(s, ReadDue(w, ids)), Sweeping(Rows(s.db.requests, ids)))
    ensures Next(s, ReadDue(w, ids)).sweepers[w].phase == Sweeping(Rows(s.db.requests, ids))
  {
  }

  lemma ReadBalancePhase(s: State, w: SweeperId)
    requires Enabled(s, ReadBalance(w)) && PhaseOk(s, s.sweepers[w].phase)
    ensures PhaseOk(Next(s, ReadBalance(w)), Next(s, ReadBalance(w)).sweepers[w].phase)
  {
  }

  /** The rows behind the first one are as they were. */
  lemma RestOk(s: State, s': State, phase: Phase)
    requires !phase.Starting? && phase.rows != [] && PhaseOk(s, phase) && OnlyTouches(s, s', phase.rows[0].id)
    ensures Distinct(phase.rows[1..])
    ensures forall i :: 1 <= i < |phase.rows| ==> RowOk(s', phase.rows[i])
    ensures PhaseOk(s', Sweeping(phase.rows[1..]))
  {
  }

  lemma HoldPhase(s: State, w: SweeperId)
    requires Enabled(s, HoldOrSkip(w)) && PhaseOk(s, s.sweepers[w].phase)
    requires OnlyTouches(s, Next(s, HoldOrSkip(w)), s.sweepers[w].phase.rows[0].id)
    ensures PhaseOk(Next(s, HoldOrSkip(w)), Next(s, HoldOrSkip(w)).sweepers[w].phase)
  {
    RestOk(s, Next(s, HoldOrSkip(w)), s.sweepers[w].phase);
  }

  lemma ClaimPhase(s: State, w: SweeperId)
    requires Enabled(s, Claim(w)) && PhaseOk(s, s.sweepers[w].phase)
    requires OnlyTouches(s, Next(s, Claim(w)), s.sweepers[w].phase.rows[0].id)
    ensures PhaseOk(Next(s, Claim(w)), Next(s, Claim(w)).sweepers[w].phase)
  {
    var rows := s.sweepers[w].phase.rows;
    assert RowOk(s, rows[0]);
    RestOk(s, Next(s, Claim(w)), s.sweepers[w].phase);
  }

  lemma ErasePhase(s: State, w: SweeperId, fault: Fault)
    requires Enabled(s, Erase(w, fault)) && PhaseOk(s, s.sweepers[w].phase)
    requires OnlyTouches(s, Next(s, Erase(w, fault)), s.sweepers[w].phase.rows[0].id)
    ensures PhaseOk(Next(s, Erase(w, fault)), Next(s, Erase(w, fault)).sweepers[w].phase)
  {
    RestOk(s, Next(s, Erase(w, fault)), s.sweepers[w].phase);
  }

  lemma WriteBackPhase(s: State, w: SweeperId, lost: bool)
    requires Enabled(s, WriteBack(w, lost)) && PhaseOk(s, s.sweepers[w].phase)
    requires OnlyTouches(s, Next(s, WriteBack(w, lost)), s.sweepers[w].phase.rows[0].id)
    ensures PhaseOk(Next(s, WriteBack(w, lost)), Next(s, WriteBack(w, lost)).sweepers[w].phase)
  {
  }

  lemma HoldHead(s: State, w: SweeperId, r: ReqId)
    requires Enabled(s, HoldOrSkip(w)) && RowOk(s, s.sweepers[w].phase.rows[0]) && r == s.sweepers[w].phase.rows[0].id
    requires RequestOk(s, r) && !InFlight(s, r)
    ensures var s' := Next(s, HoldOrSkip(w)); r in s'.db.requests && RequestOk(s', r)
  {
  }

  lemma ClaimHead(s: State, w: SweeperId, r: ReqId)
    requires Enabled(s, Claim(w)) && RowOk(s, s.sweepers[w].phase.rows[0]) && r == s.sweepers[w].phase.rows[0].id
    requires RequestOk(s, r) && !InFlight(s, r)
    ensures var s' := Next(s, Claim(w)); r in s'.db.requests && RequestOk(s', r)
  {
    var rows := s.sweepers[w].phase.rows;
    assert CanClaim(s.db, rows[0], s.sweepers[w].now) ==> Next(s, Claim(w)).sweepers[w].phase == Erasing(rows);
  }

  lemma EraseHead(s: State, w: SweeperId, fault: Fault, r: ReqId)
    requires Enabled(s, Erase(w, fault)) && ClaimedOk(s, s.sweepers[w].phase.rows[0])
    requires r == s.sweepers[w].phase.rows[0].id && RequestOk(s, r)
    ensures var s' := Next(s, Erase(w, fault)); r in s'.db.requests && RequestOk(s', r)
  {
  }

  lemma WriteBackHead(s: State, w: SweeperId, lost: bool, r: ReqId)
    requires Enabled(s, WriteBack(w, lost)) && FailedOk(s, s.sweepers[w].phase.rows[0])
    requires r == s.sweepers[w].phase.rows[0].id && RequestOk(s, r)
    ensures var s' := Next(s, WriteBack(w, lost)); r in s'.db.requests && RequestOk(s', r)
  {
  }

  lemma CrashHead(s: State, w: SweeperId, thrown: bool, r: ReqId)
    requires w in s.sweepers && Carries(s.sweepers[w].phase) && s.sweepers[w].phase.rows != []
    requires r == s.sweepers[w].phase.rows[0].id && r in s.db.requests && RequestOk(s, r)
    ensures RequestOk(Next(s, Crash(w, thrown)), r)
  {
  }

  /** The request a step concerned is right afterwards. */
  lemma HeadOk(s: State, step: Step)
    requires Solo(s) && Enabled(s, step) && SweeperStep(step) && !step.StartSweep?
    requires step.HoldOrSkip? || step.Claim? || step.Erase? || step.WriteBack?
             || (step.Crash? && Carries(s.sweepers[step.sweeper].phase))
    ensures var r := Head(s, step.sweeper); r in Next(s, step).db.requests && RequestOk(Next(s, step), r)
  {
    hide Leased, Distinct, Next, RequestOk, InFlight;
    var w := step.sweeper;
    var phase := s.sweepers[w].phase;
    var r := Head(s, w);
    assert PhaseOk(s, phase);
    assert !Carries(phase) ==> RowOk(s, phase.rows[0]);
    assert RequestOk(s, r);
    FlightOfOne(s, w, r);
    hide RowOk, ClaimedOk, FailedOk, PhaseOk;
    match step {
      case HoldOrSkip(_) => HoldHead(s, w, r);
      case Claim(_) => ClaimHead(s, w, r);
      case Erase(_, fault) => EraseHead(s, w, fault, r);
      case WriteBack(_, lost) => WriteBackHead(s, w, lost, r);
      case Crash(_, thrown) => SweeperTouchesHead(s, step); CrashHead(s, w, thrown, r);
    }
  }

  lemma FlightIsHead(s: State, w: SweeperId, q: ReqId)
    requires Leased(s) && w in s.sweepers && InFlight(s, q)
    ensures q == Head(s, w)
  {
  }

  /** A step that changes no request and carries none. */
  lemma IdleKeeps(s: State, step: Step)
    requires Solo(s) && Enabled(s, step) && SweeperStep(step) && !step.StartSweep?
    requires step.Finish? || step.ReadDue? || step.ReadBalance?
             || (step.Crash? && !Carries(s.sweepers[step.sweeper].phase))
    ensures forall r :: r in s.db.requests ==> RequestOk(Next(s, step), r)
  {
    var w := step.sweeper;
    var s' := Next(s, step);
    SweeperTouchesHead(s, step);
    IdleTouchesNothing(s, step);
    Alone(s, w);
    LeaseMoves(s, step);
    assert w in s'.sweepers ==> !Carries(s'.sweepers[w].phase) by { hide Rows; }
    hide Next, Enabled, Leased;
    forall r | r in s.db.requests ensures RequestOk(s', r) {
      assert RequestOk(s, r);
      FlightOfOne(s, w, r);
    }
  }

  lemma SweeperKeeps(s: State, step: Step)
    requires Solo(s) && Enabled(s, step) && Careful(s, step) && SweeperStep(step) && !step.StartSweep?
    ensures Solo(Next(s, step))
  {
    hide Next, Enabled, RequestOk, PhaseOk, Leased, Careful;
    var s', w := Next(s, step), step.sweeper;
    LeaseMoves(s, step);
    LeasedStep(s, step);
    Alone(s, w);
    SweepLeaseMoves(s, step);
    SweeperTouchesHead(s, step);
    if w in s'.sweepers { PhaseStep(s, step); }
    forall q | InFlight(s, q) ensures q == Head(s, w) { FlightIsHead(s, w, q); }
    if step.HoldOrSkip? || step.Claim? || step.Erase? || step.WriteBack?
       || (step.Crash? && Carries(s.sweepers[w].phase)) {
      HeadOk(s, step);
    } else {
      IdleKeeps(s, step);
    }
    SoloMove(s, s', w, Head(s, w));
  }

  lemma StartKeeps(s: State, step: Step)
    requires Solo(s) && Enabled(s, step) && step.StartSweep?
    ensures Solo(Next(s, step))
  {
  }

  lemma SoloStep(s: State, step: Step)
    requires Solo(s) && Enabled(s, step) && Careful(s, step)
    ensures Solo(Next(s, step))
  {
    hide Solo, Next, Enabled, Careful;
    if step.StartSweep? { StartKeeps(s, step); }
    else if SweeperStep(step) { SweeperKeeps(s, step); }
    else { OfficeKeeps(s, step); }
  }

  // ---------------------------------------------------------------------------
  // Over whole runs
  // ---------------------------------------------------------------------------

  ghost predicate CarefulRun(s: State, steps: seq<Step>, s': State)
    decreases |steps|
  {
    if steps == [] then s == s'
    else Enabled(s, steps[0]) && Careful(s, steps[0]) && CarefulRun(Next(s, steps[0]), steps[1..], s')
  }

  lemma {:induction false} SoloAlways(s: State, steps: seq<Step>, s': State)
    requires Solo(s) && CarefulRun(s, steps, s')
    ensures Solo(s')
    decreases |steps|
  {
    hide Solo, Next, Enabled, Careful;
    if steps != [] {
      SoloStep(s, steps[0]);
      SoloAlways(Next(s, steps[0]), steps[1..], s');
    }
  }

  lemma InitSolo(s: State)
    requires Init(s)
    ensures Solo(s)
  {
  }

  /**
    An unsettled hold always sits on an open request that no failure stopped, so
    confirming a settlement is right although it never looks at the status.
   */
  lemma HeldIsOpen(s0: State, steps: seq<Step>, s: State, r: ReqId)
    requires Init(s0) && CarefulRun(s0, steps, s) && r in s.db.requests && s.db.requests[r].Unsettled()
    ensures s.db.requests[r].Open() && s.db.requests[r].failedAt.None?
  {
    InitSolo(s0);
    SoloAlways(s0, steps, s);
    assert RequestOk(s, r);
  }

  /** A request is completed only with every hold settled and the wallet empty. */
  lemma CompletedIsSettled(s0: State, steps: seq<Step>, s: State, w: SweeperId, fault: Fault)
    requires Init(s0) && CarefulRun(s0, steps, s) && Enabled(s, Erase(w, fault))
    ensures var row := s.sweepers[w].phase.rows[0];
            && row.id in s.db.requests && !s.db.requests[row.id].Unsettled()
            && s.db.requests[row.id].failedAt.None?
            && (Next(s, Erase(w, fault)).db.requests[row.id].status == COMPLETED ==> Balance(s.db, row.user) <= 0)
  {
    InitSolo(s0);
    SoloAlways(s0, steps, s);
    assert PhaseOk(s, s.sweepers[w].phase);
  }

  /**
    Between two administrator retries a request is claimed at most
    `DELETION_MAX_ATTEMPTS` times, plus once for each claim whose outcome was
    lost; and a request that failure stopped is in no sweeper's hands.
   */
  lemma ClaimsAreBounded(s0: State, steps: seq<Step>, s: State, r: ReqId)
    requires Init(s0) && CarefulRun(s0, steps, s) && r in s.db.requests
    ensures Count(s.claims, r) == s.db.requests[r].attempts
    ensures Count(s.claims, r) <= MAX_ATTEMPTS + Count(s.losses, r)
    ensures s.db.requests[r].failedAt.Some? ==>
              forall w, i ::
                w in s.sweepers && !s.sweepers[w].phase.Starting? && 0 <= i < |s.sweepers[w].phase.rows|
                ==> s.sweepers[w].phase.rows[i].id != r
  {
    InitSolo(s0);
    SoloAlways(s0, steps, s);
    assert RequestOk(s, r);
    if s.db.requests[r].failedAt.Some? {
      forall w, i | w in s.sweepers && !s.sweepers[w].phase.Starting? && 0 <= i < |s.sweepers[w].phase.rows|
        ensures s.sweepers[w].phase.rows[i].id != r
      {
        assert PhaseOk(s, s.sweepers[w].phase);
        assert i > 0 ==> RowOk(s, s.sweepers[w].phase.rows[i]);
      }
    }
  }
}
