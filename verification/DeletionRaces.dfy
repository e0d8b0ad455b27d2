/**
  What a login in two statements and a delayed cancel can do: runs that end
  badly, and exactly when they do.
 */
module DeletionRaces {
  import opened Options
  import opened DeletionModel
  import opened DeletionMoney
  import opened DeletionSweep

  // ---------------------------------------------------------------------------
  // Requests and their accounts
  // ---------------------------------------------------------------------------

  /** A request has an account, and a completed one a deleted account. */
  ghost predicate Accounted(db: Db) {
    forall r :: r in db.requests ==>
      db.requests[r].user in db.accounts
      && (db.requests[r].status == COMPLETED ==> db.accounts[db.requests[r].user].deleted)
  }

  lemma AccountedStep(s: State, step: Step)
    requires Accounted(s.db) && Enabled(s, step)
    ensures Accounted(Next(s, step).db)
  {
    hide Next, Enabled;
    if step.Erase? { EraseAccounts(s, step.sweeper, step.fault); }
    else if step.RequestDeletion? { RequestAccounts(s, step.request, step.user); }
    else { OthersAccounts(s, step); }
  }

  lemma OthersAccounts(s: State, step: Step)
    requires Accounted(s.db) && Enabled(s, step) && !step.Erase? && !step.RequestDeletion?
    ensures Accounted(Next(s, step).db)
  {
    hide Next, Enabled;
    TablesStep(s, step);
    forall r | r in Next(s, step).db.requests { RequestStep(s, step, r); }
  }

  lemma EraseAccounts(s: State, w: SweeperId, fault: Fault)
    requires Accounted(s.db) && Enabled(s, Erase(w, fault))
    ensures Accounted(Next(s, Erase(w, fault)).db)
  {
  }

  lemma RequestAccounts(s: State, r: ReqId, u: UserId)
    requires Accounted(s.db) && Enabled(s, RequestDeletion(r, u))
    ensures Accounted(Next(s, RequestDeletion(r, u)).db)
  {
    hide HasPending, Ended;
  }

  lemma {:induction false} AccountedAlways(s: State, steps: seq<Step>, s': State)
    requires Accounted(s.db) && Run(s, steps, s')
    ensures Accounted(s'.db)
    decreases |steps|
  {
    hide Accounted, Next, Enabled;
    if steps != [] {
      AccountedStep(s, steps[0]);
      AccountedAlways(Next(s, steps[0]), steps[1..], s');
    }
  }

  // ---------------------------------------------------------------------------
  // A login in two statements
  // ---------------------------------------------------------------------------

  /** Every request that is new since `s` was made by a step of the run. */
  predicate MadeBy(steps: seq<Step>, r: ReqId, u: UserId) {
    exists i :: 0 <= i < |steps| && steps[i] == RequestDeletion(r, u)
  }

  lemma {:induction false} NewRequestsAreMade(s: State, steps: seq<Step>, s': State, r: ReqId)
    requires Run(s, steps, s')
    ensures r in s.db.requests ==> r in s'.db.requests && s'.db.requests[r].user == s.db.requests[r].user
    ensures r !in s.db.requests && r in s'.db.requests ==> MadeBy(steps, r, s'.db.requests[r].user)
    decreases |steps|
  {
    hide Next, Enabled;
    if steps != [] {
      var mid, rest := Next(s, steps[0]), steps[1..];
      RequestStep(s, steps[0], r);
      NewRequestsAreMade(mid, rest, s', r);
      if r !in s.db.requests && r in s'.db.requests {
        var u := s'.db.requests[r].user;
        if r in mid.db.requests {
          assert steps[0] == RequestDeletion(r, u);
        } else {
          var i :| 0 <= i < |rest| && rest[i] == RequestDeletion(r, u);
          assert steps[i + 1] == RequestDeletion(r, u);
        }
      }
    }
  }

  lemma {:induction false} MadeIsThere(s: State, steps: seq<Step>, s': State, r: ReqId, u: UserId)
    requires Run(s, steps, s') && MadeBy(steps, r, u)
    ensures r in s'.db.requests && s'.db.requests[r].user == u
    decreases |steps|
  {
    hide Next;
    var i :| 0 <= i < |steps| && steps[i] == RequestDeletion(r, u);
    var mid := Next(s, steps[0]);
    if i == 0 {
      MadeNow(s, r, u);
      NewRequestsAreMade(mid, steps[1..], s', r);
    } else {
      assert steps[1..][i - 1] == RequestDeletion(r, u);
      MadeIsThere(mid, steps[1..], s', r, u);
    }
  }

  lemma MadeNow(s: State, r: ReqId, u: UserId)
    requires Enabled(s, RequestDeletion(r, u))
    ensures r in Next(s, RequestDeletion(r, u)).db.requests && Next(s, RequestDeletion(r, u)).db.requests[r].user == u
  {
  }

  /** The login between its two statements. */
  ghost predicate Between(steps: seq<Step>, l: LoginId) {
    forall i :: 0 <= i < |steps| ==> !(steps[i].LoginCreate? && steps[i].login == l)
  }

  lemma LoginStep(s: State, step: Step, l: LoginId)
    requires Enabled(s, step) && l in s.logins && !(step.LoginCreate? && step.login == l)
    ensures l in Next(s, step).logins && Next(s, step).logins[l] == s.logins[l]
  {
    hide HoldStep, ClaimStep, EraseStep, WriteBackStep, Rows, HasPending, HasOpen;
  }

  lemma {:induction false} LoginWaits(s: State, steps: seq<Step>, s': State, l: LoginId)
    requires Run(s, steps, s') && l in s.logins && Between(steps, l)
    ensures l in s'.logins && s'.logins[l] == s.logins[l]
    decreases |steps|
  {
    hide Next, Enabled;
    if steps != [] {
      assert forall i :: 0 <= i < |steps| - 1 ==> steps[1..][i] == steps[i + 1];
      LoginStep(s, steps[0], l);
      LoginWaits(Next(s, steps[0]), steps[1..], s', l);
    }
  }

  /** Some request made in the run for this user has not been cancelled by its end. */
  ghost predicate StillAsked(steps: seq<Step>, s': State, u: UserId) {
    exists r :: r in s'.db.requests && MadeBy(steps, r, u) && s'.db.requests[r].status != CANCELLED
  }

  lemma {:induction false} LeavingIffAsked(s: State, steps: seq<Step>, s': State, u: UserId)
    requires Accounted(s.db) && MayLogin(s.db, u) && Run(s, steps, s')
    ensures Leaving(s'.db, u) <==> StillAsked(steps, s', u)
  {
    hide Run;
    if StillAsked(steps, s', u) {
      var r :| r in s'.db.requests && MadeBy(steps, r, u) && s'.db.requests[r].status != CANCELLED;
      MadeIsThere(s, steps, s', r, u);
    }
    if Leaving(s'.db, u) {
      var r :| r in s'.db.requests && s'.db.requests[r].user == u
               && (s'.db.requests[r].Open() || s'.db.requests[r].status == COMPLETED);
      NewRequestsAreMade(s, steps, s', r);
      if r in s.db.requests { TerminalIsFinal(s, steps, s', r); }
    }
  }

  /**
    A login in two statements, whatever runs between them: its session is written
    for a leaving user if and only if a deletion request of that user came in
    since the check and is not cancelled by then.
   */
  lemma SplitLoginLeaks(s: State, l: LoginId, u: UserId, steps: seq<Step>, b: State, x: SessionId)
    requires Accounted(s.db) && Enabled(s, LoginCheck(l, u))
    requires Run(Next(s, LoginCheck(l, u)), steps, b) && Between(steps, l) && Enabled(b, LoginCreate(l, x))
    ensures var db := Next(b, LoginCreate(l, x)).db;
            x in db.sessions && db.sessions[x] == Session(u, true) && (Leaving(db, u) <==> StillAsked(steps, b, u))
    ensures SignedOut(s.db) && (forall i :: 0 <= i < |steps| ==> !steps[i].LoginCreate?) ==>
              (SignedOut(Next(b, LoginCreate(l, x)).db) <==> !StillAsked(steps, b, u))
  {
    hide Run, StillAsked, SignedOut, Accounted, Leaving;
    CheckOnly(s, l, u);
    var a := Next(s, LoginCheck(l, u));
    LoginWaits(a, steps, b, l);
    LeavingIffAsked(a, steps, b, u);
    CreateOnly(b, l, x);
    SessionsDoNotMatter(b.db, Next(b, LoginCreate(l, x)).db, u);
    if SignedOut(s.db) && forall i :: 0 <= i < |steps| ==> !steps[i].LoginCreate? {
      SignedOutStep(s, LoginCheck(l, u));
      NoSessionWhileLeaving(a, steps, b);
      CreateLeaks(b, l, x);
    }
  }

  lemma CheckOnly(s: State, l: LoginId, u: UserId)
    requires Enabled(s, LoginCheck(l, u))
    ensures Next(s, LoginCheck(l, u)) == s.(logins := s.logins[l := u]) && MayLogin(s.db, u)
  {
  }

  lemma CreateOnly(s: State, l: LoginId, x: SessionId)
    requires Enabled(s, LoginCreate(l, x))
    ensures Next(s, LoginCreate(l, x)).db == s.db.(sessions := s.db.sessions[x := Session(s.logins[l], true)])
  {
  }

  lemma SessionsDoNotMatter(db: Db, db': Db, u: UserId)
    requires db'.requests == db.requests
    ensures Leaving(db', u) <==> Leaving(db, u)
  {
  }

  /** Such a run exists: check, request, create. */
  lemma LoginRacesRequest(s: State, l: LoginId, u: UserId, r: ReqId, x: SessionId)
    requires Enabled(s, LoginCheck(l, u)) && s.db.accounts[u].student && x !in s.db.sessions && r !in s.db.requests
    ensures exists s' :: Run(s, [LoginCheck(l, u), RequestDeletion(r, u), LoginCreate(l, x)], s')
              && x in s'.db.sessions && s'.db.sessions[x] == Session(u, true) && HasOpen(s'.db, u)
  {
    hide Next;
    CheckOnly(s, l, u);
    var a := Next(s, LoginCheck(l, u));
    RequestOnly(a, r, u);
    var b := Next(a, RequestDeletion(r, u));
    CreateOnly(b, l, x);
    var c := Next(b, LoginCreate(l, x));
    hide Enabled, HasPending;
    var third := [LoginCreate(l, x)];
    var second := [RequestDeletion(r, u)] + third;
    assert third[1..] == [] && second[1..] == third;
    assert Run(b, third, c) && Run(a, second, c);
    var all := [LoginCheck(l, u)] + second;
    assert all[1..] == second && all == [LoginCheck(l, u), RequestDeletion(r, u), LoginCreate(l, x)];
    assert Run(s, all, c);
    assert c.db.requests[r].Open() && c.db.requests[r].user == u;
  }

  lemma RequestOnly(s: State, r: ReqId, u: UserId)
    requires MayLogin(s.db, u) && s.db.accounts[u].student && r !in s.db.requests
    ensures Enabled(s, RequestDeletion(r, u))
    ensures Next(s, RequestDeletion(r, u)).db == RequestTx(s.db, r, u, s.now)
    ensures Next(s, RequestDeletion(r, u)).logins == s.logins
  {
  }

  // ---------------------------------------------------------------------------
  // Runs inside the lease
  // ---------------------------------------------------------------------------

  /** The clock does not outrun a sweep; nothing is assumed of cancels. */
  ghost predicate InLease(s: State, step: Step) {
    step.Tick? ==> forall w :: w in s.sweepers ==> step.now < s.sweepers[w].leaseEnd
  }

  ghost predicate LeaseRun(s: State, steps: seq<Step>, s': State)
    decreases |steps|
  {
    if steps == [] then s == s'
    else Enabled(s, steps[0]) && InLease(s, steps[0]) && LeaseRun(Next(s, steps[0]), steps[1..], s')
  }

  lemma {:induction false} LeaseRunIsRun(s: State, steps: seq<Step>, s': State)
    requires LeaseRun(s, steps, s')
    ensures Run(s, steps, s')
    decreases |steps|
  {
    hide Next, Enabled, InLease;
    if steps != [] { LeaseRunIsRun(Next(s, steps[0]), steps[1..], s'); }
  }

  lemma {:induction false} LeaseRunConcat(s: State, a: seq<Step>, mid: State, b: seq<Step>, s': State)
    requires LeaseRun(s, a, mid) && LeaseRun(mid, b, s')
    ensures LeaseRun(s, a + b, s')
    decreases |a|
  {
    hide Next, Enabled, InLease;
    if a == [] {
      assert a + b == b;
    } else {
      assert (a + b)[1..] == a[1..] + b;
      LeaseRunConcat(Next(s, a[0]), a[1..], mid, b, s');
    }
  }

  lemma OneStep(s: State, step: Step)
    requires Enabled(s, step) && InLease(s, step)
    ensures LeaseRun(s, [step], Next(s, step))
  {
    hide Next, Enabled, InLease;
    assert [step][1..] == [];
  }

  // ---------------------------------------------------------------------------
  // A hold on a cancelled request
  // ---------------------------------------------------------------------------

  predicate Misplaced(db: Db, r: ReqId) {
    r in db.requests && db.requests[r].status == CANCELLED && db.requests[r].Unsettled()
  }

  /** Row `i` is still to be weighed, or was weighed with money in the wallet. */
  predicate Ahead(phase: Phase, i: int) {
    !phase.Starting? && 0 <= i < |phase.rows|
    && (i > 0 || phase.Sweeping? || (phase.Weighing? && phase.balance > 0))
  }

  function Left(phase: Phase): nat {
    if phase.Starting? then 0 else |phase.rows|
  }

  /** A sweeper in this phase may yet place a hold on the request. */
  predicate MayStillHold(db: Db, phase: Phase, r: ReqId) {
    CanHold(db, r)
    && exists i :: 0 <= i < Left(phase) && Ahead(phase, i) && phase.rows[i].id == r && !phase.rows[i].settled
  }

  /** Cancelled, and out of reach of every hold. */
  ghost predicate OutOfReach(s: State, r: ReqId) {
    && r in s.db.requests && s.db.requests[r].status == CANCELLED && !s.db.requests[r].Unsettled()
    && forall w :: w in s.sweepers ==> !MayStillHold(s.db, s.sweepers[w].phase, r)
  }

  /** What decides about holds is left as it is. */
  predicate SameHold(q: Request, q': Request) {
    q'.status == q.status && q'.heldAt == q.heldAt && q'.settledAt == q.settledAt
  }

  /** What the next step leaves of a cancelled request. */
  lemma CancelledStays(s: State, step: Step, r: ReqId)
    requires Enabled(s, step) && OutOfReach(s, r)
    ensures r in Next(s, step).db.requests && SameHold(s.db.requests[r], Next(s, step).db.requests[r])
  {
    hide Next, Enabled, OutOfReach;
    match step {
      case HoldOrSkip(w) => HoldMissesCancelled(s, w, r);
      case Claim(w) => ClaimKeepsHold(s, w, r);
      case Erase(w, fault) => EraseKeepsHold(s, w, fault, r);
      case WriteBack(w, lost) => WriteBackKeepsHold(s, w, lost, r);
      case _ => OthersKeepHold(s, step, r);
    }
  }

  lemma OthersKeepHold(s: State, step: Step, r: ReqId)
    requires Enabled(s, step) && OutOfReach(s, r)
    requires !step.HoldOrSkip? && !step.Claim? && !step.Erase? && !step.WriteBack?
    ensures r in Next(s, step).db.requests && SameHold(s.db.requests[r], Next(s, step).db.requests[r])
  {
    hide HasPending, HasOpen, Ended, Rows, AllDue, MayStillHold, Move;
  }

  lemma HoldMissesCancelled(s: State, w: SweeperId, r: ReqId)
    requires Enabled(s, HoldOrSkip(w)) && OutOfReach(s, r)
    ensures var s' := Next(s, HoldOrSkip(w)); r in s'.db.requests && SameHold(s.db.requests[r], s'.db.requests[r])
  {
    var phase := s.sweepers[w].phase;
    assert Ahead(phase, 0);
    assert !MayStillHold(s.db, phase, r);
  }

  lemma ClaimKeepsHold(s: State, w: SweeperId, r: ReqId)
    requires Enabled(s, Claim(w)) && OutOfReach(s, r)
    ensures var s' := Next(s, Claim(w)); r in s'.db.requests && SameHold(s.db.requests[r], s'.db.requests[r])
  {
    hide MayStillHold;
  }

  lemma EraseKeepsHold(s: State, w: SweeperId, fault: Fault, r: ReqId)
    requires Enabled(s, Erase(w, fault)) && OutOfReach(s, r)
    ensures var s' := Next(s, Erase(w, fault)); r in s'.db.requests && SameHold(s.db.requests[r], s'.db.requests[r])
  {
    hide MayStillHold, Ended;
  }

  lemma WriteBackKeepsHold(s: State, w: SweeperId, lost: bool, r: ReqId)
    requires Enabled(s, WriteBack(w, lost)) && OutOfReach(s, r)
    ensures var s' := Next(s, WriteBack(w, lost)); r in s'.db.requests && SameHold(s.db.requests[r], s'.db.requests[r])
  {
    hide MayStillHold;
  }

  /** A phase that another one followed has no more rows ahead. */
  ghost predicate Shrinks(before: Phase, after: Phase) {
    forall i :: Ahead(after, i) ==> exists j :: Ahead(before, j) && before.rows[j] == after.rows[i]
  }

  lemma TailShrinks(before: Phase, after: Phase)
    requires RowsMove(before, after)
    ensures Shrinks(before, after)
  {
    forall i | Ahead(after, i) ensures exists j :: Ahead(before, j) && before.rows[j] == after.rows[i] {
      var j := if after.rows == before.rows[1..] then i + 1 else i;
      assert Ahead(before, j) && before.rows[j] == after.rows[i];
    }
  }

  lemma WeighShrinks(before: Phase, after: Phase)
    requires before.Sweeping? && after.Weighing? && after.rows == before.rows
    ensures Shrinks(before, after)
  {
    forall i | Ahead(after, i) ensures exists j :: Ahead(before, j) && before.rows[j] == after.rows[i] {
      assert Ahead(before, i) && before.rows[i] == after.rows[i];
    }
  }

  /** What a step makes of a sweeper's phase. */
  lemma PhaseMoves(s: State, step: Step, w: SweeperId)
    requires Enabled(s, step) && w in Next(s, step).sweepers
    ensures var phase := Next(s, step).sweepers[w].phase;
            if !(SweeperStep(step) && step.sweeper == w) then w in s.sweepers && phase == s.sweepers[w].phase
            else if step.StartSweep? then phase == Starting
            else if step.ReadDue? then true
            else
              && w in s.sweepers
              && (if step.ReadBalance? then
                    s.sweepers[w].phase.Sweeping? && s.sweepers[w].phase.rows != [] && phase.Weighing?
                    && phase.rows == s.sweepers[w].phase.rows
                  else RowsMove(s.sweepers[w].phase, phase))
  {
    hide Next, Enabled;
    if SweeperStep(step) && step.sweeper == w {
      if !step.StartSweep? && !step.ReadDue? { OwnPhaseMoves(s, step); }
      if step.StartSweep? { StartsAtStart(s, w); }
    } else {
      OthersKeepPhase(s, step, w);
    }
  }

  lemma StartsAtStart(s: State, w: SweeperId)
    requires Enabled(s, StartSweep(w))
    ensures Next(s, StartSweep(w)).sweepers[w].phase == Starting
  {
  }

  lemma OthersKeepPhase(s: State, step: Step, w: SweeperId)
    requires Enabled(s, step) && w in Next(s, step).sweepers && !(SweeperStep(step) && step.sweeper == w)
    ensures w in s.sweepers && Next(s, step).sweepers[w] == s.sweepers[w]
  {
    hide HasPending, HasOpen, Rows, Ended, Edit, Move, RequestTx, ConfirmTx, HoldStep, ClaimStep, EraseStep, WriteBackStep;
  }

  /** A statement's own sweeper: its rows stay or lose the first. */
  ghost predicate RowsMove(before: Phase, after: Phase) {
    && !before.Starting? && before.rows != [] && !after.Starting?
    && (after.rows == before.rows[1..] || (after.rows == before.rows && (after.Erasing? || after.Failing?)))
  }

  lemma OwnPhaseMoves(s: State, step: Step)
    requires Enabled(s, step) && SweeperStep(step) && !step.StartSweep? && !step.ReadDue?
    requires step.sweeper in Next(s, step).sweepers
    ensures var before, after := s.sweepers[step.sweeper].phase, Next(s, step).sweepers[step.sweeper].phase;
            && step.sweeper in s.sweepers
            && (if step.ReadBalance? then
                  before.Sweeping? && before.rows != [] && after.Weighing? && after.rows == before.rows
                else RowsMove(before, after))
  {
    hide Next;
    match step {
      case ReadBalance(w) => BalanceRows(s, w);
      case HoldOrSkip(w) => HoldRows(s, w);
      case Claim(w) => ClaimRows(s, w);
      case Erase(w, fault) => EraseRows(s, w, fault);
      case WriteBack(w, lost) => WriteBackRows(s, w, lost);
      case _ => LeavesRows(s, step);
    }
  }

  lemma LeavesRows(s: State, step: Step)
    requires Enabled(s, step) && (step.Finish? || step.Crash?)
    ensures step.sweeper !in Next(s, step).sweepers
  {
  }

  lemma BalanceRows(s: State, w: SweeperId)
    requires Enabled(s, ReadBalance(w))
    ensures var after := Next(s, ReadBalance(w)).sweepers[w].phase; after.Weighing? && after.rows == s.sweepers[w].phase.rows
  {
  }

  lemma HoldRows(s: State, w: SweeperId)
    requires Enabled(s, HoldOrSkip(w))
    ensures RowsMove(s.sweepers[w].phase, Next(s, HoldOrSkip(w)).sweepers[w].phase)
  {
    hide CanHold, Edit;
  }

  lemma ClaimRows(s: State, w: SweeperId)
    requires Enabled(s, Claim(w))
    ensures RowsMove(s.sweepers[w].phase, Next(s, Claim(w)).sweepers[w].phase)
  {
    hide ClaimTx;
  }

  lemma EraseRows(s: State, w: SweeperId, fault: Fault)
    requires Enabled(s, Erase(w, fault))
    ensures RowsMove(s.sweepers[w].phase, Next(s, Erase(w, fault)).sweepers[w].phase)
  {
    hide CanErase, EraseTx;
  }

  lemma WriteBackRows(s: State, w: SweeperId, lost: bool)
    requires Enabled(s, WriteBack(w, lost))
    ensures RowsMove(s.sweepers[w].phase, Next(s, WriteBack(w, lost)).sweepers[w].phase)
  {
    hide WriteBackTx;
  }

  /** A sweeper keeps its phase, loses rows, or reads due rows; it never regains a cancelled one. */
  lemma PhaseShrinks(s: State, step: Step, w: SweeperId, r: ReqId)
    requires Enabled(s, step) && w in Next(s, step).sweepers
    requires r in s.db.requests && s.db.requests[r].status == CANCELLED
    ensures var phase := Next(s, step).sweepers[w].phase;
            || (w in s.sweepers && (phase == s.sweepers[w].phase || Shrinks(s.sweepers[w].phase, phase)))
            || Without(phase, r)
  {
    hide Next, Enabled, Shrinks, Ahead, Without;
    PhaseMoves(s, step, w);
    var phase := Next(s, step).sweepers[w].phase;
    if SweeperStep(step) && step.sweeper == w {
      if step.StartSweep? { NothingAhead(phase, r); }
      else if step.ReadDue? { DueSkipsCancelled(s, w, step.ids, r); }
      else if step.ReadBalance? { WeighShrinks(s.sweepers[w].phase, phase); }
      else { TailShrinks(s.sweepers[w].phase, phase); }
    }
  }

  predicate Without(phase: Phase, r: ReqId) {
    forall i :: 0 <= i < Left(phase) ==> phase.rows[i].id != r
  }

  lemma NothingAhead(phase: Phase, r: ReqId)
    requires phase.Starting?
    ensures Without(phase, r)
  {
  }

  lemma DueSkipsCancelled(s: State, w: SweeperId, ids: seq<ReqId>, r: ReqId)
    requires Enabled(s, ReadDue(w, ids)) && r in s.db.requests && s.db.requests[r].status == CANCELLED
    ensures Without(Next(s, ReadDue(w, ids)).sweepers[w].phase, r)
  {
  }

  lemma OutOfReachStep(s: State, step: Step, r: ReqId)
    requires Enabled(s, step) && OutOfReach(s, r)
    ensures OutOfReach(Next(s, step), r)
  {
    hide Next, Enabled, Ahead, Shrinks;
    var s' := Next(s, step);
    CancelledStays(s, step, r);
    forall w | w in s'.sweepers ensures !MayStillHold(s'.db, s'.sweepers[w].phase, r) {
      PhaseShrinks(s, step, w, r);
      if MayStillHold(s'.db, s'.sweepers[w].phase, r) { HoldTraced(s, s', w, r); }
    }
  }

  /** A hold that is still possible was possible before. */
  lemma HoldTraced(s: State, s': State, w: SweeperId, r: ReqId)
    requires w in s'.sweepers
    requires var phase := s'.sweepers[w].phase;
             || (w in s.sweepers && (phase == s.sweepers[w].phase || Shrinks(s.sweepers[w].phase, phase)))
             || Without(phase, r)
    requires OutOfReach(s, r) && (CanHold(s'.db, r) ==> CanHold(s.db, r))
    ensures !MayStillHold(s'.db, s'.sweepers[w].phase, r)
  {
  }

  lemma {:induction false} NeverHeld(s: State, steps: seq<Step>, s': State, r: ReqId)
    requires OutOfReach(s, r) && LeaseRun(s, steps, s')
    ensures !Misplaced(s'.db, r)
    decreases |steps|
  {
    hide Next, Enabled, InLease, MayStillHold;
    if steps != [] {
      hide OutOfReach;
      OutOfReachStep(s, steps[0], r);
      NeverHeld(Next(s, steps[0]), steps[1..], s', r);
    }
  }

  // ---------------------------------------------------------------------------
  // A sweeper that can still place the hold can be made to
  // ---------------------------------------------------------------------------

  /** Row `i` is that of request `r`, which takes a hold; the rows above it are others'. */
  ghost predicate Carried(s: State, w: SweeperId, r: ReqId, i: nat) {
    && w in s.sweepers && Ahead(s.sweepers[w].phase, i)
    && var rows := s.sweepers[w].phase.rows;
    && rows[i].id == r && !rows[i].settled && rows[i].user in s.db.accounts && CanHold(s.db, r)
    && forall j :: 0 <= j < i ==> rows[j].id != r
  }

  ghost predicate HoldComes(s: State, r: ReqId) {
    exists steps, s' :: LeaseRun(s, steps, s') && r in s'.db.requests && s'.db.requests[r].Unsettled()
  }

  lemma ComesLater(s: State, step: Step, r: ReqId)
    requires Enabled(s, step) && InLease(s, step) && HoldComes(Next(s, step), r)
    ensures HoldComes(s, r)
  {
    hide Next, Enabled, InLease;
    var steps, s' :| LeaseRun(Next(s, step), steps, s') && r in s'.db.requests && s'.db.requests[r].Unsettled();
    assert ([step] + steps)[1..] == steps;
    assert LeaseRun(s, [step] + steps, s');
  }

  lemma ComesNow(s: State, r: ReqId)
    requires r in s.db.requests && s.db.requests[r].Unsettled()
    ensures HoldComes(s, r)
  {
    assert LeaseRun(s, [], s);
  }

  /** Weighed with money in the wallet: the next statement places the hold. */
  lemma HoldLands(s: State, w: SweeperId, r: ReqId)
    requires Carried(s, w, r, 0) && s.sweepers[w].phase.Weighing?
    ensures Enabled(s, HoldOrSkip(w)) && HoldComes(s, r)
  {
    HoldPlaced(s, w, r);
    hide Next, HoldComes;
    ComesNow(Next(s, HoldOrSkip(w)), r);
    ComesLater(s, HoldOrSkip(w), r);
  }

  lemma HoldPlaced(s: State, w: SweeperId, r: ReqId)
    requires Carried(s, w, r, 0) && s.sweepers[w].phase.Weighing?
    ensures Enabled(s, HoldOrSkip(w))
    ensures var s' := Next(s, HoldOrSkip(w));
            && r in s'.db.requests && s'.db.requests[r] == s.db.requests[r].(heldAt := s'.db.requests[r].heldAt)
            && s'.db.requests[r].Unsettled() && s'.db.wallets == s.db.wallets && s'.db.ledger == s.db.ledger
            && s'.db.accounts == s.db.accounts && s'.cancels == s.cancels && s'.now == s.now
  {
  }

  /** Money arrives, the wallet is weighed, and the hold lands. */
  lemma CreditThenHold(s: State, w: SweeperId, r: ReqId)
    requires Carried(s, w, r, 0) && s.sweepers[w].phase.Sweeping?
    ensures HoldComes(s, r)
  {
    var u := s.sweepers[w].phase.rows[0].user;
    var amount := if Balance(s.db, u) < 0 then 1 - Balance(s.db, u) else 1;
    CreditArrives(s, w, r, u, amount);
    hide Next, HoldComes, Carried;
    var a := Next(s, Credit(u, amount));
    MoneyIsWeighed(a, w, r);
    var b := Next(a, ReadBalance(w));
    HoldLands(b, w, r);
    ComesLater(a, ReadBalance(w), r);
    ComesLater(s, Credit(u, amount), r);
  }

  lemma CreditArrives(s: State, w: SweeperId, r: ReqId, u: UserId, amount: int)
    requires Carried(s, w, r, 0) && s.sweepers[w].phase.Sweeping? && u == s.sweepers[w].phase.rows[0].user
    requires amount > 0 && Balance(s.db, u) + amount > 0
    ensures Enabled(s, Credit(u, amount)) && InLease(s, Credit(u, amount))
    ensures var a := Next(s, Credit(u, amount));
            Carried(a, w, r, 0) && a.sweepers == s.sweepers && Balance(a.db, u) > 0
  {
  }

  lemma MoneyIsWeighed(s: State, w: SweeperId, r: ReqId)
    requires Carried(s, w, r, 0) && s.sweepers[w].phase.Sweeping? && Balance(s.db, s.sweepers[w].phase.rows[0].user) > 0
    ensures Enabled(s, ReadBalance(w)) && InLease(s, ReadBalance(w))
    ensures Carried(Next(s, ReadBalance(w)), w, r, 0) && Next(s, ReadBalance(w)).sweepers[w].phase.Weighing?
  {
  }

  /** The sweeper's next statement; an erase on the way rolls back and its write-back is lost. */
  function NextStatement(phase: Phase, w: SweeperId): Step
    requires !phase.Starting?
  {
    match phase
    case Sweeping(_) => ReadBalance(w)
    case Weighing(_, balance) => if balance > 0 then HoldOrSkip(w) else Claim(w)
    case Erasing(_) => Erase(w, RolledBack)
    case Failing(_) => WriteBack(w, true)
  }

  function StepsLeft(phase: Phase, i: nat): nat {
    4 * i + match phase
            case Starting => 0
            case Sweeping(_) => 4
            case Weighing(_, _) => 3
            case Erasing(_) => 2
            case Failing(_) => 1
  }

  /** Another request's row on top: one statement further, the row of `r` is as close or closer. */
  lemma RowAbove(s: State, w: SweeperId, r: ReqId, i: nat) returns (i': nat)
    requires Carried(s, w, r, i) && i > 0
    ensures var step := NextStatement(s.sweepers[w].phase, w);
            && Enabled(s, step) && InLease(s, step) && Carried(Next(s, step), w, r, i')
            && StepsLeft(Next(s, step).sweepers[w].phase, i') < StepsLeft(s.sweepers[w].phase, i)
  {
    var phase := s.sweepers[w].phase;
    match phase {
      case Sweeping(_) => i' := i; AboveRead(s, w, r, i);
      case Weighing(_, balance) =>
        if balance > 0 {
          i' := i - 1;
          AboveHeld(s, w, r, i);
        } else {
          i' := if CanClaim(s.db, phase.rows[0], s.sweepers[w].now) then i else i - 1;
          AboveClaimed(s, w, r, i);
        }
      case Erasing(_) => i' := i; AboveErased(s, w, r, i);
      case Failing(_) => i' := i - 1; AboveReturned(s, w, r, i);
    }
  }

  lemma AboveRead(s: State, w: SweeperId, r: ReqId, i: nat)
    requires Carried(s, w, r, i) && i > 0 && s.sweepers[w].phase.Sweeping?
    ensures Enabled(s, ReadBalance(w)) && Carried(Next(s, ReadBalance(w)), w, r, i)
    ensures Next(s, ReadBalance(w)).sweepers[w].phase.Weighing?
  {
  }

  lemma AboveHeld(s: State, w: SweeperId, r: ReqId, i: nat)
    requires Carried(s, w, r, i) && i > 0 && s.sweepers[w].phase.Weighing? && s.sweepers[w].phase.balance > 0
    ensures Enabled(s, HoldOrSkip(w)) && Carried(Next(s, HoldOrSkip(w)), w, r, i - 1)
    ensures Next(s, HoldOrSkip(w)).sweepers[w].phase.Sweeping?
  {
  }

  lemma AboveClaimed(s: State, w: SweeperId, r: ReqId, i: nat)
    requires Carried(s, w, r, i) && i > 0 && s.sweepers[w].phase.Weighing? && s.sweepers[w].phase.balance <= 0
    ensures Enabled(s, Claim(w))
    ensures var claimed := CanClaim(s.db, s.sweepers[w].phase.rows[0], s.sweepers[w].now);
            && Carried(Next(s, Claim(w)), w, r, if claimed then i else i - 1)
            && (if claimed then Next(s, Claim(w)).sweepers[w].phase.Erasing?
                else Next(s, Claim(w)).sweepers[w].phase.Sweeping?)
  {
  }

  lemma AboveErased(s: State, w: SweeperId, r: ReqId, i: nat)
    requires Carried(s, w, r, i) && i > 0 && s.sweepers[w].phase.Erasing?
    ensures Enabled(s, Erase(w, RolledBack)) && Carried(Next(s, Erase(w, RolledBack)), w, r, i)
    ensures Next(s, Erase(w, RolledBack)).sweepers[w].phase.Failing?
  {
  }

  lemma AboveReturned(s: State, w: SweeperId, r: ReqId, i: nat)
    requires Carried(s, w, r, i) && i > 0 && s.sweepers[w].phase.Failing?
    ensures Enabled(s, WriteBack(w, true)) && Carried(Next(s, WriteBack(w, true)), w, r, i - 1)
    ensures Next(s, WriteBack(w, true)).sweepers[w].phase.Sweeping?
  {
  }

  lemma {:induction false} CarriedComes(s: State, w: SweeperId, r: ReqId, i: nat)
    requires Carried(s, w, r, i)
    ensures HoldComes(s, r)
    decreases StepsLeft(s.sweepers[w].phase, i)
  {
    hide Next, Enabled, HoldComes, InLease;
    if i == 0 {
      if s.sweepers[w].phase.Weighing? { HoldLands(s, w, r); } else { CreditThenHold(s, w, r); }
    } else {
      var step := NextStatement(s.sweepers[w].phase, w);
      var i' := RowAbove(s, w, r, i);
      CarriedComes(Next(s, step), w, r, i');
      ComesLater(s, step, r);
    }
  }

  // ---------------------------------------------------------------------------
  // Exactly when
  // ---------------------------------------------------------------------------

  lemma CancelCommits(s: State, k: CancelId)
    requires Enabled(s, CancelCommit(k)) && Cancellable(s.db, s.cancels[k].request, s.cancels[k].now)
    ensures var r := s.cancels[k].request;
            Next(s, CancelCommit(k))
            == s.(db := Edit(s.db, r, s.db.requests[r].(status := CANCELLED)), cancels := s.cancels - {k})
  {
  }

  /** The rows a sweeper carries are distinct requests, each with its own user: in every run, however many sweepers. */
  ghost predicate Owned(s: State, phase: Phase) {
    && (forall i, j :: 0 <= i < j < Left(phase) ==> phase.rows[i].id != phase.rows[j].id)
    && (forall i :: 0 <= i < Left(phase) ==> Belongs(s.db, phase.rows[i]))
  }

  predicate Belongs(db: Db, row: Row) {
    row.id in db.requests && db.requests[row.id].user == row.user
  }

  ghost predicate RowsOwned(s: State) {
    forall w :: w in s.sweepers ==> Owned(s, s.sweepers[w].phase)
  }

  lemma BelongsLater(s: State, step: Step, row: Row)
    requires Enabled(s, step) && Belongs(s.db, row)
    ensures Belongs(Next(s, step).db, row)
  {
    hide Next, Enabled;
    RequestStep(s, step, row.id);
  }

  lemma RowsOwnedStep(s: State, step: Step)
    requires Enabled(s, step) && RowsOwned(s)
    ensures RowsOwned(Next(s, step))
  {
    hide Next, Enabled, Belongs;
    var s' := Next(s, step);
    forall row | Belongs(s.db, row) ensures Belongs(s'.db, row) { BelongsLater(s, step, row); }
    forall w | w in s'.sweepers ensures Owned(s', s'.sweepers[w].phase) {
      PhaseMoves(s, step, w);
      if SweeperStep(step) && step.sweeper == w && step.ReadDue? { DueIsOwned(s, w, step.ids); }
    }
  }

  lemma DueIsOwned(s: State, w: SweeperId, ids: seq<ReqId>)
    requires Enabled(s, ReadDue(w, ids))
    ensures Owned(Next(s, ReadDue(w, ids)), Next(s, ReadDue(w, ids)).sweepers[w].phase)
  {
  }

  lemma {:induction false} RowsOwnedAlways(s: State, steps: seq<Step>, s': State)
    requires RowsOwned(s) && Run(s, steps, s')
    ensures RowsOwned(s')
    decreases |steps|
  {
    hide RowsOwned, Next, Enabled;
    if steps != [] {
      RowsOwnedStep(s, steps[0]);
      RowsOwnedAlways(Next(s, steps[0]), steps[1..], s');
    }
  }

  /** A row that was read is that of its request, whose user has an account. */
  lemma AheadIsCarried(s: State, w: SweeperId, r: ReqId)
    requires RowsOwned(s) && Accounted(s.db) && w in s.sweepers && MayStillHold(s.db, s.sweepers[w].phase, r)
    ensures exists i: nat :: Carried(s, w, r, i)
  {
    var phase := s.sweepers[w].phase;
    assert Owned(s, phase);
    var i :| 0 <= i < Left(phase) && Ahead(phase, i) && phase.rows[i].id == r && !phase.rows[i].settled;
    assert Belongs(s.db, phase.rows[i]);
    assert Carried(s, w, r, i);
  }

  /** The cancel leaves the sweepers alone, and the request as ready for a hold as it was. */
  lemma CarriedOver(s: State, k: CancelId, w: SweeperId, r: ReqId, i: nat)
    requires Enabled(s, CancelCommit(k)) && Cancellable(s.db, s.cancels[k].request, s.cancels[k].now)
    requires r == s.cancels[k].request && Carried(s, w, r, i)
    ensures Carried(Next(s, CancelCommit(k)), w, r, i)
  {
    hide Next;
    CancelCommits(s, k);
  }

  lemma CancelledReach(s: State, k: CancelId)
    requires Enabled(s, CancelCommit(k)) && Cancellable(s.db, s.cancels[k].request, s.cancels[k].now)
    requires var r := s.cancels[k].request;
             !s.db.requests[r].Unsettled() && forall w :: w in s.sweepers ==> !MayStillHold(s.db, s.sweepers[w].phase, r)
    ensures OutOfReach(Next(s, CancelCommit(k)), s.cancels[k].request)
  {
    hide Next, Ahead;
    CancelCommits(s, k);
  }

  /**
    A cancel that succeeds, however late it is and whatever happened before: some
    continuation has an unsettled hold on the cancelled request if and only if the
    hold was there already, or a sweeper still carries the request's row, unread or
    weighed with money in the wallet, and the request can take a hold.
   */
  lemma MisplacedHoldIff(s0: State, before: seq<Step>, s: State, k: CancelId)
    requires Init(s0) && Run(s0, before, s) && Enabled(s, CancelCommit(k))
    requires Cancellable(s.db, s.cancels[k].request, s.cancels[k].now)
    ensures var r := s.cancels[k].request;
            (exists steps, s' :: LeaseRun(Next(s, CancelCommit(k)), steps, s') && Misplaced(s'.db, r))
            <==> s.db.requests[r].Unsettled() || exists w :: w in s.sweepers && MayStillHold(s.db, s.sweepers[w].phase, r)
  {
    hide Accounted, RowsOwned, Run, Next, LeaseRun, MayStillHold, OutOfReach, HoldComes, Carried;
    StartsOwned(s0);
    AccountedAlways(s0, before, s);
    RowsOwnedAlways(s0, before, s);
    var r := s.cancels[k].request;
    var c := Next(s, CancelCommit(k));
    CancelCommits(s, k);
    if s.db.requests[r].Unsettled() {
      ComesNow(c, r);
      ComesMisplaced(c, r);
    } else if w :| w in s.sweepers && MayStillHold(s.db, s.sweepers[w].phase, r) {
      AheadIsCarried(s, w, r);
      var i: nat :| Carried(s, w, r, i);
      CarriedOver(s, k, w, r, i);
      CarriedComes(c, w, r, i);
      ComesMisplaced(c, r);
    } else {
      CancelledReach(s, k);
      forall steps, s' | LeaseRun(c, steps, s') ensures !Misplaced(s'.db, r) { NeverHeld(c, steps, s', r); }
    }
  }

  lemma StartsOwned(s: State)
    requires Init(s)
    ensures Accounted(s.db) && RowsOwned(s)
  {
  }

  lemma ComesMisplaced(c: State, r: ReqId)
    requires HoldComes(c, r) && r in c.db.requests && c.db.requests[r].status == CANCELLED
    ensures exists steps, s' :: LeaseRun(c, steps, s') && Misplaced(s'.db, r)
  {
    hide LeaseRun;
    var steps, s' :| LeaseRun(c, steps, s') && r in s'.db.requests && s'.db.requests[r].Unsettled();
    LeaseRunIsRun(c, steps, s');
    TerminalIsFinal(c, steps, s', r);
  }

  // ---------------------------------------------------------------------------
  // Both orders, from the start
  // ---------------------------------------------------------------------------

  /** The wallet is weighed with money in it, and a cancel that read its clock in time has not committed. */
  ghost predicate Poised(s: State, w: SweeperId, k: CancelId, r: ReqId) {
    && k in s.cancels && s.cancels[k].request == r && Cancellable(s.db, r, s.cancels[k].now)
    && Carried(s, w, r, 0) && s.sweepers[w].phase.Weighing?
  }

  lemma CancelThenHold(s: State, w: SweeperId, k: CancelId, r: ReqId)
    requires Poised(s, w, k, r)
    ensures Enabled(s, CancelCommit(k)) && Enabled(Next(s, CancelCommit(k)), HoldOrSkip(w))
    ensures var s' := Next(Next(s, CancelCommit(k)), HoldOrSkip(w));
            Misplaced(s'.db, r) && s'.db.requests[r].user == s.db.requests[r].user
            && s'.db.wallets == s.db.wallets && s'.db.ledger == s.db.ledger
  {
    hide Next;
    CancelCommits(s, k);
    CarriedOver(s, k, w, r, 0);
    HoldPlaced(Next(s, CancelCommit(k)), w, r);
  }

  lemma HoldThenCancel(s: State, w: SweeperId, k: CancelId, r: ReqId)
    requires Poised(s, w, k, r)
    ensures Enabled(s, HoldOrSkip(w)) && Enabled(Next(s, HoldOrSkip(w)), CancelCommit(k))
    ensures var s' := Next(Next(s, HoldOrSkip(w)), CancelCommit(k));
            Misplaced(s'.db, r) && s'.db.requests[r].user == s.db.requests[r].user
            && s'.db.wallets == s.db.wallets && s'.db.ledger == s.db.ledger
  {
    hide Next;
    HoldPlaced(s, w, r);
    CancelCommits(Next(s, HoldOrSkip(w)), k);
  }

  /** A misplaced hold is settled like any other, and the wallet is emptied. */
  lemma MisplacedIsPaid(s: State, r: ReqId)
    requires Books(s.db) && Misplaced(s.db, r)
    ensures var u := s.db.requests[r].user;
            Enabled(s, Confirm(r, Balance(s.db, u)))
            && Balance(ConfirmTx(s.db, r, Balance(s.db, u), s.now), u) == 0
  {
    hide Books;
    ConfirmBooks(s.db, r, Balance(s.db, s.db.requests[r].user), s.now);
  }

  lemma LeaseRunSnoc(s: State, steps: seq<Step>, mid: State, step: Step)
    requires LeaseRun(s, steps, mid) && Enabled(mid, step) && InLease(mid, step)
    ensures LeaseRun(s, steps + [step], Next(mid, step))
  {
    hide Next, Enabled, InLease, LeaseRun;
    OneStep(mid, step);
    LeaseRunConcat(s, steps, mid, [step], Next(mid, step));
  }

  /** Asked for at `t`, read by a cancel one millisecond before the date, and due. */
  ghost predicate Asked(s: State, u: UserId, r: ReqId, t: Ms) {
    && r in s.db.requests && s.db.requests[r] == Request(u, PENDING, t + GRACE_MS, 0, None, None, None, 0)
    && u in s.db.accounts && s.lock.None? && s.sweepers == map[]
  }

  lemma Asking(s0: State, u: UserId, r: ReqId, k: CancelId)
    requires Init(s0) && u in s0.db.accounts && s0.db.accounts[u].student
    ensures exists steps, s :: LeaseRun(s0, steps, s) && Asked(s, u, r, s0.now) && s.now == s0.now + GRACE_MS
              && ReadInTime(s, k, r, s0.now)
  {
    hide Next, Enabled, Asked, ReadInTime, LeaseRun;
    var t := s0.now;
    RequestComesIn(s0, u, r);
    var s1 := Next(s0, RequestDeletion(r, u));
    CancelReads(s1, u, r, k, t);
    var s2 := Next(s1, Tick(t + GRACE_MS - 1));
    var s3 := Next(s2, CancelRead(k, r));
    OneStep(s0, RequestDeletion(r, u));
    LeaseRunSnoc(s0, [RequestDeletion(r, u)], s1, Tick(t + GRACE_MS - 1));
    LeaseRunSnoc(s0, [RequestDeletion(r, u)] + [Tick(t + GRACE_MS - 1)], s2, CancelRead(k, r));
    LeaseRunSnoc(s0, [RequestDeletion(r, u)] + [Tick(t + GRACE_MS - 1)] + [CancelRead(k, r)], s3, Tick(t + GRACE_MS));
  }

  lemma RequestComesIn(s0: State, u: UserId, r: ReqId)
    requires Init(s0) && u in s0.db.accounts && s0.db.accounts[u].student
    ensures Enabled(s0, RequestDeletion(r, u))
    ensures var s1 := Next(s0, RequestDeletion(r, u)); Asked(s1, u, r, s0.now) && s1.now == s0.now && s1.cancels == map[]
  {
  }

  lemma CancelReads(s1: State, u: UserId, r: ReqId, k: CancelId, t: Ms)
    requires Asked(s1, u, r, t) && s1.now == t && s1.cancels == map[]
    ensures Enabled(s1, Tick(t + GRACE_MS - 1)) && InLease(s1, Tick(t + GRACE_MS - 1))
    ensures var s2 := Next(s1, Tick(t + GRACE_MS - 1));
            && Enabled(s2, CancelRead(k, r))
            && var s3 := Next(s2, CancelRead(k, r));
            && Enabled(s3, Tick(t + GRACE_MS)) && InLease(s3, Tick(t + GRACE_MS))
            && var s4 := Next(s3, Tick(t + GRACE_MS));
            && Asked(s4, u, r, t) && s4.now == t + GRACE_MS && ReadInTime(s4, k, r, t)
  {
  }

  /** A cancel that read its clock one millisecond before the date. */
  ghost predicate ReadInTime(s: State, k: CancelId, r: ReqId, t: Ms) {
    k in s.cancels && s.cancels[k] == Cancelling(r, t + GRACE_MS - 1)
  }

  lemma MoneyComesIn(s: State, u: UserId, r: ReqId, k: CancelId, t: Ms, amount: int)
    requires Asked(s, u, r, t) && ReadInTime(s, k, r, t) && amount > 0 && Balance(s.db, u) >= 0
    ensures Enabled(s, Credit(u, amount))
    ensures var s' := Next(s, Credit(u, amount));
            Asked(s', u, r, t) && ReadInTime(s', k, r, t) && s'.now == s.now && Balance(s'.db, u) > 0
  {
  }

  lemma SweepStarts(s: State, u: UserId, r: ReqId, w: SweeperId, k: CancelId, t: Ms)
    requires Asked(s, u, r, t) && ReadInTime(s, k, r, t)
    ensures Enabled(s, StartSweep(w))
    ensures var s' := Next(s, StartSweep(w));
            && s'.db == s.db && ReadInTime(s', k, r, t)
            && w in s'.sweepers && s'.sweepers[w].phase == Starting && s'.sweepers[w].now == s.now
  {
  }

  lemma DueIsRead(s: State, u: UserId, r: ReqId, w: SweeperId, k: CancelId, t: Ms)
    requires r in s.db.requests && s.db.requests[r] == Request(u, PENDING, t + GRACE_MS, 0, None, None, None, 0)
    requires u in s.db.accounts && ReadInTime(s, k, r, t)
    requires w in s.sweepers && s.sweepers[w].phase == Starting && s.sweepers[w].now == t + GRACE_MS
    ensures Enabled(s, ReadDue(w, [r]))
    ensures var s' := Next(s, ReadDue(w, [r]));
            && Carried(s', w, r, 0) && s'.sweepers[w].phase.Sweeping? && s'.sweepers[w].phase.rows[0].user == u
            && s'.db == s.db && ReadInTime(s', k, r, t)
  {
  }

  lemma WalletIsRead(s: State, r: ReqId, w: SweeperId, k: CancelId, t: Ms)
    requires Carried(s, w, r, 0) && s.sweepers[w].phase.Sweeping? && Balance(s.db, s.sweepers[w].phase.rows[0].user) > 0
    requires ReadInTime(s, k, r, t) && s.db.requests[r].status == PENDING && s.db.requests[r].scheduledFor == t + GRACE_MS
    ensures Enabled(s, ReadBalance(w)) && Poised(Next(s, ReadBalance(w)), w, k, r)
  {
  }

  lemma WeighedInTime(s: State, u: UserId, r: ReqId, w: SweeperId, k: CancelId, t: Ms, amount: int)
    requires Asked(s, u, r, t) && s.now == t + GRACE_MS && amount > 0 && Balance(s.db, u) >= 0 && ReadInTime(s, k, r, t)
    ensures exists steps, s' :: LeaseRun(s, steps, s') && Poised(s', w, k, r)
  {
    hide Next, Enabled, Poised, Carried, ReadInTime, Balance, LeaseRun;
    MoneyComesIn(s, u, r, k, t, amount);
    var s1 := Next(s, Credit(u, amount));
    SweepStarts(s1, u, r, w, k, t);
    var s2 := Next(s1, StartSweep(w));
    DueIsRead(s2, u, r, w, k, t);
    var s3 := Next(s2, ReadDue(w, [r]));
    WalletIsRead(s3, r, w, k, t);
    OneStep(s, Credit(u, amount));
    LeaseRunSnoc(s, [Credit(u, amount)], s1, StartSweep(w));
    LeaseRunSnoc(s, [Credit(u, amount)] + [StartSweep(w)], s2, ReadDue(w, [r]));
    LeaseRunSnoc(s, [Credit(u, amount)] + [StartSweep(w)] + [ReadDue(w, [r])], s3, ReadBalance(w));
  }

  /** Some run from the start ends with these two statements and a hold on a cancelled request. */
  ghost predicate EndsMisplaced(s0: State, last: seq<Step>, r: ReqId) {
    exists steps, s :: LeaseRun(s0, steps + last, s) && Misplaced(s.db, r)
  }

  /**
    From the start, for every student: a cancel that captured its clock before the
    deletion date and commits after a sweep weighed the wallet leaves a hold on a
    cancelled request, whether it commits before the hold or after it.
   */
  lemma LateCancelMisplacesHold(s0: State, u: UserId, r: ReqId, w: SweeperId, k: CancelId, amount: int)
    requires Init(s0) && u in s0.db.accounts && s0.db.accounts[u].student && amount > 0
    ensures EndsMisplaced(s0, [CancelCommit(k), HoldOrSkip(w)], r)
    ensures EndsMisplaced(s0, [HoldOrSkip(w), CancelCommit(k)], r)
  {
    hide *;
    Asking(s0, u, r, k);
    var asked, a :| LeaseRun(s0, asked, a) && Asked(a, u, r, s0.now) && a.now == s0.now + GRACE_MS
                    && ReadInTime(a, k, r, s0.now);
    NoDebt(s0, asked, a, u);
    WeighedInTime(a, u, r, w, k, s0.now, amount);
    var swept, s :| LeaseRun(a, swept, s) && Poised(s, w, k, r);
    LeaseRunConcat(s0, asked, a, swept, s);
    CancelThenHold(s, w, k, r);
    BothSteps(s0, asked + swept, s, CancelCommit(k), HoldOrSkip(w), r);
    HoldThenCancel(s, w, k, r);
    BothSteps(s0, asked + swept, s, HoldOrSkip(w), CancelCommit(k), r);
  }

  lemma NoDebt(s0: State, steps: seq<Step>, s: State, u: UserId)
    requires Init(s0) && LeaseRun(s0, steps, s)
    ensures Balance(s.db, u) >= 0
  {
    hide Next, Enabled, LeaseRun, Run;
    LeaseRunIsRun(s0, steps, s);
    assert Balanced(s0.db);
    BooksAlwaysBalance(s0, steps, s);
  }

  lemma BothSteps(s0: State, steps: seq<Step>, s: State, first: Step, second: Step, r: ReqId)
    requires LeaseRun(s0, steps, s) && !first.Tick? && !second.Tick?
    requires Enabled(s, first) && Enabled(Next(s, first), second) && Misplaced(Next(Next(s, first), second).db, r)
    ensures EndsMisplaced(s0, [first, second], r)
  {
    hide Next, Enabled, LeaseRun, Misplaced;
    LeaseRunSnoc(s0, steps, s, first);
    LeaseRunSnoc(s0, steps + [first], Next(s, first), second);
    assert steps + [first] + [second] == steps + [first, second];
  }
}
