/**
  The deletion sweep in its own form: tables updated in place, a loop over the
  due rows, and one conditional statement after another, with the rest of the
  world running between any two of them. Every sweep is a run of the state
  machine, and its counters add up.
 */
module DeletionService {
  import opened Options
  import opened DeletionModel
  import opened DeletionMoney
  import opened DeletionSweep

  /** What a sweep reports. */
  datatype Tally = Tally(claimed: nat, completed: nat, failed: nat, skipped: nat, held: nat)
  {
    function Plus(other: Tally): Tally {
      Tally(claimed + other.claimed, completed + other.completed, failed + other.failed,
            skipped + other.skipped, held + other.held)
    }
  }

  const NOTHING := Tally(0, 0, 0, 0, 0)
  const CLAIMED := NOTHING.(claimed := 1)
  const COMPLETED_ONE := NOTHING.(completed := 1)
  const FAILED := NOTHING.(failed := 1)
  const SKIPPED := NOTHING.(skipped := 1)
  const HELD := NOTHING.(held := 1)

  /**
    What one step of sweeper `w` did: a claim or a hold that changed its request,
    or was skipped; an erase that completed its request and was acknowledged, or
    failed for the sweep.
   */
  function Effect(s: State, step: Step, w: SweeperId): Tally
    requires Enabled(s, step)
  {
    match step
    case Claim(v) => if v != w then NOTHING else if Next(s, step).db.requests != s.db.requests then CLAIMED else SKIPPED
    case HoldOrSkip(v) => if v != w then NOTHING else if Next(s, step).db.requests != s.db.requests then HELD else SKIPPED
    case Erase(v, fault) =>
      if v != w then NOTHING
      else if fault != AckLost && Next(s, step).db.requests != s.db.requests then COMPLETED_ONE
      else FAILED
    case _ => NOTHING
  }

  /** And what it did over a run. */
  ghost function Effects(s: State, steps: seq<Step>, w: SweeperId): Tally
    decreases |steps|
  {
    if steps == [] || !Enabled(s, steps[0]) then NOTHING
    else Effect(s, steps[0], w).Plus(Effects(Next(s, steps[0]), steps[1..], w))
  }

  lemma {:induction false} EffectsSnoc(s: State, steps: seq<Step>, mid: State, step: Step, w: SweeperId)
    requires Run(s, steps, mid) && Enabled(mid, step)
    ensures Effects(s, steps + [step], w) == Effects(s, steps, w).Plus(Effect(mid, step, w))
    decreases |steps|
  {
    hide Next, Enabled, Effect;
    if steps == [] {
      assert steps + [step] == [step] && [step][1..] == [];
      assert Effects(Next(s, step), [], w) == NOTHING;
    } else {
      assert (steps + [step])[1..] == steps[1..] + [step];
      EffectsSnoc(Next(s, steps[0]), steps[1..], mid, step, w);
    }
  }

  lemma OthersHaveNoEffect(s: State, step: Step, w: SweeperId)
    requires Enabled(s, step) && !ActsFor(step, w)
    ensures Effect(s, step, w) == NOTHING
  {
  }

  /** A sweep's read of a whole batch of the rows due then. */
  ghost predicate ReadsBatch(start: State, steps: seq<Step>, w: SweeperId, at: Ms, ids: seq<ReqId>) {
    exists i, mid :: 0 <= i < |steps| && steps[i] == ReadDue(w, ids) && Run(start, steps[..i], mid)
                     && IsBatch(mid.db.requests, at, ids)
  }

  datatype Refusal = NotAStudent | NoSuchUser | NotRecoverable | NotHeld | AlreadySettled | WrongAmount
                   | BadAmount | InsufficientCredit

  predicate ActsFor(step: Step, w: SweeperId) {
    SweeperStep(step) && step.sweeper == w
  }

  lemma OthersLeavePhase(s: State, step: Step, w: SweeperId)
    requires Enabled(s, step) && w in s.sweepers && !ActsFor(step, w)
    ensures w in Next(s, step).sweepers && Next(s, step).sweepers[w] == s.sweepers[w]
  {
    hide HasPending, HasOpen, Rows, Ended, Edit, Move, RequestTx, ConfirmTx;
    hide HoldStep, ClaimStep, EraseStep, WriteBackStep;
  }

  lemma {:induction false} RunSnoc(s: State, steps: seq<Step>, mid: State, step: Step)
    requires Run(s, steps, mid) && Enabled(mid, step)
    ensures Run(s, steps + [step], Next(mid, step))
    decreases |steps|
  {
    hide Next, Enabled;
    if steps == [] {
      assert [step][1..] == [] && steps + [step] == [step];
    } else {
      assert (steps + [step])[1..] == steps[1..] + [step];
      RunSnoc(Next(s, steps[0]), steps[1..], mid, step);
    }
  }

  class AccountDeletionService {
    var requests: map<ReqId, Request>
    var wallets: map<UserId, int>
    var ledger: seq<Entry>
    var accounts: map<UserId, Account>
    var sessions: map<SessionId, Session>
    var now: Ms
    var lock: Option<Lease>
    var sweepers: map<SweeperId, Sweeper>
    var cancels: map<CancelId, Cancelling>
    var logins: map<LoginId, UserId>
    var claims: map<ReqId, nat>
    var losses: map<ReqId, nat>

    constructor (accounts: map<UserId, Account>, now: Ms)
      requires forall u :: u in accounts ==> !accounts[u].deleted
      ensures this.accounts == accounts && Init(Abs())
    {
      this.accounts, this.now := accounts, now;
      requests, wallets, ledger, sessions, lock := map[], map[], [], map[], None;
      sweepers, cancels, logins, claims, losses := map[], map[], map[], map[], map[];
    }

    function Tables(): Db
      reads this
    {
      Db(requests, wallets, ledger, accounts, sessions)
    }

    function Abs(): State
      reads this
    {
      State(Tables(), now, lock, sweepers, cancels, logins, claims, losses)
    }

    ghost predicate Along(start: State, steps: seq<Step>)
      reads this
    {
      Run(start, steps, Abs())
    }

    method Perform(step: Step)
      requires Enabled(Abs(), step)
      modifies this
      ensures Abs() == Next(old(Abs()), step)
    {
      hide Next, Enabled;
      var next := Next(Abs(), step);
      requests, wallets, ledger := next.db.requests, next.db.wallets, next.db.ledger;
      accounts, sessions := next.db.accounts, next.db.sessions;
      now, lock, sweepers, cancels, logins := next.now, next.lock, next.sweepers, next.cancels, next.logins;
      claims, losses := next.claims, next.losses;
    }

    /** Holders, administrators, logins, wallets, other sweepers and the clock. */
    method Interfere(w: SweeperId, script: seq<Step>, ghost start: State, ghost before: seq<Step>)
      returns (ghost steps: seq<Step>)
      requires Along(start, before) && w in sweepers
      modifies this
      ensures Along(start, steps) && w in sweepers && sweepers[w] == old(sweepers)[w]
      ensures before <= steps && Effects(start, steps, w) == Effects(start, before, w)
    {
      hide Next, Enabled, Run, Effects, Effect;
      steps := before;
      for i := 0 to |script|
        invariant Along(start, steps) && w in sweepers && sweepers[w] == old(sweepers)[w]
        invariant before <= steps && Effects(start, steps, w) == Effects(start, before, w)
      {
        if Enabled(Abs(), script[i]) && !ActsFor(script[i], w) {
          ghost var s := Abs();
          OthersLeavePhase(s, script[i], w);
          RunSnoc(start, steps, s, script[i]);
          EffectsSnoc(start, steps, s, script[i], w);
          OthersHaveNoEffect(s, script[i], w);
          Perform(script[i]);
          steps := steps + [script[i]];
        }
      }
    }

    // -------------------------------------------------------------------------
    // The holder and the administrator
    // -------------------------------------------------------------------------

    /** `findOpen`: some open request of the user, if there is one. */
    method FindOpen(u: UserId) returns (found: Option<ReqId>)
      ensures found.Some? ==> found.value in requests && requests[found.value].user == u && requests[found.value].Open()
      ensures found.None? ==> !HasOpen(Tables(), u)
    {
      var left := requests.Keys;
      while left != {}
        invariant left <= requests.Keys
        invariant forall r :: r in requests && r !in left ==> requests[r].user != u || !requests[r].Open()
        decreases |left|
      {
        var r :| r in left;
        if requests[r].user == u && requests[r].Open() {
          return Some(r);
        }
        left := left - {r};
      }
      return None;
    }

    /** Asking again returns the open request and never moves its date. */
    method RequestDeletion(r: ReqId, u: UserId) returns (answer: Result<ReqId, Refusal>)
      requires r !in requests
      modifies this`requests, this`sessions, this`claims, this`losses
      ensures answer == Err(NotAStudent) <==> u in accounts && !accounts[u].student
      ensures answer == Err(NoSuchUser) <==> u !in accounts || (accounts[u].student && accounts[u].deleted)
      ensures answer.Err? ==> Abs() == old(Abs()) && (answer.error == NotAStudent || answer.error == NoSuchUser)
      ensures answer.Ok? && answer.value != r ==>
                Abs() == old(Abs()) && answer.value in requests && requests[answer.value].user == u
                && requests[answer.value].Open()
      ensures answer == Ok(r) ==> !HasOpen(old(Tables()), u) && Enabled(old(Abs()), Step.RequestDeletion(r, u))
                                  && Abs() == Next(old(Abs()), Step.RequestDeletion(r, u))
    {
      hide Next;
      if u in accounts && !accounts[u].student {
        return Err(NotAStudent);
      }
      if u !in accounts || accounts[u].deleted {
        return Err(NoSuchUser);
      }
      var existing := FindOpen(u);
      if existing.Some? {
        return Ok(existing.value);
      }
      NextIsRequest(Abs(), r, u);
      InsertRequest(r, u);
      return Ok(r);
    }

    method InsertRequest(r: ReqId, u: UserId)
      modifies this`requests, this`sessions, this`claims, this`losses
      ensures Tables() == RequestTx(old(Tables()), r, u, now)
      ensures claims == old(claims)[r := 0] && losses == old(losses)[r := 0]
    {
      requests := requests[r := Request(u, PENDING, now + GRACE_MS, 0, None, None, None, 0)];
      sessions := Ended(sessions, u);
      claims, losses := claims[r := 0], losses[r := 0];
    }

    /** The conditional update of a cancel whose clock was read at `at`. */
    method CommitCancel(k: CancelId) returns (cancelled: bool)
      requires k in cancels
      modifies this`requests, this`cancels
      ensures Abs() == Next(old(Abs()), CancelCommit(k))
      ensures cancelled == Cancellable(old(Tables()), old(cancels)[k].request, old(cancels)[k].now)
    {
      var c := cancels[k];
      cancelled := c.request in requests && requests[c.request].status == PENDING
                   && requests[c.request].scheduledFor > c.now;
      if cancelled {
        requests := requests[c.request := requests[c.request].(status := CANCELLED)];
      }
      cancels := cancels - {k};
    }

    method RetryFailed(r: ReqId) returns (answer: Result<ReqId, Refusal>)
      modifies this`requests, this`claims, this`losses
      ensures answer.Ok? <==> Recoverable(old(Tables()), r)
      ensures Abs() == if answer.Ok? then Next(old(Abs()), Step.RetryFailed(r)) else old(Abs())
    {
      if r !in requests || requests[r].status != PENDING || requests[r].failedAt.None? {
        return Err(NotRecoverable);
      }
      requests := requests[r := requests[r].(failedAt := None, attempts := 0)];
      claims, losses := claims[r := 0], losses[r := 0];
      return Ok(r);
    }

    method CancelFailed(r: ReqId) returns (answer: Result<ReqId, Refusal>)
      modifies this`requests
      ensures answer.Ok? <==> Recoverable(old(Tables()), r)
      ensures Abs() == if answer.Ok? then Next(old(Abs()), Step.CancelFailed(r)) else old(Abs())
    {
      if r !in requests || requests[r].status != PENDING || requests[r].failedAt.None? {
        return Err(NotRecoverable);
      }
      requests := requests[r := requests[r].(status := CANCELLED)];
      return Ok(r);
    }

    /** `WalletService.debit`: a replay answers before the balance is looked at, and an overdraft is refused. */
    method Debit(u: UserId, amount: int, key: ReqId) returns (answer: Result<bool, Refusal>)
      modifies this`wallets, this`ledger
      ensures answer == Err(BadAmount) <==> amount <= 0
      ensures answer == Ok(true) <==> amount > 0 && Keyed(old(ledger), key)
      ensures answer == Err(InsufficientCredit) <==>
                amount > 0 && !Keyed(old(ledger), key) && Balance(old(Tables()), u) < amount
      ensures answer.Ok? || answer.error == BadAmount || answer.error == InsufficientCredit
      ensures Tables() == if answer.Ok? then Move(old(Tables()), u, false, amount, Some(key)) else old(Tables())
    {
      if amount <= 0 {
        return Err(BadAmount);
      }
      for i := 0 to |ledger|
        invariant forall j :: 0 <= j < i ==> ledger[j].settles != Some(key)
        invariant wallets == old(wallets) && ledger == old(ledger)
      {
        if ledger[i].settles == Some(key) {
          return Ok(true);
        }
      }
      var balance := if u in wallets then wallets[u] else 0;
      if balance < amount {
        return Err(InsufficientCredit);
      }
      wallets := wallets[u := balance - amount];
      ledger := ledger + [Entry(u, false, amount, Some(key))];
      return Ok(false);
    }

    method ConfirmSettlement(r: ReqId, amount: int) returns (answer: Result<int, Refusal>)
      modifies this`requests, this`wallets, this`ledger
      ensures answer.Ok? <==> Confirmable(old(Tables()), r, amount)
      ensures answer == Err(NotHeld) <==> r !in old(requests) || old(requests)[r].heldAt.None?
      ensures answer == Err(AlreadySettled) <==>
                r in old(requests) && old(requests)[r].heldAt.Some? && old(requests)[r].settledAt.Some?
      ensures answer == Err(WrongAmount) <==>
                r in old(requests) && old(requests)[r].Unsettled() && amount != Balance(old(Tables()), old(requests)[r].user)
      ensures answer.Ok? ==> answer.value == amount
      ensures Tables() == if answer.Ok? then ConfirmTx(old(Tables()), r, amount, now) else old(Tables())
    {
      if r !in requests || requests[r].heldAt.None? {
        return Err(NotHeld);
      }
      if requests[r].settledAt.Some? {
        return Err(AlreadySettled);
      }
      var u := requests[r].user;
      var balance := if u in wallets then wallets[u] else 0;
      if amount != balance {
        return Err(WrongAmount);
      }
      if balance > 0 {
        var paid := Debit(u, balance, r);
      }
      requests := requests[r := requests[r].(settledAt := Some(now), settledAmount := balance)];
      return Ok(balance);
    }

    // -------------------------------------------------------------------------
    // The due rows
    // -------------------------------------------------------------------------

    /** The oldest of a set of requests. */
    method Oldest(left: set<ReqId>) returns (r: ReqId)
      requires left != {} && left <= requests.Keys
      ensures r in left && forall q :: q in left ==> requests[r].scheduledFor <= requests[q].scheduledFor
    {
      r :| r in left;
      var rest := left - {r};
      while rest != {}
        invariant r in left && rest <= left
        invariant forall q :: q in left && q !in rest ==> requests[r].scheduledFor <= requests[q].scheduledFor
        decreases |rest|
      {
        var q :| q in rest;
        rest := rest - {q};
        if requests[q].scheduledFor < requests[r].scheduledFor { r := q; }
      }
    }

    /** `findMany` ordered by date, limited to one batch. */
    method SelectDue(at: Ms) returns (ids: seq<ReqId>)
      ensures IsBatch(requests, at, ids)
    {
      ids := [];
      var left := set r | r in requests && Due(requests[r], at);
      while left != {} && |ids| < SWEEP_BATCH
        invariant left <= requests.Keys && |ids| <= SWEEP_BATCH
        invariant forall r :: r in requests && Due(requests[r], at) <==> r in left || r in ids
        invariant forall i :: 0 <= i < |ids| ==> ids[i] !in left
        invariant forall i, j :: 0 <= i < j < |ids| ==>
                    ids[i] != ids[j] && requests[ids[i]].scheduledFor <= requests[ids[j]].scheduledFor
        invariant forall i, q :: 0 <= i < |ids| && q in left ==>
                    requests[ids[i]].scheduledFor <= requests[q].scheduledFor
        decreases |left|
      {
        var r := Oldest(left);
        left := left - {r};
        ids := ids + [r];
      }
    }

    // -------------------------------------------------------------------------
    // The statements of a sweep
    // -------------------------------------------------------------------------

    method ReadDueRows(w: SweeperId) returns (ids: seq<ReqId>)
      requires w in sweepers && sweepers[w].phase.Starting?
      modifies this`sweepers
      ensures IsBatch(requests, old(sweepers)[w].now, ids) && AllDue(requests, old(sweepers)[w].now, ids)
      ensures Abs() == Next(old(Abs()), ReadDue(w, ids))
      ensures w in sweepers && sweepers[w].phase.Sweeping? && |sweepers[w].phase.rows| == |ids|
    {
      ids := SelectDue(sweepers[w].now);
      sweepers := sweepers[w := sweepers[w].(phase := Sweeping(Rows(requests, ids)))];
    }

    method ReadWallet(w: SweeperId) returns (balance: int)
      requires Enabled(Abs(), ReadBalance(w))
      modifies this`sweepers
      ensures Abs() == Next(old(Abs()), ReadBalance(w))
      ensures w in sweepers && sweepers[w].phase == Weighing(old(sweepers)[w].phase.rows, balance)
    {
      var rows := sweepers[w].phase.rows;
      balance := if rows[0].user in wallets then wallets[rows[0].user] else 0;
      sweepers := sweepers[w := sweepers[w].(phase := Weighing(rows, balance))];
    }

    method PlaceHold(w: SweeperId) returns (held: bool)
      requires Enabled(Abs(), HoldOrSkip(w))
      modifies this`sweepers, this`requests
      ensures Abs() == Next(old(Abs()), HoldOrSkip(w))
      ensures held <==> Tables() != old(Tables())
      ensures w in sweepers && sweepers[w].phase == Sweeping(old(sweepers)[w].phase.rows[1..])
    {
      var row, at := sweepers[w].phase.rows[0], sweepers[w].now;
      sweepers := sweepers[w := sweepers[w].(phase := Sweeping(sweepers[w].phase.rows[1..]))];
      if row.settled {
        return false;
      }
      held := row.id in requests && requests[row.id].heldAt.None? && requests[row.id].settledAt.None?;
      if held {
        requests := requests[row.id := requests[row.id].(heldAt := Some(at))];
        assert requests[row.id] != old(requests)[row.id];
      }
    }

    method ClaimRow(w: SweeperId) returns (claimed: bool)
      requires Enabled(Abs(), Claim(w))
      modifies this`sweepers, this`requests, this`claims
      ensures Abs() == Next(old(Abs()), Claim(w))
      ensures claimed == CanClaim(old(Tables()), old(sweepers)[w].phase.rows[0], old(sweepers)[w].now)
      ensures w in sweepers
      ensures sweepers[w].phase == var rows := old(sweepers)[w].phase.rows;
                                   if claimed then Erasing(rows) else Sweeping(rows[1..])
    {
      hide Next;
      NextIsClaim(Abs(), w);
      var rows := sweepers[w].phase.rows;
      claimed := TakeClaim(rows[0], sweepers[w].now);
      sweepers := sweepers[w := sweepers[w].(phase := if claimed then Erasing(rows) else Sweeping(rows[1..]))];
    }

    /** A pending row is taken by a conditional update, an interrupted one by a plain one. */
    method TakeClaim(row: Row, at: Ms) returns (claimed: bool)
      modifies this`requests, this`claims
      ensures claimed == CanClaim(old(Tables()), row, at)
      ensures claimed ==> Tables() == ClaimTx(old(Tables()), row)
                          && claims == old(claims)[row.id := Count(old(claims), row.id) + 1]
      ensures !claimed ==> requests == old(requests) && claims == old(claims)
    {
      if row.id !in requests {
        return false;
      }
      var r := requests[row.id];
      if row.status == PENDING {
        claimed := r.status == PENDING && r.scheduledFor <= at;
        if claimed {
          requests := requests[row.id := r.(status := PROCESSING, attempts := r.attempts + 1)];
        }
      } else {
        claimed := true;
        requests := requests[row.id := r.(attempts := r.attempts + 1)];
      }
      if claimed {
        claims := claims[row.id := Count(claims, row.id) + 1];
      }
    }

    /** The erase transaction: its checks, then every write, or nothing. */
    method EraseAccount(w: SweeperId, fault: Fault) returns (ok: bool)
      requires Enabled(Abs(), Erase(w, fault))
      modifies this`sweepers, this`requests, this`accounts, this`sessions
      ensures Abs() == Next(old(Abs()), Erase(w, fault))
      ensures w in sweepers
      ensures sweepers[w].phase == var rows := old(sweepers)[w].phase.rows;
                                   if ok then Sweeping(rows[1..]) else Failing(rows)
    {
      hide Next;
      NextIsErase(Abs(), w, fault);
      var rows := sweepers[w].phase.rows;
      ok := CanErase(Tables(), rows[0]) && fault != RolledBack;
      if ok {
        EraseWrites(rows[0]);
      }
      ok := ok && fault != AckLost;
      sweepers := sweepers[w := sweepers[w].(phase := if ok then Sweeping(rows[1..]) else Failing(rows))];
    }

    method EraseWrites(row: Row)
      requires CanErase(Tables(), row)
      modifies this`requests, this`accounts, this`sessions
      ensures Tables() == EraseTx(old(Tables()), row)
    {
      accounts := accounts[row.user := accounts[row.user].(deleted := true)];
      sessions := Ended(sessions, row.user);
      requests := requests[row.id := requests[row.id].(status := COMPLETED)];
    }

    method ReturnRow(w: SweeperId, lost: bool)
      requires Enabled(Abs(), WriteBack(w, lost))
      modifies this`sweepers, this`requests, this`losses
      ensures Abs() == Next(old(Abs()), WriteBack(w, lost))
      ensures w in sweepers && sweepers[w].phase == Sweeping(old(sweepers)[w].phase.rows[1..])
    {
      hide Next;
      NextIsWriteBack(Abs(), w, lost);
      var rows := sweepers[w].phase.rows;
      sweepers := sweepers[w := sweepers[w].(phase := Sweeping(rows[1..]))];
      if lost {
        losses := losses[rows[0].id := Count(losses, rows[0].id) + 1];
      } else {
        PutBack(rows[0]);
      }
    }

    /** Back to PENDING if it is still PROCESSING; stopped once the attempts are used up. */
    method PutBack(row: Row)
      modifies this`requests
      ensures Tables() == WriteBackTx(old(Tables()), row, now)
    {
      if row.id in requests && requests[row.id].status == PROCESSING {
        var r := requests[row.id].(status := PENDING);
        requests := requests[row.id := if row.attempts + 1 >= MAX_ATTEMPTS then r.(failedAt := Some(now)) else r];
      }
    }

    // -------------------------------------------------------------------------
    // One row, one sweep, one tick
    // -------------------------------------------------------------------------

    method WeighRow(w: SweeperId, script: seq<Step>, ghost start: State, ghost before: seq<Step>)
      returns (balance: int, ghost steps: seq<Step>)
      requires Along(start, before) && w in sweepers && sweepers[w].phase.Sweeping? && sweepers[w].phase.rows != []
      modifies this
      ensures Along(start, steps) && before <= steps && Effects(start, steps, w) == Effects(start, before, w)
      ensures w in sweepers && sweepers[w].phase == Weighing(old(sweepers)[w].phase.rows, balance)
    {
      hide Next, Run, Effects, Effect;
      ghost var s := Abs();
      balance := ReadWallet(w);
      RunSnoc(start, before, s, ReadBalance(w));
      EffectsSnoc(start, before, s, ReadBalance(w), w);
      NoEffect(s, ReadBalance(w), w);
      steps := Interfere(w, script, start, before + [ReadBalance(w)]);
    }

    method HoldRow(w: SweeperId, ghost start: State, ghost before: seq<Step>) returns (held: bool, ghost steps: seq<Step>)
      requires Along(start, before) && w in sweepers && sweepers[w].phase.Weighing? && sweepers[w].phase.rows != []
      requires sweepers[w].phase.balance > 0
      modifies this
      ensures Along(start, steps) && before <= steps
      ensures Effects(start, steps, w) == Effects(start, before, w).Plus(if held then HELD else SKIPPED)
      ensures w in sweepers && sweepers[w].phase == Sweeping(old(sweepers)[w].phase.rows[1..])
    {
      hide Next, Run, Effects, Effect;
      ghost var s := Abs();
      held := PlaceHold(w);
      RunSnoc(start, before, s, HoldOrSkip(w));
      EffectsSnoc(start, before, s, HoldOrSkip(w), w);
      HoldEffect(s, w);
      steps := before + [HoldOrSkip(w)];
    }

    method TakeRow(w: SweeperId, script: seq<Step>, ghost start: State, ghost before: seq<Step>)
      returns (claimed: bool, ghost steps: seq<Step>)
      requires Along(start, before) && w in sweepers && sweepers[w].phase.Weighing? && sweepers[w].phase.rows != []
      requires sweepers[w].phase.balance <= 0
      modifies this
      ensures w in sweepers
      ensures sweepers[w].phase == var rows := old(sweepers)[w].phase.rows;
                                   if claimed then Erasing(rows) else Sweeping(rows[1..])
      ensures Along(start, steps) && before <= steps
      ensures Effects(start, steps, w) == Effects(start, before, w).Plus(if claimed then CLAIMED else SKIPPED)
    {
      hide Next, Run, CanClaim, Effects, Effect;
      ghost var s := Abs();
      claimed := ClaimRow(w);
      RunSnoc(start, before, s, Claim(w));
      EffectsSnoc(start, before, s, Claim(w), w);
      ClaimEffect(s, w);
      steps := Interfere(w, script, start, before + [Claim(w)]);
    }

    method CloseRow(w: SweeperId, lost: bool, ghost start: State, ghost before: seq<Step>) returns (ghost steps: seq<Step>)
      requires Along(start, before) && w in sweepers && sweepers[w].phase.Failing? && sweepers[w].phase.rows != []
      modifies this
      ensures Along(start, steps) && before <= steps && Effects(start, steps, w) == Effects(start, before, w)
      ensures w in sweepers && sweepers[w].phase == Sweeping(old(sweepers)[w].phase.rows[1..])
    {
      hide Next, Run, Effects, Effect;
      ghost var s := Abs();
      ReturnRow(w, lost);
      RunSnoc(start, before, s, WriteBack(w, lost));
      EffectsSnoc(start, before, s, WriteBack(w, lost), w);
      NoEffect(s, WriteBack(w, lost), w);
      steps := before + [WriteBack(w, lost)];
    }

    method EraseRow(w: SweeperId, fault: Fault, script: seq<Step>, ghost start: State, ghost before: seq<Step>)
      returns (ok: bool, ghost steps: seq<Step>)
      requires Along(start, before) && w in sweepers && sweepers[w].phase.Erasing? && sweepers[w].phase.rows != []
      modifies this
      ensures w in sweepers
      ensures sweepers[w].phase == var rows := old(sweepers)[w].phase.rows;
                                   if ok then Sweeping(rows[1..]) else Failing(rows)
      ensures Along(start, steps) && before <= steps
      ensures Effects(start, steps, w) == Effects(start, before, w).Plus(if ok then COMPLETED_ONE else FAILED)
    {
      hide Next, Run, Effects, Effect;
      ghost var s := Abs();
      ok := EraseAccount(w, fault);
      RunSnoc(start, before, s, Erase(w, fault));
      EffectsSnoc(start, before, s, Erase(w, fault), w);
      EraseEffect(s, w, fault);
      steps := Interfere(w, script, start, before + [Erase(w, fault)]);
    }

    /** The body of the sweep's loop for the first remaining row: what it counts is what its steps did. */
    method SweepRow(w: SweeperId, tally: Tally, fault: Fault, lost: bool, world: nat -> seq<Step>,
                    ghost start: State, ghost before: seq<Step>)
      returns (result: Tally, ghost steps: seq<Step>)
      requires Along(start, before) && w in sweepers && sweepers[w].phase.Sweeping? && sweepers[w].phase.rows != []
      modifies this
      ensures Along(start, steps) && before <= steps
      ensures Effects(start, before, w).Plus(result) == Effects(start, steps, w).Plus(tally)
      ensures w in sweepers && sweepers[w].phase == Sweeping(old(sweepers)[w].phase.rows[1..])
      ensures result.claimed + result.skipped + result.held == tally.claimed + tally.skipped + tally.held + 1
      ensures result.claimed - tally.claimed == (result.completed + result.failed) - (tally.completed + tally.failed)
    {
      hide Along, Effects, Abs, Tables;
      var balance;
      balance, steps := WeighRow(w, world(0), start, before);
      if balance > 0 {
        var held;
        held, steps := HoldRow(w, start, steps);
        result := tally.Plus(if held then HELD else SKIPPED);
        return;
      }
      var claimed;
      claimed, steps := TakeRow(w, world(1), start, steps);
      if !claimed {
        result := tally.Plus(SKIPPED);
        return;
      }
      result := tally.Plus(CLAIMED);
      var ok;
      ok, steps := EraseRow(w, fault, world(2), start, steps);
      if ok {
        result := result.Plus(COMPLETED_ONE);
      } else {
        result := result.Plus(FAILED);
        steps := CloseRow(w, lost, start, steps);
      }
    }

    /**
      One sweep: it reads a whole batch of due rows, and what it reports is what
      its own steps did to them. Every row ends claimed, held or skipped, and every
      claim ends completed or failed.
     */
    method Sweep(w: SweeperId, faults: nat -> (Fault, bool), world: nat -> nat -> seq<Step>,
                 ghost start: State, ghost before: seq<Step>)
      returns (result: Tally, ids: seq<ReqId>, ghost steps: seq<Step>)
      requires Along(start, before) && w in sweepers && sweepers[w].phase.Starting?
      modifies this
      ensures Along(start, steps) && before <= steps && w in sweepers && sweepers[w].phase == Sweeping([])
      ensures IsBatch(old(requests), old(sweepers)[w].now, ids)
      ensures |before| < |steps| && steps[|before|] == ReadDue(w, ids)
      ensures Effects(start, steps, w) == Effects(start, before, w).Plus(result)
      ensures result.claimed + result.skipped + result.held == |ids|
      ensures result.claimed == result.completed + result.failed
    {
      hide Next, Run, Effects, Effect, IsBatch, AllDue;
      result, steps := NOTHING, before;
      ghost var s := Abs();
      ids := ReadDueRows(w);
      RunSnoc(start, steps, s, ReadDue(w, ids));
      EffectsSnoc(start, before, s, ReadDue(w, ids), w);
      NoEffect(s, ReadDue(w, ids), w);
      steps := steps + [ReadDue(w, ids)];
      ghost var read := steps;
      for i := 0 to |ids|
        invariant Along(start, steps) && read <= steps && w in sweepers && sweepers[w].phase.Sweeping?
        invariant |sweepers[w].phase.rows| == |ids| - i
        invariant Effects(start, steps, w) == Effects(start, before, w).Plus(result)
        invariant result.claimed + result.skipped + result.held == i
        invariant result.claimed == result.completed + result.failed
      {
        result, steps := NextRow(w, result, faults(i).0, faults(i).1, world(i), start, steps);
      }
    }

    /** Others, and then one row. */
    method NextRow(w: SweeperId, tally: Tally, fault: Fault, lost: bool, world: nat -> seq<Step>,
                   ghost start: State, ghost before: seq<Step>)
      returns (result: Tally, ghost steps: seq<Step>)
      requires Along(start, before) && w in sweepers && sweepers[w].phase.Sweeping? && sweepers[w].phase.rows != []
      modifies this
      ensures Along(start, steps) && before <= steps
      ensures Effects(start, before, w).Plus(result) == Effects(start, steps, w).Plus(tally)
      ensures w in sweepers && sweepers[w].phase == Sweeping(old(sweepers)[w].phase.rows[1..])
      ensures result.claimed + result.skipped + result.held == tally.claimed + tally.skipped + tally.held + 1
      ensures result.claimed - tally.claimed == (result.completed + result.failed) - (tally.completed + tally.failed)
    {
      hide *;
      steps := Interfere(w, world(3), start, before);
      result, steps := SweepRow(w, tally, fault, lost, world, start, steps);
    }

    /** `acquireLock`: taken only when absent or expired. */
    method Acquire(w: SweeperId) returns (ok: bool)
      requires w !in sweepers && (lock.Some? ==> lock.value.holder != w)
      modifies this`sweepers, this`lock
      ensures ok == LockFree(old(Abs()))
      ensures ok ==> Enabled(old(Abs()), StartSweep(w)) && Abs() == Next(old(Abs()), StartSweep(w))
      ensures ok ==> w in sweepers && sweepers[w] == Sweeper(now, now + LEASE_MS, Starting)
      ensures !ok ==> Abs() == old(Abs())
    {
      ok := lock.None? || lock.value.end <= now;
      if ok {
        sweepers := sweepers[w := Sweeper(now, now + LEASE_MS, Starting)];
        lock := Some(Lease(w, now + LEASE_MS));
      }
    }

    /** Compare and delete: only the holder's own lease is given back. */
    method Release(w: SweeperId)
      requires Enabled(Abs(), Finish(w))
      modifies this`sweepers, this`lock
      ensures Abs() == Next(old(Abs()), Finish(w))
      ensures w !in sweepers && (lock.Some? ==> lock.value.holder != w)
    {
      if lock.Some? && lock.value.holder == w {
        lock := None;
      }
      sweepers := sweepers - {w};
    }

    /**
      One locked sweep: none at all while another holder's lease runs. Otherwise
      the run takes the lock first, reads a whole batch of the rows due then, and
      gives the lock back last; what is reported is what its steps did.
     */
    method Tick(w: SweeperId, faults: nat -> (Fault, bool), world: nat -> nat -> seq<Step>)
      returns (result: Option<Tally>, ghost ids: seq<ReqId>, ghost steps: seq<Step>)
      requires w !in sweepers && (lock.Some? ==> lock.value.holder != w)
      modifies this
      ensures Run(old(Abs()), steps, Abs())
      ensures result.None? <==> !LockFree(old(Abs()))
      ensures result.None? ==> Abs() == old(Abs())
      ensures result.Some? ==>
                && |steps| >= 3 && steps[0] == StartSweep(w) && steps[|steps| - 1] == Finish(w)
                && ReadsBatch(old(Abs()), steps, w, old(now), ids)
                && Effects(old(Abs()), steps, w) == result.value
                && result.value.claimed + result.value.skipped + result.value.held == |ids|
                && result.value.claimed == result.value.completed + result.value.failed
      ensures w !in sweepers && (lock.Some? ==> lock.value.holder != w)
    {
      hide Next, Run, Enabled, Effects, Effect, IsBatch, ReadsBatch;
      ghost var start := Abs();
      result, ids, steps := None, [], [];
      var ok;
      ok, steps := TakeLock(w, world(0)(4));
      if !ok {
        return;
      }
      ghost var s, taken := Abs(), steps;
      var tally, batch;
      tally, batch, steps := Sweep(w, faults, world, start, steps);
      assert steps[..|taken|] == taken;
      ReadHere(start, steps, |taken|, s, w, old(now), batch);
      ghost var swept := steps;
      steps := GiveBack(w, start, steps);
      StillRead(start, swept, Finish(w), w, old(now), batch);
      AddsUp(tally);
      result, ids := Some(tally), batch;
    }

    /** The lock, and what others do before the sweep reads its rows. */
    method TakeLock(w: SweeperId, script: seq<Step>) returns (ok: bool, ghost steps: seq<Step>)
      requires w !in sweepers && (lock.Some? ==> lock.value.holder != w)
      modifies this
      ensures ok == LockFree(old(Abs()))
      ensures !ok ==> Abs() == old(Abs()) && steps == [] && Run(old(Abs()), steps, Abs())
      ensures ok ==>
                && Along(old(Abs()), steps) && |steps| >= 1 && steps[0] == StartSweep(w)
                && Effects(old(Abs()), steps, w) == NOTHING
                && w in sweepers && sweepers[w].now == old(now) && sweepers[w].phase.Starting?
    {
      hide Next, Run, Enabled, Effects, Effect, LockFree;
      ghost var start := Abs();
      StartOfRun(start, w);
      steps := [];
      ok := Acquire(w);
      if ok {
        FirstStep(start, w);
        assert Abs() == Next(start, StartSweep(w));
        steps := Interfere(w, script, start, [StartSweep(w)]);
      }
    }

    method GiveBack(w: SweeperId, ghost start: State, ghost before: seq<Step>) returns (ghost steps: seq<Step>)
      requires Along(start, before) && w in sweepers && sweepers[w].phase == Sweeping([])
      modifies this
      ensures Run(start, steps, Abs()) && steps == before + [Finish(w)]
      ensures Effects(start, steps, w) == Effects(start, before, w)
      ensures w !in sweepers && (lock.Some? ==> lock.value.holder != w)
    {
      hide Next, Run, Enabled, Effects, Effect;
      ghost var s := Abs();
      MayFinish(s, w);
      Release(w);
      RunSnoc(start, before, s, Finish(w));
      EffectsSnoc(start, before, s, Finish(w), w);
      NoEffect(s, Finish(w), w);
      steps := before + [Finish(w)];
    }
  }

  lemma FirstStep(s: State, w: SweeperId)
    requires Enabled(s, StartSweep(w))
    ensures Run(s, [StartSweep(w)], Next(s, StartSweep(w))) && Effects(s, [StartSweep(w)], w) == NOTHING
  {
    hide *;
    StartOfRun(s, w);
    NoEffect(s, StartSweep(w), w);
    RunSnoc(s, [], s, StartSweep(w));
    EffectsSnoc(s, [], s, StartSweep(w), w);
    AddsUp(NOTHING);
    assert [] + [StartSweep(w)] == [StartSweep(w)];
  }

  lemma AddsUp(tally: Tally)
    ensures NOTHING.Plus(tally) == tally
  {
  }

  lemma NoEffect(s: State, step: Step, w: SweeperId)
    requires Enabled(s, step) && !step.Claim? && !step.HoldOrSkip? && !step.Erase?
    ensures Effect(s, step, w) == NOTHING
  {
  }

  lemma HoldEffect(s: State, w: SweeperId)
    requires Enabled(s, HoldOrSkip(w))
    ensures Effect(s, HoldOrSkip(w), w) == if Next(s, HoldOrSkip(w)).db != s.db then HELD else SKIPPED
  {
  }

  lemma ClaimEffect(s: State, w: SweeperId)
    requires Enabled(s, Claim(w))
    ensures Effect(s, Claim(w), w) == if CanClaim(s.db, s.sweepers[w].phase.rows[0], s.sweepers[w].now) then CLAIMED else SKIPPED
  {
    var row := s.sweepers[w].phase.rows[0];
    assert CanClaim(s.db, row, s.sweepers[w].now) ==>
             ClaimTx(s.db, row).requests[row.id].attempts != s.db.requests[row.id].attempts;
  }

  lemma EraseEffect(s: State, w: SweeperId, fault: Fault)
    requires Enabled(s, Erase(w, fault))
    ensures Effect(s, Erase(w, fault), w)
            == if Next(s, Erase(w, fault)).sweepers[w].phase.Sweeping? then COMPLETED_ONE else FAILED
  {
    var row := s.sweepers[w].phase.rows[0];
    assert CanErase(s.db, row) ==> EraseTx(s.db, row).requests[row.id].status != s.db.requests[row.id].status;
  }

  lemma ReadHere(start: State, steps: seq<Step>, i: nat, mid: State, w: SweeperId, at: Ms, ids: seq<ReqId>)
    requires i < |steps| && steps[i] == ReadDue(w, ids) && Run(start, steps[..i], mid) && IsBatch(mid.db.requests, at, ids)
    ensures ReadsBatch(start, steps, w, at, ids)
  {
    hide Run, IsBatch;
  }

  lemma StillRead(start: State, steps: seq<Step>, step: Step, w: SweeperId, at: Ms, ids: seq<ReqId>)
    requires ReadsBatch(start, steps, w, at, ids)
    ensures ReadsBatch(start, steps + [step], w, at, ids)
  {
    hide Run, IsBatch;
    var i, mid :| 0 <= i < |steps| && steps[i] == ReadDue(w, ids) && Run(start, steps[..i], mid)
                  && IsBatch(mid.db.requests, at, ids);
    assert (steps + [step])[..i] == steps[..i];
  }

  lemma NextIsRequest(s: State, r: ReqId, u: UserId)
    requires r !in s.db.requests && u in s.db.accounts && s.db.accounts[u].student && !s.db.accounts[u].deleted
    requires !HasOpen(s.db, u)
    ensures Enabled(s, Step.RequestDeletion(r, u))
    ensures Next(s, Step.RequestDeletion(r, u))
            == s.(db := RequestTx(s.db, r, u, s.now), claims := s.claims[r := 0], losses := s.losses[r := 0])
  {
  }

  lemma NextIsWriteBack(s: State, w: SweeperId, lost: bool)
    requires Enabled(s, WriteBack(w, lost))
    ensures Next(s, WriteBack(w, lost)) == WriteBackStep(s, w, lost)
  {
  }

  lemma NextIsErase(s: State, w: SweeperId, fault: Fault)
    requires Enabled(s, Erase(w, fault))
    ensures Next(s, Erase(w, fault)) == EraseStep(s, w, fault)
  {
  }

  lemma NextIsClaim(s: State, w: SweeperId)
    requires Enabled(s, Claim(w))
    ensures Next(s, Claim(w)) == ClaimStep(s, w)
  {
  }

  lemma StartOfRun(s: State, w: SweeperId)
    ensures Run(s, [], s) && Effects(s, [], w) == NOTHING
  {
  }

  lemma MayFinish(s: State, w: SweeperId)
    requires w in s.sweepers && s.sweepers[w].phase == Sweeping([])
    ensures Enabled(s, Finish(w))
  {
  }
}
