/**
  Account deletion and physical settlement as a state machine.

  Requests, wallets with their ledger, accounts and sessions are tables; each
  database statement or transaction of the sweep, of the account holder and of an
  administrator is one step, so they interleave. Money is in whole piastres.

  `claims` counts how often a request was claimed since an administrator last
  retried it, `losses` how often the outcome of a claim was lost (the sweeper
  died, or its write-back failed). No transition reads either.
 */
module DeletionModel {
  import opened Options

  type Ms = int
  type ReqId = nat
  type UserId = nat
  type SessionId = nat
  type SweeperId = nat
  type CancelId = nat
  type LoginId = nat

  const GRACE_MS: Ms := 30 * 24 * 3600 * 1000
  const SWEEP_BATCH := 25
  const MAX_ATTEMPTS := 10
  const LEASE_MS: Ms := 30 * 60 * 1000

  datatype Status = PENDING | PROCESSING | CANCELLED | COMPLETED

  datatype Request = Request(
    user: UserId, status: Status, scheduledFor: Ms, attempts: nat, failedAt: Option<Ms>,
    heldAt: Option<Ms>, settledAt: Option<Ms>, settledAmount: int)
  {
    predicate Open() {
      status == PENDING || status == PROCESSING
    }

    /** Waiting for an administrator to confirm the settlement. */
    predicate Unsettled() {
      heldAt.Some? && settledAt.None?
    }
  }

  /** One ledger line; `settles` is the idempotency key of a settlement. */
  datatype Entry = Entry(user: UserId, credit: bool, amount: int, settles: Option<ReqId>)

  datatype Account = Account(student: bool, deleted: bool)

  datatype Session = Session(user: UserId, active: bool)

  datatype Db = Db(
    requests: map<ReqId, Request>, wallets: map<UserId, int>, ledger: seq<Entry>,
    accounts: map<UserId, Account>, sessions: map<SessionId, Session>)

  /** A due row as the sweep's read returned it. */
  datatype Row = Row(id: ReqId, user: UserId, status: Status, attempts: nat, settled: bool)

  datatype Phase =
    | Starting
    | Sweeping(rows: seq<Row>)
    | Weighing(rows: seq<Row>, balance: int)      // the balance of the first row was read
    | Erasing(rows: seq<Row>)                     // the first row is claimed
    | Failing(rows: seq<Row>)                     // its erase threw

  datatype Sweeper = Sweeper(now: Ms, leaseEnd: Ms, phase: Phase)

  datatype Lease = Lease(holder: SweeperId, end: Ms)

  /** A cancel between its read and its conditional update. */
  datatype Cancelling = Cancelling(request: ReqId, now: Ms)

  datatype State = State(
    db: Db, now: Ms, lock: Option<Lease>, sweepers: map<SweeperId, Sweeper>,
    cancels: map<CancelId, Cancelling>, logins: map<LoginId, UserId>,
    claims: map<ReqId, nat>, losses: map<ReqId, nat>)

  // ---------------------------------------------------------------------------
  // Reads
  // ---------------------------------------------------------------------------

  function Balance(db: Db, u: UserId): int {
    if u in db.wallets then db.wallets[u] else 0
  }

  predicate Due(r: Request, now: Ms) {
    && r.failedAt.None? && !r.Unsettled()
    && ((r.status == PENDING && r.scheduledFor <= now) || r.status == PROCESSING)
  }

  function RowOf(id: ReqId, r: Request): Row {
    Row(id, r.user, r.status, r.attempts, r.settledAt.Some?)
  }

  /** Some oldest due rows first: all of them, or a full batch none of the others precedes. */
  ghost predicate IsBatch(requests: map<ReqId, Request>, now: Ms, ids: seq<ReqId>) {
    && |ids| <= SWEEP_BATCH
    && (forall i :: 0 <= i < |ids| ==> ids[i] in requests && Due(requests[ids[i]], now))
    && (forall i, j :: 0 <= i < j < |ids| ==>
          ids[i] != ids[j] && requests[ids[i]].scheduledFor <= requests[ids[j]].scheduledFor)
    && (forall r :: r in requests && Due(requests[r], now) && r !in ids ==>
          |ids| == SWEEP_BATCH
          && forall i :: 0 <= i < |ids| ==> requests[ids[i]].scheduledFor <= requests[r].scheduledFor)
  }

  predicate AllDue(requests: map<ReqId, Request>, now: Ms, ids: seq<ReqId>) {
    && (forall i :: 0 <= i < |ids| ==> ids[i] in requests && Due(requests[ids[i]], now))
    && (forall i, j :: 0 <= i < j < |ids| ==> ids[i] != ids[j])
  }

  function Rows(requests: map<ReqId, Request>, ids: seq<ReqId>): (rows: seq<Row>)
    requires forall i :: 0 <= i < |ids| ==> ids[i] in requests
    ensures |rows| == |ids|
    ensures forall i :: 0 <= i < |ids| ==> rows[i] == RowOf(ids[i], requests[ids[i]])
  {
    if ids == [] then [] else [RowOf(ids[0], requests[ids[0]])] + Rows(requests, ids[1..])
  }

  // ---------------------------------------------------------------------------
  // Transactions and conditional updates
  // ---------------------------------------------------------------------------

  function Ended(sessions: map<SessionId, Session>, u: UserId): map<SessionId, Session> {
    map x | x in sessions ::
      if sessions[x].user == u then sessions[x].(active := false) else sessions[x]
  }

  predicate HasPending(db: Db, u: UserId) {
    exists r :: r in db.requests && db.requests[r].user == u && db.requests[r].status == PENDING
  }

  predicate HasOpen(db: Db, u: UserId) {
    exists r :: r in db.requests && db.requests[r].user == u && db.requests[r].Open()
  }

  function RequestTx(db: Db, r: ReqId, u: UserId, now: Ms): Db {
    db.(requests := db.requests[r := Request(u, PENDING, now + GRACE_MS, 0, None, None, None, 0)],
        sessions := Ended(db.sessions, u))
  }

  function Edit(db: Db, r: ReqId, value: Request): Db {
    db.(requests := db.requests[r := value])
  }

  predicate Cancellable(db: Db, r: ReqId, now: Ms) {
    r in db.requests && db.requests[r].status == PENDING && db.requests[r].scheduledFor > now
  }

  predicate Recoverable(db: Db, r: ReqId) {
    r in db.requests && db.requests[r].status == PENDING && db.requests[r].failedAt.Some?
  }

  /** Wallet movement: the balance and its ledger line in one transaction, once per key. */
  function Move(db: Db, u: UserId, credit: bool, amount: int, settles: Option<ReqId>): (db': Db)
    ensures db' == db.(wallets := db'.wallets, ledger := db'.ledger)
  {
    if settles.Some? && exists i :: 0 <= i < |db.ledger| && db.ledger[i].settles == settles then db
    else db.(wallets := db.wallets[u := Balance(db, u) + if credit then amount else -amount],
             ledger := db.ledger + [Entry(u, credit, amount, settles)])
  }

  predicate Confirmable(db: Db, r: ReqId, amount: int) {
    r in db.requests && db.requests[r].Unsettled() && amount == Balance(db, db.requests[r].user)
  }

  function ConfirmTx(db: Db, r: ReqId, amount: int, now: Ms): Db
    requires r in db.requests
  {
    var request := db.requests[r];
    var paid := if amount > 0 then Move(db, request.user, false, amount, Some(r)) else db;
    Edit(paid, r, request.(settledAt := Some(now), settledAmount := amount))
  }

  predicate CanHold(db: Db, r: ReqId) {
    r in db.requests && db.requests[r].heldAt.None? && db.requests[r].settledAt.None?
  }

  predicate CanClaim(db: Db, row: Row, now: Ms) {
    && row.id in db.requests
    && (row.status == PENDING ==> db.requests[row.id].status == PENDING && db.requests[row.id].scheduledFor <= now)
  }

  function ClaimTx(db: Db, row: Row): Db
    requires row.id in db.requests
  {
    var r := db.requests[row.id];
    Edit(db, row.id, if row.status == PENDING then r.(status := PROCESSING, attempts := r.attempts + 1)
                     else r.(attempts := r.attempts + 1))
  }

  /** The checks the erase transaction makes before it touches anything. */
  predicate CanErase(db: Db, row: Row) {
    && row.id in db.requests && db.requests[row.id].user == row.user
    && db.requests[row.id].status == PROCESSING
    && row.user in db.accounts && db.accounts[row.user].student
    && Balance(db, row.user) <= 0
  }

  function EraseTx(db: Db, row: Row): Db
    requires CanErase(db, row)
  {
    db.(requests := db.requests[row.id := db.requests[row.id].(status := COMPLETED)],
        accounts := db.accounts[row.user := db.accounts[row.user].(deleted := true)],
        sessions := Ended(db.sessions, row.user))
  }

  /** Back to PENDING, or out of the sweep's reach once the attempts are used up. */
  function WriteBackTx(db: Db, row: Row, now: Ms): Db {
    if row.id in db.requests && db.requests[row.id].status == PROCESSING then
      var r := db.requests[row.id].(status := PENDING);
      Edit(db, row.id, if row.attempts + 1 >= MAX_ATTEMPTS then r.(failedAt := Some(now)) else r)
    else
      db
  }

  // ---------------------------------------------------------------------------
  // Steps
  // ---------------------------------------------------------------------------

  /** How an erase transaction may end apart from its own refusals. */
  datatype Fault = NoFault | RolledBack | AckLost

  datatype Step =
    | Tick(now: Ms)
    | Credit(user: UserId, amount: int)
    | Debit(user: UserId, amount: int)
    | Login(session: SessionId, user: UserId)
    | LoginCheck(login: LoginId, user: UserId)
    | LoginCreate(login: LoginId, session: SessionId)
    | RequestDeletion(request: ReqId, user: UserId)
    | CancelRead(cancel: CancelId, request: ReqId)
    | CancelCommit(cancel: CancelId)
    | RetryFailed(request: ReqId)
    | CancelFailed(request: ReqId)
    | Confirm(request: ReqId, amount: int)
    | StartSweep(sweeper: SweeperId)
    | ReadDue(sweeper: SweeperId, ids: seq<ReqId>)
    | ReadBalance(sweeper: SweeperId)
    | HoldOrSkip(sweeper: SweeperId)
    | Claim(sweeper: SweeperId)
    | Erase(sweeper: SweeperId, fault: Fault)
    | WriteBack(sweeper: SweeperId, lost: bool)
    | Finish(sweeper: SweeperId)
    | Crash(sweeper: SweeperId, thrown: bool)

  predicate MayLogin(db: Db, u: UserId) {
    u in db.accounts && !db.accounts[u].deleted && !HasOpen(db, u)
  }

  predicate LockFree(s: State) {
    s.lock.None? || s.lock.value.end <= s.now
  }

  predicate In(s: State, w: SweeperId) {
    w in s.sweepers
  }

  predicate Enabled(s: State, step: Step) {
    match step
    case Tick(t) => s.now <= t
    case Credit(u, a) => u in s.db.accounts && a > 0
    case Debit(u, a) => u in s.db.accounts && 0 < a <= Balance(s.db, u)
    case Login(x, u) => x !in s.db.sessions && MayLogin(s.db, u)
    case LoginCheck(l, u) => l !in s.logins && MayLogin(s.db, u)
    case LoginCreate(l, x) => l in s.logins && x !in s.db.sessions
    case RequestDeletion(r, u) =>
      r !in s.db.requests && u in s.db.accounts && s.db.accounts[u].student && !s.db.accounts[u].deleted
      && !HasPending(s.db, u)
    case CancelRead(k, r) => k !in s.cancels && r in s.db.requests && s.db.requests[r].status == PENDING
    case CancelCommit(k) => k in s.cancels
    case RetryFailed(r) => Recoverable(s.db, r)
    case CancelFailed(r) => Recoverable(s.db, r)
    case Confirm(r, a) => Confirmable(s.db, r, a)
    case StartSweep(w) => w !in s.sweepers && LockFree(s) && (s.lock.Some? ==> s.lock.value.holder != w)
    case ReadDue(w, ids) => In(s, w) && s.sweepers[w].phase.Starting? && AllDue(s.db.requests, s.sweepers[w].now, ids)
    case ReadBalance(w) => In(s, w) && s.sweepers[w].phase.Sweeping? && s.sweepers[w].phase.rows != []
    case HoldOrSkip(w) => In(s, w) && s.sweepers[w].phase.Weighing? && s.sweepers[w].phase.rows != []
                          && s.sweepers[w].phase.balance > 0
    case Claim(w) => In(s, w) && s.sweepers[w].phase.Weighing? && s.sweepers[w].phase.rows != []
                     && s.sweepers[w].phase.balance <= 0
    case Erase(w, _) => In(s, w) && s.sweepers[w].phase.Erasing? && s.sweepers[w].phase.rows != []
    case WriteBack(w, _) => In(s, w) && s.sweepers[w].phase.Failing? && s.sweepers[w].phase.rows != []
    case Finish(w) => In(s, w) && s.sweepers[w].phase == Sweeping([])
    case Crash(w, _) => In(s, w)
  }

  function Go(s: State, w: SweeperId, phase: Phase): State
    requires w in s.sweepers
  {
    s.(sweepers := s.sweepers[w := s.sweepers[w].(phase := phase)])
  }

  function Count(m: map<ReqId, nat>, r: ReqId): nat {
    if r in m then m[r] else 0
  }

  /** A step of sweeper `w` moves its phase and, of the rest, only tables and counts. */
  ghost predicate Own(s: State, s': State, w: SweeperId) {
    && w in s.sweepers && w in s'.sweepers
    && s'.sweepers == s.sweepers[w := s.sweepers[w].(phase := s'.sweepers[w].phase)]
    && s'.now == s.now && s'.lock == s.lock && s'.cancels == s.cancels && s'.logins == s.logins
  }

  function HoldStep(s: State, w: SweeperId): (s': State)
    requires Enabled(s, HoldOrSkip(w))
    ensures Own(s, s', w)
    ensures s'.db == s.db.(requests := s'.db.requests)
  {
    var sw := s.sweepers[w];
    var row, rest := sw.phase.rows[0], sw.phase.rows[1..];
    var next := Go(s, w, Sweeping(rest));
    if !row.settled && CanHold(s.db, row.id)
    then next.(db := Edit(s.db, row.id, s.db.requests[row.id].(heldAt := Some(sw.now))))
    else next
  }

  function ClaimStep(s: State, w: SweeperId): (s': State)
    requires Enabled(s, Claim(w))
    ensures Own(s, s', w)
    ensures s'.db == s.db.(requests := s'.db.requests)
  {
    var sw := s.sweepers[w];
    var rows := sw.phase.rows;
    if CanClaim(s.db, rows[0], sw.now)
    then Go(s, w, Erasing(rows)).(db := ClaimTx(s.db, rows[0]),
                                  claims := s.claims[rows[0].id := Count(s.claims, rows[0].id) + 1])
    else Go(s, w, Sweeping(rows[1..]))
  }

  function EraseStep(s: State, w: SweeperId, fault: Fault): (s': State)
    requires Enabled(s, Erase(w, fault))
    ensures Own(s, s', w)
    ensures s'.db == s.db.(requests := s'.db.requests, accounts := s'.db.accounts, sessions := s'.db.sessions)
  {
    var rows := s.sweepers[w].phase.rows;
    if CanErase(s.db, rows[0]) && fault != RolledBack
    then Go(s, w, if fault == AckLost then Failing(rows) else Sweeping(rows[1..]))
         .(db := EraseTx(s.db, rows[0]))
    else Go(s, w, Failing(rows))
  }

  function WriteBackStep(s: State, w: SweeperId, lost: bool): (s': State)
    requires Enabled(s, WriteBack(w, lost))
    ensures Own(s, s', w)
    ensures s'.db == s.db.(requests := s'.db.requests)
  {
    var rows := s.sweepers[w].phase.rows;
    var next := Go(s, w, Sweeping(rows[1..]));
    if lost then next.(losses := s.losses[rows[0].id := Count(s.losses, rows[0].id) + 1])
    else next.(db := WriteBackTx(s.db, rows[0], s.now))
  }

  /**
    A sweep ends early, and a claim in progress loses its outcome: the sweeper's
    process dies and the lease stays, or the sweep throws and gives its lock back.
   */
  function CrashStep(s: State, w: SweeperId, thrown: bool): State
    requires w in s.sweepers
  {
    var phase := s.sweepers[w].phase;
    var next := s.(sweepers := s.sweepers - {w},
                   lock := if thrown && s.lock.Some? && s.lock.value.holder == w then None else s.lock);
    if (phase.Erasing? || phase.Failing?) && phase.rows != []
    then next.(losses := s.losses[phase.rows[0].id := Count(s.losses, phase.rows[0].id) + 1])
    else next
  }

  function Next(s: State, step: Step): State
    requires Enabled(s, step)
  {
    match step
    case Tick(t) => s.(now := t)
    case Credit(u, a) => s.(db := Move(s.db, u, true, a, None))
    case Debit(u, a) => s.(db := Move(s.db, u, false, a, None))
    case Login(x, u) => s.(db := s.db.(sessions := s.db.sessions[x := Session(u, true)]))
    case LoginCheck(l, u) => s.(logins := s.logins[l := u])
    case LoginCreate(l, x) =>
      s.(db := s.db.(sessions := s.db.sessions[x := Session(s.logins[l], true)]), logins := s.logins - {l})
    case RequestDeletion(r, u) =>
      s.(db := RequestTx(s.db, r, u, s.now), claims := s.claims[r := 0], losses := s.losses[r := 0])
    case CancelRead(k, r) => s.(cancels := s.cancels[k := Cancelling(r, s.now)])
    case CancelCommit(k) =>
      var c := s.cancels[k];
      s.(db := if Cancellable(s.db, c.request, c.now)
               then Edit(s.db, c.request, s.db.requests[c.request].(status := CANCELLED)) else s.db,
         cancels := s.cancels - {k})
    case RetryFailed(r) =>
      s.(db := Edit(s.db, r, s.db.requests[r].(failedAt := None, attempts := 0)),
         claims := s.claims[r := 0], losses := s.losses[r := 0])
    case CancelFailed(r) => s.(db := Edit(s.db, r, s.db.requests[r].(status := CANCELLED)))
    case Confirm(r, a) => s.(db := ConfirmTx(s.db, r, a, s.now))
    case StartSweep(w) =>
      s.(lock := Some(Lease(w, s.now + LEASE_MS)),
         sweepers := s.sweepers[w := Sweeper(s.now, s.now + LEASE_MS, Starting)])
    case ReadDue(w, ids) => Go(s, w, Sweeping(Rows(s.db.requests, ids)))
    case ReadBalance(w) =>
      var rows := s.sweepers[w].phase.rows;
      Go(s, w, Weighing(rows, Balance(s.db, rows[0].user)))
    case HoldOrSkip(w) => HoldStep(s, w)
    case Claim(w) => ClaimStep(s, w)
    case Erase(w, fault) => EraseStep(s, w, fault)
    case WriteBack(w, lost) => WriteBackStep(s, w, lost)
    case Finish(w) =>
      // Only a lock that is still this sweeper's is released.
      s.(sweepers := s.sweepers - {w},
         lock := if s.lock.Some? && s.lock.value.holder == w then None else s.lock)
    case Crash(w, thrown) => CrashStep(s, w, thrown)
  }

  ghost predicate Run(s: State, steps: seq<Step>, s': State)
    decreases |steps|
  {
    if steps == [] then s == s'
    else Enabled(s, steps[0]) && Run(Next(s, steps[0]), steps[1..], s')
  }

  /** Nobody has asked for deletion, and no money has moved. */
  ghost predicate Init(s: State) {
    && s.db.requests == map[] && s.db.wallets == map[] && s.db.ledger == [] && s.db.sessions == map[]
    && (forall u :: u in s.db.accounts ==> !s.db.accounts[u].deleted)
    && s.lock.None? && s.sweepers == map[] && s.cancels == map[] && s.logins == map[]
  }
}
