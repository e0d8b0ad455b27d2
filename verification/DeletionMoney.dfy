/**
  What holds of account deletion whoever runs it: any number of sweepers, any
  interleaving with cancels, administrators, logins and wallet movements.
 */
module DeletionMoney {
  import opened Options
  import opened DeletionModel

  // ---------------------------------------------------------------------------
  // Terminal states
  // ---------------------------------------------------------------------------

  predicate Terminal(status: Status) {
    status == CANCELLED || status == COMPLETED
  }

  /** What one step may do to one request. */
  ghost predicate RequestMoves(step: Step, before: Request, after: Request) {
    && after.user == before.user && after.scheduledFor == before.scheduledFor
    && (Terminal(before.status) ==> after.status == before.status)
    && (after.status == COMPLETED ==> before.status == COMPLETED || step.Erase?)
    && (!step.Confirm? ==> after.settledAt == before.settledAt && after.settledAmount == before.settledAmount)
  }

  lemma RequestStep(s: State, step: Step, r: ReqId)
    requires Enabled(s, step)
    ensures r in s.db.requests ==>
              r in Next(s, step).db.requests
              && RequestMoves(step, s.db.requests[r], Next(s, step).db.requests[r])
    ensures r !in s.db.requests && r in Next(s, step).db.requests ==>
              step == RequestDeletion(r, Next(s, step).db.requests[r].user)
              && Next(s, step).db.requests[r].settledAt.None?
  {
    hide Next, Enabled, RequestMoves;
    if step.HoldOrSkip? || step.Claim? || step.Erase? || step.WriteBack? { SweepMovesRequest(s, step, r); }
    else { OfficeMovesRequest(s, step, r); }
  }

  /** No request comes or goes, and this one moves as it may. */
  ghost predicate Kept(s: State, step: Step, r: ReqId)
    requires Enabled(s, step)
  {
    && (r in Next(s, step).db.requests <==> r in s.db.requests)
    && (r in s.db.requests ==> RequestMoves(step, s.db.requests[r], Next(s, step).db.requests[r]))
  }

  lemma SweepMovesRequest(s: State, step: Step, r: ReqId)
    requires Enabled(s, step) && (step.HoldOrSkip? || step.Claim? || step.Erase? || step.WriteBack?)
    ensures r in s.db.requests ==>
              r in Next(s, step).db.requests && RequestMoves(step, s.db.requests[r], Next(s, step).db.requests[r])
    ensures r in Next(s, step).db.requests ==> r in s.db.requests
  {
    hide Next, Enabled, RequestMoves;
    match step {
      case HoldOrSkip(w) => HoldMovesRequest(s, w, r);
      case Claim(w) => ClaimMovesRequest(s, w, r);
      case Erase(w, fault) => EraseMovesRequest(s, w, fault, r);
      case WriteBack(w, lost) => WriteBackMovesRequest(s, w, lost, r);
    }
  }

  lemma HoldMovesRequest(s: State, w: SweeperId, r: ReqId)
    requires Enabled(s, HoldOrSkip(w))
    ensures Kept(s, HoldOrSkip(w), r)
  {
  }

  lemma ClaimMovesRequest(s: State, w: SweeperId, r: ReqId)
    requires Enabled(s, Claim(w))
    ensures Kept(s, Claim(w), r)
  {
  }

  lemma EraseMovesRequest(s: State, w: SweeperId, fault: Fault, r: ReqId)
    requires Enabled(s, Erase(w, fault))
    ensures Kept(s, Erase(w, fault), r)
  {
    hide Ended, Balance;
  }

  lemma WriteBackMovesRequest(s: State, w: SweeperId, lost: bool, r: ReqId)
    requires Enabled(s, WriteBack(w, lost))
    ensures Kept(s, WriteBack(w, lost), r)
  {
  }

  lemma OfficeMovesRequest(s: State, step: Step, r: ReqId)
    requires Enabled(s, step) && !step.HoldOrSkip? && !step.Claim? && !step.Erase? && !step.WriteBack?
    ensures r in s.db.requests ==>
              r in Next(s, step).db.requests && RequestMoves(step, s.db.requests[r], Next(s, step).db.requests[r])
    ensures r !in s.db.requests && r in Next(s, step).db.requests ==>
              step == RequestDeletion(r, Next(s, step).db.requests[r].user)
              && Next(s, step).db.requests[r].settledAt.None?
  {
    hide HasPending, HasOpen, Rows, AllDue, MayLogin, Ended, Move, HoldStep, ClaimStep, EraseStep, WriteBackStep;
  }

  lemma TablesStep(s: State, step: Step)
    requires Enabled(s, step)
    ensures var db, db' := s.db, Next(s, step).db;
            && (step.Credit? || step.Debit? || step.Confirm? || (db'.wallets == db.wallets && db'.ledger == db.ledger))
            && (step.Login? || step.LoginCreate? || step.RequestDeletion? || step.Erase? || db'.sessions == db.sessions)
            && (step.Erase? || db'.accounts == db.accounts)
  {
    hide HasPending, HasOpen, Rows, AllDue, MayLogin, Ended, Move, HoldStep, ClaimStep, EraseStep, WriteBackStep, Own;
  }

  /**
    COMPLETED and CANCELLED are final in every interleaving of any number of
    sweepers. In particular a request whose cancel succeeded is never erased.
   */
  lemma {:induction false} TerminalIsFinal(s: State, steps: seq<Step>, s': State, r: ReqId)
    requires Run(s, steps, s') && r in s.db.requests && Terminal(s.db.requests[r].status)
    ensures r in s'.db.requests && s'.db.requests[r].status == s.db.requests[r].status
    decreases |steps|
  {
    if steps != [] {
      RequestStep(s, steps[0], r);
      TerminalIsFinal(Next(s, steps[0]), steps[1..], s', r);
    }
  }

  /** The only way into COMPLETED is an erase that found the request claimed and the wallet empty. */
  lemma CompletionIsGuarded(s: State, step: Step, r: ReqId)
    requires Enabled(s, step) && r in s.db.requests && s.db.requests[r].status != COMPLETED
    requires Next(s, step).db.requests[r].status == COMPLETED
    ensures step.Erase? && step.fault != RolledBack
    ensures s.db.requests[r].status == PROCESSING && Balance(s.db, s.db.requests[r].user) <= 0
    ensures var u := s.db.requests[r].user;
            forall x :: x in Next(s, step).db.sessions && Next(s, step).db.sessions[x].user == u ==>
              !Next(s, step).db.sessions[x].active
  {
    hide Next, Enabled;
    RequestStep(s, step, r);
    EraseCompletes(s, step.sweeper, step.fault, r);
  }

  lemma EraseCompletes(s: State, w: SweeperId, fault: Fault, r: ReqId)
    requires Enabled(s, Erase(w, fault)) && r in s.db.requests && s.db.requests[r].status != COMPLETED
    requires r in Next(s, Erase(w, fault)).db.requests && Next(s, Erase(w, fault)).db.requests[r].status == COMPLETED
    ensures fault != RolledBack
    ensures s.db.requests[r].status == PROCESSING && Balance(s.db, s.db.requests[r].user) <= 0
    ensures var u, db := s.db.requests[r].user, Next(s, Erase(w, fault)).db;
            forall x :: x in db.sessions && db.sessions[x].user == u ==> !db.sessions[x].active
  {
  }

  // ---------------------------------------------------------------------------
  // Money
  // ---------------------------------------------------------------------------

  function Signed(e: Entry): int {
    if e.credit then e.amount else -e.amount
  }

  /** Credits minus debits of one account. */
  function Sum(ledger: seq<Entry>, u: UserId): int {
    if ledger == [] then 0
    else Sum(ledger[..|ledger| - 1], u) + var e := ledger[|ledger| - 1]; if e.user == u then Signed(e) else 0
  }

  ghost predicate Balanced(db: Db) {
    forall u: UserId :: Balance(db, u) == Sum(db.ledger, u) && Balance(db, u) >= 0
  }

  ghost predicate KeysUnique(ledger: seq<Entry>) {
    forall i, j :: 0 <= i < j < |ledger| && ledger[i].settles.Some? ==> ledger[i].settles != ledger[j].settles
  }

  predicate Keyed(ledger: seq<Entry>, r: ReqId) {
    exists i :: 0 <= i < |ledger| && ledger[i].settles == Some(r)
  }

  /** The settlement on record is the one debit in the ledger, or nothing was there to move. */
  ghost predicate SettlementOk(db: Db, r: ReqId)
    requires r in db.requests
  {
    var request := db.requests[r];
    && (request.settledAt.None? ==> !Keyed(db.ledger, r))
    && (request.settledAt.Some? ==>
          && request.settledAmount >= 0
          && (Keyed(db.ledger, r) <==> request.settledAmount > 0)
          && forall i :: 0 <= i < |db.ledger| && db.ledger[i].settles == Some(r) ==>
               db.ledger[i] == Entry(request.user, false, request.settledAmount, Some(r)))
  }

  ghost predicate Books(db: Db) {
    && Balanced(db) && KeysUnique(db.ledger)
    && (forall r :: r in db.requests ==> SettlementOk(db, r))
    && (forall i :: 0 <= i < |db.ledger| && db.ledger[i].settles.Some? ==>
          db.ledger[i].settles.value in db.requests)
  }

  /** Settlement fields stay, and rows that are new are unsettled. */
  ghost predicate SameMoney(db: Db, db': Db) {
    && db'.wallets == db.wallets && db'.ledger == db.ledger
    && db.requests.Keys <= db'.requests.Keys
    && (forall r :: r in db'.requests ==>
          if r in db.requests
          then db'.requests[r].user == db.requests[r].user
               && db'.requests[r].settledAt == db.requests[r].settledAt
               && db'.requests[r].settledAmount == db.requests[r].settledAmount
          else db'.requests[r].settledAt.None?)
  }

  lemma SameMoneyBooks(db: Db, db': Db)
    requires Books(db) && SameMoney(db, db')
    ensures Books(db')
  {
  }

  /** One line moves exactly its own account, by exactly its amount. */
  lemma MoveBalances(db: Db, u: UserId, credit: bool, amount: int, settles: Option<ReqId>)
    requires Balanced(db) && amount > 0 && (credit || amount <= Balance(db, u))
    requires settles.Some? ==> !Keyed(db.ledger, settles.value)
    ensures var db' := Move(db, u, credit, amount, settles);
            db'.ledger == db.ledger + [Entry(u, credit, amount, settles)] && Balanced(db')
  {
  }

  lemma PlainMoveBooks(db: Db, u: UserId, credit: bool, amount: int)
    requires Books(db) && amount > 0 && (credit || amount <= Balance(db, u))
    ensures Books(Move(db, u, credit, amount, None))
  {
    var db' := Move(db, u, credit, amount, None);
    MoveBalances(db, u, credit, amount, None);
    forall r | r in db'.requests ensures SettlementOk(db', r) {
      assert SettlementOk(db, r);
      assert Keyed(db'.ledger, r) ==> Keyed(db.ledger, r);
      assert Keyed(db.ledger, r) ==> Keyed(db'.ledger, r) by {
        if Keyed(db.ledger, r) {
          var i :| 0 <= i < |db.ledger| && db.ledger[i].settles == Some(r);
          assert db'.ledger[i].settles == Some(r);
        }
      }
    }
  }

  /** The settlement's debit is never skipped by its idempotency key: the key is not in the ledger yet. */
  lemma ConfirmBooks(db: Db, r: ReqId, amount: int, now: Ms)
    requires Books(db) && Confirmable(db, r, amount)
    ensures Books(ConfirmTx(db, r, amount, now))
    ensures Balance(ConfirmTx(db, r, amount, now), db.requests[r].user) == 0
    ensures ConfirmTx(db, r, amount, now).ledger
            == db.ledger + if amount > 0 then [Entry(db.requests[r].user, false, amount, Some(r))] else []
  {
    var db' := ConfirmTx(db, r, amount, now);
    var u := db.requests[r].user;
    assert SettlementOk(db, r);
    assert Balance(db, u) >= 0;
    if amount > 0 {
      MoveBalances(db, u, false, amount, Some(r));
      var paid := Move(db, u, false, amount, Some(r));
      assert forall v: UserId :: Balance(db', v) == Balance(paid, v);
      assert db'.ledger[|db.ledger|].settles == Some(r);
    } else {
      assert forall v: UserId :: Balance(db', v) == Balance(db, v);
    }
    forall q | q in db'.requests ensures SettlementOk(db', q) {
      assert SettlementOk(db, q);
      if q != r { KeyedAppend(db, db', q); }
    }
  }

  lemma KeyedAppend(db: Db, db': Db, q: ReqId)
    requires db.ledger <= db'.ledger
    requires forall i :: |db.ledger| <= i < |db'.ledger| ==> db'.ledger[i].settles != Some(q)
    ensures Keyed(db'.ledger, q) <==> Keyed(db.ledger, q)
  {
  }

  /** Only a credit, a debit and a settlement touch money. */
  lemma OthersMoveNoMoney(s: State, step: Step)
    requires Enabled(s, step) && !step.Credit? && !step.Debit? && !step.Confirm?
    ensures SameMoney(s.db, Next(s, step).db)
  {
    hide Next, Enabled;
    TablesStep(s, step);
    forall r { RequestStep(s, step, r); }
  }

  lemma BooksStep(s: State, step: Step)
    requires Books(s.db) && Enabled(s, step)
    ensures Books(Next(s, step).db)
  {
    hide Books, SameMoney;
    match step
    case Credit(u, a) => PlainMoveBooks(s.db, u, true, a);
    case Debit(u, a) => PlainMoveBooks(s.db, u, false, a);
    case Confirm(r, a) => ConfirmBooks(s.db, r, a, s.now);
    case _ => OthersMoveNoMoney(s, step); SameMoneyBooks(s.db, Next(s, step).db);
  }

  /**
    In every run: each balance is its ledger's credits minus debits and never
    negative; each request has at most one settlement debit, and the amount on
    the request is the amount the ledger moved.
   */
  lemma {:induction false} BooksAlwaysBalance(s: State, steps: seq<Step>, s': State)
    requires Books(s.db) && Run(s, steps, s')
    ensures Books(s'.db)
    decreases |steps|
  {
    hide Books;
    if steps != [] {
      BooksStep(s, steps[0]);
      BooksAlwaysBalance(Next(s, steps[0]), steps[1..], s');
    }
  }

  // ---------------------------------------------------------------------------
  // Sessions
  // ---------------------------------------------------------------------------

  /** The account has asked for deletion, or is deleted. */
  predicate Leaving(db: Db, u: UserId) {
    exists r :: r in db.requests && db.requests[r].user == u
                && (db.requests[r].Open() || db.requests[r].status == COMPLETED)
  }

  ghost predicate SignedOut(db: Db) {
    && (forall x :: x in db.sessions && db.sessions[x].active ==> !Leaving(db, db.sessions[x].user))
    && (forall r :: r in db.requests ==> db.requests[r].user in db.accounts)
    && (forall r :: r in db.requests && db.requests[r].status == COMPLETED ==>
          db.accounts[db.requests[r].user].deleted)
  }

  /** Nobody starts leaving, nobody is deleted, and no session appears. */
  ghost predicate NobodyNew(db: Db, db': Db) {
    && db'.sessions == db.sessions && db'.requests.Keys == db.requests.Keys
    && (forall u :: u in db.accounts ==> u in db'.accounts && db'.accounts[u] == db.accounts[u])
    && (forall r :: r in db.requests ==>
          && db'.requests[r].user == db.requests[r].user
          && (db'.requests[r].Open() ==> db.requests[r].Open())
          && (db'.requests[r].status == COMPLETED ==> db.requests[r].status == COMPLETED))
  }

  lemma MostStepsBringNobody(s: State, step: Step)
    requires Enabled(s, step)
    requires !step.Login? && !step.LoginCreate? && !step.RequestDeletion? && !step.Erase?
    ensures NobodyNew(s.db, Next(s, step).db)
  {
    hide Next, Enabled;
    TablesStep(s, step);
    forall r { RequestStep(s, step, r); }
  }

  lemma QuietlySignedOut(s: State, step: Step)
    requires SignedOut(s.db) && Enabled(s, step)
    requires !step.Login? && !step.LoginCreate? && !step.RequestDeletion? && !step.Erase?
    ensures SignedOut(Next(s, step).db)
  {
    hide Next, Enabled;
    var db, db' := s.db, Next(s, step).db;
    MostStepsBringNobody(s, step);
    forall x | x in db'.sessions && db'.sessions[x].active ensures !Leaving(db', db'.sessions[x].user) {
      assert !Leaving(db, db.sessions[x].user);
    }
  }

  lemma MayLoginStays(db: Db, u: UserId)
    requires SignedOut(db) && MayLogin(db, u)
    ensures !Leaving(db, u)
  {
  }

  lemma RequestSignsOut(s: State, step: Step)
    requires SignedOut(s.db) && Enabled(s, step) && step.RequestDeletion?
    ensures SignedOut(Next(s, step).db)
  {
  }

  lemma EraseSignsOut(s: State, step: Step)
    requires SignedOut(s.db) && Enabled(s, step) && step.Erase?
    ensures SignedOut(Next(s, step).db)
  {
  }

  lemma SignedOutStep(s: State, step: Step)
    requires SignedOut(s.db) && Enabled(s, step)
    requires step.LoginCreate? ==> !Leaving(s.db, s.logins[step.login])
    ensures SignedOut(Next(s, step).db)
  {
    var db, db' := s.db, Next(s, step).db;
    match step {
      case Login(x, u) => assert !Leaving(db, u) by { MayLoginStays(db, u); }
      case LoginCreate(_, _) =>
      case RequestDeletion(_, _) => RequestSignsOut(s, step);
      case Erase(_, _) => EraseSignsOut(s, step);
      case _ => QuietlySignedOut(s, step);
    }
  }

   /** With each login atomic, an active session's user never has a pending, running or completed deletion. */
  lemma {:induction false} NoSessionWhileLeaving(s: State, steps: seq<Step>, s': State)
    requires SignedOut(s.db) && Run(s, steps, s')
    requires forall i :: 0 <= i < |steps| ==> !steps[i].LoginCreate?
    ensures SignedOut(s'.db)
    decreases |steps|
  {
    hide SignedOut;
    if steps != [] {
      SignedOutStep(s, steps[0]);
      NoSessionWhileLeaving(Next(s, steps[0]), steps[1..], s');
    }
  }

  /** A login's session write checks nothing: it keeps everybody signed out unless the user is leaving by then. */
  lemma CreateLeaks(s: State, l: LoginId, x: SessionId)
    requires SignedOut(s.db) && Enabled(s, LoginCreate(l, x))
    ensures SignedOut(Next(s, LoginCreate(l, x)).db) <==> !Leaving(s.db, s.logins[l])
  {
    var db, db' := s.db, Next(s, LoginCreate(l, x)).db;
    var u := s.logins[l];
    assert Leaving(db', u) <==> Leaving(db, u);
    if !Leaving(db, u) { SignedOutStep(s, LoginCreate(l, x)); }
    assert db'.sessions[x].active && db'.sessions[x].user == u;
  }
}
