/** What the rotation protocol guarantees over every run, in every interleaving. */
module RefreshTheorems {
  import opened Options
  import opened RefreshModel
  import opened RefreshInvariants
  import opened RefreshSteps

  /** A run keeps the invariant and only moves forward. */
  lemma {:induction false} RunKeeps(cfg: Config, s: State, steps: seq<Step>, s': State)
    requires Inv(s) && Run(cfg, s, steps, s')
    ensures Inv(s') && Later(s, s')
    decreases |steps|
  {
    hide Inv;
    if steps != [] {
      var mid := Next(cfg, s, steps[0]);
      StepKeeps(cfg, s, steps[0]);
      RunKeeps(cfg, mid, steps[1..], s');
      LaterTrans(s, mid, s');
    } else {
      assert Later(s, s);
    }
  }

  ghost predicate Reachable(cfg: Config, s: State) {
    exists s0, steps :: Init(s0) && Run(cfg, s0, steps, s)
  }

  lemma ReachableInv(cfg: Config, s: State)
    requires Reachable(cfg, s)
    ensures Inv(s)
  {
    var s0, steps :| Init(s0) && Run(cfg, s0, steps, s);
    InitInv(s0);
    RunKeeps(cfg, s0, steps, s);
  }

  // ---------------------------------------------------------------------------
  // What one step does to one call
  // ---------------------------------------------------------------------------

  predicate ActsFor(step: Step, c: CallId) {
    match step
    case Load(d) => d == c
    case Decide(d, _) => d == c
    case CommitRotation(d) => d == c
    case CommitReissue(d) => d == c
    case FindFamily(d) => d == c
    case CommitRevoke(d) => d == c
    case _ => false
  }

  /** What the acting call becomes. */
  function Moved(cfg: Config, s: State, step: Step, c: CallId): Call
    requires Enabled(s, step) && ActsFor(step, c)
  {
    var call := s.calls[c];
    match step
    case Load(_) => AfterLoad(s, call)
    case Decide(_, mint) => AfterDecide(cfg, call, mint, s.now)
    case CommitRotation(_) => AfterRotation(s.db, call)
    case CommitReissue(_) => Reissued(call.token, call.issued.id)
    case FindFamily(_) => Revoking(call.token, call.family, call.error, LiveSessionsOfFamily(s.db, call.family))
    case CommitRevoke(_) => Refused(call.token, call.error)
  }

  lemma NextCall(cfg: Config, s: State, step: Step, c: CallId)
    requires Enabled(s, step) && (c in s.calls || c in Next(cfg, s, step).calls)
    ensures c in Next(cfg, s, step).calls
    ensures Next(cfg, s, step).calls[c] ==
              if c !in s.calls then Presented(step.token, step.family, false)
              else if ActsFor(step, c) then Moved(cfg, s, step, c) else s.calls[c]
  {
  }

  // ---------------------------------------------------------------------------
  // Conservation of tokens
  // ---------------------------------------------------------------------------

  /**
    A family holds exactly one unused token more than it was given grace-window
    reissues; the live ones among them are all of them until one is revoked.
   */
  lemma UnusedTokensConserved(cfg: Config, s: State, f: FamilyId)
    requires Reachable(cfg, s) && f in s.hist.home
    ensures f in s.hist.reissues && |Unused(s.db, f)| == 1 + s.hist.reissues[f]
    ensures |Live(s.db, f)| <= 1 + s.hist.reissues[f]
    ensures |Live(s.db, f)| == 1 + s.hist.reissues[f] <==>
              forall k :: k in Unused(s.db, f) ==> s.db.tokens[k].revokedAt.None?
  {
    ReachableInv(cfg, s);
    assert FamilyOk(s.db, s.hist, f);
    SubsetSize(Live(s.db, f), Unused(s.db, f));
    assert Live(s.db, f) == Unused(s.db, f) <==>
           forall k :: k in Unused(s.db, f) ==> s.db.tokens[k].revokedAt.None?;
  }

  lemma {:induction false} SubsetSize<T>(a: set<T>, b: set<T>)
    requires a <= b
    ensures |a| <= |b| && (|a| == |b| <==> a == b)
    decreases |a|
  {
    if a == {} {
    } else {
      var x :| x in a;
      SubsetSize(a - {x}, b - {x});
      assert a == a - {x} + {x} && b == b - {x} + {x};
    }
  }

  // ---------------------------------------------------------------------------
  // The links between rotated tokens
  // ---------------------------------------------------------------------------

  /** A path along `replacedBy`. */
  ghost predicate Chain(db: Db, path: seq<TokenId>) {
    && (forall i :: 0 <= i < |path| ==> path[i] in db.tokens)
    && (forall i :: 0 <= i < |path| - 1 ==> db.tokens[path[i]].replacedBy == Some(path[i + 1]))
  }

  lemma {:induction false} ChainIsYounger(s: State, path: seq<TokenId>, i: nat, j: nat)
    requires Ledger(s.db, s.hist) && Chain(s.db, path) && i < j < |path|
    ensures path[i] in s.hist.births && path[j] in s.hist.births
    ensures s.hist.births[path[i]] < s.hist.births[path[j]]
    ensures s.db.tokens[path[i]].family == s.db.tokens[path[j]].family
    decreases j - i
  {
    assert TokenOk(s.db, s.hist, path[i]);
    assert s.db.tokens[path[i]].replacedBy == Some(path[i + 1]);
    if i + 1 < j { ChainIsYounger(s, path, i + 1, j); }
  }

  /** Links never close a cycle, never leave the family, and never meet. */
  lemma ChainsNeverClose(cfg: Config, s: State, path: seq<TokenId>)
    requires Reachable(cfg, s) && Chain(s.db, path)
    ensures forall i, j :: 0 <= i < j < |path| ==>
              path[i] != path[j] && s.db.tokens[path[i]].family == s.db.tokens[path[j]].family
    ensures LinksInjective(s.db)
  {
    ReachableInv(cfg, s);
    forall i, j | 0 <= i < j < |path|
      ensures path[i] != path[j] && s.db.tokens[path[i]].family == s.db.tokens[path[j]].family
    {
      ChainIsYounger(s, path, i, j);
    }
  }

  /** Where the links lead from `k`: the token that is current in its place. */
  ghost function Tip(db: Db, h: History, k: TokenId): (tip: TokenId)
    requires Ledger(db, h) && k in db.tokens
    ensures tip in db.tokens && db.tokens[tip].usedAt.None?
    ensures db.tokens[tip].family == db.tokens[k].family
    ensures db.tokens[tip].session == db.tokens[k].session && db.tokens[tip].user == db.tokens[k].user
    decreases |h.births| - (if k in h.births then h.births[k] else 0)
  {
    assert TokenOk(db, h, k);
    match db.tokens[k].replacedBy
    case None => k
    case Some(next) =>
      assert TokenOk(db, h, next);
      Tip(db, h, next)
  }

  // ---------------------------------------------------------------------------
  // Single use
  // ---------------------------------------------------------------------------

  predicate Paired(call: Call) {
    call.Rotated? || call.Reissued?
  }

  /** No two calls ended with the same pair. */
  ghost predicate PairsDistinct(s: State) {
    forall c, d :: c in s.calls && d in s.calls && Paired(s.calls[c]) && Paired(s.calls[d])
                   && s.calls[c].pair == s.calls[d].pair
      ==> c == d
  }

  /** A call ends with the token it held, whose row was not there; every earlier pair's row was. */
  lemma PairIsNew(cfg: Config, s: State, step: Step, c: CallId)
    requires Inv(s) && Enabled(s, step) && c in Next(cfg, s, step).calls && Paired(Next(cfg, s, step).calls[c])
    ensures c in s.calls
    ensures if Paired(s.calls[c]) then
              Next(cfg, s, step).calls[c] == s.calls[c] && s.calls[c].pair in s.db.tokens
            else ActsFor(step, c) && Next(cfg, s, step).calls[c].pair !in s.db.tokens
  {
    hide Next, Ledger;
    NextCall(cfg, s, step, c);
    if c in s.calls { assert CallOk(s.db, s.hist, s.calls[c]); }
  }

  lemma PairsStep(cfg: Config, s: State, step: Step)
    requires Inv(s) && Enabled(s, step) && PairsDistinct(s)
    ensures PairsDistinct(Next(cfg, s, step))
  {
    hide Inv, Next, Enabled;
    var s' := Next(cfg, s, step);
    forall c, d | c in s'.calls && d in s'.calls && Paired(s'.calls[c]) && Paired(s'.calls[d])
                  && s'.calls[c].pair == s'.calls[d].pair
      ensures c == d
    {
      PairIsNew(cfg, s, step, c);
      PairIsNew(cfg, s, step, d);
    }
  }

  lemma {:induction false} PairsRun(cfg: Config, s: State, steps: seq<Step>, s': State)
    requires Inv(s) && PairsDistinct(s) && Run(cfg, s, steps, s')
    ensures PairsDistinct(s')
    decreases |steps|
  {
    hide Inv, PairsDistinct;
    if steps != [] {
      StepKeeps(cfg, s, steps[0]);
      PairsStep(cfg, s, steps[0]);
      PairsRun(cfg, Next(cfg, s, steps[0]), steps[1..], s');
    }
  }

  /** Of all the calls in all the interleavings at most one rotates a given token, and no two end with one pair. */
  lemma RotatedAtMostOnce(cfg: Config, s: State, c: CallId, d: CallId)
    requires Reachable(cfg, s) && c in s.calls && d in s.calls
    requires Paired(s.calls[c]) && Paired(s.calls[d])
    ensures s.calls[c].Rotated? && s.calls[d].Rotated? && s.calls[c].token == s.calls[d].token ==> c == d
    ensures s.calls[c].pair == s.calls[d].pair ==> c == d
  {
    var s0, steps :| Init(s0) && Run(cfg, s0, steps, s);
    InitInv(s0);
    PairsRun(cfg, s0, steps, s);
    ReachableInv(cfg, s);
  }

  /** The rotation-conflict answer of the second attempt is never given. */
  lemma ConflictUnreachable(cfg: Config, s: State, c: CallId)
    requires Reachable(cfg, s) && c in s.calls
    ensures s.calls[c] != Refused(s.calls[c].token, RotationConflict)
    ensures !(s.calls[c].Minted? && s.calls[c].retry)
  {
    ReachableInv(cfg, s);
    assert CallOk(s.db, s.hist, s.calls[c]);
  }

  // ---------------------------------------------------------------------------
  // Every call ends
  // ---------------------------------------------------------------------------

  /** How many of its own steps a call can still take. */
  function Rank(call: Call): nat {
    match call
    case Presented(_, _, retry) => if retry then 4 else 7
    case Loaded(_, _, retry) => if retry then 3 else 6
    case Minted(_, _, _, _) => 5
    case Detected(_, _, _) => 2
    case Revoking(_, _, _, _) => 1
    case Reissuing(_, _, _) => 1
    case _ => 0
  }

  function OwnSteps(steps: seq<Step>, c: CallId): nat {
    if steps == [] then 0 else (if ActsFor(steps[0], c) then 1 else 0) + OwnSteps(steps[1..], c)
  }

  lemma OwnStepDescends(cfg: Config, s: State, step: Step, c: CallId)
    requires Inv(s) && Enabled(s, step) && c in s.calls
    ensures c in Next(cfg, s, step).calls
    ensures Rank(Next(cfg, s, step).calls[c]) + (if ActsFor(step, c) then 1 else 0) <= Rank(s.calls[c])
  {
    hide Next, Inv, SnapOk, Unwritten;
    CallerOk(s, c);
    NextCall(cfg, s, step, c);
  }

  /** A call takes at most seven steps of its own, whatever the others do. */
  lemma {:induction false} CallsEnd(cfg: Config, s: State, steps: seq<Step>, s': State, c: CallId)
    requires Inv(s) && Run(cfg, s, steps, s') && c in s.calls
    ensures c in s'.calls && OwnSteps(steps, c) + Rank(s'.calls[c]) <= Rank(s.calls[c]) <= 7
    decreases |steps|
  {
    hide Inv;
    if steps != [] {
      StepKeeps(cfg, s, steps[0]);
      OwnStepDescends(cfg, s, steps[0], c);
      CallsEnd(cfg, Next(cfg, s, steps[0]), steps[1..], s', c);
    }
  }

  // ---------------------------------------------------------------------------
  // Revocation is final
  // ---------------------------------------------------------------------------

  /** A dead session stays dead, and no access token of it is ever accepted again. */
  lemma RevokedIsFinal(cfg: Config, s: State, steps: seq<Step>, s': State, x: SessionId)
    requires Inv(s) && Run(cfg, s, steps, s') && SessionDead(s.db, x)
    ensures SessionDead(s'.db, x)
    ensures forall a: AccessToken :: a.session == x ==> Attach(s'.db, a, s'.now) == Err(SessionRevoked)
  {
    RunKeeps(cfg, s, steps, s');
  }

  /** A call that came after session `x` died obtains nothing from a token of that session. */
  ghost predicate Barred(db: Db, call: Call, x: SessionId) {
    match call
    case Loaded(_, snap, _) => snap.row.session == x ==> snap.status == REVOKED
    case Minted(_, snap, _, _) => snap.row.session != x
    case Reissuing(_, snap, _) => snap.row.session != x
    case Rotated(k, _) => k in db.tokens && db.tokens[k].session != x
    case Reissued(k, _) => k in db.tokens && db.tokens[k].session != x
    case _ => true
  }

  ghost predicate LatecomersBarred(s: State, early: set<CallId>, x: SessionId) {
    forall c :: c in s.calls && c !in early ==> Barred(s.db, s.calls[c], x)
  }

  lemma BarredStep(cfg: Config, s: State, step: Step, early: set<CallId>, x: SessionId, c: CallId)
    requires Inv(s) && Enabled(s, step) && SessionDead(s.db, x) && LatecomersBarred(s, early, x)
    requires c in Next(cfg, s, step).calls && c !in early
    ensures Barred(Next(cfg, s, step).db, Next(cfg, s, step).calls[c], x)
  {
    hide Next, Inv, Unwritten, Stored, TakeSnapshot;
    NextCall(cfg, s, step, c);
    if c in s.calls {
      CallerOk(s, c);
      StepKeeps(cfg, s, step);
      if ActsFor(step, c) { BarredMoves(cfg, s, step, early, x, c); } else { BarredLater(s, Next(cfg, s, step), s.calls[c], x); }
    }
  }

  lemma BarredLater(s: State, s': State, call: Call, x: SessionId)
    requires LaterDb(s.db, s.hist, s'.db, s'.hist) && Barred(s.db, call, x)
    ensures Barred(s'.db, call, x)
  {
  }

  lemma BarredMoves(cfg: Config, s: State, step: Step, early: set<CallId>, x: SessionId, c: CallId)
    requires Enabled(s, step) && ActsFor(step, c) && c in s.calls && CallOk(s.db, s.hist, s.calls[c])
    requires SessionDead(s.db, x) && Barred(s.db, s.calls[c], x)
    requires LaterDb(s.db, s.hist, Next(cfg, s, step).db, Next(cfg, s, step).hist)
    ensures Barred(Next(cfg, s, step).db, Moved(cfg, s, step, c), x)
  {
  }

  lemma {:induction false} LatecomersStayBarred(
    cfg: Config, s: State, steps: seq<Step>, s': State, early: set<CallId>, x: SessionId)
    requires Inv(s) && Run(cfg, s, steps, s') && SessionDead(s.db, x) && LatecomersBarred(s, early, x)
    ensures LatecomersBarred(s', early, x)
    decreases |steps|
  {
    if steps != [] {
      var mid := Next(cfg, s, steps[0]);
      StepKeeps(cfg, s, steps[0]);
      forall c | c in mid.calls && c !in early ensures Barred(mid.db, mid.calls[c], x) {
        BarredStep(cfg, s, steps[0], early, x, c);
      }
      LatecomersStayBarred(cfg, mid, steps[1..], s', early, x);
    }
  }

  /**
    Once a call was answered "token already used", every call that had not read
    its row by then, however early it arrived, is refused on every token of that
    family, even one that a racing grace-window reissue inserts afterwards, and so
    is every access token of the session.
   */
  lemma ReplayKillsTheFamily(
    cfg: Config, s: State, steps: seq<Step>, s': State, replay: CallId, late: CallId, k: TokenId)
    requires Reachable(cfg, s) && Run(cfg, s, steps, s')
    requires replay in s.calls && s.calls[replay].Refused? && s.calls[replay].error == TokenReused
    requires (late in s.calls ==> s.calls[late].Presented?)
    requires late in s'.calls && s'.calls[late].token == k && k in s'.db.tokens
    requires s.calls[replay].token in s.db.tokens
             && s'.db.tokens[k].family == s.db.tokens[s.calls[replay].token].family
    ensures !s'.calls[late].Holds() && !s'.calls[late].Rotated? && !s'.calls[late].Reissued?
    ensures forall a: AccessToken :: a.session == s'.db.tokens[k].session ==>
              Attach(s'.db, a, s'.now) == Err(SessionRevoked)
  {
    hide Inv, Run, Later, Reachable, CallOk, Attach;
    var first := s.calls[replay].token;
    var x := s.db.tokens[first].session;
    ReachableInv(cfg, s);
    ReplayerDead(s, replay);
    RunKeeps(cfg, s, steps, s');
    SameFamilySameSession(s, s', first, k);
    var early := set c | c in s.calls && !s.calls[c].Presented?;
    LatecomersStayBarred(cfg, s, steps, s', early, x);
    RevokedIsFinal(cfg, s, steps, s', x);
    if s'.calls[late].Holds() { HoldersMatch(s', late); }
  }

  lemma ReplayerDead(s: State, c: CallId)
    requires Inv(s) && c in s.calls && s.calls[c].Refused? && s.calls[c].error == TokenReused
    ensures s.calls[c].token in s.db.tokens && SessionDead(s.db, s.db.tokens[s.calls[c].token].session)
  {
  }

  lemma SameFamilySameSession(s: State, s': State, a: TokenId, b: TokenId)
    requires Inv(s') && Later(s, s') && a in s.db.tokens && b in s'.db.tokens
    requires s'.db.tokens[b].family == s.db.tokens[a].family
    ensures s'.db.tokens[b].session == s.db.tokens[a].session
  {
    assert TokenOk(s'.db, s'.hist, a) && TokenOk(s'.db, s'.hist, b);
  }

  lemma HoldersMatch(s: State, c: CallId)
    requires Inv(s) && c in s.calls && s.calls[c].Holds()
    ensures s.calls[c].token in s.db.tokens
    ensures s.calls[c].snap.row.session == s.db.tokens[s.calls[c].token].session
  {
  }

  /** The revocation transaction leaves no live token in the family. */
  lemma RevocationEmptiesFamily(cfg: Config, s: State, c: CallId)
    requires Enabled(s, CommitRevoke(c))
    ensures Live(Next(cfg, s, CommitRevoke(c)).db, s.calls[c].family) == {}
  {
  }

  /**
    It does not stay that way: a grace-window reissue that was decided before the
    revocation still writes a live row, and its session stays as dead as it was.
   */
  lemma LateReissueIsLive(cfg: Config, s: State, c: CallId)
    requires Inv(s) && Enabled(s, CommitReissue(c))
    ensures var s' := Next(cfg, s, CommitReissue(c));
            var row := s.calls[c].snap.row;
            && Live(s'.db, row.family) == Live(s.db, row.family) + {s.calls[c].issued.id}
            && s.calls[c].issued.id !in Live(s.db, row.family)
            && (SessionDead(s.db, row.session) ==> SessionDead(s'.db, row.session))
  {
    hide Inv;
    HolderFacts(s, c);
  }

  /** In every reachable state a revoked token's session is dead, and a family has one session and one user. */
  lemma FamiliesShareOneSession(cfg: Config, s: State, a: TokenId, b: TokenId)
    requires Reachable(cfg, s) && a in s.db.tokens && b in s.db.tokens
    ensures s.db.tokens[a].family == s.db.tokens[b].family ==>
              s.db.tokens[a].session == s.db.tokens[b].session && s.db.tokens[a].user == s.db.tokens[b].user
    ensures s.db.tokens[a].revokedAt.Some? ==> SessionDead(s.db, s.db.tokens[a].session)
  {
    ReachableInv(cfg, s);
    assert TokenOk(s.db, s.hist, a) && TokenOk(s.db, s.hist, b);
  }

  // ---------------------------------------------------------------------------
  // Concurrent calls with one fresh token
  // ---------------------------------------------------------------------------

  ghost predicate QuietSnapshot(snap: Snapshot) {
    && snap.row.revokedAt.None? && snap.status == ACTIVE && !snap.user.Unusable()
    && snap.row.createdAt >= snap.user.credentialsChangedAt - 1000
  }

  /** Nothing happened to the token's session or user, and the deadline has not passed. */
  ghost predicate Quiet(s: State, k: TokenId, deadline: Ms) {
    && Stored(s.db, k) && QuietSnapshot(TakeSnapshot(s.db, k))
    && s.now <= deadline < s.db.tokens[k].expiresAt
  }

  ghost predicate QuietRun(cfg: Config, s: State, steps: seq<Step>, s': State, k: TokenId, deadline: Ms)
    decreases |steps|
  {
    && Quiet(s, k, deadline)
    && if steps == [] then s == s'
       else Enabled(s, steps[0]) && QuietRun(cfg, Next(cfg, s, steps[0]), steps[1..], s', k, deadline)
  }

  /** A call on `k` that is still on its way to a pair, or has one. */
  ghost predicate RacerOk(call: Call, k: TokenId, start: Ms) {
    match call
    case Loaded(_, snap, _) =>
      QuietSnapshot(snap) && (snap.row.usedAt.Some? ==> snap.row.usedAt.value >= start)
    case Detected(_, _, _) => false
    case Revoking(_, _, _, _) => false
    case Refused(_, _) => false
    case _ => true
  }

  ghost predicate SomeoneRotated(s: State, k: TokenId) {
    exists c :: c in s.calls && s.calls[c].Rotated? && s.calls[c].token == k
  }

  ghost predicate Race(s: State, k: TokenId, start: Ms) {
    && start <= s.now && k in s.db.tokens
    && (forall c :: c in s.calls && s.calls[c].token == k ==> RacerOk(s.calls[c], k, start))
    && (s.db.tokens[k].usedAt.Some? ==> s.db.tokens[k].usedAt.value >= start && SomeoneRotated(s, k))
  }

  /** Only a rotation of `k` marks `k` used. */
  lemma OnlyRotationUses(cfg: Config, s: State, step: Step, k: TokenId)
    requires Inv(s) && Enabled(s, step) && k in s.db.tokens
    ensures k in Next(cfg, s, step).db.tokens
    ensures Next(cfg, s, step).db.tokens[k].usedAt == s.db.tokens[k].usedAt
            || (step.CommitRotation? && s.calls[step.call].token == k && Claimable(s.db, k))
  {
    hide Inv, Slide, TokensOfFamily, TokensOfSession, TokensOfUser, SessionsOfUser;
    WritesElsewhere(s, step, k);
  }

  /** A row that is there already is never the one a step inserts. */
  lemma WritesElsewhere(s: State, step: Step, k: TokenId)
    requires Inv(s) && Enabled(s, step) && k in s.db.tokens
    ensures step.CommitRotation? || step.CommitReissue? ==> s.calls[step.call].issued.id != k
    ensures step.SignInToken? ==> step.token != k
  {
  }

  lemma RacerStep(cfg: Config, s: State, step: Step, k: TokenId, start: Ms, deadline: Ms, c: CallId)
    requires Inv(s) && Enabled(s, step) && Race(s, k, start) && Quiet(s, k, deadline)
    requires deadline <= start + cfg.graceSeconds * 1000
    requires c in Next(cfg, s, step).calls && Next(cfg, s, step).calls[c].token == k
    ensures RacerOk(Next(cfg, s, step).calls[c], k, start)
  {
    hide Next, Inv, Unwritten, Quiet;
    NextCall(cfg, s, step, c);
    if c in s.calls {
      CallerOk(s, c);
      if ActsFor(step, c) { RacerMoves(cfg, s, step, k, start, deadline, c); }
    }
  }

  lemma RacerMoves(cfg: Config, s: State, step: Step, k: TokenId, start: Ms, deadline: Ms, c: CallId)
    requires Enabled(s, step) && Race(s, k, start) && Quiet(s, k, deadline)
    requires deadline <= start + cfg.graceSeconds * 1000
    requires c in s.calls && s.calls[c].token == k && CallOk(s.db, s.hist, s.calls[c]) && ActsFor(step, c)
    ensures RacerOk(Moved(cfg, s, step, c), k, start)
  {
  }

  lemma RotatorStays(cfg: Config, s: State, step: Step, k: TokenId)
    requires Enabled(s, step) && SomeoneRotated(s, k)
    ensures SomeoneRotated(Next(cfg, s, step), k)
  {
    var c :| c in s.calls && s.calls[c].Rotated? && s.calls[c].token == k;
    assert Next(cfg, s, step).calls[c] == s.calls[c];
  }

  lemma RaceStep(cfg: Config, s: State, step: Step, k: TokenId, start: Ms, deadline: Ms)
    requires Inv(s) && Enabled(s, step) && Race(s, k, start) && Quiet(s, k, deadline)
    requires deadline <= start + cfg.graceSeconds * 1000
    ensures Race(Next(cfg, s, step), k, start)
  {
    hide Inv, Judge, Admit, QuietSnapshot, RevokeTx, ReissueTx;
    var s' := Next(cfg, s, step);
    OnlyRotationUses(cfg, s, step, k);
    if s'.db.tokens[k].usedAt == s.db.tokens[k].usedAt {
      if s.db.tokens[k].usedAt.Some? { RotatorStays(cfg, s, step, k); }
    } else {
      assert s'.calls[step.call].Rotated? && s'.calls[step.call].token == k;
    }
    forall c | c in s'.calls && s'.calls[c].token == k ensures RacerOk(s'.calls[c], k, start) {
      RacerStep(cfg, s, step, k, start, deadline, c);
    }
  }

  lemma {:induction false} RaceRun(
    cfg: Config, s: State, steps: seq<Step>, s': State, k: TokenId, start: Ms, deadline: Ms)
    requires Inv(s) && QuietRun(cfg, s, steps, s', k, deadline) && Race(s, k, start)
    requires deadline <= start + cfg.graceSeconds * 1000
    ensures Inv(s') && Race(s', k, start) && Quiet(s', k, deadline)
    decreases |steps|
  {
    hide Inv, Race, Quiet;
    if steps != [] {
      StepKeeps(cfg, s, steps[0]);
      RaceStep(cfg, s, steps[0], k, start, deadline);
      RaceRun(cfg, Next(cfg, s, steps[0]), steps[1..], s', k, start, deadline);
    }
  }

  /** A registered pair that works: its row is there, unrevoked, in the same living session. */
  ghost predicate Usable(s: State, k: TokenId, pair: TokenId) {
    && k in s.db.tokens && pair in s.db.tokens && s.db.tokens[pair].revokedAt.None?
    && s.db.tokens[pair].session == s.db.tokens[k].session
    && s.db.tokens[pair].family == s.db.tokens[k].family
    && s.db.tokens[pair].session in s.db.sessions && s.db.sessions[s.db.tokens[pair].session].status == ACTIVE
  }

  lemma PairUsable(s: State, c: CallId, k: TokenId, deadline: Ms)
    requires Inv(s) && Quiet(s, k, deadline) && c in s.calls && s.calls[c].token == k
    requires s.calls[c].Rotated? || s.calls[c].Reissued?
    ensures Usable(s, k, s.calls[c].pair)
  {
    assert CallOk(s.db, s.hist, s.calls[c]);
    assert TokenOk(s.db, s.hist, k) && TokenOk(s.db, s.hist, s.calls[c].pair);
  }

  /**
    Any number of calls present one fresh token while nothing is revoked and the
    grace window is open. In every interleaving none of them is refused, each one
    that has ended holds a usable pair, and as soon as one has ended exactly one
    of them rotated the token.
   */
  lemma ConcurrentCallsAllSucceed(
    cfg: Config, s: State, steps: seq<Step>, s': State, k: TokenId, deadline: Ms)
    requires Reachable(cfg, s) && QuietRun(cfg, s, steps, s', k, deadline)
    requires deadline <= s.now + cfg.graceSeconds * 1000
    requires k in s.db.tokens && s.db.tokens[k].usedAt.None?
    requires forall c :: c in s.calls ==> s.calls[c].token != k
    ensures forall c :: c in s'.calls && s'.calls[c].token == k ==>
              !s'.calls[c].Refused? && !s'.calls[c].Detected? && !s'.calls[c].Revoking?
    ensures forall c :: c in s'.calls && s'.calls[c].token == k && s'.calls[c].Done() ==>
              Usable(s', k, s'.calls[c].pair)
    ensures (exists c :: c in s'.calls && s'.calls[c].token == k && s'.calls[c].Done()) ==>
              exists c :: c in s'.calls && s'.calls[c].token == k && s'.calls[c].Rotated?
                && forall d :: d in s'.calls && s'.calls[d].token == k && s'.calls[d].Rotated? ==> d == c
  {
    ReachableInv(cfg, s);
    RaceRun(cfg, s, steps, s', k, s.now, deadline);
    forall c | c in s'.calls && s'.calls[c].token == k
      ensures !s'.calls[c].Refused? && !s'.calls[c].Detected? && !s'.calls[c].Revoking?
      ensures s'.calls[c].Done() ==> Usable(s', k, s'.calls[c].pair) && s'.db.tokens[k].usedAt.Some?
    {
      assert RacerOk(s'.calls[c], k, s.now);
      if s'.calls[c].Done() { PairUsable(s', c, k, deadline); SpentByPair(s', c); }
    }
    if s'.db.tokens[k].usedAt.Some? { OneRotator(s', k); }
  }

  lemma SpentByPair(s: State, c: CallId)
    requires Inv(s) && c in s.calls && (s.calls[c].Rotated? || s.calls[c].Reissued?)
    ensures s.calls[c].token in s.db.tokens && s.db.tokens[s.calls[c].token].usedAt.Some?
  {
  }

  lemma OneRotator(s: State, k: TokenId)
    requires Inv(s) && SomeoneRotated(s, k)
    ensures exists c :: c in s.calls && s.calls[c].token == k && s.calls[c].Rotated?
              && forall d :: d in s.calls && s.calls[d].token == k && s.calls[d].Rotated? ==> d == c
  {
    var c :| c in s.calls && s.calls[c].Rotated? && s.calls[c].token == k;
    assert forall d :: d in s.calls && s.calls[d].token == k && s.calls[d].Rotated? ==> d == c;
  }
}
