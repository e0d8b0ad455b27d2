/**
  The authentication service in its own form: tables updated in place, one
  method per transaction, and the refresh call itself with its single retry.

  Between any two of its statements the refresh call lets the rest of the world
  run: `Interfere` performs whatever steps of other callers it is handed. What
  the call does is then shown to be a run of the state machine, so everything
  proved over runs holds for the code as it is written.
 */
module RefreshService {
  import opened Options
  import opened RefreshModel
  import opened RefreshInvariants
  import opened RefreshSteps
  import opened RefreshTheorems

  class AuthService {
    const cfg: Config
    var users: map<UserId, User>
    var sessions: map<SessionId, Session>
    var tokens: map<TokenId, Token>
    var calls: map<CallId, Call>
    var signIns: map<SignInId, PendingSignIn>
    var now: Ms
    var hist: History

    constructor (cfg: Config, users: map<UserId, User>, now: Ms)
      ensures this.cfg == cfg && this.users == users && Init(Abs())
    {
      this.cfg := cfg;
      this.users := users;
      this.now := now;
      sessions, tokens, calls, signIns := map[], map[], map[], map[];
      hist := History({}, {}, map[], map[], map[]);
    }

    function Tables(): Db
      reads this
    {
      Db(users, sessions, tokens)
    }

    function Abs(): State
      reads this
    {
      State(Tables(), calls, signIns, now, hist)
    }

    // -------------------------------------------------------------------------
    // Transactions
    // -------------------------------------------------------------------------

    /** Claim, create the successor, link to it, slide the session - or touch nothing. */
    method RotateInTransaction(k: TokenId, row: Token, issued: Issued) returns (rotated: bool)
      requires issued.id != k
      modifies this`tokens, this`sessions
      ensures Tables() == RotateTx(old(Tables()), k, row, issued, now)
      ensures rotated == Claimable(old(Tables()), k)
    {
      if k !in tokens || tokens[k].usedAt.Some? || tokens[k].revokedAt.Some? {
        return false;
      }
      tokens := tokens[k := tokens[k].(usedAt := Some(now))];
      tokens := tokens[issued.id := Successor(row, issued, now)];
      tokens := tokens[k := tokens[k].(replacedBy := Some(issued.id))];
      SlideSession(row.session, issued.expiresAt);
      rotated := true;
      assert tokens == RotateTx(old(Tables()), k, row, issued, now).tokens;
    }

    method ReissueInTransaction(row: Token, issued: Issued)
      modifies this`tokens, this`sessions
      ensures Tables() == ReissueTx(old(Tables()), row, issued, now)
    {
      tokens := tokens[issued.id := Successor(row, issued, now)];
      SlideSession(row.session, issued.expiresAt);
    }

    method SlideSession(x: SessionId, expiresAt: Ms)
      modifies this`sessions
      ensures sessions == Slide(old(sessions), x, expiresAt)
    {
      if x in sessions {
        sessions := sessions[x := sessions[x].(expiresAt := expiresAt)];
      }
    }

    /** The sessions a reuse detection will revoke, read before its transaction. */
    method FindSessions(f: FamilyId) returns (found: set<SessionId>)
      ensures found == LiveSessionsOfFamily(Tables(), f)
    {
      found := {};
      var left := tokens.Keys;
      while left != {}
        invariant left <= tokens.Keys
        invariant found == set k | k in tokens && k !in left && tokens[k].family == f
                                   && tokens[k].revokedAt.None? :: tokens[k].session
        decreases |left|
      {
        var k :| k in left;
        left := left - {k};
        if tokens[k].family == f && tokens[k].revokedAt.None? {
          found := found + {tokens[k].session};
        }
      }
    }

    /** The two `updateMany` of a revocation. */
    method RevokeInTransaction(toks: set<TokenId>, sess: set<SessionId>)
      modifies this`tokens, this`sessions
      ensures Tables() == RevokeTx(old(Tables()), toks, sess, now)
    {
      tokens := map k | k in tokens ::
        if k in toks && tokens[k].revokedAt.None? then tokens[k].(revokedAt := Some(now)) else tokens[k];
      sessions := map x | x in sessions ::
        if x in sess then sessions[x].(status := REVOKED) else sessions[x];
    }

    method Logout(x: SessionId)
      requires x in sessions
      modifies this`tokens, this`sessions
      ensures Abs() == Next(cfg, old(Abs()), Step.Logout(x))
    {
      RevokeInTransaction(TokensOfSession(Tables(), x), {x});
    }

    method LogoutAll(u: UserId) returns (ended: nat)
      modifies this`tokens, this`sessions
      ensures Abs() == Next(cfg, old(Abs()), Step.LogoutAll(u))
      ensures ended == |set x | x in old(sessions) && old(sessions)[x].user == u && old(sessions)[x].status == ACTIVE|
    {
      ended := |set x | x in sessions && sessions[x].user == u && sessions[x].status == ACTIVE|;
      RevokeInTransaction(TokensOfUser(Tables(), u), SessionsOfUser(Tables(), u));
    }

    method ChangePassword(u: UserId)
      requires u in users
      modifies this`users, this`tokens, this`sessions
      ensures Abs() == Next(cfg, old(Abs()), Step.ChangePassword(u))
    {
      users := users[u := users[u].(credentialsChangedAt := now)];
      RevokeInTransaction(TokensOfUser(Tables(), u), SessionsOfUser(Tables(), u));
    }

    // -------------------------------------------------------------------------
    // Steps of a run
    // -------------------------------------------------------------------------

    /** The service is where the run `steps` from `start` leads. */
    ghost predicate Along(start: State, steps: seq<Step>)
      reads this
    {
      Inv(Abs()) && Run(cfg, start, steps, Abs())
    }

    lemma Extend(start: State, before: seq<Step>, mid: State, step: Step)
      requires Inv(mid) && Run(cfg, start, before, mid) && Enabled(mid, step)
      requires Abs() == Next(cfg, mid, step)
      ensures Along(start, before + [step])
    {
      hide Next, Inv;
      StepKeeps(cfg, mid, step);
      RunSnoc(cfg, start, before, mid, step);
    }

    /** Another caller, an administrator or the clock takes one step. */
    method Perform(step: Step)
      requires Enabled(Abs(), step)
      modifies this
      ensures Abs() == Next(cfg, old(Abs()), step)
    {
      var next := Next(cfg, Abs(), step);
      users, sessions, tokens := next.db.users, next.db.sessions, next.db.tokens;
      calls, signIns, now, hist := next.calls, next.signIns, next.now, next.hist;
    }

    lemma Untouched(s: State, step: Step, c: CallId)
      requires Enabled(s, step) && c in s.calls && !ActsFor(step, c)
      ensures c in Next(cfg, s, step).calls && Next(cfg, s, step).calls[c] == s.calls[c]
    {
    }

    /** The rest of the world runs: any steps that are not `c`'s own. */
    method Interfere(c: CallId, script: seq<Step>, ghost start: State, ghost before: seq<Step>)
      returns (ghost steps: seq<Step>)
      requires Along(start, before) && c in calls
      modifies this
      ensures Along(start, steps) && c in calls && calls[c] == old(calls)[c]
    {
      hide Inv, Next, Run;
      steps := before;
      for i := 0 to |script|
        invariant Along(start, steps) && c in calls && calls[c] == old(calls)[c]
      {
        if Enabled(Abs(), script[i]) && !ActsFor(script[i], c) {
          ghost var s := Abs();
          Untouched(s, script[i], c);
          Perform(script[i]);
          Extend(start, steps, s, script[i]);
          steps := steps + [script[i]];
        }
      }
    }

    // -------------------------------------------------------------------------
    // The refresh call
    // -------------------------------------------------------------------------

    /** A token hash nobody has seen. */
    method Mint() returns (k: TokenId)
      ensures k !in hist.known
    {
      k := 0;
      var left := hist.known;
      while left != {}
        invariant left <= hist.known
        invariant forall j :: j in hist.known && j !in left ==> j < k
        decreases |left|
      {
        var j :| j in left;
        left := left - {j};
        if k <= j { k := j + 1; }
      }
    }

    method ReadRow(c: CallId)
      requires c in calls && calls[c].Presented?
      modifies this`calls
      ensures Abs() == Next(cfg, old(Abs()), Load(c))
    {
      calls := calls[c := AfterLoad(Abs(), calls[c])];
    }

    method TakeDecision(c: CallId, id: TokenId)
      requires Enabled(Abs(), Decide(c, id))
      modifies this`calls, this`hist
      ensures Abs() == Next(cfg, old(Abs()), Decide(c, id))
    {
      calls := calls[c := AfterDecide(cfg, calls[c], id, now)];
      hist := hist.(known := hist.known + {id});
    }

    method TryRotation(c: CallId) returns (rotated: bool)
      requires c in calls && calls[c].Minted? && calls[c].issued.id != calls[c].token
      modifies this`tokens, this`sessions, this`calls, this`hist
      ensures Abs() == Next(cfg, old(Abs()), CommitRotation(c))
      ensures rotated == Claimable(old(Tables()), old(calls)[c].token)
    {
      var call := calls[c];
      rotated := RotateInTransaction(call.token, call.snap.row, call.issued);
      if rotated {
        calls := calls[c := Rotated(call.token, call.issued.id)];
        hist := Born(hist, call.issued.id);
      } else if call.retry {
        calls := calls[c := Refused(call.token, RotationConflict)];
      } else {
        calls := calls[c := Presented(call.token, call.snap.row.family, true)];
      }
    }

    method WriteReissue(c: CallId)
      requires c in calls && calls[c].Reissuing?
      modifies this`tokens, this`sessions, this`calls, this`hist
      ensures Abs() == Next(cfg, old(Abs()), CommitReissue(c))
    {
      var call := calls[c];
      ReissueInTransaction(call.snap.row, call.issued);
      calls := calls[c := Reissued(call.token, call.issued.id)];
      hist := CountReissue(hist, call.snap.row.family, call.issued.id);
    }

    method FindFamilySessions(c: CallId)
      requires c in calls && calls[c].Detected?
      modifies this`calls
      ensures Abs() == Next(cfg, old(Abs()), FindFamily(c))
    {
      var call := calls[c];
      var found := FindSessions(call.family);
      calls := calls[c := Revoking(call.token, call.family, call.error, found)];
    }

    method WriteRevocation(c: CallId)
      requires c in calls && calls[c].Revoking?
      modifies this`tokens, this`sessions, this`calls
      ensures Abs() == Next(cfg, old(Abs()), CommitRevoke(c))
    {
      var call := calls[c];
      RevokeInTransaction(TokensOfFamily(Tables(), call.family), call.found);
      calls := calls[c := Refused(call.token, call.error)];
    }

    /**
      One refresh, first attempt or retry, with the world interfering before the
      read, between read and decision, and before each transaction, differently in
      either attempt. It ends, its answer is the call's final state, and what
      happened meanwhile is a run.
     */
    method RotateRefresh(c: CallId, isRetry: bool, world: nat -> nat -> seq<Step>, ghost start: State, ghost before: seq<Step>)
      returns (answer: Call, ghost steps: seq<Step>)
      requires Along(start, before) && c in calls && calls[c].Presented? && calls[c].retry == isRetry
      modifies this
      ensures Along(start, steps)
      ensures c in calls && calls[c] == answer && answer.Done()
      ensures answer.Refused? ==> answer.error != RotationConflict
      decreases !isRetry, 2
    {
      hide Inv, Next, Run, Judge, Admit, LiveSessionsOfFamily;
      var script := world(if isRetry then 1 else 0);
      steps := Interfere(c, script(0), start, before);
      ghost var s := Abs();
      ReadRow(c);
      Extend(start, steps, s, Load(c));
      steps := steps + [Load(c)];
      NextCall(cfg, s, Load(c), c);
      if calls[c].Detected? {
        answer, steps := RevokeFamily(c, script, start, steps);
        return;
      }
      steps := Interfere(c, script(1), start, steps);
      s := Abs();
      var id := Mint();
      TakeDecision(c, id);
      Extend(start, steps, s, Decide(c, id));
      steps := steps + [Decide(c, id)];
      NextCall(cfg, s, Decide(c, id), c);
      answer, steps := FinishDecided(c, isRetry, world, start, steps);
      NoConflict(c);
    }

    /** What follows the decision. */
    method FinishDecided(c: CallId, isRetry: bool, world: nat -> nat -> seq<Step>, ghost start: State, ghost before: seq<Step>)
      returns (answer: Call, ghost steps: seq<Step>)
      requires Along(start, before) && c in calls
      requires calls[c].Refused? || calls[c].Detected? || calls[c].Reissuing? || (calls[c].Minted? && calls[c].retry == isRetry)
      modifies this
      ensures Along(start, steps) && c in calls && calls[c] == answer && answer.Done()
      decreases !isRetry, 1
    {
      hide Inv, Next, Run;
      var script := world(if isRetry then 1 else 0);
      match calls[c] {
        case Refused(_, _) => answer, steps := calls[c], before;
        case Detected(_, _, _) => answer, steps := RevokeFamily(c, script, start, before);
        case Reissuing(_, _, _) => answer, steps := FinishReissue(c, script, start, before);
        case Minted(_, _, _, _) => answer, steps := FinishRotation(c, world, start, before);
      }
    }

    lemma NoConflict(c: CallId)
      requires Inv(Abs()) && c in calls
      ensures calls[c].Refused? ==> calls[c].error != RotationConflict
    {
    }

    /** The claim; when another request won it, the whole call runs once more. */
    method FinishRotation(c: CallId, world: nat -> nat -> seq<Step>, ghost start: State, ghost before: seq<Step>)
      returns (answer: Call, ghost steps: seq<Step>)
      requires Along(start, before) && c in calls && calls[c].Minted?
      modifies this
      ensures Along(start, steps) && c in calls && calls[c] == answer && answer.Done()
      decreases !calls[c].retry, 0
    {
      hide Inv, Next, Run;
      steps := Interfere(c, world(0)(2), start, before);
      ghost var s := Abs();
      HolderFacts(s, c);
      CallerOk(s, c);
      var rotated := TryRotation(c);
      Extend(start, steps, s, CommitRotation(c));
      steps := steps + [CommitRotation(c)];
      NextCall(cfg, s, CommitRotation(c), c);
      if rotated || calls[c].Refused? {
        answer := calls[c];
      } else {
        answer, steps := RotateRefresh(c, true, world, start, steps);
      }
    }

    method FinishReissue(c: CallId, script: nat -> seq<Step>, ghost start: State, ghost before: seq<Step>)
      returns (answer: Call, ghost steps: seq<Step>)
      requires Along(start, before) && c in calls && calls[c].Reissuing?
      modifies this
      ensures Along(start, steps) && c in calls && calls[c] == answer
      ensures answer == Reissued(old(calls)[c].token, old(calls)[c].issued.id)
    {
      hide Inv, Next, Run;
      steps := Interfere(c, script(2), start, before);
      ghost var s := Abs();
      WriteReissue(c);
      Extend(start, steps, s, CommitReissue(c));
      steps := steps + [CommitReissue(c)];
      NextCall(cfg, s, CommitReissue(c), c);
      answer := calls[c];
    }

    /** Reuse detected: collect the family's sessions, then revoke family and sessions. */
    method RevokeFamily(c: CallId, script: nat -> seq<Step>, ghost start: State, ghost before: seq<Step>)
      returns (answer: Call, ghost steps: seq<Step>)
      requires Along(start, before) && c in calls && calls[c].Detected?
      modifies this
      ensures Along(start, steps) && c in calls && calls[c] == answer
      ensures answer == Refused(old(calls)[c].token, old(calls)[c].error)
      ensures Live(Tables(), old(calls)[c].family) == {}
    {
      hide Inv, Next, Run;
      steps := Interfere(c, script(3), start, before);
      ghost var s := Abs();
      FindFamilySessions(c);
      Extend(start, steps, s, FindFamily(c));
      steps := steps + [FindFamily(c)];
      NextCall(cfg, s, FindFamily(c), c);
      steps := Interfere(c, script(4), start, steps);
      s := Abs();
      WriteRevocation(c);
      Extend(start, steps, s, CommitRevoke(c));
      steps := steps + [CommitRevoke(c)];
      NextCall(cfg, s, CommitRevoke(c), c);
      RevocationEmptiesFamily(cfg, s, c);
      answer := calls[c];
    }
  }

  // ---------------------------------------------------------------------------
  // Runs put together
  // ---------------------------------------------------------------------------

  lemma {:induction false} RunConcat(cfg: Config, s: State, a: seq<Step>, b: seq<Step>, s'': State)
    requires exists s' :: Run(cfg, s, a, s') && Run(cfg, s', b, s'')
    ensures Run(cfg, s, a + b, s'')
    decreases |a|
  {
    var s' :| Run(cfg, s, a, s') && Run(cfg, s', b, s'');
    if a == [] {
      assert a + b == b;
    } else {
      assert (a + b)[1..] == a[1..] + b;
      RunConcat(cfg, Next(cfg, s, a[0]), a[1..], b, s'');
    }
  }

  lemma RunSnoc(cfg: Config, s: State, steps: seq<Step>, mid: State, step: Step)
    requires Run(cfg, s, steps, mid) && Enabled(mid, step)
    ensures Run(cfg, s, steps + [step], Next(cfg, mid, step))
  {
    assert [step][1..] == [];
    assert Run(cfg, mid, [step], Next(cfg, mid, step));
    RunConcat(cfg, s, steps, [step], Next(cfg, mid, step));
  }
}
