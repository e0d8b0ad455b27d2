/** Each step of the protocol keeps the invariant and only moves forward. */
module RefreshSteps {
  import opened Options
  import opened RefreshModel
  import opened RefreshInvariants

  /** Nothing but users and the sets of known ids moved. */
  ghost predicate SameTables(s: State, s': State) {
    && s'.db.tokens == s.db.tokens && s'.db.sessions == s.db.sessions
    && s.db.users.Keys <= s'.db.users.Keys
    && s.hist.known <= s'.hist.known && s.hist.families <= s'.hist.families
    && s'.hist.home == s.hist.home && s'.hist.births == s.hist.births
    && s'.hist.reissues == s.hist.reissues
    && s.now <= s'.now
  }

  lemma SameTablesLater(s: State, s': State)
    requires Inv(s) && SameTables(s, s')
    ensures LaterDb(s.db, s.hist, s'.db, s'.hist)
  {
  }

  lemma SameTablesLedger(s: State, s': State)
    requires Inv(s) && SameTables(s, s')
    ensures Ledger(s'.db, s'.hist)
  {
  }

  /** No row was inserted for a token some other call still holds. */
  ghost predicate SparesHolders(s: State, s': State, c: CallId) {
    forall d :: d in s.calls && d != c && s.calls[d].Holds() ==> s.calls[d].issued.id !in s'.db.tokens
  }

  lemma KnownHoldersSpared(s: State, s': State, c: CallId)
    requires Inv(s) && forall k :: k in s'.db.tokens && k in s.hist.known ==> k in s.db.tokens
    ensures SparesHolders(s, s', c)
  {
    forall d | d in s.calls && d != c && s.calls[d].Holds() ensures s.calls[d].issued.id !in s'.db.tokens {
      assert CallOk(s.db, s.hist, s.calls[d]);
    }
  }

  /** The holder that writes its own token spares the others: their tokens differ. */
  lemma WriterSparesHolders(s: State, s': State, c: CallId)
    requires Inv(s) && c in s.calls && s.calls[c].Holds()
    requires s'.db.tokens.Keys == s.db.tokens.Keys + {s.calls[c].issued.id}
    ensures SparesHolders(s, s', c)
  {
    forall d | d in s.calls && d != c && s.calls[d].Holds() ensures s.calls[d].issued.id !in s'.db.tokens {
      assert CallOk(s.db, s.hist, s.calls[d]);
    }
  }

  lemma OthersOk(s: State, s': State, c: CallId)
    requires Inv(s) && LaterDb(s.db, s.hist, s'.db, s'.hist) && SparesHolders(s, s', c)
    ensures forall d :: d in s.calls && d != c ==> CallOk(s'.db, s'.hist, s.calls[d])
  {
    forall d | d in s.calls && d != c ensures CallOk(s'.db, s'.hist, s.calls[d]) {
      CallOkLater(s.db, s.hist, s'.db, s'.hist, s.calls[d]);
    }
  }

  lemma SignInsOk(s: State, s': State)
    requires Inv(s) && LaterDb(s.db, s.hist, s'.db, s'.hist)
    ensures forall l :: l in s.signIns ==> SignInOk(s'.db, s.signIns[l])
  {
    forall l | l in s.signIns ensures SignInOk(s'.db, s.signIns[l]) {
      assert SignInOk(s.db, s.signIns[l]);
    }
  }

  /** A call that minted or rotated is distinct from the others that did. */
  ghost predicate StandsAlone(s: State, c: CallId, call: Call) {
    && (call.Holds() ==>
          forall d :: d in s.calls && d != c && s.calls[d].Holds() ==> s.calls[d].issued.id != call.issued.id)
    && (call.Rotated? ==>
          forall d :: d in s.calls && d != c && s.calls[d].Rotated? ==> s.calls[d].token != call.token)
  }

  /** One call moved to a state that is right. */
  lemma CallMoved(s: State, s': State, c: CallId)
    requires Inv(s) && LaterDb(s.db, s.hist, s'.db, s'.hist) && SparesHolders(s, s', c)
    requires Ledger(s'.db, s'.hist) && s'.signIns == s.signIns
    requires c in s'.calls && s'.calls == s.calls[c := s'.calls[c]]
    requires CallOk(s'.db, s'.hist, s'.calls[c]) && StandsAlone(s, c, s'.calls[c])
    ensures Inv(s')
  {
    hide Ledger, LaterDb, CallOk, SignInOk;
    OthersOk(s, s', c);
    SignInsOk(s, s');
  }

  /** No call moved. */
  lemma NobodyMoved(s: State, s': State)
    requires Inv(s) && LaterDb(s.db, s.hist, s'.db, s'.hist)
    requires forall d :: d in s.calls && s.calls[d].Holds() ==> s.calls[d].issued.id !in s'.db.tokens
    requires Ledger(s'.db, s'.hist) && s'.calls == s.calls
    requires forall l :: l in s'.signIns ==> l in s.signIns && s'.signIns[l] == s.signIns[l]
    ensures Inv(s')
  {
    forall d | d in s.calls ensures CallOk(s'.db, s'.hist, s.calls[d]) {
      CallOkLater(s.db, s.hist, s'.db, s'.hist, s.calls[d]);
    }
    SignInsOk(s, s');
  }

  // ---------------------------------------------------------------------------
  // One lemma per kind of step
  // ---------------------------------------------------------------------------

  ghost predicate Good(s: State, s': State) {
    Inv(s') && Later(s, s')
  }

  lemma KeepsTick(cfg: Config, s: State, step: Step)
    requires Inv(s) && Enabled(s, step) && (step.Tick? || step.UpdateUser?)
    ensures Good(s, Next(cfg, s, step))
  {
    var s' := Next(cfg, s, step);
    SameTablesLater(s, s');
    SameTablesLedger(s, s');
    HoldersUnwritten(s);
    NobodyMoved(s, s');
  }

  lemma LoadedOk(s: State, k: TokenId)
    requires Inv(s) && k in s.db.tokens
    ensures Stored(s.db, k) && SnapOk(s.db, k, TakeSnapshot(s.db, k))
    ensures s.db.tokens[k].family in s.hist.families && k in s.hist.known
  {
  }

  lemma MintedStandsAlone(s: State, c: CallId, call: Call)
    requires Inv(s) && call.Holds() && call.issued.id !in s.hist.known
    ensures StandsAlone(s, c, call)
  {
  }

  lemma MintOk(cfg: Config, s: State, c: CallId, mint: TokenId)
    requires Inv(s) && Enabled(s, Decide(c, mint))
    ensures var s' := Next(cfg, s, Decide(c, mint));
            CallOk(s'.db, s'.hist, s'.calls[c]) && StandsAlone(s, c, s'.calls[c])
  {
    var call := s.calls[c];
    UnknownIsUnwritten(s, mint);
    CallerOk(s, c);
    assert call.token in s.db.tokens;
    LoadedOk(s, call.token);
    hide Ledger, CallOk, StandsAlone, SnapOk, Stored;
    JudgedOk(cfg, s.db, s.hist, call, mint, s.now);
    DecidedStandsAlone(cfg, s, c, mint);
  }

  lemma CallerOk(s: State, c: CallId)
    requires Inv(s) && c in s.calls
    ensures CallOk(s.db, s.hist, s.calls[c])
  {
  }

  lemma UnknownIsUnwritten(s: State, mint: TokenId)
    requires Inv(s) && mint !in s.hist.known
    ensures mint !in s.db.tokens
  {
  }

  lemma DecidedStandsAlone(cfg: Config, s: State, c: CallId, mint: TokenId)
    requires Inv(s) && Enabled(s, Decide(c, mint))
    ensures StandsAlone(s, c, AfterDecide(cfg, s.calls[c], mint, s.now))
  {
    hide Ledger, CallOk;
    var call := AfterDecide(cfg, s.calls[c], mint, s.now);
    if call.Holds() { MintedStandsAlone(s, c, call); }
  }

  lemma JudgedOk(cfg: Config, db: Db, h: History, call: Call, mint: TokenId, now: Ms)
    requires call.Loaded? && CallOk(db, h, call) && mint !in db.tokens
    requires db.tokens[call.token].family in h.families
    ensures CallOk(db, h.(known := h.known + {mint}), AfterDecide(cfg, call, mint, now))
  {
  }

  lemma KeepsRead(cfg: Config, s: State, step: Step)
    requires Inv(s) && Enabled(s, step) && (step.Present? || step.Load? || step.Decide? || step.FindFamily?)
    ensures Good(s, Next(cfg, s, step))
  {
    hide Ledger, LaterDb, CallOk, HoldersDistinct, RotatorsDistinct;
    var s' := Next(cfg, s, step);
    SameTablesLater(s, s');
    SameTablesLedger(s, s');
    KnownHoldersSpared(s, s', step.call);
    ReaderOk(cfg, s, step);
    CallMoved(s, s', step.call);
  }

  lemma ReaderOk(cfg: Config, s: State, step: Step)
    requires Inv(s) && Enabled(s, step) && (step.Present? || step.Load? || step.Decide? || step.FindFamily?)
    ensures var s' := Next(cfg, s, step);
            CallOk(s'.db, s'.hist, s'.calls[step.call]) && StandsAlone(s, step.call, s'.calls[step.call])
  {
    hide Ledger;
    match step {
      case Present(c, k, f) =>
      case Load(c) =>
        assert CallOk(s.db, s.hist, s.calls[c]);
        if s.calls[c].token in s.db.tokens { LoadedOk(s, s.calls[c].token); }
      case Decide(c, mint) => MintOk(cfg, s, c, mint);
      case FindFamily(c) => FoundOk(s, s.calls[c]);
    }
  }

  /** Either the family's session was found through a live token, or it is dead already. */
  lemma FoundOk(s: State, call: Call)
    requires Inv(s) && call.Detected? && CallOk(s.db, s.hist, call)
    ensures CallOk(s.db, s.hist, Revoking(call.token, call.family, call.error,
                                          LiveSessionsOfFamily(s.db, call.family)))
  {
  }

  lemma KeepsRotation(cfg: Config, s: State, c: CallId)
    requires Inv(s) && Enabled(s, CommitRotation(c))
    ensures Good(s, Next(cfg, s, CommitRotation(c)))
  {
    hide Inv, LaterDb, Ledger, StandsAlone, SparesHolders, SnapOk;
    var s' := Next(cfg, s, CommitRotation(c));
    var call := s.calls[c];
    if Claimable(s.db, call.token) {
      ClaimKeeps(cfg, s, c);
    } else {
      HolderFacts(s, c);
      LoadedOk(s, call.token);
      SameTablesLater(s, s');
      SameTablesLedger(s, s');
      KnownHoldersSpared(s, s', c);
      LoserStandsAlone(s, c, s'.calls[c]);
      CallMoved(s, s', c);
    }
  }

  lemma LoserStandsAlone(s: State, c: CallId, call: Call)
    requires !call.Holds() && !call.Rotated?
    ensures StandsAlone(s, c, call)
  {
  }

  lemma RotatorStandsAlone(s: State, c: CallId, call: Call)
    requires Inv(s) && call.Rotated? && Claimable(s.db, call.token)
    ensures StandsAlone(s, c, call)
  {
    assert TokenOk(s.db, s.hist, call.token);
    forall d | d in s.calls && d != c && s.calls[d].Rotated? ensures s.calls[d].token != call.token {
      assert CallOk(s.db, s.hist, s.calls[d]);
    }
  }

  /** What a holder may rely on when its transaction starts. */
  lemma HolderFacts(s: State, c: CallId)
    requires Inv(s) && c in s.calls && s.calls[c].Holds()
    ensures var call := s.calls[c];
            && call.token in s.db.tokens && Matures(call.snap.row, s.db.tokens[call.token])
            && Unwritten(s.db, s.hist, call.issued.id) && s.hist.births.Keys == s.db.tokens.Keys
            && CallOk(s.db, s.hist, call)
            && (Claimable(s.db, call.token) ==> s.db.tokens[call.token].replacedBy.None?)
  {
  }

  lemma ClaimerOk(db: Db, h: History, call: Call, now: Ms)
    requires call.Minted? && CallOk(db, h, call) && Claimable(db, call.token)
    ensures CallOk(RotateTx(db, call.token, call.snap.row, call.issued, now), Born(h, call.issued.id),
                   Rotated(call.token, call.issued.id))
  {
  }

  lemma ReissuerOk(db: Db, h: History, call: Call, now: Ms)
    requires call.Reissuing? && CallOk(db, h, call)
    ensures CallOk(ReissueTx(db, call.snap.row, call.issued, now),
                   CountReissue(h, call.snap.row.family, call.issued.id),
                   Reissued(call.token, call.issued.id))
  {
  }

  /** A holder wrote its token: the ledger is right, and so is what the call became. */
  lemma WriterMoved(s: State, s': State, c: CallId)
    requires Inv(s) && c in s.calls && s.calls[c].Holds()
    requires s'.db.tokens.Keys == s.db.tokens.Keys + {s.calls[c].issued.id}
    requires LaterDb(s.db, s.hist, s'.db, s'.hist) && Ledger(s'.db, s'.hist)
    requires s'.signIns == s.signIns && s'.now == s.now
    requires c in s'.calls && s'.calls == s.calls[c := s'.calls[c]]
    requires CallOk(s'.db, s'.hist, s'.calls[c]) && StandsAlone(s, c, s'.calls[c])
    ensures Good(s, s')
  {
    hide Ledger, LaterDb, CallOk, HoldersDistinct, RotatorsDistinct, SparesHolders, StandsAlone;
    WriterSparesHolders(s, s', c);
    CallMoved(s, s', c);
  }

  lemma ClaimKeeps(cfg: Config, s: State, c: CallId)
    requires Inv(s) && Enabled(s, CommitRotation(c)) && Claimable(s.db, s.calls[c].token)
    ensures Good(s, Next(cfg, s, CommitRotation(c)))
  {
    hide Inv, LaterDb, Ledger, CallOk, StandsAlone, RotateTx, Born;
    var call := s.calls[c];
    var call' := Rotated(call.token, call.issued.id);
    var s' := s.(db := RotateTx(s.db, call.token, call.snap.row, call.issued, s.now),
                 calls := s.calls[c := call'], hist := Born(s.hist, call.issued.id));
    ClaimParts(s, c);
    RotatorStandsAlone(s, c, call');
    WriterMoved(s, s', c);
    assert Next(cfg, s, CommitRotation(c)) == s';
  }

  lemma ClaimParts(s: State, c: CallId)
    requires Inv(s) && c in s.calls && s.calls[c].Minted? && Claimable(s.db, s.calls[c].token)
    ensures var call := s.calls[c];
            var db', h' := RotateTx(s.db, call.token, call.snap.row, call.issued, s.now), Born(s.hist, call.issued.id);
            && LaterDb(s.db, s.hist, db', h') && Ledger(db', h')
            && CallOk(db', h', Rotated(call.token, call.issued.id))
            && db'.tokens.Keys == s.db.tokens.Keys + {call.issued.id}
  {
    var call := s.calls[c];
    HolderFacts(s, c);
    assert RotateTx(s.db, call.token, call.snap.row, call.issued, s.now).tokens.Keys
           == s.db.tokens.Keys + {call.issued.id};
    hide LaterDb, Ledger, CallOk, RotateTx, Born;
    RotateLater(s.db, s.hist, call.token, call.snap.row, call.issued, s.now);
    RotateLedger(s.db, s.hist, call.token, call.snap.row, call.issued, s.now);
    ClaimerOk(s.db, s.hist, call, s.now);
  }

  lemma KeepsReissue(cfg: Config, s: State, c: CallId)
    requires Inv(s) && Enabled(s, CommitReissue(c))
    ensures Good(s, Next(cfg, s, CommitReissue(c)))
  {
    hide Inv, LaterDb, Ledger, CallOk, ReissueTx, CountReissue;
    var call := s.calls[c];
    var s' := s.(db := ReissueTx(s.db, call.snap.row, call.issued, s.now),
                 calls := s.calls[c := Reissued(call.token, call.issued.id)],
                 hist := CountReissue(s.hist, call.snap.row.family, call.issued.id));
    ReissueParts(s, c);
    WriterMoved(s, s', c);
    assert Next(cfg, s, CommitReissue(c)) == s';
  }

  lemma ReissueParts(s: State, c: CallId)
    requires Inv(s) && c in s.calls && s.calls[c].Reissuing?
    ensures var call := s.calls[c];
            var db', h' := ReissueTx(s.db, call.snap.row, call.issued, s.now),
                           CountReissue(s.hist, call.snap.row.family, call.issued.id);
            && LaterDb(s.db, s.hist, db', h') && Ledger(db', h')
            && CallOk(db', h', Reissued(call.token, call.issued.id))
            && db'.tokens.Keys == s.db.tokens.Keys + {call.issued.id}
  {
    var call := s.calls[c];
    HolderFacts(s, c);
    assert ReissueTx(s.db, call.snap.row, call.issued, s.now).tokens.Keys == s.db.tokens.Keys + {call.issued.id};
    hide LaterDb, Ledger, CallOk, ReissueTx, CountReissue;
    ReissueLater(s.db, s.hist, call.snap.row, call.issued, s.now);
    ReissueLedger(s.db, s.hist, call.token, call.snap.row, call.issued, s.now);
    ReissuerOk(s.db, s.hist, call, s.now);
  }

  /** A revocation is right for every call that was in flight. */
  lemma RevokeKeeps(s: State, s': State, toks: set<TokenId>, sess: set<SessionId>)
    requires Inv(s) && Together(s.db, toks, sess)
    requires s'.db.tokens == RevokeTx(s.db, toks, sess, s.now).tokens
    requires s'.db.sessions == RevokeTx(s.db, toks, sess, s.now).sessions
    requires s'.db.users.Keys == s.db.users.Keys && s'.hist == s.hist
    ensures LaterDb(s.db, s.hist, s'.db, s'.hist) && Ledger(s'.db, s'.hist)
  {
    RevokeLater(s.db, s.hist, toks, sess, s.now);
    RevokeLedger(s.db, s.hist, toks, sess, s.now);
    UsersFrame(RevokeTx(s.db, toks, sess, s.now), s'.db, s.hist);
  }

  /** The ledger does not depend on what a user row says. */
  lemma UsersFrame(db: Db, db': Db, h: History)
    requires Ledger(db, h) && db'.tokens == db.tokens && db'.sessions == db.sessions
    requires db'.users.Keys == db.users.Keys
    ensures Ledger(db', h)
  {
  }

  lemma KeepsRevoke(cfg: Config, s: State, c: CallId)
    requires Inv(s) && Enabled(s, CommitRevoke(c))
    ensures Good(s, Next(cfg, s, CommitRevoke(c)))
  {
    var s' := Next(cfg, s, CommitRevoke(c));
    var call := s.calls[c];
    CallerOk(s, c);
    RevokerOk(s, call);
    hide Ledger, LaterDb, CallOk, HoldersDistinct, RotatorsDistinct, SparesHolders, Together;
    FamilyTogether(s, call);
    RevokeKeeps(s, s', TokensOfFamily(s.db, call.family), call.found);
    KnownHoldersSpared(s, s', c);
    CallMoved(s, s', c);
  }

  /** The transaction of a reuse detection leaves the presented token's session dead. */
  lemma RevokerOk(s: State, call: Call)
    requires Inv(s) && call.Revoking? && CallOk(s.db, s.hist, call)
    ensures CallOk(RevokeTx(s.db, TokensOfFamily(s.db, call.family), call.found, s.now), s.hist,
                   Refused(call.token, call.error))
  {
  }

  lemma FamilyTogether(s: State, call: Call)
    requires Inv(s) && call.Revoking? && CallOk(s.db, s.hist, call)
    ensures Together(s.db, TokensOfFamily(s.db, call.family), call.found)
  {
  }

  lemma KeepsSignIn(cfg: Config, s: State, step: Step)
    requires Inv(s) && Enabled(s, step) && (step.SignInSession? || step.SignInToken?)
    ensures Good(s, Next(cfg, s, step))
  {
    var s' := Next(cfg, s, step);
    match step {
      case SignInSession(l, u, x) => NewSessionKeeps(cfg, s, l, u, x);
      case SignInToken(l, k, f) =>
        assert SignInOk(s.db, s.signIns[l]);
        SignInLater(cfg, s, l, k, f);
        SignInLedger(cfg, s, l, k, f);
        HoldersUnwritten(s);
        NobodyMoved(s, s');
    }
  }

  lemma NewSessionKeeps(cfg: Config, s: State, l: SignInId, u: UserId, x: SessionId)
    requires Inv(s) && Enabled(s, SignInSession(l, u, x))
    ensures Good(s, Next(cfg, s, SignInSession(l, u, x)))
  {
    hide Ledger, LaterDb, HoldersDistinct, RotatorsDistinct, CallOk;
    var s' := Next(cfg, s, SignInSession(l, u, x));
    NewSessionLedger(cfg, s, l, u, x);
    forall d | d in s.calls ensures CallOk(s'.db, s'.hist, s.calls[d]) {
      assert CallOk(s.db, s.hist, s.calls[d]);
      NewSessionCall(cfg, s, l, u, x, s.calls[d]);
    }
    SignInsOk(s, s');
  }

  lemma NewSessionLater(cfg: Config, s: State, l: SignInId, u: UserId, x: SessionId)
    requires Inv(s) && Enabled(s, SignInSession(l, u, x))
    ensures var s' := Next(cfg, s, SignInSession(l, u, x)); LaterDb(s.db, s.hist, s'.db, s'.hist)
  {
    forall f | f in s.hist.home ensures f in s.hist.families { assert FamilyOk(s.db, s.hist, f); }
  }

  lemma NewSessionLedger(cfg: Config, s: State, l: SignInId, u: UserId, x: SessionId)
    requires Inv(s) && Enabled(s, SignInSession(l, u, x))
    ensures var s' := Next(cfg, s, SignInSession(l, u, x));
            LaterDb(s.db, s.hist, s'.db, s'.hist) && Ledger(s'.db, s'.hist)
  {
    var s' := Next(cfg, s, SignInSession(l, u, x));
    NewSessionLater(cfg, s, l, u, x);
    hide LaterDb, TokenOk, FamilyOk;
    forall k | k in s'.db.tokens ensures TokenOk(s'.db, s'.hist, k) {
      TokenOkLater(s.db, s.hist, s'.db, s'.hist, k);
    }
    forall f | f in s'.hist.home ensures FamilyOk(s'.db, s'.hist, f) { NewSessionFamily(cfg, s, l, u, x, f); }
  }

  lemma NewSessionFamily(cfg: Config, s: State, l: SignInId, u: UserId, x: SessionId, f: FamilyId)
    requires Enabled(s, SignInSession(l, u, x)) && f in s.hist.home && FamilyOk(s.db, s.hist, f)
    ensures var s' := Next(cfg, s, SignInSession(l, u, x)); FamilyOk(s'.db, s'.hist, f)
  {
  }

  lemma NewSessionCall(cfg: Config, s: State, l: SignInId, u: UserId, x: SessionId, call: Call)
    requires Inv(s) && Enabled(s, SignInSession(l, u, x)) && CallOk(s.db, s.hist, call)
    ensures var s' := Next(cfg, s, SignInSession(l, u, x)); CallOk(s'.db, s'.hist, call)
  {
    var s' := Next(cfg, s, SignInSession(l, u, x));
    NewSessionLedger(cfg, s, l, u, x);
    CallOkLater(s.db, s.hist, s'.db, s'.hist, call);
  }

  lemma KeepsRevocation(cfg: Config, s: State, step: Step)
    requires Inv(s) && Enabled(s, step)
    requires step.Logout? || step.LogoutAll? || step.ChangePassword? || step.RevokeSessions?
    ensures Good(s, Next(cfg, s, step))
  {
    hide Inv, LaterDb, Ledger, Together;
    var s' := Next(cfg, s, step);
    RevokedTogether(s, step);
    RevokeKeeps(s, s', Revoked(s.db, step).0, Revoked(s.db, step).1);
    HoldersUnwritten(s);
    NobodyMoved(s, s');
  }

  lemma HoldersUnwritten(s: State)
    requires Inv(s)
    ensures forall d :: d in s.calls && s.calls[d].Holds() ==>
              s.calls[d].issued.id in s.hist.known && s.calls[d].issued.id !in s.db.tokens
  {
    forall d | d in s.calls && s.calls[d].Holds()
      ensures s.calls[d].issued.id in s.hist.known && s.calls[d].issued.id !in s.db.tokens
    {
      assert CallOk(s.db, s.hist, s.calls[d]);
    }
  }

  /** What the four plain revocations select. */
  function Revoked(db: Db, step: Step): (set<TokenId>, set<SessionId>) {
    match step
    case Logout(x) => (TokensOfSession(db, x), {x})
    case LogoutAll(u) => (TokensOfUser(db, u), SessionsOfUser(db, u))
    case ChangePassword(u) => (TokensOfUser(db, u), SessionsOfUser(db, u))
    case RevokeSessions(xs) => ({}, xs)
    case _ => ({}, {})
  }

  lemma RevokedTogether(s: State, step: Step)
    requires Inv(s)
    ensures Together(s.db, Revoked(s.db, step).0, Revoked(s.db, step).1)
  {
    hide Inv;
    forall k | k in s.db.tokens { TokensSession(s, k); }
  }

  lemma TokensSession(s: State, k: TokenId)
    requires Inv(s) && k in s.db.tokens
    ensures s.db.tokens[k].session in s.db.sessions
    ensures s.db.sessions[s.db.tokens[k].session].user == s.db.tokens[k].user
  {
    assert TokenOk(s.db, s.hist, k);
  }

  /** Every step, by anyone, at any time. */
  lemma StepKeeps(cfg: Config, s: State, step: Step)
    requires Inv(s) && Enabled(s, step)
    ensures Inv(Next(cfg, s, step)) && Later(s, Next(cfg, s, step))
  {
    match step
    case Tick(_) => KeepsTick(cfg, s, step);
    case UpdateUser(_, _) => KeepsTick(cfg, s, step);
    case Present(_, _, _) => KeepsRead(cfg, s, step);
    case Load(_) => KeepsRead(cfg, s, step);
    case Decide(_, _) => KeepsRead(cfg, s, step);
    case FindFamily(_) => KeepsRead(cfg, s, step);
    case CommitRotation(c) => KeepsRotation(cfg, s, c);
    case CommitReissue(c) => KeepsReissue(cfg, s, c);
    case CommitRevoke(c) => KeepsRevoke(cfg, s, c);
    case SignInSession(_, _, _) => KeepsSignIn(cfg, s, step);
    case SignInToken(_, _, _) => KeepsSignIn(cfg, s, step);
    case Logout(_) => KeepsRevocation(cfg, s, step);
    case LogoutAll(_) => KeepsRevocation(cfg, s, step);
    case ChangePassword(_) => KeepsRevocation(cfg, s, step);
    case RevokeSessions(_) => KeepsRevocation(cfg, s, step);
  }
}
