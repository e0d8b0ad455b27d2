/**
  What every step of the rotation protocol keeps, whoever takes it.

  `Ledger` speaks of the tables and the history; `CallOk` says what a call in
  flight may rely on although other calls moved since it read; `Later` orders
  two states of one run.
 */
module RefreshInvariants {
  import opened Options
  import opened RefreshModel

  // ---------------------------------------------------------------------------
  // The tables
  // ---------------------------------------------------------------------------

  ghost predicate TokenOk(db: Db, h: History, k: TokenId)
    requires k in db.tokens
  {
    var t := db.tokens[k];
    && k in h.known && k in h.births && h.births[k] < |h.births|
    && t.session in db.sessions && db.sessions[t.session].user == t.user && t.user in db.users
    && t.family in h.families && t.family in h.home && h.home[t.family] == t.session
    && (t.revokedAt.Some? ==> db.sessions[t.session].status == REVOKED)
    && (t.usedAt.Some? <==> t.replacedBy.Some?)
    && (t.replacedBy.Some? ==> LinkOk(db, h, k, t.replacedBy.value))
  }

  /** A rotated token points at a younger row of its own family. */
  ghost predicate LinkOk(db: Db, h: History, k: TokenId, next: TokenId) {
    && k in db.tokens && next in db.tokens && db.tokens[next].family == db.tokens[k].family
    && k in h.births && next in h.births && h.births[k] < h.births[next]
  }

  /** No two tokens were replaced by the same one. */
  ghost predicate LinksInjective(db: Db) {
    forall a, b :: a in db.tokens && b in db.tokens && db.tokens[a].replacedBy.Some?
                   && db.tokens[a].replacedBy == db.tokens[b].replacedBy
      ==> a == b
  }

  function Unused(db: Db, f: FamilyId): set<TokenId> {
    set k | k in db.tokens && db.tokens[k].family == f && db.tokens[k].usedAt.None?
  }

  function Live(db: Db, f: FamilyId): set<TokenId> {
    set k | k in db.tokens && db.tokens[k].family == f && !db.tokens[k].Spent()
  }

  ghost predicate FamilyOk(db: Db, h: History, f: FamilyId)
    requires f in h.home
  {
    && f in h.families && h.home[f] in db.sessions
    && f in h.reissues && |Unused(db, f)| == 1 + h.reissues[f]
  }

  ghost predicate TokensOk(db: Db, h: History) {
    forall k :: k in db.tokens ==> TokenOk(db, h, k)
  }

  ghost predicate FamiliesOk(db: Db, h: History) {
    forall f :: f in h.home ==> FamilyOk(db, h, f)
  }

  ghost predicate Ledger(db: Db, h: History) {
    && TokensOk(db, h) && FamiliesOk(db, h) && LinksInjective(db)
    && h.births.Keys == db.tokens.Keys
  }

  // ---------------------------------------------------------------------------
  // Time's arrow
  // ---------------------------------------------------------------------------

  /** `b` is a later state of the row `a`: used and revoked are never cleared. */
  predicate Matures(a: Token, b: Token) {
    && b.user == a.user && b.session == a.session && b.family == a.family
    && b.createdAt == a.createdAt && b.expiresAt == a.expiresAt
    && (a.usedAt.Some? ==> b.usedAt == a.usedAt)
    && (a.revokedAt.Some? ==> b.revokedAt == a.revokedAt)
    && (a.replacedBy.Some? ==> b.replacedBy == a.replacedBy)
  }

  ghost predicate TokensLater(db: Db, db': Db) {
    forall k :: k in db.tokens ==> k in db'.tokens && Matures(db.tokens[k], db'.tokens[k])
  }

  ghost predicate SessionsLater(db: Db, db': Db) {
    forall x :: x in db.sessions ==>
      x in db'.sessions && db'.sessions[x].user == db.sessions[x].user
      && (db.sessions[x].status == REVOKED ==> db'.sessions[x].status == REVOKED)
  }

  ghost predicate HistoryLater(h: History, h': History) {
    && h.known <= h'.known && h.families <= h'.families
    && (forall f :: f in h.home ==> f in h'.home && h'.home[f] == h.home[f])
    && (forall f :: f in h'.home && f in h.families ==> f in h.home)
    && (forall k :: k in h.births ==> k in h'.births && h'.births[k] == h.births[k])
    && |h.births| <= |h'.births|
  }

  ghost predicate LaterDb(db: Db, h: History, db': Db, h': History) {
    TokensLater(db, db') && SessionsLater(db, db') && HistoryLater(h, h')
    && db.users.Keys <= db'.users.Keys
  }

  ghost predicate Later(s: State, s': State) {
    && LaterDb(s.db, s.hist, s'.db, s'.hist) && s.now <= s'.now
    && s.calls.Keys <= s'.calls.Keys
  }

  lemma LaterTrans(a: State, b: State, c: State)
    requires Later(a, b) && Later(b, c)
    ensures Later(a, c)
  {
  }

  // ---------------------------------------------------------------------------
  // Calls in flight
  // ---------------------------------------------------------------------------

  ghost predicate SnapOk(db: Db, k: TokenId, snap: Snapshot) {
    && k in db.tokens && Matures(snap.row, db.tokens[k])
    && snap.row.session in db.sessions
    && (snap.status == REVOKED ==> db.sessions[snap.row.session].status == REVOKED)
  }

  /** The minted token is known but its row is not there yet. */
  ghost predicate Unwritten(db: Db, h: History, id: TokenId) {
    id in h.known && id !in db.tokens
  }

  ghost predicate CallOk(db: Db, h: History, call: Call) {
    match call
    case Presented(k, f, retry) =>
      f in h.families && k in h.known && (retry ==> k in db.tokens && db.tokens[k].Spent())
    case Loaded(k, snap, retry) =>
      SnapOk(db, k, snap) && (retry ==> snap.row.Spent())
    case Minted(k, snap, issued, retry) =>
      SnapOk(db, k, snap) && !snap.row.Spent() && !retry && Unwritten(db, h, issued.id)
    case Reissuing(k, snap, issued) =>
      SnapOk(db, k, snap) && snap.row.usedAt.Some? && Unwritten(db, h, issued.id)
    case Detected(k, f, e) =>
      f in h.families && e in {TokenReused, UnknownToken}
      && (e == TokenReused ==> k in db.tokens && db.tokens[k].family == f)
    case Revoking(k, f, e, found) =>
      && f in h.families && e in {TokenReused, UnknownToken}
      && (e == TokenReused ==> k in db.tokens && db.tokens[k].family == f)
      && (f in h.home ==> h.home[f] in found || SessionDead(db, h.home[f]))
    case Rotated(k, p) =>
      && k in db.tokens && p in db.tokens && db.tokens[k].replacedBy == Some(p)
      && db.tokens[p].family == db.tokens[k].family
    case Reissued(k, p) =>
      && k in db.tokens && p in db.tokens && db.tokens[k].usedAt.Some?
      && db.tokens[p].family == db.tokens[k].family
    case Refused(k, e) =>
      && e != RotationConflict
      && (e == TokenReused ==> k in db.tokens && SessionDead(db, db.tokens[k].session))
  }

  predicate SessionDead(db: Db, x: SessionId) {
    x in db.sessions && db.sessions[x].status == REVOKED
  }

  /** No two calls hold the same minted token. */
  ghost predicate HoldersDistinct(calls: map<CallId, Call>) {
    forall c, d :: c in calls && d in calls && calls[c].Holds() && calls[d].Holds()
                   && calls[c].issued.id == calls[d].issued.id
      ==> c == d
  }

  /** Of all the calls that presented one token, at most one rotated it. */
  ghost predicate RotatorsDistinct(calls: map<CallId, Call>) {
    forall c, d :: c in calls && d in calls && calls[c].Rotated? && calls[d].Rotated?
                   && calls[c].token == calls[d].token
      ==> c == d
  }

  ghost predicate SignInOk(db: Db, p: PendingSignIn) {
    p.user in db.users && p.session in db.sessions && db.sessions[p.session].user == p.user
  }

  ghost predicate Inv(s: State) {
    && Ledger(s.db, s.hist)
    && (forall c :: c in s.calls ==> CallOk(s.db, s.hist, s.calls[c]))
    && HoldersDistinct(s.calls)
    && RotatorsDistinct(s.calls)
    && (forall l :: l in s.signIns ==> SignInOk(s.db, s.signIns[l]))
  }

  lemma InitInv(s: State)
    requires Init(s)
    ensures Inv(s)
  {
  }

  // ---------------------------------------------------------------------------
  // Transactions keep the ledger
  // ---------------------------------------------------------------------------

  /** A row nobody touched stays right. */
  lemma TokenOkLater(db: Db, h: History, db': Db, h': History, k: TokenId)
    requires k in db.tokens && TokenOk(db, h, k) && LaterDb(db, h, db', h')
    requires k in db'.tokens && db'.tokens[k] == db.tokens[k]
    ensures TokenOk(db', h', k)
  {
  }

  /** A family whose unused tokens and whose reissues did not move stays right. */
  lemma FamilyOkLater(db: Db, h: History, db': Db, h': History, f: FamilyId)
    requires f in h.home && FamilyOk(db, h, f) && LaterDb(db, h, db', h')
    requires f in h'.reissues && h'.reissues[f] == h.reissues[f]
    requires Unused(db', f) == Unused(db, f)
    ensures FamilyOk(db', h', f)
  {
  }

  /** Every selected token goes with its session. */
  ghost predicate Together(db: Db, toks: set<TokenId>, sess: set<SessionId>) {
    forall k :: k in toks && k in db.tokens ==>
      db.tokens[k].session in sess || SessionDead(db, db.tokens[k].session)
  }

  lemma RevokeLater(db: Db, h: History, toks: set<TokenId>, sess: set<SessionId>, now: Ms)
    ensures LaterDb(db, h, RevokeTx(db, toks, sess, now), h)
  {
  }

  lemma RevokeTokenOk(db: Db, h: History, toks: set<TokenId>, sess: set<SessionId>, now: Ms, k: TokenId)
    requires k in db.tokens && TokenOk(db, h, k) && Together(db, toks, sess)
    ensures TokenOk(RevokeTx(db, toks, sess, now), h, k)
  {
  }

  lemma RevokeKeepsLinks(db: Db, toks: set<TokenId>, sess: set<SessionId>, now: Ms)
    requires LinksInjective(db)
    ensures LinksInjective(RevokeTx(db, toks, sess, now))
  {
  }

  lemma RevokeKeepsUnused(db: Db, toks: set<TokenId>, sess: set<SessionId>, now: Ms, f: FamilyId)
    ensures Unused(RevokeTx(db, toks, sess, now), f) == Unused(db, f)
  {
  }

  /** Revoking tokens together with their sessions keeps the ledger. */
  lemma RevokeLedger(db: Db, h: History, toks: set<TokenId>, sess: set<SessionId>, now: Ms)
    requires Ledger(db, h) && Together(db, toks, sess)
    ensures Ledger(RevokeTx(db, toks, sess, now), h)
  {
    var db' := RevokeTx(db, toks, sess, now);
    RevokeLater(db, h, toks, sess, now);
    RevokeKeepsLinks(db, toks, sess, now);
    forall f | f in h.home ensures FamilyOk(db', h, f) {
      RevokeKeepsUnused(db, toks, sess, now, f);
      FamilyOkLater(db, h, db', h, f);
    }
    forall k | k in db'.tokens ensures TokenOk(db', h, k) {
      RevokeTokenOk(db, h, toks, sess, now, k);
    }
  }

  /** An inserted row: fresh, well placed, and not linked to anything yet. */
  ghost predicate Inserted(db: Db, h: History, db': Db, h': History, id: TokenId) {
    && id !in db.tokens && id in db'.tokens && db'.tokens.Keys == db.tokens.Keys + {id}
    && h.births.Keys == db.tokens.Keys && h'.births == h.births[id := |h.births|] && id in h'.known
    && db'.tokens[id].usedAt.None? && db'.tokens[id].revokedAt.None? && db'.tokens[id].replacedBy.None?
  }

  lemma BirthOf(h: History, id: TokenId)
    requires id !in h.births
    ensures |h.births[id := |h.births|]| == |h.births| + 1
  {
  }

  /** Rows that were untouched by an insertion keep the ledger's token part. */
  lemma InsertTokens(db: Db, h: History, db': Db, h': History, id: TokenId, but: set<TokenId>)
    requires TokensOk(db, h) && LaterDb(db, h, db', h') && Inserted(db, h, db', h', id)
    requires forall k :: k in db.tokens && k !in but ==> db'.tokens[k] == db.tokens[k]
    requires forall k :: k in but && k in db.tokens ==> TokenOk(db', h', k)
    requires TokenOk(db', h', id)
    ensures TokensOk(db', h')
  {
  }

  lemma RotateLater(db: Db, h: History, k: TokenId, row: Token, issued: Issued, now: Ms)
    requires Claimable(db, k) && Unwritten(db, h, issued.id) && h.births.Keys == db.tokens.Keys
    requires k in db.tokens && db.tokens[k].replacedBy.None?
    ensures LaterDb(db, h, RotateTx(db, k, row, issued, now), Born(h, issued.id))
  {
  }

  lemma RotateTokens(db: Db, h: History, k: TokenId, row: Token, issued: Issued, now: Ms)
    requires Ledger(db, h) && Claimable(db, k) && Matures(row, db.tokens[k])
    requires Unwritten(db, h, issued.id)
    ensures TokensOk(RotateTx(db, k, row, issued, now), Born(h, issued.id))
  {
    hide TokenOk, LaterDb;
    var db', h' := RotateTx(db, k, row, issued, now), Born(h, issued.id);
    RotatedRows(db, h, k, row, issued, now);
    BirthOf(h, issued.id);
    InsertTokens(db, h, db', h', issued.id, {k});
  }

  lemma RotatedRows(db: Db, h: History, k: TokenId, row: Token, issued: Issued, now: Ms)
    requires Ledger(db, h) && Claimable(db, k) && Matures(row, db.tokens[k])
    requires Unwritten(db, h, issued.id)
    ensures var db', h' := RotateTx(db, k, row, issued, now), Born(h, issued.id);
            LaterDb(db, h, db', h') && TokenOk(db', h', k) && TokenOk(db', h', issued.id)
  {
    hide LaterDb;
    assert TokenOk(db, h, k);
    RotateLater(db, h, k, row, issued, now);
    BirthOf(h, issued.id);
    assert LinkOk(RotateTx(db, k, row, issued, now), Born(h, issued.id), k, issued.id);
  }

  lemma RotateLinks(db: Db, h: History, k: TokenId, row: Token, issued: Issued, now: Ms)
    requires Ledger(db, h) && Claimable(db, k) && Unwritten(db, h, issued.id)
    ensures LinksInjective(RotateTx(db, k, row, issued, now))
  {
  }

  /** One claim takes one token out of the unused ones and puts its successor in. */
  lemma RotateFamily(db: Db, h: History, k: TokenId, row: Token, issued: Issued, now: Ms, f: FamilyId)
    requires Claimable(db, k) && Matures(row, db.tokens[k]) && Unwritten(db, h, issued.id)
    ensures var db' := RotateTx(db, k, row, issued, now);
            if f == row.family
            then k in Unused(db, f) && issued.id !in Unused(db, f)
                 && Unused(db', f) == Unused(db, f) - {k} + {issued.id}
            else Unused(db', f) == Unused(db, f)
  {
  }

  lemma RotateFamilies(db: Db, h: History, k: TokenId, row: Token, issued: Issued, now: Ms)
    requires FamiliesOk(db, h) && Claimable(db, k) && Matures(row, db.tokens[k])
    requires Unwritten(db, h, issued.id)
    ensures FamiliesOk(RotateTx(db, k, row, issued, now), Born(h, issued.id))
  {
    var db', h' := RotateTx(db, k, row, issued, now), Born(h, issued.id);
    forall f | f in h'.home ensures FamilyOk(db', h', f) {
      assert FamilyOk(db, h, f);
      RotateFamily(db, h, k, row, issued, now, f);
    }
  }

  lemma RotateLedger(db: Db, h: History, k: TokenId, row: Token, issued: Issued, now: Ms)
    requires Ledger(db, h) && Claimable(db, k) && Matures(row, db.tokens[k])
    requires Unwritten(db, h, issued.id)
    ensures Ledger(RotateTx(db, k, row, issued, now), Born(h, issued.id))
  {
    RotateTokens(db, h, k, row, issued, now);
    RotateLinks(db, h, k, row, issued, now);
    RotateFamilies(db, h, k, row, issued, now);
  }

  lemma ReissueLater(db: Db, h: History, row: Token, issued: Issued, now: Ms)
    requires Unwritten(db, h, issued.id) && h.births.Keys == db.tokens.Keys
    ensures LaterDb(db, h, ReissueTx(db, row, issued, now), CountReissue(h, row.family, issued.id))
  {
  }

  lemma ReissueTokens(db: Db, h: History, k: TokenId, row: Token, issued: Issued, now: Ms)
    requires Ledger(db, h) && k in db.tokens && Matures(row, db.tokens[k])
    requires Unwritten(db, h, issued.id)
    ensures TokensOk(ReissueTx(db, row, issued, now), CountReissue(h, row.family, issued.id))
  {
    hide TokenOk, LaterDb;
    ReissuedRow(db, h, k, row, issued, now);
    BirthOf(h, issued.id);
    InsertTokens(db, h, ReissueTx(db, row, issued, now), CountReissue(h, row.family, issued.id), issued.id, {});
  }

  lemma ReissuedRow(db: Db, h: History, k: TokenId, row: Token, issued: Issued, now: Ms)
    requires Ledger(db, h) && k in db.tokens && Matures(row, db.tokens[k])
    requires Unwritten(db, h, issued.id)
    ensures var db', h' := ReissueTx(db, row, issued, now), CountReissue(h, row.family, issued.id);
            LaterDb(db, h, db', h') && TokenOk(db', h', issued.id)
  {
    hide LaterDb;
    assert TokenOk(db, h, k);
    ReissueLater(db, h, row, issued, now);
    BirthOf(h, issued.id);
  }

  lemma ReissueFamily(db: Db, h: History, row: Token, issued: Issued, now: Ms, f: FamilyId)
    requires Unwritten(db, h, issued.id)
    ensures var db' := ReissueTx(db, row, issued, now);
            issued.id !in Unused(db, f)
            && Unused(db', f) == Unused(db, f) + if f == row.family then {issued.id} else {}
  {
  }

  /** A grace-window row is counted as one more reissue. */
  lemma ReissueFamilies(db: Db, h: History, row: Token, issued: Issued, now: Ms)
    requires FamiliesOk(db, h) && Unwritten(db, h, issued.id)
    requires row.family in h.home
    ensures FamiliesOk(ReissueTx(db, row, issued, now), CountReissue(h, row.family, issued.id))
  {
    var db', h' := ReissueTx(db, row, issued, now), CountReissue(h, row.family, issued.id);
    forall f | f in h'.home ensures FamilyOk(db', h', f) {
      assert FamilyOk(db, h, f);
      ReissueFamily(db, h, row, issued, now, f);
    }
  }

  lemma ReissueLinks(db: Db, row: Token, issued: Issued, now: Ms)
    requires LinksInjective(db) && issued.id !in db.tokens
    ensures LinksInjective(ReissueTx(db, row, issued, now))
  {
  }

  lemma ReissueLedger(db: Db, h: History, k: TokenId, row: Token, issued: Issued, now: Ms)
    requires Ledger(db, h) && k in db.tokens && Matures(row, db.tokens[k])
    requires Unwritten(db, h, issued.id)
    ensures Ledger(ReissueTx(db, row, issued, now), CountReissue(h, row.family, issued.id))
  {
    assert TokenOk(db, h, k);
    ReissueTokens(db, h, k, row, issued, now);
    ReissueLinks(db, row, issued, now);
    ReissueFamilies(db, h, row, issued, now);
  }

  /** A sign-in's token belongs to no family that was there before. */
  lemma SignInFresh(s: State, l: SignInId, k: TokenId, f: FamilyId)
    requires Ledger(s.db, s.hist) && Enabled(s, SignInToken(l, k, f))
    ensures k !in s.db.tokens && k !in s.hist.births && f !in s.hist.home
    ensures Unused(s.db, f) == {}
  {
  }

  lemma SignInLater(cfg: Config, s: State, l: SignInId, k: TokenId, f: FamilyId)
    requires Ledger(s.db, s.hist) && Enabled(s, SignInToken(l, k, f))
    ensures var s' := Next(cfg, s, SignInToken(l, k, f)); LaterDb(s.db, s.hist, s'.db, s'.hist)
  {
    SignInFresh(s, l, k, f);
    BirthOf(s.hist, k);
  }

  /** Signing in opens a family with exactly one unused token. */
  lemma SignInFamilies(cfg: Config, s: State, l: SignInId, k: TokenId, f: FamilyId)
    requires Ledger(s.db, s.hist) && Enabled(s, SignInToken(l, k, f)) && SignInOk(s.db, s.signIns[l])
    ensures var s' := Next(cfg, s, SignInToken(l, k, f)); FamiliesOk(s'.db, s'.hist)
  {
    var s' := Next(cfg, s, SignInToken(l, k, f));
    SignInFresh(s, l, k, f);
    SignInLater(cfg, s, l, k, f);
    hide Ledger, TokensOk, LaterDb, SignInOk;
    forall g | g in s'.hist.home ensures FamilyOk(s'.db, s'.hist, g) {
      if g == f {
        assert Unused(s'.db, f) == {k};
      } else {
        assert FamilyOk(s.db, s.hist, g);
        SignInOtherFamily(cfg, s, l, k, f, g);
      }
    }
  }

  lemma SignInOtherFamily(cfg: Config, s: State, l: SignInId, k: TokenId, f: FamilyId, g: FamilyId)
    requires Enabled(s, SignInToken(l, k, f)) && k !in s.db.tokens && g != f
    requires g in s.hist.home && FamilyOk(s.db, s.hist, g)
    ensures var s' := Next(cfg, s, SignInToken(l, k, f)); g in s'.hist.home && FamilyOk(s'.db, s'.hist, g)
  {
    assert Unused(Next(cfg, s, SignInToken(l, k, f)).db, g) == Unused(s.db, g);
  }

  lemma SignInTokens(cfg: Config, s: State, l: SignInId, k: TokenId, f: FamilyId)
    requires Ledger(s.db, s.hist) && Enabled(s, SignInToken(l, k, f)) && SignInOk(s.db, s.signIns[l])
    ensures var s' := Next(cfg, s, SignInToken(l, k, f)); TokensOk(s'.db, s'.hist)
  {
    var s' := Next(cfg, s, SignInToken(l, k, f));
    SignInFresh(s, l, k, f);
    SignInLater(cfg, s, l, k, f);
    BirthOf(s.hist, k);
    InsertTokens(s.db, s.hist, s'.db, s'.hist, k, {});
  }

  lemma SignInLedger(cfg: Config, s: State, l: SignInId, k: TokenId, f: FamilyId)
    requires Ledger(s.db, s.hist) && Enabled(s, SignInToken(l, k, f)) && SignInOk(s.db, s.signIns[l])
    ensures var s' := Next(cfg, s, SignInToken(l, k, f)); Ledger(s'.db, s'.hist)
  {
    SignInFresh(s, l, k, f);
    SignInTokens(cfg, s, l, k, f);
    SignInFamilies(cfg, s, l, k, f);
  }

  // ---------------------------------------------------------------------------
  // A call keeps what it relies on while others move
  // ---------------------------------------------------------------------------

  lemma CallOkLater(db: Db, h: History, db': Db, h': History, call: Call)
    requires LaterDb(db, h, db', h') && CallOk(db, h, call)
    requires call.Holds() ==> call.issued.id !in db'.tokens
    requires forall k :: k in db.tokens ==> TokenOk(db, h, k)
    ensures CallOk(db', h', call)
  {
  }
}
