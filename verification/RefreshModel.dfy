/**
  Refresh-token rotation as a state machine.

  A state holds the three tables the authentication service works on, the calls
  that are in flight, a monotone clock, and a history that no code reads. Every
  database transaction is one step; a read and the transaction that follows it
  are separate steps, so any number of calls interleave between them.

  Token hashes are injective, so a row is keyed by the token itself. Ids, token
  hashes and family ids that are minted have never been seen before.
 */
module RefreshModel {
  import opened Options

  type Ms = int
  type UserId = nat
  type SessionId = nat
  type TokenId = nat
  type FamilyId = nat
  type CallId = nat
  type SignInId = nat

  /** `auth.refreshTtl` and `auth.refreshReuseGraceSeconds`, both in seconds. */
  datatype Config = Config(refreshTtlSeconds: nat, graceSeconds: nat)

  datatype AccountStatus = Active | Pending | Suspended | Disabled

  datatype User = User(status: AccountStatus, deletedAt: Option<Ms>, credentialsChangedAt: Ms)
  {
    predicate Unusable() {
      deletedAt.Some? || status.Disabled? || status.Suspended?
    }
  }

  /** The schema also declares EXPIRED; nothing in the repository writes it. */
  datatype SessionStatus = ACTIVE | REVOKED

  datatype Session = Session(user: UserId, status: SessionStatus, expiresAt: Ms)

  datatype Token = Token(
    user: UserId, session: SessionId, family: FamilyId,
    createdAt: Ms, expiresAt: Ms,
    usedAt: Option<Ms>, revokedAt: Option<Ms>, replacedBy: Option<TokenId>)
  {
    /** No longer claimable by a rotation. */
    predicate Spent() {
      usedAt.Some? || revokedAt.Some?
    }
  }

  datatype Db = Db(
    users: map<UserId, User>, sessions: map<SessionId, Session>, tokens: map<TokenId, Token>)

  datatype Error =
    | TokenRevoked | TokenReused | UnknownToken | TokenExpired | SessionRevoked
    | AccountDisabled | CredentialsChanged | RotationConflict

  // ---------------------------------------------------------------------------
  // The decision taken on a row that was read
  // ---------------------------------------------------------------------------

  /** The row, its session's status and its user, as one read returned them. */
  datatype Snapshot = Snapshot(row: Token, status: SessionStatus, user: User)

  datatype Verdict = Rotate | Reissue | Replay | Refuse(error: Error)

  /** The checks the main path and the grace-window path have in common, in their common order. */
  function Admit(snap: Snapshot, now: Ms): Option<Error> {
    if snap.row.expiresAt <= now then Some(TokenExpired)
    else if snap.status != ACTIVE then Some(SessionRevoked)
    else if snap.user.Unusable() then Some(AccountDisabled)
    else if snap.row.createdAt < snap.user.credentialsChangedAt - 1000 then Some(CredentialsChanged)
    else None
  }

  function Judge(cfg: Config, snap: Snapshot, now: Ms): Verdict {
    if snap.row.revokedAt.Some? then
      Refuse(TokenRevoked)
    else if snap.row.usedAt.Some? then
      if now - snap.row.usedAt.value <= cfg.graceSeconds * 1000 then
        match Admit(snap, now)
        case Some(e) => Refuse(e)
        case None => Reissue
      else
        Replay
    else
      match Admit(snap, now)
      case Some(e) => Refuse(e)
      case None => Rotate
  }

  // ---------------------------------------------------------------------------
  // Transactions
  // ---------------------------------------------------------------------------

  datatype Issued = Issued(id: TokenId, expiresAt: Ms)

  function Successor(row: Token, issued: Issued, now: Ms): Token {
    Token(row.user, row.session, row.family, now, issued.expiresAt, None, None, None)
  }

  function Slide(sessions: map<SessionId, Session>, id: SessionId, expiresAt: Ms): map<SessionId, Session> {
    if id in sessions then sessions[id := sessions[id].(expiresAt := expiresAt)] else sessions
  }

  predicate Claimable(db: Db, k: TokenId) {
    k in db.tokens && !db.tokens[k].Spent()
  }

  /** The compare-and-set transaction: the row is claimed only while unused and unrevoked. */
  function RotateTx(db: Db, k: TokenId, row: Token, issued: Issued, now: Ms): Db {
    if Claimable(db, k) then
      db.(tokens := db.tokens
            [k := db.tokens[k].(usedAt := Some(now), replacedBy := Some(issued.id))]
            [issued.id := Successor(row, issued, now)],
          sessions := Slide(db.sessions, row.session, issued.expiresAt))
    else
      db
  }

  /** The grace-window transaction: a new row in the same family, and the session slides. */
  function ReissueTx(db: Db, row: Token, issued: Issued, now: Ms): Db {
    db.(tokens := db.tokens[issued.id := Successor(row, issued, now)],
        sessions := Slide(db.sessions, row.session, issued.expiresAt))
  }

  /** Two `updateMany`: unrevoked tokens of `toks` and sessions of `sess` become revoked. */
  function RevokeTx(db: Db, toks: set<TokenId>, sess: set<SessionId>, now: Ms): Db {
    db.(tokens := map k | k in db.tokens ::
                    if k in toks && db.tokens[k].revokedAt.None?
                    then db.tokens[k].(revokedAt := Some(now)) else db.tokens[k],
        sessions := map x | x in db.sessions ::
                      if x in sess then db.sessions[x].(status := REVOKED) else db.sessions[x])
  }

  function TokensOfFamily(db: Db, f: FamilyId): set<TokenId> {
    set k | k in db.tokens && db.tokens[k].family == f
  }

  function TokensOfSession(db: Db, x: SessionId): set<TokenId> {
    set k | k in db.tokens && db.tokens[k].session == x
  }

  function TokensOfUser(db: Db, u: UserId): set<TokenId> {
    set k | k in db.tokens && db.tokens[k].user == u
  }

  function SessionsOfUser(db: Db, u: UserId): set<SessionId> {
    set x | x in db.sessions && db.sessions[x].user == u
  }

  /** What `revokeFamily` collects before its transaction. */
  function LiveSessionsOfFamily(db: Db, f: FamilyId): set<SessionId> {
    set k | k in db.tokens && db.tokens[k].family == f && db.tokens[k].revokedAt.None?
      :: db.tokens[k].session
  }

  function RevokeUserTx(db: Db, u: UserId, now: Ms): Db {
    RevokeTx(db, TokensOfUser(db, u), SessionsOfUser(db, u), now)
  }

  // ---------------------------------------------------------------------------
  // Calls in flight
  // ---------------------------------------------------------------------------

  /** Where one refresh call stands. `token` is the token it presented. */
  datatype Call =
    | Presented(token: TokenId, family: FamilyId, retry: bool)
    | Loaded(token: TokenId, snap: Snapshot, retry: bool)
    | Minted(token: TokenId, snap: Snapshot, issued: Issued, retry: bool)
    | Reissuing(token: TokenId, snap: Snapshot, issued: Issued)
    | Detected(token: TokenId, family: FamilyId, error: Error)
    | Revoking(token: TokenId, family: FamilyId, error: Error, found: set<SessionId>)
    | Rotated(token: TokenId, pair: TokenId)
    | Reissued(token: TokenId, pair: TokenId)
    | Refused(token: TokenId, error: Error)
  {
    predicate Done() {
      Rotated? || Reissued? || Refused?
    }

    /** The call holds a minted token whose row is not written yet. */
    predicate Holds() {
      Minted? || Reissuing?
    }
  }

  datatype PendingSignIn = PendingSignIn(user: UserId, session: SessionId)

  /**
    What has happened so far; no transition reads it except to keep minted ids
    fresh. `home` is the session a family belongs to, `births` numbers the rows
    in order of insertion, `reissues` counts grace-window rows per family.
   */
  datatype History = History(
    known: set<TokenId>, families: set<FamilyId>, home: map<FamilyId, SessionId>,
    births: map<TokenId, nat>, reissues: map<FamilyId, nat>)

  datatype State = State(
    db: Db, calls: map<CallId, Call>, signIns: map<SignInId, PendingSignIn>, now: Ms, hist: History)

  datatype Step =
    | Tick(now: Ms)
    | UpdateUser(user: UserId, value: User)
    | Present(call: CallId, token: TokenId, family: FamilyId)
    | Load(call: CallId)
    | Decide(call: CallId, mint: TokenId)
    | CommitRotation(call: CallId)
    | CommitReissue(call: CallId)
    | FindFamily(call: CallId)
    | CommitRevoke(call: CallId)
    | SignInSession(signIn: SignInId, user: UserId, session: SessionId)
    | SignInToken(signIn: SignInId, token: TokenId, family: FamilyId)
    | Logout(session: SessionId)
    | LogoutAll(user: UserId)
    | ChangePassword(user: UserId)
    | RevokeSessions(sessions: set<SessionId>)

  predicate Enabled(s: State, step: Step) {
    match step
    case Tick(t) => s.now <= t
    case UpdateUser(_, _) => true
    case Present(c, k, f) => c !in s.calls && (k in s.db.tokens ==> s.db.tokens[k].family == f)
    case Load(c) => c in s.calls && s.calls[c].Presented?
    case Decide(c, mint) => c in s.calls && s.calls[c].Loaded? && mint !in s.hist.known
    case CommitRotation(c) => c in s.calls && s.calls[c].Minted?
    case CommitReissue(c) => c in s.calls && s.calls[c].Reissuing?
    case FindFamily(c) => c in s.calls && s.calls[c].Detected?
    case CommitRevoke(c) => c in s.calls && s.calls[c].Revoking?
    case SignInSession(l, u, x) => l !in s.signIns && u in s.db.users && x !in s.db.sessions
    case SignInToken(l, k, f) => l in s.signIns && k !in s.hist.known && f !in s.hist.families
    case Logout(x) => x in s.db.sessions
    case LogoutAll(u) => true
    case ChangePassword(u) => u in s.db.users
    case RevokeSessions(_) => true
  }

  /** The session and the user of a stored token are there: both are foreign keys. */
  predicate Stored(db: Db, k: TokenId) {
    k in db.tokens && db.tokens[k].session in db.sessions && db.tokens[k].user in db.users
  }

  function TakeSnapshot(db: Db, k: TokenId): Snapshot
    requires Stored(db, k)
  {
    var row := db.tokens[k];
    Snapshot(row, db.sessions[row.session].status, db.users[row.user])
  }

  function AfterLoad(s: State, call: Call): Call
    requires call.Presented?
  {
    if Stored(s.db, call.token)
    then Loaded(call.token, TakeSnapshot(s.db, call.token), call.retry)
    else Detected(call.token, call.family, UnknownToken)
  }

  function AfterDecide(cfg: Config, call: Call, mint: TokenId, now: Ms): Call
    requires call.Loaded?
  {
    var issued := Issued(mint, now + cfg.refreshTtlSeconds * 1000);
    match Judge(cfg, call.snap, now)
    case Rotate => Minted(call.token, call.snap, issued, call.retry)
    case Reissue => Reissuing(call.token, call.snap, issued)
    case Replay => Detected(call.token, call.snap.row.family, TokenReused)
    case Refuse(e) => Refused(call.token, e)
  }

  function AfterRotation(db: Db, call: Call): Call
    requires call.Minted?
  {
    if Claimable(db, call.token) then Rotated(call.token, call.issued.id)
    else if call.retry then Refused(call.token, RotationConflict)
    else Presented(call.token, call.snap.row.family, true)
  }

  function Born(h: History, k: TokenId): History {
    h.(births := h.births[k := |h.births|])
  }

  function CountReissue(h: History, f: FamilyId, k: TokenId): History {
    Born(h, k).(reissues := h.reissues[f := 1 + if f in h.reissues then h.reissues[f] else 0])
  }

  function Next(cfg: Config, s: State, step: Step): State
    requires Enabled(s, step)
  {
    match step
    case Tick(t) => s.(now := t)
    case UpdateUser(u, v) => s.(db := s.db.(users := s.db.users[u := v]))
    case Present(c, k, f) =>
      s.(calls := s.calls[c := Presented(k, f, false)],
         hist := s.hist.(known := s.hist.known + {k}, families := s.hist.families + {f}))
    case Load(c) => s.(calls := s.calls[c := AfterLoad(s, s.calls[c])])
    case Decide(c, mint) =>
      s.(calls := s.calls[c := AfterDecide(cfg, s.calls[c], mint, s.now)],
         hist := s.hist.(known := s.hist.known + {mint}))
    case CommitRotation(c) =>
      var call := s.calls[c];
      s.(db := RotateTx(s.db, call.token, call.snap.row, call.issued, s.now),
         calls := s.calls[c := AfterRotation(s.db, call)],
         hist := if Claimable(s.db, call.token) then Born(s.hist, call.issued.id) else s.hist)
    case CommitReissue(c) =>
      var call := s.calls[c];
      s.(db := ReissueTx(s.db, call.snap.row, call.issued, s.now),
         calls := s.calls[c := Reissued(call.token, call.issued.id)],
         hist := CountReissue(s.hist, call.snap.row.family, call.issued.id))
    case FindFamily(c) =>
      var call := s.calls[c];
      s.(calls := s.calls[c := Revoking(call.token, call.family, call.error,
                                        LiveSessionsOfFamily(s.db, call.family))])
    case CommitRevoke(c) =>
      var call := s.calls[c];
      s.(db := RevokeTx(s.db, TokensOfFamily(s.db, call.family), call.found, s.now),
         calls := s.calls[c := Refused(call.token, call.error)])
    case SignInSession(l, u, x) =>
      s.(db := s.db.(sessions := s.db.sessions[x := Session(u, ACTIVE, s.now + cfg.refreshTtlSeconds * 1000)]),
         signIns := s.signIns[l := PendingSignIn(u, x)])
    case SignInToken(l, k, f) =>
      var p := s.signIns[l];
      s.(db := s.db.(tokens := s.db.tokens[k := Token(p.user, p.session, f, s.now,
                                                      s.now + cfg.refreshTtlSeconds * 1000,
                                                      None, None, None)]),
         signIns := s.signIns - {l},
         hist := Born(s.hist, k)
                 .(known := s.hist.known + {k}, families := s.hist.families + {f},
                   home := s.hist.home[f := p.session], reissues := s.hist.reissues[f := 0]))
    case Logout(x) => s.(db := RevokeTx(s.db, TokensOfSession(s.db, x), {x}, s.now))
    case LogoutAll(u) => s.(db := RevokeUserTx(s.db, u, s.now))
    case ChangePassword(u) =>
      s.(db := RevokeUserTx(s.db, u, s.now)
               .(users := s.db.users[u := s.db.users[u].(credentialsChangedAt := s.now)]))
    case RevokeSessions(xs) => s.(db := RevokeTx(s.db, {}, xs, s.now))
  }

  ghost predicate Run(cfg: Config, s: State, steps: seq<Step>, s': State)
    decreases |steps|
  {
    if steps == [] then s == s'
    else Enabled(s, steps[0]) && Run(cfg, Next(cfg, s, steps[0]), steps[1..], s')
  }

  /** Before anybody has signed in. */
  ghost predicate Init(s: State) {
    && s.db.tokens == map[] && s.db.sessions == map[]
    && s.calls == map[] && s.signIns == map[]
    && s.hist == History({}, {}, map[], map[], map[])
  }

  // ---------------------------------------------------------------------------
  // The guard on every authenticated request
  // ---------------------------------------------------------------------------

  /** An access token names its session and carries its issue time in whole seconds. */
  datatype AccessToken = AccessToken(session: SessionId, issuedAtSeconds: int)

  function Attach(db: Db, token: AccessToken, now: Ms): Result<UserId, Error> {
    if token.session !in db.sessions || db.sessions[token.session].status != ACTIVE then Err(SessionRevoked)
    else if db.sessions[token.session].expiresAt <= now then Err(TokenExpired)
    else
      var u := db.sessions[token.session].user;
      if u !in db.users then Err(SessionRevoked)
      else if db.users[u].Unusable() then Err(AccountDisabled)
      else if token.issuedAtSeconds * 1000 < db.users[u].credentialsChangedAt - 1000 then Err(CredentialsChanged)
      else Ok(u)
  }
}
