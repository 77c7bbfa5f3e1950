/** The Auth Provider as one state machine: /authorize, /token and /userinfo run
    as many-step programs interleaved with logouts, deactivations and policy
    changes. Every database statement or transaction is one step. */
module AuthServer {
  import opened Domain
  import SessionStore
  import Access

  type Pair = Access.Pair

  /** An `authorization_codes` row. `checkedAt` is bookkeeping of this model: the
      instant at which the policy was evaluated for it. */
  datatype AuthCode = AuthCode(user: Uuid, app: Uuid, session: Uuid, redirectUri: string, challenge: string,
                               expiresAt: Time, usedAt: Option<Time>, checkedAt: Time)

  /** What a /token request has established about the code it presents. */
  datatype Claim = Claim(app: Uuid, code: Uuid, user: Uuid, session: Uuid, redirectUri: string, verifier: string)

  /** What a signed access token says. */
  datatype Bearer = Bearer(app: Uuid, jti: Uuid, user: Uuid, session: Uuid)

  /** Where one request (or, after /token, one application callback) stands. */
  datatype Flow =
    | SessionFound(app: Uuid, user: Uuid, session: Uuid, redirectUri: string, challenge: string)
    | Allowed(app: Uuid, user: Uuid, session: Uuid, redirectUri: string, challenge: string, checkedAt: Time)
    | CodeFound(claim: Claim)
    | SessionChecked(claim: Claim)
    | UserChecked(claim: Claim)
    | TokenHeld(bearer: Bearer)
    | MetadataChecked(bearer: Bearer)
    | SessionLive(bearer: Bearer)
    | Profile(bearer: Bearer)

  /** `apps` are the active applications. `lastLoss` is bookkeeping of this
      model: when each pair last lost its last allow path. `pkce` stands for the
      S256 transformation. */
  datatype State = State(
    now: Time, pkce: string -> string,
    users: map<Uuid, SessionStore.UserStatus>, sessions: map<Uuid, SessionStore.Session>, apps: set<Uuid>,
    members: set<Access.Member>, policies: set<Access.Policy>,
    codes: map<Uuid, AuthCode>, tokens: map<Uuid, Access.TokenRow>,
    events: seq<Payload>, lastLoss: map<Pair, Time>, flows: map<Uuid, Flow>)

  function SessionView(s: State): SessionStore.Db {
    SessionStore.Db(s.users, s.sessions, s.events)
  }

  function AccessView(s: State): Access.Db {
    Access.Db(s.users.Keys, s.members, s.policies, s.tokens, s.events)
  }

  ghost predicate Init(s: State) {
    && s.now > 0 && s.users == map[] && s.sessions == map[] && s.apps == {} && s.members == {} && s.policies == {}
    && s.codes == map[] && s.tokens == map[] && s.events == [] && s.lastLoss == map[] && s.flows == map[]
  }

  datatype Action =
    | Tick(elapsed: nat)
    | RegisterApp(app: Uuid)
    | Sessions(sessionOp: SessionStore.Op)
    | Policies(policyOp: Access.Op)
    // GET /authorize
    | StartAuthorize(flow: Uuid, app: Uuid, session: Uuid, redirectUri: string, challenge: string)
    | CheckPolicy(flow: Uuid)
    | IssueCode(flow: Uuid, code: Uuid, ttl: Time)
    // POST /token
    | RequestToken(flow: Uuid, app: Uuid, code: Uuid, redirectUri: string, verifier: string)
    | CheckSession(flow: Uuid)
    | CheckUser(flow: Uuid)
    | Redeem(flow: Uuid, jti: Uuid, ttl: Time, insertFails: bool)
    // GET /userinfo
    | ReadMetadata(flow: Uuid)
    | ReadSession(flow: Uuid)
    | ReadUser(flow: Uuid)
    // a request may end, fail or lose its answer at any point
    | Abandon(flow: Uuid)

  predicate IsActive(s: State, user: Uuid) {
    user in s.users && s.users[user] == SessionStore.ActiveUser
  }

  predicate UsableSession(s: State, session: Uuid) {
    session in s.sessions && SessionStore.Usable(s.sessions[session], s.now)
  }

  /** The active user and policy join of UserHasApplicationAccess. */
  predicate UserHasApplicationAccess(s: State, user: Uuid, app: Uuid) {
    IsActive(s, user) && Access.HasPath(s.members, s.policies, user, app)
  }

  predicate CodeMatches(s: State, c: Claim) {
    && c.app in s.apps && c.code in s.codes
    && var code := s.codes[c.code];
       && code.usedAt.None? && s.now < code.expiresAt
       && code.app == c.app && code.redirectUri == c.redirectUri && s.pkce(c.verifier) == code.challenge
       && code.user == c.user && code.session == c.session
  }

  predicate TokenMatches(s: State, b: Bearer) {
    && b.app in s.apps && b.jti in s.tokens
    && var t := s.tokens[b.jti];
       t.revokedAt.None? && s.now < t.expiresAt && t.app == b.app && t.session == b.session && t.user == b.user
  }

  function Drop(s: State, flow: Uuid): State {
    s.(flows := s.flows - {flow})
  }

  function Put(s: State, id: Uuid, flow: Flow): State {
    s.(flows := s.flows[id := flow])
  }

  /** The flow moves on if the check passes and ends otherwise. */
  function Gate(s: State, id: Uuid, passes: bool, next: Flow): State {
    if passes then Put(s, id, next) else Drop(s, id)
  }

  /** AuthorizationCodeRepository.Redeem: consume the code and insert the token
      row, both or neither. */
  function RedeemTx(s: State, c: Claim, jti: Uuid, ttl: Time): State
    requires c.code in s.codes
  {
    s.(codes := s.codes[c.code := s.codes[c.code].(usedAt := Some(s.now))],
       tokens := s.tokens[jti := Access.TokenRow(c.user, c.app, c.session, s.now + ttl, None, "",
                                                 Access.Grant(c.code, c.redirectUri, c.verifier, s.now))])
  }

  predicate CanRedeem(s: State, c: Claim, jti: Uuid) {
    c.code in s.codes && s.codes[c.code].usedAt.None? && s.now < s.codes[c.code].expiresAt && jti !in s.tokens
  }

  ghost function LossesNoted(s: State, op: Access.Op): map<Pair, Time> {
    var lost := set p | p in Access.Revoked(AccessView(s), op);
    map p | p in s.lastLoss.Keys + lost :: if p in lost then s.now else s.lastLoss[p]
  }

  /** The steps that start or end a request, or stand alone. */
  ghost function Start(s: State, a: Action): State
    requires a.StartAuthorize? || a.RequestToken? || a.Abandon? || a.IssueCode?
  {
    if a.StartAuthorize? then
      if a.flow in s.flows || a.app !in s.apps || !UsableSession(s, a.session) then s
      else Put(s, a.flow, SessionFound(a.app, s.sessions[a.session].user, a.session, a.redirectUri, a.challenge))
    else if a.RequestToken? then
      if a.flow in s.flows || a.code !in s.codes then s
      else
        var c := Claim(a.app, a.code, s.codes[a.code].user, s.codes[a.code].session, a.redirectUri, a.verifier);
        if CodeMatches(s, c) then Put(s, a.flow, CodeFound(c)) else s
    else if a.IssueCode? then
      if a.flow !in s.flows || !s.flows[a.flow].Allowed? || a.code in s.codes then s
      else
        var x := s.flows[a.flow];
        Drop(s, a.flow).(codes := s.codes[a.code := AuthCode(x.user, x.app, x.session, x.redirectUri, x.challenge,
                                                             s.now + a.ttl, None, x.checkedAt)])
    else Drop(s, a.flow)
  }

  /** One step. A step that is not enabled changes nothing but the clock. */
  ghost function Do(s: State, a: Action): State {
    if a.Tick? then s
    else if a.RegisterApp? then if a.app == NIL then s else s.(apps := s.apps + {a.app})
    else if a.Sessions? then
      var db := SessionStore.Apply(SessionView(s), a.sessionOp, s.now);
      s.(users := db.users, sessions := db.sessions, events := db.events)
    else if a.Policies? then
      var db := Access.Apply(AccessView(s), a.policyOp, s.now);
      s.(members := db.members, policies := db.policies, tokens := db.tokens, events := db.events,
         lastLoss := LossesNoted(s, a.policyOp))
    else if a.StartAuthorize? || a.RequestToken? || a.Abandon? || a.IssueCode? then Start(s, a)
    else if a.flow in s.flows then Progress(s, a, a.flow, s.flows[a.flow])
    else s
  }

  /** The steps that read or write on behalf of a request already under way. */
  ghost function Progress(s: State, a: Action, f: Uuid, flow: Flow): State {
    if a.CheckPolicy? && flow.SessionFound? then
      Gate(s, f, UserHasApplicationAccess(s, flow.user, flow.app),
           Allowed(flow.app, flow.user, flow.session, flow.redirectUri, flow.challenge, s.now))
    else if a.CheckSession? && flow.CodeFound? then
      Gate(s, f, UsableSession(s, flow.claim.session), SessionChecked(flow.claim))
    else if a.CheckUser? && flow.SessionChecked? then
      var c := flow.claim;
      Gate(s, f, IsActive(s, c.user) && c.session in s.sessions && s.sessions[c.session].user == c.user, UserChecked(c))
    else if a.Redeem? && flow.UserChecked? then
      var c := flow.claim;
      if CanRedeem(s, c, a.jti) && !a.insertFails
      then Put(RedeemTx(s, c, a.jti, a.ttl), f, TokenHeld(Bearer(c.app, a.jti, c.user, c.session)))
      else Drop(s, f)
    else Answer(s, a, f, flow)
  }

  /** The checks of /userinfo, in order. */
  ghost function Answer(s: State, a: Action, f: Uuid, flow: Flow): State {
    if a.ReadMetadata? && flow.TokenHeld? then
      Gate(s, f, TokenMatches(s, flow.bearer), MetadataChecked(flow.bearer))
    else if a.ReadSession? && flow.MetadataChecked? then
      var b := flow.bearer;
      Gate(s, f, UsableSession(s, b.session) && s.sessions[b.session].user == b.user, SessionLive(b))
    else if a.ReadUser? && flow.SessionLive? then
      Gate(s, f, IsActive(s, flow.bearer.user), Profile(flow.bearer))
    else s
  }

  ghost function Apply(s: State, a: Action): State {
    Do(s, a).(now := s.now + 1 + if a.Tick? then a.elapsed else 0)
  }

  ghost function Run(s: State, actions: seq<Action>): State {
    if |actions| == 0 then s else Apply(Run(s, actions[..|actions| - 1]), actions[|actions| - 1])
  }

  // ----- invariants -----

  ghost predicate OwnedSession(s: State, session: Uuid, user: Uuid) {
    session in s.sessions && s.sessions[session].user == user
  }

  ghost predicate CodeOk(s: State, id: Uuid)
    requires id in s.codes
  {
    var c := s.codes[id];
    && OwnedSession(s, c.session, c.user) && c.app in s.apps && c.checkedAt < s.now
    && (c.usedAt.Some? ==> exists j <- s.tokens :: s.tokens[j].origin.code == id)
  }

  /** A token row comes from one consumed code and carries what that code says;
      its request presented the bound redirect URI and a matching verifier. */
  ghost predicate TokenOk(s: State, j: Uuid)
    requires j in s.tokens
  {
    var t := s.tokens[j];
    && t.origin.code in s.codes
    && var c := s.codes[t.origin.code];
       && c.usedAt.Some? && t.user == c.user && t.app == c.app && t.session == c.session
       && t.origin.redirectUri == c.redirectUri && s.pkce(t.origin.verifier) == c.challenge
       && c.checkedAt < t.origin.issuedAt < s.now
  }

  ghost predicate ClaimOk(s: State, c: Claim) {
    && c.code in s.codes
    && var code := s.codes[c.code];
       && code.app == c.app && code.user == c.user && code.session == c.session
       && code.redirectUri == c.redirectUri && s.pkce(c.verifier) == code.challenge
  }

  ghost predicate BearerOk(s: State, b: Bearer) {
    && b.jti in s.tokens
    && var t := s.tokens[b.jti]; t.app == b.app && t.user == b.user && t.session == b.session
  }

  ghost predicate FlowOk(s: State, flow: Flow) {
    match flow
    case SessionFound(app, user, session, _, _) => app in s.apps && OwnedSession(s, session, user)
    case Allowed(app, user, session, _, _, at) => app in s.apps && OwnedSession(s, session, user) && at < s.now
    case CodeFound(c) => ClaimOk(s, c)
    case SessionChecked(c) => ClaimOk(s, c)
    case UserChecked(c) => ClaimOk(s, c)
    case TokenHeld(b) => BearerOk(s, b)
    case MetadataChecked(b) => BearerOk(s, b)
    case SessionLive(b) => BearerOk(s, b)
    case Profile(b) => BearerOk(s, b)
  }

  ghost predicate OneTokenPerCode(s: State) {
    forall i <- s.tokens, j <- s.tokens :: s.tokens[i].origin.code == s.tokens[j].origin.code ==> i == j
  }

  /** The pair has an allow path, or lost its last one after `since`. */
  ghost predicate PathOrLoss(s: State, p: Pair, since: Time) {
    Access.HasPath(s.members, s.policies, p.0, p.1) || (p in s.lastLoss && since < s.lastLoss[p])
  }

  ghost predicate TokenLags(s: State, t: Access.TokenRow, checkedAt: Time) {
    var p := (t.user, t.app);
    p in s.lastLoss && checkedAt < s.lastLoss[p] < t.origin.issuedAt
  }

  ghost predicate FlowLag(s: State, flow: Flow) {
    flow.Allowed? ==> PathOrLoss(s, (flow.user, flow.app), flow.checkedAt)
  }

  ghost predicate TokenLag(s: State, j: Uuid)
    requires j in s.tokens
  {
    s.tokens[j].revokedAt.None? && s.tokens[j].origin.code in s.codes ==>
      || Access.HasPath(s.members, s.policies, s.tokens[j].user, s.tokens[j].app)
      || TokenLags(s, s.tokens[j], s.codes[s.tokens[j].origin.code].checkedAt)
  }

  ghost predicate RowsLag(s: State) {
    && (forall p <- s.lastLoss :: s.lastLoss[p] < s.now)
    && (forall c <- s.codes :: PathOrLoss(s, (s.codes[c].user, s.codes[c].app), s.codes[c].checkedAt))
    && (forall j <- s.tokens :: TokenLag(s, j))
  }

  ghost predicate LagOk(s: State) {
    RowsLag(s) && forall f <- s.flows :: FlowLag(s, s.flows[f])
  }

  ghost predicate RowsOk(s: State) {
    && (forall c <- s.codes :: CodeOk(s, c))
    && (forall j <- s.tokens :: TokenOk(s, j))
    && OneTokenPerCode(s)
  }

  ghost predicate GrantsOk(s: State) {
    RowsOk(s) && forall f <- s.flows :: FlowOk(s, s.flows[f])
  }

  ghost predicate Inv(s: State) {
    && s.now > 0
    && SessionStore.Agreement(SessionView(s))
    && Access.Valid(AccessView(s))
    && GrantsOk(s)
    && LagOk(s)
  }

  // ----- preservation -----

  /** What no step ever takes back: sessions keep their owner, codes and tokens
      keep what they say, a used code stays used, time goes on. */
  ghost predicate Extends(s: State, r: State) {
    && s.pkce == r.pkce && s.apps <= r.apps && s.now < r.now
    && (forall id <- s.sessions :: id in r.sessions && r.sessions[id].user == s.sessions[id].user)
    && (forall c <- s.codes :: c in r.codes && SameCode(s.codes[c], r.codes[c]))
    && (forall j <- s.tokens :: j in r.tokens && SameToken(s.tokens[j], r.tokens[j]))
  }

  ghost predicate SameCode(x: AuthCode, y: AuthCode) {
    && y == x.(usedAt := y.usedAt)
    && (x.usedAt.Some? ==> y.usedAt == x.usedAt)
  }

  ghost predicate SameToken(x: Access.TokenRow, y: Access.TokenRow) {
    x.user == y.user && x.app == y.app && x.session == y.session && x.origin == y.origin
  }

  lemma FlowStaysOk(s: State, r: State, flow: Flow)
    requires Extends(s, r) && FlowOk(s, flow)
    ensures FlowOk(r, flow)
  {
  }

  lemma FlowsStayOk(s: State, r: State)
    requires Extends(s, r) && (forall f <- s.flows :: FlowOk(s, s.flows[f]))
    ensures forall f <- s.flows :: FlowOk(r, s.flows[f])
  {
    forall f | f in s.flows ensures FlowOk(r, s.flows[f]) {
      FlowStaysOk(s, r, s.flows[f]);
    }
  }

  /** Rows already there stay in order, as long as no code is newly used. */
  lemma RowsStayOk(s: State, r: State)
    requires Extends(s, r) && RowsOk(s)
    ensures forall j <- s.tokens :: TokenOk(r, j)
    ensures forall c <- s.codes :: r.codes[c].usedAt == s.codes[c].usedAt ==> CodeOk(r, c)
  {
    forall j | j in s.tokens ensures TokenOk(r, j) {
      assert TokenOk(s, j);
    }
    forall c | c in s.codes && r.codes[c].usedAt == s.codes[c].usedAt ensures CodeOk(r, c) {
      assert CodeOk(s, c);
      if s.codes[c].usedAt.Some? {
        var j :| j in s.tokens && s.tokens[j].origin.code == c;
        assert r.tokens[j].origin.code == c;
      }
    }
  }

  ghost predicate SamePolicy(s: State, r: State) {
    && r.members == s.members && r.policies == s.policies && r.lastLoss == s.lastLoss && s.now < r.now
  }

  /** Steps that leave policies, codes and tokens alone. */
  lemma SameRows(s: State, r: State)
    requires RowsOk(s) && RowsLag(s) && Extends(s, r) && SamePolicy(s, r) && r.codes == s.codes && r.tokens == s.tokens
    ensures RowsOk(r) && RowsLag(r)
  {
    RowsStayOk(s, r);
    forall j | j in r.tokens ensures TokenLag(r, j) {
      assert TokenLag(s, j);
    }
  }

  /** And flows. */
  lemma NothingNew(s: State, r: State)
    requires GrantsOk(s) && LagOk(s) && Extends(s, r) && SamePolicy(s, r)
    requires r.codes == s.codes && r.tokens == s.tokens && r.flows == s.flows
    ensures GrantsOk(r) && LagOk(r)
  {
    SameRows(s, r);
    FlowsStayOk(s, r);
    forall f | f in r.flows ensures FlowLag(r, r.flows[f]) {
      assert FlowLag(s, s.flows[f]);
    }
  }

  lemma SessionsEffect(s: State, op: SessionStore.Op)
    requires SessionStore.Agreement(SessionView(s))
    ensures var r := Apply(s, Sessions(op));
      && r == s.(now := s.now + 1, users := r.users, sessions := r.sessions, events := r.events)
      && Extends(s, r) && SessionStore.Agreement(SessionView(r)) && s.users.Keys <= r.users.Keys
  {
    SessionStore.ApplyAgrees(SessionView(s), op, s.now);
    SessionStore.ApplyKeepsOwners(SessionView(s), op, s.now);
  }

  lemma SessionsStep(s: State, op: SessionStore.Op)
    requires Inv(s)
    ensures Inv(Apply(s, Sessions(op)))
  {
    SessionsEffect(s, op);
    NothingNew(s, Apply(s, Sessions(op)));
  }

  /** Policy changes name no session and leave sessions and outbox in agreement. */
  lemma {:induction false} PairEventsNameNoSession(db: Access.Db, pairs: seq<Pair>, now: Time, id: Uuid)
    ensures var events := Access.RevokePairs(db, pairs, now).events;
      && SessionStore.Named(events, id) == SessionStore.Named(db.events, id)
      && (Numbered(db.events) ==> Numbered(events))
      && (forall e <- events :: e in db.events || e.centralSessionId.None?)
  {
    if |pairs| > 0 {
      var n := |pairs| - 1;
      PairEventsNameNoSession(db, pairs[..n], now, id);
      var mid := Access.RevokePairs(db, pairs[..n], now);
      SessionStore.NamedAppend(mid.events,
        BuildEvent(mid.events, AccessPolicyChanged, pairs[n].0, None, Some(pairs[n].1),
                   Access.ACCESS_POLICY_CHANGED, now), id);
    }
  }

  lemma PoliciesKeepAgreement(s: State, op: Access.Op)
    requires Inv(s)
    ensures var s' := Apply(s, Policies(op));
      SessionStore.Agreement(SessionView(s')) && Access.Valid(AccessView(s'))
  {
    var v := AccessView(s);
    var pairs := Access.Revoked(v, op);
    var s' := Apply(s, Policies(op));
    Access.ApplyIsRevokePairs(v, op, s.now);
    Access.RevokedIsLost(v, op, s.now, (0, 0));
    PairEventsNameNoSession(v, pairs, s.now, 0);
    forall id | id in s.sessions ensures SessionStore.Named(s'.events, id) == SessionStore.Named(s.events, id) {
      PairEventsNameNoSession(v, pairs, s.now, id);
    }
    var db := Access.Apply(v, op, s.now);
    assert db.members == s'.members && db.users == s.users.Keys;
  }

  lemma PoliciesExtend(s: State, op: Access.Op)
    requires Inv(s)
    ensures var r := Apply(s, Policies(op));
      && Extends(s, r) && r.tokens.Keys == s.tokens.Keys && r.codes == s.codes && r.flows == s.flows
  {
    Access.LossIsExact(AccessView(s), op, s.now);
  }

  lemma PoliciesKeepGrants(s: State, op: Access.Op)
    requires Inv(s)
    ensures GrantsOk(Apply(s, Policies(op)))
  {
    var r := Apply(s, Policies(op));
    PoliciesExtend(s, op);
    RowsStayOk(s, r);
    FlowsStayOk(s, r);
  }

  /** The bookkeeping of losses is true: a pair's last loss is moved to the present by
      exactly the transactions that take its last path. */
  lemma LossIsNoted(s: State, op: Access.Op, p: Pair)
    requires Access.Valid(AccessView(s))
    ensures var noted := LossesNoted(s, op);
      if Access.Loses(AccessView(s), Access.Apply(AccessView(s), op, s.now), p)
      then p in noted && noted[p] == s.now
      else (p in noted <==> p in s.lastLoss) && (p in noted ==> noted[p] == s.lastLoss[p])
  {
    Access.RevokedIsLost(AccessView(s), op, s.now, p);
  }

  lemma PathStep(s: State, op: Access.Op, p: Pair, since: Time)
    requires Inv(s) && since < s.now && PathOrLoss(s, p, since)
    ensures PathOrLoss(Apply(s, Policies(op)), p, since)
  {
    Access.RevokedIsLost(AccessView(s), op, s.now, p);
    var after := Access.Apply(AccessView(s), op, s.now);
    assert Access.Reaches(AccessView(s), p) <==> Access.HasPath(s.members, s.policies, p.0, p.1);
    assert Access.Reaches(after, p) <==> Access.HasPath(after.members, after.policies, p.0, p.1);
  }

  lemma PoliciesKeepTokenLag(s: State, op: Access.Op, j: Uuid)
    requires Inv(s) && j in s.tokens
    ensures j in Apply(s, Policies(op)).tokens && TokenLag(Apply(s, Policies(op)), j)
  {
    assert TokenOk(s, j) && TokenLag(s, j);
    Access.LossIsExact(AccessView(s), op, s.now);
    Access.RevokedIsLost(AccessView(s), op, s.now, (s.tokens[j].user, s.tokens[j].app));
  }

  lemma PoliciesKeepCodeLag(s: State, op: Access.Op, c: Uuid)
    requires Inv(s) && c in s.codes
    ensures PathOrLoss(Apply(s, Policies(op)), (s.codes[c].user, s.codes[c].app), s.codes[c].checkedAt)
  {
    assert CodeOk(s, c);
    PathStep(s, op, (s.codes[c].user, s.codes[c].app), s.codes[c].checkedAt);
  }

  lemma PoliciesKeepFlowLag(s: State, op: Access.Op, f: Uuid)
    requires Inv(s) && f in s.flows
    ensures FlowLag(Apply(s, Policies(op)), s.flows[f])
  {
    assert FlowOk(s, s.flows[f]) && FlowLag(s, s.flows[f]);
    if s.flows[f].Allowed? {
      PathStep(s, op, (s.flows[f].user, s.flows[f].app), s.flows[f].checkedAt);
    }
  }

  lemma PoliciesKeepLag(s: State, op: Access.Op)
    requires Inv(s)
    ensures LagOk(Apply(s, Policies(op)))
  {
    PoliciesExtend(s, op);
    forall c | c in s.codes
      ensures PathOrLoss(Apply(s, Policies(op)), (s.codes[c].user, s.codes[c].app), s.codes[c].checkedAt)
    {
      PoliciesKeepCodeLag(s, op, c);
    }
    forall f | f in s.flows ensures FlowLag(Apply(s, Policies(op)), s.flows[f]) {
      PoliciesKeepFlowLag(s, op, f);
    }
    forall j | j in s.tokens
      ensures j in Apply(s, Policies(op)).tokens && TokenLag(Apply(s, Policies(op)), j)
    {
      PoliciesKeepTokenLag(s, op, j);
    }
  }

  lemma PoliciesStep(s: State, op: Access.Op)
    requires Inv(s)
    ensures Inv(Apply(s, Policies(op)))
  {
    PoliciesKeepAgreement(s, op);
    PoliciesKeepGrants(s, op);
    PoliciesKeepLag(s, op);
  }

  /** Codes and tokens move only by IssueCode and by a Redeem that commits. */
  ghost predicate Commits(s: State, a: Action) {
    && a.Redeem? && a.flow in s.flows && s.flows[a.flow].UserChecked?
    && CanRedeem(s, s.flows[a.flow].claim, a.jti) && !a.insertFails
  }

  ghost predicate Issues(s: State, a: Action) {
    a.IssueCode? && a.flow in s.flows && s.flows[a.flow].Allowed? && a.code !in s.codes
  }

  /** A flow a step may leave behind: one that was there, or one whose claims
      hold now. */
  ghost predicate Earned(s: State, flow: Flow) {
    if flow.Allowed? then
      && flow.checkedAt == s.now && flow.app in s.apps && OwnedSession(s, flow.session, flow.user)
      && Access.HasPath(s.members, s.policies, flow.user, flow.app)
    else FlowOk(s, flow)
  }

  /** Any other step of a request touches nothing but its own flow. */
  ghost predicate FlowsOnly(s: State, r: State) {
    && r == s.(flows := r.flows)
    && (forall f <- r.flows :: (f in s.flows && r.flows[f] == s.flows[f]) || Earned(s, r.flows[f]))
  }

  lemma GateMoves(s: State, f: Uuid, passes: bool, next: Flow)
    requires passes ==> Earned(s, next)
    ensures FlowsOnly(s, Gate(s, f, passes, next))
  {
  }

  lemma ProgressMoves(s: State, a: Action, f: Uuid, flow: Flow)
    requires FlowOk(s, flow)
    requires a.Redeem? && flow.UserChecked? ==> !CanRedeem(s, flow.claim, a.jti) || a.insertFails
    ensures FlowsOnly(s, Progress(s, a, f, flow))
  {
    if a.CheckPolicy? && flow.SessionFound? {
      GateMoves(s, f, UserHasApplicationAccess(s, flow.user, flow.app),
                Allowed(flow.app, flow.user, flow.session, flow.redirectUri, flow.challenge, s.now));
    } else if a.CheckSession? && flow.CodeFound? {
      GateMoves(s, f, UsableSession(s, flow.claim.session), SessionChecked(flow.claim));
    } else {
      AnswerMoves(s, a, f, flow);
    }
  }

  lemma AnswerMoves(s: State, a: Action, f: Uuid, flow: Flow)
    requires FlowOk(s, flow)
    ensures FlowsOnly(s, Answer(s, a, f, flow))
  {
    if a.ReadMetadata? && flow.TokenHeld? {
      GateMoves(s, f, TokenMatches(s, flow.bearer), MetadataChecked(flow.bearer));
    } else if a.ReadSession? && flow.MetadataChecked? {
      var b := flow.bearer;
      GateMoves(s, f, UsableSession(s, b.session) && s.sessions[b.session].user == b.user, SessionLive(b));
    }
  }

  lemma DoMoves(s: State, a: Action)
    requires forall f <- s.flows :: FlowOk(s, s.flows[f])
    requires !a.Tick? && !a.RegisterApp? && !a.Sessions? && !a.Policies? && !Commits(s, a) && !Issues(s, a)
    ensures FlowsOnly(s, Do(s, a))
  {
    if !(a.StartAuthorize? || a.RequestToken? || a.Abandon? || a.IssueCode?) {
      if a.flow in s.flows {
        ProgressMoves(s, a, a.flow, s.flows[a.flow]);
      }
    }
  }

  lemma FlowsOnlyLater(s: State, r: State, flow: Flow)
    requires Extends(s, r) && SamePolicy(s, r) && Earned(s, flow)
    ensures FlowOk(r, flow) && FlowLag(r, flow)
  {
    if !flow.Allowed? {
      FlowStaysOk(s, r, flow);
    }
  }

  /** The clock moves, applications may be registered, flows may change. */
  ghost predicate QuietMove(s: State, r: State) {
    r == s.(now := r.now, apps := r.apps, flows := r.flows) && s.apps <= r.apps && s.now < r.now
  }

  lemma FlowStep(s: State, r: State)
    requires GrantsOk(s) && LagOk(s) && QuietMove(s, r)
    requires forall f <- r.flows :: (f in s.flows && r.flows[f] == s.flows[f]) || Earned(s, r.flows[f])
    ensures GrantsOk(r) && LagOk(r)
  {
    SameRows(s, r);
    forall f | f in r.flows ensures FlowOk(r, r.flows[f]) && FlowLag(r, r.flows[f]) {
      if Earned(s, r.flows[f]) {
        FlowsOnlyLater(s, r, r.flows[f]);
      } else {
        FlowStaysOk(s, r, s.flows[f]);
        assert FlowLag(s, s.flows[f]);
      }
    }
  }

  lemma ClockEffect(s: State, a: Action)
    requires a.Tick? || a.RegisterApp?
    ensures QuietMove(s, Apply(s, a)) && Apply(s, a).flows == s.flows
    ensures NIL !in s.apps ==> NIL !in Apply(s, a).apps
  {
  }

  lemma FlowEffect(s: State, a: Action)
    requires forall f <- s.flows :: FlowOk(s, s.flows[f])
    requires !a.Tick? && !a.RegisterApp? && !a.Sessions? && !a.Policies? && !Commits(s, a) && !Issues(s, a)
    ensures var r := Apply(s, a);
      && QuietMove(s, r) && r.apps == s.apps
      && (forall f <- r.flows :: (f in s.flows && r.flows[f] == s.flows[f]) || Earned(s, r.flows[f]))
  {
    DoMoves(s, a);
  }

  /** What a committed redemption makes of the state. */
  ghost predicate Redeemed(s: State, r: State, f: Uuid, jti: Uuid, ttl: Time) {
    && f in s.flows && s.flows[f].UserChecked? && CanRedeem(s, s.flows[f].claim, jti)
    && var c := s.flows[f].claim;
       r == RedeemTx(s, c, jti, ttl).(flows := s.flows[f := TokenHeld(Bearer(c.app, jti, c.user, c.session))],
                                      now := s.now + 1)
  }

  lemma RedeemEffect(s: State, a: Action)
    requires Commits(s, a)
    ensures Redeemed(s, Apply(s, a), a.flow, a.jti, a.ttl) && Extends(s, Apply(s, a))
  {
  }

  /** No token row came from the code before. */
  lemma RedeemIsFirst(s: State, f: Uuid, j: Uuid)
    requires GrantsOk(s) && f in s.flows && s.flows[f].UserChecked? && j in s.tokens
    requires s.flows[f].claim.code in s.codes && s.codes[s.flows[f].claim.code].usedAt.None?
    ensures s.tokens[j].origin.code != s.flows[f].claim.code
  {
    assert TokenOk(s, j);
  }

  lemma RedeemTokens(s: State, r: State, f: Uuid, jti: Uuid, ttl: Time)
    requires GrantsOk(s) && Redeemed(s, r, f, jti, ttl) && Extends(s, r)
    ensures (forall j <- r.tokens :: TokenOk(r, j)) && OneTokenPerCode(r)
  {
    var c := s.flows[f].claim;
    RowsStayOk(s, r);
    assert FlowOk(s, s.flows[f]) && CodeOk(s, c.code);
    forall j | j in s.tokens ensures s.tokens[j].origin.code != c.code {
      RedeemIsFirst(s, f, j);
    }
    assert TokenOk(r, jti);
  }

  lemma RedeemCodes(s: State, r: State, f: Uuid, jti: Uuid, ttl: Time)
    requires GrantsOk(s) && Redeemed(s, r, f, jti, ttl) && Extends(s, r)
    ensures forall c <- r.codes :: CodeOk(r, c)
  {
    var c := s.flows[f].claim;
    RowsStayOk(s, r);
    assert CodeOk(s, c.code);
    assert r.tokens[jti].origin.code == c.code;
    assert CodeOk(r, c.code);
  }

  lemma RedeemGrants(s: State, r: State, f: Uuid, jti: Uuid, ttl: Time)
    requires GrantsOk(s) && Redeemed(s, r, f, jti, ttl) && Extends(s, r)
    ensures GrantsOk(r)
  {
    RedeemTokens(s, r, f, jti, ttl);
    RedeemCodes(s, r, f, jti, ttl);
    FlowsStayOk(s, r);
    assert FlowOk(r, r.flows[f]);
  }

  lemma RedeemLag(s: State, r: State, f: Uuid, jti: Uuid, ttl: Time)
    requires GrantsOk(s) && LagOk(s) && Redeemed(s, r, f, jti, ttl)
    ensures LagOk(r)
  {
    var c := s.flows[f].claim;
    assert FlowOk(s, s.flows[f]);
    assert PathOrLoss(s, (s.codes[c.code].user, s.codes[c.code].app), s.codes[c.code].checkedAt);
    forall j | j in r.tokens ensures TokenLag(r, j) {
      if j != jti {
        assert TokenOk(s, j) && TokenLag(s, j);
      }
    }
  }

  /** What an issued code makes of the state. */
  ghost predicate Issued(s: State, r: State, f: Uuid, code: Uuid, ttl: Time) {
    && f in s.flows && s.flows[f].Allowed? && code !in s.codes
    && var x := s.flows[f];
       r == s.(flows := s.flows - {f}, now := s.now + 1,
               codes := s.codes[code := AuthCode(x.user, x.app, x.session, x.redirectUri, x.challenge,
                                                 s.now + ttl, None, x.checkedAt)])
  }

  lemma IssueEffect(s: State, a: Action)
    requires Issues(s, a)
    ensures Issued(s, Apply(s, a), a.flow, a.code, a.ttl) && Extends(s, Apply(s, a))
  {
  }

  lemma IssueGrants(s: State, r: State, f: Uuid, code: Uuid, ttl: Time)
    requires GrantsOk(s) && Issued(s, r, f, code, ttl) && Extends(s, r)
    ensures GrantsOk(r)
  {
    assert FlowOk(s, s.flows[f]);
    RowsStayOk(s, r);
    FlowsStayOk(s, r);
    assert CodeOk(r, code);
  }

  lemma IssueLag(s: State, r: State, f: Uuid, code: Uuid, ttl: Time)
    requires GrantsOk(s) && LagOk(s) && Issued(s, r, f, code, ttl) && Extends(s, r)
    ensures LagOk(r)
  {
    assert FlowLag(s, s.flows[f]);
    forall j | j in r.tokens ensures TokenLag(r, j) {
      assert TokenOk(s, j) && TokenLag(s, j);
    }
    forall x | x in r.flows ensures FlowLag(r, r.flows[x]) {
      assert FlowLag(s, s.flows[x]);
    }
  }

  /** The steps that leave sessions and policies alone. */
  lemma RequestStep(s: State, a: Action)
    requires Inv(s) && !a.Sessions? && !a.Policies?
    ensures var r := Apply(s, a);
      GrantsOk(r) && LagOk(r) && SessionView(r) == SessionView(s) && r.members == s.members && r.now > 0
  {
    var r := Apply(s, a);
    if Commits(s, a) {
      RedeemEffect(s, a);
      RedeemGrants(s, r, a.flow, a.jti, a.ttl);
      RedeemLag(s, r, a.flow, a.jti, a.ttl);
    } else if Issues(s, a) {
      IssueEffect(s, a);
      IssueGrants(s, r, a.flow, a.code, a.ttl);
      IssueLag(s, r, a.flow, a.code, a.ttl);
    } else if a.Tick? || a.RegisterApp? {
      ClockEffect(s, a);
      FlowStep(s, r);
    } else {
      FlowEffect(s, a);
      FlowStep(s, r);
    }
  }

  lemma StepKeepsInv(s: State, a: Action)
    requires Inv(s)
    ensures Inv(Apply(s, a))
  {
    if a.Sessions? {
      SessionsStep(s, a.sessionOp);
    } else if a.Policies? {
      PoliciesStep(s, a.policyOp);
    } else {
      RequestStep(s, a);
    }
  }

  lemma {:induction false} RunKeepsInv(s: State, actions: seq<Action>)
    requires Init(s)
    ensures Inv(Run(s, actions))
  {
    if |actions| > 0 {
      RunKeepsInv(s, actions[..|actions| - 1]);
      StepKeepsInv(Run(s, actions[..|actions| - 1]), actions[|actions| - 1]);
    }
  }

  // ----- callbacks that have seen the session alive -----

  predicate Past(flow: Flow, app: Uuid, session: Uuid) {
    (flow.SessionLive? || flow.Profile?) && flow.bearer.app == app && flow.bearer.session == session
  }

  /** Nobody passes that check anew in going from `s` to `r`, unless the session
      is usable. */
  ghost predicate PassesOnlyAlive(s: State, r: State, app: Uuid, session: Uuid) {
    forall f <- r.flows :: Past(r.flows[f], app, session) ==>
      (f in s.flows && Past(s.flows[f], app, session)) || UsableSession(s, session)
  }

  lemma GatePasses(s: State, f: Uuid, passes: bool, next: Flow, app: Uuid, session: Uuid)
    requires passes && Past(next, app, session) ==>
      (f in s.flows && Past(s.flows[f], app, session)) || UsableSession(s, session)
    ensures PassesOnlyAlive(s, Gate(s, f, passes, next), app, session)
  {
  }

  lemma AnswerPasses(s: State, a: Action, f: Uuid, app: Uuid, session: Uuid)
    requires f in s.flows
    ensures PassesOnlyAlive(s, Answer(s, a, f, s.flows[f]), app, session)
  {
    var flow := s.flows[f];
    if a.ReadMetadata? && flow.TokenHeld? {
      GatePasses(s, f, TokenMatches(s, flow.bearer), MetadataChecked(flow.bearer), app, session);
    } else if a.ReadSession? && flow.MetadataChecked? {
      var b := flow.bearer;
      GatePasses(s, f, UsableSession(s, b.session) && s.sessions[b.session].user == b.user,
                 SessionLive(b), app, session);
    } else if a.ReadUser? && flow.SessionLive? {
      GatePasses(s, f, IsActive(s, flow.bearer.user), Profile(flow.bearer), app, session);
    }
  }

  lemma ProgressPasses(s: State, a: Action, f: Uuid, app: Uuid, session: Uuid)
    requires f in s.flows
    ensures PassesOnlyAlive(s, Progress(s, a, f, s.flows[f]), app, session)
  {
    var flow := s.flows[f];
    if a.CheckPolicy? && flow.SessionFound? {
      GatePasses(s, f, UserHasApplicationAccess(s, flow.user, flow.app),
                 Allowed(flow.app, flow.user, flow.session, flow.redirectUri, flow.challenge, s.now), app, session);
    } else if a.CheckSession? && flow.CodeFound? {
      GatePasses(s, f, UsableSession(s, flow.claim.session), SessionChecked(flow.claim), app, session);
    } else {
      AnswerPasses(s, a, f, app, session);
    }
  }

  lemma StepPasses(s: State, a: Action, app: Uuid, session: Uuid)
    ensures PassesOnlyAlive(s, Apply(s, a), app, session)
  {
    if !a.Tick? && !a.RegisterApp? && !a.Sessions? && !a.Policies?
       && !(a.StartAuthorize? || a.RequestToken? || a.Abandon? || a.IssueCode?) && a.flow in s.flows {
      ProgressPasses(s, a, a.flow, app, session);
    }
  }

  lemma Reactivate(s: State, user: Uuid)
    requires user in s.users
    ensures var r := Apply(s, Sessions(SessionStore.SetStatus(user, SessionStore.ActiveUser, [], true)));
      r.flows == s.flows && IsActive(r, user)
  {
  }

  lemma ReadActive(s: State, f: Uuid)
    requires f in s.flows && s.flows[f].SessionLive? && IsActive(s, s.flows[f].bearer.user)
    ensures Apply(s, ReadUser(f)).flows == s.flows[f := Profile(s.flows[f].bearer)]
  {
  }

  // ----- results -----

  ghost function TokensFrom(s: State, code: Uuid): set<Uuid> {
    set j | j in s.tokens && s.tokens[j].origin.code == code
  }

  lemma SingleUse(r: State, c: Uuid)
    requires GrantsOk(r) && c in r.codes
    ensures |TokensFrom(r, c)| == if r.codes[c].usedAt.Some? then 1 else 0
  {
    assert CodeOk(r, c);
    if r.codes[c].usedAt.Some? {
      var j :| j in r.tokens && r.tokens[j].origin.code == c;
      assert TokensFrom(r, c) == {j};
    } else {
      forall j | j in r.tokens ensures r.tokens[j].origin.code != c {
        assert TokenOk(r, j);
      }
      assert TokensFrom(r, c) == {};
    }
  }

  /** Single use, for every interleaving of token requests and every failed
      insert: a code is marked used exactly when exactly one token row came from
      it, and that row carries the code's user, application and session and was
      requested with the bound redirect URI and a matching verifier
      (section 4.1.2 of RFC 6749, section 4.6 of RFC 7636). */
  lemma CodesAreSingleUse(s: State, actions: seq<Action>)
    requires Init(s)
    ensures var r := Run(s, actions);
      && (forall c <- r.codes :: |TokensFrom(r, c)| == if r.codes[c].usedAt.Some? then 1 else 0)
      && (forall j <- r.tokens :: TokenOk(r, j))
  {
    RunKeepsInv(s, actions);
    var r := Run(s, actions);
    forall c | c in r.codes ensures |TokensFrom(r, c)| == if r.codes[c].usedAt.Some? then 1 else 0 {
      SingleUse(r, c);
    }
  }

  /** In every run, an unrevoked token whose pair has no allow path was redeemed
      after the pair last lost its path, from a code whose policy check came
      before that loss. */
  lemma LaggingTokens(s: State, actions: seq<Action>, j: Uuid)
    requires Init(s)
    requires var r := Run(s, actions); j in r.tokens && r.tokens[j].revokedAt.None?
    ensures var r := Run(s, actions); var t := r.tokens[j];
      && t.origin.code in r.codes
      && (!Access.HasPath(r.members, r.policies, t.user, t.app) ==> TokenLags(r, t, r.codes[t.origin.code].checkedAt))
  {
    RunKeepsInv(s, actions);
    assert TokenOk(Run(s, actions), j) && TokenLag(Run(s, actions), j);
  }

  // ----- tokens without a path -----

  ghost predicate TokenBacked(s: State, j: Uuid)
    requires j in s.tokens
  {
    s.tokens[j].revokedAt.None? ==> Access.HasPath(s.members, s.policies, s.tokens[j].user, s.tokens[j].app)
  }

  ghost predicate Backed(s: State) {
    forall j <- s.tokens :: TokenBacked(s, j)
  }

  ghost predicate RedeemsUnderPath(s: State, a: Action) {
    Commits(s, a) ==> Access.HasPath(s.members, s.policies, s.flows[a.flow].claim.user, s.flows[a.flow].claim.app)
  }

  lemma PoliciesKeepTokenBacked(s: State, op: Access.Op, j: Uuid)
    requires Inv(s) && j in s.tokens && TokenBacked(s, j)
    ensures j in Apply(s, Policies(op)).tokens && TokenBacked(Apply(s, Policies(op)), j)
  {
    Access.LossIsExact(AccessView(s), op, s.now);
    Access.RevokedIsLost(AccessView(s), op, s.now, (s.tokens[j].user, s.tokens[j].app));
  }

  lemma PoliciesKeepBacked(s: State, op: Access.Op)
    requires Inv(s) && Backed(s)
    ensures Backed(Apply(s, Policies(op)))
  {
    PoliciesExtend(s, op);
    forall j | j in s.tokens
      ensures j in Apply(s, Policies(op)).tokens && TokenBacked(Apply(s, Policies(op)), j)
    {
      PoliciesKeepTokenBacked(s, op, j);
    }
  }

  lemma RedeemBacked(s: State, r: State, f: Uuid, jti: Uuid, ttl: Time)
    requires Backed(s) && Redeemed(s, r, f, jti, ttl)
    ensures Backed(r) <==> Access.HasPath(s.members, s.policies, s.flows[f].claim.user, s.flows[f].claim.app)
  {
    forall j | j in s.tokens ensures j in r.tokens && TokenBacked(r, j) {
      assert TokenBacked(s, j);
    }
    assert TokenBacked(r, jti) <==> Access.HasPath(s.members, s.policies, s.flows[f].claim.user, s.flows[f].claim.app);
  }

  lemma SameTokens(s: State, a: Action)
    requires Inv(s) && !a.Policies? && !Commits(s, a)
    ensures var r := Apply(s, a); r.tokens == s.tokens && r.members == s.members && r.policies == s.policies
  {
    if a.Sessions? {
      SessionsEffect(s, a.sessionOp);
    } else if Issues(s, a) {
      IssueEffect(s, a);
    } else if a.Tick? || a.RegisterApp? {
      ClockEffect(s, a);
    } else {
      FlowEffect(s, a);
    }
  }

  lemma StaysBacked(s: State, r: State)
    requires Backed(s) && r.tokens == s.tokens && r.members == s.members && r.policies == s.policies
    ensures Backed(r)
  {
    forall j | j in r.tokens ensures TokenBacked(r, j) {
      assert TokenBacked(s, j);
    }
  }

  lemma StepBacked(s: State, a: Action)
    requires Inv(s) && Backed(s)
    ensures Backed(Apply(s, a)) <==> RedeemsUnderPath(s, a)
  {
    if a.Policies? {
      PoliciesKeepBacked(s, a.policyOp);
    } else if Commits(s, a) {
      RedeemEffect(s, a);
      RedeemBacked(s, Apply(s, a), a.flow, a.jti, a.ttl);
    } else {
      SameTokens(s, a);
      StaysBacked(s, Apply(s, a));
    }
  }

  /** After `k` steps every unrevoked token has an allow path. */
  ghost predicate BackedAfter(s: State, actions: seq<Action>, k: nat)
    requires k <= |actions|
  {
    Backed(Run(s, actions[..k]))
  }

  /** Step `k` redeems nothing for a pair without an allow path. */
  ghost predicate RedeemsUnderPathAt(s: State, actions: seq<Action>, k: nat)
    requires k < |actions|
  {
    RedeemsUnderPath(Run(s, actions[..k]), actions[k])
  }

  lemma BackedStepAt(s: State, actions: seq<Action>, k: nat)
    requires Init(s) && k < |actions| && BackedAfter(s, actions, k)
    ensures BackedAfter(s, actions, k + 1) <==> RedeemsUnderPathAt(s, actions, k)
  {
    RunKeepsInv(s, actions[..k]);
    StepBacked(Run(s, actions[..k]), actions[k]);
    assert actions[..k + 1][..k] == actions[..k];
  }

  lemma {:induction false} Chain(holds: nat -> bool, allowed: nat -> bool, n: nat)
    requires holds(0) && forall k: nat :: k < n && holds(k) ==> (holds(k + 1) <==> allowed(k))
    ensures (forall k: nat :: k <= n ==> holds(k)) <==> (forall k: nat :: k < n ==> allowed(k))
  {
    if n > 0 {
      Chain(holds, allowed, n - 1);
      var last: nat := n - 1;
      assert holds(last) ==> (holds(last + 1) <==> allowed(last));
      assert (forall k: nat :: k <= n ==> holds(k)) <==> (forall k: nat :: k <= last ==> holds(k)) && holds(n);
      assert (forall k: nat :: k < n ==> allowed(k)) <==> (forall k: nat :: k < last ==> allowed(k)) && allowed(last);
    }
  }

  /** /token does not look at group policy again. Exactly what that costs: every
      unrevoked token has an allow path throughout a run if and only if every
      redemption in it happened while the pair still had one. */
  lemma BackedIff(s: State, actions: seq<Action>)
    requires Init(s)
    ensures (forall k: nat :: k <= |actions| ==> BackedAfter(s, actions, k))
       <==> (forall k: nat :: k < |actions| ==> RedeemsUnderPathAt(s, actions, k))
  {
    var n := |actions|;
    var holds := (k: nat) => k <= n && BackedAfter(s, actions, k);
    var allowed := (k: nat) => k < n && RedeemsUnderPathAt(s, actions, k);
    assert holds(0) by {
      assert actions[..0] == [];
    }
    forall k: nat | k < n && holds(k) ensures holds(k + 1) <==> allowed(k) {
      BackedStepAt(s, actions, k);
    }
    Chain(holds, allowed, n);
    assert forall k: nat :: k <= n ==> (holds(k) <==> BackedAfter(s, actions, k));
    assert forall k: nat :: k < n ==> (allowed(k) <==> RedeemsUnderPathAt(s, actions, k));
  }

  lemma RunSnoc(s: State, actions: seq<Action>, a: Action)
    ensures Run(s, actions + [a]) == Apply(Run(s, actions), a)
  {
    assert (actions + [a])[..|actions|] == actions;
  }

  /** User 1 is signed in for a while yet and application 1 is registered. */
  ghost predicate SignedIn(s: State, left: nat) {
    && 1 in s.apps && IsActive(s, 1) && UsableSession(s, 1) && OwnedSession(s, 1, 1)
    && s.now + left < s.sessions[1].expiresAt
  }

  ghost predicate CodeWaits(s: State, left: nat) {
    && 1 in s.codes && s.codes[1].usedAt.None? && s.now + left < s.codes[1].expiresAt
    && s.codes[1].user == s.codes[1].app == s.codes[1].session == 1
    && s.codes[1].redirectUri == "" && s.codes[1].challenge == s.pkce("")
  }

  ghost predicate Opened(s: State) {
    s.members == {(1, 1)} && s.policies == {(1, 1)} && s.tokens == map[]
  }

  lemma Prepare(s: State) returns (actions: seq<Action>)
    requires Init(s)
    ensures var r := Run(s, actions);
      SignedIn(r, 50) && Opened(r) && r.codes == map[] && r.flows == map[]
  {
    actions := [];
    RunSnoc(s, actions, RegisterApp(1));
    actions := actions + [RegisterApp(1)];
    RunSnoc(s, actions, Sessions(SessionStore.CreateUser(1)));
    actions := actions + [Sessions(SessionStore.CreateUser(1))];
    assert Run(s, actions).users == map[1 := SessionStore.ActiveUser] && Run(s, actions).members == {};
    RunSnoc(s, actions, Sessions(SessionStore.Login(1, 1, 100)));
    actions := actions + [Sessions(SessionStore.Login(1, 1, 100))];
    RunSnoc(s, actions, Policies(Access.AddUser(1, 1, true)));
    actions := actions + [Policies(Access.AddUser(1, 1, true))];
    assert Run(s, actions).members == {(1, 1)} && Run(s, actions).policies == {};
    RunSnoc(s, actions, Policies(Access.SetPolicy(1, 1, true)));
    actions := actions + [Policies(Access.SetPolicy(1, 1, true))];
  }

  lemma AuthorizeSteps(s: State)
    requires SignedIn(s, 50) && Opened(s) && s.codes == map[] && s.flows == map[]
    ensures var r := Apply(Apply(s, StartAuthorize(1, 1, 1, "", s.pkce(""))), CheckPolicy(1));
      r == s.(now := s.now + 2, flows := map[1 := Allowed(1, 1, 1, "", s.pkce(""), s.now + 1)])
  {
    var r := Apply(s, StartAuthorize(1, 1, 1, "", s.pkce("")));
    assert r == s.(now := s.now + 1, flows := map[1 := SessionFound(1, 1, 1, "", s.pkce(""))]);
    assert (1, 1) in s.members;
    assert Access.HasPath(s.members, s.policies, 1, 1);
  }

  lemma Authorize(s: State, before: seq<Action>) returns (actions: seq<Action>)
    requires var p := Run(s, before);
      SignedIn(p, 50) && Opened(p) && p.codes == map[] && p.flows == map[]
    ensures var r := Run(s, actions);
      SignedIn(r, 40) && Opened(r) && CodeWaits(r, 40) && r.flows == map[]
  {
    var p := Run(s, before);
    AuthorizeSteps(p);
    var start := StartAuthorize(1, 1, 1, "", p.pkce(""));
    RunSnoc(s, before, start);
    RunSnoc(s, before + [start], CheckPolicy(1));
    RunSnoc(s, before + [start] + [CheckPolicy(1)], IssueCode(1, 1, 100));
    actions := before + [start] + [CheckPolicy(1)] + [IssueCode(1, 1, 100)];
  }

  /** The event of the loss of user 1's path to application 1. */
  function LossEvent(s: State): Payload {
    BuildEvent(s.events, AccessPolicyChanged, 1, None, Some(1), Access.ACCESS_POLICY_CHANGED, s.now)
  }

  lemma DropPolicy(s: State, before: seq<Action>) returns (actions: seq<Action>)
    requires var p := Run(s, before);
      SignedIn(p, 40) && Opened(p) && CodeWaits(p, 40) && p.flows == map[]
    ensures var r := Run(s, actions);
      && SignedIn(r, 30) && CodeWaits(r, 30) && r.flows == map[] && r.policies == {} && r.tokens == map[]
      && r.events == Run(s, before).events + [LossEvent(Run(s, before))]
  {
    var p := Run(s, before);
    var op := Access.DeletePolicy(1, 1, [(1, 1)], true);
    actions := before + [Policies(op)];
    RunSnoc(s, before, Policies(op));
    var after := AccessView(p).(policies := p.policies - {(1, 1)});
    assert after.policies == {};
    assert Lists([(1, 1)], Access.LosersAfterDelete(after, 1, 1));
    assert [(1, 1)][..0] == [];
    assert Access.RevokePairs(after, [(1, 1)], p.now) == Access.RevokePair(after, (1, 1), p.now);
  }

  lemma TokenSteps(s: State)
    requires SignedIn(s, 30) && CodeWaits(s, 30) && s.flows == map[]
    ensures var r := Apply(Apply(s, RequestToken(1, 1, 1, "", "")), CheckSession(1));
      r == s.(now := s.now + 2, flows := map[1 := SessionChecked(Claim(1, 1, 1, 1, "", ""))])
  {
    var r := Apply(s, RequestToken(1, 1, 1, "", ""));
    assert r == s.(now := s.now + 1, flows := map[1 := CodeFound(Claim(1, 1, 1, 1, "", ""))]);
  }

  lemma RedeemSteps(s: State)
    requires SignedIn(s, 20) && CodeWaits(s, 20) && s.tokens == map[]
    requires s.flows == map[1 := SessionChecked(Claim(1, 1, 1, 1, "", ""))]
    ensures var r := Apply(Apply(s, CheckUser(1)), Redeem(1, 1, 100, false));
      && r == s.(now := s.now + 2, codes := r.codes, tokens := r.tokens,
                 flows := map[1 := TokenHeld(Bearer(1, 1, 1, 1))])
      && r.tokens.Keys == {1} && TokenMatches(r, Bearer(1, 1, 1, 1))
  {
    var r := Apply(s, CheckUser(1));
    assert r == s.(now := s.now + 1, flows := map[1 := UserChecked(Claim(1, 1, 1, 1, "", ""))]);
    RedeemEffect(r, Redeem(1, 1, 100, false));
    assert r.flows[1 := TokenHeld(Bearer(1, 1, 1, 1))] == map[1 := TokenHeld(Bearer(1, 1, 1, 1))];
  }

  lemma RequestAndRedeem(s: State, before: seq<Action>) returns (actions: seq<Action>)
    requires var p := Run(s, before);
      SignedIn(p, 30) && CodeWaits(p, 30) && p.flows == map[] && p.policies == {} && p.tokens == map[]
    ensures var r := Run(s, actions); 1 in r.tokens && !TokenBacked(r, 1)
  {
    var p := Run(s, before);
    TokenSteps(p);
    var a1 := before + [RequestToken(1, 1, 1, "", "")];
    RunSnoc(s, before, RequestToken(1, 1, 1, "", ""));
    var a2 := a1 + [CheckSession(1)];
    RunSnoc(s, a1, CheckSession(1));
    RedeemSteps(Run(s, a2));
    var a3 := a2 + [CheckUser(1)];
    RunSnoc(s, a2, CheckUser(1));
    actions := a3 + [Redeem(1, 1, 100, false)];
    RunSnoc(s, a3, Redeem(1, 1, 100, false));
  }

  /** And redemption without a path does happen: the policy is deleted between
      the authorization check and the token request. */
  lemma LaggingTokenExists(s: State)
    requires Init(s)
    ensures exists actions, j :: j in Run(s, actions).tokens && !TokenBacked(Run(s, actions), j)
  {
    var a := Prepare(s);
    a := Authorize(s, a);
    a := DropPolicy(s, a);
    a := RequestAndRedeem(s, a);
  }
}
