/** The request handlers as the programs they are: /authorize, /token, /userinfo
    and an application's login callback, each run without interruption. On the
    database each is a run of the steps `AuthServer` interleaves, made in one
    instant; the checks of the request itself come on top. */
module Handlers {
  import opened Domain
  import Access
  import AppStore
  import AuthServer
  import SessionStore

  type Claim = AuthServer.Claim
  type Bearer = AuthServer.Bearer

  datatype Error = NoError | NotFound | Conflict

  /** The query of /authorize; a missing or repeated parameter reads as "". */
  datatype AuthorizeRequest = AuthorizeRequest(
    responseType: string, app: Uuid, redirectUri: string, state: string, challenge: string, challengeMethod: string)

  /** The form of /token. `authenticated` is the outcome of client authentication. */
  datatype TokenRequest = TokenRequest(
    grantType: string, app: Uuid, authenticated: bool, code: Uuid, redirectUri: string, verifier: string)

  function ClaimFor(s: AuthServer.State, r: TokenRequest): Claim
    requires r.code in s.codes
  {
    AuthServer.Claim(r.app, r.code, s.codes[r.code].user, s.codes[r.code].session, r.redirectUri, r.verifier)
  }

  /** Everything /token demands of the database before a code is redeemed. */
  predicate MayRedeem(s: AuthServer.State, r: TokenRequest) {
    && r.code in s.codes
    && var c := ClaimFor(s, r);
       && AuthServer.CodeMatches(s, c) && AuthServer.UsableSession(s, c.session)
       && AuthServer.IsActive(s, c.user) && s.sessions[c.session].user == c.user
  }

  /** Everything /userinfo demands of the database for the token shown. */
  predicate MayRead(s: AuthServer.State, b: Bearer) {
    && AuthServer.TokenMatches(s, b) && AuthServer.UsableSession(s, b.session)
    && s.sessions[b.session].user == b.user && AuthServer.IsActive(s, b.user)
  }

  // ----- requests as runs of steps -----

  /** Steps made in one instant. */
  ghost function AtOnce(s: AuthServer.State, actions: seq<AuthServer.Action>): AuthServer.State {
    if |actions| == 0 then s else AuthServer.Do(AtOnce(s, actions[..|actions| - 1]), actions[|actions| - 1])
  }

  lemma AtOnceSnoc(s: AuthServer.State, actions: seq<AuthServer.Action>, a: AuthServer.Action)
    ensures AtOnce(s, actions + [a]) == AuthServer.Do(AtOnce(s, actions), a)
  {
    assert (actions + [a])[..|actions|] == actions;
  }

  /** Two steps through the states `x` and `y`. */
  lemma AtOnceTwo(s: AuthServer.State, a: AuthServer.Action, b: AuthServer.Action,
                  x: AuthServer.State, y: AuthServer.State)
    requires AuthServer.Do(s, a) == x && AuthServer.Do(x, b) == y
    ensures AtOnce(s, [a, b]) == y
  {
    assert [a, b][..1] == [a] && [a][..0] == [];
    assert AtOnce(s, [a]) == AuthServer.Do(s, a);
  }

  /** `s` with one request in flight. */
  function With(s: AuthServer.State, flow: AuthServer.Flow): AuthServer.State {
    s.(flows := map[0 := flow])
  }

  lemma GateWith(s: AuthServer.State, flow: AuthServer.Flow, passes: bool, next: AuthServer.Flow)
    requires s.flows == map[]
    ensures AuthServer.Gate(With(s, flow), 0, passes, next) == if passes then With(s, next) else s
  {
    assert map[0 := flow] - {0} == map[] && map[0 := flow][0 := next] == map[0 := next];
  }

  function AuthorizeSteps(r: AuthorizeRequest, session: Uuid, code: Uuid, ttl: Time, insertFails: bool)
    : seq<AuthServer.Action>
  {
    var checks := [AuthServer.StartAuthorize(0, r.app, session, r.redirectUri, r.challenge), AuthServer.CheckPolicy(0)];
    if insertFails then checks else checks + [AuthServer.IssueCode(0, code, ttl)]
  }

  /** Everything /authorize demands of the database. */
  predicate MayAuthorize(s: AuthServer.State, app: Uuid, session: Uuid) {
    && app in s.apps && AuthServer.UsableSession(s, session)
    && AuthServer.UserHasApplicationAccess(s, s.sessions[session].user, app)
  }

  function CodeFor(s: AuthServer.State, r: AuthorizeRequest, session: Uuid, ttl: Time): AuthServer.AuthCode
    requires session in s.sessions
  {
    AuthServer.AuthCode(s.sessions[session].user, r.app, session, r.redirectUri, r.challenge, s.now + ttl, None, s.now)
  }

  function Authorized(s: AuthServer.State, r: AuthorizeRequest, session: Uuid, code: Uuid, ttl: Time, insertFails: bool)
    : AuthServer.State
  {
    if MayAuthorize(s, r.app, session) && code !in s.codes && !insertFails
    then s.(codes := s.codes[code := CodeFor(s, r, session, ttl)]) else s
  }

  function AllowedFor(s: AuthServer.State, r: AuthorizeRequest, session: Uuid): AuthServer.Flow
    requires session in s.sessions
  {
    AuthServer.Allowed(r.app, s.sessions[session].user, session, r.redirectUri, r.challenge, s.now)
  }

  lemma AuthorizeChecks(s: AuthServer.State, r: AuthorizeRequest, session: Uuid)
    requires s.flows == map[]
    ensures AtOnce(s, [AuthServer.StartAuthorize(0, r.app, session, r.redirectUri, r.challenge),
                       AuthServer.CheckPolicy(0)])
         == if MayAuthorize(s, r.app, session) then With(s, AllowedFor(s, r, session)) else s
  {
    var start := AuthServer.StartAuthorize(0, r.app, session, r.redirectUri, r.challenge);
    if r.app in s.apps && AuthServer.UsableSession(s, session) {
      var user := s.sessions[session].user;
      var found := AuthServer.SessionFound(r.app, user, session, r.redirectUri, r.challenge);
      GateWith(s, found, AuthServer.UserHasApplicationAccess(s, user, r.app), AllowedFor(s, r, session));
      AtOnceTwo(s, start, AuthServer.CheckPolicy(0), With(s, found),
                if MayAuthorize(s, r.app, session) then With(s, AllowedFor(s, r, session)) else s);
    } else {
      AtOnceTwo(s, start, AuthServer.CheckPolicy(0), s, s);
    }
  }

  lemma AuthorizeEnds(s: AuthServer.State, r: AuthorizeRequest, session: Uuid, code: Uuid, ttl: Time)
    requires s.flows == map[] && session in s.sessions
    ensures AuthServer.Drop(AuthServer.Do(With(s, AllowedFor(s, r, session)), AuthServer.IssueCode(0, code, ttl)), 0)
         == if code in s.codes then s else s.(codes := s.codes[code := CodeFor(s, r, session, ttl)])
    ensures AuthServer.Drop(With(s, AllowedFor(s, r, session)), 0) == s
  {
    assert map[0 := AllowedFor(s, r, session)] - {0} == map[];
  }

  lemma NothingStarted(s: AuthServer.State, code: Uuid, ttl: Time)
    requires s.flows == map[]
    ensures AuthServer.Drop(AuthServer.Do(s, AuthServer.IssueCode(0, code, ttl)), 0) == AuthServer.Drop(s, 0) == s
  {
  }

  /** The steps of /authorize, made at once, and what they leave in the database. */
  lemma AuthorizeRun(s: AuthServer.State, r: AuthorizeRequest, session: Uuid, code: Uuid, ttl: Time, insertFails: bool)
    requires s.flows == map[]
    ensures AuthServer.Drop(AtOnce(s, AuthorizeSteps(r, session, code, ttl, insertFails)), 0)
         == Authorized(s, r, session, code, ttl, insertFails)
  {
    AuthorizeChecks(s, r, session);
    AtOnceSnoc(s, AuthorizeSteps(r, session, code, ttl, true), AuthServer.IssueCode(0, code, ttl));
    if MayAuthorize(s, r.app, session) {
      AuthorizeEnds(s, r, session, code, ttl);
    } else {
      NothingStarted(s, code, ttl);
    }
  }

  function TokenSteps(r: TokenRequest, jti: Uuid, ttl: Time, insertFails: bool): seq<AuthServer.Action> {
    [AuthServer.RequestToken(0, r.app, r.code, r.redirectUri, r.verifier), AuthServer.CheckSession(0),
     AuthServer.CheckUser(0), AuthServer.Redeem(0, jti, ttl, insertFails)]
  }

  lemma TokenStarts(s: AuthServer.State, r: TokenRequest)
    requires s.flows == map[]
    ensures AtOnce(s, [AuthServer.RequestToken(0, r.app, r.code, r.redirectUri, r.verifier),
                       AuthServer.CheckSession(0)])
         == if r.code in s.codes && AuthServer.CodeMatches(s, ClaimFor(s, r))
               && AuthServer.UsableSession(s, ClaimFor(s, r).session)
            then With(s, AuthServer.SessionChecked(ClaimFor(s, r))) else s
  {
    var start := AuthServer.RequestToken(0, r.app, r.code, r.redirectUri, r.verifier);
    if r.code in s.codes && AuthServer.CodeMatches(s, ClaimFor(s, r)) {
      var c := ClaimFor(s, r);
      var live := AuthServer.UsableSession(s, c.session);
      GateWith(s, AuthServer.CodeFound(c), live, AuthServer.SessionChecked(c));
      AtOnceTwo(s, start, AuthServer.CheckSession(0), With(s, AuthServer.CodeFound(c)),
                if live then With(s, AuthServer.SessionChecked(c)) else s);
    } else {
      AtOnceTwo(s, start, AuthServer.CheckSession(0), s, s);
    }
  }

  predicate OwnUser(s: AuthServer.State, c: Claim)
    requires c.session in s.sessions
  {
    AuthServer.IsActive(s, c.user) && s.sessions[c.session].user == c.user
  }

  lemma UserStep(s: AuthServer.State, c: Claim)
    requires s.flows == map[] && c.session in s.sessions
    ensures AuthServer.Do(With(s, AuthServer.SessionChecked(c)), AuthServer.CheckUser(0))
         == if OwnUser(s, c) then With(s, AuthServer.UserChecked(c)) else s
  {
    GateWith(s, AuthServer.SessionChecked(c), OwnUser(s, c), AuthServer.UserChecked(c));
  }

  function Granted(s: AuthServer.State, c: Claim, jti: Uuid, ttl: Time): AuthServer.State
    requires c.code in s.codes
  {
    With(AuthServer.RedeemTx(s, c, jti, ttl), AuthServer.TokenHeld(AuthServer.Bearer(c.app, jti, c.user, c.session)))
  }

  lemma RedeemStep(s: AuthServer.State, c: Claim, jti: Uuid, ttl: Time, insertFails: bool)
    requires s.flows == map[]
    ensures AuthServer.Do(With(s, AuthServer.UserChecked(c)), AuthServer.Redeem(0, jti, ttl, insertFails))
         == if AuthServer.CanRedeem(s, c, jti) && !insertFails then Granted(s, c, jti, ttl) else s
    ensures AuthServer.Do(s, AuthServer.Redeem(0, jti, ttl, insertFails)) == s
  {
    var held := AuthServer.TokenHeld(AuthServer.Bearer(c.app, jti, c.user, c.session));
    assert map[0 := AuthServer.UserChecked(c)][0 := held] == map[0 := held];
    assert map[0 := AuthServer.UserChecked(c)] - {0} == map[];
  }

  /** What the last two steps of /token make of a checked session. */
  lemma TokenEnds(s: AuthServer.State, c: Claim, jti: Uuid, ttl: Time, insertFails: bool)
    requires s.flows == map[] && c.session in s.sessions
    ensures AtOnce(With(s, AuthServer.SessionChecked(c)),
                   [AuthServer.CheckUser(0), AuthServer.Redeem(0, jti, ttl, insertFails)])
         == if OwnUser(s, c) && AuthServer.CanRedeem(s, c, jti) && !insertFails then Granted(s, c, jti, ttl) else s
  {
    UserStep(s, c);
    RedeemStep(s, c, jti, ttl, insertFails);
    AtOnceTwo(With(s, AuthServer.SessionChecked(c)), AuthServer.CheckUser(0),
              AuthServer.Redeem(0, jti, ttl, insertFails),
              if OwnUser(s, c) then With(s, AuthServer.UserChecked(c)) else s,
              if OwnUser(s, c) && AuthServer.CanRedeem(s, c, jti) && !insertFails then Granted(s, c, jti, ttl) else s);
  }

  lemma NoToken(s: AuthServer.State, jti: Uuid, ttl: Time, insertFails: bool)
    requires s.flows == map[]
    ensures AtOnce(s, [AuthServer.CheckUser(0), AuthServer.Redeem(0, jti, ttl, insertFails)]) == s
  {
    AtOnceTwo(s, AuthServer.CheckUser(0), AuthServer.Redeem(0, jti, ttl, insertFails), s, s);
  }

  lemma AtOnceSplit(s: AuthServer.State, a: AuthServer.Action, b: AuthServer.Action, c: AuthServer.Action,
                    d: AuthServer.Action)
    ensures AtOnce(s, [a, b, c, d]) == AtOnce(AtOnce(s, [a, b]), [c, d])
  {
    assert [a, b, c, d][..3] == [a, b, c] && [a, b, c][..2] == [a, b];
    AtOnceTwo(AtOnce(s, [a, b]), c, d, AuthServer.Do(AtOnce(s, [a, b]), c),
              AuthServer.Do(AuthServer.Do(AtOnce(s, [a, b]), c), d));
  }

  /** The steps of /token, made at once: the token row and its bearer, or nothing. */
  lemma TokenRun(s: AuthServer.State, r: TokenRequest, jti: Uuid, ttl: Time, insertFails: bool)
    requires s.flows == map[]
    ensures AtOnce(s, TokenSteps(r, jti, ttl, insertFails))
         == if MayRedeem(s, r) && jti !in s.tokens && !insertFails then
              Granted(s, ClaimFor(s, r), jti, ttl)
            else s
  {
    AtOnceSplit(s, AuthServer.RequestToken(0, r.app, r.code, r.redirectUri, r.verifier), AuthServer.CheckSession(0),
                AuthServer.CheckUser(0), AuthServer.Redeem(0, jti, ttl, insertFails));
    TokenStarts(s, r);
    NoToken(s, jti, ttl, insertFails);
    if r.code in s.codes && ClaimFor(s, r).session in s.sessions {
      TokenEnds(s, ClaimFor(s, r), jti, ttl, insertFails);
    }
  }

  const USER_INFO_STEPS := [AuthServer.ReadMetadata(0), AuthServer.ReadSession(0), AuthServer.ReadUser(0)]

  lemma UserInfoStarts(s: AuthServer.State, b: Bearer)
    requires s.flows == map[]
    ensures AtOnce(With(s, AuthServer.TokenHeld(b)), [AuthServer.ReadMetadata(0), AuthServer.ReadSession(0)])
         == if AuthServer.TokenMatches(s, b) && AuthServer.UsableSession(s, b.session)
               && s.sessions[b.session].user == b.user
            then With(s, AuthServer.SessionLive(b)) else s
  {
    var from := With(s, AuthServer.TokenHeld(b));
    GateWith(s, AuthServer.TokenHeld(b), AuthServer.TokenMatches(s, b), AuthServer.MetadataChecked(b));
    if AuthServer.TokenMatches(s, b) {
      var live := AuthServer.UsableSession(s, b.session) && s.sessions[b.session].user == b.user;
      GateWith(s, AuthServer.MetadataChecked(b), live, AuthServer.SessionLive(b));
      AtOnceTwo(from, AuthServer.ReadMetadata(0), AuthServer.ReadSession(0), With(s, AuthServer.MetadataChecked(b)),
                if live then With(s, AuthServer.SessionLive(b)) else s);
    } else {
      AtOnceTwo(from, AuthServer.ReadMetadata(0), AuthServer.ReadSession(0), s, s);
    }
  }

  lemma UserInfoEnds(s: AuthServer.State, b: Bearer)
    requires s.flows == map[]
    ensures AuthServer.Do(With(s, AuthServer.SessionLive(b)), AuthServer.ReadUser(0))
         == if AuthServer.IsActive(s, b.user) then With(s, AuthServer.Profile(b)) else s
    ensures AuthServer.Do(s, AuthServer.ReadUser(0)) == s
  {
    GateWith(s, AuthServer.SessionLive(b), AuthServer.IsActive(s, b.user), AuthServer.Profile(b));
  }

  /** The steps of /userinfo, made at once: the token shown passes them all, or the
      request is refused. */
  lemma UserInfoRun(s: AuthServer.State, b: Bearer)
    requires s.flows == map[]
    ensures AtOnce(With(s, AuthServer.TokenHeld(b)), USER_INFO_STEPS)
         == if MayRead(s, b) then With(s, AuthServer.Profile(b)) else s
  {
    var start := [AuthServer.ReadMetadata(0), AuthServer.ReadSession(0)];
    AtOnceSnoc(With(s, AuthServer.TokenHeld(b)), start, AuthServer.ReadUser(0));
    assert start + [AuthServer.ReadUser(0)] == USER_INFO_STEPS;
    UserInfoStarts(s, b);
    UserInfoEnds(s, b);
  }

  /** `pkce` is the S256 transformation, `validChallenge` the form it gives. */
  class AuthHandler {
    const pkce: string -> string
    const validChallenge: string -> bool
    var apps: set<Uuid>
    var redirectUris: map<Uuid, set<string>>
    var users: map<Uuid, SessionStore.UserStatus>
    var sessions: map<Uuid, SessionStore.Session>
    var members: set<Access.Member>
    var policies: set<Access.Policy>
    var codes: map<Uuid, AuthServer.AuthCode>
    var tokens: map<Uuid, Access.TokenRow>

    ghost function View(now: Time): AuthServer.State
      reads this
    {
      AuthServer.State(now, pkce, users, sessions, apps, members, policies, codes, tokens, [], map[], map[])
    }

    constructor (pkce: string -> string, validChallenge: string -> bool)
      ensures this.pkce == pkce && this.validChallenge == validChallenge
      ensures codes == map[] && tokens == map[] && apps == {} && sessions == map[]
    {
      this.pkce, this.validChallenge := pkce, validChallenge;
      apps, redirectUris, users, sessions, members, policies := {}, map[], map[], map[], {}, {};
      codes, tokens := map[], map[];
    }

    predicate WellFormedRequest(r: AuthorizeRequest)
      reads this
    {
      && r.responseType == "code" && r.redirectUri != "" && r.state != ""
      && r.challengeMethod == "S256" && validChallenge(r.challenge)
      && r.app in redirectUris && r.redirectUri in redirectUris[r.app]
    }

    /** What /token checks without looking for the code in time. */
    predicate WellFormedForm(r: TokenRequest, codes: map<Uuid, AuthServer.AuthCode>) {
      && r.grantType == "authorization_code" && r.redirectUri != "" && r.verifier != "" && r.authenticated
      && (r.code in codes ==> validChallenge(codes[r.code].challenge))
    }

    method FindActiveSession(id: Uuid, now: Time) returns (found: Option<SessionStore.Session>)
      ensures found == if AuthServer.UsableSession(View(now), id) then Some(sessions[id]) else None
    {
      if id in sessions && sessions[id].status == SessionStore.Active && sessions[id].revokedAt.None?
         && sessions[id].expiresAt > now {
        return Some(sessions[id]);
      }
      return None;
    }

    /** The join of UserHasApplicationAccess: an active user, a membership, and a
        policy of that group for the application. */
    method UserHasApplicationAccess(user: Uuid, app: Uuid, now: Time) returns (allowed: bool)
      ensures allowed == AuthServer.UserHasApplicationAccess(View(now), user, app)
      ensures allowed <==> user in users && users[user] == SessionStore.ActiveUser
                           && exists g :: (user, g) in members && (app, g) in policies
    {
      if user !in users || users[user] != SessionStore.ActiveUser {
        return false;
      }
      var joined := set m | m in members && m.0 == user && (app, m.1) in policies;
      allowed := joined != {};
      assert forall m :: m in joined <==> m in members && m.0 == user && (app, m.1) in policies;
      if m :| m in joined {
        assert (user, m.1) in members && (app, m.1) in policies;
      }
      if g :| (user, g) in members && (app, g) in policies {
        assert (user, g) in joined;
      }
    }

    /** AuthorizationCodeRepository.Redeem: the code is consumed and the token
        row inserted, or neither. */
    method Redeem(c: Claim, jti: Uuid, ttl: Time, now: Time, insertFails: bool) returns (err: Error)
      modifies this`codes, this`tokens
      ensures err == NotFound <==>
        !(c.code in old(codes) && old(codes)[c.code].usedAt.None? && now < old(codes)[c.code].expiresAt)
      ensures err == NoError <==> AuthServer.CanRedeem(old(View(now)), c, jti) && !insertFails
      ensures err == NoError <==>
        && c.code in old(codes) && old(codes)[c.code].usedAt.None? && now < old(codes)[c.code].expiresAt
        && jti !in old(tokens) && !insertFails
      ensures View(now) == if err == NoError then AuthServer.RedeemTx(old(View(now)), c, jti, ttl) else old(View(now))
    {
      var codes0 := codes;
      var affected := 0;
      if c.code in codes && codes[c.code].usedAt.None? && codes[c.code].expiresAt > now {
        codes := codes[c.code := codes[c.code].(usedAt := Some(now))];
        affected := 1;
      }
      if affected != 1 {
        return NotFound;
      }
      if insertFails || jti in tokens {
        codes := codes0;
        return Conflict;
      }
      tokens := tokens[jti := Access.TokenRow(c.user, c.app, c.session, now + ttl, None, "",
                                              Access.Grant(c.code, c.redirectUri, c.verifier, now))];
      return NoError;
    }

    /** Issues a code for exactly the well-formed requests of a signed-in user
        whose group is allowed, under an id not in use. */
    method Authorize(r: AuthorizeRequest, session: Uuid, code: Uuid, ttl: Time, now: Time, insertFails: bool)
      returns (issued: bool)
      modifies this`codes
      ensures issued <==>
        && r.responseType == "code" && r.redirectUri != "" && r.state != ""
        && r.challengeMethod == "S256" && validChallenge(r.challenge)
        && r.app in apps && r.app in redirectUris && r.redirectUri in redirectUris[r.app]
        && session in sessions && sessions[session].status == SessionStore.Active
        && sessions[session].revokedAt.None? && now < sessions[session].expiresAt
        && sessions[session].user in users && users[sessions[session].user] == SessionStore.ActiveUser
        && (exists g :: (sessions[session].user, g) in members && (r.app, g) in policies)
        && code !in old(codes) && !insertFails
      ensures codes == if !issued then old(codes) else old(codes)[code :=
        AuthServer.AuthCode(sessions[session].user, r.app, session, r.redirectUri, r.challenge, now + ttl, None, now)]
      ensures View(now) == if WellFormedRequest(r) then Authorized(old(View(now)), r, session, code, ttl, insertFails)
                           else old(View(now))
    {
      if r.responseType != "code" || r.redirectUri == "" || r.state == ""
         || r.challengeMethod != "S256" || !validChallenge(r.challenge) {
        return false;
      }
      if r.app !in apps || r.app !in redirectUris || r.redirectUri !in redirectUris[r.app] {
        return false;
      }
      var found := FindActiveSession(session, now);
      if found.None? {
        return false;
      }
      var user := found.value.user;
      if user !in users || users[user] != SessionStore.ActiveUser {
        return false;
      }
      var allowed := UserHasApplicationAccess(user, r.app, now);
      if !allowed || insertFails || code in codes {
        return false;
      }
      codes := codes[code := AuthServer.AuthCode(user, r.app, session, r.redirectUri, r.challenge,
                                                 now + ttl, None, now)];
      return true;
    }

    /** Issues a token for exactly the well-formed requests of an authenticated
        client that match a live code of a live session. */
    method Token(r: TokenRequest, jti: Uuid, ttl: Time, now: Time, insertFails: bool) returns (bearer: Option<Bearer>)
      modifies this`codes, this`tokens
      ensures bearer.Some? <==>
        WellFormedForm(r, old(codes)) && MayRedeem(old(View(now)), r) && jti !in old(tokens) && !insertFails
      ensures bearer.Some? <==>
        && r.grantType == "authorization_code" && r.redirectUri != "" && r.verifier != "" && r.authenticated
        && r.app in apps && r.code in old(codes)
        && var row := old(codes)[r.code];
           && row.usedAt.None? && now < row.expiresAt && row.app == r.app && row.redirectUri == r.redirectUri
           && validChallenge(row.challenge) && pkce(r.verifier) == row.challenge
           && row.session in sessions && sessions[row.session].status == SessionStore.Active
           && sessions[row.session].revokedAt.None? && now < sessions[row.session].expiresAt
           && sessions[row.session].user == row.user
           && row.user in users && users[row.user] == SessionStore.ActiveUser
           && jti !in old(tokens) && !insertFails
      ensures bearer.Some? ==>
        var row := old(codes)[r.code];
        && bearer.value == AuthServer.Bearer(r.app, jti, row.user, row.session)
        && codes == old(codes)[r.code := row.(usedAt := Some(now))]
        && tokens == old(tokens)[jti := Access.TokenRow(row.user, r.app, row.session, now + ttl, None, "",
                                                       Access.Grant(r.code, r.redirectUri, r.verifier, now))]
      ensures bearer.Some? ==>
        var c := ClaimFor(old(View(now)), r);
        && bearer.value == AuthServer.Bearer(r.app, jti, c.user, c.session)
        && View(now) == AuthServer.RedeemTx(old(View(now)), c, jti, ttl)
      ensures bearer.None? ==> View(now) == old(View(now))
    {
      if r.grantType != "authorization_code" || r.redirectUri == "" || r.verifier == "" {
        return None;
      }
      if !r.authenticated || r.app !in apps || r.code !in codes {
        return None;
      }
      var row := codes[r.code];
      if row.usedAt.Some? || !(now < row.expiresAt) || row.app != r.app || row.redirectUri != r.redirectUri
         || !validChallenge(row.challenge) || pkce(r.verifier) != row.challenge {
        return None;
      }
      var session := FindActiveSession(row.session, now);
      if session.None? {
        return None;
      }
      if row.user !in users || users[row.user] != SessionStore.ActiveUser || session.value.user != row.user {
        return None;
      }
      var c := AuthServer.Claim(r.app, r.code, row.user, row.session, r.redirectUri, r.verifier);
      var err := Redeem(c, jti, ttl, now, insertFails);
      if err != NoError {
        return None;
      }
      return Some(AuthServer.Bearer(r.app, jti, row.user, row.session));
    }

    /** `authenticated` is the outcome of client authentication, `groupsRead` that
        of the last query, which lists the user's groups for the answer. */
    method UserInfo(b: Bearer, authenticated: bool, groupsRead: bool, now: Time) returns (ok: bool)
      ensures ok <==> authenticated && MayRead(View(now), b) && groupsRead
      ensures ok <==>
        && authenticated && groupsRead && b.app in apps && b.jti in tokens
        && var t := tokens[b.jti];
           && t.revokedAt.None? && now < t.expiresAt && t.app == b.app && t.session == b.session && t.user == b.user
           && b.session in sessions && sessions[b.session].status == SessionStore.Active
           && sessions[b.session].revokedAt.None? && now < sessions[b.session].expiresAt
           && sessions[b.session].user == b.user && b.user in users && users[b.user] == SessionStore.ActiveUser
    {
      if !authenticated || b.app !in apps || b.jti !in tokens {
        return false;
      }
      var t := tokens[b.jti];
      if t.app != b.app || t.session != b.session || t.user != b.user || t.revokedAt.Some? || !(now < t.expiresAt) {
        return false;
      }
      var session := FindActiveSession(b.session, now);
      if session.None? || session.value.user != b.user {
        return false;
      }
      if b.user !in users || users[b.user] != SessionStore.ActiveUser {
        return false;
      }
      return groupsRead;
    }
  }

  /** What else can end a callback: reading the groups for the profile, caching
      the profile, inserting the session. */
  datatype CallbackFaults = CallbackFaults(groupsRead: bool, profileCached: bool, insert: Fault)

  /** The code can be exchanged for a token. */
  predicate MayExchange(s: AuthServer.State, valid: string -> bool, r: TokenRequest, jti: Uuid, tokenFails: bool) {
    && r.grantType == "authorization_code" && r.redirectUri != "" && r.verifier != "" && r.authenticated
    && MayRedeem(s, r) && valid(s.codes[r.code].challenge) && jti !in s.tokens && !tokenFails
  }

  /** And the profile can be read and cached. */
  predicate MaySignIn(s: AuthServer.State, valid: string -> bool, r: TokenRequest, jti: Uuid,
                      tokenFails: bool, faults: CallbackFaults)
  {
    MayExchange(s, valid, r, jti, tokenFails) && faults.groupsRead && faults.profileCached
  }

  /** A relying application's callback: exchange the code, fetch the profile, cache
      it, store a session. Uninterrupted, it stores one only under the token row it
      just made, so that row is there when the central session is revoked;
      otherwise the table is untouched. A session may be stored although an error
      is reported. */
  method Callback(auth: AuthHandler, store: AppStore.Store, r: TokenRequest, jti: Uuid, tokenTtl: Time,
                  id: Uuid, ttl: Time, now: Time, tokenFails: bool, faults: CallbackFaults) returns (ok: bool)
    requires tokenTtl > 0
    modifies auth`codes, auth`tokens, store
    ensures ok <==> MaySignIn(old(auth.View(now)), auth.validChallenge, r, jti, tokenFails, faults)
                    && id !in old(store.sessions) && faults.insert == Sound
    ensures var c := MaySignIn(old(auth.View(now)), auth.validChallenge, r, jti, tokenFails, faults);
      if c && faults.insert != RolledBack then
        && jti in auth.tokens && auth.tokens[jti].app == r.app
        && store.Db() == AppStore.CreateSession(old(store.Db()), id, auth.tokens[jti].user, auth.tokens[jti].session,
                                                now, ttl)
        && AuthServer.UsableSession(auth.View(now), auth.tokens[jti].session)
      else store.Db() == old(store.Db())
    ensures auth.View(now) ==
      if MayExchange(old(auth.View(now)), auth.validChallenge, r, jti, tokenFails)
      then AuthServer.RedeemTx(old(auth.View(now)), ClaimFor(old(auth.View(now)), r), jti, tokenTtl)
      else old(auth.View(now))
    ensures store.Db() != old(store.Db()) ==>
      && faults.groupsRead && faults.profileCached && !tokenFails && faults.insert != RolledBack
      && id !in old(store.sessions) && jti !in old(auth.tokens) && jti in auth.tokens
    ensures ok ==>
      && faults == CallbackFaults(true, true, Sound) && !tokenFails && jti in auth.tokens
      && store.sessions == old(store.sessions)[id :=
           AppStore.LocalSession(auth.tokens[jti].user, auth.tokens[jti].session, AppStore.Active,
                                 now, now + ttl, None, "")]
  {
    var bearer := auth.Token(r, jti, tokenTtl, now, tokenFails);
    if bearer.None? {
      return false;
    }
    var profile := auth.UserInfo(bearer.value, r.authenticated, faults.groupsRead, now);
    if !profile {
      return false;
    }
    if !faults.profileCached {
      return false;
    }
    ok := store.Create(id, bearer.value.user, bearer.value.session, now, ttl, faults.insert);
  }
}
