/** After a pair of user and application has lost its last allow path: exactly
    what can still make a local session of it. */
module Lingering {
  import opened Domain
  import opened AuthServer
  import Access
  import SessionStore

  // ----- what can still be carried to its end -----

  /** The central session is live and will be for `k` more instants. */
  predicate Alive(v: State, session: Uuid, k: nat) {
    session in v.sessions && SessionStore.Live(v.sessions[session]) && v.now + k < v.sessions[session].expiresAt
  }

  predicate Unused(v: State, code: Uuid, k: nat) {
    code in v.codes && v.codes[code].usedAt.None? && v.now + k < v.codes[code].expiresAt
  }

  ghost predicate HasVerifier(v: State, challenge: string) {
    exists x: string :: v.pkce(x) == challenge
  }

  /** An inactive user has to be activated first, which takes a step. */
  function Wakes(v: State, user: Uuid): nat {
    if IsActive(v, user) then 0 else 1
  }

  /** A request in flight for the pair that can still end in a local session,
      each check passing at the earliest instant it can be made. */
  ghost predicate FlowFinishes(v: State, flow: Flow, user: Uuid, app: Uuid) {
    var d := Wakes(v, user);
    match flow
    case SessionFound(_, _, _, _, _) => false
    case Allowed(a, u, session, _, challenge, _) =>
      a == app && u == user && HasVerifier(v, challenge) && Alive(v, session, 6 + d)
    case CodeFound(c) => c.app == app && c.user == user && Unused(v, c.code, 2 + d) && Alive(v, c.session, 4 + d)
    case SessionChecked(c) => c.app == app && c.user == user && Unused(v, c.code, 1 + d) && Alive(v, c.session, 3 + d)
    case UserChecked(c) => c.app == app && c.user == user && Unused(v, c.code, 0) && Alive(v, c.session, 2)
    case TokenHeld(b) => b.app == app && b.user == user && TokenMatches(v, b) && Alive(v, b.session, 1)
    case MetadataChecked(b) => b.app == app && b.user == user && Alive(v, b.session, 0)
    case SessionLive(b) => b.app == app && b.user == user
    case Profile(b) => b.app == app && b.user == user
  }

  /** A code of the pair that can still be redeemed and used. */
  ghost predicate CodeFinishes(v: State, c: Uuid, user: Uuid, app: Uuid)
    requires c in v.codes
  {
    var code, d := v.codes[c], Wakes(v, user);
    && code.app == app && code.user == user && Unused(v, c, 3 + d)
    && HasVerifier(v, code.challenge) && Alive(v, code.session, 5 + d)
  }

  datatype Lead = InFlow(flow: Uuid) | InCode(code: Uuid)

  ghost predicate Finishes(v: State, lead: Lead, user: Uuid, app: Uuid) {
    match lead
    case InFlow(f) => f in v.flows && FlowFinishes(v, v.flows[f], user, app)
    case InCode(c) => c in v.codes && CodeFinishes(v, c, user, app)
  }

  ghost predicate CanFinish(v: State, user: Uuid, app: Uuid) {
    exists lead :: Finishes(v, lead, user, app)
  }

  // ----- without a path nothing new comes up -----

  /** Nothing that ends comes back. */
  ghost predicate NothingReturns(v: State, r: State) {
    && v.now < r.now && v.pkce == r.pkce
    && (forall id <- v.sessions :: id in r.sessions && r.sessions[id].expiresAt == v.sessions[id].expiresAt
          && (SessionStore.Live(r.sessions[id]) ==> SessionStore.Live(v.sessions[id])))
    && (forall c <- v.codes :: c in r.codes && SameCode(v.codes[c], r.codes[c]))
    && (forall j <- v.tokens :: j in r.tokens && r.tokens[j].expiresAt == v.tokens[j].expiresAt
          && (r.tokens[j].revokedAt.None? ==> v.tokens[j].revokedAt.None?))
  }

  lemma RowsReturnNot(v: State, r: State)
    requires Extends(v, r)
    requires r.tokens == v.tokens || (forall j <- v.tokens :: j in r.tokens && r.tokens[j] == v.tokens[j])
    requires r.sessions == v.sessions || SessionStore.NoneRevived(SessionView(v), SessionView(r))
    ensures NothingReturns(v, r)
  {
  }

  lemma SessionsReturnNothing(v: State, op: SessionStore.Op)
    requires Inv(v)
    ensures NothingReturns(v, Apply(v, Sessions(op)))
  {
    SessionsEffect(v, op);
    SessionStore.ApplyRevivesNone(SessionView(v), op, v.now);
    RowsReturnNot(v, Apply(v, Sessions(op)));
  }

  lemma PoliciesReturnNothing(v: State, op: Access.Op)
    requires Inv(v)
    ensures NothingReturns(v, Apply(v, Policies(op)))
  {
    PoliciesExtend(v, op);
    Access.LossIsExact(AccessView(v), op, v.now);
  }

  lemma GrantsReturnNothing(v: State, a: Action)
    requires Inv(v) && (Commits(v, a) || Issues(v, a))
    ensures NothingReturns(v, Apply(v, a))
  {
    if Commits(v, a) {
      RedeemEffect(v, a);
    } else {
      IssueEffect(v, a);
    }
    RowsReturnNot(v, Apply(v, a));
  }

  lemma QuietReturnsNothing(v: State, r: State)
    requires QuietMove(v, r)
    ensures NothingReturns(v, r)
  {
  }

  lemma StepReturnsNothing(v: State, a: Action)
    requires Inv(v)
    ensures NothingReturns(v, Apply(v, a))
  {
    if a.Sessions? {
      SessionsReturnNothing(v, a.sessionOp);
    } else if a.Policies? {
      PoliciesReturnNothing(v, a.policyOp);
    } else if Commits(v, a) || Issues(v, a) {
      GrantsReturnNothing(v, a);
    } else {
      if a.Tick? || a.RegisterApp? {
        ClockEffect(v, a);
      } else {
        FlowEffect(v, a);
      }
      QuietReturnsNothing(v, Apply(v, a));
    }
  }

  /** A revoked token row stays revoked. */
  lemma {:induction false} RevokedStays(v: State, actions: seq<Action>, j: Uuid)
    requires Inv(v) && j in v.tokens && v.tokens[j].revokedAt.Some?
    ensures var r := Run(v, actions); Inv(r) && j in r.tokens && r.tokens[j].revokedAt.Some?
  {
    if |actions| > 0 {
      var n := |actions| - 1;
      RevokedStays(v, actions[..n], j);
      StepKeepsInv(Run(v, actions[..n]), actions[n]);
      StepReturnsNothing(Run(v, actions[..n]), actions[n]);
    }
  }

  /** The transaction takes the last path of the pair the token was issued to. */
  ghost predicate LosesTokenPath(v: State, op: Access.Op, j: Uuid) {
    && j in v.tokens
    && Access.Loses(AccessView(v), Access.Apply(AccessView(v), op, v.now), (v.tokens[j].user, v.tokens[j].app))
  }

  lemma PoliciesTokens(v: State, op: Access.Op)
    ensures Apply(v, Policies(op)).tokens == Access.Apply(AccessView(v), op, v.now).tokens
  {
  }

  lemma LossRevokes(v: State, r: State, op: Access.Op, j: Uuid)
    requires Access.Valid(AccessView(v)) && LosesTokenPath(v, op, j)
    requires r.tokens == Access.Apply(AccessView(v), op, v.now).tokens
    ensures j in r.tokens && r.tokens[j].revokedAt.Some?
  {
    Access.LossRevokes(AccessView(v), op, v.now, j);
  }

  lemma RevokedIsRefused(v: State, f: Uuid, b: Bearer)
    requires b.jti in v.tokens && v.tokens[b.jti].revokedAt.Some? && f in v.flows && v.flows[f] == TokenHeld(b)
    ensures f !in Apply(v, ReadMetadata(f)).flows
  {
  }

  /** Once a pair has lost its last path, /userinfo refuses every token issued to
      it before, whatever happens afterwards. */
  lemma LostTokensAreRefused(v: State, op: Access.Op, actions: seq<Action>, f: Uuid, b: Bearer)
    requires Inv(v) && LosesTokenPath(v, op, b.jti)
    requires var r := Run(Apply(v, Policies(op)), actions); f in r.flows && r.flows[f] == TokenHeld(b)
    ensures f !in Apply(Run(Apply(v, Policies(op)), actions), ReadMetadata(f)).flows
  {
    var r := Apply(v, Policies(op));
    StepKeepsInv(v, Policies(op));
    PoliciesTokens(v, op);
    LossRevokes(v, r, op, b.jti);
    RevokedStays(r, actions, b.jti);
    RevokedIsRefused(Run(r, actions), f, b);
  }

  lemma AliveBack(v: State, r: State, session: Uuid, k: nat)
    requires NothingReturns(v, r) && session in v.sessions && Alive(r, session, k)
    ensures Alive(v, session, k + 1) && Alive(v, session, k)
  {
  }

  lemma UnusedBack(v: State, r: State, code: Uuid, k: nat)
    requires NothingReturns(v, r) && code in v.codes && Unused(r, code, k)
    ensures Unused(v, code, k + 1) && Unused(v, code, k)
  {
  }

  // How a flow that a step leaves behind came about.

  ghost predicate Came(v: State, f: Uuid, flow: Flow) {
    match flow
    case SessionFound(_, _, _, _, _) => true
    case Allowed(app, user, _, _, _, _) => Access.HasPath(v.members, v.policies, user, app)
    case CodeFound(c) => CodeMatches(v, c)
    case SessionChecked(c) => f in v.flows && v.flows[f] == CodeFound(c)
    case UserChecked(c) => f in v.flows && v.flows[f] == SessionChecked(c) && IsActive(v, c.user)
    case TokenHeld(b) =>
      && f in v.flows && v.flows[f].UserChecked?
      && var c := v.flows[f].claim;
         c.app == b.app && c.user == b.user && c.session == b.session && CanRedeem(v, c, b.jti)
    case MetadataChecked(b) => f in v.flows && v.flows[f] == TokenHeld(b) && TokenMatches(v, b)
    case SessionLive(b) => f in v.flows && v.flows[f] == MetadataChecked(b) && UsableSession(v, b.session)
    case Profile(b) => f in v.flows && v.flows[f] == SessionLive(b)
  }

  ghost predicate AllCame(v: State, r: State) {
    forall f <- r.flows :: (f in v.flows && r.flows[f] == v.flows[f]) || Came(v, f, r.flows[f])
  }

  lemma GateCame(v: State, f: Uuid, passes: bool, next: Flow)
    requires passes ==> Came(v, f, next)
    ensures AllCame(v, Gate(v, f, passes, next))
  {
  }

  lemma AnswerCame(v: State, a: Action, f: Uuid)
    requires f in v.flows
    ensures AllCame(v, Answer(v, a, f, v.flows[f]))
  {
    var flow := v.flows[f];
    if a.ReadMetadata? && flow.TokenHeld? {
      GateCame(v, f, TokenMatches(v, flow.bearer), MetadataChecked(flow.bearer));
    } else if a.ReadSession? && flow.MetadataChecked? {
      var b := flow.bearer;
      GateCame(v, f, UsableSession(v, b.session) && v.sessions[b.session].user == b.user, SessionLive(b));
    } else if a.ReadUser? && flow.SessionLive? {
      GateCame(v, f, IsActive(v, flow.bearer.user), Profile(flow.bearer));
    }
  }

  lemma ProgressCame(v: State, a: Action, f: Uuid)
    requires f in v.flows
    ensures AllCame(v, Progress(v, a, f, v.flows[f]))
  {
    var flow := v.flows[f];
    if a.CheckPolicy? && flow.SessionFound? {
      GateCame(v, f, UserHasApplicationAccess(v, flow.user, flow.app),
               Allowed(flow.app, flow.user, flow.session, flow.redirectUri, flow.challenge, v.now));
    } else if a.CheckSession? && flow.CodeFound? {
      GateCame(v, f, UsableSession(v, flow.claim.session), SessionChecked(flow.claim));
    } else if a.CheckUser? && flow.SessionChecked? {
      var c := flow.claim;
      GateCame(v, f, IsActive(v, c.user) && c.session in v.sessions && v.sessions[c.session].user == c.user,
               UserChecked(c));
    } else if !(a.Redeem? && flow.UserChecked?) {
      AnswerCame(v, a, f);
    }
  }

  lemma StepCame(v: State, a: Action)
    ensures AllCame(v, Apply(v, a))
  {
    if !a.Tick? && !a.RegisterApp? && !a.Sessions? && !a.Policies?
       && !(a.StartAuthorize? || a.RequestToken? || a.Abandon? || a.IssueCode?) && a.flow in v.flows {
      ProgressCame(v, a, a.flow);
    }
  }

  /** A flow already there could finish before if it can now. */
  lemma OldFlowBack(v: State, r: State, flow: Flow, user: Uuid, app: Uuid)
    requires NothingReturns(v, r) && GrantsOk(v) && FlowOk(v, flow) && FlowFinishes(r, flow, user, app)
    ensures FlowFinishes(v, flow, user, app)
  {
    match flow
    case Allowed(_, _, session, _, _, _) => AliveBack(v, r, session, 6 + Wakes(r, user));
    case CodeFound(c) => ClaimBack(v, r, c, 2 + Wakes(r, user), 4 + Wakes(r, user));
    case SessionChecked(c) => ClaimBack(v, r, c, 1 + Wakes(r, user), 3 + Wakes(r, user));
    case UserChecked(c) => ClaimBack(v, r, c, 0, 2);
    case TokenHeld(b) => TokenBack(v, r, b);
    case MetadataChecked(b) => TokenSession(v, b); AliveBack(v, r, b.session, 0);
    case SessionLive(b) =>
    case Profile(b) =>
  }

  lemma ClaimBack(v: State, r: State, c: Claim, i: nat, j: nat)
    requires NothingReturns(v, r) && RowsOk(v) && ClaimOk(v, c) && Unused(r, c.code, i) && Alive(r, c.session, j)
    ensures Unused(v, c.code, i + 1) && Unused(v, c.code, i) && Alive(v, c.session, j + 1) && Alive(v, c.session, j)
  {
    assert CodeOk(v, c.code);
    UnusedBack(v, r, c.code, i);
    AliveBack(v, r, c.session, j);
  }

  lemma TokenSession(v: State, b: Bearer)
    requires RowsOk(v) && BearerOk(v, b)
    ensures b.app in v.apps && OwnedSession(v, b.session, b.user)
  {
    assert TokenOk(v, b.jti);
    assert CodeOk(v, v.tokens[b.jti].origin.code);
  }

  lemma TokenBack(v: State, r: State, b: Bearer)
    requires NothingReturns(v, r) && RowsOk(v) && BearerOk(v, b) && TokenMatches(r, b) && Alive(r, b.session, 1)
    ensures TokenMatches(v, b) && Alive(v, b.session, 1)
  {
    TokenSession(v, b);
    AliveBack(v, r, b.session, 1);
  }

  lemma NewClaimBack(v: State, r: State, f: Uuid, flow: Flow, user: Uuid, app: Uuid)
    requires NothingReturns(v, r) && GrantsOk(v) && r.users == v.users && Came(v, f, flow)
    requires (flow.SessionChecked? || flow.UserChecked?) && FlowFinishes(r, flow, user, app)
    ensures Finishes(v, InFlow(f), user, app)
  {
    assert FlowOk(v, v.flows[f]);
    if flow.SessionChecked? {
      ClaimBack(v, r, flow.claim, 1 + Wakes(r, user), 3 + Wakes(r, user));
    } else {
      ClaimBack(v, r, flow.claim, 0, 2);
    }
  }

  lemma NewBearerBack(v: State, r: State, f: Uuid, flow: Flow, user: Uuid, app: Uuid)
    requires NothingReturns(v, r) && GrantsOk(v) && Came(v, f, flow)
    requires (flow.TokenHeld? || flow.MetadataChecked? || flow.SessionLive? || flow.Profile?)
    requires FlowFinishes(r, flow, user, app)
    ensures Finishes(v, InFlow(f), user, app)
  {
    assert FlowOk(v, v.flows[f]);
    if flow.TokenHeld? {
      assert CodeOk(v, v.flows[f].claim.code);
      AliveBack(v, r, flow.bearer.session, 1);
    } else if flow.MetadataChecked? {
      TokenSession(v, flow.bearer);
      AliveBack(v, r, flow.bearer.session, 0);
    }
  }

  /** A flow that has just come about stems from something that could finish. */
  lemma NewFlowBack(v: State, r: State, f: Uuid, flow: Flow, user: Uuid, app: Uuid)
    requires NothingReturns(v, r) && GrantsOk(v) && r.users == v.users && Came(v, f, flow)
    requires !Access.HasPath(v.members, v.policies, user, app) && FlowFinishes(r, flow, user, app)
    ensures Finishes(v, InFlow(f), user, app) || (flow.CodeFound? && Finishes(v, InCode(flow.claim.code), user, app))
  {
    if flow.CodeFound? {
      assert CodeOk(v, flow.claim.code);
      ClaimBack(v, r, flow.claim, 2 + Wakes(r, user), 4 + Wakes(r, user));
    } else if flow.SessionChecked? || flow.UserChecked? {
      NewClaimBack(v, r, f, flow, user, app);
    } else if !flow.Allowed? {
      NewBearerBack(v, r, f, flow, user, app);
    }
  }

  lemma OldCodeBack(v: State, r: State, c: Uuid, user: Uuid, app: Uuid)
    requires NothingReturns(v, r) && RowsOk(v) && c in v.codes && Finishes(r, InCode(c), user, app)
    ensures Finishes(v, InCode(c), user, app)
  {
    assert CodeOk(v, c);
    UnusedBack(v, r, c, 3 + Wakes(r, user));
    AliveBack(v, r, v.codes[c].session, 5 + Wakes(r, user));
  }

  lemma NewCodeBack(v: State, r: State, f: Uuid, c: Uuid, ttl: Time, user: Uuid, app: Uuid)
    requires NothingReturns(v, r) && GrantsOk(v) && r.users == v.users && Issued(v, r, f, c, ttl)
    requires Finishes(r, InCode(c), user, app)
    ensures Finishes(v, InFlow(f), user, app)
  {
    assert FlowOk(v, v.flows[f]);
    AliveBack(v, r, v.flows[f].session, 5 + Wakes(r, user));
  }

  lemma SameUsers(v: State, a: Action)
    requires Inv(v) && !a.Sessions?
    ensures Apply(v, a).users == v.users
  {
    if !a.Policies? {
      RequestStep(v, a);
    }
  }

  lemma SameFlows(v: State, a: Action)
    requires Inv(v) && a.Sessions?
    ensures Apply(v, a).flows == v.flows && Apply(v, a).codes == v.codes
  {
    SessionsEffect(v, a.sessionOp);
  }

  lemma NewCodes(v: State, a: Action, c: Uuid)
    requires Inv(v) && c in Apply(v, a).codes
    ensures c in v.codes || (a.IssueCode? && c == a.code && Issued(v, Apply(v, a), a.flow, c, a.ttl))
  {
    if a.Sessions? {
      SessionsEffect(v, a.sessionOp);
    } else if a.Policies? {
      PoliciesExtend(v, a.policyOp);
    } else if Commits(v, a) {
      RedeemEffect(v, a);
    } else if Issues(v, a) {
      IssueEffect(v, a);
    } else if a.Tick? || a.RegisterApp? {
      ClockEffect(v, a);
    } else {
      FlowEffect(v, a);
    }
  }

  lemma CodeLeadBack(v: State, a: Action, c: Uuid, user: Uuid, app: Uuid)
    requires Inv(v) && Finishes(Apply(v, a), InCode(c), user, app)
    ensures CanFinish(v, user, app)
  {
    StepReturnsNothing(v, a);
    if c in v.codes {
      OldCodeBack(v, Apply(v, a), c, user, app);
      assert Finishes(v, InCode(c), user, app);
    } else {
      NewCodes(v, a, c);
      SameUsers(v, a);
      NewCodeBack(v, Apply(v, a), a.flow, c, a.ttl, user, app);
      assert Finishes(v, InFlow(a.flow), user, app);
    }
  }

  lemma FlowLeadBack(v: State, a: Action, f: Uuid, user: Uuid, app: Uuid)
    requires Inv(v) && !Access.HasPath(v.members, v.policies, user, app) && Finishes(Apply(v, a), InFlow(f), user, app)
    ensures CanFinish(v, user, app)
  {
    var r := Apply(v, a);
    StepReturnsNothing(v, a);
    StepCame(v, a);
    if f in v.flows && r.flows[f] == v.flows[f] {
      assert FlowOk(v, v.flows[f]);
      OldFlowBack(v, r, v.flows[f], user, app);
      assert Finishes(v, InFlow(f), user, app);
    } else {
      if a.Sessions? {
        SameFlows(v, a);
        assert false;
      }
      SameUsers(v, a);
      NewFlowBack(v, r, f, r.flows[f], user, app);
    }
  }

  /** While the pair has no path, no step makes anything that can finish. */
  lemma StepFinishesNothingNew(v: State, a: Action, user: Uuid, app: Uuid)
    requires Inv(v) && !Access.HasPath(v.members, v.policies, user, app) && CanFinish(Apply(v, a), user, app)
    ensures CanFinish(v, user, app)
  {
    var lead :| Finishes(Apply(v, a), lead, user, app);
    match lead
    case InFlow(f) => FlowLeadBack(v, a, f, user, app);
    case InCode(c) => CodeLeadBack(v, a, c, user, app);
  }

  // ----- what can finish does, if nothing gets in its way -----

  /** Steps left before the application can store its session. */
  ghost function Rank(v: State, lead: Lead, user: Uuid): nat {
    Wakes(v, user) +
    match lead
    case InCode(_) => 7
    case InFlow(f) =>
      if f !in v.flows then 0
      else match v.flows[f]
        case SessionFound(_, _, _, _, _) => 9
        case Allowed(_, _, _, _, _, _) => 8
        case CodeFound(_) => 6
        case SessionChecked(_) => 5
        case UserChecked(_) => 4
        case TokenHeld(_) => 3
        case MetadataChecked(_) => 2
        case SessionLive(_) => 1
        case Profile(_) => 0
  }

  /** The lead has come one step further, and policies are as they were. */
  ghost predicate Further(v: State, a: Action, lead: Lead, next: Lead, user: Uuid, app: Uuid) {
    var r := Apply(v, a);
    && Finishes(r, next, user, app) && Rank(r, next, user) < Rank(v, lead, user)
    && r.members == v.members && r.policies == v.policies
  }

  function Wake(user: Uuid): Action {
    Sessions(SessionStore.SetStatus(user, SessionStore.ActiveUser, [], true))
  }

  lemma WakeEffect(v: State, user: Uuid)
    requires user in v.users
    ensures var r := Apply(v, Wake(user));
      && r == v.(now := v.now + 1, users := r.users) && IsActive(r, user)
  {
  }

  /** Before the check of the user, an inactive one is activated first. */
  lemma WakesFirst(v: State, lead: Lead, user: Uuid, app: Uuid)
    requires user in v.users && !IsActive(v, user) && Finishes(v, lead, user, app)
    requires lead.InFlow? ==> var flow := v.flows[lead.flow];
      flow.Allowed? || flow.CodeFound? || flow.SessionChecked? || flow.SessionLive?
    ensures Further(v, Wake(user), lead, lead, user, app)
  {
    WakeEffect(v, user);
  }

  lemma AllowedNext(v: State, f: Uuid, user: Uuid, app: Uuid) returns (a: Action, next: Lead)
    requires IsActive(v, user) && Finishes(v, InFlow(f), user, app) && v.flows[f].Allowed?
    ensures Further(v, a, InFlow(f), next, user, app)
  {
    var c := FreshId(v.codes.Keys);
    a, next := IssueCode(f, c, 10), InCode(c);
    IssueEffect(v, a);
  }

  lemma RequestEffect(v: State, f: Uuid, claim: Claim)
    requires f !in v.flows && CodeMatches(v, claim)
    ensures var r := Apply(v, RequestToken(f, claim.app, claim.code, claim.redirectUri, claim.verifier));
      r == v.(now := v.now + 1, flows := v.flows[f := CodeFound(claim)])
  {
  }

  lemma CodeNext(v: State, c: Uuid, user: Uuid, app: Uuid) returns (a: Action, next: Lead)
    requires IsActive(v, user) && RowsOk(v) && Finishes(v, InCode(c), user, app)
    ensures Further(v, a, InCode(c), next, user, app)
  {
    assert CodeOk(v, c);
    var f := FreshId(v.flows.Keys);
    var code := v.codes[c];
    var x: string :| v.pkce(x) == code.challenge;
    var claim := Claim(app, c, user, code.session, code.redirectUri, x);
    a, next := RequestToken(f, app, c, code.redirectUri, x), InFlow(f);
    RequestEffect(v, f, claim);
  }

  lemma GateEffect(v: State, a: Action, f: Uuid, next: Flow)
    requires f in v.flows && Came(v, f, next)
    requires match next
      case SessionChecked(c) => a == CheckSession(f) && UsableSession(v, c.session)
      case UserChecked(c) => a == CheckUser(f) && OwnedSession(v, c.session, c.user)
      case MetadataChecked(b) => a == ReadMetadata(f)
      case SessionLive(b) => a == ReadSession(f) && OwnedSession(v, b.session, b.user)
      case Profile(b) => a == ReadUser(f) && IsActive(v, b.user)
      case _ => false
    ensures Apply(v, a) == v.(now := v.now + 1, flows := v.flows[f := next])
  {
  }

  lemma CodeFoundNext(v: State, f: Uuid, user: Uuid, app: Uuid)
    requires Finishes(v, InFlow(f), user, app) && v.flows[f].CodeFound?
    ensures Further(v, CheckSession(f), InFlow(f), InFlow(f), user, app)
  {
    GateEffect(v, CheckSession(f), f, SessionChecked(v.flows[f].claim));
  }

  lemma SessionCheckedNext(v: State, f: Uuid, user: Uuid, app: Uuid)
    requires RowsOk(v) && IsActive(v, user) && Finishes(v, InFlow(f), user, app)
    requires v.flows[f].SessionChecked? && ClaimOk(v, v.flows[f].claim)
    ensures Further(v, CheckUser(f), InFlow(f), InFlow(f), user, app)
  {
    assert CodeOk(v, v.flows[f].claim.code);
    GateEffect(v, CheckUser(f), f, UserChecked(v.flows[f].claim));
  }

  lemma UserCheckedNext(v: State, f: Uuid, user: Uuid, app: Uuid) returns (a: Action)
    requires RowsOk(v) && Finishes(v, InFlow(f), user, app) && v.flows[f].UserChecked? && ClaimOk(v, v.flows[f].claim)
    ensures Further(v, a, InFlow(f), InFlow(f), user, app)
  {
    var jti := FreshId(v.tokens.Keys);
    assert CodeOk(v, v.flows[f].claim.code);
    a := Redeem(f, jti, 10, false);
    RedeemEffect(v, a);
  }

  lemma TokenHeldNext(v: State, f: Uuid, user: Uuid, app: Uuid)
    requires Finishes(v, InFlow(f), user, app) && v.flows[f].TokenHeld?
    ensures Further(v, ReadMetadata(f), InFlow(f), InFlow(f), user, app)
  {
    GateEffect(v, ReadMetadata(f), f, MetadataChecked(v.flows[f].bearer));
  }

  lemma MetadataNext(v: State, f: Uuid, user: Uuid, app: Uuid)
    requires RowsOk(v) && Finishes(v, InFlow(f), user, app)
    requires v.flows[f].MetadataChecked? && BearerOk(v, v.flows[f].bearer)
    ensures Further(v, ReadSession(f), InFlow(f), InFlow(f), user, app)
  {
    TokenSession(v, v.flows[f].bearer);
    GateEffect(v, ReadSession(f), f, SessionLive(v.flows[f].bearer));
  }

  lemma SessionLiveNext(v: State, f: Uuid, user: Uuid, app: Uuid)
    requires IsActive(v, user) && Finishes(v, InFlow(f), user, app) && v.flows[f].SessionLive?
    ensures Further(v, ReadUser(f), InFlow(f), InFlow(f), user, app)
  {
    GateEffect(v, ReadUser(f), f, Profile(v.flows[f].bearer));
  }

  lemma LeadUser(v: State, lead: Lead, user: Uuid, app: Uuid)
    requires Inv(v) && Finishes(v, lead, user, app)
    ensures user in v.users
  {
    match lead
    case InCode(c) => assert CodeOk(v, c);
    case InFlow(f) =>
      var flow := v.flows[f];
      assert FlowOk(v, flow);
      if flow.CodeFound? || flow.SessionChecked? || flow.UserChecked? {
        assert CodeOk(v, flow.claim.code);
      } else if !flow.Allowed? {
        TokenSession(v, flow.bearer);
      }
  }

  /** Whatever can finish can be taken one step further without a change of
      policy. */
  lemma Advance(v: State, lead: Lead, user: Uuid, app: Uuid) returns (a: Action, next: Lead)
    requires Inv(v) && Finishes(v, lead, user, app) && !(lead.InFlow? && v.flows[lead.flow].Profile?)
    ensures Further(v, a, lead, next, user, app)
  {
    LeadUser(v, lead, user, app);
    if lead.InCode? {
      if IsActive(v, user) {
        a, next := CodeNext(v, lead.code, user, app);
      } else {
        WakesFirst(v, lead, user, app);
        a, next := Wake(user), lead;
      }
    } else {
      a, next := AdvanceFlow(v, lead.flow, user, app);
    }
  }

  lemma AdvanceFlow(v: State, f: Uuid, user: Uuid, app: Uuid) returns (a: Action, next: Lead)
    requires Inv(v) && user in v.users && Finishes(v, InFlow(f), user, app) && !v.flows[f].Profile?
    ensures Further(v, a, InFlow(f), next, user, app)
  {
    var flow := v.flows[f];
    assert FlowOk(v, flow);
    next := InFlow(f);
    if flow.UserChecked? {
      a := UserCheckedNext(v, f, user, app);
    } else if flow.TokenHeld? {
      TokenHeldNext(v, f, user, app);
      a := ReadMetadata(f);
    } else if flow.MetadataChecked? {
      MetadataNext(v, f, user, app);
      a := ReadSession(f);
    } else if !IsActive(v, user) {
      WakesFirst(v, next, user, app);
      a := Wake(user);
    } else if flow.Allowed? {
      a, next := AllowedNext(v, f, user, app);
    } else if flow.CodeFound? {
      CodeFoundNext(v, f, user, app);
      a := CheckSession(f);
    } else if flow.SessionChecked? {
      SessionCheckedNext(v, f, user, app);
      a := CheckUser(f);
    } else {
      SessionLiveNext(v, f, user, app);
      a := ReadUser(f);
    }
  }
}
