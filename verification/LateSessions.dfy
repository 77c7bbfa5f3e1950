/** Local sessions that outlive the acknowledged message of the event that was
    meant to end them: two runs in which they exist. */
module LateSessions {
  import opened Domain
  import opened Pipeline
  import Access
  import AppStore
  import AuthServer
  import Conservation
  import Delivery
  import EndToEnd
  import Lingering
  import Outbox
  import SessionStore
  import Worker

  /** The message `c` is acknowledged, its event was meant to end the session
      `id` of the application, and the session is live. */
  ghost predicate OutlivesAck(r: Sys, c: nat, app: Uuid, id: Uuid, kind: EventType) {
    && c in r.acked && c < |r.copies| && r.copies[c].eventType == kind
    && id in AppOf(r, app).sessions && EndToEnd.Meant(r.copies[c], app, AppOf(r, app).sessions[id])
    && AppStore.Live(AppOf(r, app).sessions[id])
  }

  /** In some run a session outlives the ACK of such an event. */
  ghost predicate OutlivesSome(s: Sys, w: Wiring, kind: EventType) {
    exists actions, c, app, id :: OutlivesAck(Run(s, w, actions), c, app, id, kind)
  }

  /** Worker and application agree on application 1: its URL and token. */
  ghost predicate Wired(w: Wiring) {
    && Worker.HasCredentials(w.configured, 1) && w.appConfig(1).internalToken == Token(w, 1)
    && (w.appConfig(1).appId.Some? ==> w.appConfig(1).appId == Some(1))
  }

  // ----- runs -----

  lemma RunSnoc(s: Sys, w: Wiring, actions: seq<Action>, a: Action)
    ensures Run(s, w, actions + [a]) == Apply(Run(s, w, actions), w, a)
  {
    assert (actions + [a])[..|actions|] == actions;
  }

  lemma {:induction false} RunConcat(s: Sys, w: Wiring, xs: seq<Action>, ys: seq<Action>)
    ensures Run(s, w, xs + ys) == Run(Run(s, w, xs), w, ys)
  {
    if |ys| == 0 {
      assert xs + ys == xs;
    } else {
      var n := |ys| - 1;
      RunConcat(s, w, xs, ys[..n]);
      RunSnoc(s, w, xs + ys[..n], ys[n]);
      assert xs + ys == xs + ys[..n] + [ys[n]];
    }
  }

  function Lifted(actions: seq<AuthServer.Action>): seq<Action> {
    seq(|actions|, i requires 0 <= i < |actions| => Server(actions[i]))
  }

  /** A run of the Auth Provider is a run of the whole system. */
  lemma {:induction false} LiftRun(s: Sys, w: Wiring, actions: seq<AuthServer.Action>)
    ensures Run(s, w, Lifted(actions)) == s.(server := AuthServer.Run(s.server, actions))
  {
    if |actions| > 0 {
      var n := |actions| - 1;
      LiftRun(s, w, actions[..n]);
      assert Lifted(actions)[..n] == Lifted(actions[..n]);
      EndToEnd.ServerActs(s.(server := AuthServer.Run(s.server, actions[..n])), w, actions[n]);
    }
  }

  /** An acknowledged message stays acknowledged. */
  lemma {:induction false} AckedStays(s: Sys, w: Wiring, actions: seq<Action>, c: nat)
    requires Conservation.Books(s) && c in s.acked && c < |s.copies|
    ensures var r := Run(s, w, actions);
      Conservation.Books(r) && c in r.acked && c < |r.copies| && r.copies[c] == s.copies[c]
  {
    if |actions| > 0 {
      var n := |actions| - 1;
      AckedStays(s, w, actions[..n], c);
      var mid := Run(s, w, actions[..n]);
      Conservation.StepKeepsBooks(mid, w, actions[n]);
      Conservation.LeavesOnlyWhenSettled(mid, w, actions[n], c);
      Conservation.CopiesGrow(mid, w, actions[n]);
      assert Apply(mid, w, actions[n]).copies[..|mid.copies|][c] == mid.copies[c];
    }
  }

  // ----- one event is delivered and acknowledged -----

  function Later(v: AuthServer.State, k: nat): AuthServer.State {
    v.(now := v.now + k)
  }

  /** The broker has taken nothing yet. */
  ghost predicate Untouched(s: Sys, v: AuthServer.State) {
    && s.server == v && s.copies == [] && s.ready == {} && s.buffered == {} && s.acked == {}
    && s.handlers == map[] && s.rows == map[] && s.apps == map[]
  }

  /** Handler 1 holds the only message and has come to `stage`; the delivery row is `row`. */
  ghost predicate AtStage(s: Sys, v: AuthServer.State, e: Payload, stage: Stage, row: Delivery.Row) {
    && s.server == v && s.copies == [e] && s.acked == {} && s.handlers == map[1 := Handler(0, true, stage)]
    && Delivery.RowOf(s.rows, (e.eventId, 1)) == row
  }

  ghost predicate AtPc(s: Sys, v: AuthServer.State, e: Payload, pc: Delivery.Pc, row: Delivery.Row) {
    AtStage(s, v, e, Delivering(map[1 := pc]), row)
  }

  ghost predicate Sendable(w: Wiring, v: AuthServer.State, e: Payload) {
    && e in v.events && Outbox.Supported(e.eventType) && Worker.ValidPayload(e)
    && AppStore.WellFormed(e, w.appConfig(1)) && Wired(w)
  }

  lemma Accepted(s: Sys, w: Wiring, t: Trace, v: AuthServer.State, e: Payload) returns (t': Trace, r: Sys)
    requires Traces(s, w, t, s) && Untouched(s, v) && e in v.events && Outbox.Supported(e.eventType)
    ensures Traces(s, w, t', r) && r == s.(server := Later(v, 1), copies := [e], ready := {0})
  {
    var i :| 0 <= i < |v.events| && v.events[i] == e;
    t', r := TraceOne(s, w, t, s, Publish(i));
  }

  lemma Buffered(s: Sys, w: Wiring, t: Trace, q: Sys) returns (t': Trace, r: Sys)
    requires Traces(s, w, t, q) && q.ready == {0} && q.buffered == {}
    ensures Traces(s, w, t', r)
    ensures r == q.(server := Later(q.server, 1), ready := {}, unacked := q.unacked + {0}, buffered := {0})
  {
    t', r := TraceOne(s, w, t, q, Prefetch(0));
  }

  lemma Handed(s: Sys, w: Wiring, t: Trace, q: Sys) returns (t': Trace, r: Sys)
    requires Traces(s, w, t, q) && q.buffered == {0} && q.handlers == map[]
    ensures Traces(s, w, t', r)
    ensures r == q.(server := Later(q.server, 1), buffered := {}, handlers := map[1 := Handler(0, true, Received)])
  {
    t', r := TraceOne(s, w, t, q, Dispatch(0, 1));
  }

  lemma ToHandler(s: Sys, w: Wiring, v: AuthServer.State, e: Payload) returns (t: Trace, r: Sys)
    requires Untouched(s, v) && e in v.events && Outbox.Supported(e.eventType)
    ensures Traces(s, w, t, r) && AtStage(r, Later(v, 3), e, Received, Delivery.FRESH_ROW)
  {
    NoTrace(s, w);
    t, r := Accepted(s, w, Trace([], [s]), v, e);
    t, r := Buffered(s, w, t, r);
    t, r := Handed(s, w, t, r);
  }

  /** The rows target resolution reads, from the server's state alone. */
  function TokenRows(v: AuthServer.State): set<Worker.Holding> {
    set j | j in v.tokens :: Worker.Holding(v.tokens[j].app, v.tokens[j].user, v.tokens[j].session)
  }

  /** Resolution finds application 1 and no other. */
  ghost predicate OnlyTarget(v: AuthServer.State, e: Payload) {
    Worker.Selected(e, v.apps, TokenRows(v)) == {1}
  }

  lemma ToOneIsPlanned(w: Wiring, v: AuthServer.State, e: Payload)
    requires Wired(w) && OnlyTarget(v, e)
    ensures Worker.Planned(Worker.Deliver([1]), e, v.apps, TokenRows(v), w.configured, false)
  {
    assert Lists([1], {1});
  }

  lemma StartsOne(q: Sys, w: Wiring, v: AuthServer.State, e: Payload, row: Delivery.Row)
    requires AtStage(q, v, e, Received, row) && Worker.ValidPayload(e) && Wired(w) && OnlyTarget(v, e)
    ensures AtPc(ResolveStep(q, w, 1, Worker.Deliver([1]), false), v, e, Delivery.Ready, row)
  {
    assert Holdings(q) == TokenRows(v);
    assert Starting([1]) == map[1 := Delivery.Ready];
    ToOneIsPlanned(w, v, e);
    assert EventOf(q, 1) == e;
    var now := Handler(0, true, Delivering(map[1 := Delivery.Ready]));
    assert q.handlers[1 := now] == map[1 := now];
  }

  lemma Resolved(s: Sys, w: Wiring, t: Trace, q: Sys, v: AuthServer.State, e: Payload, row: Delivery.Row)
    returns (t': Trace, r: Sys)
    requires Traces(s, w, t, q) && AtStage(q, v, e, Received, row)
    requires Worker.ValidPayload(e) && Wired(w) && OnlyTarget(v, e)
    ensures Traces(s, w, t', r) && AtPc(r, Later(v, 1), e, Delivery.Ready, row)
  {
    StartsOne(q, w, v, e, row);
    t', r := TraceOne(s, w, t, q, Resolve(1, Worker.Deliver([1]), false));
  }

  /** A store call that succeeds. */
  const CALM := Delivery.Env(false, false, false, false, 0)

  /** The one program makes its next step. */
  lemma Moves(s: Sys, w: Wiring, t: Trace, q: Sys, v: AuthServer.State, e: Payload,
              pc: Delivery.Pc, row: Delivery.Row, fate: Fate)
    returns (t': Trace, r: Sys)
    requires Traces(s, w, t, q) && AtPc(q, v, e, pc, row)
    ensures Handles(q, 1) && Traces(s, w, t', r)
    ensures var (pc', row') := Delivery.Step(pc, row, CALM.(accepted := Post(q, w, 1, 1, fate).1), w.cfg);
      AtPc(r, Later(v, 1), e, pc', row')
  {
    var (pc', row') := Delivery.Step(pc, row, CALM.(accepted := Post(q, w, 1, 1, fate).1), w.cfg);
    assert PcOf(q, 1, 1) == pc && KeyOf(q, 1, 1) == (e.eventId, 1);
    assert map[1 := pc][1 := pc'] == map[1 := pc'];
    var now := Handler(0, true, Delivering(map[1 := pc']));
    assert q.handlers[1 := now] == map[1 := now];
    t', r := TraceOne(s, w, t, q, Target(1, 1, CALM, fate));
  }

  lemma AcceptsPost(q: Sys, w: Wiring, v: AuthServer.State, e: Payload, pc: Delivery.Pc, row: Delivery.Row)
    requires AtPc(q, v, e, pc, row) && AppStore.WellFormed(e, w.appConfig(1)) && Wired(w)
    ensures Handles(q, 1) && Post(q, w, 1, 1, Arrives(Sound, true)).1
  {
    assert EventOf(q, 1) == e;
  }

  lemma ToDone(s: Sys, w: Wiring, t: Trace, q: Sys, v: AuthServer.State, e: Payload)
    returns (t': Trace, r: Sys, row: Delivery.Row)
    requires Traces(s, w, t, q) && AtPc(q, v, e, Delivery.Ready, Delivery.FRESH_ROW)
    requires AppStore.WellFormed(e, w.appConfig(1)) && Wired(w)
    ensures Traces(s, w, t', r) && AtPc(r, Later(v, 3), e, Delivery.Done(Delivery.Ok), row)
  {
    row := Delivery.Begun(Delivery.FRESH_ROW);
    t', r := Moves(s, w, t, q, v, e, Delivery.Ready, Delivery.FRESH_ROW, NotSent);
    AcceptsPost(r, w, Later(v, 1), e, Delivery.Posting(1), row);
    t', r := Moves(s, w, t', r, Later(v, 1), e, Delivery.Posting(1), row, Arrives(Sound, true));
    t', r := Moves(s, w, t', r, Later(v, 2), e, Delivery.Answered(1), row, NotSent);
    row := Delivery.MarkedSucceeded(row);
  }

  lemma Settled(s: Sys, w: Wiring, t: Trace, q: Sys, v: AuthServer.State, e: Payload, row: Delivery.Row)
    returns (t': Trace, r: Sys)
    requires Traces(s, w, t, q) && AtPc(q, v, e, Delivery.Done(Delivery.Ok), row)
    ensures Traces(s, w, t', r) && r.server == Later(v, 1) && r.copies == [e] && r.acked == {0}
  {
    assert Lists([1], {1});
    assert Finished(q.handlers[1], [1]);
    assert Results(q.handlers[1].stage.pcs, [1]) == [Delivery.Ok];
    assert Verdict(q, 1, [1]) == Worker.Ack;
    t', r := TraceOne(s, w, t, q, Settle(1, [1], true));
  }

  /** Without faults the event is published, delivered and acknowledged. */
  lemma Delivered(s: Sys, w: Wiring, v: AuthServer.State, e: Payload) returns (t: Trace, r: Sys)
    requires Untouched(s, v) && Sendable(w, v, e) && OnlyTarget(v, e)
    ensures Traces(s, w, t, r) && r.server == Later(v, 8) && r.copies == [e] && r.acked == {0}
  {
    t, r := ToHandler(s, w, v, e);
    assert TokenRows(Later(v, 3)) == TokenRows(v);
    t, r := Resolved(s, w, t, r, Later(v, 3), e, Delivery.FRESH_ROW);
    var row;
    t, r, row := ToDone(s, w, t, r, Later(v, 4), e);
    t, r := Settled(s, w, t, r, Later(v, 7), e, row);
  }

  // ----- a callback in flight when its session is revoked -----

  const BEARER := AuthServer.Bearer(1, 1, 1, 1)

  lemma RunTwoMore(s: AuthServer.State, before: seq<AuthServer.Action>, a: AuthServer.Action, b: AuthServer.Action)
    returns (actions: seq<AuthServer.Action>)
    ensures AuthServer.Run(s, actions) == AuthServer.Apply(AuthServer.Apply(AuthServer.Run(s, before), a), b)
  {
    AuthServer.RunSnoc(s, before, a);
    AuthServer.RunSnoc(s, before + [a], b);
    actions := before + [a] + [b];
  }

  /** Application 1 holds a token of session 1 that /userinfo accepts. */
  ghost predicate HoldsToken(v: AuthServer.State) {
    && AuthServer.SignedIn(v, 10) && v.flows == map[1 := AuthServer.TokenHeld(BEARER)]
    && v.tokens.Keys == {1} && AuthServer.TokenMatches(v, BEARER)
  }

  lemma ToToken(s: AuthServer.State) returns (actions: seq<AuthServer.Action>)
    requires AuthServer.Init(s)
    ensures HoldsToken(AuthServer.Run(s, actions))
  {
    actions := AuthServer.Prepare(s);
    actions := AuthServer.Authorize(s, actions);
    AuthServer.TokenSteps(AuthServer.Run(s, actions));
    actions := RunTwoMore(s, actions, AuthServer.RequestToken(1, 1, 1, "", ""), AuthServer.CheckSession(1));
    AuthServer.RedeemSteps(AuthServer.Run(s, actions));
    actions := RunTwoMore(s, actions, AuthServer.CheckUser(1), AuthServer.Redeem(1, 1, 100, false));
  }

  lemma Answers(v: AuthServer.State)
    requires HoldsToken(v)
    ensures var r := AuthServer.Apply(AuthServer.Apply(v, AuthServer.ReadMetadata(1)), AuthServer.ReadSession(1));
      r == Later(v, 2).(flows := map[1 := AuthServer.SessionLive(BEARER)])
  {
    Lingering.GateEffect(v, AuthServer.ReadMetadata(1), 1, AuthServer.MetadataChecked(BEARER));
    var r := AuthServer.Apply(v, AuthServer.ReadMetadata(1));
    assert r.flows == map[1 := AuthServer.MetadataChecked(BEARER)];
    Lingering.GateEffect(r, AuthServer.ReadSession(1), 1, AuthServer.SessionLive(BEARER));
    assert r.flows[1 := AuthServer.SessionLive(BEARER)] == map[1 := AuthServer.SessionLive(BEARER)];
  }

  const LOGOUT := AuthServer.Sessions(SessionStore.SsoLogout(1, true))

  function LogoutEvent(v: AuthServer.State): Payload {
    BuildEvent(v.events, SessionRevoked, 1, Some(1), None, SessionStore.SSO_LOGOUT, v.now)
  }

  lemma LogsOut(v: AuthServer.State)
    requires AuthServer.SignedIn(v, 5)
    ensures var r := AuthServer.Apply(v, LOGOUT);
      r == Later(v, 1).(sessions := r.sessions, events := v.events + [LogoutEvent(v)])
  {
  }

  /** The callback has seen session 1 alive; then the session ends with event `e`. */
  ghost predicate Overtaken(v: AuthServer.State, e: Payload) {
    && v.flows == map[1 := AuthServer.SessionLive(BEARER)] && OnlyTarget(v, e)
    && e in v.events && Worker.ValidPayload(e) && e.eventType == SessionRevoked && e.centralSessionId == Some(1)
  }

  ghost predicate SeenAlive(v: AuthServer.State) {
    && v.flows == map[1 := AuthServer.SessionLive(BEARER)] && v.tokens.Keys == {1}
    && AuthServer.SignedIn(v, 5) && AuthServer.BearerOk(v, BEARER) && v.now > 0
  }

  lemma LogoutOvertakes(v: AuthServer.State)
    requires SeenAlive(v)
    ensures Overtaken(AuthServer.Apply(v, LOGOUT), LogoutEvent(v))
  {
    LogsOut(v);
    var r := AuthServer.Apply(v, LOGOUT);
    assert r.events[|v.events|] == LogoutEvent(v);
    assert TokenRows(r) == {Worker.Holding(1, 1, 1)};
  }

  lemma ToSeenAlive(s: AuthServer.State) returns (actions: seq<AuthServer.Action>)
    requires AuthServer.Init(s)
    ensures SeenAlive(AuthServer.Run(s, actions))
  {
    var before := ToToken(s);
    Answers(AuthServer.Run(s, before));
    actions := RunTwoMore(s, before, AuthServer.ReadMetadata(1), AuthServer.ReadSession(1));
    assert AuthServer.Run(s, actions).tokens == AuthServer.Run(s, before).tokens;
  }

  lemma ToOvertaken(s: AuthServer.State) returns (actions: seq<AuthServer.Action>, e: Payload)
    requires AuthServer.Init(s)
    ensures Overtaken(AuthServer.Run(s, actions), e)
  {
    var before := ToSeenAlive(s);
    e := LogoutEvent(AuthServer.Run(s, before));
    LogoutOvertakes(AuthServer.Run(s, before));
    AuthServer.RunSnoc(s, before, LOGOUT);
    actions := before + [LOGOUT];
  }

  // ----- a code not yet redeemed when its access path is lost -----

  /** Code 1 can still be redeemed although event `e` says its path is gone. */
  ghost predicate CodeLeft(v: AuthServer.State, e: Payload) {
    && AuthServer.SignedIn(v, 30) && AuthServer.CodeWaits(v, 30) && v.policies == {}
    && OnlyTarget(v, e) && e in v.events && Worker.ValidPayload(e)
    && e.eventType == AccessPolicyChanged && e.applicationId == Some(1) && e.userId == 1
  }

  lemma ToCodeLeft(s: AuthServer.State) returns (actions: seq<AuthServer.Action>, e: Payload)
    requires AuthServer.Init(s)
    ensures CodeLeft(AuthServer.Run(s, actions), e)
  {
    actions := AuthServer.Prepare(s);
    actions := AuthServer.Authorize(s, actions);
    AuthServer.RunKeepsInv(s, actions);
    var v := AuthServer.Run(s, actions);
    e := AuthServer.LossEvent(v);
    actions := AuthServer.DropPolicy(s, actions);
    var r := AuthServer.Run(s, actions);
    assert r.events[|v.events|] == e;
  }

  // ----- results -----

  /** The event is acknowledged in a run of the whole system. */
  lemma Acknowledged(s: Sys, w: Wiring, server: seq<AuthServer.Action>, e: Payload)
    returns (actions: seq<Action>, r: Sys)
    requires Init(s) && Sendable(w, AuthServer.Run(s.server, server), e)
    requires OnlyTarget(AuthServer.Run(s.server, server), e)
    ensures Run(s, w, actions) == r && EndToEnd.Inv(r)
    ensures r.server == Later(AuthServer.Run(s.server, server), 8) && r.copies == [e] && r.acked == {0}
  {
    var q := s.(server := AuthServer.Run(s.server, server));
    LiftRun(s, w, server);
    var t;
    t, r := Delivered(q, w, q.server, e);
    TraceIsRun(q, w, t, r);
    RunConcat(s, w, Lifted(server), t.actions);
    actions := Lifted(server) + t.actions;
    EndToEnd.RunKeepsInv(s, w, actions);
  }

  lemma CallbackEnds(s: Sys, w: Wiring, v: AuthServer.State, e: Payload) returns (actions: seq<Action>, id: Uuid)
    requires EndToEnd.Inv(s) && s.server == Later(v, 8) && s.copies == [e] && s.acked == {0} && Overtaken(v, e)
    ensures OutlivesAck(Run(s, w, actions), 0, 1, id, SessionRevoked)
  {
    assert AuthServer.Past(s.server.flows[1], 1, 1);
    actions := EndToEnd.LateLogin(s, w, 1, 1);
    AckedStays(s, w, actions, 0);
    var db := AppOf(Run(s, w, actions), 1);
    id :| id in db.sessions && db.sessions[id].central == 1 && AppStore.Live(db.sessions[id]);
  }

  lemma CodeEnds(s: Sys, w: Wiring, v: AuthServer.State, e: Payload) returns (actions: seq<Action>, id: Uuid)
    requires EndToEnd.Inv(s) && s.server == Later(v, 8) && s.copies == [e] && s.acked == {0} && CodeLeft(v, e)
    ensures OutlivesAck(Run(s, w, actions), 0, 1, id, AccessPolicyChanged)
  {
    assert s.server.pkce("") == s.server.codes[1].challenge;
    actions := EndToEnd.LatePairLogin(s, w, Lingering.InCode(1), 1, 1);
    AckedStays(s, w, actions, 0);
    var db := AppOf(Run(s, w, actions), 1);
    id :| id in db.sessions && db.sessions[id].user == 1 && AppStore.Live(db.sessions[id]);
  }

  lemma Found(s: Sys, w: Wiring, before: seq<Action>, mid: Sys, after: seq<Action>,
              c: nat, app: Uuid, id: Uuid, kind: EventType)
    requires Run(s, w, before) == mid && OutlivesAck(Run(mid, w, after), c, app, id, kind)
    ensures OutlivesSome(s, w, kind)
  {
    RunConcat(s, w, before, after);
    assert OutlivesAck(Run(s, w, before + after), c, app, id, kind);
  }

  /** A revoked central session can be back in an application after its event is
      acknowledged: the user logs out while a callback is between /userinfo's
      check and its insert. */
  lemma RevokedSessionReturns(s: Sys, w: Wiring)
    requires Init(s) && Wired(w)
    ensures OutlivesSome(s, w, SessionRevoked)
  {
    var server, e := ToOvertaken(s.server);
    var before, r := Acknowledged(s, w, server, e);
    var after, id := CallbackEnds(r, w, AuthServer.Run(s.server, server), e);
    Found(s, w, before, r, after, 0, 1, id, SessionRevoked);
  }

  /** So can a lost access path: the policy is deleted between the authorization
      check and the redemption of the code. */
  lemma LostAccessReturns(s: Sys, w: Wiring)
    requires Init(s) && Wired(w)
    ensures OutlivesSome(s, w, AccessPolicyChanged)
  {
    var server, e := ToCodeLeft(s.server);
    var before, r := Acknowledged(s, w, server, e);
    var after, id := CodeEnds(r, w, AuthServer.Run(s.server, server), e);
    Found(s, w, before, r, after, 0, 1, id, AccessPolicyChanged);
  }
}
