/** End-to-end safety of revocation, over every run with crashes, retries,
    duplicates and lost answers. */
module EndToEnd {
  import opened Domain
  import opened Pipeline
  import Access
  import AppStore
  import AuthServer
  import Conservation
  import Contract
  import Delivery
  import Lingering
  import SessionStore
  import Worker

  // ----- one application's database -----

  /** What recording an event promises: whatever live session it concerns was
      created afterwards. */
  ghost predicate Kept(db: AppStore.AppDb, e: Payload, id: Uuid)
    requires e.eventId in db.processed && id in db.sessions
  {
    AppStore.Live(db.sessions[id]) && AppStore.Concerns(e, db.sessions[id])
    ==> db.processed[e.eventId].at < db.sessions[id].createdAt
  }

  ghost predicate AppOk(db: AppStore.AppDb, events: seq<Payload>, now: Time) {
    && (forall e <- db.processed :: 1 <= e <= |events| && db.processed[e].at < now && events[e - 1].eventId == e)
    && (forall e <- db.processed, id <- db.sessions :: Kept(db, events[e - 1], id))
  }

  lemma LoginKeeps(db: AppStore.AppDb, events: seq<Payload>, id: Uuid, user: Uuid, central: Uuid, now: Time, ttl: Time)
    requires AppOk(db, events, now)
    ensures AppOk(AppStore.CreateSession(db, id, user, central, now, ttl), events, now + 1)
  {
    var r := AppStore.CreateSession(db, id, user, central, now, ttl);
    forall e, x | e in r.processed && x in r.sessions ensures Kept(r, events[e - 1], x) {
      if x in db.sessions {
        assert Kept(db, events[e - 1], x);
      }
    }
  }

  lemma LogoutKeeps(db: AppStore.AppDb, events: seq<Payload>, id: Uuid, reason: string, now: Time)
    requires AppOk(db, events, now)
    ensures AppOk(AppStore.RevokeSession(db, id, reason, now), events, now + 1)
  {
    var r := AppStore.RevokeSession(db, id, reason, now);
    forall e, x | e in r.processed && x in r.sessions ensures Kept(r, events[e - 1], x) {
      assert Kept(db, events[e - 1], x);
    }
  }

  lemma ProcessKeeps(db: AppStore.AppDb, events: seq<Payload>, i: nat, now: Time)
    requires AppOk(db, events, now) && i < |events| && events[i].eventId == i + 1
    ensures AppOk(AppStore.Process(db, events[i], now), events, now + 1)
  {
    var r := AppStore.Process(db, events[i], now);
    forall e, x | e in r.processed && x in r.sessions ensures Kept(r, events[e - 1], x) {
      if e in db.processed {
        assert Kept(db, events[e - 1], x);
      }
    }
  }

  lemma LaterKeeps(db: AppStore.AppDb, events: seq<Payload>, more: seq<Payload>, now: Time, later: Time)
    requires AppOk(db, events, now) && events <= more && now <= later
    ensures AppOk(db, more, later)
  {
    forall e, x | e in db.processed && x in db.sessions ensures Kept(db, more[e - 1], x) {
      assert Kept(db, events[e - 1], x) && events[e - 1] == more[e - 1];
    }
  }

  // ----- the invariant -----

  ghost predicate Recorded(s: Sys, app: Uuid, event: Uuid) {
    event in AppOf(s, app).processed
  }

  /** Some access token of the session was issued to the application. */
  ghost predicate Held(v: AuthServer.State, app: Uuid, user: Uuid, session: Uuid) {
    && app in v.apps && AuthServer.OwnedSession(v, session, user)
    && exists j <- v.tokens :: v.tokens[j].app == app && v.tokens[j].user == user && v.tokens[j].session == session
  }

  ghost predicate SessionsHeld(s: Sys, app: Uuid) {
    forall id <- AppOf(s, app).sessions ::
      Held(s.server, app, AppOf(s, app).sessions[id].user, AppOf(s, app).sessions[id].central)
  }

  /** The application has a local session of the central session, or may get one. */
  ghost predicate Bound(s: Sys, app: Uuid, session: Uuid) {
    || (exists id <- AppOf(s, app).sessions :: AppOf(s, app).sessions[id].central == session)
    || (exists f <- s.server.flows :: AuthServer.Past(s.server.flows[f], app, session))
  }

  /** The applications an event has to reach. */
  ghost predicate Must(s: Sys, e: Payload, app: Uuid) {
    if e.applicationId.Some? then e.applicationId == Some(app)
    else e.centralSessionId.Some? && Bound(s, app, e.centralSessionId.value)
  }

  ghost predicate ServerOk(s: Sys) {
    && AuthServer.Inv(s.server) && Contract.AllMade(s.server)
    && (forall c <- s.copies :: c in s.server.events)
  }

  ghost predicate AppsOk(s: Sys) {
    forall x :: AppOk(AppOf(s, x), s.server.events, s.server.now) && SessionsHeld(s, x)
  }

  predicate Accepted(pc: Delivery.Pc) {
    pc.Answered? || pc == Delivery.Done(Delivery.Ok)
  }

  /** A recorded success, and an answer a program holds, are the application's. */
  ghost predicate Sound(s: Sys) {
    && (forall k: Delivery.Key :: Delivery.RowOf(s.rows, k).status == Delivery.Succeeded ==> Recorded(s, k.1, k.0))
    && (forall h, x :: Targets(s, h, x) && Accepted(PcOf(s, h, x)) ==> Recorded(s, x, EventOf(s, h).eventId))
  }

  /** A handler that has resolved its targets has every application its event
      must reach among them. */
  ghost predicate TargetsOk(s: Sys) {
    forall h, x :: Handles(s, h) && s.handlers[h].stage.Delivering? && Must(s, EventOf(s, h), x) ==> Targets(s, h, x)
  }

  ghost predicate AckOk(s: Sys) {
    forall c: nat, x :: c in s.acked && c < |s.copies| && Must(s, s.copies[c], x)
      ==> Recorded(s, x, s.copies[c].eventId)
  }

  ghost predicate Inv(s: Sys) {
    ServerOk(s) && Conservation.Books(s) && AppsOk(s) && Sound(s) && TargetsOk(s) && AckOk(s)
  }

  // ----- the server side -----

  lemma ServerExtends(v: AuthServer.State, a: AuthServer.Action)
    requires AuthServer.Inv(v)
    ensures AuthServer.Extends(v, AuthServer.Apply(v, a))
  {
    if a.Sessions? {
      AuthServer.SessionsEffect(v, a.sessionOp);
    } else if a.Policies? {
      AuthServer.PoliciesExtend(v, a.policyOp);
    } else if a.Tick? || a.RegisterApp? {
      AuthServer.ClockEffect(v, a);
    } else if AuthServer.Commits(v, a) {
      AuthServer.RedeemEffect(v, a);
    } else if AuthServer.Issues(v, a) {
      AuthServer.IssueEffect(v, a);
    } else {
      AuthServer.FlowEffect(v, a);
    }
  }

  /** An event is never taken off the outbox, and the clock moves. */
  lemma ServerGrows(v: AuthServer.State, a: AuthServer.Action)
    requires AuthServer.Inv(v) && Contract.AllMade(v)
    ensures var r := AuthServer.Apply(v, a);
      AuthServer.Inv(r) && Contract.AllMade(r) && AuthServer.Extends(v, r) && v.events <= r.events && v.now < r.now
  {
    AuthServer.StepKeepsInv(v, a);
    Contract.StepMakes(v, a);
    Contract.StepAppends(v, a);
    ServerExtends(v, a);
  }

  /** A session some event names is not live, so /userinfo refuses it. */
  lemma NamedIsDead(v: AuthServer.State, e: Payload)
    requires AuthServer.Inv(v) && e in v.events && e.centralSessionId.Some?
    ensures !AuthServer.UsableSession(v, e.centralSessionId.value)
  {
    SessionStore.NamedZero(v.events, e.centralSessionId.value);
    assert SessionStore.Names(e, e.centralSessionId.value);
  }

  lemma HeldStays(v: AuthServer.State, r: AuthServer.State, app: Uuid, user: Uuid, session: Uuid)
    requires AuthServer.Extends(v, r) && Held(v, app, user, session)
    ensures Held(r, app, user, session)
  {
    var j :| j in v.tokens && v.tokens[j].app == app && v.tokens[j].user == user && v.tokens[j].session == session;
    assert r.tokens[j].app == app && r.tokens[j].user == user && r.tokens[j].session == session;
  }

  lemma BearerHeld(v: AuthServer.State, f: Uuid, app: Uuid, session: Uuid)
    requires AuthServer.Inv(v) && f in v.flows && AuthServer.Past(v.flows[f], app, session)
    ensures Held(v, app, v.flows[f].bearer.user, session)
  {
    assert AuthServer.FlowOk(v, v.flows[f]);
    var j := v.flows[f].bearer.jti;
    assert AuthServer.TokenOk(v, j);
    assert AuthServer.CodeOk(v, v.tokens[j].origin.code);
  }

  /** The bound applications are among those target resolution selects. */
  lemma MustIsSelected(s: Sys, e: Payload, app: Uuid)
    requires ServerOk(s) && AppsOk(s) && e in s.server.events && Must(s, e, app)
    requires e.applicationId.None?
    ensures app in Worker.Selected(e, s.server.apps, Holdings(s))
  {
    var session := e.centralSessionId.value;
    var user: Uuid;
    if id :| id in AppOf(s, app).sessions && AppOf(s, app).sessions[id].central == session {
      user := AppOf(s, app).sessions[id].user;
      assert SessionsHeld(s, app);
    } else {
      var f :| f in s.server.flows && AuthServer.Past(s.server.flows[f], app, session);
      user := s.server.flows[f].bearer.user;
      BearerHeld(s.server, f, app, session);
    }
    assert user == e.userId;
    var j :| j in s.server.tokens && s.server.tokens[j].app == app && s.server.tokens[j].user == user
             && s.server.tokens[j].session == session;
    assert Worker.Holding(app, user, session) in Holdings(s);
  }

  // ----- preservation -----

  lemma CopiesAppend(s: Sys, w: Wiring, a: Action)
    ensures var r := Act(s, w, a); r.server == s.server && s.copies <= r.copies
    ensures forall c <- Act(s, w, a).copies :: c in s.copies || c in s.server.events
  {
  }

  lemma StepServerOk(s: Sys, w: Wiring, a: Action)
    requires ServerOk(s)
    ensures ServerOk(Apply(s, w, a))
  {
    CopiesAppend(s, w, a);
    ServerGrows(s.server, ServerSide(a));
    var r := Apply(s, w, a);
    forall c | c in r.copies ensures c in r.server.events {
      var i :| 0 <= i < |s.server.events| && s.server.events[i] == c;
      assert r.server.events[i] == c;
    }
  }

  lemma PostOk(s: Sys, w: Wiring, h: Uuid, x: Uuid, fate: Fate)
    requires ServerOk(s) && AppOk(AppOf(s, x), s.server.events, s.server.now) && Handles(s, h)
    ensures AppOk(Post(s, w, h, x, fate).0, s.server.events, s.server.now + 1)
  {
    var events := s.server.events;
    PostProcesses(s, w, h, x, fate);
    LaterKeeps(AppOf(s, x), events, events, s.server.now, s.server.now + 1);
    assert EventOf(s, h) in s.copies;
    var i :| 0 <= i < |events| && events[i] == EventOf(s, h);
    ProcessKeeps(AppOf(s, x), events, i, s.server.now);
  }

  lemma AppAfterOk(s: Sys, w: Wiring, a: Action, x: Uuid)
    requires ServerOk(s) && AppOk(AppOf(s, x), s.server.events, s.server.now)
    ensures AppOk(AppAfter(s, w, a, x), s.server.events, s.server.now + 1)
  {
    var db, events, now := AppOf(s, x), s.server.events, s.server.now;
    LaterKeeps(db, events, events, now, now + 1);
    if a.CreateLocal? && a.flow in s.server.flows && s.server.flows[a.flow].Profile? {
      var b := s.server.flows[a.flow].bearer;
      LoginKeeps(db, events, a.id, b.user, b.session, now, a.ttl);
    } else if a.LocalLogout? {
      LogoutKeeps(db, events, a.id, "local_logout", now);
    } else if a.Target? && Handles(s, a.handler) {
      PostOk(s, w, a.handler, x, a.fate);
    }
  }

  /** A session in an application's table was there, or a callback that saw the
      central session alive has just stored it. */
  lemma AppAfterSessions(s: Sys, w: Wiring, a: Action, x: Uuid, id: Uuid)
    requires id in AppAfter(s, w, a, x).sessions
    ensures var y := AppAfter(s, w, a, x).sessions[id];
      || (id in AppOf(s, x).sessions && AppOf(s, x).sessions[id].user == y.user
          && AppOf(s, x).sessions[id].central == y.central)
      || (exists f <- s.server.flows :: AuthServer.Past(s.server.flows[f], x, y.central)
                                        && s.server.flows[f].bearer.user == y.user)
  {
    if a.Target? && Targets(s, a.handler, x) {
      PostProcesses(s, w, a.handler, x, a.fate);
    }
  }

  /** A session appears in an application only as the last step of a callback whose
      profile was answered: it is live, belongs to the bearer's user and central
      session, and lasts as long as asked. */
  lemma StoredByCallback(s: Sys, w: Wiring, a: Action, x: Uuid, id: Uuid)
    requires id in AppOf(Apply(s, w, a), x).sessions && id !in AppOf(s, x).sessions
    ensures a.CreateLocal? && a.id == id && a.flow in s.server.flows && s.server.flows[a.flow].Profile?
    ensures var b, y := s.server.flows[a.flow].bearer, AppOf(Apply(s, w, a), x).sessions[id];
      && b.app == x && y.user == b.user && y.central == b.session && y.status == AppStore.Active && y.revokedAt.None?
      && y.createdAt == s.server.now && y.expiresAt == s.server.now + a.ttl
  {
    AppsAfter(s, w, a, x);
    if a.Target? && Targets(s, a.handler, x) {
      PostProcesses(s, w, a.handler, x, a.fate);
    }
  }

  lemma AppAfterHeld(s: Sys, w: Wiring, a: Action, x: Uuid, id: Uuid)
    requires ServerOk(s) && AppsOk(s) && id in AppAfter(s, w, a, x).sessions
    ensures var y := AppAfter(s, w, a, x).sessions[id];
      Held(AuthServer.Apply(s.server, ServerSide(a)), x, y.user, y.central)
  {
    var y := AppAfter(s, w, a, x).sessions[id];
    AppAfterSessions(s, w, a, x, id);
    if f :| f in s.server.flows && AuthServer.Past(s.server.flows[f], x, y.central)
            && s.server.flows[f].bearer.user == y.user {
      BearerHeld(s.server, f, x, y.central);
    } else {
      assert SessionsHeld(s, x);
    }
    ServerGrows(s.server, ServerSide(a));
    HeldStays(s.server, AuthServer.Apply(s.server, ServerSide(a)), x, y.user, y.central);
  }

  lemma AppsAfter(s: Sys, w: Wiring, a: Action, x: Uuid)
    ensures AppOf(Apply(s, w, a), x) == AppAfter(s, w, a, x)
  {
    AppsMove(s, w, a, x);
  }

  lemma StepAppsOk(s: Sys, w: Wiring, a: Action)
    requires ServerOk(s) && AppsOk(s)
    ensures AppsOk(Apply(s, w, a))
  {
    var r := Apply(s, w, a);
    ServerGrows(s.server, ServerSide(a));
    forall x ensures AppOk(AppOf(r, x), r.server.events, r.server.now) && SessionsHeld(r, x) {
      AppsAfter(s, w, a, x);
      AppAfterOk(s, w, a, x);
      LaterKeeps(AppAfter(s, w, a, x), s.server.events, r.server.events, s.server.now + 1, r.server.now);
      forall id | id in AppOf(r, x).sessions
        ensures Held(r.server, x, AppOf(r, x).sessions[id].user, AppOf(r, x).sessions[id].central)
      {
        AppAfterHeld(s, w, a, x, id);
      }
    }
  }

  lemma RecordedStays(s: Sys, w: Wiring, a: Action, x: Uuid, e: Uuid)
    requires Recorded(s, x, e)
    ensures Recorded(Act(s, w, a), x, e)
  {
    AppsMove(s, w, a, x);
    if a.Target? && Targets(s, a.handler, x) {
      PostProcesses(s, w, a.handler, x, a.fate);
    }
  }

  lemma AllRecordedStay(s: Sys, w: Wiring, a: Action)
    ensures forall x, e :: Recorded(s, x, e) ==> Recorded(Act(s, w, a), x, e)
  {
    forall x, e | Recorded(s, x, e) ensures Recorded(Act(s, w, a), x, e) {
      RecordedStays(s, w, a, x, e);
    }
  }

  lemma RestIsSound(s: Sys, r: Sys)
    requires Sound(s) && ProgramsRest(s, r)
    requires forall x, e :: Recorded(s, x, e) ==> Recorded(r, x, e)
    ensures Sound(r)
  {
    forall h, x | Targets(r, h, x) && Accepted(PcOf(r, h, x)) ensures Recorded(r, x, EventOf(r, h).eventId) {
      assert Targets(s, h, x) && PcOf(r, h, x) == PcOf(s, h, x);
    }
  }

  lemma MoveIsSound(s: Sys, r: Sys, h: Uuid, a: Uuid, pc: Delivery.Pc, row: Delivery.Row)
    requires Sound(s) && Targets(s, h, a) && OneProgramMoves(s, r, h, a, pc, row)
    requires forall x, e :: Recorded(s, x, e) ==> Recorded(r, x, e)
    requires Accepted(pc) || row.status == Delivery.Succeeded ==> Recorded(r, a, EventOf(s, h).eventId)
    ensures Sound(r)
  {
    forall k, b | Targets(r, k, b) && Accepted(PcOf(r, k, b)) ensures Recorded(r, b, EventOf(r, k).eventId) {
      assert Targets(s, k, b) && KeyOf(r, k, b) == KeyOf(s, k, b);
    }
  }

  lemma TargetIsSound(s: Sys, w: Wiring, a: Action)
    requires Sound(s) && a.Target? && Targets(s, a.handler, a.app)
    ensures Sound(Act(s, w, a))
  {
    var r := Act(s, w, a);
    var (pc, row) := Moved(s, w, a.handler, a.app, a.env, a.fate);
    AllRecordedStay(s, w, a);
    TargetMoves(s, w, a.handler, a.app, a.env, a.fate);
    PostProcesses(s, w, a.handler, a.app, a.fate);
    AppsMove(s, w, a, a.app);
    Delivery.StepFacts(PcOf(s, a.handler, a.app), Delivery.RowOf(s.rows, KeyOf(s, a.handler, a.app)),
                       a.env.(accepted := Post(s, w, a.handler, a.app, a.fate).1), w.cfg);
    MoveIsSound(s, r, a.handler, a.app, pc, row);
  }

  lemma ActIsSound(s: Sys, w: Wiring, a: Action)
    requires Sound(s) && Conservation.Books(s)
    ensures Sound(Act(s, w, a))
  {
    if a.Target? && Targets(s, a.handler, a.app) {
      TargetIsSound(s, w, a);
    } else if !a.Target? {
      AllRecordedStay(s, w, a);
      OthersRest(s, w, a);
      RestIsSound(s, Act(s, w, a));
    }
  }

  lemma ServerLeavesSound(s: Sys, v: AuthServer.State)
    requires Sound(s)
    ensures Sound(s.(server := v))
  {
    var r := s.(server := v);
    assert forall x, e :: Recorded(s, x, e) <==> Recorded(r, x, e);
    forall h, x | Targets(r, h, x) && Accepted(PcOf(r, h, x)) ensures Recorded(r, x, EventOf(r, h).eventId) {
      assert Targets(s, h, x) && PcOf(r, h, x) == PcOf(s, h, x);
    }
  }

  // ----- who must be reached -----

  /** Once an event names a session no application becomes bound to it. */
  lemma BoundStays(s: Sys, w: Wiring, a: Action, x: Uuid, session: Uuid)
    requires !AuthServer.UsableSession(s.server, session) && Bound(Apply(s, w, a), x, session)
    ensures Bound(s, x, session)
  {
    var r := Apply(s, w, a);
    AppsAfter(s, w, a, x);
    if id :| id in AppOf(r, x).sessions && AppOf(r, x).sessions[id].central == session {
      AppAfterSessions(s, w, a, x, id);
    } else {
      AuthServer.StepPasses(s.server, ServerSide(a), x, session);
      var f :| f in r.server.flows && AuthServer.Past(r.server.flows[f], x, session);
    }
  }

  lemma MustStays(s: Sys, w: Wiring, a: Action, e: Payload, x: Uuid)
    requires ServerOk(s) && e in s.copies && Must(Apply(s, w, a), e, x)
    ensures Must(s, e, x)
  {
    if e.applicationId.None? {
      NamedIsDead(s.server, e);
      BoundStays(s, w, a, x, e.centralSessionId.value);
    }
  }

  /** A handler that has targets had the same ones before, or has just resolved them. */
  ghost predicate SameTargets(s: Sys, r: Sys, h: Uuid)
    requires Handles(r, h)
  {
    && Handles(s, h) && EventOf(r, h) == EventOf(s, h) && s.handlers[h].stage.Delivering?
    && r.handlers[h].stage.Delivering? && r.handlers[h].stage.pcs.Keys == s.handlers[h].stage.pcs.Keys
  }

  lemma TargetKeepsTargets(s: Sys, w: Wiring, k: Uuid, app: Uuid, env: Delivery.Env, fate: Fate, h: Uuid)
    requires var r := TargetStep(s, w, k, app, env, fate); Handles(r, h) && r.handlers[h].stage.Delivering?
    ensures SameTargets(s, TargetStep(s, w, k, app, env, fate), h)
  {
  }

  lemma SettleKeepsTargets(s: Sys, k: Uuid, arrival: seq<Uuid>, reaches: bool, h: Uuid)
    requires var r := SettleStep(s, k, arrival, reaches); Handles(r, h) && r.handlers[h].stage.Delivering?
    ensures SameTargets(s, SettleStep(s, k, arrival, reaches), h)
  {
  }

  lemma TargetsRest(s: Sys, w: Wiring, a: Action, h: Uuid)
    requires Conservation.Books(s) && !a.Resolve?
    requires Handles(Act(s, w, a), h) && Act(s, w, a).handlers[h].stage.Delivering?
    ensures SameTargets(s, Act(s, w, a), h)
  {
    if a.Target? {
      TargetKeepsTargets(s, w, a.handler, a.app, a.env, a.fate, h);
    } else if a.Settle? {
      SettleKeepsTargets(s, a.handler, a.arrival, a.reaches, h);
    }
  }

  lemma ResolveTargetsRest(s: Sys, w: Wiring, h: Uuid, plan: Worker.Plan, dbFails: bool, k: Uuid)
    requires var r := ResolveStep(s, w, h, plan, dbFails); Handles(r, k) && r.handlers[k].stage.Delivering?
    ensures var r := ResolveStep(s, w, h, plan, dbFails);
      || SameTargets(s, r, k)
      || (k == h && Handles(s, h) && EventOf(r, h) == EventOf(s, h) && plan.Deliver?
          && Worker.Planned(plan, EventOf(s, h), s.server.apps, Holdings(s), w.configured, dbFails)
          && r.handlers[h].stage.pcs.Keys == set x | x in plan.apps)
  {
  }

  /** A plan to deliver leaves out no application the event must reach. */
  lemma PlanCovers(s: Sys, w: Wiring, e: Payload, plan: Worker.Plan, dbFails: bool, x: Uuid)
    requires ServerOk(s) && AppsOk(s) && e in s.copies && Must(s, e, x)
    requires plan.Deliver? && Worker.Planned(plan, e, s.server.apps, Holdings(s), w.configured, dbFails)
    ensures x in plan.apps
  {
    var selected := Worker.Selected(e, s.server.apps, Holdings(s));
    if e.applicationId.None? {
      MustIsSelected(s, e, x);
    } else {
      var y :| y in selected;
      assert y == x;
    }
  }

  lemma StepTargetsOk(s: Sys, w: Wiring, a: Action, h: Uuid, x: Uuid)
    requires Inv(s)
    requires var r := Act(s, w, a);
      Handles(r, h) && r.handlers[h].stage.Delivering? && Must(Apply(s, w, a), EventOf(r, h), x)
    ensures Targets(Act(s, w, a), h, x)
  {
    var r := Act(s, w, a);
    if a.Resolve? {
      ResolveTargetsRest(s, w, a.handler, a.plan, a.dbFails, h);
    } else {
      TargetsRest(s, w, a, h);
    }
    MustStays(s, w, a, EventOf(s, h), x);
    if SameTargets(s, r, h) {
      assert Targets(s, h, x);
    } else {
      PlanCovers(s, w, EventOf(s, h), a.plan, a.dbFails, x);
    }
  }

  /** An ACK means every target has recorded the event. */
  lemma TargetIsRecorded(s: Sys, h: Uuid, arrival: seq<Uuid>, x: Uuid)
    requires Sound(s) && Targets(s, h, x) && CanSettle(s, h, arrival) && Verdict(s, h, arrival) == Worker.Ack
    ensures Recorded(s, x, EventOf(s, h).eventId)
  {
    var pcs := s.handlers[h].stage.pcs;
    assert x in pcs.Keys;
    var i :| 0 <= i < |arrival| && arrival[i] == x;
    assert Results(pcs, arrival)[i] in Results(pcs, arrival);
    assert PcOf(s, h, x) == Delivery.Done(Delivery.Ok);
  }

  /** And so has every application the event must reach. */
  lemma AckIsRecorded(s: Sys, h: Uuid, arrival: seq<Uuid>, x: Uuid)
    requires Sound(s) && TargetsOk(s) && Handles(s, h) && CanSettle(s, h, arrival)
    requires Verdict(s, h, arrival) == Worker.Ack && Must(s, EventOf(s, h), x)
    ensures Recorded(s, x, EventOf(s, h).eventId)
  {
    assert Targets(s, h, x);
    TargetIsRecorded(s, h, arrival, x);
  }

  lemma StepAckOk(s: Sys, w: Wiring, a: Action, c: nat, x: Uuid)
    requires Inv(s)
    requires var r := Act(s, w, a); c in r.acked && c < |r.copies| && Must(Apply(s, w, a), r.copies[c], x)
    ensures var r := Act(s, w, a); Recorded(r, x, r.copies[c].eventId)
  {
    var r := Act(s, w, a);
    Conservation.ActFacts(s, w, a, c);
    CopiesAppend(s, w, a);
    assert c in s.acked || Conservation.Settles(s, a, c, Worker.Ack);
    assert Conservation.InBooks(s, c) || !(c in s.acked);
    assert c < |s.copies|;
    assert s.copies[c] in s.copies && r.copies[c] == s.copies[c];
    MustStays(s, w, a, s.copies[c], x);
    if c !in s.acked {
      AckIsRecorded(s, a.handler, a.arrival, x);
    }
    RecordedStays(s, w, a, x, s.copies[c].eventId);
  }

  lemma StepTargetsAndAcks(s: Sys, w: Wiring, a: Action)
    requires Inv(s)
    ensures TargetsOk(Apply(s, w, a)) && AckOk(Apply(s, w, a))
  {
    var r, r' := Act(s, w, a), Apply(s, w, a);
    forall h, x | Handles(r', h) && r'.handlers[h].stage.Delivering? && Must(r', EventOf(r', h), x)
      ensures Targets(r', h, x) {
      StepTargetsOk(s, w, a, h, x);
    }
    forall c: nat, x | c in r'.acked && c < |r'.copies| && Must(r', r'.copies[c], x)
      ensures Recorded(r', x, r'.copies[c].eventId) {
      StepAckOk(s, w, a, c, x);
    }
  }

  lemma StepKeepsInv(s: Sys, w: Wiring, a: Action)
    requires Inv(s)
    ensures Inv(Apply(s, w, a))
  {
    StepServerOk(s, w, a);
    Conservation.StepKeepsBooks(s, w, a);
    StepAppsOk(s, w, a);
    ActIsSound(s, w, a);
    ServerLeavesSound(Act(s, w, a), AuthServer.Apply(s.server, ServerSide(a)));
    StepTargetsAndAcks(s, w, a);
  }

  lemma {:induction false} RunKeepsInv(s: Sys, w: Wiring, actions: seq<Action>)
    requires Init(s)
    ensures Inv(Run(s, w, actions))
  {
    if |actions| == 0 {
      assert SessionStore.Agreement(AuthServer.SessionView(s.server));
    } else {
      RunKeepsInv(s, w, actions[..|actions| - 1]);
      StepKeepsInv(Run(s, w, actions[..|actions| - 1]), w, actions[|actions| - 1]);
    }
  }

  // ----- results -----

  /** Whatever handlers are doing, a row that says succeeded tells the truth: the
      application has the event on record. */
  lemma SucceededIsRecorded(s: Sys, w: Wiring, actions: seq<Action>, key: Delivery.Key)
    requires Init(s) && Delivery.RowOf(Run(s, w, actions).rows, key).status == Delivery.Succeeded
    ensures Recorded(Run(s, w, actions), key.1, key.0)
  {
    RunKeepsInv(s, w, actions);
  }

  /** Whatever other handlers do to the rows, the verdict ACK is sound: every
      target has the event on record. */
  lemma AckIsSound(s: Sys, w: Wiring, actions: seq<Action>, h: Uuid, arrival: seq<Uuid>, x: Uuid)
    requires Init(s)
    requires var r := Run(s, w, actions);
      CanSettle(r, h, arrival) && Verdict(r, h, arrival) == Worker.Ack && Targets(r, h, x)
    ensures var r := Run(s, w, actions); Recorded(r, x, EventOf(r, h).eventId)
  {
    RunKeepsInv(s, w, actions);
    TargetIsRecorded(Run(s, w, actions), h, arrival, x);
  }

  /** The local sessions a revocation event is meant to end: those bound to the
      central session it names or, for a lost access path, the user's sessions
      in the application it names. */
  ghost predicate Meant(e: Payload, app: Uuid, x: AppStore.LocalSession) {
    if e.eventType == AccessPolicyChanged then e.applicationId == Some(app) && e.userId == x.user
    else e.centralSessionId == Some(x.central)
  }

  /** The session was created after the application processed the event. */
  ghost predicate Outlives(db: AppStore.AppDb, e: Uuid, id: Uuid)
    requires id in db.sessions
  {
    e in db.processed && db.processed[e].at < db.sessions[id].createdAt
  }

  /** End-to-end safety. In every run, once the broker's message of a revocation
      event is acknowledged, any session it was meant to end that is still live
      in any application was created after that application processed the event. */
  lemma RevocationIsEffective(s: Sys, w: Wiring, actions: seq<Action>, c: nat, app: Uuid, id: Uuid)
    requires Init(s)
    requires var r := Run(s, w, actions);
      && c in r.acked && c < |r.copies| && id in AppOf(r, app).sessions
      && Meant(r.copies[c], app, AppOf(r, app).sessions[id]) && AppStore.Live(AppOf(r, app).sessions[id])
    ensures var r := Run(s, w, actions); Outlives(AppOf(r, app), r.copies[c].eventId, id)
  {
    RunKeepsInv(s, w, actions);
    EffectiveNow(Run(s, w, actions), c, app, id);
  }

  lemma CopyIsMade(r: Sys, c: nat)
    requires ServerOk(r) && c < |r.copies|
    ensures var e := r.copies[c]; var events := r.server.events;
      && e in events && Contract.Made(e) && 1 <= e.eventId <= |events| && events[e.eventId - 1] == e
  {
    var e, events := r.copies[c], r.server.events;
    assert e in r.copies;
    var i :| 0 <= i < |events| && events[i] == e;
    assert events[i].eventId == i + 1;
  }

  /** The sessions an event is meant to end are among those it ends. */
  lemma MeantIsConcerned(r: Sys, e: Payload, app: Uuid, id: Uuid)
    requires ServerOk(r) && AppsOk(r) && e in r.server.events && id in AppOf(r, app).sessions
    requires Meant(e, app, AppOf(r, app).sessions[id])
    ensures Must(r, e, app) && AppStore.Concerns(e, AppOf(r, app).sessions[id])
  {
    assert Contract.Made(e);
    assert SessionsHeld(r, app);
  }

  /** A live session the event concerns was created after it was recorded. */
  lemma ConcernedOutlives(db: AppStore.AppDb, events: seq<Payload>, now: Time, e: Payload, id: Uuid)
    requires AppOk(db, events, now) && e.eventId in db.processed && events[e.eventId - 1] == e
    requires id in db.sessions && AppStore.Live(db.sessions[id]) && AppStore.Concerns(e, db.sessions[id])
    ensures Outlives(db, e.eventId, id)
  {
    assert Kept(db, events[e.eventId - 1], id);
  }

  lemma AckedOutlives(r: Sys, c: nat, app: Uuid, id: Uuid)
    requires AckOk(r) && c in r.acked && c < |r.copies| && id in AppOf(r, app).sessions
    requires var e, events := r.copies[c], r.server.events;
      && 1 <= e.eventId <= |events| && events[e.eventId - 1] == e
      && Must(r, e, app) && AppStore.Concerns(e, AppOf(r, app).sessions[id])
      && AppOk(AppOf(r, app), events, r.server.now)
    requires AppStore.Live(AppOf(r, app).sessions[id])
    ensures Outlives(AppOf(r, app), r.copies[c].eventId, id)
  {
    assert Recorded(r, app, r.copies[c].eventId);
    ConcernedOutlives(AppOf(r, app), r.server.events, r.server.now, r.copies[c], id);
  }

  lemma MeantCopy(r: Sys, c: nat, app: Uuid, id: Uuid)
    requires ServerOk(r) && AppsOk(r) && c < |r.copies| && id in AppOf(r, app).sessions
    requires Meant(r.copies[c], app, AppOf(r, app).sessions[id])
    ensures var e, events := r.copies[c], r.server.events;
      && 1 <= e.eventId <= |events| && events[e.eventId - 1] == e
      && Must(r, e, app) && AppStore.Concerns(e, AppOf(r, app).sessions[id])
      && AppOk(AppOf(r, app), events, r.server.now)
  {
    CopyIsMade(r, c);
    MeantIsConcerned(r, r.copies[c], app, id);
  }

  lemma EffectiveNow(r: Sys, c: nat, app: Uuid, id: Uuid)
    requires ServerOk(r) && AppsOk(r) && AckOk(r) && c in r.acked && c < |r.copies| && id in AppOf(r, app).sessions
    requires Meant(r.copies[c], app, AppOf(r, app).sessions[id]) && AppStore.Live(AppOf(r, app).sessions[id])
    ensures Outlives(AppOf(r, app), r.copies[c].eventId, id)
  {
    MeantCopy(r, c, app, id);
    AckedOutlives(r, c, app, id);
  }

  /** Once the broker is empty, every event marked published that was not
      dead-lettered has had its effect. */
  lemma DrainedMeansRevoked(s: Sys, w: Wiring, actions: seq<Action>, e: Payload, app: Uuid, id: Uuid)
    requires Init(s)
    requires var r := Run(s, w, actions);
      && e in r.server.events && e.eventId in r.published && r.ready == {} && r.unacked == {}
      && (forall c: nat :: c in r.dead && c < |r.copies| ==> r.copies[c].eventId != e.eventId)
      && id in AppOf(r, app).sessions && Meant(e, app, AppOf(r, app).sessions[id])
      && AppStore.Live(AppOf(r, app).sessions[id])
    ensures Outlives(AppOf(Run(s, w, actions), app), e.eventId, id)
  {
    Conservation.MarkedIsAccounted(s, w, actions, e.eventId);
    RunKeepsInv(s, w, actions);
    DrainedNow(Run(s, w, actions), e, app, id);
  }

  lemma CopyOfEvent(r: Sys, c: nat, e: Payload)
    requires ServerOk(r) && c < |r.copies| && e in r.server.events && r.copies[c].eventId == e.eventId
    ensures r.copies[c] == e
  {
    CopyIsMade(r, c);
    var i :| 0 <= i < |r.server.events| && r.server.events[i] == e;
    assert r.server.events[i].eventId == i + 1;
  }

  lemma AckedCopy(r: Sys, event: Uuid) returns (c: nat)
    requires r.ready == {} && r.unacked == {}
    requires exists i: nat :: i < |r.copies| && r.copies[i].eventId == event && Conservation.InBooks(r, i)
    requires forall c: nat :: c in r.dead && c < |r.copies| ==> r.copies[c].eventId != event
    ensures c in r.acked && c < |r.copies| && r.copies[c].eventId == event
  {
    c :| c < |r.copies| && r.copies[c].eventId == event && Conservation.InBooks(r, c);
  }

  lemma DrainedNow(r: Sys, e: Payload, app: Uuid, id: Uuid)
    requires ServerOk(r) && AppsOk(r) && AckOk(r) && e in r.server.events && r.ready == {} && r.unacked == {}
    requires exists i: nat :: i < |r.copies| && r.copies[i].eventId == e.eventId && Conservation.InBooks(r, i)
    requires forall c: nat :: c in r.dead && c < |r.copies| ==> r.copies[c].eventId != e.eventId
    requires id in AppOf(r, app).sessions && Meant(e, app, AppOf(r, app).sessions[id])
             && AppStore.Live(AppOf(r, app).sessions[id])
    ensures Outlives(AppOf(r, app), e.eventId, id)
  {
    var c := AckedCopy(r, e.eventId);
    CopyOfEvent(r, c, e);
    EffectiveNow(r, c, app, id);
  }

  // ----- exactly what is not covered -----

  /** No live local session of the central session. */
  ghost predicate Silent(s: Sys, app: Uuid, session: Uuid) {
    forall id <- AppOf(s, app).sessions ::
      AppOf(s, app).sessions[id].central == session ==> !AppStore.Live(AppOf(s, app).sessions[id])
  }

  ghost predicate InFlight(s: Sys, app: Uuid, session: Uuid) {
    exists f <- s.server.flows :: AuthServer.Past(s.server.flows[f], app, session)
  }

  lemma AppAfterSilent(s: Sys, w: Wiring, a: Action, app: Uuid, session: Uuid, id: Uuid)
    requires Silent(s, app, session) && !InFlight(s, app, session)
    requires id in AppAfter(s, w, a, app).sessions && AppAfter(s, w, a, app).sessions[id].central == session
    ensures !AppStore.Live(AppAfter(s, w, a, app).sessions[id])
  {
    if a.Target? && Targets(s, a.handler, app) {
      PostProcesses(s, w, a.handler, app, a.fate);
    }
  }

  lemma StepStaysSilent(s: Sys, w: Wiring, a: Action, app: Uuid, session: Uuid)
    requires !AuthServer.UsableSession(s.server, session) && Silent(s, app, session) && !InFlight(s, app, session)
    ensures Silent(Apply(s, w, a), app, session) && !InFlight(Apply(s, w, a), app, session)
  {
    var r := Apply(s, w, a);
    AppsAfter(s, w, a, app);
    AuthServer.StepPasses(s.server, ServerSide(a), app, session);
    forall id | id in AppOf(r, app).sessions && AppOf(r, app).sessions[id].central == session
      ensures !AppStore.Live(AppOf(r, app).sessions[id])
    {
      AppAfterSilent(s, w, a, app, session, id);
    }
  }

  /** An event in the outbox names the session. */
  ghost predicate Revoked(s: Sys, e: Payload, session: Uuid) {
    e in s.server.events && e.centralSessionId == Some(session)
  }

  lemma {:induction false} RunStaysSilent(s: Sys, w: Wiring, actions: seq<Action>, e: Payload, app: Uuid, session: Uuid)
    requires Inv(s) && Revoked(s, e, session) && Silent(s, app, session) && !InFlight(s, app, session)
    ensures var r := Run(s, w, actions);
      Inv(r) && Revoked(r, e, session) && Silent(r, app, session) && !InFlight(r, app, session)
  {
    if |actions| > 0 {
      var n := |actions| - 1;
      RunStaysSilent(s, w, actions[..n], e, app, session);
      var mid := Run(s, w, actions[..n]);
      StepKeepsInv(mid, w, actions[n]);
      ServerGrows(mid.server, ServerSide(actions[n]));
      NamedIsDead(mid.server, e);
      StepStaysSilent(mid, w, actions[n], app, session);
    }
  }

  lemma RunOne(s: Sys, w: Wiring, a: Action)
    ensures Run(s, w, [a]) == Apply(s, w, a)
  {
    assert [a][..0] == [];
  }

  lemma RunTwo(s: Sys, w: Wiring, a: Action, b: Action)
    ensures Run(s, w, [a, b]) == Apply(Apply(s, w, a), w, b)
  {
    assert [a, b][..1] == [a];
    RunOne(s, w, a);
  }

  lemma RunThree(s: Sys, w: Wiring, a: Action, b: Action, c: Action)
    ensures Run(s, w, [a, b, c]) == Apply(Apply(Apply(s, w, a), w, b), w, c)
  {
    assert [a, b, c][..2] == [a, b];
    RunTwo(s, w, a, b);
  }

  lemma StoresSession(s: Sys, w: Wiring, f: Uuid, id: Uuid, app: Uuid, session: Uuid)
    requires f in s.server.flows && s.server.flows[f].Profile? && AuthServer.Past(s.server.flows[f], app, session)
    requires id !in AppOf(s, app).sessions
    ensures !Silent(Apply(s, w, CreateLocal(f, id, 1)), app, session)
  {
    AppsAfter(s, w, CreateLocal(f, id, 1), app);
    var db := AppOf(Apply(s, w, CreateLocal(f, id, 1)), app);
    assert id in db.sessions && db.sessions[id].central == session && AppStore.Live(db.sessions[id]);
  }

  lemma ServerActs(s: Sys, w: Wiring, a: AuthServer.Action)
    ensures Apply(s, w, Server(a)) == s.(server := AuthServer.Apply(s.server, a))
  {
  }

  /** A callback past the check can always be carried to its end. */
  lemma LateLogin(s: Sys, w: Wiring, app: Uuid, session: Uuid) returns (actions: seq<Action>)
    requires AuthServer.Inv(s.server) && InFlight(s, app, session)
    ensures !Silent(Run(s, w, actions), app, session)
  {
    var f :| f in s.server.flows && AuthServer.Past(s.server.flows[f], app, session);
    var id := FreshId(AppOf(s, app).sessions.Keys);
    if s.server.flows[f].Profile? {
      StoresSession(s, w, f, id, app, session);
      actions := [CreateLocal(f, id, 1)];
      RunOne(s, w, CreateLocal(f, id, 1));
    } else {
      var b := s.server.flows[f].bearer;
      BearerHeld(s.server, f, app, session);
      var on := AuthServer.Sessions(SessionStore.SetStatus(b.user, SessionStore.ActiveUser, [], true));
      AuthServer.Reactivate(s.server, b.user);
      AuthServer.ReadActive(AuthServer.Apply(s.server, on), f);
      ServerActs(s, w, on);
      var s1 := s.(server := AuthServer.Apply(s.server, on));
      ServerActs(s1, w, AuthServer.ReadUser(f));
      StoresSession(s1.(server := AuthServer.Apply(s1.server, AuthServer.ReadUser(f))), w, f, id, app, session);
      actions := [Server(on), Server(AuthServer.ReadUser(f)), CreateLocal(f, id, 1)];
      RunThree(s, w, Server(on), Server(AuthServer.ReadUser(f)), CreateLocal(f, id, 1));
    }
  }

  ghost predicate SilentAfter(s: Sys, w: Wiring, actions: seq<Action>, app: Uuid, session: Uuid) {
    Silent(Run(s, w, actions), app, session)
  }

  lemma SilentForGood(s: Sys, w: Wiring, e: Payload, app: Uuid, session: Uuid)
    requires Inv(s) && Revoked(s, e, session) && Silent(s, app, session) && !InFlight(s, app, session)
    ensures forall actions :: SilentAfter(s, w, actions, app, session)
  {
    forall actions ensures SilentAfter(s, w, actions, app, session) {
      RunStaysSilent(s, w, actions, e, app, session);
    }
  }

  lemma NotSilent(s: Sys, w: Wiring, app: Uuid, session: Uuid)
    requires AuthServer.Inv(s.server) && !(Silent(s, app, session) && !InFlight(s, app, session))
    ensures exists actions :: !SilentAfter(s, w, actions, app, session)
  {
    if InFlight(s, app, session) {
      var late := LateLogin(s, w, app, session);
      assert !SilentAfter(s, w, late, app, session);
    } else {
      assert !SilentAfter(s, w, [], app, session);
    }
  }

  /** The central session is revoked. Then an application stays without a live
      session of it for good if and only if it has none and no callback is past
      the check of the central session. So a callback caught between /userinfo
      and its insert is the one way a revoked session comes back. */
  lemma SilentForGoodIff(s: Sys, w: Wiring, e: Payload, app: Uuid, session: Uuid)
    requires Inv(s) && Revoked(s, e, session)
    ensures (forall actions :: SilentAfter(s, w, actions, app, session))
       <==> Silent(s, app, session) && !InFlight(s, app, session)
  {
    if Silent(s, app, session) && !InFlight(s, app, session) {
      SilentForGood(s, w, e, app, session);
    } else {
      NotSilent(s, w, app, session);
    }
  }

  // ----- the same for a lost access path -----

  /** No live local session of the user in the application. */
  ghost predicate PairSilent(s: Sys, user: Uuid, app: Uuid) {
    forall id <- AppOf(s, app).sessions ::
      AppOf(s, app).sessions[id].user == user ==> !AppStore.Live(AppOf(s, app).sessions[id])
  }

  ghost predicate NoPath(s: Sys, user: Uuid, app: Uuid) {
    !Access.HasPath(s.server.members, s.server.policies, user, app)
  }

  /** The pair has no path at any point of the run. */
  ghost predicate Pathless(s: Sys, w: Wiring, actions: seq<Action>, user: Uuid, app: Uuid) {
    NoPath(Run(s, w, actions), user, app)
    && (|actions| > 0 ==> Pathless(s, w, actions[..|actions| - 1], user, app))
  }

  lemma PairAfterSilent(s: Sys, w: Wiring, a: Action, user: Uuid, app: Uuid, id: Uuid)
    requires PairSilent(s, user, app) && !Lingering.CanFinish(s.server, user, app)
    requires id in AppAfter(s, w, a, app).sessions && AppAfter(s, w, a, app).sessions[id].user == user
    ensures !AppStore.Live(AppAfter(s, w, a, app).sessions[id])
  {
    if a.Target? && Targets(s, a.handler, app) {
      PostProcesses(s, w, a.handler, app, a.fate);
    } else if a.CreateLocal? {
      assert !Lingering.Finishes(s.server, Lingering.InFlow(a.flow), user, app);
    }
  }

  lemma StepStaysPairSilent(s: Sys, w: Wiring, a: Action, user: Uuid, app: Uuid)
    requires AuthServer.Inv(s.server) && NoPath(s, user, app)
    requires PairSilent(s, user, app) && !Lingering.CanFinish(s.server, user, app)
    ensures PairSilent(Apply(s, w, a), user, app) && !Lingering.CanFinish(Apply(s, w, a).server, user, app)
  {
    var r := Apply(s, w, a);
    AppsAfter(s, w, a, app);
    if Lingering.CanFinish(r.server, user, app) {
      Lingering.StepFinishesNothingNew(s.server, ServerSide(a), user, app);
    }
    forall id | id in AppOf(r, app).sessions && AppOf(r, app).sessions[id].user == user
      ensures !AppStore.Live(AppOf(r, app).sessions[id])
    {
      PairAfterSilent(s, w, a, user, app, id);
    }
  }

  lemma {:induction false} RunStaysPairSilent(s: Sys, w: Wiring, actions: seq<Action>, user: Uuid, app: Uuid)
    requires AuthServer.Inv(s.server) && Pathless(s, w, actions, user, app)
    requires PairSilent(s, user, app) && !Lingering.CanFinish(s.server, user, app)
    ensures var r := Run(s, w, actions);
      AuthServer.Inv(r.server) && PairSilent(r, user, app) && !Lingering.CanFinish(r.server, user, app)
  {
    if |actions| > 0 {
      var n := |actions| - 1;
      RunStaysPairSilent(s, w, actions[..n], user, app);
      var mid := Run(s, w, actions[..n]);
      AuthServer.StepKeepsInv(mid.server, ServerSide(actions[n]));
      StepStaysPairSilent(mid, w, actions[n], user, app);
    }
  }

  /** A step before a run. */
  lemma {:induction false} RunAfter(s: Sys, w: Wiring, a: Action, rest: seq<Action>, user: Uuid, app: Uuid)
    ensures Run(s, w, [a] + rest) == Run(Apply(s, w, a), w, rest)
    ensures NoPath(s, user, app) && Pathless(Apply(s, w, a), w, rest, user, app)
      ==> Pathless(s, w, [a] + rest, user, app)
  {
    var all := [a] + rest;
    if |rest| == 0 {
      assert all == [a] && [a][..0] == [];
    } else {
      RunAfter(s, w, a, rest[..|rest| - 1], user, app);
      assert all[..|all| - 1] == [a] + rest[..|rest| - 1];
    }
  }

  lemma StoresPairSession(s: Sys, w: Wiring, f: Uuid, user: Uuid, app: Uuid) returns (a: Action)
    requires Lingering.Finishes(s.server, Lingering.InFlow(f), user, app) && s.server.flows[f].Profile?
    ensures a.CreateLocal? && !PairSilent(Apply(s, w, a), user, app)
  {
    var id := FreshId(AppOf(s, app).sessions.Keys);
    a := CreateLocal(f, id, 1);
    AppsAfter(s, w, a, app);
    var db := AppOf(Apply(s, w, a), app);
    assert id in db.sessions && db.sessions[id].user == user && AppStore.Live(db.sessions[id]);
  }

  lemma AbandonKeepsPath(v: AuthServer.State, f: Uuid)
    ensures var r := AuthServer.Apply(v, AuthServer.Abandon(f)); r.members == v.members && r.policies == v.policies
  {
  }

  /** Whatever can finish does end in a local session in some run without a path. */
  lemma {:induction false} LatePairLogin(s: Sys, w: Wiring, lead: Lingering.Lead, user: Uuid, app: Uuid)
    returns (actions: seq<Action>)
    requires AuthServer.Inv(s.server) && NoPath(s, user, app) && Lingering.Finishes(s.server, lead, user, app)
    ensures Pathless(s, w, actions, user, app) && !PairSilent(Run(s, w, actions), user, app)
    decreases Lingering.Rank(s.server, lead, user)
  {
    var rest: seq<Action>;
    var a: Action;
    if lead.InFlow? && s.server.flows[lead.flow].Profile? {
      a := StoresPairSession(s, w, lead.flow, user, app);
      rest := [];
      AbandonKeepsPath(s.server, a.flow);
    } else {
      var step, next := Lingering.Advance(s.server, lead, user, app);
      a := Server(step);
      ServerActs(s, w, step);
      AuthServer.StepKeepsInv(s.server, step);
      rest := LatePairLogin(Apply(s, w, a), w, next, user, app);
    }
    RunAfter(s, w, a, rest, user, app);
    actions := [a] + rest;
  }

  ghost predicate PairSilentWhilePathless(s: Sys, w: Wiring, user: Uuid, app: Uuid) {
    forall actions :: Pathless(s, w, actions, user, app) ==> PairSilentAfter(s, w, actions, user, app)
  }

  ghost predicate PairSilentAfter(s: Sys, w: Wiring, actions: seq<Action>, user: Uuid, app: Uuid) {
    PairSilent(Run(s, w, actions), user, app)
  }

  lemma PairStaysSilent(s: Sys, w: Wiring, user: Uuid, app: Uuid)
    requires AuthServer.Inv(s.server) && PairSilent(s, user, app) && !Lingering.CanFinish(s.server, user, app)
    ensures PairSilentWhilePathless(s, w, user, app)
  {
    forall actions | Pathless(s, w, actions, user, app) ensures PairSilentAfter(s, w, actions, user, app) {
      RunStaysPairSilent(s, w, actions, user, app);
    }
  }

  lemma PairSpeaks(s: Sys, w: Wiring, user: Uuid, app: Uuid)
    requires AuthServer.Inv(s.server) && NoPath(s, user, app)
    requires !PairSilent(s, user, app) || Lingering.CanFinish(s.server, user, app)
    ensures !PairSilentWhilePathless(s, w, user, app)
  {
    if Lingering.CanFinish(s.server, user, app) {
      var lead :| Lingering.Finishes(s.server, lead, user, app);
      var actions := LatePairLogin(s, w, lead, user, app);
      assert !PairSilentAfter(s, w, actions, user, app);
    } else {
      assert Pathless(s, w, [], user, app) && !PairSilentAfter(s, w, [], user, app);
    }
  }

  /** The pair has lost its last path. Then, as long as it has none, the user has
      no live session in the application if and only if there is none now and
      nothing of the pair can still be carried to its end: no unused code that can
      be redeemed in time and no request in flight that passes its remaining
      checks. */
  lemma PairSilentIff(s: Sys, w: Wiring, user: Uuid, app: Uuid)
    requires Inv(s) && NoPath(s, user, app)
    ensures PairSilentWhilePathless(s, w, user, app)
       <==> PairSilent(s, user, app) && !Lingering.CanFinish(s.server, user, app)
  {
    if PairSilent(s, user, app) && !Lingering.CanFinish(s.server, user, app) {
      PairStaysSilent(s, w, user, app);
    } else {
      PairSpeaks(s, w, user, app);
    }
  }
}
