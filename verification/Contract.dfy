/** The contract between the Auth Provider, which writes events, and the worker
    and the applications, which check them. */
module Contract {
  import opened Domain
  import Access
  import AppStore
  import AuthServer
  import Outbox
  import SessionStore
  import Worker

  /** What the server's transactions can put in an event. */
  ghost predicate Made(e: Payload) {
    && e.eventId != NIL && e.userId != NIL && e.occurredAt != 0
    && (if e.eventType == AccessPolicyChanged then e.applicationId.Some? && e.centralSessionId.None?
        else (e.eventType == SessionRevoked || e.eventType == PasswordChanged)
             && e.applicationId.None? && e.centralSessionId.Some?)
  }

  ghost predicate AllMade(s: AuthServer.State) {
    && NIL !in s.users && NIL !in s.apps
    && forall e <- s.events :: Made(e)
  }

  /** `after` is `before` and well-made events given one reason. */
  ghost predicate Appends(before: seq<Payload>, after: seq<Payload>, reason: string) {
    && |before| <= |after| && after[..|before|] == before
    && (forall i :: |before| <= i < |after| ==> Made(after[i]) && after[i].reason == reason)
  }

  lemma EachAppends(db: SessionStore.Db, ids: seq<Uuid>, kind: EventType, reason: string, now: Time)
    requires SessionStore.Known(db, ids) && SessionStore.Distinct(ids) && now > 0
    requires kind == SessionRevoked || kind == PasswordChanged
    requires forall id <- ids :: db.sessions[id].user != NIL
    ensures Appends(db.events, SessionStore.RevokeEach(db, ids, kind, reason, now).events, reason)
  {
    SessionStore.RevokeEachEvents(db, ids, kind, reason, now);
    forall i | 0 <= i < |ids| ensures db.sessions[ids[i]].user != NIL {
      assert ids[i] in ids;
    }
  }

  ghost function SessionReason(op: SessionStore.Op): string {
    match op
    case SsoLogout(_, _) => SessionStore.SSO_LOGOUT
    case SetStatus(_, _, _, _) => SessionStore.USER_INACTIVE
    case RevokeAll(_, reason, _, _) => reason
    case UpdateUser(_, _, _, _) => SessionStore.PASSWORD_CHANGED
    case CreateUser(_) => ""
    case Login(_, _, _) => ""
  }

  lemma BulkAppends(db: SessionStore.Db, user: Uuid, order: seq<Uuid>, kind: EventType, reason: string, now: Time)
    requires SessionStore.Agreement(db) && NIL !in db.users && now > 0
    requires Lists(order, SessionStore.LiveSessions(db, user))
    requires kind == SessionRevoked || kind == PasswordChanged
    ensures Appends(db.events, SessionStore.RevokeEach(db, order, kind, reason, now).events, reason)
  {
    EachAppends(db, order, kind, reason, now);
  }

  lemma SessionsAppend(db: SessionStore.Db, op: SessionStore.Op, now: Time)
    requires SessionStore.Agreement(db) && NIL !in db.users && now > 0
    ensures Appends(db.events, SessionStore.Apply(db, op, now).events, SessionReason(op))
    ensures NIL !in SessionStore.Apply(db, op, now).users
  {
    match op
    case SetStatus(user, status, order, commits) =>
      if user in db.users && Lists(order, SessionStore.LiveSessions(db, user)) {
        BulkAppends(db.(users := db.users[user := status]), user, order,
                    SessionRevoked, SessionStore.USER_INACTIVE, now);
      }
    case RevokeAll(user, reason, order, commits) =>
      if Lists(order, SessionStore.LiveSessions(db, user)) {
        BulkAppends(db, user, order, SessionRevoked, reason, now);
      }
    case UpdateUser(user, given, order, commits) =>
      if Lists(order, SessionStore.LiveSessions(db, user)) {
        BulkAppends(db, user, order, PasswordChanged, SessionStore.PASSWORD_CHANGED, now);
      }
    case SsoLogout(_, _) =>
    case CreateUser(_) =>
    case Login(_, _, _) =>
  }

  lemma RevokedAreUsers(db: Access.Db, op: Access.Op, p: Access.Pair)
    requires Access.Valid(db) && p in Access.Revoked(db, op)
    ensures p.0 in db.users
  {
    Access.RevokedIsLost(db, op, 0, p);
    var m :| m in db.members && m.0 == p.0 && (p.1, m.1) in db.policies;
  }

  lemma PoliciesAppend(db: Access.Db, op: Access.Op, now: Time)
    requires Access.Valid(db) && NIL !in db.users && now > 0
    ensures Appends(db.events, Access.Apply(db, op, now).events, Access.ACCESS_POLICY_CHANGED)
  {
    var pairs := Access.Revoked(db, op);
    Access.ApplyIsRevokePairs(db, op, now);
    Access.RevokePairsEvents(db, pairs, now);
    forall i | 0 <= i < |pairs| ensures pairs[i].0 != NIL {
      RevokedAreUsers(db, op, pairs[i]);
    }
  }

  /** The reason a step gives for the events it writes. */
  ghost function ReasonOf(a: AuthServer.Action): string {
    if a.Sessions? then SessionReason(a.sessionOp)
    else if a.Policies? then Access.ACCESS_POLICY_CHANGED
    else ""
  }

  lemma QuietStep(s: AuthServer.State, a: AuthServer.Action)
    requires AuthServer.Inv(s) && !a.Sessions? && !a.Policies?
    ensures var r := AuthServer.Apply(s, a);
      r.events == s.events && r.users == s.users && (NIL !in s.apps ==> NIL !in r.apps)
  {
    if a.Tick? || a.RegisterApp? {
      AuthServer.ClockEffect(s, a);
    } else if AuthServer.Commits(s, a) {
      AuthServer.RedeemEffect(s, a);
    } else if AuthServer.Issues(s, a) {
      AuthServer.IssueEffect(s, a);
    } else {
      AuthServer.FlowEffect(s, a);
    }
  }

  /** Every step only ever appends to the outbox, and only well-made events. */
  lemma StepAppends(s: AuthServer.State, a: AuthServer.Action)
    requires AuthServer.Inv(s) && NIL !in s.users && NIL !in s.apps
    ensures var r := AuthServer.Apply(s, a);
      Appends(s.events, r.events, ReasonOf(a)) && NIL !in r.users && NIL !in r.apps
  {
    if a.Sessions? {
      SessionsAppend(AuthServer.SessionView(s), a.sessionOp, s.now);
    } else if a.Policies? {
      PoliciesAppend(AuthServer.AccessView(s), a.policyOp, s.now);
    } else {
      QuietStep(s, a);
    }
  }

  lemma StepMakes(s: AuthServer.State, a: AuthServer.Action)
    requires AuthServer.Inv(s) && AllMade(s)
    ensures AllMade(AuthServer.Apply(s, a))
  {
    StepAppends(s, a);
    var r := AuthServer.Apply(s, a).events;
    forall e | e in r ensures Made(e) {
      var i :| 0 <= i < |r| && r[i] == e;
      if i < |s.events| {
        assert r[..|s.events|][i] in s.events;
      }
    }
  }

  /** RevokeAllForUser is the one transaction whose caller chooses the reason. */
  ghost predicate Reasoned(a: AuthServer.Action) {
    a.Sessions? && a.sessionOp.RevokeAll? ==> a.sessionOp.reason != ""
  }

  ghost predicate AllReasoned(s: AuthServer.State) {
    forall e <- s.events :: e.reason != ""
  }

  lemma StepReasons(s: AuthServer.State, a: AuthServer.Action)
    requires AuthServer.Inv(s) && AllMade(s) && AllReasoned(s) && Reasoned(a)
    ensures AllReasoned(AuthServer.Apply(s, a))
  {
    StepAppends(s, a);
    var r := AuthServer.Apply(s, a).events;
    if !a.Sessions? && !a.Policies? {
      QuietStep(s, a);
    } else {
      CreatesNone(s, a);
      forall e | e in r ensures e.reason != "" {
        var i :| 0 <= i < |r| && r[i] == e;
        if i < |s.events| {
          assert r[..|s.events|][i] in s.events;
        }
      }
    }
  }

  /** Creating users and signing in write no event. */
  lemma CreatesNone(s: AuthServer.State, a: AuthServer.Action)
    ensures a.Sessions? && (a.sessionOp.CreateUser? || a.sessionOp.Login?) ==> AuthServer.Apply(s, a).events == s.events
  {
  }

  lemma {:induction false} RunMakes(s: AuthServer.State, actions: seq<AuthServer.Action>)
    requires AuthServer.Init(s)
    ensures AuthServer.Inv(AuthServer.Run(s, actions)) && AllMade(AuthServer.Run(s, actions))
    ensures (forall a <- actions :: Reasoned(a)) ==> AllReasoned(AuthServer.Run(s, actions))
  {
    AuthServer.RunKeepsInv(s, actions);
    if |actions| > 0 {
      var n := |actions| - 1;
      RunMakes(s, actions[..n]);
      var before := AuthServer.Run(s, actions[..n]);
      StepMakes(before, actions[n]);
      if forall a <- actions :: Reasoned(a) {
        StepReasons(before, actions[n]);
      }
    }
  }

  // ----- results -----

  /** Every event the server's transactions write has a routing key, and the
      worker rejects it as malformed exactly when its reason is empty. */
  lemma EventsAreValid(s: AuthServer.State, actions: seq<AuthServer.Action>, e: Payload)
    requires AuthServer.Init(s) && e in AuthServer.Run(s, actions).events
    ensures Made(e) && Outbox.Supported(e.eventType)
    ensures Worker.ValidPayload(e) <==> e.reason != ""
    ensures (forall a <- actions :: Reasoned(a)) ==> Worker.ValidPayload(e)
  {
    RunMakes(s, actions);
  }

  /** An AccessPolicyChanged event is delivered to exactly its own application
      if that is active and configured, and is dead-lettered if it is not. */
  lemma AccessEventPlan(e: Payload, active: set<Uuid>, holdings: set<Worker.Holding>,
                        configured: seq<Worker.AppTarget>, dbFails: bool, plan: Worker.Plan)
    requires Made(e) && e.eventType == AccessPolicyChanged && NIL !in active
    requires Worker.Planned(plan, e, active, holdings, configured, dbFails)
    ensures var app := e.applicationId.value; var usable := app in active && Worker.HasCredentials(configured, app);
      && (plan.Deliver? <==> !dbFails && usable) && (plan.Deliver? ==> plan.apps == [app])
      && (plan.Reject? <==> !dbFails && !usable)
  {
    var app := e.applicationId.value;
    var selected := Worker.Selected(e, active, holdings);
    assert forall a :: a in selected <==> a == app && app in active;
    if app in active {
      assert app in selected;
    }
    if plan.Deliver? {
      assert selected == {app};
      Worker.OneListed(plan.apps, app);
    }
  }

  /** Which applications an event is sent to accept it: all of them, unless one
      is configured with another application's id. */
  lemma SelectedAppAccepts(e: Payload, active: set<Uuid>, holdings: set<Worker.Holding>, a: Uuid,
                           cfg: AppStore.AppConfig)
    requires Made(e) && a in Worker.Selected(e, active, holdings)
    ensures AppStore.WellFormed(e, cfg)
      <==> e.eventType != AccessPolicyChanged || cfg.appId.None? || cfg.appId == Some(a)
  {
  }

  /** The contract as a whole: in every run, an event sent to an application
      that knows its own id and shares the worker's token is never rejected; it
      is refused only when the application's own database fails. */
  lemma NeverRejected(s: AuthServer.State, actions: seq<AuthServer.Action>, e: Payload, holdings: set<Worker.Holding>,
                      a: Uuid, cfg: AppStore.AppConfig, db: AppStore.AppDb, now: Time, fault: Fault)
    requires AuthServer.Init(s) && e in AuthServer.Run(s, actions).events
    requires a in Worker.Selected(e, AuthServer.Run(s, actions).apps, holdings)
    requires cfg.appId == Some(a) && cfg.internalToken != ""
    ensures var (after, answer) := AppStore.InternalLogout(db, cfg, cfg.internalToken, Some(e), now, fault);
      && answer == (if fault == Sound then AppStore.Accepted else AppStore.ServerError)
      && (fault != RolledBack ==> e.eventId in after.processed)
  {
    RunMakes(s, actions);
    SelectedAppAccepts(e, AuthServer.Run(s, actions).apps, holdings, a, cfg);
  }

  // ----- the outbox of the whole system -----

  /** The outbox as the publisher lists it. */
  function Listing(events: seq<Payload>): (r: seq<Outbox.Entry>)
    ensures |r| == |events|
    ensures forall i :: 0 <= i < |r| ==> r[i] == Outbox.Entry(events[i].eventId, events[i].eventType)
  {
    seq(|events|, i requires 0 <= i < |events| => Outbox.Entry(events[i].eventId, events[i].eventType))
  }

  lemma {:induction false} AllSupported(rows: seq<Outbox.Entry>)
    requires forall e <- rows :: Outbox.Supported(e.eventType)
    ensures Outbox.CountSupported(rows) == |rows|
  {
    if |rows| > 0 {
      AllSupported(rows[..|rows| - 1]);
    }
  }

  lemma ListedIsSupported(s: AuthServer.State, published: set<Uuid>)
    requires AllMade(s)
    ensures Outbox.CountUnsupported(Outbox.Pending(Listing(s.events), published)) == 0
  {
    var rows := Outbox.Pending(Listing(s.events), published);
    forall e | e in rows ensures Outbox.Supported(e.eventType) {
      Outbox.PendingIsIn(Listing(s.events), published, e);
      var i :| 0 <= i < |s.events| && Listing(s.events)[i] == e;
      assert Made(s.events[i]);
    }
    AllSupported(rows);
  }

  lemma ListedIsDistinct(s: AuthServer.State)
    requires Numbered(s.events)
    ensures Outbox.DistinctIds(Listing(s.events))
  {
  }

  /** After `k` fault-free rounds every event is marked published. */
  ghost predicate AllMarked(events: seq<Payload>, p: Outbox.State, size: nat, k: nat) {
    forall e <- events :: e.eventId in Outbox.FaultFreeRounds(Listing(events), p, size, k).published
  }

  /** In runs of this server no row is ever unsupported, so its outbox always
      drains: from any state of the publisher, with n rows pending and batches of
      B, fault-free rounds mark them all once k * B >= n. */
  lemma ServerOutboxDrains(s: AuthServer.State, actions: seq<AuthServer.Action>,
                           p: Outbox.State, batchSize: int, k: nat)
    requires AuthServer.Init(s)
    requires k * Outbox.BatchSize(batchSize)
          >= |Outbox.Pending(Listing(AuthServer.Run(s, actions).events), p.published)|
    ensures AllMarked(AuthServer.Run(s, actions).events, p, Outbox.BatchSize(batchSize), k)
  {
    RunMakes(s, actions);
    OutboxDrains(AuthServer.Run(s, actions), p, Outbox.BatchSize(batchSize), k);
  }

  lemma OutboxDrains(r: AuthServer.State, p: Outbox.State, size: nat, k: nat)
    requires AllMade(r) && Numbered(r.events) && size > 0
    requires k * size >= |Outbox.Pending(Listing(r.events), p.published)|
    ensures AllMarked(r.events, p, size, k)
  {
    ListedIsSupported(r, p.published);
    ListedIsDistinct(r);
    Outbox.PublisherDrainRate(Listing(r.events), p, size, k);
    forall e | e in r.events
      ensures e.eventId in Outbox.FaultFreeRounds(Listing(r.events), p, size, k).published
    {
      var i :| 0 <= i < |r.events| && r.events[i] == e;
      assert Made(e) && Listing(r.events)[i] in Listing(r.events);
    }
  }
}
