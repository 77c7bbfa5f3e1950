/** The whole revocation pipeline as one state machine: the Auth Provider and its
    outbox, the broker, the worker's message handlers with one delivery program
    per target, the delivery rows, and the applications' databases. */
module Pipeline {
  import opened Domain
  import AppStore
  import AuthServer
  import Delivery
  import Outbox
  import Worker

  /** What does not change during a run. */
  datatype Wiring = Wiring(
    cfg: Delivery.Config, configured: seq<Worker.AppTarget>, appConfig: Uuid -> AppStore.AppConfig)

  /** Undeliverable: resolution decided without any delivery. */
  datatype Stage =
    | Received
    | Delivering(pcs: map<Uuid, Delivery.Pc>)
    | Undeliverable(requeue: bool)

  /** One running HandleDelivery. `live` is false once the broker has taken the
      message back: settling it then has no effect. */
  datatype Handler = Handler(copy: nat, live: bool, stage: Stage)

  /** `copies` lists every message the broker ever accepted; a message is known
      by its position. `ready`, `unacked`, `acked` and `dead` are the broker's
      books, `buffered` the prefetched messages not yet dispatched. `posts` lists
      every POST sent, with its attempt number. */
  datatype Sys = Sys(
    server: AuthServer.State, published: set<Uuid>,
    copies: seq<Payload>, ready: set<nat>, unacked: set<nat>, acked: set<nat>, dead: set<nat>,
    buffered: set<nat>, handlers: map<Uuid, Handler>,
    rows: map<Delivery.Key, Delivery.Row>, posts: seq<(Delivery.Key, nat)>,
    apps: map<Uuid, AppStore.AppDb>)

  ghost predicate Init(s: Sys) {
    && AuthServer.Init(s.server) && s.published == {}
    && s.copies == [] && s.ready == {} && s.unacked == {} && s.acked == {} && s.dead == {}
    && s.buffered == {} && s.handlers == map[] && s.rows == map[] && s.posts == [] && s.apps == map[]
  }

  /** What becomes of a POST: it never arrives; it arrives and the application's
      transaction runs with a fault or without, and the answer comes back or not. */
  datatype Fate = NotSent | Arrives(fault: Fault, answered: bool)

  datatype Action =
    | Server(serverAction: AuthServer.Action)
    // an application
    | CreateLocal(flow: Uuid, id: Uuid, ttl: Time)
    | LocalLogout(app: Uuid, id: Uuid)
    // the outbox publisher
    | Publish(event: nat)
    | MarkPublished(event: nat)
    // the broker and the consumer loop
    | Prefetch(copy: nat)
    | Dispatch(copy: nat, handler: Uuid)
    | Discard(copy: nat)
    | ConnectionLost
    | Crash
    // a message handler
    | Resolve(handler: Uuid, plan: Worker.Plan, dbFails: bool)
    | Target(handler: Uuid, app: Uuid, env: Delivery.Env, fate: Fate)
    | Settle(handler: Uuid, arrival: seq<Uuid>, reaches: bool)

  function AppOf(s: Sys, app: Uuid): AppStore.AppDb {
    if app in s.apps then s.apps[app] else AppStore.EMPTY_DB
  }

  function Token(w: Wiring, app: Uuid): string {
    var entry := Worker.Configured(w.configured, app);
    if entry.Some? then entry.value.token else ""
  }

  /** The rows target resolution reads. */
  function Holdings(s: Sys): set<Worker.Holding> {
    set j | j in s.server.tokens ::
      Worker.Holding(s.server.tokens[j].app, s.server.tokens[j].user, s.server.tokens[j].session)
  }

  predicate Handles(s: Sys, h: Uuid) {
    h in s.handlers && s.handlers[h].copy < |s.copies|
  }

  function EventOf(s: Sys, h: Uuid): Payload
    requires Handles(s, h)
  {
    s.copies[s.handlers[h].copy]
  }

  predicate Targets(s: Sys, h: Uuid, app: Uuid) {
    Handles(s, h) && s.handlers[h].stage.Delivering? && app in s.handlers[h].stage.pcs
  }

  function PcOf(s: Sys, h: Uuid, app: Uuid): Delivery.Pc
    requires Targets(s, h, app)
  {
    s.handlers[h].stage.pcs[app]
  }

  function KeyOf(s: Sys, h: Uuid, app: Uuid): Delivery.Key
    requires Handles(s, h)
  {
    (EventOf(s, h).eventId, app)
  }

  // ----- steps -----

  /** The callback's last step: the profile is there, the session is stored. */
  function CreateLocalStep(s: Sys, flow: Uuid, id: Uuid, ttl: Time): Sys {
    if flow !in s.server.flows || !s.server.flows[flow].Profile? then s
    else
      var b := s.server.flows[flow].bearer;
      s.(apps := s.apps[b.app := AppStore.CreateSession(AppOf(s, b.app), id, b.user, b.session, s.server.now, ttl)])
  }

  /** The broker accepts the payload of a row of a known type. The row may have
      been marked since the publisher listed it. */
  function PublishStep(s: Sys, i: nat): Sys {
    if i >= |s.server.events| || !Outbox.Supported(s.server.events[i].eventType) then s
    else s.(copies := s.copies + [s.server.events[i]], ready := s.ready + {|s.copies|})
  }

  /** The row is marked after a confirmation, that is, once the broker has it. */
  function MarkStep(s: Sys, i: nat): Sys {
    if i < |s.server.events| && s.server.events[i] in s.copies
    then s.(published := s.published + {s.server.events[i].eventId}) else s
  }

  function PrefetchStep(s: Sys, copy: nat): Sys {
    if copy !in s.ready then s
    else s.(ready := s.ready - {copy}, unacked := s.unacked + {copy}, buffered := s.buffered + {copy})
  }

  function DispatchStep(s: Sys, copy: nat, h: Uuid): Sys {
    if copy !in s.buffered || h in s.handlers then s
    else s.(buffered := s.buffered - {copy}, handlers := s.handlers[h := Handler(copy, true, Received)])
  }

  function Orphaned(handlers: map<Uuid, Handler>): map<Uuid, Handler> {
    map h | h in handlers :: handlers[h].(live := false)
  }

  /** The broker takes every unsettled message back. Handlers may run on. */
  function LostStep(s: Sys): Sys {
    s.(ready := s.ready + s.unacked, unacked := {}, buffered := {}, handlers := Orphaned(s.handlers))
  }

  function CrashStep(s: Sys): Sys {
    LostStep(s).(handlers := map[])
  }

  function Starting(apps: seq<Uuid>): map<Uuid, Delivery.Pc> {
    map a | a in apps :: Delivery.Ready
  }

  function StageFor(plan: Worker.Plan): Stage {
    match plan
    case Deliver(apps) => Delivering(Starting(apps))
    case Reject => Undeliverable(false)
    case Retry => Undeliverable(true)
  }

  ghost function ResolveStep(s: Sys, w: Wiring, h: Uuid, plan: Worker.Plan, dbFails: bool): Sys {
    if !Handles(s, h) || !s.handlers[h].stage.Received? then s
    else
      var e := EventOf(s, h);
      if !Worker.ValidPayload(e) then s.(handlers := s.handlers[h := s.handlers[h].(stage := Undeliverable(false))])
      else if Worker.Planned(plan, e, s.server.apps, Holdings(s), w.configured, dbFails)
      then s.(handlers := s.handlers[h := s.handlers[h].(stage := StageFor(plan))])
      else s
  }

  /** The POST: the application's database afterwards, and whether a 2xx came back. */
  function Post(s: Sys, w: Wiring, h: Uuid, app: Uuid, fate: Fate): (AppStore.AppDb, bool)
    requires Handles(s, h)
  {
    if fate.NotSent? then (AppOf(s, app), false)
    else
      var (db, answer) := AppStore.InternalLogout(AppOf(s, app), w.appConfig(app), Token(w, app), Some(EventOf(s, h)),
                                                  s.server.now, fate.fault);
      (db, fate.answered && answer.Accepted?)
  }

  /** One operation of one target's program. */
  function TargetStep(s: Sys, w: Wiring, h: Uuid, app: Uuid, env: Delivery.Env, fate: Fate): Sys {
    if !Targets(s, h, app) then s
    else
      var pc := PcOf(s, h, app);
      var key := KeyOf(s, h, app);
      var row := Delivery.RowOf(s.rows, key);
      var (db, accepted) := Post(s, w, h, app, fate);
      var (pc', row') := Delivery.Step(pc, row, env.(accepted := accepted), w.cfg);
      s.(handlers := s.handlers[h := s.handlers[h].(stage := Delivering(s.handlers[h].stage.pcs[app := pc']))],
         rows := if row' == row then s.rows else s.rows[key := row'],
         apps := if pc.Posting? then s.apps[app := db] else s.apps,
         posts := if pc.Posting? then s.posts + [(key, pc.attempt)] else s.posts)
  }

  /** All programs of the handler have ended; `arrival` is the order in which
      their results came in. */
  ghost predicate Finished(handler: Handler, arrival: seq<Uuid>) {
    && handler.stage.Delivering? && Lists(arrival, handler.stage.pcs.Keys)
    && forall a <- handler.stage.pcs :: handler.stage.pcs[a].Done?
  }

  function Results(pcs: map<Uuid, Delivery.Pc>, arrival: seq<Uuid>): (r: seq<Delivery.Result>)
    ensures |r| == |arrival|
    ensures forall i ::
      0 <= i < |arrival| && arrival[i] in pcs && pcs[arrival[i]].Done? ==> r[i] == pcs[arrival[i]].result
  {
    seq(|arrival|, i requires 0 <= i < |arrival| =>
      if arrival[i] in pcs && pcs[arrival[i]].Done? then pcs[arrival[i]].result else Delivery.Errored)
  }

  ghost predicate CanSettle(s: Sys, h: Uuid, arrival: seq<Uuid>) {
    h in s.handlers && (s.handlers[h].stage.Undeliverable? || Finished(s.handlers[h], arrival))
  }

  ghost function Verdict(s: Sys, h: Uuid, arrival: seq<Uuid>): Worker.Settlement
    requires CanSettle(s, h, arrival)
  {
    match s.handlers[h].stage
    case Undeliverable(requeue) => if requeue then Worker.Requeue else Worker.DeadLetter
    case Delivering(pcs) => Worker.Settle(Results(pcs, arrival))
  }

  /** The handler ends, with a verdict that reaches the broker or without. */
  function EndWith(s: Sys, h: Uuid, verdict: Option<Worker.Settlement>): Sys
    requires h in s.handlers
  {
    var copy := s.handlers[h].copy;
    var ended := s.(handlers := s.handlers - {h});
    if verdict.None? then ended
    else match verdict.value
      case Ack => ended.(unacked := s.unacked - {copy}, acked := s.acked + {copy})
      case DeadLetter => ended.(unacked := s.unacked - {copy}, dead := s.dead + {copy})
      case Requeue => ended.(unacked := s.unacked - {copy}, ready := s.ready + {copy})
  }

  /** A verdict counts only if it reaches the broker on the connection the
      message came by; otherwise the message stays unacked. */
  ghost function SettleStep(s: Sys, h: Uuid, arrival: seq<Uuid>, reaches: bool): Sys {
    if !CanSettle(s, h, arrival) then s
    else EndWith(s, h, if reaches && s.handlers[h].live then Some(Verdict(s, h, arrival)) else None)
  }

  /** What a step changes outside the Auth Provider. */
  ghost function Act(s: Sys, w: Wiring, a: Action): Sys {
    match a
    case Server(_) => s
    case CreateLocal(flow, id, ttl) => CreateLocalStep(s, flow, id, ttl)
    case LocalLogout(app, id) =>
      s.(apps := s.apps[app := AppStore.RevokeSession(AppOf(s, app), id, "local_logout", s.server.now)])
    case Publish(i) => PublishStep(s, i)
    case MarkPublished(i) => MarkStep(s, i)
    case Prefetch(copy) => PrefetchStep(s, copy)
    case Dispatch(copy, h) => DispatchStep(s, copy, h)
    case Discard(copy) => s.(buffered := s.buffered - {copy})
    case ConnectionLost => LostStep(s)
    case Crash => CrashStep(s)
    case Resolve(h, plan, dbFails) => ResolveStep(s, w, h, plan, dbFails)
    case Target(h, app, env, fate) => TargetStep(s, w, h, app, env, fate)
    case Settle(h, arrival, reaches) => SettleStep(s, h, arrival, reaches)
  }

  /** What the Auth Provider does in that step; at least its clock moves. */
  function ServerSide(a: Action): AuthServer.Action {
    if a.Server? then a.serverAction
    else if a.CreateLocal? then AuthServer.Abandon(a.flow)
    else AuthServer.Tick(0)
  }

  ghost function Apply(s: Sys, w: Wiring, a: Action): Sys {
    Act(s, w, a).(server := AuthServer.Apply(s.server, ServerSide(a)))
  }

  ghost function Run(s: Sys, w: Wiring, actions: seq<Action>): Sys {
    if |actions| == 0 then s else Apply(Run(s, w, actions[..|actions| - 1]), w, actions[|actions| - 1])
  }

  // ----- runs written out -----

  /** A run with the states it passes through. */
  datatype Trace = Trace(actions: seq<Action>, states: seq<Sys>)

  ghost predicate Follows(w: Wiring, before: Sys, a: Action, after: Sys) {
    after == Apply(before, w, a)
  }

  /** The run `t` leads from `s` to `r`. */
  ghost predicate Traces(s: Sys, w: Wiring, t: Trace, r: Sys) {
    && |t.states| == |t.actions| + 1 && t.states[0] == s && t.states[|t.actions|] == r
    && forall i {:trigger t.actions[i]} ::
         0 <= i < |t.actions| ==> Follows(w, t.states[i], t.actions[i], t.states[i + 1])
  }

  lemma NoTrace(s: Sys, w: Wiring)
    ensures Traces(s, w, Trace([], [s]), s)
  {
  }

  lemma TraceOne(s: Sys, w: Wiring, before: Trace, mid: Sys, a: Action) returns (t: Trace, r: Sys)
    requires Traces(s, w, before, mid)
    ensures r == Apply(mid, w, a) && Traces(s, w, t, r)
  {
    r := Apply(mid, w, a);
    t := Trace(before.actions + [a], before.states + [r]);
  }

  lemma {:induction false} TraceIsRun(s: Sys, w: Wiring, t: Trace, r: Sys)
    requires Traces(s, w, t, r)
    ensures Run(s, w, t.actions) == r
    decreases |t.actions|
  {
    if |t.actions| > 0 {
      var n := |t.actions| - 1;
      assert Follows(w, t.states[n], t.actions[n], t.states[n + 1]);
      TraceIsRun(s, w, Trace(t.actions[..n], t.states[..n + 1]), t.states[n]);
    }
  }

  // ----- frames -----

  /** Every step but a target's leaves rows, POSTs and programs alone, or starts
      programs, or ends them. */
  ghost predicate ProgramsRest(s: Sys, r: Sys) {
    && r.rows == s.rows && r.posts == s.posts
    && s.copies <= r.copies
    && (forall h, a :: Targets(r, h, a) ==>
          || PcOf(r, h, a) == Delivery.Ready
          || (Targets(s, h, a) && PcOf(r, h, a) == PcOf(s, h, a)))
    && (forall h :: Handles(r, h) ==> h in s.handlers ==> Handles(s, h) && EventOf(r, h) == EventOf(s, h))
  }

  ghost predicate CopiesKnown(s: Sys) {
    forall h <- s.handlers :: s.handlers[h].copy < |s.copies|
  }

  lemma HandlersRest(s: Sys, r: Sys)
    requires CopiesKnown(s) && r.rows == s.rows && r.posts == s.posts && s.copies <= r.copies
    requires forall h <- r.handlers :: h in s.handlers ==>
      r.handlers[h].copy == s.handlers[h].copy
    requires forall h <- r.handlers :: r.handlers[h].stage.Delivering? ==>
      (h in s.handlers && r.handlers[h].stage == s.handlers[h].stage)
      || forall a <- r.handlers[h].stage.pcs :: r.handlers[h].stage.pcs[a] == Delivery.Ready
    ensures ProgramsRest(s, r)
  {
  }

  lemma ResolveRests(s: Sys, w: Wiring, h: Uuid, plan: Worker.Plan, dbFails: bool)
    requires CopiesKnown(s)
    ensures ProgramsRest(s, ResolveStep(s, w, h, plan, dbFails))
  {
    HandlersRest(s, ResolveStep(s, w, h, plan, dbFails));
  }

  lemma SettleRests(s: Sys, h: Uuid, arrival: seq<Uuid>, reaches: bool)
    requires CopiesKnown(s)
    ensures ProgramsRest(s, SettleStep(s, h, arrival, reaches))
  {
    HandlersRest(s, SettleStep(s, h, arrival, reaches));
  }

  lemma LostRests(s: Sys)
    requires CopiesKnown(s)
    ensures ProgramsRest(s, LostStep(s)) && ProgramsRest(s, CrashStep(s))
  {
    HandlersRest(s, LostStep(s));
    HandlersRest(s, CrashStep(s));
  }

  lemma OthersRest(s: Sys, w: Wiring, a: Action)
    requires CopiesKnown(s) && !a.Target?
    ensures ProgramsRest(s, Act(s, w, a))
  {
    if a.Resolve? {
      ResolveRests(s, w, a.handler, a.plan, a.dbFails);
    } else if a.Settle? {
      SettleRests(s, a.handler, a.arrival, a.reaches);
    } else if a.ConnectionLost? || a.Crash? {
      LostRests(s);
    } else {
      HandlersRest(s, Act(s, w, a));
    }
  }

  /** A target's step moves one program and one row. */
  ghost predicate OneProgramMoves(s: Sys, r: Sys, h: Uuid, a: Uuid, pc: Delivery.Pc, row: Delivery.Row)
    requires Targets(s, h, a)
  {
    && r.copies == s.copies
    && (forall k, b :: Targets(r, k, b) <==> Targets(s, k, b))
    && (forall k, b :: Targets(s, k, b) ==>
          KeyOf(r, k, b) == KeyOf(s, k, b) && PcOf(r, k, b) == if k == h && b == a then pc else PcOf(s, k, b))
    && (forall key :: Delivery.RowOf(r.rows, key) == if key == KeyOf(s, h, a) then row else Delivery.RowOf(s.rows, key))
    && r.posts == if PcOf(s, h, a).Posting? then s.posts + [(KeyOf(s, h, a), PcOf(s, h, a).attempt)] else s.posts
  }

  function Moved(s: Sys, w: Wiring, h: Uuid, a: Uuid, env: Delivery.Env, fate: Fate): (Delivery.Pc, Delivery.Row)
    requires Targets(s, h, a)
  {
    Delivery.Step(PcOf(s, h, a), Delivery.RowOf(s.rows, KeyOf(s, h, a)),
                  env.(accepted := Post(s, w, h, a, fate).1), w.cfg)
  }

  lemma TargetMoves(s: Sys, w: Wiring, h: Uuid, a: Uuid, env: Delivery.Env, fate: Fate)
    requires Targets(s, h, a)
    ensures var (pc, row) := Moved(s, w, h, a, env, fate);
      OneProgramMoves(s, TargetStep(s, w, h, a, env, fate), h, a, pc, row)
  {
  }

  /** An application's database after a step. */
  function AppAfter(s: Sys, w: Wiring, a: Action, x: Uuid): AppStore.AppDb {
    if a.CreateLocal? && a.flow in s.server.flows && s.server.flows[a.flow].Profile?
       && s.server.flows[a.flow].bearer.app == x then
      var b := s.server.flows[a.flow].bearer;
      AppStore.CreateSession(AppOf(s, x), a.id, b.user, b.session, s.server.now, a.ttl)
    else if a.LocalLogout? && a.app == x then
      AppStore.RevokeSession(AppOf(s, x), a.id, "local_logout", s.server.now)
    else if a.Target? && a.app == x && Targets(s, a.handler, x) && PcOf(s, a.handler, x).Posting? then
      Post(s, w, a.handler, x, a.fate).0
    else AppOf(s, x)
  }

  lemma AppsMove(s: Sys, w: Wiring, a: Action, x: Uuid)
    ensures AppOf(Act(s, w, a), x) == AppAfter(s, w, a, x)
  {
  }

  /** A POST leaves the database alone or processes the event. */
  lemma PostProcesses(s: Sys, w: Wiring, h: Uuid, app: Uuid, fate: Fate)
    requires Handles(s, h)
    ensures var (db, accepted) := Post(s, w, h, app, fate);
      && (db == AppOf(s, app) || db == AppStore.Process(AppOf(s, app), EventOf(s, h), s.server.now))
      && (accepted ==> EventOf(s, h).eventId in db.processed)
  {
  }
}
