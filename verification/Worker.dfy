/** The sync worker's handling of one broker message: validation, target
    resolution, one delivery program per target, and the decision to ACK,
    dead-letter or requeue. */
module Worker {
  import opened Domain
  import opened Delivery

  /** `validPayload`: only these events may be delivered. */
  predicate ValidPayload(p: Payload) {
    && p.eventId != NIL && p.userId != NIL && p.occurredAt != 0 && p.reason != ""
    && match p.eventType
       case SessionRevoked => p.centralSessionId.Some?
       case PasswordChanged => p.centralSessionId.Some?
       case AccessPolicyChanged => p.applicationId.Some?
       case OtherType(_) => false
  }

  // ----- which applications an event concerns -----

  /** An `access_tokens` row, as far as target resolution reads it. Revoked and
      expired rows count: the query does not look at those columns. */
  datatype Holding = Holding(app: Uuid, user: Uuid, session: Uuid)

  /** The applications the resolution query selects. */
  function Selected(p: Payload, active: set<Uuid>, holdings: set<Holding>): set<Uuid> {
    match (p.applicationId, p.centralSessionId)
    case (Some(app), _) => set a | a in active && a == app
    case (None, Some(session)) => set a | a in active && Holding(a, p.userId, session) in holdings
    case (None, None) => set a | a in active && exists h <- holdings :: h.app == a && h.user == p.userId
  }

  /** Exactly these: the active application the event names or, if it names none,
      the active applications with a token row of the user, and of the session if
      the event names one. */
  lemma SelectedExactly(p: Payload, active: set<Uuid>, holdings: set<Holding>, a: Uuid)
    ensures a in Selected(p, active, holdings) <==>
      && a in active
      && (p.applicationId.Some? ==> a == p.applicationId.value)
      && (p.applicationId.None? ==> exists h <- holdings ::
            h.app == a && h.user == p.userId && (p.centralSessionId.Some? ==> h.session == p.centralSessionId.value))
  {
    if p.applicationId.None? && p.centralSessionId.Some? {
      var row := Holding(a, p.userId, p.centralSessionId.value);
      assert row in holdings <==> exists h <- holdings ::
        h.app == a && h.user == p.userId && h.session == p.centralSessionId.value;
    }
  }

  datatype AppTarget = AppTarget(id: Uuid, url: string, token: string)

  predicate Usable(t: AppTarget) {
    t.token != "" && t.url != ""
  }

  /** The configured entry for an application: the last one listed wins. */
  function Configured(targets: seq<AppTarget>, id: Uuid): Option<AppTarget> {
    if |targets| == 0 then None
    else if targets[|targets| - 1].id == id then Some(targets[|targets| - 1])
    else Configured(targets[..|targets| - 1], id)
  }

  predicate HasCredentials(targets: seq<AppTarget>, id: Uuid) {
    Configured(targets, id).Some? && Usable(Configured(targets, id).value)
  }

  ghost predicate LastFor(targets: seq<AppTarget>, i: nat, id: Uuid) {
    i < |targets| && targets[i].id == id && forall j :: i < j < |targets| ==> targets[j].id != id
  }

  /** The entry used for an application is the last one listed for it. */
  lemma {:induction false} ConfiguredIsLast(targets: seq<AppTarget>, id: Uuid, t: AppTarget)
    ensures Configured(targets, id) == Some(t) <==> exists i: nat :: LastFor(targets, i, id) && targets[i] == t
  {
    if |targets| > 0 {
      var n: nat := |targets| - 1;
      ConfiguredIsLast(targets[..n], id, t);
      assert LastFor(targets, n, id) <==> targets[n].id == id;
      if targets[n].id != id {
        forall i: nat | i < n ensures LastFor(targets, i, id) <==> LastFor(targets[..n], i, id) {
          assert forall j :: i < j < n ==> targets[..n][j] == targets[j];
        }
      }
    }
  }

  datatype Resolution = Targets(targets: seq<AppTarget>) | Misconfigured | Unavailable

  function Ids(targets: seq<AppTarget>): (ids: seq<Uuid>)
    ensures |ids| == |targets|
    ensures forall i :: 0 <= i < |ids| ==> ids[i] == targets[i].id
  {
    seq(|targets|, i requires 0 <= i < |targets| => targets[i].id)
  }

  /** Resolution succeeds exactly when every selected application has
      credentials and an application named by the event was found; it then
      lists the selected applications, each once. */
  method ResolveTargets(p: Payload, active: set<Uuid>, holdings: set<Holding>,
                        configured: seq<AppTarget>, dbFails: bool)
    returns (r: Resolution)
    ensures r.Unavailable? <==> dbFails
    ensures r.Targets? <==>
      && !dbFails
      && (forall a <- Selected(p, active, holdings) :: HasCredentials(configured, a))
      && (p.applicationId.Some? ==> Selected(p, active, holdings) != {})
    ensures r.Targets? ==> Lists(Ids(r.targets), Selected(p, active, holdings))
    ensures r.Targets? ==> forall t <- r.targets :: t.token != "" && t.url != "" && t in configured
  {
    if dbFails {
      return Unavailable;
    }
    var byId: map<Uuid, AppTarget> := map[];
    for i := 0 to |configured|
      invariant forall a :: a in byId <==> Configured(configured[..i], a).Some?
      invariant forall a <- byId ::
        byId[a] == Configured(configured[..i], a).value && byId[a].id == a && byId[a] in configured
    {
      assert configured[..i + 1][..i] == configured[..i];
      byId := byId[configured[i].id := configured[i]];
    }
    assert configured[..|configured|] == configured;
    var rows := ReadRows(Selected(p, active, holdings));
    var targets := [];
    for i := 0 to |rows|
      invariant Ids(targets) == rows[..i]
      invariant forall t <- targets :: Usable(t) && t in configured
      invariant forall j :: 0 <= j < i ==> HasCredentials(configured, rows[j])
    {
      if rows[i] !in byId || byId[rows[i]].token == "" || byId[rows[i]].url == "" {
        assert rows[i] in Selected(p, active, holdings);
        return Misconfigured;
      }
      targets := targets + [byId[rows[i]]];
    }
    assert Ids(targets) == rows;
    if p.applicationId.Some? && |targets| == 0 {
      return Misconfigured;
    }
    forall a | a in Selected(p, active, holdings) ensures HasCredentials(configured, a) {
      assert a in rows;
    }
    if p.applicationId.Some? {
      assert rows[0] in Selected(p, active, holdings);
    }
    return Targets(targets);
  }

  // ----- uniqueTargets -----

  /** The first target of each id, in the order given. */
  function Firsts(targets: seq<AppTarget>): seq<AppTarget> {
    if |targets| == 0 then []
    else
      var n := |targets| - 1;
      Firsts(targets[..n]) + if HasId(targets[..n], targets[n].id) then [] else [targets[n]]
  }

  predicate HasId(targets: seq<AppTarget>, id: Uuid) {
    exists t <- targets :: t.id == id
  }

  method UniqueTargets(targets: seq<AppTarget>) returns (r: Option<seq<AppTarget>>)
    ensures r.None? <==> HasId(targets, NIL)
    ensures r.Some? ==> r.value == Firsts(targets)
  {
    var seen: set<Uuid> := {};
    var result := [];
    for i := 0 to |targets|
      invariant forall x :: x in seen <==> HasId(targets[..i], x)
      invariant !HasId(targets[..i], NIL)
      invariant result == Firsts(targets[..i])
    {
      assert targets[..i + 1][..i] == targets[..i];
      assert targets[..i + 1] == targets[..i] + [targets[i]];
      if targets[i].id == NIL {
        assert targets[i] in targets;
        return None;
      }
      if targets[i].id in seen {
        continue;
      }
      seen := seen + {targets[i].id};
      result := result + [targets[i]];
    }
    assert targets[..|targets|] == targets;
    return Some(result);
  }

  /** No id is lost and none is invented. */
  lemma {:induction false} FirstsKeepIds(targets: seq<AppTarget>, id: Uuid)
    ensures HasId(Firsts(targets), id) <==> HasId(targets, id)
  {
    if |targets| > 0 {
      var n := |targets| - 1;
      FirstsKeepIds(targets[..n], id);
      assert targets == targets[..n] + [targets[n]];
    }
  }

  /** No id is repeated. */
  lemma {:induction false} FirstsDistinct(targets: seq<AppTarget>)
    ensures var u := Firsts(targets); forall i, j :: 0 <= i < j < |u| ==> u[i].id != u[j].id
  {
    if |targets| > 0 {
      var n := |targets| - 1;
      FirstsDistinct(targets[..n]);
      FirstsKeepIds(targets[..n], targets[n].id);
    }
  }

  /** The entry kept is the first with its id. */
  lemma {:induction false} FirstsAreFirst(targets: seq<AppTarget>, t: AppTarget)
    requires t in Firsts(targets)
    ensures exists i :: 0 <= i < |targets| && targets[i] == t && !HasId(targets[..i], t.id)
  {
    var n := |targets| - 1;
    if t in Firsts(targets[..n]) {
      FirstsAreFirst(targets[..n], t);
      var i :| 0 <= i < n && targets[..n][i] == t && !HasId(targets[..n][..i], t.id);
      assert targets[..n][..i] == targets[..i];
    }
  }

  lemma LastIsNew(targets: seq<AppTarget>, n: nat)
    requires n < |targets| && forall i :: 0 <= i < n ==> targets[i].id != targets[n].id
    ensures !HasId(targets[..n], targets[n].id)
  {
  }

  /** What resolution returns holds each id once already. */
  lemma {:induction false} FirstsOfDistinct(targets: seq<AppTarget>)
    requires forall i, j :: 0 <= i < j < |targets| ==> targets[i].id != targets[j].id
    ensures Firsts(targets) == targets
  {
    if |targets| > 0 {
      var n := |targets| - 1;
      FirstsOfDistinct(targets[..n]);
      LastIsNew(targets, n);
      assert Firsts(targets) == targets[..n] + [targets[n]];
    }
  }

  // ----- the settle decision -----

  datatype Settlement = Ack | DeadLetter | Requeue

  /** Any missing durable outcome requeues; otherwise any failure dead-letters. */
  function Settle(results: seq<Result>): Settlement {
    if Errored in results then Requeue else if Exhausted in results then DeadLetter else Ack
  }

  /** The fold over the results channel. */
  method FoldResults(results: seq<Result>) returns (s: Settlement)
    ensures s == Settle(results)
    ensures s == Requeue <==> Errored in results
    ensures s == DeadLetter <==> Errored !in results && Exhausted in results
    ensures s == Ack <==> forall r <- results :: r == Ok
  {
    var transientFailure := false;
    var permanentFailure := false;
    for i := 0 to |results|
      invariant transientFailure <==> Errored in results[..i]
      invariant permanentFailure <==> Exhausted in results[..i]
    {
      assert results[..i + 1] == results[..i] + [results[i]];
      if results[i] == Errored {
        transientFailure := true;
        continue;
      }
      if results[i] == Exhausted {
        permanentFailure := true;
      }
    }
    assert results[..|results|] == results;
    assert (forall r <- results :: r == Ok) <==> Errored !in results && Exhausted !in results;
    if transientFailure {
      return Requeue;
    }
    if permanentFailure {
      return DeadLetter;
    }
    return Ack;
  }

  /** The goroutines may finish in any order. */
  lemma SettleIgnoresOrder(results: seq<Result>, arrived: seq<Result>)
    requires multiset(results) == multiset(arrived)
    ensures Settle(results) == Settle(arrived)
  {
    assert Errored in results <==> Errored in multiset(results);
    assert Errored in arrived <==> Errored in multiset(arrived);
    assert Exhausted in results <==> Exhausted in multiset(results);
    assert Exhausted in arrived <==> Exhausted in multiset(arrived);
  }

  /** Each result is the outcome of its target's own program on its own row. */
  ghost predicate Delivered(before: map<Key, Row>, after: map<Key, Row>, event: Uuid, apps: seq<Uuid>,
                            results: seq<Result>, env: Uuid -> nat -> Env, cfg: Config)
  {
    && |apps| == |results|
    && (forall i :: 0 <= i < |apps| ==>
          ReportedBy(RowOf(before, (event, apps[i])), RowOf(after, (event, apps[i])), env(apps[i]), results[i], cfg))
    && (forall k: Key :: k.0 != event || k.1 !in apps ==> RowOf(before, k) == RowOf(after, k))
  }

  ghost predicate ReportedBy(before: Row, after: Row, env: nat -> Env, result: Result, cfg: Config) {
    exists n :: var p := Run(before, env, n, cfg); p.pc == Done(result) && p.row == after
  }

  /** One more target's program, on a row none of the others works on. */
  lemma DeliveredNext(before: map<Key, Row>, mid: map<Key, Row>, after: map<Key, Row>, event: Uuid, apps: seq<Uuid>,
                      app: Uuid, results: seq<Result>, result: Result, n: nat, env: Uuid -> nat -> Env, cfg: Config)
    requires Delivered(before, mid, event, apps, results, env, cfg) && app !in apps
    requires OnlyAt(mid, after, (event, app))
    requires Run(RowOf(mid, (event, app)), env(app), n, cfg).pc == Done(result)
    requires Run(RowOf(mid, (event, app)), env(app), n, cfg).row == RowOf(after, (event, app))
    ensures Delivered(before, after, event, apps + [app], results + [result], env, cfg)
  {
    assert forall k: Key :: k != (event, app) ==> RowOf(mid, k) == RowOf(after, k);
    assert ReportedBy(RowOf(before, (event, app)), RowOf(after, (event, app)), env(app), result, cfg);
    forall i | 0 <= i < |apps|
      ensures RowOf(mid, (event, apps[i])) == RowOf(after, (event, apps[i]))
    {
      assert apps[i] in apps;
    }
  }

  /** All targets' programs. The source runs them in parallel; they work on
      different rows, so the order in which they run here does not matter. */
  method DeliverAll(store: DeliveryStore, event: Uuid, apps: seq<Uuid>, cfg: Config, env: Uuid -> nat -> Env)
    returns (results: seq<Result>)
    requires forall i, j :: 0 <= i < j < |apps| ==> apps[i] != apps[j]
    modifies store
    ensures Delivered(old(store.rows), store.rows, event, apps, results, env, cfg)
  {
    results := [];
    for i := 0 to |apps|
      invariant Delivered(old(store.rows), store.rows, event, apps[..i], results, env, cfg)
    {
      ghost var mid := store.rows;
      var result, _, n := DeliverTarget(store, (event, apps[i]), cfg, env(apps[i]));
      assert apps[..i + 1] == apps[..i] + [apps[i]];
      DeliveredNext(old(store.rows), mid, store.rows, event, apps[..i], apps[i], results, result, n, env, cfg);
      results := results + [result];
    }
    assert apps[..|apps|] == apps;
  }

  /** A result that names an outcome names the row's. */
  ghost predicate Agree(after: map<Key, Row>, event: Uuid, apps: seq<Uuid>, results: seq<Result>) {
    && |apps| == |results|
    && forall i :: 0 <= i < |apps| ==>
         && (results[i] == Ok ==> RowOf(after, (event, apps[i])).status == Succeeded)
         && (results[i] == Exhausted ==> RowOf(after, (event, apps[i])).status == Failed)
  }

  lemma DeliveredAgree(before: map<Key, Row>, after: map<Key, Row>, event: Uuid, apps: seq<Uuid>,
                       results: seq<Result>, env: Uuid -> nat -> Env, cfg: Config)
    requires Delivered(before, after, event, apps, results, env, cfg)
    ensures Agree(after, event, apps, results)
  {
    forall i | 0 <= i < |apps|
      ensures results[i] == Ok ==> RowOf(after, (event, apps[i])).status == Succeeded
      ensures results[i] == Exhausted ==> RowOf(after, (event, apps[i])).status == Failed
    {
      var row := RowOf(before, (event, apps[i]));
      var n :| Run(row, env(apps[i]), n, cfg).pc == Done(results[i])
            && Run(row, env(apps[i]), n, cfg).row == RowOf(after, (event, apps[i]));
      RunMatches(row, env(apps[i]), n, cfg);
    }
  }

  lemma NoErrors(after: map<Key, Row>, event: Uuid, apps: seq<Uuid>, results: seq<Result>)
    requires Agree(after, event, apps, results) && Errored !in results
    ensures forall a <- apps :: Terminal(RowOf(after, (event, a)))
    ensures Exhausted in results <==> exists a <- apps :: RowOf(after, (event, a)).status == Failed
  {
    forall i | 0 <= i < |apps| ensures Terminal(RowOf(after, (event, apps[i]))) {
      assert results[i] in results;
    }
    if Exhausted in results {
      var i :| 0 <= i < |results| && results[i] == Exhausted;
      assert apps[i] in apps;
    }
    if a :| a in apps && RowOf(after, (event, a)).status == Failed {
      var i :| 0 <= i < |apps| && apps[i] == a;
      assert results[i] in results;
    }
  }

  /** With one handler on the event, results and rows agree: unless some target has
      no outcome, the verdict is what the rows say. */
  lemma ResultsAreDurable(before: map<Key, Row>, after: map<Key, Row>, event: Uuid, apps: seq<Uuid>,
                          results: seq<Result>, env: Uuid -> nat -> Env, cfg: Config)
    requires Delivered(before, after, event, apps, results, env, cfg)
    ensures Settle(results) == Requeue <==> Errored in results
    ensures Errored !in results ==>
      && (forall a <- apps :: Terminal(RowOf(after, (event, a))))
      && (Settle(results) == DeadLetter <==> exists a <- apps :: RowOf(after, (event, a)).status == Failed)
      && (Settle(results) == Ack <==> forall a <- apps :: RowOf(after, (event, a)).status == Succeeded)
  {
    DeliveredAgree(before, after, event, apps, results, env, cfg);
    if Errored !in results {
      NoErrors(after, event, apps, results);
    }
  }

  datatype Plan = Deliver(apps: seq<Uuid>) | Reject | Retry

  /** What `targets` makes of a payload: resolution, then `uniqueTargets`. */
  ghost predicate Planned(plan: Plan, p: Payload, active: set<Uuid>, holdings: set<Holding>,
                          configured: seq<AppTarget>, dbFails: bool)
  {
    var selected := Selected(p, active, holdings);
    if dbFails then plan == Retry
    else if (exists a <- selected :: !HasCredentials(configured, a))
            || (p.applicationId.Some? && selected == {}) then plan == Reject
    else if NIL in selected then plan == Retry
    else plan.Deliver? && Lists(plan.apps, selected)
  }

  lemma OneListed(apps: seq<Uuid>, a: Uuid)
    requires Lists(apps, {a})
    ensures apps == [a]
  {
    assert a in apps;
    assert |apps| > 1 ==> apps[0] != apps[1];
    forall i | 0 <= i < |apps| ensures apps[i] == a {
      assert apps[i] in apps;
    }
  }

  /** A delivery plan names exactly the applications the event concerns, each once
      and each with credentials; an event that names an application goes there only. */
  lemma PlanIsExact(plan: Plan, p: Payload, active: set<Uuid>, holdings: set<Holding>, configured: seq<AppTarget>,
                    dbFails: bool, a: Uuid)
    requires Planned(plan, p, active, holdings, configured, dbFails) && plan.Deliver?
    ensures !dbFails && NIL !in plan.apps && forall i, j :: 0 <= i < j < |plan.apps| ==> plan.apps[i] != plan.apps[j]
    ensures a in plan.apps ==> HasCredentials(configured, a)
    ensures p.applicationId.Some? ==> plan.apps == [p.applicationId.value] && p.applicationId.value in active
    ensures p.applicationId.None? ==> (a in plan.apps <==> a in active && exists h <- holdings ::
      h.app == a && h.user == p.userId && (p.centralSessionId.Some? ==> h.session == p.centralSessionId.value))
  {
    var selected := Selected(p, active, holdings);
    SelectedExactly(p, active, holdings, a);
    if p.applicationId.Some? {
      var x :| x in selected;
      assert selected == {p.applicationId.value};
      OneListed(plan.apps, p.applicationId.value);
    }
  }

  /** When nothing is delivered: a failing query asks for a retry; otherwise the
      event is rejected for an application without credentials, or one it names and
      that is not active; only the nil id is left to be retried. */
  lemma NoPlan(plan: Plan, p: Payload, active: set<Uuid>, holdings: set<Holding>, configured: seq<AppTarget>,
               dbFails: bool)
    requires Planned(plan, p, active, holdings, configured, dbFails)
    ensures dbFails ==> plan == Retry
    ensures plan == Retry ==> dbFails || NIL in active
    ensures plan == Reject ==>
      && !dbFails
      && ((p.applicationId.Some? && p.applicationId.value !in active)
          || exists a <- active :: a in Selected(p, active, holdings) && !HasCredentials(configured, a))
    ensures !dbFails && p.applicationId.Some? && p.applicationId.value !in active ==> plan == Reject
    ensures !dbFails && (exists a <- active :: a in Selected(p, active, holdings) && !HasCredentials(configured, a))
      ==> plan == Reject
  {
    if p.applicationId.Some? && p.applicationId.value in active {
      assert p.applicationId.value in Selected(p, active, holdings);
    }
    forall a ensures a in Selected(p, active, holdings) ==> a in active {
      SelectedExactly(p, active, holdings, a);
    }
  }

  method PlanTargets(p: Payload, active: set<Uuid>, holdings: set<Holding>, configured: seq<AppTarget>, dbFails: bool)
    returns (plan: Plan)
    ensures Planned(plan, p, active, holdings, configured, dbFails)
  {
    var resolution := ResolveTargets(p, active, holdings, configured, dbFails);
    if resolution.Unavailable? {
      return Retry;
    }
    if resolution.Misconfigured? {
      return Reject;
    }
    var targets := resolution.targets;
    var unique := UniqueTargets(targets);
    forall a ensures HasId(targets, a) <==> a in Ids(targets) {
      if a in Ids(targets) {
        var i :| 0 <= i < |targets| && Ids(targets)[i] == a;
        assert targets[i] in targets;
      }
    }
    if unique.None? {
      return Retry;
    }
    forall i, j | 0 <= i < j < |targets| ensures targets[i].id != targets[j].id {
      assert Ids(targets)[i] != Ids(targets)[j];
    }
    FirstsOfDistinct(targets);
    return Deliver(Ids(unique.value));
  }

  /** HandleDelivery. `message` is None when the body does not decode. */
  method HandleDelivery(message: Option<Payload>, active: set<Uuid>, holdings: set<Holding>,
                        configured: seq<AppTarget>, dbFails: bool,
                        store: DeliveryStore, cfg: Config, env: Uuid -> nat -> Env)
    returns (s: Settlement, plan: Plan, results: seq<Result>)
    modifies store
    ensures message.Some? && ValidPayload(message.value) ==>
      Planned(plan, message.value, active, holdings, configured, dbFails)
    ensures message.Some? && ValidPayload(message.value) && plan.Deliver? ==>
      && Delivered(old(store.rows), store.rows, message.value.eventId, plan.apps, results, env, cfg)
      && s == Settle(results)
    ensures message.None? || !ValidPayload(message.value) ==> plan.Reject?
    ensures !plan.Reject? ==>
      && message.Some?
      && var p := message.value;
         && p.eventId != NIL && p.userId != NIL && p.occurredAt != 0 && p.reason != ""
         && (p.eventType == SessionRevoked || p.eventType == PasswordChanged || p.eventType == AccessPolicyChanged)
         && (if p.eventType == AccessPolicyChanged then p.applicationId.Some? else p.centralSessionId.Some?)
    ensures dbFails && message.Some? && ValidPayload(message.value) ==> plan.Retry?
    ensures plan.Deliver? ==>
      && (s == Requeue <==> Errored in results)
      && (s == DeadLetter <==> Errored !in results && Exhausted in results)
      && (s == Ack <==> forall r <- results :: r == Ok)
    ensures !plan.Deliver? ==> s == (if plan.Retry? then Requeue else DeadLetter) && store.rows == old(store.rows)
  {
    results := [];
    if message.None? || !ValidPayload(message.value) {
      return DeadLetter, Reject, results;
    }
    plan := PlanTargets(message.value, active, holdings, configured, dbFails);
    if plan.Retry? {
      return Requeue, plan, results;
    }
    if plan.Reject? {
      return DeadLetter, plan, results;
    }
    if |plan.apps| == 0 {
      return Ack, plan, results;
    }
    results := DeliverAll(store, message.value.eventId, plan.apps, cfg, env);
    s := FoldResults(results);
  }
}
