/** Group membership and application policies: who may reach which application,
    and what a lost path costs. */
module Access {
  import opened Domain

  /** An `access_tokens` row. `origin` is bookkeeping of this model: the request
      the row was issued for. */
  datatype TokenRow = TokenRow(user: Uuid, app: Uuid, session: Uuid, expiresAt: Time,
                               revokedAt: Option<Time>, reason: string, origin: Grant)

  datatype Grant = Grant(code: Uuid, redirectUri: string, verifier: string, issuedAt: Time)

  /** (user, group), (application, group), (user, application) */
  type Member = (Uuid, Uuid)
  type Policy = (Uuid, Uuid)
  type Pair = (Uuid, Uuid)

  datatype Db = Db(users: set<Uuid>, members: set<Member>, policies: set<Policy>,
                   tokens: map<Uuid, TokenRow>, events: seq<Payload>)

  /** The foreign key of `user_groups`. */
  ghost predicate Valid(db: Db) {
    forall m <- db.members :: m.0 in db.users
  }

  /** Some group of the user is allowed for the application. */
  predicate HasPath(members: set<Member>, policies: set<Policy>, user: Uuid, app: Uuid) {
    exists m <- members :: m.0 == user && (app, m.1) in policies
  }

  predicate Reaches(db: Db, p: Pair) {
    HasPath(db.members, db.policies, p.0, p.1)
  }

  const ACCESS_POLICY_CHANGED := "access_policy_changed"

  // ----- the two queries -----

  /** Evaluated by Delete after the policy row is gone: members of the group
      without any path to the application. */
  function LosersAfterDelete(db: Db, app: Uuid, group: Uuid): set<Pair> {
    set u | u in db.users && (u, group) in db.members && !HasPath(db.members, db.policies, u, app) :: (u, app)
  }

  /** Evaluated by RemoveUser while the membership is still there: applications
      the group is allowed for and no other group of the user is. */
  function LosersBeforeRemove(db: Db, group: Uuid, user: Uuid): set<Pair> {
    set p | p in db.policies && p.1 == group && (user, group) in db.members
            && !(exists m <- db.members :: m.0 == user && m.1 != group && (p.0, m.1) in db.policies) :: (user, p.0)
  }

  // ----- revoking a pair -----

  predicate IsOf(t: TokenRow, p: Pair) {
    t.user == p.0 && t.app == p.1 && t.revokedAt.None?
  }

  function RevokeToken(t: TokenRow, now: Time): TokenRow {
    t.(revokedAt := Some(now), reason := ACCESS_POLICY_CHANGED)
  }

  /** UPDATE access_tokens for one pair. */
  function RevokeTokens(tokens: map<Uuid, TokenRow>, p: Pair, now: Time): map<Uuid, TokenRow> {
    map j | j in tokens :: if IsOf(tokens[j], p) then RevokeToken(tokens[j], now) else tokens[j]
  }

  /** The pair's unrevoked tokens are revoked and its event is written. */
  function RevokePair(db: Db, p: Pair, now: Time): Db {
    db.(tokens := RevokeTokens(db.tokens, p, now),
        events := db.events + [BuildEvent(db.events, AccessPolicyChanged, p.0, None, Some(p.1),
                                        ACCESS_POLICY_CHANGED, now)])
  }

  function RevokePairs(db: Db, pairs: seq<Pair>, now: Time): (r: Db)
    ensures r.users == db.users && r.members == db.members && r.policies == db.policies
    ensures r.tokens.Keys == db.tokens.Keys
  {
    if |pairs| == 0 then db
    else RevokePair(RevokePairs(db, pairs[..|pairs| - 1], now), pairs[|pairs| - 1], now)
  }

  // ----- the transactions -----

  /** `commits` says whether the transaction commits; `order` is the order in
      which the database returns the affected pairs. */
  datatype Op =
    | SetPolicy(app: Uuid, group: Uuid, commits: bool)
    | DeletePolicy(app: Uuid, group: Uuid, order: seq<Pair>, commits: bool)
    | AddUser(group: Uuid, user: Uuid, commits: bool)
    | RemoveUser(group: Uuid, user: Uuid, order: seq<Pair>, commits: bool)

  ghost function Apply(db: Db, op: Op, now: Time): Db {
    if !op.commits then db
    else match op
      case SetPolicy(app, group, _) => db.(policies := db.policies + {(app, group)})
      case DeletePolicy(app, group, order, _) =>
        var after := db.(policies := db.policies - {(app, group)});
        if (app, group) in db.policies && Lists(order, LosersAfterDelete(after, app, group))
        then RevokePairs(after, order, now) else db
      case AddUser(group, user, _) =>
        if user in db.users then db.(members := db.members + {(user, group)}) else db
      case RemoveUser(group, user, order, _) =>
        if (user, group) in db.members && Lists(order, LosersBeforeRemove(db, group, user))
        then RevokePairs(db.(members := db.members - {(user, group)}), order, now) else db
  }

  ghost predicate Loses(before: Db, after: Db, p: Pair) {
    Reaches(before, p) && !Reaches(after, p)
  }

  ghost predicate Gains(before: Db, after: Db, p: Pair) {
    !Reaches(before, p) && Reaches(after, p)
  }

  /** A transaction changes access only where its row says: a new policy gives it to
      the members of its group, a new membership gives its user what the group is
      allowed, and what is removed gives nobody anything. */
  lemma ChangesAreLocal(db: Db, op: Op, now: Time, p: Pair)
    requires op.commits
    ensures var after := Apply(db, op, now);
      match op
      case SetPolicy(app, group, _) =>
        Reaches(after, p) <==> Reaches(db, p) || (p.1 == app && (p.0, group) in db.members)
      case AddUser(group, user, _) =>
        Reaches(after, p) <==> Reaches(db, p) || (user in db.users && p.0 == user && (p.1, group) in db.policies)
      case DeletePolicy(app, group, _, _) =>
        Reaches(after, p) != Reaches(db, p) ==> p.1 == app && (p.0, group) in db.members
      case RemoveUser(group, user, _, _) =>
        Reaches(after, p) != Reaches(db, p) ==> p.0 == user && (p.1, group) in db.policies
  {
    var after := Apply(db, op, now);
    if m :| m in db.members && m.0 == p.0 && (p.1, m.1) in db.policies {
      assert m in db.members;
      assert op.SetPolicy? || op.AddUser? ==> m in after.members && (p.1, m.1) in after.policies;
    }
    if op.SetPolicy? && p.1 == op.app && (p.0, op.group) in db.members {
      assert (p.0, op.group) in after.members && (p.0, op.group).0 == p.0;
    }
    if op.AddUser? && op.user in db.users && p.0 == op.user && (p.1, op.group) in db.policies {
      assert (op.user, op.group) in after.members && (op.user, op.group).0 == p.0;
    }
  }

  /** Both queries, one evaluated after its delete and the other before, select
      exactly the pairs that had a path and have none any more. */
  lemma DeleteSelectsLosers(db: Db, app: Uuid, group: Uuid, p: Pair)
    requires Valid(db) && (app, group) in db.policies
    ensures var after := db.(policies := db.policies - {(app, group)});
      && (p in LosersAfterDelete(after, app, group) <==> Loses(db, after, p))
      && !Gains(db, after, p)
  {
    var after := db.(policies := db.policies - {(app, group)});
    if Loses(db, after, p) {
      var m :| m in db.members && m.0 == p.0 && (p.1, m.1) in db.policies;
      assert (p.1, m.1) == (app, group);
      assert m == (p.0, group);
    }
    if p in LosersAfterDelete(after, app, group) {
      assert (p.0, group) in db.members && (p.0, group).0 == p.0;
    }
  }

  lemma RemoveSelectsLosers(db: Db, group: Uuid, user: Uuid, p: Pair)
    requires (user, group) in db.members
    ensures var after := db.(members := db.members - {(user, group)});
      && (p in LosersBeforeRemove(db, group, user) <==> Loses(db, after, p))
      && !Gains(db, after, p)
  {
    var after := db.(members := db.members - {(user, group)});
    if Loses(db, after, p) {
      var m :| m in db.members && m.0 == p.0 && (p.1, m.1) in db.policies;
      assert m == (user, group);
      assert (p.1, group) in db.policies;
    }
    if p in LosersBeforeRemove(db, group, user) {
      assert (user, group) in db.members && (p.1, group) in db.policies;
    }
  }

  // ----- what a transaction changes -----

  predicate IsEventFor(e: Payload, p: Pair) {
    e.eventType == AccessPolicyChanged && e.userId == p.0 && e.applicationId == Some(p.1)
  }

  function EventsFor(events: seq<Payload>, p: Pair): nat {
    if |events| == 0 then 0
    else EventsFor(events[..|events| - 1], p) + if IsEventFor(events[|events| - 1], p) then 1 else 0
  }

  function Occurs(pairs: seq<Pair>, p: Pair): nat {
    if |pairs| == 0 then 0
    else Occurs(pairs[..|pairs| - 1], p) + if pairs[|pairs| - 1] == p then 1 else 0
  }

  lemma {:induction false} ListsOnce(pairs: seq<Pair>, p: Pair)
    requires forall i, j :: 0 <= i < j < |pairs| ==> pairs[i] != pairs[j]
    ensures Occurs(pairs, p) == if p in pairs then 1 else 0
  {
    if |pairs| > 0 {
      var n := |pairs| - 1;
      ListsOnce(pairs[..n], p);
      assert pairs == pairs[..n] + [pairs[n]];
    }
  }

  lemma {:induction false} RevokePairsTokens(db: Db, pairs: seq<Pair>, now: Time, j: Uuid)
    requires j in db.tokens
    ensures RevokePairs(db, pairs, now).tokens[j]
         == if exists p <- pairs :: IsOf(db.tokens[j], p) then RevokeToken(db.tokens[j], now) else db.tokens[j]
  {
    if |pairs| > 0 {
      var n := |pairs| - 1;
      assert pairs == pairs[..n] + [pairs[n]];
      RevokePairsTokens(db, pairs[..n], now, j);
    }
  }

  lemma {:induction false} RevokePairsEvents(db: Db, pairs: seq<Pair>, now: Time)
    ensures var events := RevokePairs(db, pairs, now).events;
      && |events| == |db.events| + |pairs| && events[..|db.events|] == db.events
      && (forall i :: |db.events| <= i < |events| ==>
            var p := pairs[i - |db.events|];
            events[i] == Payload(i + 1, AccessPolicyChanged, p.0, None, Some(p.1), ACCESS_POLICY_CHANGED, now))
  {
    if |pairs| > 0 {
      RevokePairsEvents(db, pairs[..|pairs| - 1], now);
    }
  }

  lemma {:induction false} RevokePairsCount(db: Db, pairs: seq<Pair>, now: Time, p: Pair)
    ensures EventsFor(RevokePairs(db, pairs, now).events, p) == EventsFor(db.events, p) + Occurs(pairs, p)
  {
    if |pairs| > 0 {
      var n := |pairs| - 1;
      RevokePairsCount(db, pairs[..n], now, p);
      var mid := RevokePairs(db, pairs[..n], now).events;
      var e := BuildEvent(mid, AccessPolicyChanged, pairs[n].0, None, Some(pairs[n].1), ACCESS_POLICY_CHANGED, now);
      assert (mid + [e])[..|mid|] == mid;
    }
  }

  /** The pairs a transaction revokes, in order. */
  ghost function Revoked(db: Db, op: Op): seq<Pair> {
    match op
    case DeletePolicy(app, group, order, true) =>
      if (app, group) in db.policies
         && Lists(order, LosersAfterDelete(db.(policies := db.policies - {(app, group)}), app, group))
      then order else []
    case RemoveUser(group, user, order, true) =>
      if (user, group) in db.members && Lists(order, LosersBeforeRemove(db, group, user)) then order else []
    case _ => []
  }

  /** Every transaction: the pairs that lost their last path, and only those,
      are revoked, each once. */
  lemma RevokedIsLost(db: Db, op: Op, now: Time, p: Pair)
    requires Valid(db)
    ensures Valid(Apply(db, op, now))
    ensures Loses(db, Apply(db, op, now), p) <==> p in Revoked(db, op)
    ensures Occurs(Revoked(db, op), p) == if Loses(db, Apply(db, op, now), p) then 1 else 0
  {
    ListsOnce(Revoked(db, op), p);
    if op.commits {
      match op
      case SetPolicy(app, group, _) =>
        if Reaches(db, p) {
          var m :| m in db.members && m.0 == p.0 && (p.1, m.1) in db.policies;
          assert (p.1, m.1) in db.policies + {(app, group)};
        }
      case DeletePolicy(app, group, order, _) =>
        if (app, group) in db.policies { DeleteSelectsLosers(db, app, group, p); }
      case AddUser(group, user, _) =>
        if Reaches(db, p) {
          var m :| m in db.members && m.0 == p.0 && (p.1, m.1) in db.policies;
          assert m in db.members + {(user, group)};
        }
      case RemoveUser(group, user, order, _) =>
        if (user, group) in db.members { RemoveSelectsLosers(db, group, user, p); }
    }
  }

  lemma ApplyIsRevokePairs(db: Db, op: Op, now: Time)
    ensures Apply(db, op, now).tokens == RevokePairs(db, Revoked(db, op), now).tokens
    ensures Apply(db, op, now).events == RevokePairs(db, Revoked(db, op), now).events
  {
    var pairs := Revoked(db, op);
    match op
    case DeletePolicy(app, group, order, _) =>
      RevokePairsFrame(db, db.(policies := db.policies - {(app, group)}), pairs, now);
    case RemoveUser(group, user, order, _) =>
      RevokePairsFrame(db, db.(members := db.members - {(user, group)}), pairs, now);
    case _ =>
  }

  lemma {:induction false} RevokePairsFrame(a: Db, b: Db, pairs: seq<Pair>, now: Time)
    requires a.tokens == b.tokens && a.events == b.events
    ensures RevokePairs(a, pairs, now).tokens == RevokePairs(b, pairs, now).tokens
    ensures RevokePairs(a, pairs, now).events == RevokePairs(b, pairs, now).events
  {
    if |pairs| > 0 {
      RevokePairsFrame(a, b, pairs[..|pairs| - 1], now);
    }
  }

  /** Access-loss exactness: a transaction revokes an unrevoked token exactly
      when its pair lost the last path, touches no other token, and writes one
      event for each pair that lost it and none for any other. */
  lemma LossIsExact(db: Db, op: Op, now: Time)
    requires Valid(db)
    ensures var after := Apply(db, op, now);
      && after.tokens.Keys == db.tokens.Keys
      && (forall j <- db.tokens :: after.tokens[j] ==
            if db.tokens[j].revokedAt.None? && Loses(db, after, (db.tokens[j].user, db.tokens[j].app))
            then RevokeToken(db.tokens[j], now) else db.tokens[j])
      && (forall p :: EventsFor(after.events, p) == EventsFor(db.events, p) + if Loses(db, after, p) then 1 else 0)
  {
    var after := Apply(db, op, now);
    var pairs := Revoked(db, op);
    ApplyIsRevokePairs(db, op, now);
    forall j | j in db.tokens
      ensures after.tokens[j] ==
        if db.tokens[j].revokedAt.None? && Loses(db, after, (db.tokens[j].user, db.tokens[j].app))
        then RevokeToken(db.tokens[j], now) else db.tokens[j]
    {
      var p := (db.tokens[j].user, db.tokens[j].app);
      RevokePairsTokens(db, pairs, now, j);
      RevokedIsLost(db, op, now, p);
      assert forall q :: IsOf(db.tokens[j], q) ==> q == p;
    }
    forall p ensures EventsFor(after.events, p) == EventsFor(db.events, p) + if Loses(db, after, p) then 1 else 0 {
      RevokePairsCount(db, pairs, now, p);
      RevokedIsLost(db, op, now, p);
    }
  }

  lemma LossRevokes(db: Db, op: Op, now: Time, j: Uuid)
    requires Valid(db) && j in db.tokens && Loses(db, Apply(db, op, now), (db.tokens[j].user, db.tokens[j].app))
    ensures j in Apply(db, op, now).tokens && Apply(db, op, now).tokens[j].revokedAt.Some?
  {
    LossIsExact(db, op, now);
  }

  // ----- telescoping -----

  ghost function Run(db: Db, ops: seq<(Op, Time)>): Db {
    if |ops| == 0 then db
    else Apply(Run(db, ops[..|ops| - 1]), ops[|ops| - 1].0, ops[|ops| - 1].1)
  }

  ghost function Losses(db: Db, ops: seq<(Op, Time)>, p: Pair): nat {
    if |ops| == 0 then 0
    else
      var before := ops[..|ops| - 1];
      Losses(db, before, p) + if Loses(Run(db, before), Run(db, ops), p) then 1 else 0
  }

  ghost function Gained(db: Db, ops: seq<(Op, Time)>, p: Pair): nat {
    if |ops| == 0 then 0
    else
      var before := ops[..|ops| - 1];
      Gained(db, before, p) + if Gains(Run(db, before), Run(db, ops), p) then 1 else 0
  }

  /** Over any run of policy and membership changes the outbox holds one
      AccessPolicyChanged row per loss, and gains minus losses tell whether the
      pair has access now. */
  lemma {:induction false} Telescoping(db: Db, ops: seq<(Op, Time)>, p: Pair)
    requires Valid(db)
    ensures Valid(Run(db, ops))
    ensures EventsFor(Run(db, ops).events, p) == EventsFor(db.events, p) + Losses(db, ops, p)
    ensures Gained(db, ops, p) - Losses(db, ops, p)
         == (if Reaches(Run(db, ops), p) then 1 else 0) - if Reaches(db, p) then 1 else 0
  {
    if |ops| > 0 {
      var n := |ops| - 1;
      Telescoping(db, ops[..n], p);
      var before := Run(db, ops[..n]);
      RevokedIsLost(before, ops[n].0, ops[n].1, p);
      LossIsExact(before, ops[n].0, ops[n].1);
    }
  }

  // ----- the repositories -----

  datatype Error = NoError | PolicyNotFound | MembershipNotFound | Conflict | StoreError

  class Repository {
    var users: set<Uuid>
    const groups: set<Uuid>
    const apps: set<Uuid>
    var members: set<Member>
    var policies: set<Policy>
    var tokens: map<Uuid, TokenRow>
    var events: seq<Payload>

    ghost function View(): Db
      reads this
    {
      Db(users, members, policies, tokens, events)
    }

    constructor (users: set<Uuid>, groups: set<Uuid>, apps: set<Uuid>)
      ensures View() == Db(users, {}, {}, map[], []) && this.groups == groups && this.apps == apps
    {
      this.users, this.groups, this.apps := users, groups, apps;
      members, policies, tokens, events := {}, {}, map[], [];
    }

    /** PolicyRepository.Set: idempotent; the insert is subject to the foreign keys
        on application and group. */
    method Set(app: Uuid, group: Uuid, now: Time, storeFails: bool) returns (err: Error)
      modifies this
      ensures err == if storeFails then StoreError
                     else if (app, group) in old(policies) || (app in apps && group in groups)
                     then NoError else Conflict
      ensures View() == Apply(old(View()), SetPolicy(app, group, err == NoError), now)
      ensures policies == old(policies) + (if err == NoError then {(app, group)} else {})
      ensures members == old(members) && tokens == old(tokens) && events == old(events) && users == old(users)
    {
      if storeFails {
        return StoreError;
      }
      if (app, group) in policies {
        assert policies + {(app, group)} == policies;
        return NoError;
      }
      if app !in apps || group !in groups {
        return Conflict;
      }
      policies := policies + {(app, group)};
      return NoError;
    }

    /** GroupRepository.AddUser: a plain insert under a unique key and the foreign
        keys on user and group. */
    method Add(group: Uuid, user: Uuid, now: Time, storeFails: bool) returns (err: Error)
      modifies this
      ensures err == NoError <==> !storeFails && user in old(users) && group in groups && (user, group) !in old(members)
      ensures View() == Apply(old(View()), AddUser(group, user, err == NoError), now)
      ensures members == old(members) + (if err == NoError then {(user, group)} else {})
      ensures policies == old(policies) && tokens == old(tokens) && events == old(events) && users == old(users)
    {
      if storeFails {
        return StoreError;
      }
      if user !in users || group !in groups || (user, group) in members {
        return Conflict;
      }
      members := members + {(user, group)};
      return NoError;
    }

    /** The loop both deletions end with. `failAt` is the iteration that fails, if any. */
    method RevokeLoop(pairs: seq<Pair>, now: Time, failAt: Option<nat>) returns (err: Error)
      modifies this`tokens, this`events
      ensures err == if failAt.Some? && failAt.value < |pairs| then StoreError else NoError
      ensures err == NoError ==> View() == RevokePairs(old(View()), pairs, now)
    {
      for i := 0 to |pairs|
        invariant View() == RevokePairs(old(View()), pairs[..i], now)
        invariant failAt.Some? ==> failAt.value >= i
      {
        assert pairs[..i + 1][..i] == pairs[..i];
        var p := pairs[i];
        tokens := RevokeTokens(tokens, p, now);
        if failAt == Some(i) {
          return StoreError;
        }
        events := events + [BuildEvent(events, AccessPolicyChanged, p.0, None, Some(p.1), ACCESS_POLICY_CHANGED, now)];
      }
      assert pairs[..|pairs|] == pairs;
      return NoError;
    }

    /** PolicyRepository.Delete: delete, then query, then revoke. */
    method Delete(app: Uuid, group: Uuid, now: Time, failAt: Option<nat>) returns (err: Error, order: seq<Pair>)
      modifies this
      ensures err == PolicyNotFound <==> (app, group) !in old(policies)
      ensures err == NoError || err == PolicyNotFound || err == StoreError
      ensures err != PolicyNotFound ==>
        && Lists(order, LosersAfterDelete(old(View()).(policies := old(policies) - {(app, group)}), app, group))
        && (err == StoreError <==> failAt.Some? && failAt.value < |order|)
      ensures View() == Apply(old(View()), DeletePolicy(app, group, order, err == NoError), now)
      ensures policies == old(policies) - (if err == NoError then {(app, group)} else {})
      ensures members == old(members) && users == old(users)
      ensures err != NoError ==> tokens == old(tokens) && events == old(events)
    {
      order := [];
      if (app, group) !in policies {
        return PolicyNotFound, order;
      }
      var policies0, tokens0, events0 := policies, tokens, events;
      policies := policies - {(app, group)};
      order := ReadRows(set u | u in users && (u, group) in members
                        && !(exists m <- members :: m.0 == u && (app, m.1) in policies) :: (u, app));
      assert Lists(order, LosersAfterDelete(View(), app, group));
      err := RevokeLoop(order, now, failAt);
      if err != NoError {
        policies, tokens, events := policies0, tokens0, events0;
      }
    }

    /** GroupRepository.RemoveUser: query, then delete, then revoke. */
    method Remove(group: Uuid, user: Uuid, now: Time, failAt: Option<nat>) returns (err: Error, order: seq<Pair>)
      modifies this
      ensures Lists(order, LosersBeforeRemove(old(View()), group, user))
      ensures err == if (user, group) !in old(members) then MembershipNotFound
                     else if failAt.Some? && failAt.value < |order| then StoreError else NoError
      ensures View() == Apply(old(View()), RemoveUser(group, user, order, err == NoError), now)
      ensures members == old(members) - (if err == NoError then {(user, group)} else {})
      ensures policies == old(policies) && users == old(users)
      ensures err != NoError ==> tokens == old(tokens) && events == old(events)
    {
      order := ReadRows(set p | p in policies && p.1 == group && (user, group) in members
                        && !(exists m <- members :: m.0 == user && m.1 != group && (p.0, m.1) in policies)
                        :: (user, p.0));
      assert Lists(order, LosersBeforeRemove(View(), group, user));
      if (user, group) !in members {
        return MembershipNotFound, order;
      }
      var members0, tokens0, events0 := members, tokens, events;
      members := members - {(user, group)};
      err := RevokeLoop(order, now, failAt);
      if err != NoError {
        members, tokens, events := members0, tokens0, events0;
      }
    }
  }
}
