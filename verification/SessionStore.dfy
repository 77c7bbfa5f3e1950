/** Central sessions and the revocation events written in the same transaction:
    logout, deactivation, revoke-all and password change. */
module SessionStore {
  import opened Domain

  datatype UserStatus = ActiveUser | InactiveUser

  datatype SessionStatus = Active | Expired | Revoked

  datatype Session =
    Session(user: Uuid, status: SessionStatus, expiresAt: Time, revokedAt: Option<Time>, reason: string)

  /** `users`, `sso_sessions` and the outbox. */
  datatype Db = Db(users: map<Uuid, UserStatus>, sessions: map<Uuid, Session>, events: seq<Payload>)

  predicate Live(s: Session) {
    s.status == Active && s.revokedAt.None?
  }

  /** The guard of FindActiveByID and FindActiveByTokenHash. */
  predicate Usable(s: Session, now: Time) {
    Live(s) && now < s.expiresAt
  }

  function RevokedAs(s: Session, reason: string, now: Time): Session {
    s.(status := Revoked, revokedAt := Some(now), reason := reason)
  }

  /** One session revoked and its event appended. */
  function RevokeOne(db: Db, id: Uuid, kind: EventType, reason: string, now: Time): Db
    requires id in db.sessions
  {
    db.(sessions := db.sessions[id := RevokedAs(db.sessions[id], reason, now)],
        events := db.events + [BuildEvent(db.events, kind, db.sessions[id].user, Some(id), None, reason, now)])
  }

  predicate Known(db: Db, ids: seq<Uuid>) {
    forall id <- ids :: id in db.sessions
  }

  function RevokeEach(db: Db, ids: seq<Uuid>, kind: EventType, reason: string, now: Time): (r: Db)
    requires Known(db, ids)
    ensures r.sessions.Keys == db.sessions.Keys && r.users == db.users
  {
    if |ids| == 0 then db
    else RevokeOne(RevokeEach(db, ids[..|ids| - 1], kind, reason, now), ids[|ids| - 1], kind, reason, now)
  }

  function LiveSessions(db: Db, user: Uuid): set<Uuid> {
    set id | id in db.sessions && db.sessions[id].user == user && Live(db.sessions[id])
  }

  // ----- the transactions -----

  /** Whether a transaction commits. `order` is the order in which the database
      returns the user's live sessions. */
  datatype Op =
    | CreateUser(user: Uuid)
    | Login(user: Uuid, id: Uuid, ttl: Time)
    | SsoLogout(id: Uuid, commits: bool)
    | SetStatus(user: Uuid, status: UserStatus, order: seq<Uuid>, commits: bool)
    | RevokeAll(user: Uuid, reason: string, order: seq<Uuid>, commits: bool)
    | UpdateUser(user: Uuid, passwordGiven: bool, order: seq<Uuid>, commits: bool)

  const SSO_LOGOUT := "sso_logout"
  const USER_INACTIVE := "user_inactive"
  const PASSWORD_CHANGED := "password_changed"

  ghost function Apply(db: Db, op: Op, now: Time): Db {
    match op
    case CreateUser(user) =>
      if user in db.users || user == NIL then db else db.(users := db.users[user := ActiveUser])
    case Login(user, id, ttl) =>
      if user !in db.users || id in db.sessions then db
      else db.(sessions := db.sessions[id := Session(user, Active, now + ttl, None, "")])
    case SsoLogout(id, commits) =>
      if commits && id in db.sessions && Usable(db.sessions[id], now)
      then RevokeOne(db, id, SessionRevoked, SSO_LOGOUT, now) else db
    case SetStatus(user, status, order, commits) =>
      if !commits || user !in db.users then db
      else
        var db1 := db.(users := db.users[user := status]);
        if status == InactiveUser && Lists(order, LiveSessions(db, user))
        then RevokeEach(db1, order, SessionRevoked, USER_INACTIVE, now)
        else if status == InactiveUser then db else db1
    case RevokeAll(user, reason, order, commits) =>
      if commits && Lists(order, LiveSessions(db, user))
      then RevokeEach(db, order, SessionRevoked, reason, now) else db
    case UpdateUser(user, passwordGiven, order, commits) =>
      if commits && user in db.users && passwordGiven && Lists(order, LiveSessions(db, user))
      then RevokeEach(db, order, PasswordChanged, PASSWORD_CHANGED, now) else db
  }

  // ----- agreement between sessions and outbox -----

  predicate Names(e: Payload, id: Uuid) {
    e.centralSessionId == Some(id)
  }

  /** How many outbox rows name a session. */
  function Named(events: seq<Payload>, id: Uuid): nat {
    if |events| == 0 then 0
    else Named(events[..|events| - 1], id) + if Names(events[|events| - 1], id) then 1 else 0
  }

  ghost predicate Agreement(db: Db) {
    && (forall id <- db.sessions :: Named(db.events, id) == if Live(db.sessions[id]) then 0 else 1)
    && (forall id <- db.sessions :: db.sessions[id].user in db.users)
    && (forall e <- db.events :: e.centralSessionId.Some? ==>
          e.centralSessionId.value in db.sessions && e.userId == db.sessions[e.centralSessionId.value].user)
    && Numbered(db.events)
  }

  lemma NamedAppend(events: seq<Payload>, e: Payload, id: Uuid)
    ensures Named(events + [e], id) == Named(events, id) + if Names(e, id) then 1 else 0
  {
    assert (events + [e])[..|events|] == events;
  }

  lemma {:induction false} NamedZero(events: seq<Payload>, id: Uuid)
    ensures Named(events, id) == 0 <==> forall e <- events :: !Names(e, id)
  {
    if |events| > 0 {
      var n := |events| - 1;
      NamedZero(events[..n], id);
      assert events == events[..n] + [events[n]];
    }
  }

  lemma RevokeOneAgrees(db: Db, id: Uuid, kind: EventType, reason: string, now: Time)
    requires Agreement(db) && id in db.sessions && Live(db.sessions[id])
    ensures Agreement(RevokeOne(db, id, kind, reason, now))
  {
    var e := BuildEvent(db.events, kind, db.sessions[id].user, Some(id), None, reason, now);
    forall s | s in db.sessions
      ensures Named(db.events + [e], s) == Named(db.events, s) + if s == id then 1 else 0
    {
      NamedAppend(db.events, e, s);
    }
  }

  ghost predicate Distinct(ids: seq<Uuid>) {
    forall i, j :: 0 <= i < j < |ids| ==> ids[i] != ids[j]
  }

  /** A loop over some sessions revokes exactly those. */
  lemma {:induction false} RevokeEachSessions(db: Db, ids: seq<Uuid>, kind: EventType, reason: string, now: Time)
    requires Known(db, ids)
    requires Distinct(ids)
    ensures var r := RevokeEach(db, ids, kind, reason, now);
      forall id <- db.sessions :: r.sessions[id] ==
        if id in ids then RevokedAs(db.sessions[id], reason, now) else db.sessions[id]
  {
    if |ids| > 0 {
      var n := |ids| - 1;
      assert ids == ids[..n] + [ids[n]];
      RevokeEachSessions(db, ids[..n], kind, reason, now);
    }
  }

  lemma {:induction false} RevokeEachGrows(db: Db, ids: seq<Uuid>, kind: EventType, reason: string, now: Time)
    requires Known(db, ids)
    ensures var events := RevokeEach(db, ids, kind, reason, now).events;
      |events| == |db.events| + |ids| && events[..|db.events|] == db.events
  {
    if |ids| > 0 {
      RevokeEachGrows(db, ids[..|ids| - 1], kind, reason, now);
    }
  }

  /** The event of the session at position `k`. */
  function EventFor(db: Db, ids: seq<Uuid>, kind: EventType, reason: string, now: Time, k: nat): Payload
    requires Known(db, ids) && k < |ids|
  {
    assert ids[k] in ids;
    Payload(|db.events| + k + 1, kind, db.sessions[ids[k]].user, Some(ids[k]), None, reason, now)
  }

  lemma LastEvent(db: Db, ids: seq<Uuid>, kind: EventType, reason: string, now: Time)
    requires Known(db, ids) && |ids| > 0
    ensures var events := RevokeEach(db, ids, kind, reason, now).events; var n := |ids| - 1;
      |events| == |db.events| + |ids| && events[|db.events| + n] == EventFor(db, ids, kind, reason, now, n)
  {
    var n := |ids| - 1;
    assert ids[n] in ids;
    RevokeEachGrows(db, ids[..n], kind, reason, now);
    RevokeEachOwners(db, ids[..n], kind, reason, now);
  }

  lemma {:induction false} RevokeEachEventAt(db: Db, ids: seq<Uuid>, kind: EventType, reason: string, now: Time, k: nat)
    requires Known(db, ids) && k < |ids|
    ensures var events := RevokeEach(db, ids, kind, reason, now).events;
      |db.events| + k < |events| && events[|db.events| + k] == EventFor(db, ids, kind, reason, now, k)
  {
    if k == |ids| - 1 {
      LastEvent(db, ids, kind, reason, now);
    } else {
      RevokeEachEventAt(db, ids[..|ids| - 1], kind, reason, now, k);
    }
  }

  /** It appends one event per session, in the loop's order. */
  lemma RevokeEachEvents(db: Db, ids: seq<Uuid>, kind: EventType, reason: string, now: Time)
    requires Known(db, ids)
    ensures var events := RevokeEach(db, ids, kind, reason, now).events;
      && |events| == |db.events| + |ids| && events[..|db.events|] == db.events
      && (forall i :: |db.events| <= i < |events| ==>
            events[i] == EventFor(db, ids, kind, reason, now, i - |db.events|))
  {
    RevokeEachGrows(db, ids, kind, reason, now);
    var events := RevokeEach(db, ids, kind, reason, now).events;
    forall i | |db.events| <= i < |events|
      ensures events[i] == EventFor(db, ids, kind, reason, now, i - |db.events|)
    {
      RevokeEachEventAt(db, ids, kind, reason, now, i - |db.events|);
    }
  }

  /** `order` lists the user's live sessions, each once; they are revoked and no
      other session changes. */
  ghost predicate TheirSessions(before: map<Uuid, Session>, after: map<Uuid, Session>, user: Uuid, order: seq<Uuid>,
                                reason: string, now: Time)
  {
    && (forall i, j :: 0 <= i < j < |order| ==> order[i] != order[j])
    && (forall id :: id in order <==> id in before && before[id].user == user
                                      && before[id].status == Active && before[id].revokedAt.None?)
    && after.Keys == before.Keys
    && (forall id <- before :: after[id] ==
          if id in order then Session(user, Revoked, before[id].expiresAt, Some(now), reason) else before[id])
  }

  /** One event for each of them, in order, after those already there. */
  ghost predicate TheirEvents(before: seq<Payload>, after: seq<Payload>, user: Uuid, order: seq<Uuid>,
                              kind: EventType, reason: string, now: Time)
  {
    && |after| == |before| + |order| && after[..|before|] == before
    && (forall i :: |before| <= i < |after| ==>
          after[i] == Payload(i + 1, kind, user, Some(order[i - |before|]), None, reason, now))
  }

  /** Exactly the user's live sessions are revoked, and each has its event. */
  ghost predicate OnlyTheirs(before: Db, after: Db, user: Uuid, order: seq<Uuid>, kind: EventType, reason: string,
                             now: Time)
  {
    && TheirSessions(before.sessions, after.sessions, user, order, reason, now)
    && TheirEvents(before.events, after.events, user, order, kind, reason, now)
  }

  lemma RevokesTheirs(db: Db, user: Uuid, order: seq<Uuid>, kind: EventType, reason: string, now: Time)
    requires Lists(order, LiveSessions(db, user))
    ensures TheirSessions(db.sessions, RevokeEach(db, order, kind, reason, now).sessions, user, order, reason, now)
  {
    RevokeEachSessions(db, order, kind, reason, now);
  }

  lemma WritesTheirs(db: Db, user: Uuid, order: seq<Uuid>, kind: EventType, reason: string, now: Time)
    requires Lists(order, LiveSessions(db, user))
    ensures TheirEvents(db.events, RevokeEach(db, order, kind, reason, now).events, user, order, kind, reason, now)
  {
    RevokeEachEvents(db, order, kind, reason, now);
    forall i | 0 <= i < |order| ensures db.sessions[order[i]].user == user {
      assert order[i] in order;
    }
  }

  lemma RevokeEachIsExact(before: Db, db: Db, user: Uuid, order: seq<Uuid>, kind: EventType, reason: string, now: Time)
    requires Lists(order, LiveSessions(before, user)) && db.sessions == before.sessions && db.events == before.events
    ensures OnlyTheirs(before, RevokeEach(db, order, kind, reason, now), user, order, kind, reason, now)
  {
    assert LiveSessions(db, user) == LiveSessions(before, user);
    RevokesTheirs(db, user, order, kind, reason, now);
    WritesTheirs(db, user, order, kind, reason, now);
  }

  lemma {:induction false} RevokeEachAgrees(db: Db, ids: seq<Uuid>, kind: EventType, reason: string, now: Time)
    requires Known(db, ids) && Agreement(db) && Distinct(ids)
    requires forall id <- ids :: Live(db.sessions[id])
    ensures Agreement(RevokeEach(db, ids, kind, reason, now))
  {
    if |ids| > 0 {
      var n := |ids| - 1;
      assert ids == ids[..n] + [ids[n]];
      RevokeEachAgrees(db, ids[..n], kind, reason, now);
      RevokeEachSessions(db, ids[..n], kind, reason, now);
      RevokeOneAgrees(RevokeEach(db, ids[..n], kind, reason, now), ids[n], kind, reason, now);
    }
  }

  lemma ApplyAgrees(db: Db, op: Op, now: Time)
    requires Agreement(db)
    ensures Agreement(Apply(db, op, now))
  {
    match op
    case CreateUser(user) =>
    case Login(user, id, ttl) =>
      NamedZero(db.events, id);
    case SsoLogout(id, commits) =>
      if commits && id in db.sessions && Usable(db.sessions[id], now) {
        RevokeOneAgrees(db, id, SessionRevoked, SSO_LOGOUT, now);
      }
    case SetStatus(user, status, order, commits) =>
      if commits && user in db.users && Lists(order, LiveSessions(db, user)) {
        RevokeEachAgrees(db.(users := db.users[user := status]), order, SessionRevoked, USER_INACTIVE, now);
      }
    case RevokeAll(user, reason, order, commits) =>
      if commits && Lists(order, LiveSessions(db, user)) {
        RevokeEachAgrees(db, order, SessionRevoked, reason, now);
      }
    case UpdateUser(user, passwordGiven, order, commits) =>
      if commits && Lists(order, LiveSessions(db, user)) {
        RevokeEachAgrees(db, order, PasswordChanged, PASSWORD_CHANGED, now);
      }
  }

  lemma {:induction false} RevokeEachOwners(db: Db, ids: seq<Uuid>, kind: EventType, reason: string, now: Time)
    requires Known(db, ids)
    ensures SameOwners(db, RevokeEach(db, ids, kind, reason, now))
  {
    if |ids| > 0 {
      RevokeEachOwners(db, ids[..|ids| - 1], kind, reason, now);
    }
  }

  /** Users and sessions are never deleted, and sessions never change hands. */
  ghost predicate SameOwners(before: Db, after: Db) {
    && before.users.Keys <= after.users.Keys
    && (forall id <- before.sessions :: id in after.sessions && after.sessions[id].user == before.sessions[id].user)
  }

  lemma ApplyKeepsOwners(db: Db, op: Op, now: Time)
    ensures SameOwners(db, Apply(db, op, now))
  {
    match op
    case SetStatus(user, status, order, commits) =>
      if user in db.users && Known(db, order) {
        RevokeEachOwners(db.(users := db.users[user := status]), order, SessionRevoked, USER_INACTIVE, now);
      }
    case RevokeAll(user, reason, order, commits) =>
      if Known(db, order) {
        RevokeEachOwners(db, order, SessionRevoked, reason, now);
      }
    case UpdateUser(user, given, order, commits) =>
      if Known(db, order) {
        RevokeEachOwners(db, order, PasswordChanged, PASSWORD_CHANGED, now);
      }
    case _ =>
  }

  /** A session that is live afterwards was live before, until the same instant. */
  ghost predicate NoneRevived(before: Db, after: Db) {
    forall id <- before.sessions :: id in after.sessions
      && after.sessions[id].expiresAt == before.sessions[id].expiresAt
      && (Live(after.sessions[id]) ==> Live(before.sessions[id]))
  }

  lemma {:induction false} RevokeEachRevivesNone(db: Db, ids: seq<Uuid>, kind: EventType, reason: string, now: Time)
    requires Known(db, ids)
    ensures NoneRevived(db, RevokeEach(db, ids, kind, reason, now))
  {
    if |ids| > 0 {
      RevokeEachRevivesNone(db, ids[..|ids| - 1], kind, reason, now);
    }
  }

  lemma ApplyRevivesNone(db: Db, op: Op, now: Time)
    ensures NoneRevived(db, Apply(db, op, now))
  {
    match op
    case SetStatus(user, status, order, commits) =>
      if user in db.users && Known(db, order) {
        RevokeEachRevivesNone(db.(users := db.users[user := status]), order, SessionRevoked, USER_INACTIVE, now);
      }
    case RevokeAll(user, reason, order, commits) =>
      if Known(db, order) {
        RevokeEachRevivesNone(db, order, SessionRevoked, reason, now);
      }
    case UpdateUser(user, given, order, commits) =>
      if Known(db, order) {
        RevokeEachRevivesNone(db, order, PasswordChanged, PASSWORD_CHANGED, now);
      }
    case _ =>
  }

  ghost function Run(ops: seq<(Op, Time)>): Db {
    if |ops| == 0 then Db(map[], map[], [])
    else Apply(Run(ops[..|ops| - 1]), ops[|ops| - 1].0, ops[|ops| - 1].1)
  }

  /** Over every run, committed or rolled back, a central session is revoked
      exactly when one outbox row names it, and never more than one does. */
  lemma {:induction false} RevokedIffNamedOnce(ops: seq<(Op, Time)>)
    ensures Agreement(Run(ops))
    ensures forall id <- Run(ops).sessions :: !Live(Run(ops).sessions[id]) <==> Named(Run(ops).events, id) == 1
  {
    if |ops| > 0 {
      RevokedIffNamedOnce(ops[..|ops| - 1]);
      ApplyAgrees(Run(ops[..|ops| - 1]), ops[|ops| - 1].0, ops[|ops| - 1].1);
    }
  }

  // ----- the repositories -----

  datatype Error = NoError | SessionNotFound | UserNotFound | StoreError

  class Repository {
    var users: map<Uuid, UserStatus>
    var sessions: map<Uuid, Session>
    var events: seq<Payload>

    ghost function View(): Db
      reads this
    {
      Db(users, sessions, events)
    }

    constructor ()
      ensures View() == Db(map[], map[], [])
    {
      users, sessions, events := map[], map[], [];
    }

    /** `revoke`: the guarded update must hit exactly one row. */
    method RevokeRow(id: Uuid, reason: string, now: Time) returns (err: Error)
      modifies this`sessions
      ensures err == NoError <==> id in old(sessions) && Live(old(sessions)[id])
      ensures err == NoError || err == SessionNotFound
      ensures sessions == if err == NoError then old(sessions)[id := RevokedAs(old(sessions)[id], reason, now)]
                          else old(sessions)
    {
      if id !in sessions || sessions[id].status != Active || sessions[id].revokedAt.Some? {
        return SessionNotFound;
      }
      sessions := sessions[id := RevokedAs(sessions[id], reason, now)];
      return NoError;
    }

    /** The loop all bulk revocations run: revoke a session, write its event.
        `failAt` is the iteration whose event insert fails, if any. */
    method RevokeLoop(ids: seq<Uuid>, kind: EventType, reason: string, now: Time, failAt: Option<nat>)
      returns (err: Error)
      requires Known(View(), ids)
      requires forall i, j :: 0 <= i < j < |ids| ==> ids[i] != ids[j]
      requires forall id <- ids :: Live(sessions[id])
      modifies this`sessions, this`events
      ensures err == if failAt.Some? && failAt.value < |ids| then StoreError else NoError
      ensures err == NoError ==> View() == RevokeEach(old(View()), ids, kind, reason, now)
    {
      for i := 0 to |ids|
        invariant Known(old(View()), ids[..i])
        invariant View() == RevokeEach(old(View()), ids[..i], kind, reason, now)
        invariant forall j :: i <= j < |ids| ==> ids[j] in sessions && sessions[ids[j]] == old(sessions)[ids[j]]
        invariant failAt.Some? ==> failAt.value >= i
      {
        assert ids[..i + 1][..i] == ids[..i];
        var user := sessions[ids[i]].user;
        err := RevokeRow(ids[i], reason, now);
        if failAt == Some(i) {
          return StoreError;
        }
        events := events + [BuildEvent(events, kind, user, Some(ids[i]), None, reason, now)];
      }
      assert ids[..|ids|] == ids;
      return NoError;
    }

    method RevokeAndCreateEvent(id: Uuid, now: Time, storeFails: bool) returns (err: Error)
      modifies this
      ensures View() == Apply(old(View()), SsoLogout(id, !storeFails), now)
      ensures err == if id !in old(sessions) || !Usable(old(sessions)[id], now) then SessionNotFound
                     else if storeFails then StoreError else NoError
      ensures err == NoError ==>
        && id in old(sessions) && old(sessions)[id].status == Active && old(sessions)[id].revokedAt.None?
        && now < old(sessions)[id].expiresAt
        && sessions == old(sessions)[id := Session(old(sessions)[id].user, Revoked, old(sessions)[id].expiresAt,
                                                   Some(now), SSO_LOGOUT)]
        && events == old(events) + [Payload(|old(events)| + 1, SessionRevoked, old(sessions)[id].user, Some(id), None,
                                            SSO_LOGOUT, now)]
      ensures err != NoError ==> sessions == old(sessions) && events == old(events)
      ensures err == SessionNotFound ==>
        || id !in old(sessions) || old(sessions)[id].status != Active
        || old(sessions)[id].revokedAt.Some? || old(sessions)[id].expiresAt <= now
      ensures users == old(users)
    {
      if id !in sessions {
        return SessionNotFound;
      }
      var session := sessions[id];
      if session.status != Active || session.revokedAt.Some? || !(now < session.expiresAt) {
        return SessionNotFound;
      }
      var sessions0 := sessions;
      err := RevokeRow(id, SSO_LOGOUT, now);
      if storeFails {
        sessions := sessions0;
        return StoreError;
      }
      events := events + [BuildEvent(events, SessionRevoked, session.user, Some(id), None, SSO_LOGOUT, now)];
      return NoError;
    }

    method RevokeAllForUser(user: Uuid, reason: string, now: Time, failAt: Option<nat>)
      returns (err: Error, order: seq<Uuid>)
      modifies this
      ensures Lists(order, LiveSessions(old(View()), user))
      ensures err == if failAt.Some? && failAt.value < |order| then StoreError else NoError
      ensures View() == Apply(old(View()), RevokeAll(user, reason, order, err == NoError), now)
      ensures err == NoError ==> OnlyTheirs(old(View()), View(), user, order, SessionRevoked, reason, now)
      ensures users == old(users) && (err != NoError ==> sessions == old(sessions) && events == old(events))
    {
      var sessions0, events0 := sessions, events;
      order := ReadRows(set id | id in sessions && sessions[id].user == user && Live(sessions[id]));
      assert Lists(order, LiveSessions(View(), user));
      RevokeEachIsExact(View(), View(), user, order, SessionRevoked, reason, now);
      err := RevokeLoop(order, SessionRevoked, reason, now, failAt);
      if err != NoError {
        sessions, events := sessions0, events0;
      }
    }

    method SetUserStatusAndRevoke(user: Uuid, status: UserStatus, now: Time, failAt: Option<nat>)
      returns (err: Error, order: seq<Uuid>)
      modifies this
      ensures Lists(order, LiveSessions(old(View()), user))
      ensures err == if user !in old(users) then UserNotFound
                     else if status == InactiveUser && failAt.Some? && failAt.value < |order| then StoreError
                     else NoError
      ensures View() == Apply(old(View()), SetStatus(user, status, order, err == NoError), now)
      ensures err == NoError && status == InactiveUser ==>
        OnlyTheirs(old(View()), View(), user, order, SessionRevoked, USER_INACTIVE, now)
      ensures err != NoError || status != InactiveUser ==> sessions == old(sessions) && events == old(events)
      ensures users == if err == NoError then old(users)[user := status] else old(users)
    {
      order := ReadRows(set id | id in sessions && sessions[id].user == user && Live(sessions[id]));
      assert Lists(order, LiveSessions(View(), user));
      if user !in users {
        return UserNotFound, order;
      }
      var users0, sessions0, events0 := users, sessions, events;
      users := users[user := status];
      if status != InactiveUser {
        return NoError, order;
      }
      RevokeEachIsExact(Db(users0, sessions0, events0), View(), user, order, SessionRevoked, USER_INACTIVE, now);
      err := RevokeLoop(order, SessionRevoked, USER_INACTIVE, now, failAt);
      if err != NoError {
        users, sessions, events := users0, sessions0, events0;
      }
    }

    /** UpdateUserAndRevoke: sessions are revoked only when a password is given. */
    method UpdateUserAndRevoke(user: Uuid, passwordGiven: bool, now: Time, failAt: Option<nat>)
      returns (err: Error, order: seq<Uuid>)
      modifies this
      ensures Lists(order, LiveSessions(old(View()), user))
      ensures err == if user !in old(users) then UserNotFound
                     else if passwordGiven && failAt.Some? && failAt.value < |order| then StoreError
                     else NoError
      ensures View() == Apply(old(View()), UpdateUser(user, passwordGiven, order, err == NoError), now)
      ensures err == NoError && passwordGiven ==>
        OnlyTheirs(old(View()), View(), user, order, PasswordChanged, PASSWORD_CHANGED, now)
      ensures users == old(users)
      ensures err != NoError || !passwordGiven ==> sessions == old(sessions) && events == old(events)
    {
      order := ReadRows(set id | id in sessions && sessions[id].user == user && Live(sessions[id]));
      assert Lists(order, LiveSessions(View(), user));
      if user !in users {
        return UserNotFound, order;
      }
      err := NoError;
      if passwordGiven {
        var sessions0, events0 := sessions, events;
        RevokeEachIsExact(View(), View(), user, order, PasswordChanged, PASSWORD_CHANGED, now);
        err := RevokeLoop(order, PasswordChanged, PASSWORD_CHANGED, now, failAt);
        if err != NoError {
          sessions, events := sessions0, events0;
        }
      }
    }
  }
}
