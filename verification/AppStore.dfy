/** A relying application's own database (App A and App B run the same code):
    local sessions, processed events, and the back-channel logout endpoint. */
module AppStore {
  import opened Domain

  datatype Status = Active | Revoked

  datatype LocalSession = LocalSession(
    user: Uuid, central: Uuid, status: Status, createdAt: Time, expiresAt: Time,
    revokedAt: Option<Time>, reason: string)

  datatype Processed = Processed(eventType: EventType, at: Time)

  datatype AppDb = AppDb(sessions: map<Uuid, LocalSession>, processed: map<Uuid, Processed>)

  const EMPTY_DB := AppDb(map[], map[])

  /** The guard of every revoking update. */
  predicate Live(s: LocalSession) {
    s.status == Active && s.revokedAt.None?
  }

  predicate IsSessionActive(s: Option<LocalSession>, now: Time) {
    s.Some? && Live(s.value) && now < s.value.expiresAt
  }

  function RevokedAs(s: LocalSession, reason: string, now: Time): LocalSession {
    s.(status := Revoked, revokedAt := Some(now), reason := reason)
  }

  /** The rows a revocation event is about. */
  predicate Concerns(p: Payload, s: LocalSession) {
    match p.eventType
    case SessionRevoked => s.central == (if p.centralSessionId.Some? then p.centralSessionId.value else NIL)
    case PasswordChanged => s.user == p.userId
    case AccessPolicyChanged => s.user == p.userId
    case OtherType(_) => false
  }

  function TypeName(t: EventType): string {
    match t
    case SessionRevoked => "SessionRevoked"
    case PasswordChanged => "PasswordChanged"
    case AccessPolicyChanged => "AccessPolicyChanged"
    case OtherType(name) => name
  }

  function Reason(p: Payload): string {
    if p.reason == "" then TypeName(p.eventType) else p.reason
  }

  /** The effect of one delivery: none for an event already recorded. */
  function Process(db: AppDb, p: Payload, now: Time): AppDb {
    if p.eventId in db.processed then db
    else AppDb(
      map id | id in db.sessions ::
        if Live(db.sessions[id]) && Concerns(p, db.sessions[id])
        then RevokedAs(db.sessions[id], Reason(p), now) else db.sessions[id],
      db.processed[p.eventId := Processed(p.eventType, now)])
  }

  /** An event not yet on record is recorded, and revokes the live sessions of its
      central session or, for the other two types, of its user; no other changes. */
  lemma ProcessExactly(db: AppDb, p: Payload, now: Time, id: Uuid)
    requires p.eventId !in db.processed
    ensures var after := Process(db, p, now);
      && after.processed == db.processed[p.eventId := Processed(p.eventType, now)]
      && after.sessions.Keys == db.sessions.Keys
      && (id in db.sessions ==>
            var x := db.sessions[id];
            var hit := x.status == Active && x.revokedAt.None?
              && match p.eventType
                 case SessionRevoked => x.central == (if p.centralSessionId.Some? then p.centralSessionId.value else 0)
                 case PasswordChanged => x.user == p.userId
                 case AccessPolicyChanged => x.user == p.userId
                 case OtherType(_) => false;
            && (!hit ==> after.sessions[id] == x)
            && (hit ==> after.sessions[id].status == Revoked && after.sessions[id].revokedAt == Some(now)
                        && (p.reason != "" ==> after.sessions[id].reason == p.reason)
                        && after.sessions[id] == x.(status := Revoked, revokedAt := Some(now),
                                                    reason := after.sessions[id].reason)))
  {
  }

  /** The primary key rejects an id already present. */
  function CreateSession(db: AppDb, id: Uuid, user: Uuid, central: Uuid, now: Time, ttl: Time): AppDb {
    if id in db.sessions then db
    else db.(sessions := db.sessions[id := LocalSession(user, central, Active, now, now + ttl, None, "")])
  }

  function RevokeSession(db: AppDb, id: Uuid, reason: string, now: Time): AppDb {
    if id in db.sessions && Live(db.sessions[id])
    then db.(sessions := db.sessions[id := RevokedAs(db.sessions[id], reason, now)]) else db
  }

  // ----- the endpoint -----

  datatype AppConfig = AppConfig(appId: Option<Uuid>, internalToken: string)

  datatype Response = Accepted | BadRequest | Unauthorized | ServerError

  predicate WellFormed(p: Payload, cfg: AppConfig) {
    && p.eventId != NIL && p.userId != NIL
    && match p.eventType
       case SessionRevoked => p.centralSessionId.Some?
       case AccessPolicyChanged => p.applicationId.Some? && (cfg.appId.Some? ==> cfg.appId == p.applicationId)
       case PasswordChanged => true
       case OtherType(_) => false
  }

  /** POST /internal/logout. Validation comes before any side effect. */
  function InternalLogout(db: AppDb, cfg: AppConfig, auth: string, body: Option<Payload>, now: Time, fault: Fault)
    : (AppDb, Response)
  {
    if cfg.internalToken == "" then (db, ServerError)
    else if auth != cfg.internalToken then (db, Unauthorized)
    else if body.None? || !WellFormed(body.value, cfg) then (db, BadRequest)
    else match fault
      case Sound => (Process(db, body.value, now), Accepted)
      case RolledBack => (db, ServerError)
      case CommitUnknown => (Process(db, body.value, now), ServerError)
  }

  /** A 2xx is only ever given for an event that is on record, a rejected
      request leaves no trace, and nothing but the event's own sessions changes. */
  lemma InternalLogoutFacts(db: AppDb, cfg: AppConfig, auth: string, body: Option<Payload>, now: Time, fault: Fault)
    ensures var (db', r) := InternalLogout(db, cfg, auth, body, now, fault);
      && (r == Accepted ==> body.Some? && WellFormed(body.value, cfg) && body.value.eventId in db'.processed
                            && (body.value.eventId !in db.processed ==>
                                  forall id <- db'.sessions :: Live(db'.sessions[id])
                                    ==> !Concerns(body.value, db'.sessions[id])))
      && (r == BadRequest || r == Unauthorized ==> db' == db)
      && (cfg.internalToken == "" ==> r == ServerError)
      && (cfg.internalToken != "" && auth != cfg.internalToken ==> r == Unauthorized)
      && (r == Accepted || db' != db ==> cfg.internalToken != "" && auth == cfg.internalToken)
      && db'.sessions.Keys == db.sessions.Keys
      && (forall id <- db.sessions :: db'.sessions[id] != db.sessions[id] ==>
            body.Some? && Live(db.sessions[id]) && Concerns(body.value, db.sessions[id])
            && db'.sessions[id] == RevokedAs(db.sessions[id], Reason(body.value), now))
  {
  }

  // ----- histories -----

  datatype Op =
    | Delivery(event: Payload, at: Time)
    | Login(id: Uuid, user: Uuid, central: Uuid, at: Time, ttl: Time)
    | Logout(id: Uuid, at: Time)

  function Apply(db: AppDb, op: Op): AppDb {
    match op
    case Delivery(p, now) => Process(db, p, now)
    case Login(id, user, central, now, ttl) => CreateSession(db, id, user, central, now, ttl)
    case Logout(id, now) => RevokeSession(db, id, "local_logout", now)
  }

  function Run(db: AppDb, ops: seq<Op>): AppDb {
    if |ops| == 0 then db else Apply(Run(db, ops[..|ops| - 1]), ops[|ops| - 1])
  }

  predicate DeliveredIn(ops: seq<Op>, event: Uuid) {
    exists op <- ops :: op.Delivery? && op.event.eventId == event
  }

  /** The history with every repeated delivery of an event id left out. */
  function FirstDeliveries(ops: seq<Op>): seq<Op> {
    if |ops| == 0 then []
    else
      var n := |ops| - 1;
      FirstDeliveries(ops[..n])
      + if ops[n].Delivery? && DeliveredIn(ops[..n], ops[n].event.eventId) then [] else [ops[n]]
  }

  lemma {:induction false} RecordedIff(db: AppDb, ops: seq<Op>, event: Uuid)
    ensures event in Run(db, ops).processed <==> event in db.processed || DeliveredIn(ops, event)
  {
    if |ops| > 0 {
      var n := |ops| - 1;
      RecordedIff(db, ops[..n], event);
      assert ops == ops[..n] + [ops[n]];
    }
  }

  lemma RunAppend(db: AppDb, ops: seq<Op>, op: Op)
    ensures Run(db, ops + [op]) == Apply(Run(db, ops), op)
  {
    assert (ops + [op])[..|ops|] == ops;
  }

  /** Exactly once from at least once: whatever logins and logouts lie between,
      repeated deliveries leave no trace in either table. */
  lemma {:induction false} ExactlyOnce(db: AppDb, ops: seq<Op>)
    ensures Run(db, ops) == Run(db, FirstDeliveries(ops))
  {
    if |ops| > 0 {
      var n := |ops| - 1;
      ExactlyOnce(db, ops[..n]);
      var kept := FirstDeliveries(ops[..n]);
      if ops[n].Delivery? && DeliveredIn(ops[..n], ops[n].event.eventId) {
        RecordedIff(db, ops[..n], ops[n].event.eventId);
        assert FirstDeliveries(ops) == kept;
      } else {
        RunAppend(db, kept, ops[n]);
      }
    }
  }

  /** A revoked session's row never changes again, so it is never active again. */
  lemma {:induction false} RevokedForGood(db: AppDb, ops: seq<Op>, id: Uuid)
    requires id in db.sessions && !Live(db.sessions[id])
    ensures id in Run(db, ops).sessions && Run(db, ops).sessions[id] == db.sessions[id]
    ensures forall now :: !IsSessionActive(Some(Run(db, ops).sessions[id]), now)
  {
    if |ops| > 0 {
      RevokedForGood(db, ops[..|ops| - 1], id);
    }
  }

  /** No logins. */
  ghost predicate NoLogins(ops: seq<Op>) {
    forall op <- ops :: !op.Login?
  }

  /** An event id stands for one payload. */
  ghost predicate OnePayloadPerId(ops: seq<Op>) {
    forall a <- ops, b <- ops :: a.Delivery? && b.Delivery? && a.event.eventId == b.event.eventId ==> a.event == b.event
  }

  ghost predicate HitBy(db: AppDb, op: Op, id: Uuid)
    requires id in db.sessions
  {
    match op
    case Delivery(p, _) => p.eventId !in db.processed && Concerns(p, db.sessions[id])
    case Logout(out, _) => out == id
    case Login(_, _, _, _, _) => false
  }

  lemma ApplySurvives(db: AppDb, op: Op, id: Uuid)
    requires !op.Login? && id in db.sessions
    ensures var after := Apply(db, op);
      && id in after.sessions
      && after.sessions[id].user == db.sessions[id].user && after.sessions[id].central == db.sessions[id].central
      && (Live(after.sessions[id]) <==> Live(db.sessions[id]) && !HitBy(db, op, id))
  {
  }

  /** Which sessions survive a history without logins. */
  lemma {:induction false} Survivors(db: AppDb, ops: seq<Op>, id: Uuid)
    requires NoLogins(ops) && OnePayloadPerId(ops) && id in db.sessions
    ensures var after := Run(db, ops);
      && id in after.sessions
      && after.sessions[id].user == db.sessions[id].user && after.sessions[id].central == db.sessions[id].central
      && (Live(after.sessions[id]) <==> Live(db.sessions[id]) && forall op <- ops :: !HitBy(db, op, id))
  {
    if |ops| > 0 {
      var n := |ops| - 1;
      var before := ops[..n];
      var op := ops[n];
      assert ops == before + [op];
      Survivors(db, before, id);
      ApplySurvives(Run(db, before), op, id);
      HitLater(db, before, op, id);
    }
  }

  /** A later delivery hits what it would have hit at the start, unless the same
      event was delivered in between. */
  lemma HitLater(db: AppDb, before: seq<Op>, op: Op, id: Uuid)
    requires !op.Login? && OnePayloadPerId(before + [op]) && id in db.sessions && id in Run(db, before).sessions
    requires Run(db, before).sessions[id].user == db.sessions[id].user
    requires Run(db, before).sessions[id].central == db.sessions[id].central
    ensures (exists b <- before :: HitBy(db, b, id)) || (HitBy(Run(db, before), op, id) <==> HitBy(db, op, id))
  {
    if op.Delivery? {
      RecordedIff(db, before, op.event.eventId);
      if DeliveredIn(before, op.event.eventId) {
        var earlier :| earlier in before && earlier.Delivery? && earlier.event.eventId == op.event.eventId;
        assert earlier in before + [op] && op in before + [op];
        assert HitBy(db, earlier, id) <==> HitBy(db, op, id);
      }
    }
  }

  ghost function LiveIds(db: AppDb): set<Uuid> {
    set id | id in db.sessions && Live(db.sessions[id])
  }

  predicate SameEffect(x: Op, y: Op) {
    (x.Delivery? && y.Delivery? && x.event == y.event) || (x.Logout? && y.Logout? && x.id == y.id)
  }

  /** Every event delivered and every session logged out in `a` is so in `b`. */
  ghost predicate Covered(a: seq<Op>, b: seq<Op>) {
    forall x <- a :: exists y <- b :: SameEffect(x, y)
  }

  lemma SurvivesFewer(db: AppDb, a: seq<Op>, b: seq<Op>, id: Uuid)
    requires NoLogins(a) && NoLogins(b) && OnePayloadPerId(a) && OnePayloadPerId(b) && Covered(a, b)
    requires id in db.sessions
    ensures id in LiveIds(Run(db, b)) ==> id in LiveIds(Run(db, a))
  {
    Survivors(db, a, id);
    Survivors(db, b, id);
    if forall y <- b :: !HitBy(db, y, id) {
      forall x | x in a ensures !HitBy(db, x, id) {
        var y :| y in b && SameEffect(x, y);
        assert !HitBy(db, y, id);
      }
    }
  }

  lemma DeliveredTransfers(a: seq<Op>, b: seq<Op>, event: Uuid)
    requires Covered(a, b) && DeliveredIn(a, event)
    ensures DeliveredIn(b, event)
  {
    var x :| x in a && x.Delivery? && x.event.eventId == event;
    var y :| y in b && SameEffect(x, y);
  }

  /** Without new logins the active sessions depend only on which events were
      delivered and which sessions were logged out: order, repetition and
      timing make no difference. */
  lemma OrderIrrelevant(db: AppDb, a: seq<Op>, b: seq<Op>)
    requires NoLogins(a) && NoLogins(b) && OnePayloadPerId(a) && OnePayloadPerId(b)
    requires Covered(a, b) && Covered(b, a)
    ensures LiveIds(Run(db, a)) == LiveIds(Run(db, b))
    ensures Run(db, a).processed.Keys == Run(db, b).processed.Keys
  {
    forall id ensures id in LiveIds(Run(db, a)) <==> id in LiveIds(Run(db, b)) {
      OrderIrrelevantAt(db, a, b, id);
    }
    forall e ensures e in Run(db, a).processed <==> e in Run(db, b).processed {
      RecordedIff(db, a, e);
      RecordedIff(db, b, e);
      if DeliveredIn(a, e) { DeliveredTransfers(a, b, e); }
      if DeliveredIn(b, e) { DeliveredTransfers(b, a, e); }
    }
  }

  lemma OrderIrrelevantAt(db: AppDb, a: seq<Op>, b: seq<Op>, id: Uuid)
    requires NoLogins(a) && NoLogins(b) && OnePayloadPerId(a) && OnePayloadPerId(b)
    requires Covered(a, b) && Covered(b, a)
    ensures id in LiveIds(Run(db, a)) <==> id in LiveIds(Run(db, b))
  {
    if id in db.sessions {
      SurvivesFewer(db, a, b, id);
      SurvivesFewer(db, b, a, id);
    } else {
      NoNewSessions(db, a);
      NoNewSessions(db, b);
    }
  }

  lemma {:induction false} NoNewSessions(db: AppDb, ops: seq<Op>)
    requires NoLogins(ops)
    ensures Run(db, ops).sessions.Keys == db.sessions.Keys
  {
    if |ops| > 0 {
      NoNewSessions(db, ops[..|ops| - 1]);
    }
  }

  // ----- the tables -----

  function LiveAmong(sessions: map<Uuid, LocalSession>, selected: set<Uuid>): set<Uuid> {
    set id | id in sessions && id in selected && Live(sessions[id])
  }

  /** The sessions an event's first delivery revokes. */
  function Hits(sessions: map<Uuid, LocalSession>, p: Payload): set<Uuid> {
    set id | id in sessions && Live(sessions[id]) && Concerns(p, sessions[id])
  }

  class Store {
    var sessions: map<Uuid, LocalSession>
    var processed: map<Uuid, Processed>

    ghost function Db(): AppDb
      reads this
    {
      AppDb(sessions, processed)
    }

    constructor ()
      ensures Db() == EMPTY_DB
    {
      sessions, processed := map[], map[];
    }

    /** One INSERT; the primary key rejects an id already present. */
    method Create(id: Uuid, user: Uuid, central: Uuid, now: Time, ttl: Time, fault: Fault) returns (ok: bool)
      modifies this
      ensures Db() == if fault == RolledBack then old(Db()) else CreateSession(old(Db()), id, user, central, now, ttl)
      ensures ok <==> id !in old(sessions) && fault == Sound
      ensures sessions == if id in old(sessions) || fault == RolledBack then old(sessions)
                          else old(sessions)[id := LocalSession(user, central, Active, now, now + ttl, None, "")]
    {
      if id in sessions || fault == RolledBack {
        return false;
      }
      sessions := sessions[id := LocalSession(user, central, Active, now, now + ttl, None, "")];
      return fault == Sound;
    }

    /** FindSessionByTokenHash, then IsSessionActive. */
    method FindActiveSession(id: Uuid, now: Time) returns (found: Option<LocalSession>)
      ensures found.Some? <==> id in sessions && IsSessionActive(Some(sessions[id]), now)
      ensures found.Some? <==> id in sessions && sessions[id].status == Active && sessions[id].revokedAt.None?
                               && now < sessions[id].expiresAt
      ensures found.Some? ==> found.value == sessions[id]
    {
      if id !in sessions {
        return None;
      }
      var x := sessions[id];
      return if x.status == Active && x.revokedAt == None && now < x.expiresAt then Some(x) else None;
    }

    method Revoke(id: Uuid, reason: string, now: Time)
      modifies this
      ensures Db() == RevokeSession(old(Db()), id, reason, now)
      ensures id in old(sessions) && old(sessions)[id].status == Active && old(sessions)[id].revokedAt == None ==>
        sessions == old(sessions)[id := old(sessions)[id].(status := Revoked, revokedAt := Some(now), reason := reason)]
      ensures !(id in old(sessions) && old(sessions)[id].status == Active && old(sessions)[id].revokedAt == None) ==>
        sessions == old(sessions)
    {
      if id in sessions && sessions[id].status == Active && sessions[id].revokedAt == None {
        sessions := sessions[id := RevokedAs(sessions[id], reason, now)];
      }
    }

    /** The UPDATE of RevokeSessionsByCentralSession and RevokeSessionsByUser:
        exactly the live sessions selected change, and they are counted. */
    method RevokeWhere(selected: set<Uuid>, reason: string, now: Time) returns (affected: nat)
      modifies this`sessions
      ensures sessions == map id | id in old(sessions) ::
        if id in selected && Live(old(sessions)[id]) then RevokedAs(old(sessions)[id], reason, now)
        else old(sessions)[id]
      ensures affected == |LiveAmong(old(sessions), selected)|
    {
      var hit := LiveAmong(sessions, selected);
      sessions := map id | id in sessions ::
        if id in hit then RevokedAs(sessions[id], reason, now) else sessions[id];
      return |hit|;
    }

    /** Insert the event, then revoke, in one transaction: on any fault before
        the commit both are undone. */
    method ProcessRevocation(p: Payload, now: Time, fault: Fault)
      returns (inserted: bool, revoked: nat, err: bool)
      modifies this
      ensures Db() == if fault == RolledBack then old(Db()) else Process(old(Db()), p, now)
      ensures err == (fault != Sound)
      ensures inserted <==> p.eventId !in old(processed)
      ensures !inserted ==> revoked == 0
      ensures inserted ==> revoked == |Hits(old(sessions), p)|
    {
      var sessions0, processed0 := sessions, processed;
      revoked := 0;
      inserted := p.eventId !in processed;
      if inserted {
        processed := processed[p.eventId := Processed(p.eventType, now)];
        var selected: set<Uuid> := {};
        match p.eventType {
          case SessionRevoked =>
            var central := if p.centralSessionId.Some? then p.centralSessionId.value else NIL;
            selected := set id | id in sessions && sessions[id].central == central;
          case PasswordChanged =>
            selected := set id | id in sessions && sessions[id].user == p.userId;
          case AccessPolicyChanged =>
            selected := set id | id in sessions && sessions[id].user == p.userId;
          case OtherType(_) =>
        }
        revoked := RevokeWhere(selected, Reason(p), now);
        assert forall id <- sessions0 :: id in selected <==> Concerns(p, sessions0[id]);
        assert LiveAmong(sessions0, selected) == Hits(sessions0, p);
        assert sessions == Process(AppDb(sessions0, processed0), p, now).sessions;
      }
      err := fault != Sound;
      if fault == RolledBack {
        sessions, processed := sessions0, processed0;
      }
    }
  }

  /** The endpoint as a program: nothing is written before the request and its
      event are known to be good. */
  method HandleInternalLogout(store: Store, cfg: AppConfig, auth: string, body: Option<Payload>,
                              now: Time, fault: Fault)
    returns (response: Response)
    modifies store
    ensures (store.Db(), response) == InternalLogout(old(store.Db()), cfg, auth, body, now, fault)
    ensures cfg.internalToken == "" ==> response == ServerError
    ensures cfg.internalToken != "" && auth != cfg.internalToken ==> response == Unauthorized
    ensures response == Accepted || store.Db() != old(store.Db()) ==>
      && cfg.internalToken != "" && auth == cfg.internalToken && fault != RolledBack
      && body.Some? && body.value.eventId != NIL && body.value.userId != NIL
      && (body.value.eventType == SessionRevoked ==> body.value.centralSessionId.Some?)
      && (body.value.eventType == AccessPolicyChanged ==>
            body.value.applicationId.Some? && (cfg.appId.Some? ==> cfg.appId == body.value.applicationId))
      && !body.value.eventType.OtherType?
    ensures response == BadRequest ==>
      || body.None? || body.value.eventId == NIL || body.value.userId == NIL || body.value.eventType.OtherType?
      || (body.value.eventType == SessionRevoked && body.value.centralSessionId.None?)
      || (body.value.eventType == AccessPolicyChanged
          && (body.value.applicationId.None? || (cfg.appId.Some? && cfg.appId != body.value.applicationId)))
    ensures response == Accepted ==> fault == Sound && body.value.eventId in store.processed
  {
    if cfg.internalToken == "" {
      return ServerError;
    }
    if auth != cfg.internalToken {
      return Unauthorized;
    }
    if body.None? || body.value.eventId == NIL || body.value.userId == NIL {
      return BadRequest;
    }
    var event := body.value;
    match event.eventType {
      case SessionRevoked =>
        if event.centralSessionId.None? {
          return BadRequest;
        }
      case AccessPolicyChanged =>
        if event.applicationId.None? || (cfg.appId.Some? && cfg.appId != event.applicationId) {
          return BadRequest;
        }
      case PasswordChanged =>
      case OtherType(_) =>
        return BadRequest;
    }
    var _, _, failed := store.ProcessRevocation(event, now, fault);
    return if failed then ServerError else Accepted;
  }
}
