/** Vocabulary shared by every component: identifiers, instants and the
    revocation event that travels from the Auth Provider to the applications. */
module Domain {

  /** An identifier. Fresh identifiers are numbers not used before; `NIL` is uuid.Nil. */
  type Uuid = nat

  const NIL: Uuid := 0

  /** An instant. The zero instant is Go's zero time. */
  type Time = nat

  datatype Option<+T> = None | Some(value: T)

  /** What the database does to a statement or transaction: commits it, fails and
      rolls it back, or commits it but reports an error. */
  datatype Fault = Sound | RolledBack | CommitUnknown

  const KNOWN_TYPES := ["SessionRevoked", "PasswordChanged", "AccessPolicyChanged"]

  type OtherName = name: string | name !in KNOWN_TYPES

  /** The three event types the system knows, and every other string. */
  datatype EventType =
    | SessionRevoked
    | PasswordChanged
    | AccessPolicyChanged
    | OtherType(name: OtherName)

  datatype Payload = Payload(
    eventId: Uuid,
    eventType: EventType,
    userId: Uuid,
    centralSessionId: Option<Uuid>,
    applicationId: Option<Uuid>,
    reason: string,
    occurredAt: Time)

  /** The row `buildRevocationEvent` makes, as the next entry of the outbox:
      its id is the next unused number. */
  function BuildEvent(events: seq<Payload>, eventType: EventType, userId: Uuid,
                      sessionId: Option<Uuid>, applicationId: Option<Uuid>,
                      reason: string, now: Time): Payload
  {
    Payload(|events| + 1, eventType, userId, sessionId, applicationId, reason, now)
  }

  /** Every outbox row sits at the position its id says. */
  ghost predicate Numbered(events: seq<Payload>) {
    forall i :: 0 <= i < |events| ==> events[i].eventId == i + 1
  }

  /** A listing of a finite set: each element exactly once, in some order.
      The order in which SQL returns rows is arbitrary. */
  ghost predicate Lists<T(!new)>(order: seq<T>, s: set<T>) {
    && (forall i, j :: 0 <= i < j < |order| ==> order[i] != order[j])
    && (forall x :: x in order <==> x in s)
  }

  /** Reads the rows selected by a query, in an arbitrary order. */
  method ReadRows<T(==, !new)>(s: set<T>) returns (order: seq<T>)
    ensures Lists(order, s)
  {
    order := [];
    var rest := s;
    while rest != {}
      invariant rest <= s
      invariant Lists(order, s - rest)
      decreases rest
    {
      var x :| x in rest;
      rest := rest - {x};
      order := order + [x];
    }
    assert s - rest == s;
  }

  /** There is always an identifier not yet in use. */
  lemma {:induction false} FreshId(ids: set<Uuid>) returns (id: Uuid)
    ensures id !in ids && forall x <- ids :: x < id
  {
    id := 0;
    if ids != {} {
      var y :| y in ids;
      var z := FreshId(ids - {y});
      id := if y < z then z else y + 1;
      forall x | x in ids ensures x < id {
        assert x == y || x in ids - {y};
      }
    }
  }
}
