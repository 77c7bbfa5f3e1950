/** The outbox publisher: one polling round, what it may mark as published, and
    how many rounds it takes to empty the outbox. */
module Outbox {
  import opened Domain

  /** An `events` row, in the order ListUnpublished sorts by. */
  datatype Entry = Entry(id: Uuid, eventType: EventType)

  const EVENT_ROUTING_KEYS := [SessionRevoked, PasswordChanged, AccessPolicyChanged]

  predicate Supported(t: EventType) {
    !t.OtherType?
  }

  /** The loop over the routing keys the queue is bound to; None is the empty key. */
  method RoutingKeyForEvent(eventType: EventType) returns (key: Option<EventType>)
    ensures key == if Supported(eventType) then Some(eventType) else None
    ensures key.Some? <==>
      eventType == SessionRevoked || eventType == PasswordChanged || eventType == AccessPolicyChanged
  {
    for i := 0 to |EVENT_ROUTING_KEYS|
      invariant eventType !in EVENT_ROUTING_KEYS[..i]
    {
      if EVENT_ROUTING_KEYS[i] == eventType {
        return Some(EVENT_ROUTING_KEYS[i]);
      }
    }
    assert EVENT_ROUTING_KEYS[..3] == [SessionRevoked, PasswordChanged, AccessPolicyChanged];
    assert EVENT_ROUTING_KEYS[0] == SessionRevoked && EVENT_ROUTING_KEYS[1] == PasswordChanged
        && EVENT_ROUTING_KEYS[2] == AccessPolicyChanged;
    return None;
  }

  /** What broker and store would do with one row, each independently: whether
      the broker takes the message, whether its confirmation arrives, and what
      the marking statement would do if it ran. */
  datatype Outcome = Outcome(accepts: bool, answers: bool, marking: Fault)

  /** The publisher holds a confirmation of the payload. */
  predicate Confirmed(o: Outcome) {
    o.accepts && o.answers
  }

  /** The row ends up marked. */
  predicate MarkedBy(o: Outcome) {
    Confirmed(o) && o.marking != RolledBack
  }

  /** Everything went well. */
  predicate Done(o: Outcome) {
    Confirmed(o) && o.marking == Sound
  }

  /** The unpublished rows, in order. */
  function Pending(events: seq<Entry>, published: set<Uuid>): seq<Entry> {
    if |events| == 0 then []
    else (if events[0].id in published then [] else [events[0]]) + Pending(events[1..], published)
  }

  function Batch(events: seq<Entry>, published: set<Uuid>, size: nat): seq<Entry> {
    var rows := Pending(events, published);
    if |rows| <= size then rows else rows[..size]
  }

  function BatchSize(size: int): nat {
    if size <= 0 then 100 else size
  }

  /** The first `n` rows not yet marked, or all of them, in the order given. */
  ghost function FirstRows(events: seq<Entry>, published: set<Uuid>, n: nat): seq<Entry> {
    if |events| == 0 then []
    else
      var k := |events| - 1;
      var before := FirstRows(events[..k], published, n);
      if events[k].id in published || |before| == n then before else before + [events[k]]
  }

  /** A batch is the oldest unpublished rows: scanning the table in order, each row
      not yet marked is taken until the batch is full. */
  lemma {:induction false} BatchIsOldest(events: seq<Entry>, published: set<Uuid>, size: nat)
    ensures Batch(events, published, size) == FirstRows(events, published, size)
  {
    if |events| > 0 {
      var k := |events| - 1;
      BatchIsOldest(events[..k], published, size);
      PendingAppend(events[..k], [events[k]], published);
      assert events == events[..k] + [events[k]] && [events[k]][1..] == [];
    }
  }

  /** The ids a batch hands to the broker, in order. */
  function Sent(batch: seq<Entry>, outcome: Uuid -> Outcome): seq<Uuid> {
    if |batch| == 0 then []
    else
      var last := batch[|batch| - 1];
      Sent(batch[..|batch| - 1], outcome)
      + if Supported(last.eventType) && outcome(last.id).accepts then [last.id] else []
  }

  function Marked(batch: seq<Entry>, outcome: Uuid -> Outcome): set<Uuid> {
    set e | e in batch && Supported(e.eventType) && MarkedBy(outcome(e.id)) :: e.id
  }

  predicate Trouble(e: Entry, outcome: Uuid -> Outcome) {
    !Supported(e.eventType) || !Done(outcome(e.id))
  }

  class OutboxPublisher {
    var events: seq<Entry>
    var published: set<Uuid>
    var sent: seq<Uuid>
    const batchSize: int

    constructor (events: seq<Entry>, batchSize: int)
      ensures this.events == events && published == {} && sent == [] && this.batchSize == batchSize
    {
      this.events, this.published, this.sent, this.batchSize := events, {}, [], batchSize;
    }

    /** Connection.Publish: hand over, then wait for the confirmation. */
    method Publish(e: Entry, o: Outcome) returns (ok: bool)
      modifies this`sent
      ensures ok == (o.accepts && o.answers)
      ensures sent == old(sent) + if o.accepts then [e.id] else []
    {
      if !o.accepts {
        return false;
      }
      sent := sent + [e.id];
      return o.answers;
    }

    method MarkPublished(e: Entry, m: Fault) returns (ok: bool)
      modifies this`published
      ensures ok == (m == Sound)
      ensures published == old(published) + if m != RolledBack then {e.id} else {}
    {
      if m == RolledBack {
        return false;
      }
      published := published + {e.id};
      return m == Sound;
    }

    /** Publishes one row and marks it only once that has succeeded: whatever
        marking would do, a row without a confirmation stays unmarked. */
    method PublishRow(e: Entry, o: Outcome) returns (ok: bool)
      modifies this
      ensures events == old(events)
      ensures ok <==> Supported(e.eventType) && Done(o)
      ensures sent == old(sent) + if Supported(e.eventType) && o.accepts then [e.id] else []
      ensures published == old(published) + if Supported(e.eventType) && MarkedBy(o) then {e.id} else {}
      ensures e.id in published && e.id !in old(published) ==>
        !e.eventType.OtherType? && o.accepts && o.answers && o.marking != RolledBack
      ensures ok <==> !e.eventType.OtherType? && o.accepts && o.answers && o.marking == Sound
    {
      var key := RoutingKeyForEvent(e.eventType);
      if key.None? {
        return false;
      }
      var published := Publish(e, o);
      if !published {
        return false;
      }
      ok := MarkPublished(e, o.marking);
    }

    /** One round. A bad row does not stop the rest, and the first trouble in
        batch order is reported. */
    method PublishBatch(listFails: bool, outcome: Uuid -> Outcome) returns (failed: bool, firstErr: Option<Uuid>)
      modifies this
      ensures events == old(events)
      ensures listFails ==> failed && firstErr.None? && published == old(published) && sent == old(sent)
      ensures !listFails ==>
        var batch := Batch(events, old(published), BatchSize(batchSize));
        && State(published, sent) == Round(events, State(old(published), old(sent)), BatchSize(batchSize), outcome)
        && firstErr == FirstTrouble(batch, outcome)
        && failed == firstErr.Some?
      ensures !failed ==>
        AllDone(FirstRows(events, old(published), if batchSize <= 0 then 100 else batchSize), published, outcome)
      ensures NewAreConfirmed(old(published), published, outcome)
    {
      firstErr := None;
      if listFails {
        return true, None;
      }
      var size := if batchSize <= 0 then 100 else batchSize;
      var batch := Batch(events, published, size);
      for i := 0 to |batch|
        invariant events == old(events)
        invariant published == old(published) + Marked(batch[..i], outcome)
        invariant sent == old(sent) + Sent(batch[..i], outcome)
        invariant firstErr == FirstTrouble(batch[..i], outcome)
      {
        RoundNext(batch, i, outcome);
        var ok := PublishRow(batch[i], outcome(batch[i].id));
        if !ok && firstErr.None? {
          firstErr := Some(batch[i].id);
        }
      }
      assert batch[..|batch|] == batch;
      failed := firstErr.Some?;
      RoundReports(events, old(published), size, outcome);
    }
  }

  lemma MarkedStep(batch: seq<Entry>, e: Entry, outcome: Uuid -> Outcome)
    ensures Marked(batch + [e], outcome)
         == Marked(batch, outcome) + if Supported(e.eventType) && MarkedBy(outcome(e.id)) then {e.id} else {}
  {
    forall id ensures id in Marked(batch + [e], outcome) <==>
      id in Marked(batch, outcome) + if Supported(e.eventType) && MarkedBy(outcome(e.id)) then {e.id} else {}
    {
      if id == e.id && Supported(e.eventType) && MarkedBy(outcome(e.id)) {
        assert e in batch + [e];
      }
      if id in Marked(batch, outcome) {
        var x :| x in batch && Supported(x.eventType) && MarkedBy(outcome(x.id)) && x.id == id;
        assert x in batch + [e];
      }
    }
  }

  /** What one more row of the batch adds. */
  lemma RoundNext(batch: seq<Entry>, i: nat, outcome: Uuid -> Outcome)
    requires i < |batch|
    ensures var e, done, next := batch[i], batch[..i], batch[..i + 1];
      var first := FirstTrouble(done, outcome);
      && Marked(next, outcome)
         == Marked(done, outcome) + (if Supported(e.eventType) && MarkedBy(outcome(e.id)) then {e.id} else {})
      && Sent(next, outcome)
         == Sent(done, outcome) + (if Supported(e.eventType) && outcome(e.id).accepts then [e.id] else [])
      && FirstTrouble(next, outcome)
         == (if first.None? && Trouble(e, outcome) then Some(e.id) else first)
  {
    assert batch[..i + 1][..i] == batch[..i];
    assert batch[..i + 1] == batch[..i] + [batch[i]];
    MarkedStep(batch[..i], batch[i], outcome);
  }

  function FirstTrouble(batch: seq<Entry>, outcome: Uuid -> Outcome): Option<Uuid> {
    if |batch| == 0 then None
    else
      var n := |batch| - 1;
      var earlier := FirstTrouble(batch[..n], outcome);
      if earlier.None? && Trouble(batch[n], outcome) then Some(batch[n].id) else earlier
  }

  /** A round reports success exactly when every row of its batch was published
      and marked; otherwise it names the first row that was not. */
  lemma {:induction false} FirstTroubleFacts(batch: seq<Entry>, outcome: Uuid -> Outcome)
    ensures var r := FirstTrouble(batch, outcome);
      && (r.None? <==> forall e <- batch :: !Trouble(e, outcome))
      && (r.Some? ==> exists i :: 0 <= i < |batch| && batch[i].id == r.value && Trouble(batch[i], outcome)
                                  && forall j :: 0 <= j < i ==> !Trouble(batch[j], outcome))
  {
    if |batch| > 0 {
      var n := |batch| - 1;
      FirstTroubleFacts(batch[..n], outcome);
      assert batch == batch[..n] + [batch[n]];
      var r := FirstTrouble(batch[..n], outcome);
      if r.Some? {
        var i :| 0 <= i < n && batch[..n][i].id == r.value && Trouble(batch[..n][i], outcome)
                 && forall j :: 0 <= j < i ==> !Trouble(batch[..n][j], outcome);
        assert batch[i] == batch[..n][i];
        assert forall j :: 0 <= j < i ==> batch[j] == batch[..n][j];
      } else {
        assert forall j :: 0 <= j < n ==> batch[j] == batch[..n][j];
        assert forall j :: 0 <= j < n ==> batch[..n][j] in batch[..n];
      }
    }
  }

  /** Every row of a known type, taken and confirmed by the broker, and marked. */
  ghost predicate AllDone(rows: seq<Entry>, published: set<Uuid>, outcome: Uuid -> Outcome) {
    forall e <- rows ::
      && !e.eventType.OtherType? && e.id in published
      && outcome(e.id).accepts && outcome(e.id).answers && outcome(e.id).marking == Sound
  }

  /** What has been marked since was taken and confirmed. */
  ghost predicate NewAreConfirmed(before: set<Uuid>, after: set<Uuid>, outcome: Uuid -> Outcome) {
    forall id <- after - before :: outcome(id).accepts && outcome(id).answers && outcome(id).marking != RolledBack
  }

  lemma RoundReports(events: seq<Entry>, before: set<Uuid>, size: nat, outcome: Uuid -> Outcome)
    ensures var batch := Batch(events, before, size); var after := before + Marked(batch, outcome);
      && NewAreConfirmed(before, after, outcome)
      && (FirstTrouble(batch, outcome).None? ==> AllDone(FirstRows(events, before, size), after, outcome))
  {
    BatchIsOldest(events, before, size);
    FirstTroubleFacts(Batch(events, before, size), outcome);
  }

  // ----- what may be marked, over every run -----

  datatype State = State(published: set<Uuid>, sent: seq<Uuid>)

  function Round(events: seq<Entry>, s: State, size: nat, outcome: Uuid -> Outcome): State {
    var batch := Batch(events, s.published, size);
    State(s.published + Marked(batch, outcome), s.sent + Sent(batch, outcome))
  }

  function Rounds(events: seq<Entry>, size: nat, outcomes: seq<Uuid -> Outcome>): State {
    if |outcomes| == 0 then State({}, [])
    else
      var n := |outcomes| - 1;
      Round(events, Rounds(events, size, outcomes[..n]), size, outcomes[n])
  }

  ghost predicate IsRow(events: seq<Entry>, id: Uuid) {
    exists e <- events :: e.id == id && Supported(e.eventType)
  }

  lemma {:induction false} PendingIsIn(events: seq<Entry>, published: set<Uuid>, e: Entry)
    ensures e in Pending(events, published) <==> e in events && e.id !in published
  {
    if |events| > 0 {
      PendingIsIn(events[1..], published, e);
      assert events == [events[0]] + events[1..];
    }
  }

  lemma {:induction false} SentIsSupported(batch: seq<Entry>, outcome: Uuid -> Outcome, id: Uuid)
    ensures id in Sent(batch, outcome) <==>
            exists e <- batch :: e.id == id && Supported(e.eventType) && outcome(id).accepts
  {
    if |batch| > 0 {
      SentIsSupported(batch[..|batch| - 1], outcome, id);
      assert batch == batch[..|batch| - 1] + [batch[|batch| - 1]];
    }
  }

  /** What one round adds. */
  lemma RoundAdds(events: seq<Entry>, s: State, size: nat, outcome: Uuid -> Outcome, id: Uuid)
    ensures var r := Round(events, s, size, outcome);
      && (id in s.sent ==> id in r.sent)
      && (id in r.sent && id !in s.sent ==> IsRow(events, id))
      && (id in r.published && id !in s.published ==>
            id in r.sent && outcome(id).accepts && outcome(id).answers && outcome(id).marking != RolledBack)
      && (id in r.sent && id !in s.sent ==> outcome(id).accepts)
  {
    var batch := Batch(events, s.published, size);
    SentIsSupported(batch, outcome, id);
    if e :| e in batch && e.id == id && Supported(e.eventType) {
      PendingIsIn(events, s.published, e);
    }
  }

  /** In every run, with any faults: whatever is marked published was confirmed
      by the broker in some round, hence handed over; only rows of a supported
      type are ever handed over. */
  lemma {:induction false} PublishedWasSent(events: seq<Entry>, size: nat, outcomes: seq<Uuid -> Outcome>, id: Uuid)
    ensures var s := Rounds(events, size, outcomes);
      && (id in s.sent ==> IsRow(events, id))
      && (id in s.published ==> id in s.sent)
      && (id in s.published ==> exists k ::
            0 <= k < |outcomes| && outcomes[k](id).accepts && outcomes[k](id).answers)
  {
    if |outcomes| > 0 {
      var n := |outcomes| - 1;
      var before := Rounds(events, size, outcomes[..n]);
      PublishedWasSent(events, size, outcomes[..n], id);
      RoundAdds(events, before, size, outcomes[n], id);
      if id in before.published {
        var k :| 0 <= k < n && outcomes[..n][k](id).accepts && outcomes[..n][k](id).answers;
        assert outcomes[k](id).accepts && outcomes[k](id).answers;
      }
    }
  }

  // ----- draining -----

  function CountSupported(rows: seq<Entry>): (n: nat)
    ensures n <= |rows|
  {
    if |rows| == 0 then 0
    else CountSupported(rows[..|rows| - 1]) + if Supported(rows[|rows| - 1].eventType) then 1 else 0
  }

  function CountUnsupported(rows: seq<Entry>): nat {
    |rows| - CountSupported(rows)
  }

  function Unsupported(rows: seq<Entry>): seq<Entry> {
    if |rows| == 0 then []
    else Unsupported(rows[..|rows| - 1]) + if Supported(rows[|rows| - 1].eventType) then [] else [rows[|rows| - 1]]
  }

  lemma {:induction false} CountAppend(a: seq<Entry>, b: seq<Entry>)
    ensures CountSupported(a + b) == CountSupported(a) + CountSupported(b)
  {
    if |b| == 0 {
      assert a + b == a;
    } else {
      var n := |b| - 1;
      CountAppend(a, b[..n]);
      assert (a + b)[..|a + b| - 1] == a + b[..n];
    }
  }

  lemma {:induction false} UnsupportedFacts(rows: seq<Entry>)
    ensures CountSupported(Unsupported(rows)) == 0
    ensures |Unsupported(rows)| == CountUnsupported(rows)
  {
    if |rows| > 0 {
      var n := |rows| - 1;
      UnsupportedFacts(rows[..n]);
      CountAppend(Unsupported(rows[..n]), if Supported(rows[n].eventType) then [] else [rows[n]]);
    }
  }

  /** What a fault-free round leaves of the pending rows: the supported rows
      among the first `size` are gone. */
  function AfterRound(rows: seq<Entry>, size: nat): seq<Entry> {
    var m := Min(size, |rows|);
    Unsupported(rows[..m]) + rows[m..]
  }

  function AfterRounds(rows: seq<Entry>, size: nat, k: nat): seq<Entry> {
    if k == 0 then rows else AfterRound(AfterRounds(rows, size, k - 1), size)
  }

  lemma DropSupported(front: seq<Entry>, back: seq<Entry>)
    ensures CountSupported(Unsupported(front) + back) == CountSupported(back) <= CountSupported(front + back)
    ensures CountUnsupported(Unsupported(front) + back) == CountUnsupported(front + back)
  {
    UnsupportedFacts(front);
    CountAppend(Unsupported(front), back);
    CountAppend(front, back);
  }

  lemma RoundCounts(rows: seq<Entry>, size: nat)
    ensures CountUnsupported(AfterRound(rows, size)) == CountUnsupported(rows)
    ensures CountSupported(AfterRound(rows, size)) == CountSupported(rows[Min(size, |rows|)..]) <= CountSupported(rows)
  {
    var m := Min(size, |rows|);
    assert rows[..m] + rows[m..] == rows;
    assert AfterRound(rows, size) == Unsupported(rows[..m]) + rows[m..];
    DropSupported(rows[..m], rows[m..]);
  }

  lemma RoundProgress(rows: seq<Entry>, size: nat)
    requires CountUnsupported(rows) <= size
    ensures CountSupported(AfterRound(rows, size)) <= Max(CountSupported(rows) - (size - CountUnsupported(rows)), 0)
  {
    RoundCounts(rows, size);
    if size < |rows| {
      assert rows == rows[..size] + rows[size..];
      CountAppend(rows[..size], rows[size..]);
    }
  }

  function Min(a: nat, b: nat): nat { if a <= b then a else b }

  function Max(a: int, b: int): int { if a >= b then a else b }

  /** What `k` rounds leave of `n` rows at `rate` rows a round. */
  function Left(n: nat, rate: nat, k: nat): nat {
    if k == 0 then n else Max(Left(n, rate, k - 1) - rate, 0)
  }

  lemma {:induction false} LeftIsLinear(n: nat, rate: nat, k: nat)
    ensures Left(n, rate, k) == Max(n - k * rate, 0)
  {
    if k > 0 {
      LeftIsLinear(n, rate, k - 1);
      assert k * rate == (k - 1) * rate + rate;
    }
  }

  lemma DrainStep(rows: seq<Entry>, size: nat, u: nat, n: nat)
    requires CountUnsupported(rows) == u < size && CountSupported(rows) <= n
    ensures CountUnsupported(AfterRound(rows, size)) == u
    ensures CountSupported(AfterRound(rows, size)) <= Max(n - (size - u), 0)
  {
    RoundCounts(rows, size);
    RoundProgress(rows, size);
  }

  lemma {:induction false} DrainSteps(rows: seq<Entry>, size: nat, u: nat, n: nat, k: nat)
    requires CountUnsupported(rows) == u < size && CountSupported(rows) <= n
    ensures CountUnsupported(AfterRounds(rows, size, k)) == u
    ensures CountSupported(AfterRounds(rows, size, k)) <= Left(n, size - u, k)
  {
    if k > 0 {
      DrainSteps(rows, size, u, n, k - 1);
      DrainStep(AfterRounds(rows, size, k - 1), size, u, Left(n, size - u, k - 1));
    }
  }

  /** With u unsupported rows among the pending ones, u < size, every fault-free
      round without new rows takes size - u supported rows off the outbox, so
      ceil(n / (size - u)) rounds publish all n of them. */
  lemma DrainRate(rows: seq<Entry>, size: nat, k: nat)
    requires CountUnsupported(rows) < size
    ensures var n := CountSupported(rows); var rate := size - CountUnsupported(rows);
      var after := AfterRounds(rows, size, k);
      && CountSupported(after) <= Max(n - k * rate, 0)
      && (k * rate >= n ==> CountSupported(after) == 0)
  {
    DrainSteps(rows, size, CountUnsupported(rows), CountSupported(rows), k);
    LeftIsLinear(CountSupported(rows), size - CountUnsupported(rows), k);
  }

  /** The unsupported rows ahead of the last supported one. */
  function Blockers(rows: seq<Entry>): nat {
    if |rows| == 0 then 0
    else if Supported(rows[|rows| - 1].eventType) then CountUnsupported(rows)
    else Blockers(rows[..|rows| - 1])
  }

  lemma {:induction false} BlockersSuffix(a: seq<Entry>, b: seq<Entry>)
    requires CountSupported(b) > 0
    ensures Blockers(a + b) == CountUnsupported(a) + Blockers(b)
  {
    var n := |b| - 1;
    assert (a + b)[..|a + b| - 1] == a + b[..n];
    if Supported(b[n].eventType) {
      CountAppend(a, b);
    } else {
      BlockersSuffix(a, b[..n]);
    }
  }

  lemma {:induction false} BlockersAfterPrefix(rows: seq<Entry>, m: nat)
    requires m <= |rows| && CountSupported(rows[m..]) > 0
    ensures Blockers(rows) >= CountUnsupported(rows[..m])
  {
    assert rows == rows[..m] + rows[m..];
    BlockersSuffix(rows[..m], rows[m..]);
  }

  /** Supported rows remaining after a round keep every blocker ahead of them. */
  lemma BlockersStay(rows: seq<Entry>, size: nat)
    requires CountSupported(AfterRound(rows, size)) > 0
    ensures Blockers(AfterRound(rows, size)) == Blockers(rows)
  {
    RoundCounts(rows, size);
    var m := Min(size, |rows|);
    assert rows == rows[..m] + rows[m..];
    UnsupportedFacts(rows[..m]);
    BlockersSuffix(rows[..m], rows[m..]);
    BlockersSuffix(Unsupported(rows[..m]), rows[m..]);
  }

  /** A round publishes something exactly when the last supported row has fewer
      than `size` unsupported ones ahead, or there is more in the batch. */
  lemma RoundMoves(rows: seq<Entry>, size: nat)
    requires CountSupported(rows) > 0 && Blockers(rows) < size
    ensures CountSupported(AfterRound(rows, size)) < CountSupported(rows)
  {
    var m := Min(size, |rows|);
    RoundCounts(rows, size);
    assert rows == rows[..m] + rows[m..];
    CountAppend(rows[..m], rows[m..]);
    if CountSupported(rows[m..]) > 0 {
      BlockersAfterPrefix(rows, m);
    }
  }

  lemma RoundSticks(rows: seq<Entry>, size: nat)
    requires CountSupported(rows) > 0 && Blockers(rows) >= size
    ensures CountSupported(AfterRound(rows, size)) > 0
  {
    var m := Min(size, |rows|);
    RoundCounts(rows, size);
    if CountSupported(rows[m..]) == 0 {
      BlockersInPrefix(rows, m);
    }
  }

  lemma {:induction false} BlockersInPrefix(rows: seq<Entry>, m: nat)
    requires m <= |rows| && CountSupported(rows[m..]) == 0 && CountSupported(rows) > 0
    ensures Blockers(rows) < m
  {
    var n := |rows| - 1;
    if m == |rows| {
      BlockersBelowLength(rows);
    } else {
      var tail := rows[m..];
      assert tail[..|tail| - 1] == rows[..n][m..];
      BlockersInPrefix(rows[..n], m);
    }
  }

  lemma {:induction false} BlockersBelowLength(rows: seq<Entry>)
    requires CountSupported(rows) > 0
    ensures Blockers(rows) < |rows|
  {
    if !Supported(rows[|rows| - 1].eventType) {
      BlockersBelowLength(rows[..|rows| - 1]);
    }
  }

  ghost predicate DrainedBy(rows: seq<Entry>, size: nat, k: nat) {
    CountSupported(AfterRounds(rows, size, k)) == 0
  }

  /** The outbox drains, eventually, exactly when fewer than a batch of
      unsupported rows stand ahead of the last supported one; otherwise that
      row is never published. */
  lemma DrainsIff(rows: seq<Entry>, size: nat)
    ensures (exists k: nat :: DrainedBy(rows, size, k)) <==> CountSupported(rows) == 0 || Blockers(rows) < size
  {
    if CountSupported(rows) == 0 {
      assert DrainedBy(rows, size, 0);
    } else if Blockers(rows) < size {
      var k := Drains(rows, size);
    } else {
      forall k: nat ensures !DrainedBy(rows, size, k) {
        StuckForever(rows, size, k);
      }
    }
  }

  /** Rows that drain: none supported is left, or too few blockers to stop it. */
  predicate Draining(rows: seq<Entry>, size: nat) {
    CountSupported(rows) > 0 ==> Blockers(rows) < size
  }

  lemma {:induction false} OneRoundFirst(rows: seq<Entry>, size: nat, k: nat)
    ensures AfterRounds(rows, size, k + 1) == AfterRounds(AfterRound(rows, size), size, k)
  {
    if k > 0 {
      OneRoundFirst(rows, size, k - 1);
    }
  }

  lemma {:induction false} Drains(rows: seq<Entry>, size: nat) returns (k: nat)
    requires Draining(rows, size)
    ensures DrainedBy(rows, size, k)
    decreases CountSupported(rows)
  {
    k := 0;
    if CountSupported(rows) > 0 {
      RoundDrains(rows, size);
      k := Drains(AfterRound(rows, size), size);
      OneRoundFirst(rows, size, k);
      k := k + 1;
    }
  }

  lemma RoundDrains(rows: seq<Entry>, size: nat)
    requires Draining(rows, size)
    ensures var after := AfterRound(rows, size);
      CountSupported(after) <= Max(CountSupported(rows) - 1, 0) && Draining(after, size)
  {
    RoundCounts(rows, size);
    if CountSupported(rows) > 0 {
      RoundMoves(rows, size);
    }
    if CountSupported(AfterRound(rows, size)) > 0 {
      BlockersStay(rows, size);
    }
  }

  lemma {:induction false} StuckForever(rows: seq<Entry>, size: nat, k: nat)
    requires CountSupported(rows) > 0 && Blockers(rows) >= size
    ensures var after := AfterRounds(rows, size, k); CountSupported(after) > 0 && Blockers(after) == Blockers(rows)
  {
    if k > 0 {
      StuckForever(rows, size, k - 1);
      RoundSticks(AfterRounds(rows, size, k - 1), size);
      BlockersStay(AfterRounds(rows, size, k - 1), size);
    }
  }

  // ----- the drain model is what the publisher does -----

  ghost predicate DistinctIds(events: seq<Entry>) {
    forall i, j :: 0 <= i < j < |events| ==> events[i].id != events[j].id
  }

  function FaultFree(id: Uuid): Outcome { Outcome(true, true, Sound) }

  lemma PendingAfterFront(rows: seq<Entry>, m: nat, done: set<Uuid>)
    requires m <= |rows|
    requires forall i :: 0 <= i < m ==> (rows[i].id in done <==> Supported(rows[i].eventType))
    requires forall i :: m <= i < |rows| ==> rows[i].id !in done
    ensures Pending(rows, done) == Unsupported(rows[..m]) + rows[m..]
  {
    assert rows == rows[..m] + rows[m..];
    PendingAppend(rows[..m], rows[m..], done);
    PendingIsUnsupported(rows[..m], done);
    PendingIsAll(rows[m..], done);
  }

  /** A fault-free round of the publisher is one round of the drain model. */
  lemma RoundIsAfterRound(events: seq<Entry>, s: State, size: nat)
    requires DistinctIds(events)
    ensures Pending(events, Round(events, s, size, FaultFree).published)
         == AfterRound(Pending(events, s.published), size)
  {
    var rows := Pending(events, s.published);
    var m := Min(size, |rows|);
    assert Batch(events, s.published, size) == rows[..m];
    var done := Marked(rows[..m], FaultFree);
    PendingDistinct(events, s.published);
    PendingTwice(events, s.published, done);
    MarkedIsFront(rows, m);
    PendingAfterFront(rows, m, done);
  }

  lemma MarkedIsFront(rows: seq<Entry>, m: nat)
    requires DistinctIds(rows) && m <= |rows|
    ensures var done := Marked(rows[..m], FaultFree);
      && (forall i :: 0 <= i < m ==> (rows[i].id in done <==> Supported(rows[i].eventType)))
      && (forall i :: m <= i < |rows| ==> rows[i].id !in done)
  {
    var done := Marked(rows[..m], FaultFree);
    forall i | 0 <= i < |rows| && rows[i].id in done ensures i < m && Supported(rows[i].eventType) {
      var e :| e in rows[..m] && Supported(e.eventType) && e.id == rows[i].id;
      var j :| 0 <= j < m && rows[..m][j] == e;
      assert rows[j].id == rows[i].id;
    }
    forall i | 0 <= i < m && Supported(rows[i].eventType) ensures rows[i].id in done {
      assert rows[..m][i] in rows[..m];
    }
  }

  lemma {:induction false} PendingDistinct(events: seq<Entry>, published: set<Uuid>)
    requires DistinctIds(events)
    ensures DistinctIds(Pending(events, published))
  {
    if |events| > 0 {
      PendingDistinct(events[1..], published);
      var rest := Pending(events[1..], published);
      forall i | 0 <= i < |rest| ensures rest[i].id != events[0].id {
        PendingIsIn(events[1..], published, rest[i]);
      }
    }
  }

  lemma {:induction false} PendingTwice(events: seq<Entry>, published: set<Uuid>, more: set<Uuid>)
    ensures Pending(events, published + more) == Pending(Pending(events, published), more)
  {
    if |events| > 0 {
      PendingTwice(events[1..], published, more);
      var head := if events[0].id in published then [] else [events[0]];
      var rest := Pending(events[1..], published);
      PendingAppend(head, rest, more);
    }
  }

  lemma {:induction false} PendingAppend(a: seq<Entry>, b: seq<Entry>, published: set<Uuid>)
    ensures Pending(a + b, published) == Pending(a, published) + Pending(b, published)
  {
    if |a| == 0 {
      assert a + b == b;
    } else {
      assert (a + b)[1..] == a[1..] + b;
      PendingAppend(a[1..], b, published);
    }
  }

  lemma {:induction false} PendingIsUnsupported(rows: seq<Entry>, published: set<Uuid>)
    requires forall i :: 0 <= i < |rows| ==> (rows[i].id in published <==> Supported(rows[i].eventType))
    ensures Pending(rows, published) == Unsupported(rows)
  {
    if |rows| > 0 {
      var n := |rows| - 1;
      PendingIsUnsupported(rows[..n], published);
      assert rows == rows[..n] + [rows[n]];
      PendingAppend(rows[..n], [rows[n]], published);
    }
  }

  lemma {:induction false} PendingIsAll(rows: seq<Entry>, published: set<Uuid>)
    requires forall i :: 0 <= i < |rows| ==> rows[i].id !in published
    ensures Pending(rows, published) == rows
  {
    if |rows| > 0 {
      PendingIsAll(rows[1..], published);
    }
  }

  // ----- draining, for the publisher itself -----

  /** The publisher after `k` fault-free rounds and no new rows. */
  function FaultFreeRounds(events: seq<Entry>, s: State, size: nat, k: nat): State {
    if k == 0 then s else Round(events, FaultFreeRounds(events, s, size, k - 1), size, FaultFree)
  }

  ghost predicate Leaves(events: seq<Entry>, s: State, rows: seq<Entry>) {
    Pending(events, s.published) == rows
  }

  lemma RoundLeaves(events: seq<Entry>, s: State, size: nat, rows: seq<Entry>)
    requires DistinctIds(events) && Leaves(events, s, rows)
    ensures Leaves(events, Round(events, s, size, FaultFree), AfterRound(rows, size))
  {
    RoundIsAfterRound(events, s, size);
  }

  lemma {:induction false} RoundsLeave(events: seq<Entry>, s: State, size: nat, k: nat)
    requires DistinctIds(events)
    ensures Leaves(events, FaultFreeRounds(events, s, size, k), AfterRounds(Pending(events, s.published), size, k))
  {
    if k > 0 {
      var rows := AfterRounds(Pending(events, s.published), size, k - 1);
      RoundsLeave(events, s, size, k - 1);
      RoundLeaves(events, FaultFreeRounds(events, s, size, k - 1), size, rows);
    }
  }

  /** Every row of a known type is marked published. */
  ghost predicate AllPublished(events: seq<Entry>, s: State) {
    forall e <- events :: Supported(e.eventType) ==> e.id in s.published
  }

  lemma {:induction false} CountIsZero(rows: seq<Entry>)
    ensures CountSupported(rows) == 0 <==> forall e <- rows :: !Supported(e.eventType)
  {
    if |rows| > 0 {
      CountIsZero(rows[..|rows| - 1]);
      assert rows == rows[..|rows| - 1] + [rows[|rows| - 1]];
    }
  }

  lemma NonePending(events: seq<Entry>, s: State)
    ensures CountSupported(Pending(events, s.published)) == 0 <==> AllPublished(events, s)
  {
    CountIsZero(Pending(events, s.published));
    forall e ensures e in Pending(events, s.published) <==> e in events && e.id !in s.published {
      PendingIsIn(events, s.published, e);
    }
  }

  /** `k` fault-free rounds of the publisher mark every supported row. */
  ghost predicate PublishedBy(events: seq<Entry>, s: State, size: nat, k: nat) {
    AllPublished(events, FaultFreeRounds(events, s, size, k))
  }

  lemma PublishedByDrains(events: seq<Entry>, s: State, size: nat, k: nat)
    requires DistinctIds(events)
    ensures PublishedBy(events, s, size, k) <==> DrainedBy(Pending(events, s.published), size, k)
  {
    RoundsLeave(events, s, size, k);
    NonePending(events, FaultFreeRounds(events, s, size, k));
  }

  /** From any state, with u unsupported and n supported rows pending and a batch
      of B > u, k fault-free rounds of the publisher have marked every supported
      row as soon as k * (B - u) >= n. */
  lemma PublisherDrainRate(events: seq<Entry>, s: State, size: nat, k: nat)
    requires DistinctIds(events)
    requires var rows := Pending(events, s.published);
      CountUnsupported(rows) < size && k * (size - CountUnsupported(rows)) >= CountSupported(rows)
    ensures PublishedBy(events, s, size, k)
  {
    DrainRate(Pending(events, s.published), size, k);
    PublishedByDrains(events, s, size, k);
  }

  /** And from any state fault-free rounds of the publisher mark every supported
      row eventually if and only if fewer than a batch of unsupported rows stand
      ahead of the last supported one pending. */
  lemma PublisherDrainsIff(events: seq<Entry>, s: State, size: nat)
    requires DistinctIds(events)
    ensures (exists k: nat :: PublishedBy(events, s, size, k))
       <==> AllPublished(events, s) || Blockers(Pending(events, s.published)) < size
  {
    var rows := Pending(events, s.published);
    DrainsIff(rows, size);
    NonePending(events, s);
    forall k: nat ensures PublishedBy(events, s, size, k) <==> DrainedBy(rows, size, k) {
      PublishedByDrains(events, s, size, k);
    }
  }
}
