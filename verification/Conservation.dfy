/** No message is lost or duplicated inside the broker, whatever crashes. */
module Conservation {
  import opened Domain
  import opened Pipeline
  import Delivery
  import Worker

  ghost predicate InBooks(s: Sys, i: nat) {
    i in s.ready || i in s.unacked || i in s.acked || i in s.dead
  }

  /** Every message is in exactly one of the broker's four books; prefetched
      messages and those of live handlers are unacked, and no two of these share
      a message. */
  ghost predicate Books(s: Sys) {
    && (forall i: nat :: InBooks(s, i) <==> i < |s.copies|)
    && (s.ready !! s.unacked !! s.acked !! s.dead)
    && s.buffered <= s.unacked
    && (forall h <- s.handlers :: s.handlers[h].copy < |s.copies|)
    && (forall h <- s.handlers :: s.handlers[h].live ==> s.handlers[h].copy in s.unacked - s.buffered)
    && (forall h <- s.handlers, k <- s.handlers ::
          s.handlers[h].live && s.handlers[k].live && s.handlers[h].copy == s.handlers[k].copy ==> h == k)
  }

  /** Steps that leave the broker's books alone and run no new handler. */
  ghost predicate SameBooks(s: Sys, r: Sys) {
    && r.copies == s.copies && r.ready == s.ready && r.unacked == s.unacked && r.acked == s.acked && r.dead == s.dead
    && r.buffered <= s.buffered
    && r.handlers.Keys <= s.handlers.Keys
    && (forall h <- r.handlers :: r.handlers[h].copy == s.handlers[h].copy && r.handlers[h].live == s.handlers[h].live)
  }

  /** Nothing is settled, and nothing unsettled disappears. */
  ghost predicate Retains(s: Sys, r: Sys) {
    r.acked == s.acked && r.dead == s.dead && s.ready + s.unacked <= r.ready + r.unacked
  }

  lemma SameBooksStay(s: Sys, r: Sys)
    requires Books(s) && SameBooks(s, r)
    ensures Books(r) && Retains(s, r)
  {
    forall i: nat ensures InBooks(r, i) <==> i < |r.copies| {
      assert InBooks(s, i) <==> i < |s.copies|;
    }
  }

  lemma TargetSameBooks(s: Sys, w: Wiring, h: Uuid, app: Uuid, env: Delivery.Env, fate: Fate)
    ensures SameBooks(s, TargetStep(s, w, h, app, env, fate))
  {
  }

  lemma PublishBooks(s: Sys, event: nat)
    requires Books(s)
    ensures Books(PublishStep(s, event)) && Retains(s, PublishStep(s, event))
  {
    var r := PublishStep(s, event);
    assert !InBooks(s, |s.copies|);
    forall i: nat ensures InBooks(r, i) <==> i < |r.copies| {
      assert InBooks(s, i) <==> i < |s.copies|;
    }
  }

  lemma PrefetchBooks(s: Sys, copy: nat)
    requires Books(s)
    ensures Books(PrefetchStep(s, copy)) && Retains(s, PrefetchStep(s, copy))
  {
    var r := PrefetchStep(s, copy);
    forall i: nat ensures InBooks(r, i) <==> i < |r.copies| {
      assert InBooks(s, i) <==> i < |s.copies|;
    }
  }

  lemma DispatchBooks(s: Sys, copy: nat, h: Uuid)
    requires Books(s)
    ensures Books(DispatchStep(s, copy, h)) && Retains(s, DispatchStep(s, copy, h))
  {
    var r := DispatchStep(s, copy, h);
    assert copy in s.buffered ==> InBooks(s, copy);
    forall i: nat ensures InBooks(r, i) <==> i < |r.copies| {
      assert InBooks(s, i) <==> i < |s.copies|;
    }
  }

  lemma LostBooks(s: Sys)
    requires Books(s)
    ensures Books(LostStep(s)) && Retains(s, LostStep(s))
    ensures Books(CrashStep(s)) && Retains(s, CrashStep(s))
  {
    var r := LostStep(s);
    forall i: nat ensures InBooks(r, i) <==> i < |r.copies| {
      assert InBooks(s, i) <==> i < |s.copies|;
    }
    SameBooksStay(r, CrashStep(s));
  }

  /** The message settled for good by this step, if any. */
  ghost predicate Settles(s: Sys, a: Action, copy: nat, verdict: Worker.Settlement) {
    && a.Settle? && a.reaches && CanSettle(s, a.handler, a.arrival)
    && s.handlers[a.handler].live && s.handlers[a.handler].copy == copy && Verdict(s, a.handler, a.arrival) == verdict
  }

  /** What a step may do to the message `copy`. */
  ghost predicate LeavesBySettling(s: Sys, r: Sys, a: Action, copy: nat) {
    && (copy in r.acked <==> copy in s.acked || Settles(s, a, copy, Worker.Ack))
    && (copy in r.dead <==> copy in s.dead || Settles(s, a, copy, Worker.DeadLetter))
    && (copy in s.ready + s.unacked && copy !in r.ready + r.unacked ==>
          Settles(s, a, copy, Worker.Ack) || Settles(s, a, copy, Worker.DeadLetter))
    && (Settles(s, a, copy, Worker.Requeue) ==> copy in r.ready && copy !in r.unacked)
  }

  lemma EndBooks(s: Sys, h: Uuid, verdict: Option<Worker.Settlement>)
    requires Books(s) && h in s.handlers && (verdict.Some? ==> s.handlers[h].live)
    ensures Books(EndWith(s, h, verdict))
    ensures verdict == None || verdict == Some(Worker.Requeue) ==> Retains(s, EndWith(s, h, verdict))
    ensures verdict == None ==> EndWith(s, h, verdict).unacked == s.unacked
  {
    var r := EndWith(s, h, verdict);
    forall i: nat ensures InBooks(r, i) <==> i < |r.copies| {
      assert InBooks(s, i) <==> i < |s.copies|;
    }
  }

  lemma SettleBooks(s: Sys, h: Uuid, arrival: seq<Uuid>, reaches: bool, copy: nat)
    requires Books(s)
    ensures Books(SettleStep(s, h, arrival, reaches))
    ensures LeavesBySettling(s, SettleStep(s, h, arrival, reaches), Settle(h, arrival, reaches), copy)
  {
    if CanSettle(s, h, arrival) {
      EndBooks(s, h, if reaches && s.handlers[h].live then Some(Verdict(s, h, arrival)) else None);
    }
  }

  lemma QuietSameBooks(s: Sys, w: Wiring, a: Action)
    requires a.Server? || a.CreateLocal? || a.LocalLogout? || a.MarkPublished? || a.Discard? || a.Resolve?
    ensures SameBooks(s, Act(s, w, a))
  {
  }

  lemma ActFacts(s: Sys, w: Wiring, a: Action, copy: nat)
    requires Books(s)
    ensures Books(Act(s, w, a))
    ensures LeavesBySettling(s, Act(s, w, a), a, copy)
  {
    match a
    case Publish(event) => PublishBooks(s, event);
    case Prefetch(next) => PrefetchBooks(s, next);
    case Dispatch(next, h) => DispatchBooks(s, next, h);
    case ConnectionLost => LostBooks(s);
    case Crash => LostBooks(s);
    case Settle(h, arrival, reaches) => SettleBooks(s, h, arrival, reaches, copy);
    case Target(h, app, env, fate) =>
      TargetSameBooks(s, w, h, app, env, fate);
      SameBooksStay(s, TargetStep(s, w, h, app, env, fate));
    case _ =>
      QuietSameBooks(s, w, a);
      SameBooksStay(s, Act(s, w, a));
  }

  lemma StepKeepsBooks(s: Sys, w: Wiring, a: Action)
    requires Books(s)
    ensures Books(Apply(s, w, a))
  {
    ActFacts(s, w, a, 0);
    SameBooksStay(Act(s, w, a), Apply(s, w, a));
  }

  lemma {:induction false} RunKeepsBooks(s: Sys, w: Wiring, actions: seq<Action>)
    requires Init(s)
    ensures Books(Run(s, w, actions))
  {
    if |actions| > 0 {
      RunKeepsBooks(s, w, actions[..|actions| - 1]);
      StepKeepsBooks(Run(s, w, actions[..|actions| - 1]), w, actions[|actions| - 1]);
    }
  }

  function Count(b: bool): nat { if b then 1 else 0 }

  /** Conservation, over every run: a message the broker accepted is in exactly
      one of ready, unacked, acked and dead-lettered. */
  lemma EveryCopyInOneBook(s: Sys, w: Wiring, actions: seq<Action>, copy: nat)
    requires Init(s)
    ensures var r := Run(s, w, actions);
      Count(copy in r.ready) + Count(copy in r.unacked) + Count(copy in r.acked) + Count(copy in r.dead)
      == Count(copy < |r.copies|)
  {
    RunKeepsBooks(s, w, actions);
    var r := Run(s, w, actions);
    assert InBooks(r, copy) <==> copy < |r.copies|;
  }

  /** A message leaves the system only by an ACK or a dead-lettering NACK of the
      one live handler holding it, and neither is ever taken back. */
  lemma LeavesOnlyWhenSettled(s: Sys, w: Wiring, a: Action, copy: nat)
    requires Books(s)
    ensures LeavesBySettling(s, Apply(s, w, a), a, copy)
  {
    ActFacts(s, w, a, copy);
  }

  lemma CopiesGrow(s: Sys, w: Wiring, a: Action)
    ensures var r := Apply(s, w, a);
      |s.copies| <= |r.copies| && r.copies[..|s.copies|] == s.copies
  {
    if a.Target? {
      TargetSameBooks(s, w, a.handler, a.app, a.env, a.fate);
    }
  }

  /** An outbox row is marked published only once the broker holds its payload,
      so every marked event is still in the broker, acknowledged or
      dead-lettered. */
  lemma {:induction false} MarkedIsAccounted(s: Sys, w: Wiring, actions: seq<Action>, id: Uuid)
    requires Init(s) && id in Run(s, w, actions).published
    ensures var r := Run(s, w, actions);
      exists i: nat :: i < |r.copies| && r.copies[i].eventId == id && InBooks(r, i)
  {
    RunKeepsBooks(s, w, actions);
    var n := |actions| - 1;
    var before := Run(s, w, actions[..n]);
    var r := Run(s, w, actions);
    CopiesGrow(before, w, actions[n]);
    if id in before.published {
      MarkedIsAccounted(s, w, actions[..n], id);
      var i: nat :| i < |before.copies| && before.copies[i].eventId == id;
      assert r.copies[..|before.copies|][i] == r.copies[i];
    } else {
      MarkEffect(before, w, actions[n], id);
      var i: nat :| i < |before.copies| && before.copies[i].eventId == id;
      assert r.copies[..|before.copies|][i] == r.copies[i];
    }
  }

  lemma MarkEffect(s: Sys, w: Wiring, a: Action, id: Uuid)
    requires id in Apply(s, w, a).published && id !in s.published
    ensures exists i: nat :: i < |s.copies| && s.copies[i].eventId == id
  {
    assert a.MarkPublished?;
    var e := s.server.events[a.event];
    var i: nat :| i < |s.copies| && s.copies[i] == e;
  }

  // ----- the consumer loop -----

  /** A live handler holds the message. */
  ghost predicate Held(s: Sys, c: nat) {
    exists h <- s.handlers :: s.handlers[h].live && s.handlers[h].copy == c
  }

  /** The loop so far: `s` is the system when it began, `r` now. The messages of
      `handled` are with a handler, those of `dropped` with nobody, those of
      `rest` still in the channel; none is settled, all are unacked. */
  ghost predicate Taken(s: Sys, r: Sys, handled: seq<nat>, dropped: seq<nat>, rest: seq<nat>) {
    && Books(r) && r.ready == s.ready && r.unacked == s.unacked && r.acked == s.acked && r.dead == s.dead
    && Lists(rest, r.buffered)
    && (forall c <- handled :: Held(r, c) && c !in r.buffered)
    && (forall c <- dropped :: c in r.unacked && c !in r.buffered && !Held(r, c))
  }

  lemma HeldNotBuffered(s: Sys, c: nat)
    requires Books(s) && c in s.buffered
    ensures !Held(s, c) && c in s.unacked
  {
  }

  lemma DispatchEffect(s: Sys, w: Wiring, c: nat, h: Uuid)
    requires Books(s) && c in s.buffered && h !in s.handlers
    ensures var r := Apply(s, w, Dispatch(c, h));
      && Books(r) && r.ready == s.ready && r.unacked == s.unacked && r.acked == s.acked && r.dead == s.dead
      && r.buffered == s.buffered - {c} && r.handlers == s.handlers[h := Handler(c, true, Received)]
  {
    StepKeepsBooks(s, w, Dispatch(c, h));
  }

  lemma DiscardEffect(s: Sys, w: Wiring, c: nat)
    requires Books(s) && c in s.buffered
    ensures var r := Apply(s, w, Discard(c));
      && Books(r) && r.ready == s.ready && r.unacked == s.unacked && r.acked == s.acked && r.dead == s.dead
      && r.buffered == s.buffered - {c} && r.handlers == s.handlers
  {
    StepKeepsBooks(s, w, Discard(c));
  }

  lemma FirstListed(copies: seq<nat>, all: set<nat>)
    requires |copies| > 0 && Lists(copies, all)
    ensures copies[0] in all && Lists(copies[1..], all - {copies[0]})
  {
    assert copies[0] in copies;
    forall x ensures x in copies[1..] <==> x in all - {copies[0]} {
      assert copies == [copies[0]] + copies[1..];
      assert x in copies <==> x == copies[0] || x in copies[1..];
    }
  }

  lemma HeldAfterDispatch(s: Sys, r: Sys, c: nat, h: Uuid, x: nat)
    requires h !in s.handlers && r.handlers == s.handlers[h := Handler(c, true, Received)]
    ensures Held(r, x) <==> Held(s, x) || x == c
  {
    assert r.handlers[h].live && r.handlers[h].copy == c;
    if Held(s, x) {
      var k :| k in s.handlers && s.handlers[k].live && s.handlers[k].copy == x;
      assert k in r.handlers && r.handlers[k] == s.handlers[k];
    }
  }

  lemma DispatchTakes(s: Sys, r: Sys, w: Wiring, handled: seq<nat>, dropped: seq<nat>, rest: seq<nat>, h: Uuid)
    requires Taken(s, r, handled, dropped, rest) && |rest| > 0 && h !in r.handlers
    ensures Taken(s, Apply(r, w, Dispatch(rest[0], h)), handled + [rest[0]], dropped, rest[1..])
  {
    var c := rest[0];
    FirstListed(rest, r.buffered);
    DispatchEffect(r, w, c, h);
    var r' := Apply(r, w, Dispatch(c, h));
    forall x | x in handled + [c] ensures Held(r', x) && x !in r'.buffered {
      HeldAfterDispatch(r, r', c, h, x);
    }
    forall x | x in dropped ensures x in r'.unacked && x !in r'.buffered && !Held(r', x) {
      HeldAfterDispatch(r, r', c, h, x);
    }
  }

  lemma DiscardTakes(s: Sys, r: Sys, w: Wiring, handled: seq<nat>, dropped: seq<nat>, rest: seq<nat>)
    requires Taken(s, r, handled, dropped, rest) && |rest| > 0
    ensures Taken(s, Apply(r, w, Discard(rest[0])), handled, dropped + [rest[0]], rest[1..])
  {
    var c := rest[0];
    FirstListed(rest, r.buffered);
    HeldNotBuffered(r, c);
    DiscardEffect(r, w, c);
    var r' := Apply(r, w, Discard(c));
    assert forall x :: Held(r', x) <==> Held(r, x);
  }

  lemma DispatchNext(s: Sys, r: Sys, w: Wiring, handled: seq<nat>, dropped: seq<nat>, rest: seq<nat>)
    returns (a: Action)
    requires Taken(s, r, handled, dropped, rest) && |rest| > 0
    ensures Taken(s, Apply(r, w, a), handled + [rest[0]], dropped, rest[1..])
  {
    var h := FreshId(r.handlers.Keys);
    DispatchTakes(s, r, w, handled, dropped, rest, h);
    a := Dispatch(rest[0], h);
  }

  lemma NothingTaken(s: Sys, rest: seq<nat>)
    requires Books(s) && Lists(rest, s.buffered)
    ensures Taken(s, s, [], [], rest)
  {
  }

  /** Every delivery of the list is in one of the three others. */
  ghost predicate Split(deliveries: seq<nat>, handled: seq<nat>, dropped: seq<nat>, rest: seq<nat>) {
    multiset(deliveries) == multiset(handled) + multiset(dropped) + multiset(rest)
  }

  lemma SplitOne(deliveries: seq<nat>, handled: seq<nat>, dropped: seq<nat>, rest: seq<nat>)
    requires Split(deliveries, handled, dropped, rest) && |rest| > 0
    ensures Split(deliveries, handled + [rest[0]], dropped, rest[1..])
    ensures Split(deliveries, handled, dropped + [rest[0]], rest[1..])
  {
    assert rest == [rest[0]] + rest[1..];
  }

  /** Those of the first `n` elements whose position is chosen, in order. */
  function Pick(s: seq<nat>, n: nat, chosen: nat -> bool): seq<nat>
    requires n <= |s|
  {
    if n == 0 then [] else Pick(s, n - 1, chosen) + if chosen(n - 1) then [s[n - 1]] else []
  }

  function Not(chosen: nat -> bool): nat -> bool {
    (i: nat) => !chosen(i)
  }

  /** A chosen element is picked, and nothing else; if all are chosen, all are. */
  lemma {:induction false} PickExactly(s: seq<nat>, n: nat, chosen: nat -> bool, x: nat)
    requires n <= |s|
    ensures x in Pick(s, n, chosen) <==> exists i: nat :: i < n && chosen(i) && s[i] == x
    ensures (forall i: nat :: i < n ==> chosen(i)) ==> Pick(s, n, chosen) == s[..n]
    ensures (forall i: nat :: i < n ==> !chosen(i)) ==> Pick(s, n, chosen) == []
  {
    if n > 0 {
      PickExactly(s, n - 1, chosen, x);
      assert s[..n] == s[..n - 1] + [s[n - 1]];
    }
  }

  /** The late goroutines among the first `n` have dropped their deliveries, the
      others handle theirs. */
  ghost predicate InTurn(deliveries: seq<nat>, n: nat, late: nat -> bool, handled: seq<nat>, dropped: seq<nat>)
    requires n <= |deliveries|
  {
    handled == Pick(deliveries, n, Not(late)) && dropped == Pick(deliveries, n, late)
  }

  lemma NextInTurn(deliveries: seq<nat>, n: nat, late: nat -> bool, handled: seq<nat>, dropped: seq<nat>)
    requires n < |deliveries| && InTurn(deliveries, n, late, handled, dropped)
    ensures late(n) ==> InTurn(deliveries, n + 1, late, handled, dropped + [deliveries[n]])
    ensures !late(n) ==> InTurn(deliveries, n + 1, late, handled + [deliveries[n]], dropped)
    ensures deliveries[n..][0] == deliveries[n] && deliveries[n..][1..] == deliveries[n + 1..]
  {
    assert handled + [] == handled && dropped + [] == dropped;
  }

  /** The loop has come as far as `r` by the run `t`. */
  ghost predicate Reached(s: Sys, w: Wiring, t: Trace, r: Sys,
                          deliveries: seq<nat>, handled: seq<nat>, dropped: seq<nat>, rest: seq<nat>)
  {
    Traces(s, w, t, r) && Taken(s, r, handled, dropped, rest) && Split(deliveries, handled, dropped, rest)
  }

  lemma HandsOne(s: Sys, w: Wiring, before: Trace, mid: Sys,
                 deliveries: seq<nat>, handled: seq<nat>, dropped: seq<nat>, rest: seq<nat>)
    returns (t: Trace, r: Sys)
    requires Reached(s, w, before, mid, deliveries, handled, dropped, rest) && |rest| > 0
    ensures Reached(s, w, t, r, deliveries, handled + [rest[0]], dropped, rest[1..])
  {
    SplitOne(deliveries, handled, dropped, rest);
    var a := DispatchNext(s, mid, w, handled, dropped, rest);
    t, r := TraceOne(s, w, before, mid, a);
  }

  lemma DropsOne(s: Sys, w: Wiring, before: Trace, mid: Sys,
                 deliveries: seq<nat>, handled: seq<nat>, dropped: seq<nat>, rest: seq<nat>)
    returns (t: Trace, r: Sys)
    requires Reached(s, w, before, mid, deliveries, handled, dropped, rest) && |rest| > 0
    ensures Reached(s, w, t, r, deliveries, handled, dropped + [rest[0]], rest[1..])
  {
    var a := Discard(rest[0]);
    SplitOne(deliveries, handled, dropped, rest);
    DiscardTakes(s, mid, w, handled, dropped, rest);
    t, r := TraceOne(s, w, before, mid, a);
  }

  lemma NothingReached(s: Sys, w: Wiring, deliveries: seq<nat>)
    requires Books(s) && Lists(deliveries, s.buffered)
    ensures Reached(s, w, Trace([], [s]), s, deliveries, [], [], deliveries)
  {
    NothingTaken(s, deliveries);
  }

  /** The dispatching loop after `n` passes. */
  ghost predicate Passed(s: Sys, w: Wiring, t: Trace, r: Sys, deliveries: seq<nat>, n: nat, late: nat -> bool,
                         handled: seq<nat>, dropped: seq<nat>)
  {
    && n <= |deliveries| && InTurn(deliveries, n, late, handled, dropped)
    && Reached(s, w, t, r, deliveries, handled, dropped, deliveries[n..])
  }

  lemma NothingPassed(s: Sys, w: Wiring, deliveries: seq<nat>, late: nat -> bool)
    requires Books(s) && Lists(deliveries, s.buffered)
    ensures Passed(s, w, Trace([], [s]), s, deliveries, 0, late, [], [])
  {
    NothingReached(s, w, deliveries);
    assert deliveries[0..] == deliveries;
  }

  lemma PassDrops(s: Sys, w: Wiring, t: Trace, r: Sys, deliveries: seq<nat>, n: nat, late: nat -> bool,
                  handled: seq<nat>, dropped: seq<nat>)
    returns (t': Trace, r': Sys)
    requires Passed(s, w, t, r, deliveries, n, late, handled, dropped) && n < |deliveries| && late(n)
    ensures Passed(s, w, t', r', deliveries, n + 1, late, handled, dropped + [deliveries[n]])
  {
    NextInTurn(deliveries, n, late, handled, dropped);
    t', r' := DropsOne(s, w, t, r, deliveries, handled, dropped, deliveries[n..]);
  }

  lemma PassHands(s: Sys, w: Wiring, t: Trace, r: Sys, deliveries: seq<nat>, n: nat, late: nat -> bool,
                  handled: seq<nat>, dropped: seq<nat>)
    returns (t': Trace, r': Sys)
    requires Passed(s, w, t, r, deliveries, n, late, handled, dropped) && n < |deliveries| && !late(n)
    ensures Passed(s, w, t', r', deliveries, n + 1, late, handled + [deliveries[n]], dropped)
  {
    NextInTurn(deliveries, n, late, handled, dropped);
    t', r' := HandsOne(s, w, t, r, deliveries, handled, dropped, deliveries[n..]);
  }

  /** The dispatching half of `runConsumerLoop`, one pass per delivery in the
      channel. `signalled(i)` and `late(i)` say whether the loop and the goroutine
      of delivery `i` see the shutdown signal; a late goroutine ends at once. */
  method DispatchUntilSignal(deliveries: seq<nat>, signalled: nat -> bool, late: nat -> bool,
                              ghost s: Sys, ghost w: Wiring)
    returns (handled: seq<nat>, dropped: seq<nat>, stop: nat, ghost t: Trace, ghost r: Sys)
    requires Books(s) && Lists(deliveries, s.buffered)
    ensures stop <= |deliveries| && (forall i: nat :: i < stop ==> !signalled(i))
    ensures stop < |deliveries| ==> signalled(stop)
    ensures Passed(s, w, t, r, deliveries, stop, late, handled, dropped)
  {
    handled, dropped, stop, t, r := [], [], 0, Trace([], [s]), s;
    NothingPassed(s, w, deliveries, late);
    while stop < |deliveries| && !signalled(stop)
      invariant stop <= |deliveries|
      invariant forall i: nat :: i < stop ==> !signalled(i)
      invariant Passed(s, w, t, r, deliveries, stop, late, handled, dropped)
    {
      if late(stop) {
        t, r := PassDrops(s, w, t, r, deliveries, stop, late, handled, dropped);
        dropped := dropped + [deliveries[stop]];
      } else {
        t, r := PassHands(s, w, t, r, deliveries, stop, late, handled, dropped);
        handled := handled + [deliveries[stop]];
      }
      stop := stop + 1;
    }
  }

  /** `drainDeliveriesUnacked`: reads what is left in the channel and settles none
      of it, until the channel is empty or the deadline comes, after `limit`
      messages. `began` is the run so far, which left the system at `at`. */
  method DrainDeliveriesUnacked(rest: seq<nat>, limit: nat, ghost deliveries: seq<nat>, ghost handled: seq<nat>,
                                already: seq<nat>, ghost s: Sys, ghost w: Wiring,
                                ghost began: Trace, ghost at: Sys)
    returns (dropped: seq<nat>, left: seq<nat>, ghost t: Trace, ghost r: Sys)
    requires Reached(s, w, began, at, deliveries, handled, already, rest)
    ensures |left| == if limit < |rest| then |rest| - limit else 0
    ensures left == rest[|rest| - |left|..] && dropped == already + rest[..|rest| - |left|]
    ensures Reached(s, w, t, r, deliveries, handled, dropped, left)
  {
    dropped, left, t, r := already, rest, began, at;
    var read := 0;
    assert already + rest[..0] == already;
    while read < limit && |left| > 0
      invariant read <= limit && read <= |rest| && left == rest[read..] && dropped == already + rest[..read]
      invariant Reached(s, w, t, r, deliveries, handled, dropped, left)
    {
      t, r := DropsOne(s, w, t, r, deliveries, handled, dropped, left);
      assert rest[..read + 1] == rest[..read] + [left[0]];
      dropped := dropped + [left[0]];
      left, read := left[1..], read + 1;
    }
  }

  /** What becomes of each delivery when the loop stops at `stop` and the drain reads
      `limit` more: those before the signal are handled, in order, but for the late
      ones, which are dropped; none after it is handled. */
  ghost predicate Sorts(deliveries: seq<nat>, stop: nat, late: nat -> bool, limit: nat,
                        handled: seq<nat>, dropped: seq<nat>, left: seq<nat>)
  {
    && stop <= |deliveries|
    && (forall c :: c in handled <==> exists i: nat :: i < stop && !late(i) && deliveries[i] == c)
    && handled == Pick(deliveries, stop, Not(late))
    && ((forall i: nat :: i < stop ==> !late(i)) ==> handled == deliveries[..stop])
    && |left| == (if limit < |deliveries| - stop then |deliveries| - stop - limit else 0)
    && left == deliveries[|deliveries| - |left|..]
    && dropped == Pick(deliveries, stop, late) + deliveries[stop..|deliveries| - |left|]
    && Split(deliveries, handled, dropped, left)
  }

  lemma HandledExactly(deliveries: seq<nat>, stop: nat, late: nat -> bool)
    requires stop <= |deliveries|
    ensures var handled := Pick(deliveries, stop, Not(late));
      && (forall c :: c in handled <==> exists i: nat :: i < stop && !late(i) && deliveries[i] == c)
      && ((forall i: nat :: i < stop ==> !late(i)) ==> handled == deliveries[..stop])
  {
    assert forall i: nat :: Not(late)(i) <==> !late(i);
    forall c
      ensures c in Pick(deliveries, stop, Not(late)) <==> exists i: nat :: i < stop && !late(i) && deliveries[i] == c
    {
      PickExactly(deliveries, stop, Not(late), c);
    }
    PickExactly(deliveries, stop, Not(late), 0);
  }

  lemma LoopSorts(deliveries: seq<nat>, stop: nat, late: nat -> bool, limit: nat, handled: seq<nat>,
                  already: seq<nat>, dropped: seq<nat>, left: seq<nat>)
    requires stop <= |deliveries| && InTurn(deliveries, stop, late, handled, already)
    requires var rest := deliveries[stop..];
      && |left| == (if limit < |rest| then |rest| - limit else 0)
      && left == rest[|rest| - |left|..] && dropped == already + rest[..|rest| - |left|]
    requires Split(deliveries, handled, dropped, left)
    ensures Sorts(deliveries, stop, late, limit, handled, dropped, left)
  {
    HandledExactly(deliveries, stop, late);
  }

  /** The loop settles nothing: what it handed out is with a live handler, what it
      dropped with nobody and unacked, the rest still in the channel and unacked. */
  ghost predicate Unsettled(s: Sys, r: Sys, handled: seq<nat>, dropped: seq<nat>, left: seq<nat>) {
    && r.ready == s.ready && r.unacked == s.unacked && r.acked == s.acked && r.dead == s.dead
    && (forall c <- handled :: Held(r, c))
    && (forall c <- dropped :: c in r.unacked && c !in r.buffered && !Held(r, c))
    && Lists(left, r.buffered) && r.buffered <= r.unacked
  }

  lemma ReachedIsRun(s: Sys, w: Wiring, t: Trace, r: Sys,
                     deliveries: seq<nat>, handled: seq<nat>, dropped: seq<nat>, left: seq<nat>)
    requires Reached(s, w, t, r, deliveries, handled, dropped, left)
    ensures Unsettled(s, Run(s, w, t.actions), handled, dropped, left)
  {
    TraceIsRun(s, w, t, r);
  }

  /** When the connection goes, whatever the loop left unsettled is ready again. */
  lemma RedeliveredAfterLoss(s: Sys, r: Sys, w: Wiring, handled: seq<nat>, dropped: seq<nat>, left: seq<nat>, c: nat)
    requires Taken(s, r, handled, dropped, left) && (c in handled || c in dropped || c in left)
    ensures c in Apply(r, w, ConnectionLost).ready && c in Apply(r, w, Crash).ready
    ensures !Held(Apply(r, w, ConnectionLost), c) && Apply(r, w, Crash).handlers == map[]
  {
    if c in handled {
      var h :| h in r.handlers && r.handlers[h].live && r.handlers[h].copy == c;
    }
  }

  /** `runConsumerLoop`. It hands the deliveries before the signal to handlers, all
      but those whose goroutine sees the signal too, and none after it. Whenever
      signal and deadline come, every prefetched message is with a handler, or with
      nobody and unacked, or still in the channel and unacked; the loop settles
      none, and what it did is a run of the pipeline. */
  method RunConsumerLoop(deliveries: seq<nat>, signalled: nat -> bool, late: nat -> bool, limit: nat,
                         ghost s: Sys, ghost w: Wiring)
    returns (handled: seq<nat>, dropped: seq<nat>, left: seq<nat>, stop: nat, ghost actions: seq<Action>)
    requires Books(s) && Lists(deliveries, s.buffered)
    ensures stop <= |deliveries| && (forall i: nat :: i < stop ==> !signalled(i))
    ensures stop < |deliveries| ==> signalled(stop)
    ensures Sorts(deliveries, stop, late, limit, handled, dropped, left)
    ensures Unsettled(s, Run(s, w, actions), handled, dropped, left)
  {
    ghost var began, at;
    var early;
    handled, early, stop, began, at := DispatchUntilSignal(deliveries, signalled, late, s, w);
    ghost var t, r;
    dropped, left, t, r := DrainDeliveriesUnacked(deliveries[stop..], limit, deliveries, handled,
                                                  early, s, w, began, at);
    LoopSorts(deliveries, stop, late, limit, handled, early, dropped, left);
    ReachedIsRun(s, w, t, r, deliveries, handled, dropped, left);
    actions := t.actions;
  }

  /** Without a signal, and so without late goroutines, every delivery is handled. */
  lemma AllHandled(deliveries: seq<nat>, stop: nat, late: nat -> bool, limit: nat,
                   handled: seq<nat>, dropped: seq<nat>, left: seq<nat>)
    requires Sorts(deliveries, stop, late, limit, handled, dropped, left)
    requires stop == |deliveries| && forall i: nat :: !late(i)
    ensures handled == deliveries && dropped == [] && left == []
  {
    PickExactly(deliveries, stop, late, 0);
  }
}
