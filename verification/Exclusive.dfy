/** What the worker's verdict says about the delivery rows: when no two handlers
    work on the same event at the same time, and when nothing is known of that. */
module Exclusive {
  import opened Domain
  import opened Pipeline
  import Conservation
  import Delivery
  import RowSoundness
  import Worker

  /** At most one handler per event. */
  ghost predicate OnePerEvent(s: Sys) {
    forall h, k :: Handles(s, h) && Handles(s, k) && EventOf(s, h).eventId == EventOf(s, k).eventId ==> h == k
  }

  ghost predicate AlwaysOne(s: Sys, w: Wiring, actions: seq<Action>) {
    forall k: nat :: k <= |actions| ==> OnePerEvent(Run(s, w, actions[..k]))
  }

  /** Every program and its row say the same. */
  ghost predicate Matched(s: Sys, w: Wiring) {
    forall h, x :: Targets(s, h, x) ==>
      Delivery.Matches(PcOf(s, h, x), Delivery.RowOf(s.rows, KeyOf(s, h, x)), w.cfg)
  }

  lemma RestStaysMatched(s: Sys, r: Sys, w: Wiring)
    requires Matched(s, w) && ProgramsRest(s, r)
    ensures Matched(r, w)
  {
    forall h, x | Targets(r, h, x)
      ensures Delivery.Matches(PcOf(r, h, x), Delivery.RowOf(r.rows, KeyOf(r, h, x)), w.cfg)
    {
      if PcOf(r, h, x) != Delivery.Ready {
        assert Targets(s, h, x) && KeyOf(r, h, x) == KeyOf(s, h, x);
      }
    }
  }

  lemma MoveStaysMatched(s: Sys, r: Sys, w: Wiring, h: Uuid, a: Uuid, pc: Delivery.Pc, row: Delivery.Row)
    requires Matched(s, w) && OnePerEvent(s) && Targets(s, h, a) && OneProgramMoves(s, r, h, a, pc, row)
    requires Delivery.Matches(pc, row, w.cfg)
    ensures Matched(r, w)
  {
    forall k, x | Targets(r, k, x)
      ensures Delivery.Matches(PcOf(r, k, x), Delivery.RowOf(r.rows, KeyOf(r, k, x)), w.cfg)
    {
      assert Targets(s, k, x) && KeyOf(r, k, x) == KeyOf(s, k, x);
    }
  }

  /** A terminal row is absorbing: the one program on it does nothing to it. */
  ghost predicate TerminalStays(s: Sys, r: Sys, key: Delivery.Key) {
    var row := Delivery.RowOf(s.rows, key);
    Delivery.Terminal(row) ==> Delivery.RowOf(r.rows, key) == row
  }

  lemma ProgramMatches(pc: Delivery.Pc, row: Delivery.Row, env: Delivery.Env, cfg: Delivery.Config)
    requires Delivery.Matches(pc, row, cfg)
    ensures var (pc', row') := Delivery.Step(pc, row, env, cfg);
      Delivery.Matches(pc', row', cfg) && (Delivery.Terminal(row) ==> row' == row)
  {
    Delivery.AdvanceFacts(Delivery.Progress(pc, row, []), env, cfg);
  }

  lemma ActStaysMatched(s: Sys, w: Wiring, a: Action, key: Delivery.Key)
    requires Conservation.Books(s) && Matched(s, w) && OnePerEvent(s)
    ensures Matched(Act(s, w, a), w) && TerminalStays(s, Act(s, w, a), key)
  {
    if a.Target? && Targets(s, a.handler, a.app) {
      var (pc, row) := Moved(s, w, a.handler, a.app, a.env, a.fate);
      TargetMoves(s, w, a.handler, a.app, a.env, a.fate);
      ProgramMatches(PcOf(s, a.handler, a.app), Delivery.RowOf(s.rows, KeyOf(s, a.handler, a.app)),
                     a.env.(accepted := Post(s, w, a.handler, a.app, a.fate).1), w.cfg);
      MoveStaysMatched(s, TargetStep(s, w, a.handler, a.app, a.env, a.fate), w, a.handler, a.app, pc, row);
    } else if !a.Target? {
      OthersRest(s, w, a);
      RestStaysMatched(s, Act(s, w, a), w);
    }
  }

  lemma StepStaysMatched(s: Sys, w: Wiring, a: Action, key: Delivery.Key)
    requires Conservation.Books(s) && Matched(s, w) && OnePerEvent(s)
    ensures Matched(Apply(s, w, a), w) && TerminalStays(s, Apply(s, w, a), key)
  {
    ActStaysMatched(s, w, a, key);
    var r, r' := Act(s, w, a), Apply(s, w, a);
    forall h, x | Targets(r', h, x)
      ensures Delivery.Matches(PcOf(r', h, x), Delivery.RowOf(r'.rows, KeyOf(r', h, x)), w.cfg)
    {
      assert Targets(r, h, x) && KeyOf(r', h, x) == KeyOf(r, h, x);
    }
  }

  lemma AlwaysOnePrefix(s: Sys, w: Wiring, actions: seq<Action>)
    requires |actions| > 0 && AlwaysOne(s, w, actions)
    ensures AlwaysOne(s, w, actions[..|actions| - 1]) && OnePerEvent(Run(s, w, actions[..|actions| - 1]))
  {
    var before := actions[..|actions| - 1];
    forall k: nat | k <= |before| ensures OnePerEvent(Run(s, w, before[..k])) {
      assert before[..k] == actions[..k];
    }
  }

  lemma {:induction false} RunStaysMatched(s: Sys, w: Wiring, actions: seq<Action>)
    requires Init(s) && AlwaysOne(s, w, actions)
    ensures Matched(Run(s, w, actions), w)
  {
    if |actions| > 0 {
      var before := actions[..|actions| - 1];
      AlwaysOnePrefix(s, w, actions);
      RunStaysMatched(s, w, before);
      Conservation.RunKeepsBooks(s, w, before);
      StepStaysMatched(Run(s, w, before), w, actions[|actions| - 1], (0, 0));
    }
  }

  /** Terminal rows are absorbing. */
  lemma {:induction false} TerminalIsFinal(s: Sys, w: Wiring, actions: seq<Action>, k: nat, key: Delivery.Key)
    requires Init(s) && AlwaysOne(s, w, actions) && k <= |actions|
    requires Delivery.Terminal(Delivery.RowOf(Run(s, w, actions[..k]).rows, key))
    ensures Delivery.RowOf(Run(s, w, actions).rows, key) == Delivery.RowOf(Run(s, w, actions[..k]).rows, key)
    decreases |actions|
  {
    if k == |actions| {
      assert actions[..k] == actions;
    } else {
      var before := actions[..|actions| - 1];
      AlwaysOnePrefix(s, w, actions);
      assert before[..k] == actions[..k];
      TerminalIsFinal(s, w, before, k, key);
      RunStaysMatched(s, w, before);
      Conservation.RunKeepsBooks(s, w, before);
      StepStaysMatched(Run(s, w, before), w, actions[|actions| - 1], key);
    }
  }

  // ----- the verdict -----

  lemma ResultsAre(pcs: map<Uuid, Delivery.Pc>, arrival: seq<Uuid>, result: Delivery.Result)
    requires Lists(arrival, pcs.Keys) && forall a <- pcs :: pcs[a].Done?
    ensures result in Results(pcs, arrival) <==> exists a <- pcs :: pcs[a] == Delivery.Done(result)
  {
    var r := Results(pcs, arrival);
    forall i | 0 <= i < |arrival| ensures r[i] == pcs[arrival[i]].result && arrival[i] in pcs {
      assert arrival[i] in arrival;
    }
    if a :| a in pcs && pcs[a] == Delivery.Done(result) {
      assert a in pcs.Keys;
      var i :| 0 <= i < |arrival| && arrival[i] == a;
      assert r[i] in r;
    }
  }

  /** The goroutines' results may arrive in any order. */
  lemma VerdictIgnoresArrival(s: Sys, h: Uuid, arrival: seq<Uuid>, other: seq<Uuid>)
    requires CanSettle(s, h, arrival) && CanSettle(s, h, other)
    ensures Verdict(s, h, arrival) == Verdict(s, h, other)
  {
    if s.handlers[h].stage.Delivering? {
      var pcs := s.handlers[h].stage.pcs;
      ResultsAre(pcs, arrival, Delivery.Errored);
      ResultsAre(pcs, other, Delivery.Errored);
      ResultsAre(pcs, arrival, Delivery.Exhausted);
      ResultsAre(pcs, other, Delivery.Exhausted);
    }
  }

  ghost predicate Has(s: Sys, h: Uuid, x: Uuid, status: Delivery.Status) {
    Targets(s, h, x) && Delivery.RowOf(s.rows, KeyOf(s, h, x)).status == status
  }

  ghost predicate Reports(s: Sys, h: Uuid, x: Uuid, result: Delivery.Result) {
    Targets(s, h, x) && PcOf(s, h, x) == Delivery.Done(result)
  }

  /** The verdict, in terms of what the programs report. */
  lemma VerdictOfReports(s: Sys, h: Uuid, arrival: seq<Uuid>)
    requires Handles(s, h) && s.handlers[h].stage.Delivering? && CanSettle(s, h, arrival)
    ensures var verdict := Verdict(s, h, arrival);
      && (verdict == Worker.Requeue <==> exists x :: Reports(s, h, x, Delivery.Errored))
      && (verdict == Worker.DeadLetter <==>
            (forall x :: !Reports(s, h, x, Delivery.Errored)) && exists x :: Reports(s, h, x, Delivery.Exhausted))
      && (verdict == Worker.Ack <==> forall x :: Targets(s, h, x) ==> Reports(s, h, x, Delivery.Ok))
  {
    var pcs := s.handlers[h].stage.pcs;
    ResultsAre(pcs, arrival, Delivery.Errored);
    ResultsAre(pcs, arrival, Delivery.Exhausted);
    assert forall x, result :: Reports(s, h, x, result) <==> x in pcs && pcs[x] == Delivery.Done(result);
    forall x | Targets(s, h, x)
      ensures exists result :: Reports(s, h, x, result)
    {
      assert Reports(s, h, x, pcs[x].result);
    }
  }

  /** Without targets: a malformed or rejected event is dead-lettered, one whose
      resolution failed goes back to the queue. */
  lemma VerdictWithoutTargets(s: Sys, w: Wiring, h: Uuid, plan: Worker.Plan, dbFails: bool, arrival: seq<Uuid>)
    requires Handles(s, h) && s.handlers[h].stage.Received?
    ensures var r := ResolveStep(s, w, h, plan, dbFails);
      && (!Worker.ValidPayload(EventOf(s, h)) ==>
            CanSettle(r, h, arrival) && Verdict(r, h, arrival) == Worker.DeadLetter)
      && (Worker.ValidPayload(EventOf(s, h)) && !plan.Deliver?
          && Worker.Planned(plan, EventOf(s, h), s.server.apps, Holdings(s), w.configured, dbFails) ==>
            CanSettle(r, h, arrival)
            && Verdict(r, h, arrival) == if dbFails || plan == Worker.Retry then Worker.Requeue else Worker.DeadLetter)
  {
  }

  /** The verdict of a handler and the rows of its targets: requeue if and only if
      some program reports no outcome; otherwise every row is terminal, and the
      verdict is dead-letter if one is failed and ACK if all are succeeded. */
  ghost predicate Justified(s: Sys, h: Uuid, verdict: Worker.Settlement) {
    && (verdict == Worker.Requeue <==> exists x :: Reports(s, h, x, Delivery.Errored))
    && (verdict != Worker.Requeue ==>
          && (forall x :: Targets(s, h, x) ==> Has(s, h, x, Delivery.Succeeded) || Has(s, h, x, Delivery.Failed))
          && (verdict == Worker.DeadLetter <==> exists x :: Has(s, h, x, Delivery.Failed))
          && (verdict == Worker.Ack <==> forall x :: Targets(s, h, x) ==> Has(s, h, x, Delivery.Succeeded)))
  }

  /** What a finished program reported is what its row says. */
  ghost predicate ReportStands(s: Sys, h: Uuid, x: Uuid)
    requires Targets(s, h, x)
  {
    && (PcOf(s, h, x) == Delivery.Done(Delivery.Ok) ==> Has(s, h, x, Delivery.Succeeded))
    && (PcOf(s, h, x) == Delivery.Done(Delivery.Exhausted) ==> Has(s, h, x, Delivery.Failed))
  }

  lemma VerdictNow(s: Sys, h: Uuid, arrival: seq<Uuid>)
    requires forall x :: Targets(s, h, x) ==> ReportStands(s, h, x)
    requires Handles(s, h) && s.handlers[h].stage.Delivering? && CanSettle(s, h, arrival)
    ensures Justified(s, h, Verdict(s, h, arrival))
  {
    VerdictOfReports(s, h, arrival);
    var verdict := Verdict(s, h, arrival);
    if verdict != Worker.Requeue {
      forall x | Targets(s, h, x)
        ensures Has(s, h, x, Delivery.Succeeded) || Has(s, h, x, Delivery.Failed)
        ensures Has(s, h, x, Delivery.Failed) <==> Reports(s, h, x, Delivery.Exhausted)
        ensures Has(s, h, x, Delivery.Succeeded) <==> Reports(s, h, x, Delivery.Ok)
      {
        assert ReportStands(s, h, x) && !Reports(s, h, x, Delivery.Errored);
        assert s.handlers[h].stage.pcs[x].Done?;
      }
    }
  }

  lemma MatchedStands(s: Sys, w: Wiring, h: Uuid)
    requires Matched(s, w)
    ensures forall x :: Targets(s, h, x) ==> ReportStands(s, h, x)
  {
    forall x | Targets(s, h, x) ensures ReportStands(s, h, x) {
      assert Delivery.Matches(PcOf(s, h, x), Delivery.RowOf(s.rows, KeyOf(s, h, x)), w.cfg);
    }
  }

  /** With one handler per event throughout the run the verdict says what the rows
      say, unless some program had no outcome to report. */
  lemma VerdictIsDurable(s: Sys, w: Wiring, actions: seq<Action>, h: Uuid, arrival: seq<Uuid>)
    requires Init(s) && AlwaysOne(s, w, actions)
    requires var r := Run(s, w, actions); CanSettle(r, h, arrival) && r.handlers[h].stage.Delivering?
    ensures var r := Run(s, w, actions); Justified(r, h, Verdict(r, h, arrival))
  {
    RunStaysMatched(s, w, actions);
    Conservation.RunKeepsBooks(s, w, actions);
    MatchedStands(Run(s, w, actions), w, h);
    VerdictNow(Run(s, w, actions), h, arrival);
  }

  // ----- any number of handlers -----

  /** Every report about `key` stands. */
  ghost predicate AllStand(s: Sys, key: Delivery.Key) {
    forall h, x :: Targets(s, h, x) && KeyOf(s, h, x) == key ==> ReportStands(s, h, x)
  }

  lemma RestStands(s: Sys, r: Sys, key: Delivery.Key)
    requires AllStand(s, key) && ProgramsRest(s, r)
    ensures AllStand(r, key)
  {
    forall h, x | Targets(r, h, x) && KeyOf(r, h, x) == key ensures ReportStands(r, h, x) {
      if PcOf(r, h, x) != Delivery.Ready {
        assert Targets(s, h, x) && KeyOf(r, h, x) == KeyOf(s, h, x);
        assert ReportStands(s, h, x);
      }
    }
  }

  lemma MoveStands(s: Sys, r: Sys, h: Uuid, a: Uuid, pc: Delivery.Pc, row: Delivery.Row, key: Delivery.Key)
    requires AllStand(s, key) && Targets(s, h, a) && OneProgramMoves(s, r, h, a, pc, row)
    requires var before := Delivery.RowOf(s.rows, KeyOf(s, h, a));
      KeyOf(s, h, a) == key && Delivery.Terminal(before) ==> row.status == before.status
    requires KeyOf(s, h, a) == key ==>
      && (pc == Delivery.Done(Delivery.Ok) ==> row.status == Delivery.Succeeded)
      && (pc == Delivery.Done(Delivery.Exhausted) ==> row.status == Delivery.Failed)
    ensures AllStand(r, key)
  {
    forall k, x | Targets(r, k, x) && KeyOf(r, k, x) == key ensures ReportStands(r, k, x) {
      assert Targets(s, k, x) && KeyOf(r, k, x) == KeyOf(s, k, x);
      assert ReportStands(s, k, x);
    }
  }

  /** A report is true when it is made. */
  lemma ReportIsTrue(pc: Delivery.Pc, row: Delivery.Row, env: Delivery.Env, cfg: Delivery.Config)
    ensures var (pc', row') := Delivery.Step(pc, row, env, cfg);
      && (pc' == Delivery.Done(Delivery.Ok) && pc != pc' ==> row'.status == Delivery.Succeeded)
      && (pc' == Delivery.Done(Delivery.Exhausted) && pc != pc' ==> row'.status == Delivery.Failed)
      && (pc.Done? ==> pc' == pc && row' == row)
  {
  }

  lemma TargetStands(s: Sys, w: Wiring, a: Action, key: Delivery.Key)
    requires Conservation.Books(s) && AllStand(s, key) && !RowSoundness.Overturns(s, w, a, key)
    requires a.Target? && Targets(s, a.handler, a.app)
    ensures AllStand(Act(s, w, a), key)
  {
    var h, x := a.handler, a.app;
    var (pc, row) := Moved(s, w, h, x, a.env, a.fate);
    TargetMoves(s, w, h, x, a.env, a.fate);
    ReportIsTrue(PcOf(s, h, x), Delivery.RowOf(s.rows, KeyOf(s, h, x)),
                 a.env.(accepted := Post(s, w, h, x, a.fate).1), w.cfg);
    if KeyOf(s, h, x) == key {
      assert ReportStands(s, h, x);
      if Delivery.Terminal(Delivery.RowOf(s.rows, key)) {
        RowSoundness.StepOverturns(s, w, a, key);
      }
    }
    MoveStands(s, TargetStep(s, w, h, x, a.env, a.fate), h, x, pc, row, key);
  }

  lemma StepStands(s: Sys, w: Wiring, a: Action, key: Delivery.Key)
    requires Conservation.Books(s) && AllStand(s, key) && !RowSoundness.Overturns(s, w, a, key)
    ensures AllStand(Apply(s, w, a), key)
  {
    var r, r' := Act(s, w, a), Apply(s, w, a);
    if a.Target? && Targets(s, a.handler, a.app) {
      TargetStands(s, w, a, key);
    } else if !a.Target? {
      OthersRest(s, w, a);
      RestStands(s, r, key);
    }
    forall h, x | Targets(r', h, x) && KeyOf(r', h, x) == key ensures ReportStands(r', h, x) {
      assert Targets(r, h, x) && KeyOf(r, h, x) == key;
      assert ReportStands(r, h, x);
    }
  }

  /** No step of the run overturns the row. */
  ghost predicate NeverOverturned(s: Sys, w: Wiring, actions: seq<Action>, key: Delivery.Key) {
    forall k: nat :: k < |actions| ==> !RowSoundness.OverturnsAt(s, w, actions, k, key)
  }

  lemma NeverOverturnedPrefix(s: Sys, w: Wiring, actions: seq<Action>, key: Delivery.Key)
    requires |actions| > 0 && NeverOverturned(s, w, actions, key)
    ensures NeverOverturned(s, w, actions[..|actions| - 1], key)
    ensures !RowSoundness.Overturns(Run(s, w, actions[..|actions| - 1]), w, actions[|actions| - 1], key)
  {
    var n: nat := |actions| - 1;
    assert !RowSoundness.OverturnsAt(s, w, actions, n, key);
    forall k: nat | k < n ensures !RowSoundness.OverturnsAt(s, w, actions[..n], k, key) {
      assert actions[..n][..k] == actions[..k];
      assert !RowSoundness.OverturnsAt(s, w, actions, k, key);
    }
  }

  lemma {:induction false} RunStands(s: Sys, w: Wiring, actions: seq<Action>, key: Delivery.Key)
    requires Init(s) && NeverOverturned(s, w, actions, key)
    ensures AllStand(Run(s, w, actions), key)
  {
    if |actions| > 0 {
      var before := actions[..|actions| - 1];
      NeverOverturnedPrefix(s, w, actions, key);
      RunStands(s, w, before, key);
      Conservation.RunKeepsBooks(s, w, before);
      StepStands(Run(s, w, before), w, actions[|actions| - 1], key);
    }
  }

  /** With any number of handlers for the same events the verdict of a handler
      still agrees with the rows, unless some handler has recorded the outcome of
      an open attempt over the other, terminal outcome of one of them. */
  lemma VerdictUnlessOverturned(s: Sys, w: Wiring, actions: seq<Action>, h: Uuid, arrival: seq<Uuid>)
    requires Init(s)
    requires var r := Run(s, w, actions); CanSettle(r, h, arrival) && r.handlers[h].stage.Delivering?
    requires var r := Run(s, w, actions);
      forall x :: Targets(r, h, x) ==> NeverOverturned(s, w, actions, KeyOf(r, h, x))
    ensures var r := Run(s, w, actions); Justified(r, h, Verdict(r, h, arrival))
  {
    Conservation.RunKeepsBooks(s, w, actions);
    var r := Run(s, w, actions);
    forall x | Targets(r, h, x) ensures ReportStands(r, h, x) {
      RunStands(s, w, actions, KeyOf(r, h, x));
    }
    VerdictNow(r, h, arrival);
  }
}
