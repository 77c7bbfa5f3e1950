/** The delivery rows under arbitrary interleaving of any number of handlers,
    several of them perhaps for the same event. */
module RowSoundness {
  import opened Domain
  import opened Pipeline
  import AuthServer
  import Conservation
  import Delivery

  type Ticket = (Delivery.Key, nat)

  /** Handler `h` is about to send the POST numbered `t.1` for `t.0`. */
  ghost predicate Holds(s: Sys, h: Uuid, a: Uuid, t: Ticket) {
    Targets(s, h, a) && KeyOf(s, h, a) == t.0 && PcOf(s, h, a) == Delivery.Posting(t.1)
  }

  ghost predicate Issued(s: Sys, t: Ticket) {
    t.1 <= Delivery.RowOf(s.rows, t.0).attempts
  }

  /** Every attempt number was issued by the row it belongs to, to one handler,
      and is used for at most one POST. */
  ghost predicate Numbered(s: Sys) {
    && (forall i, j :: 0 <= i < j < |s.posts| ==> s.posts[i] != s.posts[j])
    && (forall t <- s.posts :: Issued(s, t))
    && (forall h, a, t :: Holds(s, h, a, t) ==> Issued(s, t) && t !in s.posts)
    && (forall h, k, a, t :: Holds(s, h, a, t) && Holds(s, k, a, t) ==> h == k)
  }

  lemma RestStaysNumbered(s: Sys, r: Sys)
    requires Numbered(s) && ProgramsRest(s, r)
    ensures Numbered(r)
  {
    forall h, a, t | Holds(r, h, a, t) ensures Holds(s, h, a, t) {
    }
  }

  lemma MovedHolds(s: Sys, r: Sys, h: Uuid, a: Uuid, pc: Delivery.Pc, row: Delivery.Row, k: Uuid, b: Uuid, t: Ticket)
    requires Targets(s, h, a) && OneProgramMoves(s, r, h, a, pc, row) && Holds(r, k, b, t)
    ensures if k == h && b == a then pc == Delivery.Posting(t.1) && t.0 == KeyOf(s, h, a) else Holds(s, k, b, t)
  {
  }

  lemma MoveStaysNumbered(s: Sys, r: Sys, h: Uuid, a: Uuid, pc: Delivery.Pc, row: Delivery.Row)
    requires Numbered(s) && Targets(s, h, a) && OneProgramMoves(s, r, h, a, pc, row)
    requires Delivery.RowOf(s.rows, KeyOf(s, h, a)).attempts <= row.attempts
    requires pc.Posting? ==> PcOf(s, h, a) == Delivery.Ready
    requires pc.Posting? ==> pc.attempt == Delivery.RowOf(s.rows, KeyOf(s, h, a)).attempts + 1 == row.attempts
    ensures Numbered(r)
  {
    var key := KeyOf(s, h, a);
    if PcOf(s, h, a).Posting? {
      assert Holds(s, h, a, (key, PcOf(s, h, a).attempt));
    }
    forall t | t in r.posts ensures Issued(r, t) {
      assert t in s.posts || Holds(s, h, a, t);
    }
    forall k, b, t | Holds(r, k, b, t) ensures Issued(r, t) && t !in r.posts {
      MovedHolds(s, r, h, a, pc, row, k, b, t);
    }
    forall j, k, b, t | Holds(r, j, b, t) && Holds(r, k, b, t) ensures j == k {
      MovedHolds(s, r, h, a, pc, row, j, b, t);
      MovedHolds(s, r, h, a, pc, row, k, b, t);
    }
  }

  lemma ActStaysNumbered(s: Sys, w: Wiring, a: Action)
    requires Conservation.Books(s) && Numbered(s)
    ensures Numbered(Act(s, w, a))
    ensures forall key :: Delivery.RowOf(s.rows, key).attempts <= Delivery.RowOf(Act(s, w, a).rows, key).attempts
  {
    if a.Target? && Targets(s, a.handler, a.app) {
      var (pc, row) := Moved(s, w, a.handler, a.app, a.env, a.fate);
      TargetMoves(s, w, a.handler, a.app, a.env, a.fate);
      Delivery.StepFacts(PcOf(s, a.handler, a.app), Delivery.RowOf(s.rows, KeyOf(s, a.handler, a.app)),
                         a.env.(accepted := Post(s, w, a.handler, a.app, a.fate).1), w.cfg);
      MoveStaysNumbered(s, TargetStep(s, w, a.handler, a.app, a.env, a.fate), a.handler, a.app, pc, row);
    } else if !a.Target? {
      OthersRest(s, w, a);
      RestStaysNumbered(s, Act(s, w, a));
    }
  }

  lemma StepStaysNumbered(s: Sys, w: Wiring, a: Action)
    requires Conservation.Books(s) && Numbered(s)
    ensures Numbered(Apply(s, w, a))
    ensures forall key :: Delivery.RowOf(s.rows, key).attempts <= Delivery.RowOf(Apply(s, w, a).rows, key).attempts
  {
    ActStaysNumbered(s, w, a);
    var r := Act(s, w, a);
    var r' := Apply(s, w, a);
    assert forall h, k, t :: Holds(r', h, k, t) <==> Holds(r, h, k, t);
    assert forall t :: Issued(r', t) <==> Issued(r, t);
  }

  lemma {:induction false} RunStaysNumbered(s: Sys, w: Wiring, actions: seq<Action>)
    requires Init(s)
    ensures Numbered(Run(s, w, actions))
  {
    if |actions| > 0 {
      RunStaysNumbered(s, w, actions[..|actions| - 1]);
      Conservation.RunKeepsBooks(s, w, actions[..|actions| - 1]);
      StepStaysNumbered(Run(s, w, actions[..|actions| - 1]), w, actions[|actions| - 1]);
    }
  }

  /** Every POST carries an attempt number that no other POST for that event and
      application carries, and the row has counted it. */
  lemma PostsAreNumbered(s: Sys, w: Wiring, actions: seq<Action>)
    requires Init(s)
    ensures var r := Run(s, w, actions);
      && (forall i, j :: 0 <= i < j < |r.posts| ==> r.posts[i] != r.posts[j])
      && (forall p <- r.posts :: p.1 <= Delivery.RowOf(r.rows, p.0).attempts)
  {
    RunStaysNumbered(s, w, actions);
    forall p | p in Run(s, w, actions).posts ensures p.1 <= Delivery.RowOf(Run(s, w, actions).rows, p.0).attempts {
      assert Issued(Run(s, w, actions), p);
    }
  }

  /** `attempt_count` never goes down. */
  lemma {:induction false} AttemptsOnlyGrow(s: Sys, w: Wiring, actions: seq<Action>, k: nat, key: Delivery.Key)
    requires Init(s) && k <= |actions|
    ensures Delivery.RowOf(Run(s, w, actions[..k]).rows, key).attempts
      <= Delivery.RowOf(Run(s, w, actions).rows, key).attempts
    decreases |actions|
  {
    if k == |actions| {
      assert actions[..k] == actions;
    } else {
      var before := actions[..|actions| - 1];
      AttemptsOnlyGrow(s, w, before, k, key);
      assert before[..k] == actions[..k];
      Conservation.RunKeepsBooks(s, w, before);
      RunStaysNumbered(s, w, before);
      StepStaysNumbered(Run(s, w, before), w, actions[|actions| - 1]);
    }
  }

  // ----- the cap -----

  function Attempts(s: Sys, key: Delivery.Key): nat {
    Delivery.RowOf(s.rows, key).attempts
  }

  /** A handler opens an attempt for `key` although the row, not terminal, has
      none left. */
  predicate OpensPastCap(s: Sys, w: Wiring, a: Action, key: Delivery.Key) {
    && a.Target? && Targets(s, a.handler, a.app) && KeyOf(s, a.handler, a.app) == key
    && PcOf(s, a.handler, a.app) == Delivery.Ready
    && !Delivery.Terminal(Delivery.RowOf(s.rows, key)) && Attempts(s, key) >= Delivery.MaxAttempts(w.cfg)
    && (!a.env.storeFails || a.env.committed)
  }

  lemma StepPassesCap(s: Sys, w: Wiring, a: Action, key: Delivery.Key)
    requires CopiesKnown(s)
    ensures var cap := Delivery.MaxAttempts(w.cfg);
      Attempts(Act(s, w, a), key) > cap <==> Attempts(s, key) > cap || OpensPastCap(s, w, a, key)
  {
    if a.Target? && Targets(s, a.handler, a.app) {
      TargetMoves(s, w, a.handler, a.app, a.env, a.fate);
    } else if !a.Target? {
      OthersRest(s, w, a);
    }
  }

  ghost predicate OpensPastCapAt(s: Sys, w: Wiring, actions: seq<Action>, k: nat, key: Delivery.Key)
    requires k < |actions|
  {
    OpensPastCap(Run(s, w, actions[..k]), w, actions[k], key)
  }

  ghost predicate OncePastCap(s: Sys, w: Wiring, actions: seq<Action>, key: Delivery.Key) {
    exists k: nat :: k < |actions| && OpensPastCapAt(s, w, actions, k, key)
  }

  lemma OncePastCapStep(s: Sys, w: Wiring, before: seq<Action>, a: Action, key: Delivery.Key)
    ensures OncePastCap(s, w, before + [a], key)
       <==> OncePastCap(s, w, before, key) || OpensPastCap(Run(s, w, before), w, a, key)
  {
    var actions := before + [a];
    assert actions[..|before|] == before;
    assert OpensPastCapAt(s, w, actions, |before|, key) <==> OpensPastCap(Run(s, w, before), w, a, key);
    forall k: nat | k < |before|
      ensures OpensPastCapAt(s, w, before, k, key) <==> OpensPastCapAt(s, w, actions, k, key) {
      assert before[..k] == actions[..k];
    }
  }

  /** With any number of handlers, duplicates and interruptions, `attempt_count`
      is past the cap if and only if at some point a handler opened an attempt on
      a row that was not terminal and had none left. */
  lemma {:induction false} CapPassedIff(s: Sys, w: Wiring, actions: seq<Action>, key: Delivery.Key)
    requires Init(s)
    ensures Attempts(Run(s, w, actions), key) > Delivery.MaxAttempts(w.cfg) <==> OncePastCap(s, w, actions, key)
  {
    if |actions| > 0 {
      var n := |actions| - 1;
      var before := actions[..n];
      CapPassedIff(s, w, before, key);
      Conservation.RunKeepsBooks(s, w, before);
      StepPassesCap(Run(s, w, before), w, actions[n], key);
      OncePastCapStep(s, w, before, actions[n], key);
      assert actions == before + [actions[n]];
    }
  }

  // ----- terminal rows -----

  function StatusOf(s: Sys, key: Delivery.Key): Delivery.Status {
    Delivery.RowOf(s.rows, key).status
  }

  /** A handler records the outcome of an open attempt for `key` although the row
      already says another, terminal one. */
  predicate Overturns(s: Sys, w: Wiring, a: Action, key: Delivery.Key) {
    && a.Target? && Targets(s, a.handler, a.app) && KeyOf(s, a.handler, a.app) == key
    && (!a.env.storeFails || a.env.committed)
    && var pc := PcOf(s, a.handler, a.app);
       || (pc.Answered? && StatusOf(s, key) == Delivery.Failed)
       || (pc.Refused? && !a.env.cancelled
           && (StatusOf(s, key) == Delivery.Succeeded
               || (StatusOf(s, key) == Delivery.Failed && pc.attempt < Delivery.MaxAttempts(w.cfg))))
  }

  lemma StepOverturns(s: Sys, w: Wiring, a: Action, key: Delivery.Key)
    requires CopiesKnown(s) && Delivery.Terminal(Delivery.RowOf(s.rows, key))
    ensures StatusOf(Act(s, w, a), key) != StatusOf(s, key) <==> Overturns(s, w, a, key)
  {
    if a.Target? && Targets(s, a.handler, a.app) {
      TargetMoves(s, w, a.handler, a.app, a.env, a.fate);
    } else if !a.Target? {
      OthersRest(s, w, a);
    }
  }

  ghost predicate OverturnsAt(s: Sys, w: Wiring, actions: seq<Action>, k: nat, key: Delivery.Key)
    requires k < |actions|
  {
    Overturns(Run(s, w, actions[..k]), w, actions[k], key)
  }

  /** After `k` steps the row says `status`. */
  ghost predicate SaysAt(s: Sys, w: Wiring, actions: seq<Action>, k: nat, key: Delivery.Key, status: Delivery.Status)
    requires k <= |actions|
  {
    StatusOf(Run(s, w, actions[..k]), key) == status
  }

  predicate Final(status: Delivery.Status) {
    status == Delivery.Succeeded || status == Delivery.Failed
  }

  lemma {:induction false} RunKeepsBooks(s: Sys, w: Wiring, actions: seq<Action>)
    requires Conservation.Books(s)
    ensures Conservation.Books(Run(s, w, actions))
  {
    if |actions| > 0 {
      RunKeepsBooks(s, w, actions[..|actions| - 1]);
      Conservation.StepKeepsBooks(Run(s, w, actions[..|actions| - 1]), w, actions[|actions| - 1]);
    }
  }

  lemma SaysNext(s: Sys, w: Wiring, actions: seq<Action>, k: nat, key: Delivery.Key, status: Delivery.Status)
    requires Conservation.Books(s) && k < |actions| && Final(status) && SaysAt(s, w, actions, k, key, status)
    ensures SaysAt(s, w, actions, k + 1, key, status) <==> !OverturnsAt(s, w, actions, k, key)
  {
    RunKeepsBooks(s, w, actions[..k]);
    StepOverturns(Run(s, w, actions[..k]), w, actions[k], key);
    assert actions[..k + 1][..k] == actions[..k];
  }

  /** With any number of handlers, from any state the system can be in: a terminal
      row keeps its status for a whole run if and only if no handler in it records
      the different outcome of an attempt still open. */
  lemma TerminalKeptIff(s: Sys, w: Wiring, actions: seq<Action>, key: Delivery.Key, status: Delivery.Status)
    requires Conservation.Books(s) && Final(status) && StatusOf(s, key) == status
    ensures (forall k: nat :: k <= |actions| ==> SaysAt(s, w, actions, k, key, status))
       <==> (forall k: nat :: k < |actions| ==> !OverturnsAt(s, w, actions, k, key))
  {
    var n := |actions|;
    var holds := (k: nat) => k <= n && SaysAt(s, w, actions, k, key, status);
    var allowed := (k: nat) => k < n && !OverturnsAt(s, w, actions, k, key);
    assert holds(0) by {
      assert actions[..0] == [];
    }
    forall k: nat | k < n && holds(k) ensures holds(k + 1) <==> allowed(k) {
      SaysNext(s, w, actions, k, key, status);
    }
    AuthServer.Chain(holds, allowed, n);
    assert forall k: nat :: k <= n ==> (holds(k) <==> SaysAt(s, w, actions, k, key, status));
    assert forall k: nat :: k < n ==> (allowed(k) <==> !OverturnsAt(s, w, actions, k, key));
  }
}
