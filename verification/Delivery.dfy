/** The delivery of one event to one application: the durable row in
    `event_deliveries`, the program `deliverTarget` runs over it, and what a
    history of crashes and restarts can do to the row. */
module Delivery {
  import opened Domain
  import Backoff

  datatype Status = Pending | Processing | Succeeded | Retrying | Failed

  datatype Row = Row(status: Status, attempts: nat, nextRetryAt: Option<int>)

  /** (event, application) */
  type Key = (Uuid, Uuid)

  /** What BeginDelivery inserts when there is no row yet. */
  const FRESH_ROW := Row(Pending, 0, None)

  function RowOf(rows: map<Key, Row>, key: Key): Row {
    if key in rows then rows[key] else FRESH_ROW
  }

  predicate Terminal(row: Row) {
    row.status == Succeeded || row.status == Failed
  }

  /** Opens an attempt, unless the row is terminal. It does not look at the cap. */
  function Begun(row: Row): Row {
    if Terminal(row) then row else Row(Processing, row.attempts + 1, None)
  }

  // The three updates carry no guard on the status they overwrite.
  function MarkedSucceeded(row: Row): Row { row.(status := Succeeded, nextRetryAt := None) }

  function MarkedRetrying(row: Row, at: int): Row { row.(status := Retrying, nextRetryAt := Some(at)) }

  function MarkedFailed(row: Row): Row { row.(status := Failed, nextRetryAt := None) }

  datatype Config = Config(maxRetries: int, base: Backoff.Duration, max: Backoff.Duration)

  function MaxAttempts(cfg: Config): nat {
    if cfg.maxRetries > 0 then cfg.maxRetries else 1
  }

  /** Ok: durable success. Exhausted: durable failure. Errored: no durable outcome. */
  datatype Result = Ok | Exhausted | Errored

  /** Where the program of one target stands between two store or network operations. */
  datatype Pc =
    | Ready                    // about to call BeginDelivery
    | Posting(attempt: nat)    // attempt recorded, POST about to go out
    | Answered(attempt: nat)   // the application answered 2xx
    | Refused(attempt: nat)    // the POST did not bring back a 2xx
    | Sleeping                 // retry recorded, waiting
    | Done(result: Result)

  /** What the environment decides about one operation: whether the store call
      reports an error (and whether it took effect all the same), whether the
      POST brings back a 2xx, whether the work context is cancelled, the clock. */
  datatype Env = Env(storeFails: bool, committed: bool, accepted: bool, cancelled: bool, now: int)

  /** One operation of the program. */
  function Step(pc: Pc, row: Row, env: Env, cfg: Config): (Pc, Row) {
    match pc
    case Ready =>
      if env.storeFails then (Done(Errored), if env.committed then Begun(row) else row)
      else if row.status == Succeeded then (Done(Ok), row)
      else if row.status == Failed then (Done(Exhausted), row)
      else (Posting(Begun(row).attempts), Begun(row))
    case Posting(n) =>
      (if env.accepted then Answered(n) else Refused(n), row)
    case Answered(n) =>
      if env.storeFails then (Done(Errored), if env.committed then MarkedSucceeded(row) else row)
      else (Done(Ok), MarkedSucceeded(row))
    case Refused(n) =>
      if env.cancelled then (Done(Errored), row)
      else if n >= MaxAttempts(cfg) then
        if env.storeFails then (Done(Errored), if env.committed then MarkedFailed(row) else row)
        else (Done(Exhausted), MarkedFailed(row))
      else
        var marked := MarkedRetrying(row, env.now + Backoff.Scheduled(n - 1, cfg.base, cfg.max));
        if env.storeFails then (Done(Errored), if env.committed then marked else row)
        else (Sleeping, marked)
    case Sleeping =>
      (if env.cancelled then Done(Errored) else Ready, row)
    case Done(_) => (pc, row)
  }

  /** The wait the program schedules with this operation, if any. */
  function Waits(pc: Pc, env: Env, cfg: Config): seq<int> {
    if pc.Refused? && !env.cancelled && pc.attempt < MaxAttempts(cfg) && !env.storeFails
    then [Backoff.Scheduled(pc.attempt - 1, cfg.base, cfg.max)]
    else []
  }

  /** The program, its row and the waits scheduled so far, after `n` operations. */
  datatype Progress = Progress(pc: Pc, row: Row, waits: seq<int>)

  function Advance(p: Progress, env: Env, cfg: Config): Progress {
    var (pc, row) := Step(p.pc, p.row, env, cfg);
    Progress(pc, row, p.waits + Waits(p.pc, env, cfg))
  }

  function Run(row: Row, env: nat -> Env, n: nat, cfg: Config): Progress {
    if n == 0 then Progress(Ready, row, []) else Advance(Run(row, env, n - 1, cfg), env(n - 1), cfg)
  }

  /** `k` further operations, the first of them number `from`. */
  function RunOn(p: Progress, env: nat -> Env, from: nat, k: nat, cfg: Config): Progress {
    if k == 0 then p else Advance(RunOn(p, env, from, k - 1, cfg), env(from + k - 1), cfg)
  }

  lemma {:induction false} RunComposes(row: Row, env: nat -> Env, n: nat, k: nat, cfg: Config)
    ensures RunOn(Run(row, env, n, cfg), env, n, k, cfg) == Run(row, env, n + k, cfg)
  {
    if k > 0 {
      RunComposes(row, env, n, k - 1, cfg);
    }
  }

  lemma RunContinues(row: Row, env: nat -> Env, n: nat, k: nat, cfg: Config, p: Progress, q: Progress)
    requires Run(row, env, n, cfg) == p && RunOn(p, env, n, k, cfg) == q
    ensures Run(row, env, n + k, cfg) == q
  {
    RunComposes(row, env, n, k, cfg);
  }

  /** What pc and row say about each other while no other handler touches the row. */
  ghost predicate Matches(pc: Pc, row: Row, cfg: Config) {
    match pc
    case Ready => true
    case Posting(n) => row.status == Processing && row.attempts == n >= 1
    case Answered(n) => row.status == Processing && row.attempts == n >= 1
    case Refused(n) => row.status == Processing && row.attempts == n >= 1
    case Sleeping => row.status == Retrying && row.attempts < MaxAttempts(cfg)
    case Done(Ok) => row.status == Succeeded
    case Done(Exhausted) => row.status == Failed
    case Done(Errored) => true
  }

  function Max(a: int, b: int): int { if a >= b then a else b }

  /** What one operation does to a row that no other handler touches: the count
      grows only where an attempt is opened. */
  lemma AdvanceFacts(p: Progress, env: Env, cfg: Config)
    requires Matches(p.pc, p.row, cfg)
    ensures var q := Advance(p, env, cfg);
      && Matches(q.pc, q.row, cfg)
      && (if p.pc == Ready && q.row != p.row then q.row == Begun(p.row) else q.row.attempts == p.row.attempts)
      && (Terminal(p.row) && (p.pc == Ready || p.pc.Done?) ==> q.row == p.row && q.pc.Done?)
      && (q.pc == Ready ==> p.pc == Sleeping && q.row == p.row)
  {
  }

  /** One undisturbed run: a reported result is the durable one, attempts only
      grow, a terminal row is never touched, and a run that finds a usable row
      stops at the cap or at the one attempt past it. */
  lemma {:induction false} RunFacts(row: Row, env: nat -> Env, n: nat, cfg: Config)
    ensures var p := Run(row, env, n, cfg);
      && Matches(p.pc, p.row, cfg)
      && row.attempts <= p.row.attempts <= Max(row.attempts + 1, MaxAttempts(cfg))
      && (Terminal(row) ==> p.row == row && (p.pc == Ready || p.pc.Done?))
      && (p.pc == Ready ==> p.row == row || p.row.attempts < MaxAttempts(cfg))
      && (p.pc.Done? && p.pc.result != Errored ==> Terminal(p.row))
      && (p.pc == Done(Errored) ==> exists i: nat :: i < n && Disturbed(env(i)))
      && (row.status == Succeeded && n > 0 && !env(0).storeFails ==> p.pc == Done(Ok))
      && (row.status == Failed && n > 0 && !env(0).storeFails ==> p.pc == Done(Exhausted))
  {
    RunReports(row, env, n, cfg);
    if n > 0 {
      RunFacts(row, env, n - 1, cfg);
      AdvanceFacts(Run(row, env, n - 1, cfg), env(n - 1), cfg);
    }
  }

  /** The store call of the operation reports an error, or the work is cancelled. */
  predicate Disturbed(env: Env) {
    env.storeFails || env.cancelled
  }

  /** A program ends without an outcome only if something went wrong in one of its
      operations, and one that finds an outcome on record reports it. */
  lemma {:induction false} RunReports(row: Row, env: nat -> Env, n: nat, cfg: Config)
    ensures var p := Run(row, env, n, cfg);
      && (p.pc == Done(Errored) ==> exists i: nat :: i < n && Disturbed(env(i)))
      && (row.status == Succeeded && n > 0 && !env(0).storeFails ==> p.pc == Done(Ok) && p.row == row)
      && (row.status == Failed && n > 0 && !env(0).storeFails ==> p.pc == Done(Exhausted) && p.row == row)
  {
    if n > 0 {
      var k: nat := n - 1;
      RunReports(row, env, k, cfg);
      StepReports(Run(row, env, k, cfg).pc, Run(row, env, k, cfg).row, env(k), cfg);
    }
  }

  /** What one operation answers, for any row. */
  lemma StepReports(pc: Pc, row: Row, env: Env, cfg: Config)
    ensures var (pc', row') := Step(pc, row, env, cfg);
      && (pc' == Done(Errored) && pc != pc' ==> env.storeFails || env.cancelled)
      && (env.storeFails && !env.committed ==> row' == row)
      && (pc == Ready && row.status == Succeeded && !env.storeFails ==> pc' == Done(Ok) && row' == row)
      && (pc == Ready && row.status == Failed && !env.storeFails ==> pc' == Done(Exhausted) && row' == row)
      && (pc.Answered? && !env.storeFails ==> pc' == Done(Ok) && row'.status == Succeeded)
      && (pc.Refused? && env.cancelled ==> pc' == Done(Errored) && row' == row)
      && (pc.Refused? && pc.attempt > 0 && !env.cancelled && !env.storeFails ==>
            if pc.attempt < cfg.maxRetries
            then pc' == Sleeping && row'.status == Retrying
                 && row'.nextRetryAt == Some(env.now + Backoff.Scheduled(pc.attempt - 1, cfg.base, cfg.max))
            else pc' == Done(Exhausted) && row'.status == Failed && row'.nextRetryAt == None)
      && (pc.Done? ==> pc' == pc && row' == row)
      && ((row.nextRetryAt.Some? <==> row.status == Retrying) ==> (row'.nextRetryAt.Some? <==> row'.status == Retrying))
  {
  }

  lemma RunMatches(row: Row, env: nat -> Env, n: nat, cfg: Config)
    ensures Matches(Run(row, env, n, cfg).pc, Run(row, env, n, cfg).row, cfg)
  {
    RunFacts(row, env, n, cfg);
  }

  /** Operations left, at most. */
  function Fuel(pc: Pc, row: Row, cfg: Config): nat {
    var m := MaxAttempts(cfg);
    var left := if row.attempts < m then m - row.attempts else 0;
    match pc
    case Ready => 4 * Max(left, 1) - 1
    case Posting(_) => 4 * left + 2
    case Answered(_) => 1
    case Refused(_) => 4 * left + 1
    case Sleeping => 4 * left
    case Done(_) => 0
  }

  lemma AdvanceBurnsFuel(p: Progress, env: Env, cfg: Config)
    requires Matches(p.pc, p.row, cfg)
    ensures var q := Advance(p, env, cfg); Fuel(q.pc, q.row, cfg) <= Max(Fuel(p.pc, p.row, cfg) - 1, 0)
  {
  }

  /** deliverTarget always ends: its measure is the number of attempts left. */
  lemma {:induction false} RunEnds(row: Row, env: nat -> Env, n: nat, cfg: Config)
    ensures var p := Run(row, env, n, cfg); Fuel(p.pc, p.row, cfg) <= Max(Fuel(Ready, row, cfg) - n, 0)
  {
    if n > 0 {
      RunEnds(row, env, n - 1, cfg);
      RunMatches(row, env, n - 1, cfg);
      AdvanceBurnsFuel(Run(row, env, n - 1, cfg), env(n - 1), cfg);
    }
  }

  lemma RunIsDone(row: Row, env: nat -> Env, n: nat, cfg: Config)
    requires n >= Fuel(Ready, row, cfg)
    ensures Run(row, env, n, cfg).pc.Done?
  {
    RunEnds(row, env, n, cfg);
    RunFacts(row, env, n, cfg);
  }

  // ----- one operation, whatever other handlers do to the row -----

  /** Attempts only grow; a POST is opened under a number no attempt had before;
      success is reported or recorded only after a 2xx. */
  lemma StepFacts(pc: Pc, row: Row, env: Env, cfg: Config)
    ensures var (pc', row') := Step(pc, row, env, cfg);
      && row.attempts <= row'.attempts
      && (pc'.Posting? ==> pc == Ready && pc'.attempt == row.attempts + 1 == row'.attempts)
      && (pc'.Answered? ==> pc.Posting? && env.accepted)
      && (row'.status == Succeeded ==> row.status == Succeeded || pc.Answered?)
      && (pc' == Done(Ok) ==> row.status == Succeeded || pc.Answered? || pc == Done(Ok))
  {
  }

  /** The program when other handlers write the row too: `rows(i)` is what
      operation `i` finds. */
  function Contend(rows: nat -> Row, env: nat -> Env, n: nat, cfg: Config): Pc {
    if n == 0 then Ready else Step(Contend(rows, env, n - 1, cfg), rows(n - 1), env(n - 1), cfg).0
  }

  /** Between operations `i` and `i + 1` the others do anything to the row but
      lower its count. */
  ghost predicate OthersKeepCount(rows: nat -> Row, env: nat -> Env, i: nat, cfg: Config) {
    Step(Contend(rows, env, i, cfg), rows(i), env(i), cfg).1.attempts <= rows(i + 1).attempts
  }

  /** The program's own last attempt. */
  function LastAttempt(rows: nat -> Row, env: nat -> Env, n: nat, cfg: Config): nat {
    if n == 0 then 0
    else
      var pc := Contend(rows, env, n, cfg);
      if pc.Posting? then pc.attempt else LastAttempt(rows, env, n - 1, cfg)
  }

  ghost predicate OwnAttempt(pc: Pc, last: nat, row: Row, cfg: Config) {
    && last <= row.attempts
    && match pc
       case Ready => last < MaxAttempts(cfg)
       case Posting(k) => k == last
       case Answered(k) => k == last
       case Refused(k) => k == last
       case Sleeping => last < MaxAttempts(cfg)
       case Done(_) => true
  }

  /** Operations left, at most, whatever the row says. */
  function OwnFuel(pc: Pc, last: nat, cfg: Config): nat {
    var m := MaxAttempts(cfg);
    var left := if last < m then m - last else 0;
    match pc
    case Ready => if left == 0 then 0 else 4 * left - 1
    case Posting(_) => 4 * left + 2
    case Answered(_) => 1
    case Refused(_) => 4 * left + 1
    case Sleeping => 4 * left
    case Done(_) => 0
  }

  lemma OwnStep(pc: Pc, last: nat, row: Row, next: Row, env: Env, cfg: Config)
    requires OwnAttempt(pc, last, row, cfg) && Step(pc, row, env, cfg).1.attempts <= next.attempts
    ensures var pc' := Step(pc, row, env, cfg).0; var last' := if pc'.Posting? then pc'.attempt else last;
      && OwnAttempt(pc', last', next, cfg)
      && last <= last' && (pc'.Posting? ==> last < last')
      && OwnFuel(pc', last', cfg) <= Max(OwnFuel(pc, last, cfg) - 1, 0)
  {
    StepFacts(pc, row, env, cfg);
  }

  lemma FuelOut(pc: Pc, last: nat, row: Row, cfg: Config)
    requires OwnAttempt(pc, last, row, cfg) && OwnFuel(pc, last, cfg) == 0
    ensures pc.Done?
  {
  }

  /** deliverTarget ends with any number of handlers on its row: its own attempt
      numbers grow strictly, and it stops at the first that reaches the cap. */
  lemma {:induction false} ContendedEnds(rows: nat -> Row, env: nat -> Env, n: nat, cfg: Config)
    requires forall i: nat :: i < n ==> OthersKeepCount(rows, env, i, cfg)
    ensures var pc, last := Contend(rows, env, n, cfg), LastAttempt(rows, env, n, cfg);
      && OwnAttempt(pc, last, rows(n), cfg)
      && OwnFuel(pc, last, cfg) <= Max(4 * MaxAttempts(cfg) - 1 - n, 0)
      && (n >= 4 * MaxAttempts(cfg) - 1 ==> pc.Done?)
  {
    if n > 0 {
      var k := n - 1;
      ContendedEnds(rows, env, k, cfg);
      assert OthersKeepCount(rows, env, k, cfg);
      OwnStep(Contend(rows, env, k, cfg), LastAttempt(rows, env, k, cfg), rows(k), rows(n), env(k), cfg);
    }
    if n >= 4 * MaxAttempts(cfg) - 1 {
      FuelOut(Contend(rows, env, n, cfg), LastAttempt(rows, env, n, cfg), rows(n), cfg);
    }
  }

  // ----- waiting -----

  ghost predicate InSchedule(waits: seq<int>, cfg: Config) {
    forall i :: 0 <= i < |waits| ==> waits[i] == Backoff.Scheduled(i, cfg.base, cfg.max)
  }

  ghost predicate WaitedInTurn(p: Progress, cfg: Config) {
    && InSchedule(p.waits, cfg)
    && |p.waits| < MaxAttempts(cfg)
    && (match p.pc
        case Ready => |p.waits| == p.row.attempts && !Terminal(p.row)
        case Posting(k) => |p.waits| == k - 1
        case Answered(k) => |p.waits| == k - 1
        case Refused(k) => |p.waits| == k - 1
        case Sleeping => |p.waits| == p.row.attempts
        case Done(_) => true)
  }

  lemma AdvanceWaits(p: Progress, env: Env, cfg: Config)
    requires WaitedInTurn(p, cfg) && Matches(p.pc, p.row, cfg)
    ensures WaitedInTurn(Advance(p, env, cfg), cfg)
  {
    var wait := Waits(p.pc, env, cfg);
    if wait == [] {
      assert p.waits + wait == p.waits;
    }
  }

  /** Whatever happens in a run from a fresh row, attempt k + 1 is preceded by
      the first k scheduled waits, in order. */
  lemma {:induction false} WaitsInOrder(env: nat -> Env, n: nat, cfg: Config)
    ensures WaitedInTurn(Run(FRESH_ROW, env, n, cfg), cfg)
  {
    if n > 0 {
      WaitsInOrder(env, n - 1, cfg);
      RunFacts(FRESH_ROW, env, n - 1, cfg);
      AdvanceWaits(Run(FRESH_ROW, env, n - 1, cfg), env(n - 1), cfg);
    }
  }

  ghost predicate AllRefused(env: nat -> Env) {
    forall i :: !env(i).storeFails && !env(i).accepted && !env(i).cancelled
  }

  /** One refused attempt: below the cap it costs four operations and a wait,
      otherwise three, and the row is failed. */
  lemma RefusedAttempt(p: Progress, env: nat -> Env, from: nat, cfg: Config)
    requires AllRefused(env) && p.pc == Ready && !Terminal(p.row)
    ensures var a := p.row.attempts + 1;
      if a < MaxAttempts(cfg) then
        var q := RunOn(p, env, from, 4, cfg);
        q.pc == Ready && q.row.status == Retrying && q.row.attempts == a
        && q.waits == p.waits + [Backoff.Scheduled(a - 1, cfg.base, cfg.max)]
      else
        RunOn(p, env, from, 3, cfg) == Progress(Done(Exhausted), Row(Failed, a, None), p.waits)
  {
    var a := p.row.attempts + 1;
    assert p.waits + [] == p.waits;
    assert RunOn(p, env, from, 0, cfg) == p;
    var q1 := RunOn(p, env, from, 1, cfg);
    assert q1 == Advance(p, env(from), cfg);
    assert q1 == Progress(Posting(a), Row(Processing, a, None), p.waits);
    var q2 := RunOn(p, env, from, 2, cfg);
    assert q2 == Progress(Refused(a), Row(Processing, a, None), p.waits);
    var q3 := RunOn(p, env, from, 3, cfg);
    assert q3 == Advance(q2, env(from + 2), cfg);
    if a < MaxAttempts(cfg) {
      assert RunOn(p, env, from, 4, cfg) == Advance(q3, env(from + 3), cfg);
    }
  }

  lemma RefusedRound(p: Progress, env: nat -> Env, from: nat, cfg: Config)
    requires AllRefused(env) && p.pc == Ready && !Terminal(p.row) && p.row.attempts + 1 < MaxAttempts(cfg)
    ensures var q := RunOn(p, env, from, 4, cfg);
      q.pc == Ready && !Terminal(q.row) && q.row.attempts == p.row.attempts + 1
  {
    RefusedAttempt(p, env, from, cfg);
  }

  lemma LastRefusal(p: Progress, env: nat -> Env, from: nat, cfg: Config)
    requires AllRefused(env) && p.pc == Ready && !Terminal(p.row) && p.row.attempts + 1 == MaxAttempts(cfg)
    ensures RunOn(p, env, from, 3, cfg) == Progress(Done(Exhausted), Row(Failed, MaxAttempts(cfg), None), p.waits)
  {
    RefusedAttempt(p, env, from, cfg);
  }

  /** With every POST refused and nothing else going wrong, operation 4k finds
      the program ready for attempt k + 1. */
  lemma {:induction false} RefusedRounds(row: Row, env: nat -> Env, k: nat, cfg: Config)
    requires !Terminal(row) && row.attempts + k < MaxAttempts(cfg)
    requires AllRefused(env)
    ensures var p := Run(row, env, 4 * k, cfg);
      p.pc == Ready && !Terminal(p.row) && p.row.attempts == row.attempts + k
  {
    if k > 0 {
      var n := 4 * (k - 1);
      RefusedRounds(row, env, k - 1, cfg);
      RefusedRound(Run(row, env, n, cfg), env, n, cfg);
      RunComposes(row, env, n, 4, cfg);
      assert n + 4 == 4 * k;
    }
  }

  function Sum(s: seq<int>): int {
    if |s| == 0 then 0 else Sum(s[..|s| - 1]) + s[|s| - 1]
  }

  lemma {:induction false} SumOfSchedule(k: nat, base: Backoff.Duration, max: Backoff.Duration)
    ensures Sum(seq(k, i => Backoff.Scheduled(i, base, max))) == Backoff.TotalWait(k, base, max)
  {
    if k > 0 {
      SumOfSchedule(k - 1, base, max);
      var s := seq(k, i => Backoff.Scheduled(i, base, max));
      assert s[..k - 1] == seq(k - 1, i => Backoff.Scheduled(i, base, max));
    }
  }

  /** A run in which every attempt fails marks the row failed after attempt
      number cap, having waited before each retry in turn. */
  lemma ExhaustedRun(env: nat -> Env, cfg: Config)
    requires AllRefused(env)
    ensures var m := MaxAttempts(cfg); var p := Run(FRESH_ROW, env, 4 * m - 1, cfg);
      && p.pc == Done(Exhausted) && p.row == Row(Failed, m, None)
      && |p.waits| == m - 1 && InSchedule(p.waits, cfg)
  {
    var m := MaxAttempts(cfg);
    var n := 4 * (m - 1);
    var p := Run(FRESH_ROW, env, n, cfg);
    RefusedRounds(FRESH_ROW, env, m - 1, cfg);
    WaitsInOrder(env, n, cfg);
    LastRefusal(p, env, n, cfg);
    RunContinues(FRESH_ROW, env, n, 3, cfg, p, Progress(Done(Exhausted), Row(Failed, m, None), p.waits));
    assert n + 3 == 4 * m - 1;
  }

  /** The time such a delivery spends waiting. */
  lemma ExhaustedDelivery(env: nat -> Env, cfg: Config)
    requires AllRefused(env)
    ensures var p := Run(FRESH_ROW, env, 4 * MaxAttempts(cfg) - 1, cfg);
      && p.pc == Done(Exhausted) && p.row == Row(Failed, if cfg.maxRetries > 0 then cfg.maxRetries else 1, None)
      && Sum(p.waits) == Backoff.TotalWait(MaxAttempts(cfg) - 1, cfg.base, cfg.max)
  {
    ExhaustedRun(env, cfg);
    ScheduleSum(Run(FRESH_ROW, env, 4 * MaxAttempts(cfg) - 1, cfg).waits, cfg);
  }

  /** That is base * (2^(cap - 1) - 1) exactly when the last wait stays below the
      limit on a single wait. */
  lemma ExhaustedWait(env: nat -> Env, cfg: Config)
    requires AllRefused(env) && cfg.base > 0 && cfg.max > 0
    ensures var m := MaxAttempts(cfg); var waited := Sum(Run(FRESH_ROW, env, 4 * m - 1, cfg).waits);
      && waited <= (m - 1) * cfg.max as int
      && (waited == cfg.base as int * (Backoff.Pow2(m - 1) - 1)
          <==> m == 1 || cfg.base as int * Backoff.Pow2(m - 2) <= cfg.max as int)
  {
    ExhaustedDelivery(env, cfg);
    Backoff.TotalWaitCap(MaxAttempts(cfg) - 1, cfg.base, cfg.max);
    Backoff.TotalWaitGeometric(MaxAttempts(cfg) - 1, cfg.base, cfg.max);
  }

  /** So no run waits longer than once the cap for every retry. */
  lemma WaitsBound(env: nat -> Env, n: nat, cfg: Config)
    requires cfg.base > 0 && cfg.max > 0
    ensures Sum(Run(FRESH_ROW, env, n, cfg).waits) <= (MaxAttempts(cfg) - 1) * cfg.max as int
  {
    WaitsInOrder(env, n, cfg);
    var waits := Run(FRESH_ROW, env, n, cfg).waits;
    ScheduleSum(waits, cfg);
    Backoff.TotalWaitCap(|waits|, cfg.base, cfg.max);
    TimesMonotone(|waits|, MaxAttempts(cfg) - 1, cfg.max as int);
  }

  lemma ScheduleSum(waits: seq<int>, cfg: Config)
    requires InSchedule(waits, cfg)
    ensures Sum(waits) == Backoff.TotalWait(|waits|, cfg.base, cfg.max)
  {
    assert waits == seq(|waits|, i => Backoff.Scheduled(i, cfg.base, cfg.max));
    SumOfSchedule(|waits|, cfg.base, cfg.max);
  }

  lemma TimesMonotone(x: int, y: int, a: nat)
    requires x <= y
    ensures x * a <= y * a
  {
  }

  // ----- crashes and restarts -----

  /** One run of the program, cut off after `steps` operations. */
  datatype Life = Life(env: nat -> Env, steps: nat)

  /** The row after a history of runs, one at a time. */
  function Live(row: Row, lives: seq<Life>, cfg: Config): Row {
    if |lives| == 0 then row
    else
      var last := lives[|lives| - 1];
      Run(Live(row, lives[..|lives| - 1], cfg), last.env, last.steps, cfg).row
  }

  /** A run is interrupted when it ends without reporting a durable outcome. */
  predicate IsInterrupted(row: Row, life: Life, cfg: Config) {
    var pc := Run(row, life.env, life.steps, cfg).pc;
    !(pc == Done(Ok) || pc == Done(Exhausted))
  }

  function Interrupted(row: Row, lives: seq<Life>, cfg: Config): nat {
    if |lives| == 0 then 0
    else
      var before := lives[..|lives| - 1];
      Interrupted(row, before, cfg)
      + if IsInterrupted(Live(row, before, cfg), lives[|lives| - 1], cfg) then 1 else 0
  }

  /** Over any history, `attempt_count` exceeds the cap by at most the number of
      interrupted runs, and a row that is not terminal has room left. */
  lemma {:induction false} RetryBound(lives: seq<Life>, cfg: Config)
    ensures var row := Live(FRESH_ROW, lives, cfg); var i := Interrupted(FRESH_ROW, lives, cfg);
      && row.attempts <= MaxAttempts(cfg) + i
      && (!Terminal(row) ==> row.attempts < MaxAttempts(cfg) + i)
      && (|lives| > i ==> Terminal(row))
  {
    if |lives| > 0 {
      var before := lives[..|lives| - 1];
      var last := lives[|lives| - 1];
      RetryBound(before, cfg);
      RunFacts(Live(FRESH_ROW, before, cfg), last.env, last.steps, cfg);
    }
  }

  lemma HistoryAppend(row: Row, lives: seq<Life>, life: Life, cfg: Config)
    ensures var p := Run(Live(row, lives, cfg), life.env, life.steps, cfg);
      && Live(row, lives + [life], cfg) == p.row
      && Interrupted(row, lives + [life], cfg)
         == Interrupted(row, lives, cfg) + if p.pc == Done(Ok) || p.pc == Done(Exhausted) then 0 else 1
  {
    assert (lives + [life])[..|lives|] == lives;
  }

  /** The run opens an attempt on a row that is not terminal and has no attempt
      left: the case BeginDelivery does not refuse. */
  predicate OpensPastCap(row: Row, life: Life, cfg: Config) {
    && !Terminal(row) && row.attempts >= MaxAttempts(cfg)
    && life.steps > 0 && (!life.env(0).storeFails || life.env(0).committed)
  }

  lemma {:induction false} RunGrows(row: Row, env: nat -> Env, n: nat, cfg: Config)
    requires n > 0
    ensures Run(row, env, 1, cfg).row.attempts <= Run(row, env, n, cfg).row.attempts
    ensures Run(row, env, 1, cfg).pc.Done? ==> Run(row, env, n, cfg) == Run(row, env, 1, cfg)
  {
    if n > 1 {
      RunGrows(row, env, n - 1, cfg);
      var p := Run(row, env, n - 1, cfg);
      StepFacts(p.pc, p.row, env(n - 1), cfg);
      assert p.waits + [] == p.waits;
    }
  }

  /** One run takes the count past the cap exactly then. */
  lemma LifePassesCap(row: Row, life: Life, cfg: Config)
    ensures var after := Run(row, life.env, life.steps, cfg).row;
      && row.attempts <= after.attempts
      && (row.attempts <= MaxAttempts(cfg) ==> (after.attempts > MaxAttempts(cfg) <==> OpensPastCap(row, life, cfg)))
      && (OpensPastCap(row, life, cfg) ==> after.attempts > MaxAttempts(cfg))
  {
    RunFacts(row, life.env, life.steps, cfg);
    if life.steps > 0 {
      RunGrows(row, life.env, life.steps, cfg);
      assert Run(row, life.env, 1, cfg) == Advance(Run(row, life.env, 0, cfg), life.env(0), cfg);
    }
  }

  ghost predicate PassesCapAt(lives: seq<Life>, k: nat, cfg: Config)
    requires k < |lives|
  {
    OpensPastCap(Live(FRESH_ROW, lives[..k], cfg), lives[k], cfg)
  }

  /** With one handler at a time `attempt_count` exceeds the cap if and only if
      some run opens an attempt on a row already at the cap and not terminal. */
  lemma {:induction false} CapPassedIff(lives: seq<Life>, cfg: Config)
    ensures Live(FRESH_ROW, lives, cfg).attempts > MaxAttempts(cfg)
       <==> exists k: nat :: k < |lives| && PassesCapAt(lives, k, cfg)
  {
    if |lives| > 0 {
      var n := |lives| - 1;
      var before := lives[..n];
      CapPassedIff(before, cfg);
      LifePassesCap(Live(FRESH_ROW, before, cfg), lives[n], cfg);
      forall k: nat | k < n ensures PassesCapAt(before, k, cfg) <==> PassesCapAt(lives, k, cfg) {
        assert before[..k] == lives[..k];
      }
      if Live(FRESH_ROW, before, cfg).attempts <= MaxAttempts(cfg) {
        assert PassesCapAt(lives, n, cfg) <==> Live(FRESH_ROW, lives, cfg).attempts > MaxAttempts(cfg);
      }
    }
  }

  function NoAnswer(k: nat): Env { Env(false, false, false, false, 0) }

  /** A run of a fresh row that dies in attempt number cap. */
  lemma DiesInLastAttempt(cfg: Config)
    ensures var m := MaxAttempts(cfg); var p := Run(FRESH_ROW, NoAnswer, 4 * (m - 1) + 1, cfg);
      p.pc == Posting(m) && p.row == Row(Processing, m, None)
  {
    RefusedRounds(FRESH_ROW, NoAnswer, MaxAttempts(cfg) - 1, cfg);
  }

  /** `i` runs that each die inside an attempt: the first in attempt number cap,
      every later one in the next attempt. */
  lemma {:induction false} StuckHistory(i: nat, cfg: Config) returns (lives: seq<Life>)
    requires i > 0
    ensures Interrupted(FRESH_ROW, lives, cfg) == i
    ensures Live(FRESH_ROW, lives, cfg) == Row(Processing, MaxAttempts(cfg) + i - 1, None)
  {
    var m := MaxAttempts(cfg);
    if i == 1 {
      var life := Life(NoAnswer, 4 * (m - 1) + 1);
      DiesInLastAttempt(cfg);
      HistoryAppend(FRESH_ROW, [], life, cfg);
      lives := [] + [life];
    } else {
      var before := StuckHistory(i - 1, cfg);
      var life := Life(NoAnswer, 1);
      HistoryAppend(FRESH_ROW, before, life, cfg);
      assert Run(Live(FRESH_ROW, before, cfg), NoAnswer, 1, cfg).pc == Posting(m + i - 1);
      lives := before + [life];
    }
  }

  lemma FinalDeath(row: Row, cfg: Config)
    requires !Terminal(row) && row.attempts >= MaxAttempts(cfg)
    ensures Run(row, NoAnswer, 3, cfg) == Progress(Done(Exhausted), Row(Failed, row.attempts + 1, None), [])
  {
    RefusedAttempt(Run(row, NoAnswer, 0, cfg), NoAnswer, 0, cfg);
    RunComposes(row, NoAnswer, 0, 3, cfg);
  }

  /** The bound is reached: for every number of interruptions there is a
      history whose last attempt is number cap + interruptions. */
  lemma RetryBoundTight(i: nat, cfg: Config) returns (lives: seq<Life>)
    ensures Interrupted(FRESH_ROW, lives, cfg) == i
    ensures Live(FRESH_ROW, lives, cfg) == Row(Failed, MaxAttempts(cfg) + i, None)
  {
    if i == 0 {
      lives := [];
      var life := Life(NoAnswer, 4 * MaxAttempts(cfg) - 1);
      ExhaustedDelivery(NoAnswer, cfg);
      HistoryAppend(FRESH_ROW, lives, life, cfg);
      lives := lives + [life];
    } else {
      lives := StuckHistory(i, cfg);
      FinalDeath(Live(FRESH_ROW, lives, cfg), cfg);
      HistoryAppend(FRESH_ROW, lives, Life(NoAnswer, 3), cfg);
      lives := lives + [Life(NoAnswer, 3)];
    }
  }

  /** Once terminal, a row keeps its status and its count for good. */
  lemma {:induction false} TerminalAbsorbs(row: Row, lives: seq<Life>, more: seq<Life>, cfg: Config)
    requires Terminal(Live(row, lives, cfg))
    ensures Live(row, lives + more, cfg) == Live(row, lives, cfg)
  {
    if |more| == 0 {
      assert lives + more == lives;
    } else {
      var k := |more| - 1;
      TerminalAbsorbs(row, lives, more[..k], cfg);
      var all := lives + more;
      assert all[..|all| - 1] == lives + more[..k];
      RunFacts(Live(row, lives, cfg), more[k].env, more[k].steps, cfg);
    }
  }

  /** With two handlers on one row absorption fails. An operation can overwrite
      the status of a terminal row exactly when its handler still holds an open
      attempt whose outcome differs: a 2xx on a failed row, a refusal on a
      succeeded row, or a refusal below the cap on a failed row. */
  lemma TerminalOverwritten(pc: Pc, row: Row, cfg: Config)
    requires Terminal(row)
    ensures (exists env :: Step(pc, row, env, cfg).1.status != row.status)
       <==> || (pc.Answered? && row.status == Failed)
            || (pc.Refused? && (row.status == Succeeded || pc.attempt < MaxAttempts(cfg)))
  {
    var env := Env(false, false, false, false, 0);
    if (pc.Answered? && row.status == Failed)
       || (pc.Refused? && (row.status == Succeeded || pc.attempt < MaxAttempts(cfg))) {
      assert Step(pc, row, env, cfg).1.status != row.status;
    }
  }

  /** Such a state is reached: two handlers open attempts 1 and 2, the second
      succeeds, and the first then turns the succeeded row back to retrying. */
  lemma TwoHandlersUndoSuccess(cfg: Config)
    requires MaxAttempts(cfg) > 1
    ensures var ok := Env(false, false, true, false, 0); var no := Env(false, false, false, false, 0);
      var (a1, r1) := Step(Ready, FRESH_ROW, ok, cfg);
      var (b1, r2) := Step(Ready, r1, ok, cfg);
      var (b2, r3) := Step(b1, r2, ok, cfg);
      var (b3, r4) := Step(b2, r3, ok, cfg);
      var (a2, r5) := Step(a1, r4, no, cfg);
      var (a3, r6) := Step(a2, r5, no, cfg);
      b3 == Done(Ok) && r4.status == Succeeded && r6.status == Retrying
  {
    var ok := Env(false, false, true, false, 0);
    assert Step(Ready, FRESH_ROW, ok, cfg) == (Posting(1), Row(Processing, 1, None));
    assert Step(Ready, Row(Processing, 1, None), ok, cfg) == (Posting(2), Row(Processing, 2, None));
  }

  /** Nor does the cap hold with two handlers, though neither is interrupted:
      with one attempt allowed, both open one before either has failed. */
  lemma TwoHandlersPassCap(cfg: Config)
    requires MaxAttempts(cfg) == 1
    ensures var no := Env(false, false, false, false, 0);
      var (a1, r1) := Step(Ready, FRESH_ROW, no, cfg);
      var (b1, r2) := Step(Ready, r1, no, cfg);
      var (a2, r3) := Step(a1, r2, no, cfg);
      var (a3, r4) := Step(a2, r3, no, cfg);
      var (b2, r5) := Step(b1, r4, no, cfg);
      var (b3, r6) := Step(b2, r5, no, cfg);
      a3 == Done(Exhausted) && b3 == Done(Exhausted) && r6 == Row(Failed, 2, None)
  {
    var no := Env(false, false, false, false, 0);
    assert Step(Ready, FRESH_ROW, no, cfg) == (Posting(1), Row(Processing, 1, None));
    assert Step(Ready, Row(Processing, 1, None), no, cfg) == (Posting(2), Row(Processing, 2, None));
  }

  // ----- the store and the program -----

  /** `event_deliveries`. Every method is one transaction. */
  class DeliveryStore {
    var rows: map<Key, Row>

    constructor ()
      ensures rows == map[]
    {
      rows := map[];
    }

    /** Inserts the row if missing, then counts and opens an attempt unless the
        row is terminal. A failing commit may or may not have taken effect. */
    method BeginDelivery(key: Key, env: Env) returns (ok: bool, state: Row)
      modifies this
      ensures ok == !env.storeFails
      ensures ok ==> state == RowOf(rows, key)
      ensures rows == if ok || env.committed then old(rows)[key := Begun(RowOf(old(rows), key))] else old(rows)
    {
      var work := rows;
      if key !in work {
        work := work[key := FRESH_ROW];
      }
      state := work[key];
      if state.status != Succeeded && state.status != Failed {
        state := state.(attempts := state.attempts + 1);
        work := work[key := state.(status := Processing, nextRetryAt := None)];
        state := work[key];
      }
      ok := !env.storeFails;
      if ok || env.committed {
        rows := work;
      }
    }

    method MarkDeliverySucceeded(key: Key, env: Env) returns (ok: bool)
      modifies this
      ensures ok == !env.storeFails
      ensures rows == if key in old(rows) && (ok || env.committed)
                      then old(rows)[key := MarkedSucceeded(old(rows)[key])] else old(rows)
    {
      ok := !env.storeFails;
      if key in rows && (ok || env.committed) {
        rows := rows[key := rows[key].(status := Succeeded, nextRetryAt := None)];
      }
    }

    method MarkDeliveryRetrying(key: Key, at: int, env: Env) returns (ok: bool)
      modifies this
      ensures ok == !env.storeFails
      ensures rows == if key in old(rows) && (ok || env.committed)
                      then old(rows)[key := MarkedRetrying(old(rows)[key], at)] else old(rows)
    {
      ok := !env.storeFails;
      if key in rows && (ok || env.committed) {
        rows := rows[key := rows[key].(status := Retrying, nextRetryAt := Some(at))];
      }
    }

    method MarkDeliveryFailed(key: Key, env: Env) returns (ok: bool)
      modifies this
      ensures ok == !env.storeFails
      ensures rows == if key in old(rows) && (ok || env.committed)
                      then old(rows)[key := MarkedFailed(old(rows)[key])] else old(rows)
    {
      ok := !env.storeFails;
      if key in rows && (ok || env.committed) {
        rows := rows[key := rows[key].(status := Failed, nextRetryAt := None)];
      }
    }
  }

  ghost predicate OnlyAt(before: map<Key, Row>, after: map<Key, Row>, key: Key) {
    && (forall k :: k != key ==> (k in before <==> k in after))
    && (forall k :: k != key && k in before && k in after ==> before[k] == after[k])
  }

  lemma {:induction false} RunOnComposes(p: Progress, env: nat -> Env, from: nat, m: nat, k: nat, cfg: Config)
    ensures RunOn(RunOn(p, env, from, m, cfg), env, from + m, k, cfg) == RunOn(p, env, from, m + k, cfg)
  {
    if k > 0 {
      RunOnComposes(p, env, from, m, k - 1, cfg);
    }
  }

  /** Where the first operation, and the first two, take a program that is ready. */
  lemma OpensAndPosts(row: Row, env: nat -> Env, from: nat, waits: seq<int>, cfg: Config)
    ensures RunOn(Progress(Ready, row, waits), env, from, 1, cfg)
         == Progress(Step(Ready, row, env(from), cfg).0, Step(Ready, row, env(from), cfg).1, waits)
    ensures !env(from).storeFails && !Terminal(row) ==>
      var n := row.attempts + 1;
      RunOn(Progress(Ready, row, waits), env, from, 2, cfg)
      == Progress(if env(from + 1).accepted then Answered(n) else Refused(n), Begun(row), waits)
  {
    var p := Progress(Ready, row, waits);
    assert waits + [] == waits;
    assert RunOn(p, env, from, 0, cfg) == p;
    assert RunOn(p, env, from, 1, cfg) == Advance(p, env(from), cfg);
    assert RunOn(p, env, from, 2, cfg) == Advance(RunOn(p, env, from, 1, cfg), env(from + 1), cfg);
  }

  lemma Continues(p: Progress, env: nat -> Env, from: nat, k: nat, cfg: Config, mid: Progress, q: Progress)
    requires RunOn(p, env, from, 2, cfg) == mid && RunOn(mid, env, from + 2, k, cfg) == q
    ensures RunOn(p, env, from, 2 + k, cfg) == q
  {
    RunOnComposes(p, env, from, 2, k, cfg);
  }

  /** The second half of a pass: the outcome of the POST is recorded. */
  method RecordOutcome(store: DeliveryStore, key: Key, cfg: Config, env: nat -> Env, op: nat, attempt: nat,
                       accepted: bool, ghost waits: seq<int>)
    returns (finished: bool, result: Result, wait: seq<int>, ghost steps: nat)
    requires attempt > 0 && key in store.rows
    modifies store
    ensures RunOn(Progress(if accepted then Answered(attempt) else Refused(attempt), RowOf(old(store.rows), key),
                           waits), env, op, steps, cfg)
         == Progress(if finished then Done(result) else Ready, RowOf(store.rows, key), waits + wait)
    ensures OnlyAt(old(store.rows), store.rows, key)
    ensures RowOf(store.rows, key).attempts == RowOf(old(store.rows), key).attempts
    ensures !finished ==> steps == 2 && attempt < MaxAttempts(cfg)
  {
    ghost var p := Progress(if accepted then Answered(attempt) else Refused(attempt), RowOf(store.rows, key), waits);
    wait, steps := [], 1;
    assert waits + wait == waits;
    assert RunOn(p, env, op, 1, cfg) == Advance(RunOn(p, env, op, 0, cfg), env(op), cfg);
    if accepted {
      var marked := store.MarkDeliverySucceeded(key, env(op));
      return true, if marked then Ok else Errored, wait, steps;
    }
    if env(op).cancelled {
      return true, Errored, wait, steps;
    }
    var maxAttempts := if cfg.maxRetries > 0 then cfg.maxRetries else 1;
    if attempt >= maxAttempts {
      var marked := store.MarkDeliveryFailed(key, env(op));
      return true, if marked then Exhausted else Errored, wait, steps;
    }
    var backoff := Backoff.BackoffFor(attempt - 1, cfg.base, cfg.max);
    var marked := store.MarkDeliveryRetrying(key, env(op).now + backoff as int, env(op));
    if !marked {
      return true, Errored, wait, steps;
    }
    wait, steps := [backoff as int], 2;
    assert RunOn(p, env, op, 1, cfg) == Progress(Sleeping, RowOf(store.rows, key), waits + wait);
    assert waits + wait + [] == waits + wait;
    if env(op + 1).cancelled {
      return true, Errored, wait, steps;
    }
    return false, Errored, wait, steps;
  }

  /** One pass of the retry loop. `finished` says whether the loop returns. */
  method Attempt(store: DeliveryStore, key: Key, cfg: Config, env: nat -> Env, op: nat, ghost waits: seq<int>)
    returns (finished: bool, result: Result, wait: seq<int>, ghost steps: nat)
    modifies store
    ensures RunOn(Progress(Ready, RowOf(old(store.rows), key), waits), env, op, steps, cfg)
         == Progress(if finished then Done(result) else Ready, RowOf(store.rows, key), waits + wait)
    ensures OnlyAt(old(store.rows), store.rows, key)
    ensures var before := RowOf(old(store.rows), key);
      && (before.status == Succeeded && !env(op).storeFails ==> finished && result == Ok)
      && (before.status == Failed && !env(op).storeFails ==> finished && result == Exhausted)
    ensures !finished ==> steps == 4 && RowOf(old(store.rows), key).attempts
                                        < RowOf(store.rows, key).attempts < MaxAttempts(cfg)
  {
    ghost var row := RowOf(store.rows, key);
    OpensAndPosts(row, env, op, waits, cfg);
    wait, steps := [], 1;
    assert waits + wait == waits;
    var begun, state := store.BeginDelivery(key, env(op));
    if !begun {
      return true, Errored, wait, steps;
    }
    if state.status == Succeeded {
      return true, Ok, wait, steps;
    }
    if state.status == Failed {
      return true, Exhausted, wait, steps;
    }
    var attempt, accepted := state.attempts, env(op + 1).accepted;
    finished, result, wait, steps := RecordOutcome(store, key, cfg, env, op + 2, attempt, accepted, waits);
    Continues(Progress(Ready, row, waits), env, op, steps, cfg,
              Progress(if accepted then Answered(attempt) else Refused(attempt), Begun(row), waits),
              Progress(if finished then Done(result) else Ready, RowOf(store.rows, key), waits + wait));
    steps := 2 + steps;
  }

  /** The same pass, as part of the run that began with `start`. */
  method Pass(store: DeliveryStore, key: Key, cfg: Config, env: nat -> Env, op: nat, waits: seq<int>, ghost start: Row)
    returns (finished: bool, result: Result, waited: seq<int>, ghost next: nat)
    requires Run(start, env, op, cfg) == Progress(Ready, RowOf(store.rows, key), waits)
    modifies store
    ensures Run(start, env, next, cfg)
      == Progress(if finished then Done(result) else Ready, RowOf(store.rows, key), waited)
    ensures OnlyAt(old(store.rows), store.rows, key)
    ensures !finished ==> next == op + 4 && RowOf(old(store.rows), key).attempts
                                            < RowOf(store.rows, key).attempts < MaxAttempts(cfg)
  {
    ghost var p := Progress(Ready, RowOf(store.rows, key), waits);
    ghost var k;
    var wait;
    finished, result, wait, k := Attempt(store, key, cfg, env, op, waits);
    waited, next := waits + wait, op + k;
    RunContinues(start, env, op, k, cfg, p,
                 Progress(if finished then Done(result) else Ready, RowOf(store.rows, key), waited));
  }

  /** The retry loop, operation for operation the program `Run` describes, for
      every environment. It ends, and touches no other row. */
  method DeliverTarget(store: DeliveryStore, key: Key, cfg: Config, env: nat -> Env)
    returns (result: Result, waits: seq<int>, ghost steps: nat)
    modifies store
    ensures Run(RowOf(old(store.rows), key), env, steps, cfg) == Progress(Done(result), RowOf(store.rows, key), waits)
    ensures OnlyAt(old(store.rows), store.rows, key)
    ensures var before, after := RowOf(old(store.rows), key), RowOf(store.rows, key);
      && (before.status == Succeeded && !env(0).storeFails ==> result == Ok && after == before)
      && (before.status == Failed && !env(0).storeFails ==> result == Exhausted && after == before)
      && (result == Ok ==> after.status == Succeeded) && (result == Exhausted ==> after.status == Failed)
    ensures result == Errored ==> exists i: nat :: i < steps && (env(i).storeFails || env(i).cancelled)
  {
    ghost var start := RowOf(store.rows, key);
    var op := 0;
    waits := [];
    while true
      invariant Run(start, env, op, cfg) == Progress(Ready, RowOf(store.rows, key), waits)
      invariant OnlyAt(old(store.rows), store.rows, key)
      decreases MaxAttempts(cfg) - RowOf(store.rows, key).attempts
    {
      var finished, r, waited, next := Pass(store, key, cfg, env, op, waits, start);
      waits := waited;
      if finished {
        RunFacts(start, env, next, cfg);
        return r, waits, next;
      }
      op := op + 4;
    }
  }
}
