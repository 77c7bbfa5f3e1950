/** The throttle on confirming a TOTP enrollment: a counter and a lock on the
    credential's own row. */
module Enrollment {
  import opened Domain

  /** A `user_totp` row. */
  datatype Totp = Totp(secret: string, confirmed: bool, attempts: nat, lockedUntil: Option<Time>)

  predicate Open(row: Totp, now: Time) {
    row.lockedUntil.None? || row.lockedUntil.value < now
  }

  /** The UPDATE of ClaimEnrollAttempt on a row it matches. */
  function Counted(row: Totp, max: int, lock: nat, now: Time): Totp {
    row.(attempts := row.attempts + 1,
         lockedUntil := if row.attempts + 1 >= max then Some(now + lock) else row.lockedUntil)
  }

  // ----- histories of one credential -----

  /** What a request for enrollment found in its first statement. */
  datatype Seen = SawNone | SawPending

  /** `wait` is the time that passes before the request: the clock never goes
      back. EnrollPending reads and writes in two statements, between which
      anything may happen; `request` says which belong together. */
  datatype Op =
    | Claim(wait: nat)
    | EnrollRead(request: Uuid)
    | EnrollWrite(request: Uuid, secret: string)
    | Confirm
    | Reset

  /** `all` lists every attempt ever counted, `grants` those since the counter was
      last cleared. `requests` are the enrollments between their statements. */
  datatype State = State(row: Option<Totp>, now: Time, grants: seq<Time>, all: seq<Time>, requests: map<Uuid, Seen>)

  /** The write of an enrollment that found a pending credential. It does not look
      at the row again. */
  predicate Overwrites(s: State, op: Op) {
    op.EnrollWrite? && op.request in s.requests && s.requests[op.request] == SawPending
  }

  /** The write of an enrollment that found none: an insert under a unique key. */
  predicate Inserts(s: State, op: Op) {
    op.EnrollWrite? && op.request in s.requests && s.requests[op.request] == SawNone && s.row.None?
  }

  /** The steps that clear counter and lock. */
  predicate Clears(s: State, op: Op) {
    Overwrites(s, op) || Inserts(s, op) || (op.Reset? && s.row.Some?)
  }

  function Cleared(s: State, row: Totp): State {
    s.(row := Some(row.(attempts := 0, lockedUntil := None)), grants := [])
  }

  function Apply(s: State, op: Op, max: int, lock: nat): State {
    match op
    case Claim(wait) =>
      var t := s.(now := s.now + wait);
      if s.row.Some? && Open(s.row.value, t.now)
      then t.(row := Some(Counted(s.row.value, max, lock, t.now)), grants := s.grants + [t.now], all := s.all + [t.now])
      else t
    case EnrollRead(r) =>
      if r in s.requests || (s.row.Some? && s.row.value.confirmed) then s
      else s.(requests := s.requests[r := if s.row.None? then SawNone else SawPending])
    case EnrollWrite(r, secret) =>
      var ended := s.(requests := s.requests - {r});
      if Overwrites(s, op) || Inserts(s, op) then Cleared(ended, Totp(secret, false, 0, None)) else ended
    case Confirm =>
      if s.row.None? then s else s.(row := Some(s.row.value.(confirmed := true)))
    case Reset =>
      if s.row.None? then s else Cleared(s, s.row.value)
  }

  const START := State(None, 0, [], [], map[])

  function RunFrom(s: State, ops: seq<Op>, max: int, lock: nat): State {
    if |ops| == 0 then s else Apply(RunFrom(s, ops[..|ops| - 1], max, lock), ops[|ops| - 1], max, lock)
  }

  function Run(ops: seq<Op>, max: int, lock: nat): State {
    RunFrom(START, ops, max, lock)
  }

  /** The grant that sets the first lock. */
  function Bound(max: int): nat {
    if max > 0 then max else 1
  }

  ghost predicate InOrder(grants: seq<Time>) {
    forall i, j :: 0 <= i <= j < |grants| ==> grants[i] <= grants[j]
  }

  /** From grant number `m` on, each is more than `lock` after the one before. */
  ghost predicate Spaced(grants: seq<Time>, m: nat, lock: nat)
    requires m > 0
  {
    forall i, j :: 0 <= i && m <= j < |grants| && j == i + 1 ==> grants[i] + lock < grants[j]
  }

  /** The counter and the lock say what was counted since the last clear. */
  ghost predicate Counts(s: State, max: int, lock: nat) {
    var n := |s.grants|;
    && (s.row.None? ==> s.all == [])
    && (s.row.Some? ==> s.row.value.attempts == n)
    && (s.row.Some? ==> s.row.value.lockedUntil == if n >= Bound(max) then Some(s.grants[n - 1] + lock) else None)
    && (n > 0 ==> s.grants[n - 1] <= s.now)
    && InOrder(s.grants) && Spaced(s.grants, Bound(max), lock)
  }

  /** The attempts counted before the last clear. */
  function Older(s: State): seq<Time>
    requires |s.grants| <= |s.all|
  {
    s.all[..|s.all| - |s.grants|]
  }

  /** The list of all attempts is in order and ends with the grants. */
  ghost predicate Listed(s: State) {
    && |s.grants| <= |s.all| && s.all == Older(s) + s.grants
    && (|s.all| > 0 ==> s.all[|s.all| - 1] <= s.now) && InOrder(s.all)
  }

  predicate IsPending(s: State, r: Uuid) {
    r in s.requests && s.requests[r] == SawPending
  }

  /** Rows are never deleted: what a request has seen is there. */
  ghost predicate SeenIsThere(s: State) {
    forall r :: IsPending(s, r) ==> s.row.Some?
  }

  ghost predicate Inv(s: State, max: int, lock: nat) {
    Counts(s, max, lock) && Listed(s) && SeenIsThere(s)
  }

  lemma GrantAppends(grants: seq<Time>, now: Time, m: nat, lock: nat)
    requires m > 0 && InOrder(grants) && Spaced(grants, m, lock)
    requires |grants| > 0 ==> grants[|grants| - 1] <= now
    requires |grants| >= m ==> grants[|grants| - 1] + lock < now
    ensures InOrder(grants + [now]) && Spaced(grants + [now], m, lock)
  {
  }

  lemma CountsAfterGrant(s: State, r: State, max: int, lock: nat)
    requires Counts(s, max, lock) && s.row.Some? && Open(s.row.value, r.now) && s.now <= r.now
    requires r.row == Some(Counted(s.row.value, max, lock, r.now)) && r.grants == s.grants + [r.now]
    ensures Counts(r, max, lock)
  {
    GrantAppends(s.grants, r.now, Bound(max), lock);
  }

  lemma ListedAfterGrant(s: State, r: State)
    requires Listed(s) && s.now <= r.now && r.grants == s.grants + [r.now] && r.all == s.all + [r.now]
    ensures Listed(r) && Older(r) == Older(s)
  {
    assert Older(r) == Older(s);
    assert r.all == Older(s) + r.grants;
  }

  lemma CountsAfterClear(s: State, r: State, max: int, lock: nat)
    requires r.row.Some? && r.row.value.attempts == 0 && r.row.value.lockedUntil.None? && r.grants == []
    ensures Counts(r, max, lock)
  {
  }

  lemma SameCounts(s: State, r: State, max: int, lock: nat)
    requires Counts(s, max, lock) && Listed(s) && r.grants == s.grants && r.all == s.all && s.now <= r.now
    requires s.row.Some? == r.row.Some?
    requires s.row.Some? ==> r.row.value.attempts == s.row.value.attempts
                             && r.row.value.lockedUntil == s.row.value.lockedUntil
    ensures Counts(r, max, lock) && Listed(r)
  {
  }

  lemma SeenStays(s: State, op: Op, max: int, lock: nat)
    requires SeenIsThere(s)
    ensures SeenIsThere(Apply(s, op, max, lock))
  {
    forall r | IsPending(Apply(s, op, max, lock), r) ensures Apply(s, op, max, lock).row.Some? {
      assert IsPending(s, r) || s.row.Some?;
    }
  }

  lemma ClearEffect(s: State, op: Op, max: int, lock: nat)
    requires Clears(s, op)
    ensures var r := Apply(s, op, max, lock);
      && r.grants == [] && r.all == s.all && r.now == s.now && Older(r) == s.all
      && r.row.Some? && r.row.value.attempts == 0 && r.row.value.lockedUntil.None?
  {
  }

  lemma ClearKeepsInv(s: State, op: Op, max: int, lock: nat)
    requires Inv(s, max, lock) && Clears(s, op)
    ensures Inv(Apply(s, op, max, lock), max, lock)
  {
    ClearEffect(s, op, max, lock);
    CountsAfterClear(s, Apply(s, op, max, lock), max, lock);
    SeenStays(s, op, max, lock);
  }

  /** The step is a claim that finds the row open. */
  predicate Grants(s: State, op: Op) {
    op.Claim? && s.row.Some? && Open(s.row.value, s.now + op.wait)
  }

  lemma GrantEffect(s: State, op: Op, max: int, lock: nat)
    requires Grants(s, op)
    ensures var r := Apply(s, op, max, lock);
      && r.now == s.now + op.wait && r.row == Some(Counted(s.row.value, max, lock, r.now))
      && r.grants == s.grants + [r.now] && r.all == s.all + [r.now] && r.requests == s.requests
  {
  }

  lemma GrantKeepsInv(s: State, op: Op, max: int, lock: nat)
    requires Inv(s, max, lock) && Grants(s, op)
    ensures Inv(Apply(s, op, max, lock), max, lock)
  {
    GrantEffect(s, op, max, lock);
    CountsAfterGrant(s, Apply(s, op, max, lock), max, lock);
    ListedAfterGrant(s, Apply(s, op, max, lock));
  }

  lemma OtherEffect(s: State, op: Op, max: int, lock: nat)
    requires !Grants(s, op) && !Clears(s, op)
    ensures var r := Apply(s, op, max, lock);
      && r.grants == s.grants && r.all == s.all && s.now <= r.now && s.row.Some? == r.row.Some?
      && (s.row.Some? ==> r.row.value.attempts == s.row.value.attempts)
      && (s.row.Some? ==> r.row.value.lockedUntil == s.row.value.lockedUntil)
  {
  }

  lemma StepKeepsInv(s: State, op: Op, max: int, lock: nat)
    requires Inv(s, max, lock)
    ensures Inv(Apply(s, op, max, lock), max, lock)
  {
    if Grants(s, op) {
      GrantKeepsInv(s, op, max, lock);
    } else if Clears(s, op) {
      ClearKeepsInv(s, op, max, lock);
    } else {
      OtherEffect(s, op, max, lock);
      SameCounts(s, Apply(s, op, max, lock), max, lock);
      SeenStays(s, op, max, lock);
    }
  }

  lemma {:induction false} RunKeepsInv(s: State, ops: seq<Op>, max: int, lock: nat)
    requires Inv(s, max, lock)
    ensures Inv(RunFrom(s, ops, max, lock), max, lock)
  {
    if |ops| > 0 {
      RunKeepsInv(s, ops[..|ops| - 1], max, lock);
      StepKeepsInv(RunFrom(s, ops[..|ops| - 1], max, lock), ops[|ops| - 1], max, lock);
    }
  }

  /** From grant number `max` on, grants are more than the lock apart. */
  lemma RunKeepsSpacing(ops: seq<Op>, max: int, lock: nat)
    ensures Counts(Run(ops, max, lock), max, lock)
  {
    RunKeepsInv(START, ops, max, lock);
  }

  /** How many of the grants fall in [from, to]. */
  function Within(grants: seq<Time>, from: int, to: int): nat {
    if |grants| == 0 then 0
    else
      var last := grants[|grants| - 1];
      Within(grants[..|grants| - 1], from, to) + if from <= last <= to then 1 else 0
  }

  /** `c` consecutive grants starting at `i` lie in [from, to]. */
  ghost predicate Span(grants: seq<Time>, i: int, c: nat, from: int, to: int) {
    c > 0 && 0 <= i && i + c <= |grants| && from <= grants[i] && grants[i + c - 1] <= to
  }

  /** In a list in order, the grants in a window are consecutive. */
  lemma {:induction false} WithinSpan(grants: seq<Time>, from: int, to: int)
    requires InOrder(grants)
    ensures Within(grants, from, to) > 0 ==> exists i :: Span(grants, i, Within(grants, from, to), from, to)
  {
    if |grants| > 0 {
      var n := |grants| - 1;
      WithinSpan(grants[..n], from, to);
      var c := Within(grants, from, to);
      var c0 := Within(grants[..n], from, to);
      if c0 > 0 {
        var i :| Span(grants[..n], i, c0, from, to);
        if from <= grants[n] <= to {
          assert grants[i] <= grants[n - c0];
          assert Span(grants, n - c0, c, from, to);
        } else {
          assert Span(grants, i, c, from, to);
        }
      } else if c > 0 {
        assert Span(grants, n, c, from, to);
      }
    }
  }

  /** More than `m` consecutive grants take longer than the lock. */
  lemma Spread(grants: seq<Time>, m: nat, lock: nat, i: nat, c: nat)
    requires m > 0 && InOrder(grants) && Spaced(grants, m, lock)
    requires c > m && i + c <= |grants|
    ensures grants[i] + lock < grants[i + c - 1]
  {
    assert grants[i] <= grants[i + c - 2];
  }

  /** At most `max` attempts in any window of the lock's length. */
  lemma WindowBound(ops: seq<Op>, max: int, lock: nat, from: int)
    ensures Within(Run(ops, max, lock).grants, from, from + lock) <= Bound(max)
  {
    RunKeepsSpacing(ops, max, lock);
    var grants := Run(ops, max, lock).grants;
    WithinSpan(grants, from, from + lock);
    var c := Within(grants, from, from + lock);
    if c > Bound(max) {
      var i :| Span(grants, i, c, from, from + lock);
      Spread(grants, Bound(max), lock, i, c);
    }
  }

  /** Grant number m + k comes at least k locks, and k instants, after number m. */
  lemma {:induction false} LateGrant(grants: seq<Time>, m: nat, lock: nat, k: nat)
    requires m > 0 && m - 1 + k < |grants| && Spaced(grants, m, lock)
    ensures grants[m - 1] + k * (lock + 1) <= grants[m - 1 + k]
  {
    if k > 0 {
      LateGrant(grants, m, lock, k - 1);
      assert k * (lock + 1) == (k - 1) * (lock + 1) + (lock + 1);
      assert grants[m - 1 + k - 1] + lock < grants[m - 1 + k];
    }
  }

  function MostGrants(max: int, lock: nat, t: nat): nat {
    Bound(max) + t / (lock + 1)
  }

  lemma TimesMonotone(a: nat, b: nat, d: nat)
    ensures a >= b ==> a * d >= b * d
  {
  }

  lemma DivBound(k: nat, d: nat, t: nat)
    requires d > 0 && k * d <= t
    ensures k <= t / d
  {
    var q := t / d;
    assert t == q * d + t % d;
    assert (q + 1) * d == q * d + d;
    TimesMonotone(k, q + 1, d);
  }

  /** `c` grants among those up to `t` after the first. */
  lemma SpacedBound(grants: seq<Time>, m: nat, lock: nat, t: nat, c: nat)
    requires m > 0 && InOrder(grants) && Spaced(grants, m, lock)
    requires m < c <= |grants| && grants[c - 1] <= grants[0] + t
    ensures (c - m) * (lock + 1) <= t && (c - m) * lock <= t
  {
    LateGrant(grants, m, lock, c - m);
    assert grants[0] <= grants[m - 1];
    assert (c - m) * (lock + 1) == (c - m) * lock + (c - m);
  }

  lemma CountedInTime(grants: seq<Time>, m: nat, lock: nat, t: nat)
    requires m > 0 && InOrder(grants) && Spaced(grants, m, lock) && |grants| > 0
    ensures var c := Within(grants, grants[0], grants[0] + t);
      c > m ==> (c - m) * (lock + 1) <= t && (c - m) * lock <= t
  {
    WithinSpan(grants, grants[0], grants[0] + t);
    var c := Within(grants, grants[0], grants[0] + t);
    if c > m {
      var i :| Span(grants, i, c, grants[0], grants[0] + t);
      assert grants[c - 1] <= grants[i + c - 1];
      SpacedBound(grants, m, lock, t, c);
    }
  }

  lemma CountBound(c: nat, m: nat, d: nat, t: nat)
    requires d > 0 && (c > m ==> (c - m) * d <= t)
    ensures c <= m + t / d
  {
    if c > m {
      DivBound(c - m, d, t);
    }
  }

  /** In the `t` instants after the first grant there are at most
      max + floor(t / lock) of them. */
  lemma LongRunBound(ops: seq<Op>, max: int, lock: nat, t: nat)
    requires |Run(ops, max, lock).grants| > 0
    ensures var grants := Run(ops, max, lock).grants;
      && Within(grants, grants[0], grants[0] + t) <= MostGrants(max, lock, t)
      && (lock > 0 ==> Within(grants, grants[0], grants[0] + t) <= Bound(max) + t / lock)
  {
    RunKeepsSpacing(ops, max, lock);
    var grants := Run(ops, max, lock).grants;
    CountedInTime(grants, Bound(max), lock, t);
    var c := Within(grants, grants[0], grants[0] + t);
    CountBound(c, Bound(max), lock + 1, t);
    if lock > 0 {
      CountBound(c, Bound(max), lock, t);
    }
  }

  /** The steady attacker: `max` attempts at once, then one whenever the lock opens. */
  function Patient(max: int, lock: nat, n: nat): seq<Op> {
    if n == 0 then [EnrollRead(0), EnrollWrite(0, "")]
    else Patient(max, lock, n - 1) + [Claim(if n > Bound(max) then lock + 1 else 0)]
  }

  function PatientGrant(max: int, lock: nat, i: nat): Time {
    if i < Bound(max) then 0 else PatientGrant(max, lock, i - 1) + lock + 1
  }

  /** A claim `wait` after the last grant is granted if that is past any lock. */
  lemma Granted(s: State, wait: nat, max: int, lock: nat)
    requires Counts(s, max, lock) && s.row.Some?
    requires |s.grants| >= Bound(max) ==> s.grants[|s.grants| - 1] + lock < s.now + wait
    ensures var r := Apply(s, Claim(wait), max, lock);
      r.grants == s.grants + [s.now + wait] && r.now == s.now + wait && r.row.Some?
  {
  }

  ghost predicate PatientState(s: State, max: int, lock: nat, n: nat) {
    && |s.grants| == n && s.row.Some?
    && s.now == (if n == 0 then 0 else PatientGrant(max, lock, n - 1))
    && (forall i :: 0 <= i < n ==> s.grants[i] == PatientGrant(max, lock, i))
  }

  lemma PatientNext(s: State, max: int, lock: nat, n: nat)
    requires Counts(s, max, lock) && PatientState(s, max, lock, n)
    ensures PatientState(Apply(s, Claim(if n >= Bound(max) then lock + 1 else 0), max, lock), max, lock, n + 1)
  {
    var wait := if n >= Bound(max) then lock + 1 else 0;
    Granted(s, wait, max, lock);
    assert s.now + wait == PatientGrant(max, lock, n);
  }

  lemma {:induction false} PatientRun(max: int, lock: nat, n: nat)
    ensures PatientState(Run(Patient(max, lock, n), max, lock), max, lock, n)
  {
    if n == 0 {
      RunPair(START, [], EnrollRead(0), EnrollWrite(0, ""), max, lock);
      assert [] + [EnrollRead(0), EnrollWrite(0, "")] == Patient(max, lock, 0);
    } else {
      var before := Patient(max, lock, n - 1);
      PatientRun(max, lock, n - 1);
      RunKeepsSpacing(before, max, lock);
      PatientNext(Run(before, max, lock), max, lock, n - 1);
      assert Patient(max, lock, n)[..|before|] == before;
    }
  }

  lemma {:induction false} PatientTimes(max: int, lock: nat, k: nat)
    ensures PatientGrant(max, lock, Bound(max) - 1 + k) == k * (lock + 1)
  {
    if k > 0 {
      PatientTimes(max, lock, k - 1);
      assert k * (lock + 1) == (k - 1) * (lock + 1) + (lock + 1);
    }
  }

  lemma {:induction false} WithinAll(grants: seq<Time>, from: int, to: int)
    requires forall i :: 0 <= i < |grants| ==> from <= grants[i] <= to
    ensures Within(grants, from, to) == |grants|
  {
    if |grants| > 0 {
      WithinAll(grants[..|grants| - 1], from, to);
    }
  }

  lemma TimesDiv(t: nat, d: nat)
    requires d > 0
    ensures t / d * d <= t
  {
  }

  ghost predicate Reached(ops: seq<Op>, max: int, lock: nat, t: nat) {
    var grants := Run(ops, max, lock).grants;
    |grants| > 0 && Within(grants, grants[0], grants[0] + t) == MostGrants(max, lock, t)
  }

  lemma PatientLast(max: int, lock: nat, t: nat)
    ensures PatientGrant(max, lock, MostGrants(max, lock, t) - 1) <= t
  {
    PatientTimes(max, lock, t / (lock + 1));
    TimesDiv(t, lock + 1);
  }

  lemma AllInTime(grants: seq<Time>, t: nat)
    requires |grants| > 0 && InOrder(grants) && grants[|grants| - 1] <= grants[0] + t
    ensures Within(grants, grants[0], grants[0] + t) == |grants|
  {
    WithinAll(grants, grants[0], grants[0] + t);
  }

  /** The first bound of LongRunBound is reached, for every length of time. */
  lemma LongRunTight(max: int, lock: nat, t: nat)
    ensures exists ops :: Reached(ops, max, lock, t)
  {
    var n := MostGrants(max, lock, t);
    var ops := Patient(max, lock, n);
    PatientRun(max, lock, n);
    RunKeepsSpacing(ops, max, lock);
    PatientLast(max, lock, t);
    AllInTime(Run(ops, max, lock).grants, t);
    assert Reached(ops, max, lock, t);
  }

  // ----- starting over -----

  lemma RunPair(s: State, ops: seq<Op>, a: Op, b: Op, max: int, lock: nat)
    ensures RunFrom(s, ops + [a, b], max, lock) == Apply(Apply(RunFrom(s, ops, max, lock), a, max, lock), b, max, lock)
  {
    var longer := ops + [a, b];
    assert longer[..|longer| - 1] == ops + [a];
    assert (ops + [a])[..|ops|] == ops;
  }

  function StartingOver(n: nat): seq<Op> {
    if n == 0 then [] else StartingOver(n - 1) + [EnrollRead(0), EnrollWrite(0, "")] + [Claim(0)]
  }

  /** Across clears there is no bound: whoever visits the enrollment page before
      each confirmation gets any number of attempts in one instant. */
  lemma {:induction false} EnrollDefeatsThrottle(n: nat, max: int, lock: nat)
    ensures var s := Run(StartingOver(n), max, lock);
      |s.all| == n && s.now == 0 && s.requests == map[] && (s.row.Some? ==> !s.row.value.confirmed)
  {
    if n > 0 {
      EnrollDefeatsThrottle(n - 1, max, lock);
      var before := StartingOver(n - 1);
      var visited := before + [EnrollRead(0), EnrollWrite(0, "")];
      RunPair(START, before, EnrollRead(0), EnrollWrite(0, ""), max, lock);
      var s := Apply(Run(before, max, lock), EnrollRead(0), max, lock);
      assert s.requests == map[0 := s.requests[0]];
      assert (visited + [Claim(0)])[..|visited|] == visited;
    }
  }

  /** At most `max` attempts in any window of the lock's length, counting all. */
  ghost predicate HistoryOk(times: seq<Time>, max: int, lock: nat) {
    forall from: int :: WindowOk(times, from, max, lock)
  }

  ghost predicate WindowOk(times: seq<Time>, from: int, max: int, lock: nat) {
    Within(times, from, from + lock) <= Bound(max)
  }

  /** No attempt is younger than the lock. */
  predicate Quiet(s: State, lock: nat) {
    |s.all| > 0 ==> s.all[|s.all| - 1] + lock < s.now
  }

  /** What was counted before the last clear is in order, and over by then. */
  ghost predicate Throttled(s: State, max: int, lock: nat)
    requires |s.grants| <= |s.all|
  {
    && HistoryOk(Older(s), max, lock)
    && (|Older(s)| > 0 ==> Older(s)[|Older(s)| - 1] + lock < if |s.grants| > 0 then s.grants[0] else s.now)
  }

  lemma {:induction false} WithinAppend(a: seq<Time>, b: seq<Time>, from: int, to: int)
    ensures Within(a + b, from, to) == Within(a, from, to) + Within(b, from, to)
  {
    if |b| == 0 {
      assert a + b == a;
    } else {
      WithinAppend(a, b[..|b| - 1], from, to);
      assert (a + b)[..|a + b| - 1] == a + b[..|b| - 1];
    }
  }

  lemma GrantsOk(grants: seq<Time>, max: int, lock: nat, from: int)
    requires InOrder(grants) && Spaced(grants, Bound(max), lock)
    ensures Within(grants, from, from + lock) <= Bound(max)
  {
    WithinSpan(grants, from, from + lock);
    var c := Within(grants, from, from + lock);
    if c > Bound(max) {
      var i :| Span(grants, i, c, from, from + lock);
      Spread(grants, Bound(max), lock, i, c);
    }
  }

  /** Two lists more than a window apart share no window. */
  lemma NoSharedWindow(early: seq<Time>, late: seq<Time>, lock: nat, from: int)
    requires InOrder(early) && InOrder(late)
    requires |early| > 0 && |late| > 0 ==> early[|early| - 1] + lock < late[0]
    ensures Within(early, from, from + lock) == 0 || Within(late, from, from + lock) == 0
  {
    ReachesIn(early, from, from + lock);
    ReachesIn(late, from, from + lock);
  }

  lemma ReachesIn(times: seq<Time>, from: int, to: int)
    requires InOrder(times)
    ensures Within(times, from, to) > 0 ==> |times| > 0 && times[0] <= to && from <= times[|times| - 1]
  {
    WithinSpan(times, from, to);
    if Within(times, from, to) > 0 {
      var i :| Span(times, i, Within(times, from, to), from, to);
    }
  }

  lemma JoinedOk(early: seq<Time>, late: seq<Time>, max: int, lock: nat)
    requires InOrder(early) && InOrder(late) && HistoryOk(early, max, lock) && Spaced(late, Bound(max), lock)
    requires |early| > 0 && |late| > 0 ==> early[|early| - 1] + lock < late[0]
    ensures HistoryOk(early + late, max, lock)
  {
    forall from: int ensures WindowOk(early + late, from, max, lock) {
      WithinAppend(early, late, from, from + lock);
      NoSharedWindow(early, late, lock, from);
      GrantsOk(late, max, lock, from);
      assert WindowOk(early, from, max, lock);
    }
  }

  lemma OlderInOrder(s: State)
    requires |s.grants| <= |s.all| && InOrder(s.all)
    ensures InOrder(Older(s))
  {
  }

  lemma ThrottledIsOk(s: State, max: int, lock: nat)
    requires Inv(s, max, lock) && Throttled(s, max, lock)
    ensures HistoryOk(s.all, max, lock)
  {
    OlderInOrder(s);
    JoinedOk(Older(s), s.grants, max, lock);
  }

  lemma ClearIsThrottled(s: State, r: State, max: int, lock: nat)
    requires HistoryOk(s.all, max, lock) && Quiet(s, lock)
    requires r.grants == [] && r.all == s.all && r.now == s.now && Older(r) == s.all
    ensures Throttled(r, max, lock)
  {
  }

  lemma OthersEffect(s: State, op: Op, max: int, lock: nat)
    requires Inv(s, max, lock) && !Clears(s, op)
    ensures var r := Apply(s, op, max, lock);
      && |r.grants| <= |r.all| && Older(r) == Older(s) && s.now <= r.now
      && (r.grants == s.grants || r.grants == s.grants + [r.now])
  {
    if Grants(s, op) {
      GrantEffect(s, op, max, lock);
      ListedAfterGrant(s, Apply(s, op, max, lock));
    } else {
      OtherEffect(s, op, max, lock);
    }
  }

  lemma OthersStayThrottled(s: State, r: State, max: int, lock: nat)
    requires |s.grants| <= |s.all| && Throttled(s, max, lock) && |r.grants| <= |r.all| && Older(r) == Older(s)
    requires s.now <= r.now && (r.grants == s.grants || r.grants == s.grants + [r.now])
    ensures Throttled(r, max, lock)
  {
  }

  ghost predicate ClearsLate(s: State, op: Op, lock: nat) {
    Clears(s, op) ==> Quiet(s, lock)
  }

  lemma StepStaysThrottled(s: State, op: Op, max: int, lock: nat)
    requires Inv(s, max, lock) && Throttled(s, max, lock) && ClearsLate(s, op, lock)
    ensures var r := Apply(s, op, max, lock); Inv(r, max, lock) && Throttled(r, max, lock)
  {
    StepKeepsInv(s, op, max, lock);
    if Clears(s, op) {
      ThrottledIsOk(s, max, lock);
      ClearEffect(s, op, max, lock);
      ClearIsThrottled(s, Apply(s, op, max, lock), max, lock);
    } else {
      OthersEffect(s, op, max, lock);
      OthersStayThrottled(s, Apply(s, op, max, lock), max, lock);
    }
  }

  lemma StartIsThrottled(max: int, lock: nat)
    ensures Inv(START, max, lock) && Throttled(START, max, lock)
  {
    assert forall from: int :: WindowOk([], from, max, lock);
  }

  /** Step `k` clears nothing unless the last attempt is more than a lock old. */
  ghost predicate ClearsLateAt(ops: seq<Op>, k: nat, max: int, lock: nat)
    requires k < |ops|
  {
    ClearsLate(Run(ops[..k], max, lock), ops[k], lock)
  }

  lemma {:induction false} LateClearsStayThrottled(ops: seq<Op>, max: int, lock: nat)
    requires forall k: nat :: k < |ops| ==> ClearsLateAt(ops, k, max, lock)
    ensures Inv(Run(ops, max, lock), max, lock) && Throttled(Run(ops, max, lock), max, lock)
  {
    if |ops| == 0 {
      StartIsThrottled(max, lock);
    } else {
      var n := |ops| - 1;
      var before := ops[..n];
      forall k: nat | k < n ensures ClearsLateAt(before, k, max, lock) {
        assert ClearsLateAt(ops, k, max, lock) && before[..k] == ops[..k];
      }
      LateClearsStayThrottled(before, max, lock);
      assert ClearsLateAt(ops, n, max, lock);
      StepStaysThrottled(Run(before, max, lock), ops[n], max, lock);
    }
  }

  /** A run whose every clear comes more than a lock after the last attempt keeps
      the bound on all its attempts, across any number of clears. */
  lemma LateClearsKeepThrottle(ops: seq<Op>, max: int, lock: nat)
    requires forall k: nat :: k < |ops| ==> ClearsLateAt(ops, k, max, lock)
    ensures HistoryOk(Run(ops, max, lock).all, max, lock)
  {
    LateClearsStayThrottled(ops, max, lock);
    ThrottledIsOk(Run(ops, max, lock), max, lock);
  }

  /** Steps that clear nothing in any state. */
  ghost predicate NoClears(ops: seq<Op>) {
    forall k :: 0 <= k < |ops| ==> ClearsNothing(ops[k])
  }

  predicate ClearsNothing(op: Op) {
    op.Claim? || op.Confirm? || op.EnrollRead?
  }

  ghost predicate Kept(s: State, max: int, lock: nat) {
    Inv(s, max, lock) && Throttled(s, max, lock)
  }

  lemma StepKept(s: State, op: Op, max: int, lock: nat)
    requires Kept(s, max, lock) && ClearsNothing(op)
    ensures Kept(Apply(s, op, max, lock), max, lock)
  {
    StepStaysThrottled(s, op, max, lock);
  }

  lemma {:induction false} NoClearsKept(s: State, ops: seq<Op>, max: int, lock: nat)
    requires Kept(s, max, lock) && NoClears(ops)
    ensures Kept(RunFrom(s, ops, max, lock), max, lock)
  {
    if |ops| > 0 {
      var n := |ops| - 1;
      NoClearsKept(s, ops[..n], max, lock);
      StepKept(RunFrom(s, ops[..n], max, lock), ops[n], max, lock);
    }
  }

  function Burst(n: nat): seq<Op> {
    if n == 0 then [] else Burst(n - 1) + [Claim(0)]
  }

  function Copies(n: nat, x: Time): (r: seq<Time>)
    ensures |r| == n && forall i :: 0 <= i < n ==> r[i] == x
  {
    if n == 0 then [] else Copies(n - 1, x) + [x]
  }

  /** A claim that finds the row open is granted on the spot. */
  lemma OneMore(s: State, max: int, lock: nat)
    requires Counts(s, max, lock) && s.row.Some? && |s.grants| < Bound(max)
    ensures var r := Apply(s, Claim(0), max, lock);
      && r.row.Some? && r.now == s.now && r.grants == s.grants + [s.now]
      && r.all == s.all + [s.now] && Counts(r, max, lock)
  {
    CountsAfterGrant(s, Apply(s, Claim(0), max, lock), max, lock);
  }

  ghost predicate AfterBurst(s: State, r: State, n: nat, max: int, lock: nat) {
    && Counts(r, max, lock) && r.row.Some? && r.now == s.now && |r.grants| == n
    && r.all == s.all + Copies(n, s.now)
  }

  lemma BurstStep(s: State, r: State, n: nat, max: int, lock: nat)
    requires AfterBurst(s, r, n, max, lock) && n < Bound(max)
    ensures AfterBurst(s, Apply(r, Claim(0), max, lock), n + 1, max, lock)
  {
    OneMore(r, max, lock);
    assert s.all + Copies(n, s.now) + [s.now] == s.all + (Copies(n, s.now) + [s.now]);
  }

  lemma {:induction false} BurstClearsNothing(n: nat)
    ensures NoClears(Burst(n))
  {
    if n > 0 {
      BurstClearsNothing(n - 1);
    }
  }

  /** After the clear, `max` attempts go through at once. */
  lemma {:induction false} BurstRun(s: State, n: nat, max: int, lock: nat)
    requires Counts(s, max, lock) && s.row.Some? && s.grants == [] && n <= Bound(max)
    ensures AfterBurst(s, RunFrom(s, Burst(n), max, lock), n, max, lock)
  {
    if n == 0 {
      assert s.all + Copies(0, s.now) == s.all;
    } else {
      BurstRun(s, n - 1, max, lock);
      assert Burst(n)[..|Burst(n)| - 1] == Burst(n - 1);
      BurstStep(s, RunFrom(s, Burst(n - 1), max, lock), n - 1, max, lock);
    }
  }

  /** One attempt at `last` and `max` more within a lock of it. */
  lemma Crowded(times: seq<Time>, at: Time, max: int, lock: nat)
    requires |times| > 0 && times[|times| - 1] <= at <= times[|times| - 1] + lock
    ensures !HistoryOk(times + Copies(Bound(max), at), max, lock)
  {
    var last, burst := times[|times| - 1], Copies(Bound(max), at);
    WithinAll(burst, last, last + lock);
    WithinAppend(times, burst, last, last + lock);
    assert Within(times, last, last + lock) >= 1;
    assert !WindowOk(times + burst, last, max, lock);
  }

  lemma BurstBreaks(s: State, op: Op, max: int, lock: nat)
    requires Inv(s, max, lock) && Clears(s, op) && !Quiet(s, lock)
    ensures NoClears(Burst(Bound(max)))
    ensures !HistoryOk(RunFrom(Apply(s, op, max, lock), Burst(Bound(max)), max, lock).all, max, lock)
  {
    StepKeepsInv(s, op, max, lock);
    ClearEffect(s, op, max, lock);
    BurstClearsNothing(Bound(max));
    BurstRun(Apply(s, op, max, lock), Bound(max), max, lock);
    Crowded(s.all, s.now, max, lock);
  }

  /** The bound survives the clear, whatever attempts follow it. */
  ghost predicate SurvivesClear(s: State, op: Op, max: int, lock: nat) {
    forall ops :: NoClears(ops) ==> HistoryOk(RunFrom(Apply(s, op, max, lock), ops, max, lock).all, max, lock)
  }

  /** Visiting the enrollment page, or any other clear, is harmless exactly when
      the last attempt is more than a lock old: then and only then all attempts,
      old and new, keep the bound in every continuation without a further clear. */
  lemma ClearIsHarmlessIff(s: State, op: Op, max: int, lock: nat)
    requires Inv(s, max, lock) && Clears(s, op)
    ensures SurvivesClear(s, op, max, lock) <==> HistoryOk(s.all, max, lock) && Quiet(s, lock)
  {
    if HistoryOk(s.all, max, lock) && Quiet(s, lock) {
      ClearSurvives(s, op, max, lock);
    } else if Quiet(s, lock) {
      assert NoClears([]);
      assert RunFrom(Apply(s, op, max, lock), [], max, lock).all == s.all;
    } else {
      BurstBreaks(s, op, max, lock);
    }
  }

  lemma ClearSurvives(s: State, op: Op, max: int, lock: nat)
    requires Inv(s, max, lock) && Clears(s, op) && HistoryOk(s.all, max, lock) && Quiet(s, lock)
    ensures SurvivesClear(s, op, max, lock)
  {
    var r := Apply(s, op, max, lock);
    StepKeepsInv(s, op, max, lock);
    ClearEffect(s, op, max, lock);
    ClearIsThrottled(s, r, max, lock);
    forall ops | NoClears(ops) ensures HistoryOk(RunFrom(r, ops, max, lock).all, max, lock) {
      NoClearsKept(r, ops, max, lock);
      ThrottledIsOk(RunFrom(r, ops, max, lock), max, lock);
    }
  }

  // ----- confirmed credentials -----

  predicate Confirmed(s: State) {
    s.row.Some? && s.row.value.confirmed
  }

  predicate SeesPending(s: State, op: Op, r: Uuid) {
    op == EnrollRead(r) && r !in s.requests && s.row.Some? && !Confirmed(s)
  }

  /** The request reads a pending credential as step `i` and has not written since. */
  ghost predicate ReadAt(ops: seq<Op>, i: nat, r: Uuid, max: int, lock: nat)
    requires i < |ops|
  {
    && SeesPending(Run(ops[..i], max, lock), ops[i], r)
    && forall k: nat :: i < k < |ops| ==> !(ops[k].EnrollWrite? && ops[k].request == r)
  }

  /** Step `j` confirms and no enrollment overwrites the row since. */
  ghost predicate ConfirmedAt(ops: seq<Op>, j: nat, max: int, lock: nat)
    requires j < |ops|
  {
    && ops[j] == Confirm && Run(ops[..j], max, lock).row.Some?
    && forall k: nat :: j < k < |ops| ==> !Overwrites(Run(ops[..k], max, lock), ops[k])
  }

  ghost predicate HasRead(ops: seq<Op>, r: Uuid, max: int, lock: nat) {
    exists i: nat :: i < |ops| && ReadAt(ops, i, r, max, lock)
  }

  ghost predicate HasConfirmed(ops: seq<Op>, max: int, lock: nat) {
    exists j: nat :: j < |ops| && ConfirmedAt(ops, j, max, lock)
  }

  lemma ReadSnoc(ops: seq<Op>, op: Op, r: Uuid, max: int, lock: nat)
    ensures var s := Run(ops, max, lock);
      HasRead(ops + [op], r, max, lock)
      <==> || (HasRead(ops, r, max, lock) && !(op.EnrollWrite? && op.request == r))
           || SeesPending(s, op, r)
  {
    var all, n := ops + [op], |ops|;
    assert all[..n] == ops;
    forall i: nat | i < n
      ensures ReadAt(all, i, r, max, lock) <==> ReadAt(ops, i, r, max, lock) && !(op.EnrollWrite? && op.request == r)
    {
      assert all[..i] == ops[..i];
      assert all[n] == op;
      assert forall k: nat :: k < n ==> all[k] == ops[k];
    }
    var s := Run(ops, max, lock);
    assert ReadAt(all, n, r, max, lock) <==> SeesPending(s, op, r);
  }

  lemma ConfirmedSnoc(ops: seq<Op>, op: Op, max: int, lock: nat)
    ensures var s := Run(ops, max, lock);
      HasConfirmed(ops + [op], max, lock)
      <==> (HasConfirmed(ops, max, lock) && !Overwrites(s, op)) || (op == Confirm && s.row.Some?)
  {
    var all, n := ops + [op], |ops|;
    assert all[..n] == ops;
    forall j: nat | j < n
      ensures ConfirmedAt(all, j, max, lock) <==> ConfirmedAt(ops, j, max, lock) && !Overwrites(Run(ops, max, lock), op)
    {
      assert all[n] == op && all[..j] == ops[..j];
      assert forall k: nat :: k < n ==> all[k] == ops[k] && all[..k] == ops[..k];
    }
    assert ConfirmedAt(all, n, max, lock) <==> op == Confirm && Run(ops, max, lock).row.Some?;
  }

  lemma PendingStep(s: State, op: Op, r: Uuid, max: int, lock: nat)
    ensures IsPending(Apply(s, op, max, lock), r)
       <==> (IsPending(s, r) && !(op.EnrollWrite? && op.request == r)) || SeesPending(s, op, r)
  {
  }

  lemma ConfirmedStep(s: State, op: Op, max: int, lock: nat)
    requires SeenIsThere(s)
    ensures Confirmed(Apply(s, op, max, lock))
       <==> (Confirmed(s) && !Overwrites(s, op)) || (op == Confirm && s.row.Some?)
  {
  }

  /** Where a request stands, and whether the credential is confirmed, told from
      the history. */
  lemma {:induction false} HistoryTells(ops: seq<Op>, r: Uuid, max: int, lock: nat)
    ensures SeenIsThere(Run(ops, max, lock))
    ensures IsPending(Run(ops, max, lock), r) <==> HasRead(ops, r, max, lock)
    ensures Confirmed(Run(ops, max, lock)) <==> HasConfirmed(ops, max, lock)
  {
    if |ops| > 0 {
      var n := |ops| - 1;
      var before := ops[..n];
      HistoryTells(before, r, max, lock);
      assert ops == before + [ops[n]];
      SeenStays(Run(before, max, lock), ops[n], max, lock);
      PendingStep(Run(before, max, lock), ops[n], r, max, lock);
      ConfirmedStep(Run(before, max, lock), ops[n], max, lock);
      ReadSnoc(before, ops[n], r, max, lock);
      ConfirmedSnoc(before, ops[n], max, lock);
    }
  }

  /** The step turns a confirmed credential back into a pending one. */
  ghost predicate Downgrades(s: State, op: Op, max: int, lock: nat) {
    Confirmed(s) && !Confirmed(Apply(s, op, max, lock))
  }

  /** A confirmed credential is downgraded by exactly one thing: an enrollment
      that read it while still pending and writes after it was confirmed, with no
      other such write after the confirmation. */
  lemma DowngradedIff(ops: seq<Op>, op: Op, max: int, lock: nat)
    ensures Downgrades(Run(ops, max, lock), op, max, lock) <==>
      op.EnrollWrite? && exists i: nat, j: nat ::
        i < j < |ops| && ReadAt(ops, i, op.request, max, lock) && ConfirmedAt(ops, j, max, lock)
  {
    var s := Run(ops, max, lock);
    if op.EnrollWrite? {
      HistoryTells(ops, op.request, max, lock);
      if Overwrites(s, op) && Confirmed(s) {
        var i: nat :| i < |ops| && ReadAt(ops, i, op.request, max, lock);
        var j: nat :| j < |ops| && ConfirmedAt(ops, j, max, lock);
        if j < i {
          ConfirmedUntil(ops, j, i, max, lock);
        }
        assert i < j;
      }
    }
  }

  lemma ConfirmedUntil(ops: seq<Op>, j: nat, i: nat, max: int, lock: nat)
    requires j < i < |ops| && ConfirmedAt(ops, j, max, lock)
    ensures Confirmed(Run(ops[..i], max, lock))
  {
    var before := ops[..i];
    assert before[..j] == ops[..j];
    assert forall k: nat :: k < i ==> before[k] == ops[k] && before[..k] == ops[..k];
    assert ConfirmedAt(before, j, max, lock);
    HistoryTells(before, 0, max, lock);
  }

  /** And it happens: a second enrollment reads while the first is pending, and
      writes after it was confirmed. */
  lemma DowngradeHappens(max: int, lock: nat)
    ensures exists ops, op :: Downgrades(Run(ops, max, lock), op, max, lock)
  {
    var first := [] + [EnrollRead(0), EnrollWrite(0, "")];
    RunPair(START, [], EnrollRead(0), EnrollWrite(0, ""), max, lock);
    assert Run(first, max, lock) == Cleared(START, Totp("", false, 0, None));
    RunPair(START, first, EnrollRead(1), Confirm, max, lock);
    var s := Run(first + [EnrollRead(1), Confirm], max, lock);
    assert s.requests == map[1 := SawPending] && Confirmed(s);
    assert Downgrades(s, EnrollWrite(1, ""), max, lock);
  }

  // ----- the repository -----

  datatype Error = NoError | NotFound | AlreadyConfirmed | StoreError

  class TotpRepository {
    var rows: map<Uuid, Totp>

    constructor ()
      ensures rows == map[]
    {
      rows := map[];
    }

    /** The first statement of EnrollPending; None when it ends there. */
    method ReadEnrollment(user: Uuid) returns (seen: Option<Seen>)
      ensures seen == if user !in rows then Some(SawNone) else if rows[user].confirmed then None else Some(SawPending)
    {
      if user !in rows {
        return Some(SawNone);
      }
      return if rows[user].confirmed then None else Some(SawPending);
    }

    /** The second: an insert, or an update that does not look again. */
    method WriteEnrollment(user: Uuid, seen: Seen, secret: string) returns (err: Error)
      requires seen == SawPending ==> user in rows
      modifies this
      ensures err == if seen == SawNone && user in old(rows) then StoreError else NoError
      ensures rows == if err == NoError then old(rows)[user := Totp(secret, false, 0, None)] else old(rows)
    {
      if seen == SawNone {
        if user in rows {
          return StoreError;
        }
        rows := rows[user := Totp(secret, false, 0, None)];
        return NoError;
      }
      rows := rows[user := rows[user].(secret := secret, confirmed := false, attempts := 0, lockedUntil := None)];
      return NoError;
    }

    /** Both in a row: alone it never touches a confirmed credential. */
    method EnrollPending(user: Uuid, secret: string) returns (err: Error)
      modifies this
      ensures err == if user in old(rows) && old(rows)[user].confirmed then AlreadyConfirmed else NoError
      ensures rows == if err == NoError then old(rows)[user := Totp(secret, false, 0, None)] else old(rows)
    {
      var seen := ReadEnrollment(user);
      if seen.None? {
        return AlreadyConfirmed;
      }
      err := WriteEnrollment(user, seen.value, secret);
    }

    /** One conditional UPDATE reserves the attempt before the code is checked. */
    method ClaimEnrollAttempt(user: Uuid, max: int, lock: nat, now: Time, fault: Fault)
      returns (allowed: bool, err: Error)
      modifies this
      ensures err == if fault == Sound then NoError else StoreError
      ensures allowed <==> fault == Sound && user in old(rows) && Open(old(rows)[user], now)
      ensures allowed ==>
        && user in old(rows) && (old(rows)[user].lockedUntil.None? || old(rows)[user].lockedUntil.value < now)
        && user in rows && rows[user].attempts == old(rows)[user].attempts + 1
        && rows[user].lockedUntil == (if rows[user].attempts >= max then Some(now + lock)
                                      else old(rows)[user].lockedUntil)
        && rows[user].secret == old(rows)[user].secret && rows[user].confirmed == old(rows)[user].confirmed
      ensures !allowed && err == NoError ==>
        && rows == old(rows)
        && (user in rows ==> rows[user].lockedUntil.Some? && now <= rows[user].lockedUntil.value)
      ensures rows == if user in old(rows) && Open(old(rows)[user], now) && fault != RolledBack
                      then old(rows)[user := Counted(old(rows)[user], max, lock, now)] else old(rows)
    {
      var affected := 0;
      if user in rows && (rows[user].lockedUntil.None? || rows[user].lockedUntil.value < now) && fault != RolledBack {
        var row := rows[user];
        if row.attempts + 1 >= max {
          row := row.(lockedUntil := Some(now + lock));
        }
        rows := rows[user := row.(attempts := row.attempts + 1)];
        affected := 1;
      }
      if fault != Sound {
        return false, StoreError;
      }
      return affected > 0, NoError;
    }

    method ResetEnrollAttempts(user: Uuid, fault: Fault) returns (err: Error)
      modifies this
      ensures err == if fault == Sound then NoError else StoreError
      ensures rows == if user in old(rows) && fault != RolledBack
                      then old(rows)[user := old(rows)[user].(attempts := 0, lockedUntil := None)] else old(rows)
    {
      if user in rows && fault != RolledBack {
        rows := rows[user := rows[user].(attempts := 0, lockedUntil := None)];
      }
      return if fault == Sound then NoError else StoreError;
    }

    method Confirm(user: Uuid, fault: Fault) returns (err: Error)
      modifies this
      ensures err == if fault != Sound then StoreError else if user in old(rows) then NoError else NotFound
      ensures rows == if user in old(rows) && fault != RolledBack
                      then old(rows)[user := old(rows)[user].(confirmed := true)] else old(rows)
    {
      if user in rows && fault != RolledBack {
        rows := rows[user := rows[user].(confirmed := true)];
      }
      if fault != Sound {
        return StoreError;
      }
      return if user in rows then NoError else NotFound;
    }
  }

  const ENROLL_MAX_ATTEMPTS := 5

  function RowOf(rows: map<Uuid, Totp>, user: Uuid): Option<Totp> {
    if user in rows then Some(rows[user]) else None
  }

  /** What one confirmation request does to the credential, step by step: a
      claim, a confirmation if the claim was granted and the code is valid, a
      reset after that, each as far as the database lets it. */
  function Confirmation(row: Option<Totp>, now: Time, lock: nat, codeIsValid: bool,
                        claim: Fault, confirm: Fault, reset: Fault): (State, bool)
  {
    var s0 := State(row, now, [], [], map[]);
    var s1 := if claim == RolledBack then s0 else Apply(s0, Claim(0), ENROLL_MAX_ATTEMPTS, lock);
    var verified := claim == Sound && |s1.grants| == 1 && codeIsValid;
    var s2 := if verified && confirm != RolledBack then Apply(s1, Confirm, ENROLL_MAX_ATTEMPTS, lock) else s1;
    var done := verified && confirm == Sound;
    (if done && reset != RolledBack then Apply(s2, Reset, ENROLL_MAX_ATTEMPTS, lock) else s2, done)
  }

  /** ConfirmMFAEnrollment: reserve, verify, confirm, reset. It reports success
      exactly for a granted claim, a valid code and a confirmation that commits; a
      reset that fails is ignored. */
  method ConfirmMfaEnrollment(repo: TotpRepository, user: Uuid, codeIsValid: bool, lock: nat, now: Time,
                              claim: Fault, confirm: Fault, reset: Fault) returns (ok: bool)
    modifies repo
    ensures ok <==>
      && user in old(repo.rows) && claim == Sound && codeIsValid && confirm == Sound
      && (old(repo.rows)[user].lockedUntil.None? || old(repo.rows)[user].lockedUntil.value < now)
    ensures user in old(repo.rows) ==>
      var row, unlocked := old(repo.rows)[user], old(repo.rows)[user].lockedUntil.None?
                                                 || old(repo.rows)[user].lockedUntil.value < now;
      && user in repo.rows
      && (!unlocked ==> repo.rows[user] == row)
      && (unlocked && claim == Sound && !codeIsValid ==>
            repo.rows[user] == row.(attempts := row.attempts + 1,
                                    lockedUntil := if row.attempts + 1 >= 5 then Some(now + lock) else row.lockedUntil))
      && (ok ==> repo.rows[user].confirmed && repo.rows[user].secret == row.secret)
      && (ok && reset == Sound ==> repo.rows[user].attempts == 0 && repo.rows[user].lockedUntil.None?)
    ensures var (s, done) := Confirmation(RowOf(old(repo.rows), user), now, lock, codeIsValid, claim, confirm, reset);
      RowOf(repo.rows, user) == s.row && ok == done
    ensures forall u :: u != user ==> RowOf(repo.rows, u) == RowOf(old(repo.rows), u)
  {
    if user !in repo.rows {
      return false;
    }
    var allowed, err := repo.ClaimEnrollAttempt(user, ENROLL_MAX_ATTEMPTS, lock, now, claim);
    if err != NoError || !allowed {
      return false;
    }
    if !codeIsValid {
      return false;
    }
    err := repo.Confirm(user, confirm);
    if err != NoError {
      return false;
    }
    err := repo.ResetEnrollAttempts(user, reset);
    return true;
  }
}
