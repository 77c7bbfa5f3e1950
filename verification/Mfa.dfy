/** The second login step: any number of LoginMFA requests working on one
    challenge at once, each of them find, claim, verify, consume. */
module Mfa {
  import opened Domain

  const MAX_ATTEMPTS := 5

  /** An `mfa_login_challenges` row. */
  datatype Challenge = Challenge(user: Uuid, attempts: nat, usedAt: Option<Time>, expiresAt: Time)

  /** The guard of FindActiveByToken and ClaimAttempt. */
  predicate Claimable(c: Challenge, max: int, now: Time) {
    c.usedAt.None? && now < c.expiresAt && c.attempts < max
  }

  /** The guard of ConsumeAndCreateSession: the last claim may still be used. */
  predicate Consumable(c: Challenge, max: int, now: Time) {
    c.usedAt.None? && now < c.expiresAt && c.attempts <= max
  }

  /** Where a request stands; one that ended is no longer listed. */
  datatype Request = Found | Claimed | Verified(check: nat)

  /** One run of the code verifier. */
  datatype Check = Check(request: Uuid, code: string, at: Time, ok: bool)

  datatype Session = Session(user: Uuid, request: Uuid, check: nat)

  /** `valid` stands for the TOTP verifier. `checks` lists every run of it. */
  datatype State = State(
    now: Time, valid: (string, Time) -> bool, challenge: Challenge,
    requests: map<Uuid, Request>, checks: seq<Check>, sessions: seq<Session>)

  datatype Action =
    | Tick(elapsed: nat)
    | Find(request: Uuid)
    | Claim(request: Uuid, fault: Fault)
    | Verify(request: Uuid, code: string)
    | Consume(request: Uuid, fault: Fault)
    | Abandon(request: Uuid)

  function Drop(s: State, r: Uuid): State {
    s.(requests := s.requests - {r})
  }

  function ClaimStep(s: State, r: Uuid, fault: Fault): State {
    if !Claimable(s.challenge, MAX_ATTEMPTS, s.now) || fault == RolledBack then Drop(s, r)
    else
      var counted := s.(challenge := s.challenge.(attempts := s.challenge.attempts + 1));
      if fault == Sound then counted.(requests := s.requests[r := Claimed]) else Drop(counted, r)
  }

  /** An empty code is refused without running the verifier. */
  function VerifyStep(s: State, r: Uuid, code: string): State {
    if code == "" then Drop(s, r)
    else
      var ok := s.valid(code, s.now);
      var checked := s.(checks := s.checks + [Check(r, code, s.now, ok)]);
      if ok then checked.(requests := s.requests[r := Verified(|s.checks|)]) else Drop(checked, r)
  }

  function ConsumeStep(s: State, r: Uuid, check: nat, fault: Fault): State {
    if !Consumable(s.challenge, MAX_ATTEMPTS, s.now) || fault == RolledBack then Drop(s, r)
    else Drop(s, r).(challenge := s.challenge.(usedAt := Some(s.now)),
                     sessions := s.sessions + [Session(s.challenge.user, r, check)])
  }

  function Apply(s: State, a: Action): State {
    if a.Tick? then s.(now := s.now + a.elapsed)
    else if a.Find? then
      if a.request in s.requests || !Claimable(s.challenge, MAX_ATTEMPTS, s.now) then s
      else s.(requests := s.requests[a.request := Found])
    else if a.request !in s.requests then s
    else
      var at := s.requests[a.request];
      if a.Claim? && at.Found? then ClaimStep(s, a.request, a.fault)
      else if a.Verify? && at.Claimed? then VerifyStep(s, a.request, a.code)
      else if a.Consume? && at.Verified? then ConsumeStep(s, a.request, at.check, a.fault)
      else if a.Abandon? then Drop(s, a.request)
      else s
  }

  function Run(s: State, actions: seq<Action>): State {
    if |actions| == 0 then s else Apply(Run(s, actions[..|actions| - 1]), actions[|actions| - 1])
  }

  predicate Init(s: State) {
    s.challenge.attempts == 0 && s.challenge.usedAt.None? && s.requests == map[] && s.checks == [] && s.sessions == []
  }

  // ----- invariants -----

  /** The requests holding a claim they have not spent. */
  function Claimants(requests: map<Uuid, Request>): set<Uuid> {
    set r | r in requests && requests[r].Claimed?
  }

  ghost predicate CheckOk(s: State, r: Uuid, check: nat) {
    && check < |s.checks| && s.checks[check].request == r && s.checks[check].ok
    && s.valid(s.checks[check].code, s.checks[check].at)
  }

  /** Every verifier run spent a claim, and every unspent claim was counted. */
  ghost predicate Counted(s: State) {
    && |s.checks| + |Claimants(s.requests)| <= s.challenge.attempts <= MAX_ATTEMPTS
    && |s.sessions| == (if s.challenge.usedAt.Some? then 1 else 0)
  }

  ghost predicate Earned(s: State) {
    && (forall r <- s.requests :: s.requests[r].Verified? ==> CheckOk(s, r, s.requests[r].check))
    && (forall x <- s.sessions :: CheckOk(s, x.request, x.check) && x.user == s.challenge.user)
  }

  ghost predicate Inv(s: State) {
    Counted(s) && Earned(s)
  }

  lemma PutCounts(requests: map<Uuid, Request>, r: Uuid, x: Request)
    requires r in requests && requests[r].Claimed? ==> !x.Claimed?
    ensures |Claimants(requests[r := x])| == |Claimants(requests)|
      + (if x.Claimed? then 1 else 0) - (if r in requests && requests[r].Claimed? then 1 else 0)
  {
    if x.Claimed? {
      assert Claimants(requests[r := x]) == Claimants(requests) + {r};
    } else {
      assert Claimants(requests[r := x]) == Claimants(requests) - {r};
    }
  }

  lemma DropCounts(requests: map<Uuid, Request>, r: Uuid)
    ensures |Claimants(requests - {r})|
      == |Claimants(requests)| - (if r in requests && requests[r].Claimed? then 1 else 0)
  {
    assert Claimants(requests - {r}) == Claimants(requests) - {r};
  }

  lemma StepCounts(s: State, a: Action)
    requires Counted(s)
    ensures Counted(Apply(s, a))
  {
    if !a.Tick? {
      DropCounts(s.requests, a.request);
      if a.Find? && a.request !in s.requests {
        PutCounts(s.requests, a.request, Found);
      } else if a.Claim? && a.request in s.requests && s.requests[a.request].Found? {
        PutCounts(s.requests, a.request, Claimed);
      } else if a.Verify? && a.request in s.requests && s.requests[a.request].Claimed? {
        PutCounts(s.requests, a.request, Verified(|s.checks|));
      }
    }
  }

  /** Only two steps make anything a check must back: a successful Verify and
      Consume. */
  lemma StepMoves(s: State, a: Action)
    ensures var t := Apply(s, a);
      && t.valid == s.valid && t.challenge.user == s.challenge.user && s.checks <= t.checks
      && (forall r <- t.requests :: t.requests[r].Verified? ==>
            (r in s.requests && t.requests[r] == s.requests[r]) || CheckOk(t, r, t.requests[r].check))
      && (t.sessions == s.sessions
          || (a.Consume? && a.request in s.requests && s.requests[a.request].Verified?
              && t.sessions == s.sessions + [Session(s.challenge.user, a.request, s.requests[a.request].check)]))
  {
  }

  lemma StepEarns(s: State, a: Action)
    requires Earned(s)
    ensures Earned(Apply(s, a))
  {
    var t := Apply(s, a);
    StepMoves(s, a);
    forall r: Uuid, check: nat | CheckOk(s, r, check) ensures CheckOk(t, r, check) {
      assert s.checks[check] == t.checks[check];
    }
  }

  lemma StepKeepsInv(s: State, a: Action)
    requires Inv(s)
    ensures Inv(Apply(s, a))
  {
    StepCounts(s, a);
    StepEarns(s, a);
  }

  lemma {:induction false} RunKeepsInv(s: State, actions: seq<Action>)
    requires Init(s)
    ensures Inv(Run(s, actions))
  {
    if |actions| == 0 {
      assert Claimants(s.requests) == {};
    } else {
      RunKeepsInv(s, actions[..|actions| - 1]);
      StepKeepsInv(Run(s, actions[..|actions| - 1]), actions[|actions| - 1]);
    }
  }

  /** For every interleaving of any number of requests: at most five codes are
      verified, at most one session is created, a session exists exactly when
      the challenge is used, and it belongs to the challenge's user and to a
      request whose claimed attempt carried a valid code. */
  lemma Limits(s: State, actions: seq<Action>)
    requires Init(s)
    ensures var t := Run(s, actions);
      && |t.checks| <= 5 && |t.sessions| <= 1
      && (|t.sessions| == 1 <==> t.challenge.usedAt.Some?)
      && (forall x <- t.sessions :: CheckOk(t, x.request, x.check) && x.user == t.challenge.user)
  {
    RunKeepsInv(s, actions);
  }

  /** Whoever verified a code completes the login exactly when nobody else has
      and the challenge has not expired: running out of attempts never blocks
      the holder of a claim, the last one included. */
  lemma VerifiedCompletes(s: State, actions: seq<Action>, r: Uuid)
    requires Init(s)
    requires var t := Run(s, actions); r in t.requests && t.requests[r].Verified?
    ensures var t := Run(s, actions); var u := Apply(t, Consume(r, Sound));
      |u.sessions| == |t.sessions| + 1 <==> t.challenge.usedAt.None? && t.now < t.challenge.expiresAt
  {
    RunKeepsInv(s, actions);
  }

  /** So the holder of any unspent claim, the fifth included, can still log in. */
  lemma LastClaimCompletes(s: State, actions: seq<Action>, r: Uuid, code: string)
    requires Init(s)
    requires var t := Run(s, actions);
      && r in t.requests && t.requests[r].Claimed? && t.challenge.usedAt.None? && t.now < t.challenge.expiresAt
      && code != "" && t.valid(code, t.now)
    ensures var u := Apply(Apply(Run(s, actions), Verify(r, code)), Consume(r, Sound));
      |u.sessions| == 1 && u.sessions[0].request == r
  {
    RunKeepsInv(s, actions);
  }

  function RequestIds(n: nat): seq<Action> {
    if n == 0 then [] else RequestIds(n - 1) + [Find(n), Claim(n, Sound)]
  }

  lemma RunPair(s: State, actions: seq<Action>, a: Action, b: Action)
    ensures Run(s, actions + [a, b]) == Apply(Apply(Run(s, actions), a), b)
  {
    var all := actions + [a, b];
    assert all[..|all| - 1] == actions + [a];
    assert (actions + [a])[..|actions|] == actions;
  }

  /** The first `n` requests hold a claim and nothing else has happened. */
  ghost predicate AllClaimed(s: State, t: State, n: nat) {
    && t == s.(challenge := s.challenge.(attempts := n), requests := t.requests)
    && (forall r :: r in t.requests <==> 1 <= r <= n)
    && (forall r <- t.requests :: t.requests[r] == Claimed)
  }

  lemma OneMoreClaim(s: State, t: State, n: nat)
    requires Init(s) && s.now < s.challenge.expiresAt && n < MAX_ATTEMPTS && AllClaimed(s, t, n)
    ensures AllClaimed(s, Apply(Apply(t, Find(n + 1)), Claim(n + 1, Sound)), n + 1)
  {
    assert Apply(t, Find(n + 1)) == t.(requests := t.requests[n + 1 := Found]);
  }

  /** The first five requests all get a claim. */
  lemma {:induction false} ClaimsRun(s: State, n: nat)
    requires Init(s) && s.now < s.challenge.expiresAt && n <= MAX_ATTEMPTS
    ensures AllClaimed(s, Run(s, RequestIds(n)), n)
  {
    if n > 0 {
      ClaimsRun(s, n - 1);
      RunPair(s, RequestIds(n - 1), Find(n), Claim(n, Sound));
      OneMoreClaim(s, Run(s, RequestIds(n - 1)), n - 1);
    }
  }

  /** And the two guards must differ: once five claims are out nothing can be
      claimed any more, while each of the five can still be consumed. */
  lemma GuardsDiffer(s: State)
    requires Init(s) && s.now < s.challenge.expiresAt
    ensures var t := Run(s, RequestIds(MAX_ATTEMPTS));
      && (forall r :: 1 <= r <= MAX_ATTEMPTS ==> r in t.requests && t.requests[r] == Claimed)
      && !Claimable(t.challenge, MAX_ATTEMPTS, t.now) && Consumable(t.challenge, MAX_ATTEMPTS, t.now)
  {
    ClaimsRun(s, MAX_ATTEMPTS);
  }

  // ----- the repository -----

  datatype Error = NoError | ChallengeNotFound | StoreError

  class MfaRepository {
    var challenges: map<Uuid, Challenge>
    var sessions: map<Uuid, Uuid>

    constructor ()
      ensures challenges == map[] && sessions == map[]
    {
      challenges, sessions := map[], map[];
    }

    method Create(id: Uuid, user: Uuid, now: Time, ttl: Time)
      requires id !in challenges
      modifies this`challenges
      ensures challenges == old(challenges)[id := Challenge(user, 0, None, now + ttl)]
    {
      challenges := challenges[id := Challenge(user, 0, None, now + ttl)];
    }

    method FindActive(id: Uuid, max: int, now: Time) returns (found: Option<Challenge>)
      ensures found == if id in challenges && Claimable(challenges[id], max, now) then Some(challenges[id]) else None
      ensures found.Some? <==> id in challenges && challenges[id].usedAt.None? && now < challenges[id].expiresAt
                               && challenges[id].attempts < max
    {
      if id in challenges && challenges[id].usedAt.None? && challenges[id].expiresAt > now
         && challenges[id].attempts < max {
        return Some(challenges[id]);
      }
      return None;
    }

    /** One conditional UPDATE: it counts, or it touches nothing. */
    method ClaimAttempt(id: Uuid, max: int, now: Time, fault: Fault) returns (claimed: bool, err: Error)
      modifies this`challenges
      ensures err == if fault == Sound then NoError else StoreError
      ensures claimed <==> fault == Sound && id in old(challenges) && Claimable(old(challenges)[id], max, now)
      ensures claimed ==>
        && id in old(challenges) && old(challenges)[id].usedAt.None? && now < old(challenges)[id].expiresAt
        && old(challenges)[id].attempts < max
        && challenges == old(challenges)[id := old(challenges)[id].(attempts := old(challenges)[id].attempts + 1)]
      ensures !claimed && err == NoError ==>
        || id !in old(challenges) || old(challenges)[id].usedAt.Some? || old(challenges)[id].expiresAt <= now
        || old(challenges)[id].attempts >= max
      ensures challenges == if fault != RolledBack && id in old(challenges) && Claimable(old(challenges)[id], max, now)
                            then old(challenges)[id :=
                                 old(challenges)[id].(attempts := old(challenges)[id].attempts + 1)]
                            else old(challenges)
    {
      var affected := 0;
      if fault != RolledBack && id in challenges && challenges[id].usedAt.None? && challenges[id].expiresAt > now
         && challenges[id].attempts < max {
        challenges := challenges[id := challenges[id].(attempts := challenges[id].attempts + 1)];
        affected := 1;
      }
      if fault != Sound {
        return false, StoreError;
      }
      return affected == 1, NoError;
    }

    /** Consume the challenge and insert the session: both or neither. The
        insert fails on a session id already taken. */
    method ConsumeAndCreateSession(id: Uuid, session: Uuid, max: int, now: Time, fault: Fault) returns (err: Error)
      modifies this
      ensures var ready := id in old(challenges) && Consumable(old(challenges)[id], max, now);
        var done := ready && session !in old(sessions) && fault != RolledBack;
        && err == (if fault == RolledBack then StoreError else if !ready then ChallengeNotFound
                   else if !done || fault == CommitUnknown then StoreError else NoError)
        && challenges == (if done then old(challenges)[id := old(challenges)[id].(usedAt := Some(now))]
                          else old(challenges))
        && sessions == (if done then old(sessions)[session := old(challenges)[id].user] else old(sessions))
      ensures sessions != old(sessions) ==>
        && id in old(challenges) && old(challenges)[id].usedAt.None? && now < old(challenges)[id].expiresAt
        && old(challenges)[id].attempts <= max && session !in old(sessions)
        && sessions == old(sessions)[session := old(challenges)[id].user] && challenges[id].usedAt == Some(now)
      ensures err == ChallengeNotFound ==>
        || id !in old(challenges) || old(challenges)[id].usedAt.Some? || old(challenges)[id].expiresAt <= now
        || old(challenges)[id].attempts > max
    {
      if fault == RolledBack {
        return StoreError;
      }
      var challenges0 := challenges;
      var affected := 0;
      if id in challenges && challenges[id].usedAt.None? && challenges[id].expiresAt > now
         && challenges[id].attempts <= max {
        challenges := challenges[id := challenges[id].(usedAt := Some(now))];
        affected := 1;
      }
      if affected != 1 {
        return ChallengeNotFound;
      }
      if session in sessions {
        challenges := challenges0;
        return StoreError;
      }
      sessions := sessions[session := challenges[id].user];
      return if fault == CommitUnknown then StoreError else NoError;
    }
  }

  // ----- the request -----

  /** One request and nothing else, on the challenge `c`. */
  function Alone(c: Challenge, valid: (string, Time) -> bool, now: Time): State {
    State(now, valid, c, map[], [], [])
  }

  function LoginSteps(code: string, claim: Fault, consume: Fault): seq<Action> {
    [Find(1), Claim(1, claim), Verify(1, code), Consume(1, consume)]
  }

  predicate Claims(c: Challenge, now: Time, claim: Fault) {
    Claimable(c, MAX_ATTEMPTS, now) && claim != RolledBack
  }

  predicate Creates(c: Challenge, code: string, valid: (string, Time) -> bool, now: Time, claim: Fault, consume: Fault)
  {
    Claims(c, now, claim) && claim == Sound && code != "" && valid(code, now) && consume != RolledBack
  }

  lemma FindAndClaim(c: Challenge, valid: (string, Time) -> bool, now: Time, claim: Fault)
    ensures var t := Apply(Apply(Alone(c, valid, now), Find(1)), Claim(1, claim));
      && t.challenge == (if Claims(c, now, claim) then c.(attempts := c.attempts + 1) else c)
      && t == Alone(t.challenge, valid, now).(requests := t.requests)
      && t.requests == if Claims(c, now, claim) && claim == Sound then map[1 := Claimed] else map[]
  {
    assert map[1 := Found] - {1} == map[] && map[1 := Found][1 := Claimed] == map[1 := Claimed];
  }

  /** LoginMFA's steps, made one after the other: what becomes of the challenge and
      whether a session is made. */
  lemma LoginRun(c: Challenge, code: string, valid: (string, Time) -> bool, now: Time, claim: Fault, consume: Fault)
    ensures var t := Run(Alone(c, valid, now), LoginSteps(code, claim, consume));
      && t.challenge == c.(attempts := if Claims(c, now, claim) then c.attempts + 1 else c.attempts,
                           usedAt := if Creates(c, code, valid, now, claim, consume) then Some(now) else c.usedAt)
      && |t.sessions| == if Creates(c, code, valid, now, claim, consume) then 1 else 0
  {
    var s := Alone(c, valid, now);
    FindAndClaim(c, valid, now, claim);
    RunPair(s, [], Find(1), Claim(1, claim));
    RunPair(s, [Find(1), Claim(1, claim)], Verify(1, code), Consume(1, consume));
    assert [] + [Find(1), Claim(1, claim)] == [Find(1), Claim(1, claim)];
    assert [Find(1), Claim(1, claim)] + [Verify(1, code), Consume(1, consume)] == LoginSteps(code, claim, consume);
  }

  /** LoginMFA from the claim on, as one uninterrupted request: the run of its four
      steps. A session is made only after a claim, for a code the verifier accepts;
      it may be there although an error is reported. */
  method LoginMfa(repo: MfaRepository, id: Uuid, session: Uuid, code: string, valid: (string, Time) -> bool, now: Time,
                  claimFault: Fault, consumeFault: Fault) returns (ok: bool)
    modifies repo
    ensures id !in old(repo.challenges) ==>
      !ok && repo.challenges == old(repo.challenges) && repo.sessions == old(repo.sessions)
    ensures id in old(repo.challenges) ==>
      var c := old(repo.challenges)[id];
      var insert := if session in old(repo.sessions) then RolledBack else consumeFault;
      var t := Run(Alone(c, valid, now), LoginSteps(code, claimFault, insert));
      && repo.challenges == old(repo.challenges)[id := t.challenge]
      && repo.sessions == (if |t.sessions| == 1 then old(repo.sessions)[session := c.user] else old(repo.sessions))
      && (|t.sessions| == 1 <==> Creates(c, code, valid, now, claimFault, insert))
      && ok == (|t.sessions| == 1 && insert == Sound)
    ensures repo.sessions != old(repo.sessions) <==>
      && id in old(repo.challenges) && session !in old(repo.sessions)
      && var c := old(repo.challenges)[id];
         && c.usedAt.None? && now < c.expiresAt && c.attempts < 5 && code != "" && valid(code, now)
         && claimFault == Sound && consumeFault != RolledBack
    ensures id in old(repo.challenges) && claimFault == Sound ==>
      var c := old(repo.challenges)[id];
      var open := c.usedAt.None? && now < c.expiresAt && c.attempts < 5;
      && id in repo.challenges
      && repo.challenges[id].attempts == (if open then c.attempts + 1 else c.attempts)
      && (repo.sessions != old(repo.sessions) ==> repo.challenges[id].usedAt == Some(now))
      && (repo.sessions == old(repo.sessions) && !ok ==> repo.challenges[id].usedAt == c.usedAt)
  {
    if id in repo.challenges {
      LoginRun(repo.challenges[id], code, valid, now, claimFault,
               if session in repo.sessions then RolledBack else consumeFault);
    }
    var challenge := repo.FindActive(id, MAX_ATTEMPTS, now);
    if challenge.None? {
      return false;
    }
    var claimed, err := repo.ClaimAttempt(id, MAX_ATTEMPTS, now, claimFault);
    if err != NoError || !claimed {
      return false;
    }
    if code == "" || !valid(code, now) {
      return false;
    }
    err := repo.ConsumeAndCreateSession(id, session, MAX_ATTEMPTS, now, consumeFault);
    return err == NoError;
  }
}
