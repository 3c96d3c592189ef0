/** The lockout of the administrators' password step. */
module AdminLockout {
  import opened Domain

  datatype Policy = Policy(maxFailed: nat, lockMinutes: nat) {
    function Length(): int { lockMinutes * MINUTE }

    /** A limit of zero still lets one guess through before it locks. */
    function Allowance(): nat { if maxFailed == 0 then 1 else maxFailed }
  }

  datatype Account = Account(failed: nat, lockedUntil: Option<Time>) {
    predicate IsLocked(now: Time) { lockedUntil.Some? && lockedUntil.value > now }
  }

  datatype Verdict = Right | Wrong | Locked

  /** The password step; `correct` says whether the password would match, if it were compared. */
  function Step(policy: Policy, a: Account, now: Time, correct: bool): (Account, Verdict) {
    if a.IsLocked(now) then (a, Locked)
    else if correct then (Account(0, None), Right)
    else if a.failed + 1 >= policy.maxFailed then (Account(0, Some(now + policy.Length())), Wrong)
    else (a.(failed := a.failed + 1), Wrong)
  }

  class AdminAccount {
    const policy: Policy
    var failed: nat
    var lockedUntil: Option<Time>

    constructor (policy: Policy)
      ensures this.policy == policy && Value() == Account(0, None)
    {
      this.policy, failed, lockedUntil := policy, 0, None;
    }

    function Value(): Account
      reads this
    {
      Account(failed, lockedUntil)
    }

    method CheckPasswordStep(now: Time, correct: bool) returns (verdict: Verdict)
      modifies this
      ensures (Value(), verdict) == old(Step(policy, Value(), now, correct))
    {
      if lockedUntil.Some? && lockedUntil.value > now {
        return Locked;
      }
      if !correct {
        failed := failed + 1;
        if failed >= policy.maxFailed {
          lockedUntil := Some(now + policy.lockMinutes * MINUTE);
          failed := 0;
        }
        return Wrong;
      }
      if failed != 0 || lockedUntil.Some? {
        failed, lockedUntil := 0, None;
      }
      verdict := Right;
    }

    /** An administrator lifts the lock. */
    method Reset()
      modifies this
      ensures Value() == Account(0, None)
    {
      failed, lockedUntil := 0, None;
    }
  }

  // ---- Runs ------------------------------------------------------------------

  datatype Event = Login(wait: nat, correct: bool) | Lift(wait: nat)

  datatype State = State(clock: Time, account: Account)

  function Next(policy: Policy, s: State, e: Event): State {
    var now := s.clock + e.wait;
    match e
    case Login(_, correct) => State(now, Step(policy, s.account, now, correct).0)
    case Lift(_) => State(now, Account(0, None))
  }

  function Run(policy: Policy, s: State, events: seq<Event>): State {
    if events == [] then s else Next(policy, Run(policy, s, events[..|events| - 1]), events[|events| - 1])
  }

  /** The stored counter never reaches the limit. */
  predicate Sound(policy: Policy, a: Account) { a.failed < policy.Allowance() }

  lemma {:induction false} RunKeepsSound(policy: Policy, s: State, events: seq<Event>)
    requires Sound(policy, s.account)
    ensures Sound(policy, Run(policy, s, events).account)
  {
    if events != [] {
      RunKeepsSound(policy, s, events[..|events| - 1]);
    }
  }

  /** The event falls into the half-open window. */
  predicate Falls(s: State, e: Event, from: Time, length: int) { from <= s.clock + e.wait < from + length }

  /** Wrong passwords that were really compared inside the window. */
  function WrongGuesses(policy: Policy, s: State, events: seq<Event>, from: Time): nat {
    if events == [] then 0
    else
      var n := |events| - 1;
      var before := Run(policy, s, events[..n]);
      WrongGuesses(policy, s, events[..n], from)
      + if Falls(before, events[n], from, policy.Length()) && events[n].Login?
           && Step(policy, before.account, before.clock + events[n].wait, events[n].correct).1.Wrong? then 1 else 0
  }

  /** Inside the window nobody logs in successfully and nobody lifts the lock. */
  ghost predicate Undisturbed(policy: Policy, s: State, events: seq<Event>, from: Time) {
    forall n :: 0 <= n < |events| ==>
                  var before := Run(policy, s, events[..n]);
                  Falls(before, events[n], from, policy.Length()) ==>
                    events[n].Login?
                    && !Step(policy, before.account, before.clock + events[n].wait, events[n].correct).1.Right?
  }

  /** What the window still allows: nothing once the lock outlasts it. */
  function Remaining(policy: Policy, a: Account, from: Time): int {
    if a.IsLocked(from + policy.Length() - 1) then 0 else policy.Allowance() - a.failed
  }

  /** Guesses made and guesses left never exceed the allowance. */
  predicate Rationed(policy: Policy, s: State, wrong: nat, from: Time) {
    && (s.clock < from ==> wrong == 0)
    && wrong <= policy.Allowance()
    && (from <= s.clock < from + policy.Length() ==> wrong + Remaining(policy, s.account, from) <= policy.Allowance())
  }

  lemma NextRationed(policy: Policy, s: State, e: Event, wrong: nat, from: Time)
    requires Sound(policy, s.account) && Rationed(policy, s, wrong, from)
    requires Falls(s, e, from, policy.Length()) ==>
               e.Login? && !Step(policy, s.account, s.clock + e.wait, e.correct).1.Right?
    ensures var more := if Falls(s, e, from, policy.Length()) && e.Login?
                           && Step(policy, s.account, s.clock + e.wait, e.correct).1.Wrong? then 1 else 0;
            Rationed(policy, Next(policy, s, e), wrong + more, from)
  {
  }

  lemma {:induction false} UndisturbedBefore(policy: Policy, s: State, events: seq<Event>, from: Time, n: nat)
    requires Undisturbed(policy, s, events, from) && n <= |events|
    ensures Undisturbed(policy, s, events[..n], from)
  {
    hide Run, Step;
    assert forall k :: 0 <= k < n ==> events[..n][..k] == events[..k];
  }

  lemma {:induction false} RunRationed(policy: Policy, s: State, events: seq<Event>, from: Time)
    requires Sound(policy, s.account) && Undisturbed(policy, s, events, from)
    ensures Rationed(policy, Run(policy, s, events), WrongGuesses(policy, s, events, from), from)
  {
    if events != [] {
      var n := |events| - 1;
      RunKeepsSound(policy, s, events[..n]);
      UndisturbedBefore(policy, s, events, from, n);
      RunRationed(policy, s, events[..n], from);
      NextRationed(policy, Run(policy, s, events[..n]), events[n], WrongGuesses(policy, s, events[..n], from), from);
    }
  }

  /**
   * In any half-open window as long as the lock, without a successful login or a reset inside it, at most
   * max_failed wrong passwords are ever compared (one, if the limit is zero).
   */
  lemma WrongGuessesAreBounded(policy: Policy, s: State, events: seq<Event>, from: Time)
    requires Sound(policy, s.account) && Undisturbed(policy, s, events, from)
    ensures WrongGuesses(policy, s, events, from) <= if policy.maxFailed == 0 then 1 else policy.maxFailed
  {
    RunRationed(policy, s, events, from);
  }
}
