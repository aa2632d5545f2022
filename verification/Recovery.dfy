/** The recovery allowance of one generation: attempts after the first and transport retries draw on
    the same count. */
module Recovery {
  import opened Json

  // ---------------------------------------------------------------- what happens around the loop

  /** The wall-clock budget when a recovery is claimed: what is left, and the least worth starting. */
  datatype Moment = Unbudgeted | Budgeted(left: real, minimum: real)

  /** What the repair state function reports after an attempt: the candidate, its diagnostics, and
      whether all of them can be repaired. */
  datatype State = State(candidate: Json, diagnostics: seq<string>, repairable: bool)

  datatype Ending =
    | Finished(success: bool, state: Option<State>)
    | RateLimited
    | Broken(retryable: bool, category: string)

  /** One attempt: when it may start, the transport retries claimed inside it, and how it ends. */
  datatype Attempt = Attempt(start: Moment, retries: seq<Moment>, ending: Ending)

  predicate Affords(m: Moment, expected: real)
  {
    m.Unbudgeted? || m.left >= (if m.minimum >= expected then m.minimum else expected)
  }

  /** How many of the claims are granted, one after another, from so many. */
  function Granted(claims: seq<Moment>, remaining: int, expected: real): (n: nat)
    ensures n <= |claims| && (n > 0 ==> n <= remaining)
  {
    if claims == [] then 0
    else if remaining > 0 && Affords(claims[0], expected) then 1 + Granted(claims[1..], remaining - 1, expected)
    else Granted(claims[1..], remaining, expected)
  }

  class RecoveryAllowance {
    var remaining: int
    const expectedSeconds: real

    constructor (remaining: int, expected: real)
      ensures this.remaining == remaining && expectedSeconds == expected
    {
      this.remaining := remaining;
      expectedSeconds := expected;
    }

    method Claim(m: Moment) returns (granted: bool)
      modifies this
      ensures granted == (old(remaining) > 0 && Affords(m, expectedSeconds))
      ensures remaining == old(remaining) - if granted then 1 else 0
    {
      if remaining <= 0
        || (m.Budgeted? && m.left < (if m.minimum >= expectedSeconds then m.minimum else expectedSeconds)) {
        return false;
      }
      remaining := remaining - 1;
      return true;
    }

    /** The claims of the retries inside one attempt. */
    method ClaimAll(claims: seq<Moment>) returns (granted: nat)
      modifies this
      ensures granted == Granted(claims, old(remaining), expectedSeconds)
      ensures remaining == old(remaining) - granted
    {
      granted := 0;
      for i := 0 to |claims|
        invariant remaining == old(remaining) - granted
        invariant granted + Granted(claims[i..], remaining, expectedSeconds)
          == Granted(claims, old(remaining), expectedSeconds)
      {
        assert claims[i..][0] == claims[i] && claims[i..][1..] == claims[i + 1..];
        var ok := Claim(claims[i]);
        if ok { granted := granted + 1; }
      }
    }
  }

  // ---------------------------------------------------------------- the loop

  const PARSE_CATEGORIES := {"response", "graph", "truncated"}

  /** What the loop remembers between attempts. */
  datatype Memory = Memory(previous: Option<State>, parseFailures: nat)

  /** The loop's next memory, or None when it stops after the attempt. */
  function After(ending: Ending, bounded: bool, m: Memory): Option<Memory>
  {
    match ending
    case Finished(true, _) => None
    case Finished(false, None) => Some(Memory(m.previous, 0))
    case Finished(false, Some(state)) =>
      if !state.repairable || m.previous == Some(state) then None else Some(Memory(Some(state), 0))
    case RateLimited => Some(m)
    case Broken(retryable, category) =>
      if !retryable then None
      else if bounded || category !in PARSE_CATEGORIES then Some(m)
      else if m.parseFailures + 1 >= 3 then None
      else Some(m.(parseFailures := m.parseFailures + 1))
  }

  /** Attempts performed and transport retries granted by the loop from attempt n on. */
  function Loop(script: seq<Attempt>, bounded: bool, n: nat, m: Memory, remaining: int, expected: real): (nat, nat)
    requires n <= |script|
    decreases |script| - n
  {
    if n == |script| || (n > 0 && !(remaining > 0 && Affords(script[n].start, expected))) then (n, 0)
    else
      var left := if n > 0 then remaining - 1 else remaining;
      var retries := Granted(script[n].retries, left, expected);
      match After(script[n].ending, bounded, m)
      case None => (n + 1, retries)
      case Some(m') =>
        Plus(retries, Loop(script, bounded, n + 1, m', left - retries, expected))
  }

  function Plus(retries: nat, counts: (nat, nat)): (nat, nat) { (counts.0, retries + counts.1) }

  /** However the attempts go: those after the first and the retries granted inside them are together
      at most what was allowed. */
  lemma {:induction false} WithinAllowance(script: seq<Attempt>, bounded: bool, n: nat, m: Memory, remaining: int,
      expected: real)
    requires n <= |script|
    ensures var (performed, retries) := Loop(script, bounded, n, m, remaining, expected);
      && n <= performed <= |script|
      && (if n == 0 then (performed > 1 || retries > 0 ==> performed - 1 + retries <= remaining)
          else performed > n || retries > 0 ==> performed - n + retries <= remaining)
    decreases |script| - n
  {
    if !(n == |script| || (n > 0 && !(remaining > 0 && Affords(script[n].start, expected)))) {
      var left := if n > 0 then remaining - 1 else remaining;
      var retries := Granted(script[n].retries, left, expected);
      match After(script[n].ending, bounded, m)
      case None =>
      case Some(m') => WithinAllowance(script, bounded, n + 1, m', left - retries, expected);
    }
  }

  /** The loop may start its next attempt. */
  predicate Allowed(script: seq<Attempt>, n: nat, remaining: int, expected: real)
    requires n < |script|
  {
    n == 0 || (remaining > 0 && Affords(script[n].start, expected))
  }

  /** What the loop comes to after one more attempt. */
  lemma OneAttempt(script: seq<Attempt>, bounded: bool, n: nat, m: Memory, remaining: int, expected: real)
    requires n < |script|
    ensures Loop(script, bounded, n, m, remaining, expected) ==
      if !Allowed(script, n, remaining, expected) then (n, 0)
      else
        var left := if n > 0 then remaining - 1 else remaining;
        var retries := Granted(script[n].retries, left, expected);
        var next := After(script[n].ending, bounded, m);
        if next.None? then (n + 1, retries)
          else Plus(retries, Loop(script, bounded, n + 1, next.value, left - retries, expected))
  {
    hide After, Granted;
  }

  /** Runs attempts until one succeeds, nothing more can be repaired, or the allowance is spent.
      Bounded recovery shares its configured count with what came before; otherwise every attempt
      after the first is allowed. */
  method RunRepairLoop(script: seq<Attempt>, bounded: bool, configured: int, spent: int, expected: real)
    returns (performed: nat, retries: nat, left: int)
    ensures var allowed := if bounded then (if configured > spent then configured - spent else 0) else |script| - 1;
      && (performed, retries) == Loop(script, bounded, 0, Memory(None, 0), allowed, expected)
      && left == allowed - retries - (if performed > 0 then performed - 1 else 0)
  {
    hide After, Granted, Loop;
    var allowed := if bounded then (if configured > spent then configured - spent else 0) else |script| - 1;
    var allowance := new RecoveryAllowance(allowed, expected);
    var memory := Memory(None, 0);
    performed, retries := 0, 0;
    var going := true;
    while going && performed < |script|
      invariant performed <= |script|
      invariant allowance.remaining == allowed - retries - (if performed > 0 then performed - 1 else 0)
      invariant allowance.expectedSeconds == expected && fresh(allowance)
      invariant Loop(script, bounded, 0, Memory(None, 0), allowed, expected) ==
        if going then Plus(retries, Loop(script, bounded, performed, memory, allowance.remaining, expected))
          else (performed, retries)
      decreases going, |script| - performed
    {
      var attempt := script[performed];
      OneAttempt(script, bounded, performed, memory, allowance.remaining, expected);
      var ok := true;
      if performed > 0 { ok := allowance.Claim(attempt.start); }
      if !ok {
        going := false;
      } else {
        var granted := allowance.ClaimAll(attempt.retries);
        retries := retries + granted;
        performed := performed + 1;
        var next := After(attempt.ending, bounded, memory);
        if next.None? { going := false; } else { memory := next.value; }
      }
    }
    if going { assert Loop(script, bounded, |script|, memory, allowance.remaining, expected) == (|script|, 0) by {
      NoMore(script, bounded, memory, allowance.remaining, expected); } }
    left := allowance.remaining;
  }

  lemma NoMore(script: seq<Attempt>, bounded: bool, m: Memory, remaining: int, expected: real)
    ensures Loop(script, bounded, |script|, m, remaining, expected) == (|script|, 0)
  {
  }
}
