/** The spending ledger of a bounded evaluation: reservations are saved before any paid call is
    sent, and whatever is not known to be settled keeps its reservation. */
module SpendBudget {
  import opened Json

  // ---------------------------------------------------------------- prices

  /** USD per million tokens: input, cached input, output. */
  datatype Price = Price(input: real, cached: real, output: real)

  function PriceOf(model: string): Option<Price>
  {
    if model == "gpt-5-mini" then Some(Price(0.25, 0.025, 2.0))
    else if model == "gpt-5.4-mini" then Some(Price(0.75, 0.075, 4.5))
    else if model == "gpt-4.1-nano" then Some(Price(0.10, 0.025, 0.40))
    else None
  }

  const MILLION := 1000000.0

  function Cost(p: Price, prompt: nat, cached: nat, completion: nat): real
    requires cached <= prompt
  {
    ((prompt - cached) as real * p.input + cached as real * p.cached + completion as real * p.output) / MILLION
  }

  /** What a call may cost at most within its token bounds. */
  function Ceiling(p: Price, input: nat, output: nat): real
  {
    (input as real * p.input + output as real * p.output) / MILLION
  }

  lemma Scale(a: real, b: real, c: real)
    requires a <= b && c >= 0.0
    ensures a * c <= b * c && c * a <= c * b
  {
  }

  /** Caching is never dearer than not caching. */
  predicate Discounting(p: Price) { 0.0 <= p.cached <= p.input && 0.0 <= p.output }

  lemma PricesDiscount(model: string)
    requires PriceOf(model).Some?
    ensures Discounting(PriceOf(model).value)
  {
  }

  lemma CostWithinCeiling(p: Price, input: nat, output: nat, prompt: nat, cached: nat, completion: nat)
    requires Discounting(p) && cached <= prompt <= input && completion <= output
    ensures 0.0 <= Cost(p, prompt, cached, completion) <= Ceiling(p, input, output)
  {
    var paid, kept := (prompt - cached) as real, cached as real;
    assert paid + kept == prompt as real;
    Blend(paid, kept, p.input, p.cached);
    Scale(prompt as real, input as real, p.input);
    Scale(completion as real, output as real, p.output);
    Scale(0.0, p.output, completion as real);
    var prompted, completed := paid * p.input + kept * p.cached, completion as real * p.output;
    assert prompted <= input as real * p.input;
    assert 0.0 <= completed <= output as real * p.output;
    Divide(prompted + completed, input as real * p.input + output as real * p.output);
  }

  /** Part of a sum at a lower price costs no more than all of it at the higher. */
  lemma Blend(paid: real, kept: real, dear: real, cheap: real)
    requires 0.0 <= cheap <= dear && 0.0 <= paid && 0.0 <= kept
    ensures 0.0 <= paid * dear + kept * cheap <= (paid + kept) * dear
  {
    Scale(cheap, dear, kept);
    Scale(0.0, dear, paid);
    Scale(0.0, cheap, kept);
    assert (paid + kept) * dear == paid * dear + kept * dear;
  }

  lemma Divide(a: real, b: real)
    requires 0.0 <= a <= b
    ensures 0.0 <= a / MILLION <= b / MILLION
  {
  }

  // ---------------------------------------------------------------- the ledger

  datatype Status = Reserved | Settled(actual: real) | Unknown

  datatype Call = Call(model: string, status: Status, reserved: real, input: nat, output: nat, cell: Option<string>)

  datatype Ledger = Ledger(limit: real, maxRequests: nat, requests: seq<string>, calls: seq<Call>,
      blocked: Option<string>)

  /** The part of a paid request the ledger looks at. */
  datatype Order = Order(model: string, tier: Option<Json>, tools: bool, bytes: nat, cap: Option<int>)

  /** Token counts; a count may be missing or null, cached tokens then count as none. */
  datatype Usage = Usage(prompt: Option<int>, cached: int, completion: Option<int>)

  /** The usage field of a response: not there, null, or given. */
  datatype Account = Absent | Empty | Reported(usage: Usage)

  /** The part of a response the ledger looks at: whether it can be dumped, its tier and usage, and
      whether it names its model and holds a first choice with a message. */
  datatype Response = Response(dumps: bool, tier: Option<Json>, account: Account, answers: bool)

  function Held(c: Call): real { if c.status.Settled? then c.status.actual else c.reserved }

  function Occupied(calls: seq<Call>): real
  {
    if calls == [] then 0.0 else Occupied(calls[..|calls| - 1]) + Held(calls[|calls| - 1])
  }

  const HEADROOM := 4096

  predicate Standard(tier: Option<Json>) { tier.None? || tier.value == Str("default") }

  /** The call an order would reserve, or the reason the ledger stops instead. */
  function Admit(l: Ledger, o: Order): Result<Call>
  {
    if PriceOf(o.model).None? then Raise("unaccounted_model_price")
    else if !Standard(o.tier) || o.tools then Raise("unaccounted_request_pricing")
    else if o.cap.None? || o.cap.value <= 0 then Raise("unbounded_output")
    else
      var maximum := Ceiling(PriceOf(o.model).value, o.bytes + HEADROOM, o.cap.value);
      if Occupied(l.calls) + maximum > l.limit then Raise("spending_limit")
      else Ok(Call(o.model, Reserved, maximum, o.bytes + HEADROOM, o.cap.value,
                   if l.requests == [] then None else Some(l.requests[|l.requests| - 1])))
  }

  function Reserving(l: Ledger, o: Order): Ledger
  {
    if l.blocked.Some? then l
    else
      match Admit(l, o)
      case Raise(reason) => l.(blocked := Some(reason))
      case Ok(call) => l.(calls := l.calls + [call])
  }

  /** What a response settles: a cost, a reason for it to stay unknown, or nothing, because looking
      at it raises. */
  datatype Verdict = Costs(amount: real) | Unclear(reason: string) | Raises

  function Assess(c: Call, r: Response): Verdict
  {
    if !r.dumps then Raises
    else if !Standard(r.tier) then Unclear("unaccounted_response_service_tier")
    else
      match r.account
      case Absent => Raises
      case Empty => Unclear("missing_usage")
      case Reported(u) => Weigh(c, u, r.answers)
  }

  /** The counts are compared one after the other; a missing one raises when its turn comes. */
  function Weigh(c: Call, u: Usage, answers: bool): Verdict
  {
    if u.prompt.None? then Raises
    else if u.prompt.value < 0 then Unclear("usage_exceeds_reservation")
    else if u.completion.None? then Raises
    else
      var prompt, completion := u.prompt.value, u.completion.value;
      if completion < 0 || !(0 <= u.cached <= prompt) || prompt > c.input || completion > c.output then
        Unclear("usage_exceeds_reservation")
      else if PriceOf(c.model).None? || !answers then Raises
      else Costs(Cost(PriceOf(c.model).value, prompt, u.cached, completion))
  }

  function Giving(l: Ledger, i: nat, reason: string): Ledger
    requires i < |l.calls|
  {
    l.(calls := l.calls[i := l.calls[i].(status := Unknown)], blocked := Some(reason))
  }

  function Settling(l: Ledger, i: nat, r: Response): Ledger
    requires i < |l.calls|
  {
    match Assess(l.calls[i], r)
    case Costs(amount) => l.(calls := l.calls[i := l.calls[i].(status := Settled(amount))])
    case Unclear(reason) => Giving(l, i, reason)
    case Raises => l
  }

  /** A restarted process must never send an unfinished paid call again. */
  function Loaded(saved: Ledger): Ledger
  {
    if exists c | c in saved.calls :: c.status == Reserved then saved.(blocked := Some("unfinished_call_usage_unknown"))
      else saved
  }

  function Requesting(l: Ledger, cell: string): Ledger
  {
    if l.blocked.Some? then l
    else if cell in l.requests || |l.requests| >= l.maxRequests then l.(blocked := Some("request_limit_or_duplicate"))
    else l.(requests := l.requests + [cell])
  }

  // ---------------------------------------------------------------- the class

  /** The budget object: its fields, and the file every change is flushed to. */
  class Budget {
    var limit: real
    var maxRequests: nat
    var requests: seq<string>
    var calls: seq<Call>
    var blocked: Option<string>
    var file: Option<Ledger>

    function State(): Ledger
      reads this
    {
      Ledger(limit, maxRequests, requests, calls, blocked)
    }

    constructor (saved: Option<Ledger>, limitUsd: real, maximum: nat)
      ensures State() == if saved.Some? then Loaded(saved.value) else Ledger(limitUsd, maximum, [], [], None)
      ensures file == Some(State())
    {
      var l := if saved.Some? then saved.value else Ledger(limitUsd, maximum, [], [], None);
      limit, maxRequests, requests, calls, blocked := l.limit, l.maxRequests, l.requests, l.calls, l.blocked;
      file := saved;
      new;
      if saved.Some? {
        var unfinished := Unfinished();
        if unfinished { blocked := Some("unfinished_call_usage_unknown"); }
      }
      Flush();
    }

    method Unfinished() returns (found: bool)
      ensures found <==> exists c | c in calls :: c.status == Reserved
    {
      var i := 0;
      while i < |calls|
        invariant 0 <= i <= |calls|
        invariant forall k | 0 <= k < i :: calls[k].status != Reserved
      {
        if calls[i].status == Reserved { return true; }
        i := i + 1;
      }
      return false;
    }

    method Flush()
      modifies this`file
      ensures file == Some(State())
    {
      file := Some(Ledger(limit, maxRequests, requests, calls, blocked));
    }

    method Stop(reason: string)
      modifies this`blocked, this`file
      ensures State() == old(State()).(blocked := Some(reason)) && file == Some(State())
    {
      blocked := Some(reason);
      Flush();
    }

    method Request(cell: string) returns (ok: bool)
      modifies this
      ensures State() == Requesting(old(State()), cell)
      ensures ok <==> State().blocked.None?
      ensures old(blocked).None? ==> file == Some(State())
    {
      if blocked.Some? { return false; }
      if cell in requests || |requests| >= maxRequests {
        Stop("request_limit_or_duplicate");
        return false;
      }
      requests := requests + [cell];
      Flush();
      return true;
    }

    /** Adds up what is held, call by call. */
    method Sum() returns (total: real)
      ensures total == Occupied(calls)
    {
      total := 0.0;
      var i := 0;
      while i < |calls|
        invariant 0 <= i <= |calls| && total == Occupied(calls[..i])
      {
        assert calls[..i + 1][..i] == calls[..i];
        total := total + Held(calls[i]);
        i := i + 1;
      }
      assert calls[..i] == calls;
    }

    /** Reserves the order's ceiling and saves it before anything is sent, or stops for good. */
    method Reserve(o: Order) returns (index: Option<nat>)
      modifies this
      ensures State() == Reserving(old(State()), o)
      ensures index == if old(blocked).None? && Admit(old(State()), o).Ok? then Some(|old(calls)|) else None
      ensures old(blocked).None? ==> file == Some(State())
    {
      if blocked.Some? { return None; }
      if PriceOf(o.model).None? {
        Stop("unaccounted_model_price");
        return None;
      }
      if !Standard(o.tier) || o.tools {
        Stop("unaccounted_request_pricing");
        return None;
      }
      if o.cap.None? || o.cap.value <= 0 {
        Stop("unbounded_output");
        return None;
      }
      var maximum := Ceiling(PriceOf(o.model).value, o.bytes + HEADROOM, o.cap.value);
      var occupied := Sum();
      if occupied + maximum > limit {
        Stop("spending_limit");
        return None;
      }
      index := Some(|calls|);
      calls := calls + [Call(o.model, Reserved, maximum, o.bytes + HEADROOM, o.cap.value,
                             if requests == [] then None else Some(requests[|requests| - 1]))];
      Flush();
    }

    method GiveUp(i: nat, reason: string)
      requires i < |calls|
      modifies this
      ensures State() == Giving(old(State()), i, reason) && file == Some(State())
    {
      calls := calls[i := calls[i].(status := Unknown)];
      Stop(reason);
    }

    /** Replaces a reservation by its actual cost, or keeps it and stops for good; a response that
        cannot be looked at raises and changes nothing, in the process or on file. */
    method Settle(i: nat, r: Response) returns (raised: bool)
      requires i < |calls|
      modifies this
      ensures State() == Settling(old(State()), i, r)
      ensures raised <==> Assess(old(calls)[i], r).Raises?
      ensures file == if raised then old(file) else Some(State())
    {
      match Assess(calls[i], r)
      case Raises =>
        return true;
      case Unclear(reason) =>
        GiveUp(i, reason);
        return false;
      case Costs(amount) =>
        calls := calls[i := calls[i].(status := Settled(amount))];
        Flush();
        return false;
    }
  }

  // ---------------------------------------------------------------- sums

  lemma {:induction false} OccupiedUpdate(calls: seq<Call>, i: nat, c: Call)
    requires i < |calls|
    ensures Occupied(calls[i := c]) == Occupied(calls) - Held(calls[i]) + Held(c)
    decreases calls
  {
    var last, updated := |calls| - 1, calls[i := c];
    if i == last {
      assert updated[..last] == calls[..last];
    } else {
      assert updated[..last] == calls[..last][i := c];
      OccupiedUpdate(calls[..last], i, c);
    }
  }

  /** What the provider has charged for the first n calls. */
  function Billed(bills: map<nat, real>, n: nat): real
  {
    if n == 0 then 0.0 else Billed(bills, n - 1) + (if n - 1 in bills then bills[n - 1] else 0.0)
  }

  lemma {:induction false} BilledWithin(bills: map<nat, real>, calls: seq<Call>)
    requires forall i: nat | i < |calls| :: (if i in bills then bills[i] else 0.0) <= Held(calls[i])
    ensures Billed(bills, |calls|) <= Occupied(calls)
    decreases calls
  {
    if calls != [] {
      var init := calls[..|calls| - 1];
      forall i: nat | i < |init| ensures (if i in bills then bills[i] else 0.0) <= Held(init[i]) {
        assert init[i] == calls[i];
      }
      BilledWithin(bills, init);
    }
  }

  // ---------------------------------------------------------------- processes, crashes and the provider

  /** Where one dispatch stands in the running process. */
  datatype Stage = Appended | Saved | Waiting

  /** The file, the running process if any, and what happened outside of both. */
  datatype System = System(
    disk: Option<Ledger>,
    mem: Option<Ledger>,
    dispatches: map<nat, Stage>,
    sent: set<nat>,
    bills: map<nat, real>)

  /** Dispatches interleave at every event; a crash may come between any two. An answer whose settling
      raises is lost: nothing catches that, the call stays reserved and the process goes on. */
  datatype Event =
    | Start(limit: real, maximum: nat)
    | Flush
    | NewCell(cell: string)
    | Begin(order: Order)
    | Send(i: nat)
    | Charge(i: nat, prompt: nat, cached: nat, completion: nat)
    | Answer(i: nat, response: Response)
    | Fail(i: nat, reason: string)
    | Crash

  /** A flush saves what was appended. */
  function OnFile(dispatches: map<nat, Stage>): map<nat, Stage>
  {
    map i | i in dispatches :: if dispatches[i].Appended? then Saved else dispatches[i]
  }

  /** One event of the system. The provider charges a call at most once, within its token bounds,
      whether or not the process that sent it is still there; an accepted response tells the truth. */
  predicate Step(s: System, e: Event, t: System)
  {
    match e
    case Start(limit, maximum) =>
      s.mem.None? && limit >= 0.0 &&
      t == s.(mem := Some(if s.disk.Some? then Loaded(s.disk.value) else Ledger(limit, maximum, [], [], None)),
        dispatches := map[])
    case Flush =>
      s.mem.Some? && t == s.(disk := s.mem, dispatches := OnFile(s.dispatches))
    case NewCell(cell) => s.mem.Some? && t == s.(mem := Some(Requesting(s.mem.value, cell)))
    case Begin(order) =>
      s.mem.Some? &&
      var l := Reserving(s.mem.value, order);
      t == s.(mem := Some(l), dispatches := if |l.calls| > |s.mem.value.calls|
        then s.dispatches[|s.mem.value.calls| := Appended] else s.dispatches)
    case Send(i) =>
      i in s.dispatches && s.dispatches[i] == Saved
        && t == s.(dispatches := s.dispatches[i := Waiting], sent := s.sent + {i})
    case Charge(i, prompt, cached, completion) =>
      && i in s.sent && i !in s.bills && s.disk.Some? && i < |s.disk.value.calls|
      && (var c := s.disk.value.calls[i];
          && PriceOf(c.model).Some? && cached <= prompt <= c.input && completion <= c.output
          && t == s.(bills := s.bills[i := Cost(PriceOf(c.model).value, prompt, cached, completion)]))
    case Answer(i, response) =>
      && s.mem.Some? && i in s.dispatches && s.dispatches[i] == Waiting && i < |s.mem.value.calls|
      && (var assessed := Assess(s.mem.value.calls[i], response);
          && (assessed.Costs? ==> i in s.bills && s.bills[i] == assessed.amount)
          && t == s.(mem := Some(Settling(s.mem.value, i, response)), dispatches := s.dispatches - {i}))
    case Fail(i, reason) =>
      && s.mem.Some? && i in s.dispatches && s.dispatches[i] == Waiting && i < |s.mem.value.calls|
      && t == s.(mem := Some(Giving(s.mem.value, i, reason)), dispatches := s.dispatches - {i})
    case Crash => s.mem.Some? && t == s.(mem := None, dispatches := map[])
  }

  const NOTHING_YET := System(None, None, map[], {}, map[])

  /** Events from nothing at all to a state. */
  predicate Runs(events: seq<Event>, states: seq<System>)
  {
    && |states| == |events| + 1 && states[0] == NOTHING_YET
    && forall k | 0 <= k < |events| :: Step(states[k], events[k], states[k + 1])
  }

  // ---------------------------------------------------------------- what every event keeps

  predicate Priced(c: Call)
  {
    PriceOf(c.model).Some? && c.reserved == Ceiling(PriceOf(c.model).value, c.input, c.output)
  }

  /** A ledger within its limit, whose settled calls were charged what it says. */
  predicate Sane(l: Ledger, bills: map<nat, real>)
  {
    && Occupied(l.calls) <= l.limit && l.limit >= 0.0
    && forall i: nat | i < |l.calls| ::
         && Priced(l.calls[i])
         && (l.calls[i].status.Settled? ==> i in bills && bills[i] == l.calls[i].status.actual)
         && (i in bills ==> 0.0 <= bills[i] <= l.calls[i].reserved)
  }

  predicate SameBounds(a: Call, b: Call) {
      a.model == b.model && a.reserved == b.reserved && a.input == b.input && a.output == b.output }

  /** The process only adds to what it loaded. */
  predicate GrewFrom(saved: Ledger, l: Ledger)
  {
    && l.limit == saved.limit && |saved.calls| <= |l.calls|
    && forall i: nat | i < |saved.calls| ::
         SameBounds(saved.calls[i], l.calls[i]) && (l.calls[i].status == Reserved ==> saved.calls[i].status == Reserved)
  }

  function SavedCalls(s: System): nat { if s.disk.Some? then |s.disk.value.calls| else 0 }

  predicate Consistent(s: System)
  {
    && (s.disk.Some? ==> Sane(s.disk.value, s.bills))
    && (s.mem.Some? ==> Sane(s.mem.value, s.bills) && (s.disk.Some? ==> GrewFrom(s.disk.value, s.mem.value)))
    && (s.mem.None? ==> s.dispatches == map[])
    && s.bills.Keys <= s.sent && (forall i | i in s.sent :: i < SavedCalls(s))
    && (forall i | i in s.dispatches && s.dispatches[i] != Appended :: i < SavedCalls(s))
    && (forall i | i in s.dispatches ::
      s.mem.Some? && i < |s.mem.value.calls| && s.mem.value.calls[i].status == Reserved)
  }

  lemma LoadedKeeps(saved: Ledger)
    ensures Loaded(saved).calls == saved.calls && Loaded(saved).limit == saved.limit
  {
  }

  lemma SettledKeeps(l: Ledger, bills: map<nat, real>, i: nat, c: Call)
    requires Sane(l, bills) && i < |l.calls| && SameBounds(l.calls[i], c) && Held(c) <= Held(l.calls[i])
    requires c.status.Settled? ==> i in bills && bills[i] == c.status.actual
    ensures Sane(l.(calls := l.calls[i := c]), bills)
  {
    OccupiedUpdate(l.calls, i, c);
  }

  lemma ReservingKeeps(l: Ledger, bills: map<nat, real>, o: Order)
    requires Sane(l, bills) && forall i | i in bills :: i < |l.calls|
    ensures Sane(Reserving(l, o), bills) && GrewFrom(l, Reserving(l, o))
  {
    if l.blocked.None? && Admit(l, o).Ok? {
      var calls := l.calls + [Admit(l, o).value];
      assert calls[..|calls| - 1] == l.calls;
    }
  }

  lemma ChargeKeeps(l: Ledger, bills: map<nat, real>, i: nat, amount: real)
    requires Sane(l, bills) && i !in bills && (i < |l.calls| ==> 0.0 <= amount <= l.calls[i].reserved)
    ensures Sane(l, bills[i := amount])
  {
  }

  lemma AnswerKeeps(l: Ledger, bills: map<nat, real>, i: nat, r: Response)
    requires Sane(l, bills) && i < |l.calls|
    requires Assess(l.calls[i], r).Costs? ==> i in bills && bills[i] == Assess(l.calls[i], r).amount
    requires !l.calls[i].status.Settled?
    ensures Sane(Settling(l, i, r), bills)
  {
    match Assess(l.calls[i], r)
    case Costs(amount) => SettledKeeps(l, bills, i, l.calls[i].(status := Settled(amount)));
    case Unclear(_) => SettledKeeps(l, bills, i, l.calls[i].(status := Unknown));
    case Raises =>
  }

  /** Every event keeps the books. */
  lemma StepKeeps(s: System, e: Event, t: System)
    requires Consistent(s) && Step(s, e, t)
    ensures Consistent(t)
  {
    match e
    case Start(limit, maximum) => StartKeeps(s, limit, maximum, t);
    case Flush => FlushKeeps(s, t);
    case NewCell(cell) => NewCellKeeps(s, cell, t);
    case Begin(order) => BeginKeeps(s, order, t);
    case Send(i) => SendKeeps(s, i, t);
    case Charge(i, prompt, cached, completion) => ChargedKeeps(s, i, prompt, cached, completion, t);
    case Answer(i, response) => AnsweredKeeps(s, i, response, t);
    case Fail(i, reason) => FailKeeps(s, i, reason, t);
    case Crash => CrashKeeps(s, t);
  }

  lemma StartKeeps(s: System, limit: real, maximum: nat, t: System)
    requires Consistent(s) && Step(s, Start(limit, maximum), t)
    ensures Consistent(t)
  {
    if s.disk.Some? { LoadedKeeps(s.disk.value); }
  }

  lemma FlushKeeps(s: System, t: System)
    requires Consistent(s) && Step(s, Flush, t)
    ensures Consistent(t)
  {
    hide Occupied, Priced;
  }

  lemma NewCellKeeps(s: System, cell: string, t: System)
    requires Consistent(s) && Step(s, NewCell(cell), t)
    ensures Consistent(t)
  {
    hide Occupied, Priced;
  }

  lemma SendKeeps(s: System, i: nat, t: System)
    requires Consistent(s) && Step(s, Send(i), t)
    ensures Consistent(t)
  {
    hide Occupied, Priced;
  }

  lemma AnsweredKeeps(s: System, i: nat, response: Response, t: System)
    requires Consistent(s) && Step(s, Answer(i, response), t)
    ensures Consistent(t)
  {
    hide Occupied, Priced;
    AnswerKeeps(s.mem.value, s.bills, i, response);
  }

  lemma FailKeeps(s: System, i: nat, reason: string, t: System)
    requires Consistent(s) && Step(s, Fail(i, reason), t)
    ensures Consistent(t)
  {
    hide Occupied, Priced;
    SettledKeeps(s.mem.value, s.bills, i, s.mem.value.calls[i].(status := Unknown));
  }

  lemma CrashKeeps(s: System, t: System)
    requires Consistent(s) && Step(s, Crash, t)
    ensures Consistent(t)
  {
    hide Occupied, Priced;
  }

  lemma BeginKeeps(s: System, order: Order, t: System)
    requires Consistent(s) && Step(s, Begin(order), t)
    ensures Consistent(t)
  {
    hide Occupied, Priced, Admit, Held;
    ReservingKeeps(s.mem.value, s.bills, order);
    ReservingAdds(s.mem.value, order);
    hide Reserving;
  }

  lemma ReservingAdds(l: Ledger, o: Order)
    ensures var t := Reserving(l, o);
      && t.limit == l.limit && |t.calls| <= |l.calls| + 1
      && (forall i | 0 <= i < |l.calls| :: t.calls[i] == l.calls[i])
      && (|t.calls| > |l.calls| ==> t.calls[|l.calls|].status == Reserved)
      && |l.calls| <= |t.calls|
  {
  }

  lemma ChargedKeeps(s: System, i: nat, prompt: nat, cached: nat, completion: nat, t: System)
    requires Consistent(s) && Step(s, Charge(i, prompt, cached, completion), t)
    ensures Consistent(t)
  {
    var c := s.disk.value.calls[i];
    var amount := Cost(PriceOf(c.model).value, prompt, cached, completion);
    PricesDiscount(c.model);
    CostWithinCeiling(PriceOf(c.model).value, c.input, c.output, prompt, cached, completion);
    ChargeKeeps(s.disk.value, s.bills, i, amount);
    if s.mem.Some? { ChargeKeeps(s.mem.value, s.bills, i, amount); }
  }

  lemma {:induction false} RunsConsistent(events: seq<Event>, states: seq<System>, k: nat)
    requires Runs(events, states) && k < |states|
    ensures Consistent(states[k])
    decreases k
  {
    if k > 0 {
      RunsConsistent(events, states, k - 1);
      StepKeeps(states[k - 1], events[k - 1], states[k]);
    }
  }

  /** What the provider has charged for a consistent system is within the limit on file. */
  lemma ChargedWithinLimit(s: System)
    requires Consistent(s)
    ensures s.disk.None? ==> s.bills == map[]
    ensures s.disk.Some? ==> Billed(s.bills, |s.disk.value.calls|) <= s.disk.value.limit
    ensures forall i | i in s.bills :: i < SavedCalls(s)
  {
    if s.disk.Some? {
      var calls := s.disk.value.calls;
      forall i: nat | i < |calls| ensures (if i in s.bills then s.bills[i] else 0.0) <= Held(calls[i]) {
        PricesDiscount(calls[i].model);
        CostWithinCeiling(PriceOf(calls[i].model).value, calls[i].input, calls[i].output, 0, 0, 0);
      }
      BilledWithin(s.bills, calls);
    }
  }

  /** In every state of every run, through crashes at any point and interleaved dispatches, all
      that was ever charged stays within the limit. */
  lemma NeverOverLimit(events: seq<Event>, states: seq<System>, k: nat)
    requires Runs(events, states) && k < |states|
    ensures var s := states[k];
      && (s.disk.None? ==> s.bills == map[])
      && (s.disk.Some? ==> Billed(s.bills, |s.disk.value.calls|) <= s.disk.value.limit)
      && forall i | i in s.bills :: i < SavedCalls(s)
  {
    RunsConsistent(events, states, k);
    ChargedWithinLimit(states[k]);
  }

  // ---------------------------------------------------------------- stopping for good

  predicate Unfinished(l: Ledger) { exists c | c in l.calls :: c.status == Reserved }

  /** No process can reserve again: the running one is blocked, and the file blocks the next. */
  predicate Frozen(s: System)
  {
    && (s.mem.Some? ==> s.mem.value.blocked.Some?)
    && s.disk.Some? && (s.disk.value.blocked.Some? || Unfinished(s.disk.value))
  }

  lemma StaysFrozen(s: System, e: Event, t: System)
    requires Consistent(s) && Frozen(s) && Step(s, e, t)
    ensures Frozen(t) && (s.mem.Some? && t.mem.Some? ==> |t.mem.value.calls| == |s.mem.value.calls|)
  {
  }

  /** Nothing is reserved by the event. */
  predicate ReservesNothing(s: System, e: Event, t: System)
  {
    e.Begin? ==> s.mem.Some? && t.mem.Some? && t.mem.value.calls == s.mem.value.calls && t.dispatches == s.dispatches
  }

  /** From a frozen state on, no event of any run reserves a call, however often the process
      restarts. */
  lemma {:induction false} FrozenForGood(events: seq<Event>, states: seq<System>, j: nat, k: nat)
    requires Runs(events, states) && j <= k < |states| && Frozen(states[j])
    ensures Frozen(states[k])
    ensures k < |events| ==> ReservesNothing(states[k], events[k], states[k + 1])
    decreases k
  {
    hide Step, Consistent, Frozen, ReservesNothing;
    if k > j {
      FrozenForGood(events, states, j, k - 1);
      RunsConsistent(events, states, k - 1);
      StaysFrozen(states[k - 1], events[k - 1], states[k]);
    }
    if k < |events| { BlockedReservesNothing(states[k], events[k], states[k + 1]); }
  }

  lemma BlockedReservesNothing(s: System, e: Event, t: System)
    requires Frozen(s) && Step(s, e, t)
    ensures ReservesNothing(s, e, t)
  {
  }

  /** A call that is given up keeps its reservation, and no later event of the run reserves another:
      if the process dies before saving that, the file still holds the reservation as unfinished. */
  lemma UnknownFreezes(events: seq<Event>, states: seq<System>, j: nat, k: nat)
    requires Runs(events, states) && j < k < |states| && events[j].Fail?
    ensures Occupied(states[j + 1].mem.value.calls) == Occupied(states[j].mem.value.calls)
    ensures Frozen(states[k]) && (k < |events| ==> ReservesNothing(states[k], events[k], states[k + 1]))
  {
    RunsConsistent(events, states, j);
    GivenUp(states[j], events[j].i, events[j].reason, states[j + 1]);
    FrozenForGood(events, states, j + 1, k);
  }

  lemma GivenUp(s: System, i: nat, reason: string, t: System)
    requires Consistent(s) && Step(s, Fail(i, reason), t)
    ensures Frozen(t) && Occupied(t.mem.value.calls) == Occupied(s.mem.value.calls)
  {
    OccupiedUpdate(s.mem.value.calls, i, s.mem.value.calls[i].(status := Unknown));
    assert s.disk.value.calls[i] in s.disk.value.calls;
  }

  /** After a crash with an unfinished call on file, no call is ever added to the file again,
      whatever happens and however often the process restarts. */
  lemma {:induction false} UnfinishedStopsAll(events: seq<Event>, states: seq<System>, j: nat, k: nat)
    requires Runs(events, states) && j <= k < |states|
    requires states[j].mem.None? && states[j].disk.Some? && Unfinished(states[j].disk.value)
    ensures Frozen(states[k]) && SavedCalls(states[k]) == SavedCalls(states[j])
    ensures states[k].mem.Some? ==> |states[k].mem.value.calls| == SavedCalls(states[j])
    decreases k
  {
    if k > j {
      UnfinishedStopsAll(events, states, j, k - 1);
      RunsConsistent(events, states, k - 1);
      StaysFrozen(states[k - 1], events[k - 1], states[k]);
      if events[k - 1].Start? { LoadedKeeps(states[k - 1].disk.value); }
    }
  }

  // ---------------------------------------------------------------- lost answers

  /** The event is an answer whose settling raises. */
  predicate Loses(s: System, e: Event)
  {
    && e.Answer? && s.mem.Some? && e.i < |s.mem.value.calls|
    && Assess(s.mem.value.calls[e.i], e.response).Raises?
  }

  /** The event ends the wait for a call's answer. */
  predicate EndsWait(e: Event) { e.Answer? || e.Fail? }

  /** The end of a wait stops the process that waited if and only if the call failed, or its answer
      could be looked at and did not account for it; a lost answer stops nothing. */
  lemma BlockedIffAccounted(s: System, e: Event, t: System)
    requires Consistent(s) && Step(s, e, t) && EndsWait(e) && s.mem.value.blocked.None?
    ensures t.mem.Some?
    ensures t.mem.value.blocked.Some? <==> e.Fail? || Assess(s.mem.value.calls[e.i], e.response).Unclear?
    ensures Loses(s, e) <==> e.Answer? && t.mem == s.mem
  {
    hide Occupied, Priced, Weigh;
    assert s.mem.value.calls[e.i].status == Reserved;
    if e.Answer? && t.mem == s.mem { assert t.mem.value.calls[e.i].status == Reserved; }
  }

  /** After a lost answer the process reserves the next order as if nothing were open, but for what
      the open call holds. */
  lemma LostReservesOn(s: System, e: Event, t: System, order: Order, u: System)
    requires Step(s, e, t) && Loses(s, e) && Step(t, Begin(order), u)
    ensures |u.mem.value.calls| > |t.mem.value.calls| <==> s.mem.value.blocked.None? && Admit(s.mem.value, order).Ok?
  {
  }

  /** The call is reserved, in the file and in the process, and nothing waits for its answer. */
  predicate Stuck(s: System, i: nat)
  {
    && s.disk.Some? && i < |s.disk.value.calls| && s.disk.value.calls[i].status == Reserved && i !in s.dispatches
    && (s.mem.Some? ==> i < |s.mem.value.calls| && s.mem.value.calls[i].status == Reserved)
  }

  lemma StaysStuck(s: System, i: nat, e: Event, t: System)
    requires Consistent(s) && Stuck(s, i) && Step(s, e, t)
    ensures Stuck(t, i)
  {
    hide Occupied, Priced, Admit;
    if e.Start? { LoadedKeeps(s.disk.value); }
  }

  /** A call whose answer was lost is reserved ever after, and once the process is gone none after it
      reserves. */
  lemma {:induction false} LostStaysReserved(events: seq<Event>, states: seq<System>, j: nat, k: nat)
    requires Runs(events, states) && j < k < |states| && Loses(states[j], events[j])
    ensures Stuck(states[k], events[j].i) && (states[k].mem.None? ==> Frozen(states[k]))
    decreases k
  {
    hide Step, Consistent;
    RunsConsistent(events, states, k - 1);
    if k == j + 1 {
      LostIsStuck(states[j], events[j], states[k]);
    } else {
      LostStaysReserved(events, states, j, k - 1);
      StaysStuck(states[k - 1], events[j].i, events[k - 1], states[k]);
    }
    assert states[k].disk.value.calls[events[j].i] in states[k].disk.value.calls;
  }

  lemma LostIsStuck(s: System, e: Event, t: System)
    requires Consistent(s) && Step(s, e, t) && Loses(s, e)
    ensures Stuck(t, e.i)
  {
    hide Occupied, Priced;
  }

  // ---------------------------------------------------------------- a run that reserves on

  const NANO: Order := Order("gpt-4.1-nano", None, false, 904, Some(1000))

  /** The answer to it names no number of completion tokens. */
  const NO_COUNT: Response := Response(true, None, Reported(Usage(Some(10), 0, None)), true)

  const HELD: Call := Call("gpt-4.1-nano", Reserved, 0.0009, 5000, 1000, None)

  function Open(n: nat): Ledger { Ledger(1.0, 12, [], seq(n, i => HELD), None) }

  function Between(saved: nat, open: nat, dispatches: map<nat, Stage>, sent: set<nat>): System
  {
    System(Some(Open(saved)), Some(Open(open)), dispatches, sent, map[])
  }

  /** One call is reserved, saved and sent; its answer is lost; and two more calls are reserved. */
  const OVERRUN: seq<Event> :=
      [Start(1.0, 12), Event.Flush, Begin(NANO), Event.Flush, Send(0), Answer(0, NO_COUNT), Begin(NANO), Begin(NANO)]

  const OVERRUN_STATES: seq<System> := [
    NOTHING_YET,
    System(None, Some(Open(0)), map[], {}, map[]),
    Between(0, 0, map[], {}),
    Between(0, 1, map[0 := Appended], {}),
    Between(1, 1, map[0 := Saved], {}),
    Between(1, 1, map[0 := Waiting], {0}),
    Between(1, 1, map[], {0}),
    Between(1, 2, map[1 := Appended], {0}),
    Between(1, 3, map[1 := Appended, 2 := Appended], {0})]

  lemma {:induction false} OccupiedOpen(n: nat)
    ensures Occupied(Open(n).calls) == n as real * 0.0009
  {
    if n > 0 {
      OccupiedOpen(n - 1);
      assert Open(n).calls[..n - 1] == Open(n - 1).calls;
    }
  }

  lemma NanoIsReserved(n: nat)
    requires n < 100
    ensures Reserving(Open(n), NANO) == Open(n + 1)
  {
    OccupiedOpen(n);
    assert Admit(Open(n), NANO) == Ok(HELD);
    assert Open(n).calls + [HELD] == Open(n + 1).calls;
  }

  lemma BeginsOn(saved: nat, open: nat, dispatches: map<nat, Stage>, sent: set<nat>)
    requires open < 100
    ensures Step(Between(saved, open, dispatches, sent), Begin(NANO),
      Between(saved, open + 1, dispatches[open := Appended], sent))
  {
    hide Reserving, Occupied;
    NanoIsReserved(open);
    assert |Open(open + 1).calls| == open + 1 && |Open(open).calls| == open;
  }

  lemma StartsOpen()
    ensures Step(NOTHING_YET, Start(1.0, 12), System(None, Some(Open(0)), map[], {}, map[]))
    ensures Step(System(None, Some(Open(0)), map[], {}, map[]), Event.Flush, Between(0, 0, map[], {}))
  {
    var none: map<nat, Stage> := map[];
    assert Open(0).calls == [];
    assert OnFile(none) == none;
  }

  lemma SavesOpen()
    ensures Step(Between(0, 1, map[0 := Appended], {}), Event.Flush, Between(1, 1, map[0 := Saved], {}))
    ensures Step(Between(1, 1, map[0 := Saved], {}), Send(0), Between(1, 1, map[0 := Waiting], {0}))
  {
    var one: map<nat, Stage> := map[0 := Appended];
    assert OnFile(one) == map[0 := Saved];
    assert map[0 := Saved][0 := Waiting] == map[0 := Waiting] && {} + {0} == {0};
  }

  lemma LosesOpen()
    ensures Step(Between(1, 1, map[0 := Waiting], {0}), Answer(0, NO_COUNT), Between(1, 1, map[], {0}))
    ensures Loses(Between(1, 1, map[0 := Waiting], {0}), Answer(0, NO_COUNT)) && Unfinished(Open(1))
  {
    assert Open(1).calls[0] == HELD;
    assert map[0 := Waiting] - {0} == map[];
    assert HELD in Open(1).calls;
  }

  /** With an unfinished call on file and in the process, the run reserves two more. */
  lemma ReservesPastLost()
    ensures Runs(OVERRUN, OVERRUN_STATES) && Loses(OVERRUN_STATES[5], OVERRUN[5])
    ensures Unfinished(OVERRUN_STATES[6].disk.value) && Unfinished(OVERRUN_STATES[6].mem.value)
    ensures |OVERRUN_STATES[8].mem.value.calls| == |OVERRUN_STATES[6].mem.value.calls| + 2
  {
    hide Step, Loses, Unfinished;
    StartsOpen();
    BeginsOn(0, 0, map[], {});
    SavesOpen();
    LosesOpen();
    BeginsOn(1, 1, map[], {0});
    BeginsOn(1, 2, map[1 := Appended], {0});
    var es, ss := OVERRUN, OVERRUN_STATES;
    assert Step(ss[0], es[0], ss[1]) && Step(ss[1], es[1], ss[2]) && Step(ss[2], es[2], ss[3])
      && Step(ss[3], es[3], ss[4]);
    assert Step(ss[4], es[4], ss[5]) && Step(ss[5], es[5], ss[6]) && Step(ss[6], es[6], ss[7])
      && Step(ss[7], es[7], ss[8]);
  }

  // ---------------------------------------------------------------- the limit on file

  lemma StepKeepsLimit(s: System, e: Event, t: System)
    requires Consistent(s) && Step(s, e, t) && s.disk.Some?
    ensures t.disk.Some? && t.disk.value.limit == s.disk.value.limit
  {
    hide Occupied, Priced;
  }

  /** Once there is a file its limit never changes, whatever later processes are started with. */
  lemma {:induction false} LimitIsKept(events: seq<Event>, states: seq<System>, j: nat, k: nat)
    requires Runs(events, states) && j <= k < |states| && states[j].disk.Some?
    ensures states[k].disk.Some? && states[k].disk.value.limit == states[j].disk.value.limit
    decreases k
  {
    if k > j {
      LimitIsKept(events, states, j, k - 1);
      RunsConsistent(events, states, k - 1);
      StepKeepsLimit(states[k - 1], events[k - 1], states[k]);
    }
  }

  /** The limit was given to a process started when there was no file yet. */
  ghost predicate Given(events: seq<Event>, states: seq<System>, k: nat, limit: real)
    requires |states| == |events| + 1
  {
    exists j: nat | j < k <= |events| :: events[j].Start? && events[j].limit == limit && states[j].disk.None?
  }

  lemma {:induction false} LimitWasGiven(events: seq<Event>, states: seq<System>, k: nat)
    requires Runs(events, states) && k < |states|
    ensures states[k].disk.Some? ==> Given(events, states, k, states[k].disk.value.limit)
    ensures states[k].disk.None? && states[k].mem.Some? ==> Given(events, states, k, states[k].mem.value.limit)
    decreases k
  {
    hide Occupied, Priced;
    if k > 0 {
      LimitWasGiven(events, states, k - 1);
      RunsConsistent(events, states, k - 1);
      var s, e, t := states[k - 1], events[k - 1], states[k];
      if s.disk.Some? { StepKeepsLimit(s, e, t); } else if e.Start? { assert Given(events, states, k, e.limit); }
    }
  }
}
