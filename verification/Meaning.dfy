/** The direct meaning of a plan: a recursive evaluator that knows no graph, no renamed pass and no
    continuation. It is what the compiled graphs are proved against. */
module Meaning {
  import opened Json
  import opened Plan
  import opened Graph

  const ROOTS := {"payload", "runtime", "callback"}

  // ---------------------------------------------------------------- the state of a repeat

  /** What one pass of a repeat leaves for the next: its operations' outputs and its counters.
      A first pass has no outputs; it reads the explicit seed instead. A carry is written when its
      seeds are read as they stand in compiled source, spelled in templates and behind the literal
      wrapper in conditions; the plain loop starts from one that is not. */
  datatype Carry = Carry(
    first: bool,
    outputs: map<string, Json>,
    state: Json,
    remaining: Option<nat>,
    deadline: Option<real>,
    iteration: nat,
    done: bool,
    written: bool)

  function TickId(loop: Repeat): string { loop.id + "_tick" }

  function RemainingJson(remaining: Option<nat>): Json
  {
    if remaining.Some? then Num(remaining.value as real) else Null
  }

  function DeadlineJson(deadline: Option<real>): Json
  {
    if deadline.Some? then Num(deadline.value) else Null
  }

  function TickOutput(c: Carry): Json
  {
    Obj(map[
      "iteration" := Num(c.iteration as real),
      "deadline_unix" := DeadlineJson(c.deadline),
      "remaining_iterations" := RemainingJson(c.remaining),
      "state" := c.state,
      "done" := Bool(c.done)])
  }

  // ---------------------------------------------------------------- seeds

  /** Follows a path through seed data; unlike a lookup, a missing part is an error. */
  function SeedWalk(v: Json, parts: Path): Result<Json>
    decreases parts
  {
    if parts == [] then Ok(v)
    else if v.Arr? && ParseNat(parts[0]).Some? && ParseNat(parts[0]).value < |v.items| then
      SeedWalk(v.items[ParseNat(parts[0]).value], parts[1..])
    else if v.Obj? && parts[0] in v.fields then SeedWalk(v.fields[parts[0]], parts[1..])
    else Raise("initial_state is missing a path")
  }

  /** The seed of the repeat's own counters and retained state. */
  function SeedTick(state: Json, remaining: Json, deadline: Json, path: Path): Result<Json>
  {
    if path == ["state"] then Ok(state)
    else if |path| > 1 && path[0] == "state" then SeedWalk(state, path[1..])
    else if path == ["iteration"] then Ok(Num(0.0))
    else if path == ["remaining_iterations"] then Ok(remaining)
    else if path == ["deadline_unix"] then Ok(deadline)
    else Raise("unknown initial counter field")
  }

  predicate Covers(base: Path, path: Path)
  {
    path == base || (base != [] && base < path)
  }

  /** The retained key whose reference covers the most of a path; a repeated reference keeps
      its last key. */
  function BestKey(entries: seq<Retained>, ref: string, path: Path): Option<(Path, string)>
  {
    if entries == [] then None
    else
      var later := BestKey(entries[1..], ref, path);
      match entries[0].value
      case Ref(r, base) =>
        if r == ref && Covers(base, path) && (later.None? || |later.value.0| < |base|)
        then Some((base, entries[0].key)) else later
      case _ => later
  }

  /** The seed of an operation's previous output: the state key mapped from it. */
  function SeedOwn(entries: seq<Retained>, state: Json, ref: string, path: Path): Result<Json>
  {
    match BestKey(entries, ref, path)
    case None => Raise("previous reference needs a state mapping and initial_state")
    case Some(best) =>
      if |best.0| <= |path| then SeedWalk(state, [best.1] + path[|best.0|..])
      else Raise("previous reference needs a state mapping and initial_state")
  }

  // ---------------------------------------------------------------- references

  /** Where an expression stands: outside the repeat, in a pass, or after its last pass. */
  datatype Outlook = Outside | InPass(loop: Repeat, carry: Carry) | AtExit(loop: Repeat, carry: Carry)

  /** Seed data is there at compile time, to be written into the graph; everything else is read at run
      time. */
  datatype Reading = Live(v: Json) | Seeded(v: Json, written: bool)

  function Get(env: map<string, Json>, ref: string): Json
  {
    if ref in env then env[ref] else Null
  }

  function OrNull(r: Result<Json>): Json
  {
    if r.Ok? then r.value else Null
  }

  function Previous(loop: Repeat, carry: Carry, ref: string, path: Path): Reading
  {
    if carry.first then Seeded(OrNull(SeedOwn(loop.state, carry.state, ref, path)), carry.written)
    else Live(Lookup(Get(carry.outputs, ref), path))
  }

  function PreviousTick(carry: Carry, path: Path): Reading
  {
    if carry.first
      then Seeded(OrNull(SeedTick(carry.state, RemainingJson(carry.remaining), DeadlineJson(carry.deadline), path)),
      carry.written)
    else Live(Lookup(TickOutput(carry), path))
  }

  /** Inside a pass an operation's own id is its previous result, the repeat's tick is the
      previous pass's; after the loop both are the last completed pass's. */
  function Read(w: World, look: Outlook, env: map<string, Json>, owner: Option<string>, ref: string,
      path: Path): Reading
  {
    if ref in ROOTS then Live(Lookup(Context(w, map[]), [ref] + path))
    else
      match look
      case Outside => Live(Lookup(Get(env, ref), path))
      case InPass(loop, carry) =>
        if ref == TickId(loop) then PreviousTick(carry, path)
        else if owner == Some(ref) then Previous(loop, carry, ref, path)
        else Live(Lookup(Get(env, ref), path))
      case AtExit(loop, carry) =>
        if ref == TickId(loop) then PreviousTick(carry, path)
        else if ref in IdsOf(loop.body) then Previous(loop, carry, ref, path)
        else Live(Lookup(Get(env, ref), path))
  }

  // ---------------------------------------------------------------- expressions

  predicate HasBraces(s: string)
  {
    exists i | 0 <= i < |s| - 1 :: s[i] == '{' && s[i + 1] == '{'
  }

  /** Data the compiler must wrap as a literal so that nothing in it is rendered. */
  predicate NeedsWrapper(v: Json)
  {
    v.Arr? || v.Obj? || (v.Str? && HasBraces(v.s))
  }

  /** Text of a seed interpolated at compile time. */
  function SeedText(text: Json -> string, v: Json): string
  {
    match v
    case Null => ""
    case Bool(b) => if b then "true" else "false"
    case Str(s) => s
    case _ => text(v)
  }

  /** The text fragments of one template part. Parts that are not text have none: a plan with
      such a part, or with a seed there that needs a wrapper, does not compile. */
  function Parts(w: World, look: Outlook, env: map<string, Json>, owner: Option<string>, e: Expr): seq<Fragment>
    decreases e, 0
  {
    match e
    case Words(pieces) => Fill(pieces, Context(w, map[]))
    case Ref(ref, path) =>
      (match Read(w, look, env, owner, ref, path)
       case Live(v) => [Value(v)]
       case Seeded(v, written) =>
         if !written then [Value(v)] else if NeedsWrapper(v) then [] else [Spoken(SeedText(w.text, v))])
    case Template(parts) => PartsOf(w, look, env, owner, parts)
    case _ => []
  }

  function PartsOf(w: World, look: Outlook, env: map<string, Json>, owner: Option<string>, es: seq<Expr>): seq<Fragment>
    decreases es, 1
  {
    if es == [] then [] else Parts(w, look, env, owner, es[0]) + PartsOf(w, look, env, owner, es[1..])
  }

  function EvalExpr(w: World, look: Outlook, env: map<string, Json>, owner: Option<string>, e: Expr): Json
  {
    match e
    case Scalar(v) => v
    case Literal(v) => v
    case Words(pieces) => Finish(w.text, Fill(pieces, Context(w, map[])))
    case List(items) =>
      Arr(seq(|items|, i requires 0 <= i < |items| => EvalExpr(w, look, env, owner, items[i])))
    case Dict(entries) => Obj(map k | k in entries :: EvalExpr(w, look, env, owner, entries[k]))
    case Ref(ref, path) => Read(w, look, env, owner, ref, path).v
    case Template(parts) => Finish(w.text, PartsOf(w, look, env, owner, parts))
  }

  /** Evaluating a dictionary evaluates its entries. */
  lemma EvalDict(w: World, look: Outlook, env: map<string, Json>, owner: Option<string>, entries: map<string, Expr>)
    returns (fields: map<string, Json>)
    ensures EvalExpr(w, look, env, owner, Dict(entries)) == Obj(fields) && fields.Keys == entries.Keys
    ensures forall k | k in entries :: fields[k] == EvalExpr(w, look, env, owner, entries[k])
  {
    fields := EvalExpr(w, look, env, owner, Dict(entries)).fields;
  }

  lemma EvalList(w: World, look: Outlook, env: map<string, Json>, owner: Option<string>, items: seq<Expr>)
    returns (values: seq<Json>)
    ensures EvalExpr(w, look, env, owner, List(items)) == Arr(values) && |values| == |items|
    ensures forall i | 0 <= i < |items| :: values[i] == EvalExpr(w, look, env, owner, items[i])
  {
    values := EvalExpr(w, look, env, owner, List(items)).items;
  }

  /** The literal wrapper is no JSONLogic operator, so a condition reading a written seed that needs it
      raises. */
  function EvalOperand(w: World, look: Outlook, env: map<string, Json>, owner: Option<string>): Operand -> Option<Json>
  {
    (o: Operand) => match o
      case Raw(path) => Some(Lookup(Context(w, map[]), path))
      case To(ref, path) =>
        match Read(w, look, env, owner, ref, path)
        case Live(v) => Some(v)
        case Seeded(v, written) => if written && NeedsWrapper(v) then None else Some(v)
  }

  // ---------------------------------------------------------------- operations

  /** Outputs by operation id, the last result (a parallel's has no output), and the compensations
      owed. */
  datatype EFrame = EFrame(env: map<string, Json>, last: Json, undo: seq<Expr>)

  const BLANK: EFrame := EFrame(map[], Null, [])

  datatype EOutcome = EDone(frame: EFrame, run: Run) | EFailed(error: Error, run: Run)

  datatype EBranches = EAllDone(outputs: map<string, Json>, clocks: seq<real>, run: Run)
      | EBranchFailed(error: Error, run: Run)

  function Bind(env: map<string, Json>, id: Option<string>, v: Json): map<string, Json>
  {
    if id.Some? then env[id.value := v] else env
  }

  function Repay(w: World, look: Outlook, env: map<string, Json>, undo: seq<Expr>): (calls: seq<Json>)
    ensures |calls| == |undo|
  {
    seq(|undo|, i requires 0 <= i < |undo| => EvalExpr(w, look, env, None, undo[|undo| - 1 - i]))
  }

  /** Nothing to run: what follows is entered at once. */
  predicate Idle(op: Op) { op.Sequence? && AllIdle(op.steps) }

  predicate AllIdle(ops: seq<Op>) { ops == [] || (Idle(ops[0]) && AllIdle(ops[1..])) }

  /** Ids of the calls and waits an execution can end at: those nothing follows, and all of them in
      the branches of a parallel. */
  function EndIds(op: Op, last: bool): set<string>
    decreases op, 0
  {
    match op
    case Call(id, _, _, _) => if last then Named(id) else {}
    case Wait(id, _) => if last then Named(id) else {}
    case Sequence(steps) => EndIdsOf(steps, last)
    case Condition(_, _, steps, otherwise) => EndIdsOf(steps, last) + EndIdsOf(otherwise, last)
    case Parallel(_, branches) => EndIdsIn(branches)
  }

  function EndIdsOf(ops: seq<Op>, last: bool): set<string>
    decreases ops, 1
  {
    if ops == [] then {} else EndIds(ops[0], last && AllIdle(ops[1..])) + EndIdsOf(ops[1..], last)
  }

  function EndIdsIn(branches: seq<Op>): set<string>
    decreases branches, 1
  {
    if branches == [] then {} else EndIds(branches[0], true) + EndIdsIn(branches[1..])
  }

  /** After a parallel every id a branch can end at reads as the branch's last result. */
  function Exposed(op: Op, last: Json): map<string, Json>
  {
    map t | t in EndIds(op, true) :: Step(last, "output")
  }

  function EvalOp(w: World, look: Outlook, op: Op, f: EFrame, r: Run): EOutcome
    decreases op, 0
  {
    match op
    case Call(id, target, args, undo) =>
      (match Invoke(w, target, EvalExpr(w, look, f.env, id, args), r)
       case Crashed(r') => EFailed(Exception, r')
       case Body(body, r') =>
         if HasError(body) then
           EFailed(TaskFailed, r'.(compensations := r'.compensations + Repay(w, look, f.env, f.undo)))
         else
           EDone(EFrame(Bind(f.env, id, Step(body, "output")), body,
                        if undo.Some? then f.undo + [undo.value] else f.undo), r'))
    case Wait(_, seconds) => EDone(f, r.(clock := r.clock + seconds))
    case Sequence(steps) => EvalOps(w, look, steps, f, r)
    case Condition(id, when, steps, otherwise) =>
      (match Decide(w, when, EvalOperand(w, look, f.env, id))
       case None => EFailed(Exception, r)
       case Some(v) => if Truthy(v) then EvalOps(w, look, steps, f, r) else EvalOps(w, look, otherwise, f, r))
    case Parallel(_, branches) =>
      match EvalBranches(w, look, branches, r.clock, r)
      case EBranchFailed(e, r') => EFailed(e, r')
      case EAllDone(outputs, clocks, r') =>
        if clocks == [] then EFailed(Exception, r')
        else EDone(EFrame(f.env + outputs, Null, f.undo), r'.(clock := Latest(clocks)))
  }

  function EvalOps(w: World, look: Outlook, ops: seq<Op>, f: EFrame, r: Run): EOutcome
    decreases ops, 1
  {
    if ops == [] then EDone(f, r)
    else
      match EvalOp(w, look, ops[0], f, r)
      case EFailed(e, r') => EFailed(e, r')
      case EDone(f', r') => EvalOps(w, look, ops[1..], f', r')
  }

  /** Branches see only their own outputs, start at the same time, and expose their last result. */
  function EvalBranches(w: World, look: Outlook, branches: seq<Op>, start: real, r: Run): (out: EBranches)
    ensures out.EAllDone? ==> |out.clocks| == |branches|
    decreases branches, 1
  {
    if branches == [] then EAllDone(map[], [], r)
    else
      match EvalOp(w, look, branches[0], BLANK, r.(clock := start))
      case EFailed(e, r') => EBranchFailed(e, r')
      case EDone(f', r') =>
        match EvalBranches(w, look, branches[1..], start, r')
        case EBranchFailed(e, r'') => EBranchFailed(e, r'')
        case EAllDone(outputs, clocks, r'') =>
          EAllDone(Exposed(branches[0], f'.last) + outputs, [r'.clock] + clocks, r'')
  }

  // ---------------------------------------------------------------- the plain loop

  datatype LoopOutcome =
    | Exits(carry: Carry, run: Run)
    | GoesOn(carry: Carry, run: Run)
    | LoopFailed(error: Error, run: Run)

  predicate Timed(loop: Repeat) { loop.stop.Duration? || loop.stop.Deadline? }

  function Only(env: map<string, Json>, ids: set<string>): map<string, Json>
  {
    map k | k in env && k in ids :: env[k]
  }

  /** The deadline in force: kept once known, else counted from the first pass. */
  function DeadlineOf(loop: Repeat, carry: Carry, now: real): Option<real>
  {
    if !Timed(loop) then None
    else if carry.deadline.Some? then carry.deadline
    else if loop.stop.Duration? then Some(now + loop.stop.seconds)
    else Some(loop.stop.unix)
  }

  function Retain(w: World, look: Outlook, env: map<string, Json>, entries: seq<Retained>): map<string, Json>
  {
    if entries == [] then map[]
    else
      Retain(w, look, env, entries[..|entries| - 1])
        [entries[|entries| - 1].key := EvalExpr(w, look, env, None, entries[|entries| - 1].value)]
  }

  function NextState(w: World, loop: Repeat, carry: Carry, env: map<string, Json>): Json
  {
    if loop.state == [] then carry.state else Obj(Retain(w, InPass(loop, carry), env, loop.state))
  }

  function Decrement(remaining: Option<nat>): Option<nat>
  {
    if remaining.None? || remaining.value == 0 then remaining else Some(remaining.value - 1)
  }

  predicate Past(deadline: Option<real>, now: real) { deadline.Some? && now >= deadline.value }

  function Advance(w: World, loop: Repeat, carry: Carry, deadline: Option<real>, env: map<string, Json>,
      now: real): Carry
  {
    var remaining := Decrement(carry.remaining);
    Carry(false, Only(env, IdsOf(loop.body)), NextState(w, loop, carry, env), remaining, deadline,
          carry.iteration + 1, remaining == Some(0) || Past(deadline, now), false)
  }

  function Stepped(r: Run): Run { r.(chainSteps := r.chainSteps + 1) }

  /** One pass: the clock check of a timed repeat, the body, the bookkeeping. */
  function Pass(w: World, loop: Repeat, carry: Carry, outer: map<string, Json>, r: Run): LoopOutcome
  {
    var deadline := DeadlineOf(loop, carry, r.clock);
    var r' := if Timed(loop) then Stepped(r) else r;
    if Past(deadline, r.clock) then Exits(carry, r')
    else
      match EvalOps(w, InPass(loop, carry), loop.body, EFrame(outer, Null, []), r')
      case EFailed(e, r'') => LoopFailed(e, r'')
      case EDone(f, r'') =>
        var carry' := Advance(w, loop, carry, deadline, f.env, r''.clock);
        if carry'.done then Exits(carry', Stepped(r'')) else GoesOn(carry', Stepped(r''))
  }

  function Rest(loop: Repeat, r: Run): Run { r.(clock := r.clock + loop.interval) }

  /** At most `passes` passes, with the interval between them. */
  function Passes(w: World, loop: Repeat, carry: Carry, outer: map<string, Json>, r: Run, passes: nat): LoopOutcome
    requires passes > 0
    decreases passes
  {
    match Pass(w, loop, carry, outer, r)
    case GoesOn(carry', r') =>
      if passes == 1 then GoesOn(carry', r')
      else Passes(w, loop, carry', outer, Rest(loop, r'), passes - 1)
    case ended => ended
  }

  /** How a repeat starts. */
  function Start(loop: Repeat): Carry
  {
    Carry(true, map[], Obj(loop.initial), Total(loop),
          if loop.stop.Deadline? then Some(loop.stop.unix) else None, 0, false, false)
  }

  function Ceiling(x: real): int { -((-x).Floor) }

  function Total(loop: Repeat): Option<nat>
  {
    match loop.stop
    case Count(n) => Some(n)
    case Duration(seconds) =>
      if loop.interval == 0.0 then Some(1)
      else
        var passes := Ceiling(seconds / loop.interval);
        Some(if passes > 1 then passes else 1)
    case _ => None
  }
}
