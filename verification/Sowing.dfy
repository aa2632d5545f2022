/** Seeds for the source of a repeat: what the carry handed to a resumed block must offer. */
module Sowing {
  import opened Json
  import opened Plan
  import opened Graph
  import opened Meaning
  import opened Shifting

  /** References to the previous pass: those that a resumed block turns into seeds. */
  function PreviousIn(loop: Repeat, owner: Option<string>): set<string> { {TickId(loop)} + Named(owner) }

  /** The seed a carry has for a reference to the previous pass. */
  function SeedAt(loop: Repeat, c: Carry, ref: string, path: Path): Result<Json>
  {
    if ref == TickId(loop) then SeedTick(c.state, RemainingJson(c.remaining), DeadlineJson(c.deadline), path)
    else SeedOwn(loop.state, c.state, ref, path)
  }

  /** Every reference to the previous pass has a seed; in a template, one that needs no wrapper. */
  predicate Sown(loop: Repeat, c: Carry, prev: set<string>, e: Expr)
    decreases e, 0
  {
    match e
    case Ref(ref, path) => ref in prev ==> SeedAt(loop, c, ref, path).Ok?
    case List(items) => forall i | 0 <= i < |items| :: Sown(loop, c, prev, items[i])
    case Dict(entries) => forall k | k in entries :: Sown(loop, c, prev, entries[k])
    case Template(parts) => AllSown(loop, c, prev, parts)
    case _ => true
  }

  predicate PartSown(loop: Repeat, c: Carry, prev: set<string>, e: Expr)
    decreases e, 1
  {
    match e
    case Ref(ref, path) =>
      ref in prev ==> SeedAt(loop, c, ref, path).Ok? && !NeedsWrapper(SeedAt(loop, c, ref, path).value)
    case Template(parts) => AllSown(loop, c, prev, parts)
    case _ => Sown(loop, c, prev, e)
  }

  predicate AllSown(loop: Repeat, c: Carry, prev: set<string>, parts: seq<Expr>)
    decreases parts, 0
  {
    parts == [] || (PartSown(loop, c, prev, parts[0]) && AllSown(loop, c, prev, parts[1..]))
  }

  predicate SownCond(loop: Repeat, c: Carry, prev: set<string>, cond: Cond)
    decreases cond, 0
  {
    match cond
    case Var(To(ref, path)) => ref in prev ==> SeedAt(loop, c, ref, path).Ok?
    case Group(items) => SownConds(loop, c, prev, items)
    case Operator(_, args) => SownConds(loop, c, prev, args)
    case _ => true
  }

  predicate SownConds(loop: Repeat, c: Carry, prev: set<string>, conds: seq<Cond>)
    decreases conds, 1
  {
    conds == [] || (SownCond(loop, c, prev, conds[0]) && SownConds(loop, c, prev, conds[1..]))
  }

  /** Inside the body a call or condition reads its own previous result and the tick's; behind an
      exit everything of the loop is of the previous pass. */
  function Prior(loop: Repeat, inside: bool, id: Option<string>): set<string>
  {
    if inside then PreviousIn(loop, id) else LoopIds(loop)
  }

  predicate SownOp(loop: Repeat, c: Carry, inside: bool, op: Op)
  {
    match op
    case Call(id, _, args, _) => Sown(loop, c, Prior(loop, inside, id), args)
    case Wait(_, _) => true
    case Sequence(steps) => SownOps(loop, c, inside, steps)
    case Condition(id, when, steps, otherwise) =>
      SownCond(loop, c, Prior(loop, inside, id), when) && SownOps(loop, c, inside, steps)
        && SownOps(loop, c, inside, otherwise)
    case Parallel(_, _) => false
  }

  predicate SownOps(loop: Repeat, c: Carry, inside: bool, ops: seq<Op>)
  {
    ops == [] || (SownOp(loop, c, inside, ops[0]) && SownOps(loop, c, inside, ops[1..]))
  }

  /** What a carry must offer for the rest of its repeat to compile. */
  predicate Resumes(loop: Repeat, after: seq<Op>, c: Carry)
  {
    && c.state.Obj? && loop.initial.Keys <= c.state.fields.Keys
    && SownOps(loop, c, true, loop.body)
    && (forall i | 0 <= i < |loop.state| :: Sown(loop, c, PreviousIn(loop, None), loop.state[i].value))
    && (Timed(loop) ==> SownOps(loop, c, false, after))
  }
}
