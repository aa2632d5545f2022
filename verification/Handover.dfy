/** A whole compiled block: the steps before the repeat, its passes, and then either the
    after-steps or the continuation that hands the rest of the repeat on. */
module Handover {
  import opened Json
  import opened Plan
  import opened Graph
  import opened Meaning
  import opened Compiler
  import opened Discipline
  import opened Agreement
  import opened Shifting
  import opened Realization
  import opened Growth
  import opened Copies
  import opened Placement
  import opened Distinctness
  import opened ChainSteps
  import opened PassWalk
  import opened Blocks
  import opened Leaving
  import opened Assembly
  import opened Writing

  /** What a continuation carries to the next compilation. */
  function CarryFields(c: Carry): map<string, Json>
  {
    map["deadline_unix" := DeadlineJson(c.deadline), "remaining_iterations" := RemainingJson(c.remaining),
      "state" := c.state]
  }

  function HandOn(plan: Plan, loop: Repeat, c: Carry, r: Run): Run
  {
    r.(continuations := r.continuations + [Continuation(Cached(plan, loop.id), Obj(CarryFields(c)))])
  }

  // ---------------------------------------------------------------- the evaluator's outputs

  /** Plain operations add outputs under their own ids only, and owe nothing. */
  lemma {:induction false} PlainOpKeys(w: World, look: Outlook, op: Op, f: EFrame, r: Run)
    requires Plain(op)
    ensures EvalOp(w, look, op, f, r).EDone? ==>
      EvalOp(w, look, op, f, r).frame.env.Keys <= f.env.Keys + Ids(op) && EvalOp(w, look, op, f, r).frame.undo == f.undo
    decreases op, 0
  {
    match op
    case Sequence(steps) => PlainOpsKeys(w, look, steps, f, r);
    case Condition(_, _, steps, otherwise) =>
      PlainOpsKeys(w, look, steps, f, r);
      PlainOpsKeys(w, look, otherwise, f, r);
    case _ =>
  }

  lemma {:induction false} PlainOpsKeys(w: World, look: Outlook, ops: seq<Op>, f: EFrame, r: Run)
    requires AllPlain(ops)
    ensures EvalOps(w, look, ops, f, r).EDone? ==>
      EvalOps(w, look, ops, f, r).frame.env.Keys <= f.env.Keys + IdsOf(ops)
        && EvalOps(w, look, ops, f, r).frame.undo == f.undo
    decreases ops, 1
  {
    if ops != [] {
      PlainOpKeys(w, look, ops[0], f, r);
      match EvalOp(w, look, ops[0], f, r)
      case EFailed(_, _) =>
      case EDone(f', r') => PlainOpsKeys(w, look, ops[1..], f', r');
    }
  }

  lemma {:induction false} OpsOkWider(ops: seq<Op>, small: set<string>, large: set<string>)
    requires OpsOk(ops, small) && small <= large
    ensures OpsOk(ops, large)
    decreases ops, 1
  {
    if ops != [] {
      OpOkWider(ops[0], small, large);
      OpsOkWider(ops[1..], small, large);
    }
  }

  lemma {:induction false} OpOkWider(op: Op, small: set<string>, large: set<string>)
    requires OpOk(op, small) && small <= large
    ensures OpOk(op, large)
    decreases op, 0
  {
    match op
    case Call(_, _, args, undo) =>
      ExprOkWider(args, small, large);
      if undo.Some? { ExprOkWider(undo.value, small, large); }
    case Wait(_, _) =>
    case Sequence(steps) => OpsOkWider(steps, small, large);
    case Condition(_, when, steps, otherwise) =>
      CondOkWider(when, small, large);
      OpsOkWider(steps, small, large);
      OpsOkWider(otherwise, small, large);
    case Parallel(_, branches) => OpsOkWider(branches, small, large);
  }

  lemma {:induction false} ExprOkWider(e: Expr, small: set<string>, large: set<string>)
    requires ExprOk(e, small) && small <= large
    ensures ExprOk(e, large)
    decreases e
  {
    match e
    case List(items) => forall i | 0 <= i < |items| { ExprOkWider(items[i], small, large); }
    case Dict(entries) => forall k | k in entries { ExprOkWider(entries[k], small, large); }
    case Template(parts) => forall i | 0 <= i < |parts| { ExprOkWider(parts[i], small, large); }
    case _ =>
  }

  lemma {:induction false} CondOkWider(c: Cond, small: set<string>, large: set<string>)
    requires CondOk(c, small) && small <= large
    ensures CondOk(c, large)
    decreases c
  {
    match c
    case Group(items) => forall i | 0 <= i < |items| { CondOkWider(items[i], small, large); }
    case Operator(_, args) => forall i | 0 <= i < |args| { CondOkWider(args[i], small, large); }
    case _ =>
  }

  // ---------------------------------------------------------------- the continuation

  const CARRY_KEYS := {"deadline_unix", "remaining_iterations", "state"}

  lemma CarryEntries(b: Block, c: Carry)
    ensures CarryExpr(b).Dict? && CarryExpr(b).entries.Keys == CARRY_KEYS == CarryFields(c).Keys
    ensures forall k | k in CARRY_KEYS :: CarryExpr(b).entries[k] == OutputHole(TickId(b.loop), k)
    ensures forall k | k in CARRY_KEYS :: CarryFields(c)[k] == Step(TickOutput(c), k)
  {
    hide OutputHole;
  }

  lemma CarryRenders(st: Build, vis: set<string>, w: World, b: Block, c: Carry, nodes: map<string, Json>,
      env: map<string, Json>)
    requires Agrees(st, vis, "", nodes, env) && TickId(b.loop) in vis && TopLevel(st, TickId(b.loop))
    requires Get(env, TickId(b.loop)) == TickOutput(c) && Resolve(st, "", CarryExpr(b)).Ok?
    ensures Render(Resolve(st, "", CarryExpr(b)).value, Context(w, nodes), w.text) == Obj(CarryFields(c))
  {
    CarryEntries(b, c);
    var entries, ctx := CarryExpr(b).entries, Context(w, nodes);
    assert CarryExpr(b) == Dict(entries);
    forall k | k in entries ensures Renders(st, ctx, w.text, entries[k], CarryFields(c)[k]) {
      hide CarryExpr, CarryFields, TickOutput, Agrees;
      HoleReads(st, vis, w, nodes, env, TickId(b.loop), k);
    }
    hide CarryExpr, CarryFields, Renders, Render, Resolve;
    DictIs(st, entries, ctx, w.text, CarryFields(c));
  }

  lemma ReplanRuns(st: Build, g: Native, w: World, limit: nat, id: string, cached: Cached, carry: Expr, f: Frame,
      r: Run, n: nat, v: Json)
    returns (f': Frame)
    requires ResolveAll(st) == Ok(g) && Holds(st, id, Task(Replan(cached, carry), END, None), "") && n + 1 <= limit
    requires Resolve(st, "", carry).Ok? ==> Render(Resolve(st, "", carry).value, Context(w, f.nodes), w.text) == v
    ensures Walk(g, w, limit, id, f, r, n)
      == Done(f', r.(continuations := r.continuations + [Continuation(cached, v)]), n + 1)
  {
    var node := Task(Replan(cached, carry), END, None);
    assert ResolveNode(st, "", node).Ok?;
    var t := Resolve(st, "", carry).value;
    assert g[id] == Task(Replan(cached, t), END, None);
    var body := Obj(map["plan_id" := Str("simulation")]);
    assert !HasError(body);
    f' := Completed(f, id, body, None);
    assert Walk(g, w, limit, END, f', r.(continuations := r.continuations + [Continuation(cached, v)]), n + 1)
        == Done(f', r.(continuations := r.continuations + [Continuation(cached, v)]), n + 1);
  }

  /** A block that runs out of passes waits out the interval and hands its carry on. */
  lemma ContinuationRuns(se: Setting, plan: Plan, next: string, c: Carry, outer: map<string, Json>, f: Frame,
      env: map<string, Json>, r: Run, n: nat)
    returns (f': Frame)
    requires Sensible(se) && FrameOk(se, f, env) && PassState(se, se.B().chunk, c, outer, env)
      && Standing(se, se.B().chunk)
    requires next == se.Loop().id + "_boundary_wait" && n + 2 <= se.limit
    requires Holds(se.sc.fin, next, Sleep(se.Loop().interval, se.Loop().id + "_continue"), "")
    requires Holds(se.sc.fin, se.Loop().id + "_continue",
      Task(Replan(Cached(plan, se.Loop().id), CarryExpr(se.B())), END, None), "")
    ensures Walk(se.g, se.w, se.limit, next, f, r, n) == Done(f', HandOn(plan, se.Loop(), c, Rest(se.Loop(), r)), n + 2)
  {
    hide Walk, ResolveAll, Agrees, Distinct, LaidOut, LoopOk, Resolve, Render, CarryExpr;
    var fin, vis, loop, chunk := se.sc.fin, se.sc.vis, se.Loop(), se.B().chunk;
    SleepRuns(fin, se.g, se.w, se.limit, next, loop.interval, loop.id + "_continue", f, r, n);
    NamesAreApart(se, TickId(loop), chunk - 1, TickId(loop), chunk - 1);
    assert NameOf(TickId(loop), chunk - 1, chunk) == TickId(loop);
    if Resolve(fin, "", CarryExpr(se.B())).Ok? { CarryRenders(fin, vis, se.w, se.B(), c, f.nodes, env); }
    f' := ReplanRuns(fin, se.g, se.w, se.limit, loop.id + "_continue", Cached(plan, loop.id), CarryExpr(se.B()), f,
      Rest(loop, r), n + 1, Obj(CarryFields(c)));
  }

  // ---------------------------------------------------------------- passes of a block

  lemma PassGoesOn(w: World, loop: Repeat, c: Carry, outer: map<string, Json>, r: Run)
    requires Pass(w, loop, c, outer, r).GoesOn?
    ensures Decrement(c.remaining) != Some(0) && Pass(w, loop, c, outer, r).carry.remaining == Decrement(c.remaining)
    ensures !Pass(w, loop, c, outer, r).carry.first
  {
  }

  /** Going on after some passes leaves more of a counted repeat. */
  lemma {:induction false} PassesGoOn(w: World, loop: Repeat, c: Carry, outer: map<string, Json>, r: Run, passes: nat)
    requires passes > 0 && Passes(w, loop, c, outer, r, passes).GoesOn?
    ensures c.remaining.None? ==> Passes(w, loop, c, outer, r, passes).carry.remaining.None?
    ensures c.remaining.Some? && c.remaining.value > 0 ==>
      c.remaining.value > passes
        && Passes(w, loop, c, outer, r, passes).carry.remaining == Some(c.remaining.value - passes)
    decreases passes
  {
    PassGoesOn(w, loop, c, outer, r);
    var first := Pass(w, loop, c, outer, r);
    if passes > 1 { PassesGoOn(w, loop, first.carry, outer, Rest(loop, first.run), passes - 1); }
  }

  // ---------------------------------------------------------------- a whole block

  /** The most nodes a run of the block visits. */
  function BlockCost(pre: seq<Op>, loop: Repeat, after: seq<Op>, chunk: nat): nat
  {
    SizeOf(pre) + chunk * PassCost(loop) + SizeOf(after) + 2
  }

  datatype BlockOutcome = Finished(run: Run) | Broken(error: Error, run: Run) | Suspended(carry: Carry, run: Run)

  /** The after-steps, once the loop was left. */
  function EvalTail(w: World, loop: Repeat, after: seq<Op>, c: Carry, outer: map<string, Json>, r: Run): BlockOutcome
  {
    match EvalOps(w, AtExit(loop, c), after, EFrame(outer, Null, []), r)
    case EFailed(e, r') => Broken(e, r')
    case EDone(_, r') => Finished(r')
  }

  /** At most `passes` passes of the plain loop, and the after-steps if they end it. */
  function EvalPasses(w: World, loop: Repeat, after: seq<Op>, c: Carry, outer: map<string, Json>, r: Run,
      passes: nat): BlockOutcome
    requires passes > 0
  {
    match Passes(w, loop, c, outer, r, passes)
    case LoopFailed(e, r') => Broken(e, r')
    case Exits(c', r') => EvalTail(w, loop, after, c', outer, r')
    case GoesOn(c', r') => Suspended(c', Rest(loop, r'))
  }

  /** The steps before the repeat, then its passes. */
  function EvalBlock(w: World, pre: seq<Op>, loop: Repeat, after: seq<Op>, c: Carry, r: Run, passes: nat): BlockOutcome
    requires passes > 0
  {
    match EvalOps(w, Outside, pre, BLANK, r)
    case EFailed(e, r') => Broken(e, r')
    case EDone(f, r') => EvalPasses(w, loop, after, c, f.env, r', passes)
  }

  /** The walk does what the evaluator says the block does. */
  ghost predicate WalksTo(plan: Plan, loop: Repeat, out: BlockOutcome, walked: Outcome)
  {
    match out
    case Finished(r) => walked.Done? && walked.run == r
    case Broken(e, r) => walked.Failed? && walked.error == e && walked.run == r
    case Suspended(c, r) => walked.Done? && walked.run == HandOn(plan, loop, c, r)
  }

  lemma NothingUsedYet(se: Setting, c: Carry, outer: map<string, Json>)
    requires Sensible(se) && Written(se.B(), c) && Counting(se.B(), 0, c) && outer.Keys <= se.early
    ensures PassState(se, 0, c, outer, outer) && OuterOk(se, outer)
  {
    hide ResolveAll, Distinct, LaidOut, LoopOk, Counting;
    forall p | p in PairsFrom(se.Loop(), 0, se.B().chunk) && p.1 >= 0 ensures Get(outer, NameAt(se.B(), p)) == Null {
    }
    forall x | x in IdsOf(se.Loop().body) ensures Get(outer, x) == Null {
      assert SaneBlock(se.B());
      PairIn(se, x, se.B().chunk - 1);
      assert NameAt(se.B(), (x, se.B().chunk - 1)) == x;
    }
  }

  /** From the first pass on. */
  lemma LoopRuns(se: Setting, plan: Plan, entry: string, next: string, c: Carry, outer: map<string, Json>, f: Frame,
      r: Run, n: nat)
    requires Sensible(se) && TailOk(se) && PassesPlaced(se.sc, 0, se.B().chunk, entry, next)
    requires Written(se.B(), c) && Counting(se.B(), 0, c) && outer.Keys <= se.early && FrameOk(se, f, outer)
    requires n + se.B().chunk * PassCost(se.Loop()) + SizeOf(se.tail) + 2 <= se.limit
    requires Continues(se.B()) ==>
      && next == se.Loop().id + "_boundary_wait"
      && Holds(se.sc.fin, next, Sleep(se.Loop().interval, se.Loop().id + "_continue"), "")
      && Holds(se.sc.fin, se.Loop().id + "_continue",
        Task(Replan(Cached(plan, se.Loop().id), CarryExpr(se.B())), END, None), "")
    ensures WalksTo(plan, se.Loop(), EvalPasses(se.w, se.Loop(), se.tail, c, outer, r, se.B().chunk),
                    Walk(se.g, se.w, se.limit, entry, f, r, n))
  {
    hide Walk, EvalOps, Sensible, TailOk, PassesPlaced, PassState, ExitState, ExitPlaced, Agrees, Holds, Passes,
      PassCost;
    var loop, chunk := se.Loop(), se.B().chunk;
    assert chunk > 0 && SaneBlock(se.B()) by { ChunkIsPositive(se); }
    NothingUsedYet(se, c, outer);
    var la := BlockRuns(se, 0, entry, next, c, outer, f, outer, r, n);
    match Passes(se.w, loop, c, outer, r, chunk)
    case LoopFailed(_, _) =>
    case Exits(c', r') =>
      var f', n' := ExitRuns(se, la.after, la.target, c', outer, la.frame, la.env, r', la.steps);
    case GoesOn(c', r') =>
      PassesGoOn(se.w, loop, c, outer, r, chunk);
      assert Continues(se.B());
      var f' := ContinuationRuns(se, plan, next, c', outer, la.frame, la.env, r', la.steps);
  }

  lemma ChunkIsPositive(se: Setting)
    requires Sensible(se)
    ensures se.B().chunk > 0 && SaneBlock(se.B())
  {
  }

  /** Steps before the repeat refer only to visible ids. */
  lemma PreReady(se: Setting, pre: seq<Op>)
    requires Sensible(se) && OpsOk(pre, se.known) && AllPlain(pre)
    ensures OpsOk(pre, se.sc.vis)
  {
    hide ResolveAll, Distinct, LaidOut, LoopOk, OpsOk, AllPlain;
    forall x | x in LoopIds(se.Loop()) ensures x in se.sc.vis {
      NamesAreApart(se, x, se.B().chunk - 1, x, se.B().chunk - 1);
      assert NameOf(x, se.B().chunk - 1, se.B().chunk) == x;
    }
    OpsOkWider(pre, se.known, se.sc.vis);
  }

  lemma HandedOn(plan: Plan, pre: seq<Op>, loop: Repeat, after: seq<Op>, b: Block, text: Json -> string, s: Stages)
    requires Compiles(plan, pre, loop, after, b, text, s) && LaidOut(s.l, s.base) && AllPlain(loop.body)
      && Later(s.st, s.fin)
    ensures Continues(b) ==>
      && s.next == loop.id + "_boundary_wait"
      && Holds(s.fin, s.next, Sleep(loop.interval, loop.id + "_continue"), "")
      && Holds(s.fin, loop.id + "_continue", Task(Replan(Cached(plan, loop.id), CarryExpr(b)), END, None), "")
  {
    ContinuationReady(plan, pre, loop, after, b, text, s);
    if Continues(b) {
      LaterHolds(s.st, s.fin, s.next, Sleep(loop.interval, loop.id + "_continue"), "");
      LaterHolds(s.st, s.fin, loop.id + "_continue", Task(Replan(Cached(plan, loop.id), CarryExpr(b)), END, None), "");
    }
  }

  lemma StagesOf(plan: Plan, pre: seq<Op>, loop: Repeat, after: seq<Op>, b: Block, text: Json -> string, s: Stages)
    requires Compiles(plan, pre, loop, after, b, text, s)
    ensures s.l.block == b && b.loop == loop && b.chunk > 0
  {
  }

  lemma LoopingParts(pre: seq<Op>, loop: Repeat, after: seq<Op>)
    requires LoopingOk(pre, loop, after)
    ensures OpsOk(pre, KnownIds(pre, loop, after)) && AllPlain(pre) && AllPlain(loop.body)
  {
  }

  /** Walking a compiled block, from its first step on, does what the evaluator says of the block's
      seeds as they are written. */
  lemma BlockWalks(w: World, limit: nat, plan: Plan, pre: seq<Op>, loop: Repeat, after: seq<Op>, b: Block, s: Stages,
      g: Native, c: Carry, r: Run)
    requires Compiles(plan, pre, loop, after, b, w.text, s) && LoopingOk(pre, loop, after) && SaneBlock(b)
      && ResolveAll(s.fin) == Ok(g)
    requires Written(b, c) && Counting(b, 0, c)
    requires BlockCost(pre, loop, after, b.chunk) <= limit
    ensures WalksTo(plan, loop, EvalBlock(w, pre, loop, after, c, r, b.chunk), Walk(g, w, limit, s.first, FRESH, r, 0))
  {
    hide Walk, EvalOps, EvalPasses, Sensible, TailOk, PassesPlaced, Agrees, Compiles, LoopingOk, RealizesAll, Holds,
      PassCost, OpsOk, AllPlain;
    var se := SettingOf(w, limit, pre, loop, after, s, g);
    BlockIsSensible(w, limit, plan, pre, loop, after, b, s, g);
    LoopingParts(pre, loop, after);
    StagesOf(plan, pre, loop, after, b, w.text, s);
    HandedOn(plan, pre, loop, after, b, w.text, s);
    FreshMatches(s.fin, Plainly(s.fin), "");
    PreReady(se, pre);
    var f, n := SimulatesAll(s.fin, g, Plainly(s.fin), w, limit, pre, s.first, s.entry, "", FRESH, BLANK, r, 0);
    PlainOpsKeys(w, Outside, pre, BLANK, r);
    match EvalOps(w, Outside, pre, BLANK, r)
    case EFailed(_, _) =>
    case EDone(ef, r') =>
      LoopRuns(se, plan, s.entry, s.next, c, ef.env, f, r', n);
  }

  lemma EvalPassesWritten(w: World, loop: Repeat, after: seq<Op>, c: Carry, outer: map<string, Json>, r: Run,
      passes: nat)
    requires passes > 0 && !c.written && LoopWrites(w, loop, after, c)
    ensures EvalPasses(w, loop, after, AsWritten(c), outer, r, passes)
      == EvalPasses(w, loop, after, c, outer, r, passes)
  {
    hide Passes, EvalOps, OpsWrite, ExprWrites;
    PassesWritten(w, loop, after, c, outer, r, passes);
    match Passes(w, loop, c, outer, r, passes)
    case Exits(c', r') =>
      if Passes(w, loop, AsWritten(c), outer, r, passes) != Exits(c', r') {
        OpsWritten(w, AtExit(loop, c), after, EFrame(outer, Null, []), r');
      }
    case _ =>
  }

  /** What a block starts from can be written into source, so that writing it changes nothing. */
  lemma EvalBlockWritten(w: World, pre: seq<Op>, loop: Repeat, after: seq<Op>, c: Carry, r: Run, passes: nat)
    requires passes > 0 && !c.written && LoopWrites(w, loop, after, c)
    ensures EvalBlock(w, pre, loop, after, AsWritten(c), r, passes) == EvalBlock(w, pre, loop, after, c, r, passes)
  {
    hide EvalPasses, EvalOps;
    match EvalOps(w, Outside, pre, BLANK, r)
    case EFailed(_, _) =>
    case EDone(f, r') => EvalPassesWritten(w, loop, after, c, f.env, r', passes);
  }

  /** Walking a compiled block does what its passes do on the values it starts from, if those can be
      written into source. */
  lemma BlockMeans(w: World, limit: nat, plan: Plan, pre: seq<Op>, loop: Repeat, after: seq<Op>, b: Block, s: Stages,
      g: Native, c: Carry, r: Run)
    requires Compiles(plan, pre, loop, after, b, w.text, s) && LoopingOk(pre, loop, after) && SaneBlock(b)
      && ResolveAll(s.fin) == Ok(g)
    requires StartsFrom(b, c) && Counting(b, 0, c) && !c.written && LoopWrites(w, loop, after, c)
    requires BlockCost(pre, loop, after, b.chunk) <= limit
    ensures WalksTo(plan, loop, EvalBlock(w, pre, loop, after, c, r, b.chunk), Walk(g, w, limit, s.first, FRESH, r, 0))
  {
    hide Walk, EvalBlock, Compiles, LoopingOk, LoopWrites, ResolveAll, BlockCost;
    BlockWalks(w, limit, plan, pre, loop, after, b, s, g, AsWritten(c), r);
    EvalBlockWritten(w, pre, loop, after, c, r, b.chunk);
  }
}
