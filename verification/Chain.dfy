/** A repeat longer than one block runs as a chain of compilations, each resumed from the carry
    its predecessor's continuation handed on. Running the chain is running the plan block by
    block in the evaluator. */
module Chain {
  import opened Json
  import opened Plan
  import opened Graph
  import opened Meaning
  import opened Compiler
  import opened Discipline
  import opened Shifting
  import opened PassWalk
  import opened Blocks
  import opened Assembly
  import opened Handover
  import opened Writing

  // ---------------------------------------------------------------- when a repeat needs a chain

  /** The constructor's test, which divides, agrees with the later count of passes, which rounds
      up: a repeat is refused behind other actions exactly when it may need a second block. */
  lemma ChunkedIffLong(loop: Repeat)
    requires loop.interval > 0.0
    ensures Chunked(loop) <==> Total(loop).None? || Total(loop).value > CHUNK
  {
    if loop.stop.Duration? {
      var x := loop.stop.seconds / loop.interval;
      assert -((-x).Floor) > 20 <==> x > 20.0;
    }
  }

  // ---------------------------------------------------------------- the carry between blocks

  /** The carry a resumed block starts from: counters and retained state, no outputs. */
  function Resume(c: Carry): Carry
  {
    Carry(true, map[], c.state, c.remaining, c.deadline, 0, false, true)
  }

  /** A carry as a pass of the repeat leaves it. */
  predicate Carried(loop: Repeat, c: Carry)
  {
    && c.state.Obj? && c.remaining != Some(0)
    && (c.remaining.Some? <==> Total(loop).Some?)
    && match loop.stop
       case Duration(_) => c.deadline.Some?
       case Deadline(unix) => c.deadline == Some(unix)
       case _ => c.deadline.None?
  }

  /** A block is compiled afresh, or from what the block before it handed on. */
  ghost predicate Begins(loop: Repeat, continuation: map<string, Json>, c: Carry)
  {
    || (continuation == map[] && c == AsWritten(Start(loop)))
    || (exists last :: Carried(loop, last) && continuation == CarryFields(last) && c == Resume(last))
  }

  function BlockLength(remaining: Option<nat>): nat
  {
    if remaining.Some? && remaining.value < CHUNK then remaining.value else CHUNK
  }

  lemma FreshBlock(loop: Repeat)
    requires BlockOf(loop, map[]).Ok? && Total(loop) != Some(0)
    ensures var b := BlockOf(loop, map[]).value;
      && b.loop == loop && b.chunk == BlockLength(Start(loop).remaining)
      && SaneBlock(b) && StartsFrom(b, Start(loop)) && Counting(b, 0, Start(loop))
      && Written(b, AsWritten(Start(loop))) && Counting(b, 0, AsWritten(Start(loop)))
  {
    assert loop.initial + map[] == loop.initial;
  }

  lemma ResumedRemaining(loop: Repeat, last: Carry)
    ensures RemainingOf(loop, CarryFields(last)) == Ok(last.remaining)
  {
    if last.remaining.Some? {
      assert (last.remaining.value as real).Floor == last.remaining.value;
    }
  }

  lemma ResumedBlock(loop: Repeat, last: Carry)
    requires Carried(loop, last) && BlockOf(loop, CarryFields(last)).Ok?
    ensures var b := BlockOf(loop, CarryFields(last)).value;
      && b.loop == loop && b.chunk == BlockLength(last.remaining)
      && SaneBlock(b) && Written(b, Resume(last)) && Counting(b, 0, Resume(last))
  {
    ResumedRemaining(loop, last);
    var fields := last.state.fields;
    assert CarryFields(last) != map[] by { assert "state" in CarryFields(last); }
    assert loop.initial.Keys <= fields.Keys;
    assert loop.initial + fields == fields;
  }

  lemma BeginningBlock(loop: Repeat, continuation: map<string, Json>, c: Carry)
    requires Begins(loop, continuation, c) && BlockOf(loop, continuation).Ok? && Total(loop) != Some(0)
    ensures var b := BlockOf(loop, continuation).value;
      && b.loop == loop && b.chunk == BlockLength(c.remaining) && b.remaining == c.remaining != Some(0)
      && SaneBlock(b) && Written(b, c) && Counting(b, 0, c)
  {
    if continuation == map[] && c == AsWritten(Start(loop)) {
      FreshBlock(loop);
    } else {
      var last :| Carried(loop, last) && continuation == CarryFields(last) && c == Resume(last);
      ResumedBlock(loop, last);
    }
  }

  /** A repeat with a deadline of its own takes the one a continuation gives if and only if that is
      not zero, or is its own; as the seed of the deadline it is used in any case. */
  lemma DeadlineChosen(loop: Repeat, continuation: map<string, Json>, d: real)
    requires BlockOf(loop, continuation).Ok? && loop.stop.Deadline?
    requires "deadline_unix" in continuation && continuation["deadline_unix"] == Num(d)
    ensures var b := BlockOf(loop, continuation).value;
      (b.deadline == Num(d) <==> d != 0.0 || loop.stop.unix == d) && b.seedDeadline == Num(d)
  {
  }

  /** Given zero, a repeat that ends at 50 ends at 50; its first pass reads zero. */
  lemma ZeroIsNotChosen()
    ensures var loop := Repeat("l", [], 1.0, Deadline(50.0), [], map[]);
      var b := BlockOf(loop, map["deadline_unix" := Num(0.0)]);
      b.Ok? && b.value.deadline == Num(50.0) && b.value.seedDeadline == Num(0.0)
  {
    var loop := Repeat("l", [], 1.0, Deadline(50.0), [], map[]);
    var continuation := map["deadline_unix" := Num(0.0)];
    assert "deadline_unix" in continuation;
    assert BlockOf(loop, continuation).Ok?;
  }

  // ---------------------------------------------------------------- from compilation to stages

  /** The steps a block compiles in front of its repeat: none when it resumes. */
  function Ahead(before: seq<Op>, resume: Option<string>): seq<Op>
  {
    if resume.Some? then [] else before
  }

  lemma CompileStages(before: seq<Op>, loop: Repeat, after: seq<Op>, continuation: map<string, Json>,
      resume: Option<string>,
                      text: Json -> string, b: Block)
    returns (s: Stages)
    requires CompileDraft(Looping(before, loop, after), continuation, resume, text).Ok?
    requires BlockOf(loop, continuation) == Ok(b) && b.loop == loop && b.chunk > 0 && b.remaining != Some(0)
    ensures Compiles(Looping(before, loop, after), Ahead(before, resume), loop, after, b, text, s)
    ensures CompileDraft(Looping(before, loop, after), continuation, resume, text) == Ok(Built(s.first, s.fin))
  {
    hide CompileOps, CompilePasses, CompileContinuation, Reserve, BlockOf, Reach;
    var plan := Looping(before, loop, after);
    var (tail, st1) := CompileOps(after, END, "", EMPTY).value;
    var base := Reserve(st1, Some(loop.id)).value.1;
    var l := Layout(b, tail, Reach(base.nodes, [tail], {}), base.nodes, text);
    var (next, st) := CompileContinuation(b, plan, tail, base).value;
    var (entry, st') := CompilePasses(l, b.chunk, next, st).value;
    assert CompileRepeat(plan, loop, continuation, text, tail, st1) == Ok((entry, st'));
    var pre := Ahead(before, resume);
    NothingToCompile(entry, st');
    var (first, fin) := CompileOps(pre, entry, "", st').value;
    s := Stages(base, l, next, st, entry, st', first, fin);
  }

  lemma NothingToCompile(after: string, st: Build)
    ensures CompileOps([], after, "", st) == Ok((after, st))
  {
  }

  // ---------------------------------------------------------------- passes keep the carry sound

  predicate Going(loop: Repeat, c: Carry)
  {
    && c.state.Obj? && c.remaining != Some(0)
    && (c.remaining.Some? <==> Total(loop).Some?)
    && match loop.stop
       case Duration(_) => true
       case Deadline(unix) => c.deadline == Some(unix)
       case _ => c.deadline.None?
  }

  lemma BeginningGoes(loop: Repeat, continuation: map<string, Json>, c: Carry)
    requires Begins(loop, continuation, c) && Total(loop) != Some(0)
    ensures Going(loop, c)
  {
  }

  lemma StartGoes(loop: Repeat)
    requires Total(loop) != Some(0)
    ensures Going(loop, Start(loop))
  {
  }

  lemma PassCarries(w: World, loop: Repeat, c: Carry, outer: map<string, Json>, r: Run)
    requires Going(loop, c) && Pass(w, loop, c, outer, r).GoesOn?
    ensures Carried(loop, Pass(w, loop, c, outer, r).carry) && Going(loop, Pass(w, loop, c, outer, r).carry)
  {
    PassGoesOn(w, loop, c, outer, r);
  }

  lemma {:induction false} PassesCarry(w: World, loop: Repeat, c: Carry, outer: map<string, Json>, r: Run, passes: nat)
    requires passes > 0 && Going(loop, c) && Passes(w, loop, c, outer, r, passes).GoesOn?
    ensures Carried(loop, Passes(w, loop, c, outer, r, passes).carry)
    decreases passes
  {
    PassCarries(w, loop, c, outer, r);
    var first := Pass(w, loop, c, outer, r);
    if passes > 1 { PassesCarry(w, loop, first.carry, outer, Rest(loop, first.run), passes - 1); }
  }

  // ---------------------------------------------------------------- running a chain

  datatype ChainOutcome =
    | Rejected(reason: string, run: Run)
    | Ended(run: Run)
    | Stopped(error: Error, run: Run)
    | Unfinished(carry: Json, run: Run)

  /** Compiles and simulates a plan, and then, at most `more` times, whatever it hands on. */
  function RunChain(plan: Plan, continuation: map<string, Json>, resume: Option<string>, w: World, limit: nat, r: Run,
      more: nat): ChainOutcome
    decreases more, 1
  {
    match Compile(plan, continuation, resume, w.text)
    case Raise(reason) => Rejected(reason, r)
    case Ok(c) => Follow(w, limit, |r.continuations|, Walk(c.graph, w, limit, c.entry, FRESH, r, 0), more)
  }

  /** What a chain does after one of its walks. */
  function Follow(w: World, limit: nat, before: nat, walked: Outcome, more: nat): ChainOutcome
    decreases more, 0
  {
    match walked
    case Failed(e, r', _) => Stopped(e, r')
    case Done(_, r', _) =>
      if |r'.continuations| <= before then Ended(r')
      else
        var last := r'.continuations[|r'.continuations| - 1];
        if more == 0 then Unfinished(last.carry, r')
        else if !last.carry.Obj? then Rejected("continuation must be an object", r')
        else RunChain(last.cached.plan, last.carry.fields, Some(last.cached.completedRepeat), w, limit, r', more - 1)
  }

  lemma SuspendedGoesOn(w: World, pre: seq<Op>, loop: Repeat, after: seq<Op>, c: Carry, r: Run)
    requires c.remaining != Some(0) && EvalBlock(w, pre, loop, after, c, r, BlockLength(c.remaining)).Suspended?
    ensures var last := EvalBlock(w, pre, loop, after, c, r, BlockLength(c.remaining)).carry;
      last.remaining != Some(0) && (c.remaining.Some? ==> c.remaining.value > CHUNK)
        && (Going(loop, c) ==> Carried(loop, last))
  {
    var f := EvalOps(w, Outside, pre, BLANK, r);
    var passes := BlockLength(c.remaining);
    PassesGoOn(w, loop, c, f.frame.env, f.run, passes);
    if Going(loop, c) { PassesCarry(w, loop, c, f.frame.env, f.run, passes); }
  }

  // ---------------------------------------------------------------- what does not hand anything on

  lemma InvokeHandsNothing(w: World, name: string, args: Json, r: Run)
    ensures Invoke(w, name, args, r).run.continuations == r.continuations
  {
  }

  lemma {:induction false} OpHandsNothing(w: World, look: Outlook, op: Op, f: EFrame, r: Run)
    ensures EvalOp(w, look, op, f, r).run.continuations == r.continuations
    decreases op, 0
  {
    match op
    case Call(id, target, args, _) => InvokeHandsNothing(w, target, EvalExpr(w, look, f.env, id, args), r);
    case Wait(_, _) =>
    case Sequence(steps) => OpsHandNothing(w, look, steps, f, r);
    case Condition(_, _, steps, otherwise) =>
      OpsHandNothing(w, look, steps, f, r);
      OpsHandNothing(w, look, otherwise, f, r);
    case Parallel(_, branches) => BranchesHandNothing(w, look, branches, r.clock, r);
  }

  lemma {:induction false} OpsHandNothing(w: World, look: Outlook, ops: seq<Op>, f: EFrame, r: Run)
    ensures EvalOps(w, look, ops, f, r).run.continuations == r.continuations
    decreases ops, 1
  {
    if ops != [] {
      OpHandsNothing(w, look, ops[0], f, r);
      match EvalOp(w, look, ops[0], f, r)
      case EFailed(_, _) =>
      case EDone(f', r') => OpsHandNothing(w, look, ops[1..], f', r');
    }
  }

  lemma {:induction false} BranchesHandNothing(w: World, look: Outlook, branches: seq<Op>, start: real, r: Run)
    ensures EvalBranches(w, look, branches, start, r).run.continuations == r.continuations
    decreases branches, 1
  {
    if branches != [] {
      OpHandsNothing(w, look, branches[0], BLANK, r.(clock := start));
      match EvalOp(w, look, branches[0], BLANK, r.(clock := start))
      case EFailed(_, _) =>
      case EDone(_, r') => BranchesHandNothing(w, look, branches[1..], start, r');
    }
  }

  lemma {:induction false} PassesHandNothing(w: World, loop: Repeat, c: Carry, outer: map<string, Json>, r: Run,
      passes: nat)
    requires passes > 0
    ensures Passes(w, loop, c, outer, r, passes).run.continuations == r.continuations
    decreases passes
  {
    hide EvalOps;
    OpsHandNothing(w, InPass(loop, c), loop.body, EFrame(outer, Null, []), if Timed(loop) then Stepped(r) else r);
    match Pass(w, loop, c, outer, r)
    case GoesOn(c', r') => if passes > 1 { PassesHandNothing(w, loop, c', outer, Rest(loop, r'), passes - 1); }
    case _ =>
  }

  lemma BlockHandsNothing(w: World, pre: seq<Op>, loop: Repeat, after: seq<Op>, c: Carry, r: Run, passes: nat)
    requires passes > 0
    ensures EvalBlock(w, pre, loop, after, c, r, passes).run.continuations == r.continuations
  {
    hide EvalOps, Passes;
    OpsHandNothing(w, Outside, pre, BLANK, r);
    match EvalOps(w, Outside, pre, BLANK, r)
    case EFailed(_, _) =>
    case EDone(f, r') =>
      PassesHandNothing(w, loop, c, f.env, r', passes);
      match Passes(w, loop, c, f.env, r', passes)
      case Exits(c', r2) => OpsHandNothing(w, AtExit(loop, c'), after, EFrame(f.env, Null, []), r2);
      case _ =>
  }

  // ---------------------------------------------------------------- chains of blocks

  /** The steps a walk of any block of the plan may take. */
  function LongestBlock(before: seq<Op>, loop: Repeat, after: seq<Op>): nat
  {
    BlockCost(before, loop, after, CHUNK)
  }

  lemma CostGrows(before: seq<Op>, resume: Option<string>, loop: Repeat, after: seq<Op>, chunk: nat)
    requires chunk <= CHUNK
    ensures BlockCost(Ahead(before, resume), loop, after, chunk) <= LongestBlock(before, loop, after)
  {
    Multiply(chunk, CHUNK, PassCost(loop));
  }

  lemma Multiply(a: nat, b: nat, c: nat)
    requires a <= b
    ensures a * c <= b * c
  {
  }

  /** The walk of a compiled block does what the evaluator says the block does. */
  ghost predicate LinkDoes(plan: Plan, pre: seq<Op>, loop: Repeat, after: seq<Op>, g: Compiled, w: World, limit: nat,
      c: Carry, r: Run)
  {
    && c.remaining != Some(0)
    && WalksTo(plan, loop, EvalBlock(w, pre, loop, after, c, r, BlockLength(c.remaining)),
      Walk(g.graph, w, limit, g.entry, FRESH, r, 0))
  }

  /** One link of the chain, on its seeds as they are written. */
  lemma LinkWalks(before: seq<Op>, loop: Repeat, after: seq<Op>, continuation: map<string, Json>,
      resume: Option<string>,
                  w: World, limit: nat, c: Carry, r: Run)
    requires LoopingOk(Ahead(before, resume), loop, after) && Begins(loop, continuation, c)
    requires Compile(Looping(before, loop, after), continuation, resume, w.text).Ok?
    requires LongestBlock(before, loop, after) <= limit
    ensures c.remaining != Some(0) && Going(loop, c)
    ensures LinkDoes(Looping(before, loop, after), Ahead(before, resume), loop, after,
                     Compile(Looping(before, loop, after), continuation, resume, w.text).value, w, limit, c, r)
  {
    hide Walk, CompileOps, EvalBlock, ResolveAll, Compiles, CompilePasses, OpsOk, AllPlain, StateOk, BlockOf;
    var plan := Looping(before, loop, after);
    assert Total(loop) != Some(0);
    BeginningGoes(loop, continuation, c);
    var (tail, st1) := CompileOps(after, END, "", EMPTY).value;
    assert CompileRepeat(plan, loop, continuation, w.text, tail, st1).Ok?;
    var b := BlockOf(loop, continuation).value;
    BeginningBlock(loop, continuation, c);
    var s := CompileStages(before, loop, after, continuation, resume, w.text, b);
    CostGrows(before, resume, loop, after, b.chunk);
    BlockWalks(w, limit, plan, Ahead(before, resume), loop, after, b, s, ResolveAll(s.fin).value, c, r);
  }

  /** The values a block is compiled from: the initial state, or those handed on. */
  ghost predicate Opens(loop: Repeat, continuation: map<string, Json>, c: Carry)
  {
    !c.written && Begins(loop, continuation, AsWritten(c))
  }

  /** One link of the chain, on the values it is compiled from, if those can be written into source. */
  lemma LinkMeans(before: seq<Op>, loop: Repeat, after: seq<Op>, continuation: map<string, Json>,
      resume: Option<string>,
                  w: World, limit: nat, c: Carry, r: Run)
    requires LoopingOk(Ahead(before, resume), loop, after) && Opens(loop, continuation, c)
      && LoopWrites(w, loop, after, c)
    requires Compile(Looping(before, loop, after), continuation, resume, w.text).Ok?
    requires LongestBlock(before, loop, after) <= limit
    ensures LinkDoes(Looping(before, loop, after), Ahead(before, resume), loop, after,
                     Compile(Looping(before, loop, after), continuation, resume, w.text).value, w, limit, c, r)
  {
    hide Walk, Compile, EvalBlock, LoopWrites, LoopingOk, LongestBlock, WalksTo;
    LinkWalks(before, loop, after, continuation, resume, w, limit, AsWritten(c), r);
    EvalBlockWritten(w, Ahead(before, resume), loop, after, c, r, BlockLength(c.remaining));
  }

  lemma BeginsAgain(loop: Repeat, last: Carry)
    requires Carried(loop, last)
    ensures Begins(loop, CarryFields(last), Resume(last)) && Resume(last).remaining != Some(0)
  {
  }

  function FollowBlock(w: World, limit: nat, plan: Plan, loop: Repeat, out: BlockOutcome, more: nat): ChainOutcome
  {
    match out
    case Finished(r') => Ended(r')
    case Broken(e, r') => Stopped(e, r')
    case Suspended(last, r') =>
      if more == 0 then Unfinished(Obj(CarryFields(last)), HandOn(plan, loop, last, r'))
      else RunChain(plan, CarryFields(last), Some(loop.id), w, limit, HandOn(plan, loop, last, r'), more - 1)
  }

  /** A walk that does what its block does is followed by what the block is followed by. */
  lemma FollowMeans(w: World, limit: nat, plan: Plan, loop: Repeat, out: BlockOutcome, walked: Outcome, before: nat,
      more: nat)
    requires WalksTo(plan, loop, out, walked) && |out.run.continuations| == before
    ensures Follow(w, limit, before, walked, more) == FollowBlock(w, limit, plan, loop, out, more)
  {
    hide RunChain;
  }
}
