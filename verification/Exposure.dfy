/** What the ids inside a parallel read once it is over: each branch exposes its last result only,
    under every id it can end at. */
module Exposure {
  import opened Json
  import opened Plan
  import opened Graph
  import opened Meaning
  import opened Discipline
  import opened Reserving

  // ---------------------------------------------------------------- what operations leave alone

  lemma {:induction false} OpLeaves(w: World, look: Outlook, op: Op, f: EFrame, r: Run, t: string)
    requires NoParallel(op) && t !in Ids(op) && t !in f.env
    ensures EvalOp(w, look, op, f, r).EDone? ==> t !in EvalOp(w, look, op, f, r).frame.env
    decreases op, 0
  {
    match op
    case Sequence(steps) => OpsLeave(w, look, steps, f, r, t);
    case Condition(_, _, steps, otherwise) =>
      OpsLeave(w, look, steps, f, r, t);
      OpsLeave(w, look, otherwise, f, r, t);
    case _ =>
  }

  lemma {:induction false} OpsLeave(w: World, look: Outlook, ops: seq<Op>, f: EFrame, r: Run, t: string)
    requires NoParallels(ops) && t !in IdsOf(ops) && t !in f.env
    ensures EvalOps(w, look, ops, f, r).EDone? ==> t !in EvalOps(w, look, ops, f, r).frame.env
    decreases ops, 1
  {
    if ops != [] {
      OpLeaves(w, look, ops[0], f, r, t);
      match EvalOp(w, look, ops[0], f, r)
      case EFailed(_, _) =>
      case EDone(f', r') => OpsLeave(w, look, ops[1..], f', r', t);
    }
  }

  lemma {:induction false} IdleIsNothing(w: World, look: Outlook, op: Op, f: EFrame, r: Run)
    requires Idle(op)
    ensures EvalOp(w, look, op, f, r) == EDone(f, r)
    decreases op, 0
  {
    AllIdleIsNothing(w, look, op.steps, f, r);
  }

  lemma {:induction false} AllIdleIsNothing(w: World, look: Outlook, ops: seq<Op>, f: EFrame, r: Run)
    requires AllIdle(ops)
    ensures EvalOps(w, look, ops, f, r) == EDone(f, r)
    decreases ops, 1
  {
    if ops != [] {
      IdleIsNothing(w, look, ops[0], f, r);
      AllIdleIsNothing(w, look, ops[1..], f, r);
    }
  }

  // ---------------------------------------------------------------- ends

  lemma {:induction false} EndsAreIds(op: Op, last: bool)
    requires NoParallel(op)
    ensures EndIds(op, last) <= Ids(op) && (!last ==> EndIds(op, last) == {})
    decreases op, 0
  {
    match op
    case Sequence(steps) => AllEndsAreIds(steps, last);
    case Condition(_, _, steps, otherwise) =>
      AllEndsAreIds(steps, last);
      AllEndsAreIds(otherwise, last);
    case _ =>
  }

  lemma {:induction false} AllEndsAreIds(ops: seq<Op>, last: bool)
    requires NoParallels(ops)
    ensures EndIdsOf(ops, last) <= IdsOf(ops) && (!last ==> EndIdsOf(ops, last) == {})
    decreases ops, 1
  {
    if ops != [] {
      EndsAreIds(ops[0], last && AllIdle(ops[1..]));
      AllEndsAreIds(ops[1..], last);
    }
  }

  /** If the id has an output, that is the last result. */
  predicate EndsWith(out: EOutcome, t: string)
  {
    out.EDone? && t in out.frame.env ==> out.frame.env[t] == Step(out.frame.last, "output")
  }

  lemma {:induction false} EndIsLast(w: World, look: Outlook, op: Op, f: EFrame, r: Run, last: bool, t: string)
    requires NoParallel(op) && Unique(op) && t in EndIds(op, last) && t !in f.env
    ensures EndsWith(EvalOp(w, look, op, f, r), t)
    decreases op, 0
  {
    EndsAreIds(op, last);
    match op
    case Sequence(steps) => EndOfOpsIsLast(w, look, steps, f, r, last, t);
    case Condition(_, _, steps, otherwise) =>
      AllEndsAreIds(steps, last);
      AllEndsAreIds(otherwise, last);
      if t in EndIdsOf(steps, last) {
        EndOfOpsIsLast(w, look, steps, f, r, last, t);
        OpsLeave(w, look, otherwise, f, r, t);
      } else {
        OpsLeave(w, look, steps, f, r, t);
        EndOfOpsIsLast(w, look, otherwise, f, r, last, t);
      }
    case _ =>
  }

  lemma {:induction false} EndOfOpsIsLast(w: World, look: Outlook, ops: seq<Op>, f: EFrame, r: Run, last: bool,
      t: string)
    requires NoParallels(ops) && AllUnique(ops) && t in EndIdsOf(ops, last) && t !in f.env
    ensures EndsWith(EvalOps(w, look, ops, f, r), t)
    decreases ops, 1
  {
    EndsAreIds(ops[0], last && AllIdle(ops[1..]));
    AllEndsAreIds(ops[1..], last);
    match EvalOp(w, look, ops[0], f, r)
    case EFailed(_, _) =>
    case EDone(f', r') =>
      if t in EndIds(ops[0], last && AllIdle(ops[1..])) {
        EndIsLast(w, look, ops[0], f, r, last && AllIdle(ops[1..]), t);
        AllIdleIsNothing(w, look, ops[1..], f', r');
      } else {
        OpLeaves(w, look, ops[0], f, r, t);
        EndOfOpsIsLast(w, look, ops[1..], f', r', last, t);
      }
  }

  // ---------------------------------------------------------------- what a parallel exposes

  /** After a parallel an id its branch can end at reads what it gave, or null when it did not run, if
      and only if it ran or the branch's last result has no output; else it reads another's. */
  lemma ExposedIffRan(w: World, look: Outlook, branch: Op, r: Run, t: string)
    requires NoParallel(branch) && Unique(branch) && t in EndIds(branch, true)
      && EvalOp(w, look, branch, BLANK, r).EDone?
    ensures var f := EvalOp(w, look, branch, BLANK, r).frame;
      Exposed(branch, f.last)[t] == Get(f.env, t) <==> t in f.env || Step(f.last, "output") == Null
  {
    EndIsLast(w, look, branch, BLANK, r, true, t);
  }

  // ---------------------------------------------------------------- an id that never ran

  const EITHER: Op := Condition(None, Const(Bool(true)), [Op.Call(Some("a"), "first", Expr.Scalar(Null), None)],
                                [Op.Call(Some("b"), "second", Expr.Scalar(Null), None)])

  const PAUSE: Op := Op.Wait(None, 1.0)

  const READER: Op := Op.Call(Some("c"), "third", Ref("b", []), None)

  /** A branch that calls a or b, next to one that waits; behind both c is given b's result. */
  const BORROWS: seq<Op> := [Op.Parallel(None, [EITHER, PAUSE]), READER]

  function Echo(payload: Json): World
  {
    World(payload, (name, args, calls) => Output(Str(name)), (op, x, y) => None, (v: Json) => "")
  }

  function After(r: Run, name: string, args: Json, at: real): Run {
      r.(trace := r.trace + [Invocation(name, args, at)]) }

  lemma CallReplies(payload: Json, env: map<string, Json>, undo: seq<Expr>, last: Json, op: Op, r: Run)
    requires op.Call? && op.id.Some? && op.undo.None? && op.target != CHAIN_STEP
    ensures var w := Echo(payload);
      EvalOp(w, Outside, op, EFrame(env, last, undo), r)
        == EDone(EFrame(env[op.id.value := Str(op.target)], Obj(map["output" := Str(op.target)]), undo),
                 After(r, op.target, EvalExpr(w, Outside, env, op.id, op.args), r.clock))
  {
    hide EvalExpr;
  }

  lemma EitherRuns(payload: Json, r: Run)
    ensures EvalOp(Echo(payload), Outside, EITHER, BLANK, r)
         == EDone(EFrame(map["a" := Str("first")], Obj(map["output" := Str("first")]), []),
           After(r, "first", Null, r.clock))
  {
    CallReplies(payload, map[], [], Null, EITHER.steps[0], r);
    assert EITHER.steps[1..] == [];
    assert map[]["a" := Str("first")] == map["a" := Str("first")];
  }

  lemma EitherEnds()
    ensures EndIds(EITHER, true) == {"a", "b"}
  {
    assert EITHER.steps[1..] == [] && EITHER.otherwise[1..] == [];
  }

  lemma PauseRuns(payload: Json, start: real, r: Run)
    ensures EvalBranches(Echo(payload), Outside, [PAUSE], start, r)
      == EAllDone(map[], [start + 1.0], r.(clock := start + 1.0))
  {
    var w, r' := Echo(payload), r.(clock := start + 1.0);
    assert EvalOp(w, Outside, PAUSE, BLANK, r.(clock := start)) == EDone(BLANK, r');
    assert [PAUSE][1..] == [];
    assert EvalBranches(w, Outside, [], start, r') == EAllDone(map[], [], r');
    assert Exposed(PAUSE, Null) == map[];
    var none: map<string, Json> := map[];
    assert none + none == none && [start + 1.0] + [] == [start + 1.0];
  }

  const BOTH: map<string, Json> := map["a" := Str("first"), "b" := Str("first")]

  lemma BranchThen(w: World, branches: seq<Op>, start: real, r: Run, f: EFrame, r': Run, outputs: map<string, Json>,
      clocks: seq<real>, r'': Run)
    requires branches != [] && EvalOp(w, Outside, branches[0], BLANK, r.(clock := start)) == EDone(f, r')
    requires EvalBranches(w, Outside, branches[1..], start, r') == EAllDone(outputs, clocks, r'')
    ensures EvalBranches(w, Outside, branches, start, r)
      == EAllDone(Exposed(branches[0], f.last) + outputs, [r'.clock] + clocks, r'')
  {
  }

  lemma OpThen(w: World, ops: seq<Op>, f: EFrame, r: Run, f': EFrame, r': Run)
    requires ops != [] && EvalOp(w, Outside, ops[0], f, r) == EDone(f', r')
    ensures EvalOps(w, Outside, ops, f, r) == EvalOps(w, Outside, ops[1..], f', r')
  {
  }

  lemma ParallelRuns(w: World, op: Op, f: EFrame, r: Run, outputs: map<string, Json>, clocks: seq<real>, r': Run)
    requires op.Parallel? && EvalBranches(w, Outside, op.branches, r.clock, r) == EAllDone(outputs, clocks, r')
      && clocks != []
    ensures EvalOp(w, Outside, op, f, r) == EDone(EFrame(f.env + outputs, Null, f.undo), r'.(clock := Latest(clocks)))
  {
  }

  lemma EitherExposes()
    ensures Exposed(EITHER, Obj(map["output" := Str("first")])) == BOTH
  {
    EitherEnds();
    hide EndIds;
  }

  lemma BranchesRun(payload: Json, r: Run)
    ensures EvalBranches(Echo(payload), Outside, [EITHER, PAUSE], r.clock, r)
         == EAllDone(BOTH, [r.clock, r.clock + 1.0], After(r, "first", Null, r.clock).(clock := r.clock + 1.0))
  {
    hide EvalOp, EvalBranches, EndIds, PAUSE, EITHER, Exposed, BOTH, Echo;
    var branches := [EITHER, PAUSE];
    assert r.(clock := r.clock) == r;
    EitherRuns(payload, r);
    EitherExposes();
    PauseRuns(payload, r.clock, After(r, "first", Null, r.clock));
    assert branches[0] == EITHER && branches[1..] == [PAUSE];
    BranchThen(Echo(payload), branches, r.clock, r,
      EFrame(map["a" := Str("first")], Obj(map["output" := Str("first")]), []),
               After(r, "first", Null, r.clock), map[], [r.clock + 1.0],
                 After(r, "first", Null, r.clock).(clock := r.clock + 1.0));
    assert BOTH + map[] == BOTH && [r.clock] + [r.clock + 1.0] == [r.clock, r.clock + 1.0];
  }

  lemma ReaderReads(payload: Json, r: Run)
    ensures EvalOps(Echo(payload), Outside, [READER], EFrame(BOTH, Null, []), r).EDone?
    ensures EvalOps(Echo(payload), Outside, [READER], EFrame(BOTH, Null, []), r).run
      == After(r, "third", Str("first"), r.clock)
  {
    CallReplies(payload, BOTH, [], Null, READER, r);
    assert EvalExpr(Echo(payload), Outside, BOTH, Some("c"), READER.args) == Str("first") by {
      assert Lookup(Str("first"), []) == Str("first"); }
    assert [READER][1..] == [];
  }

  /** b is never called, yet c is given a result under its name: a's. */
  lemma ReadsAnother(payload: Json, r: Run)
    ensures EvalOps(Echo(payload), Outside, BORROWS, BLANK, r).EDone?
    ensures EvalOps(Echo(payload), Outside, BORROWS, BLANK, r).run.trace
         == r.trace + [Invocation("first", Null, r.clock), Invocation("third", Str("first"), r.clock + 1.0)]
  {
    hide EvalOp, EvalOps, EvalBranches, EITHER, PAUSE, READER, Echo, BOTH;
    var w, called := Echo(payload), After(r, "first", Null, r.clock).(clock := r.clock + 1.0);
    BranchesRun(payload, r);
    ParallelRuns(w, BORROWS[0], BLANK, r, BOTH, [r.clock, r.clock + 1.0], called);
    assert Latest([r.clock, r.clock + 1.0]) == r.clock + 1.0 by {
      assert [r.clock, r.clock + 1.0][1..] == [r.clock + 1.0]; }
    assert map[] + BOTH == BOTH;
    OpThen(w, BORROWS, BLANK, r, EFrame(BOTH, Null, []), called);
    assert BORROWS[1..] == [READER];
    ReaderReads(payload, called);
    assert r.trace + [Invocation("first", Null, r.clock)] + [Invocation("third", Str("first"), r.clock + 1.0)]
        == r.trace + [Invocation("first", Null, r.clock), Invocation("third", Str("first"), r.clock + 1.0)];
  }
}
