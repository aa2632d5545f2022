/** The after-steps behind an exit, as copied and renamed by the compiler, mean what the
    evaluator says the after-steps mean once that pass was the last. */
module Exiting {
  import opened Json
  import opened Plan
  import opened Graph
  import opened Meaning
  import opened Compiler
  import opened Discipline
  import opened Moving
  import opened Shifting

  /** The after-steps as source, copied behind the exit after pass k. */
  function ExitOp(l: Layout, k: int, op: Op): Result<Op>
    requires k >= -1
    decreases op, 0
  {
    match op
    case Call(id, target, args, undo) =>
      var args' :- ExitExpr(l, k, args);
      var undo' :- ExitUndo(l, k, undo);
      Ok(Op.Call(ExitLabel(l, k, id), target, args', undo'))
    case Wait(id, seconds) => Ok(Wait(ExitLabel(l, k, id), seconds))
    case Sequence(steps) =>
      var steps' :- ExitOps(l, k, steps);
      Ok(Sequence(steps'))
    case Condition(id, when, steps, otherwise) =>
      var when' :- ExitCond(l, k, when);
      var steps' :- ExitOps(l, k, steps);
      var otherwise' :- ExitOps(l, k, otherwise);
      Ok(Condition(ExitLabel(l, k, id), when', steps', otherwise'))
    case Parallel(_, _) => Raise("after-steps without a parallel")
  }

  function ExitOps(l: Layout, k: int, ops: seq<Op>): (r: Result<seq<Op>>)
    requires k >= -1
    ensures r.Ok? ==> |r.value| == |ops|
    decreases ops, 1
  {
    if ops == [] then Ok([])
    else
      var first :- ExitOp(l, k, ops[0]);
      var rest :- ExitOps(l, k, ops[1..]);
      Ok([first] + rest)
  }

  function ExitLabel(l: Layout, k: int, id: Option<string>): Option<string>
    requires k >= -1
  {
    match id
    case Some(x) => Some(ExitId(l, k, x))
    case None => None
  }

  // ---------------------------------------------------------------- outputs

  /** Plain outputs after pass k (none when k is -1), next to the evaluator's. */
  ghost predicate ExitEnv(l: Layout, k: int, known: set<string>, c: Carry, env: map<string, Json>,
      env': map<string, Json>)
    requires k >= -1
  {
    var b := l.block;
    && (if k == -1 then Written(b, c) else !c.first)
    && (forall x | x in known - LoopIds(b.loop) :: Get(env', ExitId(l, k, x)) == Get(env, x))
    && (k >= 0 ==>
      forall x | x in IdsOf(b.loop.body) :: Get(env', ExitId(l, k, NameOf(x, k, b.chunk))) == Get(c.outputs, x))
    && (k >= 0 ==> Get(env', ExitId(l, k, NameOf(TickId(b.loop), k, b.chunk))) == TickOutput(c))
  }

  /** The copies' ids are their own. */
  predicate ExitApart(l: Layout, k: int, known: set<string>, own: set<string>)
    requires k >= -1
  {
    var b := l.block;
    && l.tail !! ROOTS
    && (forall t, x | t in own && x in known - LoopIds(b.loop) && x != t :: ExitId(l, k, t) != ExitId(l, k, x))
    && (k >= 0 ==>
      forall t, x | t in own && x in LoopIds(b.loop) :: ExitId(l, k, t) != ExitId(l, k, NameOf(x, k, b.chunk)))
    && (k >= 0 ==> forall x | x in LoopIds(b.loop) :: NameOf(x, k, b.chunk) !in ROOTS)
  }

  lemma ExitIdIsNoRoot(l: Layout, k: int, x: string)
    requires k >= -1 && x !in ROOTS
    ensures ExitId(l, k, x) !in ROOTS
  {
    if x in l.tail {
      assert |ExitSuffix(l, k)| >= 9;
      assert |"payload"| < 9 && |"runtime"| < 9 && |"callback"| < 9;
      assert ExitId(l, k, x) == x + ExitSuffix(l, k);
    }
  }

  lemma ExitRefReads(w: World, l: Layout, k: int, known: set<string>, own: set<string>, c: Carry,
                     env: map<string, Json>, env': map<string, Json>, ref: string, path: Path)
    requires k >= -1 && ExitEnv(l, k, known, c, env, env') && ExitApart(l, k, known, own)
      && ProperIds(l.block.loop, known)
    requires (ref in ROOTS || ref in known) && !Continued(ref, path)
    ensures Reads(w, l, Shift(l.block, k, true), None, AtExit(l.block.loop, c), env, env', ref, path)
  {
    var b := l.block;
    var s := Shift(b, k, true);
    var r := RewriteRef(s, None, ref, path);
    if ref in ROOTS {
      assert r == Ok(Points(ref, path)) && ExitId(l, k, ref) == ref;
    } else if r.Ok? {
      if k == -1 {
        if ref !in LoopIds(b.loop) {
          assert r.value == Points(ref, path);
          ExitIdIsNoRoot(l, k, ref);
        }
      } else if ref in LoopIds(b.loop) {
        assert r.value == Points(NameOf(ref, k, b.chunk), path);
        ExitIdIsNoRoot(l, k, NameOf(ref, k, b.chunk));
      } else {
        assert r.value == Points(ref, path);
        ExitIdIsNoRoot(l, k, ref);
      }
    }
  }

  lemma ExitIsFaithful(w: World, l: Layout, k: int, known: set<string>, own: set<string>, c: Carry,
                       env: map<string, Json>, env': map<string, Json>)
    requires k >= -1 && ExitEnv(l, k, known, c, env, env') && ExitApart(l, k, known, own)
      && ProperIds(l.block.loop, known)
    ensures Faithful(w, l, Shift(l.block, k, true), None, known, AtExit(l.block.loop, c), env, env')
  {
    forall ref, path | (ref in ROOTS || ref in known) && !Continued(ref, path)
      ensures Reads(w, l, Shift(l.block, k, true), None, AtExit(l.block.loop, c), env, env', ref, path)
    {
      ExitRefReads(w, l, k, known, own, c, env, env', ref, path);
    }
  }

  // ---------------------------------------------------------------- operations

  ghost predicate ExitFrames(l: Layout, k: int, known: set<string>, c: Carry, f: EFrame, f': EFrame)
    requires k >= -1
  {
    ExitEnv(l, k, known, c, f.env, f'.env) && f'.last == f.last && f.undo == [] && f'.undo == []
  }

  /** Evaluating copied source ends as evaluating its original does. */
  ghost predicate ExitAlike(l: Layout, k: int, known: set<string>, c: Carry, out: EOutcome, copied: EOutcome,
      g': EFrame)
    requires k >= -1
  {
    match out
    case EFailed(e, r1) => copied == EFailed(e, r1)
    case EDone(g, r1) => copied == EDone(g', r1) && ExitFrames(l, k, known, c, g, g')
  }

  lemma {:induction false} OwnerlessExpr(w: World, loop: Repeat, c: Carry, env: map<string, Json>,
      owner: Option<string>, e: Expr)
    ensures EvalExpr(w, AtExit(loop, c), env, owner, e) == EvalExpr(w, AtExit(loop, c), env, None, e)
    ensures Parts(w, AtExit(loop, c), env, owner, e) == Parts(w, AtExit(loop, c), env, None, e)
    decreases e, 0
  {
    match e
    case List(items) => forall i | 0 <= i < |items| { OwnerlessExpr(w, loop, c, env, owner, items[i]); }
    case Dict(entries) => forall k | k in entries { OwnerlessExpr(w, loop, c, env, owner, entries[k]); }
    case Template(parts) => OwnerlessParts(w, loop, c, env, owner, parts);
    case _ =>
  }

  lemma {:induction false} OwnerlessParts(w: World, loop: Repeat, c: Carry, env: map<string, Json>,
      owner: Option<string>, es: seq<Expr>)
    ensures PartsOf(w, AtExit(loop, c), env, owner, es) == PartsOf(w, AtExit(loop, c), env, None, es)
    decreases es, 1
  {
    if es != [] {
      OwnerlessExpr(w, loop, c, env, owner, es[0]);
      OwnerlessParts(w, loop, c, env, owner, es[1..]);
    }
  }

  lemma {:induction false} OwnerlessCond(w: World, loop: Repeat, c: Carry, env: map<string, Json>,
      owner: Option<string>, e: Cond)
    ensures Decide(w, e, EvalOperand(w, AtExit(loop, c), env, owner))
      == Decide(w, e, EvalOperand(w, AtExit(loop, c), env, None))
    decreases e, 0
  {
    match e
    case Group(items) => OwnerlessConds(w, loop, c, env, owner, items);
    case Operator(_, args) => OwnerlessConds(w, loop, c, env, owner, args);
    case _ =>
  }

  lemma {:induction false} OwnerlessConds(w: World, loop: Repeat, c: Carry, env: map<string, Json>,
      owner: Option<string>, es: seq<Cond>)
    ensures DecideAll(w, es, EvalOperand(w, AtExit(loop, c), env, owner))
      == DecideAll(w, es, EvalOperand(w, AtExit(loop, c), env, None))
    decreases es, 1
  {
    if es != [] {
      OwnerlessCond(w, loop, c, env, owner, es[0]);
      OwnerlessConds(w, loop, c, env, owner, es[1..]);
    }
  }

  lemma {:induction false} ExitOpMeans(w: World, l: Layout, k: int, known: set<string>, own: set<string>, c: Carry,
                                       op: Op, f: EFrame, f': EFrame, r: Run)
    returns (g': EFrame)
    requires k >= -1 && ExitFrames(l, k, known, c, f, f') && ExitApart(l, k, known, own)
      && ProperIds(l.block.loop, known)
    requires l.text == w.text && own <= known - LoopIds(l.block.loop)
    requires OpOk(op, known) && Plain(op) && Ids(op) <= own && ExitOp(l, k, op).Ok?
    ensures ExitAlike(l, k, known, c, EvalOp(w, AtExit(l.block.loop, c), op, f, r),
      EvalOp(w, Outside, ExitOp(l, k, op).value, f', r), g')
    decreases op, 1
  {
    g' := f';
    var look, s := AtExit(l.block.loop, c), Shift(l.block, k, true);
    match op
    case Call(_, _, _, _) => g' := ExitCallMeans(w, l, k, known, own, c, op, f, f', r);
    case Wait(_, _) =>
    case Sequence(steps) => g' := ExitOpsMean(w, l, k, known, own, c, steps, f, f', r);
    case Condition(id, when, steps, otherwise) =>
      ExitIsFaithful(w, l, k, known, own, c, f.env, f'.env);
      MovedCondMeans(w, l, s, None, known, look, f.env, f'.env, ExitLabel(l, k, id), when);
      OwnerlessCond(w, l.block.loop, c, f.env, id, when);
      var v := Decide(w, when, EvalOperand(w, look, f.env, id));
      if v.Some? {
        if Truthy(v.value) {
          g' := ExitOpsMean(w, l, k, known, own, c, steps, f, f', r);
        } else {
          g' := ExitOpsMean(w, l, k, known, own, c, otherwise, f, f', r);
        }
      }
  }

  lemma ExitCallMeans(w: World, l: Layout, k: int, known: set<string>, own: set<string>, c: Carry,
                      op: Op, f: EFrame, f': EFrame, r: Run)
    returns (g': EFrame)
    requires k >= -1 && ExitFrames(l, k, known, c, f, f') && ExitApart(l, k, known, own)
      && ProperIds(l.block.loop, known)
    requires l.text == w.text && own <= known - LoopIds(l.block.loop)
    requires op.Call? && OpOk(op, known) && Plain(op) && Ids(op) <= own && ExitOp(l, k, op).Ok?
    ensures ExitAlike(l, k, known, c, EvalOp(w, AtExit(l.block.loop, c), op, f, r),
      EvalOp(w, Outside, ExitOp(l, k, op).value, f', r), g')
  {
    g' := f';
    var look, s, id := AtExit(l.block.loop, c), Shift(l.block, k, true), op.id;
    ExitIsFaithful(w, l, k, known, own, c, f.env, f'.env);
    MovedExprMeans(w, l, s, None, known, look, f.env, f'.env, ExitLabel(l, k, id), op.args);
    OwnerlessExpr(w, l.block.loop, c, f.env, id, op.args);
    match Invoke(w, op.target, EvalExpr(w, look, f.env, id, op.args), r)
    case Crashed(_) =>
    case Body(body, r1) =>
      if !HasError(body) {
        g' := EFrame(Bind(f'.env, ExitLabel(l, k, id), Step(body, "output")), body, []);
      }
  }

  lemma {:induction false} ExitOpsMean(w: World, l: Layout, k: int, known: set<string>, own: set<string>, c: Carry,
                                       ops: seq<Op>, f: EFrame, f': EFrame, r: Run)
    returns (g': EFrame)
    requires k >= -1 && ExitFrames(l, k, known, c, f, f') && ExitApart(l, k, known, own)
      && ProperIds(l.block.loop, known)
    requires l.text == w.text && own <= known - LoopIds(l.block.loop)
    requires OpsOk(ops, known) && AllPlain(ops) && IdsOf(ops) <= own && ExitOps(l, k, ops).Ok?
    ensures ExitAlike(l, k, known, c, EvalOps(w, AtExit(l.block.loop, c), ops, f, r),
      EvalOps(w, Outside, ExitOps(l, k, ops).value, f', r), g')
    decreases ops, 2
  {
    g' := f';
    if ops != [] {
      var first, rest := ExitOp(l, k, ops[0]).value, ExitOps(l, k, ops[1..]).value;
      assert ([first] + rest)[1..] == rest;
      g' := ExitOpMeans(w, l, k, known, own, c, ops[0], f, f', r);
      match EvalOp(w, AtExit(l.block.loop, c), ops[0], f, r)
      case EFailed(_, _) =>
      case EDone(g, r1) =>
        g' := ExitOpsMean(w, l, k, known, own, c, ops[1..], g, g', r1);
    }
  }

  // ---------------------------------------------------------------- the block's own after-steps

  lemma UnchangedList(s: Shift, text: Json -> string, items: seq<Expr>)
    requires forall i | 0 <= i < |items| :: RewriteExpr(s, text, None, items[i]) == Ok(items[i])
    ensures RewriteExpr(s, text, None, List(items)) == Ok(List(items))
  {
    var moved := seq(|items|, i requires 0 <= i < |items| => RewriteExpr(s, text, None, items[i]).value);
    assert RewriteExpr(s, text, None, List(items)) == Ok(List(moved));
    assert moved == items;
  }

  lemma UnchangedDict(s: Shift, text: Json -> string, entries: map<string, Expr>)
    requires forall k | k in entries :: RewriteExpr(s, text, None, entries[k]) == Ok(entries[k])
    ensures RewriteExpr(s, text, None, Dict(entries)) == Ok(Dict(entries))
  {
    var moved := RewriteExpr(s, text, None, Dict(entries)).value.entries;
    assert moved.Keys == entries.Keys;
    assert moved == entries;
  }

  /** Behind the block's last pass nothing is renamed, and source that reads no continuation
      payload is unchanged. */
  lemma {:induction false} LastExitExpr(b: Block, text: Json -> string, e: Expr)
    requires b.chunk > 0 && PlainExpr(e)
    ensures RewriteExpr(Shift(b, b.chunk - 1, true), text, None, e) == Ok(e)
    decreases e, 0
  {
    match e
    case List(items) =>
      forall i | 0 <= i < |items| { LastExitExpr(b, text, items[i]); }
      UnchangedList(Shift(b, b.chunk - 1, true), text, items);
    case Dict(entries) =>
      forall k | k in entries { LastExitExpr(b, text, entries[k]); }
      UnchangedDict(Shift(b, b.chunk - 1, true), text, entries);
    case Template(parts) => LastExitParts(b, text, parts);
    case _ =>
  }

  lemma {:induction false} LastExitParts(b: Block, text: Json -> string, es: seq<Expr>)
    requires b.chunk > 0 && forall i | 0 <= i < |es| :: PlainExpr(es[i])
    ensures RewriteParts(Shift(b, b.chunk - 1, true), text, None, es) == Ok(es)
    decreases es, 1
  {
    if es != [] {
      LastExitExpr(b, text, es[0]);
      LastExitParts(b, text, es[1..]);
      assert es == [es[0]] + es[1..];
    }
  }

  lemma {:induction false} LastExitCond(b: Block, c: Cond)
    requires b.chunk > 0 && PlainCond(c)
    ensures RewriteCond(Shift(b, b.chunk - 1, true), None, c) == Ok(c)
    decreases c, 0
  {
    match c
    case Group(items) => LastExitConds(b, items);
    case Operator(_, args) => LastExitConds(b, args);
    case _ =>
  }

  lemma {:induction false} LastExitConds(b: Block, cs: seq<Cond>)
    requires b.chunk > 0 && forall i | 0 <= i < |cs| :: PlainCond(cs[i])
    ensures RewriteConds(Shift(b, b.chunk - 1, true), None, cs) == Ok(cs)
    decreases cs, 1
  {
    if cs != [] {
      LastExitCond(b, cs[0]);
      LastExitConds(b, cs[1..]);
      assert cs == [cs[0]] + cs[1..];
    }
  }

  lemma {:induction false} LastExitOps(b: Block, text: Json -> string, ops: seq<Op>)
    requires b.chunk > 0 && AllPlain(ops)
    ensures ExitOps(Stay(b, text), b.chunk - 1, ops) == Ok(ops)
    decreases ops, 1
  {
    if ops != [] {
      LastExitOp(b, text, ops[0]);
      LastExitOps(b, text, ops[1..]);
      assert ops == [ops[0]] + ops[1..];
    }
  }

  lemma {:induction false} LastExitOp(b: Block, text: Json -> string, op: Op)
    requires b.chunk > 0 && Plain(op)
    ensures ExitOp(Stay(b, text), b.chunk - 1, op) == Ok(op)
    decreases op, 0
  {
    var l := Stay(b, text);
    match op
    case Call(id, _, args, _) =>
      LastExitExpr(b, text, args);
      RenameNothing(l, b.chunk - 1, args);
    case Wait(_, _) =>
    case Sequence(steps) => LastExitOps(b, text, steps);
    case Condition(_, when, steps, otherwise) =>
      LastExitCond(b, when);
      RenameNoCond(l, b.chunk - 1, when);
      LastExitOps(b, text, steps);
      LastExitOps(b, text, otherwise);
  }
}
