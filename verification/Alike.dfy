/** Two outlooks under which every reference reads the same value give operations the same
    meaning. A resumed block of a repeat and the unbroken repeat are such outlooks. */
module Alike {
  import opened Json
  import opened Plan
  import opened Graph
  import opened Meaning

  // ---------------------------------------------------------------- references

  ghost predicate SameValue(w: World, a: Outlook, b: Outlook, owner: Option<string>, ref: string, path: Path)
  {
    forall env :: Read(w, a, env, owner, ref, path).v == Read(w, b, env, owner, ref, path).v
  }

  /** Operands agree, and raise together. */
  ghost predicate SameOperand(w: World, a: Outlook, b: Outlook, owner: Option<string>, o: Operand)
  {
    forall env :: EvalOperand(w, a, env, owner)(o) == EvalOperand(w, b, env, owner)(o)
  }

  ghost predicate SameText(w: World, a: Outlook, b: Outlook, owner: Option<string>, parts: seq<Expr>)
  {
    forall env :: Finish(w.text, PartsOf(w, a, env, owner, parts)) == Finish(w.text, PartsOf(w, b, env, owner, parts))
  }

  // ---------------------------------------------------------------- source

  ghost predicate ExprAlike(w: World, a: Outlook, b: Outlook, owner: Option<string>, e: Expr)
  {
    match e
    case Ref(ref, path) => SameValue(w, a, b, owner, ref, path)
    case List(items) => forall i | 0 <= i < |items| :: ExprAlike(w, a, b, owner, items[i])
    case Dict(entries) => forall k | k in entries :: ExprAlike(w, a, b, owner, entries[k])
    case Template(parts) => SameText(w, a, b, owner, parts)
    case _ => true
  }

  ghost predicate CondAlike(w: World, a: Outlook, b: Outlook, owner: Option<string>, c: Cond)
  {
    match c
    case Var(o) => SameOperand(w, a, b, owner, o)
    case Group(items) => forall i | 0 <= i < |items| :: CondAlike(w, a, b, owner, items[i])
    case Operator(_, args) => forall i | 0 <= i < |args| :: CondAlike(w, a, b, owner, args[i])
    case _ => true
  }

  ghost predicate OpAlike(w: World, a: Outlook, b: Outlook, op: Op)
  {
    match op
    case Call(id, _, args, undo) => ExprAlike(w, a, b, id, args) && undo.None?
    case Wait(_, _) => true
    case Sequence(steps) => AllAlike(w, a, b, steps)
    case Condition(id, when, steps, otherwise) =>
      CondAlike(w, a, b, id, when) && AllAlike(w, a, b, steps) && AllAlike(w, a, b, otherwise)
    case Parallel(_, _) => false
  }

  ghost predicate AllAlike(w: World, a: Outlook, b: Outlook, ops: seq<Op>)
  {
    ops == [] || (OpAlike(w, a, b, ops[0]) && AllAlike(w, a, b, ops[1..]))
  }

  // ---------------------------------------------------------------- values

  lemma {:induction false} SameExpr(w: World, a: Outlook, b: Outlook, env: map<string, Json>, owner: Option<string>,
      e: Expr)
    requires ExprAlike(w, a, b, owner, e)
    ensures EvalExpr(w, a, env, owner, e) == EvalExpr(w, b, env, owner, e)
    decreases e, 0
  {
    match e
    case List(items) =>
      forall i | 0 <= i < |items| ensures EvalExpr(w, a, env, owner, items[i]) == EvalExpr(w, b, env, owner, items[i]) {
        SameExpr(w, a, b, env, owner, items[i]);
      }
    case Dict(entries) =>
      forall k | k in entries ensures EvalExpr(w, a, env, owner, entries[k]) == EvalExpr(w, b, env, owner, entries[k]) {
        SameExpr(w, a, b, env, owner, entries[k]);
      }
      SameEntries(w, a, b, env, owner, entries);
    case _ =>
  }

  lemma SameEntries(w: World, a: Outlook, b: Outlook, env: map<string, Json>, owner: Option<string>,
      entries: map<string, Expr>)
    requires forall k | k in entries :: EvalExpr(w, a, env, owner, entries[k]) == EvalExpr(w, b, env, owner, entries[k])
    ensures EvalExpr(w, a, env, owner, Dict(entries)) == EvalExpr(w, b, env, owner, Dict(entries))
  {
    var x := EvalDict(w, a, env, owner, entries);
    var y := EvalDict(w, b, env, owner, entries);
    hide EvalExpr;
    assert x == y;
  }

  lemma {:induction false} SameCond(w: World, a: Outlook, b: Outlook, env: map<string, Json>, owner: Option<string>,
      c: Cond)
    requires CondAlike(w, a, b, owner, c)
    ensures Decide(w, c, EvalOperand(w, a, env, owner)) == Decide(w, c, EvalOperand(w, b, env, owner))
    decreases c, 0
  {
    match c
    case Group(items) => SameConds(w, a, b, env, owner, items);
    case Operator(_, args) => SameConds(w, a, b, env, owner, args);
    case Var(o) => OperandsAgree(w, a, b, env, owner, o);
    case _ =>
  }

  lemma OperandsAgree(w: World, a: Outlook, b: Outlook, env: map<string, Json>, owner: Option<string>, o: Operand)
    requires SameOperand(w, a, b, owner, o)
    ensures EvalOperand(w, a, env, owner)(o) == EvalOperand(w, b, env, owner)(o)
  {
  }

  lemma {:induction false} SameConds(w: World, a: Outlook, b: Outlook, env: map<string, Json>, owner: Option<string>,
      cs: seq<Cond>)
    requires forall i | 0 <= i < |cs| :: CondAlike(w, a, b, owner, cs[i])
    ensures DecideAll(w, cs, EvalOperand(w, a, env, owner)) == DecideAll(w, cs, EvalOperand(w, b, env, owner))
    decreases cs, 1
  {
    if cs != [] {
      SameCond(w, a, b, env, owner, cs[0]);
      SameConds(w, a, b, env, owner, cs[1..]);
    }
  }

  // ---------------------------------------------------------------- operations

  /** Runs that differ at most in what was handed on. */
  predicate SameRun(r: Run, q: Run) { r == q.(continuations := r.continuations) }

  predicate SameOutcome(x: EOutcome, y: EOutcome)
  {
    || (x.EDone? && y.EDone? && x.frame == y.frame && SameRun(x.run, y.run))
    || (x.EFailed? && y.EFailed? && x.error == y.error && SameRun(x.run, y.run))
  }

  lemma SameInvoke(w: World, name: string, args: Json, r: Run, q: Run)
    requires SameRun(r, q)
    ensures var x, y := Invoke(w, name, args, r), Invoke(w, name, args, q);
      SameRun(x.run, y.run) && (x.Body? <==> y.Body?) && (x.Body? ==> x.body == y.body)
  {
  }

  lemma {:induction false} SameOp(w: World, a: Outlook, b: Outlook, op: Op, f: EFrame, r: Run, q: Run)
    requires OpAlike(w, a, b, op) && SameRun(r, q) && f.undo == []
    ensures SameOutcome(EvalOp(w, a, op, f, r), EvalOp(w, b, op, f, q))
    ensures EvalOp(w, a, op, f, r).EDone? ==> EvalOp(w, a, op, f, r).frame.undo == []
    decreases op, 0
  {
    match op
    case Call(id, target, args, undo) =>
      SameExpr(w, a, b, f.env, id, args);
      SameInvoke(w, target, EvalExpr(w, a, f.env, id, args), r, q);
    case Wait(_, _) =>
    case Sequence(steps) => SameOps(w, a, b, steps, f, r, q);
    case Condition(id, when, steps, otherwise) =>
      SameCond(w, a, b, f.env, id, when);
      SameOps(w, a, b, steps, f, r, q);
      SameOps(w, a, b, otherwise, f, r, q);
  }

  lemma {:induction false} SameOps(w: World, a: Outlook, b: Outlook, ops: seq<Op>, f: EFrame, r: Run, q: Run)
    requires AllAlike(w, a, b, ops) && SameRun(r, q) && f.undo == []
    ensures SameOutcome(EvalOps(w, a, ops, f, r), EvalOps(w, b, ops, f, q))
    ensures EvalOps(w, a, ops, f, r).EDone? ==> EvalOps(w, a, ops, f, r).frame.undo == []
    decreases ops, 1
  {
    if ops != [] {
      SameOp(w, a, b, ops[0], f, r, q);
      match EvalOp(w, a, ops[0], f, r)
      case EFailed(_, _) =>
      case EDone(f', r') =>
        SameOps(w, a, b, ops[1..], f', r', EvalOp(w, b, ops[0], f, q).run);
    }
  }
}
