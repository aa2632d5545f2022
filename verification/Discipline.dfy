/** The plans the correctness theorems speak about. */
module Discipline {
  import opened Json
  import opened Plan
  import opened Graph
  import opened Meaning

  /** A raw placeholder may address the payload and runtime, not the graph's own nodes. */
  predicate RawOk(path: Path) { path != [] && path[0] != "nodes" }

  predicate PiecesOk(pieces: seq<Piece>)
  {
    forall i | 0 <= i < |pieces| :: pieces[i].Hole? ==> RawOk(pieces[i].path)
  }

  /** References name a data root or one of the given ids. */
  predicate ExprOk(e: Expr, vis: set<string>)
  {
    match e
    case Words(pieces) => PiecesOk(pieces)
    case List(items) => forall i | 0 <= i < |items| :: ExprOk(items[i], vis)
    case Dict(entries) => forall k | k in entries :: ExprOk(entries[k], vis)
    case Ref(ref, _) => ref in ROOTS || ref in vis
    case Template(parts) => forall i | 0 <= i < |parts| :: ExprOk(parts[i], vis)
    case _ => true
  }

  predicate CondOk(c: Cond, vis: set<string>)
  {
    match c
    case Var(Raw(path)) => RawOk(path)
    case Var(To(ref, _)) => ref in ROOTS || ref in vis
    case Group(items) => forall i | 0 <= i < |items| :: CondOk(items[i], vis)
    case Operator(_, args) => forall i | 0 <= i < |args| :: CondOk(args[i], vis)
    case _ => true
  }

  predicate OpOk(op: Op, vis: set<string>)
  {
    match op
    case Call(_, _, args, undo) => ExprOk(args, vis) && (undo.Some? ==> ExprOk(undo.value, vis))
    case Wait(_, _) => true
    case Sequence(steps) => OpsOk(steps, vis)
    case Condition(_, when, steps, otherwise) => CondOk(when, vis) && OpsOk(steps, vis) && OpsOk(otherwise, vis)
    case Parallel(_, branches) => OpsOk(branches, vis)
  }

  predicate OpsOk(ops: seq<Op>, vis: set<string>)
  {
    ops == [] || (OpOk(ops[0], vis) && OpsOk(ops[1..], vis))
  }

  /** The payload path a continuation leaves its state under. */
  predicate Continued(ref: string, path: Path)
  {
    ref == "payload" && |path| > 2 && path[..2] == ["continuation", "state"]
  }

  /** Retained state is read through the repeat, not through the continuation payload. */
  predicate PlainExpr(e: Expr)
  {
    match e
    case List(items) => forall i | 0 <= i < |items| :: PlainExpr(items[i])
    case Dict(entries) => forall k | k in entries :: PlainExpr(entries[k])
    case Ref(ref, path) => !Continued(ref, path)
    case Template(parts) => forall i | 0 <= i < |parts| :: PlainExpr(parts[i])
    case _ => true
  }

  predicate PlainCond(c: Cond)
  {
    match c
    case Var(To(ref, path)) => !Continued(ref, path)
    case Group(items) => forall i | 0 <= i < |items| :: PlainCond(items[i])
    case Operator(_, args) => forall i | 0 <= i < |args| :: PlainCond(args[i])
    case _ => true
  }

  /** Operations a repeat's body and after-steps are made of: calls, waits, sequences and
      conditions, without compensations. */
  predicate Plain(op: Op)
  {
    match op
    case Call(_, _, args, undo) => PlainExpr(args) && undo.None?
    case Wait(_, _) => true
    case Sequence(steps) => AllPlain(steps)
    case Condition(_, when, steps, otherwise) => PlainCond(when) && AllPlain(steps) && AllPlain(otherwise)
    case Parallel(_, _) => false
  }

  predicate AllPlain(ops: seq<Op>)
  {
    ops == [] || (Plain(ops[0]) && AllPlain(ops[1..]))
  }

  predicate NoParallel(op: Op)
  {
    match op
    case Call(_, _, _, _) => true
    case Wait(_, _) => true
    case Sequence(steps) => NoParallels(steps)
    case Condition(_, _, steps, otherwise) => NoParallels(steps) && NoParallels(otherwise)
    case Parallel(_, _) => false
  }

  predicate NoParallels(ops: seq<Op>)
  {
    ops == [] || (NoParallel(ops[0]) && NoParallels(ops[1..]))
  }
}
