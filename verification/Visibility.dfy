/** Moved source still refers only to ids that references may name. */
module Visibility {
  import opened Json
  import opened Plan
  import opened Graph
  import opened Meaning
  import opened Compiler
  import opened Discipline
  import opened Moving
  import opened Shifting
  import opened Exiting

  predicate LandsAt(l: Layout, s: Shift, owner: Option<string>, vis: set<string>, ref: string, path: Path)
    requires s.index >= -1
  {
    var r := RewriteRef(s, owner, ref, path);
    r.Ok? && r.value.Points? ==> ExitId(l, s.index, r.value.ref) in ROOTS + vis
  }

  ghost predicate Lands(l: Layout, s: Shift, owner: Option<string>, known: set<string>, vis: set<string>)
    requires s.index >= -1
  {
    forall ref, path | ref in ROOTS || ref in known :: LandsAt(l, s, owner, vis, ref, path)
  }

  lemma {:induction false} MovedExprOk(l: Layout, s: Shift, text: Json -> string, owner: Option<string>,
      known: set<string>, vis: set<string>, e: Expr)
    requires s.index >= -1 && Lands(l, s, owner, known, vis) && ExprOk(e, known) && RewriteExpr(s, text, owner, e).Ok?
    ensures ExprOk(RenameExpr(l, s.index, RewriteExpr(s, text, owner, e).value), vis)
    decreases e, 0
  {
    match e
    case Ref(ref, path) =>
      assert LandsAt(l, s, owner, vis, ref, path);
    case List(items) =>
      forall i | 0 <= i < |items| { MovedExprOk(l, s, text, owner, known, vis, items[i]); }
    case Dict(entries) =>
      var target := MovedEntries(l, s, text, owner, entries);
      forall k | k in entries ensures ExprOk(target[k], vis) { MovedExprOk(l, s, text, owner, known, vis, entries[k]); }
    case Template(parts) => MovedPartsOk(l, s, text, owner, known, vis, parts);
    case _ =>
  }

  lemma TemplateOk(e: Expr, es: seq<Expr>, vis: set<string>)
    requires ExprOk(e, vis) && ExprOk(Template(es), vis)
    ensures ExprOk(Template([e] + es), vis)
  {
  }

  lemma GroupOk(c: Cond, cs: seq<Cond>, vis: set<string>)
    requires CondOk(c, vis) && CondOk(Group(cs), vis)
    ensures CondOk(Group([c] + cs), vis)
  {
  }

  lemma OperatorOk(op: string, cs: seq<Cond>, vis: set<string>)
    requires CondOk(Group(cs), vis)
    ensures CondOk(Operator(op, cs), vis)
  {
  }

  lemma {:induction false} MovedPartsOk(l: Layout, s: Shift, text: Json -> string, owner: Option<string>,
      known: set<string>, vis: set<string>, parts: seq<Expr>)
    requires s.index >= -1 && Lands(l, s, owner, known, vis) && (forall i | 0 <= i < |parts| :: ExprOk(parts[i], known))
    requires RewriteParts(s, text, owner, parts).Ok?
    ensures ExprOk(Template(RenameExprs(l, s.index, RewriteParts(s, text, owner, parts).value)), vis)
    decreases parts, 1
  {
    if parts != [] {
      MovedExprOk(l, s, text, owner, known, vis, parts[0]);
      MovedPartsOk(l, s, text, owner, known, vis, parts[1..]);
      var first := RewriteExpr(s, text, owner, parts[0]).value;
      var moved := if parts[0].Ref? then Spell(text, first) else first;
      var rest := RewriteParts(s, text, owner, parts[1..]).value;
      assert ([moved] + rest)[1..] == rest;
      TemplateOk(RenameExpr(l, s.index, moved), RenameExprs(l, s.index, rest), vis);
    }
  }

  lemma {:induction false} MovedCondOk(l: Layout, s: Shift, owner: Option<string>, known: set<string>, vis: set<string>,
      c: Cond)
    requires s.index >= -1 && Lands(l, s, owner, known, vis) && CondOk(c, known) && RewriteCond(s, owner, c).Ok?
    ensures CondOk(RenameCond(l, s.index, RewriteCond(s, owner, c).value), vis)
    decreases c, 0
  {
    match c
    case Var(To(ref, path)) =>
      assert LandsAt(l, s, owner, vis, ref, path);
    case Group(items) => MovedCondsOk(l, s, owner, known, vis, items);
    case Operator(op, args) =>
      MovedCondsOk(l, s, owner, known, vis, args);
      OperatorOk(op, RenameConds(l, s.index, RewriteConds(s, owner, args).value), vis);
    case _ =>
  }

  lemma {:induction false} MovedCondsOk(l: Layout, s: Shift, owner: Option<string>, known: set<string>,
      vis: set<string>, cs: seq<Cond>)
    requires s.index >= -1 && Lands(l, s, owner, known, vis) && (forall i | 0 <= i < |cs| :: CondOk(cs[i], known))
    requires RewriteConds(s, owner, cs).Ok?
    ensures CondOk(Group(RenameConds(l, s.index, RewriteConds(s, owner, cs).value)), vis)
    decreases cs, 1
  {
    if cs != [] {
      MovedCondOk(l, s, owner, known, vis, cs[0]);
      MovedCondsOk(l, s, owner, known, vis, cs[1..]);
      var first, rest := RewriteCond(s, owner, cs[0]).value, RewriteConds(s, owner, cs[1..]).value;
      assert ([first] + rest)[1..] == rest;
      GroupOk(RenameCond(l, s.index, first), RenameConds(l, s.index, rest), vis);
    }
  }

  // ---------------------------------------------------------------- a pass

  /** Every name a pass can refer to is visible. */
  predicate PassVisible(b: Block, i: nat, known: set<string>, vis: set<string>)
  {
    && known - LoopIds(b.loop) <= vis
    && (forall x | x in LoopIds(b.loop) :: NameOf(x, i, b.chunk) in vis)
    && (i > 0 ==> forall x | x in LoopIds(b.loop) :: NameOf(x, i - 1, b.chunk) in vis)
  }

  lemma PassLands(b: Block, text: Json -> string, i: nat, known: set<string>, vis: set<string>, owner: Option<string>)
    requires PassVisible(b, i, known, vis) && ProperIds(b.loop, known)
    requires owner.Some? ==> owner.value in IdsOf(b.loop.body)
    ensures Lands(Stay(b, text), Shift(b, i, false), owner, known, vis)
  {
    var s, l := Shift(b, i, false), Stay(b, text);
    forall ref, path | ref in ROOTS || ref in known ensures LandsAt(l, s, owner, vis, ref, path) {
      var r := RewriteRef(s, owner, ref, path);
      if r.Ok? && r.value.Points? {
        assert r.value.ref == ref || r.value.ref == NameOf(ref, i, b.chunk)
          || (i > 0 && r.value.ref == NameOf(ref, i - 1, b.chunk));
      }
    }
  }

  lemma {:induction false} PassOpsOk(b: Block, text: Json -> string, i: nat, known: set<string>, vis: set<string>,
      ops: seq<Op>)
    requires PassVisible(b, i, known, vis) && ProperIds(b.loop, known)
    requires OpsOk(ops, known) && AllPlain(ops) && IdsOf(ops) <= IdsOf(b.loop.body)
      && RewriteOps(Shift(b, i, false), text, ops).Ok?
    ensures OpsOk(RewriteOps(Shift(b, i, false), text, ops).value, vis)
    decreases ops, 1
  {
    if ops != [] {
      PassOpOk(b, text, i, known, vis, ops[0]);
      PassOpsOk(b, text, i, known, vis, ops[1..]);
      var s := Shift(b, i, false);
      var first, rest := RewriteOp(s, text, ops[0]).value, RewriteOps(s, text, ops[1..]).value;
      assert ([first] + rest)[1..] == rest;
    }
  }

  lemma {:induction false} PassOpOk(b: Block, text: Json -> string, i: nat, known: set<string>, vis: set<string>,
      op: Op)
    requires PassVisible(b, i, known, vis) && ProperIds(b.loop, known)
    requires OpOk(op, known) && Plain(op) && Ids(op) <= IdsOf(b.loop.body)
      && RewriteOp(Shift(b, i, false), text, op).Ok?
    ensures OpOk(RewriteOp(Shift(b, i, false), text, op).value, vis)
    decreases op, 0
  {
    var s, l := Shift(b, i, false), Stay(b, text);
    match op
    case Call(id, _, args, _) =>
      PassLands(b, text, i, known, vis, id);
      MovedExprOk(l, s, text, id, known, vis, args);
      RenameNothing(l, i, RewriteExpr(s, text, id, args).value);
    case Wait(_, _) =>
    case Sequence(steps) => PassOpsOk(b, text, i, known, vis, steps);
    case Condition(id, when, steps, otherwise) =>
      PassLands(b, text, i, known, vis, id);
      MovedCondOk(l, s, id, known, vis, when);
      RenameNoCond(l, i, RewriteCond(s, id, when).value);
      PassOpsOk(b, text, i, known, vis, steps);
      PassOpsOk(b, text, i, known, vis, otherwise);
  }

  // ---------------------------------------------------------------- an exit

  predicate ExitVisible(l: Layout, k: int, known: set<string>, vis: set<string>)
    requires k >= -1
  {
    var b := l.block;
    && l.tail !! ROOTS
    && (forall x | x in known - LoopIds(b.loop) :: ExitId(l, k, x) in vis)
    && (k >= 0 ==> forall x | x in LoopIds(b.loop) :: ExitId(l, k, NameOf(x, k, b.chunk)) in vis)
  }

  lemma ExitLands(l: Layout, k: int, known: set<string>, vis: set<string>)
    requires k >= -1 && ExitVisible(l, k, known, vis) && ProperIds(l.block.loop, known)
    ensures Lands(l, Shift(l.block, k, true), None, known, vis)
  {
    var s, b := Shift(l.block, k, true), l.block;
    forall ref, path | ref in ROOTS || ref in known ensures LandsAt(l, s, None, vis, ref, path) {
      var r := RewriteRef(s, None, ref, path);
      if r.Ok? && r.value.Points? {
        assert r.value.ref == ref || (k >= 0 && ref in LoopIds(b.loop) && r.value.ref == NameOf(ref, k, b.chunk));
        if ref in LoopIds(b.loop) { assert k >= 0 && r.value.ref == NameOf(ref, k, b.chunk); }
      }
    }
  }

  lemma {:induction false} ExitOpsOk(l: Layout, k: int, known: set<string>, vis: set<string>, ops: seq<Op>)
    requires k >= -1 && ExitVisible(l, k, known, vis) && ProperIds(l.block.loop, known)
    requires OpsOk(ops, known) && AllPlain(ops) && ExitOps(l, k, ops).Ok?
    ensures OpsOk(ExitOps(l, k, ops).value, vis)
    ensures SizeOf(ExitOps(l, k, ops).value) == SizeOf(ops)
    decreases ops, 1
  {
    if ops != [] {
      ExitOpOk(l, k, known, vis, ops[0]);
      ExitOpsOk(l, k, known, vis, ops[1..]);
      var first, rest := ExitOp(l, k, ops[0]).value, ExitOps(l, k, ops[1..]).value;
      assert ([first] + rest)[1..] == rest;
    }
  }

  lemma {:induction false} ExitOpOk(l: Layout, k: int, known: set<string>, vis: set<string>, op: Op)
    requires k >= -1 && ExitVisible(l, k, known, vis) && ProperIds(l.block.loop, known)
    requires OpOk(op, known) && Plain(op) && ExitOp(l, k, op).Ok?
    ensures OpOk(ExitOp(l, k, op).value, vis)
    ensures Size(ExitOp(l, k, op).value) == Size(op)
    decreases op, 0
  {
    var s := Shift(l.block, k, true);
    ExitLands(l, k, known, vis);
    match op
    case Call(id, _, args, _) => MovedExprOk(l, s, l.text, None, known, vis, args);
    case Wait(_, _) =>
    case Sequence(steps) => ExitOpsOk(l, k, known, vis, steps);
    case Condition(id, when, steps, otherwise) =>
      MovedCondOk(l, s, None, known, vis, when);
      ExitOpsOk(l, k, known, vis, steps);
      ExitOpsOk(l, k, known, vis, otherwise);
  }
}
