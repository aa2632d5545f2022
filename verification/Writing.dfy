/** Seeds as they stand in compiled source, against the values they are. Where a first pass may be
    compiled and still read what it starts from: templates spell it as it would be spelled live, and
    conditions test nothing that has to be wrapped. */
module Writing {
  import opened Json
  import opened Plan
  import opened Graph
  import opened Meaning
  import opened Spelling

  function AsWritten(c: Carry): Carry { c.(written := true) }

  /** The same place, with the carry's seeds written out. */
  function WrittenAt(look: Outlook): Outlook
  {
    match look
    case Outside => look
    case InPass(loop, c) => InPass(loop, AsWritten(c))
    case AtExit(loop, c) => AtExit(loop, AsWritten(c))
  }

  /** The seeds are read as they are. */
  predicate Open(look: Outlook) { !look.Outside? ==> !look.carry.written }

  // ---------------------------------------------------------------- what can be tested

  /** The condition reads no seed that needs the wrapper: no list, no object, no text with braces. */
  predicate Testable(w: World, look: Outlook, owner: Option<string>, c: Cond)
  {
    match c
    case Var(To(ref, path)) => var r := Read(w, look, map[], owner, ref, path); r.Seeded? ==> !NeedsWrapper(r.v)
    case Group(items) => AllTestable(w, look, owner, items)
    case Operator(_, args) => AllTestable(w, look, owner, args)
    case _ => true
  }

  predicate AllTestable(w: World, look: Outlook, owner: Option<string>, cs: seq<Cond>)
  {
    cs == [] || (Testable(w, look, owner, cs[0]) && AllTestable(w, look, owner, cs[1..]))
  }

  // ---------------------------------------------------------------- what can be spelled

  /** Which fragments of a template part are seeds. */
  function SeedMarks(w: World, look: Outlook, owner: Option<string>, e: Expr): seq<bool>
    decreases e, 1
  {
    match e
    case Words(pieces) => seq(|pieces|, i => false)
    case Ref(ref, path) => [Read(w, look, map[], owner, ref, path).Seeded?]
    case Template(parts) => SeedMarksOf(w, look, owner, parts)
    case _ => []
  }

  function SeedMarksOf(w: World, look: Outlook, owner: Option<string>, parts: seq<Expr>): seq<bool>
    decreases parts, 0
  {
    if parts == [] then [] else SeedMarks(w, look, owner, parts[0]) + SeedMarksOf(w, look, owner, parts[1..])
  }

  /** No seed of the parts needs the wrapper; with one the template does not compile. */
  predicate Unwrapped(w: World, look: Outlook, owner: Option<string>, e: Expr)
    decreases e, 1
  {
    match e
    case Ref(ref, path) => var r := Read(w, look, map[], owner, ref, path); r.Seeded? ==> !NeedsWrapper(r.v)
    case Template(parts) => AllUnwrapped(w, look, owner, parts)
    case _ => true
  }

  predicate AllUnwrapped(w: World, look: Outlook, owner: Option<string>, parts: seq<Expr>)
    decreases parts, 0
  {
    parts == [] || (Unwrapped(w, look, owner, parts[0]) && AllUnwrapped(w, look, owner, parts[1..]))
  }

  /** The template gives the same, its seeds spelled out or not. */
  predicate Spellable(w: World, look: Outlook, owner: Option<string>, parts: seq<Expr>)
  {
    var fs, marks := PartsOf(w, look, map[], owner, parts), SeedMarksOf(w, look, owner, parts);
    AllUnwrapped(w, look, owner, parts) && |fs| == |marks| && Faithful(w.text, fs, Marked(fs, marks))
  }

  predicate ExprWrites(w: World, look: Outlook, owner: Option<string>, e: Expr)
  {
    match e
    case List(items) => forall i | 0 <= i < |items| :: ExprWrites(w, look, owner, items[i])
    case Dict(entries) => forall k | k in entries :: ExprWrites(w, look, owner, entries[k])
    case Template(parts) => Spellable(w, look, owner, parts)
    case _ => true
  }

  // ---------------------------------------------------------------- what can be written

  predicate OpWrites(w: World, look: Outlook, op: Op)
  {
    match op
    case Call(id, _, args, undo) =>
      ExprWrites(w, look, id, args) && (undo.Some? ==> ExprWrites(w, look, None, undo.value))
    case Wait(_, _) => true
    case Sequence(steps) => OpsWrite(w, look, steps)
    case Condition(id, when, steps, otherwise) =>
      Testable(w, look, id, when) && OpsWrite(w, look, steps) && OpsWrite(w, look, otherwise)
    case Parallel(_, branches) => OpsWrite(w, look, branches)
  }

  predicate OpsWrite(w: World, look: Outlook, ops: seq<Op>)
  {
    ops == [] || (OpWrites(w, look, ops[0]) && OpsWrite(w, look, ops[1..]))
  }

  /** What a first pass reads of the values it starts from can be written into source, and so can what
      is read behind a deadline that has passed before it. */
  predicate LoopWrites(w: World, loop: Repeat, after: seq<Op>, c: Carry)
  {
    && OpsWrite(w, InPass(loop, c), loop.body)
    && (forall i | 0 <= i < |loop.state| :: ExprWrites(w, InPass(loop, c), None, loop.state[i].value))
    && (Timed(loop) ==> OpsWrite(w, AtExit(loop, c), after))
  }

  // ---------------------------------------------------------------- references and templates

  lemma ReadsWritten(w: World, look: Outlook, env: map<string, Json>, owner: Option<string>, ref: string, path: Path)
    requires Open(look)
    ensures var r, r' := Read(w, look, env, owner, ref, path), Read(w, WrittenAt(look), env, owner, ref, path);
      && (r.Live? ==> r' == r) && (r.Seeded? ==> r == Seeded(r.v, false) && r' == Seeded(r.v, true))
      && (r.Seeded? ==> Read(w, look, map[], owner, ref, path) == r)
      && (r.Live? ==> Read(w, look, map[], owner, ref, path).Live?)
  {
  }

  lemma {:induction false} PartsWritten(w: World, look: Outlook, env: map<string, Json>, owner: Option<string>,
      es: seq<Expr>)
    requires Open(look) && AllUnwrapped(w, look, owner, es)
    ensures var fs, marks := PartsOf(w, look, env, owner, es), SeedMarksOf(w, look, owner, es);
      && SameShape(fs, PartsOf(w, look, map[], owner, es), marks)
      && PartsOf(w, WrittenAt(look), env, owner, es) == SpelledOut(w.text, fs, marks)
    decreases es, 0
  {
    hide Parts, SeedMarks, SpelledOut, SameShape, Unwrapped, Open, WrittenAt;
    if es == [] {
      NothingSpelled(w.text);
    } else {
      PartWritten(w, look, env, owner, es[0]);
      PartsWritten(w, look, env, owner, es[1..]);
      var fs, rest := Parts(w, look, env, owner, es[0]), PartsOf(w, look, env, owner, es[1..]);
      var marks, more := SeedMarks(w, look, owner, es[0]), SeedMarksOf(w, look, owner, es[1..]);
      ShapeAppends(fs, Parts(w, look, map[], owner, es[0]), marks, rest, PartsOf(w, look, map[], owner, es[1..]), more);
      ShapeLengths(fs, Parts(w, look, map[], owner, es[0]), marks);
      ShapeLengths(rest, PartsOf(w, look, map[], owner, es[1..]), more);
      SpelledAppend(w.text, fs, rest, marks, more);
    }
  }

  lemma {:induction false} PartWritten(w: World, look: Outlook, env: map<string, Json>, owner: Option<string>, e: Expr)
    requires Open(look) && Unwrapped(w, look, owner, e)
    ensures var fs, marks := Parts(w, look, env, owner, e), SeedMarks(w, look, owner, e);
      && SameShape(fs, Parts(w, look, map[], owner, e), marks)
      && Parts(w, WrittenAt(look), env, owner, e) == SpelledOut(w.text, fs, marks)
    decreases e, 1
  {
    hide Read, NeedsWrapper, Open, WrittenAt;
    match e
    case Ref(ref, path) =>
      ReadsWritten(w, look, env, owner, ref, path);
      ReadsWritten(w, look, map[], owner, ref, path);
      RefWritten(w, look, env, owner, ref, path);
    case Template(parts) => PartsWritten(w, look, env, owner, parts);
    case _ =>
  }

  lemma RefWritten(w: World, look: Outlook, env: map<string, Json>, owner: Option<string>, ref: string, path: Path)
    requires Open(look) && Unwrapped(w, look, owner, Ref(ref, path))
    ensures var fs, marks := Parts(w, look, env, owner, Ref(ref, path)), SeedMarks(w, look, owner, Ref(ref, path));
      && SameShape(fs, Parts(w, look, map[], owner, Ref(ref, path)), marks)
      && Parts(w, WrittenAt(look), env, owner, Ref(ref, path)) == SpelledOut(w.text, fs, marks)
  {
    ReadsWritten(w, look, env, owner, ref, path);
    hide Read, NeedsWrapper, Open, WrittenAt;
    var r := Read(w, look, env, owner, ref, path);
    var fs := Parts(w, look, env, owner, Ref(ref, path));
    assert fs == [Value(r.v)];
    if r.Seeded? {
      assert SpelledOut(w.text, fs, [true]) == [Spoken(SeedText(w.text, r.v))];
    } else {
      assert SpelledOut(w.text, fs, [false]) == fs;
    }
  }

  lemma TextWritten(w: World, look: Outlook, env: map<string, Json>, owner: Option<string>, parts: seq<Expr>)
    requires Open(look) && Spellable(w, look, owner, parts)
    ensures Finish(w.text, PartsOf(w, WrittenAt(look), env, owner, parts))
      == Finish(w.text, PartsOf(w, look, env, owner, parts))
  {
    hide PartsOf, SeedMarksOf, AllUnwrapped, Finish;
    PartsWritten(w, look, env, owner, parts);
    var fs, marks := PartsOf(w, look, env, owner, parts), SeedMarksOf(w, look, owner, parts);
    ShapeCounts(fs, PartsOf(w, look, map[], owner, parts), marks);
    FaithfulIsSame(w.text, fs, marks);
  }

  lemma {:induction false} ExprWritten(w: World, look: Outlook, env: map<string, Json>, owner: Option<string>, e: Expr)
    requires Open(look) && ExprWrites(w, look, owner, e)
    ensures EvalExpr(w, WrittenAt(look), env, owner, e) == EvalExpr(w, look, env, owner, e)
    decreases e
  {
    hide Read, Open, Spellable, WrittenAt;
    match e
    case Ref(ref, path) => ReadsWritten(w, look, env, owner, ref, path);
    case List(items) =>
      forall i | 0 <= i < |items| { ExprWritten(w, look, env, owner, items[i]); }
      var xs := EvalList(w, WrittenAt(look), env, owner, items);
      var ys := EvalList(w, look, env, owner, items);
      assert xs == ys;
    case Dict(entries) =>
      forall k | k in entries { ExprWritten(w, look, env, owner, entries[k]); }
      var xs := EvalDict(w, WrittenAt(look), env, owner, entries);
      var ys := EvalDict(w, look, env, owner, entries);
      assert xs == ys;
    case Template(parts) => TextWritten(w, look, env, owner, parts);
    case _ =>
  }

  // ---------------------------------------------------------------- conditions

  /** A condition over written seeds decides as it does over the values themselves, and raises if and
      only if they raise there too or one of the seeds it reads needs the wrapper. */
  lemma {:induction false} DecidesIffTestable(w: World, look: Outlook, env: map<string, Json>, owner: Option<string>,
      c: Cond)
    requires Open(look)
    ensures Decide(w, c, EvalOperand(w, WrittenAt(look), env, owner))
         == if Testable(w, look, owner, c) then Decide(w, c, EvalOperand(w, look, env, owner)) else None
    decreases c, 0
  {
    match c
    case Var(To(ref, path)) => OperandWritten(w, look, env, owner, ref, path);
    case Group(items) => AllDecideIffTestable(w, look, env, owner, items);
    case Operator(_, args) => AllDecideIffTestable(w, look, env, owner, args);
    case _ =>
  }

  lemma {:induction false} AllDecideIffTestable(w: World, look: Outlook, env: map<string, Json>, owner: Option<string>,
      cs: seq<Cond>)
    requires Open(look)
    ensures DecideAll(w, cs, EvalOperand(w, WrittenAt(look), env, owner))
         == if AllTestable(w, look, owner, cs) then DecideAll(w, cs, EvalOperand(w, look, env, owner)) else None
    decreases cs, 1
  {
    if cs != [] {
      DecidesIffTestable(w, look, env, owner, cs[0]);
      AllDecideIffTestable(w, look, env, owner, cs[1..]);
    }
  }

  lemma OperandWritten(w: World, look: Outlook, env: map<string, Json>, owner: Option<string>, ref: string, path: Path)
    requires Open(look)
    ensures EvalOperand(w, WrittenAt(look), env, owner)(To(ref, path))
         == if Testable(w, look, owner, Var(To(ref, path))) then EvalOperand(w, look, env, owner)(To(ref, path))
           else None
  {
    ReadsWritten(w, look, env, owner, ref, path);
    hide Read, Open;
  }

  // ---------------------------------------------------------------- operations

  /** Compensations that can be written. */
  predicate Owes(w: World, look: Outlook, undo: seq<Expr>)
  {
    forall e | e in undo :: ExprWrites(w, look, None, e)
  }

  lemma {:induction false} OpWritten(w: World, look: Outlook, op: Op, f: EFrame, r: Run)
    requires Open(look) && OpWrites(w, look, op) && Owes(w, look, f.undo)
    ensures EvalOp(w, WrittenAt(look), op, f, r) == EvalOp(w, look, op, f, r)
    ensures EvalOp(w, look, op, f, r).EDone? ==> Owes(w, look, EvalOp(w, look, op, f, r).frame.undo)
    decreases op, 0
  {
    hide EvalExpr, Open, WrittenAt, Testable, Decide, ExprWrites;
    match op
    case Call(id, target, args, undo) =>
      ExprWritten(w, look, f.env, id, args);
      RepayWritten(w, look, f.env, f.undo);
    case Wait(_, _) =>
    case Sequence(steps) => OpsWritten(w, look, steps, f, r);
    case Condition(id, when, steps, otherwise) =>
      DecidesIffTestable(w, look, f.env, id, when);
      OpsWritten(w, look, steps, f, r);
      OpsWritten(w, look, otherwise, f, r);
    case Parallel(_, branches) => BranchesWritten(w, look, branches, r.clock, r);
  }

  lemma RepayWritten(w: World, look: Outlook, env: map<string, Json>, undo: seq<Expr>)
    requires Open(look) && Owes(w, look, undo)
    ensures Repay(w, WrittenAt(look), env, undo) == Repay(w, look, env, undo)
  {
    forall e | e in undo ensures EvalExpr(w, WrittenAt(look), env, None, e) == EvalExpr(w, look, env, None, e) {
      ExprWritten(w, look, env, None, e);
    }
  }

  lemma {:induction false} OpsWritten(w: World, look: Outlook, ops: seq<Op>, f: EFrame, r: Run)
    requires Open(look) && OpsWrite(w, look, ops) && Owes(w, look, f.undo)
    ensures EvalOps(w, WrittenAt(look), ops, f, r) == EvalOps(w, look, ops, f, r)
    ensures EvalOps(w, look, ops, f, r).EDone? ==> Owes(w, look, EvalOps(w, look, ops, f, r).frame.undo)
    decreases ops, 1
  {
    hide EvalOp, Open, WrittenAt, Owes;
    if ops != [] {
      OpWritten(w, look, ops[0], f, r);
      match EvalOp(w, look, ops[0], f, r)
      case EFailed(_, _) =>
      case EDone(f', r') => OpsWritten(w, look, ops[1..], f', r');
    }
  }

  lemma {:induction false} BranchesWritten(w: World, look: Outlook, branches: seq<Op>, start: real, r: Run)
    requires Open(look) && OpsWrite(w, look, branches)
    ensures EvalBranches(w, WrittenAt(look), branches, start, r) == EvalBranches(w, look, branches, start, r)
    decreases branches, 1
  {
    hide EvalOp, Open, WrittenAt;
    if branches != [] {
      OpWritten(w, look, branches[0], BLANK, r.(clock := start));
      match EvalOp(w, look, branches[0], BLANK, r.(clock := start))
      case EFailed(_, _) =>
      case EDone(_, r') => BranchesWritten(w, look, branches[1..], start, r');
    }
  }

  // ---------------------------------------------------------------- passes

  lemma {:induction false} RetainWritten(w: World, look: Outlook, env: map<string, Json>, entries: seq<Retained>)
    requires Open(look) && forall i | 0 <= i < |entries| :: ExprWrites(w, look, None, entries[i].value)
    ensures Retain(w, WrittenAt(look), env, entries) == Retain(w, look, env, entries)
    decreases entries
  {
    hide EvalExpr, Open, WrittenAt, ExprWrites;
    if entries != [] {
      RetainWritten(w, look, env, entries[..|entries| - 1]);
      ExprWritten(w, look, env, None, entries[|entries| - 1].value);
    }
  }

  /** Ends alike, but for a carry no pass has changed. */
  predicate EndsWritten(loop: Repeat, c: Carry, x: LoopOutcome, y: LoopOutcome)
  {
    x == y || (Timed(loop) && y.Exits? && y.carry == c && x == Exits(AsWritten(c), y.run))
  }

  lemma PassWritten(w: World, loop: Repeat, after: seq<Op>, c: Carry, outer: map<string, Json>, r: Run)
    requires !c.written && LoopWrites(w, loop, after, c)
    ensures EndsWritten(loop, c, Pass(w, loop, AsWritten(c), outer, r), Pass(w, loop, c, outer, r))
  {
    hide EvalOps, Retain, OpsWrite, ExprWrites;
    var look, r' := InPass(loop, c), if Timed(loop) then Stepped(r) else r;
    OpsWritten(w, look, loop.body, EFrame(outer, Null, []), r');
    match EvalOps(w, look, loop.body, EFrame(outer, Null, []), r')
    case EFailed(_, _) =>
    case EDone(f, _) => RetainWritten(w, look, f.env, loop.state);
  }

  lemma PassesWritten(w: World, loop: Repeat, after: seq<Op>, c: Carry, outer: map<string, Json>, r: Run, passes: nat)
    requires passes > 0 && !c.written && LoopWrites(w, loop, after, c)
    ensures EndsWritten(loop, c, Passes(w, loop, AsWritten(c), outer, r, passes), Passes(w, loop, c, outer, r, passes))
  {
    hide Pass, LoopWrites;
    PassWritten(w, loop, after, c, outer, r);
  }
}
