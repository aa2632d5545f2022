/** Exactly when the continuation of a repeat compiles: when the state it carries has a seed for
    every reference to the previous pass, fit for where the reference stands. */
module Resumable {
  import opened Json
  import opened Plan
  import opened Graph
  import opened Meaning
  import opened Compiler
  import opened Discipline
  import opened Shifting
  import opened Exiting
  import opened Realization
  import opened Growth
  import opened Copies
  import opened Placement
  import opened Distinctness
  import opened Leaving
  import opened PassWalk
  import opened Visibility
  import opened Assembly
  import opened Handover
  import opened Chain
  import opened Sowing
  import opened Wording
  import opened Succession
  import opened Resolving

  // ---------------------------------------------------------------- seeds and rewriting

  /** Where seeds are written: the first pass of a block, or behind the exit before it. */
  predicate SeedsHere(s: Shift, owner: Option<string>, prev: set<string>)
  {
    || (!s.exit && s.index == 0 && prev == PreviousIn(s.block.loop, owner))
    || (s.exit && s.index == -1 && owner == None && prev == LoopIds(s.block.loop))
  }

  lemma RefSown(s: Shift, owner: Option<string>, prev: set<string>, c: Carry, ref: string, path: Path)
    requires SeedsHere(s, owner, prev) && StartsFrom(s.block, c) && !Continued(ref, path)
    ensures ref !in prev ==> RewriteRef(s, owner, ref, path).Ok? && RewriteRef(s, owner, ref, path).value.Points?
    ensures ref in prev ==> RewriteRef(s, owner, ref, path).Ok? == SeedAt(s.block.loop, c, ref, path).Ok?
    ensures ref in prev && SeedAt(s.block.loop, c, ref, path).Ok? ==>
      RewriteRef(s, owner, ref, path) == Ok(Seed(SeedAt(s.block.loop, c, ref, path).value))
  {
  }

  lemma {:induction false} ExprSown(s: Shift, text: Json -> string, owner: Option<string>, prev: set<string>, c: Carry,
      e: Expr)
    requires SeedsHere(s, owner, prev) && StartsFrom(s.block, c) && PlainExpr(e)
    ensures RewriteExpr(s, text, owner, e).Ok? && Interpolates(s, owner, e) <==> Sown(s.block.loop, c, prev, e)
    decreases e, 0
  {
    hide RewriteRef, SeedAt, SeedsHere, StartsFrom;
    match e
    case Ref(ref, path) => RefSown(s, owner, prev, c, ref, path);
    case List(items) =>
      forall i | 0 <= i < |items|
        ensures RewriteExpr(s, text, owner, items[i]).Ok? && Interpolates(s, owner, items[i]) <==>
          Sown(s.block.loop, c, prev, items[i])
      { ExprSown(s, text, owner, prev, c, items[i]); }
    case Dict(entries) =>
      forall k | k in entries
        ensures RewriteExpr(s, text, owner, entries[k]).Ok? && Interpolates(s, owner, entries[k]) <==>
          Sown(s.block.loop, c, prev, entries[k])
      { ExprSown(s, text, owner, prev, c, entries[k]); }
    case Template(parts) => PartsSown(s, text, owner, prev, c, parts);
    case _ =>
  }

  lemma {:induction false} PartsSown(s: Shift, text: Json -> string, owner: Option<string>, prev: set<string>, c: Carry,
      parts: seq<Expr>)
    requires SeedsHere(s, owner, prev) && StartsFrom(s.block, c) && forall i | 0 <= i < |parts| :: PlainExpr(parts[i])
    ensures RewriteParts(s, text, owner, parts).Ok? && AllInterpolate(s, owner, parts) <==>
      AllSown(s.block.loop, c, prev, parts)
    decreases parts, 1
  {
    hide RewriteRef, SeedAt, SeedsHere, StartsFrom;
    if parts != [] {
      assert forall i | 0 <= i < |parts[1..]| :: parts[1..][i] == parts[i + 1];
      PartsSown(s, text, owner, prev, c, parts[1..]);
      ExprSown(s, text, owner, prev, c, parts[0]);
      if parts[0].Ref? { RefSown(s, owner, prev, c, parts[0].ref, parts[0].path); }
    }
  }

  lemma {:induction false} CondSown(s: Shift, owner: Option<string>, prev: set<string>, c: Carry, cond: Cond)
    requires SeedsHere(s, owner, prev) && StartsFrom(s.block, c) && PlainCond(cond)
    ensures RewriteCond(s, owner, cond).Ok? <==> SownCond(s.block.loop, c, prev, cond)
    decreases cond, 0
  {
    hide RewriteRef, SeedAt, SeedsHere, StartsFrom;
    match cond
    case Var(To(ref, path)) => RefSown(s, owner, prev, c, ref, path);
    case Group(items) => CondsSown(s, owner, prev, c, items);
    case Operator(_, args) => CondsSown(s, owner, prev, c, args);
    case _ =>
  }

  lemma {:induction false} CondsSown(s: Shift, owner: Option<string>, prev: set<string>, c: Carry, conds: seq<Cond>)
    requires SeedsHere(s, owner, prev) && StartsFrom(s.block, c) && forall i | 0 <= i < |conds| :: PlainCond(conds[i])
    ensures RewriteConds(s, owner, conds).Ok? <==> SownConds(s.block.loop, c, prev, conds)
    decreases conds, 1
  {
    if conds != [] {
      assert forall i | 0 <= i < |conds[1..]| :: conds[1..][i] == conds[i + 1];
      CondSown(s, owner, prev, c, conds[0]);
      CondsSown(s, owner, prev, c, conds[1..]);
    }
  }

  lemma {:induction false} BodySown(s: Shift, text: Json -> string, c: Carry, ops: seq<Op>)
    requires !s.exit && s.index == 0 && StartsFrom(s.block, c) && AllPlain(ops)
    ensures RewriteOps(s, text, ops).Ok? && OpsInterpolate(s, ops) <==> SownOps(s.block.loop, c, true, ops)
    decreases ops, 1
  {
    if ops != [] {
      BodyOpSown(s, text, c, ops[0]);
      BodySown(s, text, c, ops[1..]);
    }
  }

  lemma {:induction false} BodyOpSown(s: Shift, text: Json -> string, c: Carry, op: Op)
    requires !s.exit && s.index == 0 && StartsFrom(s.block, c) && Plain(op)
    ensures RewriteOp(s, text, op).Ok? && OpInterpolates(s, op) <==> SownOp(s.block.loop, c, true, op)
    decreases op, 0
  {
    hide StartsFrom;
    match op
    case Call(id, _, args, _) => ExprSown(s, text, id, PreviousIn(s.block.loop, id), c, args);
    case Wait(_, _) =>
    case Sequence(steps) => BodySown(s, text, c, steps);
    case Condition(id, when, steps, otherwise) =>
      CondSown(s, id, PreviousIn(s.block.loop, id), c, when);
      BodySown(s, text, c, steps);
      BodySown(s, text, c, otherwise);
  }

  lemma {:induction false} TailSown(l: Layout, c: Carry, ops: seq<Op>)
    requires StartsFrom(l.block, c) && AllPlain(ops)
    ensures ExitOps(l, -1, ops).Ok? && OpsInterpolate(Shift(l.block, -1, true), ops) <==>
      SownOps(l.block.loop, c, false, ops)
    decreases ops, 1
  {
    if ops != [] {
      TailOpSown(l, c, ops[0]);
      TailSown(l, c, ops[1..]);
    }
  }

  lemma {:induction false} TailOpSown(l: Layout, c: Carry, op: Op)
    requires StartsFrom(l.block, c) && Plain(op)
    ensures ExitOp(l, -1, op).Ok? && OpInterpolates(Shift(l.block, -1, true), op) <==>
      SownOp(l.block.loop, c, false, op)
    decreases op, 0
  {
    hide StartsFrom;
    var s := Shift(l.block, -1, true);
    match op
    case Call(_, _, args, _) => ExprSown(s, l.text, None, LoopIds(l.block.loop), c, args);
    case Wait(_, _) =>
    case Sequence(steps) => TailSown(l, c, steps);
    case Condition(_, when, steps, otherwise) =>
      CondSown(s, None, LoopIds(l.block.loop), c, when);
      TailSown(l, c, steps);
      TailSown(l, c, otherwise);
  }

  lemma {:induction false} StateSown(s: Shift, text: Json -> string, c: Carry, entries: seq<Retained>)
    requires !s.exit && s.index == 0 && StartsFrom(s.block, c) && forall i | 0 <= i < |entries| ::
      PlainExpr(entries[i].value)
    ensures
      StateEntries(s, text, entries).Ok?
      && (forall i | 0 <= i < |entries| :: Interpolates(s, None, entries[i].value))
      <==>
      forall i | 0 <= i < |entries| :: Sown(s.block.loop, c, PreviousIn(s.block.loop, None), entries[i].value)
    decreases entries
  {
    if entries != [] {
      var earlier, last := entries[..|entries| - 1], entries[|entries| - 1];
      assert forall i | 0 <= i < |entries| :: entries[i] == if i < |earlier| then earlier[i] else last;
      StateSown(s, text, c, earlier);
      ExprSown(s, text, None, PreviousIn(s.block.loop, None), c, last.value);
    }
  }

  // ---------------------------------------------------------------- what a compiled block shows

  lemma {:induction false} RewrittenOpsWorded(s: Shift, text: Json -> string, ops: seq<Op>)
    requires s.index >= 0 && !s.exit && AllPlain(ops) && RewriteOps(s, text, ops).Ok?
    ensures OpsWorded(RewriteOps(s, text, ops).value) <==> OpsWorded(ops) && OpsInterpolate(s, ops)
    decreases ops, 1
  {
    if ops != [] {
      RewrittenOpWorded(s, text, ops[0]);
      RewrittenOpsWorded(s, text, ops[1..]);
      var first, rest := RewriteOp(s, text, ops[0]).value, RewriteOps(s, text, ops[1..]).value;
      assert ([first] + rest)[1..] == rest;
    }
  }

  lemma {:induction false} RewrittenOpWorded(s: Shift, text: Json -> string, op: Op)
    requires s.index >= 0 && !s.exit && Plain(op) && RewriteOp(s, text, op).Ok?
    ensures OpWorded(RewriteOp(s, text, op).value) <==> OpWorded(op) && OpInterpolates(s, op)
    decreases op, 0
  {
    match op
    case Call(id, _, args, _) => RewrittenIsWorded(s, text, id, args);
    case Wait(_, _) =>
    case Sequence(steps) => RewrittenOpsWorded(s, text, steps);
    case Condition(_, _, steps, otherwise) =>
      RewrittenOpsWorded(s, text, steps);
      RewrittenOpsWorded(s, text, otherwise);
  }

  lemma {:induction false} ExitOpsWorded(l: Layout, k: int, ops: seq<Op>)
    requires k >= -1 && AllPlain(ops) && ExitOps(l, k, ops).Ok?
    ensures OpsWorded(ExitOps(l, k, ops).value) <==> OpsWorded(ops) && OpsInterpolate(Shift(l.block, k, true), ops)
    decreases ops, 1
  {
    if ops != [] {
      ExitOpWorded(l, k, ops[0]);
      ExitOpsWorded(l, k, ops[1..]);
      var first, rest := ExitOp(l, k, ops[0]).value, ExitOps(l, k, ops[1..]).value;
      assert ([first] + rest)[1..] == rest;
    }
  }

  lemma {:induction false} ExitOpWorded(l: Layout, k: int, op: Op)
    requires k >= -1 && Plain(op) && ExitOp(l, k, op).Ok?
    ensures OpWorded(ExitOp(l, k, op).value) <==> OpWorded(op) && OpInterpolates(Shift(l.block, k, true), op)
    decreases op, 0
  {
    var s := Shift(l.block, k, true);
    match op
    case Call(_, _, args, _) =>
      RewrittenIsWorded(s, l.text, None, args);
      RenamedIsWorded(l, k, RewriteExpr(s, l.text, None, args).value);
    case Wait(_, _) =>
    case Sequence(steps) => ExitOpsWorded(l, k, steps);
    case Condition(_, _, steps, otherwise) =>
      ExitOpsWorded(l, k, steps);
      ExitOpsWorded(l, k, otherwise);
  }

  /** Calls without compensations, waits, sequences and conditions. */
  predicate Bare(op: Op)
  {
    match op
    case Call(_, _, _, undo) => undo.None?
    case Wait(_, _) => true
    case Sequence(steps) => AllBare(steps)
    case Condition(_, _, steps, otherwise) => AllBare(steps) && AllBare(otherwise)
    case Parallel(_, _) => false
  }

  predicate AllBare(ops: seq<Op>)
  {
    ops == [] || (Bare(ops[0]) && AllBare(ops[1..]))
  }

  lemma {:induction false} PlainIsBare(op: Op)
    requires Plain(op)
    ensures Bare(op)
    ensures forall s: Shift, text | s.index >= 0 && RewriteOp(s, text, op).Ok? :: Bare(RewriteOp(s, text, op).value)
    ensures forall l, k: int | k >= -1 && ExitOp(l, k, op).Ok? :: Bare(ExitOp(l, k, op).value)
    decreases op, 0
  {
    match op
    case Sequence(steps) => PlainAreBare(steps);
    case Condition(_, _, steps, otherwise) =>
      PlainAreBare(steps);
      PlainAreBare(otherwise);
    case _ =>
  }

  lemma {:induction false} PlainAreBare(ops: seq<Op>)
    requires AllPlain(ops)
    ensures AllBare(ops)
    ensures forall s: Shift, text | s.index >= 0 && RewriteOps(s, text, ops).Ok? ::
      AllBare(RewriteOps(s, text, ops).value)
    ensures forall l, k: int | k >= -1 && ExitOps(l, k, ops).Ok? :: AllBare(ExitOps(l, k, ops).value)
    decreases ops, 1
  {
    if ops != [] {
      PlainIsBare(ops[0]);
      PlainAreBare(ops[1..]);
      forall s: Shift, text | s.index >= 0 && RewriteOps(s, text, ops).Ok?
        ensures AllBare(RewriteOps(s, text, ops).value) {
        var first, rest := RewriteOp(s, text, ops[0]).value, RewriteOps(s, text, ops[1..]).value;
        assert ([first] + rest)[1..] == rest;
      }
      forall l, k: int | k >= -1 && ExitOps(l, k, ops).Ok? ensures AllBare(ExitOps(l, k, ops).value) {
        var first, rest := ExitOp(l, k, ops[0]).value, ExitOps(l, k, ops[1..]).value;
        assert ([first] + rest)[1..] == rest;
      }
    }
  }

  /** Operations whose nodes resolve are worded, and their explicit ids are nodes. */
  lemma {:induction false} RealizedOps(st: Build, vis: set<string>, ops: seq<Op>, entry: string, after: string)
    requires RealizesAll(st, vis, ops, entry, after, "") && AllBare(ops)
    ensures ResolveAll(st).Ok? ==> OpsWorded(ops)
    ensures IdsOf(ops) <= st.nodes.Keys
    decreases ops, 1
  {
    if ops != [] {
      hide ResolveAll;
      var mid :| Realizes(st, vis, ops[0], entry, mid, "") && RealizesAll(st, vis, ops[1..], mid, after, "");
      RealizedOp(st, vis, ops[0], entry, mid);
      RealizedOps(st, vis, ops[1..], mid, after);
    }
  }

  lemma {:induction false} RealizedOp(st: Build, vis: set<string>, op: Op, entry: string, after: string)
    requires Realizes(st, vis, op, entry, after, "") && Bare(op)
    ensures ResolveAll(st).Ok? ==> OpWorded(op)
    ensures Ids(op) <= st.nodes.Keys
    decreases op, 0
  {
    hide ResolveAll;
    match op
    case Call(id, target, args, undo) =>
      if ResolveAll(st).Ok? { TaskResolved(st, entry, target, args, after); }
    case Wait(_, _) =>
    case Sequence(steps) => RealizedOps(st, vis, steps, entry, after);
    case Condition(id, when, steps, otherwise) =>
      var yes, no :| Labelled(id, entry, vis) && Holds(st, entry, Switch([Case(when, yes)], no), "")
        && RealizesAll(st, vis, steps, yes, after, "") && RealizesAll(st, vis, otherwise, no, after, "");
      RealizedOps(st, vis, steps, yes, after);
      RealizedOps(st, vis, otherwise, no, after);
  }

  lemma TaskResolved(st: Build, id: string, target: string, input: Expr, next: string)
    requires ResolveAll(st).Ok? && Holds(st, id, Task(Capability(target, input), next, None), "")
    ensures Worded(input)
  {
    assert ResolveNode(st, ScopeOf(st, id), st.nodes[id]).Ok?;
    ResolvedIsWorded(st, "", input);
  }

  /** Every retained expression is an entry of the rewritten state. */
  lemma {:induction false} EntryOf(s: Shift, text: Json -> string, entries: seq<Retained>, i: nat)
    requires StateEntries(s, text, entries).Ok? && DistinctKeys(entries) && i < |entries|
    ensures RewriteExpr(s, text, None, entries[i].value).Ok? && entries[i].key in StateEntries(s, text, entries).value
    ensures StateEntries(s, text, entries).value[entries[i].key] == RewriteExpr(s, text, None, entries[i].value).value
    decreases entries
  {
    if i < |entries| - 1 {
      EntryOf(s, text, entries[..|entries| - 1], i);
      assert entries[i].key != entries[|entries| - 1].key;
    }
  }

  /** The retained state of a tick that resolves is worded, and nothing wrapped landed in it. */
  lemma TickWorded(b: Block, text: Json -> string, i: nat)
    requires TickInput(b, text, i).Ok? && Worded(TickInput(b, text, i).value) && DistinctKeys(b.loop.state)
    ensures forall j | 0 <= j < |b.loop.state| ::
      Worded(b.loop.state[j].value) && Interpolates(Shift(b, i, false), None, b.loop.state[j].value)
  {
    hide StateEntries, OutputHole, LiteralOf, Checked;
    var s := Shift(b, i, false);
    var entries := StateEntries(s, text, b.loop.state).value;
    forall j | 0 <= j < |b.loop.state|
      ensures Worded(b.loop.state[j].value) && Interpolates(s, None, b.loop.state[j].value)
    {
      EntryOf(s, text, b.loop.state, j);
      StateWorded(b, text, i, entries);
      RewrittenIsWorded(s, text, None, b.loop.state[j].value);
    }
  }

  lemma StateWorded(b: Block, text: Json -> string, i: nat, entries: map<string, Expr>)
    requires TickInput(b, text, i).Ok? && Worded(TickInput(b, text, i).value) && b.loop.state != []
    requires StateEntries(Shift(b, i, false), text, b.loop.state) == Ok(entries)
    ensures forall k | k in entries :: Worded(entries[k])
  {
    hide StateEntries, OutputHole, LiteralOf, Checked;
    var input := TickInput(b, text, i).value;
    assert "state" in input.entries && input.entries["state"] == Dict(entries);
    assert Worded(Dict(entries));
  }

  lemma {:induction false} PlacedAt(sc: Scene, i: nat, n: nat, arrival: string, nxt: string, j: nat)
    returns (a: string, m: string)
    requires PassesPlaced(sc, i, n, arrival, nxt) && i <= j < n
    ensures PassPlaced(sc, j, a, m)
    decreases n - i
  {
    hide PassPlaced;
    var mid :| PassPlaced(sc, i, arrival, mid) && PassesPlaced(sc, i + 1, n, mid, nxt);
    if j == i {
      a, m := arrival, mid;
    } else {
      a, m := PlacedAt(sc, i + 1, n, mid, nxt, j);
    }
  }

  /** A block whose nodes all resolve is made of text, and nothing wrapped landed in a template. */
  lemma BlockShows(plan: Plan, loop: Repeat, after: seq<Op>, b: Block, text: Json -> string, s: Stages)
    requires Compiles(plan, [], loop, after, b, text, s) && LoopingOk([], loop, after) && ResolveAll(s.fin).Ok?
    ensures OpsWorded(loop.body) && OpsWorded(after) && FirstInterpolates(b) && Seedable(s.l, after)
    ensures forall i | 0 <= i < |loop.state| :: Worded(loop.state[i].value)
    ensures Timed(loop) ==> OpsInterpolate(Shift(b, -1, true), after)
  {
    hide CompilePasses, CompileContinuation, CompileOps, RealizesAll, PassPlaced, Reach, Reserve, ResolveAll, OpsOk,
      AllPlain, StateOk, Distinct;
    StagesHold(plan, [], loop, after, b, text, s);
    var sc := Scene(s.base, s.fin, s.l, Plainly(s.fin));
    PlainAreBare(after);
    RealizedOps(s.fin, Plainly(s.fin), after, s.l.after, END);
    var a, m := PlacedAt(sc, 0, b.chunk, s.entry, s.next, 0);
    FirstPassShows(sc, after, a, m);
  }

  lemma FirstPassShows(sc: Scene, after: seq<Op>, a: string, m: string)
    requires PassPlaced(sc, 0, a, m) && ResolveAll(sc.fin).Ok? && LaidOut(sc.l, sc.base) && sc.vis == Plainly(sc.fin)
    requires RealizesAll(sc.base, Plainly(sc.base), after, sc.l.after, END, "") && AllPlain(after)
      && AllPlain(sc.l.block.loop.body)
    requires DistinctKeys(sc.l.block.loop.state) && OpsWorded(after)
    ensures OpsWorded(sc.l.block.loop.body) && FirstInterpolates(sc.l.block) && Seedable(sc.l, after)
    ensures forall i | 0 <= i < |sc.l.block.loop.state| :: Worded(sc.l.block.loop.state[i].value)
    ensures Timed(sc.l.block.loop) ==> OpsInterpolate(Shift(sc.l.block, -1, true), after)
  {
    hide RealizesAll, ResolveAll, LaidOut, TickInput, AllPlain, OpsWorded, ExitPlaced;
    var l, b := sc.l, sc.l.block;
    var entry, first :|
      && TickPlaced(sc, 0, m) && ClockPlaced(sc, 0) && BodyPlaced(sc, 0, entry)
      && FrontPlaced(sc, 0, entry, first) && PausePlaced(sc, 0, first, a);
    var body := BodyOf(l, 0).value;
    PlainAreBare(b.loop.body);
    RealizedOps(sc.fin, sc.vis, body, entry, Checked(b, "_tick", 0));
    RewrittenOpsWorded(Shift(b, 0, false), l.text, b.loop.body);
    TickShows(sc, 0, m);
    TickWorded(b, l.text, 0);
    if Timed(b.loop) {
      var target :| Holds(sc.fin, Checked(b, "_expired", 0), Switch([Case(DoneTest(first), target)], entry), "")
        && ExitPlaced(sc, -1, target);
      ExitShows(sc, after, target);
    }
    assert StateEntries(Shift(b, 0, false), l.text, b.loop.state).Ok? by { TickHasState(b, l.text); }
  }

  lemma TickHasState(b: Block, text: Json -> string)
    requires TickInput(b, text, 0).Ok?
    ensures StateEntries(Shift(b, 0, false), text, b.loop.state).Ok?
  {
  }

  lemma ExitShows(sc: Scene, after: seq<Op>, target: string)
    requires ExitPlaced(sc, -1, target) && ResolveAll(sc.fin).Ok? && LaidOut(sc.l, sc.base) && sc.vis == Plainly(sc.fin)
    requires RealizesAll(sc.base, Plainly(sc.base), after, sc.l.after, END, "") && AllPlain(after)
    ensures ExitOps(sc.l, -1, after).Ok? && OpsInterpolate(Shift(sc.l.block, -1, true), after)
  {
    hide RealizesAll, ResolveAll, AllPlain, OpsWorded;
    assert sc.l.block.chunk > 0;
    CopyStands(sc, after, -1, target);
    var tail := ExitOps(sc.l, -1, after).value;
    PlainAreBare(after);
    RealizedOps(sc.fin, sc.vis, tail, target, END);
    ExitOpsWorded(sc.l, -1, after);
  }

  lemma TickShows(sc: Scene, i: nat, nxt: string)
    requires TickPlaced(sc, i, nxt) && ResolveAll(sc.fin).Ok?
    ensures Worded(TickInput(sc.l.block, sc.l.text, i).value)
  {
    hide TickInput, ResolveAll, Worded;
    var b := sc.l.block;
    TaskResolved(sc.fin, Checked(b, "_tick", i), CHAIN_STEP, TickInput(b, sc.l.text, i).value, if Unchecked(b, i)
      then nxt else Checked(b, "_check", i));
  }

  // ---------------------------------------------------------------- what makes a block resolve

  /** Names of the passes are nodes. */
  lemma NamesAreNodes(sc: Scene, i: nat, a: string, m: string, x: string)
    requires PassPlaced(sc, i, a, m) && x in LoopIds(sc.l.block.loop) && AllPlain(sc.l.block.loop.body)
    ensures NameOf(x, i, sc.l.block.chunk) in sc.fin.nodes
  {
    hide RealizesAll, TickInput, AllPlain;
    var l, b := sc.l, sc.l.block;
    var entry, first :|
      && TickPlaced(sc, i, m) && ClockPlaced(sc, i) && BodyPlaced(sc, i, entry)
      && FrontPlaced(sc, i, entry, first) && PausePlaced(sc, i, first, a);
    if x != TickId(b.loop) {
      PlainAreBare(b.loop.body);
      PlainHasNoParallel(b.loop.body);
      RealizedOps(sc.fin, sc.vis, BodyOf(l, i).value, entry, Checked(b, "_tick", i));
      RewrittenShape(Shift(b, i, false), l.text, b.loop.body);
      assert NameOf(x, i, b.chunk) in IdsOf(BodyOf(l, i).value);
    }
  }

  lemma ExitIsCopied(sc: Scene, i: nat, a: string, m: string)
    requires PassPlaced(sc, i, a, m) && Timed(sc.l.block.loop) && i < sc.l.block.chunk
    ensures Copied(sc.l, i - 1, sc.fin)
  {
    hide TickPlaced, BodyPlaced, Copied;
    var entry, first :|
      && TickPlaced(sc, i, m) && ClockPlaced(sc, i) && BodyPlaced(sc, i, entry)
      && FrontPlaced(sc, i, entry, first) && PausePlaced(sc, i, first, a);
    var target :| Holds(sc.fin, Checked(sc.l.block, "_expired", i), Switch([Case(DoneTest(first), target)], entry), "")
      && ExitPlaced(sc, i - 1, target);
  }

  /** Everything source may name is a node of the finished block. */
  lemma AllSeen(plan: Plan, loop: Repeat, after: seq<Op>, b: Block, text: Json -> string, s: Stages)
    requires Compiles(plan, [], loop, after, b, text, s) && LoopingOk([], loop, after)
    requires OpsWorded(after) && (Timed(loop) ==> OpsInterpolate(Shift(b, -1, true), after))
    ensures InView(s.l, KnownIds([], loop, after), s.fin.nodes.Keys) && KnownIds([], loop, after) <= s.fin.nodes.Keys
    ensures ProperIds(loop, KnownIds([], loop, after))
  {
    hide CompilePasses, CompileContinuation, CompileOps, RealizesAll, PassPlaced, Reach, Reserve, OpsOk, AllPlain,
      StateOk, Distinct, PassVisible, ExitVisible, Sourced;
    StagesHold(plan, [], loop, after, b, text, s);
    BookkeepingIsNoBody(plan, [], loop, after, b, text, s);
    var sc, known := Scene(s.base, s.fin, s.l, Plainly(s.fin)), KnownIds([], loop, after);
    PlainAreBare(after);
    RealizedOps(s.fin, Plainly(s.fin), after, s.l.after, END);
    forall i | 0 <= i < b.chunk ensures PassVisible(b, i, known, s.fin.nodes.Keys) {
      PassSeen(sc, after, s.entry, s.next, i);
    }
    forall x | x in known ensures x in s.fin.nodes { KnownSeen(sc, after, s.entry, s.next, x); }
    if Timed(loop) {
      forall k | -1 <= k < b.chunk - 1
        ensures ExitVisible(s.l, k, known, s.fin.nodes.Keys) && Sourced(s.l, k, s.l.source, known) {
        ExitSeen(sc, after, s.entry, s.next, k);
        TailSourced(plan, loop, after, b, text, s, k);
      }
    }
  }

  lemma PassSeen(sc: Scene, after: seq<Op>, entry: string, next: string, i: nat)
    requires PassesPlaced(sc, 0, sc.l.block.chunk, entry, next) && i < sc.l.block.chunk
      && AllPlain(sc.l.block.loop.body)
    requires IdsOf(after) <= sc.fin.nodes.Keys
    ensures PassVisible(sc.l.block, i, KnownIds([], sc.l.block.loop, after), sc.fin.nodes.Keys)
  {
    hide PassPlaced, PassesPlaced, AllPlain, NameOf;
    var b := sc.l.block;
    var a, m := PlacedAt(sc, 0, b.chunk, entry, next, i);
    forall x | x in LoopIds(b.loop) ensures NameOf(x, i, b.chunk) in sc.fin.nodes { NamesAreNodes(sc, i, a, m, x); }
    if i > 0 {
      var a', m' := PlacedAt(sc, 0, b.chunk, entry, next, i - 1);
      forall x | x in LoopIds(b.loop)
        ensures NameOf(x, i - 1, b.chunk) in sc.fin.nodes { NamesAreNodes(sc, i - 1, a', m', x); }
    }
  }

  lemma KnownSeen(sc: Scene, after: seq<Op>, entry: string, next: string, x: string)
    requires PassesPlaced(sc, 0, sc.l.block.chunk, entry, next) && sc.l.block.chunk > 0
      && AllPlain(sc.l.block.loop.body)
    requires IdsOf(after) <= sc.fin.nodes.Keys && x in KnownIds([], sc.l.block.loop, after)
    ensures x in sc.fin.nodes
  {
    hide PassPlaced, PassesPlaced, AllPlain;
    var b := sc.l.block;
    if x in LoopIds(b.loop) {
      var a, m := PlacedAt(sc, 0, b.chunk, entry, next, b.chunk - 1);
      NamesAreNodes(sc, b.chunk - 1, a, m, x);
    }
  }

  lemma ExitSeen(sc: Scene, after: seq<Op>, entry: string, next: string, k: int)
    requires PassesPlaced(sc, 0, sc.l.block.chunk, entry, next) && -1 <= k < sc.l.block.chunk - 1
      && AllPlain(sc.l.block.loop.body)
    requires IdsOf(after) <= sc.fin.nodes.Keys && Timed(sc.l.block.loop) && sc.l.tail !! ROOTS
      && sc.l.tail <= sc.base.ids
    requires Distinct(sc.l, sc.base, sc.fin, PairsFrom(sc.l.block.loop, 0, sc.l.block.chunk))
    ensures ExitVisible(sc.l, k, KnownIds([], sc.l.block.loop, after), sc.fin.nodes.Keys)
  {
    hide PassPlaced, PassesPlaced, AllPlain, NameOf;
    var l, b := sc.l, sc.l.block;
    var a, m := PlacedAt(sc, 0, b.chunk, entry, next, k + 1);
    ExitIsCopied(sc, k + 1, a, m);
    if k >= 0 {
      var a', m' := PlacedAt(sc, 0, b.chunk, entry, next, k);
      forall x | x in LoopIds(b.loop) ensures ExitId(l, k, NameOf(x, k, b.chunk)) in sc.fin.nodes {
        NamesAreNodes(sc, k, a', m', x);
        assert (x, k as nat) in PairsFrom(b.loop, 0, b.chunk);
        assert NameAt(b, (x, k as nat)) == NameOf(x, k, b.chunk);
      }
    }
  }

  lemma TailSourced(plan: Plan, loop: Repeat, after: seq<Op>, b: Block, text: Json -> string, s: Stages, k: int)
    requires Compiles(plan, [], loop, after, b, text, s) && LoopingOk([], loop, after) && k >= -1
    requires OpsWorded(after) && OpsInterpolate(Shift(b, -1, true), after)
    ensures Sourced(s.l, k, s.l.source, KnownIds([], loop, after))
  {
    hide CompilePasses, CompileContinuation, CompileOps, Reach, OpsOk, AllPlain, StateOk, Sourced;
    var known := KnownIds([], loop, after);
    if k >= 0 { SeedlessOpsInterpolate(Shift(b, k, true), after); }
    assert Sourced(s.l, k, EMPTY.nodes, known) by { NothingSourced(s.l, k, known); }
    OpsSourced(s.l, k, after, END, "", EMPTY, known);
  }

  lemma NothingSourced(l: Layout, k: int, known: set<string>)
    requires k >= -1
    ensures Sourced(l, k, EMPTY.nodes, known)
  {
  }

  lemma {:induction false} SourceFine(ops: seq<Op>, known: set<string>, vis: set<string>)
    requires OpsOk(ops, known) && AllPlain(ops) && OpsWorded(ops) && known <= vis
    ensures OpsFine(ops, vis)
    decreases ops, 1
  {
    if ops != [] {
      SourceOpFine(ops[0], known, vis);
      SourceFine(ops[1..], known, vis);
    }
  }

  lemma {:induction false} SourceOpFine(op: Op, known: set<string>, vis: set<string>)
    requires OpOk(op, known) && Plain(op) && OpWorded(op) && known <= vis
    ensures OpFine(op, vis)
    decreases op, 0
  {
    match op
    case Call(_, _, args, _) =>
      ExprOkWider(args, known, vis);
      OkRefsIn(args, vis);
    case Wait(_, _) =>
    case Sequence(steps) => SourceFine(steps, known, vis);
    case Condition(_, when, steps, otherwise) =>
      CondOkWider(when, known, vis);
      OkCondRefsIn(when, vis);
      SourceFine(steps, known, vis);
      SourceFine(otherwise, known, vis);
  }

  /** Text in its templates, and no wrapped seed landing there, make a laid-out block resolve. */
  lemma BlockResolves(plan: Plan, loop: Repeat, after: seq<Op>, b: Block, text: Json -> string, s: Stages)
    requires Compiles(plan, [], loop, after, b, text, s) && LoopingOk([], loop, after)
    requires OpsWorded(loop.body) && OpsWorded(after) && FirstInterpolates(b)
      && (Timed(loop) ==> OpsInterpolate(Shift(b, -1, true), after))
    requires forall i | 0 <= i < |loop.state| :: Worded(loop.state[i].value)
    ensures ResolveAll(s.fin).Ok?
  {
    hide CompilePasses, CompileContinuation, CompileOps, Reach, Reserve, OpsOk, AllPlain, StateOk, InView, AllFine,
      FirstInterpolates, ResolveAll, OpsWorded;
    var known, vis := KnownIds([], loop, after), s.fin.nodes.Keys;
    AllSeen(plan, loop, after, b, text, s);
    SourceFine(after, known, vis);
    assert AllFine(EMPTY, vis) by { EmptyIsFine(vis); }
    OpsAddFine(after, END, EMPTY, vis);
    ReserveFine(CompileOps(after, END, "", EMPTY).value.1, Some(loop.id), vis);
    ContinuationAddsFine(b, plan, s.l.after, s.base, vis);
    PassesAddFine(s.l, b.chunk, s.next, s.st, known, vis);
    assert s.fin == s.st' by { NothingToCompile(s.entry, s.st'); }
    FinIsSound(plan, loop, after, b, text, s);
    assert TopNodes(s.fin, vis) by { TopOf(s.fin, vis); }
    AllResolve(s.fin, vis);
  }

  lemma EmptyIsFine(vis: set<string>)
    ensures AllFine(EMPTY, vis)
  {
  }

  lemma TopOf(st: Build, vis: set<string>)
    requires AllFine(st, vis) && st.scopes.Keys == st.nodes.Keys && vis <= st.nodes.Keys
    ensures TopNodes(st, vis)
  {
  }

  lemma FinIsSound(plan: Plan, loop: Repeat, after: seq<Op>, b: Block, text: Json -> string, s: Stages)
    requires Compiles(plan, [], loop, after, b, text, s) && LoopingOk([], loop, after)
    ensures s.fin.scopes.Keys == s.fin.nodes.Keys
  {
    hide CompilePasses, CompileContinuation, CompileOps, Reach, Reserve, OpsOk, AllPlain, StateOk, RealizesAll,
      PassesPlaced;
    StagesHold(plan, [], loop, after, b, text, s);
  }

  // ---------------------------------------------------------------- continuing

  lemma BlockOfCarry(loop: Repeat, last: Carry)
    requires Carried(loop, last) && (last.remaining.Some? ==> last.remaining.value <= Total(loop).value)
    ensures BlockOf(loop, CarryFields(last)).Ok? <==> loop.initial.Keys <= last.state.fields.Keys
  {
    ResumedRemaining(loop, last);
    var fields := CarryFields(last);
    assert fields != map[] by { assert "state" in fields; }
  }

  lemma SownBlock(l: Layout, after: seq<Op>, c: Carry)
    requires StartsFrom(l.block, c) && AllPlain(l.block.loop.body) && AllPlain(after) && c.state.Obj?
    requires forall i | 0 <= i < |l.block.loop.state| :: PlainExpr(l.block.loop.state[i].value)
    requires l.block.loop.initial.Keys <= c.state.fields.Keys
    ensures Resumes(l.block.loop, after, c) <==>
      Seedable(l, after) && FirstInterpolates(l.block)
        && (Timed(l.block.loop) ==> OpsInterpolate(Shift(l.block, -1, true), after))
  {
    hide StartsFrom, AllPlain, RewriteOps, OpsInterpolate, SownOps, ExitOps, StateEntries, Interpolates, Sown;
    BodySown(Shift(l.block, 0, false), l.text, c, l.block.loop.body);
    StateSown(Shift(l.block, 0, false), l.text, c, l.block.loop.state);
    TailSown(l, c, after);
  }

  lemma DraftHasBases(loop: Repeat, after: seq<Op>, continuation: map<string, Json>, resume: Option<string>,
      text: Json -> string)
    returns (tail: string, base: Build)
    requires CompileDraft(Looping([], loop, after), continuation, resume, text).Ok?
    ensures Bases(loop, after, tail, base) && BlockOf(loop, continuation).Ok?
  {
    hide CompileOps, CompilePasses, CompileContinuation, BlockOf, Reach, SeedTail;
    var (entry, st1) := CompileOps(after, END, "", EMPTY).value;
    tail := entry;
    base := Reserve(st1, Some(loop.id)).value.1;
  }

  /** The stages of a block stand on the repeat's base. */
  lemma StagesOnBase(plan: Plan, loop: Repeat, after: seq<Op>, b: Block, text: Json -> string, s: Stages, tail: string,
      base: Build)
    requires Compiles(plan, [], loop, after, b, text, s) && Bases(loop, after, tail, base)
    ensures s.base == base && s.l == LayoutOf(b, tail, base, text)
  {
    hide CompileOps, CompilePasses, CompileContinuation, Reach;
  }

  /** The rest of a repeat compiles exactly when the carry it resumes from has every seed. */
  lemma ResumedCompiles(loop: Repeat, after: seq<Op>, last: Carry, text: Json -> string)
    requires LoopingOk([], loop, after) && SayableIds(loop, after)
      && Compile(Looping([], loop, after), map[], None, text).Ok?
    requires Carried(loop, last) && (last.remaining.Some? ==> last.remaining.value <= Total(loop).value)
    ensures Compile(Looping([], loop, after), CarryFields(last), Some(loop.id), text).Ok? <==>
      Resumes(loop, after, Resume(last))
  {
    hide CompileDraft, BlockOf, CarryFields, Bases, Reach, OpsOk, AllPlain, StateOk, ResolveAll, Carried, SownOps, Sown,
      Seedable, FirstInterpolates, OpsInterpolate, OpsWorded, Compiles;
    var plan := Looping([], loop, after);
    BlockOfCarry(loop, last);
    var tail, base := DraftHasBases(loop, after, map[], None, text);
    FirstShows(loop, after, text);
    assert last.state.Obj? by { CarriedState(loop, last); }
    if BlockOf(loop, CarryFields(last)).Ok? {
      var b := BlockOf(loop, CarryFields(last)).value;
      ShorterBlock(loop, last);
      ResumedBlock(loop, last);
      var l := LayoutOf(b, tail, base, text);
      StateIsPlain(loop, after);
      SownBlock(l, after, Resume(last));
      if Resumes(loop, after, Resume(last)) {
        ResumedDraft(loop, after, last, text, tail, base);
        var s := CompileStages([], loop, after, CarryFields(last), Some(loop.id), text, b);
        StagesOnBase(plan, loop, after, b, text, s, tail, base);
        BlockResolves(plan, loop, after, b, text, s);
      }
      if CompileDraft(plan, CarryFields(last), Some(loop.id), text).Ok? {
        var s := CompileStages([], loop, after, CarryFields(last), Some(loop.id), text, b);
        StagesOnBase(plan, loop, after, b, text, s, tail, base);
        if ResolveAll(s.fin).Ok? { BlockShows(plan, loop, after, b, text, s); }
      }
    } else if CompileDraft(plan, CarryFields(last), Some(loop.id), text).Ok? {
      var tail', base' := DraftHasBases(loop, after, CarryFields(last), Some(loop.id), text);
      assert false;
    }
  }

  lemma StateIsPlain(loop: Repeat, after: seq<Op>)
    requires LoopingOk([], loop, after)
    ensures forall i | 0 <= i < |loop.state| :: PlainExpr(loop.state[i].value)
  {
  }

  lemma CarriedState(loop: Repeat, c: Carry)
    requires Carried(loop, c)
    ensures c.state.Obj? && c.remaining != Some(0)
  {
  }

  lemma FirstShows(loop: Repeat, after: seq<Op>, text: Json -> string)
    requires LoopingOk([], loop, after) && Compile(Looping([], loop, after), map[], None, text).Ok?
    ensures OpsWorded(loop.body) && OpsWorded(after) && forall i | 0 <= i < |loop.state| :: Worded(loop.state[i].value)
    ensures BlockOf(loop, map[]).Ok? && CompileDraft(Looping([], loop, after), map[], None, text).Ok?
  {
    hide CompileDraft, BlockOf, Reach, OpsOk, AllPlain, StateOk, ResolveAll, Seedable, FirstInterpolates,
      OpsInterpolate, OpsWorded, Compiles;
    var plan := Looping([], loop, after);
    var tail, base := DraftHasBases(loop, after, map[], None, text);
    assert Total(loop) != Some(0);
    FreshBlock(loop);
    var b := BlockOf(loop, map[]).value;
    assert b.remaining != Some(0) by { FreshRemaining(loop); }
    var s := CompileStages([], loop, after, map[], None, text, b);
    BlockShows(plan, loop, after, b, text, s);
  }

  lemma FreshRemaining(loop: Repeat)
    requires BlockOf(loop, map[]).Ok?
    ensures BlockOf(loop, map[]).value.remaining == Total(loop)
  {
  }
}
