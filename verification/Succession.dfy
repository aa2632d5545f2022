/** A repeat whose first block compiled goes on compiling: the names of a resumed block are among
    those of the first, so only its seeds decide. */
module Succession {
  import opened Json
  import opened Plan
  import opened Graph
  import opened Meaning
  import opened Compiler
  import opened Discipline
  import opened Exiting
  import opened Construction
  import opened Growth
  import opened Placement
  import opened PassWalk
  import opened Reserving
  import opened PassNames
  import opened Assembly
  import opened Handover
  import opened Chain

  // ---------------------------------------------------------------- names of a shorter block

  /** Layouts of the same repeat that differ in the length of the block and in its seeds. */
  ghost predicate SameRepeat(first: Layout, next: Layout)
  {
    && next.block.loop == first.block.loop && next.tail == first.tail && next.source == first.source
    && next.after == first.after && next.text == first.text
    && 0 < next.block.chunk <= first.block.chunk
  }

  /** The pass of the first block whose own names a pass of the next block has. */
  ghost function Place(first: Layout, next: Layout, i: nat): nat
    requires SameRepeat(first, next)
  {
    if i + 1 == next.block.chunk then first.block.chunk - 1 else i
  }

  lemma SameExits(first: Layout, next: Layout, k: int)
    requires SameRepeat(first, next) && k >= -1
    ensures ExitIds(next, k) == ExitIds(first, k)
  {
    forall key | key in first.tail ensures ExitId(next, k, key) == ExitId(first, k, key) {
    }
  }

  lemma SameNames(first: Layout, next: Layout, i: nat)
    requires SameRepeat(first, next) && i < next.block.chunk
    ensures OwnNames(next, i) == OwnNames(first, Place(first, next, i)) && WayNames(next, i) == WayNames(first, i)
  {
    var loop := first.block.loop;
    forall x ensures NameOf(x, i, next.block.chunk) == NameOf(x, Place(first, next, i), first.block.chunk) {
    }
    SameExits(first, next, i - 1);
  }

  lemma NextApart(first: Layout, next: Layout, i: nat)
    requires SameRepeat(first, next) && AllApart(first, first.block.chunk) && i < next.block.chunk
    ensures Apart(next, i)
  {
    hide OwnNames, WayNames;
    SameNames(first, next, i);
    var p := Place(first, next, i);
    assert Apart(first, i) && Apart(first, p);
    if p != i { assert AllNames(first, i) !! AllNames(first, p); }
    assert i > 0 ==>
      NameOf(first.block.loop.id + "_wait", i - 1, next.block.chunk)
      == NameOf(first.block.loop.id + "_wait", i - 1, first.block.chunk);
    SameExits(first, next, i - 1);
  }

  lemma NextTwoApart(first: Layout, next: Layout, i: nat, j: nat)
    requires SameRepeat(first, next) && AllApart(first, first.block.chunk) && i < j < next.block.chunk
    ensures AllNames(next, i) !! AllNames(next, j)
  {
    hide OwnNames, WayNames;
    SameNames(first, next, i);
    SameNames(first, next, j);
    var p := Place(first, next, j);
    assert AllNames(first, i) !! AllNames(first, j);
    assert AllNames(first, i) !! AllNames(first, p);
  }

  /** The names of a shorter block are as distinct and as free as those of the first. */
  lemma NextNames(first: Layout, next: Layout, ids: set<string>, ids': set<string>)
    requires SameRepeat(first, next) && SayableLoop(next) && AllApart(first, first.block.chunk)
      && AllFree(first, first.block.chunk, ids)
    requires forall x | x in ids' && !AutoLike(x) :: x in ids
    ensures AllApart(next, next.block.chunk) && AllFree(next, next.block.chunk, ids')
  {
    hide OwnNames, WayNames, Apart, SayableLoop;
    forall i | 0 <= i < next.block.chunk ensures Apart(next, i) { NextApart(first, next, i); }
    forall i, j | 0 <= i < j < next.block.chunk
      ensures AllNames(next, i) !! AllNames(next, j) { NextTwoApart(first, next, i, j); }
    forall i | 0 <= i < next.block.chunk ensures AllNames(next, i) !! ids' {
      SameNames(first, next, i);
      NamesAreSayable(next, i);
      assert AllNames(first, i) !! ids && AllNames(first, Place(first, next, i)) !! ids;
      forall x | x in AllNames(next, i) ensures x !in ids' { assert Sayable(x); }
    }
  }

  // ---------------------------------------------------------------- source without seeds

  /** Nothing rewritten for this pass or exit becomes a seed. */
  predicate Seedless(s: Shift) { if s.exit then s.index >= 0 else s.index > 0 }

  lemma {:induction false} SeedlessExpr(s: Shift, text: Json -> string, owner: Option<string>, e: Expr)
    requires Seedless(s) && PlainExpr(e) && (s.exit ==> owner == None)
    ensures RewriteExpr(s, text, owner, e).Ok?
    decreases e, 0
  {
    match e
    case List(items) => forall i | 0 <= i < |items| { SeedlessExpr(s, text, owner, items[i]); }
    case Dict(entries) => forall k | k in entries { SeedlessExpr(s, text, owner, entries[k]); }
    case Template(parts) => SeedlessParts(s, text, owner, parts);
    case _ =>
  }

  lemma {:induction false} SeedlessParts(s: Shift, text: Json -> string, owner: Option<string>, parts: seq<Expr>)
    requires Seedless(s) && (forall i | 0 <= i < |parts| :: PlainExpr(parts[i])) && (s.exit ==> owner == None)
    ensures RewriteParts(s, text, owner, parts).Ok?
    decreases parts, 1
  {
    if parts != [] {
      SeedlessExpr(s, text, owner, parts[0]);
      SeedlessParts(s, text, owner, parts[1..]);
    }
  }

  lemma {:induction false} SeedlessCond(s: Shift, owner: Option<string>, c: Cond)
    requires Seedless(s) && PlainCond(c) && (s.exit ==> owner == None)
    ensures RewriteCond(s, owner, c).Ok?
    decreases c, 0
  {
    match c
    case Group(items) => SeedlessConds(s, owner, items);
    case Operator(_, args) => SeedlessConds(s, owner, args);
    case _ =>
  }

  lemma {:induction false} SeedlessConds(s: Shift, owner: Option<string>, cs: seq<Cond>)
    requires Seedless(s) && (forall i | 0 <= i < |cs| :: PlainCond(cs[i])) && (s.exit ==> owner == None)
    ensures RewriteConds(s, owner, cs).Ok?
    decreases cs, 1
  {
    if cs != [] {
      SeedlessCond(s, owner, cs[0]);
      SeedlessConds(s, owner, cs[1..]);
    }
  }

  lemma {:induction false} SeedlessOps(s: Shift, text: Json -> string, ops: seq<Op>)
    requires s.index > 0 && !s.exit && AllPlain(ops)
    ensures RewriteOps(s, text, ops).Ok?
    decreases ops, 1
  {
    if ops != [] {
      SeedlessOp(s, text, ops[0]);
      SeedlessOps(s, text, ops[1..]);
    }
  }

  lemma {:induction false} SeedlessOp(s: Shift, text: Json -> string, op: Op)
    requires s.index > 0 && !s.exit && Plain(op)
    ensures RewriteOp(s, text, op).Ok?
    decreases op, 0
  {
    match op
    case Call(id, _, args, _) => SeedlessExpr(s, text, id, args);
    case Wait(_, _) =>
    case Sequence(steps) => SeedlessOps(s, text, steps);
    case Condition(id, when, steps, otherwise) =>
      SeedlessCond(s, id, when);
      SeedlessOps(s, text, steps);
      SeedlessOps(s, text, otherwise);
  }

  lemma {:induction false} SeedlessState(s: Shift, text: Json -> string, entries: seq<Retained>)
    requires s.index > 0 && !s.exit && forall i | 0 <= i < |entries| :: PlainExpr(entries[i].value)
    ensures StateEntries(s, text, entries).Ok?
    decreases entries
  {
    if entries != [] {
      SeedlessState(s, text, entries[..|entries| - 1]);
      SeedlessExpr(s, text, None, entries[|entries| - 1].value);
    }
  }

  lemma {:induction false} SeedlessExitOps(l: Layout, k: int, ops: seq<Op>)
    requires k >= 0 && AllPlain(ops)
    ensures ExitOps(l, k, ops).Ok?
    decreases ops, 1
  {
    if ops != [] {
      SeedlessExitOp(l, k, ops[0]);
      SeedlessExitOps(l, k, ops[1..]);
    }
  }

  lemma {:induction false} SeedlessExitOp(l: Layout, k: int, op: Op)
    requires k >= 0 && Plain(op)
    ensures ExitOp(l, k, op).Ok?
    decreases op, 0
  {
    var s := Shift(l.block, k, true);
    match op
    case Call(_, _, args, _) => SeedlessExpr(s, l.text, None, args);
    case Wait(_, _) =>
    case Sequence(steps) => SeedlessExitOps(l, k, steps);
    case Condition(_, when, steps, otherwise) =>
      SeedlessCond(s, None, when);
      SeedlessExitOps(l, k, steps);
      SeedlessExitOps(l, k, otherwise);
  }

  // ---------------------------------------------------------------- copying the after-steps

  predicate AllCopy(l: Layout, k: int, nodes: map<string, Draft>)
    requires k >= -1
  {
    forall id | id in nodes :: ExitNode(l, k, nodes[id]).Ok?
  }

  /** Steps that can be rewritten for an exit compile to nodes that can be. */
  lemma {:induction false} OpsCopy(l: Layout, k: int, ops: seq<Op>, after: string, scope: string, st: Build)
    requires k >= -1 && AllPlain(ops) && ExitOps(l, k, ops).Ok? && AllCopy(l, k, st.nodes)
      && CompileOps(ops, after, scope, st).Ok?
    ensures AllCopy(l, k, CompileOps(ops, after, scope, st).value.1.nodes)
    decreases ops, 1
  {
    hide AllCopy;
    if ops != [] {
      OpsCopy(l, k, ops[1..], after, scope, st);
      var (entry, st1) := CompileOps(ops[1..], after, scope, st).value;
      OpCopies(l, k, ops[0], entry, scope, st1);
    }
  }

  lemma {:induction false} OpCopies(l: Layout, k: int, op: Op, after: string, scope: string, st: Build)
    requires k >= -1 && Plain(op) && ExitOp(l, k, op).Ok? && AllCopy(l, k, st.nodes)
      && CompileOp(op, after, scope, st).Ok?
    ensures AllCopy(l, k, CompileOp(op, after, scope, st).value.1.nodes)
    decreases op, 0
  {
    hide AllCopy, ExitNode, ExitExpr, ExitCond;
    match op
    case Call(id, target, args, undo) =>
      var (nid, st1) := Reserve(st, id).value;
      CallCopies(l, k, target, args, after);
      AddCopies(l, k, st1, nid, Task(Capability(target, args), after, None), scope);
    case Wait(id, seconds) =>
      var (nid, st1) := Reserve(st, id).value;
      SleepCopies(l, k, seconds, after);
      AddCopies(l, k, st1, nid, Sleep(seconds, after), scope);
    case Sequence(steps) => OpsCopy(l, k, steps, after, scope, st);
    case Condition(id, when, steps, otherwise) =>
      var (nid, st1) := Reserve(st, id).value;
      OpsCopy(l, k, steps, after, scope, st1);
      var (yes, st2) := CompileOps(steps, after, scope, st1).value;
      OpsCopy(l, k, otherwise, after, scope, st2);
      var (no, st3) := CompileOps(otherwise, after, scope, st2).value;
      CaseCopies(l, k, when, yes, no);
      AddCopies(l, k, st3, nid, Switch([Case(when, yes)], no), scope);
  }

  lemma AddCopies(l: Layout, k: int, st: Build, id: string, node: Draft, scope: string)
    requires k >= -1 && AllCopy(l, k, st.nodes) && ExitNode(l, k, node).Ok?
    ensures AllCopy(l, k, Add(st, id, node, scope).nodes)
  {
  }

  lemma CallCopies(l: Layout, k: int, target: string, args: Expr, after: string)
    requires k >= -1 && ExitExpr(l, k, args).Ok?
    ensures ExitNode(l, k, Task(Capability(target, args), after, None)).Ok?
  {
    hide ExitExpr;
  }

  lemma SleepCopies(l: Layout, k: int, seconds: real, after: string)
    requires k >= -1
    ensures ExitNode(l, k, Sleep(seconds, after)).Ok?
  {
  }

  lemma CaseCopies(l: Layout, k: int, when: Cond, yes: string, no: string)
    requires k >= -1 && ExitCond(l, k, when).Ok?
    ensures ExitNode(l, k, Switch([Case(when, yes)], no)).Ok?
  {
    hide ExitCond;
    var cases := [Case(when, yes)];
    assert cases[1..] == [];
    assert ExitCases(l, k, cases[1..]) == Ok([]);
  }

  // ---------------------------------------------------------------- what a block needs to compile

  lemma TailCopies(l: Layout, k: int, base: Build, after: seq<Op>)
    requires k >= -1 && LaidOut(l, base) && AllPlain(after)
    requires CompileOps(after, END, "", EMPTY).Ok? && base.nodes == CompileOps(after, END, "", EMPTY).value.1.nodes
    ensures ExitOps(l, k, after).Ok? ==> Copyable(l, k)
  {
    if ExitOps(l, k, after).Ok? {
      assert AllCopy(l, k, EMPTY.nodes);
      OpsCopy(l, k, after, END, "", EMPTY);
    }
  }

  /** What a block that compiles has resolved: every seed of its first pass, and those of the
      after-steps behind an exit before that pass. */
  predicate Seedable(l: Layout, after: seq<Op>)
  {
    && BodyOf(l, 0).Ok? && StateEntries(Shift(l.block, 0, false), l.text, l.block.loop.state).Ok?
    && (Timed(l.block.loop) ==> ExitOps(l, -1, after).Ok?)
  }

  /** Ids the plan gives: none empty, the end, or like an automatic one. */
  predicate SayableIds(loop: Repeat, after: seq<Op>)
  {
    AllSayable(IdsOf(loop.body)) && AllSayable(IdsOf(after)) && Sayable(loop.id)
  }

  /** With its seeds resolved, a block fits. */
  lemma SeededFits(l: Layout, base: Build, after: seq<Op>)
    requires LaidOut(l, base) && AllPlain(after) && AllPlain(l.block.loop.body) && AllWellMade(l.block.loop.body)
    requires forall i | 0 <= i < |l.block.loop.state| :: PlainExpr(l.block.loop.state[i].value)
    requires CompileOps(after, END, "", EMPTY).Ok? && base.nodes == CompileOps(after, END, "", EMPTY).value.1.nodes
    requires Seedable(l, after)
    ensures AllFit(l, l.block.chunk)
  {
    hide LaidOut, Copyable, ExitOps, CompileOps;
    var loop := l.block.loop;
    forall i | 0 <= i < l.block.chunk ensures Fits(l, i) {
      if i > 0 {
        SeedlessOps(Shift(l.block, i, false), l.text, loop.body);
        SeedlessState(Shift(l.block, i, false), l.text, loop.state);
        SeedlessExitOps(l, i - 1, after);
      }
      assert TickInput(l.block, l.text, i).Ok?;
      TailCopies(l, i - 1, base, after);
    }
  }

  // ---------------------------------------------------------------- blocks

  function HandNames(b: Block): set<string>
  {
    if Continues(b) then {b.loop.id + "_continue", b.loop.id + "_boundary_wait"} else {}
  }

  predicate RepeatOk(l: Layout, plan: Plan, base: Build)
  {
    var c := CompileContinuation(l.block, plan, l.after, base);
    c.Ok? && CompilePasses(l, l.block.chunk, c.value.0, c.value.1).Ok?
  }

  lemma ContinuationGranted(b: Block, plan: Plan, after: string, st: Build)
    requires Tidy(st) && b.loop.id != ""
    ensures var r := CompileContinuation(b, plan, after, st);
      && (r.Ok? <==> HandNames(b) !! st.ids)
      && (r.Ok? ==> Adds(st, r.value.1, HandNames(b)) && r.value.1.exits == st.exits)
  {
    hide Tidy, Adds, Sayable, CarryExpr;
    if !Continues(b) {
      NothingAdded(st);
    } else {
      var continuation, boundary := b.loop.id + "_continue", b.loop.id + "_boundary_wait";
      BookkeepingIsSayable(b.loop.id);
      assert |continuation| != |boundary|;
      NameGranted(st, continuation);
      if Reserve(st, Some(continuation)).Ok? {
        TwoGranted(st, continuation, boundary);
        var st1 := Reserve(st, Some(continuation)).value.1;
        if Reserve(st1, Some(boundary)).Ok? {
          NameGranted(st1, boundary);
          var st2 := Reserve(st1, Some(boundary)).value.1;
          var node: Draft := Task(Replan(Cached(plan, b.loop.id), CarryExpr(b)), END, None);
          AddsNode(st, st2, HandNames(b), continuation, node, "");
          AddsNode(st, Add(st2, continuation, node, ""), HandNames(b), boundary, Sleep(b.loop.interval, continuation),
            "");
        }
      }
    }
  }

  /** A block compiles exactly when it fits and all the names it reserves are distinct and free. */
  lemma RepeatGranted(l: Layout, plan: Plan, base: Build)
    requires Tidy(base) && SayableLoop(l) && base.exits == map[]
    ensures RepeatOk(l, plan, base) <==>
      HandNames(l.block) !! base.ids && AllFit(l, l.block.chunk) && AllApart(l, l.block.chunk)
      && AllFree(l, l.block.chunk, base.ids + HandNames(l.block))
  {
    hide Tidy, Adds, AllFit, AllApart, AllNames, CompilePasses, CompileContinuation, SayableLoop, HandNames;
    assert l.block.loop.id != "" by { NamedLoop(l); }
    ContinuationGranted(l.block, plan, l.after, base);
    var c := CompileContinuation(l.block, plan, l.after, base);
    if c.Ok? {
      var st := c.value.1;
      AddsTidy(base, st, HandNames(l.block));
      PassesGranted(l, l.block.chunk, c.value.0, st);
      forall i | 0 <= i < l.block.chunk ensures AllNames(l, i) !! st.ids <==>
        AllNames(l, i) !! base.ids + HandNames(l.block) {
        NamesAreSayable(l, i);
        FreeLater(base, st, HandNames(l.block), AllNames(l, i));
      }
    }
  }

  lemma NamedLoop(l: Layout)
    requires SayableLoop(l)
    ensures l.block.loop.id != ""
  {
  }

  /** Where a repeat's blocks are laid out: behind its after-steps, with its own id reserved. */
  predicate Bases(loop: Repeat, after: seq<Op>, tail: string, base: Build)
  {
    && CompileOps(after, END, "", EMPTY).Ok?
    && (var (entry, st1) := CompileOps(after, END, "", EMPTY).value;
        entry == tail && Reserve(st1, Some(loop.id)).Ok? && base == Reserve(st1, Some(loop.id)).value.1)
  }

  function LayoutOf(b: Block, tail: string, base: Build, text: Json -> string): Layout
  {
    Layout(b, tail, Reach(base.nodes, [tail], {}), base.nodes, text)
  }

  lemma BaseIsTidy(loop: Repeat, after: seq<Op>, tail: string, base: Build)
    requires Bases(loop, after, tail, base) && SayableIds(loop, after) && AllPlain(after)
    ensures Tidy(base) && base.exits == map[] && base.nodes == CompileOps(after, END, "", EMPTY).value.1.nodes
    ensures AllWellMade(after)
  {
    hide CompileOps;
    PlainHasNoParallel(after);
    assert Tidy(EMPTY);
    OpsGranted(after, END, "", EMPTY);
    NameReserve(CompileOps(after, END, "", EMPTY).value.1, loop.id);
  }

  lemma BlockIsSayable(b: Block, after: seq<Op>, tail: string, base: Build, text: Json -> string)
    requires Bases(b.loop, after, tail, base) && SayableIds(b.loop, after) && AllPlain(after) && AllPlain(b.loop.body)
    ensures SayableLoop(LayoutOf(b, tail, base, text)) && LayoutOf(b, tail, base, text).tail <= base.nodes.Keys
    ensures b.chunk > 0 ==> LaidOut(LayoutOf(b, tail, base, text), base)
  {
    hide CompileOps, Reach, AllPlain;
    PlainHasNoParallel(b.loop.body);
    PlainHasNoParallel(after);
    assert Sound(EMPTY);
    CompileAllExtends(after, END, "", EMPTY);
    NoParallelsKeepJoins(after, END, "", EMPTY);
    CompileShaped(after, END, "", EMPTY, IdsOf(after));
    var st1 := CompileOps(after, END, "", EMPTY).value.1;
    ReserveLater(st1, b.loop.id);
    ReachIsClosed(base.nodes, [tail], {});
  }

  /** If a first block compiled, a later one does as soon as its seeds resolve. */
  lemma NextRepeatOk(first: Layout, next: Layout, plan: Plan, base: Build, after: seq<Op>)
    requires RepeatOk(first, plan, base) && SameRepeat(first, next)
      && (Continues(next.block) ==> Continues(first.block))
    requires Tidy(base) && base.exits == map[] && SayableLoop(first) && SayableLoop(next) && LaidOut(next, base)
    requires CompileOps(after, END, "", EMPTY).Ok? && base.nodes == CompileOps(after, END, "", EMPTY).value.1.nodes
    requires AllPlain(after) && AllPlain(next.block.loop.body) && Seedable(next, after)
    requires forall i | 0 <= i < |next.block.loop.state| :: PlainExpr(next.block.loop.state[i].value)
    ensures RepeatOk(next, plan, base)
  {
    hide Tidy, AllApart, AllFree, RepeatOk, SayableLoop, LaidOut, CompileOps, Seedable, AllPlain;
    RepeatGranted(first, plan, base);
    RepeatGranted(next, plan, base);
    assert Fits(first, 0);
    SeededFits(next, base, after);
    NextNames(first, next, base.ids + HandNames(first.block), base.ids + HandNames(next.block));
  }

  lemma DraftIsRepeat(loop: Repeat, after: seq<Op>, continuation: map<string, Json>, resume: Option<string>,
      text: Json -> string,
                      b: Block, tail: string, base: Build)
    requires Bases(loop, after, tail, base) && BlockOf(loop, continuation) == Ok(b) && b.remaining != Some(0)
    requires resume.None? || resume == Some(loop.id)
    ensures CompileDraft(Looping([], loop, after), continuation, resume, text).Ok? <==>
      RepeatOk(LayoutOf(b, tail, base, text), Looping([], loop, after), base)
  {
    hide CompileOps, CompilePasses, CompileContinuation, BlockOf, Reach;
    var plan, l := Looping([], loop, after), LayoutOf(b, tail, base, text);
    var st1 := CompileOps(after, END, "", EMPTY).value.1;
    var c := CompileContinuation(b, plan, tail, base);
    if c.Ok? && CompilePasses(l, b.chunk, c.value.0, c.value.1).Ok? {
      var (entry, st') := CompilePasses(l, b.chunk, c.value.0, c.value.1).value;
      assert CompileRepeat(plan, loop, continuation, text, tail, st1) == Ok((entry, st'));
      NothingToCompile(entry, st');
    }
  }

  lemma ShorterBlock(loop: Repeat, last: Carry)
    requires BlockOf(loop, map[]).Ok? && Carried(loop, last) && BlockOf(loop, CarryFields(last)).Ok?
      && Total(loop) != Some(0)
    ensures var a, b := BlockOf(loop, map[]).value, BlockOf(loop, CarryFields(last)).value;
      && a.loop == loop == b.loop && 0 < b.chunk <= a.chunk && a.remaining != Some(0)
      && b.remaining == last.remaining != Some(0)
      && (Continues(b) ==> Continues(a))
  {
    FreshBlock(loop);
    ResumedBlock(loop, last);
    ResumedRemaining(loop, last);
  }

  /** A resumed block is laid out when the first was and its seeds resolve. */
  lemma ResumedDraft(loop: Repeat, after: seq<Op>, last: Carry, text: Json -> string, tail: string, base: Build)
    requires LoopingOk([], loop, after) && SayableIds(loop, after) && Bases(loop, after, tail, base)
    requires CompileDraft(Looping([], loop, after), map[], None, text).Ok? && BlockOf(loop, map[]).Ok?
    requires Carried(loop, last) && BlockOf(loop, CarryFields(last)).Ok?
    requires Seedable(LayoutOf(BlockOf(loop, CarryFields(last)).value, tail, base, text), after)
    ensures CompileDraft(Looping([], loop, after), CarryFields(last), Some(loop.id), text).Ok?
  {
    hide CompileDraft, BlockOf, CarryFields, Bases, Reach, OpsOk, AllPlain, Seedable, Carried, RepeatOk, Tidy, LaidOut,
      SayableLoop;
    var a, b := BlockOf(loop, map[]).value, BlockOf(loop, CarryFields(last)).value;
    ShorterBlock(loop, last);
    BaseIsTidy(loop, after, tail, base);
    BlockIsSayable(a, after, tail, base, text);
    BlockIsSayable(b, after, tail, base, text);
    DraftIsRepeat(loop, after, map[], None, text, a, tail, base);
    DraftIsRepeat(loop, after, CarryFields(last), Some(loop.id), text, b, tail, base);
    BasesCompile(loop, after, tail, base);
    NextRepeatOk(LayoutOf(a, tail, base, text), LayoutOf(b, tail, base, text), Looping([], loop, after), base, after);
  }

  lemma BasesCompile(loop: Repeat, after: seq<Op>, tail: string, base: Build)
    requires Bases(loop, after, tail, base)
    ensures CompileOps(after, END, "", EMPTY).Ok?
  {
  }
}
