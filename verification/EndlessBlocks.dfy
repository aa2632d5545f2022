/** A block without a number of passes can be left after any of them, so that its after-steps, if
    they read the repeat's outputs, are reported by the initialisation check. */
module EndlessBlocks {
  import opened Json
  import opened Plan
  import opened Graph
  import opened Meaning
  import opened Compiler
  import opened Discipline
  import opened InitCheck
  import opened Shifting
  import opened Realization
  import opened Growth
  import opened Copies
  import opened Placement
  import opened Distinctness
  import opened PassWalk
  import opened Assembly
  import opened Timeliness
  import opened Seeding
  import opened FirstPasses
  import opened Sowing
  import opened FirstBlocks
  import Chain
  import WellFormed

  // ---------------------------------------------------------------- ways around a node

  /** Some way to the key neither passes x nor a guard that guarantees it. */
  ghost predicate Avoids(g: Native, entry: string, key: string, x: string)
  {
    exists t :: Trail(g, entry, t, key) && x !in Established(g, t)
  }

  lemma AvoidsOn(g: Native, entry: string, key: string, x: string, next: string)
    requires Avoids(g, entry, key, x) && key in g && next in g && next != END && next != ""
    requires Edge(next, {}) in Edges(g[key]) && (x == key ==> !g[key].Task? && !g[key].Join?)
    ensures Avoids(g, entry, next, x)
  {
    var t: seq<Route> :| Trail(g, entry, t, key) && x !in Established(g, t);
    TrailSnoc(g, entry, t, Route(key, {}), next);
  }

  /** The graph a build resolves to. */
  ghost predicate Graphed(st: Build, g: Native)
  {
    ResolveAll(st) == Ok(g) && ProperNames(g)
  }

  lemma NodeIn(st: Build, g: Native, key: string)
    requires Graphed(st, g) && key in st.nodes
    ensures key in g && key != END && key != "" && ResolveNode(st, ScopeOf(st, key), st.nodes[key]) == Ok(g[key])
  {
  }

  lemma TaskOn(st: Build, g: Native, entry: string, key: string, x: string, input: Expr, next: string, target: string,
      undo: Option<Expr>)
    requires Graphed(st, g) && Avoids(g, entry, key, x) && key != x && next in st.nodes
    requires Holds(st, key, Task(Capability(target, input), next, undo), "")
    ensures Avoids(g, entry, next, x)
  {
    hide Resolve, Avoids, ResolveAll;
    NodeIn(st, g, key);
    NodeIn(st, g, next);
    assert Successors(g[key]) == [next] by { OneTarget(g[key], next); }
    assert Edges(g[key])[0] == Edge(next, {});
    AvoidsOn(g, entry, key, x, next);
  }

  lemma OneTarget(node: NativeNode, next: string)
    requires Targeted(node) == [next] && next != END && next != ""
    ensures Successors(node) == [next]
  {
    assert [next][1..] == [];
    assert Proper([next]) == [next] + Proper([next][1..]);
  }

  lemma SleepOn(st: Build, g: Native, entry: string, key: string, x: string, seconds: real, next: string)
    requires Graphed(st, g) && Avoids(g, entry, key, x) && next in st.nodes && Holds(st, key, Sleep(seconds, next), "")
    ensures Avoids(g, entry, next, x)
  {
    hide Resolve, Avoids, ResolveAll;
    NodeIn(st, g, key);
    NodeIn(st, g, next);
    assert Successors(g[key]) == [next] by { OneTarget(g[key], next); }
    assert Edges(g[key])[0] == Edge(next, {});
    AvoidsOn(g, entry, key, x, next);
  }

  /** The default of a switch is taken under no guard. */
  lemma DefaultOn(st: Build, g: Native, entry: string, key: string, x: string, when: Cond, yes: string, no: string)
    requires Graphed(st, g) && Avoids(g, entry, key, x) && no in st.nodes
      && Holds(st, key, Switch([Case(when, yes)], no), "")
    ensures Avoids(g, entry, no, x)
  {
    hide Resolve, Avoids, ResolveAll, ResolveCond;
    NodeIn(st, g, key);
    NodeIn(st, g, no);
    assert Edges(g[key])[|g[key].cases|] == Edge(no, {});
    AvoidsOn(g, entry, key, x, no);
  }

  /** So is a case whose test is that a tick is done. */
  lemma DoneOn(st: Build, g: Native, entry: string, key: string, x: string, node: string, yes: string, no: string)
    requires Graphed(st, g) && Avoids(g, entry, key, x) && yes in st.nodes
      && Holds(st, key, Switch([Case(DoneTest(node), yes)], no), "")
    ensures Avoids(g, entry, yes, x)
  {
    hide Avoids, ResolveAll;
    NodeIn(st, g, key);
    NodeIn(st, g, yes);
    var cases := [Case(DoneTest(node), yes)];
    assert cases[1..] == [];
    assert ResolveCases(st, "", cases[1..]) == Ok([]);
    var when := g[key].cases[0].when;
    assert when.Operator? && when.op == "==";
    assert Edges(g[key])[0] == Edge(yes, Guaranteed(when));
    AvoidsOn(g, entry, key, x, yes);
  }

  // ---------------------------------------------------------------- ways through operations

  lemma {:induction false} EntryIsNode(st: Build, vis: set<string>, ops: seq<Op>, entry: string, after: string)
    requires RealizesAll(st, vis, ops, entry, after, "") && after in st.nodes && NoParallels(ops)
    ensures entry in st.nodes
    decreases ops, 1
  {
    if ops != [] {
      var mid :| Realizes(st, vis, ops[0], entry, mid, "") && RealizesAll(st, vis, ops[1..], mid, after, "");
      EntryIsNode(st, vis, ops[1..], mid, after);
      if ops[0].Sequence? { EntryIsNode(st, vis, ops[0].steps, entry, mid); }
    }
  }

  lemma {:induction false} OpAvoids(st: Build, g: Native, vis: set<string>, op: Op, start: string, entry: string,
      after: string, x: string)
    requires Realizes(st, vis, op, entry, after, "") && after in st.nodes && NoParallel(op) && Graphed(st, g)
    requires x in vis && x !in Ids(op) && Avoids(g, start, entry, x)
    ensures Avoids(g, start, after, x)
    decreases op, 0
  {
    hide Avoids, Graphed;
    match op
    case Call(id, target, args, undo) => TaskOn(st, g, start, entry, x, args, after, target, undo);
    case Wait(id, seconds) => SleepOn(st, g, start, entry, x, seconds, after);
    case Sequence(steps) => OpsAvoid(st, g, vis, steps, start, entry, after, x);
    case Condition(id, when, steps, otherwise) =>
      var yes, no :| Labelled(id, entry, vis) && Holds(st, entry, Switch([Case(when, yes)], no), "")
        && RealizesAll(st, vis, steps, yes, after, "") && RealizesAll(st, vis, otherwise, no, after, "");
      EntryIsNode(st, vis, otherwise, no, after);
      DefaultOn(st, g, start, entry, x, when, yes, no);
      OpsAvoid(st, g, vis, otherwise, start, no, after, x);
  }

  /** Operations can be gone through without what they do not name. */
  lemma {:induction false} OpsAvoid(st: Build, g: Native, vis: set<string>, ops: seq<Op>, start: string, entry: string,
      after: string, x: string)
    requires RealizesAll(st, vis, ops, entry, after, "") && after in st.nodes && NoParallels(ops) && Graphed(st, g)
    requires x in vis && x !in IdsOf(ops) && Avoids(g, start, entry, x)
    ensures Avoids(g, start, after, x)
    decreases ops, 1
  {
    hide Avoids, Graphed;
    if ops != [] {
      var mid :| Realizes(st, vis, ops[0], entry, mid, "") && RealizesAll(st, vis, ops[1..], mid, after, "");
      EntryIsNode(st, vis, ops[1..], mid, after);
      OpAvoids(st, g, vis, ops[0], start, entry, mid, x);
      OpsAvoid(st, g, vis, ops[1..], start, mid, after, x);
    }
  }

  // ---------------------------------------------------------------- what a resolved node refers to

  lemma {:induction false} RefsStay(st: Build, e: Expr)
    requires st.joins == map[] && Resolve(st, "", e).Ok?
    ensures ExprRefs(e) <= TmplRefs(Resolve(st, "", e).value)
    decreases e, 0
  {
    match e
    case Ref(ref, path) =>
      if ref !in ROOTS {
        var p := ["nodes", ref] + OUTPUT + path;
        assert Resolve(st, "", e).value == TWords([Hole(p)]) && PathNode(p) == {ref};
        assert [Hole(p)][0].Hole?;
      }
    case List(items) =>
      forall x | x in ExprRefs(e) ensures x in TmplRefs(Resolve(st, "", e).value) {
        var i :| 0 <= i < |items| && x in ExprRefs(items[i]);
        RefsStay(st, items[i]);
        assert x in TmplRefs(Resolve(st, "", e).value.items[i]);
      }
    case Dict(entries) =>
      forall x | x in ExprRefs(e) ensures x in TmplRefs(Resolve(st, "", e).value) {
        var k :| k in entries && x in ExprRefs(entries[k]);
        RefsStay(st, entries[k]);
        assert x in TmplRefs(Resolve(st, "", e).value.entries[k]);
      }
    case Template(parts) => PartsStay(st, parts);
    case _ =>
  }

  lemma {:induction false} PartsStay(st: Build, parts: seq<Expr>)
    requires st.joins == map[] && ResolveParts(st, "", parts).Ok?
    ensures ExprRefs(Template(parts)) <= TmplRefs(TWords(ResolveParts(st, "", parts).value))
    decreases parts, 1
  {
    if parts != [] {
      RefsStay(st, parts[0]);
      PartsStay(st, parts[1..]);
      var first, rest := Resolve(st, "", parts[0]).value, ResolveParts(st, "", parts[1..]).value;
      forall x | x in ExprRefs(Template(parts)) ensures x in TmplRefs(TWords(first.pieces + rest)) {
        var i :| 0 <= i < |parts| && x in ExprRefs(parts[i]);
        if i == 0 {
          assert x in TmplRefs(first);
          var j :| 0 <= j < |first.pieces| && first.pieces[j].Hole? && x in PathNode(first.pieces[j].path);
          assert (first.pieces + rest)[j] == first.pieces[j];
        } else {
          assert parts[1..][i - 1] == parts[i];
          assert x in TmplRefs(TWords(rest));
          var j :| 0 <= j < |rest| && rest[j].Hole? && x in PathNode(rest[j].path);
          assert (first.pieces + rest)[|first.pieces| + j] == rest[j];
        }
      }
    }
  }

  // ---------------------------------------------------------------- endless blocks

  /** The first pass leads to the after-steps past every output of the block's last pass. */
  lemma FirstPassLeaves(sc: Scene, g: Native, arrival: string, nxt: string, x: string)
    requires PassPlaced(sc, 0, arrival, nxt) && Endless(sc.l.block.loop, sc.l.block.remaining) && sc.l.block.chunk > 1
    requires Graphed(sc.fin, g) && sc.vis == Plainly(sc.fin) && AllPlain(sc.l.block.loop.body)
      && sc.l.after in sc.fin.nodes
    requires x in LoopIds(sc.l.block.loop)
      && Distinct(sc.l, sc.base, sc.fin, PairsFrom(sc.l.block.loop, 0, sc.l.block.chunk))
    ensures Avoids(g, arrival, sc.l.after, x)
  {
    hide RealizesAll, AllPlain, TickInput, Avoids, Graphed, DoneTest;
    var l, b := sc.l, sc.l.block;
    var entry, first :|
      && TickPlaced(sc, 0, nxt) && ClockPlaced(sc, 0) && BodyPlaced(sc, 0, entry)
      && FrontPlaced(sc, 0, entry, first) && PausePlaced(sc, 0, first, arrival);
    var tick, check := Checked(b, "_tick", 0), Checked(b, "_check", 0);
    LastIsLater(sc, x);
    PlainHasNoParallel(b.loop.body);
    RewrittenShape(Shift(b, 0, false), l.text, b.loop.body);
    AvoidsNothing(g, arrival, x);
    OpsAvoid(sc.fin, g, sc.vis, BodyOf(l, 0).value, arrival, entry, tick, x);
    var target :| Holds(sc.fin, check, Switch([Case(DoneTest(tick), target)], nxt), "")
      && if Timed(b.loop) then ExitPlaced(sc, 0, target) else target == l.after;
    TaskOn(sc.fin, g, arrival, tick, x, TickInput(b, l.text, 0).value, check, CHAIN_STEP, None);
    DoneOn(sc.fin, g, arrival, check, x, tick, l.after, nxt);
  }

  lemma AvoidsNothing(g: Native, entry: string, x: string)
    ensures Avoids(g, entry, entry, x)
  {
    var start: seq<Route> := [];
    assert Trail(g, entry, start, entry);
  }

  /** An id of the repeat names a node of the last pass, and none of the first. */
  lemma LastIsLater(sc: Scene, x: string)
    requires x in LoopIds(sc.l.block.loop)
      && Distinct(sc.l, sc.base, sc.fin, PairsFrom(sc.l.block.loop, 0, sc.l.block.chunk))
    requires sc.l.block.chunk > 1 && sc.vis == Plainly(sc.fin)
    ensures x in sc.vis && x !in sc.base.ids && forall y | y in LoopIds(sc.l.block.loop) ::
      NameOf(y, 0, sc.l.block.chunk) != x
  {
    var b := sc.l.block;
    var last := (x, b.chunk - 1);
    assert last in PairsFrom(b.loop, 0, b.chunk);
    assert NameAt(b, last) == x;
    forall y | y in LoopIds(b.loop) ensures NameOf(y, 0, b.chunk) != x {
      var p := (y, 0);
      assert p in PairsFrom(b.loop, 0, b.chunk);
      assert NameAt(b, p) == NameOf(y, 0, b.chunk);
    }
  }

  lemma NoJoins(plan: Plan, loop: Repeat, after: seq<Op>, b: Block, text: Json -> string, s: Stages)
    requires Compiles(plan, [], loop, after, b, text, s) && LoopingOk([], loop, after)
    ensures s.fin.joins == map[]
  {
    hide CompilePasses, CompileContinuation, CompileOps, RealizesAll, PassesPlaced, Reach, Reserve, OpsOk, AllPlain,
      StateOk;
    StagesHold(plan, [], loop, after, b, text, s);
  }

  lemma CallRefersTo(st: Build, g: Native, key: string, op: Op, next: string, x: string)
    requires Graphed(st, g) && st.joins == map[] && op.Call? && Realizes(st, Plainly(st), op, key, next, "")
      && x in ExprRefs(op.args)
    ensures key in g && x in BodyRefs(g[key])
  {
    hide ResolveAll, Resolve, ExprRefs, TmplRefs;
    NodeIn(st, g, key);
    RefsStay(st, op.args);
  }

  lemma Reported(g: Native, entry: string, key: string, x: string)
    requires Avoids(g, entry, key, x) && key in g && x in BodyRefs(g[key])
    ensures !NothingMissing(g, entry)
  {
    var t: seq<Route> :| Trail(g, entry, t, key) && x !in Established(g, t);
    assert Reachable(g, entry, key);
    assert !OnEveryTrail(g, entry, key, x);
  }

  /** If any call of an endless block's after-steps reads an output of the repeat, the check finds that
      output missing. */
  lemma EndlessMisses(loop: Repeat, after: seq<Op>, continuation: map<string, Json>, resume: Option<string>,
      text: Json -> string, i: nat, x: string)
    requires Compile(Looping([], loop, after), continuation, resume, text).Ok? && LoopingOk([], loop, after)
    requires Endless(loop, Remaining(loop, continuation))
    requires i < |after| && after[i].Call? && x in ExprRefs(after[i].args) && x in LoopIds(loop)
    ensures var c := Compile(Looping([], loop, after), continuation, resume, text).value;
      !NothingMissing(c.graph, c.entry)
  {
    hide CompileDraft, ResolveAll, LoopingOk, NothingMissing, WellFormed.WellFormed, BlockOf, Remaining, Compiles,
      CompileOps, CompileRepeat, LoopIds, ExprRefs;
    var plan := Looping([], loop, after);
    var c, built := Compile(plan, continuation, resume, text).value,
      CompileDraft(plan, continuation, resume, text).value;
    var b := EndlessBlock(loop, after, continuation, resume, text);
    var s := Chain.CompileStages([], loop, after, continuation, resume, text, b);
    WellFormed.CompiledIsWellFormed(plan, continuation, resume, text);
    StageMisses(plan, loop, after, b, text, s, c.graph, i, x);
  }

  lemma EndlessBlock(loop: Repeat, after: seq<Op>, continuation: map<string, Json>, resume: Option<string>,
      text: Json -> string) returns (b: Block)
    requires CompileDraft(Looping([], loop, after), continuation, resume, text).Ok?
      && Endless(loop, Remaining(loop, continuation))
    ensures BlockOf(loop, continuation) == Ok(b) && b.loop == loop && b.remaining.None? && b.chunk == CHUNK
  {
    hide CompileOps, CompilePasses, CompileContinuation, SeedTail, Reach;
    b := BlockOf(loop, continuation).value;
  }

  /** Operations that stand in a row stand in two. */
  lemma {:induction false} RowSplits(st: Build, vis: set<string>, ops: seq<Op>, entry: string, after: string, i: nat)
    returns (mid: string)
    requires RealizesAll(st, vis, ops, entry, after, "") && i <= |ops|
    ensures RealizesAll(st, vis, ops[..i], entry, mid, "") && RealizesAll(st, vis, ops[i..], mid, after, "")
    decreases ops
  {
    hide Realizes;
    if i == 0 {
      mid := entry;
      assert ops[..0] == [] && ops[0..] == ops;
    } else {
      var next :| Realizes(st, vis, ops[0], entry, next, "") && RealizesAll(st, vis, ops[1..], next, after, "");
      mid := RowSplits(st, vis, ops[1..], next, after, i - 1);
      assert ops[..i][0] == ops[0] && ops[..i][1..] == ops[1..][..i - 1] && ops[1..][i - 1..] == ops[i..];
    }
  }

  lemma {:induction false} FirstOnes(ops: seq<Op>, i: nat)
    requires AllPlain(ops) && i <= |ops|
    ensures NoParallels(ops[..i]) && IdsOf(ops[..i]) <= IdsOf(ops)
    decreases ops
  {
    PlainHasNoParallel(ops);
    if i > 0 {
      FirstOnes(ops[1..], i - 1);
      assert ops[..i][0] == ops[0] && ops[..i][1..] == ops[1..][..i - 1];
    }
  }

  lemma StageMisses(plan: Plan, loop: Repeat, after: seq<Op>, b: Block, text: Json -> string, s: Stages, g: Native,
      i: nat, x: string)
    requires Compiles(plan, [], loop, after, b, text, s) && LoopingOk([], loop, after) && b.remaining.None?
      && b.chunk == CHUNK && b.loop == loop
    requires ResolveAll(s.fin) == Ok(g) && WellFormed.WellFormed(g, s.first) && Endless(loop, b.remaining)
    requires i < |after| && after[i].Call? && x in ExprRefs(after[i].args) && x in LoopIds(loop)
    ensures !NothingMissing(g, s.first)
  {
    hide CompilePasses, CompileContinuation, CompileOps, PassPlaced, Reach, Reserve, OpsOk, AllPlain, StateOk, Distinct,
      ExprRefs, TmplRefs, ResolveNode, Trail, Established, RealizesAll, Avoids;
    StagesHold(plan, [], loop, after, b, text, s);
    var sc := Scene(s.base, s.fin, s.l, Plainly(s.fin));
    var mid :| PassPlaced(sc, 0, s.entry, mid) && PassesPlaced(sc, 1, b.chunk, mid, s.next);
    FirstOnes(after, i);
    var call := RowSplits(s.fin, Plainly(s.fin), after, s.l.after, END, i);
    var next := CallStands(s.fin, Plainly(s.fin), after[i..], call);
    EntryIsNode(s.fin, Plainly(s.fin), after[..i], s.l.after, call);
    FirstPassLeaves(sc, g, s.entry, mid, x);
    LastIsLater(sc, x);
    assert s.first == s.entry by { NothingAhead(s); }
    OpsAvoid(s.fin, g, Plainly(s.fin), after[..i], s.entry, s.l.after, call, x);
    NodeIn(s.fin, g, call);
    NoJoins(plan, loop, after, b, text, s);
    CallRefersTo(s.fin, g, call, after[i], next, x);
    Reported(g, s.first, call, x);
  }

  lemma NothingAhead(s: Stages)
    requires RealizesAll(s.fin, Plainly(s.fin), [], s.first, s.entry, "")
    ensures s.first == s.entry
  {
  }

  lemma CallStands(st: Build, vis: set<string>, ops: seq<Op>, entry: string) returns (next: string)
    requires ops != [] && ops[0].Call? && RealizesAll(st, vis, ops, entry, END, "")
    ensures entry in st.nodes && Realizes(st, vis, ops[0], entry, next, "")
  {
    next :| Realizes(st, vis, ops[0], entry, next, "") && RealizesAll(st, vis, ops[1..], next, END, "");
  }

  lemma {:induction false} RefsAreOk(e: Expr, known: set<string>, refs: set<string>)
    requires ExprOk(e, known) && ExprRefs(e) <= refs
    ensures ExprOk(e, refs)
    decreases e
  {
    match e
    case Ref(ref, _) => assert ref in ROOTS || ref in ExprRefs(e);
    case List(items) =>
      forall i | 0 <= i < |items| ensures ExprOk(items[i], refs) {
        assert forall x | x in ExprRefs(items[i]) :: x in ExprRefs(e);
        RefsAreOk(items[i], known, refs);
      }
    case Dict(entries) =>
      forall k | k in entries ensures ExprOk(entries[k], refs) {
        assert forall x | x in ExprRefs(entries[k]) :: x in ExprRefs(e);
        RefsAreOk(entries[k], known, refs);
      }
    case Template(parts) =>
      forall i | 0 <= i < |parts| ensures ExprOk(parts[i], refs) {
        assert forall x | x in ExprRefs(parts[i]) :: x in ExprRefs(e);
        RefsAreOk(parts[i], known, refs);
      }
    case _ =>
  }

  /** A body and retained state that refer to earlier operations of the same pass or retained state. */
  predicate TimelyLoop(loop: Repeat)
  {
    && OrderlyAll(loop.body, {TickId(loop)}, Some(SureOf(loop.body)))
    && forall i | 0 <= i < |loop.state| :: ExprOk(loop.state[i].value, SureOf(loop.body) + {TickId(loop)})
  }

  /** Calls and waits, each call reading only outputs of the repeat and of calls before it. */
  predicate Line(loop: Repeat, after: seq<Op>)
  {
    (forall op | op in after :: op.Call? || op.Wait?) && OrderlyAll(after, LoopIds(loop), None)
  }

  /** No call of the line reads an output of the repeat. */
  predicate LineApart(loop: Repeat, after: seq<Op>)
  {
    forall i | 0 <= i < |after| && after[i].Call? :: ExprRefs(after[i].args) !! LoopIds(loop)
  }

  /** An endless block followed by calls and waits has nothing missing exactly when none of those calls
      reads an output of the repeat. */
  lemma EndlessExactly(loop: Repeat, after: seq<Op>, continuation: map<string, Json>, resume: Option<string>,
      text: Json -> string)
    requires Compile(Looping([], loop, after), continuation, resume, text).Ok?
      && (resume.None? ==> continuation == map[])
    requires LoopingOk([], loop, after) && TimelyLoop(loop) && Line(loop, after)
      && Endless(loop, Remaining(loop, continuation))
    ensures var c := Compile(Looping([], loop, after), continuation, resume, text).value;
      NothingMissing(c.graph, c.entry) <==> LineApart(loop, after)
  {
    hide Compile, LoopingOk, NothingMissing, Remaining, LoopIds, OrderlyAll;
    if LineApart(loop, after) {
      assert {} + LoopIds(loop) == LoopIds(loop);
      OrderlyWithout(after, {}, LoopIds(loop));
      LineIsTimely(loop, after, Remaining(loop, continuation));
      BlocksAreInitialised([], loop, after, continuation, resume, text);
    } else {
      var i :| 0 <= i < |after| && after[i].Call? && !(ExprRefs(after[i].args) !! LoopIds(loop));
      var x :| x in ExprRefs(after[i].args) && x in LoopIds(loop);
      EndlessMisses(loop, after, continuation, resume, text, i, x);
    }
  }

  /** What reads none of some ids does not need them known. */
  lemma {:induction false} OrderlyWithout(ops: seq<Op>, known: set<string>, others: set<string>)
    requires OrderlyAll(ops, known + others, None) && forall op | op in ops :: op.Call? || op.Wait?
    requires forall i | 0 <= i < |ops| && ops[i].Call? :: ExprRefs(ops[i].args) !! others
    ensures OrderlyAll(ops, known, None)
    decreases ops
  {
    hide ExprRefs, ExprOk;
    if ops != [] {
      var first := ops[0];
      if first.Call? {
        OkRefs(first.args, known + others);
        RefsAreOk(first.args, known + others, known);
      }
      assert known + others + Sure(first) == known + Sure(first) + others;
      forall i | 0 <= i < |ops[1..]| && ops[1..][i].Call?
        ensures ExprRefs(ops[1..][i].args) !! others { assert ops[1..][i] == ops[i + 1]; }
      OrderlyWithout(ops[1..], known + Sure(first), others);
    }
  }

  lemma LineIsTimely(loop: Repeat, after: seq<Op>, remaining: Option<nat>)
    requires TimelyLoop(loop) && Endless(loop, remaining) && OrderlyAll(after, {}, None)
    ensures Timely([], loop, after, remaining)
  {
    assert SureOf([]) + {TickId(loop)} == {TickId(loop)};
    assert SureOf([]) + SureOf(loop.body) + {TickId(loop)} == SureOf(loop.body) + {TickId(loop)};
    assert SureOf([]) + Over(loop, remaining) == {};
  }

  // ---------------------------------------------------------------- a count that is forgotten

  const BODY: seq<Op> := [Op.Call(Some("f"), "t", Expr.Scalar(Null), None)]

  /** Five passes of f, and then g, which is given the last result of f. */
  const FIVE: Repeat := Repeat("l", BODY, 1.0, Count(5), [], map[])
  const AFTERWARDS: seq<Op> := [Op.Call(Some("g"), "u", Ref("f", []), None)]

  /** A continuation that gives no number of passes left. */
  const NO_NUMBER: map<string, Json> := map["remaining_iterations" := Null, "state" := Obj(map[])]

  lemma FiveIsPlain()
    ensures IdsOf(FIVE.body) == {"f"} && IdsOf(AFTERWARDS) == {"g"} && TickId(FIVE) == "l_tick"
    ensures LoopingOk([], FIVE, AFTERWARDS) && BareIds(FIVE, AFTERWARDS) && GivenOnce(FIVE, AFTERWARDS)
      && WellSaid(FIVE, AFTERWARDS)
  {
    assert BODY[1..] == [] && AFTERWARDS[1..] == [];
    assert TickId(FIVE) == "l_tick";
    assert KnownIds([], FIVE, AFTERWARDS) == {"f", "g", "l_tick"};
  }

  lemma FiveHasSeeds(c: Carry)
    requires c.state == Obj(map[])
    ensures Resumes(FIVE, AFTERWARDS, c)
  {
    assert BODY[1..] == [];
  }

  lemma FiveIsTimely()
    ensures Timely([], FIVE, AFTERWARDS, Some(5))
  {
    FiveIsPlain();
    assert BODY[1..] == [] && AFTERWARDS[1..] == [];
    assert SureOf(BODY) == {"f"};
  }

  lemma FiveWithoutNumber() returns (b: Block)
    ensures Begun(FIVE, NO_NUMBER, Some("l"), b, Carry(true, map[], Obj(map[]), None, None, 0, false, true))
      && Remaining(FIVE, NO_NUMBER) == None
  {
    assert NO_NUMBER != map[] by { assert "state" in NO_NUMBER; }
    var none: map<string, Json> := map[];
    assert none + none == none;
    b := BlockOf(FIVE, NO_NUMBER).value;
  }

  ghost predicate CompilesWith(r: Result<Compiled>, complete: bool)
  {
    r.Ok? && (NothingMissing(r.value.graph, r.value.entry) <==> complete)
  }

  /** Compiled from scratch the plan passes the initialisation check; resumed with a null number of
      passes left it compiles too, and g's reference is reported. */
  lemma ForgottenCount(text: Json -> string)
    ensures CompilesWith(Compile(Looping([], FIVE, AFTERWARDS), map[], None, text), true)
    ensures CompilesWith(Compile(Looping([], FIVE, AFTERWARDS), NO_NUMBER, Some("l"), text), false)
  {
    hide Compile, LoopingOk, BareIds, GivenOnce, WellSaid, Resumes, NothingMissing, BlockOf, Timely;
    FiveIsPlain();
    FiveIsTimely();
    FiveHasSeeds(Start(FIVE));
    FirstCompiles(FIVE, AFTERWARDS, text);
    assert Remaining(FIVE, map[]) == Some(5);
    BlocksAreInitialised([], FIVE, AFTERWARDS, map[], None, text);
    var c := Carry(true, map[], Obj(map[]), None, None, 0, false, true);
    var b := FiveWithoutNumber();
    FiveHasSeeds(c);
    PlainBlockCompiles(FIVE, AFTERWARDS, text, NO_NUMBER, Some("l"), b, c);
    EndlessMisses(FIVE, AFTERWARDS, NO_NUMBER, Some("l"), text, 0, "f");
  }
}
