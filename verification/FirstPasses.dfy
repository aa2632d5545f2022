/** The blocks a repeat compiles to pass the initialisation check: on every route through the
    graph a task finds the outputs it refers to. */
module FirstPasses {
  import opened Json
  import opened Plan
  import opened Graph
  import opened Meaning
  import opened Compiler
  import opened Discipline
  import opened InitCheck
  import opened Shifting
  import opened Exiting
  import opened Realization
  import opened Construction
  import opened Growth
  import opened Copies
  import opened Placement
  import opened Distinctness
  import opened PassWalk
  import opened Assembly
  import opened Finishing
  import opened Timeliness
  import opened Seeding
  import Chain
  import Cycles
  import WellFormed

  // ---------------------------------------------------------------- whole plans

  lemma {:induction false} RefsResolve(st: Build, scope: string, e: Expr)
    requires st.joins == map[] && Resolve(st, scope, e).Ok?
    ensures TmplRefs(Resolve(st, scope, e).value) <= ExprRefs(e)
    decreases e, 0
  {
    match e
    case Ref(ref, path) =>
      if ref !in ROOTS { assert (["nodes", ref] + OUTPUT + path)[..2] == ["nodes", ref]; }
    case List(items) => forall i | 0 <= i < |items| { RefsResolve(st, scope, items[i]); }
    case Dict(entries) => forall k | k in entries { RefsResolve(st, scope, entries[k]); }
    case Template(parts) => PartsResolve(st, scope, parts);
    case _ =>
  }

  lemma {:induction false} PartsResolve(st: Build, scope: string, parts: seq<Expr>)
    requires st.joins == map[] && ResolveParts(st, scope, parts).Ok?
    ensures TmplRefs(TWords(ResolveParts(st, scope, parts).value)) <= ExprRefs(Template(parts))
    decreases parts, 1
  {
    if parts != [] {
      RefsResolve(st, scope, parts[0]);
      PartsResolve(st, scope, parts[1..]);
      var first, rest := Resolve(st, scope, parts[0]).value, ResolveParts(st, scope, parts[1..]).value;
      forall x | x in TmplRefs(TWords(first.pieces + rest)) ensures x in ExprRefs(Template(parts)) {
        var i :| 0 <= i < |first.pieces + rest| && (first.pieces + rest)[i].Hole?
          && x in PathNode((first.pieces + rest)[i].path);
        if i < |first.pieces| {
          assert x in TmplRefs(first);
        } else {
          assert rest[i - |first.pieces|].Hole?;
          assert x in TmplRefs(TWords(rest));
          var j :| 0 <= j < |parts[1..]| && x in ExprRefs(parts[1..][j]);
          assert x in ExprRefs(parts[j + 1]);
        }
      }
    }
  }

  lemma NodeResolves(st: Build, scope: string, node: Draft)
    requires st.joins == map[] && ResolveNode(st, scope, node).Ok?
    ensures BodyRefs(ResolveNode(st, scope, node).value) <= DraftRefs(node)
  {
    match node
    case Task(Capability(_, input), _, _) => RefsResolve(st, scope, input);
    case Task(Replan(_, carry), _, _) => RefsResolve(st, scope, carry);
    case _ =>
  }

  /** Nodes a trail has left behind it. */
  function Passed(g: Native, t: seq<Route>): set<string>
  {
    if t == [] then {} else Passed(g, t[..|t| - 1]) + InitCheck.Own(g, t[|t| - 1].parent)
  }

  lemma {:induction false} PassedIsEstablished(g: Native, t: seq<Route>)
    ensures Passed(g, t) <= Established(g, t)
    decreases t
  {
    if t != [] { PassedIsEstablished(g, t[..|t| - 1]); }
  }

  lemma {:induction false} TrailIsSafe(st: Build, g: Native, entry: string, t: seq<Route>, key: string)
    requires ResolveAll(st) == Ok(g) && Safe(st.nodes, entry, {}) && Trail(g, entry, t, key)
    ensures Safe(st.nodes, key, Passed(g, t))
    decreases t
  {
    hide Safe, ResolveNode;
    if t != [] {
      var last := t[|t| - 1];
      TrailIsSafe(st, g, entry, t[..|t| - 1], last.parent);
      RouteIsTarget(st, g, last, key);
      SafeNext(st.nodes, last.parent, Passed(g, t[..|t| - 1]), key);
    }
  }

  lemma RouteIsTarget(st: Build, g: Native, rt: Route, key: string)
    requires ResolveAll(st) == Ok(g) && IsRoute(g, rt, key)
    ensures rt.parent in st.nodes && key in Targeted(st.nodes[rt.parent])
      && Leaves(st.nodes[rt.parent], rt.parent) == InitCheck.Own(g, rt.parent)
  {
    hide ResolveNode;
    assert Edge(key, rt.guards) in Edges(g[rt.parent]);
    SuccessorIsEdge(g[rt.parent], key);
    WellFormed.ResolvedTargets(st, ScopeOf(st, rt.parent), st.nodes[rt.parent]);
    KindResolves(st, ScopeOf(st, rt.parent), st.nodes[rt.parent]);
  }

  lemma KindResolves(st: Build, scope: string, node: Draft)
    requires ResolveNode(st, scope, node).Ok?
    ensures var n := ResolveNode(st, scope, node).value;
      (n.Task? <==> node.Task?) && (n.Join? <==> node.Join?)
  {
  }

  /** What was passed on the way can be reached itself, and leads on. */
  lemma {:induction false} PassedLeads(g: Native, entry: string, t: seq<Route>, key: string, x: string)
    requires Trail(g, entry, t, key) && key in g && x in Passed(g, t)
    ensures Reachable(g, entry, x) && exists p :: Cycles.IsPath(g, p) && |p| > 1 && p[0] == x && p[|p| - 1] == key
    decreases t
  {
    hide Cycles.IsPath;
    var last := t[|t| - 1];
    SuccessorIsEdge(g[last.parent], key);
    if x == last.parent {
      assert Trail(g, entry, t[..|t| - 1], x);
      PathStarts(g, x, key);
    } else {
      PassedLeads(g, entry, t[..|t| - 1], last.parent, x);
      var p :| Cycles.IsPath(g, p) && |p| > 1 && p[0] == x && p[|p| - 1] == last.parent;
      Cycles.PathSnoc(g, p, key);
      assert (p + [key])[0] == x && (p + [key])[|p|] == key;
    }
  }

  lemma PathStarts(g: Native, x: string, key: string)
    requires x in g && key in g && key in Successors(g[x])
    ensures exists p :: Cycles.IsPath(g, p) && |p| > 1 && p[0] == x && p[|p| - 1] == key
  {
    assert Cycles.IsPath(g, [x]);
    Cycles.PathSnoc(g, [x], key);
    assert ([x] + [key])[0] == x && ([x] + [key])[1] == key;
  }

  lemma SafeIsComplete(st: Build, g: Native, entry: string)
    requires ResolveAll(st) == Ok(g) && st.joins == map[] && Safe(st.nodes, entry, {})
      && WellFormed.WellFormed(g, entry)
    ensures NothingMissing(g, entry)
  {
    hide Safe, ResolveNode, WellFormed.WellFormed, Passed, Established;
    forall key, x | Reachable(g, entry, key) && x in BodyRefs(g[key])
      ensures x != key && Reachable(g, entry, x) && OnEveryTrail(g, entry, key, x)
    {
      forall t | Trail(g, entry, t, key) ensures x in Passed(g, t) && x in Established(g, t) {
        TrailIsSafe(st, g, entry, t, key);
        NodeIsFed(st, key, Passed(g, t));
        NodeResolves(st, ScopeOf(st, key), st.nodes[key]);
        PassedIsEstablished(g, t);
      }
      var t: seq<Route> :| Trail(g, entry, t, key);
      PassedLeads(g, entry, t, key, x);
      OffCycle(g, entry, key);
    }
  }

  lemma NodeIsFed(st: Build, key: string, got: set<string>)
    requires Safe(st.nodes, key, got) && key in st.nodes
    ensures DraftRefs(st.nodes[key]) <= got
  {
    assert Fed(st.nodes, 1, key, got);
  }

  lemma OffCycle(g: Native, entry: string, key: string)
    requires WellFormed.WellFormed(g, entry) && key in g
    ensures !exists p :: Cycles.IsPath(g, p) && |p| > 1 && p[0] == key && p[|p| - 1] == key
  {
    assert !Cycles.OnCycle(g, key);
  }

  // ---------------------------------------------------------------- repeats

  lemma GroundHolds(plan: Plan, pre: seq<Op>, loop: Repeat, after: seq<Op>, b: Block, text: Json -> string, s: Stages)
    requires Compiles(plan, pre, loop, after, b, text, s) && LoopingOk(pre, loop, after)
      && Timely(pre, loop, after, b.remaining)
    ensures Grounded(Ground(Scene(s.base, s.fin, s.l, Plainly(s.fin)), SureOf(pre), KnownIds(pre, loop, after), after))
    ensures PassesPlaced(Scene(s.base, s.fin, s.l, Plainly(s.fin)), 0, b.chunk, s.entry, s.next)
    ensures RealizesAll(s.fin, Plainly(s.fin), pre, s.first, s.entry, "") && Later(s.st, s.fin) && s.fin.joins == map[]
  {
    hide CompilePasses, CompileContinuation, CompileOps, RealizesAll, PassesPlaced, Reach, Reserve, OpsOk, AllPlain,
      StateOk, OrderlyAll;
    StagesHold(plan, pre, loop, after, b, text, s);
    BookkeepingIsNoBody(plan, pre, loop, after, b, text, s);
    BlockNamesApart(pre, loop, after, b, s);
    SureAreNamed(pre);
  }

  lemma NextIsSafe(gr: Ground, plan: Plan, s: Stages)
    requires Grounded(gr) && gr.sc == Scene(s.base, s.fin, s.l, Plainly(s.fin)) && gr.B().chunk > 0
    requires s.l.block.loop == gr.Loop() && CompileContinuation(gr.B(), plan, s.l.after, s.base) == Ok((s.next, s.st))
      && Later(s.st, s.fin)
    ensures Safe(gr.Nodes(), s.next, Before(gr, gr.B().chunk))
  {
    hide Safe, RealizesAll, OrderlyAll, Distinct, AllPlain, Certain, LaidOut, CarryExpr;
    var b, loop := gr.B(), gr.Loop();
    var got := Before(gr, b.chunk);
    if !Continues(b) {
      LastNames(gr);
      TailIsSafe(gr, got);
    } else {
      var continuation, boundary := loop.id + "_continue", loop.id + "_boundary_wait";
      ContinuationNodes(b, plan, s.l.after, s.base);
      CarryRefs(b);
      TickIsOver(gr);
      var nodes := gr.Nodes();
      EndIsSafe(nodes, got + {continuation});
      assert Targeted(nodes[continuation]) == [END];
      SafeHere(nodes, continuation, got);
      assert Targeted(nodes[boundary]) == [continuation] && got + {} == got;
      SafeHere(nodes, boundary, got);
    }
  }

  lemma ContinuationNodes(b: Block, plan: Plan, after: string, st: Build)
    requires Continues(b) && CompileContinuation(b, plan, after, st).Ok?
    ensures var (next, c) := CompileContinuation(b, plan, after, st).value;
      var continuation := b.loop.id + "_continue";
      && next == b.loop.id + "_boundary_wait" && next in c.nodes
      && c.nodes[next] == Sleep(b.loop.interval, continuation)
      && continuation in c.nodes
      && c.nodes[continuation] == Task(Replan(Cached(plan, b.loop.id), CarryExpr(b)), END, None)
  {
    hide CarryExpr;
  }

  lemma CarryRefs(b: Block)
    ensures ExprRefs(CarryExpr(b)) <= {TickId(b.loop)}
  {
    hide OutputHole;
    HoleRefs(TickId(b.loop), "deadline_unix");
    HoleRefs(TickId(b.loop), "remaining_iterations");
    HoleRefs(TickId(b.loop), "state");
    DictRefs(CarryExpr(b).entries, {TickId(b.loop)});
  }

  lemma TickIsOver(gr: Ground)
    requires gr.B().chunk > 0
    ensures TickId(gr.Loop()) in Before(gr, gr.B().chunk)
  {
    assert NameOf(TickId(gr.Loop()), gr.B().chunk - 1, gr.B().chunk) == TickId(gr.Loop());
    assert TickId(gr.Loop()) in Certain(gr.Loop());
  }

  /** A block with passes left is safe to enter with nothing there yet. */
  lemma BlockIsSafe(plan: Plan, pre: seq<Op>, loop: Repeat, after: seq<Op>, b: Block, text: Json -> string, s: Stages)
    requires Compiles(plan, pre, loop, after, b, text, s) && LoopingOk(pre, loop, after)
      && Timely(pre, loop, after, b.remaining)
    ensures Safe(s.fin.nodes, s.first, {}) && s.fin.joins == map[]
  {
    hide Safe, RealizesAll, OrderlyAll, Grounded, PassesPlaced, CompilePasses, CompileContinuation, CompileOps,
      LoopingOk, Reach;
    GroundHolds(plan, pre, loop, after, b, text, s);
    var gr := Ground(Scene(s.base, s.fin, s.l, Plainly(s.fin)), SureOf(pre), KnownIds(pre, loop, after), after);
    NextIsSafe(gr, plan, s);
    PassesAreSafe(gr, 0, s.entry, s.next);
    assert {} + SureOf(pre) == Before(gr, 0);
    OpsSafe(s.fin, Plainly(s.fin), pre, s.first, s.entry, {});
  }

  /** A repeat resumed with nothing left: its after-steps read seeds. */
  lemma SpentIsSafe(loop: Repeat, after: seq<Op>, b: Block, text: Json -> string, base: Build, l: Layout, fin: Build)
    requires Spent(loop, after, b, text, base, l, fin) && LoopingOk([], loop, after) && Timely([], loop, after, Some(0))
    requires TickId(loop) !in IdsOf(loop.body) && IdsOf(after) !! LoopIds(loop)
    ensures Safe(fin.nodes, l.after, {}) && fin.joins == map[]
  {
    hide Safe, RealizesAll, OrderlyAll, ExitOps, Reach, StateOk;
    SpentStands(loop, after, b, text, base, l, fin);
    var keep, tail := Kept(l), ExitOps(Kept(l), -1, after).value;
    SpentKeepsJoins(loop, after, b, text, base, l, fin);
    SureAreNamed(loop.body);
    assert SureOf([]) + Over(loop, Some(0)) == Over(loop, Some(0));
    ExitOrderlyAll(keep, -1, KnownIds([], loop, after), Over(loop, Some(0)), {}, after);
    EndIsSafe(fin.nodes, {} + SureOf(tail));
    OpsSafe(fin, Plainly(base), tail, l.after, END, {});
  }

  lemma SpentKeepsJoins(loop: Repeat, after: seq<Op>, b: Block, text: Json -> string, base: Build, l: Layout,
      fin: Build)
    requires Spent(loop, after, b, text, base, l, fin) && AllPlain(after)
    ensures fin.joins == map[] && END !in fin.nodes && l.block.loop == loop
  {
    hide Reach;
    PlainHasNoParallel(after);
    assert Sound(EMPTY);
    CompileAllExtends(after, END, "", EMPTY);
    NoParallelsKeepJoins(after, END, "", EMPTY);
    ReserveLater(CompileOps(after, END, "", EMPTY).value.1, loop.id);
  }

  /** The passes a block is compiled for; none given, there is no end to them. */
  function Remaining(loop: Repeat, continuation: map<string, Json>): Option<nat>
  {
    var r := RemainingOf(loop, continuation);
    if r.Ok? then r.value else None
  }

  /** Whatever block of a repeat compiles, first, resumed or spent, the initialisation check has
      nothing to report on it: references resolve to the same pass, the previous one, or a seed. */
  lemma BlocksAreInitialised(before: seq<Op>, loop: Repeat, after: seq<Op>, continuation: map<string, Json>,
      resume: Option<string>, text: Json -> string)
    requires Compile(Looping(before, loop, after), continuation, resume, text).Ok?
      && (resume.None? ==> continuation == map[])
    requires LoopingOk(Chain.Ahead(before, resume), loop, after)
      && Timely(Chain.Ahead(before, resume), loop, after, Remaining(loop, continuation))
    requires Remaining(loop, continuation) == Some(0) ==>
      TickId(loop) !in IdsOf(loop.body) && IdsOf(after) !! LoopIds(loop)
    ensures var c := Compile(Looping(before, loop, after), continuation, resume, text).value;
      NothingMissing(c.graph, c.entry)
  {
    hide Safe, CompileDraft, ResolveAll, LoopingOk, Timely, NothingMissing, WellFormed.WellFormed;
    var plan := Looping(before, loop, after);
    var c, built := Compile(plan, continuation, resume, text).value,
      CompileDraft(plan, continuation, resume, text).value;
    DraftIsSafe(before, loop, after, continuation, resume, text);
    WellFormed.CompiledIsWellFormed(plan, continuation, resume, text);
    SafeIsComplete(built.build, c.graph, c.entry);
  }

  lemma DraftIsSafe(before: seq<Op>, loop: Repeat, after: seq<Op>, continuation: map<string, Json>,
      resume: Option<string>, text: Json -> string)
    requires CompileDraft(Looping(before, loop, after), continuation, resume, text).Ok?
      && (resume.None? ==> continuation == map[])
    requires LoopingOk(Chain.Ahead(before, resume), loop, after)
      && Timely(Chain.Ahead(before, resume), loop, after, Remaining(loop, continuation))
    requires Remaining(loop, continuation) == Some(0) ==>
      TickId(loop) !in IdsOf(loop.body) && IdsOf(after) !! LoopIds(loop)
    ensures var built := CompileDraft(Looping(before, loop, after), continuation, resume, text).value;
      Safe(built.build.nodes, built.entry, {}) && built.build.joins == map[]
  {
    hide Safe, CompileRepeat, CompileOps, Timely, SeedTail, Reach, Spent, Remaining;
    var plan := Looping(before, loop, after);
    var (tail, st1) := CompileOps(after, END, "", EMPTY).value;
    BlockCounts(plan, loop, continuation, text, tail, st1);
    var b := BlockOf(loop, continuation).value;
    if b.remaining == Some(0) {
      assert resume.Some? by { FreshHasPasses(loop, continuation); }
      var base, l := SpentDraft(before, loop, after, continuation, resume, text);
      SpentIsSafe(loop, after, b, text, base, l, CompileDraft(plan, continuation, resume, text).value.build);
    } else {
      var s := Chain.CompileStages(before, loop, after, continuation, resume, text, b);
      BlockIsSafe(plan, Chain.Ahead(before, resume), loop, after, b, text, s);
    }
  }

  lemma BlockCounts(plan: Plan, loop: Repeat, continuation: map<string, Json>, text: Json -> string, tail: string,
      st: Build)
    requires CompileRepeat(plan, loop, continuation, text, tail, st).Ok?
    ensures BlockOf(loop, continuation).Ok?
    ensures var b := BlockOf(loop, continuation).value;
      b.loop == loop && (b.remaining != Some(0) ==> b.chunk > 0) && b.remaining == Remaining(loop, continuation)
  {
    hide CompilePasses, CompileContinuation, SeedTail, Reach;
  }

  lemma FreshHasPasses(loop: Repeat, continuation: map<string, Json>)
    requires BlockOf(loop, continuation).Ok? && (loop.stop.Count? ==> loop.stop.n > 0)
    ensures continuation == map[] ==> BlockOf(loop, continuation).value.remaining != Some(0)
  {
  }

  lemma SpentDraft(before: seq<Op>, loop: Repeat, after: seq<Op>, continuation: map<string, Json>,
      resume: Option<string>, text: Json -> string)
    returns (base: Build, l: Layout)
    requires CompileDraft(Looping(before, loop, after), continuation, resume, text).Ok? && resume.Some?
    requires BlockOf(loop, continuation).Ok? && BlockOf(loop, continuation).value.remaining == Some(0)
      && BlockOf(loop, continuation).value.loop == loop
    ensures var built := CompileDraft(Looping(before, loop, after), continuation, resume, text).value;
      Spent(loop, after, BlockOf(loop, continuation).value, text, base, l, built.build) && built.entry == l.after
  {
    hide CompileOps, CompilePasses, CompileContinuation, SeedTail, Reach, BlockOf;
    var b := BlockOf(loop, continuation).value;
    var (tail, st1) := CompileOps(after, END, "", EMPTY).value;
    base := Reserve(st1, Some(loop.id)).value.1;
    l := Layout(b, tail, Reach(base.nodes, [tail], {}), base.nodes, text);
  }

}
