/** Every plan that compiles becomes a well-formed graph: edges resolve, every node can be reached
    from the entrypoint, and no node lies on a cycle, although compiled repeats switch the
    validator's cycle check off. */
module WellFormed {
  import opened Json
  import opened Plan
  import opened Graph
  import opened Meaning
  import opened Compiler
  import opened Construction
  import opened Cycles
  import opened Termination
  import opened Sorting
  import opened SortedCopies

  // ---------------------------------------------------------------- passes

  /** The nodes of a pass that wait for their place until its front is laid out. */
  function Clocks(l: Layout, index: nat): set<string>
  {
    if Timed(l.block.loop) then {Checked(l.block, "_clock", index)} else {}
  }

  predicate ClockWaits(l: Layout, index: nat, st: Build)
  {
    Timed(l.block.loop) ==>
      var clock, expired := Checked(l.block, "_clock", index), Checked(l.block, "_expired", index);
      clock in st.nodes && Targeted(st.nodes[clock]) == [expired]
  }

  /** The after-steps have no edge to them until the block's last pass has one. */
  function Unseen(l: Layout, index: nat): set<string>
  {
    if index == l.block.chunk then {l.after} else {}
  }

  lemma ClockSorts(l: Layout, index: nat, st: Build, roots: set<string>)
    requires Sorted(st, {}, roots) && CompileClock(l, index, st).Ok?
    ensures var b := CompileClock(l, index, st).value;
      && Sorted(b, Clocks(l, index), roots + Clocks(l, index)) && Onto(st, b) && b.exits == st.exits
      && ClockWaits(l, index, b) && b.ids == st.ids + Clocks(l, index)
      && b.nodes.Keys == st.nodes.Keys + Clocks(l, index)
      && Clocks(l, index) !! st.ids
  {
    hide Sorted, ClockInput;
    if Timed(l.block.loop) {
      var name := Checked(l.block, "_clock", index);
      ReserveOnto(st, Some(name), {}, roots);
      var st1 := Reserve(st, Some(name)).value.1;
      PutLate(st1, {}, roots, name, Helper(ClockInput(l.block, index), Checked(l.block, "_expired", index)), "");
      assert {} + {name} == Clocks(l, index);
    } else {
      assert roots + Clocks(l, index) == roots;
    }
  }

  ghost predicate TickStands(l: Layout, index: nat, st: Build, b: Build, tick: string)
  {
    var late := Clocks(l, index);
    && Sorted(b, late, late + {tick}) && Goes(b, late, tick) && Onto(st, b) && ExitsGo(l, b, late)
    && ClockWaits(l, index, b)
  }

  /** The ids of a pass's bookkeeping are reserved and its clock is there. */
  ghost predicate Opened(l: Layout, index: nat, next: string, st: Build, b: Build, tick: string, check: string)
  {
    var late := Clocks(l, index);
    && Sorted(b, late, {next} + Unseen(l, index + 1) + late) && ExitsGo(l, b, late) && Goes(b, late, next)
    && ClockWaits(l, index, b)
    && Onto(st, b) && {tick, check} <= b.ids && tick != check && {tick, check} !! b.nodes.Keys
    && {tick, check} !! st.ids
  }

  lemma TickOpens(l: Layout, index: nat, next: string, st: Build)
    requires ExitsGo(l, st, {}) && Sorted(st, {}, {next} + Unseen(l, index + 1)) && Goes(st, {}, next)
    requires CompileTick(l, index, next, st).Ok?
    ensures var tick, check := Checked(l.block, "_tick", index), Checked(l.block, "_check", index);
      var st2 := Reserve(Reserve(st, Some(tick)).value.1, Some(check)).value.1;
      Opened(l, index, next, st, CompileClock(l, index, st2).value, tick, check)
  {
    hide Sorted, TickInput, ExitEntry, CompileClock;
    var b, roots := l.block, {next} + Unseen(l, index + 1);
    ReserveOnto(st, Some(Checked(b, "_tick", index)), {}, roots);
    var (tick, st1) := Reserve(st, Some(Checked(b, "_tick", index))).value;
    ReserveOnto(st1, Some(Checked(b, "_check", index)), {}, roots);
    var (check, st2) := Reserve(st1, Some(Checked(b, "_check", index))).value;
    ClockSorts(l, index, st2, roots);
    var st3 := CompileClock(l, index, st2).value;
    ProperIds(st, {}, roots);
    ExitsGoOn(l, st, st3, {}, Clocks(l, index));
    StillGoes(st, st3, {}, Clocks(l, index), next);
  }

  lemma TickSorts(l: Layout, tail: seq<string>, index: nat, next: string, st: Build)
    requires Tailed(l, tail) && ExitsGo(l, st, {}) && index < l.block.chunk
    requires Sorted(st, {}, {next} + Unseen(l, index + 1)) && Goes(st, {}, next) && CompileTick(l, index, next, st).Ok?
    ensures TickStands(l, index, st, CompileTick(l, index, next, st).value.1, CompileTick(l, index, next, st).value.0)
  {
    hide Sorted, TickInput, ExitEntry, CompileClock, Tailed, ExitsGo, Goes, Targeted;
    TickOpens(l, index, next, st);
    var tick, check := Checked(l.block, "_tick", index), Checked(l.block, "_check", index);
    var st2 := Reserve(Reserve(st, Some(tick)).value.1, Some(check)).value.1;
    var st3, input := CompileClock(l, index, st2).value, TickInput(l.block, l.text, index).value;
    if !Timed(l.block.loop) && l.block.remaining.Some? && index < l.block.chunk - 1 {
      TickUnchecked(l, index, next, st, st3, tick, check, input);
    } else {
      TickChecked(l, tail, index, next, st, st3, tick, check, input);
    }
  }

  lemma TickUnchecked(l: Layout, index: nat, next: string, st: Build, b: Build, tick: string, check: string,
      input: Expr)
    requires Opened(l, index, next, st, b, tick, check) && index < l.block.chunk - 1
    ensures TickStands(l, index, st, Add(b, tick, Helper(input, next), ""), tick)
  {
    hide Sorted;
    var late := Clocks(l, index);
    ProperIds(b, late, {next} + Unseen(l, index + 1) + late);
    Put(b, late, {next} + Unseen(l, index + 1) + late, late + {tick}, tick, Helper(input, next), "");
    ExitsGoOn(l, b, Add(b, tick, Helper(input, next), ""), late, late);
  }

  lemma TickChecked(l: Layout, tail: seq<string>, index: nat, next: string, st: Build, b: Build, tick: string,
      check: string, input: Expr)
    requires Tailed(l, tail) && index < l.block.chunk
    requires Opened(l, index, next, st, b, tick, check)
    requires Leaving(l, index, Add(b, tick, Helper(input, check), "")).Ok?
    ensures var (target, c) := Leaving(l, index, Add(b, tick, Helper(input, check), "")).value;
      TickStands(l, index, st, Add(c, check, Switch([Case(DoneTest(tick), target)], next), ""), tick)
  {
    hide Sorted, Tailed, ExitEntry, Leaving;
    var late := Clocks(l, index);
    var roots := {next} + Unseen(l, index + 1) + late;
    ProperIds(b, late, roots);
    PutLate(b, late, roots, tick, Helper(input, check), "");
    var d := Add(b, tick, Helper(input, check), "");
    ExitsGoOn(l, b, d, late, late + {tick});
    StillGoes(b, d, late, late + {tick}, next);
    CheckSorts(l, tail, index, next, tick, check, d);
  }

  function Leaving(l: Layout, index: nat, st: Build): Result<(string, Build)>
  {
    if Timed(l.block.loop) then ExitEntry(l, index, st) else Ok((l.after, st))
  }

  lemma CheckSorts(l: Layout, tail: seq<string>, index: nat, next: string, tick: string, check: string, st: Build)
    requires Tailed(l, tail) && index < l.block.chunk && tick !in Clocks(l, index)
    requires var late := Clocks(l, index) + {tick};
      Sorted(st, late, {next} + Unseen(l, index + 1) + Clocks(l, index) + {tick}) && ExitsGo(l, st, late)
        && Goes(st, late, next)
    requires check in st.ids && check !in st.nodes && tick in st.nodes && Targeted(st.nodes[tick]) == [check]
      && ClockWaits(l, index, st)
    requires Leaving(l, index, st).Ok?
    ensures var (target, b) := Leaving(l, index, st).value;
      var c := Add(b, check, Switch([Case(DoneTest(tick), target)], next), "");
      var late := Clocks(l, index);
      && Sorted(c, late, late + {tick}) && Goes(c, late, tick) && Kept(st, c) && ExitsGo(l, c, late)
      && ClockWaits(l, index, c)
      && FreshNodes(st, b)
  {
    hide Sorted, Tailed, ExitEntry;
    var clocks := Clocks(l, index);
    var late, roots := clocks + {tick}, {next} + Unseen(l, index + 1) + clocks + {tick};
    var (target, b) := Leaving(l, index, st).value;
    if Timed(l.block.loop) {
      ExitSorts(l, index, tail, st, late, roots);
    } else {
      MoreRoots(st, late, roots, roots + {target});
    }
    ProperIds(st, late, roots);
    var node: Draft := Switch([Case(DoneTest(tick), target)], next);
    assert Targeted(node) == [target, next];
    assert Pointed(b.nodes, check) by { assert tick in b.nodes && check in Targeted(b.nodes[tick]); }
    LastLeaves(l, index, st);
    Put(b, late, roots + {target}, late, check, node, "");
    var c := Add(b, check, node, "");
    Settle(c, late, late, clocks + {tick}, tick);
    assert late - {tick} == clocks;
  }

  lemma LastLeaves(l: Layout, index: nat, st: Build)
    requires Leaving(l, index, st).Ok?
    ensures index + 1 == l.block.chunk ==> Leaving(l, index, st).value.0 == l.after
  {
  }

  lemma FrontSorts(l: Layout, tail: seq<string>, index: nat, body: string, st: Build)
    requires Tailed(l, tail) && ExitsGo(l, st, Clocks(l, index)) && ClockWaits(l, index, st)
    requires Sorted(st, Clocks(l, index), Clocks(l, index) + {body}) && Goes(st, Clocks(l, index), body)
    requires CompileExpiry(l, index, body, st).Ok?
    ensures var (first, b) := CompileExpiry(l, index, body, st).value;
      Sorted(b, {}, {first}) && Goes(b, {}, first) && Kept(st, b) && FreshNodes(st, b) && ExitsGo(l, b, {})
  {
    hide Sorted, Tailed, ExitEntry;
    var clocks := Clocks(l, index);
    if !Timed(l.block.loop) {
      assert clocks + {body} == {body};
    } else {
      var clock, expired := Checked(l.block, "_clock", index), Checked(l.block, "_expired", index);
      ReserveOnto(st, Some(expired), clocks, clocks + {body});
      var st1 := Reserve(st, Some(expired)).value.1;
      ExitsGoOn(l, st, st1, clocks, clocks);
      ExitSorts(l, index - 1, tail, st1, clocks, clocks + {body});
      var (target, st2) := ExitEntry(l, index - 1, st1).value;
      var node: Draft := Switch([Case(DoneTest(clock), target)], body);
      assert Targeted(node) == [target, body];
      assert Pointed(st2.nodes, expired) by { assert clock in st2.nodes && expired in Targeted(st2.nodes[clock]); }
      Put(st2, clocks, clocks + {body} + {target}, clocks, expired, node, "");
      var b := Add(st2, expired, node, "");
      ProperIds(st2, clocks, clocks + {body} + {target});
      ExitsGoOn(l, st2, b, clocks, clocks);
      Settle(b, clocks, clocks, {clock}, clock);
      assert clocks - {clock} == {};
    }
  }

  lemma PauseSorts(l: Layout, index: nat, first: string, st: Build)
    requires Sorted(st, {}, {first}) && Goes(st, {}, first) && ExitsGo(l, st, {})
      && CompilePause(l, index, first, st).Ok?
    ensures var (entry, b) := CompilePause(l, index, first, st).value;
      Sorted(b, {}, {entry}) && Goes(b, {}, entry) && Onto(st, b) && ExitsGo(l, b, {})
  {
    hide Sorted;
    if index > 0 {
      var wait := Checked(l.block, "_wait", index - 1);
      ReserveOnto(st, Some(wait), {}, {first});
      var st1 := Reserve(st, Some(wait)).value.1;
      Put(st1, {}, {first}, {wait}, wait, Sleep(l.block.loop.interval, first), "");
      ExitsGoOn(l, st, Add(st1, wait, Sleep(l.block.loop.interval, first), ""), {}, {});
    }
  }

  ghost predicate PassesStand(l: Layout, b: Build, unseen: set<string>, entry: string)
  {
    Sorted(b, {}, {entry} + unseen) && Goes(b, {}, entry) && ExitsGo(l, b, {})
  }

  lemma PassSorts(l: Layout, tail: seq<string>, index: nat, next: string, st: Build)
    requires Tailed(l, tail) && PassesStand(l, st, Unseen(l, index + 1), next) && index < l.block.chunk
    requires CompilePass(l, index, next, st).Ok?
    ensures var (entry, b) := CompilePass(l, index, next, st).value;
      PassesStand(l, b, Unseen(l, index), entry)
  {
    hide Sorted, Tailed, CompileTick, CompileExpiry, CompilePause;
    TickSorts(l, tail, index, next, st);
    var (tick, st1) := CompileTick(l, index, next, st).value;
    var body := RewriteOps(Shift(l.block, index, false), l.text, l.block.loop.body).value;
    var clocks := Clocks(l, index);
    OpsSorts(body, tick, "", st1, clocks, clocks);
    var (entry, st2) := CompileOps(body, tick, "", st1).value;
    ExitsGoOn(l, st1, st2, clocks, clocks);
    FrontSorts(l, tail, index, entry, st2);
    var (first, st3) := CompileExpiry(l, index, entry, st2).value;
    PauseSorts(l, index, first, st3);
    var arrival := CompilePause(l, index, first, st3).value.0;
    assert {arrival} + Unseen(l, index) == {arrival};
  }

  lemma {:induction false} PassesSorts(l: Layout, tail: seq<string>, index: nat, next: string, st: Build)
    requires Tailed(l, tail) && PassesStand(l, st, Unseen(l, index), next) && index <= l.block.chunk
    requires CompilePasses(l, index, next, st).Ok?
    ensures var (entry, b) := CompilePasses(l, index, next, st).value;
      PassesStand(l, b, Unseen(l, 0), entry)
    decreases index
  {
    hide PassesStand, Tailed, CompilePass, Unseen;
    if index > 0 {
      PassSorts(l, tail, index - 1, next, st);
      var (entry, st1) := CompilePass(l, index - 1, next, st).value;
      PassesSorts(l, tail, index - 1, entry, st1);
    }
  }

  // ---------------------------------------------------------------- blocks

  lemma ContinuationSorts(b: Block, plan: Plan, after: string, st: Build, l: Layout)
    requires Sorted(st, {}, {after}) && Goes(st, {}, after) && l.after == after && ExitsGo(l, st, {})
    requires CompileContinuation(b, plan, after, st).Ok?
    ensures var (next, st') := CompileContinuation(b, plan, after, st).value;
      PassesStand(l, st', {after}, next)
  {
    hide Sorted;
    if !Continues(b) {
      MoreRoots(st, {}, {after}, {after} + {after});
    } else {
      var continuation, boundary := b.loop.id + "_continue", b.loop.id + "_boundary_wait";
      ReserveOnto(st, Some(continuation), {}, {after});
      var st1 := Reserve(st, Some(continuation)).value.1;
      ReserveOnto(st1, Some(boundary), {}, {after});
      var st2 := Reserve(st1, Some(boundary)).value.1;
      var node: Draft := Task(Replan(Cached(plan, b.loop.id), CarryExpr(b)), END, None);
      Put(st2, {}, {after}, {after, continuation}, continuation, node, "");
      var st3 := Add(st2, continuation, node, "");
      Put(st3, {}, {after, continuation}, {boundary} + {after}, boundary, Sleep(b.loop.interval, continuation), "");
      ExitsGoOn(l, st, Add(st3, boundary, Sleep(b.loop.interval, continuation), ""), {}, {});
    }
  }

  /** Seeding the after-steps changes what nodes say, not where they lead. */
  lemma SeedTailSorts(l: Layout, st: Build)
    requires Sorted(st, {}, {l.after}) && Goes(st, {}, l.after) && SeedTail(l, st).Ok?
    ensures Sorted(SeedTail(l, st).value, {}, {l.after}) && Goes(SeedTail(l, st).value, {}, l.after)
  {
    hide SeedTail, Stacked, Entered;
    var b := SeedTail(l, st).value;
    SeedTailTargets(l, st);
    SameEdges(st.nodes, b.nodes, {l.after});
    var order :| Stacked(st.nodes, {}, order);
    assert Stacked(b.nodes, {}, order);
  }

  lemma SeedTailTargets(l: Layout, st: Build)
    requires SeedTail(l, st).Ok?
    ensures var b := SeedTail(l, st).value;
      && b.nodes.Keys == st.nodes.Keys && b.ids == st.ids
      && forall id | id in st.nodes :: Targeted(b.nodes[id]) == Targeted(st.nodes[id])
  {
    hide ExitNode, Targeted;
    var keep := l.(tail := {});
    forall id | id in st.nodes && id in l.tail
      ensures Targeted(ExitNode(keep, -1, st.nodes[id]).value) == Targeted(st.nodes[id]) {
      CopyTargets(keep, -1, st.nodes[id]);
      NothingRenamed(keep, -1, Targeted(ExitNode(keep, -1, st.nodes[id]).value), Targeted(st.nodes[id]));
    }
  }

  lemma NothingRenamed(l: Layout, k: int, copies: seq<string>, originals: seq<string>)
    requires k >= -1 && l.tail == {} && |copies| == |originals|
    requires forall i | 0 <= i < |originals| :: copies[i] == ExitId(l, k, originals[i])
    ensures copies == originals
  {
  }

  lemma SameEdges<E, V, F, W>(a: map<string, Node<E, V>>, b: map<string, Node<F, W>>, roots: set<string>)
    requires b.Keys == a.Keys && forall id | id in a :: Targeted(b[id]) == Targeted(a[id])
    ensures Entered(a, roots) ==> Entered(b, roots)
    ensures forall order :: Stacked(a, {}, order) ==> Stacked(b, {}, order)
  {
    if Entered(a, roots) {
      forall id | id in b ensures id in roots || Pointed(b, id) {
        if Pointed(a, id) {
          var p :| p in a && id in Targeted(a[p]);
          assert p in b && id in Targeted(b[p]);
        }
      }
    }
    forall order: seq<string> | Stacked(a, {}, order) ensures Stacked(b, {}, order) {
      forall i, x | 0 <= i < |order| && order[i] in b && x in Targeted(b[order[i]])
        ensures x == END || x in order[..i] {
        assert order[i] in order;
      }
    }
  }

  lemma RepeatSorts(plan: Plan, loop: Repeat, continuation: map<string, Json>, text: Json -> string, after: string,
      st: Build)
    requires Sorted(st, {}, {after}) && Goes(st, {}, after) && st.exits == map[]
    requires CompileRepeat(plan, loop, continuation, text, after, st).Ok?
    ensures var (entry, b) := CompileRepeat(plan, loop, continuation, text, after, st).value;
      Sorted(b, {}, {entry}) && Goes(b, {}, entry)
  {
    hide Sorted, BlockOf, CompilePasses, CompileContinuation, SeedTail, Tailed;
    ReserveOnto(st, Some(loop.id), {}, {after});
    var st1 := Reserve(st, Some(loop.id)).value.1;
    var b := BlockOf(loop, continuation).value;
    BlockHasPasses(loop, continuation);
    var l := Layout(b, after, Reach(st1.nodes, [after], {}), st1.nodes, text);
    if b.remaining == Some(0) {
      SeedTailSorts(l, st1);
    } else {
      var tail := TailIsAll(b, after, text, st1);
      ContinuationSorts(b, plan, after, st1, l);
      var (next, st2) := CompileContinuation(b, plan, after, st1).value;
      PassesSorts(l, tail, b.chunk, next, st2);
      var entry := CompilePasses(l, b.chunk, next, st2).value.0;
      assert {entry} + Unseen(l, 0) == {entry};
    }
  }

  lemma BlockHasPasses(loop: Repeat, continuation: map<string, Json>)
    requires BlockOf(loop, continuation).Ok?
    ensures var b := BlockOf(loop, continuation).value;
      b.remaining != Some(0) ==> b.chunk > 0
  {
  }

  // ---------------------------------------------------------------- whole plans

  lemma EmptyIsSorted()
    ensures Sorted(EMPTY, {}, {END}) && Goes(EMPTY, {}, END)
  {
    var none: seq<string> := [];
    assert Stacked(EMPTY.nodes, {}, none);
  }

  lemma DraftSorts(plan: Plan, continuation: map<string, Json>, resume: Option<string>, text: Json -> string)
    requires CompileDraft(plan, continuation, resume, text).Ok?
    ensures var built := CompileDraft(plan, continuation, resume, text).value;
      Sorted(built.build, {}, {built.entry}) && Goes(built.build, {}, built.entry)
  {
    hide Sorted, CompileOps, CompileRepeat;
    EmptyIsSorted();
    assert {} + {END} == {END};
    match plan
    case Straight(steps) =>
      OpsSorts(steps, END, "", EMPTY, {}, {});
      SingleRoot(CompileOps(steps, END, "", EMPTY).value.0);
    case Looping(before, loop, after) =>
      OpsSorts(after, END, "", EMPTY, {}, {});
      var (tail, st1) := CompileOps(after, END, "", EMPTY).value;
      SingleRoot(tail);
      RepeatSorts(plan, loop, continuation, text, tail, st1);
      if resume.None? {
        var (entry, st2) := CompileRepeat(plan, loop, continuation, text, tail, st1).value;
        SingleRoot(entry);
        OpsSorts(before, entry, "", st2, {}, {});
        SingleRoot(CompileOps(before, entry, "", st2).value.0);
      }
  }

  lemma SingleRoot(x: string)
    ensures {} + {x} == {x}
  {
  }

  lemma ResolvedCases(st: Build, scope: string, cases: seq<Case<Operand>>)
    requires ResolveCases(st, scope, cases).Ok?
    ensures Targets(ResolveCases(st, scope, cases).value) == Targets(cases)
  {
    if cases != [] {
      ResolvedCases(st, scope, cases[1..]);
      var rest := ResolveCases(st, scope, cases).value;
      assert Targets(rest) == [rest[0].target] + Targets(rest[1..]);
      assert Targets(cases) == [cases[0].target] + Targets(cases[1..]);
    }
  }

  /** No edge leads nowhere, every node can be reached, and none is on a cycle. */
  ghost predicate WellFormed(g: Native, entry: string)
  {
    && ProperNames(g) && Resolved(g) && (entry == END || entry in g)
    && (forall key | key in g :: Cycles.Leads(g, entry, key))
    && (forall key | key in g :: !OnCycle(g, key))
  }

  lemma SortedIsWellFormed(g: Native, entry: string, order: seq<string>)
    requires ProperNames(g) && Stacked(g, {}, order) && Entered(g, {entry}) && (entry == END || entry in g)
    ensures WellFormed(g, entry)
  {
    hide OnCycle, CycleReachable;
    StackedIsFinished(g, order);
    var reached := set key | key in g && Cycles.Leads(g, entry, key);
    if entry in g {
      assert IsPath(g, [entry]);
    }
    forall p, x | p in reached && p in g && x in Targeted(g[p]) && x in g
      ensures x in reached { LeadsOn(g, entry, p, x); }
    forall key | key in g ensures Cycles.Leads(g, entry, key) && !OnCycle(g, key) {
      assert key in order;
      var i :| 0 <= i < |order| && order[i] == key;
      TopCovers(g, order, entry, reached, i);
      FinishedIsAcyclic(g, order, key);
      OffCycles(g, key);
    }
    forall key, x | key in g && x in Targeted(g[key]) ensures x in g || x == END {
      assert key in order;
    }
  }

  lemma OffCycles(g: Native, key: string)
    requires key in g && !CycleReachable(g, key)
    ensures !OnCycle(g, key)
  {
    assert IsPath(g, [key]);
    assert Cycles.Leads(g, key, key);
  }

  lemma LeadsOn(g: Native, entry: string, p: string, x: string)
    requires ProperNames(g) && Cycles.Leads(g, entry, p) && p in g && x in Targeted(g[p]) && x in g
    ensures Cycles.Leads(g, entry, x)
  {
    var path :| IsPath(g, path) && path[0] == entry && path[|path| - 1] == p;
    PathSnoc(g, path, x);
    assert (path + [x])[0] == entry;
  }

  lemma StackedIsFinished(g: Native, order: seq<string>)
    requires Stacked(g, {}, order) && ProperNames(g)
    ensures Finished(g, order)
  {
    forall i, x | 0 <= i < |order| && IsEdge(g, order[i], x) ensures x in order[..i] {
      assert x in Targeted(g[order[i]]);
    }
  }

  lemma CompiledStacks(plan: Plan, continuation: map<string, Json>, resume: Option<string>, text: Json -> string)
    returns (order: seq<string>)
    requires Compile(plan, continuation, resume, text).Ok?
    ensures var c := Compile(plan, continuation, resume, text).value;
      ProperNames(c.graph) && Stacked(c.graph, {}, order) && Entered(c.graph, {c.entry})
        && (c.entry == END || c.entry in c.graph)
  {
    hide CompileDraft, ResolveNode, Stacked, Entered;
    DraftSorts(plan, continuation, resume, text);
    var built := CompileDraft(plan, continuation, resume, text).value;
    var c, st := Compile(plan, continuation, resume, text).value, built.build;
    order :| Stacked(st.nodes, {}, order);
    forall id | id in st.nodes ensures Targeted(c.graph[id]) == Targeted(st.nodes[id]) {
      ResolvedTargets(st, ScopeOf(st, id), st.nodes[id]);
    }
    SameEdges(st.nodes, c.graph, {built.entry});
  }

  lemma ResolvedTargets(st: Build, scope: string, node: Draft)
    requires ResolveNode(st, scope, node).Ok?
    ensures Targeted(ResolveNode(st, scope, node).value) == Targeted(node)
  {
    hide ResolveAction, ResolveUndo;
    if node.Switch? { ResolvedCases(st, scope, node.cases); }
  }

  /** Whatever compiles is well formed: straight plans and every block of a repeat. */
  lemma CompiledIsWellFormed(plan: Plan, continuation: map<string, Json>, resume: Option<string>, text: Json -> string)
    requires Compile(plan, continuation, resume, text).Ok?
    ensures var c := Compile(plan, continuation, resume, text).value;
      WellFormed(c.graph, c.entry)
  {
    hide WellFormed, Compile, Stacked, Entered;
    var order := CompiledStacks(plan, continuation, resume, text);
    var c := Compile(plan, continuation, resume, text).value;
    SortedIsWellFormed(c.graph, c.entry, order);
  }

  /** So every run of a compiled graph ends, whatever its switches decide. */
  lemma CompiledRunsEnd(plan: Plan, continuation: map<string, Json>, resume: Option<string>, text: Json -> string)
    returns (bound: nat)
    requires Compile(plan, continuation, resume, text).Ok?
    ensures var c := Compile(plan, continuation, resume, text).value;
      forall w: World, f: Frame, r: Run :: EndsWithin(Walk(c.graph, w, bound, c.entry, f, r, 0), bound)
  {
    hide Compile, WellFormed, Stacked, Entered;
    var order := CompiledStacks(plan, continuation, resume, text);
    var c := Compile(plan, continuation, resume, text).value;
    StackedIsFinished(c.graph, order);
    FinishedDescends(c.graph, order);
    EntryHasPlace(c.graph, order, c.entry);
    bound := Cost(c.graph, order, c.entry);
    forall w: World, f: Frame, r: Run ensures EndsWithin(Walk(c.graph, w, bound, c.entry, f, r, 0), bound) {
      WalkEnds(c.graph, order, w, bound, c.entry, f, r, 0);
    }
  }

  lemma EntryHasPlace(g: Native, order: seq<string>, entry: string)
    requires Stacked(g, {}, order)
    ensures entry in g ==> entry in order
  {
  }
}
