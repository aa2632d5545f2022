/** Compiling a plan with a repeat puts every pass, exit and after-step where the walk needs it. */
module Assembly {
  import opened Json
  import opened Plan
  import opened Graph
  import opened Meaning
  import opened Compiler
  import opened Discipline
  import opened Shifting
  import opened Realization
  import opened Construction
  import opened Growth
  import opened Copies
  import opened Placement
  import opened Distinctness
  import opened PassWalk
  import opened Blocks
  import opened Leaving

  // ---------------------------------------------------------------- names

  predicate AutoName(x: string) { |x| > 2 && x[2] == '_' }

  lemma RootsHaveNoUnderscore(x: string, i: nat)
    requires x in ROOTS && i < |x|
    ensures x[i] != '_'
  {
  }

  lemma ConcatIsNoRoot(x: string, y: string)
    requires y != "" && y[0] == '_'
    ensures x + y !in ROOTS
  {
    if x + y in ROOTS { RootsHaveNoUnderscore(x + y, |x|); }
  }

  lemma NameIsNoRoot(x: string, i: nat, chunk: nat)
    requires x !in ROOTS
    ensures NameOf(x, i, chunk) !in ROOTS
  {
    if i + 1 != chunk {
      ConcatIsNoRoot(x, "__rs_" + Digits(i + 1));
      assert x + "__rs_" + Digits(i + 1) == x + ("__rs_" + Digits(i + 1));
    }
  }

  /** Nodes of a compilation without parallels: where they are and how they are called. */
  predicate Shaped(st: Build, scope: string, own: set<string>)
  {
    && (forall id | id in st.nodes :: id in own + st.inner && id in st.scopes && st.scopes[id] == scope)
    && (forall x | x in st.inner :: AutoName(x))
  }

  lemma {:induction false} CompileShaped(ops: seq<Op>, after: string, scope: string, st: Build, own: set<string>)
    requires Sound(st) && CompileOps(ops, after, scope, st).Ok? && NoParallels(ops) && Shaped(st, scope, own)
      && IdsOf(ops) <= own
    ensures Shaped(CompileOps(ops, after, scope, st).value.1, scope, own)
    decreases ops, 2
  {
    if ops != [] {
      CompileShaped(ops[1..], after, scope, st, own);
      CompileAllExtends(ops[1..], after, scope, st);
      var (mid, st1) := CompileOps(ops[1..], after, scope, st).value;
      CompileOpShaped(ops[0], mid, scope, st1, own);
    }
  }

  lemma {:induction false} CompileOpShaped(op: Op, after: string, scope: string, st: Build, own: set<string>)
    requires Sound(st) && CompileOp(op, after, scope, st).Ok? && NoParallel(op) && Shaped(st, scope, own)
      && Ids(op) <= own
    ensures Shaped(CompileOp(op, after, scope, st).value.1, scope, own)
    decreases op, 1
  {
    match op
    case Call(id, _, _, _) => ReserveShaped(st, id, scope, own);
    case Wait(id, _) => ReserveShaped(st, id, scope, own);
    case Sequence(steps) => CompileShaped(steps, after, scope, st, own);
    case Condition(id, when, steps, otherwise) =>
      ReserveShaped(st, id, scope, own);
      var (nid, st1) := Reserve(st, id).value;
      CompileShaped(steps, after, scope, st1, own);
      CompileAllExtends(steps, after, scope, st1);
      var (yes, st2) := CompileOps(steps, after, scope, st1).value;
      CompileShaped(otherwise, after, scope, st2, own);
      CompileAllExtends(otherwise, after, scope, st2);
  }

  lemma ReserveShaped(st: Build, id: Option<string>, scope: string, own: set<string>)
    requires Sound(st) && Reserve(st, id).Ok? && Shaped(st, scope, own) && Named(id) <= own
    ensures Sound(Reserve(st, id).value.1) && Shaped(Reserve(st, id).value.1, scope, own)
    ensures Reserve(st, id).value.0 in own + Reserve(st, id).value.1.inner
  {
    if id.None? {
      var x := "rs_" + Digits(|st.ids|);
      assert x[2] == '_';
    }
  }

  // ---------------------------------------------------------------- well-formed plans

  /** The ids source may name: those of the steps compiled, the loop's, and its tick. */
  function KnownIds(pre: seq<Op>, loop: Repeat, after: seq<Op>): set<string>
  {
    IdsOf(pre) + IdsOf(after) + LoopIds(loop)
  }

  predicate DistinctKeys(entries: seq<Retained>)
  {
    forall i, j | 0 <= i < j < |entries| :: entries[i].key != entries[j].key
  }

  /** Plans the repeat theorems speak about: calls, waits, sequences and conditions without
      compensations; references name plan ids or data roots. */
  predicate LoopingOk(pre: seq<Op>, loop: Repeat, after: seq<Op>)
  {
    var known := KnownIds(pre, loop, after);
    && known !! ROOTS
    && OpsOk(pre, known) && AllPlain(pre)
    && OpsOk(loop.body, known) && AllPlain(loop.body)
    && OpsOk(after, known) && AllPlain(after)
    && StateOk(loop.state, known) && DistinctKeys(loop.state)
    && loop.interval > 0.0 && (loop.stop.Count? ==> loop.stop.n > 0)
  }

  /** The stages of compiling a plan with a repeat whose block has passes left. */
  datatype Stages = Stages(base: Build, l: Layout, next: string, st: Build, entry: string, st': Build, first: string,
      fin: Build)

  ghost predicate Compiles(plan: Plan, pre: seq<Op>, loop: Repeat, after: seq<Op>, b: Block, text: Json -> string,
      s: Stages)
  {
    && CompileOps(after, END, "", EMPTY).Ok?
    && (var (tail, st1) := CompileOps(after, END, "", EMPTY).value;
        && Reserve(st1, Some(loop.id)).Ok? && s.base == Reserve(st1, Some(loop.id)).value.1
        && s.l == Layout(b, tail, Reach(s.base.nodes, [tail], {}), s.base.nodes, text))
    && b.loop == loop && b.chunk > 0
    && CompileContinuation(b, plan, s.l.after, s.base) == Ok((s.next, s.st))
    && CompilePasses(s.l, b.chunk, s.next, s.st) == Ok((s.entry, s.st'))
    && CompileOps(pre, s.entry, "", s.st') == Ok((s.first, s.fin))
  }

  lemma BaseLaidOut(plan: Plan, pre: seq<Op>, loop: Repeat, after: seq<Op>, b: Block, text: Json -> string, s: Stages)
    requires Compiles(plan, pre, loop, after, b, text, s) && AllPlain(after) && IdsOf(after) !! ROOTS
    ensures LaidOut(s.l, s.base) && Later(EMPTY, s.base) && IdsOf(after) <= s.base.ids - s.base.inner
      && s.l.tail !! ROOTS
    ensures RealizesAll(s.base, Plainly(s.base), after, s.l.after, END, "")
  {
    hide CompilePasses, CompileContinuation, CompileOps, Shaped, RealizesAll;
    PlainHasNoParallel(after);
    assert Sound(EMPTY);
    CompileAllExtends(after, END, "", EMPTY);
    NoParallelsKeepJoins(after, END, "", EMPTY);
    CompileShaped(after, END, "", EMPTY, IdsOf(after));
    var st1 := CompileOps(after, END, "", EMPTY).value.1;
    ReserveLater(st1, loop.id);
    ReachIsClosed(s.base.nodes, [s.l.after], {});
    CompileRealizesAll(after, END, "", EMPTY, s.base, Plainly(s.base));
    NodesAreNoRoots(st1, IdsOf(after), s.l.tail);
  }

  lemma NodesAreNoRoots(st: Build, own: set<string>, keys: set<string>)
    requires Shaped(st, "", own) && own !! ROOTS && keys <= st.nodes.Keys
    ensures keys !! ROOTS
  {
    forall x | x in keys ensures x !in ROOTS {
      if x in ROOTS { RootsHaveNoUnderscore(x, 2); }
    }
  }

  // ---------------------------------------------------------------- the stages fit together

  function SettingOf(w: World, limit: nat, pre: seq<Op>, loop: Repeat, after: seq<Op>, s: Stages, g: Native): Setting
  {
    Setting(Scene(s.base, s.fin, s.l, Plainly(s.fin)), g, w, limit, KnownIds(pre, loop, after), IdsOf(pre), after)
  }

  lemma ContinuationReady(plan: Plan, pre: seq<Op>, loop: Repeat, after: seq<Op>, b: Block, text: Json -> string,
      s: Stages)
    requires Compiles(plan, pre, loop, after, b, text, s) && LaidOut(s.l, s.base) && AllPlain(loop.body)
    ensures Ready(s.l, s.base, s.st) && Later(s.base, s.st) && s.st.exits == map[]
    ensures Continues(b) ==>
      && s.next == loop.id + "_boundary_wait"
      && Holds(s.st, s.next, Sleep(loop.interval, loop.id + "_continue"), "")
      && Holds(s.st, loop.id + "_continue", Task(Replan(Cached(plan, loop.id), CarryExpr(b)), END, None), "")
    ensures !Continues(b) ==> s.next == s.l.after
  {
    hide CompilePasses, Reach, CompileOps, LaidOut;
    assert Later(s.base, s.base) && s.base.exits == map[] by { BaseIsLater(s.l, s.base); }
    if Continues(b) { ContinuationStage(plan, b, s.l, s.base); }
  }

  lemma BaseIsLater(l: Layout, base: Build)
    requires LaidOut(l, base)
    ensures Later(base, base) && base.exits == map[]
  {
  }

  lemma ContinuationStage(plan: Plan, b: Block, l: Layout, base: Build)
    requires l.block == b && Continues(b) && Ready(l, base, base) && CompileContinuation(b, plan, l.after, base).Ok?
      && base.exits == map[]
    ensures var (next, st) := CompileContinuation(b, plan, l.after, base).value;
      && Ready(l, base, st) && Later(base, st) && st.exits == map[]
      && next == b.loop.id + "_boundary_wait"
      && Holds(st, next, Sleep(b.loop.interval, b.loop.id + "_continue"), "")
      && Holds(st, b.loop.id + "_continue", Task(Replan(Cached(plan, b.loop.id), CarryExpr(b)), END, None), "")
  {
    hide CarryExpr, LaidOut, AllPlain;
    var first, second := b.loop.id + "_continue", b.loop.id + "_boundary_wait";
    var node, wait := Task(Replan(Cached(plan, b.loop.id), CarryExpr(b)), END, None), Sleep(b.loop.interval, first);
    var st1 := Reserve(base, Some(first)).value.1;
    ReserveLater(base, first);
    var st2 := Reserve(st1, Some(second)).value.1;
    ReserveLater(st1, second);
    AddLater(st2, first, node);
    var st3 := Add(st2, first, node, "");
    AddLater(st3, second, wait);
    LaterThrough(base, st1, st2);
    LaterThrough(base, st2, st3);
    LaterThrough(base, st3, Add(st3, second, wait, ""));
    LaterHolds(st3, Add(st3, second, wait, ""), first, node, "");
    ReadyLater(l, base, base, Add(st3, second, wait, ""));
  }

  /** Everything the passes need, once the whole plan is compiled. */
  lemma StagesHold(plan: Plan, pre: seq<Op>, loop: Repeat, after: seq<Op>, b: Block, text: Json -> string, s: Stages)
    requires Compiles(plan, pre, loop, after, b, text, s) && LoopingOk(pre, loop, after)
    ensures LaidOut(s.l, s.base) && Later(s.base, s.fin) && Later(s.st, s.fin) && Later(s.st', s.fin)
      && Later(s.base, s.st')
    ensures ExitsOk(s.l, s.base, s.st') && ExitsOk(s.l, s.base, s.fin) && s.fin.exits == s.st'.exits
      && s.l.tail !! ROOTS
    ensures IdsOf(pre) <= s.fin.ids - s.st'.ids && IdsOf(pre) !! s.fin.inner
      && IdsOf(after) <= s.base.ids - s.base.inner
    ensures Distinct(s.l, s.base, s.st', PairsFrom(loop, 0, b.chunk))
      && Distinct(s.l, s.base, s.fin, PairsFrom(loop, 0, b.chunk))
    ensures PassesPlaced(Scene(s.base, s.fin, s.l, Plainly(s.fin)), 0, b.chunk, s.entry, s.next)
    ensures RealizesAll(s.base, Plainly(s.base), after, s.l.after, END, "")
    ensures RealizesAll(s.fin, Plainly(s.fin), after, s.l.after, END, "")
    ensures RealizesAll(s.fin, Plainly(s.fin), pre, s.first, s.entry, "")
  {
    hide CompilePasses, CompileContinuation, Sound, LaidOut, Distinct, RealizesAll, PassesPlaced, Keeps, Reach;
    BaseLaidOut(plan, pre, loop, after, b, text, s);
    ContinuationReady(plan, pre, loop, after, b, text, s);
    PassesReady(s.l, b.chunk, s.next, s.base, s.st);
    PlainHasNoParallel(pre);
    CompileLater(pre, s.entry, s.st');
    LaterThrough(s.st, s.st', s.fin);
    LaterThrough(s.base, s.st, s.fin);
    ExitsStayOk(s.l, s.base, s.st', s.fin);
    PassesStage(s.l, b.chunk, s.next, s.base, s.st, s.fin, Plainly(s.fin));
    NothingDistinct(s.l, s.base, s.st, loop, b.chunk);
    PassesDistinct(s.l, b.chunk, s.next, s.base, s.st);
    DistinctLater(s.l, s.base, s.st', s.fin, PairsFrom(loop, 0, b.chunk));
    StepsRealized(plan, pre, loop, after, b, text, s);
  }

  lemma NothingDistinct(l: Layout, base: Build, st: Build, loop: Repeat, chunk: nat)
    ensures Distinct(l, base, st, PairsFrom(loop, chunk, chunk))
  {
    assert PairsFrom(loop, chunk, chunk) == {};
  }

  lemma StepsRealized(plan: Plan, pre: seq<Op>, loop: Repeat, after: seq<Op>, b: Block, text: Json -> string, s: Stages)
    requires Compiles(plan, pre, loop, after, b, text, s) && AllPlain(after) && AllPlain(pre)
    requires Sound(s.st') && Later(s.base, s.fin)
    ensures RealizesAll(s.fin, Plainly(s.fin), after, s.l.after, END, "")
    ensures RealizesAll(s.fin, Plainly(s.fin), pre, s.first, s.entry, "")
  {
    hide CompilePasses, CompileContinuation, RealizesAll, Reach;
    var vis := Plainly(s.fin);
    PlainHasNoParallel(after);
    PlainHasNoParallel(pre);
    assert Sound(EMPTY);
    CompileAllExtends(after, END, "", EMPTY);
    var st1 := CompileOps(after, END, "", EMPTY).value.1;
    ReserveLater(st1, loop.id);
    CompileRealizesAll(after, END, "", EMPTY, s.fin, vis);
    CompileRealizesAll(pre, s.entry, "", s.st', s.fin, vis);
  }

  // ---------------------------------------------------------------- what the walk needs

  /** The bookkeeping of the last pass is reserved before its body is compiled. */
  lemma BookkeepingIsNoBody(plan: Plan, pre: seq<Op>, loop: Repeat, after: seq<Op>, b: Block, text: Json -> string,
      s: Stages)
    requires Compiles(plan, pre, loop, after, b, text, s) && LaidOut(s.l, s.base) && AllPlain(loop.body)
    ensures TickId(loop) !in IdsOf(loop.body)
    ensures Timed(loop) ==> ClockId(loop) !in LoopIds(loop)
  {
    hide CompileTick, CompileExpiry, CompilePause, CompileContinuation, CompileOps, LaidOut, TickPlaced, ClockPlaced,
      Later, Ready, Reach;
    ContinuationReady(plan, pre, loop, after, b, text, s);
    var i := b.chunk - 1;
    var (tick, st1) := CompileTick(s.l, i, s.next, s.st).value;
    TickStage(s.l, i, s.next, s.base, s.st, {});
    ReadyIsSound(s.l, s.base, st1);
    TickReserved(s.l, i, s.next, s.base, st1);
    BodyExtends(s.l, i, tick, s.base, st1);
    PlainHasNoParallel(loop.body);
    RewrittenShape(Shift(b, i, false), text, loop.body);
    forall x | x in IdsOf(loop.body) ensures x !in st1.ids {
      assert NameOf(x, i, b.chunk) == x;
      assert NameOf(x, i, b.chunk) in IdsOf(BodyOf(s.l, i).value);
    }
    assert |ClockId(loop)| != |TickId(loop)|;
  }

  lemma TickReserved(l: Layout, i: nat, next: string, base: Build, st: Build)
    requires Sound(st) && TickPlaced(Scene(base, st, l, {}), i, next) && ClockPlaced(Scene(base, st, l, {}), i)
    ensures Checked(l.block, "_tick", i) in st.ids
    ensures Timed(l.block.loop) ==> Checked(l.block, "_clock", i) in st.ids
  {
    hide TickInput;
  }

  lemma LoopNamesAreApart(loop: Repeat, known: set<string>, x: string, i: nat, chunk: nat)
    requires known !! ROOTS && LoopIds(loop) <= known && x in LoopNames(loop)
    ensures NameOf(x, i, chunk) !in ROOTS
  {
    if x == ClockId(loop) { ConcatIsNoRoot(loop.id, "_clock"); }
    NameIsNoRoot(x, i, chunk);
  }

  /** A compiled block is what the walk of its passes expects. */
  lemma BlockIsSensible(w: World, limit: nat, plan: Plan, pre: seq<Op>, loop: Repeat, after: seq<Op>, b: Block,
      s: Stages, g: Native)
    requires Compiles(plan, pre, loop, after, b, w.text, s) && LoopingOk(pre, loop, after) && SaneBlock(b)
    requires ResolveAll(s.fin) == Ok(g)
    ensures Sensible(SettingOf(w, limit, pre, loop, after, s, g)) && TailOk(SettingOf(w, limit, pre, loop, after, s, g))
    ensures PassesPlaced(SettingOf(w, limit, pre, loop, after, s, g).sc, 0, b.chunk, s.entry, s.next)
    ensures RealizesAll(s.fin, Plainly(s.fin), pre, s.first, s.entry, "")
    ensures Later(s.st, s.fin) && LaidOut(s.l, s.base)
  {
    hide CompilePasses, CompileContinuation, CompileOps, RealizesAll, PassesPlaced, Reach, ResolveAll, Reserve, OpsOk,
      AllPlain, StateOk;
    StagesHold(plan, pre, loop, after, b, w.text, s);
    BookkeepingIsNoBody(plan, pre, loop, after, b, w.text, s);
    var se := SettingOf(w, limit, pre, loop, after, s, g);
    BlockNamesApart(pre, loop, after, b, s);
    TailApart(se, s);
  }

  lemma BlockNamesApart(pre: seq<Op>, loop: Repeat, after: seq<Op>, b: Block, s: Stages)
    requires s.l.block == b && b.loop == loop && b.chunk > 0 && KnownIds(pre, loop, after) !! ROOTS
    requires Distinct(s.l, s.base, s.st', PairsFrom(loop, 0, b.chunk)) && Later(s.base, s.st')  && Later(s.st', s.fin)
    requires IdsOf(pre) <= s.fin.ids - s.st'.ids && IdsOf(pre) !! s.fin.inner
      && IdsOf(after) <= s.base.ids - s.base.inner
    ensures forall p | p in PairsFrom(loop, 0, b.chunk) ::
      NameAt(b, p) !in KnownIds(pre, loop, after) - LoopIds(loop) && NameAt(b, p) !in ROOTS
    ensures IdsOf(pre) !! LoopIds(loop) && IdsOf(after) !! LoopIds(loop) && IdsOf(pre) !! s.base.ids
    ensures KnownIds(pre, loop, after) - LoopIds(loop) <= Plainly(s.fin)
  {
    forall p | p in PairsFrom(loop, 0, b.chunk)
      ensures NameAt(b, p) !in KnownIds(pre, loop, after) - LoopIds(loop) && NameAt(b, p) !in ROOTS
    {
      LoopNamesAreApart(loop, KnownIds(pre, loop, after), p.0, p.1, b.chunk);
    }
    forall x | x in LoopIds(loop) ensures x !in IdsOf(pre) && x !in IdsOf(after) {
      var p := (x, b.chunk - 1);
      assert p in PairsFrom(loop, 0, b.chunk) && NameAt(b, p) == x;
    }
  }

  lemma TailApart(se: Setting, s: Stages)
    requires se.sc == Scene(s.base, s.fin, s.l, Plainly(s.fin)) && s.fin.exits == s.st'.exits
    requires ExitsOk(s.l, s.base, s.st') && se.early <= s.fin.ids - s.st'.ids
    ensures forall k, key | k in s.fin.exits && k >= -1 && key in s.l.tail :: ExitId(s.l, k, key) !in se.early
  {
    forall k, key | k in s.fin.exits && k >= -1 && key in s.l.tail ensures ExitId(s.l, k, key) !in se.early {
      assert CopiesFresh(s.l, k, s.base, s.st');
    }
  }
}
