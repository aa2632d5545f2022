/** A repeat resumed with nothing left to do: only the after-steps run, reading the retained
    state the continuation handed on. */
module Finishing {
  import opened Json
  import opened Plan
  import opened Graph
  import opened Meaning
  import opened Compiler
  import opened Discipline
  import opened Agreement
  import opened Shifting
  import opened Exiting
  import opened Realization
  import opened Construction
  import opened Growth
  import opened Copies
  import opened Visibility
  import opened Assembly
  import opened Handover
  import opened Writing

  /** The build before the repeat, and the layout of the after-steps in it. */
  ghost predicate Spent(loop: Repeat, after: seq<Op>, b: Block, text: Json -> string, base: Build, l: Layout,
      fin: Build)
  {
    && CompileOps(after, END, "", EMPTY).Ok?
    && (var (tail, st1) := CompileOps(after, END, "", EMPTY).value;
        && Reserve(st1, Some(loop.id)).Ok? && base == Reserve(st1, Some(loop.id)).value.1
        && l == Layout(b, tail, Reach(base.nodes, [tail], {}), base.nodes, text))
    && b.loop == loop && SeedTail(l, base) == Ok(fin)
  }

  function Kept(l: Layout): Layout { l.(tail := {}) }

  lemma SpentStands(loop: Repeat, after: seq<Op>, b: Block, text: Json -> string, base: Build, l: Layout, fin: Build)
    requires Spent(loop, after, b, text, base, l, fin) && AllPlain(after)
    ensures ExitOps(Kept(l), -1, after).Ok? && JoinsAreJoins(fin) && IdsOf(after) <= Plainly(base)
    ensures RealizesAll(fin, Plainly(base), ExitOps(Kept(l), -1, after).value, l.after, END, "")
  {
    hide RealizesAll, Reach;
    PlainHasNoParallel(after);
    assert Sound(EMPTY);
    CompileAllExtends(after, END, "", EMPTY);
    NoParallelsKeepJoins(after, END, "", EMPTY);
    var st1 := CompileOps(after, END, "", EMPTY).value.1;
    CompileShaped(after, END, "", EMPTY, IdsOf(after));
    ReserveLater(st1, loop.id);
    ReachIsClosed(base.nodes, [l.after], {});
    CompileRealizesAll(after, END, "", EMPTY, base, Plainly(base));
    assert Imaged(l.tail, Kept(l), -1, base, fin);
    ImageRealizesAll(l.tail, Kept(l), -1, base, fin, Plainly(base), after, l.after, END);
  }

  /** The walk ends as the after-steps end. */
  predicate Ends(out: BlockOutcome, walked: Outcome)
  {
    match out
    case Broken(e, r') => walked.Failed? && walked.error == e && walked.run == r'
    case Finished(r') => walked.Done? && walked.run == r'
    case Suspended(_, _) => false
  }

  lemma SpentRuns(w: World, limit: nat, loop: Repeat, after: seq<Op>, b: Block, base: Build, l: Layout, fin: Build,
      g: Native, c: Carry, r: Run)
    requires Spent(loop, after, b, w.text, base, l, fin) && ResolveAll(fin) == Ok(g)
    requires LoopingOk([], loop, after) && TickId(loop) !in IdsOf(loop.body) && IdsOf(after) !! LoopIds(loop)
    requires Written(b, c) && SizeOf(after) <= limit
    ensures Ends(EvalTail(w, loop, after, c, map[], r), Walk(g, w, limit, l.after, FRESH, r, 0))
  {
    hide EvalOps, ResolveAll, RealizesAll, Agrees, Spent, ExitOps, Reach;
    var keep, known, vis := Kept(l), KnownIds([], loop, after), Plainly(base);
    assert l.block == b && b.loop == loop && l.text == w.text by { SpentLayout(loop, after, b, w.text, base, l, fin); }
    SpentStands(loop, after, b, w.text, base, l, fin);
    assert ExitEnv(keep, -1, known, c, map[], map[]);
    assert ExitApart(keep, -1, known, IdsOf(after));
    assert ExitVisible(keep, -1, known, vis);
    FreshMatches(fin, vis, "");
    var tail := ExitOps(keep, -1, after).value;
    var g' := ExitOpsMean(w, keep, -1, known, IdsOf(after), c, after, EFrame(map[], Null, []), EFrame(map[], Null, []),
      r);
    ExitOpsOk(keep, -1, known, vis, after);
    var f', n' := SimulatesAll(fin, g, vis, w, limit, tail, l.after, END, "", FRESH, BLANK, r, 0);
  }

  lemma SpentLayout(loop: Repeat, after: seq<Op>, b: Block, text: Json -> string, base: Build, l: Layout, fin: Build)
    requires Spent(loop, after, b, text, base, l, fin)
    ensures l.block == b && b.loop == loop && l.text == text
  {
  }

  lemma SpentWalks(before: seq<Op>, loop: Repeat, after: seq<Op>, continuation: map<string, Json>, w: World, limit: nat,
      c: Carry, r: Run)
    requires Compile(Looping(before, loop, after), continuation, Some(loop.id), w.text).Ok?
    requires BlockOf(loop, continuation).Ok? && BlockOf(loop, continuation).value.remaining == Some(0)
    requires LoopingOk([], loop, after) && TickId(loop) !in IdsOf(loop.body) && IdsOf(after) !! LoopIds(loop)
    requires Written(BlockOf(loop, continuation).value, c) && SizeOf(after) <= limit
    ensures var g := Compile(Looping(before, loop, after), continuation, Some(loop.id), w.text).value;
      Ends(EvalTail(w, loop, after, c, map[], r), Walk(g.graph, w, limit, g.entry, FRESH, r, 0))
  {
    hide Walk, EvalTail, ResolveAll, Reach, LoopingOk, CompilePasses, CompileContinuation, BlockOf, SeedTail;
    assert BlockOf(loop, continuation).value.loop == loop by { OwnLoop(loop, continuation); }
    var plan, b := Looping(before, loop, after), BlockOf(loop, continuation).value;
    var (tail, st1) := CompileOps(after, END, "", EMPTY).value;
    assert CompileRepeat(plan, loop, continuation, w.text, tail, st1).Ok?;
    var base := Reserve(st1, Some(loop.id)).value.1;
    var l := Layout(b, tail, Reach(base.nodes, [tail], {}), base.nodes, w.text);
    var fin := SeedTail(l, base).value;
    SpentRuns(w, limit, loop, after, b, base, l, fin, ResolveAll(fin).value, c, r);
  }

  /** The compiled graph of a repeat resumed with no passes left runs the after-steps on the retained
      state, if what they read of it can be written into source. */
  lemma SpentMeans(before: seq<Op>, loop: Repeat, after: seq<Op>, continuation: map<string, Json>, w: World, limit: nat,
      c: Carry, r: Run)
    requires Compile(Looping(before, loop, after), continuation, Some(loop.id), w.text).Ok?
    requires BlockOf(loop, continuation).Ok? && BlockOf(loop, continuation).value.remaining == Some(0)
    requires LoopingOk([], loop, after) && TickId(loop) !in IdsOf(loop.body) && IdsOf(after) !! LoopIds(loop)
    requires StartsFrom(BlockOf(loop, continuation).value, c) && SizeOf(after) <= limit
    requires !c.written && OpsWrite(w, AtExit(loop, c), after)
    ensures var g := Compile(Looping(before, loop, after), continuation, Some(loop.id), w.text).value;
      Ends(EvalTail(w, loop, after, c, map[], r), Walk(g.graph, w, limit, g.entry, FRESH, r, 0))
  {
    hide Walk, Compile, EvalOps, BlockOf, LoopingOk, OpsWrite;
    SpentWalks(before, loop, after, continuation, w, limit, AsWritten(c), r);
    OpsWritten(w, AtExit(loop, c), after, EFrame(map[], Null, []), r);
  }

  lemma OwnLoop(loop: Repeat, continuation: map<string, Json>)
    requires BlockOf(loop, continuation).Ok?
    ensures BlockOf(loop, continuation).value.loop == loop
  {
  }
}
