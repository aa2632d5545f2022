/** Where the passes of a compiled block stand in the finished graph. */
module Placement {
  import opened Json
  import opened Plan
  import opened Graph
  import opened Meaning
  import opened Compiler
  import opened Discipline
  import opened Realization
  import opened Construction
  import opened Growth

  /** A finished build seen from one of its blocks: the base the passes were added to, the
      layout, and the ids references may name. */
  datatype Scene = Scene(base: Build, fin: Build, l: Layout, vis: set<string>)

  function ClockId(loop: Repeat): string { loop.id + "_clock" }

  ghost predicate ExitPlaced(sc: Scene, k: int, target: string)
  {
    && k >= -1
    && if k == sc.l.block.chunk - 1 then target == sc.l.after
       else
         && target == ExitId(sc.l, k, sc.l.after) && Copied(sc.l, k, sc.fin) && CopiesFresh(sc.l, k, sc.base, sc.fin)
         && (sc.l.tail != {} ==> k in sc.fin.exits)
  }

  /** A pass that cannot be the block's last needs no check when only counting ends the repeat. */
  predicate Unchecked(b: Block, i: nat)
  {
    !Timed(b.loop) && b.remaining.Some? && i < b.chunk - 1
  }

  ghost predicate CheckPlaced(sc: Scene, i: nat, nxt: string)
  {
    var b := sc.l.block;
    exists target ::
      && Holds(sc.fin, Checked(b, "_check", i), Switch([Case(DoneTest(Checked(b, "_tick", i)), target)], nxt), "")
      && if Timed(b.loop) then ExitPlaced(sc, i, target) else target == sc.l.after
  }

  ghost predicate TickPlaced(sc: Scene, i: nat, nxt: string)
  {
    var b := sc.l.block;
    && TickInput(b, sc.l.text, i).Ok?
    && if Unchecked(b, i) then
         Holds(sc.fin, Checked(b, "_tick", i), Helper(TickInput(b, sc.l.text, i).value, nxt), "")
       else
         Holds(sc.fin, Checked(b, "_tick", i), Helper(TickInput(b, sc.l.text, i).value, Checked(b, "_check", i)), "")
         && CheckPlaced(sc, i, nxt)
  }

  predicate ClockPlaced(sc: Scene, i: nat)
  {
    var b := sc.l.block;
    Timed(b.loop) ==> Holds(sc.fin, Checked(b, "_clock", i), Helper(ClockInput(b, i), Checked(b, "_expired", i)), "")
  }

  ghost predicate FrontPlaced(sc: Scene, i: nat, entry: string, first: string)
  {
    var b := sc.l.block;
    if !Timed(b.loop) then first == entry
    else
      && first == Checked(b, "_clock", i)
      && exists target ::
           && Holds(sc.fin, Checked(b, "_expired", i), Switch([Case(DoneTest(first), target)], entry), "")
           && ExitPlaced(sc, i - 1, target)
  }

  predicate PausePlaced(sc: Scene, i: nat, first: string, arrival: string)
  {
    if i == 0 then arrival == first
    else
      && arrival == Checked(sc.l.block, "_wait", i - 1)
      && Holds(sc.fin, arrival, Sleep(sc.l.block.loop.interval, first), "")
  }

  function BodyOf(l: Layout, i: nat): Result<seq<Op>>
  {
    RewriteOps(Shift(l.block, i, false), l.text, l.block.loop.body)
  }

  ghost predicate BodyPlaced(sc: Scene, i: nat, entry: string)
  {
    && BodyOf(sc.l, i).Ok?
    && RealizesAll(sc.fin, sc.vis, BodyOf(sc.l, i).value, entry, Checked(sc.l.block, "_tick", i), "")
  }

  /** Pass i is entered at `arrival` and, unless it leaves the loop, continues at `nxt`. */
  ghost predicate PassPlaced(sc: Scene, i: nat, arrival: string, nxt: string)
  {
    exists entry, first ::
      && TickPlaced(sc, i, nxt) && ClockPlaced(sc, i) && BodyPlaced(sc, i, entry)
      && FrontPlaced(sc, i, entry, first) && PausePlaced(sc, i, first, arrival)
  }

  /** Passes i up to n follow one another from `arrival` to `nxt`. */
  ghost predicate PassesPlaced(sc: Scene, i: nat, n: nat, arrival: string, nxt: string)
    decreases n - i
  {
    if i >= n then arrival == nxt
    else exists mid :: PassPlaced(sc, i, arrival, mid) && PassesPlaced(sc, i + 1, n, mid, nxt)
  }

  lemma {:induction false} PassesSnoc(sc: Scene, i: nat, n: nat, arrival: string, mid: string, nxt: string)
    requires i <= n && PassesPlaced(sc, i, n, arrival, mid) && PassPlaced(sc, n, mid, nxt)
    ensures PassesPlaced(sc, i, n + 1, arrival, nxt)
    decreases n - i
  {
    hide PassPlaced;
    if i == n {
      assert PassesPlaced(sc, n + 1, n + 1, nxt, nxt);
    } else {
      var m :| PassPlaced(sc, i, arrival, m) && PassesPlaced(sc, i + 1, n, m, mid);
      PassesSnoc(sc, i + 1, n, m, mid, nxt);
    }
  }

  // ---------------------------------------------------------------- later builds

  lemma ExitPlacedLater(sc: Scene, fin: Build, k: int, target: string)
    requires ExitPlaced(sc, k, target) && Later(sc.fin, fin)
    ensures ExitPlaced(sc.(fin := fin), k, target)
  {
    if k != sc.l.block.chunk - 1 { CopiedLater(sc.l, k, sc.base, sc.fin, fin); }
  }

  lemma TickPlacedLater(sc: Scene, fin: Build, i: nat, nxt: string)
    requires TickPlaced(sc, i, nxt) && ClockPlaced(sc, i) && Later(sc.fin, fin)
    ensures TickPlaced(sc.(fin := fin), i, nxt) && ClockPlaced(sc.(fin := fin), i)
  {
    var b := sc.l.block;
    if !Unchecked(b, i) {
      var target :|
        && Holds(sc.fin, Checked(b, "_check", i), Switch([Case(DoneTest(Checked(b, "_tick", i)), target)], nxt), "")
        && if Timed(b.loop) then ExitPlaced(sc, i, target) else target == sc.l.after;
      if Timed(b.loop) { ExitPlacedLater(sc, fin, i, target); }
      LaterHolds(sc.fin, fin, Checked(b, "_check", i), Switch([Case(DoneTest(Checked(b, "_tick", i)), target)], nxt),
        "");
    }
  }

  lemma FrontPlacedLater(sc: Scene, fin: Build, i: nat, entry: string, first: string)
    requires FrontPlaced(sc, i, entry, first) && Later(sc.fin, fin)
    ensures FrontPlaced(sc.(fin := fin), i, entry, first)
  {
    var b := sc.l.block;
    if Timed(b.loop) {
      var target :|
        && Holds(sc.fin, Checked(b, "_expired", i), Switch([Case(DoneTest(first), target)], entry), "")
        && ExitPlaced(sc, i - 1, target);
      ExitPlacedLater(sc, fin, i - 1, target);
      LaterHolds(sc.fin, fin, Checked(b, "_expired", i), Switch([Case(DoneTest(first), target)], entry), "");
    }
  }

  // ---------------------------------------------------------------- stages of one pass

  predicate Ready(l: Layout, base: Build, st: Build)
  {
    LaidOut(l, base) && ExitsOk(l, base, st) && AllPlain(l.block.loop.body)
  }

  lemma ReadyIsSound(l: Layout, base: Build, st: Build)
    requires Ready(l, base, st)
    ensures Sound(st)
  {
  }

  lemma ReadyLater(l: Layout, base: Build, a: Build, b: Build)
    requires Ready(l, base, a) && Later(a, b) && b.exits == a.exits
    ensures Ready(l, base, b)
  {
    ExitsStayOk(l, base, a, b);
  }

  /** Reserving and filling a node at once. */
  lemma PutLater(l: Layout, base: Build, st: Build, name: string, node: Draft)
    requires Ready(l, base, st) && Reserve(st, Some(name)).Ok? && !node.Join?
    ensures var b := Add(Reserve(st, Some(name)).value.1, name, node, "");
      && Later(st, b) && Ready(l, base, b) && b.exits == st.exits && Holds(b, name, node, "")
      && b.ids == st.ids + {name} && name !in st.ids && b.inner == st.inner && b.nodes.Keys == st.nodes.Keys + {name}
  {
    ReserveLater(st, name);
    var a := Reserve(st, Some(name)).value.1;
    AddLater(a, name, node);
    LaterThrough(st, a, Add(a, name, node, ""));
    ReadyLater(l, base, st, Add(a, name, node, ""));
  }

  lemma ClockStage(l: Layout, i: nat, base: Build, st: Build, vis: set<string>)
    requires Ready(l, base, st) && CompileClock(l, i, st).Ok?
    ensures var b := CompileClock(l, i, st).value;
      && Later(st, b) && Ready(l, base, b) && b.exits == st.exits && b.inner == st.inner
      && ClockPlaced(Scene(base, b, l, vis), i) && FreshNodes(st, b)
      && b.ids == st.ids + (if Timed(l.block.loop) then {Checked(l.block, "_clock", i)} else {})
      && (Timed(l.block.loop) ==> Checked(l.block, "_clock", i) !in st.ids)
  {
    if Timed(l.block.loop) {
      PutLater(l, base, st, Checked(l.block, "_clock", i),
        Helper(ClockInput(l.block, i), Checked(l.block, "_expired", i)));
    }
  }

  /** The build once the tick, its check and the clock have their ids. */
  function Bookkept(l: Layout, i: nat, st: Build): Result<Build>
  {
    var (_, st1) :- Reserve(st, Some(Checked(l.block, "_tick", i)));
    var (_, st2) :- Reserve(st1, Some(Checked(l.block, "_check", i)));
    CompileClock(l, i, st2)
  }

  lemma BookkeptStage(l: Layout, i: nat, base: Build, st: Build, vis: set<string>)
    requires Ready(l, base, st) && Bookkept(l, i, st).Ok?
    ensures var b := Bookkept(l, i, st).value;
      && Later(st, b) && Ready(l, base, b) && Sound(b) && ClockPlaced(Scene(base, b, l, vis), i)
      && Checked(l.block, "_tick", i) in b.ids && Checked(l.block, "_tick", i) !in b.nodes
      && Checked(l.block, "_check", i) in b.ids && Checked(l.block, "_check", i) !in b.nodes
      && Checked(l.block, "_tick", i) != Checked(l.block, "_check", i)
  {
    ReadyIsSound(l, base, st);
    hide LaidOut, AllPlain, ExitsOk, ClockInput;
    var tick, check := Checked(l.block, "_tick", i), Checked(l.block, "_check", i);
    var st1 := Reserve(st, Some(tick)).value.1;
    ReserveLater(st, tick);
    ReadyLater(l, base, st, st1);
    var st2 := Reserve(st1, Some(check)).value.1;
    ReserveLater(st1, check);
    ReadyLater(l, base, st1, st2);
    ClockStage(l, i, base, st2, vis);
    LaterThrough(st, st1, st2);
    LaterThrough(st, st2, CompileClock(l, i, st2).value);
  }

  lemma TickStage(l: Layout, i: nat, next: string, base: Build, st: Build, vis: set<string>)
    requires Ready(l, base, st) && CompileTick(l, i, next, st).Ok?
    ensures var (tick, b) := CompileTick(l, i, next, st).value;
      && tick == Checked(l.block, "_tick", i) && Later(st, b) && Ready(l, base, b)
      && TickPlaced(Scene(base, b, l, vis), i, next) && ClockPlaced(Scene(base, b, l, vis), i)
  {
    var b := l.block;
    var tick, check := Checked(b, "_tick", i), Checked(b, "_check", i);
    BookkeptStage(l, i, base, st, vis);
    var st3 := Bookkept(l, i, st).value;
    var input := TickInput(b, l.text, i).value;
    hide Ready, ExitEntry, DoneTest, ClockInput, TickInput, Checked, CompileClock;
    var node := Helper(input, if Unchecked(b, i) then next else check);
    AddLater(st3, tick, node);
    var st4 := Add(st3, tick, node, "");
    LaterThrough(st, st3, st4);
    ReadyLater(l, base, st3, st4);
    if !Unchecked(b, i) {
      CheckStage(l, i, next, base, st4, vis);
      var st6 := CompileCheck(l, i, next, st4).value;
      LaterThrough(st, st4, st6);
      LaterHolds(st4, st6, tick, node, "");
      if Timed(b.loop) {
        LaterHolds(st4, st6, Checked(b, "_clock", i), Helper(ClockInput(b, i), Checked(b, "_expired", i)), ""); }
    }
  }

  function CompileCheck(l: Layout, i: nat, next: string, st: Build): Result<Build>
  {
    var b := l.block;
    var tick, check := Checked(b, "_tick", i), Checked(b, "_check", i);
    var (target, st5) :- if Timed(b.loop) then ExitEntry(l, i, st) else Ok((l.after, st));
    Ok(Add(st5, check, Switch([Case(DoneTest(tick), target)], next), ""))
  }

  lemma CheckStage(l: Layout, i: nat, next: string, base: Build, st: Build, vis: set<string>)
    requires Ready(l, base, st) && CompileCheck(l, i, next, st).Ok?
    requires Checked(l.block, "_check", i) in st.ids && Checked(l.block, "_check", i) !in st.nodes
    ensures var b := CompileCheck(l, i, next, st).value;
      && Later(st, b) && Ready(l, base, b) && CheckPlaced(Scene(base, b, l, vis), i, next)
  {
    hide LaidOut, ExitEntry, Copied, CopiesFresh, DoneTest, AllPlain, ExitId;
    ReadyIsSound(l, base, st);
    var b := l.block;
    var tick, check := Checked(b, "_tick", i), Checked(b, "_check", i);
    if Timed(b.loop) { ExitLater(l, i, base, st); }
    var (target, st5) := if Timed(b.loop) then ExitEntry(l, i, st).value else (l.after, st);
    assert check !in st5.nodes;
    AddLater(st5, check, Switch([Case(DoneTest(tick), target)], next));
    var st6 := Add(st5, check, Switch([Case(DoneTest(tick), target)], next), "");
    LaterThrough(st, st5, st6);
    ReadyLater(l, base, st5, st6);
    if Timed(b.loop) && i != b.chunk - 1 { CopiedLater(l, i, base, st5, st6); }
  }

  lemma ExpiryStage(l: Layout, i: nat, entry: string, base: Build, st: Build, vis: set<string>)
    requires Ready(l, base, st) && CompileExpiry(l, i, entry, st).Ok?
    ensures var (first, b) := CompileExpiry(l, i, entry, st).value;
      && Later(st, b) && Ready(l, base, b) && FrontPlaced(Scene(base, b, l, vis), i, entry, first)
  {
    hide LaidOut, ExitEntry, Copied, CopiesFresh, DoneTest, AllPlain, ExitId;
    ReadyIsSound(l, base, st);
    var b := l.block;
    if Timed(b.loop) {
      var expired, clock := Checked(b, "_expired", i), Checked(b, "_clock", i);
      var st1 := Reserve(st, Some(expired)).value.1;
      ReserveLater(st, expired);
      assert expired !in st1.nodes;
      hide Later, ExitsOk, Sound, FreshNodes;
      ReadyLater(l, base, st, st1);
      ExitLater(l, i - 1, base, st1);
      var (target, st2) := ExitEntry(l, i - 1, st1).value;
      var node := Switch([Case(DoneTest(clock), target)], entry);
      FillLater(st1, st2, expired, node);
      var st3 := Add(st2, expired, node, "");
      LaterThrough(st, st1, st3);
      assert Ready(l, base, st2);
      ReadyLater(l, base, st2, st3);
      if i - 1 != b.chunk - 1 { CopiedLater(l, i - 1, base, st2, st3); }
    }
  }

  lemma PauseStage(l: Layout, i: nat, first: string, base: Build, st: Build, vis: set<string>)
    requires Ready(l, base, st) && CompilePause(l, i, first, st).Ok?
    ensures var (arrival, b) := CompilePause(l, i, first, st).value;
      && Later(st, b) && Ready(l, base, b) && PausePlaced(Scene(base, b, l, vis), i, first, arrival)
  {
    if i > 0 { PutLater(l, base, st, Checked(l.block, "_wait", i - 1), Sleep(l.block.loop.interval, first)); }
  }

  // ---------------------------------------------------------------- rewritten bodies

  lemma {:induction false} RewrittenShape(s: Shift, text: Json -> string, ops: seq<Op>)
    requires s.index >= 0 && RewriteOps(s, text, ops).Ok? && NoParallels(ops)
    ensures var ops' := RewriteOps(s, text, ops).value;
      && NoParallels(ops') && SizeOf(ops') == SizeOf(ops)
      && IdsOf(ops') == set x | x in IdsOf(ops) :: NameOf(x, s.index, s.block.chunk)
    decreases ops, 1
  {
    if ops != [] {
      RewrittenOpShape(s, text, ops[0]);
      RewrittenShape(s, text, ops[1..]);
      var first, rest := RewriteOp(s, text, ops[0]).value, RewriteOps(s, text, ops[1..]).value;
      assert ([first] + rest)[1..] == rest;
    }
  }

  lemma {:induction false} RewrittenOpShape(s: Shift, text: Json -> string, op: Op)
    requires s.index >= 0 && RewriteOp(s, text, op).Ok? && NoParallel(op)
    ensures var op' := RewriteOp(s, text, op).value;
      && NoParallel(op') && Size(op') == Size(op)
      && Ids(op') == set x | x in Ids(op) :: NameOf(x, s.index, s.block.chunk)
    decreases op, 0
  {
    hide NameOf, RewriteExpr, RewriteCond, RewriteUndo;
    match op
    case Call(_, _, _, _) =>
    case Wait(_, _) =>
    case Sequence(steps) => RewrittenShape(s, text, steps);
    case Condition(_, _, steps, otherwise) =>
      RewrittenShape(s, text, steps);
      RewrittenShape(s, text, otherwise);
  }

  lemma BodyStage(l: Layout, i: nat, tick: string, base: Build, st: Build, fin: Build, vis: set<string>)
    requires Ready(l, base, st) && BodyOf(l, i).Ok? && CompileOps(BodyOf(l, i).value, tick, "", st).Ok?
    requires tick == Checked(l.block, "_tick", i)
    requires Later(CompileOps(BodyOf(l, i).value, tick, "", st).value.1, fin) && vis !! fin.inner
    ensures var (entry, b) := CompileOps(BodyOf(l, i).value, tick, "", st).value;
      Later(st, b) && Ready(l, base, b) && b.exits == st.exits && BodyPlaced(Scene(base, fin, l, vis), i, entry)
  {
    var body := BodyOf(l, i).value;
    PlainHasNoParallel(l.block.loop.body);
    RewrittenShape(Shift(l.block, i, false), l.text, l.block.loop.body);
    CompileLater(body, tick, st);
    ReadyLater(l, base, st, CompileOps(body, tick, "", st).value.1);
    CompileRealizesAll(body, tick, "", st, fin, vis);
  }

  /** One compiled pass stands in every later build. */
  lemma PassStage(l: Layout, i: nat, next: string, base: Build, st: Build, fin: Build, vis: set<string>)
    requires Ready(l, base, st) && CompilePass(l, i, next, st).Ok?
    requires Later(CompilePass(l, i, next, st).value.1, fin) && vis !! fin.inner
    ensures var (arrival, b) := CompilePass(l, i, next, st).value;
      Later(st, b) && Ready(l, base, b) && PassPlaced(Scene(base, fin, l, vis), i, arrival, next)
  {
    var sc := Scene(base, fin, l, vis);
    var (tick, st1) := CompileTick(l, i, next, st).value;
    TickStage(l, i, next, base, st, vis);
    var (entry, st2) := CompileOps(BodyOf(l, i).value, tick, "", st1).value;
    BodyExtends(l, i, tick, base, st1);
    var (first, st3) := CompileExpiry(l, i, entry, st2).value;
    ExpiryStage(l, i, entry, base, st2, vis);
    var (arrival, st4) := CompilePause(l, i, first, st3).value;
    PauseStage(l, i, first, base, st3, vis);
    LaterThrough(st3, st4, fin);
    LaterThrough(st2, st3, fin);
    LaterThrough(st1, st2, fin);
    BodyStage(l, i, tick, base, st1, fin, vis);
    TickPlacedLater(Scene(base, st1, l, vis), fin, i, next);
    FrontPlacedLater(Scene(base, st3, l, vis), fin, i, entry, first);
    LaterThrough(st, st1, st2);
    LaterThrough(st, st2, st3);
    LaterThrough(st, st3, st4);
    if i > 0 { LaterHolds(st4, fin, arrival, Sleep(l.block.loop.interval, first), ""); }
    assert TickPlaced(sc, i, next) && ClockPlaced(sc, i) && BodyPlaced(sc, i, entry)
      && FrontPlaced(sc, i, entry, first) && PausePlaced(sc, i, first, arrival);
  }

  lemma BodyExtends(l: Layout, i: nat, tick: string, base: Build, st: Build)
    requires Ready(l, base, st) && BodyOf(l, i).Ok? && CompileOps(BodyOf(l, i).value, tick, "", st).Ok?
    ensures var b := CompileOps(BodyOf(l, i).value, tick, "", st).value.1;
      && Later(st, b) && Ready(l, base, b) && b.exits == st.exits
      && IdsOf(BodyOf(l, i).value) <= b.ids - st.ids && IdsOf(BodyOf(l, i).value) !! b.inner
  {
    var body := BodyOf(l, i).value;
    PlainHasNoParallel(l.block.loop.body);
    RewrittenShape(Shift(l.block, i, false), l.text, l.block.loop.body);
    CompileLater(body, tick, st);
    ReadyLater(l, base, st, CompileOps(body, tick, "", st).value.1);
  }

  /** All passes of a block, one after the other. */
  lemma {:induction false} PassesStage(l: Layout, n: nat, next: string, base: Build, st: Build, fin: Build,
      vis: set<string>)
    requires Ready(l, base, st) && CompilePasses(l, n, next, st).Ok?
    requires Later(CompilePasses(l, n, next, st).value.1, fin) && vis !! fin.inner
    ensures var (arrival, b) := CompilePasses(l, n, next, st).value;
      Later(st, b) && Ready(l, base, b) && PassesPlaced(Scene(base, fin, l, vis), 0, n, arrival, next)
    decreases n
  {
    if n == 0 { NoPasses(l, base, st); }
    hide PassPlaced, Ready, CompilePass, Later;
    if n > 0 {
      var (mid, st1) := CompilePass(l, n - 1, next, st).value;
      PassReady(l, n - 1, next, base, st);
      PassesReady(l, n - 1, mid, base, st1);
      var (arrival, st2) := CompilePasses(l, n - 1, mid, st1).value;
      LaterThrough(st1, st2, fin);
      PassStage(l, n - 1, next, base, st, fin, vis);
      PassesStage(l, n - 1, mid, base, st1, fin, vis);
      LaterThrough(st, st1, st2);
      PassesSnoc(Scene(base, fin, l, vis), 0, n - 1, arrival, mid, next);
    }
  }

  lemma NoPasses(l: Layout, base: Build, st: Build)
    requires Ready(l, base, st)
    ensures Later(st, st)
  {
  }

  lemma PassReady(l: Layout, i: nat, next: string, base: Build, st: Build)
    requires Ready(l, base, st) && CompilePass(l, i, next, st).Ok?
    ensures Later(st, CompilePass(l, i, next, st).value.1) && Ready(l, base, CompilePass(l, i, next, st).value.1)
  {
    var (tick, st1) := CompileTick(l, i, next, st).value;
    TickStage(l, i, next, base, st, {});
    var (entry, st2) := CompileOps(BodyOf(l, i).value, tick, "", st1).value;
    BodyExtends(l, i, tick, base, st1);
    var (first, st3) := CompileExpiry(l, i, entry, st2).value;
    ExpiryStage(l, i, entry, base, st2, {});
    var (arrival, st4) := CompilePause(l, i, first, st3).value;
    PauseStage(l, i, first, base, st3, {});
    LaterThrough(st, st1, st2);
    LaterThrough(st, st2, st3);
    LaterThrough(st, st3, st4);
  }

  lemma {:induction false} PassesReady(l: Layout, n: nat, next: string, base: Build, st: Build)
    requires Ready(l, base, st) && CompilePasses(l, n, next, st).Ok?
    ensures Later(st, CompilePasses(l, n, next, st).value.1) && Ready(l, base, CompilePasses(l, n, next, st).value.1)
    decreases n
  {
    if n > 0 {
      var (mid, st1) := CompilePass(l, n - 1, next, st).value;
      PassReady(l, n - 1, next, base, st);
      PassesReady(l, n - 1, mid, base, st1);
      LaterThrough(st, st1, CompilePasses(l, n - 1, mid, st1).value.1);
    }
  }
}
