/** The names of different passes, of the after-steps and of their exit copies never collide in a
    compilation that succeeds. */
module Distinctness {
  import opened Json
  import opened Plan
  import opened Graph
  import opened Meaning
  import opened Compiler
  import opened Discipline
  import opened Shifting
  import opened Construction
  import opened Growth
  import opened Placement

  function NameAt(b: Block, p: (string, nat)): string { NameOf(p.0, p.1, b.chunk) }

  /** Ids of a repeat that get one node per pass and can be read: operations, tick, clock. */
  function LoopNames(loop: Repeat): set<string>
  {
    LoopIds(loop) + (if Timed(loop) then {ClockId(loop)} else {})
  }

  /** The given (id, pass) pairs have distinct names of their own. */
  predicate Distinct(l: Layout, base: Build, st: Build, done: set<(string, nat)>)
  {
    && (forall p | p in done ::
      NameAt(l.block, p) in st.ids && NameAt(l.block, p) !in base.ids && NameAt(l.block, p) !in st.inner)
    && (forall p, q | p in done && q in done && NameAt(l.block, p) == NameAt(l.block, q) :: p == q)
    && (forall p, k, key | p in done && k in st.exits && k >= -1 && key in l.tail ::
      ExitId(l, k, key) != NameAt(l.block, p))
  }

  lemma DistinctLater(l: Layout, base: Build, a: Build, b: Build, done: set<(string, nat)>)
    requires Distinct(l, base, a, done) && Later(a, b) && b.exits == a.exits
    ensures Distinct(l, base, b, done)
  {
  }

  lemma DistinctReserve(l: Layout, base: Build, a: Build, p: (string, nat), done: set<(string, nat)>)
    requires Ready(l, base, a) && Distinct(l, base, a, done) && Reserve(a, Some(NameAt(l.block, p))).Ok?
    ensures Distinct(l, base, Reserve(a, Some(NameAt(l.block, p))).value.1, done + {p})
  {
    ReserveLater(a, NameAt(l.block, p));
  }

  /** An exit that changes the build copies the after-steps. */
  lemma ExitCopies(l: Layout, a: Build, k: int)
    requires k >= -1 && ExitEntry(l, k, a).Ok? && ExitEntry(l, k, a).value.1 != a
    ensures forall key | key in l.tail :: key in l.source && ExitNode(l, k, l.source[key]).Ok?
    ensures forall key | key in l.tail :: ExitId(l, k, key) !in a.ids
    ensures ExitEntry(l, k, a).value.1 == CopyTail(l, k, a)
  {
    hide ExitNode, CopyTail;
  }

  lemma DistinctExit(l: Layout, base: Build, a: Build, k: int, done: set<(string, nat)>)
    requires Ready(l, base, a) && Distinct(l, base, a, done) && k >= -1 && ExitEntry(l, k, a).Ok?
    ensures Distinct(l, base, ExitEntry(l, k, a).value.1, done)
  {
    hide Distinct, ExitEntry, LaidOut, ExitsOk, Later, CopiesFresh, ExitId, ExitNode;
    var b := ExitEntry(l, k, a).value.1;
    if b != a {
      ExitCopies(l, a, k);
      CopyTailLater(l, k, base, a);
      hide CopyTail;
      DistinctCopies(l, base, a, b, k, done);
    }
  }

  lemma DistinctCopies(l: Layout, base: Build, a: Build, b: Build, k: int, done: set<(string, nat)>)
    requires Distinct(l, base, a, done) && Later(a, b) && k >= -1
    requires b.exits.Keys == a.exits.Keys + {k}
    requires forall key | key in l.tail :: ExitId(l, k, key) !in a.ids
    ensures Distinct(l, base, b, done)
  {
  }

  function PairsAt(ids: set<string>, i: nat): set<(string, nat)>
  {
    set x | x in ids :: (x, i)
  }

  lemma DistinctBody(l: Layout, base: Build, a: Build, i: nat, done: set<(string, nat)>)
    requires Ready(l, base, a) && Distinct(l, base, a, done) && BodyOf(l, i).Ok?
    requires CompileOps(BodyOf(l, i).value, Checked(l.block, "_tick", i), "", a).Ok?
    ensures Distinct(l, base, CompileOps(BodyOf(l, i).value, Checked(l.block, "_tick", i), "", a).value.1,
                     done + PairsAt(IdsOf(l.block.loop.body), i))
  {
    var body := BodyOf(l, i).value;
    BodyExtends(l, i, Checked(l.block, "_tick", i), base, a);
    PlainHasNoParallel(l.block.loop.body);
    RewrittenShape(Shift(l.block, i, false), l.text, l.block.loop.body);
    forall x | x in IdsOf(l.block.loop.body) ensures NameOf(x, i, l.block.chunk) in IdsOf(body) {
    }
    forall x, y | x in IdsOf(l.block.loop.body) && y in IdsOf(l.block.loop.body) {
      NameInjective(x, y, i, l.block.chunk);
    }
  }

  // ---------------------------------------------------------------- one pass

  lemma TickDistinct(l: Layout, i: nat, next: string, base: Build, st: Build, done: set<(string, nat)>)
    requires Ready(l, base, st) && CompileTick(l, i, next, st).Ok? && Distinct(l, base, st, done)
    ensures Distinct(l, base, CompileTick(l, i, next, st).value.1,
      done + {(TickId(l.block.loop), i)} + if Timed(l.block.loop) then {(ClockId(l.block.loop), i)} else {})
  {
    var b := l.block;
    var tick, check := Checked(b, "_tick", i), Checked(b, "_check", i);
    var st1 := Reserve(st, Some(tick)).value.1;
    assert tick == NameAt(b, (TickId(b.loop), i));
    DistinctReserve(l, base, st, (TickId(b.loop), i), done);
    ReserveLater(st, tick);
    ReadyLater(l, base, st, st1);
    var st2 := Reserve(st1, Some(check)).value.1;
    ReserveLater(st1, check);
    var done1 := done + {(TickId(b.loop), i)};
    DistinctLater(l, base, st1, st2, done1);
    ReadyLater(l, base, st1, st2);
    ClockDistinct(l, i, base, st2, done1);
    var done2 := done1 + if Timed(b.loop) then {(ClockId(b.loop), i)} else {};
    ClockStage(l, i, base, st2, {});
    var st3 := CompileClock(l, i, st2).value;
    var input := TickInput(b, l.text, i).value;
    assert tick !in st3.nodes;
    if Unchecked(b, i) {
      AddLater(st3, tick, Helper(input, next));
      DistinctLater(l, base, st3, Add(st3, tick, Helper(input, next), ""), done2);
    } else {
      AddLater(st3, tick, Helper(input, check));
      var st4 := Add(st3, tick, Helper(input, check), "");
      DistinctLater(l, base, st3, st4, done2);
      ReadyLater(l, base, st3, st4);
      CheckDistinct(l, i, next, base, st4, done2);
    }
  }

  lemma ClockDistinct(l: Layout, i: nat, base: Build, st: Build, done: set<(string, nat)>)
    requires Ready(l, base, st) && CompileClock(l, i, st).Ok? && Distinct(l, base, st, done)
    ensures Distinct(l, base, CompileClock(l, i, st).value,
      done + if Timed(l.block.loop) then {(ClockId(l.block.loop), i)} else {})
  {
    var b := l.block;
    if Timed(b.loop) {
      var clock := Checked(b, "_clock", i);
      assert clock == NameAt(b, (ClockId(b.loop), i));
      DistinctReserve(l, base, st, (ClockId(b.loop), i), done);
      ReserveLater(st, clock);
      var st1 := Reserve(st, Some(clock)).value.1;
      AddLater(st1, clock, Helper(ClockInput(b, i), Checked(b, "_expired", i)));
      DistinctLater(l, base, st1, CompileClock(l, i, st).value, done + {(ClockId(b.loop), i)});
    }
  }

  lemma CheckDistinct(l: Layout, i: nat, next: string, base: Build, st: Build, done: set<(string, nat)>)
    requires Ready(l, base, st) && CompileCheck(l, i, next, st).Ok? && Distinct(l, base, st, done)
    requires Checked(l.block, "_check", i) in st.ids && Checked(l.block, "_check", i) !in st.nodes
    ensures Distinct(l, base, CompileCheck(l, i, next, st).value, done)
  {
    ReadyIsSound(l, base, st);
    hide LaidOut, ExitEntry, Copied, CopiesFresh, ExitNode, DoneTest, Distinct, AllPlain, ExitId;
    var b := l.block;
    var tick, check := Checked(b, "_tick", i), Checked(b, "_check", i);
    if Timed(b.loop) {
      ExitLater(l, i, base, st);
      DistinctExit(l, base, st, i, done);
    }
    var (target, st5) := if Timed(b.loop) then ExitEntry(l, i, st).value else (l.after, st);
    AddLater(st5, check, Switch([Case(DoneTest(tick), target)], next));
    DistinctLater(l, base, st5, Add(st5, check, Switch([Case(DoneTest(tick), target)], next), ""), done);
  }

  lemma ExpiryDistinct(l: Layout, i: nat, entry: string, base: Build, st: Build, done: set<(string, nat)>)
    requires Ready(l, base, st) && CompileExpiry(l, i, entry, st).Ok? && Distinct(l, base, st, done)
    ensures Distinct(l, base, CompileExpiry(l, i, entry, st).value.1, done)
  {
    var b := l.block;
    if Timed(b.loop) {
      var expired := Checked(b, "_expired", i);
      var st1 := Reserve(st, Some(expired)).value.1;
      ReserveLater(st, expired);
      hide Distinct, ExitEntry, LaidOut, ExitsOk, AllPlain;
      DistinctLater(l, base, st, st1, done);
      ReadyLater(l, base, st, st1);
      ExpiryFilled(l, i - 1, expired, Checked(b, "_clock", i), entry, base, st1, done);
    }
  }

  /** An exit and the expiry test that leads to it. */
  lemma ExpiryFilled(l: Layout, k: int, expired: string, clock: string, entry: string, base: Build, st: Build,
      done: set<(string, nat)>)
    requires Ready(l, base, st) && Distinct(l, base, st, done) && k >= -1 && ExitEntry(l, k, st).Ok?
    requires expired in st.ids && expired !in st.nodes
    ensures var (target, st2) := ExitEntry(l, k, st).value;
      Distinct(l, base, Add(st2, expired, Switch([Case(DoneTest(clock), target)], entry), ""), done)
  {
    ExitLater(l, k, base, st);
    DistinctExit(l, base, st, k, done);
    hide Distinct, ExitEntry, LaidOut, ExitsOk, Copied, CopiesFresh, DoneTest, AllPlain, Later, FreshNodes;
    var (target, st2) := ExitEntry(l, k, st).value;
    var node := Switch([Case(DoneTest(clock), target)], entry);
    FillLater(st, st2, expired, node);
    DistinctLater(l, base, st2, Add(st2, expired, node, ""), done);
  }

  lemma PauseDistinct(l: Layout, i: nat, first: string, base: Build, st: Build, done: set<(string, nat)>)
    requires Ready(l, base, st) && CompilePause(l, i, first, st).Ok? && Distinct(l, base, st, done)
    ensures Distinct(l, base, CompilePause(l, i, first, st).value.1, done)
  {
    if i > 0 {
      PutLater(l, base, st, Checked(l.block, "_wait", i - 1), Sleep(l.block.loop.interval, first));
      DistinctLater(l, base, st, CompilePause(l, i, first, st).value.1, done);
    }
  }

  lemma PassDistinct(l: Layout, i: nat, next: string, base: Build, st: Build, done: set<(string, nat)>)
    requires Ready(l, base, st) && CompilePass(l, i, next, st).Ok? && Distinct(l, base, st, done)
    ensures Distinct(l, base, CompilePass(l, i, next, st).value.1, done + PairsAt(LoopNames(l.block.loop), i))
  {
    var loop := l.block.loop;
    var (tick, st1) := CompileTick(l, i, next, st).value;
    TickStage(l, i, next, base, st, {});
    TickDistinct(l, i, next, base, st, done);
    var done1 := done + {(TickId(loop), i)} + if Timed(loop) then {(ClockId(loop), i)} else {};
    var (entry, st2) := CompileOps(BodyOf(l, i).value, tick, "", st1).value;
    BodyExtends(l, i, tick, base, st1);
    DistinctBody(l, base, st1, i, done1);
    var done2 := done1 + PairsAt(IdsOf(loop.body), i);
    var (first, st3) := CompileExpiry(l, i, entry, st2).value;
    ExpiryStage(l, i, entry, base, st2, {});
    ExpiryDistinct(l, i, entry, base, st2, done2);
    PauseDistinct(l, i, first, base, st3, done2);
    PairsSplit(loop, done, i);
  }

  lemma PairsSplit(loop: Repeat, done: set<(string, nat)>, i: nat)
    ensures done + {(TickId(loop), i)} + (if Timed(loop) then {(ClockId(loop), i)} else {})
      + PairsAt(IdsOf(loop.body), i)
         == done + PairsAt(LoopNames(loop), i)
  {
  }

  function PairsFrom(loop: Repeat, n: nat, chunk: nat): set<(string, nat)>
  {
    set x, j | x in LoopNames(loop) && n <= j < chunk :: (x, j)
  }

  lemma PairsStep(loop: Repeat, n: nat, chunk: nat)
    requires 0 < n <= chunk
    ensures PairsFrom(loop, n - 1, chunk) == PairsFrom(loop, n, chunk) + PairsAt(LoopNames(loop), n - 1)
  {
  }

  lemma {:induction false} PassesDistinct(l: Layout, n: nat, next: string, base: Build, st: Build)
    requires Ready(l, base, st) && CompilePasses(l, n, next, st).Ok? && n <= l.block.chunk
    requires Distinct(l, base, st, PairsFrom(l.block.loop, n, l.block.chunk))
    ensures Distinct(l, base, CompilePasses(l, n, next, st).value.1, PairsFrom(l.block.loop, 0, l.block.chunk))
    decreases n
  {
    if n > 0 {
      var (mid, st1) := CompilePass(l, n - 1, next, st).value;
      PassReady(l, n - 1, next, base, st);
      PassDistinct(l, n - 1, next, base, st, PairsFrom(l.block.loop, n, l.block.chunk));
      PairsStep(l.block.loop, n, l.block.chunk);
      PassesDistinct(l, n - 1, mid, base, st1);
    }
  }
}
