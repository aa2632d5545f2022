/** The names the passes of a block reserve, and when they are all free. */
module PassNames {
  import opened Json
  import opened Plan
  import opened Graph
  import opened Meaning
  import opened Compiler
  import opened Discipline
  import opened Shifting
  import opened Placement
  import opened Reserving

  // ---------------------------------------------------------------- names

  function TimedMarks(loop: Repeat): set<string>
  {
    if Timed(loop) then {loop.id + "_clock", loop.id + "_expired"} else {}
  }

  /** Ids of a pass's own bookkeeping. */
  function Bookkeeping(loop: Repeat): set<string>
  {
    {TickId(loop), loop.id + "_check"} + TimedMarks(loop)
  }

  /** What every pass reserves under its own name. */
  function OwnNames(l: Layout, i: nat): set<string>
  {
    Names(Shift(l.block, i, false), IdsOf(l.block.loop.body) + Bookkeeping(l.block.loop))
  }

  /** What a pass reserves for the way to it: the pause in front of it, and the exit before it. */
  function WayNames(l: Layout, i: nat): set<string>
  {
    (if i > 0 then {NameOf(l.block.loop.id + "_wait", i - 1, l.block.chunk)} else {})
    + if Timed(l.block.loop) then ExitIds(l, i - 1) else {}
  }

  function AllNames(l: Layout, i: nat): set<string> { OwnNames(l, i) + WayNames(l, i) }

  predicate Apart(l: Layout, i: nat)
  {
    && AllUnique(l.block.loop.body) && IdsOf(l.block.loop.body) !! Bookkeeping(l.block.loop)
    && OwnNames(l, i) !! WayNames(l, i)
    && (i > 0 && Timed(l.block.loop) ==> NameOf(l.block.loop.id + "_wait", i - 1, l.block.chunk) !in ExitIds(l, i - 1))
  }

  /** What else a pass needs to compile: data for its seeds, and well-made operations. */
  predicate Fits(l: Layout, i: nat)
  {
    && AllWellMade(l.block.loop.body) && BodyOf(l, i).Ok? && TickInput(l.block, l.text, i).Ok?
    && (Timed(l.block.loop) && l.tail != {} ==> Copyable(l, i - 1))
  }

  // ---------------------------------------------------------------- sayable names

  /** The plan's own ids of a repeat can be said, and so can all the compiler derives from them. */
  predicate SayableLoop(l: Layout)
  {
    AllSayable(IdsOf(l.block.loop.body)) && l.block.loop.id != "" && "" !in l.tail && NoParallels(l.block.loop.body)
  }

  lemma NameIsSayable(x: string, i: nat, chunk: nat)
    requires Sayable(x)
    ensures Sayable(NameOf(x, i, chunk))
  {
    if i + 1 != chunk {
      var suffix := "__rs_" + Digits(i + 1);
      assert suffix[2] == 'r' && x + suffix == NameOf(x, i, chunk);
      SuffixedIsSayable(x, suffix, 2);
    }
  }

  lemma BookkeepingIsSayable(id: string)
    requires id != ""
    ensures Sayable(id + "_tick") && Sayable(id + "_check") && Sayable(id + "_clock") && Sayable(id + "_expired")
      && Sayable(id + "_wait")
    ensures Sayable(id + "_continue") && Sayable(id + "_boundary_wait")
  {
    SuffixedIsSayable(id, "_tick", 2);
    SuffixedIsSayable(id, "_check", 2);
    SuffixedIsSayable(id, "_clock", 2);
    SuffixedIsSayable(id, "_expired", 2);
    SuffixedIsSayable(id, "_wait", 2);
    SuffixedIsSayable(id, "_continue", 2);
    SuffixedIsSayable(id, "_boundary_wait", 2);
  }

  lemma ExitIdsAreSayable(l: Layout, k: int)
    requires k >= -1 && "" !in l.tail
    ensures AllSayable(ExitIds(l, k))
  {
    forall key | key in l.tail ensures Sayable(ExitId(l, k, key)) {
      SuffixedIsSayable(key, ExitSuffix(l, k), 2);
    }
  }

  // ---------------------------------------------------------------- exits

  /** Leaving after pass k needs nothing new: the block's last pass, nothing to copy, or copied. */
  predicate Left(l: Layout, k: int, st: Build)
  {
    l.tail == {} || k == l.block.chunk - 1 || k in st.exits
  }

  lemma ExitGranted(l: Layout, k: int, st: Build)
    requires k >= -1 && Tidy(st) && "" !in l.tail
    ensures Left(l, k, st) ==> ExitEntry(l, k, st).Ok? && ExitEntry(l, k, st).value.1 == st
    ensures !Left(l, k, st) ==> (ExitEntry(l, k, st).Ok? <==> Copyable(l, k) && ExitIds(l, k) !! st.ids)
    ensures !Left(l, k, st) && ExitEntry(l, k, st).Ok? ==>
      Adds(st, ExitEntry(l, k, st).value.1, ExitIds(l, k))
        && ExitEntry(l, k, st).value.1.exits.Keys == st.exits.Keys + {k}
  {
    hide ExitNode, ExitSuffix;
    if !Left(l, k, st) {
      if exists key :: key in l.tail && ExitId(l, k, key) in st.ids {
        var key :| key in l.tail && ExitId(l, k, key) in st.ids;
        assert ExitId(l, k, key) in ExitIds(l, k);
      } else if Copyable(l, k) {
        ExitIdsAreSayable(l, k);
        CopyIsTidy(l, k, st);
      }
    }
  }

  lemma CopyIsTidy(l: Layout, k: int, st: Build)
    requires k >= -1 && Tidy(st) && Copyable(l, k) && AllSayable(ExitIds(l, k))
    ensures Adds(st, CopyTail(l, k, st), ExitIds(l, k))
  {
    hide CopyTail, ExitIds, Copyable;
    var b := CopyTail(l, k, st);
    CopyReserved(l, k, st);
    SetGrows(st.ids, b.ids);
    forall m: nat | "rs_" + Digits(m) in b.ids ensures m < |b.ids| { AutoIsAutoLike(m); }
  }

  lemma CopyReserved(l: Layout, k: int, st: Build)
    requires k >= -1 && Copyable(l, k)
    ensures CopyTail(l, k, st).ids == st.ids + ExitIds(l, k) && CopyTail(l, k, st).exits.Keys == st.exits.Keys + {k}
  {
    hide ExitIds, ExitId, ExitNode, InnerCopies;
  }

  lemma SetGrows(a: set<string>, b: set<string>)
    requires a <= b
    ensures |a| <= |b|
  {
    assert b == a + (b - a);
  }

  // ---------------------------------------------------------------- stages of one pass

  /** The attempt succeeds exactly when it fits and its names are free, and adds those names. */
  ghost predicate Grants(st: Build, ok: bool, b: Build, names: set<string>, fits: bool)
  {
    (ok <==> fits && names !! st.ids) && (ok ==> Adds(st, b, names))
  }

  lemma BookkeepingDiffers(id: string)
    ensures id + "_tick" != id + "_check" && id + "_tick" != id + "_clock" && id + "_check" != id + "_clock"
    ensures id + "_expired" !in {id + "_tick", id + "_check", id + "_clock"}
    ensures id + "_wait" !in {id + "_tick", id + "_check", id + "_clock", id + "_expired"}
  {
    assert |id + "_tick"| == |id| + 5 == |id + "_wait"| && |id + "_check"| == |id| + 6 == |id + "_clock"|
      && |id + "_expired"| == |id| + 8;
    assert (id + "_tick")[|id| + 1] == 't' && (id + "_wait")[|id| + 1] == 'w';
    assert (id + "_check")[|id| + 2] == 'h' && (id + "_clock")[|id| + 2] == 'l';
  }

  function Booked(l: Layout, i: nat): set<string>
  {
    var id := l.block.loop.id;
    Names(Shift(l.block, i, false), {TickId(l.block.loop), id + "_check"} + if Timed(l.block.loop) then {id + "_clock"}
      else {})
  }

  lemma NamesOne(s: Shift, x: string)
    requires s.index >= 0
    ensures Names(s, {x}) == {NameOf(x, s.index, s.block.chunk)}
  {
  }

  lemma NamesMore(s: Shift, a: set<string>, b: set<string>)
    requires s.index >= 0
    ensures Names(s, a + b) == Names(s, a) + Names(s, b)
  {
  }

  lemma NameGranted(st: Build, x: string)
    requires Tidy(st) && Sayable(x)
    ensures Reserve(st, Some(x)).Ok? <==> x !in st.ids
    ensures Reserve(st, Some(x)).Ok? ==>
      Adds(st, Reserve(st, Some(x)).value.1, {x}) && Tidy(Reserve(st, Some(x)).value.1)
    ensures Reserve(st, Some(x)).Ok? ==>
      Reserve(st, Some(x)).value.0 == x && Reserve(st, Some(x)).value.1.exits == st.exits
  {
    NameReserve(st, x);
  }

  /** Two names in a row. */
  lemma TwoGranted(st: Build, x: string, y: string)
    requires Tidy(st) && Sayable(x) && Sayable(y) && x != y && Reserve(st, Some(x)).Ok?
    ensures Reserve(Reserve(st, Some(x)).value.1, Some(y)).Ok? <==> y !in st.ids
    ensures Reserve(Reserve(st, Some(x)).value.1, Some(y)).Ok? ==>
      Adds(st, Reserve(Reserve(st, Some(x)).value.1, Some(y)).value.1, {x, y})
  {
    NameReserve(st, x);
    NameReserve(Reserve(st, Some(x)).value.1, y);
  }

  lemma BookedIs(l: Layout, i: nat)
    ensures var tick, check, clock := Checked(l.block, "_tick", i), Checked(l.block, "_check", i),
      Checked(l.block, "_clock", i);
      Booked(l, i) == if Timed(l.block.loop) then {tick, check} + {clock} else {tick, check}
  {
    hide NameOf;
  }

  lemma BookkeptGranted(l: Layout, i: nat, st: Build)
    requires Tidy(st) && l.block.loop.id != ""
    ensures Grants(st, Bookkept(l, i, st).Ok?, if Bookkept(l, i, st).Ok? then Bookkept(l, i, st).value
      else st, Booked(l, i), true)
    ensures Bookkept(l, i, st).Ok? ==> Bookkept(l, i, st).value.exits == st.exits
  {
    hide Tidy, Adds, Sayable, ClockInput, NameOf, TickId, Booked;
    var s, id := Shift(l.block, i, false), l.block.loop.id;
    BookkeepingIsSayable(id);
    BookkeepingDiffers(id);
    var tick, check, clock := Checked(l.block, "_tick", i), Checked(l.block, "_check", i),
      Checked(l.block, "_clock", i);
    NameIsSayable(id + "_tick", i, l.block.chunk);
    NameIsSayable(id + "_check", i, l.block.chunk);
    NameIsSayable(id + "_clock", i, l.block.chunk);
    NameInjective(id + "_tick", id + "_check", i, l.block.chunk);
    NameInjective(id + "_tick", id + "_clock", i, l.block.chunk);
    NameInjective(id + "_check", id + "_clock", i, l.block.chunk);
    BookedIs(l, i);
    NameGranted(st, tick);
    if Reserve(st, Some(tick)).Ok? {
      var st1 := Reserve(st, Some(tick)).value.1;
      TwoGranted(st, tick, check);
      NameGranted(st1, check);
      if Reserve(st1, Some(check)).Ok? {
        var st2 := Reserve(st1, Some(check)).value.1;
        assert AllSayable({clock});
        FreeLater(st, st2, {tick, check}, {clock});
        NameGranted(st2, clock);
        if Timed(l.block.loop) && Reserve(st2, Some(clock)).Ok? {
          var st3 := Reserve(st2, Some(clock)).value.1;
          AddsThrough(st, st2, st3, {tick, check}, {clock});
          AddsNode(st, st3, {tick, check} + {clock}, clock,
            Helper(ClockInput(l.block, i), Checked(l.block, "_expired", i)), "");
        }
      }
    }
  }

  /** With its exit in place already, a tick needs only its bookkeeping names and its input. */
  lemma TickGranted(l: Layout, i: nat, next: string, st: Build)
    requires Tidy(st) && l.block.loop.id != "" && "" !in l.tail && (Timed(l.block.loop) ==> Left(l, i, st))
    ensures var r := CompileTick(l, i, next, st);
      && Grants(st, r.Ok?, if r.Ok? then r.value.1 else st, Booked(l, i), TickInput(l.block, l.text, i).Ok?)
      && (r.Ok? ==> r.value.1.exits == st.exits)
  {
    hide Tidy, Adds, Sayable, ExitEntry, TickInput, Booked, CompileClock, Checked;
    BookkeptGranted(l, i, st);
    if Bookkept(l, i, st).Ok? && TickInput(l.block, l.text, i).Ok? {
      var st3, input := Bookkept(l, i, st).value, TickInput(l.block, l.text, i).value;
      var tick, check := Checked(l.block, "_tick", i), Checked(l.block, "_check", i);
      assert Tidy(st3) by { AddsTidy(st, st3, Booked(l, i)); }
      AddsNode(st, st3, Booked(l, i), tick, Helper(input, next), "");
      AddsNode(st, st3, Booked(l, i), tick, Helper(input, check), "");
      var st4 := Add(st3, tick, Helper(input, check), "");
      assert Tidy(st4) by { AddsTidy(st, st4, Booked(l, i)); }
      if Timed(l.block.loop) { ExitGranted(l, i, st4); }
      var target := if Timed(l.block.loop) then ExitEntry(l, i, st4).value.0 else l.after;
      AddsNode(st, st4, Booked(l, i), check, Switch([Case(DoneTest(tick), target)], next), "");
    }
  }

  function BodyNames(l: Layout, i: nat): set<string> { Names(Shift(l.block, i, false), IdsOf(l.block.loop.body)) }

  lemma BodyGranted(l: Layout, i: nat, tick: string, st: Build)
    requires Tidy(st) && SayableLoop(l) && BodyOf(l, i).Ok?
    ensures var r := CompileOps(BodyOf(l, i).value, tick, "", st);
      Granted(st, r, BodyNames(l, i), AllWellMade(l.block.loop.body) && AllUnique(l.block.loop.body))
  {
    hide Granted, Tidy;
    var s, body := Shift(l.block, i, false), BodyOf(l, i).value;
    RewrittenShape(s, l.text, l.block.loop.body);
    AllRewrittenFit(s, l.text, l.block.loop.body);
    forall x | x in IdsOf(body) ensures Sayable(x) {
      var y :| y in IdsOf(l.block.loop.body) && x == NameOf(y, i, l.block.chunk);
      NameIsSayable(y, i, l.block.chunk);
    }
    OpsGranted(body, tick, "", st);
  }

  /** Laying out the front of a timed pass: its expiry check and the exit it may take. */
  function FrontNames(l: Layout, i: nat): set<string>
  {
    if Timed(l.block.loop) then {Checked(l.block, "_expired", i)} + ExitIds(l, i - 1) else {}
  }

  lemma FrontGranted(l: Layout, i: nat, body: string, st: Build)
    requires Tidy(st) && SayableLoop(l) && i < l.block.chunk && i - 1 !in st.exits
    ensures var r := CompileExpiry(l, i, body, st);
      && Grants(st, r.Ok?, if r.Ok? then r.value.1 else st, FrontNames(l, i), FrontFits(l, i))
      && (r.Ok? ==> r.value.1.exits.Keys == st.exits.Keys + Exited(l, i))
  {
    hide Tidy, Adds, Sayable, ExitEntry, Checked, Copyable;
    if !Timed(l.block.loop) {
      NothingAdded(st);
    } else {
      var expired := Checked(l.block, "_expired", i);
      ExpiredIsSayable(l, i);
      ExitIdsAreSayable(l, i - 1);
      NameGranted(st, expired);
      NothingToCopy(l, i - 1);
      if Reserve(st, Some(expired)).Ok? {
        var st1 := Reserve(st, Some(expired)).value.1;
        ExitGranted(l, i - 1, st1);
        FreeLater(st, st1, {expired}, ExitIds(l, i - 1));
        ExpiredIsNoExit(l, i);
        if ExitEntry(l, i - 1, st1).Ok? {
          var (target, st2) := ExitEntry(l, i - 1, st1).value;
          if l.tail == {} { NothingAdded(st1); }
          AddsThrough(st, st1, st2, {expired}, ExitIds(l, i - 1));
          AddsNode(st, st2, {expired} + ExitIds(l, i - 1), expired,
            Switch([Case(DoneTest(Checked(l.block, "_clock", i)), target)], body), "");
        }
      }
    }
  }

  /** The exits in place once the front of pass i is. */
  function Exited(l: Layout, i: nat): set<int>
  {
    if Timed(l.block.loop) && l.tail != {} then {i - 1} else {}
  }

  predicate FrontFits(l: Layout, i: nat)
  {
    Timed(l.block.loop) ==>
      (l.tail != {} ==> Copyable(l, i - 1)) && Checked(l.block, "_expired", i) !in ExitIds(l, i - 1)
  }

  lemma ExpiredIsSayable(l: Layout, i: nat)
    requires l.block.loop.id != ""
    ensures Sayable(Checked(l.block, "_expired", i))
  {
    BookkeepingIsSayable(l.block.loop.id);
    NameIsSayable(l.block.loop.id + "_expired", i, l.block.chunk);
  }

  lemma NothingToCopy(l: Layout, k: int)
    requires k >= -1
    ensures l.tail == {} ==> ExitIds(l, k) == {}
  {
  }

  lemma ExpiredIsNoExit(l: Layout, i: nat)
    ensures Checked(l.block, "_expired", i) !in ExitIds(l, i - 1) <==>
      ExitIds(l, i - 1) !! {Checked(l.block, "_expired", i)}
  {
  }

  function PauseNames(l: Layout, i: nat): set<string>
  {
    if i > 0 then {NameOf(l.block.loop.id + "_wait", i - 1, l.block.chunk)} else {}
  }

  lemma PauseGranted(l: Layout, i: nat, first: string, st: Build)
    requires Tidy(st) && l.block.loop.id != ""
    ensures var r := CompilePause(l, i, first, st);
      && Grants(st, r.Ok?, if r.Ok? then r.value.1 else st, PauseNames(l, i), true)
      && (r.Ok? ==> r.value.1.exits == st.exits)
  {
    if i == 0 {
      NothingAdded(st);
    } else {
      BookkeepingIsSayable(l.block.loop.id);
      NameIsSayable(l.block.loop.id + "_wait", i - 1, l.block.chunk);
      NameGranted(st, NameOf(l.block.loop.id + "_wait", i - 1, l.block.chunk));
    }
  }

  // ---------------------------------------------------------------- whole passes

  /** The names of the stages are those of the pass, and lie apart when the pass is apart. */
  lemma StagesAreNames(l: Layout, i: nat)
    requires l.block.loop.id != ""
    ensures AllNames(l, i) == Booked(l, i) + BodyNames(l, i) + FrontNames(l, i) + PauseNames(l, i)
    ensures Apart(l, i) && FrontFits(l, i) <==>
      && AllUnique(l.block.loop.body) && BodyNames(l, i) !! Booked(l, i) && FrontFits(l, i)
      && StagesApart(l, i)
    ensures Apart(l, i) && Timed(l.block.loop) ==> Checked(l.block, "_expired", i) !in ExitIds(l, i - 1)
  {
    hide ExitIds, NameOf;
    var s, loop := Shift(l.block, i, false), l.block.loop;
    var book := {TickId(loop), loop.id + "_check"} + if Timed(loop) then {loop.id + "_clock"} else {};
    var expired := if Timed(loop) then {loop.id + "_expired"} else {};
    assert Bookkeeping(loop) == book + expired;
    NamesMore(s, IdsOf(loop.body), Bookkeeping(loop));
    NamesMore(s, book, expired);
    if Timed(loop) { NamesOne(s, loop.id + "_expired"); }
    RenamedApart(s, IdsOf(loop.body), Bookkeeping(loop));
    RenamedApart(s, book, expired);
    BookkeepingDiffers(loop.id);
    assert OwnNames(l, i) == BodyNames(l, i) + Names(s, book) + Names(s, expired);
  }

  lemma NamesAreSayable(l: Layout, i: nat)
    requires SayableLoop(l)
    ensures AllSayable(AllNames(l, i)) && AllSayable(BodyNames(l, i)) && AllSayable(FrontNames(l, i))
      && AllSayable(PauseNames(l, i))
  {
    hide Sayable, ExitIds;
    var loop := l.block.loop;
    BookkeepingIsSayable(loop.id);
    forall x | x in IdsOf(loop.body) + Bookkeeping(loop) ensures Sayable(NameOf(x, i, l.block.chunk)) {
      NameIsSayable(x, i, l.block.chunk);
    }
    if i > 0 { NameIsSayable(loop.id + "_wait", i - 1, l.block.chunk); }
    ExitIdsAreSayable(l, i - 1);
    ExpiredIsSayable(l, i);
    StagesAreNames(l, i);
  }

  /** A pass compiles exactly when it fits, its own names lie apart, and all of them are free. */
  lemma PassGranted(l: Layout, i: nat, next: string, st: Build)
    requires Tidy(st) && SayableLoop(l) && i < l.block.chunk && (Timed(l.block.loop) ==> Left(l, i, st))
      && i - 1 !in st.exits
    ensures var r := CompilePass(l, i, next, st);
      && Grants(st, r.Ok?, if r.Ok? then r.value.1 else st, AllNames(l, i), Fits(l, i) && Apart(l, i))
      && (r.Ok? ==> r.value.1.exits.Keys == st.exits.Keys + Exited(l, i))
  {
    hide Tidy, Adds, AllSayable, CompileTick, CompileExpiry, CompilePause, Apart, AllNames, Booked, BodyNames,
      FrontNames, PauseNames, TickInput, Copyable, Left, Exited, ExitIds, AllUnique, AllWellMade;
    StagesAreNames(l, i);
    NamesAreSayable(l, i);
    TickGranted(l, i, next, st);
    if CompileTick(l, i, next, st).Ok? && BodyOf(l, i).Ok? {
      var (tick, st1) := CompileTick(l, i, next, st).value;
      AddsTidy(st, st1, Booked(l, i));
      BodyGranted(l, i, tick, st1);
      FreeLater(st, st1, Booked(l, i), BodyNames(l, i));
      var body := BodyOf(l, i).value;
      if CompileOps(body, tick, "", st1).Ok? {
        var (entry, st2) := CompileOps(body, tick, "", st1).value;
        AddsThrough(st, st1, st2, Booked(l, i), BodyNames(l, i));
        RestGranted(l, i, entry, st, st2);
        var front := CompileExpiry(l, i, entry, st2);
        assert CompilePass(l, i, next, st) == if front.Ok? then CompilePause(l, i, front.value.0, front.value.1)
          else front;
        var names := FrontNames(l, i) + PauseNames(l, i);
        assert AllNames(l, i) !! st.ids <==> Booked(l, i) !! st.ids && BodyNames(l, i) !! st.ids && names !! st.ids;
      }
    }
  }

  predicate StagesApart(l: Layout, i: nat)
  {
    && FrontNames(l, i) !! Booked(l, i) + BodyNames(l, i)
    && PauseNames(l, i) !! Booked(l, i) + BodyNames(l, i) + FrontNames(l, i)
  }

  /** From the body on. */
  lemma RestGranted(l: Layout, i: nat, entry: string, st: Build, st2: Build)
    requires Adds(st, st2, Booked(l, i) + BodyNames(l, i)) && SayableLoop(l) && i < l.block.chunk && i - 1 !in st2.exits
    ensures var r := CompileExpiry(l, i, entry, st2);
      var q := if r.Ok? then CompilePause(l, i, r.value.0, r.value.1) else r;
      var names := FrontNames(l, i) + PauseNames(l, i);
      && (q.Ok? <==> FrontFits(l, i) && names !! st.ids && StagesApart(l, i))
      && (q.Ok? ==> Adds(st, q.value.1, Booked(l, i) + BodyNames(l, i) + FrontNames(l, i) + PauseNames(l, i)))
      && (q.Ok? ==> q.value.1.exits.Keys == st2.exits.Keys + Exited(l, i))
  {
    hide Tidy, Adds, AllSayable, CompileExpiry, CompilePause, Booked, BodyNames, FrontNames, PauseNames, Copyable,
      Exited, ExitIds, FrontFits;
    var so := Booked(l, i) + BodyNames(l, i);
    NamesAreSayable(l, i);
    AddsTidy(st, st2, so);
    FrontGranted(l, i, entry, st2);
    FreeLater(st, st2, so, FrontNames(l, i));
    if CompileExpiry(l, i, entry, st2).Ok? {
      var (first, st3) := CompileExpiry(l, i, entry, st2).value;
      AddsThrough(st, st2, st3, so, FrontNames(l, i));
      AddsTidy(st2, st3, FrontNames(l, i));
      PauseGranted(l, i, first, st3);
      FreeLater(st, st3, so + FrontNames(l, i), PauseNames(l, i));
      if CompilePause(l, i, first, st3).Ok? {
        AddsThrough(st, st3, CompilePause(l, i, first, st3).value.1, so + FrontNames(l, i), PauseNames(l, i));
      }
    }
  }

  // ---------------------------------------------------------------- all passes of a block

  predicate AllFree(l: Layout, n: nat, ids: set<string>) { forall i | 0 <= i < n :: AllNames(l, i) !! ids }

  predicate AllApart(l: Layout, n: nat)
  {
    && (forall i | 0 <= i < n :: Apart(l, i))
    && forall i, j | 0 <= i < j < n :: AllNames(l, i) !! AllNames(l, j)
  }

  predicate AllFit(l: Layout, n: nat) { forall i | 0 <= i < n :: Fits(l, i) }

  /** The exits taken by the passes from n on. */
  ghost predicate ExitsFrom(l: Layout, n: nat, st: Build)
  {
    forall k :: k in st.exits <==> Timed(l.block.loop) && l.tail != {} && n - 1 <= k < l.block.chunk - 1
  }

  /** The passes of a block compile exactly when each fits and all their names are distinct and free. */
  lemma {:induction false} PassesGranted(l: Layout, n: nat, next: string, st: Build)
    requires Tidy(st) && SayableLoop(l) && n <= l.block.chunk && ExitsFrom(l, n, st)
    ensures CompilePasses(l, n, next, st).Ok? <==> AllFit(l, n) && AllApart(l, n) && AllFree(l, n, st.ids)
    decreases n
  {
    hide Tidy, Adds, Fits, Apart, AllNames, CompilePass, SayableLoop, ExitsFrom;
    if n > 0 {
      assert (Timed(l.block.loop) ==> Left(l, n - 1, st)) && n - 2 !in st.exits by { LeftAlready(l, n, st); }
      PassGranted(l, n - 1, next, st);
      if CompilePass(l, n - 1, next, st).Ok? {
        var (entry, st1) := CompilePass(l, n - 1, next, st).value;
        AddsTidy(st, st1, AllNames(l, n - 1));
        ExitsStep(l, n, st, st1);
        PassesGranted(l, n - 1, entry, st1);
        forall i | 0 <= i < n - 1 ensures AllNames(l, i) !! st1.ids <==>
          AllNames(l, i) !! st.ids && AllNames(l, i) !! AllNames(l, n - 1) {
          NamesAreSayable(l, i);
          FreeLater(st, st1, AllNames(l, n - 1), AllNames(l, i));
        }
      }
    }
  }

  lemma LeftAlready(l: Layout, n: nat, st: Build)
    requires 0 < n <= l.block.chunk && ExitsFrom(l, n, st)
    ensures (Timed(l.block.loop) ==> Left(l, n - 1, st)) && n - 2 !in st.exits
  {
  }

  lemma ExitsStep(l: Layout, n: nat, a: Build, b: Build)
    requires 0 < n <= l.block.chunk && ExitsFrom(l, n, a) && b.exits.Keys == a.exits.Keys + Exited(l, n - 1)
    ensures ExitsFrom(l, n - 1, b)
  {
    forall k ensures k in b.exits <==> k in a.exits || k in Exited(l, n - 1) { assert k in b.exits <==>
      k in b.exits.Keys; }
  }
}
