/** When a block of a repeat compiles at all: exactly when the names its passes and exits reserve are
    distinct and free, its operations are well made, its templates are text, and its first pass has
    every seed. With plain ids and no deadline the names are so exactly when no id is given twice. */
module FirstBlocks {
  import opened Json
  import opened Plan
  import opened Graph
  import opened Meaning
  import opened Compiler
  import opened Discipline
  import opened Shifting
  import opened Growth
  import opened Placement
  import opened PassWalk
  import opened Reserving
  import opened PassNames
  import opened Blocks
  import opened Assembly
  import opened Chain
  import opened Sowing
  import opened Wording
  import opened Resolving
  import opened Succession
  import opened Resumable

  // ---------------------------------------------------------------- plain ids

  /** An id without an underscore. Whatever the compiler derives puts one behind it. */
  predicate Bare(x: string) { x != "" && x != END && '_' !in x }

  predicate BareIds(loop: Repeat, after: seq<Op>)
  {
    forall x | x in IdsOf(loop.body) + IdsOf(after) + {loop.id} :: Bare(x)
  }

  predicate GivenOnce(loop: Repeat, after: seq<Op>)
  {
    && AllUnique(loop.body) && AllUnique(after)
    && IdsOf(loop.body) !! IdsOf(after) && loop.id !in IdsOf(loop.body) + IdsOf(after)
  }

  lemma BareIsSayable(x: string)
    requires Bare(x)
    ensures Sayable(x)
  {
    if |x| > 3 { assert x[2] == x[..3][2]; }
  }

  predicate Tag(s: string) { s == "" || s[0] == '_' }

  lemma NoShorter(x: string, y: string, s: string, t: string)
    requires Bare(x) && Bare(y) && Tag(s) && Tag(t) && x + s == y + t
    ensures |x| >= |y|
  {
    var k := if |x| < |y| then |x| else 0;
    assert (x + s)[k] == (y + t)[k] == y[k];
  }

  /** An id and what was derived from it can be told apart. */
  lemma BaseAndTag(x: string, y: string, s: string, t: string)
    requires Bare(x) && Bare(y) && Tag(s) && Tag(t) && x + s == y + t
    ensures x == y && s == t
  {
    NoShorter(x, y, s, t);
    NoShorter(y, x, t, s);
    var n := x + s;
    assert x == n[..|x|] && y == n[..|y|];
    assert s == n[|x|..] && t == n[|y|..];
  }

  // ---------------------------------------------------------------- names of passes

  function PassTag(i: int, chunk: nat): string
    requires i >= 0
  {
    if i + 1 == chunk then "" else "__rs_" + Digits(i + 1)
  }

  lemma PassTagTells(i: nat, j: nat, chunk: nat)
    requires PassTag(i, chunk) == PassTag(j, chunk)
    ensures i == j
  {
    if i + 1 != chunk && j + 1 != chunk {
      assert PassTag(i, chunk)[5..] == Digits(i + 1) && PassTag(j, chunk)[5..] == Digits(j + 1);
      DecimalRoundTrip(i + 1);
      DecimalRoundTrip(j + 1);
    }
  }

  /** What a name of pass i was derived from. */
  predicate Source(loop: Repeat, i: nat, x: string, mark: string, k: int)
  {
    || (x in IdsOf(loop.body) && mark == "" && k == i)
    || (x == loop.id && (mark == "_tick" || mark == "_check") && k == i)
    || (x == loop.id && mark == "_wait" && k == i - 1 && i > 0)
  }

  /** One letter tells the compiler's own marks apart. */
  lemma MarksTell(a: string, b: string, s: string, t: string)
    requires a in {"_tick", "_check", "_wait"} && b in {"_tick", "_check", "_wait"} && a + s == b + t
    ensures a == b && s == t
  {
    assert (a + s)[1] == a[1] && (b + t)[1] == b[1];
    assert a == b;
    assert s == (a + s)[|a|..] && t == (b + t)[|b|..];
  }

  lemma SourceTells(loop: Repeat, after: seq<Op>, chunk: nat, i: nat, j: nat, x: string, y: string, a: string,
      b: string, h: int, k: int)
    requires BareIds(loop, after) && loop.id !in IdsOf(loop.body) && i < chunk && j < chunk
    requires Source(loop, i, x, a, h) && Source(loop, j, y, b, k)
    requires x + (a + PassTag(h, chunk)) == y + (b + PassTag(k, chunk))
    ensures i == j && x == y && a == b
  {
    hide PassTag;
    assert Tag(a + PassTag(h, chunk)) && Tag(b + PassTag(k, chunk)) by {
      TagsAreTags(a, h, chunk); TagsAreTags(b, k, chunk); }
    BaseAndTag(x, y, a + PassTag(h, chunk), b + PassTag(k, chunk));
    if a == "" {
      assert x != loop.id && b == "";
      assert a + PassTag(h, chunk) == PassTag(h, chunk) && b + PassTag(k, chunk) == PassTag(k, chunk);
    } else {
      MarksTell(a, b, PassTag(h, chunk), PassTag(k, chunk));
    }
    PassTagTells(h, k, chunk);
  }

  lemma TagsAreTags(mark: string, k: int, chunk: nat)
    requires k >= 0 && Tag(mark)
    ensures Tag(mark + PassTag(k, chunk))
  {
  }

  /** Where a name of a pass that is not timed comes from. */
  lemma OwnHasSource(l: Layout, i: nat, n: string) returns (x: string, mark: string)
    requires !Timed(l.block.loop) && n in OwnNames(l, i) && i < l.block.chunk
    ensures Source(l.block.loop, i, x, mark, i) && mark != "_wait" && n == x + (mark + PassTag(i, l.block.chunk))
  {
    var loop, chunk := l.block.loop, l.block.chunk;
    var y :| y in IdsOf(loop.body) + Bookkeeping(loop) && n == NameOf(y, i, chunk);
    if y in IdsOf(loop.body) { x, mark := y, ""; }
    else if y == TickId(loop) { x, mark := loop.id, "_tick"; }
    else { x, mark := loop.id, "_check"; }
    assert y == x + mark;
    assert n == y + PassTag(i, chunk);
  }

  lemma WayHasSource(l: Layout, i: nat, n: string)
    requires !Timed(l.block.loop) && n in WayNames(l, i) && i < l.block.chunk
    ensures i > 0 && Source(l.block.loop, i, l.block.loop.id, "_wait", i - 1)
    ensures n == l.block.loop.id + ("_wait" + PassTag(i - 1, l.block.chunk))
  {
    assert n == NameOf(l.block.loop.id + "_wait", i - 1, l.block.chunk);
    assert n == l.block.loop.id + "_wait" + PassTag(i - 1, l.block.chunk);
  }

  lemma NameHasSource(l: Layout, i: nat, n: string) returns (x: string, mark: string, k: int)
    requires !Timed(l.block.loop) && n in AllNames(l, i) && i < l.block.chunk
    ensures Source(l.block.loop, i, x, mark, k) && n == x + (mark + PassTag(k, l.block.chunk))
  {
    hide Source, OwnNames, WayNames, PassTag;
    if n in OwnNames(l, i) {
      x, mark := OwnHasSource(l, i, n);
      k := i;
    } else {
      WayHasSource(l, i, n);
      x, mark, k := l.block.loop.id, "_wait", i - 1;
    }
  }

  // ---------------------------------------------------------------- plain names are distinct and free

  lemma PassesApart(l: Layout, after: seq<Op>, i: nat, j: nat)
    requires !Timed(l.block.loop) && BareIds(l.block.loop, after) && GivenOnce(l.block.loop, after)
      && i < j < l.block.chunk
    ensures AllNames(l, i) !! AllNames(l, j)
  {
    hide Source, AllNames, PassTag, BareIds;
    forall n | n in AllNames(l, i) ensures n !in AllNames(l, j) {
      if n in AllNames(l, j) {
        var x, a, h := NameHasSource(l, i, n);
        var y, b, k := NameHasSource(l, j, n);
        SourceTells(l.block.loop, after, l.block.chunk, i, j, x, y, a, b, h, k);
      }
    }
  }

  lemma PassApart(l: Layout, after: seq<Op>, i: nat)
    requires !Timed(l.block.loop) && BareIds(l.block.loop, after) && GivenOnce(l.block.loop, after) && i < l.block.chunk
    ensures Apart(l, i)
  {
    hide Source, OwnNames, WayNames, PassTag;
    forall n | n in OwnNames(l, i) ensures n !in WayNames(l, i) {
      if n in WayNames(l, i) {
        var x, a := OwnHasSource(l, i, n);
        WayHasSource(l, i, n);
        SourceTells(l.block.loop, after, l.block.chunk, i, i, x, l.block.loop.id, a, "_wait", i, i - 1);
      }
    }
    assert IdsOf(l.block.loop.body) !! Bookkeeping(l.block.loop) by {
      var id := l.block.loop.id;
      assert Bookkeeping(l.block.loop) == {id + "_tick", id + "_check"};
      assert (id + "_tick")[|id|] == '_' && (id + "_check")[|id|] == '_';
      forall x | x in IdsOf(l.block.loop.body) ensures x !in Bookkeeping(l.block.loop) { assert Bare(x); }
    }
  }

  lemma PassFree(l: Layout, after: seq<Op>, i: nat, ids: set<string>)
    requires !Timed(l.block.loop) && BareIds(l.block.loop, after) && GivenOnce(l.block.loop, after) && i < l.block.chunk
    requires SayableLoop(l) && forall x | x in ids && !AutoLike(x) :: x in IdsOf(after) || x == l.block.loop.id
    ensures AllNames(l, i) !! ids + HandNames(l.block)
  {
    hide AllNames, SayableLoop;
    NamesAreSayable(l, i);
    forall n | n in AllNames(l, i) ensures n !in ids + HandNames(l.block) {
      var x, mark, k := NameHasSource(l, i, n);
      var tag := mark + PassTag(k, l.block.chunk);
      TagsAreTags(mark, k, l.block.chunk);
      assert Sayable(n);
      if n in ids {
        assert n + "" == n;
        BaseAndTag(x, n, tag, "");
      }
      if n in HandNames(l.block) { HandIsApart(l.block.loop, after, x, mark, k, l.block.chunk, i); }
    }
  }

  lemma HandIsApart(loop: Repeat, after: seq<Op>, x: string, mark: string, k: int, chunk: nat, i: nat)
    requires BareIds(loop, after) && loop.id !in IdsOf(loop.body) && Source(loop, i, x, mark, k)
    ensures x + (mark + PassTag(k, chunk)) != loop.id + "_continue"
      && x + (mark + PassTag(k, chunk)) != loop.id + "_boundary_wait"
  {
    hide PassTag;
    var tag := mark + PassTag(k, chunk);
    TagsAreTags(mark, k, chunk);
    if mark != "" { HandMarks(mark, PassTag(k, chunk)); }
    if x + tag == loop.id + "_continue" { BaseAndTag(x, loop.id, tag, "_continue"); }
    if x + tag == loop.id + "_boundary_wait" { BaseAndTag(x, loop.id, tag, "_boundary_wait"); }
  }

  lemma HandMarks(mark: string, rest: string)
    requires mark in {"_tick", "_check", "_wait"}
    ensures mark + rest != "_continue" && mark + rest != "_boundary_wait"
  {
    assert (mark + rest)[1] == mark[1] && (mark + rest)[2] == mark[2];
  }

  // ---------------------------------------------------------------- where the repeat is laid out

  lemma IdsAreSayable(loop: Repeat, after: seq<Op>)
    requires BareIds(loop, after)
    ensures SayableIds(loop, after)
  {
    hide Sayable;
    forall x | x in IdsOf(loop.body) + IdsOf(after) + {loop.id} ensures Sayable(x) { BareIsSayable(x); }
  }

  /** The after-steps and the repeat's own id are in place exactly when no id is given twice there. */
  lemma BaseGranted(loop: Repeat, after: seq<Op>)
    requires SayableIds(loop, after) && AllPlain(after)
    ensures (exists tail, base :: Bases(loop, after, tail, base)) <==>
      AllWellMade(after) && AllUnique(after) && loop.id !in IdsOf(after)
    ensures forall tail, base | Bases(loop, after, tail, base) :: forall x | x in base.ids && !AutoLike(x) ::
      x in IdsOf(after) || x == loop.id
    ensures forall tail, base | Bases(loop, after, tail, base) :: IdsOf(after) + {loop.id} <= base.ids
  {
    hide CompileOps, Tidy;
    PlainHasNoParallel(after);
    assert Tidy(EMPTY) by { NothingTidy(); }
    OpsGranted(after, END, "", EMPTY);
    if CompileOps(after, END, "", EMPTY).Ok? {
      var (entry, st1) := CompileOps(after, END, "", EMPTY).value;
      assert Tidy(st1) by { AddsTidy(EMPTY, st1, IdsOf(after)); }
      NameReserve(st1, loop.id);
      if Reserve(st1, Some(loop.id)).Ok? { assert Bases(loop, after, entry, Reserve(st1, Some(loop.id)).value.1); }
    }
  }

  lemma NothingTidy()
    ensures Tidy(EMPTY)
  {
  }

  lemma HandsFree(l: Layout, after: seq<Op>, ids: set<string>)
    requires BareIds(l.block.loop, after) && forall x | x in ids && !AutoLike(x) ::
      x in IdsOf(after) || x == l.block.loop.id
    ensures HandNames(l.block) !! ids
  {
    var id := l.block.loop.id;
    assert Bare(id);
    BookkeepingIsSayable(id);
    assert (id + "_continue")[|id|] == '_' && (id + "_boundary_wait")[|id|] == '_';
    forall n | n in HandNames(l.block) ensures n !in ids {
      assert Sayable(n) && '_' in n;
      assert n in IdsOf(after) + {id} ==> Bare(n);
    }
  }

  /** What a block reserves is distinct, and free where its repeat starts. */
  predicate NamesFree(l: Layout, ids: set<string>)
  {
    HandNames(l.block) !! ids && AllApart(l, l.block.chunk) && AllFree(l, l.block.chunk, ids + HandNames(l.block))
  }

  /** With plain ids, a block's names are distinct and free exactly when no id is given twice. */
  lemma NamesGranted(l: Layout, after: seq<Op>, ids: set<string>)
    requires !Timed(l.block.loop) && BareIds(l.block.loop, after) && SayableLoop(l) && l.block.chunk > 0
    requires AllUnique(after) && l.block.loop.id !in IdsOf(after) && IdsOf(after) + {l.block.loop.id} <= ids
    requires forall x | x in ids && !AutoLike(x) :: x in IdsOf(after) || x == l.block.loop.id
    ensures NamesFree(l, ids) <==> GivenOnce(l.block.loop, after)
  {
    hide SayableLoop, BareIds, AllNames;
    var n := l.block.chunk;
    if GivenOnce(l.block.loop, after) {
      HandsFree(l, after, ids);
      forall i | 0 <= i < n ensures Apart(l, i) && AllNames(l, i) !! ids + HandNames(l.block) {
        PassApart(l, after, i);
        PassFree(l, after, i, ids);
      }
      forall i, j | 0 <= i < j < n ensures AllNames(l, i) !! AllNames(l, j) { PassesApart(l, after, i, j); }
    }
    if AllApart(l, n) && AllFree(l, n, ids + HandNames(l.block)) { OnceGiven(l, after, ids + HandNames(l.block)); }
  }

  lemma OnceGiven(l: Layout, after: seq<Op>, ids: set<string>)
    requires l.block.chunk > 0 && AllApart(l, l.block.chunk) && AllFree(l, l.block.chunk, ids)
    requires AllUnique(after) && l.block.loop.id !in IdsOf(after) && IdsOf(after) + {l.block.loop.id} <= ids
    ensures GivenOnce(l.block.loop, after)
  {
    hide AllNames;
    LastNames(l);
    assert Apart(l, 0) && AllNames(l, l.block.chunk - 1) !! ids;
  }

  lemma LastNames(l: Layout)
    requires l.block.chunk > 0
    ensures IdsOf(l.block.loop.body) <= AllNames(l, l.block.chunk - 1)
  {
    forall x | x in IdsOf(l.block.loop.body) ensures x in OwnNames(l, l.block.chunk - 1) {
      assert NameOf(x, l.block.chunk - 1, l.block.chunk) == x;
    }
  }

  // ---------------------------------------------------------------- compiling from scratch

  /** All the text of a plan's templates is text, and its calls and raw paths are well made. */
  predicate WellSaid(loop: Repeat, after: seq<Op>)
  {
    && AllWellMade(loop.body) && AllWellMade(after) && OpsWorded(loop.body) && OpsWorded(after)
    && forall i | 0 <= i < |loop.state| :: Worded(loop.state[i].value)
  }

  lemma FreshOk(loop: Repeat)
    ensures BlockOf(loop, map[]).Ok?
  {
  }

  /** The block a continuation asks for, and the carry it starts from. */
  predicate Begun(loop: Repeat, continuation: map<string, Json>, resume: Option<string>, b: Block, c: Carry)
  {
    && (resume.None? || resume == Some(loop.id)) && BlockOf(loop, continuation) == Ok(b)
    && b.loop == loop && b.chunk > 0 && b.remaining != Some(0) && StartsFrom(b, c)
    && c.state.Obj? && loop.initial.Keys <= c.state.fields.Keys
  }

  /** The after-steps can be compiled, and behind them the block's names are free. */
  ghost predicate NamesFit(loop: Repeat, after: seq<Op>, b: Block, text: Json -> string)
  {
    exists tail, base :: Bases(loop, after, tail, base) && NamesFree(LayoutOf(b, tail, base, text), base.ids)
  }

  lemma BaseDecides(loop: Repeat, after: seq<Op>, text: Json -> string, continuation: map<string, Json>,
      resume: Option<string>, b: Block, c: Carry, tail: string, base: Build)
    requires LoopingOk([], loop, after) && SayableIds(loop, after) && Begun(loop, continuation, resume, b, c)
      && Bases(loop, after, tail, base)
    ensures CompileDraft(Looping([], loop, after), continuation, resume, text).Ok? ==>
      NamesFree(LayoutOf(b, tail, base, text), base.ids) && AllWellMade(loop.body) && AllWellMade(after)
    ensures NamesFree(LayoutOf(b, tail, base, text), base.ids) && WellSaid(loop, after) && Resumes(loop, after, c) ==>
      CompileDraft(Looping([], loop, after), continuation, resume, text).Ok?
  {
    hide CompileDraft, BlockOf, Bases, Reach, AllPlain, OpsOk, StateOk, SayableLoop, Tidy, RepeatOk, AllApart, AllFree,
      HandNames, Fits, SayableIds;
    var plan, l := Looping([], loop, after), LayoutOf(b, tail, base, text);
    BaseIsTidy(loop, after, tail, base);
    BlockIsSayable(b, after, tail, base, text);
    DraftIsRepeat(loop, after, continuation, resume, text, b, tail, base);
    RepeatGranted(l, plan, base);
    if CompileDraft(plan, continuation, resume, text).Ok? { assert Fits(l, 0) && AllWellMade(loop.body) by {
      FitsWellMade(l); } }
    if WellSaid(loop, after) && Resumes(loop, after, c) {
      StateIsPlain(loop, after);
      SownBlock(l, after, c);
      BasesCompile(loop, after, tail, base);
      SeededFits(l, base, after);
    }
  }

  lemma FitsWellMade(l: Layout)
    requires AllFit(l, l.block.chunk) && l.block.chunk > 0
    ensures Fits(l, 0) && AllWellMade(l.block.loop.body)
  {
  }

  lemma DraftIffNames(loop: Repeat, after: seq<Op>, text: Json -> string, continuation: map<string, Json>,
      resume: Option<string>, b: Block, c: Carry)
    requires LoopingOk([], loop, after) && SayableIds(loop, after) && Begun(loop, continuation, resume, b, c)
    ensures CompileDraft(Looping([], loop, after), continuation, resume, text).Ok? ==>
      NamesFit(loop, after, b, text) && AllWellMade(loop.body) && AllWellMade(after)
    ensures NamesFit(loop, after, b, text) && WellSaid(loop, after) && Resumes(loop, after, c) ==>
      CompileDraft(Looping([], loop, after), continuation, resume, text).Ok?
  {
    hide CompileDraft, BlockOf, Bases, OpsOk, AllPlain, StateOk, SayableIds, NamesFree, WellSaid, Resumes, LayoutOf,
      LoopingOk;
    if CompileDraft(Looping([], loop, after), continuation, resume, text).Ok? {
      var tail, base := DraftHasBases(loop, after, continuation, resume, text);
      BaseDecides(loop, after, text, continuation, resume, b, c, tail, base);
    }
    if NamesFit(loop, after, b, text) && WellSaid(loop, after) && Resumes(loop, after, c) {
      var tail, base :| Bases(loop, after, tail, base) && NamesFree(LayoutOf(b, tail, base, text), base.ids);
      BaseDecides(loop, after, text, continuation, resume, b, c, tail, base);
    }
  }

  /** A plan that is one repeat and what follows it, with a deadline or without, compiles to a block
      exactly when the names of its passes and exits are distinct and free, it is well said, and the
      carry the block starts from has every seed. */
  lemma BlockCompiles(loop: Repeat, after: seq<Op>, text: Json -> string, continuation: map<string, Json>,
      resume: Option<string>, b: Block, c: Carry)
    requires LoopingOk([], loop, after) && SayableIds(loop, after) && Begun(loop, continuation, resume, b, c)
    ensures Compile(Looping([], loop, after), continuation, resume, text).Ok? <==>
      NamesFit(loop, after, b, text) && WellSaid(loop, after) && Resumes(loop, after, c)
  {
    hide CompileDraft, BlockOf, Bases, Reach, OpsOk, AllPlain, StateOk, ResolveAll, SownOps, Sown, Seedable,
      FirstInterpolates, OpsInterpolate, OpsWorded, Compiles, NamesFit, SayableIds;
    var plan := Looping([], loop, after);
    StopsAfterSome(loop, after);
    DraftIffNames(loop, after, text, continuation, resume, b, c);
    if CompileDraft(plan, continuation, resume, text).Ok? {
      var tail, base := DraftHasBases(loop, after, continuation, resume, text);
      var s := CompileStages([], loop, after, continuation, resume, text, b);
      StagesOnBase(plan, loop, after, b, text, s, tail, base);
      StateIsPlain(loop, after);
      SownBlock(s.l, after, c);
      if Resumes(loop, after, c) && WellSaid(loop, after) { BlockResolves(plan, loop, after, b, text, s); }
      if ResolveAll(s.fin).Ok? { BlockShows(plan, loop, after, b, text, s); }
    }
  }

  // ---------------------------------------------------------------- plain ids, no deadline

  /** With plain ids and no deadline the names fit exactly when no id is given twice. */
  lemma NamesFitOnce(loop: Repeat, after: seq<Op>, b: Block, text: Json -> string)
    requires LoopingOk([], loop, after) && !Timed(loop) && BareIds(loop, after) && AllWellMade(after) && b.loop == loop
      && b.chunk > 0
    ensures NamesFit(loop, after, b, text) <==> GivenOnce(loop, after)
  {
    hide BareIds, Bases, AllPlain, OpsOk, StateOk, SayableLoop, AllApart, AllFree, GivenOnce, HandNames, AutoLike,
      LayoutOf;
    IdsAreSayable(loop, after);
    StopsAfterSome(loop, after);
    BaseGranted(loop, after);
    if GivenOnce(loop, after) { GivenAfter(loop, after); }
    forall tail, base | Bases(loop, after, tail, base)
      ensures NamesFree(LayoutOf(b, tail, base, text), base.ids) <==> GivenOnce(loop, after)
    {
      BlockIsSayable(b, after, tail, base, text);
      assert LayoutOf(b, tail, base, text).block == b by { LaidOutBlock(b, tail, base, text); }
      NamesGranted(LayoutOf(b, tail, base, text), after, base.ids);
    }
  }

  lemma LaidOutBlock(b: Block, tail: string, base: Build, text: Json -> string)
    ensures LayoutOf(b, tail, base, text).block == b
  {
  }

  lemma GivenAfter(loop: Repeat, after: seq<Op>)
    requires GivenOnce(loop, after)
    ensures AllUnique(after) && loop.id !in IdsOf(after)
  {
  }

  /** So such a block compiles exactly when no id is given twice, it is well said, and every seed is
      there. */
  lemma PlainBlockCompiles(loop: Repeat, after: seq<Op>, text: Json -> string, continuation: map<string, Json>,
      resume: Option<string>, b: Block, c: Carry)
    requires LoopingOk([], loop, after) && !Timed(loop) && BareIds(loop, after)
      && Begun(loop, continuation, resume, b, c)
    ensures Compile(Looping([], loop, after), continuation, resume, text).Ok? <==>
      GivenOnce(loop, after) && WellSaid(loop, after) && Resumes(loop, after, c)
  {
    hide Compile, LoopingOk, BareIds, Resumes, GivenOnce, NamesFit, SayableIds, BlockOf;
    IdsAreSayable(loop, after);
    BlockCompiles(loop, after, text, continuation, resume, b, c);
    if WellSaid(loop, after) { NamesFitOnce(loop, after, b, text); }
  }

  /** From scratch, the first pass reads the initial state. */
  lemma FirstCompiles(loop: Repeat, after: seq<Op>, text: Json -> string)
    requires LoopingOk([], loop, after) && !Timed(loop) && BareIds(loop, after)
    ensures Compile(Looping([], loop, after), map[], None, text).Ok? <==>
      GivenOnce(loop, after) && WellSaid(loop, after) && Resumes(loop, after, Start(loop))
  {
    hide Compile, BlockOf, LoopingOk, BareIds, GivenOnce, WellSaid, Resumes;
    FreshOk(loop);
    StopsAfterSome(loop, after);
    FreshBlock(loop);
    FreshRemaining(loop);
    PlainBlockCompiles(loop, after, text, map[], None, BlockOf(loop, map[]).value, Start(loop));
  }

  lemma StopsAfterSome(loop: Repeat, after: seq<Op>)
    requires LoopingOk([], loop, after)
    ensures Total(loop) != Some(0) && (forall i | 0 <= i < |loop.state| :: PlainExpr(loop.state[i].value))
    ensures AllPlain(loop.body) && AllPlain(after)
  {
  }
}
