/** The theorem about repeats: compiling and running a plan block by block, each block
    resumed from its predecessor's continuation, is running the plain loop of passes. */
module Repeats {
  import opened Json
  import opened Plan
  import opened Graph
  import opened Meaning
  import opened Compiler
  import opened Discipline
  import opened Shifting
  import opened Realization
  import opened Placement
  import opened PassWalk
  import opened Blocks
  import opened Assembly
  import opened Handover
  import opened Writing
  import opened Chain
  import opened Alike
  import opened Sowing
  import opened Unbroken
  import opened Resumption
  import opened Succession
  import opened Resumable

  // ---------------------------------------------------------------- the plain loop, block by block

  /** The passes a chain of at most `more + 1` blocks has room for. */
  function PassesWithin(remaining: Option<nat>, more: nat): nat
  {
    if remaining.Some? && remaining.value < CHUNK * (more + 1) then remaining.value else CHUNK * (more + 1)
  }

  /** What the plain loop comes to, cut at the ends of blocks: it runs on as long as the carry there
      has every seed the next block is compiled with. */
  datatype Course = Runs(out: BlockOutcome) | Refused(carry: Carry, run: Run)

  function CourseOf(w: World, loop: Repeat, after: seq<Op>, p: Carry, q: Run, more: nat): Course
    requires p.remaining != Some(0)
    decreases more
  {
    match EvalPasses(w, loop, after, p, map[], q, BlockLength(p.remaining))
    case Suspended(p', q') =>
      if more == 0 then Runs(Suspended(p', q'))
      else if !Resumes(loop, after, Resume(p')) then Refused(p', q')
      else
        PassesGoOn(w, loop, p, map[], q, BlockLength(p.remaining));
        CourseOf(w, loop, after, p', q', more - 1)
    case out => Runs(out)
  }

  /** At every such cut the values carried over are read the same as seeds and live. */
  predicate Faithfully(w: World, loop: Repeat, after: seq<Op>, p: Carry, q: Run, more: nat)
    requires p.remaining != Some(0)
    decreases more
  {
    match EvalPasses(w, loop, after, p, map[], q, BlockLength(p.remaining))
    case Suspended(p', q') =>
      PassesGoOn(w, loop, p, map[], q, BlockLength(p.remaining));
      more > 0 && Resumes(loop, after, Resume(p')) ==>
        FaithfulCarry(w, loop, after, p') && Faithfully(w, loop, after, p', q', more - 1)
    case _ => true
  }

  /** The chain ends as the course ends: the same run, the same failure, the same carry handed on;
      where the course is refused, the next block does not compile and nothing more has run. */
  predicate SameChain(x: ChainOutcome, y: Course)
  {
    match y
    case Runs(Finished(q)) => x.Ended? && SameRun(x.run, q)
    case Runs(Broken(e, q)) => x.Stopped? && x.error == e && SameRun(x.run, q)
    case Runs(Suspended(p, q)) => x.Unfinished? && x.carry == Obj(CarryFields(p)) && SameRun(x.run, q)
    case Refused(_, q) => x.Rejected? && SameRun(x.run, q)
  }

  lemma ResumedPasses(last: Option<nat>, more: nat)
    requires last.Some? ==> last.value > CHUNK
    ensures PassesWithin(last, more + 1)
         == CHUNK + PassesWithin(if last.Some? then Some(last.value - CHUNK) else None, more)
    ensures PassesWithin(last, more + 1)
      == BlockLength(last) + PassesWithin(if last.Some? then Some(last.value - CHUNK) else None, more)
  {
  }

  lemma FirstPasses(remaining: Option<nat>, more: nat)
    requires remaining != Some(0)
    ensures BlockLength(remaining) <= PassesWithin(remaining, more)
    ensures more == 0 || (remaining.Some? && remaining.value <= CHUNK) ==>
      BlockLength(remaining) == PassesWithin(remaining, more)
  {
  }

  /** A block's share of the unbroken repeat either ends it, or leaves the rest for later blocks. */
  predicate Onward(w: World, loop: Repeat, after: seq<Op>, p: Carry, outer: map<string, Json>, more: nat,
      share: BlockOutcome, all: BlockOutcome)
  {
    match share
    case Suspended(p', q') =>
      && p'.remaining != Some(0) && (p.remaining.Some? ==> p.remaining.value > CHUNK)
      && all == if more == 0 then share
        else EvalPasses(w, loop, after, p', outer, q', PassesWithin(p'.remaining, more - 1))
    case _ => all == share
  }

  /** The rest of an unbroken repeat, from the carry of a resumed block on. */
  lemma RestOfLoop(w: World, loop: Repeat, after: seq<Op>, p: Carry, outer: map<string, Json>, q: Run, more: nat)
    requires p.remaining != Some(0)
    ensures Onward(w, loop, after, p, outer, more, EvalPasses(w, loop, after, p, outer, q, BlockLength(p.remaining)),
                   EvalPasses(w, loop, after, p, outer, q, PassesWithin(p.remaining, more)))
  {
    hide EvalOps, Pass;
    var n, all := BlockLength(p.remaining), PassesWithin(p.remaining, more);
    FirstPasses(p.remaining, more);
    if n < all { EvalPassesSplit(w, loop, after, p, outer, q, n, all - n); }
    if EvalPasses(w, loop, after, p, outer, q, n).Suspended? {
      PassesGoOn(w, loop, p, outer, q, n);
      if more > 0 { ResumedPasses(p.remaining, more - 1); }
    }
  }

  // ---------------------------------------------------------------- the course is the loop's

  /** Unless it is refused, the course is the plain loop; if it is, it has run the loop so far. */
  predicate Follows(w: World, loop: Repeat, after: seq<Op>, p: Carry, q: Run, more: nat)
    requires p.remaining != Some(0)
  {
    match CourseOf(w, loop, after, p, q, more)
    case Runs(out) =>
      FirstPasses(p.remaining, more);
      out == EvalPasses(w, loop, after, p, map[], q, PassesWithin(p.remaining, more))
    case Refused(p', q') =>
      && !Resumes(loop, after, Resume(p'))
      && exists n | 0 < n <= CHUNK * (more + 1) :: EvalPasses(w, loop, after, p, map[], q, n) == Suspended(p', q')
  }

  lemma {:induction false} CourseFollows(w: World, loop: Repeat, after: seq<Op>, p: Carry, q: Run, more: nat)
    requires p.remaining != Some(0)
    ensures Follows(w, loop, after, p, q, more)
    decreases more
  {
    hide EvalPasses, Resumes, PassesWithin;
    var n := BlockLength(p.remaining);
    FirstPasses(p.remaining, more);
    RestOfLoop(w, loop, after, p, map[], q, more);
    var share := EvalPasses(w, loop, after, p, map[], q, n);
    if share.Suspended? && more > 0 && Resumes(loop, after, Resume(share.carry)) {
      assert share.carry.remaining != Some(0) by { SuspendedRemains(w, loop, after, p, q, n); }
      CourseFollows(w, loop, after, share.carry, share.run, more - 1);
      match CourseOf(w, loop, after, share.carry, share.run, more - 1)
      case Refused(p', q') =>
        var m :| 0 < m <= CHUNK * more
          && EvalPasses(w, loop, after, share.carry, map[], share.run, m) == Suspended(p', q');
        EvalPassesSplit(w, loop, after, p, map[], q, n, m);
        assert EvalPasses(w, loop, after, p, map[], q, n + m) == Suspended(p', q');
      case _ =>
    }
  }

  lemma SuspendedRemains(w: World, loop: Repeat, after: seq<Op>, p: Carry, q: Run, n: nat)
    requires n > 0 && p.remaining != Some(0) && EvalPasses(w, loop, after, p, map[], q, n).Suspended?
    ensures var p' := EvalPasses(w, loop, after, p, map[], q, n).carry;
      p'.remaining != Some(0) && (p.remaining.None? ==> p'.remaining.None?)
      && (p.remaining.Some? ==> p'.remaining.Some? && p'.remaining.value < p.remaining.value)
  {
    hide Passes;
    PassesGoOn(w, loop, p, map[], q, n);
  }

  // ---------------------------------------------------------------- a resumed chain

  lemma NothingFirst(w: World, loop: Repeat, after: seq<Op>, c: Carry, r: Run, n: nat)
    requires n > 0
    ensures EvalBlock(w, [], loop, after, c, r, n) == EvalPasses(w, loop, after, c, map[], r, n)
  {
    hide EvalPasses;
  }

  lemma LoopingAfter(loop: Repeat, after: seq<Op>)
    requires LoopingOk([], loop, after)
    ensures OpsOk(after, KnownIds([], loop, after)) && AllPlain(after) && DistinctKeys(loop.state)
  {
  }

  lemma TracksRemaining(loop: Repeat, c: Carry, p: Carry)
    requires Tracks(loop, c, p)
    ensures c.remaining == p.remaining
  {
  }

  lemma TracksOn(loop: Repeat, c: Carry, p: Carry)
    requires Tracks(loop, c, p)
    ensures Tracks(loop, Resume(c), p) && CarryFields(c) == CarryFields(p)
  {
  }

  lemma {:induction false} PassesKeepOutputs(w: World, loop: Repeat, known: set<string>, c: Carry,
      outer: map<string, Json>, r: Run, passes: nat)
    requires passes > 0 && DistinctKeys(loop.state) && ProperIds(loop, known) && c.state.Obj?
    requires Passes(w, loop, c, outer, r, passes).GoesOn?
    ensures var p := Passes(w, loop, c, outer, r, passes).carry; Tracks(loop, Resume(p), p)
    decreases passes
  {
    hide EvalOps, KeepsOutputs, DistinctKeys;
    var x := Pass(w, loop, c, outer, r);
    var r' := if Timed(loop) then Stepped(r) else r;
    var deadline, body := DeadlineOf(loop, c, r.clock),
      EvalOps(w, InPass(loop, c), loop.body, EFrame(outer, Null, []), r');
    assert x.carry == Advance(w, loop, c, deadline, body.frame.env, body.run.clock);
    AdvanceKeeps(w, loop, c, deadline, body.frame.env, body.run.clock, known);
    if passes > 1 { PassesKeepOutputs(w, loop, known, x.carry, outer, Rest(loop, x.run), passes - 1); }
  }

  lemma FirstBlockTracks(w: World, loop: Repeat, after: seq<Op>, known: set<string>, r: Run, n: nat)
    requires n > 0 && DistinctKeys(loop.state) && ProperIds(loop, known)
    requires EvalPasses(w, loop, after, Start(loop), map[], r, n).Suspended?
    ensures var p := EvalPasses(w, loop, after, Start(loop), map[], r, n).carry; Tracks(loop, Resume(p), p)
  {
    hide Passes, EvalOps, Tracks;
    PassesKeepOutputs(w, loop, known, Start(loop), map[], r, n);
  }

  lemma ProperLoop(loop: Repeat, known: set<string>)
    requires LoopOk(loop, known)
    ensures ProperIds(loop, known)
  {
  }

  lemma LoopIsOk(loop: Repeat, after: seq<Op>, text: Json -> string)
    requires LoopingOk([], loop, after) && Compile(Looping([], loop, after), map[], None, text).Ok?
    ensures LoopOk(loop, KnownIds([], loop, after)) && loop.interval > 0.0 && Total(loop) != Some(0)
  {
    hide CompileDraft, ResolveAll, OpsOk, AllPlain, StateOk, Compiles, Reach, BlockOf;
    var plan := Looping([], loop, after);
    FirstShows(loop, after, text);
    FreshBlock(loop);
    FreshRemaining(loop);
    var s := CompileStages([], loop, after, map[], None, text, BlockOf(loop, map[]).value);
    assert ProperIds(loop, KnownIds([], loop, after)) by {
      StagesProper(plan, loop, after, BlockOf(loop, map[]).value, text, s); }
  }

  lemma StagesProper(plan: Plan, loop: Repeat, after: seq<Op>, b: Block, text: Json -> string, s: Stages)
    requires Compiles(plan, [], loop, after, b, text, s) && LoopingOk([], loop, after)
    ensures ProperIds(loop, KnownIds([], loop, after))
  {
    hide CompilePasses, CompileContinuation, CompileOps, OpsOk, AllPlain, StateOk, Reach, PassesPlaced, RealizesAll;
    StagesHold(plan, [], loop, after, b, text, s);
    BookkeepingIsNoBody(plan, [], loop, after, b, text, s);
  }

  /** What every link of a chain needs: a plan whose first block compiled, with room to run. */
  ghost predicate Linked(loop: Repeat, after: seq<Op>, w: World, limit: nat)
  {
    && LoopingOk([], loop, after) && SayableIds(loop, after) && SteadyLoop(loop, after)
    && Compile(Looping([], loop, after), map[], None, w.text).Ok? && LongestBlock([], loop, after) <= limit
  }

  predicate Bounded(loop: Repeat, c: Carry) { c.remaining.Some? ==>
      Total(loop).Some? && c.remaining.value <= Total(loop).value }

  /** A chain resumed from a carry follows the course of the plain loop from there. */
  lemma {:induction false} ResumedChainMeans(loop: Repeat, after: seq<Op>, last: Carry, p: Carry, w: World, limit: nat,
      r: Run, q: Run, more: nat)
    requires Linked(loop, after, w, limit) && Carried(loop, last) && Bounded(loop, last)
    requires Tracks(loop, Resume(last), p) && SameRun(r, q) && p.remaining != Some(0)
    requires Resumes(loop, after, Resume(last)) && FaithfulCarry(w, loop, after, p)
      && Faithfully(w, loop, after, p, q, more)
    ensures SameChain(RunChain(Looping([], loop, after), CarryFields(last), Some(loop.id), w, limit, r, more),
      CourseOf(w, loop, after, p, q, more))
    decreases more
  {
    hide Walk, Compile, EvalPasses, LongestBlock, LoopingOk, SteadyLoop, Carried, Follow, WalksTo, Tracks, Going,
      LoopOk, Resumes, FaithfulCarry;
    var plan, c := Looping([], loop, after), Resume(last);
    BeginsAgain(loop, last);
    TracksRemaining(loop, c, p);
    ResumedCompiles(loop, after, last, w.text);
    var g := Compile(plan, CarryFields(last), Some(loop.id), w.text).value;
    LinkWalks([], loop, after, CarryFields(last), Some(loop.id), w, limit, c, r);
    var n := BlockLength(c.remaining);
    var out := EvalBlock(w, [], loop, after, c, r, n);
    assert out == EvalPasses(w, loop, after, c, map[], r, n) by { NothingFirst(w, loop, after, c, r, n); }
    BlockHandsNothing(w, [], loop, after, c, r, n);
    FollowMeans(w, limit, plan, loop, out, Walk(g.graph, w, limit, g.entry, FRESH, r, 0), |r.continuations|, more);
    LoopingAfter(loop, after);
    LoopIsOk(loop, after, w.text);
    BlockTracks(w, loop, KnownIds([], loop, after), after, c, p, map[], r, q, n);
    if out.Suspended? {
      var unbroken := EvalPasses(w, loop, after, p, map[], q, n);
      SuspendedGoesOn(w, [], loop, after, c, r);
      SuspendedRemains(w, loop, after, c, r, n);
      TracksOn(loop, out.carry, unbroken.carry);
      ResumedOn(loop, after, out, unbroken, w, limit, more);
    }
  }

  /** From the carry a block hands on. */
  lemma {:induction false} ResumedOn(loop: Repeat, after: seq<Op>, out: BlockOutcome, unbroken: BlockOutcome, w: World,
      limit: nat, more: nat)
    requires Linked(loop, after, w, limit) && out.Suspended? && unbroken.Suspended? && Carried(loop, out.carry)
      && Bounded(loop, out.carry)
    requires Tracks(loop, Resume(out.carry), unbroken.carry) && CarryFields(out.carry) == CarryFields(unbroken.carry)
      && SameRun(out.run, unbroken.run)
    requires unbroken.carry.remaining != Some(0)
    requires more > 0 && Resumes(loop, after, Resume(unbroken.carry)) ==>
      FaithfulCarry(w, loop, after, unbroken.carry)
        && Faithfully(w, loop, after, unbroken.carry, unbroken.run, more - 1)
    ensures var y := if more == 0 then Runs(unbroken)
                     else if !Resumes(loop, after, Resume(unbroken.carry)) then Refused(unbroken.carry, unbroken.run)
                     else CourseOf(w, loop, after, unbroken.carry, unbroken.run, more - 1);
      SameChain(FollowBlock(w, limit, Looping([], loop, after), loop, out, more), y)
    decreases more, 0
  {
    hide RunChain, Compile, LongestBlock, LoopingOk, SteadyLoop, Carried, Resumes, FaithfulCarry, Faithfully, CourseOf;
    var plan := Looping([], loop, after);
    if more > 0 {
      TracksResume(loop, out.carry, unbroken.carry);
      ResumedCompiles(loop, after, out.carry, w.text);
      var r' := HandOn(plan, loop, out.carry, out.run);
      if Resumes(loop, after, Resume(unbroken.carry)) {
        ResumedChainMeans(loop, after, out.carry, unbroken.carry, w, limit, r', unbroken.run, more - 1);
      } else {
        RejectedChain(plan, CarryFields(out.carry), Some(loop.id), w, limit, r', more - 1);
      }
    }
  }

  lemma TracksResume(loop: Repeat, c: Carry, p: Carry)
    requires Tracks(loop, Resume(c), p)
    ensures Resume(c) == Resume(p)
  {
  }

  lemma RejectedChain(plan: Plan, continuation: map<string, Json>, resume: Option<string>, w: World, limit: nat, r: Run,
      more: nat)
    requires Compile(plan, continuation, resume, w.text).Raise?
    ensures RunChain(plan, continuation, resume, w, limit, r, more).Rejected?
    ensures RunChain(plan, continuation, resume, w, limit, r, more).run == r
  {
  }

  // ---------------------------------------------------------------- whole chains

  /** What running a plan with a repeat comes to. Behind other actions a repeat has one block only. */
  function CourseFrom(w: World, before: seq<Op>, loop: Repeat, after: seq<Op>, r: Run, more: nat): Course
    requires Total(loop) != Some(0)
  {
    if before == [] then CourseOf(w, loop, after, Start(loop), r, more)
    else Runs(EvalBlock(w, before, loop, after, Start(loop), r, BlockLength(Total(loop))))
  }

  lemma FirstBlockFollows(loop: Repeat, after: seq<Op>, w: World, limit: nat, r: Run, more: nat)
    requires Linked(loop, after, w, limit) && Total(loop) != Some(0) && Faithfully(w, loop, after, Start(loop), r, more)
    ensures SameChain(FollowBlock(w, limit, Looping([], loop, after), loop,
      EvalPasses(w, loop, after, Start(loop), map[], r, BlockLength(Total(loop))), more),
                      CourseOf(w, loop, after, Start(loop), r, more))
  {
    hide RunChain, Compile, EvalPasses, LongestBlock, LoopingOk, SteadyLoop, Carried, Tracks, Going, LoopOk, Resumes,
      FaithfulCarry;
    var c, n := Start(loop), BlockLength(Total(loop));
    var out := EvalPasses(w, loop, after, c, map[], r, n);
    if out.Suspended? {
      StartGoes(loop);
      NothingFirst(w, loop, after, c, r, n);
      SuspendedGoesOn(w, [], loop, after, c, r);
      SuspendedRemains(w, loop, after, c, r, n);
      LoopIsOk(loop, after, w.text);
      ProperLoop(loop, KnownIds([], loop, after));
      LoopingAfter(loop, after);
      FirstBlockTracks(w, loop, after, KnownIds([], loop, after), r, n);
      assert CarryFields(out.carry) == CarryFields(out.carry) && SameRun(out.run, out.run);
      ResumedOn(loop, after, out, out, w, limit, more);
    }
  }

  lemma StopsLater(before: seq<Op>, loop: Repeat, after: seq<Op>)
    requires LoopingOk(before, loop, after)
    ensures Total(loop) != Some(0) && loop.interval > 0.0
  {
  }

  lemma AheadOfShort(before: seq<Op>, loop: Repeat, after: seq<Op>, text: Json -> string)
    requires Compile(Looping(before, loop, after), map[], None, text).Ok? && before != []
    ensures !Chunked(loop)
  {
  }

  /** Compiling a plan, running it, and compiling and running whatever it hands on, through at most
      `more` further blocks, follows the course of the plain loop: the same calls with the same
      arguments at the same times, the same failures, the after-steps once, the same carry handed
      on; and the next block fails to compile exactly where the carry lacks a seed. */
  lemma RepeatAcrossBlocks(before: seq<Op>, loop: Repeat, after: seq<Op>, w: World, limit: nat, r: Run, more: nat)
    requires LoopingOk(before, loop, after) && Compile(Looping(before, loop, after), map[], None, w.text).Ok?
    requires before == [] ==> SayableIds(loop, after) && SteadyLoop(loop, after)
    requires LongestBlock(before, loop, after) <= limit
    requires Total(loop) != Some(0) && LoopWrites(w, loop, after, Start(loop))
    requires before == [] ==> Faithfully(w, loop, after, Start(loop), r, more)
    ensures SameChain(RunChain(Looping(before, loop, after), map[], None, w, limit, r, more),
      CourseFrom(w, before, loop, after, r, more))
  {
    hide Walk, CompileDraft, ResolveAll, EvalBlock, EvalPasses, LongestBlock, LoopingOk, SteadyLoop, Follow, WalksTo,
      Going, Faithfully, CourseOf, LoopWrites;
    var plan, c := Looping(before, loop, after), Start(loop);
    var n := BlockLength(c.remaining);
    assert loop.interval > 0.0 by { StopsLater(before, loop, after); }
    var g := Compile(plan, map[], None, w.text).value;
    LinkMeans(before, loop, after, map[], None, w, limit, c, r);
    var out := EvalBlock(w, before, loop, after, c, r, n);
    BlockHandsNothing(w, before, loop, after, c, r, n);
    FollowMeans(w, limit, plan, loop, out, Walk(g.graph, w, limit, g.entry, FRESH, r, 0), |r.continuations|, more);
    if before != [] {
      assert !Chunked(loop) by { AheadOfShort(before, loop, after, w.text); }
      ChunkedIffLong(loop);
      if out.Suspended? { SuspendedGoesOn(w, before, loop, after, c, r); }
    } else {
      NothingFirst(w, loop, after, c, r, n);
      FirstBlockFollows(loop, after, w, limit, r, more);
    }
  }

  /** The chain is rejected exactly where the plain loop, cut at some block's end, carries a state
      that lacks a seed; what has run by then is the plain loop up to there. */
  lemma RejectedExactlyWithoutSeeds(loop: Repeat, after: seq<Op>, w: World, limit: nat, r: Run, more: nat)
    requires Linked(loop, after, w, limit) && Total(loop) != Some(0)
    requires LoopWrites(w, loop, after, Start(loop)) && Faithfully(w, loop, after, Start(loop), r, more)
    ensures var x := RunChain(Looping([], loop, after), map[], None, w, limit, r, more);
      && (x.Rejected? <==> CourseOf(w, loop, after, Start(loop), r, more).Refused?)
      && (x.Rejected? ==> StoppedShort(w, loop, after, r, more, x.run))
  {
    hide RunChain, LoopingOk, SteadyLoop, LongestBlock, EvalPasses, Compile, Faithfully, CourseOf, LoopWrites;
    RepeatAcrossBlocks([], loop, after, w, limit, r, more);
    CourseFollows(w, loop, after, Start(loop), r, more);
  }

  /** The run is the plain loop's first passes, whose carry lacks a seed. */
  ghost predicate StoppedShort(w: World, loop: Repeat, after: seq<Op>, r: Run, more: nat, run: Run)
  {
    exists n, p, q | 0 < n <= CHUNK * (more + 1) ::
      EvalPasses(w, loop, after, Start(loop), map[], r, n) == Suspended(p, q) && !Resumes(loop, after, Resume(p))
        && SameRun(run, q)
  }

  // ---------------------------------------------------------------- chains, whatever they carry

  /** What every link needs, but for what its values are. */
  ghost predicate Linkable(loop: Repeat, after: seq<Op>, w: World, limit: nat)
  {
    && LoopingOk([], loop, after) && SayableIds(loop, after)
    && Compile(Looping([], loop, after), map[], None, w.text).Ok? && LongestBlock([], loop, after) <= limit
  }

  /** Blocks of passes one after the other, each on the values the one before handed on, until one of
      them lacks a seed: the plain reading of a chain, without compiling anything. */
  function Chained(w: World, loop: Repeat, after: seq<Op>, c: Carry, r: Run, more: nat): ChainOutcome
    requires c.remaining != Some(0)
    decreases more
  {
    match EvalPasses(w, loop, after, c, map[], r, BlockLength(c.remaining))
    case Finished(r') => Ended(r')
    case Broken(e, r') => Stopped(e, r')
    case Suspended(last, r') =>
      var r'' := HandOn(Looping([], loop, after), loop, last, r');
      if more == 0 then Unfinished(Obj(CarryFields(last)), r'')
      else if !Resumes(loop, after, Resume(last)) then Rejected("", r'')
      else
        PassesGoOn(w, loop, c, map[], r, BlockLength(c.remaining));
        Chained(w, loop, after, Resume(last), r'', more - 1)
  }

  /** The same end after the same run; why a compilation is rejected is not compared. */
  predicate SameEnd(x: ChainOutcome, y: ChainOutcome)
  {
    x == y || (x.Rejected? && y.Rejected? && x.run == y.run)
  }

  /** A chain from one of its blocks on. */
  lemma {:induction false} LinksRun(loop: Repeat, after: seq<Op>, continuation: map<string, Json>,
      resume: Option<string>,
                                    c: Carry, w: World, limit: nat, r: Run, more: nat)
    requires Linkable(loop, after, w, limit) && Begins(loop, continuation, c) && Bounded(loop, c)
    requires Compile(Looping([], loop, after), continuation, resume, w.text).Ok?
    ensures c.remaining != Some(0)
    ensures SameEnd(RunChain(Looping([], loop, after), continuation, resume, w, limit, r, more),
      Chained(w, loop, after, c, r, more))
    decreases more
  {
    hide Walk, Compile, EvalPasses, LongestBlock, LoopingOk, Carried, Follow, WalksTo, Going, Resumes, Begins,
      CarryFields;
    var plan := Looping([], loop, after);
    LinkWalks([], loop, after, continuation, resume, w, limit, c, r);
    var n, g := BlockLength(c.remaining), Compile(plan, continuation, resume, w.text).value;
    var out := EvalPasses(w, loop, after, c, map[], r, n);
    NothingFirst(w, loop, after, c, r, n);
    BlockHandsNothing(w, [], loop, after, c, r, n);
    FollowMeans(w, limit, plan, loop, out, Walk(g.graph, w, limit, g.entry, FRESH, r, 0), |r.continuations|, more);
    if out.Suspended? && more > 0 {
      SuspendedGoesOn(w, [], loop, after, c, r);
      SuspendedRemains(w, loop, after, c, r, n);
      ResumedCompiles(loop, after, out.carry, w.text);
      var r' := HandOn(plan, loop, out.carry, out.run);
      if Resumes(loop, after, Resume(out.carry)) {
        BeginsAgain(loop, out.carry);
        LinksRun(loop, after, CarryFields(out.carry), Some(loop.id), Resume(out.carry), w, limit, r', more - 1);
      } else {
        RejectedChain(plan, CarryFields(out.carry), Some(loop.id), w, limit, r', more - 1);
      }
    }
  }

  /** Compiling a repeat, running it, and compiling and running whatever it hands on is running its
      passes block by block, whatever values they carry; a later block fails to compile exactly where
      the values handed on lack a seed. */
  lemma ChainRuns(loop: Repeat, after: seq<Op>, w: World, limit: nat, r: Run, more: nat)
    requires Linkable(loop, after, w, limit)
    ensures Total(loop) != Some(0)
    ensures SameEnd(RunChain(Looping([], loop, after), map[], None, w, limit, r, more),
      Chained(w, loop, after, AsWritten(Start(loop)), r, more))
  {
    hide RunChain, Compile, LoopingOk, LongestBlock, Chained;
    StopsLater([], loop, after);
    assert Begins(loop, map[], AsWritten(Start(loop)));
    LinksRun(loop, after, map[], None, AsWritten(Start(loop)), w, limit, r, more);
  }
}
