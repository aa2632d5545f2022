/** Plans for which the chain of blocks is not the plain loop: one repeat of 21 passes each, one more
    than a block holds. */
module Shortfalls {
  import opened Json
  import opened Plan
  import opened Graph
  import opened Meaning
  import opened Compiler
  import opened Discipline
  import opened PassWalk
  import opened Reserving
  import opened Assembly
  import opened Handover
  import opened Writing
  import opened Chain
  import opened Sowing
  import opened Spelling
  import opened Wording
  import opened Resolving
  import opened Succession
  import opened Resumable
  import opened Resumption
  import opened Repeats
  import opened FirstBlocks

  // ---------------------------------------------------------------- the second block

  ghost predicate Ready(loop: Repeat, after: seq<Op>, w: World, limit: nat)
  {
    && LoopingOk([], loop, after) && SayableIds(loop, after) && LongestBlock([], loop, after) <= limit
    && Compile(Looping([], loop, after), map[], None, w.text).Ok? && Total(loop) != Some(0)
  }

  /** Running on from a continuation is running the passes of its block, and what follows them. */
  ghost predicate RunsOn(loop: Repeat, after: seq<Op>, continuation: map<string, Json>, resume: Option<string>,
      w: World, limit: nat, c: Carry, r: Run, more: nat)
  {
    c.remaining != Some(0) &&
    RunChain(Looping([], loop, after), continuation, resume, w, limit, r, more) ==
      FollowBlock(w, limit, Looping([], loop, after), loop,
        EvalPasses(w, loop, after, c, map[], r, BlockLength(c.remaining)), more)
  }

  /** One compiled block and what follows it. */
  lemma Linked(before: seq<Op>, loop: Repeat, after: seq<Op>, continuation: map<string, Json>, resume: Option<string>,
               w: World, limit: nat, c: Carry, r: Run, more: nat)
    requires before == [] && LoopingOk([], loop, after) && Begins(loop, continuation, c)
      && LongestBlock([], loop, after) <= limit
    requires Compile(Looping([], loop, after), continuation, resume, w.text).Ok?
    ensures RunsOn(loop, after, continuation, resume, w, limit, c, r, more) && Going(loop, c)
  {
    hide Walk, Compile, EvalPasses, LongestBlock, LoopingOk, Follow, WalksTo, Going, FollowBlock;
    var plan := Looping([], loop, after);
    LinkWalks([], loop, after, continuation, resume, w, limit, c, r);
    var n, g := BlockLength(c.remaining), Compile(plan, continuation, resume, w.text).value;
    NothingFirst(w, loop, after, c, r, n);
    BlockHandsNothing(w, [], loop, after, c, r, n);
    FollowMeans(w, limit, plan, loop, EvalBlock(w, [], loop, after, c, r, n),
      Walk(g.graph, w, limit, g.entry, FRESH, r, 0), |r.continuations|, more);
  }

  /** The first block of a chain, on its seeds as they are written. */
  lemma FirstWalk(loop: Repeat, after: seq<Op>, w: World, limit: nat, r: Run, more: nat)
    requires Ready(loop, after, w, limit)
    ensures RunsOn(loop, after, map[], None, w, limit, AsWritten(Start(loop)), r, more)
  {
    hide Walk, Compile, EvalPasses, LongestBlock, LoopingOk, RunChain, FollowBlock, SayableIds, RunsOn;
    assert Begins(loop, map[], AsWritten(Start(loop)));
    Linked([], loop, after, map[], None, w, limit, AsWritten(Start(loop)), r, more);
  }

  /** The first block of a chain, if the initial state can be written into source. */
  lemma FirstLink(loop: Repeat, after: seq<Op>, w: World, limit: nat, r: Run, more: nat)
    requires Ready(loop, after, w, limit) && LoopWrites(w, loop, after, Start(loop))
    ensures RunsOn(loop, after, map[], None, w, limit, Start(loop), r, more)
    ensures var first := EvalPasses(w, loop, after, Start(loop), map[], r, BlockLength(Total(loop)));
      first.Suspended? ==> Carried(loop, first.carry) && Bounded(loop, first.carry)
  {
    hide Walk, Compile, EvalPasses, LongestBlock, LoopingOk, Carried, WalksTo, Going, RunChain, FollowBlock, SayableIds,
      LoopWrites;
    FirstWalk(loop, after, w, limit, r, more);
    EvalPassesWritten(w, loop, after, Start(loop), map[], r, BlockLength(Total(loop)));
    StartGoes(loop);
    var first := EvalPasses(w, loop, after, Start(loop), map[], r, BlockLength(Total(loop)));
    if first.Suspended? {
      NothingFirst(w, loop, after, Start(loop), r, BlockLength(Total(loop)));
      SuspendedGoesOn(w, [], loop, after, Start(loop), r);
      SuspendedRemains(w, loop, after, Start(loop), r, BlockLength(Total(loop)));
    }
  }

  /** A resumed block whose carry lacks a seed is rejected. */
  lemma Refusal(loop: Repeat, after: seq<Op>, w: World, limit: nat, c: Carry, q: Run, more: nat)
    requires Ready(loop, after, w, limit) && Carried(loop, c) && Bounded(loop, c) && more > 0
      && !Resumes(loop, after, Resume(c))
    ensures var x := FollowBlock(w, limit, Looping([], loop, after), loop, Suspended(c, q), more);
      x.Rejected? && x.run.trace == q.trace
  {
    hide Compile, Resumes, RunChain, CarryFields, Carried, LoopingOk, LongestBlock, SayableIds;
    ResumedCompiles(loop, after, c, w.text);
    RejectedChain(Looping([], loop, after), CarryFields(c), Some(loop.id), w, limit,
      HandOn(Looping([], loop, after), loop, c, q), more - 1);
  }

  ghost predicate FollowsOn(loop: Repeat, after: seq<Op>, w: World, limit: nat, c: Carry, q: Run, more: nat)
  {
    var plan := Looping([], loop, after);
    c.remaining != Some(0) && more > 0 &&
    FollowBlock(w, limit, plan, loop, Suspended(c, q), more) ==
      FollowBlock(w, limit, plan, loop,
        EvalPasses(w, loop, after, Resume(c), map[], HandOn(plan, loop, c, q), BlockLength(c.remaining)), more - 1)
  }

  /** One with every seed runs its passes from there. */
  lemma SecondLink(loop: Repeat, after: seq<Op>, w: World, limit: nat, c: Carry, q: Run, more: nat)
    requires Ready(loop, after, w, limit) && Carried(loop, c) && Bounded(loop, c) && more > 0
      && Resumes(loop, after, Resume(c))
    ensures FollowsOn(loop, after, w, limit, c, q, more)
  {
    hide Compile, Resumes, RunChain, CarryFields, Carried, LoopingOk, LongestBlock, SayableIds, EvalPasses, Begins,
      HandOn;
    ResumedCompiles(loop, after, c, w.text);
    BeginsAgain(loop, c);
    Linked([], loop, after, CarryFields(c), Some(loop.id), w, limit, Resume(c),
      HandOn(Looping([], loop, after), loop, c, q), more - 1);
  }

  // ---------------------------------------------------------------- repeats of 21 passes

  function Trial(body: seq<Op>, state: seq<Retained>, initial: map<string, Json>): Repeat
  {
    Repeat("l", body, 1.0, Count(21), state, initial)
  }

  /** Every call of the world returns the same. */
  function Constantly(out: Json): World
  {
    World(Null, (name, args, calls) => Output(out), (op, x, y) => None, (v: Json) =>
      if v == Bool(true) then "True" else "")
  }

  /** The carry after k passes in which f returned v and s was retained. */
  function At(loop: Repeat, v: Json, s: Json, k: nat): Carry
    requires k <= 20
  {
    if k == 0 then Start(loop) else Carry(false, map["f" := v], s, Some(21 - k), None, k, false, false)
  }

  predicate Lap(w: World, loop: Repeat, v: Json, s: Json, k: nat, r: Run)
    requires k < 20
  {
    var x := Pass(w, loop, At(loop, v, s, k), map[], r);
    x.GoesOn? && x.carry == At(loop, v, s, k + 1) && |x.run.trace| == |r.trace| + 1
  }

  ghost predicate Laps(w: World, loop: Repeat, v: Json, s: Json)
  {
    forall k: nat, r | k < 20 :: Lap(w, loop, v, s, k, r)
  }

  lemma {:induction false} LapsAdd(w: World, loop: Repeat, v: Json, s: Json, k: nat, r: Run, n: nat)
    requires Laps(w, loop, v, s) && n > 0 && k + n <= 20
    ensures var x := Passes(w, loop, At(loop, v, s, k), map[], r, n);
      x.GoesOn? && x.carry == At(loop, v, s, k + n) && |x.run.trace| == |r.trace| + n
    decreases n
  {
    hide Pass, At;
    assert Lap(w, loop, v, s, k, r);
    var x := Pass(w, loop, At(loop, v, s, k), map[], r);
    if n > 1 { LapsAdd(w, loop, v, s, k + 1, Rest(loop, x.run), n - 1); }
  }

  /** The plain loop's first 20 passes, and its last. */
  lemma TwentyLaps(w: World, loop: Repeat, v: Json, s: Json, r: Run) returns (q: Run)
    requires Laps(w, loop, v, s)
    ensures EvalPasses(w, loop, [], Start(loop), map[], r, 20) == Suspended(At(loop, v, s, 20), q)
      && |q.trace| == |r.trace| + 20
    ensures EvalPasses(w, loop, [], Start(loop), map[], r, 21)
      == EvalPasses(w, loop, [], At(loop, v, s, 20), map[], q, 1)
  {
    hide Passes;
    LapsAdd(w, loop, v, s, 0, r, 20);
    q := EvalPasses(w, loop, [], Start(loop), map[], r, 20).run;
    EvalPassesSplit(w, loop, [], Start(loop), map[], r, 20, 1);
  }

  /** The trace ends in a call with these arguments. */
  predicate LastCall(run: Run, args: Json) { run.trace != [] && run.trace[|run.trace| - 1].args == args }

  /** Plain source of a repeat of the kind: f is called first, and at most one condition follows. */
  predicate Sound(args: Expr, when: Option<Cond>, state: seq<Retained>)
  {
    && ExprOk(args, {"f", "l_tick"}) && PlainExpr(args) && Worded(args)
    && (when.Some? ==> CondOk(when.value, {"f", "l_tick"}) && PlainCond(when.value) && RawRootsOk(when.value))
    && |state| <= 1 && (state != [] ==> state[0].value.Ref? && state[0].value.ref == "f")
  }

  function Body(args: Expr, when: Option<Cond>): seq<Op>
  {
    [Op.Call(Some("f"), "t", args, None)] + Test(when)
  }

  function Test(when: Option<Cond>): seq<Op>
  {
    if when.Some? then [Condition(None, when.value, [], [])] else []
  }

  lemma TestOk(when: Option<Cond>, known: set<string>)
    requires when.Some? ==> CondOk(when.value, known) && PlainCond(when.value) && RawRootsOk(when.value)
    ensures OpsOk(Test(when), known) && AllPlain(Test(when)) && AllWellMade(Test(when)) && OpsWorded(Test(when))
      && AllUnique(Test(when))
    ensures IdsOf(Test(when)) == {} && SizeOf(Test(when)) <= 1
  {
    if when.Some? { assert Test(when)[1..] == []; }
  }

  /** A counted repeat of the kind. */
  predicate Kind(loop: Repeat, args: Expr, when: Option<Cond>)
  {
    && Sound(args, when, loop.state) && loop.id == "l" && loop.body == Body(args, when) && loop.interval == 1.0
    && loop.stop.Count? && loop.stop.n > 0
  }

  lemma TrialOk(loop: Repeat, args: Expr, when: Option<Cond>)
    requires Kind(loop, args, when)
    ensures LoopingOk([], loop, []) && SayableIds(loop, []) && BareIds(loop, []) && GivenOnce(loop, [])
      && WellSaid(loop, [])
    ensures LongestBlock([], loop, []) <= 200 && IdsOf(loop.body) == {"f"}
  {
    var body := Body(args, when);
    var call := Op.Call(Some("f"), "t", args, None);
    TestOk(when, {"f", "l_tick"});
    assert body[0] == call && body[1..] == Test(when);
    assert IdsOf(body) == Ids(call) + IdsOf(body[1..]) == {"f"};
    assert TickId(loop) == "l_tick";
    assert KnownIds([], loop, []) == {"f", "l_tick"};
    assert OpWorded(call) && WellMade(call) && Unique(call) && Plain(call) && OpOk(call, {"f", "l_tick"});
    assert SizeOf(body) == Size(call) + SizeOf(body[1..]) <= 2;
    IdsAreSayable(loop, []);
  }

  /** Such a plan, if its first pass has every seed, is ready to be run block by block. */
  lemma TrialReady(loop: Repeat, args: Expr, when: Option<Cond>, w: World, limit: nat)
    requires Kind(loop, args, when) && limit >= 200 && Resumes(loop, [], Start(loop))
    ensures Ready(loop, [], w, limit)
  {
    hide Sound, Compile, LoopingOk, BareIds, GivenOnce, WellSaid, Resumes, SayableIds;
    TrialOk(loop, args, when);
    FirstCompiles(loop, [], w.text);
  }

  /** Its initial state can be written into source, if that holds of its arguments and its condition. */
  lemma TrialWrites(loop: Repeat, args: Expr, when: Option<Cond>, w: World)
    requires Kind(loop, args, when)
    requires ExprWrites(w, InPass(loop, Start(loop)), Some("f"), args)
    requires when.Some? ==> Testable(w, InPass(loop, Start(loop)), None, when.value)
    ensures LoopWrites(w, loop, [], Start(loop))
  {
    hide Testable;
    var look, body := InPass(loop, Start(loop)), Body(args, when);
    var call := Op.Call(Some("f"), "t", args, None);
    assert body[0] == call && body[1..] == Test(when);
    if when.Some? {
      assert Test(when)[1..] == [];
      assert OpWrites(w, look, Test(when)[0]) by { assert OpsWrite(w, look, []); }
    }
    assert OpsWrite(w, look, Test(when)) && OpWrites(w, look, call);
    assert OpsWrite(w, look, body);
  }

  // ---------------------------------------------------------------- one pass

  function CallIn(w: World, loop: Repeat, c: Carry, args: Expr, now: real): Invocation
  {
    Invocation("t", EvalExpr(w, InPass(loop, c), map[], Some("f"), args), now)
  }

  predicate Decided(w: World, loop: Repeat, c: Carry, when: Option<Cond>, v: Json)
  {
    when.Some? ==> Decide(w, when.value, EvalOperand(w, InPass(loop, c), map["f" := v], None)).Some?
  }

  lemma BodyRuns(v: Json, loop: Repeat, c: Carry, args: Expr, when: Option<Cond>, r: Run)
    ensures var w := Constantly(v); var r' := r.(trace := r.trace + [CallIn(w, loop, c, args, r.clock)]);
      EvalOps(w, InPass(loop, c), Body(args, when), EFrame(map[], Null, []), r) ==
        if Decided(w, loop, c, when, v) then EDone(EFrame(map["f" := v], Obj(map["output" := v]), []), r')
          else EFailed(Exception, r')
  {
    hide EvalExpr, Decide;
    var w, body := Constantly(v), Body(args, when);
    var call := Op.Call(Some("f"), "t", args, None);
    assert body[0] == call && body[1..] == Test(when);
    var f, r' := EFrame(map["f" := v], Obj(map["output" := v]), []),
      r.(trace := r.trace + [CallIn(w, loop, c, args, r.clock)]);
    assert EvalOp(w, InPass(loop, c), call, EFrame(map[], Null, []), r) == EDone(f, r') by {
      assert map[]["f" := v] == map["f" := v];
    }
    NoSteps(w, InPass(loop, c), f, r');
    if when.Some? {
      assert Test(when)[1..] == [];
      assert EvalOp(w, InPass(loop, c), Test(when)[0], f, r') == if Decided(w, loop, c, when, v) then EDone(f, r')
        else EFailed(Exception, r');
    }
    assert EvalOps(w, InPass(loop, c), Test(when), f, r') == if Decided(w, loop, c, when, v) then EDone(f, r')
      else EFailed(Exception, r');
  }

  lemma NoSteps(w: World, look: Outlook, f: EFrame, r: Run)
    ensures EvalOps(w, look, [], f, r) == EDone(f, r)
  {
  }

  function Called(w: World, loop: Repeat, c: Carry, args: Expr, r: Run): Run
  {
    r.(trace := r.trace + [CallIn(w, loop, c, args, r.clock)])
  }

  lemma PassRuns(v: Json, loop: Repeat, c: Carry, args: Expr, when: Option<Cond>, r: Run)
    requires loop.body == Body(args, when) && loop.stop.Count? && IdsOf(loop.body) == {"f"}
    ensures var w := Constantly(v);
      Pass(w, loop, c, map[], r) ==
        if !Decided(w, loop, c, when, v) then LoopFailed(Exception, Called(w, loop, c, args, r))
        else
          var next := Carry(false, map["f" := v], NextState(w, loop, c, map["f" := v]), Decrement(c.remaining), None,
            c.iteration + 1, Decrement(c.remaining) == Some(0), false);
          if next.done then Exits(next, Stepped(Called(w, loop, c, args, r)))
            else GoesOn(next, Stepped(Called(w, loop, c, args, r)))
  {
    hide EvalOps, Body, NextState, EvalExpr, Decided;
    BodyRuns(v, loop, c, args, when, r);
    assert Only(map["f" := v], {"f"}) == map["f" := v];
  }

  /** The last pass of a repeat ends it. */
  lemma LastRuns(v: Json, loop: Repeat, c: Carry, args: Expr, when: Option<Cond>, r: Run)
    requires loop.body == Body(args, when) && loop.stop.Count? && IdsOf(loop.body) == {"f"} && c.remaining == Some(1)
    ensures var w := Constantly(v);
      EvalPasses(w, loop, [], c, map[], r, 1) ==
        if Decided(w, loop, c, when, v) then Finished(Stepped(Called(w, loop, c, args, r)))
          else Broken(Exception, Called(w, loop, c, args, r))
  {
    hide EvalOps, NextState, EvalExpr, Decided, Called;
    var w := Constantly(v);
    PassRuns(v, loop, c, args, when, r);
    if Decided(w, loop, c, when, v) {
      NoSteps(w, AtExit(loop, Pass(w, loop, c, map[], r).carry), EFrame(map[], Null, []),
        Pass(w, loop, c, map[], r).run);
    }
  }

  /** Before it, every pass leaves the same carry but for its counters. */
  lemma LapRuns(v: Json, s: Json, loop: Repeat, args: Expr, when: Option<Cond>, k: nat, r: Run)
    requires loop.body == Body(args, when) && loop.stop == Count(21) && IdsOf(loop.body) == {"f"} && k < 20
    requires Decided(Constantly(v), loop, At(loop, v, s, k), when, v)
      && NextState(Constantly(v), loop, At(loop, v, s, k), map["f" := v]) == s
    ensures Lap(Constantly(v), loop, v, s, k, r)
  {
    hide EvalOps, NextState, EvalExpr, Decided;
    PassRuns(v, loop, At(loop, v, s, k), args, when, r);
  }

  /** What the chain of such a repeat comes to, after 20 passes that ran as q and retained s. */
  ghost predicate ChainIs(w: World, loop: Repeat, v: Json, s: Json, args: Expr, when: Option<Cond>, q: Run,
      x: ChainOutcome)
  {
    var c := Resume(At(loop, v, s, 20));
    var r := HandOn(Looping([], loop, []), loop, At(loop, v, s, 20), q);
    if !Resumes(loop, [], c) then x.Rejected? && x.run.trace == q.trace
    else x == if Decided(w, loop, c, when, v) then Ended(Stepped(Called(w, loop, c, args, r)))
      else Stopped(Exception, Called(w, loop, c, args, r))
  }

  /** The 21 passes run as one loop, and as a chain of two blocks. */
  lemma TwoWays(v: Json, s: Json, loop: Repeat, args: Expr, when: Option<Cond>, limit: nat, r: Run, more: nat)
    returns (q: Run)
    requires Kind(loop, args, when) && loop.stop == Count(21) && limit >= 200 && more > 0 && s.Obj?
    requires Resumes(loop, [], Start(loop)) && Settled(v, s, loop, when)
      && LoopWrites(Constantly(v), loop, [], Start(loop))
    ensures var w := Constantly(v);
      && |q.trace| == |r.trace| + 20
      && EvalPasses(w, loop, [], Start(loop), map[], r, 21)
        == Finished(Stepped(Called(w, loop, At(loop, v, s, 20), args, q)))
      && ChainIs(w, loop, v, s, args, when, q, RunChain(Looping([], loop, []), map[], None, w, limit, r, more))
  {
    hide Sound, Compile, LoopingOk, Resumes, Carried, Passes, RunChain, Decided, Called, Body, LoopWrites;
    var w := Constantly(v);
    TrialOk(loop, args, when);
    forall k: nat, r' | k < 20 ensures Lap(w, loop, v, s, k, r') { LapRuns(v, s, loop, args, when, k, r'); }
    q := TwentyLaps(w, loop, v, s, r);
    LastRuns(v, loop, At(loop, v, s, 20), args, when, q);
    TrialReady(loop, args, when, w, limit);
    FirstLink(loop, [], w, limit, r, more);
    var c := At(loop, v, s, 20);
    assert BlockLength(Total(loop)) == 20;
    if !Resumes(loop, [], Resume(c)) {
      Refusal(loop, [], w, limit, c, q, more);
    } else {
      SecondLink(loop, [], w, limit, c, q, more);
      LastRuns(v, loop, Resume(c), args, when, HandOn(Looping([], loop, []), loop, c, q));
    }
  }

  /** Every pass of the loop runs through and retains the same. */
  ghost predicate Settled(v: Json, s: Json, loop: Repeat, when: Option<Cond>)
  {
    forall k: nat | k <= 20 :: Decided(Constantly(v), loop, At(loop, v, s, k), when, v)
      && NextState(Constantly(v), loop, At(loop, v, s, k), map["f" := v]) == s
  }

  /** A chain that ends with another last call than the loop, or with none. */
  ghost predicate Differ(w: World, loop: Repeat, limit: nat, r: Run, more: nat, mine: Json, theirs: Json)
  {
    var whole := EvalPasses(w, loop, [], Start(loop), map[], r, 21);
    var x := RunChain(Looping([], loop, []), map[], None, w, limit, r, more);
    && whole.Finished? && LastCall(whole.run, mine)
    && x.Ended? && LastCall(x.run, theirs)
  }

  lemma CallIsLast(w: World, loop: Repeat, c: Carry, args: Expr, q: Run)
    ensures LastCall(Stepped(Called(w, loop, c, args, q)), EvalExpr(w, InPass(loop, c), map[], Some("f"), args))
  {
    hide EvalExpr;
  }

  lemma {:induction false} OneKey(w: World, look: Outlook, env: map<string, Json>, entry: Retained)
    ensures Retain(w, look, env, [entry]) == map[entry.key := EvalExpr(w, look, env, None, entry.value)]
  {
    hide EvalExpr;
    assert [entry][..0] == [];
    assert Retain(w, look, env, []) == map[];
  }

  // ---------------------------------------------------------------- a seed the state does not have

  /** f reads x.y of its previous result, of which x is retained, and returns an empty x. */
  function Narrow(): Repeat
  {
    Trial(Body(Ref("f", ["x", "y"]), None), [Retained("s", Ref("f", ["x"]))], map["s" := Obj(map["y" := Num(1.0)])])
  }

  const NARROW_OUTPUT: Json := Obj(map["x" := Obj(map[])])
  const NARROW_STATE: Json := Obj(map["s" := Obj(map[])])

  lemma NarrowSeeds(state: Json)
    requires state.Obj? && "s" in state.fields
    ensures SeedOwn(Narrow().state, state, "f", ["x", "y"]) == SeedWalk(state.fields["s"], ["y"])
  {
    var entries := Narrow().state;
    assert entries[1..] == [];
    assert ["x"] < ["x", "y"];
    assert BestKey(entries, "f", ["x", "y"]) == Some((["x"], "s"));
    assert ["s"] + ["x", "y"][1..] == ["s", "y"] && ["s", "y"][1..] == ["y"];
  }

  lemma NarrowIsSettled()
    ensures Settled(NARROW_OUTPUT, NARROW_STATE, Narrow(), None)
  {
    var w, env := Constantly(NARROW_OUTPUT), map["f" := NARROW_OUTPUT];
    forall k: nat | k <= 20
      ensures NextState(w, Narrow(), At(Narrow(), NARROW_OUTPUT, NARROW_STATE, k), env) == NARROW_STATE {
      var c := At(Narrow(), NARROW_OUTPUT, NARROW_STATE, k);
      OneKey(w, InPass(Narrow(), c), env, Retained("s", Ref("f", ["x"])));
      assert TickId(Narrow()) == "l_tick";
      assert ["x"][1..] == [];
      assert Lookup(NARROW_OUTPUT, ["x"]) == Obj(map[]);
    }
  }

  lemma NarrowResumes(c: Carry)
    requires c.state.Obj? && "s" in c.state.fields
    ensures Resumes(Narrow(), [], c) <==> SeedWalk(c.state.fields["s"], ["y"]).Ok?
  {
    hide SeedOwn, SeedTick, SeedWalk, SownCond;
    var loop := Narrow();
    var call := Op.Call(Some("f"), "t", Ref("f", ["x", "y"]), None);
    assert TickId(loop) == "l_tick";
    assert loop.body[0] == call && loop.body[1..] == [];
    NarrowSeeds(c.state);
    assert SownOps(loop, c, true, loop.body) <==> SownOp(loop, c, true, call);
  }

  /** The plain loop reads null where the output has no y; the second block does not compile. */
  lemma MissingSeed(limit: nat, r: Run, more: nat)
    requires limit >= 200 && more > 0
    ensures var w := Constantly(NARROW_OUTPUT);
      && EvalPasses(w, Narrow(), [], Start(Narrow()), map[], r, 21).Finished?
      && Compile(Looping([], Narrow(), []), map[], None, w.text).Ok?
      && RunChain(Looping([], Narrow(), []), map[], None, w, limit, r, more).Rejected?
      && |RunChain(Looping([], Narrow(), []), map[], None, w, limit, r, more).run.trace| == |r.trace| + 20
  {
    hide EvalPasses, RunChain, Resumes, Settled, Called, Compile;
    var w, loop := Constantly(NARROW_OUTPUT), Narrow();
    var y := Obj(map["y" := Num(1.0)]);
    assert ["y"][1..] == [];
    assert SeedWalk(y, ["y"]) == Ok(Num(1.0));
    NarrowResumes(Start(loop));
    NarrowResumes(Resume(At(loop, NARROW_OUTPUT, NARROW_STATE, 20)));
    NarrowIsSettled();
    var args := Ref("f", ["x", "y"]);
    TrialReady(loop, args, None, w, limit);
    TrialWrites(loop, args, None, w);
    var q := TwoWays(NARROW_OUTPUT, NARROW_STATE, loop, args, None, limit, r, more);
  }

  // ---------------------------------------------------------------- a template over a seed

  const SPELLED: Expr := Template([Words([Text("v=")]), Ref("f", [])])

  /** f reads its previous result in a template, and returns true. */
  function Speaking(initial: Json): Repeat
  {
    Trial(Body(SPELLED, None), [Retained("s", Ref("f", []))], map["s" := initial])
  }

  const TRUE_STATE: Json := Obj(map["s" := Bool(true)])

  lemma WholeSeeds(entries: seq<Retained>, state: Json)
    requires entries == [Retained("s", Ref("f", []))] && state.Obj? && "s" in state.fields
    ensures SeedOwn(entries, state, "f", []) == Ok(state.fields["s"])
  {
    assert entries[1..] == [];
    assert BestKey(entries, "f", []) == Some(([], "s"));
    assert ["s"] + [][0..] == ["s"] && ["s"][1..] == [];
    assert SeedWalk(state.fields["s"], []) == Ok(state.fields["s"]);
  }

  lemma WholeIsKept(v: Json, loop: Repeat, c: Carry)
    requires loop.state == [Retained("s", Ref("f", []))] && loop.id == "l"
    ensures NextState(Constantly(v), loop, c, map["f" := v]) == Obj(map["s" := v])
  {
    OneKey(Constantly(v), InPass(loop, c), map["f" := v], Retained("s", Ref("f", [])));
    assert TickId(loop) == "l_tick";
    assert Lookup(v, []) == v;
  }

  lemma SpellingResumes(loop: Repeat, c: Carry)
    requires loop.id == "l" && loop.body == Body(SPELLED, None) && loop.state == [Retained("s", Ref("f", []))]
      && loop.stop.Count?
    requires loop.initial.Keys == {"s"} && c.state.Obj? && c.state.fields.Keys == {"s"}
      && !NeedsWrapper(c.state.fields["s"])
    ensures Resumes(loop, [], c)
  {
    var call := Op.Call(Some("f"), "t", SPELLED, None);
    assert TickId(loop) == "l_tick";
    assert loop.body[0] == call && loop.body[1..] == [];
    WholeSeeds(loop.state, c.state);
    var prev := PreviousIn(loop, Some("f"));
    var parts := SPELLED.parts;
    assert parts[1..] == [Ref("f", [])] && parts[1..][1..] == [];
    assert AllSown(loop, c, prev, parts[1..][1..]);
    assert PartSown(loop, c, prev, parts[1..][0]);
    assert AllSown(loop, c, prev, parts[1..]);
    assert AllSown(loop, c, prev, parts);
    assert SownOps(loop, c, true, loop.body) <==> SownOp(loop, c, true, call);
  }

  lemma SpokenWith(text: Json -> string, f: Fragment, said: string)
    requires f == Spoken(said) || (f.Value? && LiveText(text, f.v) == said)
    requires said != ""
    ensures Finish(text, [Spoken("v="), f]) == Str("v=" + said)
  {
    var fs := [Spoken("v="), f];
    assert fs[1..] == [f] && [f][1..] == [];
    assert DropEmpty([f]) == [f] && DropEmpty(fs) == fs;
    assert Speak(text, [f]) == said + "";
    assert Speak(text, fs) == "v=" + Speak(text, [f]);
  }

  lemma SpelledParts(w: World, look: Outlook, f: Fragment)
    requires Parts(w, look, map[], Some("f"), Ref("f", [])) == [f]
    ensures PartsOf(w, look, map[], Some("f"), SPELLED.parts) == [Spoken("v="), f]
  {
    hide Read;
    var parts := SPELLED.parts;
    assert parts[1..] == [Ref("f", [])] && parts[1..][1..] == [];
    assert Parts(w, look, map[], Some("f"), parts[0]) == [Spoken("v=")];
    assert PartsOf(w, look, map[], Some("f"), parts[1..]) == [f] + [];
  }

  /** What the call of a pass is given. */
  lemma SpelledArgs(loop: Repeat, c: Carry)
    requires loop.id == "l" && loop.state == [Retained("s", Ref("f", []))]
    requires if c.first then c.state == TRUE_STATE else c.outputs == map["f" := Bool(true)]
    ensures EvalExpr(Constantly(Bool(true)), InPass(loop, c), map[], Some("f"), SPELLED)
      == Str(if c.first && c.written then "v=true" else "v=True")
  {
    hide PartsOf, Finish;
    var w := Constantly(Bool(true));
    assert TickId(loop) == "l_tick";
    WholeSeeds(loop.state, TRUE_STATE);
    assert Lookup(Bool(true), []) == Bool(true);
    var f := if c.first && c.written then Spoken("true") else Value(Bool(true));
    SpelledParts(w, InPass(loop, c), f);
    SpokenWith(w.text, f, if c.first && c.written then "true" else "True");
  }

  const SILENT: seq<Fragment> := [Spoken("v="), Value(Str(""))]

  lemma SilentIsFaithful(text: Json -> string)
    ensures Faithful(text, SILENT, Marked(SILENT, [false, true]))
  {
    var f := Value(Str(""));
    assert SILENT[1..] == [f] && [f][1..] == [] && [false, true][1..] == [true];
    assert Marked([f], [true]) == [Str("")] + Marked([], []);
    assert Marked(SILENT, [false, true]) == [Str("")];
    assert Texts(SILENT) == 1 + Texts([f]);
  }

  /** No text is spelled alike, as a seed and live. */
  lemma SilentStarts(w: World)
    ensures ExprWrites(w, InPass(Speaking(Str("")), Start(Speaking(Str("")))), Some("f"), SPELLED)
  {
    hide PartsOf, Finish, Faithful, Marked;
    var loop, parts := Speaking(Str("")), SPELLED.parts;
    var look := InPass(loop, Start(loop));
    assert TickId(loop) == "l_tick";
    WholeSeeds(loop.state, Obj(loop.initial));
    SpelledParts(w, look, Value(Str("")));
    SilentIsFaithful(w.text);
    assert parts[1..] == [Ref("f", [])] && parts[1..][1..] == [];
    assert SeedMarksOf(w, look, Some("f"), parts[1..]) == [true] + [];
    assert SeedMarksOf(w, look, Some("f"), parts) == [false, true];
    assert AllUnwrapped(w, look, Some("f"), parts[1..]) && AllUnwrapped(w, look, Some("f"), parts);
  }

  lemma SpeakingIsReady(w: World)
    requires w == Constantly(Bool(true))
    ensures Kind(Speaking(Str("")), SPELLED, None) && LoopWrites(w, Speaking(Str("")), [], Start(Speaking(Str(""))))
    ensures Settled(Bool(true), TRUE_STATE, Speaking(Str("")), None)
  {
    hide NextState, EvalExpr, LoopWrites;
    var loop, v := Speaking(Str("")), Bool(true);
    forall k: nat | k <= 20 ensures NextState(w, loop, At(loop, v, TRUE_STATE, k), map["f" := v]) == TRUE_STATE {
      WholeIsKept(v, loop, At(loop, v, TRUE_STATE, k));
    }
    SilentStarts(w);
    TrialWrites(loop, SPELLED, None, w);
  }

  /** In pass 21 the plain loop spells the previous result as True; the second block, compiled with
      that result as a seed, spells it true. */
  lemma SeedIsSpelled(limit: nat, r: Run, more: nat)
    requires limit >= 200 && more > 0
    ensures Differ(Constantly(Bool(true)), Speaking(Str("")), limit, r, more, Str("v=True"), Str("v=true"))
  {
    hide EvalPasses, RunChain, Resumes, Called, Compile, EvalExpr, NextState, LoopWrites, Settled, Kind;
    var w, loop, v := Constantly(Bool(true)), Speaking(Str("")), Bool(true);
    SpellingResumes(loop, Start(loop));
    SpellingResumes(loop, Resume(At(loop, v, TRUE_STATE, 20)));
    SpeakingIsReady(w);
    var q := TwoWays(v, TRUE_STATE, loop, SPELLED, None, limit, r, more);
    SpelledArgs(loop, At(loop, v, TRUE_STATE, 20));
    SpelledArgs(loop, Resume(At(loop, v, TRUE_STATE, 20)));
    CallIsLast(w, loop, At(loop, v, TRUE_STATE, 20), SPELLED, q);
    CallIsLast(w, loop, Resume(At(loop, v, TRUE_STATE, 20)), SPELLED,
      HandOn(Looping([], loop, []), loop, At(loop, v, TRUE_STATE, 20), q));
  }

  function Once(): Repeat { Speaking(Bool(true)).(stop := Count(1)) }

  lemma OncePasses(c: Carry, r: Run)
    requires c.first && c.state == TRUE_STATE && c.remaining == Some(1)
    ensures var once := EvalPasses(Constantly(Bool(true)), Once(), [], c, map[], r, 1);
      once.Finished? && LastCall(once.run, Str(if c.written then "v=true" else "v=True"))
  {
    hide EvalPasses, Called, EvalExpr;
    TrialOk(Once(), SPELLED, None);
    LastRuns(Bool(true), Once(), c, SPELLED, None, r);
    SpelledArgs(Once(), c);
    CallIsLast(Constantly(Bool(true)), Once(), c, SPELLED, r);
  }

  lemma OnceIsReady(w: World, limit: nat)
    requires limit >= 200
    ensures Ready(Once(), [], w, limit) && Total(Once()) == Some(1)
  {
    hide Resumes;
    SpellingResumes(Once(), Start(Once()));
    TrialReady(Once(), SPELLED, None, w, limit);
  }

  /** One pass, whose initial state is true: the first block spells it already. */
  lemma FirstPassSpells(limit: nat, r: Run, more: nat)
    requires limit >= 200
    ensures var w := Constantly(Bool(true));
      var once := EvalPasses(w, Once(), [], Start(Once()), map[], r, 1);
      var x := RunChain(Looping([], Once(), []), map[], None, w, limit, r, more);
      once.Finished? && LastCall(once.run, Str("v=True")) && x.Ended? && LastCall(x.run, Str("v=true"))
  {
    hide EvalPasses, RunChain, Ready;
    OnceIsReady(Constantly(Bool(true)), limit);
    FirstWalk(Once(), [], Constantly(Bool(true)), limit, r, more);
    OncePasses(Start(Once()), r);
    OncePasses(AsWritten(Start(Once())), r);
  }

  // ---------------------------------------------------------------- the iteration counter

  const COUNTED: Expr := Ref("l_tick", ["iteration"])

  /** f is given the number of passes before its own. */
  function Numbering(): Repeat { Trial(Body(COUNTED, None), [], map[]) }

  lemma CountingResumes(c: Carry)
    requires c.state == Obj(map[])
    ensures Resumes(Numbering(), [], c)
  {
    var loop := Numbering();
    var call := Op.Call(Some("f"), "t", COUNTED, None);
    assert TickId(loop) == "l_tick";
    assert loop.body[0] == call && loop.body[1..] == [];
    assert SownOps(loop, c, true, loop.body) <==> SownOp(loop, c, true, call);
  }

  lemma CountedArgs(c: Carry, w: World)
    ensures EvalExpr(w, InPass(Numbering(), c), map[], Some("f"), COUNTED)
      == Num(if c.first then 0.0 else c.iteration as real)
  {
    assert TickId(Numbering()) == "l_tick";
    assert ["iteration"][1..] == [];
    assert Lookup(TickOutput(c), ["iteration"]) == Num(c.iteration as real);
  }

  /** In pass 21 the plain loop has counted 20 passes; the second block starts again at none. */
  lemma CounterRestarts(limit: nat, r: Run, more: nat)
    requires limit >= 200 && more > 0
    ensures Differ(Constantly(Null), Numbering(), limit, r, more, Num(20.0), Num(0.0))
  {
    hide EvalPasses, RunChain, Resumes, Called, Compile, EvalExpr;
    var w, loop, s := Constantly(Null), Numbering(), Obj(map[]);
    CountingResumes(Start(loop));
    CountingResumes(Resume(At(loop, Null, s, 20)));
    TrialWrites(loop, COUNTED, None, w);
    var q := TwoWays(Null, s, loop, COUNTED, None, limit, r, more);
    CountedArgs(At(loop, Null, s, 20), w);
    CountedArgs(Resume(At(loop, Null, s, 20)), w);
    CallIsLast(w, loop, At(loop, Null, s, 20), COUNTED, q);
    CallIsLast(w, loop, Resume(At(loop, Null, s, 20)), COUNTED,
      HandOn(Looping([], loop, []), loop, At(loop, Null, s, 20), q));
  }

  // ---------------------------------------------------------------- a condition over a seed

  const WRAPPED: Cond := Operator("!", [Var(To("l_tick", ["state", "s"]))])

  /** Behind f stands a condition on the retained result: the initial one, and then an object. */
  function Testing(initial: Json): Repeat
  {
    Trial(Body(Expr.Scalar(Null), Some(WRAPPED)), [Retained("s", Ref("f", []))], map["s" := initial])
  }

  const EMPTY_OUTPUT: Json := Obj(map[])
  const EMPTY_STATE: Json := Obj(map["s" := EMPTY_OUTPUT])

  lemma StateSeed(state: Json, remaining: Json, deadline: Json)
    requires state.Obj? && "s" in state.fields
    ensures SeedTick(state, remaining, deadline, ["state", "s"]) == Ok(state.fields["s"])
  {
    assert ["state", "s"][1..] == ["s"] && ["s"][1..] == [];
  }

  lemma TestingResumes(initial: Json, c: Carry)
    requires c.state.Obj? && c.state.fields.Keys == {"s"}
    ensures Resumes(Testing(initial), [], c)
  {
    var loop := Testing(initial);
    var call := Op.Call(Some("f"), "t", Expr.Scalar(Null), None);
    assert TickId(loop) == "l_tick";
    assert loop.body[0] == call && loop.body[1..] == Test(Some(WRAPPED));
    StateSeed(c.state, RemainingJson(c.remaining), DeadlineJson(c.deadline));
    assert SownCond(loop, c, PreviousIn(loop, None), WRAPPED) by {
      assert WRAPPED.args[1..] == [];
      assert SownConds(loop, c, PreviousIn(loop, None), WRAPPED.args);
    }
    assert SownOps(loop, c, true, Test(Some(WRAPPED))) by { assert Test(Some(WRAPPED))[1..] == []; }
    assert SownOps(loop, c, true, loop.body) <==> SownOp(loop, c, true, call) && SownOps(loop, c, true, loop.body[1..]);
  }

  /** The condition can be decided unless what it reads is a wrapped seed. */
  lemma TestingDecides(initial: Json, c: Carry, v: Json)
    requires c.state.Obj? && "s" in c.state.fields
    ensures Decided(Constantly(v), Testing(initial), c, Some(WRAPPED), v) <==>
      !(c.first && c.written && NeedsWrapper(c.state.fields["s"]))
  {
    var w, loop, o := Constantly(v), Testing(initial), To("l_tick", ["state", "s"]);
    var read := EvalOperand(w, InPass(loop, c), map["f" := v], None);
    assert TickId(loop) == "l_tick";
    StateSeed(c.state, RemainingJson(c.remaining), DeadlineJson(c.deadline));
    assert WRAPPED.args[1..] == [];
    assert Decide(w, Var(o), read) == read(o);
    assert DecideAll(w, WRAPPED.args, read).Some? <==> read(o).Some?;
  }

  lemma TestingStarts(w: World)
    ensures Testable(w, InPass(Testing(Null), Start(Testing(Null))), None, WRAPPED)
  {
    var loop, args := Testing(Null), WRAPPED.args;
    var look := InPass(loop, Start(loop));
    assert TickId(loop) == "l_tick";
    StateSeed(Obj(loop.initial), RemainingJson(Start(loop).remaining), DeadlineJson(Start(loop).deadline));
    assert Testable(w, look, None, args[0]);
    assert AllTestable(w, look, None, args[1..]) && AllTestable(w, look, None, args);
  }

  lemma TestingIsSettled(initial: Json)
    ensures Settled(EMPTY_OUTPUT, EMPTY_STATE, Testing(initial), Some(WRAPPED))
  {
    hide Decided, NextState;
    var w, loop, v := Constantly(EMPTY_OUTPUT), Testing(initial), EMPTY_OUTPUT;
    forall k: nat | k <= 20
      ensures Decided(w, loop, At(loop, v, EMPTY_STATE, k), Some(WRAPPED), v)
        && NextState(w, loop, At(loop, v, EMPTY_STATE, k), map["f" := v]) == EMPTY_STATE
    {
      WholeIsKept(v, loop, At(loop, v, EMPTY_STATE, k));
      TestingDecides(initial, At(loop, v, EMPTY_STATE, k), v);
    }
  }

  /** The loop finishes, and the chain raises after so many calls. */
  ghost predicate Raises(w: World, loop: Repeat, limit: nat, r: Run, more: nat, calls: nat)
  {
    var x := RunChain(Looping([], loop, []), map[], None, w, limit, r, more);
    && EvalPasses(w, loop, [], Start(loop), map[], r, 21).Finished?
    && x.Stopped? && x.error == Exception && |x.run.trace| == |r.trace| + calls
  }

  /** In pass 21 the plain loop decides the condition; in the second block it raises. */
  lemma SeedRaises(limit: nat, r: Run, more: nat)
    requires limit >= 200 && more > 0
    ensures Raises(Constantly(EMPTY_OUTPUT), Testing(Null), limit, r, more, 21)
  {
    hide EvalPasses, RunChain, Resumes, Compile, Decided, Settled, Testable, LoopWrites;
    var w, loop, v := Constantly(EMPTY_OUTPUT), Testing(Null), EMPTY_OUTPUT;
    TestingResumes(Null, Start(loop));
    TestingResumes(Null, Resume(At(loop, v, EMPTY_STATE, 20)));
    TestingIsSettled(Null);
    TestingDecides(Null, Resume(At(loop, v, EMPTY_STATE, 20)), v);
    TestingStarts(w);
    TrialWrites(loop, Expr.Scalar(Null), Some(WRAPPED), w);
    var q := TwoWays(v, EMPTY_STATE, loop, Expr.Scalar(Null), Some(WRAPPED), limit, r, more);
  }

  /** With an object as the initial state the first pass raises already, in the first block, although
      it has that object to decide on. */
  lemma FirstPassRaises(limit: nat, r: Run, more: nat)
    requires limit >= 200
    ensures Raises(Constantly(EMPTY_OUTPUT), Testing(EMPTY_OUTPUT), limit, r, more, 1)
  {
    hide RunChain, Resumes, Compile, Decided, Settled, Sound, Body, NextState, Pass;
    var w, loop, v := Constantly(EMPTY_OUTPUT), Testing(EMPTY_OUTPUT), EMPTY_OUTPUT;
    TestingRuns(r);
    TestingIs();
    TestingResumes(EMPTY_OUTPUT, Start(loop));
    TrialReady(loop, Expr.Scalar(Null), Some(WRAPPED), w, limit);
    FirstWalk(loop, [], w, limit, r, more);
    TestingDecides(EMPTY_OUTPUT, AsWritten(Start(loop)), v);
    PassRuns(v, loop, AsWritten(Start(loop)), Expr.Scalar(Null), Some(WRAPPED), r);
  }

  lemma TestingIs()
    ensures Kind(Testing(EMPTY_OUTPUT), Expr.Scalar(Null), Some(WRAPPED)) && IdsOf(Testing(EMPTY_OUTPUT).body) == {"f"}
  {
    TrialOk(Testing(EMPTY_OUTPUT), Expr.Scalar(Null), Some(WRAPPED));
  }

  /** The plain loop decides the condition in every pass. */
  lemma TestingRuns(r: Run)
    ensures EvalPasses(Constantly(EMPTY_OUTPUT), Testing(EMPTY_OUTPUT), [], Start(Testing(EMPTY_OUTPUT)), map[], r,
      21).Finished?
  {
    hide EvalPasses, Decided, Body, NextState;
    var w, loop, v := Constantly(EMPTY_OUTPUT), Testing(EMPTY_OUTPUT), EMPTY_OUTPUT;
    TestingIs();
    TestingIsSettled(EMPTY_OUTPUT);
    forall k: nat, r' | k < 20 ensures Lap(w, loop, v, EMPTY_STATE, k, r') {
      LapRuns(v, EMPTY_STATE, loop, Expr.Scalar(Null), Some(WRAPPED), k, r');
    }
    var q := TwentyLaps(w, loop, v, EMPTY_STATE, r);
    LastRuns(v, loop, At(loop, v, EMPTY_STATE, 20), Expr.Scalar(Null), Some(WRAPPED), q);
  }
}
