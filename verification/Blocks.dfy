/** Walking a compiled block of a repeat is running that many passes of the plain loop, and
    leaving it by any exit runs the after-steps exactly as that exit's last pass left things. */
module Blocks {
  import opened Json
  import opened Plan
  import opened Graph
  import opened Meaning
  import opened Compiler
  import opened Agreement
  import opened Shifting
  import opened Growth
  import opened Placement
  import opened Distinctness
  import opened ChainSteps
  import opened PassWalk

  /** The nodes of the pass before i that its successor reads. */
  predicate Standing(se: Setting, i: nat)
  {
    i > 0 ==>
      && TopLevel(se.sc.fin, NameOf(TickId(se.Loop()), i - 1, se.B().chunk))
      && (Timed(se.Loop()) ==> TopLevel(se.sc.fin, NameOf(ClockId(se.Loop()), i - 1, se.B().chunk)))
  }

  lemma WithinPut(se: Setting, env: map<string, Json>, x: string, i: nat, v: Json)
    requires Within(se, env) && x in LoopNames(se.Loop()) && i < se.B().chunk
    ensures Within(se, env[NameOf(x, i, se.B().chunk) := v])
  {
    PairIn(se, x, i);
    forall z | Get(env[NameOf(x, i, se.B().chunk) := v], z) != Null
      ensures z in se.early || exists p :: p in PairsFrom(se.Loop(), 0, se.B().chunk) && z == NameAt(se.B(), p)
    {
      if z == NameOf(x, i, se.B().chunk) {
        assert z == NameAt(se.B(), (x, i));
      }
    }
  }

  /** No other name of the repeat, and no other plan id, is the given name's. */
  lemma NameIsAlone(se: Setting, x: string, i: nat)
    requires Sensible(se) && x in LoopNames(se.Loop()) && i < se.B().chunk
    ensures forall y, j: nat | y in LoopNames(se.Loop()) && j < se.B().chunk && (y, j) != (x, i) ::
      NameOf(y, j, se.B().chunk) != NameOf(x, i, se.B().chunk)
    ensures NameOf(x, i, se.B().chunk) !in se.known - LoopIds(se.Loop())
  {
    hide ResolveAll, Distinct, LaidOut, LoopOk, SaneBlock;
    forall y, j: nat | y in LoopNames(se.Loop()) && j < se.B().chunk && (y, j) != (x, i)
      ensures NameOf(y, j, se.B().chunk) != NameOf(x, i, se.B().chunk)
    {
      NamesAreApart(se, y, j, x, i);
    }
    NamesAreApart(se, x, i, x, i);
  }

  lemma LoopIdsAreNames(loop: Repeat)
    ensures LoopIds(loop) <= LoopNames(loop) && TickId(loop) in LoopNames(loop)
    ensures Timed(loop) ==> ClockId(loop) in LoopNames(loop)
  {
  }

  /** The clock of pass i disturbs nothing the pass reads. */
  lemma ClockKeeps(se: Setting, i: nat, c: Carry, outer: map<string, Json>, env: map<string, Json>, now: real)
    requires Sensible(se) && i < se.B().chunk && PassState(se, i, c, outer, env)
    ensures var env1 := Clocked(se, i, c, now, env);
      && PassEnv(se.B(), i, se.known, c, outer, env1) && Within(se, env1)
      && UntouchedAfter(se, i, env1) && ExitState(se, i - 1, c, outer, env1)
  {
    PassStateEnv(se, i, c, outer, env);
    if Timed(se.Loop()) {
      ClockKeepsPass(se, i, c, outer, env, now);
      ClockKeepsRest(se, i, c, outer, env, now);
    }
  }

  lemma ClockKeepsPass(se: Setting, i: nat, c: Carry, outer: map<string, Json>, env: map<string, Json>, now: real)
    requires Sensible(se) && i < se.B().chunk && Timed(se.Loop()) && PassEnv(se.B(), i, se.known, c, outer, env)
    ensures PassEnv(se.B(), i, se.known, c, outer, Clocked(se, i, c, now, env))
  {
    LoopIdsAreNames(se.Loop());
    NameIsAlone(se, ClockId(se.Loop()), i);
    assert ClockId(se.Loop()) !in LoopIds(se.Loop());
    hide Sensible, LoopNames, StartsFrom, NameOf, ClockOutput, TickOutput, DeadlineOf;
  }

  lemma ClockKeepsRest(se: Setting, i: nat, c: Carry, outer: map<string, Json>, env: map<string, Json>, now: real)
    requires Sensible(se) && i < se.B().chunk && Timed(se.Loop()) && PassState(se, i, c, outer, env)
    ensures var env1 := Clocked(se, i, c, now, env);
      Within(se, env1) && UntouchedAfter(se, i, env1) && ExitState(se, i - 1, c, outer, env1)
  {
    assert Untouched(se.B(), i, env) && Within(se, env) && ExitState(se, i - 1, c, outer, env);
    hide Sensible, LoopNames, StartsFrom, NameOf, ClockOutput, TickOutput, DeadlineOf, Within, Counting, UntouchedAfter,
      Untouched, PassState, ExitState;
    LoopIdsAreNames(se.Loop());
    var out := ClockOutput(DeadlineOf(se.Loop(), c, now), now);
    WithinPut(se, env, ClockId(se.Loop()), i, out);
    UntouchedPut(se, i, env, ClockId(se.Loop()), out);
    ExitStatePut(se, i - 1, c, outer, env, ClockId(se.Loop()), i, out);
  }

  /** A later pass's name disturbs nothing the exit before it reads. */
  lemma ExitStatePut(se: Setting, k: int, c: Carry, outer: map<string, Json>, env: map<string, Json>, x: string, i: nat,
      v: Json)
    requires Sensible(se) && k < i < se.B().chunk && x in LoopNames(se.Loop()) && ExitState(se, k, c, outer, env)
    requires Within(se, env[NameOf(x, i, se.B().chunk) := v])
    ensures ExitState(se, k, c, outer, env[NameOf(x, i, se.B().chunk) := v])
  {
    LoopIdsAreNames(se.Loop());
    NameIsAlone(se, x, i);
    hide Sensible, LoopNames, StartsFrom, NameOf, TickOutput, Within;
  }

  lemma UntouchedPut(se: Setting, i: nat, env: map<string, Json>, x: string, v: Json)
    requires Sensible(se) && i < se.B().chunk && x in LoopNames(se.Loop()) && Untouched(se.B(), i, env)
    ensures UntouchedAfter(se, i, env[NameOf(x, i, se.B().chunk) := v])
  {
    NameIsAlone(se, x, i);
    var env1 := env[NameOf(x, i, se.B().chunk) := v];
    forall p | p in PairsFrom(se.Loop(), 0, se.B().chunk) && p.1 > i ensures Get(env1, NameAt(se.B(), p)) == Null {
      assert p.0 in LoopNames(se.Loop()) && (p.0, p.1) != (x, i);
      assert Get(env, NameAt(se.B(), p)) == Null;
    }
  }

  predicate UntouchedAfter(se: Setting, i: nat, env: map<string, Json>)
  {
    forall p | p in PairsFrom(se.Loop(), 0, se.B().chunk) && p.1 > i :: Get(env, NameAt(se.B(), p)) == Null
  }

  /** The body of pass i only adds outputs under the pass's own names. */
  lemma BodyKeeps(se: Setting, i: nat, outer: map<string, Json>, genv: map<string, Json>, env: map<string, Json>,
      env1: map<string, Json>)
    requires Sensible(se) && i < se.B().chunk && Within(se, env) && UntouchedAfter(se, i, env)
    requires PassChanges(se.B(), i, outer, genv, env, env1)
    ensures Within(se, env1) && UntouchedAfter(se, i, env1)
    ensures Timed(se.Loop()) ==>
      Get(env1, NameOf(ClockId(se.Loop()), i, se.B().chunk)) == Get(env, NameOf(ClockId(se.Loop()), i, se.B().chunk))
    ensures i > 0 ==>
      Get(env1, NameOf(TickId(se.Loop()), i - 1, se.B().chunk))
        == Get(env, NameOf(TickId(se.Loop()), i - 1, se.B().chunk))
  {
    hide ResolveAll, Distinct, LaidOut, SaneBlock;
    var b, loop := se.B(), se.Loop();
    forall x, y, j: nat | x in IdsOf(loop.body) && y in LoopNames(loop) && j < b.chunk && (y, j) != (x, i)
      ensures NameOf(y, j, b.chunk) != NameOf(x, i, b.chunk)
    {
      NamesAreApart(se, y, j, x, i);
    }
    forall p | p in PairsFrom(loop, 0, b.chunk) && p.1 > i ensures Get(env1, NameAt(b, p)) == Null {
      assert p.0 in LoopNames(loop);
    }
    forall z | Get(env1, z) != Null
      ensures z in se.early || exists p :: p in PairsFrom(loop, 0, b.chunk) && z == NameAt(b, p)
    {
      if x :| x in IdsOf(loop.body) && z == NameOf(x, i, b.chunk) {
        PairIn(se, x, i);
        assert z == NameAt(b, (x, i));
      } else {
        assert Get(env1, z) == Get(env, z);
      }
    }
  }

  // ---------------------------------------------------------------- the next pass

  lemma TickUntouched(se: Setting, i: nat, env: map<string, Json>, v: Json)
    requires Sensible(se) && i < se.B().chunk && UntouchedAfter(se, i, env)
    ensures Untouched(se.B(), i + 1, env[NameOf(TickId(se.Loop()), i, se.B().chunk) := v])
  {
    LoopIdsAreNames(se.Loop());
    NameIsAlone(se, TickId(se.Loop()), i);
    var env1 := env[NameOf(TickId(se.Loop()), i, se.B().chunk) := v];
    forall p | p in PairsFrom(se.Loop(), 0, se.B().chunk) && p.1 >= i + 1 ensures Get(env1, NameAt(se.B(), p)) == Null {
      assert p.0 in LoopNames(se.Loop()) && (p.0, p.1) != (TickId(se.Loop()), i);
      assert Get(env, NameAt(se.B(), p)) == Null;
    }
  }

  /** What the tick of pass i leaves readable. */
  lemma TickLeaves(se: Setting, i: nat, c: Carry, found: Option<real>, outer: map<string, Json>,
      genv: map<string, Json>,
                   env: map<string, Json>, now: real)
    requires Sensible(se) && i < se.B().chunk && PassEnv(se.B(), i, se.known, c, genv, env)
    requires forall x | x in se.known - LoopIds(se.Loop()) :: Get(genv, x) == Get(outer, x)
    ensures var c' := Advance(se.w, se.Loop(), c, found, genv, now);
      var env' := env[NameOf(TickId(se.Loop()), i, se.B().chunk) := TickOutput(c')];
      && (forall x | x in se.known - LoopIds(se.Loop()) :: Get(env', x) == Get(outer, x))
      && (forall x | x in IdsOf(se.Loop().body) :: Get(env', NameOf(x, i, se.B().chunk)) == Get(c'.outputs, x))
      && Get(env', NameOf(TickId(se.Loop()), i, se.B().chunk)) == TickOutput(c')
      && (Timed(se.Loop()) ==>
            Get(env', NameOf(ClockId(se.Loop()), i, se.B().chunk))
              == Get(env, NameOf(ClockId(se.Loop()), i, se.B().chunk)))
  {
    LoopIdsAreNames(se.Loop());
    NameIsAlone(se, TickId(se.Loop()), i);
    TickIsNoOther(se);
    AdvanceOutputs(se.w, se.Loop(), c, found, genv, now);
    hide Sensible, LoopNames, StartsFrom, NameOf, TickOutput, Retain, Advance;
  }

  lemma AdvanceOutputs(w: World, loop: Repeat, c: Carry, found: Option<real>, env: map<string, Json>, now: real)
    ensures forall x | x in IdsOf(loop.body) :: Get(Advance(w, loop, c, found, env, now).outputs, x) == Get(env, x)
  {
  }

  /** Once the tick has run, the next pass (or the exit after this one) finds what it needs. */
  lemma TickMovesOn(se: Setting, i: nat, c: Carry, found: Option<real>, outer: map<string, Json>,
      genv: map<string, Json>,
                    env: map<string, Json>, now: real)
    requires Sensible(se) && i < se.B().chunk && Counting(se.B(), i, c)
    requires forall x | x in IdsOf(se.Loop().body) :: Get(outer, x) == Null
    requires PassEnv(se.B(), i, se.known, c, genv, env) && Within(se, env) && UntouchedAfter(se, i, env)
    requires forall x | x in se.known - LoopIds(se.Loop()) :: Get(genv, x) == Get(outer, x)
    requires if Timed(se.Loop()) then
        found.Some? && (c.deadline.Some? ==> found == c.deadline)
        && Step(Get(env, NameOf(ClockId(se.Loop()), i, se.B().chunk)), "deadline_unix") == DeadlineJson(found)
      else found.None?
    ensures var c' := Advance(se.w, se.Loop(), c, found, genv, now);
      var env' := env[NameOf(TickId(se.Loop()), i, se.B().chunk) := TickOutput(c')];
      PassState(se, i + 1, c', outer, env') && ExitState(se, i, c', outer, env')
  {
    var b, loop := se.B(), se.Loop();
    var c' := Advance(se.w, loop, c, found, genv, now);
    var env' := env[NameOf(TickId(loop), i, b.chunk) := TickOutput(c')];
    SaneSetting(se);
    hide Sensible, LoopNames, StartsFrom, NameOf, TickOutput, Within, Retain, Untouched, UntouchedAfter, PassEnv,
      LoopIds;
    LoopIdsAreNames(loop);
    WithinPut(se, env, TickId(loop), i, TickOutput(c'));
    TickUntouched(se, i, env, TickOutput(c'));
    CountingOn(b, i, c, c', found);
    TickLeaves(se, i, c, found, outer, genv, env, now);
  }

  lemma SaneSetting(se: Setting)
    requires Sensible(se)
    ensures SaneBlock(se.B())
  {
  }

  lemma TickIsNoOther(se: Setting)
    requires Sensible(se)
    ensures TickId(se.Loop()) !in IdsOf(se.Loop().body)
    ensures Timed(se.Loop()) ==> ClockId(se.Loop()) != TickId(se.Loop())
  {
  }

  lemma CountingOn(b: Block, i: nat, c: Carry, c': Carry, found: Option<real>)
    requires SaneBlock(b) && i < b.chunk && Counting(b, i, c)
    requires c'.iteration == c.iteration + 1 && c'.state.Obj? && c'.remaining == Decrement(c.remaining)
      && c'.deadline == found
    requires if Timed(b.loop) then found.Some? && (c.deadline.Some? ==> found == c.deadline) else found.None?
    ensures Counting(b, i + 1, c')
  {
  }

  // ---------------------------------------------------------------- one pass

  function PassCost(loop: Repeat): nat { SizeOf(loop.body) + 5 }

  /** How a walked pass ends: the frame, the outputs, where the run stands, the steps taken and,
      if it left the loop, the pass it left after. */
  datatype Ending = Ending(frame: Frame, env: map<string, Json>, target: string, steps: nat, after: int)

  /** The walk from `at` stands where the loop outcome says. */
  ghost predicate Ends(se: Setting, out: LoopOutcome, next: nat, nxt: string, outer: map<string, Json>,
                        at: string, f: Frame, r: Run, n: nat, la: Ending)
  {
    match out
    case LoopFailed(e, r') => Walk(se.g, se.w, se.limit, at, f, r, n) == Failed(e, r', la.steps)
    case GoesOn(c', r') =>
      && Walk(se.g, se.w, se.limit, at, f, r, n) == Walk(se.g, se.w, se.limit, nxt, la.frame, r', la.steps)
      && FrameOk(se, la.frame, la.env) && PassState(se, next, c', outer, la.env)
    case Exits(c', r') =>
      && Walk(se.g, se.w, se.limit, at, f, r, n) == Walk(se.g, se.w, se.limit, la.target, la.frame, r', la.steps)
      && FrameOk(se, la.frame, la.env) && ExitPlaced(se.sc, la.after, la.target)
      && ExitState(se, la.after, c', outer, la.env)
  }

  /** Walking one compiled pass is one pass of the plain loop. */
  lemma PassRuns(se: Setting, i: nat, arrival: string, nxt: string, c: Carry, outer: map<string, Json>,
                 f: Frame, env: map<string, Json>, r: Run, n: nat)
    returns (la: Ending)
    requires Sensible(se) && i < se.B().chunk && PassPlaced(se.sc, i, arrival, nxt) && Standing(se, i)
    requires PassState(se, i, c, outer, env) && FrameOk(se, f, env)
    requires n + PassCost(se.Loop()) <= se.limit
    ensures n <= la.steps <= n + PassCost(se.Loop())
    ensures Ends(se, Pass(se.w, se.Loop(), c, outer, Arrived(se.Loop(), i, r)), i + 1, nxt, outer, arrival, f, r, n, la)
    ensures Standing(se, i + 1)
  {
    hide Walk, EvalOps, ResolveAll, Distinct, LaidOut, Agrees, PassEnv, PassChanges, Retain, Sensible, TickPlaced,
      ClockPlaced,
         BodyPlaced, FrontPlaced, PausePlaced, PassState, ExitState, ExitPlaced, Within, UntouchedAfter;
    var entry, first :|
      && TickPlaced(se.sc, i, nxt) && ClockPlaced(se.sc, i) && BodyPlaced(se.sc, i, entry)
      && FrontPlaced(se.sc, i, entry, first) && PausePlaced(se.sc, i, first, arrival);
    PassStands(se, i, nxt);
    var loop := se.Loop();
    var r1 := Arrived(loop, i, r);
    var found := DeadlineOf(loop, c, r1.clock);
    var r2 := if Timed(loop) then Stepped(r1) else r1;
    var f1, target, n1 := FrontRuns(se, i, arrival, first, entry, c, outer, f, env, r, n);
    var env1 := Clocked(se, i, c, r1.clock, env);
    ClockKeeps(se, i, c, outer, env, r1.clock);
    if Past(found, r1.clock) {
      la := Ending(f1, env1, target, n1, i - 1);
    } else {
      var f2, env2, n2 := BodyRuns(se, i, entry, c, outer, f1, env1, r2, n1);
      la := Ending(f2, env2, target, n2, i);
      match EvalOps(se.w, InPass(loop, c), loop.body, EFrame(outer, Null, []), r2)
      case EFailed(_, _) =>
      case EDone(g, r3) =>
        AfterBody(se, i, c, outer, env, env1, g.env, env2, r1.clock);
        var f3, target3, n3 := TailRuns(se, i, nxt, c, found, g.env, f2, env2, r3, n2);
        TickMovesOn(se, i, c, found, outer, g.env, env2, r3.clock);
        var c' := Advance(se.w, loop, c, found, g.env, r3.clock);
        la := Ending(f3, env2[NameOf(TickId(loop), i, se.B().chunk) := TickOutput(c')], target3, n3, i);
    }
  }

  lemma PassStands(se: Setting, i: nat, nxt: string)
    requires TickPlaced(se.sc, i, nxt) && ClockPlaced(se.sc, i)
    ensures Standing(se, i + 1)
  {
    hide TickInput;
  }

  /** After the body, the tick still finds the clock's deadline and the previous state. */
  lemma AfterBody(se: Setting, i: nat, c: Carry, outer: map<string, Json>, env: map<string, Json>,
      env1: map<string, Json>,
                  genv: map<string, Json>, env2: map<string, Json>, now: real)
    requires Sensible(se) && i < se.B().chunk && PassState(se, i, c, outer, env) && Standing(se, i)
      && Standing(se, i + 1)
    requires env1 == Clocked(se, i, c, now, env) && Within(se, env1) && UntouchedAfter(se, i, env1)
    requires PassChanges(se.B(), i, outer, genv, env1, env2)
    requires PassEnv(se.B(), i, se.known, c, outer, env1)
    ensures Within(se, env2) && UntouchedAfter(se, i, env2) && Counting(se.B(), i, c)
    ensures TickReads(se, i, c, DeadlineOf(se.Loop(), c, now), env2)
    ensures forall x | x in IdsOf(se.Loop().body) :: Get(outer, x) == Null
    ensures forall x | x in se.known - LoopIds(se.Loop()) :: Get(genv, x) == Get(outer, x)
    ensures var found := DeadlineOf(se.Loop(), c, now);
      if Timed(se.Loop()) then
        found.Some? && (c.deadline.Some? ==> found == c.deadline)
        && Step(Get(env2, NameOf(ClockId(se.Loop()), i, se.B().chunk)), "deadline_unix") == DeadlineJson(found)
      else found.None?
  {
    var b, loop := se.B(), se.Loop();
    LoopIdsAreNames(loop);
    if Timed(loop) { NamesAreApart(se, ClockId(loop), i, ClockId(loop), i); }
    if i > 0 { NamesAreApart(se, TickId(loop), i - 1, TickId(loop), i - 1); }
    BodyKeeps(se, i, outer, genv, env1, env2);
    BeforeBody(se, i, c, outer, env, env1, now);
    hide Sensible, LoopNames, Within, UntouchedAfter, PassEnv, NameOf, LoopIds, PassState;
  }

  /** The deadline a pass finds is the one in force, and the block's own where it has one. */
  lemma DeadlineInForce(b: Block, i: nat, c: Carry, now: real)
    requires SaneBlock(b) && Counting(b, i, c) && i < b.chunk
    ensures var found := DeadlineOf(b.loop, c, now);
      if Timed(b.loop) then found.Some? && (c.deadline.Some? ==> found == c.deadline)
      else found.None? && b.deadline == DeadlineJson(found)
  {
  }

  /** What the tick of pass i needs stands before the body runs. */
  lemma BeforeBody(se: Setting, i: nat, c: Carry, outer: map<string, Json>, env: map<string, Json>,
      env1: map<string, Json>, now: real)
    requires Sensible(se) && i < se.B().chunk && PassState(se, i, c, outer, env) && env1 == Clocked(se, i, c, now, env)
    ensures Counting(se.B(), i, c) && (forall x | x in IdsOf(se.Loop().body) :: Get(outer, x) == Null)
    ensures var found := DeadlineOf(se.Loop(), c, now);
      && (if Timed(se.Loop()) then
            found.Some? && (c.deadline.Some? ==> found == c.deadline)
            && Step(Get(env1, NameOf(ClockId(se.Loop()), i, se.B().chunk)), "deadline_unix") == DeadlineJson(found)
          else found.None? && se.B().deadline == DeadlineJson(found))
      && (if i == 0 then se.B().initial == c.state
          else Step(Get(env1, NameOf(TickId(se.Loop()), i - 1, se.B().chunk)), "state") == c.state)
  {
    LoopIdsAreNames(se.Loop());
    SaneSetting(se);
    if i > 0 && Timed(se.Loop()) { NamesAreApart(se, TickId(se.Loop()), i - 1, ClockId(se.Loop()), i); }
    hide Sensible, LoopNames, Within, Untouched, NameOf, LoopIds, SaneBlock, TickId, ClockId, Decrement;
    assert Counting(se.B(), i, c);
    OutputsRead(c, DeadlineOf(se.Loop(), c, now), now);
    DeadlineInForce(se.B(), i, c, now);
    hide TickOutput, ClockOutput, Step, Counting, DeadlineOf, Timed;
  }

  lemma OutputsRead(c: Carry, deadline: Option<real>, now: real)
    ensures Step(TickOutput(c), "state") == c.state
    ensures Step(ClockOutput(deadline, now), "deadline_unix") == DeadlineJson(deadline)
  {
  }
}
