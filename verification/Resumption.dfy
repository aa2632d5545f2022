/** A resumed block does what the unbroken repeat does, when its carry has every seed and the
    values it carries are read the same as seeds and live. */
module Resumption {
  import opened Json
  import opened Plan
  import opened Graph
  import opened Meaning
  import opened Discipline
  import opened Shifting
  import opened PassWalk
  import opened Assembly
  import opened Handover
  import opened Alike
  import opened Sowing
  import opened Unbroken

  // ---------------------------------------------------------------- repeats a chain can carry

  /** Nothing reads the iteration counter, which every block restarts. */
  predicate SteadyLoop(loop: Repeat, after: seq<Op>)
  {
    && AllSteady(loop, loop.body) && AllSteady(loop, after)
    && forall i | 0 <= i < |loop.state| :: Steady(loop, loop.state[i].value)
  }

  /** A resumed carry next to the unbroken repeat's: every seed is there, and read as it would be live. */
  predicate Fits(w: World, loop: Repeat, after: seq<Op>, c: Carry, p: Carry)
  {
    c.first ==> Resumes(loop, after, c) && FaithfulCarry(w, loop, after, p)
  }

  predicate SameLoop(loop: Repeat, c: Carry, p: Carry, x: LoopOutcome, y: LoopOutcome)
  {
    || (x.LoopFailed? && y.LoopFailed? && x.error == y.error && SameRun(x.run, y.run))
    || (x.Exits? && y.Exits? && SameRun(x.run, y.run) && Tracks(loop, x.carry, y.carry)
        && (x.carry.first ==> Timed(loop) && x.carry == c && y.carry == p))
    || (x.GoesOn? && y.GoesOn? && SameRun(x.run, y.run) && Tracks(loop, x.carry, y.carry) && !x.carry.first)
  }

  // ---------------------------------------------------------------- one pass

  lemma {:induction false} RetainTracks(w: World, loop: Repeat, known: set<string>, c: Carry, p: Carry,
      env: map<string, Json>, entries: seq<Retained>)
    requires Tracks(loop, c, p) && ProperIds(loop, known) && StateOk(entries, known)
    requires forall i | 0 <= i < |entries| :: Steady(loop, entries[i].value)
    requires c.first ==> forall i | 0 <= i < |entries| ::
      Sown(loop, c, PreviousIn(loop, None), entries[i].value)
        && FaithfulExpr(w, InPass(loop, p), None, PreviousIn(loop, None), entries[i].value)
    ensures Retain(w, InPass(loop, c), env, entries) == Retain(w, InPass(loop, p), env, entries)
    decreases entries
  {
    if entries != [] {
      hide Tracks, Follows, Fixed;
      var e := entries[|entries| - 1].value;
      RetainTracks(w, loop, known, c, p, env, entries[..|entries| - 1]);
      PlaceFollows(w, loop, known, c, p, true, None);
      ExprIsAlike(w, InPass(loop, c), InPass(loop, p), None, loop, known, PreviousIn(loop, None), c, e);
      SameExpr(w, InPass(loop, c), InPass(loop, p), env, None, e);
    }
  }

  lemma {:induction false} RetainHolds(w: World, look: Outlook, env: map<string, Json>, entries: seq<Retained>, i: nat)
    requires i < |entries| && DistinctKeys(entries)
    ensures entries[i].key in Retain(w, look, env, entries)
    ensures Retain(w, look, env, entries)[entries[i].key] == EvalExpr(w, look, env, None, entries[i].value)
    decreases entries
  {
    if i < |entries| - 1 {
      RetainHolds(w, look, env, entries[..|entries| - 1], i);
      assert entries[i].key != entries[|entries| - 1].key;
    }
  }

  /** After any completed pass the retained state holds the outputs it is mapped from. */
  lemma AdvanceKeeps(w: World, loop: Repeat, p: Carry, deadline: Option<real>, env: map<string, Json>, now: real,
      known: set<string>)
    requires DistinctKeys(loop.state) && ProperIds(loop, known) && p.state.Obj?
    ensures KeepsOutputs(loop, Advance(w, loop, p, deadline, env, now))
  {
    var p' := Advance(w, loop, p, deadline, env, now);
    forall i | 0 <= i < |loop.state| && loop.state[i].value.Ref? && loop.state[i].value.ref in IdsOf(loop.body)
      ensures var e := loop.state[i];
        e.key in p'.state.fields && p'.state.fields[e.key] == Lookup(Get(p'.outputs, e.value.ref), e.value.path)
    {
      RetainHolds(w, InPass(loop, p), env, loop.state, i);
      assert Read(w, InPass(loop, p), env, None, loop.state[i].value.ref, loop.state[i].value.path)
          == Live(Lookup(Get(env, loop.state[i].value.ref), loop.state[i].value.path));
    }
  }

  lemma AdvanceTracks(w: World, loop: Repeat, known: set<string>, after: seq<Op>, c: Carry, p: Carry,
      deadline: Option<real>,
                      env: map<string, Json>, now: real)
    requires Tracks(loop, c, p) && ProperIds(loop, known) && DistinctKeys(loop.state) && StateOk(loop.state, known)
    requires SteadyLoop(loop, after) && Fits(w, loop, after, c, p)
    ensures var c', p' := Advance(w, loop, c, deadline, env, now), Advance(w, loop, p, deadline, env, now);
      Tracks(loop, c', p') && !c'.first && c'.done == p'.done
  {
    hide AllSteady, AllFaithful, SownOps;
    RetainTracks(w, loop, known, c, p, env, loop.state);
    AdvanceKeeps(w, loop, p, deadline, env, now, known);
  }

  lemma PassTracks(w: World, loop: Repeat, known: set<string>, after: seq<Op>, c: Carry, p: Carry,
      outer: map<string, Json>, r: Run, q: Run)
    requires Tracks(loop, c, p) && SameRun(r, q) && LoopOk(loop, known) && DistinctKeys(loop.state)
    requires SteadyLoop(loop, after) && Fits(w, loop, after, c, p)
    ensures SameLoop(loop, c, p, Pass(w, loop, c, outer, r), Pass(w, loop, p, outer, q))
  {
    hide EvalOps, Retain, Read, AllSteady, Steady, OpsOk, AllFaithful, SownOps, Advance, AllAlike;
    var r', q' := if Timed(loop) then Stepped(r) else r, if Timed(loop) then Stepped(q) else q;
    var deadline := DeadlineOf(loop, c, r.clock);
    assert DeadlineOf(loop, p, q.clock) == deadline;
    if !Past(deadline, r.clock) {
      OpsAreAlike(w, loop, known, c, p, true, loop.body);
      SameOps(w, InPass(loop, c), InPass(loop, p), loop.body, EFrame(outer, Null, []), r', q');
      match EvalOps(w, InPass(loop, c), loop.body, EFrame(outer, Null, []), r')
      case EFailed(_, _) =>
      case EDone(f, r2) => AdvanceTracks(w, loop, known, after, c, p, deadline, f.env, r2.clock);
    }
  }

  // ---------------------------------------------------------------- the passes of a block

  lemma {:induction false} PassesTrack(w: World, loop: Repeat, known: set<string>, after: seq<Op>, c: Carry, p: Carry,
                                       outer: map<string, Json>, r: Run, q: Run, passes: nat)
    requires passes > 0 && Tracks(loop, c, p) && SameRun(r, q) && LoopOk(loop, known) && DistinctKeys(loop.state)
    requires SteadyLoop(loop, after) && Fits(w, loop, after, c, p)
    ensures SameLoop(loop, c, p, Passes(w, loop, c, outer, r, passes), Passes(w, loop, p, outer, q, passes))
    decreases passes
  {
    hide Pass, LoopOk, SteadyLoop, Resumes, FaithfulCarry, Tracks;
    PassTracks(w, loop, known, after, c, p, outer, r, q);
    var x, y := Pass(w, loop, c, outer, r), Pass(w, loop, p, outer, q);
    if x.GoesOn? && passes > 1 {
      PassesTrack(w, loop, known, after, x.carry, y.carry, outer, Rest(loop, x.run), Rest(loop, y.run), passes - 1);
      StaysSeeded(loop, x.carry, y.carry, Passes(w, loop, x.carry, outer, Rest(loop, x.run), passes - 1),
        Passes(w, loop, y.carry, outer, Rest(loop, y.run), passes - 1), c, p);
    }
  }

  lemma StaysSeeded(loop: Repeat, c: Carry, p: Carry, x: LoopOutcome, y: LoopOutcome, c': Carry, p': Carry)
    requires SameLoop(loop, c, p, x, y) && !c.first
    ensures SameLoop(loop, c', p', x, y)
  {
  }

  predicate SameBlock(loop: Repeat, x: BlockOutcome, y: BlockOutcome)
  {
    || (x.Broken? && y.Broken? && x.error == y.error && SameRun(x.run, y.run))
    || (x.Finished? && y.Finished? && SameRun(x.run, y.run))
    || (x.Suspended? && y.Suspended? && SameRun(x.run, y.run) && Tracks(loop, x.carry, y.carry) && !x.carry.first)
  }

  /** The passes of a resumed block, and the after-steps if they end it, against the unbroken
      repeat's. */
  lemma BlockTracks(w: World, loop: Repeat, known: set<string>, after: seq<Op>, c: Carry, p: Carry,
                    outer: map<string, Json>, r: Run, q: Run, passes: nat)
    requires passes > 0 && Tracks(loop, c, p) && SameRun(r, q) && LoopOk(loop, known) && DistinctKeys(loop.state)
    requires SteadyLoop(loop, after) && Fits(w, loop, after, c, p) && OpsOk(after, known) && AllPlain(after)
    ensures SameBlock(loop, EvalPasses(w, loop, after, c, outer, r, passes),
      EvalPasses(w, loop, after, p, outer, q, passes))
  {
    hide Passes, EvalOps, OpsOk, AllPlain, AllSteady, Steady, Tracks, SownOps, AllFaithful, AllAlike, StateOk, Sown,
      FaithfulExpr;
    PassesTrack(w, loop, known, after, c, p, outer, r, q, passes);
    var x, y := Passes(w, loop, c, outer, r, passes), Passes(w, loop, p, outer, q, passes);
    if x.Exits? {
      OpsAreAlike(w, loop, known, x.carry, y.carry, false, after);
      SameOps(w, AtExit(loop, x.carry), AtExit(loop, y.carry), after, EFrame(outer, Null, []), x.run, y.run);
    }
  }

  // ---------------------------------------------------------------- passes in a row

  function ThenPasses(w: World, loop: Repeat, outer: map<string, Json>, out: LoopOutcome, more: nat): LoopOutcome
    requires more > 0
  {
    if out.GoesOn? then Passes(w, loop, out.carry, outer, Rest(loop, out.run), more) else out
  }

  function ThenEval(w: World, loop: Repeat, after: seq<Op>, outer: map<string, Json>, out: BlockOutcome,
      more: nat): BlockOutcome
    requires more > 0
  {
    if out.Suspended? then EvalPasses(w, loop, after, out.carry, outer, out.run, more) else out
  }

  /** Passes may be counted in one go or in two. */
  lemma {:induction false} PassesSplit(w: World, loop: Repeat, c: Carry, outer: map<string, Json>, r: Run, first: nat,
      second: nat)
    requires first > 0 && second > 0
    ensures Passes(w, loop, c, outer, r, first + second)
      == ThenPasses(w, loop, outer, Passes(w, loop, c, outer, r, first), second)
    decreases first
  {
    match Pass(w, loop, c, outer, r)
    case GoesOn(c', r') => if first > 1 { PassesSplit(w, loop, c', outer, Rest(loop, r'), first - 1, second); }
    case _ =>
  }

  lemma EvalPassesSplit(w: World, loop: Repeat, after: seq<Op>, c: Carry, outer: map<string, Json>, r: Run, first: nat,
      second: nat)
    requires first > 0 && second > 0
    ensures EvalPasses(w, loop, after, c, outer, r, first + second)
         == ThenEval(w, loop, after, outer, EvalPasses(w, loop, after, c, outer, r, first), second)
  {
    hide EvalOps, Pass;
    PassesSplit(w, loop, c, outer, r, first, second);
    match Passes(w, loop, c, outer, r, first)
    case GoesOn(c', r') => assert EvalPasses(w, loop, after, c, outer, r, first) == Suspended(c', Rest(loop, r'));
    case Exits(c', r') =>
    case LoopFailed(e, r') =>
  }
}
