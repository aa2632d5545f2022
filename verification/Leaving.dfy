/** Leaving a block: the after-steps run once, reading what the last completed pass left. */
module Leaving {
  import opened Json
  import opened Plan
  import opened Graph
  import opened Meaning
  import opened Compiler
  import opened Discipline
  import opened Agreement
  import opened Shifting
  import opened Exiting
  import opened Realization
  import opened Growth
  import opened Copies
  import opened Placement
  import opened Distinctness
  import opened Visibility
  import opened PassWalk
  import opened Blocks

  /** The after-steps stand at the base of the build, apart from everything the passes added. */
  ghost predicate TailOk(se: Setting)
  {
    var sc, b := se.sc, se.B();
    && OpsOk(se.tail, se.known) && AllPlain(se.tail)
    && se.known == se.early + IdsOf(se.tail) + LoopIds(b.loop)
    && IdsOf(se.tail) <= sc.base.ids && IdsOf(se.tail) !! LoopIds(b.loop)
    && se.early !! sc.base.ids && sc.l.tail !! ROOTS
    && Later(sc.base, sc.fin)
    && (forall k, key | k in sc.fin.exits && k >= -1 && key in sc.l.tail :: ExitId(sc.l, k, key) !in se.early)
    && RealizesAll(sc.base, Plainly(sc.base), se.tail, sc.l.after, END, "")
    && RealizesAll(sc.fin, sc.vis, se.tail, sc.l.after, END, "")
  }

  predicate OuterOk(se: Setting, outer: map<string, Json>)
  {
    forall z | z in outer :: z in se.early
  }

  /** The layout the exit after pass k was copied with: none behind the block's last pass. */
  function ExitLayout(se: Setting, k: int): Layout
  {
    if k == se.B().chunk - 1 then Stay(se.B(), se.w.text) else se.sc.l
  }

  lemma NameIsNoTailNode(se: Setting, x: string, k: nat)
    requires Sensible(se) && x in LoopNames(se.Loop()) && k < se.B().chunk
    ensures NameOf(x, k, se.B().chunk) !in se.sc.base.ids && NameOf(x, k, se.B().chunk) !in se.sc.l.tail
    ensures NameOf(x, k, se.B().chunk) in se.sc.vis
  {
    PairIn(se, x, k);
    assert NameAt(se.B(), (x, k)) == NameOf(x, k, se.B().chunk);
  }

  /** A copied id is read by nothing the passes or earlier steps produced. */
  lemma CopyUnread(se: Setting, k: int, env: map<string, Json>, x: string)
    requires Sensible(se) && TailOk(se) && Within(se, env) && x in se.sc.l.tail && k in se.sc.fin.exits && k >= -1
    ensures Get(env, ExitId(se.sc.l, k, x)) == Null
  {
    forall p | p in PairsFrom(se.Loop(), 0, se.B().chunk) ensures ExitId(se.sc.l, k, x) != NameAt(se.B(), p) {
    }
  }

  lemma LeavesWith(se: Setting, k: int, target: string, c: Carry, outer: map<string, Json>, env: map<string, Json>)
    requires Sensible(se) && TailOk(se) && ExitPlaced(se.sc, k, target) && ExitState(se, k, c, outer, env)
      && OuterOk(se, outer)
    ensures ExitEnv(ExitLayout(se, k), k, se.known, c, outer, env)
  {
    hide ResolveAll, RealizesAll, LoopOk, SaneBlock, Distinct;
    var l, b := ExitLayout(se, k), se.B();
    forall x | x in se.known - LoopIds(b.loop) ensures Get(env, ExitId(l, k, x)) == Get(outer, x) {
      if x in l.tail {
        CopyUnread(se, k, env, x);
        assert x in se.sc.base.ids;
      }
    }
    if k >= 0 {
      forall x | x in LoopIds(b.loop) ensures ExitId(l, k, NameOf(x, k, b.chunk)) == NameOf(x, k, b.chunk) {
        NameIsNoTailNode(se, x, k);
      }
    }
  }

  lemma ExitsApart(se: Setting, k: int, target: string)
    requires Sensible(se) && TailOk(se) && ExitPlaced(se.sc, k, target) && -1 <= k < se.B().chunk
    ensures ExitApart(ExitLayout(se, k), k, se.known, IdsOf(se.tail))
  {
    hide ResolveAll, RealizesAll, LoopOk, SaneBlock, Distinct, Copied;
    var l, b, own := ExitLayout(se, k), se.B(), IdsOf(se.tail);
    forall t, x | t in own && x in se.known - LoopIds(b.loop) && x != t ensures ExitId(l, k, t) != ExitId(l, k, x) {
      if t in l.tail && x in l.tail {
        OriginalOf(l, k, t);
        OriginalOf(l, k, x);
      }
    }
    if k >= 0 {
      forall x | x in LoopIds(b.loop) ensures NameOf(x, k, b.chunk) !in ROOTS {
        NamesAreApart(se, x, k, x, k);
      }
      forall t, x | t in own && x in LoopIds(b.loop) ensures ExitId(l, k, t) != ExitId(l, k, NameOf(x, k, b.chunk)) {
        NameIsNoTailNode(se, x, k);
        if t in l.tail { CopyIsNoName(se, k, t, x, k); }
      }
    }
  }

  lemma CopyIsNoName(se: Setting, k: int, key: string, x: string, j: nat)
    requires Sensible(se) && key in se.sc.l.tail && k in se.sc.fin.exits && k >= -1
    requires x in LoopNames(se.Loop()) && j < se.B().chunk
    ensures ExitId(se.sc.l, k, key) != NameOf(x, j, se.B().chunk)
  {
    PairIn(se, x, j);
    assert NameAt(se.B(), (x, j)) == NameOf(x, j, se.B().chunk);
  }

  lemma ExitsVisible(se: Setting, k: int, target: string)
    requires Sensible(se) && TailOk(se) && ExitPlaced(se.sc, k, target) && -1 <= k < se.B().chunk
    ensures ExitVisible(ExitLayout(se, k), k, se.known, se.sc.vis)
  {
    hide ResolveAll, RealizesAll, LoopOk, SaneBlock, Distinct, Copied;
    var l, b := ExitLayout(se, k), se.B();
    forall x | x in se.known - LoopIds(b.loop) ensures ExitId(l, k, x) in se.sc.vis {
      assert x in se.sc.vis;
    }
    if k >= 0 {
      forall x | x in LoopIds(b.loop) ensures ExitId(l, k, NameOf(x, k, b.chunk)) in se.sc.vis {
        NameIsNoTailNode(se, x, k);
      }
    }
  }

  /** The copied after-steps behind an exit realize the source rewritten for it. */
  lemma CopyStands(sc: Scene, tail: seq<Op>, k: int, target: string)
    requires LaidOut(sc.l, sc.base) && sc.vis == Plainly(sc.fin) && AllPlain(tail)
    requires RealizesAll(sc.base, Plainly(sc.base), tail, sc.l.after, END, "")
    requires ExitPlaced(sc, k, target) && k != sc.l.block.chunk - 1
    ensures ExitOps(sc.l, k, tail).Ok?
    ensures RealizesAll(sc.fin, sc.vis, ExitOps(sc.l, k, tail).value, target, END, "")
  {
    hide RealizesAll, AllPlain;
    var l := sc.l;
    assert Imaged(l.tail, l, k, sc.base, sc.fin);
    assert Unseen(l.tail, l, k, sc.base, sc.vis);
    ImageRealizesAll(l.tail, l, k, sc.base, sc.fin, sc.vis, tail, l.after, END);
  }

  /** The after-steps behind an exit, as they stand in the finished graph. */
  lemma ExitStands(se: Setting, k: int, target: string)
    requires Sensible(se) && TailOk(se) && ExitPlaced(se.sc, k, target) && -1 <= k < se.B().chunk
    ensures ExitOps(ExitLayout(se, k), k, se.tail).Ok?
    ensures RealizesAll(se.sc.fin, se.sc.vis, ExitOps(ExitLayout(se, k), k, se.tail).value, target, END, "")
  {
    hide ResolveAll, RealizesAll, LoopOk, SaneBlock, Distinct, ExitPlaced;
    if k == se.B().chunk - 1 {
      assert target == se.sc.l.after by { LastExit(se.sc, k, target); }
      LastExitOps(se.B(), se.w.text, se.tail);
    } else {
      CopyStands(se.sc, se.tail, k, target);
    }
  }

  lemma LastExit(sc: Scene, k: int, target: string)
    requires ExitPlaced(sc, k, target) && k == sc.l.block.chunk - 1
    ensures target == sc.l.after
  {
  }

  /** The walk ends as evaluating the after-steps ends. */
  predicate Concludes(out: EOutcome, walked: Outcome, f': Frame, n': nat)
  {
    match out
    case EFailed(e, r') => walked == Failed(e, r', n')
    case EDone(_, r') => walked == Done(f', r', n')
  }

  /** Exactly one copy of the after-steps runs, and it is the evaluator's. */
  lemma ExitRuns(se: Setting, k: int, target: string, c: Carry, outer: map<string, Json>,
                 f: Frame, env: map<string, Json>, r: Run, n: nat)
    returns (f': Frame, n': nat)
    requires Sensible(se) && TailOk(se) && ExitPlaced(se.sc, k, target) && ExitState(se, k, c, outer, env)
      && OuterOk(se, outer)
    requires FrameOk(se, f, env) && n + SizeOf(se.tail) <= se.limit
    ensures n <= n' <= n + SizeOf(se.tail)
    ensures Concludes(EvalOps(se.w, AtExit(se.Loop(), c), se.tail, EFrame(outer, Null, []), r),
                      Walk(se.g, se.w, se.limit, target, f, r, n), f', n')
  {
    hide ResolveAll, RealizesAll, SaneBlock, Distinct, EvalOps, ExitOps, ExitEnv, ExitApart, ExitVisible, Agrees,
      Copied, CopiesFresh;
    var l := ExitLayout(se, k);
    LeavesWith(se, k, target, c, outer, env);
    ExitsApart(se, k, target);
    ExitsVisible(se, k, target);
    ExitStands(se, k, target);
    var tail' := ExitOps(l, k, se.tail).value;
    var g' := ExitOpsMean(se.w, l, k, se.known, IdsOf(se.tail), c, se.tail, EFrame(outer, Null, []),
      EFrame(env, Null, []), r);
    ExitOpsOk(l, k, se.known, se.sc.vis, se.tail);
    f', n' := SimulatesAll(se.sc.fin, se.g, se.sc.vis, se.w, se.limit, tail', target, END, "", f, EFrame(env, Null, []),
      r, n);
  }

  // ---------------------------------------------------------------- a whole block

  /** Walking the passes from i on is running that many passes of the plain loop. */
  lemma {:induction false} BlockRuns(se: Setting, i: nat, arrival: string, nxt: string, c: Carry,
      outer: map<string, Json>,
                                     f: Frame, env: map<string, Json>, r: Run, n: nat)
    returns (la: Ending)
    requires Sensible(se) && i < se.B().chunk && PassesPlaced(se.sc, i, se.B().chunk, arrival, nxt) && Standing(se, i)
    requires PassState(se, i, c, outer, env) && FrameOk(se, f, env)
    requires n + (se.B().chunk - i) * PassCost(se.Loop()) <= se.limit
    ensures n <= la.steps <= n + (se.B().chunk - i) * PassCost(se.Loop())
    ensures Ends(se, Passes(se.w, se.Loop(), c, outer, Arrived(se.Loop(), i, r), se.B().chunk - i), se.B().chunk, nxt,
      outer, arrival, f, r, n, la)
    ensures Passes(se.w, se.Loop(), c, outer, Arrived(se.Loop(), i, r), se.B().chunk - i).GoesOn? ==>
      Standing(se, se.B().chunk)
    decreases se.B().chunk - i
  {
    hide Walk, Pass, Sensible, PassPlaced, PassState, ExitState, ExitPlaced, Agrees;
    var cost, chunk := PassCost(se.Loop()), se.B().chunk;
    var mid :| PassPlaced(se.sc, i, arrival, mid) && PassesPlaced(se.sc, i + 1, chunk, mid, nxt);
    OneMore(chunk - i, cost);
    la := PassRuns(se, i, arrival, mid, c, outer, f, env, r, n);
    match Pass(se.w, se.Loop(), c, outer, Arrived(se.Loop(), i, r))
    case GoesOn(c', r') =>
      if i + 1 < chunk {
        la := BlockRuns(se, i + 1, mid, nxt, c', outer, la.frame, la.env, r', la.steps);
      }
    case _ =>
  }

  lemma OneMore(k: nat, cost: nat)
    requires k > 0
    ensures k * cost == cost + (k - 1) * cost && k * cost >= cost
  {
  }
}
