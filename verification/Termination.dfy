/** Runs of graphs the cycle check accepts end, whatever their switches decide. */
module Termination {
  import opened Json
  import opened Plan
  import opened Graph
  import opened Sets
  import opened Cycles

  function Height(order: seq<string>, key: string): nat
  {
    if key in order then Rank(order, key) + 1 else 0
  }

  lemma StepsDown(g: Native, order: seq<string>, a: string, b: string)
    requires ProperNames(g) && Finished(g, order) && a in order && a in g && b in g && b in Successors(g[a])
    ensures b in order && Height(order, b) < Height(order, a)
  {
    EdgesDescend(g, order, a, b);
  }

  // ---------------------------------------------------------------- a bound on the steps of any run

  /** Where a run goes next: out of the execution, off the graph, or down the finishing order. */
  predicate Below(g: Native, order: seq<string>, key: string, x: string)
  {
    x in g ==> x in order && Height(order, x) < Height(order, key)
  }

  ghost predicate Descends(g: Native, order: seq<string>)
  {
    && ProperNames(g) && Finished(g, order)
    && forall key, x | key in order && key in g && x in Targeted(g[key]) :: Below(g, order, key, x)
  }

  lemma FinishedDescends(g: Native, order: seq<string>)
    requires ProperNames(g) && Finished(g, order)
    ensures Descends(g, order)
  {
    forall key, x | key in order && key in g && x in Targeted(g[key]) ensures Below(g, order, key, x) {
      if x in g {
        StepsDown(g, order, key, x);
      }
    }
  }

  /** The most steps a run takes from a node on: one per node it passes, branches included. */
  ghost function Cost(g: Native, order: seq<string>, key: string): nat
    requires Descends(g, order)
    decreases Height(order, key), 1, 0
  {
    if key == END then 0
    else if key !in g || key !in order then 1
    else
      match g[key]
      case Task(_, next, _) => 1 + After(g, order, key, next)
      case Sleep(_, next) => 1 + After(g, order, key, next)
      case Join(next) => 1 + After(g, order, key, next)
      case Switch(cases, default) => CasesAreTargeted(g[key]); 1 + MostAfter(g, order, key, cases, default)
      case Split(branches, join) => 1 + AllAfter(g, order, key, branches) + After(g, order, key, join)
  }

  ghost function After(g: Native, order: seq<string>, key: string, next: string): nat
    requires Descends(g, order) && key in order && Below(g, order, key, next)
    decreases Height(order, key), 0, 0
  {
    if next in g then Cost(g, order, next) else if next == END then 0 else 1
  }

  ghost function MostAfter(g: Native, order: seq<string>, key: string, cases: seq<Case<Path>>, default: string): nat
    requires Descends(g, order) && key in order && Below(g, order, key, default)
    requires forall c | c in cases :: Below(g, order, key, c.target)
    decreases Height(order, key), 0, |cases| + 1
  {
    if cases == [] then After(g, order, key, default)
    else
      var first, rest := After(g, order, key, cases[0].target), MostAfter(g, order, key, cases[1..], default);
      if first >= rest then first else rest
  }

  ghost function AllAfter(g: Native, order: seq<string>, key: string, branches: seq<string>): nat
    requires Descends(g, order) && key in order && forall b | b in branches :: Below(g, order, key, b)
    decreases Height(order, key), 0, |branches| + 1
  {
    if branches == [] then 0 else After(g, order, key, branches[0]) + AllAfter(g, order, key, branches[1..])
  }

  lemma AfterIsCost(g: Native, order: seq<string>, key: string, next: string)
    requires Descends(g, order) && key in order && Below(g, order, key, next)
    ensures After(g, order, key, next) == Cost(g, order, next)
  {
  }

  lemma {:induction false} ChosenCost(g: Native, order: seq<string>, key: string, w: World, cases: seq<Case<Path>>,
      default: string, ctx: Json, target: string)
    requires Descends(g, order) && key in order && Below(g, order, key, default)
    requires forall c | c in cases :: Below(g, order, key, c.target)
    requires Choose(w, cases, default, ctx) == Some(target)
    ensures Below(g, order, key, target) && After(g, order, key, target) <= MostAfter(g, order, key, cases, default)
    decreases cases
  {
    if cases != [] {
      var v := Decide(w, cases[0].when, ReadFrom(ctx)).value;
      if !Truthy(v) { ChosenCost(g, order, key, w, cases[1..], default, ctx, target); }
    }
  }

  predicate EndsWithin(out: Outcome, steps: nat)
  {
    out.steps <= steps && (out.Failed? ==> out.error != OutOfSteps)
  }

  predicate BranchesEndWithin(out: BranchOutcome, steps: nat)
  {
    out.steps <= steps && (out.BranchFailed? ==> out.error != OutOfSteps)
  }

  /** A run with room for its cost never runs out of steps. */
  lemma {:induction false} WalkEnds(g: Native, order: seq<string>, w: World, limit: nat, current: string, f: Frame,
      r: Run, n: nat)
    requires Descends(g, order) && (current in g ==> current in order)
    requires n + Cost(g, order, current) <= limit
    ensures EndsWithin(Walk(g, w, limit, current, f, r, n), n + Cost(g, order, current))
    decreases Height(order, current), 1, 0
  {
    hide Perform, Unwind, Descends, Decide, Below;
    if current != END && current in g {
      Downward(g, order, current);
      match g[current]
      case Task(action, next, undo) =>
        AfterIsCost(g, order, current, next);
        var done := Perform(w, action, Context(w, f.nodes), r);
        if done.Body? && !HasError(done.body) {
          WalkOn(g, order, w, limit, current, next, Completed(f, current, done.body, undo), done.run, n + 1);
        }
      case Sleep(seconds, next) =>
        AfterIsCost(g, order, current, next);
        WalkOn(g, order, w, limit, current, next, f, r.(clock := r.clock + seconds), n + 1);
      case Switch(cases, default) =>
        var chosen := Choose(w, cases, default, Context(w, f.nodes));
        if chosen.Some? {
          ChosenCost(g, order, current, w, cases, default, Context(w, f.nodes), chosen.value);
          AfterIsCost(g, order, current, chosen.value);
          WalkOn(g, order, w, limit, current, chosen.value, f, r, n + 1);
        }
      case Split(branches, join) => SplitEnds(g, order, w, limit, current, f, r, n);
      case Join(_) =>
    }
  }

  lemma Downward(g: Native, order: seq<string>, key: string)
    requires Descends(g, order) && key in order && key in g
    ensures forall x | x in Targeted(g[key]) :: Below(g, order, key, x)
    ensures g[key].Switch? ==> forall c | c in g[key].cases :: Below(g, order, key, c.target)
    ensures g[key].Split? ==> forall b | b in g[key].branches :: Below(g, order, key, b)
  {
    if g[key].Switch? {
      CasesAreTargeted(g[key]);
    }
    if g[key].Split? {
      forall b | b in g[key].branches ensures Below(g, order, key, b) { EntryIsTargeted(g[key], b); }
    }
  }

  lemma {:induction false} WalkOn(g: Native, order: seq<string>, w: World, limit: nat, key: string, next: string,
      f: Frame, r: Run, n: nat)
    requires Descends(g, order) && key in order && Below(g, order, key, next)
    requires n + Cost(g, order, next) <= limit
    ensures EndsWithin(Walk(g, w, limit, next, f, r, n), n + Cost(g, order, next))
    decreases Height(order, key), 0, 0
  {
    if next in g { WalkEnds(g, order, w, limit, next, f, r, n); }
  }

  lemma {:induction false} SplitEnds(g: Native, order: seq<string>, w: World, limit: nat, current: string, f: Frame,
      r: Run, n: nat)
    requires Descends(g, order) && current in g && current in order && g[current].Split?
    requires n + Cost(g, order, current) <= limit
    ensures EndsWithin(Walk(g, w, limit, current, f, r, n), n + Cost(g, order, current))
    decreases Height(order, current), 0, |g[current].branches| + 2
  {
    hide Descends, Below;
    var branches, join := g[current].branches, g[current].join;
    Downward(g, order, current);
    assert Cost(g, order, current) == 1 + AllAfter(g, order, current, branches) + After(g, order, current, join) by {
      SplitCost(g, order, current);
    }
    BranchesEnd(g, order, w, limit, current, branches, r.clock, r, n + 1);
    var done := WalkBranches(g, w, limit, branches, r.clock, r, n + 1);
    if done.AllDone? && done.clocks != [] && join in g && g[join].Join? {
      AfterIsCost(g, order, current, join);
      var next := g[join].next;
      JoinDown(g, order, current, join);
      Downward(g, order, join);
      assert Cost(g, order, join) == 1 + After(g, order, join, next) by { JoinCost(g, order, join); }
      AfterIsCost(g, order, join, next);
      WalkOn(g, order, w, limit, join, next,
             Frame(f.nodes[join := Response(JoinBody(branches, done.results))], JoinBody(branches, done.results),
               f.undo),
             done.run.(clock := Latest(done.clocks)), done.steps);
    }
  }

  lemma SplitCost(g: Native, order: seq<string>, key: string)
    requires Descends(g, order) && key in g && key in order && g[key].Split?
    requires (forall b | b in g[key].branches :: Below(g, order, key, b)) && Below(g, order, key, g[key].join)
    ensures Cost(g, order, key) == 1 + AllAfter(g, order, key, g[key].branches) + After(g, order, key, g[key].join)
  {
  }

  lemma JoinCost(g: Native, order: seq<string>, key: string)
    requires Descends(g, order) && key in g && key in order && g[key].Join? && Below(g, order, key, g[key].next)
    ensures Cost(g, order, key) == 1 + After(g, order, key, g[key].next)
  {
  }

  lemma JoinDown(g: Native, order: seq<string>, current: string, join: string)
    requires Below(g, order, current, join) && join in g
    ensures join in order && Height(order, join) < Height(order, current)
  {
  }

  lemma {:induction false} BranchesEnd(g: Native, order: seq<string>, w: World, limit: nat, key: string,
      branches: seq<string>, start: real, r: Run, n: nat)
    requires Descends(g, order) && key in order && forall b | b in branches :: Below(g, order, key, b)
    requires n + AllAfter(g, order, key, branches) <= limit
    ensures BranchesEndWithin(WalkBranches(g, w, limit, branches, start, r, n), n + AllAfter(g, order, key, branches))
    decreases Height(order, key), 0, |branches| + 1
  {
    hide Descends, Below, Walk;
    if branches != [] {
      AfterIsCost(g, order, key, branches[0]);
      WalkOn(g, order, w, limit, key, branches[0], FRESH, r.(clock := start), n);
      match Walk(g, w, limit, branches[0], FRESH, r.(clock := start), n)
      case Failed(_, _, _) =>
      case Done(_, r', n') => BranchesEnd(g, order, w, limit, key, branches[1..], start, r', n');
    }
  }

  /** Every run of a graph the cycle check accepts ends within a number of steps that depends on
      the graph alone. */
  lemma AcceptedRunsEnd(g: Native, entry: string) returns (bound: nat)
    requires ProperNames(g) && entry in g && Ordered(g, entry)
    ensures forall w, limit: nat, f, r, n: nat | n + bound <= limit ::
      EndsWithin(Walk(g, w, limit, entry, f, r, n), n + bound)
  {
    var order :| Finished(g, order) && entry in order;
    FinishedDescends(g, order);
    bound := Cost(g, order, entry);
    forall w, limit: nat, f, r, n: nat | n + bound <= limit
      ensures EndsWithin(Walk(g, w, limit, entry, f, r, n), n + bound) {
      WalkEnds(g, order, w, limit, entry, f, r, n);
    }
  }

  // ---------------------------------------------------------------- without splits

  /** Every edge resolves. */
  predicate Resolved(g: Native)
  {
    forall key | key in g :: forall x | x in Targeted(g[key]) :: x in g || x == END
  }

  lemma {:induction false} LinearCost(g: Native, order: seq<string>, key: string)
    requires Descends(g, order) && Resolved(g) && (forall k | k in g :: !g[k].Split?)
    requires key in g && key in order
    ensures Cost(g, order, key) <= Height(order, key)
    decreases Height(order, key), 1, 0
  {
    Downward(g, order, key);
    match g[key]
    case Task(_, next, _) => LinearAfter(g, order, key, next);
    case Sleep(_, next) => LinearAfter(g, order, key, next);
    case Join(next) => LinearAfter(g, order, key, next);
    case Switch(cases, default) =>
      CasesAreTargeted(g[key]);
      LinearMost(g, order, key, cases, default);
  }

  lemma {:induction false} LinearAfter(g: Native, order: seq<string>, key: string, next: string)
    requires Descends(g, order) && Resolved(g) && (forall k | k in g :: !g[k].Split?)
    requires key in order && Below(g, order, key, next) && (next in g || next == END)
    ensures After(g, order, key, next) < Height(order, key)
    decreases Height(order, key), 0, 0
  {
    if next in g { LinearCost(g, order, next); }
  }

  lemma {:induction false} LinearMost(g: Native, order: seq<string>, key: string, cases: seq<Case<Path>>,
      default: string)
    requires Descends(g, order) && Resolved(g) && (forall k | k in g :: !g[k].Split?)
    requires key in order && Below(g, order, key, default) && (default in g || default == END)
    requires forall c | c in cases :: Below(g, order, key, c.target) && (c.target in g || c.target == END)
    ensures MostAfter(g, order, key, cases, default) < Height(order, key)
    decreases Height(order, key), 0, |cases| + 1
  {
    if cases == [] {
      LinearAfter(g, order, key, default);
    } else {
      LinearAfter(g, order, key, cases[0].target);
      LinearMost(g, order, key, cases[1..], default);
    }
  }

  lemma OrderFits(g: Native, order: seq<string>)
    requires (forall i, j | 0 <= i < j < |order| :: order[i] != order[j]) && WithinGraph(g, order)
    ensures |order| <= |g|
  {
    DistinctFit(order, g.Keys);
  }

  /** Without splits, every run of a graph the cycle check accepts takes at most one step per node. */
  lemma SplitFreeRunsEnd(g: Native, entry: string, w: World, f: Frame, r: Run)
    requires ProperNames(g) && Resolved(g) && (forall k | k in g :: !g[k].Split?)
    requires entry in g && Ordered(g, entry)
    ensures EndsWithin(Walk(g, w, |g|, entry, f, r, 0), |g|)
  {
    var order :| Finished(g, order) && entry in order && WithinGraph(g, order);
    FinishedDescends(g, order);
    LinearCost(g, order, entry);
    OrderFits(g, order);
    WalkEnds(g, order, w, |g|, entry, f, r, 0);
  }
}
