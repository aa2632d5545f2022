/** The offline simulator as it runs: one loop per execution, updating the shared result. */
module Simulator {
  import opened Json
  import opened Plan
  import opened Graph

  /** Branch outcomes so far in front of what the remaining branches give. */
  function Gathered(results: seq<Json>, clocks: seq<real>, rest: BranchOutcome): BranchOutcome
  {
    match rest
    case BranchFailed(e, r, n) => rest
    case AllDone(more, times, r, n) => AllDone(results + more, clocks + times, r, n)
  }

  lemma GatherOne(results: seq<Json>, clocks: seq<real>, last: Json, time: real, rest: BranchOutcome)
    ensures Gathered(results, clocks, Gathered([last], [time], rest))
      == Gathered(results + [last], clocks + [time], rest)
  {
    if rest.AllDone? {
      assert results + ([last] + rest.results) == (results + [last]) + rest.results;
      assert clocks + ([time] + rest.clocks) == (clocks + [time]) + rest.clocks;
    }
  }

  lemma GatherNothing(out: BranchOutcome)
    ensures Gathered([], [], out) == out
  {
    if out.AllDone? { assert [] + out.results == out.results && [] + out.clocks == out.clocks; }
  }

  /** How an execution ended: with its node results and last result, or with an error. */
  datatype Ended = Returned(frame: Frame) | Threw(error: Error)

  function AsOutcome(e: Ended, r: Run, n: nat): Outcome
  {
    match e
    case Returned(frame) => Done(frame, r, n)
    case Threw(error) => Failed(error, r, n)
  }

  datatype BranchesEnded = Joined(results: seq<Json>, clocks: seq<real>) | BranchThrew(error: Error)

  function AsBranchOutcome(e: BranchesEnded, r: Run, n: nat): BranchOutcome
  {
    match e
    case Joined(results, clocks) => AllDone(results, clocks, r, n)
    case BranchThrew(error) => BranchFailed(error, r, n)
  }

  class WorkflowSimulator {
    const g: Native
    const w: World
    const limit: nat
    var result: Run
    var steps: nat

    constructor (g: Native, w: World, limit: nat, now: real)
      ensures this.g == g && this.w == w && this.limit == limit && steps == 0
      ensures result == Run(now, [], 0, [], [], 0)
    {
      this.g, this.w, this.limit := g, w, limit;
      result, steps := Run(now, [], 0, [], [], 0), 0;
    }

    /** Runs one execution from a node to its end, step by step. */
    method WalkFrom(entry: string, nodes0: map<string, Json>) returns (ended: Ended)
      modifies this
      ensures Walk(g, w, limit, entry, Frame(nodes0, Null, []), old(result), old(steps))
        == AsOutcome(ended, result, steps)
      ensures steps >= old(steps)
      decreases Left(limit, steps), 0
    {
      hide Perform, Choose, Unwind, JoinBody, Latest, Response, HasError, Context, WalkBranches;
      var current, nodes, last := entry, nodes0, Null;
      ghost var whole := Walk(g, w, limit, entry, Frame(nodes0, Null, []), result, steps);
      var compensations: seq<Tmpl> := [];
      while current != END
        invariant steps >= old(steps)
        invariant whole == Walk(g, w, limit, current, Frame(nodes, last, compensations), result, steps)
        decreases Left(limit, steps)
      {
        steps := steps + 1;
        if steps > limit { return Threw(OutOfSteps); }
        if current !in g { return Threw(UnknownNode); }
        var ctx := Context(w, nodes);
        match g[current] {
          case Task(action, next, undo) =>
            var done := Perform(w, action, ctx, result);
            result := done.run;
            if done.Crashed? { return Threw(Exception); }
            last := done.body;
            if HasError(last) {
              result := result.(compensations := result.compensations + Unwind(compensations, ctx, w.text));
              return Threw(TaskFailed);
            }
            nodes := nodes[current := Response(last)];
            if undo.Some? { compensations := compensations + [undo.value]; }
            current := next;
          case Sleep(seconds, next) =>
            result := result.(clock := result.clock + seconds);
            current := next;
          case Switch(cases, default) =>
            var chosen := Choose(w, cases, default, ctx);
            if chosen.None? { return Threw(Exception); }
            current := chosen.value;
          case Split(branches, join) =>
            var all := RunBranches(branches);
            if all.BranchThrew? { return Threw(all.error); }
            if all.clocks == [] { return Threw(Exception); }
            if join !in g || !g[join].Join? { return Threw(UnknownNode); }
            result := result.(clock := Latest(all.clocks));
            last := JoinBody(branches, all.results);
            nodes := nodes[join := Response(last)];
            current := g[join].next;
          case Join(_) => return Threw(JoinEntered);
        }
      }
      return Returned(Frame(nodes, last, compensations));
    }

    /** Runs the branches of a split one after the other, each from the split's clock. */
    method RunBranches(branches: seq<string>) returns (ended: BranchesEnded)
      modifies this
      ensures WalkBranches(g, w, limit, branches, old(result.clock), old(result), old(steps))
        == AsBranchOutcome(ended, result, steps)
      ensures steps >= old(steps)
      ensures ended.Joined? ==> |ended.results| == |ended.clocks| == |branches|
      decreases Left(limit, steps), 1
    {
      var start := result.clock;
      var results: seq<Json>, clocks: seq<real> := [], [];
      var i := 0;
      ghost var whole := WalkBranches(g, w, limit, branches, start, result, steps);
      GatherNothing(whole);
      assert branches[0..] == branches;
      while i < |branches|
        invariant 0 <= i <= |branches| && |results| == |clocks| == i && steps >= old(steps)
        invariant whole == Gathered(results, clocks, WalkBranches(g, w, limit, branches[i..], start, result, steps))
      {
        assert branches[i..][0] == branches[i] && branches[i..][1..] == branches[i + 1..];
        ghost var before, n := result, steps;
        result := result.(clock := start);
        var child := WalkFrom(branches[i], map[]);
        ghost var rest := WalkBranches(g, w, limit, branches[i + 1..], start, result, steps);
        if child.Threw? { return BranchThrew(child.error); }
        GatherOne(results, clocks, child.frame.last, result.clock, rest);
        results, clocks := results + [child.frame.last], clocks + [result.clock];
        i := i + 1;
      }
      assert branches[i..] == [];
      return Joined(results, clocks);
    }

    /** Simulates the graph from its entrypoint. */
    method Simulate(entry: string) returns (ended: Ended)
      requires steps == 0
      modifies this
      ensures Walk(g, w, limit, entry, FRESH, old(result), 0) == AsOutcome(ended, result, steps)
    {
      ended := WalkFrom(entry, map[]);
    }
  }
}
