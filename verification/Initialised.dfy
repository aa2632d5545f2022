/** An accepted graph never reads a result its execution does not have. */
module Initialised {
  import opened Json
  import opened Plan
  import opened Graph
  import opened InitCheck
  import opened Branches

  // ---------------------------------------------------------------- visibility

  /** References of any kind in a node. */
  function CondRefs(e: Logic<Path>): set<string>
  {
    match e
    case Var(p) => PathNode(p)
    case Group(items) => set i, x | 0 <= i < |items| && x in CondRefs(items[i]) :: x
    case Operator(_, args) => set i, x | 0 <= i < |args| && x in CondRefs(args[i]) :: x
    case _ => {}
  }

  function NodeRefs(node: NativeNode): set<string>
  {
    match node
    case Task(_, _, undo) => BodyRefs(node) + (if undo.Some? then TmplRefs(undo.value) else {})
    case Switch(cases, _) => set i, x | 0 <= i < |cases| && x in CondRefs(cases[i].when) :: x
    case _ => {}
  }

  /** The visibility rules: a node outside every branch refers to no branch node; a branch node
      refers only to nodes of its own branches. */
  ghost predicate Visible(g: Native)
  {
    && (forall key, x | key in g && !Inside(g, key) && x in NodeRefs(g[key]) && x in g :: !Inside(g, x))
    && (forall key, x | key in g && Inside(g, key) && x in NodeRefs(g[key]) && x in g ::
          exists b :: BranchEntry(g, b) && InBranch(g, b, key) && InBranch(g, b, x))
  }

  // ---------------------------------------------------------------- guards refer to what they guarantee

  lemma {:induction false} GuardsAreRefs(e: Logic<Path>)
    ensures Guaranteed(e) <= CondRefs(e)
    decreases e, 0
  {
    match e
    case Operator(op, args) =>
      if op == "!!" && args != [] {
        GuardsAreRefs(args[0]);
      } else if op == "and" && args != [] {
        AllGuardsAreRefs(args);
      } else if op == "or" && args != [] {
        AllGuardsAreRefs(args);
        AnyIsAll(args);
      } else if |args| == 2 {
        assert forall i | 0 <= i < 2 :: Variable(args[i]) <= CondRefs(args[i]);
      }
    case _ =>
  }

  lemma {:induction false} AllGuardsAreRefs(es: seq<Logic<Path>>)
    ensures forall x | x in ByAll(es) :: exists i :: 0 <= i < |es| && x in CondRefs(es[i])
    decreases es, 1
  {
    if es != [] {
      GuardsAreRefs(es[0]);
      AllGuardsAreRefs(es[1..]);
      forall x | x in ByAll(es) ensures exists i :: 0 <= i < |es| && x in CondRefs(es[i]) {
        if x !in Guaranteed(es[0]) {
          assert x in ByAll(es[1..]);
          var i :| 0 <= i < |es[1..]| && x in CondRefs(es[1..][i]);
          assert x in CondRefs(es[i + 1]);
        }
      }
    }
  }

  lemma {:induction false} AnyIsAll(es: seq<Logic<Path>>)
    requires es != []
    ensures ByAny(es) <= ByAll(es)
    decreases es
  {
    if |es| > 1 { AnyIsAll(es[1..]); }
  }

  /** What taking a route establishes is its parent itself, or something its parent refers to. */
  lemma ProducedByRefs(g: Native, rt: Route, key: string, x: string)
    requires IsRoute(g, rt, key) && x in Produces(g, rt)
    ensures x == rt.parent || (g[rt.parent].Switch? && x in NodeRefs(g[rt.parent]))
  {
    var node := g[rt.parent];
    if node.Switch? {
      var i :| 0 <= i < |Edges(node)| && Edges(node)[i] == Edge(key, rt.guards);
      if i < |node.cases| { GuardsAreRefs(node.cases[i].when); }
    }
  }

  // ---------------------------------------------------------------- trails to a split

  lemma RouteStaysInside(g: Native, rt: Route, key: string)
    requires FlatSplits(g) && IsRoute(g, rt, key) && Inside(g, rt.parent)
    ensures Inside(g, key)
  {
    var b :| BranchEntry(g, b) && InBranch(g, b, rt.parent);
    SuccessorIsEdge(g[rt.parent], key);
    ChainOn(g, b, rt.parent, key);
  }

  /** Nothing established on a trail that ends outside every branch is a branch node. */
  lemma {:induction false} OutsideTrail(g: Native, entry: string, t: seq<Route>, key: string, x: string)
    requires FlatSplits(g) && Visible(g) && Trail(g, entry, t, key) && key in g && !Inside(g, key)
    requires x in Established(g, t) && x in g
    ensures !Inside(g, x)
    decreases t
  {
    var last := t[|t| - 1];
    if Inside(g, last.parent) {
      RouteStaysInside(g, last, key);
    } else if x in Produces(g, last) {
      ProducedByRefs(g, last, key, x);
    } else {
      OutsideTrail(g, entry, t[..|t| - 1], last.parent, x);
    }
  }

  // ---------------------------------------------------------------- runs

  /** Along the walk, and in every branch it runs, each task finds the results its body refers
      to among those of its own execution. */
  ghost predicate FindsAll(g: Native, w: World, limit: nat, current: string, f: Frame, r: Run, n: nat)
    decreases Left(limit, n), 0
  {
    if current == END || n + 1 > limit || current !in g then true
    else
      var ctx := Context(w, f.nodes);
      match g[current]
      case Task(action, next, undo) =>
        && BodyRefs(g[current]) <= f.nodes.Keys
        && (match Perform(w, action, ctx, r)
            case Crashed(_) => true
            case Body(body, r') =>
              HasError(body) || FindsAll(g, w, limit, next, Completed(f, current, body, undo), r', n + 1))
      case Sleep(seconds, next) => FindsAll(g, w, limit, next, f, r.(clock := r.clock + seconds), n + 1)
      case Switch(cases, default) =>
        (match Choose(w, cases, default, ctx)
         case None => true
         case Some(target) => FindsAll(g, w, limit, target, f, r, n + 1))
      case Split(branches, join) =>
        && BranchesFindAll(g, w, limit, branches, r.clock, r, n + 1)
        && (match WalkBranches(g, w, limit, branches, r.clock, r, n + 1)
            case BranchFailed(_, _, _) => true
            case AllDone(results, clocks, r', n') =>
              clocks == [] || join !in g || !g[join].Join? ||
              FindsAll(g, w, limit, g[join].next,
                Frame(f.nodes[join := Response(JoinBody(branches, results))], JoinBody(branches, results), f.undo),
                r'.(clock := Latest(clocks)), n'))
      case Join(_) => true
  }

  ghost predicate BranchesFindAll(g: Native, w: World, limit: nat, branches: seq<string>, start: real, r: Run, n: nat)
    decreases Left(limit, n), |branches| + 1
  {
    branches == [] ||
    (&& FindsAll(g, w, limit, branches[0], FRESH, r.(clock := start), n)
     && (match Walk(g, w, limit, branches[0], FRESH, r.(clock := start), n)
         case Failed(_, _, _) => true
         case Done(_, r', n') => BranchesFindAll(g, w, limit, branches[1..], start, r', n')))
  }

  /** Every body reference of a reachable task is established on every trail to it. */
  ghost predicate Initialising(g: Native, entry: string)
  {
    forall key, x | Reachable(g, entry, key) && x in BodyRefs(g[key]) :: OnEveryTrail(g, entry, key, x)
  }

  /** Where a walk stands: the trail it took, and everything established on it that its own
      execution can see. Branch executions see nothing of their parents. */
  ghost predicate Stands(g: Native, entry: string, inside: bool, t: seq<Route>, current: string,
      nodes: map<string, Json>)
  {
    && current in g && Trail(g, entry, t, current) && nodes.Keys <= g.Keys && Established(g, t) <= g.Keys
    && (forall x | x in Established(g, t) && (inside ==> Inside(g, x)) :: x in nodes)
    && (inside ==> Inside(g, current))
  }

  lemma StandsOn(g: Native, entry: string, inside: bool, t: seq<Route>, current: string, nodes: map<string, Json>,
                 rt: Route, next: string, nodes': map<string, Json>)
    requires FlatSplits(g) && Stands(g, entry, inside, t, current, nodes) && IsRoute(g, rt, next)
      && rt.parent == current
    requires nodes.Keys + Produces(g, rt) <= nodes'.Keys <= g.Keys
    ensures Stands(g, entry, inside, t + [rt], next, nodes')
  {
    hide Inside;
    TrailSnoc(g, entry, t, rt, next);
    if inside { RouteStaysInside(g, rt, next); }
  }

  lemma {:induction false} ChosenEdge(w: World, nodes: map<string, Json>, cases: seq<Case<Path>>, default: string,
      target: string)
    returns (guards: set<string>)
    requires Choose(w, cases, default, Context(w, nodes)) == Some(target)
    ensures guards <= nodes.Keys
    ensures Edge(target, guards) in Edges(Switch(cases, default))
    decreases cases
  {
    var es := Edges(Switch(cases, default));
    if cases == [] {
      guards := {};
      assert es[0] == Edge(default, {});
    } else {
      var v := Decide(w, cases[0].when, ReadFrom(Context(w, nodes))).value;
      if Truthy(v) {
        GuardHolds(w, nodes, cases[0].when, v);
        guards := Guaranteed(cases[0].when);
        assert es[0] == Edge(target, guards);
      } else {
        guards := ChosenEdge(w, nodes, cases[1..], default, target);
        EdgesCons(cases, default, Edge(target, guards));
      }
    }
  }

  lemma EdgesCons(cases: seq<Case<Path>>, default: string, e: Edge)
    requires cases != [] && e in Edges(Switch(cases[1..], default))
    ensures e in Edges(Switch(cases, default))
  {
    var small, large := Edges(Switch(cases[1..], default)), Edges(Switch(cases, default));
    var i :| 0 <= i < |small| && small[i] == e;
    assert large[i + 1] == small[i];
  }

  lemma NextIsRoute(g: Native, current: string, next: string)
    requires ProperNames(g) && current in g && next in g
    requires (g[current].Task? || g[current].Sleep? || g[current].Join?) && g[current].next == next
    ensures IsRoute(g, Route(current, {}), next) && Produces(g, Route(current, {})) == Own(g, current)
  {
    assert Successors(g[current])[0] == next;
    assert Edges(g[current])[0] == Edge(next, {});
  }

  lemma SplitIsRoute(g: Native, current: string, next: string)
    requires ProperNames(g) && current in g && next in g && g[current].Split?
    requires next in g[current].branches || next == g[current].join
    ensures IsRoute(g, Route(current, {}), next) && Produces(g, Route(current, {})) == {}
  {
    assert next in g[current].branches + [g[current].join];
    SuccessorIsEdge(g[current], next);
    var guards :| Edge(next, guards) in Edges(g[current]);
    var i :| 0 <= i < |Edges(g[current])| && Edges(g[current])[i] == Edge(next, guards);
  }

  lemma FindsHere(g: Native, entry: string, inside: bool, t: seq<Route>, current: string, nodes: map<string, Json>)
    requires Visible(g) && Initialising(g, entry) && Stands(g, entry, inside, t, current, nodes)
    ensures BodyRefs(g[current]) <= nodes.Keys
  {
    hide Inside, OnEveryTrail, TmplRefs;
    assert Reachable(g, entry, current);
    forall x | x in BodyRefs(g[current]) ensures x in nodes {
      assert x in Established(g, t) by { EstablishedHere(g, entry, t, current, x); }
      assert x in NodeRefs(g[current]);
      if inside {
        assert exists b :: BranchEntry(g, b) && InBranch(g, b, current) && InBranch(g, b, x);
        assert Inside(g, x) by { SameBranchInside(g, current, x); }
      }
    }
  }

  lemma SameBranchInside(g: Native, key: string, x: string)
    requires exists b :: BranchEntry(g, b) && InBranch(g, b, key) && InBranch(g, b, x)
    ensures Inside(g, x)
  {
  }

  lemma EstablishedHere(g: Native, entry: string, t: seq<Route>, key: string, x: string)
    requires OnEveryTrail(g, entry, key, x) && Trail(g, entry, t, key)
    ensures x in Established(g, t)
  {
  }

  /** A branch starts with nothing, and nothing it may refer to is established yet. */
  lemma BranchStands(g: Native, entry: string, t: seq<Route>, current: string, nodes: map<string, Json>, b: string)
    requires ProperNames(g) && FlatSplits(g) && Visible(g) && Stands(g, entry, false, t, current, nodes)
    requires g[current].Split? && b in g[current].branches && b in g
    ensures Stands(g, entry, true, t + [Route(current, {})], b, map[])
  {
    SplitIsRoute(g, current, b);
    TrailSnoc(g, entry, t, Route(current, {}), b);
    forall x | x in Established(g, t) && Inside(g, x) ensures false {
      OutsideTrail(g, entry, t, current, x);
    }
    assert BranchEntry(g, b);
    var none: seq<string> := [];
    assert Chain(g, b, none, b);
  }

  /** Accepted graphs: split and join rules, and no uninitialised reference on any route. */
  ghost predicate Accepted(g: Native, entry: string)
  {
    ProperNames(g) && FlatSplits(g) && Visible(g) && Initialising(g, entry)
  }

  /** On every run of an accepted graph, whatever the capabilities answer and the switches
      decide, every task finds what its body refers to. */
  lemma {:induction false} AcceptedFindsAll(g: Native, entry: string, w: World, limit: nat, inside: bool, t: seq<Route>,
      current: string,
                                            f: Frame, r: Run, n: nat)
    requires Accepted(g, entry) && (current in g ==> Stands(g, entry, inside, t, current, f.nodes))
    ensures FindsAll(g, w, limit, current, f, r, n)
    decreases Left(limit, n), 0
  {
    hide Stands, Accepted, Perform, Unwind;
    if current != END && n + 1 <= limit && current in g {
      match g[current]
      case Task(action, next, undo) =>
        TaskFinds(g, entry, inside, t, current, f.nodes);
        var done := Perform(w, action, Context(w, f.nodes), r);
        if done.Body? && !HasError(done.body) {
          TaskStands(g, entry, inside, t, current, f.nodes, Completed(f, current, done.body, undo).nodes);
          AcceptedFindsAll(g, entry, w, limit, inside, t + [Route(current, {})], next,
            Completed(f, current, done.body, undo), done.run, n + 1);
        }
      case Sleep(seconds, next) =>
        SleepStands(g, entry, inside, t, current, f.nodes);
        AcceptedFindsAll(g, entry, w, limit, inside, t + [Route(current, {})], next, f, r.(clock := r.clock + seconds),
          n + 1);
      case Switch(cases, default) =>
        if Choose(w, cases, default, Context(w, f.nodes)).Some? {
          var target := Choose(w, cases, default, Context(w, f.nodes)).value;
          var rt := SwitchStands(g, entry, w, inside, t, current, f.nodes, target);
          AcceptedFindsAll(g, entry, w, limit, inside, t + [rt], target, f, r, n + 1);
        }
      case Split(branches, join) =>
        assert !inside by { SplitIsOutside(g, entry, inside, t, current, f.nodes); }
        AcceptedBranches(g, entry, w, limit, t, current, f.nodes, branches, r.clock, r, n + 1);
        var done := WalkBranches(g, w, limit, branches, r.clock, r, n + 1);
        if done.AllDone? && done.clocks != [] && join in g && g[join].Join? {
          var body := JoinBody(branches, done.results);
          var nodes' := f.nodes[join := Response(body)];
          JoinStands(g, entry, t, current, f.nodes, nodes', join);
          AcceptedFindsAll(g, entry, w, limit, inside, t + [Route(current, {})] + [Route(join, {})], g[join].next,
                           Frame(nodes', body, f.undo), done.run.(clock := Latest(done.clocks)), done.steps);
        }
      case Join(_) =>
    }
  }

  lemma SplitIsOutside(g: Native, entry: string, inside: bool, t: seq<Route>, current: string, nodes: map<string, Json>)
    requires Accepted(g, entry) && Stands(g, entry, inside, t, current, nodes) && g[current].Split?
    ensures !inside
  {
  }

  lemma TaskFinds(g: Native, entry: string, inside: bool, t: seq<Route>, current: string, nodes: map<string, Json>)
    requires Accepted(g, entry) && Stands(g, entry, inside, t, current, nodes) && g[current].Task?
    ensures BodyRefs(g[current]) <= nodes.Keys
  {
    FindsHere(g, entry, inside, t, current, nodes);
  }

  lemma TaskStands(g: Native, entry: string, inside: bool, t: seq<Route>, current: string, nodes: map<string, Json>,
      nodes': map<string, Json>)
    requires Accepted(g, entry) && Stands(g, entry, inside, t, current, nodes) && g[current].Task?
    requires nodes'.Keys == nodes.Keys + {current}
    ensures g[current].next in g ==> Stands(g, entry, inside, t + [Route(current, {})], g[current].next, nodes')
  {
    if g[current].next in g {
      NextIsRoute(g, current, g[current].next);
      StandsOn(g, entry, inside, t, current, nodes, Route(current, {}), g[current].next, nodes');
    }
  }

  lemma SleepStands(g: Native, entry: string, inside: bool, t: seq<Route>, current: string, nodes: map<string, Json>)
    requires Accepted(g, entry) && Stands(g, entry, inside, t, current, nodes) && g[current].Sleep?
    ensures g[current].next in g ==> Stands(g, entry, inside, t + [Route(current, {})], g[current].next, nodes)
  {
    if g[current].next in g {
      NextIsRoute(g, current, g[current].next);
      StandsOn(g, entry, inside, t, current, nodes, Route(current, {}), g[current].next, nodes);
    }
  }

  lemma SwitchStands(g: Native, entry: string, w: World, inside: bool, t: seq<Route>, current: string,
      nodes: map<string, Json>, target: string)
    returns (rt: Route)
    requires Accepted(g, entry) && Stands(g, entry, inside, t, current, nodes) && g[current].Switch?
    requires Choose(w, g[current].cases, g[current].default, Context(w, nodes)) == Some(target)
    ensures target in g ==> Stands(g, entry, inside, t + [rt], target, nodes)
  {
    var guards := ChosenEdge(w, nodes, g[current].cases, g[current].default, target);
    rt := Route(current, guards);
    if target in g { StandsOn(g, entry, inside, t, current, nodes, rt, target, nodes); }
  }

  lemma JoinStands(g: Native, entry: string, t: seq<Route>, current: string, nodes: map<string, Json>,
      nodes': map<string, Json>, join: string)
    requires Accepted(g, entry) && Stands(g, entry, false, t, current, nodes) && g[current].Split?
      && join == g[current].join
    requires join in g && g[join].Join? && nodes'.Keys == nodes.Keys + {join}
    ensures g[join].next in g ==>
      Stands(g, entry, false, t + [Route(current, {})] + [Route(join, {})], g[join].next, nodes')
  {
    SplitIsRoute(g, current, join);
    StandsOn(g, entry, false, t, current, nodes, Route(current, {}), join, nodes);
    if g[join].next in g {
      NextIsRoute(g, join, g[join].next);
      StandsOn(g, entry, false, t + [Route(current, {})], join, nodes, Route(join, {}), g[join].next, nodes');
    }
  }

  lemma {:induction false} AcceptedBranches(g: Native, entry: string, w: World, limit: nat, t: seq<Route>,
      current: string, nodes: map<string, Json>,
                                            branches: seq<string>, start: real, r: Run, n: nat)
    requires Accepted(g, entry) && Stands(g, entry, false, t, current, nodes) && g[current].Split?
    requires forall b | b in branches :: b in g[current].branches
    ensures BranchesFindAll(g, w, limit, branches, start, r, n)
    decreases Left(limit, n), |branches| + 1
  {
    hide Stands, Accepted, Walk;
    if branches != [] {
      if branches[0] in g { BranchBegins(g, entry, t, current, nodes, branches[0]); }
      AcceptedFindsAll(g, entry, w, limit, true, t + [Route(current, {})], branches[0], FRESH, r.(clock := start), n);
      match Walk(g, w, limit, branches[0], FRESH, r.(clock := start), n)
      case Failed(_, _, _) =>
      case Done(_, r', n') => AcceptedBranches(g, entry, w, limit, t, current, nodes, branches[1..], start, r', n');
    }
  }

  lemma BranchBegins(g: Native, entry: string, t: seq<Route>, current: string, nodes: map<string, Json>, b: string)
    requires Accepted(g, entry) && Stands(g, entry, false, t, current, nodes)
    requires g[current].Split? && b in g[current].branches && b in g
    ensures Stands(g, entry, true, t + [Route(current, {})], b, FRESH.nodes)
  {
    BranchStands(g, entry, t, current, nodes, b);
  }

  /** From the entrypoint. */
  lemma EveryRunFindsAll(g: Native, entry: string, w: World, limit: nat, r: Run)
    requires Accepted(g, entry)
    ensures FindsAll(g, w, limit, entry, FRESH, r, 0)
  {
    var none: seq<Route> := [];
    assert Trail(g, entry, none, entry);
    AcceptedFindsAll(g, entry, w, limit, false, none, entry, FRESH, r, 0);
  }

  /** A graph without splits needs no split rules: the check alone is enough, cycles or not. */
  lemma SplitFreeIsAccepted(g: Native, entry: string)
    requires ProperNames(g) && Initialising(g, entry) && forall key | key in g :: !g[key].Split?
    ensures Accepted(g, entry)
  {
  }

  /** The check accepts exactly what the theorem needs, up to references from a task to itself and
      to nodes that cannot be reached. */
  method Check(g: Native, entry: string) returns (ok: bool)
    requires ProperNames(g) && entry in g
    ensures ok ==> Initialising(g, entry)
    ensures (forall key, x | Reachable(g, entry, key) && x in BodyRefs(g[key]) :: x != key && Reachable(g, entry, x))
      ==> (ok <==> Initialising(g, entry))
  {
    hide OnEveryTrail, Leads, BodyRefs;
    var errors := UninitializedReferences(g, entry);
    ok := errors == {};
    if !ok {
      var e :| e in errors;
      assert (e.0, e.1) in errors;
    }
  }
}
