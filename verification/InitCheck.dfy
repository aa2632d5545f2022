/** The check that every node output a task body refers to exists on every route to the task. */
module InitCheck {
  import opened Json
  import opened Plan
  import opened Graph
  import opened Sets
  import opened Worklists

  // ---------------------------------------------------------------- references and guards

  function PathNode(p: Path): set<string>
  {
    if |p| >= 2 && p[0] == "nodes" then {p[1]} else {}
  }

  /** Nodes a template refers to; literal data refers to nothing. */
  function TmplRefs(t: Tmpl): set<string>
  {
    match t
    case TWords(pieces) => set i, x | 0 <= i < |pieces| && pieces[i].Hole? && x in PathNode(pieces[i].path) :: x
    case TList(items) => set i, x | 0 <= i < |items| && x in TmplRefs(items[i]) :: x
    case TDict(entries) => set k, x | k in entries && x in TmplRefs(entries[k]) :: x
    case _ => {}
  }

  function BodyRefs(node: NativeNode): set<string>
  {
    match node
    case Task(Capability(_, input), _, _) => TmplRefs(input)
    case Task(Replan(_, carry), _, _) => TmplRefs(carry)
    case _ => {}
  }

  function Variable(e: Logic<Path>): set<string>
  {
    if e.Var? then PathNode(e.v) else {}
  }

  /** Nodes whose output must exist for the condition to be truthy. */
  function Guaranteed(e: Logic<Path>): set<string>
    decreases e, 0
  {
    match e
    case Var(p) => PathNode(p)
    case Operator(op, args) =>
      if op == "!!" && args != [] then Guaranteed(args[0])
      else if op == "and" && args != [] then ByAll(args)
      else if op == "or" && args != [] then ByAny(args)
      else if (op == "!=" || op == "!==") && |args| == 2 then
        if args[0] == Const(Null) then Variable(args[1])
        else if args[1] == Const(Null) then Variable(args[0])
        else {}
      else {}
    case _ => {}
  }

  function ByAll(es: seq<Logic<Path>>): set<string>
    decreases es, 1
  {
    if es == [] then {} else Guaranteed(es[0]) + ByAll(es[1..])
  }

  function ByAny(es: seq<Logic<Path>>): set<string>
    requires es != []
    decreases es, 1
  {
    if |es| == 1 then Guaranteed(es[0]) else Guaranteed(es[0]) * ByAny(es[1..])
  }

  /** A lookup below a node that has not run is null. */
  lemma PresentNode(w: World, nodes: map<string, Json>, p: Path)
    requires Lookup(Context(w, nodes), p) != Null
    ensures PathNode(p) <= nodes.Keys
  {
    if |p| >= 2 && p[0] == "nodes" {
      var ctx := Context(w, nodes);
      assert Lookup(ctx, p) == Lookup(Step(ctx, p[0]), p[1..]);
      assert Step(ctx, p[0]) == Obj(nodes);
      assert Lookup(Obj(nodes), p[1..]) == Lookup(Step(Obj(nodes), p[1]), p[1..][1..]);
      if p[1] !in nodes { LookupNull(p[1..][1..]); }
    }
  }

  /** What a guard guarantees is there whenever it is truthy. */
  lemma {:induction false} GuardHolds(w: World, nodes: map<string, Json>, e: Logic<Path>, v: Json)
    requires Decide(w, e, ReadFrom(Context(w, nodes))) == Some(v) && Truthy(v)
    ensures Guaranteed(e) <= nodes.Keys
    decreases e, 0
  {
    match e
    case Var(p) => PresentNode(w, nodes, p);
    case Operator(op, args) =>
      var vs := DecideAll(w, args, ReadFrom(Context(w, nodes))).value;
      if op == "and" && args != [] {
        AllHold(w, nodes, args, vs);
      } else if op == "or" && args != [] {
        AnyHolds(w, nodes, args, vs);
      } else if op == "!=" && |args| == 2 {
        Pair(w, nodes, args, vs);
        if args[0] == Const(Null) && args[1].Var? { PresentNode(w, nodes, args[1].v); }
        if args[1] == Const(Null) && args[0].Var? { PresentNode(w, nodes, args[0].v); }
      }
    case _ =>
  }

  lemma Pair(w: World, nodes: map<string, Json>, args: seq<Logic<Path>>, vs: seq<Json>)
    requires |args| == 2 && DecideAll(w, args, ReadFrom(Context(w, nodes))) == Some(vs)
    ensures Decide(w, args[0], ReadFrom(Context(w, nodes))) == Some(vs[0])
    ensures Decide(w, args[1], ReadFrom(Context(w, nodes))) == Some(vs[1])
  {
    var read := ReadFrom(Context(w, nodes));
    assert args[1..][1..] == [] && args[1..][0] == args[1];
    var rest := DecideAll(w, args[1..], read).value;
    assert vs[1..] == rest;
  }

  lemma {:induction false} AllHold(w: World, nodes: map<string, Json>, es: seq<Logic<Path>>, vs: seq<Json>)
    requires DecideAll(w, es, ReadFrom(Context(w, nodes))) == Some(vs) && forall v | v in vs :: Truthy(v)
    ensures ByAll(es) <= nodes.Keys
    decreases es, 1
  {
    if es != [] {
      var rest := DecideAll(w, es[1..], ReadFrom(Context(w, nodes))).value;
      assert vs == [vs[0]] + rest;
      GuardHolds(w, nodes, es[0], vs[0]);
      AllHold(w, nodes, es[1..], rest);
    }
  }

  lemma {:induction false} AnyHolds(w: World, nodes: map<string, Json>, es: seq<Logic<Path>>, vs: seq<Json>)
    requires es != [] && DecideAll(w, es, ReadFrom(Context(w, nodes))) == Some(vs) && exists v | v in vs :: Truthy(v)
    ensures ByAny(es) <= nodes.Keys
    decreases es, 1
  {
    var rest := DecideAll(w, es[1..], ReadFrom(Context(w, nodes))).value;
    assert vs == [vs[0]] + rest;
    if Truthy(vs[0]) {
      GuardHolds(w, nodes, es[0], vs[0]);
    } else {
      assert exists v | v in rest :: Truthy(v);
      AnyHolds(w, nodes, es[1..], rest);
    }
  }

  // ---------------------------------------------------------------- edges and routes

  /** An edge of the graph and the nodes its guard guarantees. */
  datatype Edge = Edge(target: string, guards: set<string>)

  function Edges(node: NativeNode): seq<Edge>
  {
    if node.Switch? then
      seq(|node.cases|, i requires 0 <= i < |node.cases| => Edge(node.cases[i].target, Guaranteed(node.cases[i].when)))
        + [Edge(node.default, {})]
    else
      var ts := Successors(node);
      seq(|ts|, i requires 0 <= i < |ts| => Edge(ts[i], {}))
  }

  /** What executing a node adds to its execution's results. */
  function Own(g: Native, key: string): set<string>
  {
    if key in g && (g[key].Task? || g[key].Join?) then {key} else {}
  }

  /** One way into a node: where from, and under which guard. */
  datatype Route = Route(parent: string, guards: set<string>)

  predicate IsRoute(g: Native, rt: Route, key: string)
  {
    rt.parent in g && key in g && key != END && key != "" && Edge(key, rt.guards) in Edges(g[rt.parent])
  }

  /** A route taken, as a step of a trail. */
  function Produces(g: Native, rt: Route): set<string> { rt.guards + Own(g, rt.parent) }

  /** A way through the graph, as the routes taken from the entrypoint to the key. */
  predicate Trail(g: Native, entry: string, t: seq<Route>, key: string)
  {
    if t == [] then key == entry
    else
      var last := t[|t| - 1];
      IsRoute(g, last, key) && Trail(g, entry, t[..|t| - 1], last.parent)
  }

  function Established(g: Native, t: seq<Route>): set<string>
  {
    if t == [] then {} else Established(g, t[..|t| - 1]) + Produces(g, t[|t| - 1])
  }

  ghost predicate Leads(g: Native, entry: string, key: string)
  {
    exists t :: Trail(g, entry, t, key)
  }

  ghost predicate Reachable(g: Native, entry: string, key: string)
  {
    key in g && Leads(g, entry, key)
  }

  lemma EntryLeads(g: Native, entry: string)
    ensures Leads(g, entry, entry)
  {
    var start: seq<Route> := [];
    assert Trail(g, entry, start, entry);
  }

  /** Every way to the key passes the node, or an edge whose guard guarantees it. */
  ghost predicate OnEveryTrail(g: Native, entry: string, key: string, n: string)
  {
    forall t | Trail(g, entry, t, key) :: n in Established(g, t)
  }

  lemma TrailSnoc(g: Native, entry: string, t: seq<Route>, rt: Route, key: string)
    requires Trail(g, entry, t, rt.parent) && IsRoute(g, rt, key)
    ensures Trail(g, entry, t + [rt], key)
    ensures Established(g, t + [rt]) == Established(g, t) + Produces(g, rt)
  {
    assert (t + [rt])[..|t|] == t;
  }

  lemma SuccessorIsEdge(node: NativeNode, x: string)
    ensures x in Successors(node) <==> x != END && x != "" && exists guards :: Edge(x, guards) in Edges(node)
  {
    var es := Edges(node);
    if node.Switch? {
      var n := |node.cases|;
      var targets := Targets(node.cases) + [node.default];
      assert forall i | 0 <= i < n :: es[i] == Edge(targets[i], Guaranteed(node.cases[i].when));
      assert es[n] == Edge(targets[n], {});
      if x in Successors(node) {
        var i :| 0 <= i < |targets| && targets[i] == x;
        assert Edge(x, es[i].guards) in es;
      }
    } else {
      var ts := Successors(node);
      assert |es| == |ts| && forall i | 0 <= i < |ts| :: es[i] == Edge(ts[i], {});
      if x in ts {
        var i :| 0 <= i < |ts| && ts[i] == x;
        assert es[i] == Edge(x, {});
      }
    }
  }

  // ---------------------------------------------------------------- reachability

  lemma {:induction false} ClosedCovers(g: Native, entry: string, reached: set<string>, t: seq<Route>, key: string)
    requires entry in reached && reached <= g.Keys && key in g && Trail(g, entry, t, key)
    requires forall k, x | k in reached && x in Successors(g[k]) && x in g :: x in reached
    ensures key in reached
    decreases t
  {
    if t != [] {
      var last := t[|t| - 1];
      ClosedCovers(g, entry, reached, t[..|t| - 1], last.parent);
      SuccessorIsEdge(g[last.parent], key);
    }
  }

  lemma Onward(g: Native, entry: string, key: string, x: string)
    requires Reachable(g, entry, key) && x in g && x in Successors(g[key])
    ensures Leads(g, entry, x)
  {
    SuccessorIsEdge(g[key], x);
    var t: seq<Route> :| Trail(g, entry, t, key);
    var guards :| Edge(x, guards) in Edges(g[key]);
    TrailSnoc(g, entry, t, Route(key, guards), x);
  }

  function Ways(g: Native): string -> seq<string>
  {
    key => if key in g then Successors(g[key]) else []
  }

  ghost predicate AllLead(g: Native, entry: string, reached: set<string>, stack: seq<string>)
  {
    && (forall key | key in reached :: Leads(g, entry, key))
    && (forall key | key in stack && key in g :: Leads(g, entry, key))
  }

  lemma AllLeadOn(g: Native, entry: string, reached: set<string>, rest: seq<string>, key: string)
    requires AllLead(g, entry, reached, rest + [key]) && key in g
    ensures AllLead(g, entry, reached + {key}, rest + Successors(g[key]))
  {
    hide Leads, Successors;
    assert key in rest + [key];
    forall x | x in Successors(g[key]) && x in g { Onward(g, entry, key, x); }
    forall x | x in rest ensures x in rest + [key] {
    }
  }

  lemma ClosedIsAll(g: Native, entry: string, reached: set<string>, key: string)
    requires entry in reached && Visited(g.Keys, Ways(g), reached, []) && Reachable(g, entry, key)
    ensures key in reached
  {
    hide Trail, Successors, IsRoute;
    var t: seq<Route> :| Trail(g, entry, t, key);
    forall k, x | k in reached && x in Successors(g[k]) && x in g ensures x in reached {
      VisitEnds(g.Keys, Ways(g), reached, k, x);
    }
    ClosedCovers(g, entry, reached, t, key);
  }

  method Reached(g: Native, entry: string) returns (reached: set<string>)
    requires entry in g
    ensures forall key :: key in reached <==> Reachable(g, entry, key)
  {
    hide Leads, Successors, Visited;
    reached := {};
    var stack := [entry];
    EntryLeads(g, entry);
    VisitStarts(g.Keys, Ways(g), entry);
    while stack != []
      invariant reached <= g.Keys && (entry in reached || entry in stack)
      invariant AllLead(g, entry, reached, stack) && Visited(g.Keys, Ways(g), reached, stack)
      decreases |g.Keys - reached|, |stack|
    {
      var current, rest := stack[|stack| - 1], stack[..|stack| - 1];
      assert stack == rest + [current];
      if current in reached || current !in g {
        VisitSkips(g.Keys, Ways(g), reached, rest, current);
        stack := rest;
      } else {
        assert g.Keys - (reached + {current}) < g.Keys - reached by { assert current in g.Keys - reached; }
        Smaller(g.Keys - reached, g.Keys - (reached + {current}));
        VisitAdds(g.Keys, Ways(g), reached, rest, current);
        AllLeadOn(g, entry, reached, rest, current);
        reached := reached + {current};
        stack := rest + Successors(g[current]);
      }
    }
    forall key | Reachable(g, entry, key) ensures key in reached { ClosedIsAll(g, entry, reached, key); }
  }

  // ---------------------------------------------------------------- the dataflow equations

  type Facts = map<string, set<string>>

  ghost predicate KnownRoutes(g: Native, reached: set<string>, incoming: map<string, seq<Route>>)
  {
    && incoming.Keys == reached <= g.Keys
    && forall key, rt | key in reached :: rt in incoming[key] <==> rt.parent in reached && IsRoute(g, rt, key)
  }

  /** What is there after taking a route. */
  function Through(g: Native, available: Facts, rt: Route): set<string>
    requires rt.parent in available
  {
    available[rt.parent] + rt.guards + Own(g, rt.parent)
  }

  /** What is there after every one of the routes. */
  function Meet(g: Native, available: Facts, routes: seq<Route>): (r: set<string>)
    requires forall rt | rt in routes :: rt.parent in available
    ensures forall n :: n in r <==> routes != [] && forall rt | rt in routes :: n in Through(g, available, rt)
  {
    if routes == [] then {}
    else if |routes| == 1 then Through(g, available, routes[0])
    else Through(g, available, routes[0]) * Meet(g, available, routes[1..])
  }

  predicate Total(incoming: map<string, seq<Route>>, available: Facts)
  {
    available.Keys == incoming.Keys && forall key, rt | key in incoming && rt in incoming[key] :: rt.parent in available
  }

  /** The equations hold at a node other than the entrypoint. */
  predicate Settled(g: Native, incoming: map<string, seq<Route>>, available: Facts, key: string)
    requires Total(incoming, available) && key in available
  {
    available[key] == Meet(g, available, incoming[key])
  }

  ghost predicate Solves(g: Native, entry: string, incoming: map<string, seq<Route>>, available: Facts)
    requires Total(incoming, available)
  {
    && entry in available && available[entry] == {}
    && forall key | key in available && key != entry :: Settled(g, incoming, available, key)
  }

  /** Whatever solves the equations is established on every trail. */
  lemma {:induction false} SolutionIsSound(g: Native, entry: string, incoming: map<string, seq<Route>>,
      available: Facts, t: seq<Route>, key: string)
    requires KnownRoutes(g, available.Keys, incoming) && Total(incoming, available)
      && Solves(g, entry, incoming, available)
    requires forall k :: k in available <==> Reachable(g, entry, k)
    requires Trail(g, entry, t, key) && key in available
    ensures available[key] <= Established(g, t)
    decreases t
  {
    if key == entry {
    } else {
      var last := t[|t| - 1];
      assert Reachable(g, entry, last.parent);
      SolutionIsSound(g, entry, incoming, available, t[..|t| - 1], last.parent);
      assert last in incoming[key];
      assert Settled(g, incoming, available, key);
    }
  }

  /** Nothing reachable that is on every trail has been dropped. */
  ghost predicate Generous(g: Native, entry: string, available: Facts)
  {
    forall key, n | key in available && n in available.Keys && OnEveryTrail(g, entry, key, n) :: n in available[key]
  }

  lemma OnEveryTrailBefore(g: Native, entry: string, rt: Route, key: string, n: string)
    requires IsRoute(g, rt, key) && OnEveryTrail(g, entry, key, n) && n !in Produces(g, rt)
    ensures OnEveryTrail(g, entry, rt.parent, n)
  {
    forall t | Trail(g, entry, t, rt.parent) ensures n in Established(g, t) {
      TrailSnoc(g, entry, t, rt, key);
    }
  }

  lemma SomeRoute(g: Native, entry: string, key: string) returns (rt: Route)
    requires Reachable(g, entry, key) && key != entry
    ensures IsRoute(g, rt, key) && Reachable(g, entry, rt.parent)
  {
    var t: seq<Route> :| Trail(g, entry, t, key);
    rt := t[|t| - 1];
    assert Trail(g, entry, t[..|t| - 1], rt.parent);
  }

  lemma MeetIsGenerous(g: Native, entry: string, incoming: map<string, seq<Route>>, available: Facts, key: string,
      n: string)
    requires KnownRoutes(g, available.Keys, incoming) && Total(incoming, available) && Generous(g, entry, available)
    requires forall k :: k in available <==> Reachable(g, entry, k)
    requires key in available && key != entry && n in available && OnEveryTrail(g, entry, key, n)
    ensures n in Meet(g, available, incoming[key])
  {
    hide Trail, Established, OnEveryTrail, IsRoute, Reachable;
    forall rt | rt in incoming[key] ensures n in Through(g, available, rt) {
      if n !in Produces(g, rt) {
        OnEveryTrailBefore(g, entry, rt, key, n);
      }
    }
    var rt := SomeRoute(g, entry, key);
    assert rt in incoming[key];
  }

  // ---------------------------------------------------------------- direction of change

  /** Reachable names only leave, all others only enter. */
  predicate Onwards(reached: set<string>, before: set<string>, after: set<string>)
  {
    after * reached <= before && before - reached <= after
  }

  /** Recomputing a node would not turn back. */
  predicate Ahead(g: Native, incoming: map<string, seq<Route>>, available: Facts, key: string)
    requires Total(incoming, available) && key in available
  {
    Onwards(available.Keys, available[key], Meet(g, available, incoming[key]))
  }

  lemma MeetMoves(g: Native, incoming: map<string, seq<Route>>, before: Facts, after: Facts, key: string)
    requires Total(incoming, before) && Total(incoming, after) && key in before
    requires forall k | k in before :: Onwards(before.Keys, before[k], after[k])
    ensures Onwards(before.Keys, Meet(g, before, incoming[key]), Meet(g, after, incoming[key]))
  {
    var reached := before.Keys;
    forall n | n in Meet(g, after, incoming[key]) && n in reached ensures n in Meet(g, before, incoming[key]) {
      forall rt | rt in incoming[key] ensures n in Through(g, before, rt) {
        assert n in Through(g, after, rt);
        assert Onwards(reached, before[rt.parent], after[rt.parent]);
      }
    }
    forall n | n in Meet(g, before, incoming[key]) && n !in reached ensures n in Meet(g, after, incoming[key]) {
      forall rt | rt in incoming[key] ensures n in Through(g, after, rt) {
        assert n in Through(g, before, rt);
        assert Onwards(reached, before[rt.parent], after[rt.parent]);
      }
    }
  }

  lemma UpdateStaysAhead(g: Native, incoming: map<string, seq<Route>>, before: Facts, key: string, k: string)
    requires Total(incoming, before) && key in before && k in before
    requires Ahead(g, incoming, before, key) && Ahead(g, incoming, before, k)
    ensures var after := before[key := Meet(g, before, incoming[key])];
      Total(incoming, after) && Ahead(g, incoming, after, k)
  {
    var after := before[key := Meet(g, before, incoming[key])];
    MeetMoves(g, incoming, before, after, k);
  }

  // ---------------------------------------------------------------- termination

  /** Every name that can occur in the facts. */
  ghost function Universe(incoming: map<string, seq<Route>>): set<string>
  {
    incoming.Keys + set key, i, n | key in incoming && 0 <= i < |incoming[key]| && n in incoming[key][i].guards :: n
  }

  /** The changes that are still possible: reachable names present, other names absent. */
  ghost function Pending(incoming: map<string, seq<Route>>, available: Facts): set<(string, string)>
  {
    set key, n | key in available && n in Universe(incoming) && (n in incoming <==> n in available[key]) :: (key, n)
  }

  predicate Bounded(incoming: map<string, seq<Route>>, available: Facts, universe: set<string>)
  {
    forall key | key in available :: available[key] <= universe
  }

  lemma MeetBounded(g: Native, incoming: map<string, seq<Route>>, available: Facts, key: string)
    requires Total(incoming, available) && key in available && Bounded(incoming, available, Universe(incoming))
    ensures Meet(g, available, incoming[key]) <= Universe(incoming)
  {
    forall n | n in Meet(g, available, incoming[key]) ensures n in Universe(incoming) {
      var i := 0;
      var rt := incoming[key][i];
      assert rt in incoming[key];
      assert n in Through(g, available, rt);
    }
  }

  lemma ChangeShrinksPending(g: Native, incoming: map<string, seq<Route>>, available: Facts, key: string)
    requires Total(incoming, available) && key in available && Bounded(incoming, available, Universe(incoming))
    requires Ahead(g, incoming, available, key) && !Settled(g, incoming, available, key)
    ensures Pending(incoming, available[key := Meet(g, available, incoming[key])]) < Pending(incoming, available)
  {
    var value := Meet(g, available, incoming[key]);
    var after := available[key := value];
    MeetBounded(g, incoming, available, key);
    assert Pending(incoming, after) <= Pending(incoming, available);
    var n :| n in Universe(incoming) && (n in value <==> n !in available[key]);
    assert (key, n) in Pending(incoming, available) && (key, n) !in Pending(incoming, after);
  }

  // ---------------------------------------------------------------- the fixpoint

  /** Adds one node's outgoing edges to the routes into their targets. */
  method AddRoutes(edges: seq<Edge>, parent: string, before: map<string, seq<Route>>)
    returns (incoming: map<string, seq<Route>>)
    ensures incoming.Keys == before.Keys
    ensures forall key, rt | key in incoming ::
      rt in incoming[key] <==> rt in before[key] || (rt.parent == parent && Edge(key, rt.guards) in edges)
  {
    incoming := before;
    var i := 0;
    while i < |edges|
      invariant 0 <= i <= |edges| && incoming.Keys == before.Keys
      invariant forall key, rt | key in incoming ::
        rt in incoming[key] <==> rt in before[key] || (rt.parent == parent && Edge(key, rt.guards) in edges[..i])
    {
      var edge := edges[i];
      assert edges[..i + 1] == edges[..i] + [edge];
      if edge.target in incoming {
        incoming := incoming[edge.target := incoming[edge.target] + [Route(parent, edge.guards)]];
      }
      i := i + 1;
    }
    assert edges[..i] == edges;
  }

  /** The routes into every reachable node. */
  method IncomingRoutes(g: Native, reached: set<string>) returns (incoming: map<string, seq<Route>>)
    requires reached <= g.Keys && END !in reached && "" !in reached
    ensures KnownRoutes(g, reached, incoming)
  {
    hide Edges;
    incoming := map key | key in reached :: [];
    var todo := reached;
    while todo != {}
      invariant todo <= reached && incoming.Keys == reached
      invariant forall key, rt | key in reached ::
        rt in incoming[key] <==> rt.parent in reached - todo && IsRoute(g, rt, key)
    {
      var parent :| parent in todo;
      incoming := AddRoutes(Edges(g[parent]), parent, incoming);
      todo := todo - {parent};
    }
  }

  /** What holds before and after every recomputation. */
  ghost predicate Underway(g: Native, entry: string, reached: set<string>, incoming: map<string, seq<Route>>,
      available: Facts)
  {
    && KnownRoutes(g, reached, incoming) && available.Keys == reached && Total(incoming, available)
    && entry in available && available[entry] == {}
    && Generous(g, entry, available) && Bounded(incoming, available, Universe(incoming))
    && forall key | key in available && key != entry :: Ahead(g, incoming, available, key)
  }

  ghost predicate SettledAt(g: Native, incoming: map<string, seq<Route>>, available: Facts, keys: set<string>)
    requires Total(incoming, available)
  {
    forall key | key in keys && key in available :: Settled(g, incoming, available, key)
  }

  /** Recomputes every node once, in any order. */
  method Sweep(g: Native, entry: string, reached: set<string>, incoming: map<string, seq<Route>>, before: Facts)
    returns (available: Facts, changed: bool)
    requires forall key :: key in reached <==> Reachable(g, entry, key)
    requires Underway(g, entry, reached, incoming, before)
    ensures Underway(g, entry, reached, incoming, available)
    ensures if changed then Pending(incoming, available) < Pending(incoming, before)
            else available == before && SettledAt(g, incoming, available, reached - {entry})
  {
    hide Generous, Bounded, Ahead, KnownRoutes, Meet, Pending, Reachable;
    available, changed := before, false;
    var todo := reached - {entry};
    while todo != {}
      invariant todo <= reached - {entry}
      invariant Underway(g, entry, reached, incoming, available)
      invariant if changed then Pending(incoming, available) < Pending(incoming, before) else available == before
      invariant !changed ==> SettledAt(g, incoming, available, reached - {entry} - todo)
    {
      var key :| key in todo;
      var value := Meet(g, available, incoming[key]);
      if value != available[key] {
        StepKeeps(g, entry, reached, incoming, available, key);
        available := available[key := value];
        changed := true;
      }
      todo := todo - {key};
    }
  }

  /** The nodes whose results exist on every route, computed by recomputing one node after the
      other, in any order, until nothing changes. */
  method Available(g: Native, entry: string, reached: set<string>) returns (available: Facts)
    requires entry in reached && ProperNames(g)
    requires forall key :: key in reached <==> Reachable(g, entry, key)
    ensures available.Keys == reached
    ensures forall key, n | key in reached && n in reached :: n in available[key] <==> OnEveryTrail(g, entry, key, n)
    ensures forall key, n | key in reached && n in available[key] :: OnEveryTrail(g, entry, key, n)
    ensures exists incoming ::
      KnownRoutes(g, reached, incoming) && Total(incoming, available) && Solves(g, entry, incoming, available)
  {
    hide OnEveryTrail, Ahead, Pending, Meet, IsRoute, Leads;
    var incoming := IncomingRoutes(g, reached);
    available := map key | key in reached :: if key == entry then {} else reached;
    StartsUnderway(g, entry, reached, incoming, available);
    var changed := true;
    while changed
      invariant Underway(g, entry, reached, incoming, available)
      invariant !changed ==> SettledAt(g, incoming, available, reached - {entry})
      decreases Pending(incoming, available), changed
    {
      available, changed := Sweep(g, entry, reached, incoming, available);
    }
    assert Solves(g, entry, incoming, available);
    forall key, n | key in reached && n in available[key] ensures OnEveryTrail(g, entry, key, n) {
      SoundOnEveryTrail(g, entry, incoming, available, key, n);
    }
  }

  lemma StartsUnderway(g: Native, entry: string, reached: set<string>, incoming: map<string, seq<Route>>,
      available: Facts)
    requires KnownRoutes(g, reached, incoming) && entry in reached
    requires available == map key | key in reached :: if key == entry then {} else reached
    ensures Underway(g, entry, reached, incoming, available)
  {
    hide OnEveryTrail;
    EntryEstablishesNothing(g, entry);
  }

  lemma SoundOnEveryTrail(g: Native, entry: string, incoming: map<string, seq<Route>>, available: Facts, key: string,
      n: string)
    requires KnownRoutes(g, available.Keys, incoming) && Total(incoming, available)
      && Solves(g, entry, incoming, available)
    requires forall k :: k in available <==> Reachable(g, entry, k)
    requires key in available && n in available[key]
    ensures OnEveryTrail(g, entry, key, n)
  {
    forall t | Trail(g, entry, t, key) ensures n in Established(g, t) {
      SolutionIsSound(g, entry, incoming, available, t, key);
    }
  }

  lemma EntryEstablishesNothing(g: Native, entry: string)
    ensures forall n :: !OnEveryTrail(g, entry, entry, n)
  {
    var start: seq<Route> := [];
    assert Trail(g, entry, start, entry);
    assert Established(g, start) == {};
  }

  /** One recomputation keeps the invariants and uses up a possible change. */
  lemma StepKeeps(g: Native, entry: string, reached: set<string>, incoming: map<string, seq<Route>>, available: Facts,
      key: string)
    requires Underway(g, entry, reached, incoming, available)
    requires forall k :: k in reached <==> Reachable(g, entry, k)
    requires key in available && key != entry && !Settled(g, incoming, available, key)
    ensures var after := available[key := Meet(g, available, incoming[key])];
      Underway(g, entry, reached, incoming, after) && Pending(incoming, after) < Pending(incoming, available)
  {
    hide OnEveryTrail, IsRoute, Reachable, Meet, Ahead, Settled, Pending, Universe;
    var after := available[key := Meet(g, available, incoming[key])];
    MeetBounded(g, incoming, available, key);
    ChangeShrinksPending(g, incoming, available, key);
    forall k | k in after && k != entry ensures Total(incoming, after) && Ahead(g, incoming, after, k) {
      UpdateStaysAhead(g, incoming, available, key, k);
    }
    forall k, n | k in after && n in after.Keys && OnEveryTrail(g, entry, k, n) ensures n in after[k] {
      if k == key { MeetIsGenerous(g, entry, incoming, available, key, n); }
    }
  }

  // ---------------------------------------------------------------- the check

  /** Every body reference is to another reachable node that is on every trail to the task. */
  ghost predicate NothingMissing(g: Native, entry: string)
  {
    forall key, x | Reachable(g, entry, key) && x in BodyRefs(g[key]) ::
      x != key && Reachable(g, entry, x) && OnEveryTrail(g, entry, key, x)
  }

  /** Body references of reachable tasks that some route leaves without a value. A reference to a
      reachable node is reported exactly when it is the task itself or some trail misses it. */
  method UninitializedReferences(g: Native, entry: string) returns (errors: set<(string, string)>)
    requires ProperNames(g)
    ensures entry !in g ==> errors == {}
    ensures forall key, x | (key, x) in errors :: Reachable(g, entry, key) && x in BodyRefs(g[key])
    ensures forall key, x | Reachable(g, entry, key) && x in BodyRefs(g[key]) && (key, x) !in errors ::
      x != key && OnEveryTrail(g, entry, key, x)
    ensures forall key, x | (key, x) in errors && Reachable(g, entry, x) :: x == key || !OnEveryTrail(g, entry, key, x)
    ensures NothingMissing(g, entry) ==> errors == {}
  {
    hide OnEveryTrail, Leads, BodyRefs;
    errors := {};
    if entry !in g {
      forall key ensures !Reachable(g, entry, key) { NothingFromNowhere(g, entry, key); }
      return;
    }
    var reached := Reached(g, entry);
    assert Reachable(g, entry, entry) by { EntryLeads(g, entry); }
    var available := Available(g, entry, reached);
    var todo := reached;
    while todo != {}
      invariant todo <= reached
      invariant forall key, x ::
        (key, x) in errors <==> key in reached - todo && x in BodyRefs(g[key]) && (x == key || x !in available[key])
    {
      var key :| key in todo;
      errors := errors + set x | x in BodyRefs(g[key]) && (x == key || x !in available[key]) :: (key, x);
      todo := todo - {key};
    }
    NothingToReport(g, entry, errors);
  }

  lemma NothingToReport(g: Native, entry: string, errors: set<(string, string)>)
    requires forall key, x | (key, x) in errors :: Reachable(g, entry, key) && x in BodyRefs(g[key])
    requires forall key, x | (key, x) in errors && Reachable(g, entry, x) :: x == key || !OnEveryTrail(g, entry, key, x)
    ensures NothingMissing(g, entry) ==> errors == {}
  {
    hide OnEveryTrail, Leads, BodyRefs;
    if NothingMissing(g, entry) {
      assert forall key, x :: (key, x) !in errors;
      forall e: (string, string) ensures e !in errors { assert e == (e.0, e.1); }
    }
  }

  lemma NothingFromNowhere(g: Native, entry: string, key: string)
    requires entry !in g
    ensures !Reachable(g, entry, key)
  {
    if Reachable(g, entry, key) {
      var t: seq<Route> :| Trail(g, entry, t, key);
      FirstIsEntry(g, entry, t, key);
    }
  }

  lemma {:induction false} FirstIsEntry(g: Native, entry: string, t: seq<Route>, key: string)
    requires Trail(g, entry, t, key) && key in g
    ensures entry in g
    decreases t
  {
    if t != [] { FirstIsEntry(g, entry, t[..|t| - 1], t[|t| - 1].parent); }
  }
}
