/** Cycle detection: a recursive depth-first search over shared visited and on-stack sets, and
    what its silence means for every run. */
module Cycles {
  import opened Json
  import opened Plan
  import opened Graph
  import opened Sets

  // ---------------------------------------------------------------- paths and cycles

  predicate IsEdge(g: Native, a: string, b: string) { a in g && b in g && b in Successors(g[a]) }

  /** Nodes one after the other along edges. */
  predicate IsPath(g: Native, p: seq<string>)
  {
    && p != [] && (forall i | 0 <= i < |p| :: p[i] in g)
    && (forall i | 0 <= i < |p| - 1 :: IsEdge(g, p[i], p[i + 1]))
  }

  ghost predicate Leads(g: Native, a: string, b: string)
  {
    exists p :: IsPath(g, p) && p[0] == a && p[|p| - 1] == b
  }

  ghost predicate OnCycle(g: Native, key: string)
  {
    exists p :: IsPath(g, p) && |p| > 1 && p[0] == key && p[|p| - 1] == key
  }

  ghost predicate CycleReachable(g: Native, entry: string)
  {
    exists key :: Leads(g, entry, key) && OnCycle(g, key)
  }

  // ---------------------------------------------------------------- finished nodes

  /** A finishing order: every successor of a finished node finished before it. */
  ghost predicate Finished(g: Native, order: seq<string>)
  {
    && (forall i, j | 0 <= i < j < |order| :: order[i] != order[j])
    && forall i, x | 0 <= i < |order| && IsEdge(g, order[i], x) :: x in order[..i]
  }

  function Rank(order: seq<string>, key: string): (i: nat)
    requires key in order
    ensures i < |order| && order[i] == key
  {
    if order[0] == key then 0 else 1 + Rank(order[1..], key)
  }

  lemma EdgesDescend(g: Native, order: seq<string>, a: string, b: string)
    requires Finished(g, order) && a in order && IsEdge(g, a, b)
    ensures b in order && Rank(order, b) < Rank(order, a)
  {
    var i := Rank(order, a);
    assert b in order[..i];
    var j :| 0 <= j < i && order[j] == b;
    var k := Rank(order, b);
    assert order[k] == b && order[j] == b;
  }

  /** Along a path ranks fall at every step. */
  lemma {:induction false} PathDescends(g: Native, order: seq<string>, p: seq<string>)
    requires Finished(g, order) && IsPath(g, p) && p[0] in order
    ensures p[|p| - 1] in order && Rank(order, p[|p| - 1]) + |p| - 1 <= Rank(order, p[0])
    decreases p
  {
    if |p| > 1 {
      assert IsEdge(g, p[0], p[1]);
      EdgesDescend(g, order, p[0], p[1]);
      assert IsPath(g, p[1..]) by {
        forall i | 0 <= i < |p[1..]| - 1
          ensures IsEdge(g, p[1..][i], p[1..][i + 1]) { assert IsEdge(g, p[i + 1], p[i + 2]); }
      }
      PathDescends(g, order, p[1..]);
    }
  }

  /** The order names nodes of the graph only. */
  predicate WithinGraph(g: Native, order: seq<string>) { forall x | x in order :: x in g }

  /** Some finishing order of the graph's nodes covers the node. */
  ghost predicate Ordered(g: Native, entry: string)
  {
    exists order :: Finished(g, order) && entry in order && WithinGraph(g, order)
  }

  /** Nothing that finished is on a cycle, nor leads to one. */
  lemma FinishedIsAcyclic(g: Native, order: seq<string>, entry: string)
    requires Finished(g, order) && entry in order
    ensures !CycleReachable(g, entry)
  {
    if key :| Leads(g, entry, key) && OnCycle(g, key) {
      var p :| IsPath(g, p) && p[0] == entry && p[|p| - 1] == key;
      PathDescends(g, order, p);
      var c :| IsPath(g, c) && |c| > 1 && c[0] == key && c[|c| - 1] == key;
      PathDescends(g, order, c);
      assert false;
    }
  }

  // ---------------------------------------------------------------- the search

  /** The detector's state: the visited nodes, and those on the recursion stack. */
  class Search {
    const g: Native
    var visited: set<string>
    var inStack: set<string>
    ghost var order: seq<string>       // finished nodes, in finishing order

    constructor (g: Native)
      ensures this.g == g && visited == {} && inStack == {} && order == []
    {
      this.g := g;
      visited, inStack, order := {}, {}, [];
    }

    ghost predicate Searching(trail: seq<string>)
      reads this
    {
      Underway(g, visited, inStack, order, trail)
    }

    /** True exactly when a cycle was met; otherwise the node and all it leads to have finished. */
    method Dfs(nid: string, ghost trail: seq<string>) returns (found: bool)
      requires Searching(trail) && nid !in visited
      requires nid in g ==> IsPath(g, trail + [nid])
      modifies this
      ensures found ==> nid in g && CycleReachable(g, (trail + [nid])[0])
      ensures !found ==> Searching(trail) && inStack == old(inStack) && visited >= old(visited)
      ensures !found ==> (nid in g ==> nid in order) && old(order) <= order
      decreases |g.Keys - visited|, 1
    {
      hide Underway, CycleReachable, IsPath, Successors, IsEdge;
      if nid !in g {
        return false;
      }
      ghost var path := trail + [nid];
      Enter(g, visited, inStack, order, trail, nid);
      visited := visited + {nid};
      inStack := inStack + {nid};
      var targets := Successors(g[nid]);
      var i := 0;
      while i < |targets|
        invariant 0 <= i <= |targets|
        invariant Searching(path) && inStack == old(inStack) + {nid}
        invariant visited >= old(visited) + {nid} && old(order) <= order
        invariant forall k | 0 <= k < i && targets[k] in g :: targets[k] in order
        decreases |targets| - i
      {
        var s := targets[i];
        if s !in visited {
          FewerLeft(g, old(visited), visited, nid);
          if s in g { StackGrows(g, trail, nid, s); }
          found := Dfs(s, path);
          if found {
            assert (path + [s])[0] == path[0];
            return true;
          }
        } else if s in inStack {
          OnStack(g, visited, inStack, order, trail, nid, s);
          return true;
        } else {
          OffStack(g, visited, inStack, order, path, s);
        }
        i := i + 1;
      }
      Leave(g, visited, inStack, order, trail, nid);
      inStack := inStack - {nid};
      order := order + [nid];
      assert inStack == old(inStack) by { NotYet(g, old(visited), old(inStack), old(order), trail, nid); }
      return false;
    }
  }

  /** The stack is a path from the entrypoint; everything else visited has finished. */
  ghost predicate Underway(g: Native, visited: set<string>, inStack: set<string>, order: seq<string>,
      trail: seq<string>)
  {
    && (trail == [] || IsPath(g, trail))
    && inStack == (set x | x in trail)
    && (forall i, j | 0 <= i < j < |trail| :: trail[i] != trail[j])
    && (forall x :: x in visited <==> x in trail || x in order)
    && (forall x | x in trail :: x !in order)
    && (forall x | x in order :: x in g) && Finished(g, order)
  }

  lemma Enter(g: Native, visited: set<string>, inStack: set<string>, order: seq<string>, trail: seq<string>,
      nid: string)
    requires Underway(g, visited, inStack, order, trail) && nid !in visited && IsPath(g, trail + [nid])
    ensures Underway(g, visited + {nid}, inStack + {nid}, order, trail + [nid])
  {
  }

  lemma NotYet(g: Native, visited: set<string>, inStack: set<string>, order: seq<string>, trail: seq<string>,
      nid: string)
    requires Underway(g, visited, inStack, order, trail) && nid !in visited
    ensures nid !in inStack
  {
  }

  lemma Leave(g: Native, visited: set<string>, inStack: set<string>, order: seq<string>, trail: seq<string>,
      nid: string)
    requires Underway(g, visited, inStack, order, trail + [nid]) && nid in g
    requires forall x | x in Successors(g[nid]) && x in g :: x in order
    ensures Underway(g, visited, inStack - {nid}, order + [nid], trail)
  {
    var path := trail + [nid];
    assert path[|trail|] == nid;
    FinishOne(g, order, nid);
    forall x | x in trail ensures x != nid && x in path {
      var i :| 0 <= i < |trail| && trail[i] == x;
      assert path[i] == x && path[|trail|] == nid;
    }
    if trail != [] {
      forall i | 0 <= i < |trail| ensures trail[i] in g { assert path[i] in g; }
      forall i | 0 <= i < |trail| - 1
        ensures IsEdge(g, trail[i], trail[i + 1]) { assert IsEdge(g, path[i], path[i + 1]); }
    }
    forall i, j | 0 <= i < j < |trail| ensures trail[i] != trail[j] { assert path[i] != path[j]; }
    assert inStack - {nid} == (set x | x in trail);
  }

  lemma StackGrows(g: Native, trail: seq<string>, nid: string, s: string)
    requires IsPath(g, trail + [nid]) && nid in g && s in g && s in Successors(g[nid])
    ensures IsPath(g, trail + [nid] + [s])
  {
    assert (trail + [nid])[|trail|] == nid;
    PathSnoc(g, trail + [nid], s);
  }

  lemma OnStack(g: Native, visited: set<string>, inStack: set<string>, order: seq<string>, trail: seq<string>,
      nid: string, s: string)
    requires Underway(g, visited, inStack, order, trail + [nid]) && s in inStack && nid in g && s in Successors(g[nid])
    ensures CycleReachable(g, (trail + [nid])[0])
  {
    var path := trail + [nid];
    assert path[|trail|] == nid;
    assert s in path;
    CloseCycle(g, path, s);
  }

  lemma OffStack(g: Native, visited: set<string>, inStack: set<string>, order: seq<string>, path: seq<string>,
      s: string)
    requires Underway(g, visited, inStack, order, path) && s in visited && s !in inStack
    ensures s in order
  {
  }

  lemma FewerLeft(g: Native, before: set<string>, now: set<string>, nid: string)
    requires nid in g && nid !in before && before + {nid} <= now
    ensures |g.Keys - now| < |g.Keys - before|
  {
    assert nid in g.Keys - before;
    Smaller(g.Keys - before, g.Keys - now);
  }

  lemma PathSnoc(g: Native, p: seq<string>, x: string)
    requires IsPath(g, p) && IsEdge(g, p[|p| - 1], x)
    ensures IsPath(g, p + [x])
  {
    forall i | 0 <= i < |p + [x]| - 1 ensures IsEdge(g, (p + [x])[i], (p + [x])[i + 1]) {
      if i < |p| - 1 { assert IsEdge(g, p[i], p[i + 1]); }
    }
  }

  /** An edge back onto the stack closes a cycle. */
  lemma CloseCycle(g: Native, path: seq<string>, s: string)
    requires IsPath(g, path) && s in path && IsEdge(g, path[|path| - 1], s)
    ensures CycleReachable(g, path[0])
  {
    var i :| 0 <= i < |path| && path[i] == s;
    var lead, loop := path[..i + 1], path[i..] + [s];
    forall k | 0 <= k < |lead| - 1 ensures IsEdge(g, lead[k], lead[k + 1]) { assert IsEdge(g, path[k], path[k + 1]); }
    assert IsPath(g, path[i..]) by {
      forall k | 0 <= k < |path[i..]| - 1
        ensures IsEdge(g, path[i..][k], path[i..][k + 1]) { assert IsEdge(g, path[i + k], path[i + k + 1]); }
    }
    PathSnoc(g, path[i..], s);
    assert IsPath(g, lead) && lead[0] == path[0] && lead[|lead| - 1] == s;
    assert Leads(g, path[0], s);
    assert IsPath(g, loop) && loop[|loop| - 1] == s && loop[0] == s;
    assert OnCycle(g, s);
  }

  lemma FinishOne(g: Native, order: seq<string>, nid: string)
    requires Finished(g, order) && nid in g && nid !in order
    requires forall x | x in Successors(g[nid]) && x in g :: x in order
    ensures Finished(g, order + [nid])
  {
    var all := order + [nid];
    forall i, x | 0 <= i < |all| && IsEdge(g, all[i], x) ensures x in all[..i] {
      if i < |order| { assert all[..i] == order[..i]; } else { assert all[..i] == order; }
    }
  }

  /** The validator's cycle check reports an error exactly when a cycle can be reached from the
      entrypoint; when it does not, it has found a finishing order. */
  method DetectCycles(g: Native, entry: string) returns (found: bool)
    ensures found <==> CycleReachable(g, entry)
    ensures entry in g ==> (!found <==> Ordered(g, entry))
  {
    if entry !in g {
      found := false;
      return;
    }
    var search := new Search(g);
    assert IsPath(g, [entry]);
    assert [] + [entry] == [entry];
    found := search.Dfs(entry, []);
    if found {
      forall order | Finished(g, order) && entry in order ensures false { FinishedIsAcyclic(g, order, entry); }
    } else {
      FinishedIsAcyclic(g, search.order, entry);
      assert WithinGraph(g, search.order);
    }
  }
}
