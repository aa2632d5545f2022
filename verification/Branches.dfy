/** Which nodes run inside a branch of a split. */
module Branches {
  import opened Json
  import opened Plan
  import opened Graph
  import opened Sets
  import opened Worklists

  // ---------------------------------------------------------------- branches of splits

  /** Where an execution of a branch can go from a node: never through a join. */
  function Inner(node: NativeNode): seq<string>
  {
    if node.Split? then node.branches else Successors(node)
  }

  /** Ids one after the other, from b to key, without leaving the branch. */
  predicate Chain(g: Native, b: string, p: seq<string>, key: string)
  {
    if p == [] then key == b
    else p[|p| - 1] in g && key in Inner(g[p[|p| - 1]]) && Chain(g, b, p[..|p| - 1], p[|p| - 1])
  }

  ghost predicate InBranch(g: Native, b: string, key: string)
  {
    key in g && exists p :: Chain(g, b, p, key)
  }

  predicate BranchEntry(g: Native, b: string)
  {
    b in g && exists s :: s in g && g[s].Split? && b in g[s].branches
  }

  /** Nodes that run inside some branch. */
  ghost predicate Inside(g: Native, key: string)
  {
    exists b :: BranchEntry(g, b) && InBranch(g, b, key)
  }

  /** No split runs inside a branch. */
  ghost predicate FlatSplits(g: Native)
  {
    forall key | key in g && g[key].Split? :: !Inside(g, key)
  }

  lemma ChainOn(g: Native, b: string, key: string, next: string)
    requires InBranch(g, b, key) && next in g && next in Inner(g[key])
    ensures InBranch(g, b, next)
  {
    var p: seq<string> :| Chain(g, b, p, key);
    assert (p + [key])[..|p|] == p;
    assert Chain(g, b, p + [key], next);
  }

  // ---------------------------------------------------------------- computing the branches

  lemma EntryInBranch(g: Native, b: string)
    requires b in g
    ensures InBranch(g, b, b)
  {
    var none: seq<string> := [];
    assert Chain(g, b, none, b);
  }

  function Inwards(g: Native): string -> seq<string>
  {
    key => if key in g then Inner(g[key]) else []
  }

  ghost predicate AllIn(g: Native, b: string, members: set<string>, stack: seq<string>)
  {
    && (forall key | key in members :: InBranch(g, b, key))
    && (forall key | key in stack && key in g :: InBranch(g, b, key))
  }

  lemma AllInOn(g: Native, b: string, members: set<string>, rest: seq<string>, key: string)
    requires AllIn(g, b, members, rest + [key]) && key in g
    ensures AllIn(g, b, members + {key}, rest + Inner(g[key]))
  {
    hide InBranch, Inner;
    assert key in rest + [key];
    forall x | x in Inner(g[key]) && x in g { ChainOn(g, b, key, x); }
    forall x | x in rest ensures x in rest + [key] {
    }
  }

  lemma {:induction false} BranchCovers(g: Native, b: string, members: set<string>, p: seq<string>, key: string)
    requires b in members && Visited(g.Keys, Inwards(g), members, []) && key in g && Chain(g, b, p, key)
    ensures key in members
    decreases p
  {
    if p != [] {
      BranchCovers(g, b, members, p[..|p| - 1], p[|p| - 1]);
      VisitEnds(g.Keys, Inwards(g), members, p[|p| - 1], key);
    }
  }

  lemma BranchIsAll(g: Native, b: string, members: set<string>, key: string)
    requires b in members && Visited(g.Keys, Inwards(g), members, []) && InBranch(g, b, key)
    ensures key in members
  {
    var p: seq<string> :| Chain(g, b, p, key);
    BranchCovers(g, b, members, p, key);
  }

  /** The nodes of the branch entered at b. */
  method BranchSet(g: Native, b: string) returns (members: set<string>)
    requires b in g
    ensures forall key :: key in members <==> InBranch(g, b, key)
  {
    hide InBranch, Inner, Visited;
    members := {};
    var stack := [b];
    EntryInBranch(g, b);
    VisitStarts(g.Keys, Inwards(g), b);
    while stack != []
      invariant members <= g.Keys && (b in members || b in stack)
      invariant AllIn(g, b, members, stack) && Visited(g.Keys, Inwards(g), members, stack)
      decreases |g.Keys - members|, |stack|
    {
      var nid, rest := stack[|stack| - 1], stack[..|stack| - 1];
      assert stack == rest + [nid];
      if nid in members || nid !in g {
        VisitSkips(g.Keys, Inwards(g), members, rest, nid);
        stack := rest;
      } else {
        assert g.Keys - (members + {nid}) < g.Keys - members by { assert nid in g.Keys - members; }
        Smaller(g.Keys - members, g.Keys - (members + {nid}));
        VisitAdds(g.Keys, Inwards(g), members, rest, nid);
        AllInOn(g, b, members, rest, nid);
        members := members + {nid};
        stack := rest + Inner(g[nid]);
      }
    }
    forall key | InBranch(g, b, key) ensures key in members { BranchIsAll(g, b, members, key); }
  }

  /** Every node that runs inside some branch. */
  method BranchNodes(g: Native) returns (inside: set<string>)
    ensures forall key :: key in inside <==> Inside(g, key)
  {
    hide InBranch;
    inside := {};
    var entries := set s, b | s in g && g[s].Split? && b in g[s].branches && b in g :: b;
    var todo := entries;
    while todo != {}
      invariant todo <= entries
      invariant forall key :: key in inside <==> exists b :: b in entries - todo && InBranch(g, b, key)
    {
      var b :| b in todo;
      var members := BranchSet(g, b);
      inside := inside + members;
      todo := todo - {b};
    }
    forall b ensures b in entries <==> BranchEntry(g, b) {
    }
  }
}
