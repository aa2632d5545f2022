/** A topological order of the graph under construction: edges lead to nodes compiled earlier, and
    everything but a few roots is the target of an edge. */
module Sorting {
  import opened Json
  import opened Plan
  import opened Graph
  import opened Meaning
  import opened Compiler
  import opened Construction

  // ---------------------------------------------------------------- an unfinished graph in order

  /** Edges lead to earlier nodes only; late nodes have no place yet and nothing leads to them. */
  ghost predicate Stacked<E, V>(nodes: map<string, Node<E, V>>, late: set<string>, order: seq<string>)
  {
    && (forall i, j | 0 <= i < j < |order| :: order[i] != order[j])
    && (forall k :: k in order <==> k in nodes && k !in late)
    && forall i, x | 0 <= i < |order| && x in Targeted(nodes[order[i]]) :: x == END || x in order[..i]
  }

  ghost predicate Pointed<E, V>(nodes: map<string, Node<E, V>>, x: string)
  {
    exists p :: p in nodes && x in Targeted(nodes[p])
  }

  /** Everything but the roots is the target of an edge. */
  ghost predicate Entered<E, V>(nodes: map<string, Node<E, V>>, roots: set<string>)
  {
    forall id | id in nodes :: id in roots || Pointed(nodes, id)
  }

  ghost predicate Sorted(st: Build, late: set<string>, roots: set<string>)
  {
    && st.nodes.Keys <= st.ids && END !in st.ids && "" !in st.ids && late <= st.nodes.Keys
    && (exists order :: Stacked(st.nodes, late, order))
    && Entered(st.nodes, roots)
  }

  /** An edge may lead here. */
  predicate Goes(st: Build, late: set<string>, x: string)
  {
    x == END || (x in st.nodes && x !in late)
  }

  predicate AllGo(st: Build, late: set<string>, xs: seq<string>)
  {
    forall x | x in xs :: Goes(st, late, x)
  }

  predicate Kept(a: Build, b: Build)
  {
    a.ids <= b.ids && forall id | id in a.nodes :: id in b.nodes && b.nodes[id] == a.nodes[id]
  }

  /** Nodes are only added, under new ids. */
  predicate Onto(a: Build, b: Build)
  {
    Kept(a, b) && FreshNodes(a, b)
  }

  lemma OntoThrough(a: Build, b: Build, c: Build)
    requires Onto(a, b) && Onto(b, c)
    ensures Onto(a, c)
  {
  }

  lemma MoreRoots(st: Build, late: set<string>, roots: set<string>, more: set<string>)
    requires Sorted(st, late, roots) && roots <= more
    ensures Sorted(st, late, more)
  {
  }

  /** Ids, branch results and scopes do not matter to the order. */
  lemma SameNodes(a: Build, b: Build, late: set<string>, roots: set<string>)
    requires Sorted(a, late, roots) && b.nodes == a.nodes && a.ids <= b.ids && END !in b.ids && "" !in b.ids
    ensures Sorted(b, late, roots)
  {
  }

  lemma StillPointed<E, V>(a: map<string, Node<E, V>>, b: map<string, Node<E, V>>, x: string)
    requires Pointed(a, x) && forall id | id in a :: id in b && b[id] == a[id]
    ensures Pointed(b, x)
  {
    var p :| p in a && x in Targeted(a[p]);
    assert p in b && x in Targeted(b[p]);
  }

  /** A new node in front of nodes that have their place; it takes over the roots it leads to. */
  lemma Put(st: Build, late: set<string>, roots: set<string>, rest: set<string>, id: string, node: Draft, scope: string)
    requires Sorted(st, late, roots) && id in st.ids && id !in st.nodes && AllGo(st, late, Targeted(node))
    requires forall x | x in roots :: x in rest || x in Targeted(node)
    requires id in rest || Pointed(st.nodes, id)
    ensures Sorted(Add(st, id, node, scope), late, rest) && Goes(Add(st, id, node, scope), late, id)
  {
    var b := Add(st, id, node, scope);
    PutEnters(st.nodes, roots, rest, id, node);
    var order :| Stacked(st.nodes, late, order);
    PutStacks(st.nodes, late, order, id, node);
    assert Stacked(b.nodes, late, order + [id]);
  }

  lemma PutStacks<E,
      V>(nodes: map<string, Node<E, V>>, late: set<string>, order: seq<string>, id: string, node: Node<E, V>)
    requires Stacked(nodes, late, order) && id !in nodes && id !in late
    requires forall x | x in Targeted(node) :: x == END || (x in nodes && x !in late)
    ensures Stacked(nodes[id := node], late, order + [id])
  {
    var longer := order + [id];
    forall i, x | 0 <= i < |longer| && x in Targeted(nodes[id := node][longer[i]])
      ensures x == END || x in longer[..i] {
      if i < |order| {
        assert order[i] in order;
        assert longer[..i] == order[..i];
      } else {
        assert longer[..i] == order;
      }
    }
  }

  lemma PutEnters<E,
      V>(nodes: map<string, Node<E, V>>, roots: set<string>, rest: set<string>, id: string, node: Node<E, V>)
    requires Entered(nodes, roots) && id !in nodes
    requires forall x | x in roots :: x in rest || x in Targeted(node)
    requires id in rest || Pointed(nodes, id)
    ensures Entered(nodes[id := node], rest)
  {
    var after := nodes[id := node];
    forall x | x in after ensures x in rest || Pointed(after, x) {
      if Pointed(nodes, x) {
        StillPointed(nodes, after, x);
      } else if x in roots && x !in rest {
        assert x in Targeted(after[id]);
      }
    }
  }

  /** A node added before what it leads to. */
  lemma PutLate(st: Build, late: set<string>, roots: set<string>, id: string, node: Draft, scope: string)
    requires Sorted(st, late, roots) && id in st.ids && id !in st.nodes
    ensures Sorted(Add(st, id, node, scope), late + {id}, roots + {id})
  {
    var b := Add(st, id, node, scope);
    assert Entered(b.nodes, roots + {id}) by {
      forall x | x in b.nodes ensures x in roots + {id} || Pointed(b.nodes, x) {
        if x != id && Pointed(st.nodes, x) { StillPointed(st.nodes, b.nodes, x); }
      }
    }
    var order :| Stacked(st.nodes, late, order);
    assert Stacked(b.nodes, late + {id}, order) by {
      forall i, x | 0 <= i < |order| && x in Targeted(b.nodes[order[i]]) ensures x == END || x in order[..i] {
        assert order[i] in order;
      }
    }
  }

  /** A late node takes its place in front of what it leads to. */
  lemma Settle(st: Build, late: set<string>, roots: set<string>, rest: set<string>, id: string)
    requires Sorted(st, late, roots) && id in late && AllGo(st, late, Targeted(st.nodes[id]))
    requires forall x | x in roots :: x in rest || x in Targeted(st.nodes[id])
    ensures Sorted(st, late - {id}, rest) && Goes(st, late - {id}, id)
  {
    forall x | x in st.nodes ensures x in rest || Pointed(st.nodes, x) {
      if !Pointed(st.nodes, x) { assert x in roots; }
    }
    var order :| Stacked(st.nodes, late, order);
    var longer := order + [id];
    assert Stacked(st.nodes, late - {id}, longer) by {
      forall i, x | 0 <= i < |longer| && x in Targeted(st.nodes[longer[i]]) ensures x == END || x in longer[..i] {
        if i < |order| {
          assert order[i] in order;
          assert longer[..i] == order[..i];
        } else {
          assert longer[..i] == order;
        }
      }
    }
  }

  lemma ReserveOnto(st: Build, wanted: Option<string>, late: set<string>, roots: set<string>)
    requires Sorted(st, late, roots) && Reserve(st, wanted).Ok?
    ensures var (id, b) := Reserve(st, wanted).value;
      && Sorted(b, late, roots) && b.nodes == st.nodes && b.exits == st.exits
      && b.ids == st.ids + {id} && id !in st.ids && id !in st.nodes
  {
    SameNodes(st, Reserve(st, wanted).value.1, late, roots);
  }

  // ---------------------------------------------------------------- operations

  ghost predicate Fronted(st: Build, b: Build, late: set<string>, roots: set<string>, entry: string)
  {
    && Sorted(b, late, roots + {entry}) && Goes(b, late, entry)
    && Onto(st, b) && b.exits == st.exits
  }

  /** Whatever an operation is compiled to, its entry replaces the node it continues at. */
  lemma {:induction false} OpSorts(op: Op, after: string, scope: string, st: Build, late: set<string>,
      roots: set<string>)
    requires Sorted(st, late, roots + {after}) && Goes(st, late, after) && CompileOp(op, after, scope, st).Ok?
    ensures Fronted(st, CompileOp(op, after, scope, st).value.1, late, roots, CompileOp(op, after, scope, st).value.0)
    decreases op, 1
  {
    hide Sorted, Terminals;
    match op
    case Call(id, target, args, undo) =>
      ReserveOnto(st, id, late, roots + {after});
      var (nid, st1) := Reserve(st, id).value;
      Put(st1, late, roots + {after}, roots + {nid}, nid, Task(Capability(target, args), after, undo), scope);
    case Wait(id, seconds) =>
      ReserveOnto(st, id, late, roots + {after});
      var (nid, st1) := Reserve(st, id).value;
      Put(st1, late, roots + {after}, roots + {nid}, nid, Sleep(seconds, after), scope);
    case Sequence(steps) => OpsSorts(steps, after, scope, st, late, roots);
    case Condition(_, _, _, _) => ConditionSorts(op, after, scope, st, late, roots);
    case Parallel(_, _) => ParallelSorts(op, after, scope, st, late, roots);
  }

  lemma {:induction false} ConditionSorts(op: Op, after: string, scope: string, st: Build, late: set<string>,
      roots: set<string>)
    requires op.Condition? && Sorted(st, late, roots + {after}) && Goes(st, late, after)
      && CompileOp(op, after, scope, st).Ok?
    ensures Fronted(st, CompileOp(op, after, scope, st).value.1, late, roots, CompileOp(op, after, scope, st).value.0)
    decreases op, 0
  {
    hide Sorted;
    ReserveOnto(st, op.id, late, roots + {after});
    var (nid, st1) := Reserve(st, op.id).value;
    OpsSorts(op.steps, after, scope, st1, late, roots);
    var (yes, st2) := CompileOps(op.steps, after, scope, st1).value;
    MoreRoots(st2, late, roots + {yes}, (roots + {yes}) + {after});
    OpsSorts(op.otherwise, after, scope, st2, late, roots + {yes});
    var (no, st3) := CompileOps(op.otherwise, after, scope, st2).value;
    var node: Draft := Switch([Case(op.when, yes)], no);
    assert Targeted(node) == [yes, no];
    Put(st3, late, (roots + {yes}) + {no}, roots + {nid}, nid, node, scope);
  }

  lemma {:induction false} ParallelSorts(op: Op, after: string, scope: string, st: Build, late: set<string>,
      roots: set<string>)
    requires op.Parallel? && Sorted(st, late, roots + {after}) && Goes(st, late, after)
      && CompileOp(op, after, scope, st).Ok?
    ensures Fronted(st, CompileOp(op, after, scope, st).value.1, late, roots, CompileOp(op, after, scope, st).value.0)
    decreases op, 0
  {
    hide Sorted, Terminals;
    ReserveOnto(st, op.id, late, roots + {after});
    var (nid, st1) := Reserve(st, op.id).value;
    ReserveOnto(st1, Some(nid + "_join"), late, roots + {after});
    var (join, st2) := Reserve(st1, Some(nid + "_join")).value;
    SameNodes(st2, Own(st2, join), late, roots + {after});
    Put(Own(st2, join), late, roots + {after}, roots + {join}, join, Join(after), scope);
    var st3 := Add(Own(st2, join), join, Join(after), scope);
    BranchesSorts(op.branches, 0, nid, join, scope, st3, late, roots + {join});
    var (entries, st4) := CompileBranches(op.branches, 0, nid, join, scope, st3).value;
    var node: Draft := Split(entries, join);
    assert Targeted(node) == entries + [join];
    Put(st4, late, roots + {join} + Set(entries), roots + {nid}, nid, node, scope);
  }

  function Set(s: seq<string>): set<string> { set x | x in s }

  lemma {:induction false} OpsSorts(ops: seq<Op>, after: string, scope: string, st: Build, late: set<string>,
      roots: set<string>)
    requires Sorted(st, late, roots + {after}) && Goes(st, late, after) && CompileOps(ops, after, scope, st).Ok?
    ensures Fronted(st, CompileOps(ops, after, scope, st).value.1, late, roots,
      CompileOps(ops, after, scope, st).value.0)
    decreases ops, 1
  {
    hide Sorted;
    if ops != [] {
      OpsSorts(ops[1..], after, scope, st, late, roots);
      var (entry, st1) := CompileOps(ops[1..], after, scope, st).value;
      OpSorts(ops[0], entry, scope, st1, late, roots);
      OntoThrough(st, st1, CompileOp(ops[0], entry, scope, st1).value.1);
    }
  }

  ghost predicate BranchesStand(st: Build, b: Build, late: set<string>, roots: set<string>, entries: seq<string>)
  {
    && Sorted(b, late, roots + Set(entries)) && AllGo(b, late, entries)
    && Onto(st, b) && b.exits == st.exits
  }

  lemma {:induction false} BranchesSorts(branches: seq<Op>, index: nat, nid: string, join: string, scope: string,
      st: Build,
                                          late: set<string>, roots: set<string>)
    requires Sorted(st, late, roots) && CompileBranches(branches, index, nid, join, scope, st).Ok?
    ensures BranchesStand(st, CompileBranches(branches, index, nid, join, scope, st).value.1, late, roots,
                          CompileBranches(branches, index, nid, join, scope, st).value.0)
    decreases branches, 1
  {
    hide Sorted, Terminals, CompileOp, BranchScope, Expose, NextIsEnd;
    if branches == [] {
      assert roots + Set([]) == roots;
    } else {
      MoreRoots(st, late, roots, roots + {END});
      OpSorts(branches[0], END, BranchScope(scope, nid, index), st, late, roots);
      var (entry, st1) := CompileOp(branches[0], END, BranchScope(scope, nid, index), st).value;
      var st2 := st1.(joins := Expose(st1.joins, Terminals(st1.nodes, st.ids), join, index));
      assert END !in st1.ids && "" !in st1.ids by { ProperIds(st1, late, roots + {entry}); }
      SameNodes(st1, st2, late, roots + {entry});
      BranchesSorts(branches[1..], index + 1, nid, join, scope, st2, late, roots + {entry});
      var (entries, st3) := CompileBranches(branches[1..], index + 1, nid, join, scope, st2).value;
      assert roots + {entry} + Set(entries) == roots + Set([entry] + entries);
    }
  }

  lemma ProperIds(st: Build, late: set<string>, roots: set<string>)
    requires Sorted(st, late, roots)
    ensures END !in st.ids && "" !in st.ids && st.nodes.Keys <= st.ids && late <= st.nodes.Keys
  {
  }
}
