/** How a build grows while the passes of a repeat are laid out. */
module Growth {
  import opened Json
  import opened Plan
  import opened Graph
  import opened Compiler
  import opened Discipline
  import opened Sets
  import opened Realization
  import opened Construction

  /** A later build of the same compilation, with the same branch results. */
  predicate Later(a: Build, b: Build)
  {
    Sound(b) && Keeps(a, b) && FreshInner(a, b) && b.joins == a.joins && a.exits.Keys <= b.exits.Keys
  }

  lemma LaterThrough(a: Build, b: Build, c: Build)
    requires Later(a, b) && Later(b, c)
    ensures Later(a, c)
  {
  }

  lemma LaterHolds(a: Build, b: Build, id: string, node: Draft, scope: string)
    requires Later(a, b) && Holds(a, id, node, scope)
    ensures Holds(b, id, node, scope)
  {
  }

  /** Reserving a name of the compiler's choice. */
  lemma ReserveLater(a: Build, name: string)
    requires Sound(a) && Reserve(a, Some(name)).Ok?
    ensures var b := Reserve(a, Some(name)).value.1;
      && Later(a, b) && b.ids == a.ids + {name} && b.inner == a.inner && b.nodes == a.nodes && b.exits == a.exits
      && name !in a.ids && name != END
  {
  }

  lemma AddLater(a: Build, id: string, node: Draft)
    requires Sound(a) && id in a.ids && id !in a.nodes && !node.Join?
    ensures var b := Add(a, id, node, "");
      && Later(a, b) && b.ids == a.ids && b.inner == a.inner && b.exits == a.exits
      && Holds(b, id, node, "") && b.nodes.Keys == a.nodes.Keys + {id}
  {
  }

  /** Filling an id reserved some builds earlier. */
  lemma FillLater(a: Build, b: Build, id: string, node: Draft)
    requires Later(a, b) && FreshNodes(a, b) && id in a.ids && id !in a.nodes && !node.Join?
    ensures var c := Add(b, id, node, "");
      && Later(b, c) && Later(a, c) && c.ids == b.ids && c.inner == b.inner && c.exits == b.exits
      && Holds(c, id, node, "")
  {
    AddLater(b, id, node);
    LaterThrough(a, b, Add(b, id, node, ""));
  }

  lemma CompileLater(ops: seq<Op>, after: string, st: Build)
    requires Sound(st) && CompileOps(ops, after, "", st).Ok? && NoParallels(ops)
    ensures var b := CompileOps(ops, after, "", st).value.1;
      && Later(st, b) && IdsOf(ops) <= b.ids - st.ids && IdsOf(ops) !! b.inner && b.exits == st.exits
      && FreshNodes(st, b)
  {
    CompileAllExtends(ops, after, "", st);
    NoParallelsKeepJoins(ops, after, "", st);
  }

  lemma {:induction false} PlainHasNoParallel(ops: seq<Op>)
    requires AllPlain(ops)
    ensures NoParallels(ops)
    decreases ops, 1
  {
    if ops != [] {
      OnePlainHasNoParallel(ops[0]);
      PlainHasNoParallel(ops[1..]);
    }
  }

  lemma {:induction false} OnePlainHasNoParallel(op: Op)
    requires Plain(op)
    ensures NoParallel(op)
    decreases op, 0
  {
    match op
    case Sequence(steps) => PlainHasNoParallel(steps);
    case Condition(_, _, steps, otherwise) =>
      PlainHasNoParallel(steps);
      PlainHasNoParallel(otherwise);
    case _ =>
  }

  // ---------------------------------------------------------------- the reach of the after-steps

  predicate Closed(nodes: map<string, Draft>, seen: set<string>, pending: seq<string>)
  {
    && seen <= nodes.Keys
    && forall key, x | key in seen && x in Successors(nodes[key]) && x in nodes :: x in seen || x in pending
  }

  lemma ClosedStep(nodes: map<string, Draft>, seen: set<string>, rest: seq<string>, key: string)
    requires Closed(nodes, seen, rest + [key]) && key in nodes
    ensures Closed(nodes, seen + {key}, rest + Successors(nodes[key]))
  {
    forall k, x | k in seen + {key} && x in Successors(nodes[k]) && x in nodes
      ensures x in seen + {key} || x in rest + Successors(nodes[key])
    {
      if k in seen { assert x in seen || x in rest + [key]; }
    }
  }

  lemma {:induction false} ReachIsClosed(nodes: map<string, Draft>, stack: seq<string>, seen: set<string>)
    requires Closed(nodes, seen, stack)
    ensures var r := Reach(nodes, stack, seen);
      Closed(nodes, r, []) && seen <= r && forall x | x in stack && x in nodes :: x in r
    decreases |nodes.Keys - seen|, |stack|
  {
    if stack != [] {
      var key, rest := stack[|stack| - 1], stack[..|stack| - 1];
      assert stack == rest + [key];
      if key !in nodes || key in seen {
        assert Closed(nodes, seen, rest) by {
          forall k, x | k in seen && x in Successors(nodes[k]) && x in nodes ensures x in seen || x in rest {
            assert x in seen || x in rest + [key];
          }
        }
        ReachIsClosed(nodes, rest, seen);
      } else {
        assert nodes.Keys - (seen + {key}) == nodes.Keys - seen - {key};
        assert nodes.Keys - (seen + {key}) < nodes.Keys - seen by { assert key in nodes.Keys - seen; }
        Smaller(nodes.Keys - seen, nodes.Keys - (seen + {key}));
        ClosedStep(nodes, seen, rest, key);
        ReachIsClosed(nodes, rest + Successors(nodes[key]), seen + {key});
        assert forall x | x in stack :: x in rest || x == key;
        assert forall x | x in rest :: x in rest + Successors(nodes[key]);
      }
    }
  }

  // ---------------------------------------------------------------- exit copies

  /** The layout describes the after-steps compiled into a base build. */
  predicate LaidOut(l: Layout, base: Build)
  {
    && Sound(base) && base.joins == map[] && base.exits == map[]
    && l.source == base.nodes
    && Closed(base.nodes, l.tail, [])
    && (l.after in base.nodes ==> l.after in l.tail)
    && (forall key | key in l.tail :: base.scopes[key] == "")
    && l.block.chunk > 0
  }

  /** The copies behind the exit after pass k are in place. */
  predicate Copied(l: Layout, k: int, st: Build)
  {
    && k >= -1
    && (forall key | key in l.tail ::
          key in l.source && ExitNode(l, k, l.source[key]).Ok?
          && Holds(st, ExitId(l, k, key), ExitNode(l, k, l.source[key]).value, ""))
  }

  predicate CopiesFresh(l: Layout, k: int, base: Build, st: Build)
  {
    && k >= -1
    && (forall key | key in l.tail :: ExitId(l, k, key) in st.ids && ExitId(l, k, key) !in base.ids)
    && (forall key | key in l.tail :: key in base.inner <==> ExitId(l, k, key) in st.inner)
  }

  predicate ExitsOk(l: Layout, base: Build, st: Build)
  {
    && Later(base, st)
    && forall k | k in st.exits ::
         Copied(l, k, st) && CopiesFresh(l, k, base, st) && st.exits[k] == ExitId(l, k, l.after)
  }

  lemma CopiedLater(l: Layout, k: int, base: Build, a: Build, b: Build)
    requires Copied(l, k, a) && CopiesFresh(l, k, base, a) && Later(a, b)
    ensures Copied(l, k, b) && CopiesFresh(l, k, base, b)
  {
  }

  lemma ExitsStayOk(l: Layout, base: Build, a: Build, b: Build)
    requires ExitsOk(l, base, a) && Later(a, b) && b.exits == a.exits
    ensures ExitsOk(l, base, b)
  {
    LaterThrough(base, a, b);
    forall k | k in b.exits
      ensures Copied(l, k, b) && CopiesFresh(l, k, base, b) && b.exits[k] == ExitId(l, k, l.after)
    {
      CopiedLater(l, k, base, a, b);
    }
  }

  lemma ExitIdDiffers(l: Layout, k: int, key: string)
    requires k >= -1 && key in l.tail
    ensures ExitId(l, k, key) != key && ExitId(l, k, key) != END && ExitId(l, k, key) != ""
  {
    assert |ExitId(l, k, key)| == |key| + |ExitSuffix(l, k)|;
    assert |ExitSuffix(l, k)| >= 9;
  }

  lemma CopyTailHolds(l: Layout, k: int, base: Build, st: Build)
    requires LaidOut(l, base) && ExitsOk(l, base, st) && k >= -1
    requires forall key | key in l.tail :: key in l.source && ExitNode(l, k, l.source[key]).Ok?
    requires forall key | key in l.tail :: ExitId(l, k, key) !in st.ids
    ensures Copied(l, k, CopyTail(l, k, st))
  {
    var b := CopyTail(l, k, st);
    forall key | key in l.tail
      ensures Holds(b, ExitId(l, k, key), ExitNode(l, k, l.source[key]).value, "")
    {
      OriginalOf(l, k, key);
      ExitIdDiffers(l, k, key);
      assert ExitId(l, k, key) in ExitIds(l, k);
    }
  }

  lemma CopiesAreFresh(l: Layout, k: int, base: Build, st: Build)
    requires LaidOut(l, base) && ExitsOk(l, base, st) && k >= -1
    requires forall key | key in l.tail :: key in l.source && ExitNode(l, k, l.source[key]).Ok?
    requires forall key | key in l.tail :: ExitId(l, k, key) !in st.ids
    ensures CopiesFresh(l, k, base, CopyTail(l, k, st))
  {
    hide ExitNode, NodeCopies, ScopeCopies, JoinCopies, Copied, CopiesFresh;
    assert base.ids <= st.ids && (forall key | key in l.tail :: key in base.inner <==> key in st.inner);
    var b := CopyTail(l, k, st);
    forall key | key in l.tail ensures key in base.inner <==> ExitId(l, k, key) in b.inner {
      OriginalOf(l, k, key);
      if ExitId(l, k, key) in b.inner {
        assert ExitId(l, k, key) !in st.inner;
        var key' :| key' in l.tail && key' in st.inner && ExitId(l, k, key') == ExitId(l, k, key);
        OriginalOf(l, k, key');
      }
    }
    AreFresh(l, k, base, b);
  }

  lemma AreFresh(l: Layout, k: int, base: Build, b: Build)
    requires k >= -1 && (forall key | key in l.tail :: ExitId(l, k, key) in b.ids && ExitId(l, k, key) !in base.ids)
    requires forall key | key in l.tail :: key in base.inner <==> ExitId(l, k, key) in b.inner
    ensures CopiesFresh(l, k, base, b)
  {
  }

  /** Adding new nodes, each with its scope, gives a later build. */
  lemma AddedIsLater(st: Build, nodes: map<string, Draft>, ids: set<string>, inner: set<string>,
      scopes: map<string, string>, exits: map<int, string>)
    requires Sound(st) && st.joins == map[] && nodes.Keys == ids && scopes.Keys == ids && inner <= ids
    requires ids !! st.ids && END !in ids && "" !in ids && st.exits.Keys <= exits.Keys
    ensures var b := Build(st.nodes + nodes, st.ids + ids, st.inner + inner, st.scopes + scopes, map[], exits);
      Later(st, b) && FreshNodes(st, b)
  {
  }

  lemma CopyParts(l: Layout, k: int, st: Build)
    requires k >= -1 && st.joins == map[]
    requires forall key | key in l.tail :: key in l.source && ExitNode(l, k, l.source[key]).Ok?
    ensures NodeCopies(l, k, l.tail).Keys == ExitIds(l, k) && ScopeCopies(l, k, l.tail, st).Keys == ExitIds(l, k)
    ensures InnerCopies(l, k, st.inner) <= ExitIds(l, k) && st.joins + JoinCopies(l, k, l.tail, st) == map[]
  {
    hide ExitNode, ExitId, ScopeOf;
  }

  lemma CopyTailLater(l: Layout, k: int, base: Build, st: Build)
    requires LaidOut(l, base) && ExitsOk(l, base, st) && k >= -1
    requires forall key | key in l.tail :: key in l.source && ExitNode(l, k, l.source[key]).Ok?
    requires forall key | key in l.tail :: ExitId(l, k, key) !in st.ids
    ensures Later(st, CopyTail(l, k, st)) && CopiesFresh(l, k, base, CopyTail(l, k, st))
    ensures CopyTail(l, k, st).ids == st.ids + ExitIds(l, k)
      && CopyTail(l, k, st).exits == st.exits[k := ExitId(l, k, l.after)]
    ensures FreshNodes(st, CopyTail(l, k, st))
  {
    hide Copied, CopiesFresh, NodeCopies, ScopeCopies, JoinCopies, InnerCopies, ExitNode, FreshNodes;
    CopiesAreFresh(l, k, base, st);
    CopyParts(l, k, st);
    forall id | id in ExitIds(l, k) ensures id !in st.ids && id != END && id != "" {
      var key :| key in l.tail && id == ExitId(l, k, key);
      ExitIdDiffers(l, k, key);
    }
    AddedIsLater(st, NodeCopies(l, k, l.tail), ExitIds(l, k), InnerCopies(l, k, st.inner),
                 ScopeCopies(l, k, l.tail, st), st.exits[k := ExitId(l, k, l.after)]);
  }

  /** Leaving after pass k: a later build in which that exit's after-steps are in place. */
  lemma ExitLater(l: Layout, k: int, base: Build, st: Build)
    requires LaidOut(l, base) && ExitsOk(l, base, st) && k >= -1 && ExitEntry(l, k, st).Ok?
    ensures var (target, b) := ExitEntry(l, k, st).value;
      && Later(st, b) && ExitsOk(l, base, b) && FreshNodes(st, b)
      && (if k == l.block.chunk - 1 then target == l.after
          else
            && target == ExitId(l, k, l.after) && Copied(l, k, b) && CopiesFresh(l, k, base, b)
            && (l.tail != {} ==> k in b.exits))
  {
    if l.tail == {} {
      assert Copied(l, k, st);
    } else if k != l.block.chunk - 1 && k !in st.exits {
      CopyTailHolds(l, k, base, st);
      CopyTailLater(l, k, base, st);
      var b := CopyTail(l, k, st);
      LaterThrough(base, st, b);
      forall k' | k' in b.exits
        ensures Copied(l, k', b) && CopiesFresh(l, k', base, b) && b.exits[k'] == ExitId(l, k', l.after)
      {
        if k' != k { CopiedLater(l, k', base, st, b); }
      }
    }
  }
}
