/** Copying the after-steps of a repeat keeps the graph in order. */
module SortedCopies {
  import opened Json
  import opened Plan
  import opened Graph
  import opened Meaning
  import opened Compiler
  import opened Growth
  import opened Sorting

  // ---------------------------------------------------------------- the after-steps of a repeat

  /** In a finished order whose nodes all but one are entered, that one leads to every node. */
  lemma {:induction false} TopCovers<E,
      V>(nodes: map<string, Node<E, V>>, order: seq<string>, top: string, covered: set<string>, i: nat)
    requires END !in nodes && Stacked(nodes, {}, order) && Entered(nodes, {top}) && (top in nodes ==> top in covered)
    requires forall p, x | p in covered && p in nodes && x in Targeted(nodes[p]) && x in nodes :: x in covered
    requires i < |order|
    ensures order[i] in covered
    decreases |order| - i
  {
    var key := order[i];
    assert key in order;
    if key != top {
      assert Pointed(nodes, key);
      var j := Above(nodes, order, i);
      TopCovers(nodes, order, top, covered, j);
    }
  }

  lemma Above<E, V>(nodes: map<string, Node<E, V>>, order: seq<string>, i: nat) returns (j: nat)
    requires END !in nodes && Stacked(nodes, {}, order) && i < |order| && Pointed(nodes, order[i])
    ensures i < j < |order| && order[i] in Targeted(nodes[order[j]])
  {
    var p :| p in nodes && order[i] in Targeted(nodes[p]);
    assert p in order;
    j :| 0 <= j < |order| && order[j] == p;
    assert order[i] in order;
    var k :| 0 <= k < j && order[k] == order[i];
  }

  /** The layout's after-steps, in a finished order of their own. */
  ghost predicate Tailed(l: Layout, order: seq<string>)
  {
    && Stacked(l.source, {}, order) && Entered(l.source, {l.after})
    && l.tail == l.source.Keys && END !in l.tail && (l.after == END || l.after in l.tail)
  }

  lemma TailIsAll(b: Block, after: string, text: Json -> string, st: Build) returns (order: seq<string>)
    requires Sorted(st, {}, {after}) && Goes(st, {}, after)
    ensures Tailed(Layout(b, after, Reach(st.nodes, [after], {}), st.nodes, text), order)
  {
    hide Reach;
    order :| Stacked(st.nodes, {}, order);
    ReachIsClosed(st.nodes, [after], {});
    var tail := Reach(st.nodes, [after], {});
    forall key | key in st.nodes ensures key in tail {
      assert key in order;
      var i :| 0 <= i < |order| && order[i] == key;
      TopCovers(st.nodes, order, after, tail, i);
    }
  }

  lemma {:induction false} CaseTargets(l: Layout, k: int, cases: seq<Case<Operand>>, i: nat)
    requires k >= -1 && ExitCases(l, k, cases).Ok? && i < |cases|
    ensures |ExitCases(l, k, cases).value| == |cases|
    ensures ExitCases(l, k, cases).value[i].target == ExitId(l, k, cases[i].target)
  {
    if |cases| > 1 { CaseTargets(l, k, cases[1..], if i > 0 then i - 1 else 0); }
  }

  /** A copied node names the copies of what its original names. */
  lemma CopyTargets(l: Layout, k: int, node: Draft)
    requires k >= -1 && ExitNode(l, k, node).Ok?
    ensures var copy := ExitNode(l, k, node).value;
      |Targeted(copy)| == |Targeted(node)| && forall i | 0 <= i < |Targeted(node)| ::
        Targeted(copy)[i] == ExitId(l, k, Targeted(node)[i])
  {
    if node.Switch? {
      if node.cases != [] { CaseTargets(l, k, node.cases, 0); }
      forall i | 0 <= i < |node.cases| ensures |ExitCases(l, k, node.cases).value| == |node.cases|
          && ExitCases(l, k, node.cases).value[i].target == ExitId(l, k, node.cases[i].target) {
        CaseTargets(l, k, node.cases, i);
      }
    }
  }

  function Copies(l: Layout, k: int, order: seq<string>): (r: seq<string>)
    requires k >= -1
    ensures |r| == |order|
  {
    seq(|order|, i requires 0 <= i < |order| => ExitId(l, k, order[i]))
  }

  lemma CopyAt(l: Layout, k: int, st: Build, key: string)
    requires k >= -1 && key in l.tail && Copyable(l, k)
    ensures ExitId(l, k, key) in CopyTail(l, k, st).nodes
    ensures CopyTail(l, k, st).nodes[ExitId(l, k, key)] == ExitNode(l, k, l.source[key]).value
  {
    OriginalOf(l, k, key);
  }

  /** What was added by copying the after-steps. */
  lemma CopiesOnly(l: Layout, k: int, st: Build, id: string)
    requires k >= -1 && Copyable(l, k) && id in CopyTail(l, k, st).nodes && id !in st.nodes
    ensures exists key :: key in l.tail && id == ExitId(l, k, key)
  {
  }

  lemma CopiesStack(l: Layout, k: int, tail: seq<string>, st: Build, late: set<string>, order: seq<string>)
    requires k >= -1 && Copyable(l, k) && Tailed(l, tail) && Stacked(st.nodes, late, order) && st.nodes.Keys <= st.ids
      && late <= st.ids
    requires forall key | key in l.tail :: ExitId(l, k, key) !in st.ids
    ensures Stacked(CopyTail(l, k, st).nodes, late, order + Copies(l, k, tail))
  {
    hide ExitId, ExitSuffix, ExitNode, CopyTail, Copyable, Targeted, Tailed, Copies;
    var longer := order + Copies(l, k, tail);
    forall i, j | 0 <= i < j < |longer| ensures longer[i] != longer[j] {
      CopiesDiffer(l, k, tail, st, late, order, i, j);
    }
    forall key ensures key in longer <==> key in CopyTail(l, k, st).nodes && key !in late {
      CopiesCover(l, k, tail, st, late, order, key);
    }
    forall i, x | 0 <= i < |longer| && longer[i] in CopyTail(l, k, st).nodes
      && x in Targeted(CopyTail(l, k, st).nodes[longer[i]])
      ensures x == END || x in longer[..i]
    {
      CopiesLead(l, k, tail, st, late, order, i, x);
    }
  }

  lemma CopiesLead(l: Layout, k: int, tail: seq<string>, st: Build, late: set<string>, order: seq<string>, i: nat,
      x: string)
    requires k >= -1 && Copyable(l, k) && Tailed(l, tail) && Stacked(st.nodes, late, order) && st.nodes.Keys <= st.ids
    requires forall key | key in l.tail :: ExitId(l, k, key) !in st.ids
    requires var longer := order + Copies(l, k, tail);
      i < |longer| && longer[i] in CopyTail(l, k, st).nodes && x in Targeted(CopyTail(l, k, st).nodes[longer[i]])
    ensures x == END || x in (order + Copies(l, k, tail))[..i]
  {
    hide ExitId, ExitSuffix, ExitNode, CopyTail, Copyable, Targeted, Stacked, Tailed;
    var copies := Copies(l, k, tail);
    var longer := order + copies;
    if i < |order| {
      assert order[i] in st.nodes by { OrderedIsNode(st.nodes, late, order, i); }
      KeptByCopy(l, k, st, order[i]);
      OrderedLeads(st.nodes, late, order, i, x);
      assert longer[..i] == order[..i];
    } else {
      var n := i - |order|;
      TailIsTail(l, tail, n);
      CopyPrecedes(l, k, tail, st, n, x);
      assert longer[..i] == order + copies[..n];
    }
  }

  lemma OrderedIsNode(nodes: map<string, Draft>, late: set<string>, order: seq<string>, i: nat)
    requires Stacked(nodes, late, order) && i < |order|
    ensures order[i] in nodes
  {
    assert order[i] in order;
  }

  lemma OrderedLeads(nodes: map<string, Draft>, late: set<string>, order: seq<string>, i: nat, x: string)
    requires Stacked(nodes, late, order) && i < |order| && order[i] in nodes && x in Targeted(nodes[order[i]])
    ensures x == END || x in order[..i]
  {
  }

  lemma TailIsTail(l: Layout, tail: seq<string>, n: nat)
    requires Tailed(l, tail) && n < |tail|
    ensures tail[n] in l.tail
  {
    assert tail[n] in tail;
  }

  lemma KeptByCopy(l: Layout, k: int, st: Build, id: string)
    requires k >= -1 && Copyable(l, k) && id in st.nodes && st.nodes.Keys <= st.ids
    requires forall key | key in l.tail :: ExitId(l, k, key) !in st.ids
    ensures id in CopyTail(l, k, st).nodes && CopyTail(l, k, st).nodes[id] == st.nodes[id]
  {
  }

  lemma CopiesDiffer(l: Layout, k: int, tail: seq<string>, st: Build, late: set<string>, order: seq<string>, i: nat,
      j: nat)
    requires k >= -1 && Tailed(l, tail) && Stacked(st.nodes, late, order) && st.nodes.Keys <= st.ids
    requires forall key | key in l.tail :: ExitId(l, k, key) !in st.ids
    requires i < j < |order + Copies(l, k, tail)|
    ensures (order + Copies(l, k, tail))[i] != (order + Copies(l, k, tail))[j]
  {
    hide ExitId, ExitSuffix, Targeted, Entered;
    if j >= |order| {
      var b := tail[j - |order|];
      assert b in tail;
      if i < |order| {
        assert order[i] in order;
      } else {
        var a := tail[i - |order|];
        assert a in tail;
        OriginalOf(l, k, a);
        OriginalOf(l, k, b);
      }
    }
  }

  lemma CopiesCover(l: Layout, k: int, tail: seq<string>, st: Build, late: set<string>, order: seq<string>, id: string)
    requires k >= -1 && Copyable(l, k) && Tailed(l, tail) && Stacked(st.nodes, late, order) && st.nodes.Keys <= st.ids
      && late <= st.ids
    requires forall key | key in l.tail :: ExitId(l, k, key) !in st.ids
    ensures id in order + Copies(l, k, tail) <==> id in CopyTail(l, k, st).nodes && id !in late
  {
    hide ExitId, ExitSuffix, ExitNode, CopyTail, Copyable, Targeted;
    var copies := Copies(l, k, tail);
    if id in order {
      KeptByCopy(l, k, st, id);
    } else if id in copies {
      var i :| 0 <= i < |copies| && copies[i] == id;
      assert tail[i] in tail;
      CopyAt(l, k, st, tail[i]);
    }
    if id in CopyTail(l, k, st).nodes && id !in late && id !in st.nodes {
      CopiesOnly(l, k, st, id);
      var key :| key in l.tail && id == ExitId(l, k, key);
      assert key in tail;
      var i :| 0 <= i < |tail| && tail[i] == key;
      assert copies[i] == id;
    }
  }

  lemma CopyPrecedes(l: Layout, k: int, tail: seq<string>, st: Build, i: nat, x: string)
    requires k >= -1 && Copyable(l, k) && Tailed(l, tail) && i < |tail| && tail[i] in l.tail
    requires ExitId(l, k, tail[i]) in CopyTail(l, k, st).nodes
      && x in Targeted(CopyTail(l, k, st).nodes[ExitId(l, k, tail[i])])
    ensures x == END || x in Copies(l, k, tail)[..i]
  {
    hide ExitNode, CopyTail;
    var key := tail[i];
    CopyAt(l, k, st, key);
    var node := l.source[key];
    CopyTargets(l, k, node);
    var n :| 0 <= n < |Targeted(node)| && ExitId(l, k, Targeted(node)[n]) == x;
    var y := Targeted(node)[n];
    if y != END {
      assert y in tail[..i];
      var j :| 0 <= j < i && tail[j] == y;
      assert Copies(l, k, tail)[j] == x;
    }
  }

  lemma CopiesEnter(l: Layout, k: int, tail: seq<string>, st: Build, roots: set<string>)
    requires k >= -1 && Copyable(l, k) && Tailed(l, tail) && Entered(st.nodes, roots) && st.nodes.Keys <= st.ids
    requires forall key | key in l.tail :: ExitId(l, k, key) !in st.ids
    ensures Entered(CopyTail(l, k, st).nodes, roots + {ExitId(l, k, l.after)})
  {
    hide ExitId, ExitSuffix, ExitNode, CopyTail, Targeted;
    var b := CopyTail(l, k, st);
    forall id | id in st.nodes ensures id in b.nodes && b.nodes[id] == st.nodes[id] { KeptByCopy(l, k, st, id); }
    forall id | id in b.nodes ensures id in roots + {ExitId(l, k, l.after)} || Pointed(b.nodes, id) {
      if id in st.nodes {
        if Pointed(st.nodes, id) { StillPointed(st.nodes, b.nodes, id); }
      } else {
        CopiesOnly(l, k, st, id);
        var key :| key in l.tail && id == ExitId(l, k, key);
        if key != l.after {
          var p :| p in l.source && key in Targeted(l.source[p]);
          CopyAt(l, k, st, p);
          CopyTargets(l, k, l.source[p]);
          var n :| 0 <= n < |Targeted(l.source[p])| && Targeted(l.source[p])[n] == key;
          assert Targeted(b.nodes[ExitId(l, k, p)])[n] == id;
        }
      }
    }
  }

  // ---------------------------------------------------------------- exits

  /** Where the exits made so far lead, and the after-steps themselves. */
  predicate ExitsGo(l: Layout, st: Build, late: set<string>)
  {
    Goes(st, late, l.after) && forall k | k in st.exits :: Goes(st, late, st.exits[k])
  }

  lemma StillGoes(a: Build, b: Build, late: set<string>, more: set<string>, x: string)
    requires Goes(a, late, x) && Kept(a, b) && forall y | y in more :: y in late || y !in a.nodes
    ensures Goes(b, more, x)
  {
  }

  lemma ExitsGoOn(l: Layout, a: Build, b: Build, late: set<string>, more: set<string>)
    requires ExitsGo(l, a, late) && Kept(a, b) && b.exits == a.exits && forall y | y in more ::
      y in late || y !in a.nodes
    ensures ExitsGo(l, b, more)
  {
  }

  lemma ExitSorts(l: Layout, k: int, tail: seq<string>, st: Build, late: set<string>, roots: set<string>)
    requires k >= -1 && Tailed(l, tail) && Sorted(st, late, roots) && ExitsGo(l, st, late) && ExitEntry(l, k, st).Ok?
    ensures var (target, b) := ExitEntry(l, k, st).value;
      Sorted(b, late, roots + {target}) && Goes(b, late, target) && Onto(st, b) && ExitsGo(l, b, late)
  {
    hide ExitNode, ExitId, CopyTail, Sorted, Tailed;
    var (target, b) := ExitEntry(l, k, st).value;
    ProperIds(st, late, roots);
    if l.tail == {} || k == l.block.chunk - 1 || k in st.exits {
      MoreRoots(st, late, roots, roots + {target});
    } else {
      CopySorted(l, k, tail, st, late, roots);
      CopyOnto(l, k, st);
      AfterIsCopied(l, tail);
      CopyGoes(l, k, st, late, roots);
    }
  }

  lemma CopySorted(l: Layout, k: int, tail: seq<string>, st: Build, late: set<string>, roots: set<string>)
    requires k >= -1 && Tailed(l, tail) && Sorted(st, late, roots) && Copyable(l, k)
    requires forall key | key in l.tail :: ExitId(l, k, key) !in st.ids
    ensures Sorted(CopyTail(l, k, st), late, roots + {ExitId(l, k, l.after)})
  {
    hide ExitNode, ExitId, CopyTail, Copyable, Tailed, Stacked, Entered;
    var order :| Stacked(st.nodes, late, order);
    CopiesStack(l, k, tail, st, late, order);
    CopiesEnter(l, k, tail, st, roots);
    CopyOnto(l, k, st);
    CopyIdsAreProper(l, k, st);
  }

  lemma CopyOnto(l: Layout, k: int, st: Build)
    requires k >= -1 && Copyable(l, k) && st.nodes.Keys <= st.ids
    requires forall key | key in l.tail :: ExitId(l, k, key) !in st.ids
    ensures Onto(st, CopyTail(l, k, st)) && CopyTail(l, k, st).nodes.Keys <= CopyTail(l, k, st).ids
    ensures st.nodes.Keys <= CopyTail(l, k, st).nodes.Keys
  {
    hide ExitNode, ExitId, CopyTail, Copyable;
    var b := CopyTail(l, k, st);
    CopyReserves(l, k, st);
    forall id | id in st.nodes ensures id in b.nodes && b.nodes[id] == st.nodes[id] { KeptByCopy(l, k, st, id); }
    forall id | id in b.nodes && id !in st.nodes ensures id !in st.ids && id in b.ids { CopiesOnly(l, k, st, id); }
  }

  lemma CopyReserves(l: Layout, k: int, st: Build)
    requires k >= -1 && Copyable(l, k)
    ensures st.ids <= CopyTail(l, k, st).ids
    ensures forall key | key in l.tail :: ExitId(l, k, key) in CopyTail(l, k, st).ids
  {
    hide ExitNode;
    forall key | key in l.tail ensures ExitId(l, k, key) in ExitIds(l, k) {
    }
  }

  lemma CopyGoes(l: Layout, k: int, st: Build, late: set<string>, roots: set<string>)
    requires k >= -1 && Copyable(l, k) && l.after in l.tail && ExitsGo(l, st, late) && Onto(st, CopyTail(l, k, st))
    requires late <= st.nodes.Keys <= st.ids
    requires forall key | key in l.tail :: ExitId(l, k, key) !in st.ids
    ensures Goes(CopyTail(l, k, st), late, ExitId(l, k, l.after)) && ExitsGo(l, CopyTail(l, k, st), late)
  {
    hide ExitNode, ExitId;
    CopyAt(l, k, st, l.after);
  }

  lemma AfterIsCopied(l: Layout, tail: seq<string>)
    requires Tailed(l, tail) && l.tail != {}
    ensures l.after in l.tail
  {
    if l.after == END {
      var last := |tail| - 1;
      var key :| key in l.tail;
      assert key in tail;
      assert tail[last] in tail;
      if Pointed(l.source, tail[last]) {
        var j := Above(l.source, tail, last);
      }
      assert false;
    }
  }

  lemma CopyIdsAreProper(l: Layout, k: int, st: Build)
    requires k >= -1 && Copyable(l, k) && END !in st.ids && "" !in st.ids
    ensures END !in CopyTail(l, k, st).ids && "" !in CopyTail(l, k, st).ids
  {
    forall key | key in l.tail ensures ExitId(l, k, key) != END && ExitId(l, k, key) != "" { ExitIdDiffers(l, k, key); }
  }
}
