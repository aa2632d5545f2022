/** Copied after-steps are realized like the originals, under their new names. */
module Copies {
  import opened Json
  import opened Plan
  import opened Graph
  import opened Meaning
  import opened Compiler
  import opened Discipline
  import opened Exiting
  import opened Realization
  import opened Construction
  import opened Growth

  /** Each of the given nodes of one build stands in the other as its exit image. */
  predicate Imaged(keys: set<string>, l: Layout, k: int, src: Build, fin: Build)
  {
    && k >= -1 && Sound(src) && Closed(src.nodes, keys, [])
    && forall key | key in keys ::
         ExitNode(l, k, src.nodes[key]).Ok? && Holds(fin, ExitId(l, k, key), ExitNode(l, k, src.nodes[key]).value, "")
  }

  /** Images of inner ids are nobody's reference. */
  predicate Unseen(keys: set<string>, l: Layout, k: int, src: Build, vis: set<string>)
    requires k >= -1
  {
    forall key | key in keys && key in src.inner :: ExitId(l, k, key) !in vis
  }

  function Plainly(src: Build): set<string> { src.ids - src.inner }

  lemma LabelImage(keys: set<string>, l: Layout, k: int, src: Build, vis: set<string>, id: Option<string>,
      entry: string)
    requires k >= -1 && Unseen(keys, l, k, src, vis) && entry in keys && entry in src.ids
    requires Labelled(id, entry, Plainly(src))
    ensures Labelled(ExitLabel(l, k, id), ExitId(l, k, entry), vis)
  {
  }

  lemma {:induction false} ImageRealizes(keys: set<string>, l: Layout, k: int, src: Build, fin: Build, vis: set<string>,
                                         op: Op, entry: string, after: string)
    requires Imaged(keys, l, k, src, fin) && Unseen(keys, l, k, src, vis)
    requires Realizes(src, Plainly(src), op, entry, after, "") && Plain(op)
    requires entry in src.nodes ==> entry in keys
    ensures ExitOp(l, k, op).Ok?
    ensures Realizes(fin, vis, ExitOp(l, k, op).value, ExitId(l, k, entry), ExitId(l, k, after), "")
    ensures after in src.nodes ==> after in keys
    decreases op, 1
  {
    match op
    case Call(id, target, args, undo) =>
      LabelImage(keys, l, k, src, vis, id, entry);
      AfterInKeys(src, keys, entry, after);
    case Wait(id, seconds) =>
      LabelImage(keys, l, k, src, vis, id, entry);
      AfterInKeys(src, keys, entry, after);
    case Sequence(steps) => ImageRealizesAll(keys, l, k, src, fin, vis, steps, entry, after);
    case Condition(_, _, _, _) => ConditionImage(keys, l, k, src, fin, vis, op, entry, after);
  }

  lemma AfterInKeys(src: Build, keys: set<string>, entry: string, after: string)
    requires Sound(src) && Closed(src.nodes, keys, []) && entry in keys
    requires (src.nodes[entry].Task? || src.nodes[entry].Sleep?) && src.nodes[entry].next == after
    ensures after in src.nodes ==> after in keys
  {
    if after in src.nodes {
      assert after in Successors(src.nodes[entry]);
    }
  }

  lemma {:induction false} ConditionImage(keys: set<string>, l: Layout, k: int, src: Build, fin: Build,
      vis: set<string>,
                                          op: Op, entry: string, after: string)
    requires Imaged(keys, l, k, src, fin) && Unseen(keys, l, k, src, vis)
    requires op.Condition? && Realizes(src, Plainly(src), op, entry, after, "") && Plain(op)
    requires entry in src.nodes ==> entry in keys
    ensures ExitOp(l, k, op).Ok?
    ensures Realizes(fin, vis, ExitOp(l, k, op).value, ExitId(l, k, entry), ExitId(l, k, after), "")
    ensures after in src.nodes ==> after in keys
    decreases op, 0
  {
    var id, when, steps, otherwise := op.id, op.when, op.steps, op.otherwise;
    var yes, no :| Labelled(id, entry, Plainly(src)) && Holds(src, entry, Switch([Case(when, yes)], no), "")
      && RealizesAll(src, Plainly(src), steps, yes, after, "")
      && RealizesAll(src, Plainly(src), otherwise, no, after, "");
    LabelImage(keys, l, k, src, vis, id, entry);
    SwitchImage(l, k, when, yes, no);
    TargetsInKeys(src, keys, entry, when, yes, no);
    ImageRealizesAll(keys, l, k, src, fin, vis, steps, yes, after);
    ImageRealizesAll(keys, l, k, src, fin, vis, otherwise, no, after);
    var yes', no' := ExitId(l, k, yes), ExitId(l, k, no);
    assert Labelled(ExitLabel(l, k, id), ExitId(l, k, entry), vis)
      && Holds(fin, ExitId(l, k, entry), Switch([Case(ExitCond(l, k, when).value, yes')], no'), "");
  }

  lemma SwitchImage(l: Layout, k: int, when: Cond, yes: string, no: string)
    requires k >= -1 && ExitNode(l, k, Switch([Case(when, yes)], no)).Ok?
    ensures ExitCond(l, k, when).Ok?
    ensures ExitNode(l, k, Switch([Case(when, yes)], no)).value
         == Switch([Case(ExitCond(l, k, when).value, ExitId(l, k, yes))], ExitId(l, k, no))
  {
    var cases := [Case(when, yes)];
    assert cases[1..] == [];
    assert ExitCases(l, k, cases[1..]) == Ok([]);
    var c := Case(ExitCond(l, k, when).value, ExitId(l, k, yes));
    assert [c] + [] == [c];
  }

  lemma TargetsInKeys(src: Build, keys: set<string>, entry: string, when: Cond, yes: string, no: string)
    requires Sound(src) && Closed(src.nodes, keys, []) && entry in keys
      && src.nodes[entry] == Switch([Case(when, yes)], no)
    ensures (yes in src.nodes ==> yes in keys) && (no in src.nodes ==> no in keys)
  {
    var cases := [Case(when, yes)];
    assert Targets(cases)[0] == yes;
    assert (Targets(cases) + [no])[0] == yes && (Targets(cases) + [no])[1] == no;
    if yes in src.nodes { assert yes in Successors(src.nodes[entry]); }
    if no in src.nodes { assert no in Successors(src.nodes[entry]); }
  }

  lemma {:induction false} ImageRealizesAll(keys: set<string>, l: Layout, k: int, src: Build, fin: Build,
      vis: set<string>,
                                            ops: seq<Op>, entry: string, after: string)
    requires Imaged(keys, l, k, src, fin) && Unseen(keys, l, k, src, vis)
    requires RealizesAll(src, Plainly(src), ops, entry, after, "") && AllPlain(ops)
    requires entry in src.nodes ==> entry in keys
    ensures ExitOps(l, k, ops).Ok?
    ensures RealizesAll(fin, vis, ExitOps(l, k, ops).value, ExitId(l, k, entry), ExitId(l, k, after), "")
    ensures after in src.nodes ==> after in keys
    decreases ops, 2
  {
    if ops != [] {
      var mid :| Realizes(src, Plainly(src), ops[0], entry, mid, "")
        && RealizesAll(src, Plainly(src), ops[1..], mid, after, "");
      ImageRealizes(keys, l, k, src, fin, vis, ops[0], entry, mid);
      ImageRealizesAll(keys, l, k, src, fin, vis, ops[1..], mid, after);
      var first, rest := ExitOp(l, k, ops[0]).value, ExitOps(l, k, ops[1..]).value;
      assert ([first] + rest)[1..] == rest;
      assert Realizes(fin, vis, first, ExitId(l, k, entry), ExitId(l, k, mid), "");
    }
  }
}
