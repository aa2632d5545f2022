/** Compilation only ever adds nodes under fresh ids, and what it adds realizes the operation. */
module Construction {
  import opened Json
  import opened Plan
  import opened Graph
  import opened Meaning
  import opened Compiler
  import opened Discipline
  import opened Realization

  predicate Sound(st: Build)
  {
    && END !in st.ids && "" !in st.ids
    && st.nodes.Keys <= st.ids
    && st.inner <= st.ids
    && st.scopes.Keys == st.nodes.Keys
    && st.joins.Keys <= st.nodes.Keys
    && JoinsAreJoins(st)
  }

  predicate Keeps(a: Build, b: Build)
  {
    && a.ids <= b.ids
    && (forall id | id in a.nodes :: id in b.nodes && b.nodes[id] == a.nodes[id])
    && (forall id | id in a.scopes :: id in b.scopes && b.scopes[id] == a.scopes[id])
    && (forall t | t in a.joins :: t in b.joins && b.joins[t] == a.joins[t])
  }

  /** New nodes have new ids. */
  predicate FreshNodes(a: Build, b: Build)
  {
    forall id | id in b.nodes && id !in a.nodes :: id !in a.ids
  }

  /** New branch results are exposed by new joins. */
  predicate FreshJoins(a: Build, b: Build)
  {
    forall t | t in b.joins && t !in a.joins :: b.joins[t].0 !in a.ids
  }

  /** New inner ids are new ids. */
  predicate FreshInner(a: Build, b: Build)
  {
    a.inner <= b.inner && forall x | x in b.inner :: x in a.inner || x !in a.ids
  }

  predicate Grows(a: Build, b: Build) { Keeps(a, b) && FreshNodes(a, b) && FreshJoins(a, b) && FreshInner(a, b) }

  /** The second build adds to the first, reserving the given ids for the plan's own use. */
  predicate Extends(a: Build, b: Build, own: set<string>)
  {
    Sound(b) && Grows(a, b) && own <= b.ids - a.ids && own !! b.inner && b.exits == a.exits
  }

  lemma ExtendsThrough(a: Build, b: Build, c: Build, first: set<string>, second: set<string>)
    requires Extends(a, b, first) && Extends(b, c, second)
    ensures Extends(a, c, first + second)
  {
  }

  /** Filling a reserved id once everything it points to is compiled. */
  lemma AddReserved(a: Build, id: Option<string>, c: Build, own: set<string>, node: Draft, scope: string)
    requires Sound(a) && Reserve(a, id).Ok? && Extends(Reserve(a, id).value.1, c, own)
    requires !node.Join?
    ensures Extends(a, Add(c, Reserve(a, id).value.0, node, scope), Named(id) + own)
    ensures Keeps(c, Add(c, Reserve(a, id).value.0, node, scope))
    ensures Reserve(a, id).value.0 !in own
  {
    var nid := Reserve(a, id).value.0;
    assert nid !in c.nodes;
  }

  lemma {:induction false} CompileExtends(op: Op, after: string, scope: string, st: Build)
    requires Sound(st) && CompileOp(op, after, scope, st).Ok?
    ensures Extends(st, CompileOp(op, after, scope, st).value.1, Ids(op))
    decreases op, 1
  {
    hide Extends, Sound;
    match op
    case Call(id, target, args, undo) => LeafExtends(st, id, Task(Capability(target, args), after, undo), scope);
    case Wait(id, seconds) => LeafExtends(st, id, Sleep(seconds, after), scope);
    case Sequence(steps) => CompileAllExtends(steps, after, scope, st);
    case Condition(_, _, _, _) => ConditionExtends(op, after, scope, st);
    case Parallel(_, _) => ParallelExtends(op, after, scope, st);
  }

  lemma LeafExtends(st: Build, id: Option<string>, node: Draft, scope: string)
    requires Sound(st) && Reserve(st, id).Ok? && !node.Join?
    ensures Extends(st, Add(Reserve(st, id).value.1, Reserve(st, id).value.0, node, scope), Named(id))
  {
  }

  lemma {:induction false} ConditionExtends(op: Op, after: string, scope: string, st: Build)
    requires op.Condition? && Sound(st) && CompileOp(op, after, scope, st).Ok?
    ensures Extends(st, CompileOp(op, after, scope, st).value.1, Ids(op))
    decreases op, 0
  {
    var id, steps, otherwise := op.id, op.steps, op.otherwise;
    var (nid, st1) := Reserve(st, id).value;
    CompileAllExtends(steps, after, scope, st1);
    var (yes, st2) := CompileOps(steps, after, scope, st1).value;
    CompileAllExtends(otherwise, after, scope, st2);
    var (no, st3) := CompileOps(otherwise, after, scope, st2).value;
    ExtendsThrough(st1, st2, st3, IdsOf(steps), IdsOf(otherwise));
    AddReserved(st, id, st3, IdsOf(steps) + IdsOf(otherwise), Switch([Case(op.when, yes)], no), scope);
    assert Named(id) + (IdsOf(steps) + IdsOf(otherwise)) == Ids(op);
  }

  lemma {:induction false} ParallelExtends(op: Op, after: string, scope: string, st: Build)
    requires op.Parallel? && Sound(st) && CompileOp(op, after, scope, st).Ok?
    ensures Extends(st, CompileOp(op, after, scope, st).value.1, Ids(op))
    decreases op, 0
  {
    var id, branches := op.id, op.branches;
    var (nid, st1) := Reserve(st, id).value;
    var join := nid + "_join";
    var st2 := Reserve(st1, Some(join)).value.1;
    var start := Add(Own(st2, join), join, Join(after), scope);
    CompileBranchesExtends(branches, 0, nid, join, scope, start);
    var (entries, st3) := CompileBranches(branches, 0, nid, join, scope, start).value;
    JoinExtends(st1, join, Join(after), scope, st3, IdsOf(branches));
    AddReserved(st, id, st3, IdsOf(branches), Split(entries, join), scope);
  }

  lemma JoinExtends(st: Build, join: string, node: Draft, scope: string, c: Build, own: set<string>)
    requires Sound(st) && Reserve(st, Some(join)).Ok? && node.Join?
    requires ExtendsWithin(Add(Own(Reserve(st, Some(join)).value.1, join), join, node, scope), c, own, join)
    ensures Extends(st, c, own) && join !in own
  {
  }

  lemma {:induction false} CompileAllExtends(ops: seq<Op>, after: string, scope: string, st: Build)
    requires Sound(st) && CompileOps(ops, after, scope, st).Ok?
    ensures Extends(st, CompileOps(ops, after, scope, st).value.1, IdsOf(ops))
    decreases ops, 2
  {
    if ops != [] {
      CompileAllExtends(ops[1..], after, scope, st);
      var (entry, st1) := CompileOps(ops[1..], after, scope, st).value;
      CompileExtends(ops[0], entry, scope, st1);
    }
  }

  /** As for operations, except that new branch results may be exposed by the given join. */
  predicate ExtendsWithin(a: Build, b: Build, own: set<string>, join: string)
  {
    && Sound(b) && Keeps(a, b) && FreshNodes(a, b) && FreshInner(a, b) && own <= b.ids - a.ids && own !! b.inner
    && b.exits == a.exits
    && forall t | t in b.joins && t !in a.joins :: b.joins[t].0 == join || b.joins[t].0 !in a.ids
  }

  lemma {:induction false} CompileBranchesExtends(branches: seq<Op>, index: nat, nid: string, join: string,
      scope: string, st: Build)
    requires Sound(st) && CompileBranches(branches, index, nid, join, scope, st).Ok?
    requires join in st.nodes && st.nodes[join].Join?
    ensures ExtendsWithin(st, CompileBranches(branches, index, nid, join, scope, st).value.1, IdsOf(branches), join)
    decreases branches, 2
  {
    if branches != [] {
      var bs := BranchScope(scope, nid, index);
      CompileExtends(branches[0], END, bs, st);
      var (entry, st1) := CompileOp(branches[0], END, bs, st).value;
      var st2 := st1.(joins := Expose(st1.joins, Terminals(st1.nodes, st.ids), join, index));
      assert ExtendsWithin(st, st2, Ids(branches[0]), join);
      CompileBranchesExtends(branches[1..], index + 1, nid, join, scope, st2);
    }
  }

  // ---------------------------------------------------------------- ends of executions

  /** The new nodes that end their execution are the given ones and the compiler's own. */
  predicate ExactEnds(a: Build, b: Build, ends: set<string>)
  {
    ends <= Terminals(b.nodes, a.ids) && forall t | t in Terminals(b.nodes, a.ids) :: t in ends || t in b.inner
  }

  /** A compiled operation ends its execution at exactly the calls and waits it can end at. */
  lemma {:induction false} EndsAre(op: Op, after: string, scope: string, st: Build)
    requires Sound(st) && CompileOp(op, after, scope, st).Ok?
    ensures ExactEnds(st, CompileOp(op, after, scope, st).value.1, EndIds(op, after == END))
    ensures CompileOp(op, after, scope, st).value.0 == END <==> after == END && Idle(op)
    decreases op, 1
  {
    match op
    case Call(id, target, args, undo) =>
    case Wait(_, _) =>
    case Sequence(steps) => EndsOfAll(steps, after, scope, st);
    case Condition(_, _, _, _) => EndsOfCondition(op, after, scope, st);
    case Parallel(_, _) => EndsOfParallel(op, after, scope, st);
  }

  lemma {:induction false} EndsOfCondition(op: Op, after: string, scope: string, st: Build)
    requires op.Condition? && Sound(st) && CompileOp(op, after, scope, st).Ok?
    ensures ExactEnds(st, CompileOp(op, after, scope, st).value.1, EndIds(op, after == END))
    ensures CompileOp(op, after, scope, st).value.0 != END
    decreases op, 0
  {
    hide ExactEnds, Extends, Sound, Terminals;
    var id, steps, otherwise := op.id, op.steps, op.otherwise;
    var (nid, st1) := Reserve(st, id).value;
    ReservedIsSound(st, id);
    EndsOfAll(steps, after, scope, st1);
    CompileAllExtends(steps, after, scope, st1);
    var (yes, st2) := CompileOps(steps, after, scope, st1).value;
    assert Sound(st2) by { ExtendedIsSound(st1, st2, IdsOf(steps)); }
    EndsOfAll(otherwise, after, scope, st2);
    CompileAllExtends(otherwise, after, scope, st2);
    var (no, st3) := CompileOps(otherwise, after, scope, st2).value;
    EndsAdd(st1, st2, st3, IdsOf(steps), IdsOf(otherwise), EndIdsOf(steps, after == END),
      EndIdsOf(otherwise, after == END));
    ExtendsThrough(st1, st2, st3, IdsOf(steps), IdsOf(otherwise));
    SwitchEndsNothing(st, id, st3, IdsOf(steps) + IdsOf(otherwise), [Case(op.when, yes)], no, scope,
      EndIds(op, after == END));
  }

  lemma ReservedIsSound(st: Build, id: Option<string>)
    requires Sound(st) && Reserve(st, id).Ok?
    ensures Sound(Reserve(st, id).value.1) && Reserve(st, id).value.0 != END
  {
  }

  lemma ExtendedIsSound(a: Build, b: Build, own: set<string>)
    requires Extends(a, b, own)
    ensures Sound(b)
  {
  }

  /** Ends of what was compiled first, and of what was compiled next. */
  lemma EndsAdd(a: Build, b: Build, c: Build, first: set<string>, second: set<string>, ends: set<string>,
      more: set<string>)
    requires Sound(a) && Extends(a, b, first) && Extends(b, c, second) && ExactEnds(a, b, ends) && ExactEnds(b, c, more)
    ensures ExactEnds(a, c, ends + more)
  {
    TerminalsSplit(a, b, c, first, second);
  }

  lemma SwitchEndsNothing(st: Build, id: Option<string>, c: Build, own: set<string>, cases: seq<Case<Operand>>,
      default: string, scope: string, ends: set<string>)
    requires Sound(st) && Reserve(st, id).Ok? && Extends(Reserve(st, id).value.1, c, own)
    requires ExactEnds(Reserve(st, id).value.1, c, ends)
    ensures ExactEnds(st, Add(c, Reserve(st, id).value.0, Switch(cases, default), scope), ends)
  {
  }

  lemma {:induction false} EndsOfAll(ops: seq<Op>, after: string, scope: string, st: Build)
    requires Sound(st) && CompileOps(ops, after, scope, st).Ok?
    ensures ExactEnds(st, CompileOps(ops, after, scope, st).value.1, EndIdsOf(ops, after == END))
    ensures CompileOps(ops, after, scope, st).value.0 == END <==> after == END && AllIdle(ops)
    decreases ops, 2
  {
    hide Extends, Sound, CompileOp, Terminals;
    if ops == [] {
      assert ExactEnds(st, st, {}) by { NothingEnds(st); }
    } else {
      EndsOfAll(ops[1..], after, scope, st);
      CompileAllExtends(ops[1..], after, scope, st);
      var (entry, st1) := CompileOps(ops[1..], after, scope, st).value;
      assert Sound(st1) by { ExtendedIsSound(st, st1, IdsOf(ops[1..])); }
      EndsAre(ops[0], entry, scope, st1);
      CompileExtends(ops[0], entry, scope, st1);
      var st2 := CompileOp(ops[0], entry, scope, st1).value.1;
      EndsAdd(st, st1, st2, IdsOf(ops[1..]), Ids(ops[0]), EndIdsOf(ops[1..], after == END),
        EndIds(ops[0], entry == END));
      assert EndIdsOf(ops, after == END) == EndIdsOf(ops[1..], after == END) + EndIds(ops[0], entry == END);
    }
  }

  lemma NothingEnds(st: Build)
    requires Sound(st)
    ensures ExactEnds(st, st, {})
  {
  }

  lemma {:induction false} EndsOfParallel(op: Op, after: string, scope: string, st: Build)
    requires op.Parallel? && Sound(st) && CompileOp(op, after, scope, st).Ok?
    ensures ExactEnds(st, CompileOp(op, after, scope, st).value.1, EndIds(op, after == END))
    ensures CompileOp(op, after, scope, st).value.0 != END
    decreases op, 0
  {
    hide CompileBranches, ExactEnds;
    var id, branches := op.id, op.branches;
    var (nid, st1) := Reserve(st, id).value;
    var join := nid + "_join";
    var st2 := Reserve(st1, Some(join)).value.1;
    var start := Add(Own(st2, join), join, Join(after), scope);
    CompileBranchesExtends(branches, 0, nid, join, scope, start);
    EndsOfBranches(branches, 0, nid, join, scope, start);
    var (entries, st3) := CompileBranches(branches, 0, nid, join, scope, start).value;
    SplitEnds(st, id, after, scope, st3, IdsOf(branches), entries, EndIdsIn(branches));
  }

  /** Around its branches a parallel adds a split, which ends nothing, and a join of its own. */
  lemma SplitEnds(st: Build, id: Option<string>, after: string, scope: string, st3: Build, own: set<string>,
      entries: seq<string>, ends: set<string>)
    requires Sound(st) && Reserve(st, id).Ok?
    requires var (nid, st1) := Reserve(st, id).value;
      && Reserve(st1, Some(nid + "_join")).Ok?
      && (var start :=
        Add(Own(Reserve(st1, Some(nid + "_join")).value.1, nid + "_join"), nid + "_join", Join(after), scope);
          ExtendsWithin(start, st3, own, nid + "_join") && ExactEnds(start, st3, ends))
    ensures var nid := Reserve(st, id).value.0;
      ExactEnds(st, Add(st3, nid, Split(entries, nid + "_join"), scope), ends) && nid != END
  {
  }

  lemma {:induction false} EndsOfBranches(branches: seq<Op>, index: nat, nid: string, join: string, scope: string,
      st: Build)
    requires Sound(st) && CompileBranches(branches, index, nid, join, scope, st).Ok? && join in st.nodes
      && st.nodes[join].Join?
    ensures ExactEnds(st, CompileBranches(branches, index, nid, join, scope, st).value.1, EndIdsIn(branches))
    decreases branches, 2
  {
    hide CompileOp, Extends, Terminals;
    if branches == [] {
      NothingEnds(st);
    } else {
      var bs := BranchScope(scope, nid, index);
      EndsAre(branches[0], END, bs, st);
      BranchExtends(branches[0], index, nid, join, scope, st);
      var st1 := CompileOp(branches[0], END, bs, st).value.1;
      var st2 := AfterBranch(branches[0], index, nid, join, scope, st);
      EndsOfBranches(branches[1..], index + 1, nid, join, scope, st2);
      CompileBranchesExtends(branches[1..], index + 1, nid, join, scope, st2);
      var st3 := CompileBranches(branches[1..], index + 1, nid, join, scope, st2).value.1;
      EndsAfter(st, st1, st2, st3, join, EndIds(branches[0], true), EndIdsIn(branches[1..]), Ids(branches[0]),
        IdsOf(branches[1..]));
    }
  }

  lemma EndsAfter(st: Build, st1: Build, st2: Build, st3: Build, join: string, ends: set<string>, more: set<string>,
      first: set<string>, second: set<string>)
    requires Sound(st) && ExactEnds(st, st1, ends) && st2 == st1.(joins := st2.joins) && ExactEnds(st2, st3, more)
    requires Extends(st, st1, first) && ExtendsWithin(st2, st3, second, join)
    ensures ExactEnds(st, st3, ends + more)
  {
  }

  lemma TerminalsSplit(st: Build, st1: Build, st2: Build, first: set<string>, second: set<string>)
    requires Sound(st) && Extends(st, st1, first) && Extends(st1, st2, second)
    ensures Terminals(st2.nodes, st.ids) == Terminals(st1.nodes, st.ids) + Terminals(st2.nodes, st1.ids)
  {
  }

  // ---------------------------------------------------------------- scopes

  /** New nodes lie in the scope or deeper. */
  predicate Beneath(a: Build, b: Build, scope: string)
  {
    forall id | id in b.scopes && id !in a.scopes :: |b.scopes[id]| >= |scope|
  }

  lemma BeneathThrough(a: Build, b: Build, c: Build, scope: string)
    requires Beneath(a, b, scope) && Beneath(b, c, scope) && Stays(b, c)
    ensures Beneath(a, c, scope)
  {
  }

  lemma {:induction false} CompilesBeneath(op: Op, after: string, scope: string, st: Build)
    requires Sound(st) && CompileOp(op, after, scope, st).Ok?
    ensures Beneath(st, CompileOp(op, after, scope, st).value.1, scope)
    decreases op, 1
  {
    match op
    case Call(_, _, _, _) =>
    case Wait(_, _) =>
    case Sequence(steps) => AllCompileBeneath(steps, after, scope, st);
    case Condition(id, when, steps, otherwise) =>
      var (nid, st1) := Reserve(st, id).value;
      AllCompileBeneath(steps, after, scope, st1);
      CompileAllExtends(steps, after, scope, st1);
      var (yes, st2) := CompileOps(steps, after, scope, st1).value;
      AllCompileBeneath(otherwise, after, scope, st2);
      CompileAllExtends(otherwise, after, scope, st2);
      BeneathThrough(st1, st2, CompileOps(otherwise, after, scope, st2).value.1, scope);
    case Parallel(_, _) => ParallelCompilesBeneath(op, after, scope, st);
  }

  lemma {:induction false} AllCompileBeneath(ops: seq<Op>, after: string, scope: string, st: Build)
    requires Sound(st) && CompileOps(ops, after, scope, st).Ok?
    ensures Beneath(st, CompileOps(ops, after, scope, st).value.1, scope)
    decreases ops, 2
  {
    if ops != [] {
      AllCompileBeneath(ops[1..], after, scope, st);
      CompileAllExtends(ops[1..], after, scope, st);
      var (entry, st1) := CompileOps(ops[1..], after, scope, st).value;
      CompilesBeneath(ops[0], entry, scope, st1);
      CompileExtends(ops[0], entry, scope, st1);
      BeneathThrough(st, st1, CompileOp(ops[0], entry, scope, st1).value.1, scope);
    }
  }

  lemma {:induction false} ParallelCompilesBeneath(op: Op, after: string, scope: string, st: Build)
    requires op.Parallel? && Sound(st) && CompileOp(op, after, scope, st).Ok?
    ensures Beneath(st, CompileOp(op, after, scope, st).value.1, scope)
    decreases op, 0
  {
    hide CompileBranches;
    var id, branches := op.id, op.branches;
    var (nid, st1) := Reserve(st, id).value;
    var join := nid + "_join";
    var st2 := Reserve(st1, Some(join)).value.1;
    var start := Add(Own(st2, join), join, Join(after), scope);
    BranchesCompileBeneath(branches, 0, nid, join, scope, start);
    CompileBranchesExtends(branches, 0, nid, join, scope, start);
    assert Beneath(st, start, scope);
    BeneathThrough(st, start, CompileBranches(branches, 0, nid, join, scope, start).value.1, scope);
  }

  lemma {:induction false} BranchesCompileBeneath(branches: seq<Op>, index: nat, nid: string, join: string,
      scope: string, st: Build)
    requires Sound(st) && CompileBranches(branches, index, nid, join, scope, st).Ok? && join in st.nodes
      && st.nodes[join].Join?
    ensures Beneath(st, CompileBranches(branches, index, nid, join, scope, st).value.1, scope)
    decreases branches, 2
  {
    if branches != [] {
      var bs := BranchScope(scope, nid, index);
      CompilesBeneath(branches[0], END, bs, st);
      BranchExtends(branches[0], index, nid, join, scope, st);
      var st2 := AfterBranch(branches[0], index, nid, join, scope, st);
      BranchesCompileBeneath(branches[1..], index + 1, nid, join, scope, st2);
      CompileBranchesExtends(branches[1..], index + 1, nid, join, scope, st2);
      var st3 := CompileBranches(branches[1..], index + 1, nid, join, scope, st2).value.1;
      assert |bs| >= |scope|;
      BeneathThrough(st, st2, st3, scope);
    }
  }

  // ---------------------------------------------------------------- realization

  /** Nodes and scopes stay; branch results may be exposed anew, further out. */
  predicate Stays(a: Build, b: Build)
  {
    && a.ids <= b.ids
    && (forall id | id in a.nodes :: id in b.nodes && b.nodes[id] == a.nodes[id])
    && (forall id | id in a.scopes :: id in b.scopes && b.scopes[id] == a.scopes[id])
  }

  /** What a later build keeps: at top level, where a parallel was compiled, its branch results too. */
  predicate Lasts(a: Build, b: Build, exposes: bool)
  {
    Stays(a, b) && (exposes ==> Keeps(a, b) && FreshJoins(a, b))
  }

  lemma LastsThrough(a: Build, b: Build, fin: Build, exposes: bool, less: bool)
    requires Keeps(a, b) && FreshJoins(a, b) && Lasts(b, fin, exposes) && (less ==> exposes)
    ensures Lasts(a, fin, less)
  {
  }

  /** A compiled operation is realized in every later build. */
  lemma {:induction false} CompileRealizes(op: Op, after: string, scope: string, st: Build, fin: Build,
      vis: set<string>)
    requires Sound(st) && CompileOp(op, after, scope, st).Ok?
    requires Lasts(CompileOp(op, after, scope, st).value.1, fin, scope == "" && !NoParallel(op))
    requires vis !! fin.inner && CompileOp(op, after, scope, st).value.1.inner <= fin.inner
    ensures Realizes(fin, vis, op, CompileOp(op, after, scope, st).value.0, after, scope)
    decreases op, 1
  {
    match op
    case Call(_, _, _, _) => CompileExtends(op, after, scope, st);
    case Wait(_, _) => CompileExtends(op, after, scope, st);
    case Sequence(steps) => CompileRealizesAll(steps, after, scope, st, fin, vis);
    case Condition(_, _, _, _) => ConditionRealizes(op, after, scope, st, fin, vis);
    case Parallel(_, _) => ParallelRealizes(op, after, scope, st, fin, vis);
  }

  lemma {:induction false} ConditionRealizes(op: Op, after: string, scope: string, st: Build, fin: Build,
      vis: set<string>)
    requires op.Condition? && Sound(st) && CompileOp(op, after, scope, st).Ok?
    requires Lasts(CompileOp(op, after, scope, st).value.1, fin, scope == "" && !NoParallel(op))
    requires vis !! fin.inner && CompileOp(op, after, scope, st).value.1.inner <= fin.inner
    ensures Realizes(fin, vis, op, CompileOp(op, after, scope, st).value.0, after, scope)
    decreases op, 0
  {
    hide Lasts;
    var id, when, steps, otherwise := op.id, op.when, op.steps, op.otherwise;
    var (nid, st1) := Reserve(st, id).value;
    CompileAllExtends(steps, after, scope, st1);
    var (yes, st2) := CompileOps(steps, after, scope, st1).value;
    CompileAllExtends(otherwise, after, scope, st2);
    var (no, st3) := CompileOps(otherwise, after, scope, st2).value;
    ExtendsThrough(st1, st2, st3, IdsOf(steps), IdsOf(otherwise));
    AddReserved(st, id, st3, IdsOf(steps) + IdsOf(otherwise), Switch([Case(when, yes)], no), scope);
    var st4 := Add(st3, nid, Switch([Case(when, yes)], no), scope);
    LastsThrough(st3, st4, fin, scope == "" && !NoParallel(op), scope == "" && !NoParallel(op));
    LastsThrough(st3, st4, fin, scope == "" && !NoParallel(op), scope == "" && !NoParallels(otherwise));
    LastsThrough(st2, st3, fin, scope == "" && !NoParallel(op), scope == "" && !NoParallels(steps));
    assert id.None? ==> nid in fin.inner;
    CompileRealizesAll(steps, after, scope, st1, fin, vis);
    CompileRealizesAll(otherwise, after, scope, st2, fin, vis);
    assert Holds(fin, nid, Switch([Case(when, yes)], no), scope) by {
      LastsHolds(st4, fin, scope == "" && !NoParallel(op), nid, Switch([Case(when, yes)], no), scope); }
    assert Labelled(id, nid, vis);
  }

  lemma LastsHolds(a: Build, fin: Build, exposes: bool, id: string, node: Draft, scope: string)
    requires Lasts(a, fin, exposes) && Holds(a, id, node, scope)
    ensures Holds(fin, id, node, scope)
  {
  }

  lemma {:induction false} CompileRealizesAll(ops: seq<Op>, after: string, scope: string, st: Build, fin: Build,
      vis: set<string>)
    requires Sound(st) && CompileOps(ops, after, scope, st).Ok?
    requires Lasts(CompileOps(ops, after, scope, st).value.1, fin, scope == "" && !NoParallels(ops))
    requires vis !! fin.inner && CompileOps(ops, after, scope, st).value.1.inner <= fin.inner
    ensures RealizesAll(fin, vis, ops, CompileOps(ops, after, scope, st).value.0, after, scope)
    decreases ops, 2
  {
    hide Lasts;
    if ops != [] {
      CompileAllExtends(ops[1..], after, scope, st);
      var (mid, st1) := CompileOps(ops[1..], after, scope, st).value;
      CompileExtends(ops[0], mid, scope, st1);
      var (entry, st2) := CompileOp(ops[0], mid, scope, st1).value;
      LastsThrough(st1, st2, fin, scope == "" && !NoParallels(ops), scope == "" && !NoParallels(ops[1..]));
      LastsLess(st2, fin, scope == "" && !NoParallels(ops), scope == "" && !NoParallel(ops[0]));
      CompileRealizesAll(ops[1..], after, scope, st, fin, vis);
      CompileRealizes(ops[0], mid, scope, st1, fin, vis);
    }
  }

  lemma LastsLess(a: Build, b: Build, exposes: bool, less: bool)
    requires Lasts(a, b, exposes) && (less ==> exposes)
    ensures Lasts(a, b, less)
  {
  }

  /** The state after a branch is compiled and what it can end at exposed. */
  function AfterBranch(branch: Op, index: nat, nid: string, join: string, scope: string, st: Build): Build
    requires CompileOp(branch, END, BranchScope(scope, nid, index), st).Ok?
  {
    var st1 := CompileOp(branch, END, BranchScope(scope, nid, index), st).value.1;
    st1.(joins := Expose(st1.joins, Terminals(st1.nodes, st.ids), join, index))
  }

  lemma {:induction false} BranchExtends(branch: Op, index: nat, nid: string, join: string, scope: string, st: Build)
    requires Sound(st) && CompileOp(branch, END, BranchScope(scope, nid, index), st).Ok?
    requires join in st.nodes && st.nodes[join].Join?
    ensures Extends(st, CompileOp(branch, END, BranchScope(scope, nid, index), st).value.1, Ids(branch))
    ensures ExtendsWithin(st, AfterBranch(branch, index, nid, join, scope, st), Ids(branch), join)
    decreases branch, 2
  {
    CompileExtends(branch, END, BranchScope(scope, nid, index), st);
  }

  lemma {:induction false} ParallelRealizes(op: Op, after: string, scope: string, st: Build, fin: Build,
      vis: set<string>)
    requires op.Parallel? && Sound(st) && CompileOp(op, after, scope, st).Ok?
    requires Lasts(CompileOp(op, after, scope, st).value.1, fin, scope == "")
    requires vis !! fin.inner && CompileOp(op, after, scope, st).value.1.inner <= fin.inner
    ensures Realizes(fin, vis, op, CompileOp(op, after, scope, st).value.0, after, scope)
    decreases op, 0
  {
    hide CompileBranches, RealizesBranches, Exposes, ExposesFrom, IdsOf, Lasts;
    var id, branches := op.id, op.branches;
    var (nid, st1) := Reserve(st, id).value;
    var join := nid + "_join";
    var st2 := Reserve(st1, Some(join)).value.1;
    var start := Add(Own(st2, join), join, Join(after), scope);
    CompileBranchesExtends(branches, 0, nid, join, scope, start);
    var (entries, st3) := CompileBranches(branches, 0, nid, join, scope, start).value;
    JoinExtends(st1, join, Join(after), scope, st3, IdsOf(branches));
    AddReserved(st, id, st3, IdsOf(branches), Split(entries, join), scope);
    var st4 := Add(st3, nid, Split(entries, join), scope);
    LastsThrough(st3, st4, fin, scope == "", scope == "");
    assert join in fin.inner && (id.None? ==> nid in fin.inner);
    BranchesRealize(branches, 0, nid, join, scope, start, fin, vis);
    BranchesExpose(branches, 0, nid, join, scope, start, vis);
    ExposedForGood(branches, join, scope, start, st3, fin, vis);
    LastsHolds(st4, fin, scope == "", nid, Split(entries, join), scope);
    assert Labelled(id, nid, vis) && Holds(fin, nid, Split(entries, join), scope);
    JoinHeld(start, st3, fin, join, after, scope);
    assert join !in vis && Holds(fin, join, Join(after), scope);
  }

  lemma JoinHeld(start: Build, st3: Build, fin: Build, join: string, after: string, scope: string)
    requires Holds(start, join, Join(after), scope) && Keeps(start, st3) && Lasts(st3, fin, scope == "")
    ensures Holds(fin, join, Join(after), scope)
  {
  }

  lemma ExposedForGood(branches: seq<Op>, join: string, scope: string, start: Build, st3: Build, fin: Build,
      vis: set<string>)
    requires forall t | t in start.joins :: start.joins[t].0 != join
    requires ExposesFrom(branches, 0, join, scope, start, st3, vis)
    requires Keeps(start, st3) && Lasts(st3, fin, scope == "") && join in st3.ids
    ensures Exposes(fin, vis, branches, join, scope)
  {
    hide EndIds;
    if scope == "" {
      forall t | t in vis && t in fin.joins && fin.joins[t].0 == join
        ensures fin.joins[t].1 < |branches| && t in EndIds(branches[fin.joins[t].1], true)
      {
        assert t in st3.joins && t !in start.joins;
      }
    }
  }

  lemma {:induction false} BranchesRealize(branches: seq<Op>, index: nat, nid: string, join: string, scope: string,
      st: Build, fin: Build, vis: set<string>)
    requires Sound(st) && CompileBranches(branches, index, nid, join, scope, st).Ok?
    requires join in st.nodes && st.nodes[join].Join?
    requires Stays(CompileBranches(branches, index, nid, join, scope, st).value.1, fin)
    requires vis !! fin.inner && CompileBranches(branches, index, nid, join, scope, st).value.1.inner <= fin.inner
    ensures RealizesBranches(fin, vis, branches, CompileBranches(branches, index, nid, join, scope, st).value.0, index,
      nid, scope)
    decreases branches, 2
  {
    if branches != [] {
      var bs := BranchScope(scope, nid, index);
      BranchExtends(branches[0], index, nid, join, scope, st);
      var st1 := CompileOp(branches[0], END, bs, st).value.1;
      var st2 := AfterBranch(branches[0], index, nid, join, scope, st);
      CompileBranchesExtends(branches[1..], index + 1, nid, join, scope, st2);
      var (entries, st3) := CompileBranches(branches[1..], index + 1, nid, join, scope, st2).value;
      assert bs != "";
      assert Lasts(st1, fin, false) by { BranchKept(st1, st2, st3, fin); }
      CompileRealizes(branches[0], END, bs, st, fin, vis);
      BranchesRealize(branches[1..], index + 1, nid, join, scope, st2, fin, vis);
      var entry := CompileOp(branches[0], END, bs, st).value.0;
      assert ([entry] + entries)[1..] == entries;
    }
  }

  /** What a branch can end at is exposed only after it is compiled. */
  lemma BranchKept(st1: Build, st2: Build, st3: Build, fin: Build)
    requires st2 == st1.(joins := st2.joins) && Keeps(st2, st3) && Stays(st3, fin)
    ensures Lasts(st1, fin, false)
  {
  }

  /** The branches compiled from one state to another lie deeper and expose, through the join,
      exactly what they can end at. */
  ghost predicate ExposesFrom(branches: seq<Op>, index: nat, join: string, scope: string, st: Build, st': Build,
      vis: set<string>)
  {
    && (forall t | t in vis && t in st'.joins && t !in st.joins && st'.joins[t].0 == join ::
          index <= st'.joins[t].1 < index + |branches| && t in EndIds(branches[st'.joins[t].1 - index], true))
    && (forall i, t | 0 <= i < |branches| && t in EndIds(branches[i], true) ::
          t in st'.joins && st'.joins[t] == (join, index + i) && t in st'.scopes && |st'.scopes[t]| > |scope|)
  }

  lemma {:induction false} BranchesExpose(branches: seq<Op>, index: nat, nid: string, join: string, scope: string,
      st: Build, vis: set<string>)
    requires Sound(st) && CompileBranches(branches, index, nid, join, scope, st).Ok?
    requires join in st.nodes && st.nodes[join].Join?
    requires vis !! CompileBranches(branches, index, nid, join, scope, st).value.1.inner
    ensures ExposesFrom(branches, index, join, scope, st,
      CompileBranches(branches, index, nid, join, scope, st).value.1, vis)
    decreases branches, 2
  {
    hide ExposesFrom;
    if branches == [] {
      assert ExposesFrom(branches, index, join, scope, st, st, vis) by {
        NothingExposedFrom(index, join, scope, st, vis); }
    } else {
      var bs := BranchScope(scope, nid, index);
      BranchExtends(branches[0], index, nid, join, scope, st);
      var st1 := CompileOp(branches[0], END, bs, st).value.1;
      var st2 := AfterBranch(branches[0], index, nid, join, scope, st);
      CompileBranchesExtends(branches[1..], index + 1, nid, join, scope, st2);
      var st3 := CompileBranches(branches[1..], index + 1, nid, join, scope, st2).value.1;
      BranchExposes(branches[0], index, nid, join, scope, st, vis);
      BranchesExpose(branches[1..], index + 1, nid, join, scope, st2, vis);
      ExposesCons(branches, index, join, scope, st, st2, st3, vis);
    }
  }

  lemma NothingExposedFrom(index: nat, join: string, scope: string, st: Build, vis: set<string>)
    ensures ExposesFrom([], index, join, scope, st, st, vis)
  {
  }

  lemma BranchExposes(branch: Op, index: nat, nid: string, join: string, scope: string, st: Build, vis: set<string>)
    requires Sound(st) && CompileOp(branch, END, BranchScope(scope, nid, index), st).Ok?
    requires join in st.nodes && st.nodes[join].Join?
    requires vis !! CompileOp(branch, END, BranchScope(scope, nid, index), st).value.1.inner
    ensures ExposesFrom([branch], index, join, scope, st, AfterBranch(branch, index, nid, join, scope, st), vis)
  {
    hide EndIds, CompileOp, NextIsEnd;
    var bs := BranchScope(scope, nid, index);
    EndsAre(branch, END, bs, st);
    CompilesBeneath(branch, END, bs, st);
    BranchExtends(branch, index, nid, join, scope, st);
    assert |bs| > |scope|;
    var st1, st2 := CompileOp(branch, END, bs, st).value.1, AfterBranch(branch, index, nid, join, scope, st);
    forall t | t in vis && t in st2.joins && t !in st.joins && st2.joins[t].0 == join
      ensures st2.joins[t].1 == index && t in EndIds(branch, true)
    {
      assert t in Terminals(st1.nodes, st.ids);
    }
    forall i, t | 0 <= i < 1 && t in EndIds([branch][i], true)
      ensures t in st2.joins && st2.joins[t] == (join, index + i) && t in st2.scopes && |st2.scopes[t]| > |scope|
    {
      assert t in Terminals(st1.nodes, st.ids);
    }
  }

  lemma ExposesCons(branches: seq<Op>, index: nat, join: string, scope: string, st: Build, st2: Build, st3: Build,
      vis: set<string>)
    requires branches != [] && Keeps(st2, st3)
    requires ExposesFrom([branches[0]], index, join, scope, st, st2, vis)
    requires ExposesFrom(branches[1..], index + 1, join, scope, st2, st3, vis)
    ensures ExposesFrom(branches, index, join, scope, st, st3, vis)
  {
    hide EndIds;
    forall t | t in vis && t in st3.joins && t !in st.joins && st3.joins[t].0 == join
      ensures index <= st3.joins[t].1 < index + |branches| && t in EndIds(branches[st3.joins[t].1 - index], true)
    {
      if t !in st2.joins {
        assert branches[1..][st3.joins[t].1 - (index + 1)] == branches[st3.joins[t].1 - index];
      }
    }
    forall i, t | 0 <= i < |branches| && t in EndIds(branches[i], true)
      ensures t in st3.joins && st3.joins[t] == (join, index + i) && t in st3.scopes && |st3.scopes[t]| > |scope|
    {
      if i > 0 {
        assert branches[1..][i - 1] == branches[i];
      } else {
        assert t in EndIds([branches[0]][0], true);
      }
    }
  }

  lemma {:induction false} NoParallelKeepsJoins(op: Op, after: string, scope: string, st: Build)
    requires CompileOp(op, after, scope, st).Ok? && NoParallel(op)
    ensures CompileOp(op, after, scope, st).value.1.joins == st.joins
    decreases op, 0
  {
    match op
    case Sequence(steps) => NoParallelsKeepJoins(steps, after, scope, st);
    case Condition(id, _, steps, otherwise) =>
      var (nid, st1) := Reserve(st, id).value;
      NoParallelsKeepJoins(steps, after, scope, st1);
      var (yes, st2) := CompileOps(steps, after, scope, st1).value;
      NoParallelsKeepJoins(otherwise, after, scope, st2);
    case _ =>
  }

  lemma {:induction false} NoParallelsKeepJoins(ops: seq<Op>, after: string, scope: string, st: Build)
    requires CompileOps(ops, after, scope, st).Ok? && NoParallels(ops)
    ensures CompileOps(ops, after, scope, st).value.1.joins == st.joins
    decreases ops, 1
  {
    if ops != [] {
      NoParallelsKeepJoins(ops[1..], after, scope, st);
      var (entry, st1) := CompileOps(ops[1..], after, scope, st).value;
      NoParallelKeepsJoins(ops[0], entry, scope, st1);
    }
  }
}
