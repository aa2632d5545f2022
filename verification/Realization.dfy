/** What it means for a build to contain an operation's nodes, and that walking them is
    evaluating the operation. */
module Realization {
  import opened Json
  import opened Plan
  import opened Graph
  import opened Meaning
  import opened Compiler
  import opened Discipline
  import opened Agreement

  /** An explicit id is the node's id; an automatic one is nobody's reference. */
  predicate Labelled(id: Option<string>, entry: string, vis: set<string>)
  {
    match id
    case Some(x) => x == entry
    case None => entry !in vis
  }

  predicate Holds(st: Build, id: string, node: Draft, scope: string)
  {
    id != END && id in st.nodes && st.nodes[id] == node && id in st.scopes && st.scopes[id] == scope
  }

  /** What branches can end at lies in deeper scopes; at top level the join exposes exactly that. */
  ghost predicate Exposes(st: Build, vis: set<string>, branches: seq<Op>, join: string, scope: string)
  {
    && (forall i, t | 0 <= i < |branches| && t in EndIds(branches[i], true) ::
      t in st.scopes && |st.scopes[t]| > |scope|)
    && (scope == "" ==>
          && (forall t | t in vis && t in st.joins && st.joins[t].0 == join ::
                st.joins[t].1 < |branches| && t in EndIds(branches[st.joins[t].1], true))
          && (forall i, t | 0 <= i < |branches| && t in EndIds(branches[i], true) ::
            t in st.joins && st.joins[t] == (join, i)))
  }

  ghost predicate Realizes(st: Build, vis: set<string>, op: Op, entry: string, after: string, scope: string)
    decreases op, 0
  {
    match op
    case Call(id, target, args, undo) =>
      Labelled(id, entry, vis) && Holds(st, entry, Task(Capability(target, args), after, undo), scope)
    case Wait(id, seconds) =>
      Labelled(id, entry, vis) && Holds(st, entry, Sleep(seconds, after), scope)
    case Sequence(steps) => RealizesAll(st, vis, steps, entry, after, scope)
    case Condition(id, when, steps, otherwise) =>
      exists yes, no ::
        && Labelled(id, entry, vis) && Holds(st, entry, Switch([Case(when, yes)], no), scope)
        && RealizesAll(st, vis, steps, yes, after, scope)
        && RealizesAll(st, vis, otherwise, no, after, scope)
    case Parallel(id, branches) =>
      exists entries, join ::
        && Labelled(id, entry, vis) && Holds(st, entry, Split(entries, join), scope)
        && join !in vis && Holds(st, join, Join(after), scope)
        && Exposes(st, vis, branches, join, scope)
        && RealizesBranches(st, vis, branches, entries, 0, entry, scope)
  }

  ghost predicate RealizesAll(st: Build, vis: set<string>, ops: seq<Op>, entry: string, after: string, scope: string)
    decreases ops, 1
  {
    if ops == [] then entry == after
    else exists mid :: Realizes(st, vis, ops[0], entry, mid, scope) && RealizesAll(st, vis, ops[1..], mid, after, scope)
  }

  ghost predicate RealizesBranches(st: Build, vis: set<string>, branches: seq<Op>, entries: seq<string>, index: nat,
      nid: string, scope: string)
    decreases branches, 1
  {
    if branches == [] then entries == []
    else
      && entries != []
      && Realizes(st, vis, branches[0], entries[0], END, BranchScope(scope, nid, index))
      && RealizesBranches(st, vis, branches[1..], entries[1..], index + 1, nid, scope)
  }

  // ---------------------------------------------------------------- matching frames

  predicate JoinsAreJoins(st: Build)
  {
    forall t | t in st.joins :: st.joins[t].0 in st.nodes && st.nodes[st.joins[t].0].Join?
  }

  ghost predicate UndoMatches(st: Build, vis: set<string>, scope: string, compiled: seq<Tmpl>, source: seq<Expr>)
  {
    && |compiled| == |source|
    && forall i | 0 <= i < |source| :: ExprOk(source[i], vis) && Resolve(st, scope, source[i]) == Ok(compiled[i])
  }

  /** An execution's frame and the evaluator's frame agree; the last output matters in branches. */
  ghost predicate Matches(st: Build, vis: set<string>, scope: string, f: Frame, ef: EFrame)
  {
    && Agrees(st, vis, scope, f.nodes, ef.env)
    && UndoMatches(st, vis, scope, f.undo, ef.undo)
    && (scope != "" ==> Step(f.last, "output") == Step(ef.last, "output"))
  }

  lemma ResponseOutput(body: Json)
    ensures Lookup(Response(body), OUTPUT) == Step(body, "output")
  {
    assert Lookup(Response(body), OUTPUT) == Lookup(Step(Response(body), "response"), ["body", "output"]);
    assert Lookup(Step(Response(body), "response"), ["body", "output"]) == Lookup(body, ["output"]);
    assert Lookup(body, ["output"]) == Lookup(Step(body, "output"), []);
  }

  /** A completed task changes the reading of its own id and of nothing else. */
  lemma AgreesAfterTask(st: Build, vis: set<string>, scope: string, nodes: map<string, Json>, env: map<string, Json>,
                        id: Option<string>, entry: string, body: Json)
    requires Agrees(st, vis, scope, nodes, env) && JoinsAreJoins(st)
    requires Labelled(id, entry, vis) && entry in st.nodes && st.nodes[entry].Task?
    requires entry in st.scopes && st.scopes[entry] == scope
    ensures Agrees(st, vis, scope, nodes[entry := Response(body)], Bind(env, id, Step(body, "output")))
  {
    var nodes' := nodes[entry := Response(body)];
    forall ref | ref in vis && Accessible(st, scope, ref)
      ensures Lookup(Obj(nodes'), Base(st, scope, ref)) == Get(Bind(env, id, Step(body, "output")), ref)
    {
      var base := Base(st, scope, ref);
      assert base == [base[0]] + base[1..];
      LookupFirst(nodes', base[0], base[1..]);
      LookupFirst(nodes, base[0], base[1..]);
      if ref == entry {
        ResponseOutput(body);
      }
    }
  }

  lemma UndoAgrees(st: Build, vis: set<string>, scope: string, w: World, f: Frame, ef: EFrame)
    requires Matches(st, vis, scope, f, ef)
    ensures Unwind(f.undo, Context(w, f.nodes), w.text) == Repay(w, Outside, ef.env, ef.undo)
  {
    forall i | 0 <= i < |f.undo| {
      ExprAgrees(st, vis, scope, w, f.nodes, ef.env, None, ef.undo[i]);
    }
  }

  // ---------------------------------------------------------------- joins

  lemma JoinLookup(nodes: map<string, Json>, join: string, entries: seq<string>, results: seq<Json>, i: nat)
    requires |entries| == |results| && i < |results|
    requires join in nodes && nodes[join] == Response(JoinBody(entries, results))
    ensures Lookup(Obj(nodes), [join, "response", "body", "branches", Digits(i), "result", "output"])
         == Step(results[i], "output")
  {
    var body := JoinBody(entries, results);
    IndexRoundTrip(i);
    LookupFirst(nodes, join, ["response", "body", "branches", Digits(i), "result", "output"]);
    assert [join] + ["response", "body", "branches", Digits(i), "result", "output"]
        == [join, "response", "body", "branches", Digits(i), "result", "output"];
    LookupFirst(Response(body).fields, "response", ["body", "branches", Digits(i), "result", "output"]);
    assert ["response"] + ["body", "branches", Digits(i), "result", "output"]
        == ["response", "body", "branches", Digits(i), "result", "output"];
    LookupFirst(map["body" := body], "body", ["branches", Digits(i), "result", "output"]);
    assert ["body"] + ["branches", Digits(i), "result", "output"]
      == ["body", "branches", Digits(i), "result", "output"];
    LookupFirst(body.fields, "branches", [Digits(i), "result", "output"]);
    assert ["branches"] + [Digits(i), "result", "output"] == ["branches", Digits(i), "result", "output"];
    var items := body.fields["branches"];
    assert items.items[i] == BranchResult(entries[i], results[i]);
    assert Lookup(items, [Digits(i), "result", "output"]) == Lookup(items.items[i], ["result", "output"]);
    assert Lookup(items.items[i], ["result", "output"]) == Lookup(results[i], ["output"]);
    assert Lookup(results[i], ["output"]) == Step(results[i], "output");
  }

  /** The outputs a list of branches exposes: what a branch can end at reads as its last result. */
  ghost predicate ExposedOutputs(branches: seq<Op>, results: seq<Json>, outputs: map<string, Json>)
    requires |branches| == |results|
  {
    && (forall i, t | 0 <= i < |branches| && t in EndIds(branches[i], true) ::
          t in outputs && outputs[t] == Step(results[i], "output"))
    && OnlyEnds(branches, outputs)
  }

  ghost predicate OnlyEnds(branches: seq<Op>, outputs: map<string, Json>)
  {
    forall t | t in outputs :: exists i :: 0 <= i < |branches| && t in EndIds(branches[i], true)
  }

  lemma AgreesAfterJoin(st: Build, vis: set<string>, scope: string, nodes: map<string, Json>, env: map<string, Json>,
                        branches: seq<Op>, entries: seq<string>, join: string,
                        results: seq<Json>, outputs: map<string, Json>)
    requires Agrees(st, vis, scope, nodes, env) && JoinsAreJoins(st)
    requires join !in vis && Exposes(st, vis, branches, join, scope)
    requires |branches| == |results| == |entries| && OnlyEnds(branches, outputs)
    requires scope == "" ==> ExposedOutputs(branches, results, outputs)
    ensures Agrees(st, vis, scope, nodes[join := Response(JoinBody(entries, results))], env + outputs)
  {
    var nodes' := nodes[join := Response(JoinBody(entries, results))];
    forall ref | ref in vis && Accessible(st, scope, ref)
      ensures Lookup(Obj(nodes'), Base(st, scope, ref)) == Get(env + outputs, ref)
    {
      var base := Base(st, scope, ref);
      assert base == [base[0]] + base[1..];
      LookupFirst(nodes', base[0], base[1..]);
      LookupFirst(nodes, base[0], base[1..]);
      OutputsBelong(st, vis, branches, join, scope, outputs, ref);
      if st.scopes[ref] != scope && st.joins[ref].0 == join {
        JoinLookup(nodes', join, entries, results, st.joins[ref].1);
      }
    }
  }

  lemma OutputsBelong(st: Build, vis: set<string>, branches: seq<Op>, join: string, scope: string,
      outputs: map<string, Json>, ref: string)
    requires Exposes(st, vis, branches, join, scope) && OnlyEnds(branches, outputs)
    ensures ref in outputs ==>
      ref in st.scopes && st.scopes[ref] != scope && (scope == "" ==> ref in st.joins && st.joins[ref].0 == join)
  {
    if ref in outputs {
      var i :| 0 <= i < |branches| && ref in EndIds(branches[i], true);
    }
  }

  // ---------------------------------------------------------------- simulation

  /** A walk from an operation's entry goes where evaluating the operation says: it fails alike, or
      stands behind the operation with a matching frame. */
  ghost predicate WalksOn(st: Build, g: Native, vis: set<string>, w: World, limit: nat, scope: string, after: string,
                          walked: Outcome, out: EOutcome, f': Frame, n': nat)
  {
    match out
    case EFailed(e, r') => walked == Failed(e, r', n')
    case EDone(ef', r') => Matches(st, vis, scope, f', ef') && walked == Walk(g, w, limit, after, f', r', n')
  }

  ghost predicate BranchesWalkOn(branches: seq<Op>, walked: BranchOutcome, out: EBranches, results: seq<Json>, n': nat)
  {
    match out
    case EBranchFailed(e, r') => walked == BranchFailed(e, r', n')
    case EAllDone(outputs, clocks, r') =>
      walked == AllDone(results, clocks, r', n') && |results| == |branches| && ExposedLater(branches, results, outputs)
  }

  /** Walking a realized operation is evaluating it. */
  lemma {:induction false} Simulates(st: Build, g: Native, vis: set<string>, w: World, limit: nat,
                                     op: Op, entry: string, after: string, scope: string,
                                     f: Frame, ef: EFrame, r: Run, n: nat)
    returns (f': Frame, n': nat)
    requires ResolveAll(st) == Ok(g) && JoinsAreJoins(st)
    requires Realizes(st, vis, op, entry, after, scope) && OpOk(op, vis)
    requires Matches(st, vis, scope, f, ef)
    requires n + Size(op) <= limit
    ensures n <= n' <= n + Size(op)
    ensures WalksOn(st, g, vis, w, limit, scope, after, Walk(g, w, limit, entry, f, r, n),
      EvalOp(w, Outside, op, ef, r), f', n')
    decreases op, 1
  {
    hide Walk, ResolveAll, Matches, OpsOk;
    f', n' := f, n;
    match op
    case Call(id, target, args, undo) =>
      f', n' := CallSimulates(st, g, vis, w, limit, op, entry, after, scope, f, ef, r, n);
    case Wait(_, _) =>
      n' := n + 1;
      WaitSimulates(st, g, vis, w, limit, op, entry, after, scope, f, r, n);
    case Sequence(steps) =>
      f', n' := SimulatesAll(st, g, vis, w, limit, steps, entry, after, scope, f, ef, r, n);
    case Condition(id, when, steps, otherwise) =>
      f', n' := ConditionSimulates(st, g, vis, w, limit, op, entry, after, scope, f, ef, r, n);
    case Parallel(id, branches) =>
      f', n' := ParallelSimulates(st, g, vis, w, limit, op, entry, after, scope, f, ef, r, n);
  }

  lemma WaitSimulates(st: Build, g: Native, vis: set<string>, w: World, limit: nat,
                      op: Op, entry: string, after: string, scope: string, f: Frame, r: Run, n: nat)
    requires ResolveAll(st) == Ok(g) && op.Wait? && Realizes(st, vis, op, entry, after, scope) && n + 1 <= limit
    ensures Walk(g, w, limit, entry, f, r, n) == Walk(g, w, limit, after, f, r.(clock := r.clock + op.seconds), n + 1)
  {
    assert g[entry] == Sleep(op.seconds, after);
  }

  lemma {:induction false} ConditionSimulates(st: Build, g: Native, vis: set<string>, w: World, limit: nat,
                                              op: Op, entry: string, after: string, scope: string,
                                              f: Frame, ef: EFrame, r: Run, n: nat)
    returns (f': Frame, n': nat)
    requires ResolveAll(st) == Ok(g) && JoinsAreJoins(st)
    requires op.Condition? && Realizes(st, vis, op, entry, after, scope) && OpOk(op, vis)
    requires Matches(st, vis, scope, f, ef)
    requires n + Size(op) <= limit
    ensures n <= n' <= n + Size(op)
    ensures WalksOn(st, g, vis, w, limit, scope, after, Walk(g, w, limit, entry, f, r, n),
      EvalOp(w, Outside, op, ef, r), f', n')
    decreases op, 0
  {
    hide Walk, ResolveAll, OpsOk, RealizesAll, Decide, UndoMatches, Agrees, Holds;
    var id, when, steps, otherwise := op.id, op.when, op.steps, op.otherwise;
    f', n' := f, n + 1;
    var yes, no :| Labelled(id, entry, vis) && Holds(st, entry, Switch([Case(when, yes)], no), scope)
      && RealizesAll(st, vis, steps, yes, after, scope) && RealizesAll(st, vis, otherwise, no, after, scope);
    SwitchSteps(st, g, vis, w, limit, id, when, yes, no, entry, scope, f, ef, r, n);
    var v := Decide(w, when, EvalOperand(w, Outside, ef.env, id));
    if v.Some? {
      if Truthy(v.value) {
        f', n' := SimulatesAll(st, g, vis, w, limit, steps, yes, after, scope, f, ef, r, n + 1);
      } else {
        f', n' := SimulatesAll(st, g, vis, w, limit, otherwise, no, after, scope, f, ef, r, n + 1);
      }
    }
  }

  /** Where a decision leads. */
  function Taken(v: Option<Json>, yes: string, no: string): Option<string>
  {
    if v.None? then None else Some(if Truthy(v.value) then yes else no)
  }

  function Switched(g: Native, w: World, limit: nat, v: Option<Json>, yes: string, no: string, f: Frame, r: Run,
      n: nat): Outcome
  {
    if v.None? then Failed(Exception, r, n + 1)
    else Walk(g, w, limit, if Truthy(v.value) then yes else no, f, r, n + 1)
  }

  /** A switch with one case takes it exactly when the source condition is truthy. */
  lemma SwitchSteps(st: Build, g: Native, vis: set<string>, w: World, limit: nat, id: Option<string>,
                    when: Cond, yes: string, no: string, entry: string, scope: string,
                    f: Frame, ef: EFrame, r: Run, n: nat)
    requires ResolveAll(st) == Ok(g) && CondOk(when, vis)
    requires Holds(st, entry, Switch([Case(when, yes)], no), scope)
    requires Agrees(st, vis, scope, f.nodes, ef.env)
    requires n + 1 <= limit
    ensures Walk(g, w, limit, entry, f, r, n)
         == Switched(g, w, limit, Decide(w, when, EvalOperand(w, Outside, ef.env, id)), yes, no, f, r, n)
  {
    var cases := [Case(when, yes)];
    assert cases[1..] == [];
    assert ResolveNode(st, scope, Switch(cases, no)).Ok?;
    assert ResolveCases(st, scope, cases[1..]) == Ok([]);
    var target := Case(ResolveCond(st, scope, when).value, yes);
    assert [target] + [] == [target];
    assert ResolveCases(st, scope, cases) == Ok([Case(ResolveCond(st, scope, when).value, yes)]);
    CondAgrees(st, vis, scope, w, f.nodes, ef.env, id, when);
    ChooseOne(w, g[entry], ResolveCond(st, scope, when).value, yes, no, Context(w, f.nodes));
  }

  lemma ChooseOne(w: World, node: NativeNode, when: Logic<Path>, yes: string, no: string, ctx: Json)
    requires node == Switch([Case(when, yes)], no)
    ensures Choose(w, node.cases, node.default, ctx) == Taken(Decide(w, when, ReadFrom(ctx)), yes, no)
  {
    assert node.cases[1..] == [];
  }

  lemma CallSimulates(st: Build, g: Native, vis: set<string>, w: World, limit: nat,
                      op: Op, entry: string, after: string, scope: string,
                      f: Frame, ef: EFrame, r: Run, n: nat)
    returns (f': Frame, n': nat)
    requires ResolveAll(st) == Ok(g) && JoinsAreJoins(st)
    requires op.Call? && Realizes(st, vis, op, entry, after, scope) && OpOk(op, vis)
    requires Matches(st, vis, scope, f, ef)
    requires n + 1 <= limit
    ensures n' == n + 1
    ensures WalksOn(st, g, vis, w, limit, scope, after, Walk(g, w, limit, entry, f, r, n),
      EvalOp(w, Outside, op, ef, r), f', n')
  {
    f', n' := f, n + 1;
    var input := Resolve(st, scope, op.args).value;
    var undo := ResolveUndo(st, scope, op.undo).value;
    assert g[entry] == Task(Capability(op.target, input), after, undo);
    ExprAgrees(st, vis, scope, w, f.nodes, ef.env, op.id, op.args);
    match Invoke(w, op.target, EvalExpr(w, Outside, ef.env, op.id, op.args), r)
    case Crashed(_) =>
    case Body(body, r') =>
      if HasError(body) {
        UndoAgrees(st, vis, scope, w, f, ef);
      } else {
        AgreesAfterTask(st, vis, scope, f.nodes, ef.env, op.id, entry, body);
        f' := Completed(f, entry, body, undo);
      }
  }

  lemma {:induction false} SimulatesAll(st: Build, g: Native, vis: set<string>, w: World, limit: nat,
                                        ops: seq<Op>, entry: string, after: string, scope: string,
                                        f: Frame, ef: EFrame, r: Run, n: nat)
    returns (f': Frame, n': nat)
    requires ResolveAll(st) == Ok(g) && JoinsAreJoins(st)
    requires RealizesAll(st, vis, ops, entry, after, scope) && OpsOk(ops, vis)
    requires Matches(st, vis, scope, f, ef)
    requires n + SizeOf(ops) <= limit
    ensures n <= n' <= n + SizeOf(ops)
    ensures WalksOn(st, g, vis, w, limit, scope, after, Walk(g, w, limit, entry, f, r, n),
      EvalOps(w, Outside, ops, ef, r), f', n')
    decreases ops, 2
  {
    f', n' := f, n;
    if ops != [] {
      var mid :| Realizes(st, vis, ops[0], entry, mid, scope) && RealizesAll(st, vis, ops[1..], mid, after, scope);
      f', n' := Simulates(st, g, vis, w, limit, ops[0], entry, mid, scope, f, ef, r, n);
      match EvalOp(w, Outside, ops[0], ef, r)
      case EFailed(_, _) =>
      case EDone(ef1, r1) =>
        f', n' := SimulatesAll(st, g, vis, w, limit, ops[1..], mid, after, scope, f', ef1, r1, n');
    }
  }

  lemma {:induction false} ParallelSimulates(st: Build, g: Native, vis: set<string>, w: World, limit: nat,
                                             op: Op, entry: string, after: string, scope: string,
                                             f: Frame, ef: EFrame, r: Run, n: nat)
    returns (f': Frame, n': nat)
    requires ResolveAll(st) == Ok(g) && JoinsAreJoins(st)
    requires op.Parallel? && Realizes(st, vis, op, entry, after, scope) && OpOk(op, vis)
    requires Matches(st, vis, scope, f, ef)
    requires n + Size(op) <= limit
    ensures n <= n' <= n + Size(op)
    ensures WalksOn(st, g, vis, w, limit, scope, after, Walk(g, w, limit, entry, f, r, n),
      EvalOp(w, Outside, op, ef, r), f', n')
    decreases op, 0
  {
    hide WalkBranches, EvalBranches, Latest, JoinBody, ExposedLater, ExposedOutputs, OnlyEnds, Agrees, UndoMatches,
      OpsOk, SizeOf, RealizesBranches, Exposes, JoinsAreJoins;
    var branches := op.branches;
    var entries, join :| Labelled(op.id, entry, vis) && Holds(st, entry, Split(entries, join), scope)
        && join !in vis && Holds(st, join, Join(after), scope)
        && Exposes(st, vis, branches, join, scope) && RealizesBranches(st, vis, branches, entries, 0, entry, scope);
    f' := f;
    var results;
    results, n' := BranchesSimulate(st, g, vis, w, limit, branches, entries, 0, entry, scope, r.clock, r, n + 1);
    match EvalBranches(w, Outside, branches, r.clock, r)
    case EBranchFailed(_, _) =>
    case EAllDone(outputs, clocks, r') =>
      if clocks != [] {
        OnlyEndsLater(branches, results, outputs);
        if scope == "" { ExposedOnce(st, vis, branches, join, results, outputs); }
        AgreesAfterJoin(st, vis, scope, f.nodes, ef.env, branches, entries, join, results, outputs);
        NoOutput(entries, results);
        f' := Frame(f.nodes[join := Response(JoinBody(entries, results))], JoinBody(entries, results), f.undo);
      }
  }

  lemma NoOutput(entries: seq<string>, results: seq<Json>)
    requires |entries| == |results|
    ensures Step(JoinBody(entries, results), "output") == Null
  {
  }

  /** What evaluating the branches exposes, before distinctness of their ids is used. */
  ghost predicate ExposedLater(branches: seq<Op>, results: seq<Json>, outputs: map<string, Json>)
    requires |branches| == |results|
  {
    && (forall i, t | 0 <= i < |branches| && t in EndIds(branches[i], true) ::
          t in outputs
            && ((forall j | i < j < |branches| :: t !in EndIds(branches[j], true)) ==>
            outputs[t] == Step(results[i], "output")))
    && (forall t | t in outputs :: exists i :: 0 <= i < |branches| && t in EndIds(branches[i], true))
  }

  lemma OnlyEndsLater(branches: seq<Op>, results: seq<Json>, outputs: map<string, Json>)
    requires |branches| == |results| && ExposedLater(branches, results, outputs)
    ensures OnlyEnds(branches, outputs)
  {
  }

  lemma EndsOnce(st: Build, vis: set<string>, branches: seq<Op>, join: string, i: nat, j: nat, t: string)
    requires Exposes(st, vis, branches, join, "") && i < |branches| && j < |branches|
    requires t in EndIds(branches[i], true) && t in EndIds(branches[j], true)
    ensures i == j
  {
    assert st.joins[t] == (join, i);
    assert st.joins[t] == (join, j);
  }

  lemma ExposedOnce(st: Build, vis: set<string>, branches: seq<Op>, join: string, results: seq<Json>,
      outputs: map<string, Json>)
    requires |branches| == |results| && ExposedLater(branches, results, outputs)
    requires Exposes(st, vis, branches, join, "")
    ensures ExposedOutputs(branches, results, outputs)
  {
    hide EndIds;
    OnlyEndsLater(branches, results, outputs);
    forall i, t | 0 <= i < |branches| && t in EndIds(branches[i], true)
      ensures t in outputs && outputs[t] == Step(results[i], "output")
    {
      forall j | i < j < |branches| ensures t !in EndIds(branches[j], true) {
        if t in EndIds(branches[j], true) { EndsOnce(st, vis, branches, join, i, j, t); }
      }
    }
  }

  lemma {:induction false} BranchesSimulate(st: Build, g: Native, vis: set<string>, w: World, limit: nat,
                                            branches: seq<Op>, entries: seq<string>, index: nat, nid: string,
                                              scope: string,
                                            start: real, r: Run, n: nat)
    returns (results: seq<Json>, n': nat)
    requires ResolveAll(st) == Ok(g) && JoinsAreJoins(st)
    requires RealizesBranches(st, vis, branches, entries, index, nid, scope) && OpsOk(branches, vis)
    requires n + SizeOf(branches) <= limit
    ensures n <= n' <= n + SizeOf(branches)
    ensures BranchesWalkOn(branches, WalkBranches(g, w, limit, entries, start, r, n),
      EvalBranches(w, Outside, branches, start, r), results, n')
    decreases branches, 2
  {
    hide Walk, EvalOp, ResolveAll, Exposed, UndoMatches, JoinsAreJoins, ExposedLater;
    results, n' := [], n;
    if branches == [] { assert ExposedLater(branches, results, map[]) by { NothingExposed(); } }
    if branches != [] {
      var branch, inner := branches[0], BranchScope(scope, nid, index);
      FreshMatches(st, vis, inner);
      var f';
      f', n' := Simulates(st, g, vis, w, limit, branch, entries[0], END, inner, FRESH, BLANK, r.(clock := start), n);
      match EvalOp(w, Outside, branch, BLANK, r.(clock := start))
      case EFailed(_, _) =>
      case EDone(ef1, r1) =>
        AtEnd(g, w, limit, f', r1, n');
        results, n' :=
          BranchesSimulate(st, g, vis, w, limit, branches[1..], entries[1..], index + 1, nid, scope, start, r1, n');
        results := [f'.last] + results;
        match EvalBranches(w, Outside, branches[1..], start, r1)
        case EBranchFailed(_, _) =>
        case EAllDone(outputs, clocks, r2) =>
          ExposedCons(branch, ef1.last, branches, results, outputs);
    }
  }

  /** An execution that has run nothing agrees with an evaluator that has run nothing. */
  lemma FreshMatches(st: Build, vis: set<string>, scope: string)
    ensures Matches(st, vis, scope, FRESH, BLANK)
  {
    forall ref | ref in vis && Accessible(st, scope, ref)
      ensures Lookup(Obj(map[]), Base(st, scope, ref)) == Null
    {
      var base := Base(st, scope, ref);
      assert base == [base[0]] + base[1..];
      LookupFirst(map[], base[0], base[1..]);
      LookupNull(base[1..]);
    }
  }

  lemma AtEnd(g: Native, w: World, limit: nat, f: Frame, r: Run, n: nat)
    ensures Walk(g, w, limit, END, f, r, n) == Done(f, r, n)
  {
  }

  lemma NothingExposed()
    ensures ExposedLater([], [], map[])
  {
  }

  lemma ExposedCons(branch: Op, last: Json, branches: seq<Op>, results: seq<Json>, outputs: map<string, Json>)
    requires branches != [] && branch == branches[0] && |results| == |branches|
    requires Step(results[0], "output") == Step(last, "output") && ExposedLater(branches[1..], results[1..], outputs)
    ensures ExposedLater(branches, results, Exposed(branch, last) + outputs)
  {
    hide EndIds, Step;
    var all := Exposed(branch, last) + outputs;
    forall i, t | 0 <= i < |branches| && t in EndIds(branches[i], true)
      ensures t in all
        && ((forall j | i < j < |branches| :: t !in EndIds(branches[j], true)) ==> all[t] == Step(results[i], "output"))
    {
      if i > 0 {
        assert branches[1..][i - 1] == branches[i] && results[1..][i - 1] == results[i];
        if forall j | i < j < |branches| :: t !in EndIds(branches[j], true) {
          assert forall j | i - 1 < j < |branches[1..]| :: t !in EndIds(branches[1..][j], true) by {
            forall j | i - 1 < j < |branches[1..]|
              ensures t !in EndIds(branches[1..][j], true) { assert branches[1..][j] == branches[j + 1]; }
          }
        }
      } else if t in outputs {
        var k :| 0 <= k < |branches[1..]| && t in EndIds(branches[1..][k], true);
        assert branches[k + 1] == branches[1..][k];
      }
    }
    forall t | t in all ensures exists i :: 0 <= i < |branches| && t in EndIds(branches[i], true) {
      if t in outputs {
        var k :| 0 <= k < |branches[1..]| && t in EndIds(branches[1..][k], true);
        assert branches[k + 1] == branches[1..][k];
      } else {
        assert t in EndIds(branches[0], true);
      }
    }
  }
}
