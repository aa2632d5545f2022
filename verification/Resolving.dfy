/** Every node of a compiled block resolves, unless a wrapped seed lands in a template. */
module Resolving {
  import opened Json
  import opened Plan
  import opened Graph
  import opened Meaning
  import opened Compiler
  import opened Discipline
  import opened Moving
  import opened Shifting
  import opened Placement
  import opened PassWalk
  import opened Visibility
  import opened Wording
  import opened Succession

  // ---------------------------------------------------------------- nodes that resolve

  predicate NodeFine(node: Draft, vis: set<string>)
  {
    match node
    case Task(Capability(_, input), _, undo) => RefsIn(input, vis) && Worded(input) && undo.None?
    case Task(Replan(_, carry), _, undo) => RefsIn(carry, vis) && Worded(carry) && undo.None?
    case Task(Complete, _, undo) => undo.None?
    case Switch(cases, _) => forall i | 0 <= i < |cases| :: CondRefsIn(cases[i].when, vis)
    case _ => true
  }

  /** Every node resolves, and stands in the top scope. */
  predicate AllFine(st: Build, vis: set<string>)
  {
    && (forall id | id in st.nodes :: NodeFine(st.nodes[id], vis))
    && forall id | id in st.scopes :: st.scopes[id] == ""
  }

  lemma {:induction false} CasesResolve(st: Build, vis: set<string>, cases: seq<Case<Operand>>)
    requires TopNodes(st, vis) && forall i | 0 <= i < |cases| :: CondRefsIn(cases[i].when, vis)
    ensures ResolveCases(st, "", cases).Ok?
    decreases cases
  {
    if cases != [] {
      CondResolves(st, vis, cases[0].when);
      assert forall i | 0 <= i < |cases[1..]| :: cases[1..][i] == cases[i + 1];
      CasesResolve(st, vis, cases[1..]);
    }
  }

  lemma NodeResolves(st: Build, vis: set<string>, node: Draft)
    requires TopNodes(st, vis) && NodeFine(node, vis)
    ensures ResolveNode(st, "", node).Ok?
  {
    hide Resolve, ResolveCases;
    match node
    case Task(Capability(_, input), _, _) => ExprResolves(st, vis, input);
    case Task(Replan(_, carry), _, _) => ExprResolves(st, vis, carry);
    case Switch(cases, _) => CasesResolve(st, vis, cases);
    case _ =>
  }

  lemma AllResolve(st: Build, vis: set<string>)
    requires TopNodes(st, vis) && AllFine(st, vis)
    ensures ResolveAll(st).Ok?
  {
    hide ResolveNode, NodeFine;
    forall id | id in st.nodes
      ensures ResolveNode(st, ScopeOf(st, id), st.nodes[id]).Ok? { NodeResolves(st, vis, st.nodes[id]); }
  }

  // ---------------------------------------------------------------- operations

  predicate OpFine(op: Op, vis: set<string>)
  {
    match op
    case Call(_, _, args, undo) => RefsIn(args, vis) && Worded(args) && undo.None?
    case Wait(_, _) => true
    case Sequence(steps) => OpsFine(steps, vis)
    case Condition(_, when, steps, otherwise) => CondRefsIn(when, vis) && OpsFine(steps, vis) && OpsFine(otherwise, vis)
    case Parallel(_, _) => false
  }

  predicate OpsFine(ops: seq<Op>, vis: set<string>)
  {
    ops == [] || (OpFine(ops[0], vis) && OpsFine(ops[1..], vis))
  }

  lemma AddFine(st: Build, id: string, node: Draft, vis: set<string>)
    requires AllFine(st, vis) && NodeFine(node, vis)
    ensures AllFine(Add(st, id, node, ""), vis)
  {
  }

  lemma ReserveFine(st: Build, wanted: Option<string>, vis: set<string>)
    requires AllFine(st, vis) && Reserve(st, wanted).Ok?
    ensures AllFine(Reserve(st, wanted).value.1, vis)
  {
  }

  lemma {:induction false} OpAddsFine(op: Op, after: string, st: Build, vis: set<string>)
    requires OpFine(op, vis) && AllFine(st, vis) && CompileOp(op, after, "", st).Ok?
    ensures AllFine(CompileOp(op, after, "", st).value.1, vis)
    decreases op, 0
  {
    hide AllFine;
    match op
    case Call(id, target, args, undo) =>
      var (nid, st1) := Reserve(st, id).value;
      ReserveFine(st, id, vis);
      AddFine(st1, nid, Task(Capability(target, args), after, undo), vis);
    case Wait(id, seconds) =>
      var (nid, st1) := Reserve(st, id).value;
      ReserveFine(st, id, vis);
      AddFine(st1, nid, Sleep(seconds, after), vis);
    case Sequence(steps) => OpsAddFine(steps, after, st, vis);
    case Condition(id, when, steps, otherwise) =>
      var (nid, st1) := Reserve(st, id).value;
      ReserveFine(st, id, vis);
      OpsAddFine(steps, after, st1, vis);
      var (yes, st2) := CompileOps(steps, after, "", st1).value;
      OpsAddFine(otherwise, after, st2, vis);
      var (no, st3) := CompileOps(otherwise, after, "", st2).value;
      AddFine(st3, nid, Switch([Case(when, yes)], no), vis);
  }

  lemma {:induction false} OpsAddFine(ops: seq<Op>, after: string, st: Build, vis: set<string>)
    requires OpsFine(ops, vis) && AllFine(st, vis) && CompileOps(ops, after, "", st).Ok?
    ensures AllFine(CompileOps(ops, after, "", st).value.1, vis)
    decreases ops, 1
  {
    hide AllFine;
    if ops != [] {
      OpsAddFine(ops[1..], after, st, vis);
      var (entry, st1) := CompileOps(ops[1..], after, "", st).value;
      OpAddsFine(ops[0], entry, st1, vis);
    }
  }

  // ---------------------------------------------------------------- source

  /** Templates of the operations are made of text. */
  predicate OpWorded(op: Op)
  {
    match op
    case Call(_, _, args, _) => Worded(args)
    case Sequence(steps) => OpsWorded(steps)
    case Condition(_, _, steps, otherwise) => OpsWorded(steps) && OpsWorded(otherwise)
    case _ => true
  }

  predicate OpsWorded(ops: seq<Op>)
  {
    ops == [] || (OpWorded(ops[0]) && OpsWorded(ops[1..]))
  }

  /** No wrapped seed lands in a template of the operations, moved as a pass of the body (with
      each operation's own id as the rewriter's) or behind an exit. */
  predicate OpInterpolates(s: Shift, op: Op)
  {
    match op
    case Call(id, _, args, _) => Interpolates(s, if s.exit then None else id, args)
    case Sequence(steps) => OpsInterpolate(s, steps)
    case Condition(_, _, steps, otherwise) => OpsInterpolate(s, steps) && OpsInterpolate(s, otherwise)
    case _ => true
  }

  predicate OpsInterpolate(s: Shift, ops: seq<Op>)
  {
    ops == [] || (OpInterpolates(s, ops[0]) && OpsInterpolate(s, ops[1..]))
  }

  lemma {:induction false} SeedlessInterpolates(s: Shift, owner: Option<string>, e: Expr)
    requires Seedless(s) && PlainExpr(e) && (s.exit ==> owner == None)
    ensures Interpolates(s, owner, e)
    decreases e, 0
  {
    match e
    case List(items) => forall i | 0 <= i < |items| { SeedlessInterpolates(s, owner, items[i]); }
    case Dict(entries) => forall k | k in entries { SeedlessInterpolates(s, owner, entries[k]); }
    case Template(parts) => SeedlessAllInterpolate(s, owner, parts);
    case _ =>
  }

  lemma {:induction false} SeedlessAllInterpolate(s: Shift, owner: Option<string>, parts: seq<Expr>)
    requires Seedless(s) && (forall i | 0 <= i < |parts| :: PlainExpr(parts[i])) && (s.exit ==> owner == None)
    ensures AllInterpolate(s, owner, parts)
    decreases parts, 1
  {
    if parts != [] {
      assert forall i | 0 <= i < |parts[1..]| :: parts[1..][i] == parts[i + 1];
      SeedlessAllInterpolate(s, owner, parts[1..]);
      SeedlessInterpolates(s, owner, parts[0]);
    }
  }

  lemma {:induction false} SeedlessOpsInterpolate(s: Shift, ops: seq<Op>)
    requires Seedless(s) && AllPlain(ops)
    ensures OpsInterpolate(s, ops)
    decreases ops, 1
  {
    if ops != [] {
      SeedlessOpInterpolates(s, ops[0]);
      SeedlessOpsInterpolate(s, ops[1..]);
    }
  }

  lemma {:induction false} SeedlessOpInterpolates(s: Shift, op: Op)
    requires Seedless(s) && Plain(op)
    ensures OpInterpolates(s, op)
    decreases op, 0
  {
    match op
    case Call(id, _, args, _) => SeedlessInterpolates(s, if s.exit then None else id, args);
    case Sequence(steps) => SeedlessOpsInterpolate(s, steps);
    case Condition(_, _, steps, otherwise) =>
      SeedlessOpsInterpolate(s, steps);
      SeedlessOpsInterpolate(s, otherwise);
    case _ =>
  }

  // ---------------------------------------------------------------- rewritten bodies

  lemma {:induction false} PassOpsFine(b: Block, text: Json -> string, i: nat, known: set<string>, vis: set<string>,
      ops: seq<Op>)
    requires PassVisible(b, i, known, vis) && ProperIds(b.loop, known)
    requires OpsOk(ops, known) && AllPlain(ops) && IdsOf(ops) <= IdsOf(b.loop.body)
      && RewriteOps(Shift(b, i, false), text, ops).Ok?
    requires OpsWorded(ops) && OpsInterpolate(Shift(b, i, false), ops)
    ensures OpsFine(RewriteOps(Shift(b, i, false), text, ops).value, vis)
    decreases ops, 1
  {
    if ops != [] {
      PassOpFine(b, text, i, known, vis, ops[0]);
      PassOpsFine(b, text, i, known, vis, ops[1..]);
      var s := Shift(b, i, false);
      var first, rest := RewriteOp(s, text, ops[0]).value, RewriteOps(s, text, ops[1..]).value;
      assert ([first] + rest)[1..] == rest;
    }
  }

  lemma {:induction false} PassOpFine(b: Block, text: Json -> string, i: nat, known: set<string>, vis: set<string>,
      op: Op)
    requires PassVisible(b, i, known, vis) && ProperIds(b.loop, known)
    requires OpOk(op, known) && Plain(op) && Ids(op) <= IdsOf(b.loop.body)
      && RewriteOp(Shift(b, i, false), text, op).Ok?
    requires OpWorded(op) && OpInterpolates(Shift(b, i, false), op)
    ensures OpFine(RewriteOp(Shift(b, i, false), text, op).value, vis)
    decreases op, 0
  {
    hide PassVisible, ProperIds;
    var s, l := Shift(b, i, false), Stay(b, text);
    match op
    case Call(id, _, args, _) => PassArgsFine(b, text, i, known, vis, id, args);
    case Wait(_, _) =>
    case Sequence(steps) => PassOpsFine(b, text, i, known, vis, steps);
    case Condition(id, when, steps, otherwise) =>
      PassLands(b, text, i, known, vis, id);
      MovedCondOk(l, s, id, known, vis, when);
      RenameNoCond(l, i, RewriteCond(s, id, when).value);
      OkCondRefsIn(RewriteCond(s, id, when).value, vis);
      PassOpsFine(b, text, i, known, vis, steps);
      PassOpsFine(b, text, i, known, vis, otherwise);
  }

  /** Arguments, or retained state, as a pass reads them. */
  lemma PassArgsFine(b: Block, text: Json -> string, i: nat, known: set<string>, vis: set<string>,
      owner: Option<string>, e: Expr)
    requires PassVisible(b, i, known, vis) && ProperIds(b.loop, known)
      && (owner.Some? ==> owner.value in IdsOf(b.loop.body))
    requires ExprOk(e, known) && Worded(e) && Interpolates(Shift(b, i, false), owner, e)
      && RewriteExpr(Shift(b, i, false), text, owner, e).Ok?
    ensures RefsIn(RewriteExpr(Shift(b, i, false), text, owner, e).value, vis)
      && Worded(RewriteExpr(Shift(b, i, false), text, owner, e).value)
  {
    hide PassVisible, ProperIds;
    var s, l := Shift(b, i, false), Stay(b, text);
    PassLands(b, text, i, known, vis, owner);
    MovedExprOk(l, s, text, owner, known, vis, e);
    RenameNothing(l, i, RewriteExpr(s, text, owner, e).value);
    OkRefsIn(RewriteExpr(s, text, owner, e).value, vis);
    RewrittenIsWorded(s, text, owner, e);
  }

  // ---------------------------------------------------------------- copied after-steps

  /** Nodes as the after-steps compile to them: tasks and switches that name known ids. */
  predicate NodeSourced(node: Draft, known: set<string>)
  {
    match node
    case Task(Capability(_, input), _, undo) => ExprOk(input, known) && PlainExpr(input) && Worded(input) && undo.None?
    case Switch(cases, _) => |cases| == 1 && CondOk(cases[0].when, known)
    case Sleep(_, _) => true
    case _ => false
  }

  predicate NodeInterpolates(l: Layout, k: int, node: Draft)
  {
    match node
    case Task(Capability(_, input), _, _) => Interpolates(Shift(l.block, k, true), None, input)
    case _ => true
  }

  predicate Sourced(l: Layout, k: int, nodes: map<string, Draft>, known: set<string>)
  {
    forall id | id in nodes :: NodeSourced(nodes[id], known) && NodeInterpolates(l, k, nodes[id])
  }

  lemma AddSourced(l: Layout, k: int, st: Build, id: string, node: Draft, scope: string, known: set<string>)
    requires Sourced(l, k, st.nodes, known) && NodeSourced(node, known) && NodeInterpolates(l, k, node)
    ensures Sourced(l, k, Add(st, id, node, scope).nodes, known)
  {
  }

  lemma {:induction false} OpSourced(l: Layout, k: int, op: Op, after: string, scope: string, st: Build,
      known: set<string>)
    requires OpOk(op, known) && Plain(op) && OpWorded(op) && OpInterpolates(Shift(l.block, k, true), op)
    requires Sourced(l, k, st.nodes, known) && CompileOp(op, after, scope, st).Ok?
    ensures Sourced(l, k, CompileOp(op, after, scope, st).value.1.nodes, known)
    decreases op, 0
  {
    hide Sourced, Interpolates;
    match op
    case Call(id, target, args, undo) =>
      var (nid, st1) := Reserve(st, id).value;
      AddSourced(l, k, st1, nid, Task(Capability(target, args), after, undo), scope, known);
    case Wait(id, seconds) =>
      var (nid, st1) := Reserve(st, id).value;
      AddSourced(l, k, st1, nid, Sleep(seconds, after), scope, known);
    case Sequence(steps) => OpsSourced(l, k, steps, after, scope, st, known);
    case Condition(id, when, steps, otherwise) =>
      var (nid, st1) := Reserve(st, id).value;
      OpsSourced(l, k, steps, after, scope, st1, known);
      var (yes, st2) := CompileOps(steps, after, scope, st1).value;
      OpsSourced(l, k, otherwise, after, scope, st2, known);
      var (no, st3) := CompileOps(otherwise, after, scope, st2).value;
      AddSourced(l, k, st3, nid, Switch([Case(when, yes)], no), scope, known);
  }

  lemma {:induction false} OpsSourced(l: Layout, k: int, ops: seq<Op>, after: string, scope: string, st: Build,
      known: set<string>)
    requires OpsOk(ops, known) && AllPlain(ops) && OpsWorded(ops) && OpsInterpolate(Shift(l.block, k, true), ops)
    requires Sourced(l, k, st.nodes, known) && CompileOps(ops, after, scope, st).Ok?
    ensures Sourced(l, k, CompileOps(ops, after, scope, st).value.1.nodes, known)
    decreases ops, 1
  {
    hide Sourced;
    if ops != [] {
      OpsSourced(l, k, ops[1..], after, scope, st, known);
      var (entry, st1) := CompileOps(ops[1..], after, scope, st).value;
      OpSourced(l, k, ops[0], entry, scope, st1, known);
    }
  }

  lemma CopyFine(l: Layout, k: int, node: Draft, known: set<string>, vis: set<string>)
    requires k >= -1 && ExitVisible(l, k, known, vis) && ProperIds(l.block.loop, known)
    requires NodeSourced(node, known) && NodeInterpolates(l, k, node) && ExitNode(l, k, node).Ok?
    ensures NodeFine(ExitNode(l, k, node).value, vis)
  {
    hide ExitVisible, ProperIds;
    var s := Shift(l.block, k, true);
    ExitLands(l, k, known, vis);
    match node
    case Task(Capability(_, input), _, _) =>
      MovedExprOk(l, s, l.text, None, known, vis, input);
      OkRefsIn(ExitExpr(l, k, input).value, vis);
      RewrittenIsWorded(s, l.text, None, input);
      RenamedIsWorded(l, k, RewriteExpr(s, l.text, None, input).value);
    case Switch(cases, _) =>
      MovedCondOk(l, s, None, known, vis, cases[0].when);
      OkCondRefsIn(ExitCond(l, k, cases[0].when).value, vis);
      assert ExitCases(l, k, cases).value[0].when == ExitCond(l, k, cases[0].when).value;
    case _ =>
  }

  lemma CopiesFine(l: Layout, k: int, known: set<string>, vis: set<string>)
    requires k >= -1 && ExitVisible(l, k, known, vis) && ProperIds(l.block.loop, known)
      && Sourced(l, k, l.source, known) && Copyable(l, k)
    ensures forall id | id in NodeCopies(l, k, l.tail) :: NodeFine(NodeCopies(l, k, l.tail)[id], vis)
  {
    hide ExitNode, ExitVisible, NodeFine, NodeSourced, NodeInterpolates, ExitId, ExitSuffix, ProperIds;
    forall id | id in NodeCopies(l, k, l.tail) ensures NodeFine(NodeCopies(l, k, l.tail)[id], vis) {
      CopyIdsLong(l, k, l.tail);
      CopyFine(l, k, l.source[Original(l, k, id)], known, vis);
    }
  }

  lemma CopiesOnTop(l: Layout, k: int, st: Build)
    requires k >= -1 && forall id | id in st.scopes :: st.scopes[id] == ""
    ensures forall id | id in ScopeCopies(l, k, l.tail, st) :: ScopeCopies(l, k, l.tail, st)[id] == ""
  {
    CopyIdsLong(l, k, l.tail);
  }

  lemma TailFine(l: Layout, k: int, st: Build, known: set<string>, vis: set<string>)
    requires k >= -1 && ExitVisible(l, k, known, vis) && ProperIds(l.block.loop, known)
      && Sourced(l, k, l.source, known)
    requires AllFine(st, vis) && ExitEntry(l, k, st).Ok?
    ensures AllFine(ExitEntry(l, k, st).value.1, vis)
  {
    hide ExitNode, ExitVisible, NodeFine, Sourced, ExitId, ExitSuffix, ProperIds, NodeCopies, ScopeCopies, JoinCopies,
      ExitIds, InnerCopies;
    var b := ExitEntry(l, k, st).value.1;
    if b != st {
      CopiesFine(l, k, known, vis);
      CopiesOnTop(l, k, st);
    }
  }

  // ---------------------------------------------------------------- passes

  /** What the passes of a block need to resolve, whatever its seeds are. */
  predicate LoopSourced(loop: Repeat, known: set<string>)
  {
    && ProperIds(loop, known) && OpsOk(loop.body, known) && AllPlain(loop.body) && OpsWorded(loop.body)
    && StateOk(loop.state, known) && forall i | 0 <= i < |loop.state| :: Worded(loop.state[i].value)
  }

  /** No wrapped seed lands in a template of a block's first pass. */
  predicate FirstInterpolates(b: Block)
  {
    && OpsInterpolate(Shift(b, 0, false), b.loop.body)
    && forall i | 0 <= i < |b.loop.state| :: Interpolates(Shift(b, 0, false), None, b.loop.state[i].value)
  }

  ghost predicate InView(l: Layout, known: set<string>, vis: set<string>)
  {
    && (forall i | 0 <= i < l.block.chunk :: PassVisible(l.block, i, known, vis))
    && (Timed(l.block.loop) ==>
      forall k | -1 <= k < l.block.chunk - 1 :: ExitVisible(l, k, known, vis) && Sourced(l, k, l.source, known))
  }

  lemma {:induction false} StateFine(b: Block, text: Json -> string, i: nat, known: set<string>, vis: set<string>,
      entries: seq<Retained>)
    requires PassVisible(b, i, known, vis) && ProperIds(b.loop, known) && StateOk(entries, known)
    requires forall j | 0 <= j < |entries| ::
      Worded(entries[j].value) && Interpolates(Shift(b, i, false), None, entries[j].value)
    requires StateEntries(Shift(b, i, false), text, entries).Ok?
    ensures var m := StateEntries(Shift(b, i, false), text, entries).value;
      forall k | k in m :: RefsIn(m[k], vis) && Worded(m[k])
    decreases entries
  {
    if entries != [] {
      hide PassVisible, ProperIds;
      StateFine(b, text, i, known, vis, entries[..|entries| - 1]);
      PassArgsFine(b, text, i, known, vis, None, entries[|entries| - 1].value);
    }
  }

  lemma DictFine(entries: map<string, Expr>, vis: set<string>)
    requires forall k | k in entries :: RefsIn(entries[k], vis) && Worded(entries[k])
    ensures RefsIn(Dict(entries), vis) && Worded(Dict(entries))
  {
  }

  lemma HoleFine(node: string, key: string, vis: set<string>)
    ensures RefsIn(OutputHole(node, key), vis) && Worded(OutputHole(node, key))
  {
  }

  lemma LiteralFine(v: Json, vis: set<string>)
    ensures RefsIn(LiteralOf(v), vis) && Worded(LiteralOf(v))
  {
  }

  lemma TickFine(b: Block, text: Json -> string, i: nat, known: set<string>, vis: set<string>)
    requires PassVisible(b, i, known, vis) && LoopSourced(b.loop, known) && (i == 0 ==> FirstInterpolates(b))
    requires TickInput(b, text, i).Ok?
    ensures RefsIn(TickInput(b, text, i).value, vis) && Worded(TickInput(b, text, i).value)
  {
    hide PassVisible, ProperIds, LiteralOf, OutputHole, Checked, StateEntries, AllPlain, OpsOk;
    if i > 0 {
      forall j | 0 <= j < |b.loop.state| { SeedlessInterpolates(Shift(b, i, false), None, b.loop.state[j].value); }
    }
    StateFine(b, text, i, known, vis, b.loop.state);
    DictFine(StateEntries(Shift(b, i, false), text, b.loop.state).value, vis);
    LiteralFine(b.initial, vis);
    HoleFine(Checked(b, "_clock", i), "deadline_unix", vis);
    if i > 0 { HoleFine(Checked(b, "_tick", i - 1), "state", vis); }
    var entries := TickInput(b, text, i).value.entries;
    forall k | k in entries ensures RefsIn(entries[k], vis) && Worded(entries[k]) {
    }
    DictFine(entries, vis);
  }

  lemma ClockFine(b: Block, i: nat, vis: set<string>)
    ensures RefsIn(ClockInput(b, i), vis) && Worded(ClockInput(b, i))
  {
    hide OutputHole, Checked;
    if i > 0 { HoleFine(Checked(b, "_clock", i - 1), "deadline_unix", vis); }
    var entries := ClockInput(b, i).entries;
    forall k | k in entries ensures RefsIn(entries[k], vis) && Worded(entries[k]) {
    }
    DictFine(entries, vis);
  }

  lemma DoneFine(node: string, target: string, default: string, vis: set<string>)
    ensures NodeFine(Switch([Case(DoneTest(node), target)], default), vis)
  {
  }

  lemma PassAddsFine(l: Layout, i: nat, next: string, st: Build, known: set<string>, vis: set<string>)
    requires InView(l, known, vis) && LoopSourced(l.block.loop, known) && FirstInterpolates(l.block)
      && i < l.block.chunk
    requires AllFine(st, vis) && CompilePass(l, i, next, st).Ok?
    ensures AllFine(CompilePass(l, i, next, st).value.1, vis)
  {
    hide AllFine, InView, CompileTick, CompileExpiry, CompilePause, LoopSourced, PassVisible;
    assert PassVisible(l.block, i, known, vis) by { PassInView(l, known, vis, i); }
    TickAddsFine(l, i, next, st, known, vis);
    var (tick, st1) := CompileTick(l, i, next, st).value;
    var body := BodyOf(l, i).value;
    BodyFine(l, i, known, vis);
    OpsAddFine(body, tick, st1, vis);
    var (entry, st2) := CompileOps(body, tick, "", st1).value;
    FrontAddsFine(l, i, entry, st2, known, vis);
    var (first, st3) := CompileExpiry(l, i, entry, st2).value;
    PauseAddsFine(l, i, first, st3, vis);
  }

  lemma PassInView(l: Layout, known: set<string>, vis: set<string>, i: nat)
    requires InView(l, known, vis) && i < l.block.chunk
    ensures PassVisible(l.block, i, known, vis)
  {
  }

  lemma ExitInView(l: Layout, known: set<string>, vis: set<string>, k: int)
    requires InView(l, known, vis) && -1 <= k < l.block.chunk - 1 && Timed(l.block.loop)
    ensures ExitVisible(l, k, known, vis) && Sourced(l, k, l.source, known)
  {
  }

  lemma BodyFine(l: Layout, i: nat, known: set<string>, vis: set<string>)
    requires PassVisible(l.block, i, known, vis) && LoopSourced(l.block.loop, known) && FirstInterpolates(l.block)
      && BodyOf(l, i).Ok?
    ensures OpsFine(BodyOf(l, i).value, vis)
  {
    if i > 0 { SeedlessOpsInterpolate(Shift(l.block, i, false), l.block.loop.body); }
    PassOpsFine(l.block, l.text, i, known, vis, l.block.loop.body);
  }

  lemma ExitAddsFine(l: Layout, k: int, st: Build, known: set<string>, vis: set<string>)
    requires InView(l, known, vis) && ProperIds(l.block.loop, known) && Timed(l.block.loop) && -1 <= k < l.block.chunk
    requires AllFine(st, vis) && ExitEntry(l, k, st).Ok?
    ensures AllFine(ExitEntry(l, k, st).value.1, vis)
  {
    hide AllFine, Sourced, ExitVisible, CopyTail;
    if k < l.block.chunk - 1 {
      ExitInView(l, known, vis, k);
      TailFine(l, k, st, known, vis);
    }
  }

  lemma TickAddsFine(l: Layout, i: nat, next: string, st: Build, known: set<string>, vis: set<string>)
    requires InView(l, known, vis) && LoopSourced(l.block.loop, known) && FirstInterpolates(l.block)
      && i < l.block.chunk
    requires AllFine(st, vis) && CompileTick(l, i, next, st).Ok?
    ensures AllFine(CompileTick(l, i, next, st).value.1, vis)
  {
    hide AllFine, InView, TickInput, ClockInput, ExitEntry, DoneTest, FirstInterpolates;
    var b := l.block;
    var tick, check, clock := Checked(b, "_tick", i), Checked(b, "_check", i), Checked(b, "_clock", i);
    var st2 := Reserve(Reserve(st, Some(tick)).value.1, Some(check)).value.1;
    ReserveFine(st, Some(tick), vis);
    ReserveFine(Reserve(st, Some(tick)).value.1, Some(check), vis);
    ClockFine(b, i, vis);
    if Timed(b.loop) {
      ReserveFine(st2, Some(clock), vis);
      AddFine(Reserve(st2, Some(clock)).value.1, clock, Helper(ClockInput(b, i), Checked(b, "_expired", i)), vis);
    }
    var st3, input := CompileClock(l, i, st2).value, TickInput(b, l.text, i).value;
    PassInView(l, known, vis, i);
    TickFine(b, l.text, i, known, vis);
    AddFine(st3, tick, Helper(input, next), vis);
    AddFine(st3, tick, Helper(input, check), vis);
    var st4 := Add(st3, tick, Helper(input, check), "");
    if !Unchecked(b, i) {
      if Timed(b.loop) { ExitAddsFine(l, i, st4, known, vis); }
      var (target, st5) := if Timed(b.loop) then ExitEntry(l, i, st4).value else (l.after, st4);
      DoneFine(tick, target, next, vis);
      AddFine(st5, check, Switch([Case(DoneTest(tick), target)], next), vis);
    }
  }

  lemma FrontAddsFine(l: Layout, i: nat, body: string, st: Build, known: set<string>, vis: set<string>)
    requires InView(l, known, vis) && LoopSourced(l.block.loop, known) && i < l.block.chunk
    requires AllFine(st, vis) && CompileExpiry(l, i, body, st).Ok?
    ensures AllFine(CompileExpiry(l, i, body, st).value.1, vis)
  {
    hide AllFine, InView, ExitEntry, DoneTest;
    if Timed(l.block.loop) {
      var expired, clock := Checked(l.block, "_expired", i), Checked(l.block, "_clock", i);
      var st1 := Reserve(st, Some(expired)).value.1;
      ReserveFine(st, Some(expired), vis);
      ExitAddsFine(l, i - 1, st1, known, vis);
      var (target, st2) := ExitEntry(l, i - 1, st1).value;
      DoneFine(clock, target, body, vis);
      AddFine(st2, expired, Switch([Case(DoneTest(clock), target)], body), vis);
    }
  }

  lemma PauseAddsFine(l: Layout, i: nat, first: string, st: Build, vis: set<string>)
    requires AllFine(st, vis) && CompilePause(l, i, first, st).Ok?
    ensures AllFine(CompilePause(l, i, first, st).value.1, vis)
  {
    if i > 0 {
      var wait := Checked(l.block, "_wait", i - 1);
      ReserveFine(st, Some(wait), vis);
      AddFine(Reserve(st, Some(wait)).value.1, wait, Sleep(l.block.loop.interval, first), vis);
    }
  }

  lemma {:induction false} PassesAddFine(l: Layout, n: nat, next: string, st: Build, known: set<string>,
      vis: set<string>)
    requires InView(l, known, vis) && LoopSourced(l.block.loop, known) && FirstInterpolates(l.block)
      && n <= l.block.chunk
    requires AllFine(st, vis) && CompilePasses(l, n, next, st).Ok?
    ensures AllFine(CompilePasses(l, n, next, st).value.1, vis)
    decreases n
  {
    hide AllFine, InView, LoopSourced, FirstInterpolates, CompilePass;
    if n > 0 {
      PassAddsFine(l, n - 1, next, st, known, vis);
      var (entry, st1) := CompilePass(l, n - 1, next, st).value;
      PassesAddFine(l, n - 1, entry, st1, known, vis);
    }
  }

  lemma ContinuationAddsFine(b: Block, plan: Plan, after: string, st: Build, vis: set<string>)
    requires AllFine(st, vis) && CompileContinuation(b, plan, after, st).Ok?
    ensures AllFine(CompileContinuation(b, plan, after, st).value.1, vis)
  {
    hide AllFine, CarryExpr;
    if Continues(b) {
      var continuation, boundary := b.loop.id + "_continue", b.loop.id + "_boundary_wait";
      var st2 := Reserve(Reserve(st, Some(continuation)).value.1, Some(boundary)).value.1;
      ReserveFine(st, Some(continuation), vis);
      ReserveFine(Reserve(st, Some(continuation)).value.1, Some(boundary), vis);
      CarryFine(b, vis);
      var node: Draft := Task(Replan(Cached(plan, b.loop.id), CarryExpr(b)), END, None);
      AddFine(st2, continuation, node, vis);
      AddFine(Add(st2, continuation, node, ""), boundary, Sleep(b.loop.interval, continuation), vis);
    }
  }

  lemma CarryFine(b: Block, vis: set<string>)
    ensures RefsIn(CarryExpr(b), vis) && Worded(CarryExpr(b))
  {
    hide OutputHole;
    HoleFine(TickId(b.loop), "deadline_unix", vis);
    HoleFine(TickId(b.loop), "remaining_iterations", vis);
    HoleFine(TickId(b.loop), "state", vis);
    DictFine(CarryExpr(b).entries, vis);
  }
}
