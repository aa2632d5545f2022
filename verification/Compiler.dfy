/** The semantic plan compiler: plans become flat node graphs, built backwards from their end.
    These functions give the result of each compilation step; PlanCompiler carries them out
    on the compiler's own mutable state. */
module Compiler {
  import opened Json
  import opened Plan
  import opened Graph
  import opened Meaning
  import opened Discipline
  import opened Sets

  type Draft = Node<Expr, Operand>

  /** The compiler's state: draft nodes by id, reserved ids and those of them no plan can name,
      the scope of every node, the branch results exposed by joins, the exit copies so far. */
  datatype Build = Build(
    nodes: map<string, Draft>,
    ids: set<string>,
    inner: set<string>,
    scopes: map<string, string>,
    joins: map<string, (string, nat)>,
    exits: map<int, string>)

  const EMPTY: Build := Build(map[], {}, {}, map[], map[], map[])

  const CHUNK := 20

  // ---------------------------------------------------------------- ids and nodes

  function Reserve(st: Build, wanted: Option<string>): Result<(string, Build)>
  {
    var candidate := if wanted.Some? then wanted.value else "rs_" + Digits(|st.ids|);
    if candidate == END || candidate == "" || candidate in st.ids then Raise("Duplicate/reserved operation id")
    else
      Ok((candidate, st.(ids := st.ids + {candidate},
                         inner := if wanted.Some? then st.inner else st.inner + {candidate})))
  }

  /** Marks a reserved id as one of the compiler's own. */
  function Own(st: Build, id: string): Build { st.(inner := st.inner + {id}) }

  function Add(st: Build, id: string, node: Draft, scope: string): Build
  {
    st.(nodes := st.nodes[id := node], scopes := st.scopes[id := scope])
  }

  // ---------------------------------------------------------------- operations

  /** Conditions may name only the data roots by raw path. */
  predicate RawRootsOk(c: Cond)
  {
    match c
    case Var(Raw(path)) => path == [] || path[0] in ROOTS + {"nodes", ""}
    case Group(items) => forall i | 0 <= i < |items| :: RawRootsOk(items[i])
    case Operator(_, args) => forall i | 0 <= i < |args| :: RawRootsOk(args[i])
    case _ => true
  }

  function BranchScope(scope: string, nid: string, index: nat): string
  {
    scope + "/" + nid + ":" + Digits(index)
  }

  predicate NextIsEnd(node: Draft)
  {
    (node.Task? || node.Sleep? || node.Join?) && node.next == END
  }

  /** Nodes added since `before` that end their execution. */
  function Terminals(nodes: map<string, Draft>, before: set<string>): set<string>
  {
    set id | id in nodes && id !in before && NextIsEnd(nodes[id])
  }

  function Expose(joins: map<string, (string, nat)>, terminals: set<string>, join: string, index: nat)
    : map<string, (string, nat)>
  {
    joins + map t | t in terminals :: (join, index)
  }

  function CompileOp(op: Op, after: string, scope: string, st: Build): Result<(string, Build)>
    decreases op, 0
  {
    match op
    case Call(id, target, args, undo) =>
      var (nid, st1) :- Reserve(st, id);
      if target == "" then Raise("task target must not be empty")
      else Ok((nid, Add(st1, nid, Task(Capability(target, args), after, undo), scope)))
    case Wait(id, seconds) =>
      var (nid, st1) :- Reserve(st, id);
      Ok((nid, Add(st1, nid, Sleep(seconds, after), scope)))
    case Sequence(steps) => CompileOps(steps, after, scope, st)
    case Condition(id, when, steps, otherwise) =>
      var (nid, st1) :- Reserve(st, id);
      var (yes, st2) :- CompileOps(steps, after, scope, st1);
      var (no, st3) :- CompileOps(otherwise, after, scope, st2);
      if !RawRootsOk(when) then Raise("condition path needs a structured reference")
      else Ok((nid, Add(st3, nid, Switch([Case(when, yes)], no), scope)))
    case Parallel(id, branches) =>
      var (nid, st1) :- Reserve(st, id);
      var (join, st2) :- Reserve(st1, Some(nid + "_join"));
      var (entries, st3) :- CompileBranches(branches, 0, nid, join, scope,
        Add(Own(st2, join), join, Join(after), scope));
      Ok((nid, Add(st3, nid, Split(entries, join), scope)))
  }

  /** Steps are compiled last to first, each continuing at the one compiled before it. */
  function CompileOps(ops: seq<Op>, after: string, scope: string, st: Build): Result<(string, Build)>
    decreases ops, 1
  {
    if ops == [] then Ok((after, st))
    else
      var (entry, st1) :- CompileOps(ops[1..], after, scope, st);
      CompileOp(ops[0], entry, scope, st1)
  }

  function CompileBranches(branches: seq<Op>, index: nat, nid: string, join: string, scope: string,
      st: Build): (r: Result<(seq<string>, Build)>)
    ensures r.Ok? ==> |r.value.0| == |branches|
    decreases branches, 1
  {
    if branches == [] then Ok(([], st))
    else
      var (entry, st1) :- CompileOp(branches[0], END, BranchScope(scope, nid, index), st);
      var st2 := st1.(joins := Expose(st1.joins, Terminals(st1.nodes, st.ids), join, index));
      var (entries, st3) :- CompileBranches(branches[1..], index + 1, nid, join, scope, st2);
      Ok(([entry] + entries, st3))
  }

  // ---------------------------------------------------------------- resolving references

  const OUTPUT: Path := ["response", "body", "output"]

  /** The graph path of a reference made in a scope. */
  function ResolveRef(st: Build, scope: string, ref: string, path: Path): Result<Path>
  {
    if ref in ROOTS then Ok([ref] + path)
    else if ref !in st.scopes then Raise("unknown reference")
    else if st.scopes[ref] == scope then Ok(["nodes", ref] + OUTPUT + path)
    else if scope != "" || ref !in st.joins then Raise("inaccessible reference")
    else
      var (join, index) := st.joins[ref];
      Ok(["nodes", join, "response", "body", "branches", Digits(index), "result", "output"] + path)
  }

  function Resolve(st: Build, scope: string, e: Expr): Result<Tmpl>
    decreases e, 0
  {
    match e
    case Scalar(v) => Ok(TScalar(v))
    case Words(pieces) => Ok(TWords(pieces))
    case Literal(v) => Ok(TLiteral(v))
    case Ref(ref, path) =>
      var p :- ResolveRef(st, scope, ref, path);
      Ok(TWords([Hole(p)]))
    case List(items) =>
      if forall i | 0 <= i < |items| :: Resolve(st, scope, items[i]).Ok? then
        Ok(TList(seq(|items|, i requires 0 <= i < |items| => Resolve(st, scope, items[i]).value)))
      else Raise("reference")
    case Dict(entries) =>
      if forall k | k in entries :: Resolve(st, scope, entries[k]).Ok? then
        Ok(TDict(map k | k in entries :: Resolve(st, scope, entries[k]).value))
      else Raise("reference")
    case Template(parts) =>
      var pieces :- ResolveParts(st, scope, parts);
      Ok(TWords(pieces))
  }

  /** Template parts must be strings once resolved; joining them concatenates their pieces. */
  function ResolveParts(st: Build, scope: string, parts: seq<Expr>): Result<seq<Piece>>
    decreases parts, 1
  {
    if parts == [] then Ok([])
    else
      var first :- Resolve(st, scope, parts[0]);
      var rest :- ResolveParts(st, scope, parts[1..]);
      if first.TWords? then Ok(first.pieces + rest)
      else Raise("template parts must be literals or references")
  }

  function ResolveCond(st: Build, scope: string, c: Cond): Result<Logic<Path>>
    decreases c, 0
  {
    match c
    case Const(v) => Ok(Const(v))
    case Protected(v) => Ok(Protected(v))
    case Var(Raw(path)) => Ok(Var(path))
    case Var(To(ref, path)) =>
      var p :- ResolveRef(st, scope, ref, path);
      Ok(Var(p))
    case Group(items) =>
      var es :- ResolveConds(st, scope, items);
      Ok(Group(es))
    case Operator(op, args) =>
      var es :- ResolveConds(st, scope, args);
      Ok(Operator(op, es))
  }

  function ResolveConds(st: Build, scope: string, cs: seq<Cond>): (r: Result<seq<Logic<Path>>>)
    ensures r.Ok? ==> |r.value| == |cs|
    decreases cs, 1
  {
    if cs == [] then Ok([])
    else
      var first :- ResolveCond(st, scope, cs[0]);
      var rest :- ResolveConds(st, scope, cs[1..]);
      Ok([first] + rest)
  }

  function ResolveAction(st: Build, scope: string, a: Action<Expr>): Result<Action<Tmpl>>
  {
    match a
    case Capability(name, input) =>
      var t :- Resolve(st, scope, input);
      Ok(Capability(name, t))
    case Replan(cached, carry) =>
      var t :- Resolve(st, scope, carry);
      Ok(Replan(cached, t))
    case Complete => Ok(Complete)
  }

  function ResolveUndo(st: Build, scope: string, undo: Option<Expr>): Result<Option<Tmpl>>
  {
    match undo
    case None => Ok(None)
    case Some(e) =>
      var t :- Resolve(st, scope, e);
      Ok(Some(t))
  }

  function ResolveCases(st: Build, scope: string, cases: seq<Case<Operand>>): (r: Result<seq<Case<Path>>>)
    ensures r.Ok? ==> |r.value| == |cases|
  {
    if cases == [] then Ok([])
    else
      var when :- ResolveCond(st, scope, cases[0].when);
      var rest :- ResolveCases(st, scope, cases[1..]);
      Ok([Case(when, cases[0].target)] + rest)
  }

  function ResolveNode(st: Build, scope: string, node: Draft): Result<NativeNode>
  {
    match node
    case Task(action, next, undo) =>
      var a :- ResolveAction(st, scope, action);
      var u :- ResolveUndo(st, scope, undo);
      Ok(Task(a, next, u))
    case Sleep(seconds, next) => Ok(Sleep(seconds, next))
    case Switch(cases, default) =>
      var cs :- ResolveCases(st, scope, cases);
      Ok(Switch(cs, default))
    case Split(branches, join) => Ok(Split(branches, join))
    case Join(next) => Ok(Join(next))
  }

  function ScopeOf(st: Build, id: string): string
  {
    if id in st.scopes then st.scopes[id] else ""
  }

  function ResolveAll(st: Build): Result<Native>
  {
    if forall id | id in st.nodes :: ResolveNode(st, ScopeOf(st, id), st.nodes[id]).Ok? then
      Ok(map id | id in st.nodes :: ResolveNode(st, ScopeOf(st, id), st.nodes[id]).value)
    else Raise("reference")
  }

  // ---------------------------------------------------------------- repeat: one block

  /** The settings of one compiled block of a repeat. */
  datatype Block = Block(
    loop: Repeat,
    remaining: Option<nat>,
    chunk: nat,
    initial: Json,           // initial_state overlaid with continuation.state
    given: Json,             // continuation.deadline_unix, null when absent
    deadline: Json,          // given, else the repeat's own deadline
    seedDeadline: Json)      // the deadline counter seen by a first pass

  function OwnDeadline(loop: Repeat): Json
  {
    if loop.stop.Deadline? then Num(loop.stop.unix) else Null
  }

  function RemainingOf(loop: Repeat, continuation: map<string, Json>): Result<Option<nat>>
  {
    if "remaining_iterations" !in continuation then Ok(Total(loop))
    else
      match continuation["remaining_iterations"]
      case Null => Ok(None)
      case Num(n) =>
        if n >= 0.0 && n == n.Floor as real then Ok(Some(n.Floor as nat))
        else Raise("continuation.remaining_iterations must be a nonnegative integer")
      case _ => Raise("continuation.remaining_iterations must be a nonnegative integer")
  }

  /** The checks a continuation must pass before its repeat is resumed. */
  function BlockOf(loop: Repeat, continuation: map<string, Json>): Result<Block>
  {
    var remaining :- RemainingOf(loop, continuation);
    var resumed := if "state" in continuation then continuation["state"] else Obj(map[]);
    if Total(loop).Some? && remaining.Some? && remaining.value > Total(loop).value then
      Raise("continuation.remaining_iterations exceeds the requested total")
    else if continuation != map[] && loop.stop.Duration? && Arg(continuation, "deadline_unix") == Null then
      Raise("Duration continuation requires its original deadline_unix")
    else if !resumed.Obj? then Raise("continuation.state must be an object")
    else if continuation != map[] && Total(loop).Some? && "remaining_iterations" !in continuation then
      Raise("Finite continuation requires remaining_iterations")
    else if continuation != map[] && !(loop.initial.Keys <= resumed.fields.Keys) then
      Raise("continuation.state is missing retained keys")
    else
      var given := Arg(continuation, "deadline_unix");
      Ok(Block(
        loop,
        remaining,
        if remaining.Some? && remaining.value < CHUNK then remaining.value else CHUNK,
        Obj(loop.initial + resumed.fields),
        given,
        if Truthy(given) then given else OwnDeadline(loop),
        if "deadline_unix" in continuation then given else OwnDeadline(loop)))
  }

  function NameOf(original: string, index: nat, chunk: nat): string
  {
    if index + 1 == chunk then original else original + "__rs_" + Digits(index + 1)
  }

  /** Seed data as source: whatever could be rendered again is wrapped. */
  function LiteralOf(v: Json): Expr
  {
    if NeedsWrapper(v) then Literal(v)
    else if v.Str? then Words([Text(v.s)])
    else Scalar(v)
  }

  // ---------------------------------------------------------------- repeat: rewriting

  /** Where a piece of source moves: into pass `index`, or behind the exit after pass `index`. */
  datatype Shift = Shift(block: Block, index: int, exit: bool)

  function SeedFor(b: Block, ref: string, path: Path): Result<Json>
  {
    if ref == TickId(b.loop) then SeedTick(b.initial, RemainingJson(b.remaining), b.seedDeadline, path)
    else if Continued(ref, path) then SeedWalk(b.initial, path[2..])
    else SeedOwn(b.loop.state, b.initial, ref, path)
  }

  /** A rewritten reference: another reference, or seed data. */
  datatype Rewritten = Points(ref: string, path: Path) | Seed(v: Json)

  function RewriteRef(s: Shift, owner: Option<string>, ref: string, path: Path): Result<Rewritten>
  {
    var b := s.block;
    var tick := ref == TickId(b.loop);
    var previous := (tick && !s.exit) || owner == Some(ref);
    var inside := tick || ref in IdsOf(b.loop.body);
    if Continued(ref, path)
       || (previous && s.index == 0) || (s.index < 0 && inside) then
      var v :- SeedFor(b, ref, path);
      Ok(Seed(v))
    else if inside then
      var at := if previous then s.index - 1 else s.index;
      Ok(Points(NameOf(ref, at, b.chunk), path))
    else Ok(Points(ref, path))
  }

  function RewriteExpr(s: Shift, text: Json -> string, owner: Option<string>, e: Expr): Result<Expr>
    decreases e, 0
  {
    match e
    case Ref(ref, path) =>
      var r :- RewriteRef(s, owner, ref, path);
      (match r
       case Points(ref', path') => Ok(Ref(ref', path'))
       case Seed(v) => Ok(LiteralOf(v)))
    case List(items) =>
      if forall i | 0 <= i < |items| :: RewriteExpr(s, text, owner, items[i]).Ok? then
        Ok(List(seq(|items|, i requires 0 <= i < |items| => RewriteExpr(s, text, owner, items[i]).value)))
      else Raise("seed")
    case Dict(entries) =>
      if forall k | k in entries :: RewriteExpr(s, text, owner, entries[k]).Ok? then
        Ok(Dict(map k | k in entries :: RewriteExpr(s, text, owner, entries[k]).value))
      else Raise("seed")
    case Template(parts) =>
      var parts' :- RewriteParts(s, text, owner, parts);
      Ok(Template(parts'))
    case _ => Ok(e)
  }

  /** A seed inside a template becomes text at once, unless it had to be wrapped. */
  function RewriteParts(s: Shift, text: Json -> string, owner: Option<string>, parts: seq<Expr>): Result<seq<Expr>>
    decreases parts, 1
  {
    if parts == [] then Ok([])
    else
      var first :- RewriteExpr(s, text, owner, parts[0]);
      var rest :- RewriteParts(s, text, owner, parts[1..]);
      Ok([if parts[0].Ref? then Spell(text, first) else first] + rest)
  }

  function Spell(text: Json -> string, e: Expr): Expr
  {
    match e
    case Scalar(v) => Words([Text(SeedText(text, v))])
    case _ => e
  }

  function RewriteCond(s: Shift, owner: Option<string>, c: Cond): Result<Cond>
    decreases c, 0
  {
    match c
    case Var(To(ref, path)) =>
      var r :- RewriteRef(s, owner, ref, path);
      (match r
       case Points(ref', path') => Ok(Var(To(ref', path')))
       case Seed(v) => Ok(if NeedsWrapper(v) then Protected(v) else Const(v)))
    case Group(items) =>
      var es :- RewriteConds(s, owner, items);
      Ok(Group(es))
    case Operator(op, args) =>
      var es :- RewriteConds(s, owner, args);
      Ok(Operator(op, es))
    case _ => Ok(c)
  }

  function RewriteConds(s: Shift, owner: Option<string>, cs: seq<Cond>): (r: Result<seq<Cond>>)
    ensures r.Ok? ==> |r.value| == |cs|
    decreases cs, 1
  {
    if cs == [] then Ok([])
    else
      var first :- RewriteCond(s, owner, cs[0]);
      var rest :- RewriteConds(s, owner, cs[1..]);
      Ok([first] + rest)
  }

  function RewriteUndo(s: Shift, text: Json -> string, owner: Option<string>, undo: Option<Expr>): Result<Option<Expr>>
  {
    match undo
    case None => Ok(None)
    case Some(e) =>
      var e' :- RewriteExpr(s, text, owner, e);
      Ok(Some(e'))
  }

  function Renamed(s: Shift, id: Option<string>): Option<string>
    requires s.index >= 0
  {
    match id
    case Some(x) => Some(NameOf(x, s.index, s.block.chunk))
    case None => None
  }

  /** The body of pass `index`: every id renamed, every reference pointed at the right pass. */
  function RewriteOp(s: Shift, text: Json -> string, op: Op): Result<Op>
    requires s.index >= 0
    decreases op, 0
  {
    match op
    case Call(id, target, args, undo) =>
      var args' :- RewriteExpr(s, text, id, args);
      var undo' :- RewriteUndo(s, text, id, undo);
      Ok(Op.Call(Renamed(s, id), target, args', undo'))
    case Wait(id, seconds) => Ok(Wait(Renamed(s, id), seconds))
    case Sequence(steps) =>
      var steps' :- RewriteOps(s, text, steps);
      Ok(Sequence(steps'))
    case Condition(id, when, steps, otherwise) =>
      var when' :- RewriteCond(s, id, when);
      var steps' :- RewriteOps(s, text, steps);
      var otherwise' :- RewriteOps(s, text, otherwise);
      Ok(Condition(Renamed(s, id), when', steps', otherwise'))
    case Parallel(id, branches) =>
      var branches' :- RewriteOps(s, text, branches);
      Ok(Parallel(Renamed(s, id), branches'))
  }

  function RewriteOps(s: Shift, text: Json -> string, ops: seq<Op>): (r: Result<seq<Op>>)
    requires s.index >= 0
    ensures r.Ok? ==> |r.value| == |ops|
    decreases ops, 1
  {
    if ops == [] then Ok([])
    else
      var first :- RewriteOp(s, text, ops[0]);
      var rest :- RewriteOps(s, text, ops[1..]);
      Ok([first] + rest)
  }

  // ---------------------------------------------------------------- repeat: exits

  /** Nodes reachable from the entry of the after-steps. */
  function Reach(nodes: map<string, Draft>, stack: seq<string>, seen: set<string>): set<string>
    decreases |nodes.Keys - seen|, |stack|
  {
    if stack == [] then seen
    else
      var key, rest := stack[|stack| - 1], stack[..|stack| - 1];
      if key !in nodes || key in seen then Reach(nodes, rest, seen)
      else
        assert nodes.Keys - (seen + {key}) < nodes.Keys - seen by { assert key in nodes.Keys - seen; }
        Smaller(nodes.Keys - seen, nodes.Keys - (seen + {key}));
        assert nodes.Keys - (seen + {key}) == nodes.Keys - seen - {key};
        Reach(nodes, rest + Successors(nodes[key]), seen + {key})
  }

  /** The settings shared by every pass of a block. */
  datatype Layout = Layout(
    block: Block,
    after: string,                    // entry of the after-steps
    tail: set<string>,                // their nodes
    source: map<string, Draft>,       // as compiled before the repeat
    text: Json -> string)

  function ExitSuffix(l: Layout, index: int): string
    requires index >= -1
  {
    "__exit_" + l.block.loop.id + "_" + Digits(index + 1)
  }

  function ExitId(l: Layout, index: int, key: string): string
    requires index >= -1
  {
    if key in l.tail then key + ExitSuffix(l, index) else key
  }

  function CopyIds(l: Layout, index: int, keys: set<string>): set<string>
    requires index >= -1
  {
    set key | key in keys :: ExitId(l, index, key)
  }

  function ExitIds(l: Layout, index: int): set<string>
    requires index >= -1
  {
    CopyIds(l, index, l.tail)
  }

  function RenameExpr(l: Layout, index: int, e: Expr): Expr
    requires index >= -1
  {
    match e
    case Ref(ref, path) => Ref(ExitId(l, index, ref), path)
    case List(items) => List(seq(|items|, i requires 0 <= i < |items| => RenameExpr(l, index, items[i])))
    case Dict(entries) => Dict(map k | k in entries :: RenameExpr(l, index, entries[k]))
    case Template(parts) => Template(RenameExprs(l, index, parts))
    case _ => e
  }

  function RenameExprs(l: Layout, index: int, es: seq<Expr>): (r: seq<Expr>)
    requires index >= -1
    ensures |r| == |es|
  {
    if es == [] then [] else [RenameExpr(l, index, es[0])] + RenameExprs(l, index, es[1..])
  }

  function RenameCond(l: Layout, index: int, c: Cond): Cond
    requires index >= -1
  {
    match c
    case Var(To(ref, path)) => Var(To(ExitId(l, index, ref), path))
    case Group(items) => Group(RenameConds(l, index, items))
    case Operator(op, args) => Operator(op, RenameConds(l, index, args))
    case _ => c
  }

  function RenameConds(l: Layout, index: int, cs: seq<Cond>): (r: seq<Cond>)
    requires index >= -1
    ensures |r| == |cs|
  {
    if cs == [] then [] else [RenameCond(l, index, cs[0])] + RenameConds(l, index, cs[1..])
  }

  /** After-steps copied behind the exit after pass `index`: expressions. */
  function ExitExpr(l: Layout, index: int, e: Expr): Result<Expr>
    requires index >= -1
  {
    var e' :- RewriteExpr(Shift(l.block, index, true), l.text, None, e);
    Ok(RenameExpr(l, index, e'))
  }

  function ExitCond(l: Layout, index: int, c: Cond): Result<Cond>
    requires index >= -1
  {
    var c' :- RewriteCond(Shift(l.block, index, true), None, c);
    Ok(RenameCond(l, index, c'))
  }

  function ExitAction(l: Layout, index: int, a: Action<Expr>): Result<Action<Expr>>
    requires index >= -1
  {
    match a
    case Capability(name, input) =>
      var e :- ExitExpr(l, index, input);
      Ok(Capability(name, e))
    case Replan(cached, carry) =>
      var e :- ExitExpr(l, index, carry);
      Ok(Replan(cached, e))
    case Complete => Ok(Complete)
  }

  function ExitUndo(l: Layout, index: int, undo: Option<Expr>): Result<Option<Expr>>
    requires index >= -1
  {
    match undo
    case None => Ok(None)
    case Some(e) =>
      var e' :- ExitExpr(l, index, e);
      Ok(Some(e'))
  }

  function ExitCases(l: Layout, index: int, cases: seq<Case<Operand>>): Result<seq<Case<Operand>>>
    requires index >= -1
  {
    if cases == [] then Ok([])
    else
      var when :- ExitCond(l, index, cases[0].when);
      var rest :- ExitCases(l, index, cases[1..]);
      Ok([Case(when, ExitId(l, index, cases[0].target))] + rest)
  }

  function ExitNode(l: Layout, index: int, node: Draft): Result<Draft>
    requires index >= -1
  {
    match node
    case Task(action, next, undo) =>
      var a :- ExitAction(l, index, action);
      var u :- ExitUndo(l, index, undo);
      Ok(Task(a, ExitId(l, index, next), u))
    case Sleep(seconds, next) => Ok(Sleep(seconds, ExitId(l, index, next)))
    case Switch(cases, default) =>
      var cs :- ExitCases(l, index, cases);
      Ok(Switch(cs, ExitId(l, index, default)))
    case Split(branches, join) =>
      Ok(Split(seq(|branches|, i requires 0 <= i < |branches| => ExitId(l, index, branches[i])),
        ExitId(l, index, join)))
    case Join(next) => Ok(Join(ExitId(l, index, next)))
  }

  /** The key a copied id was made from. */
  function Original(l: Layout, index: int, id: string): string
    requires index >= -1 && |id| >= |ExitSuffix(l, index)|
  {
    id[..|id| - |ExitSuffix(l, index)|]
  }

  lemma OriginalOf(l: Layout, index: int, key: string)
    requires index >= -1 && key in l.tail
    ensures |ExitId(l, index, key)| >= |ExitSuffix(l, index)|
    ensures Original(l, index, ExitId(l, index, key)) == key
  {
  }

  lemma CopyIdsLong(l: Layout, index: int, keys: set<string>)
    requires index >= -1 && keys <= l.tail
    ensures forall id | id in CopyIds(l, index, keys) ::
      |id| >= |ExitSuffix(l, index)| && Original(l, index, id) in keys
    ensures forall key | key in keys :: Original(l, index, ExitId(l, index, key)) == key
  {
    forall key | key in keys { OriginalOf(l, index, key); }
  }

  /** Every after-step can be copied behind the exit. */
  predicate Copyable(l: Layout, index: int)
    requires index >= -1
  {
    forall key | key in l.tail :: key in l.source && ExitNode(l, index, l.source[key]).Ok?
  }

  function NodeCopies(l: Layout, index: int, keys: set<string>): map<string, Draft>
    requires index >= -1 && keys <= l.tail && Copyable(l, index)
  {
    CopyIdsLong(l, index, keys);
    map id | id in CopyIds(l, index, keys) :: ExitNode(l, index, l.source[Original(l, index, id)]).value
  }

  function ScopeCopies(l: Layout, index: int, keys: set<string>, st: Build): map<string, string>
    requires index >= -1 && keys <= l.tail
  {
    CopyIdsLong(l, index, keys);
    map id | id in CopyIds(l, index, keys) :: ScopeOf(st, Original(l, index, id))
  }

  function JoinCopies(l: Layout, index: int, keys: set<string>, st: Build): map<string, (string, nat)>
    requires index >= -1 && keys <= l.tail
  {
    CopyIdsLong(l, index, keys);
    map id | id in CopyIds(l, index, keys) && Original(l, index, id) in st.joins ::
      (ExitId(l, index, st.joins[Original(l, index, id)].0), st.joins[Original(l, index, id)].1)
  }

  /** Where a run leaves the loop after pass `index`: the after-steps themselves behind the
      block's last pass, a renamed copy of them behind any other. */
  function ExitEntry(l: Layout, index: int, st: Build): Result<(string, Build)>
    requires index >= -1
  {
    if l.tail == {} || index == l.block.chunk - 1 then Ok((l.after, st))
    else if index in st.exits then Ok((st.exits[index], st))
    else if exists key | key in l.tail :: ExitId(l, index, key) in st.ids then
      Raise("Duplicate/reserved operation id")
    else if exists key | key in l.tail :: key !in l.source || ExitNode(l, index, l.source[key]).Raise? then
      Raise("seed")
    else Ok((ExitId(l, index, l.after), CopyTail(l, index, st)))
  }

  /** Copies of the compiler's own ids are its own too. */
  function InnerCopies(l: Layout, index: int, inner: set<string>): set<string>
    requires index >= -1
  {
    set key | key in l.tail && key in inner :: ExitId(l, index, key)
  }

  function CopyTail(l: Layout, index: int, st: Build): Build
    requires index >= -1 && Copyable(l, index)
  {
    Build(
      st.nodes + NodeCopies(l, index, l.tail),
      st.ids + ExitIds(l, index),
      st.inner + InnerCopies(l, index, st.inner),
      st.scopes + ScopeCopies(l, index, l.tail, st),
      st.joins + JoinCopies(l, index, l.tail, st),
      st.exits[index := ExitId(l, index, l.after)])
  }

  // ---------------------------------------------------------------- repeat: passes

  function Checked(b: Block, suffix: string, index: nat): string
  {
    NameOf(b.loop.id + suffix, index, b.chunk)
  }

  function OutputHole(node: string, key: string): Expr
  {
    Words([Hole(["nodes", node] + OUTPUT + [key])])
  }

  function DoneTest(node: string): Cond
  {
    Operator("==", [Var(Raw(["nodes", node] + OUTPUT + ["done"])), Const(Bool(true))])
  }

  function ClockInput(b: Block, index: nat): Expr
  {
    Dict(map[
      "deadline_unix" :=
        if index > 0 && b.deadline == Null then OutputHole(Checked(b, "_clock", index - 1), "deadline_unix")
        else Scalar(b.deadline),
      "duration_seconds" := Scalar(if b.loop.stop.Duration? then Num(b.loop.stop.seconds) else Null),
      "initial_deadline" := Scalar(b.given)])
  }

  /** The rewritten repeat.state mapping, key by key. */
  function StateEntries(s: Shift, text: Json -> string, entries: seq<Retained>): Result<map<string, Expr>>
  {
    if entries == [] then Ok(map[])
    else
      var earlier :- StateEntries(s, text, entries[..|entries| - 1]);
      var e :- RewriteExpr(s, text, None, entries[|entries| - 1].value);
      Ok(earlier[entries[|entries| - 1].key := e])
  }

  function TickInput(b: Block, text: Json -> string, index: nat): Result<Expr>
  {
    var entries :- StateEntries(Shift(b, index, false), text, b.loop.state);
    Ok(Dict(map[
      "iteration" := Scalar(Num(index as real)),
      "remaining_iterations" :=
        Scalar(if b.remaining.Some? then Num((b.remaining.value - index) as real) else Null),
      "initial_remaining" := Scalar(RemainingJson(b.remaining)),
      "deadline_unix" :=
        if Timed(b.loop) then OutputHole(Checked(b, "_clock", index), "deadline_unix") else Scalar(b.deadline),
      "state" := if b.loop.state == [] then Scalar(Null) else Dict(entries),
      "previous_state" :=
        if index == 0 then LiteralOf(b.initial) else OutputHole(Checked(b, "_tick", index - 1), "state"),
      "initial_state" := LiteralOf(b.initial)]))
  }

  function Helper(input: Expr, next: string): Draft
  {
    Task(Capability(CHAIN_STEP, input), next, None)
  }

  /** The bookkeeping behind the body of one pass: tick, and a check unless the pass of a
      count-only repeat cannot be the block's last. Returns the tick's id. */
  function CompileTick(l: Layout, index: nat, next: string, st: Build): Result<(string, Build)>
  {
    var b := l.block;
    var (tick, st1) :- Reserve(st, Some(Checked(b, "_tick", index)));
    var (check, st2) :- Reserve(st1, Some(Checked(b, "_check", index)));
    var st3 :- CompileClock(l, index, st2);
    var input :- TickInput(b, l.text, index);
    if !Timed(b.loop) && b.remaining.Some? && index < b.chunk - 1 then
      Ok((tick, Add(st3, tick, Helper(input, next), "")))
    else
      var st4 := Add(st3, tick, Helper(input, check), "");
      var (target, st5) :- if Timed(b.loop) then ExitEntry(l, index, st4) else Ok((l.after, st4));
      Ok((tick, Add(st5, check, Switch([Case(DoneTest(tick), target)], next), "")))
  }

  function CompileClock(l: Layout, index: nat, st: Build): Result<Build>
  {
    var b := l.block;
    if !Timed(b.loop) then Ok(st)
    else
      var (clock, st1) :- Reserve(st, Some(Checked(b, "_clock", index)));
      Ok(Add(st1, clock, Helper(ClockInput(b, index), Checked(b, "_expired", index)), ""))
  }

  /** The expiry check in front of the body of a timed pass. Returns the pass's first node. */
  function CompileExpiry(l: Layout, index: nat, body: string, st: Build): Result<(string, Build)>
  {
    var b := l.block;
    if !Timed(b.loop) then Ok((body, st))
    else
      var (expired, st1) :- Reserve(st, Some(Checked(b, "_expired", index)));
      var (target, st2) :- ExitEntry(l, index - 1, st1);
      var clock := Checked(b, "_clock", index);
      Ok((clock, Add(st2, expired, Switch([Case(DoneTest(clock), target)], body), "")))
  }

  /** The wait in front of every pass but the first. Returns where the pass is entered. */
  function CompilePause(l: Layout, index: nat, entry: string, st: Build): Result<(string, Build)>
  {
    if index == 0 then Ok((entry, st))
    else
      var (wait, st1) :- Reserve(st, Some(Checked(l.block, "_wait", index - 1)));
      Ok((wait, Add(st1, wait, Sleep(l.block.loop.interval, entry), "")))
  }

  function CompilePass(l: Layout, index: nat, next: string, st: Build): Result<(string, Build)>
  {
    var (tick, st1) :- CompileTick(l, index, next, st);
    var body :- RewriteOps(Shift(l.block, index, false), l.text, l.block.loop.body);
    var (entry, st2) :- CompileOps(body, tick, "", st1);
    var (first, st3) :- CompileExpiry(l, index, entry, st2);
    CompilePause(l, index, first, st3)
  }

  /** Passes index - 1 down to 0, the last of them continuing at `next`. */
  function CompilePasses(l: Layout, index: nat, next: string, st: Build): Result<(string, Build)>
  {
    if index == 0 then Ok((next, st))
    else
      var (entry, st1) :- CompilePass(l, index - 1, next, st);
      CompilePasses(l, index - 1, entry, st1)
  }

  // ---------------------------------------------------------------- repeat: continuation

  function CarryExpr(b: Block): Expr
  {
    var tick := TickId(b.loop);
    Dict(map[
      "deadline_unix" := OutputHole(tick, "deadline_unix"),
      "remaining_iterations" := OutputHole(tick, "remaining_iterations"),
      "state" := OutputHole(tick, "state")])
  }

  predicate Continues(b: Block) { b.remaining.None? || b.remaining.value > b.chunk }

  /** The node that hands the rest of an unfinished repeat to the next compilation. */
  function CompileContinuation(b: Block, plan: Plan, after: string, st: Build): Result<(string, Build)>
  {
    if !Continues(b) then Ok((after, st))
    else
      var nid := b.loop.id;
      var (continuation, st1) :- Reserve(st, Some(nid + "_continue"));
      var (boundary, st2) :- Reserve(st1, Some(nid + "_boundary_wait"));
      var st3 := Add(st2, continuation, Task(Replan(Cached(plan, nid), CarryExpr(b)), END, None), "");
      Ok((boundary, Add(st3, boundary, Sleep(b.loop.interval, continuation), "")))
  }

  /** A repeat resumed with nothing left: the after-steps read the retained state. */
  function SeedTail(l: Layout, st: Build): Result<Build>
  {
    var keep := l.(tail := {});
    if exists key | key in l.tail && key in st.nodes :: ExitNode(keep, -1, st.nodes[key]).Raise? then Raise("seed")
    else
      Ok(st.(nodes := map id | id in st.nodes ::
        if id in l.tail then ExitNode(keep, -1, st.nodes[id]).value else st.nodes[id]))
  }

  function CompileRepeat(plan: Plan, loop: Repeat, continuation: map<string, Json>, text: Json -> string, after: string,
      st: Build): Result<(string, Build)>
  {
    var (_, st1) :- Reserve(st, Some(loop.id));
    var b :- BlockOf(loop, continuation);
    var l := Layout(b, after, Reach(st1.nodes, [after], {}), st1.nodes, text);
    if b.remaining == Some(0) then
      var st2 :- SeedTail(l, st1);
      Ok((after, st2))
    else
      var (next, st2) :- CompileContinuation(b, plan, after, st1);
      CompilePasses(l, b.chunk, next, st2)
  }

  // ---------------------------------------------------------------- whole plans

  /** The constructor's test for repeats that may need a second block. */
  predicate Chunked(loop: Repeat)
  {
    match loop.stop
    case Continuous => true
    case Deadline(_) => true
    case Count(n) => n > CHUNK
    case Duration(seconds) => loop.interval != 0.0 && seconds / loop.interval > CHUNK as real
  }

  datatype Built = Built(entry: string, build: Build)

  function CompileDraft(plan: Plan, continuation: map<string, Json>, resume: Option<string>,
      text: Json -> string): Result<Built>
  {
    match plan
    case Straight(steps) =>
      if resume.Some? then Raise("Continuation must resume a top-level repeat")
      else
        var (entry, st) :- CompileOps(steps, END, "", EMPTY);
        Ok(Built(entry, st))
    case Looping(before, loop, after) =>
      if before != [] && Chunked(loop) then Raise("actions before a continued repeat")
      else if resume.Some? && resume.value != loop.id then Raise("Continuation must resume a top-level repeat")
      else
        var (tail, st1) :- CompileOps(after, END, "", EMPTY);
        var (entry, st2) :- CompileRepeat(plan, loop, continuation, text, tail, st1);
        if resume.Some? then Ok(Built(entry, st2))
        else
          var (first, st3) :- CompileOps(before, entry, "", st2);
          Ok(Built(first, st3))
  }

  datatype Compiled = Compiled(entry: string, graph: Native)

  function Compile(plan: Plan, continuation: map<string, Json>, resume: Option<string>,
      text: Json -> string): Result<Compiled>
  {
    var built :- CompileDraft(plan, continuation, resume, text);
    var graph :- ResolveAll(built.build);
    Ok(Compiled(built.entry, graph))
  }
}
