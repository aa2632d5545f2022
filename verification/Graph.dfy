/** Native workflow graphs and the meaning the offline simulator gives them. */
module Graph {
  import opened Json
  import opened Plan

  /** A request template: strings carry {{ path }} holes, literal data is never re-rendered. */
  datatype Tmpl =
    | TScalar(value: Json)
    | TWords(pieces: seq<Piece>)
    | TLiteral(data: Json)
    | TList(items: seq<Tmpl>)
    | TDict(entries: map<string, Tmpl>)

  /** What a continuation node hands to the next compilation, as protected literal data. */
  datatype Cached = Cached(plan: Plan, completedRepeat: string)

  datatype Action<E> =
    | Capability(name: string, input: E)
    | Replan(cached: Cached, carry: E)         // POST /plans
    | Complete                                 // POST /plans/<id>/complete

  datatype Case<V> = Case(when: Logic<V>, target: string)

  datatype Node<E, V> =
    | Task(action: Action<E>, next: string, undo: Option<E>)
    | Sleep(seconds: real, next: string)
    | Switch(cases: seq<Case<V>>, default: string)
    | Split(branches: seq<string>, join: string)
    | Join(next: string)

  type NativeNode = Node<Tmpl, Path>
  type Native = map<string, NativeNode>

  const END := "end"
  const CHAIN_STEP := "stat.chain_step"

  /** No node is called like the end of an execution. */
  predicate ProperNames(g: Native) { END !in g && "" !in g }

  // ---------------------------------------------------------------- edges

  /** Every id a node names, in order. */
  function Targeted<E, V>(node: Node<E, V>): seq<string>
  {
    match node
    case Task(_, next, _) => [next]
    case Sleep(_, next) => [next]
    case Join(next) => [next]
    case Switch(cases, default) => Targets(cases) + [default]
    case Split(branches, join) => branches + [join]
  }

  /** Outgoing edges, without the end of the execution. */
  function Successors<E, V>(node: Node<E, V>): seq<string>
  {
    Proper(Targeted(node))
  }

  function Targets<V>(cases: seq<Case<V>>): (r: seq<string>)
    ensures |r| == |cases|
  {
    seq(|cases|, i requires 0 <= i < |cases| => cases[i].target)
  }

  function Proper(targets: seq<string>): (r: seq<string>)
    ensures forall t :: t in r <==> t in targets && t != END && t != ""
  {
    if targets == [] then []
    else
      (if targets[0] == END || targets[0] == "" then [] else [targets[0]]) + Proper(targets[1..])
  }

  lemma CasesAreTargeted(node: NativeNode)
    requires node.Switch?
    ensures forall c | c in node.cases :: c.target in Targeted(node)
  {
    forall c | c in node.cases ensures c.target in Targeted(node) {
      var i :| 0 <= i < |node.cases| && node.cases[i] == c;
      assert Targeted(node)[i] == c.target;
    }
  }

  lemma EntryIsTargeted(node: NativeNode, b: string)
    requires node.Split? && b in node.branches
    ensures b in Targeted(node)
  {
    var i :| 0 <= i < |node.branches| && node.branches[i] == b;
    assert Targeted(node)[i] == b;
  }

  // ---------------------------------------------------------------- world

  datatype Invocation = Invocation(name: string, args: Json, at: real)

  /** A capability's answer: its output, a failed transport response, or no fixture at all. */
  datatype Reply = Output(value: Json) | HttpFailure(status: int, message: string) | Unavailable

  /** Everything the simulator takes from outside: payload, capabilities (which may depend on
      the calls made so far), the operators left to Python's dynamic typing, and str(). */
  datatype World = World(
    payload: Json,
    reply: (string, Json, seq<Invocation>) -> Reply,
    operator: (string, Json, Json) -> Option<Json>,
    text: Json -> string)

  /** What a run leaves behind, apart from its node results. */
  datatype Run = Run(
    clock: real,
    trace: seq<Invocation>,
    chainSteps: nat,
    continuations: seq<Continuation>,
    compensations: seq<Json>,
    completions: nat)

  datatype Continuation = Continuation(cached: Cached, carry: Json)

  datatype Error = TaskFailed | OutOfSteps | UnknownNode | JoinEntered | Exception

  // ---------------------------------------------------------------- rendering

  function Response(body: Json): Json
  {
    Obj(map["response" := Obj(map["body" := body])])
  }

  const RUNTIME: Json := Obj(map["callback" :=
    Obj(map["url" := Str("https://callback.example"), "token" := Str("fixture")])])

  function Context(w: World, nodes: map<string, Json>): Json
  {
    Obj(map["payload" := w.payload, "nodes" := Obj(nodes), "runtime" := RUNTIME])
  }

  /** A piece of a string with its placeholders replaced by values. */
  datatype Fragment = Spoken(text: string) | Value(v: Json)

  function Fill(pieces: seq<Piece>, ctx: Json): (r: seq<Fragment>)
    ensures |r| == |pieces|
  {
    seq(|pieces|, i requires 0 <= i < |pieces| =>
      match pieces[i]
      case Text(s) => Spoken(s)
      case Hole(p) => Value(Lookup(ctx, p)))
  }

  /** Interpolated text of a live value: falsy values vanish. */
  function LiveText(text: Json -> string, v: Json): string
  {
    if !Truthy(v) then "" else if v.Str? then v.s else text(v)
  }

  function Speak(text: Json -> string, fragments: seq<Fragment>): string
  {
    if fragments == [] then "" else
      (match fragments[0]
       case Spoken(s) => s
       case Value(v) => LiveText(text, v)) + Speak(text, fragments[1..])
  }

  function DropEmpty(fragments: seq<Fragment>): seq<Fragment>
  {
    if fragments == [] then []
    else if fragments[0] == Spoken("") then DropEmpty(fragments[1..])
    else [fragments[0]] + DropEmpty(fragments[1..])
  }

  /** A string that is exactly one placeholder yields the typed value; any other is text. */
  function Finish(text: Json -> string, fragments: seq<Fragment>): Json
  {
    var kept := DropEmpty(fragments);
    if |kept| == 1 && kept[0].Value? then kept[0].v else Str(Speak(text, fragments))
  }

  function Render(t: Tmpl, ctx: Json, text: Json -> string): Json
  {
    match t
    case TScalar(v) => v
    case TWords(pieces) => Finish(text, Fill(pieces, ctx))
    case TLiteral(data) => data
    case TList(items) => Arr(seq(|items|, i requires 0 <= i < |items| => Render(items[i], ctx, text)))
    case TDict(entries) => Obj(map k | k in entries :: Render(entries[k], ctx, text))
  }

  // ---------------------------------------------------------------- JSONLogic

  /** None stands for a raised exception. */
  function Decide<V>(w: World, e: Logic<V>, read: V -> Option<Json>): Option<Json>
    decreases e, 0
  {
    match e
    case Const(v) => Some(v)
    case Protected(_) => None
    case Var(v) => read(v)
    case Group(items) =>
      (match DecideAll(w, items, read)
       case Some(vs) => Some(Arr(vs))
       case None => None)
    case Operator(op, args) =>
      (match DecideAll(w, args, read)
       case Some(vs) => Apply(w, op, vs)
       case None => None)
  }

  function DecideAll<V>(w: World, es: seq<Logic<V>>, read: V -> Option<Json>): (r: Option<seq<Json>>)
    ensures r.Some? ==> |r.value| == |es|
    decreases es, 1
  {
    if es == [] then Some([])
    else
      match Decide(w, es[0], read)
      case None => None
      case Some(v) =>
        match DecideAll(w, es[1..], read)
        case None => None
        case Some(vs) => Some([v] + vs)
  }

  /** Operators left to Python's dynamic typing. */
  const TYPED := {"in", ">=", "<=", ">", "<", "+", "-", "*", "/"}

  function Apply(w: World, op: string, vs: seq<Json>): Option<Json>
  {
    if op == "and" then Some(Bool(forall v | v in vs :: Truthy(v)))
    else if op == "or" then Some(Bool(exists v | v in vs :: Truthy(v)))
    else if op == "!" then (if vs == [] then None else Some(Bool(!Truthy(vs[0]))))
    else if |vs| != 2 then None
    else if op == "==" then Some(Bool(LooseEqual(vs[0], vs[1])))
    else if op == "===" then Some(Bool(StrictEqual(vs[0], vs[1])))
    else if op == "!=" then Some(Bool(!LooseEqual(vs[0], vs[1])))
    else if op in TYPED then w.operator(op, vs[0], vs[1])
    else None
  }

  // ---------------------------------------------------------------- stat.chain_step

  const CHAIN_KEYS := {"iteration", "remaining_iterations", "initial_remaining", "deadline_unix",
                       "duration_seconds", "initial_deadline", "state", "previous_state",
                       "initial_state"}

  function Arg(args: map<string, Json>, key: string): Json
  {
    if key in args then args[key] else Null
  }

  function FirstGiven(a: Json, b: Json): Json { if a != Null then a else b }

  function Truncate(r: real): int
  {
    if r >= 0.0 then r.Floor else -((-r).Floor)
  }

  /** int(v or 0) on the numbers the compiler writes; other types raise. */
  function AsInt(v: Json): Option<int>
  {
    if !Truthy(v) then Some(0) else
    match v
    case Num(n) => Some(Truncate(n))
    case Bool(_) => Some(1)
    case _ => None
  }

  function AsReal(v: Json): Option<real>
  {
    match v
    case Num(n) => Some(n)
    case Bool(b) => Some(if b then 1.0 else 0.0)
    case _ => None
  }

  function ChainDeadline(args: map<string, Json>, now: real): Option<Json>
  {
    var given := FirstGiven(Arg(args, "deadline_unix"), Arg(args, "initial_deadline"));
    var duration := Arg(args, "duration_seconds");
    if given != Null || duration == Null then Some(given)
    else
      match AsReal(duration)
      case Some(d) => Some(Num(now + d))
      case None => None
  }

  function ChainRemaining(args: map<string, Json>): Option<Json>
  {
    var given := FirstGiven(Arg(args, "remaining_iterations"), Arg(args, "initial_remaining"));
    if given == Null then Some(Null)
    else
      match AsInt(given)
      case Some(n) => Some(Num((if n - 1 > 0 then n - 1 else 0) as real))
      case None => None
  }

  function ChainState(args: map<string, Json>): Json
  {
    var given := FirstGiven(Arg(args, "state"), Arg(args, "previous_state"));
    if given != Null then given
    else if Truthy(Arg(args, "initial_state")) then Arg(args, "initial_state")
    else Obj(map[])
  }

  function ChainDone(remaining: Json, deadline: Json, now: real): Option<bool>
  {
    if remaining == Num(0.0) then Some(true)
    else if deadline == Null then Some(false)
    else
      match AsReal(deadline)
      case Some(d) => Some(now >= d)
      case None => None
  }

  /** The loop bookkeeping capability, at virtual time now; None is a raised exception. */
  function AdvanceChain(input: Json, now: real): Option<Json>
  {
    if !input.Obj? || !(input.fields.Keys <= CHAIN_KEYS) then None
    else
      var args := input.fields;
      var deadline, iteration, remaining :=
        ChainDeadline(args, now), AsInt(Arg(args, "iteration")), ChainRemaining(args);
      if deadline.None? || iteration.None? || remaining.None? then None
      else
        match ChainDone(remaining.value, deadline.value, now)
        case None => None
        case Some(done) =>
          Some(Obj(map[
            "iteration" := Num((iteration.value + 1) as real),
            "deadline_unix" := deadline.value,
            "remaining_iterations" := remaining.value,
            "state" := ChainState(args),
            "done" := Bool(done)]))
  }

  // ---------------------------------------------------------------- tasks

  datatype Performed = Body(body: Json, run: Run) | Crashed(run: Run)

  function Invoke(w: World, name: string, args: Json, r: Run): Performed
  {
    if name == CHAIN_STEP then
      var r' := r.(chainSteps := r.chainSteps + 1);
      match AdvanceChain(args, r.clock)
      case Some(out) => Body(Obj(map["output" := out]), r')
      case None => Crashed(r')
    else
      var r' := r.(trace := r.trace + [Invocation(name, args, r.clock)]);
      match w.reply(name, args, r.trace)
      case Output(v) => Body(Obj(map["output" := v]), r')
      case HttpFailure(status, message) =>
        Body(Obj(map["error" := Str(message), "status" := Num(status as real)]), r')
      case Unavailable => Crashed(r')
  }

  function Perform(w: World, action: Action<Tmpl>, ctx: Json, r: Run): Performed
  {
    match action
    case Capability(name, input) => Invoke(w, name, Render(input, ctx, w.text), r)
    case Replan(cached, carry) =>
      Body(Obj(map["plan_id" := Str("simulation")]),
           r.(continuations := r.continuations + [Continuation(cached, Render(carry, ctx, w.text))]))
    case Complete => Body(Obj(map[]), r.(completions := r.completions + 1))
  }

  predicate HasError(body: Json) { Truthy(Step(body, "error")) }

  /** Renders the compensations of completed tasks, latest first. */
  function Unwind(undo: seq<Tmpl>, ctx: Json, text: Json -> string): (calls: seq<Json>)
    ensures |calls| == |undo|
  {
    seq(|undo|, i requires 0 <= i < |undo| => Render(undo[|undo| - 1 - i], ctx, text))
  }

  // ---------------------------------------------------------------- walking

  /** One execution's own view: node results, last result, compensation stack. */
  datatype Frame = Frame(nodes: map<string, Json>, last: Json, undo: seq<Tmpl>)

  const FRESH: Frame := Frame(map[], Null, [])

  datatype Outcome =
    | Done(frame: Frame, run: Run, steps: nat)
    | Failed(error: Error, run: Run, steps: nat)

  datatype BranchOutcome =
    | AllDone(results: seq<Json>, clocks: seq<real>, run: Run, steps: nat)
    | BranchFailed(error: Error, run: Run, steps: nat)

  function Left(limit: nat, steps: nat): nat { if steps < limit then limit - steps else 0 }

  function Latest(clocks: seq<real>): real
    requires clocks != []
  {
    if |clocks| == 1 then clocks[0]
    else
      var rest := Latest(clocks[1..]);
      if clocks[0] >= rest then clocks[0] else rest
  }

  function BranchResult(branch: string, result: Json): Json
  {
    Obj(map["branchId" := Str(branch), "status" := Str("SUCCEEDED"), "result" := result])
  }

  function JoinBody(branches: seq<string>, results: seq<Json>): Json
    requires |branches| == |results|
  {
    Obj(map[
      "branches" := Arr(seq(|branches|, i requires 0 <= i < |branches| => BranchResult(branches[i], results[i]))),
      "allSucceeded" := Bool(true),
      "expected" := Num(|branches| as real)])
  }

  function ReadFrom(ctx: Json): Path -> Option<Json>
  {
    p => Some(Lookup(ctx, p))
  }

  /** The first case whose condition is truthy; None if a condition raises. */
  function Choose(w: World, cases: seq<Case<Path>>, default: string, ctx: Json): Option<string>
  {
    if cases == [] then Some(default)
    else
      match Decide(w, cases[0].when, ReadFrom(ctx))
      case None => None
      case Some(v) => if Truthy(v) then Some(cases[0].target) else Choose(w, cases[1..], default, ctx)
  }

  /** Runs one execution from a node to "end". The step counter is shared by every execution. */
  function Walk(g: Native, w: World, limit: nat, current: string, f: Frame, r: Run, n: nat): (out: Outcome)
    ensures out.steps >= n
    decreases Left(limit, n), 0
  {
    if current == END then Done(f, r, n)
    else if n + 1 > limit then Failed(OutOfSteps, r, n + 1)
    else if current !in g then Failed(UnknownNode, r, n + 1)
    else
      var ctx := Context(w, f.nodes);
      match g[current]
      case Task(action, next, undo) =>
        (match Perform(w, action, ctx, r)
         case Crashed(r') => Failed(Exception, r', n + 1)
         case Body(body, r') =>
           if HasError(body) then
             Failed(TaskFailed, r'.(compensations := r'.compensations + Unwind(f.undo, ctx, w.text)), n + 1)
           else
             Walk(g, w, limit, next, Completed(f, current, body, undo), r', n + 1))
      case Sleep(seconds, next) =>
        Walk(g, w, limit, next, f, r.(clock := r.clock + seconds), n + 1)
      case Switch(cases, default) =>
        (match Choose(w, cases, default, ctx)
         case None => Failed(Exception, r, n + 1)
         case Some(target) => Walk(g, w, limit, target, f, r, n + 1))
      case Split(branches, join) =>
        (match WalkBranches(g, w, limit, branches, r.clock, r, n + 1)
         case BranchFailed(e, r', n') => Failed(e, r', n')
         case AllDone(results, clocks, r', n') =>
           if clocks == [] then Failed(Exception, r', n')
           else if join !in g || !g[join].Join? then Failed(UnknownNode, r', n')
           else
             var body := JoinBody(branches, results);
             Walk(g, w, limit, g[join].next, Frame(f.nodes[join := Response(body)], body, f.undo),
                  r'.(clock := Latest(clocks)), n'))
      case Join(_) => Failed(JoinEntered, r, n + 1)
  }

  function Completed(f: Frame, current: string, body: Json, undo: Option<Tmpl>): Frame
  {
    Frame(f.nodes[current := Response(body)], body,
          if undo.Some? then f.undo + [undo.value] else f.undo)
  }

  /** Runs the branches in order, each as a child execution starting at the split's clock. */
  function WalkBranches(g: Native, w: World, limit: nat, branches: seq<string>, start: real, r: Run,
      n: nat): (out: BranchOutcome)
    ensures out.steps >= n
    ensures out.AllDone? ==> |out.results| == |out.clocks| == |branches|
    decreases Left(limit, n), |branches| + 1
  {
    if branches == [] then AllDone([], [], r, n)
    else
      match Walk(g, w, limit, branches[0], FRESH, r.(clock := start), n)
      case Failed(e, r', n') => BranchFailed(e, r', n')
      case Done(f', r', n') =>
        match WalkBranches(g, w, limit, branches[1..], start, r', n')
        case BranchFailed(e, r'', n'') => BranchFailed(e, r'', n'')
        case AllDone(results, clocks, r'', n'') =>
          AllDone([f'.last] + results, [r'.clock] + clocks, r'', n'')
  }
}
