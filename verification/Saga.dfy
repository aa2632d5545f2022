/** Compensation: a failing task unwinds exactly the tasks its execution completed before it. */
module Saga {
  import opened Json
  import opened Plan
  import opened Graph

  /** The tasks the execution that stopped a walk had completed, in order, and its node results
      then; `inner` when it was a branch's, which knows nothing of the tasks around it. */
  datatype History = History(inner: bool, tasks: seq<string>, nodes: map<string, Json>)

  function Remember(g: Native, w: World, limit: nat, current: string, f: Frame, r: Run, n: nat): History
    decreases Left(limit, n), 0
  {
    if current == END || n + 1 > limit || current !in g then History(false, [], f.nodes)
    else
      var ctx := Context(w, f.nodes);
      match g[current]
      case Task(action, next, undo) =>
        var done := Perform(w, action, ctx, r);
        if done.Crashed? || HasError(done.body) then History(false, [], f.nodes)
        else
          var h := Remember(g, w, limit, next, Completed(f, current, done.body, undo), done.run, n + 1);
          if h.inner then h else History(false, [current] + h.tasks, h.nodes)
      case Sleep(seconds, next) => Remember(g, w, limit, next, f, r.(clock := r.clock + seconds), n + 1)
      case Switch(cases, default) =>
        var chosen := Choose(w, cases, default, ctx);
        if chosen.None? then History(false, [], f.nodes) else Remember(g, w, limit, chosen.value, f, r, n + 1)
      case Split(branches, join) =>
        (match WalkBranches(g, w, limit, branches, r.clock, r, n + 1)
         case BranchFailed(_, _, _) => RememberBranches(g, w, limit, branches, r.clock, r, n + 1)
         case AllDone(results, clocks, r', n') =>
           if clocks == [] || join !in g || !g[join].Join? then History(false, [], f.nodes)
           else Remember(g, w, limit, g[join].next, Rejoined(f, join, JoinBody(branches, results)),
             r'.(clock := Latest(clocks)), n'))
      case Join(_) => History(false, [], f.nodes)
  }

  function Rejoined(f: Frame, join: string, body: Json): Frame
  {
    Frame(f.nodes[join := Response(body)], body, f.undo)
  }

  /** The history of the branch that failed. */
  function RememberBranches(g: Native, w: World, limit: nat, branches: seq<string>, start: real, r: Run,
      n: nat): History
    decreases Left(limit, n), |branches| + 1
  {
    if branches == [] then History(true, [], map[])
    else
      match Walk(g, w, limit, branches[0], FRESH, r.(clock := start), n)
      case Failed(_, _, _) => Remember(g, w, limit, branches[0], FRESH, r.(clock := start), n).(inner := true)
      case Done(_, r', n') => RememberBranches(g, w, limit, branches[1..], start, r', n')
  }

  function UndoOf(g: Native, id: string): seq<Tmpl>
  {
    if id in g && g[id].Task? && g[id].undo.Some? then [g[id].undo.value] else []
  }

  /** The compensations owed for completed tasks, in completion order. */
  function Owed(g: Native, tasks: seq<string>): seq<Tmpl>
  {
    if tasks == [] then [] else Owed(g, tasks[..|tasks| - 1]) + UndoOf(g, tasks[|tasks| - 1])
  }

  /** What a failed task pays back: the last completed first, each with the results at hand. */
  function PaidBack(g: Native, w: World, tasks: seq<string>, nodes: map<string, Json>): seq<Json>
  {
    Unwind(Owed(g, tasks), Context(w, nodes), w.text)
  }

  /** The tasks a stopped walk pays back: those of its own execution, or of the failing branch. */
  function Liable(done: seq<string>, h: History): seq<string> { if h.inner then h.tasks else done + h.tasks }

  /** When a task fails, the compensations issued are those of the tasks its execution completed
      before it, latest first; the failed task owes nothing, the executions around a failing branch
      pay nothing back, and any other end issues none. */
  lemma {:induction false} FailureUnwinds(g: Native, w: World, limit: nat, current: string, f: Frame, r: Run, n: nat,
      done: seq<string>)
    requires f.undo == Owed(g, done)
    ensures var out, h := Walk(g, w, limit, current, f, r, n), Remember(g, w, limit, current, f, r, n);
      && (out.Failed? && out.error == TaskFailed ==>
        out.run.compensations == r.compensations + PaidBack(g, w, Liable(done, h), h.nodes))
      && (!(out.Failed? && out.error == TaskFailed) ==> out.run.compensations == r.compensations)
    decreases Left(limit, n), 0
  {
    hide Unwind, Choose, Context, Perform, HasError, PaidBack, Owed;
    if current != END && n + 1 <= limit && current in g {
      match g[current]
      case Task(action, next, undo) =>
        var result := Perform(w, action, Context(w, f.nodes), r);
        PerformOwesNothing(w, action, Context(w, f.nodes), r);
        assert done + [] == done;
        assert PaidBack(g, w, done, f.nodes) == Unwind(f.undo, Context(w, f.nodes), w.text) by {
          PaysBack(g, w, done, f); }
        if result.Body? && !HasError(result.body) {
          var f' := Completed(f, current, result.body, undo);
          var one := [current];
          OwedOne(g, done, current);
          assert f'.undo == Owed(g, done + one);
          FailureUnwinds(g, w, limit, next, f', result.run, n + 1, done + one);
          var h := Remember(g, w, limit, next, f', result.run, n + 1);
          assert (done + one) + h.tasks == done + (one + h.tasks);
        }
      case Sleep(seconds, next) =>
        FailureUnwinds(g, w, limit, next, f, r.(clock := r.clock + seconds), n + 1, done);
      case Switch(cases, default) =>
        var chosen := Choose(w, cases, default, Context(w, f.nodes));
        if chosen.Some? { FailureUnwinds(g, w, limit, chosen.value, f, r, n + 1, done); }
      case Split(branches, join) => SplitUnwinds(g, w, limit, current, f, r, n, done);
      case Join(_) =>
    }
  }

  lemma {:induction false} SplitUnwinds(g: Native, w: World, limit: nat, current: string, f: Frame, r: Run, n: nat,
      done: seq<string>)
    requires f.undo == Owed(g, done) && current in g && g[current].Split? && current != END && n + 1 <= limit
    ensures var out, h := Walk(g, w, limit, current, f, r, n), Remember(g, w, limit, current, f, r, n);
      && (out.Failed? && out.error == TaskFailed ==>
        out.run.compensations == r.compensations + PaidBack(g, w, Liable(done, h), h.nodes))
      && (!(out.Failed? && out.error == TaskFailed) ==> out.run.compensations == r.compensations)
    decreases Left(limit, n + 1), |g[current].branches| + 2
  {
    hide Context, PaidBack, Owed, JoinBody, Latest;
    var branches, join := g[current].branches, g[current].join;
    BranchesUnwind(g, w, limit, branches, r.clock, r, n + 1);
    match WalkBranches(g, w, limit, branches, r.clock, r, n + 1)
    case BranchFailed(_, _, _) =>
    case AllDone(results, clocks, r', n') =>
      if clocks != [] && join in g && g[join].Join? {
        FailureUnwinds(g, w, limit, g[join].next, Rejoined(f, join, JoinBody(branches, results)),
          r'.(clock := Latest(clocks)), n', done);
      }
  }

  lemma {:induction false} BranchesUnwind(g: Native, w: World, limit: nat, branches: seq<string>, start: real, r: Run,
      n: nat)
    ensures var out, h := WalkBranches(g, w, limit, branches, start, r, n),
      RememberBranches(g, w, limit, branches, start, r, n);
      && h.inner
      && (out.BranchFailed? && out.error == TaskFailed ==>
        out.run.compensations == r.compensations + PaidBack(g, w, h.tasks, h.nodes))
      && (!(out.BranchFailed? && out.error == TaskFailed) ==> out.run.compensations == r.compensations)
    decreases Left(limit, n), |branches| + 1
  {
    hide PaidBack;
    if branches != [] {
      assert Owed(g, []) == [];
      FailureUnwinds(g, w, limit, branches[0], FRESH, r.(clock := start), n, []);
      var h := Remember(g, w, limit, branches[0], FRESH, r.(clock := start), n);
      assert [] + h.tasks == h.tasks;
      match Walk(g, w, limit, branches[0], FRESH, r.(clock := start), n)
      case Failed(_, _, _) =>
      case Done(_, r', n') => BranchesUnwind(g, w, limit, branches[1..], start, r', n');
    }
  }

  lemma OwedOne(g: Native, done: seq<string>, current: string)
    requires current in g && g[current].Task?
    ensures Owed(g, done + [current]) == if g[current].undo.Some? then Owed(g, done) + [g[current].undo.value]
      else Owed(g, done)
  {
    assert (done + [current])[..|done|] == done;
  }

  lemma PaysBack(g: Native, w: World, done: seq<string>, f: Frame)
    requires f.undo == Owed(g, done)
    ensures PaidBack(g, w, done, f.nodes) == Unwind(f.undo, Context(w, f.nodes), w.text)
  {
  }

  lemma PerformOwesNothing(w: World, action: Action<Tmpl>, ctx: Json, r: Run)
    ensures Perform(w, action, ctx, r).run.compensations == r.compensations
  {
  }

  // ---------------------------------------------------------------- failed responses

  /** A task fails on a failed response if and only if the response has a message; without one the
      walk goes on as if the capability had answered. */
  lemma FailsIffSaid(g: Native, w: World, limit: nat, id: string, f: Frame, r: Run, n: nat, status: int,
      message: string)
    requires id in g && id != END && n + 1 <= limit && g[id].Task? && g[id].action.Capability?
      && g[id].action.name != CHAIN_STEP
    requires w.reply(g[id].action.name, Render(g[id].action.input, Context(w, f.nodes), w.text), r.trace)
      == HttpFailure(status, message)
    ensures var performed := Perform(w, g[id].action, Context(w, f.nodes), r);
      && performed.Body?
      && Walk(g, w, limit, id, f, r, n) ==
           if message != "" then
             Failed(TaskFailed,
               performed.run.(compensations :=
               performed.run.compensations + Unwind(f.undo, Context(w, f.nodes), w.text)), n + 1)
           else Walk(g, w, limit, g[id].next, Completed(f, id, performed.body, g[id].undo), performed.run, n + 1)
  {
    hide Render;
    var performed := Perform(w, g[id].action, Context(w, f.nodes), r);
    assert Step(performed.body, "error") == Str(message);
  }

  /** One call of a capability that is down and does not say why: the run ends well. */
  lemma SilentFailure(r: Run, status: int)
    ensures var g := map["a" := Task(Capability("mail", TScalar(Null)), END, None)];
      var w := World(Null, (name, args, calls) => HttpFailure(status, ""), (op, x, y) => None, (v: Json) => "");
      Walk(g, w, 1, "a", FRESH, r, 0).Done?
  {
    var g: Native := map["a" := Task(Capability("mail", TScalar(Null)), END, None)];
    var w := World(Null, (name, args, calls) => HttpFailure(status, ""), (op, x, y) => None, (v: Json) => "");
    FailsIffSaid(g, w, 1, "a", FRESH, r, 0, status, "");
  }
}
