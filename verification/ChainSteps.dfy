/** The bookkeeping tasks the compiler adds to a repeat do the evaluator's bookkeeping. */
module ChainSteps {
  import opened Json
  import opened Plan
  import opened Graph
  import opened Meaning
  import opened Compiler
  import opened Agreement
  import opened Realization

  function TickArgs(index: nat, remaining: Json, initialRemaining: Json, deadline: Json, state: Json, previous: Json,
      initial: Json): Json
  {
    Obj(map["iteration" := Num(index as real), "remaining_iterations" := remaining,
            "initial_remaining" := initialRemaining, "deadline_unix" := deadline,
            "state" := state, "previous_state" := previous, "initial_state" := initial])
  }

  function ClockArgs(deadline: Json, duration: Json, initialDeadline: Json): Json
  {
    Obj(map["deadline_unix" := deadline, "duration_seconds" := duration, "initial_deadline" := initialDeadline])
  }

  const TICK_KEYS := {"iteration", "remaining_iterations", "initial_remaining", "deadline_unix", "state",
      "previous_state", "initial_state"}

  lemma TickArgsEntries(i: nat, left: Json, remaining: Json, deadline: Json, state: Json, previous: Json, initial: Json)
    ensures var args := TickArgs(i, left, remaining, deadline, state, previous, initial);
      && args.Obj? && args.fields.Keys == TICK_KEYS
      && args.fields["iteration"] == Num(i as real) && args.fields["remaining_iterations"] == left
      && args.fields["initial_remaining"] == remaining && args.fields["deadline_unix"] == deadline
      && args.fields["state"] == state && args.fields["previous_state"] == previous
      && args.fields["initial_state"] == initial
  {
  }

  function LeftJson(remaining: Option<nat>, i: nat): Json
    requires remaining.Some? ==> i <= remaining.value
  {
    if remaining.Some? then Num((remaining.value - i) as real) else Null
  }

  lemma WholeTruncates(n: int)
    requires n >= 0
    ensures Truncate(n as real) == n
  {
  }

  /** What the capability returns, put together. */
  lemma Advanced(args: map<string, Json>, now: real, deadline: Json, iteration: int, remaining: Json, state: Json,
      done: bool)
    requires args.Keys <= CHAIN_KEYS && ChainDeadline(args, now) == Some(deadline)
    requires AsInt(Arg(args, "iteration")) == Some(iteration) && ChainRemaining(args) == Some(remaining)
    requires ChainState(args) == state && ChainDone(remaining, deadline, now) == Some(done)
    ensures AdvanceChain(Obj(args), now)
         == Some(Obj(map["iteration" := Num((iteration + 1) as real), "deadline_unix" := deadline,
                         "remaining_iterations" := remaining, "state" := state, "done" := Bool(done)]))
  {
    hide ChainDeadline, AsInt, ChainRemaining, ChainState, ChainDone, Arg;
  }

  /** One tick: counters go on, the deadline stays, the given state replaces the previous one. */
  lemma TickAdvances(i: nat, remaining: Option<nat>, deadline: Option<real>, state: Json, previous: Json, initial: Json,
      now: real, c: Carry)
    requires remaining.Some? ==> i < remaining.value
    requires previous != Null
    requires c.state == FirstGiven(state, previous) && c.deadline == deadline && c.iteration == i + 1
    requires c.remaining == if remaining.Some? then Some(remaining.value - i - 1) else None
    requires c.done <==> c.remaining == Some(0) || Past(deadline, now)
    ensures AdvanceChain(TickArgs(i, LeftJson(remaining, i), RemainingJson(remaining), DeadlineJson(deadline), state,
                                  previous, initial), now)
         == Some(TickOutput(c))
  {
    hide TickArgs, Truncate, AdvanceChain, ChainRemaining, AsInt;
    var all := TickArgs(i, LeftJson(remaining, i), RemainingJson(remaining), DeadlineJson(deadline), state, previous,
                        initial);
    TickArgsEntries(i, LeftJson(remaining, i), RemainingJson(remaining), DeadlineJson(deadline), state, previous,
                    initial);
    var args := all.fields;
    TickCounts(args, i, remaining);
    assert args.Keys <= CHAIN_KEYS;
    assert ChainDeadline(args, now) == Some(DeadlineJson(deadline));
    assert ChainState(args) == FirstGiven(state, previous);
    assert ChainDone(RemainingJson(c.remaining), DeadlineJson(deadline), now) == Some(c.done);
    Advanced(args, now, DeadlineJson(deadline), i, RemainingJson(c.remaining), c.state, c.done);
  }

  lemma TickCounts(args: map<string, Json>, i: nat, remaining: Option<nat>)
    requires remaining.Some? ==> i < remaining.value
    requires "iteration" in args && args["iteration"] == Num(i as real)
    requires "remaining_iterations" in args && args["remaining_iterations"] == LeftJson(remaining, i)
    requires "initial_remaining" in args && args["initial_remaining"] == RemainingJson(remaining)
    ensures AsInt(Arg(args, "iteration")) == Some(i as int)
    ensures ChainRemaining(args) == Some(if remaining.Some? then Num((remaining.value - i - 1) as real) else Null)
  {
    WholeTruncates(i);
    if remaining.Some? { WholeTruncates(remaining.value - i); }
  }

  function ClockOutput(deadline: Option<real>, now: real): Json
  {
    Obj(map["iteration" := Num(1.0), "deadline_unix" := DeadlineJson(deadline), "remaining_iterations" := Null,
            "state" := Obj(map[]), "done" := Bool(Past(deadline, now))])
  }

  /** One clock check: the deadline in force, and whether it has passed. */
  lemma ClockAdvances(shown: Json, known: Option<real>, given: Json, duration: Json, deadline: Option<real>, now: real)
    requires FirstGiven(shown, given) == DeadlineJson(known)
    requires deadline == if known.Some? then known else if duration.Num? then Some(now + duration.n) else None
    requires duration == Null || duration.Num?
    ensures AdvanceChain(ClockArgs(shown, duration, given), now) == Some(ClockOutput(deadline, now))
  {
    var args := ClockArgs(shown, duration, given).fields;
    assert args.Keys <= CHAIN_KEYS;
    assert ChainDeadline(args, now) == Some(DeadlineJson(deadline));
    assert ChainRemaining(args) == Some(Null);
    assert AsInt(Arg(args, "iteration")) == Some(0);
    assert ChainState(args) == Obj(map[]);
    assert ChainDone(Null, DeadlineJson(deadline), now) == Some(Past(deadline, now));
  }

  // ---------------------------------------------------------------- reading bookkeeping results

  /** A placeholder on a bookkeeping node reads one key of its output. */
  lemma HoleReads(st: Build, vis: set<string>, w: World, nodes: map<string, Json>, env: map<string, Json>, node: string,
      key: string)
    requires Agrees(st, vis, "", nodes, env) && node in vis && node in st.scopes && st.scopes[node] == ""
    ensures Lookup(Context(w, nodes), ["nodes", node] + OUTPUT + [key]) == Step(Get(env, node), key)
    ensures Render(TWords([Hole(["nodes", node] + OUTPUT + [key])]), Context(w, nodes), w.text)
      == Step(Get(env, node), key)
  {
    var base := Base(st, "", node);
    assert ["nodes", node] + OUTPUT + [key] == ["nodes"] + (base + [key]);
    LookupFirst(Context(w, nodes).fields, "nodes", base + [key]);
    LookupAppend(Obj(nodes), base, [key]);
    assert Lookup(Get(env, node), [key]) == Lookup(Step(Get(env, node), key), []);
    LoneHole(["nodes", node] + OUTPUT + [key], Context(w, nodes), w.text);
  }

  lemma LiteralRenders(st: Build, scope: string, ctx: Json, text: Json -> string, v: Json)
    ensures Resolve(st, scope, LiteralOf(v)).Ok? && Render(Resolve(st, scope, LiteralOf(v)).value, ctx, text) == v
  {
    if v.Str? && !NeedsWrapper(v) {
      assert Fill([Text(v.s)], ctx) == [Spoken(v.s)];
      assert [Spoken(v.s)][1..] == [] && DropEmpty([Spoken(v.s)]) == if v.s == "" then [] else [Spoken(v.s)];
      assert Speak(text, [Spoken(v.s)]) == v.s + Speak(text, []);
    }
  }

  /** Rendering a dictionary renders each of its entries. */
  lemma DictRenders(st: Build, scope: string, entries: map<string, Expr>, ctx: Json, text: Json -> string)
    requires Resolve(st, scope, Dict(entries)).Ok?
    ensures forall k | k in entries :: Resolve(st, scope, entries[k]).Ok?
    ensures Render(Resolve(st, scope, Dict(entries)).value, ctx, text)
         == Obj(map k | k in entries :: Render(Resolve(st, scope, entries[k]).value, ctx, text))
  {
    var t := Resolve(st, scope, Dict(entries)).value;
    assert t.entries.Keys == entries.Keys;
    var a := Render(t, ctx, text).fields;
    var b := map k | k in entries :: Render(Resolve(st, scope, entries[k]).value, ctx, text);
    assert a == b;
  }

  predicate Renders(st: Build, ctx: Json, text: Json -> string, e: Expr, v: Json)
  {
    Resolve(st, "", e).Ok? ==> Render(Resolve(st, "", e).value, ctx, text) == v
  }

  lemma ScalarRenders(st: Build, ctx: Json, text: Json -> string, v: Json)
    ensures Renders(st, ctx, text, Scalar(v), v)
  {
  }

  lemma DictIs(st: Build, entries: map<string, Expr>, ctx: Json, text: Json -> string, expected: map<string, Json>)
    requires Resolve(st, "", Dict(entries)).Ok? && entries.Keys == expected.Keys
    requires forall k | k in entries :: Renders(st, ctx, text, entries[k], expected[k])
    ensures Render(Resolve(st, "", Dict(entries)).value, ctx, text) == Obj(expected)
  {
    DictRenders(st, "", entries, ctx, text);
    var rendered := map k | k in entries :: Render(Resolve(st, "", entries[k]).value, ctx, text);
    forall k | k in entries ensures rendered[k] == expected[k] {
      assert Renders(st, ctx, text, entries[k], expected[k]);
    }
    assert rendered == expected;
  }

  // ---------------------------------------------------------------- running them

  /** A bookkeeping task runs, and its output becomes readable. */
  lemma HelperRuns(st: Build, g: Native, vis: set<string>, w: World, limit: nat, id: string, input: Expr, next: string,
                   f: Frame, env: map<string, Json>, r: Run, n: nat, args: Json, out: Json)
    returns (f': Frame)
    requires ResolveAll(st) == Ok(g) && JoinsAreJoins(st) && Holds(st, id, Helper(input, next), "")
    requires Agrees(st, vis, "", f.nodes, env) && f.undo == []
    requires Resolve(st, "", input).Ok? ==> Render(Resolve(st, "", input).value, Context(w, f.nodes), w.text) == args
    requires AdvanceChain(args, r.clock) == Some(out) && n + 1 <= limit
    ensures Walk(g, w, limit, id, f, r, n) == Walk(g, w, limit, next, f', Stepped(r), n + 1)
    ensures Agrees(st, vis, "", f'.nodes, env[id := out]) && f'.undo == []
  {
    var body := Obj(map["output" := out]);
    var t := Resolve(st, "", input).value;
    assert ResolveNode(st, "", Helper(input, next)).Ok?;
    assert g[id] == Task(Capability(CHAIN_STEP, t), next, None);
    f' := Completed(f, id, body, None);
    assert !HasError(body);
    assert Step(body, "output") == out;
    AgreesAfterTask(st, vis, "", f.nodes, env, Some(id), id, body);
    assert Bind(env, Some(id), out) == env[id := out];
  }

  /** A done-test takes its case exactly when the bookkeeping output says so. */
  lemma DoneTestRuns(st: Build, g: Native, vis: set<string>, w: World, limit: nat, id: string, node: string,
                     target: string, nxt: string, f: Frame, env: map<string, Json>, r: Run, n: nat, done: bool)
    requires ResolveAll(st) == Ok(g) && Holds(st, id, Switch([Case(DoneTest(node), target)], nxt), "")
    requires Agrees(st, vis, "", f.nodes, env) && node in vis && node in st.scopes && st.scopes[node] == ""
    requires Step(Get(env, node), "done") == Bool(done) && n + 1 <= limit
    ensures Walk(g, w, limit, id, f, r, n) == Walk(g, w, limit, if done then target else nxt, f, r, n + 1)
  {
    var path := ["nodes", node] + OUTPUT + ["done"];
    var when := DoneTest(node);
    var when' := ResolvedTest(st, path, when);
    var ctx := Context(w, f.nodes);
    HoleReads(st, vis, w, f.nodes, env, node, "done");
    TestDecides(w, path, ctx, done);
    var cases := [Case(when, target)];
    assert cases[1..] == [];
    assert ResolveCases(st, "", cases[1..]) == Ok([]);
    assert [Case(when', target)] + [] == [Case(when', target)];
    assert ResolveCases(st, "", cases) == Ok([Case(when', target)]);
    assert ResolveNode(st, "", Switch(cases, nxt)).Ok?;
    ChooseOne(w, g[id], when', target, nxt, ctx);
  }

  lemma ResolvedTest(st: Build, path: Path, when: Cond) returns (when': Logic<Path>)
    requires when == Operator("==", [Var(Raw(path)), Const(Bool(true))])
    ensures ResolveCond(st, "", when) == Ok(when') && when' == Operator("==", [Var(path), Const(Bool(true))])
  {
    var args := when.args;
    assert args[1..] == [args[1]] && args[1..][1..] == [];
    assert ResolveConds(st, "", args[1..][1..]) == Ok([]);
    assert ResolveConds(st, "", args[1..]) == Ok([Const(Bool(true))] + []);
    when' := Operator("==", [Var(path), Const(Bool(true))]);
    var rest: seq<Logic<Path>> := [Const(Bool(true))];
    assert [Const(Bool(true))] + [] == rest;
    assert ResolveConds(st, "", args[1..]) == Ok(rest);
    assert ResolveCond(st, "", args[0]) == Ok(Var(path));
    assert ResolveConds(st, "", args) == Ok([Var(path)] + rest);
    assert [Var(path)] + rest == [Var(path), Const(Bool(true))];
  }

  lemma TestDecides(w: World, path: Path, ctx: Json, done: bool)
    requires Lookup(ctx, path) == Bool(done)
    ensures Decide(w, Operator("==", [Var(path), Const(Bool(true))]), ReadFrom(ctx)) == Some(Bool(done))
  {
    var args := [Var(path), Const(Bool(true))];
    assert args[1..] == [args[1]] && args[1..][1..] == [];
    assert DecideAll(w, args[1..][1..], ReadFrom(ctx)) == Some([]);
    assert DecideAll(w, args[1..], ReadFrom(ctx)) == Some([Bool(true)] + []);
    assert DecideAll(w, args, ReadFrom(ctx)) == Some([Bool(done)] + ([Bool(true)] + []));
    assert [Bool(done)] + ([Bool(true)] + []) == [Bool(done), Bool(true)];
  }
}
