/** The one-shot arrival reminder: a small graph run over an unbounded stream of readings. */
module Presence {
  import opened Json
  import opened Plan
  import opened Graph

  const SENSOR := "home.execute"
  const MESSENGER := "telegram.send"
  const POLL := 30.0

  // ---------------------------------------------------------------- the graph

  function Reading(alias: string): Tmpl
  {
    TDict(map["capability" := TWords([Text("presence.read")]), "target" := TWords([Text(alias)]),
      "input" := TDict(map[])])
  }

  function ReadNode(alias: string, next: string): NativeNode { Task(Capability(SENSOR, Reading(alias)), next, None) }

  function Output(node: string): Path { ["nodes", node, "response", "body", "output"] }

  function Observed(node: string, present: bool): Logic<Path>
  {
    Operator("and", [
      Operator("===", [Var(Output(node) + ["success"]), Const(Bool(true))]),
      Operator("===", [Var(Output(node) + ["result", "present"]), Const(Bool(present))])])
  }

  function Reminder(alias: string, message: string): Native
  {
    map[
      "initial_presence" := ReadNode(alias, "initial_state"),
      "initial_state" := Switch([Case(Observed("initial_presence", true), "read_departure"),
                                 Case(Observed("initial_presence", false), "read_arrival")], "retry_initial"),
      "retry_initial" := Sleep(POLL, "initial_presence"),
      "read_departure" := ReadNode(alias, "check_departure"),
      "check_departure" := Switch([Case(Observed("read_departure", false), "read_arrival")], "wait_departure"),
      "wait_departure" := Sleep(POLL, "read_departure"),
      "read_arrival" := ReadNode(alias, "check_arrival"),
      "check_arrival" := Switch([Case(Observed("read_arrival", true), "notify")], "wait_arrival"),
      "wait_arrival" := Sleep(POLL, "read_arrival"),
      "notify" := Task(Capability(MESSENGER, TDict(map["text" := TWords([Text(message)])])), END, None)]
  }

  // ---------------------------------------------------------------- readings

  datatype Verdict = Home | Away | Unclear

  predicate Says(body: Json, present: bool)
  {
    && Lookup(body, ["output", "success"]) == Bool(true)
    && Lookup(body, ["output", "result", "present"]) == Bool(present)
  }

  /** What a reading says; missing, failed and non-boolean readings say nothing. */
  function Judge(body: Json): Verdict
  {
    if Says(body, true) then Home else if Says(body, false) then Away else Unclear
  }

  /** Somebody came home: present after having been absent. */
  predicate Arrived(vs: seq<Verdict>)
  {
    exists i, j | 0 <= i < j < |vs| :: vs[i] == Away && vs[j] == Home
  }

  // ---------------------------------------------------------------- the watch

  datatype Phase = Starting | Leaving | Coming

  function NodeOf(p: Phase): string
  {
    match p
    case Starting => "initial_presence"
    case Leaving => "read_departure"
    case Coming => "read_arrival"
  }

  /** The phase after a reading; none when the arrival is seen. */
  function Next(p: Phase, v: Verdict): Option<Phase>
  {
    match p
    case Starting => Some(if v == Home then Leaving else if v == Away then Coming else Starting)
    case Leaving => Some(if v == Away then Coming else Leaving)
    case Coming => if v == Home then None else Some(Coming)
  }

  /** How a watch went: its readings, whether the arrival was seen, and the run when it stopped. */
  datatype Log = Log(verdicts: seq<Verdict>, seen: bool, run: Run)

  function Read(w: World, alias: string, r: Run): Performed
  {
    Invoke(w, SENSOR, Obj(map["capability" := Str("presence.read"), "target" := Str(alias), "input" := Obj(map[])]), r)
  }

  /** Polls until the arrival is seen, a reading fails the run, or the step budget is used up. A
      reading takes two steps, a wait one more. */
  function Watch(w: World, limit: nat, alias: string, p: Phase, r: Run, n: nat): Log
    decreases Left(limit, n)
  {
    if n + 1 > limit then Log([], false, r)
    else
      match Read(w, alias, r)
      case Crashed(r') => Log([], false, r')
      case Body(body, r') =>
        if HasError(body) || n + 2 > limit then Log([], false, r')
        else
          var v := Judge(body);
          match Next(p, v)
          case None => Log([v], true, r')
          case Some(q) =>
            if q != p then
              var log := Watch(w, limit, alias, q, r', n + 2);
              log.(verdicts := [v] + log.verdicts)
            else if n + 3 > limit then Log([v], false, r')
            else
              var log := Watch(w, limit, alias, q, r'.(clock := r'.clock + POLL), n + 3);
              log.(verdicts := [v] + log.verdicts)
  }

  // ---------------------------------------------------------------- the watch is the claim

  predicate Saw(p: Phase, vs: seq<Verdict>)
  {
    match p
    case Coming => exists j | 0 <= j < |vs| :: vs[j] == Home
    case _ => Arrived(vs)
  }

  lemma {:induction false} SawCons(p: Phase, v: Verdict, vs: seq<Verdict>)
    ensures Saw(p, [v] + vs) <==> (Next(p, v).None? || Saw(Next(p, v).value, vs))
  {
    var all := [v] + vs;
    match p
    case Coming =>
      if j :| 0 <= j < |all| && all[j] == Home { if j > 0 { assert vs[j - 1] == Home; } }
      if j :| 0 <= j < |vs| && vs[j] == Home { assert all[j + 1] == Home; }
      if v == Home { assert all[0] == Home; }
    case _ =>
      if v == Away {
        if i, j :| 0 <= i < j < |all| && all[i] == Away && all[j] == Home { assert vs[j - 1] == Home; }
        if j :| 0 <= j < |vs| && vs[j] == Home { assert all[0] == Away && all[j + 1] == Home; }
      } else {
        if i, j :| 0 <= i < j < |all| && all[i] == Away && all[j] == Home {
          assert vs[i - 1] == Away && vs[j - 1] == Home; }
        if i, j :| 0 <= i < j < |vs| && vs[i] == Away && vs[j] == Home {
          assert all[i + 1] == Away && all[j + 1] == Home; }
      }
  }

  /** The arrival is seen exactly with the first reading that completes one; no earlier readings do. */
  lemma {:induction false} WatchSeesArrival(w: World, limit: nat, alias: string, p: Phase, r: Run, n: nat)
    ensures var log := Watch(w, limit, alias, p, r, n);
      && (log.seen <==> Saw(p, log.verdicts))
      && forall k | 0 <= k < |log.verdicts| :: !Saw(p, log.verdicts[..k])
    decreases Left(limit, n), 0
  {
    hide Read, Judge, Arrived;
    NothingSeen(p);
    if n + 1 <= limit {
      var done := Read(w, alias, r);
      if done.Body? && !HasError(done.body) && n + 2 <= limit {
        var v := Judge(done.body);
        var none: seq<Verdict> := [];
        assert [v] + none == [v];
        SawCons(p, v, none);
        if Next(p, v).Some? {
          var q := Next(p, v).value;
          NothingSeen(q);
          if q != p {
            LogCons(w, limit, alias, p, v, q, done.run, n + 2);
          } else if n + 3 <= limit {
            LogCons(w, limit, alias, p, v, q, done.run.(clock := done.run.clock + POLL), n + 3);
          }
        }
      }
    }
  }

  lemma NothingSeen(p: Phase)
    ensures !Saw(p, [])
  {
  }

  lemma {:induction false} LogCons(w: World, limit: nat, alias: string, p: Phase, v: Verdict, q: Phase, r: Run, n: nat)
    requires Next(p, v) == Some(q)
    ensures var log := Watch(w, limit, alias, q, r, n); var vs := [v] + log.verdicts;
      && (log.seen <==> Saw(p, vs))
      && forall k | 0 <= k < |vs| :: !Saw(p, vs[..k])
    decreases Left(limit, n), 1
  {
    hide Read, Judge, Arrived, Saw, Next;
    WatchSeesArrival(w, limit, alias, q, r, n);
    var log := Watch(w, limit, alias, q, r, n);
    var vs := [v] + log.verdicts;
    SawCons(p, v, log.verdicts);
    forall k | 0 <= k < |vs| ensures !Saw(p, vs[..k]) {
      if k == 0 {
        assert vs[..0] == [];
        NothingSeen(p);
      } else {
        assert vs[..k] == [v] + log.verdicts[..k - 1];
        SawCons(p, v, log.verdicts[..k - 1]);
      }
    }
  }

  // ---------------------------------------------------------------- the graph is the watch

  lemma Reads(nodes: map<string, Json>, w: World, node: string, body: Json, rest: Path)
    requires node in nodes && nodes[node] == Response(body)
    ensures Lookup(Context(w, nodes), Output(node) + rest) == Lookup(body, ["output"] + rest)
  {
    var ctx := Context(w, nodes);
    var tail: Path := ["output"] + rest;
    assert Output(node) + rest == ["nodes"] + ([node] + (["response"] + (["body"] + tail)));
    LookupFirst(ctx.fields, "nodes", [node] + (["response"] + (["body"] + tail)));
    LookupFirst(nodes, node, ["response"] + (["body"] + tail));
    LookupFirst(Response(body).fields, "response", ["body"] + tail);
    LookupFirst(map["body" := body], "body", tail);
  }

  lemma ComparesTo(w: World, p: Path, ctx: Json, b: bool)
    ensures Decide(w, Operator("===", [Var(p), Const(Bool(b))]), ReadFrom(ctx)) == Some(Bool(Lookup(ctx, p) == Bool(b)))
  {
    var args := [Var(p), Const(Bool(b))];
    assert args[1..] == [args[1]] && args[1..][1..] == [];
    assert DecideAll(w, args[1..][1..], ReadFrom(ctx)) == Some([]);
    assert DecideAll(w, args[1..], ReadFrom(ctx)) == Some([Bool(b)] + []);
    assert DecideAll(w, args, ReadFrom(ctx)) == Some([Lookup(ctx, p)] + ([Bool(b)] + []));
    assert [Lookup(ctx, p)] + ([Bool(b)] + []) == [Lookup(ctx, p), Bool(b)];
  }

  /** The observation condition holds exactly when the reading says so. */
  lemma Observes(w: World, nodes: map<string, Json>, node: string, body: Json, present: bool)
    requires node in nodes && nodes[node] == Response(body)
    ensures Decide(w, Observed(node, present), ReadFrom(Context(w, nodes))) == Some(Bool(Says(body, present)))
  {
    hide Lookup, Response;
    var ctx := Context(w, nodes);
    Reads(nodes, w, node, body, ["success"]);
    Reads(nodes, w, node, body, ["result", "present"]);
    assert ["output"] + ["success"] == ["output", "success"];
    assert ["output"] + ["result", "present"] == ["output", "result", "present"];
    ComparesTo(w, Output(node) + ["success"], ctx, true);
    ComparesTo(w, Output(node) + ["result", "present"], ctx, present);
    Both(w, Operator("===", [Var(Output(node) + ["success"]), Const(Bool(true))]),
         Operator("===", [Var(Output(node) + ["result", "present"]), Const(Bool(present))]), ctx,
         Lookup(ctx, Output(node) + ["success"]) == Bool(true),
           Lookup(ctx, Output(node) + ["result", "present"]) == Bool(present));
  }

  lemma Both(w: World, a: Logic<Path>, b: Logic<Path>, ctx: Json, x: bool, y: bool)
    requires Decide(w, a, ReadFrom(ctx)) == Some(Bool(x)) && Decide(w, b, ReadFrom(ctx)) == Some(Bool(y))
    ensures Decide(w, Operator("and", [a, b]), ReadFrom(ctx)) == Some(Bool(x && y))
  {
    var args, vs := [a, b], [Bool(x), Bool(y)];
    assert args[1..] == [b] && args[1..][1..] == [];
    assert DecideAll(w, args[1..][1..], ReadFrom(ctx)) == Some([]);
    assert DecideAll(w, args[1..], ReadFrom(ctx)) == Some([Bool(y)] + []);
    assert [Bool(x)] + ([Bool(y)] + []) == vs;
    assert DecideAll(w, args, ReadFrom(ctx)) == Some(vs);
    assert (forall v | v in vs :: Truthy(v)) <==> x && y by {
      assert vs[0] in vs && vs[1] in vs && vs[0] == Bool(x) && vs[1] == Bool(y);
    }
    assert Apply(w, "and", vs) == Some(Bool(x && y));
  }

  lemma ReadRenders(alias: string, ctx: Json, text: Json -> string)
    ensures Render(Reading(alias), ctx, text)
         == Obj(map["capability" := Str("presence.read"), "target" := Str(alias), "input" := Obj(map[])])
  {
    TextRenders("presence.read", ctx, text);
    TextRenders(alias, ctx, text);
    var rendered := Render(Reading(alias), ctx, text).fields;
    assert Render(TDict(map[]), ctx, text) == Obj(map[]) by { assert Render(TDict(map[]), ctx, text).fields == map[]; }
    assert rendered == map["capability" := Str("presence.read"), "target" := Str(alias), "input" := Obj(map[])];
  }

  lemma TextRenders(s: string, ctx: Json, text: Json -> string)
    ensures Render(TWords([Text(s)]), ctx, text) == Str(s)
  {
    assert Fill([Text(s)], ctx) == [Spoken(s)];
    assert [Spoken(s)][1..] == [] && DropEmpty([Spoken(s)]) == if s == "" then [] else [Spoken(s)];
    assert Speak(text, [Spoken(s)]) == s + Speak(text, []);
  }

  function CheckOf(p: Phase): string
  {
    match p
    case Starting => "initial_state"
    case Leaving => "check_departure"
    case Coming => "check_arrival"
  }

  function WaitOf(p: Phase): string
  {
    match p
    case Starting => "retry_initial"
    case Leaving => "wait_departure"
    case Coming => "wait_arrival"
  }

  /** Where a reading leads. */
  function After(p: Phase, v: Verdict): string
  {
    match Next(p, v)
    case None => "notify"
    case Some(q) => if q == p then WaitOf(p) else NodeOf(q)
  }

  lemma TwoCases(w: World, a: Logic<Path>, yes: string, b: Logic<Path>, other: string, default: string, ctx: Json,
      x: bool, y: bool)
    requires Decide(w, a, ReadFrom(ctx)) == Some(Bool(x)) && Decide(w, b, ReadFrom(ctx)) == Some(Bool(y))
    ensures Choose(w, [Case(a, yes), Case(b, other)], default, ctx)
      == Some(if x then yes else if y then other else default)
    ensures Choose(w, [Case(a, yes)], default, ctx) == Some(if x then yes else default)
  {
    var cases := [Case(a, yes), Case(b, other)];
    assert cases[1..] == [Case(b, other)] && cases[1..][1..] == [] && [Case(a, yes)][1..] == [];
    assert Choose(w, cases[1..], default, ctx) == Some(if y then other else default);
    assert Choose(w, cases, default, ctx) == if x then Some(yes) else Choose(w, cases[1..], default, ctx);
  }

  /** The switch behind a reading goes where the watch goes. */
  lemma CheckChooses(w: World, alias: string, message: string, p: Phase, nodes: map<string, Json>, body: Json)
    requires NodeOf(p) in nodes && nodes[NodeOf(p)] == Response(body)
    ensures var node := Reminder(alias, message)[CheckOf(p)];
      node.Switch? && Choose(w, node.cases, node.default, Context(w, nodes)) == Some(After(p, Judge(body)))
  {
    CheckNodes(alias, message);
    hide Reminder, Observed, Says, Decide, Response, Choose;
    var ctx := Context(w, nodes);
    Observes(w, nodes, NodeOf(p), body, true);
    Observes(w, nodes, NodeOf(p), body, false);
    var home, away := Observed(NodeOf(p), true), Observed(NodeOf(p), false);
    match p
    case Starting =>
      TwoCases(w, home, "read_departure", away, "read_arrival", "retry_initial", ctx, Says(body, true),
      Says(body, false));
    case Leaving =>
      TwoCases(w, away, "read_arrival", home, "", "wait_departure", ctx, Says(body, false), Says(body, true));
      OnlyOne(body);
    case Coming => TwoCases(w, home, "notify", away, "", "wait_arrival", ctx, Says(body, true), Says(body, false));
  }

  lemma CheckNodes(alias: string, message: string)
    ensures Reminder(alias, message).Keys == {"initial_presence", "initial_state", "retry_initial", "read_departure",
      "check_departure",
                                              "wait_departure", "read_arrival", "check_arrival", "wait_arrival",
                                                "notify"}
    ensures var g := Reminder(alias, message);
      && g["initial_state"] == Switch([Case(Observed("initial_presence", true), "read_departure"),
                                       Case(Observed("initial_presence", false), "read_arrival")], "retry_initial")
      && g["check_departure"] == Switch([Case(Observed("read_departure", false), "read_arrival")], "wait_departure")
      && g["check_arrival"] == Switch([Case(Observed("read_arrival", true), "notify")], "wait_arrival")
  {
    hide Observed, ReadNode;
  }

  lemma OtherNodes(alias: string, message: string, p: Phase)
    ensures var g := Reminder(alias, message);
      && NodeOf(p) in g && g[NodeOf(p)] == ReadNode(alias, CheckOf(p))
      && CheckOf(p) in g && g[CheckOf(p)].Switch?
      && WaitOf(p) in g && g[WaitOf(p)] == Sleep(POLL, NodeOf(p))
      && "notify" in g
      && g["notify"] == Task(Capability(MESSENGER, TDict(map["text" := TWords([Text(message)])])), END, None)
  {
    hide Observed, ReadNode;
  }

  lemma OnlyOne(body: Json)
    ensures !(Says(body, true) && Says(body, false))
  {
  }

  // ---------------------------------------------------------------- every run

  function Notifying(w: World, message: string, r: Run): Performed
  {
    Invoke(w, MESSENGER, Obj(map["text" := Str(message)]), r)
  }

  /** A run without an arrival never ends by itself; with one it sends the message, if steps are left. */
  predicate Follows(w: World, message: string, log: Log, out: Outcome)
  {
    if !log.seen then out.Failed? && out.run == log.run
    else
      || (out.Failed? && out.error == OutOfSteps && out.run == log.run)
      || (out.run == Notifying(w, message, log.run).run && (out.Failed? ==> out.error != OutOfSteps))
  }

  lemma NotifyRuns(w: World, limit: nat, alias: string, message: string, f: Frame, r: Run, n: nat)
    requires f.undo == []
    ensures Follows(w, message, Log([], true, r), Walk(Reminder(alias, message), w, limit, "notify", f, r, n))
  {
    var g, ctx := Reminder(alias, message), Context(w, f.nodes);
    OtherNodes(alias, message, Starting);
    hide Reminder;
    if n + 1 <= limit {
      TextRenders(message, ctx, w.text);
      var input := TDict(map["text" := TWords([Text(message)])]);
      assert Render(input, ctx, w.text).fields == map["text" := Str(message)];
      var done := Notifying(w, message, r);
      assert Perform(w, Capability(MESSENGER, input), ctx, r) == done;
      if done.Body? {
        if HasError(done.body) {
          assert done.run.compensations + Unwind([], ctx, w.text) == done.run.compensations;
        } else {
          assert Walk(g, w, limit, END, Completed(f, "notify", done.body, None), done.run, n + 1).Done?;
        }
      }
    }
  }

  lemma ReadRuns(w: World, limit: nat, alias: string, message: string, p: Phase, f: Frame, r: Run, n: nat)
    requires f.undo == [] && n + 1 <= limit
    ensures var done, out := Read(w, alias, r), Walk(Reminder(alias, message), w, limit, NodeOf(p), f, r, n);
      if done.Body? && !HasError(done.body) then
        out == Walk(Reminder(alias, message), w, limit, CheckOf(p), Completed(f, NodeOf(p), done.body, None), done.run,
          n + 1)
      else out.Failed? && out.run == done.run
  {
    var ctx := Context(w, f.nodes);
    OtherNodes(alias, message, p);
    hide Reminder, Invoke;
    ReadRenders(alias, ctx, w.text);
    var done := Read(w, alias, r);
    assert Perform(w, ReadNode(alias, CheckOf(p)).action, ctx, r) == done;
    if done.Body? && HasError(done.body) {
      assert done.run.compensations + Unwind([], ctx, w.text) == done.run.compensations;
    }
  }

  lemma CheckRuns(w: World, limit: nat, alias: string, message: string, p: Phase, f: Frame, r: Run, n: nat, body: Json)
    requires NodeOf(p) in f.nodes && f.nodes[NodeOf(p)] == Response(body) && n + 1 <= limit
    ensures Walk(Reminder(alias, message), w, limit, CheckOf(p), f, r, n)
         == Walk(Reminder(alias, message), w, limit, After(p, Judge(body)), f, r, n + 1)
  {
    CheckChooses(w, alias, message, p, f.nodes, body);
    OtherNodes(alias, message, p);
    hide Reminder, Choose, After, Judge;
  }

  lemma WaitRuns(w: World, limit: nat, alias: string, message: string, p: Phase, f: Frame, r: Run, n: nat)
    requires n + 1 <= limit
    ensures Walk(Reminder(alias, message), w, limit, WaitOf(p), f, r, n)
         == Walk(Reminder(alias, message), w, limit, NodeOf(p), f, r.(clock := r.clock + POLL), n + 1)
  {
    OtherNodes(alias, message, p);
    hide Reminder;
  }

  lemma NoSteps(w: World, limit: nat, g: Native, current: string, f: Frame, r: Run, n: nat)
    requires current != END && n + 1 > limit
    ensures Walk(g, w, limit, current, f, r, n) == Failed(OutOfSteps, r, n + 1)
  {
  }

  /** Walking the graph is watching: every poll, wait and transition, and the message at the end. */
  lemma {:induction false} WalkWatches(w: World, limit: nat, alias: string, message: string, p: Phase, f: Frame, r: Run,
      n: nat)
    requires f.undo == []
    ensures Follows(w, message, Watch(w, limit, alias, p, r, n),
      Walk(Reminder(alias, message), w, limit, NodeOf(p), f, r, n))
    decreases Left(limit, n)
  {
    hide Walk, Read, Judge, Reminder, Notifying;
    var g := Reminder(alias, message);
    if n + 1 > limit {
      NoSteps(w, limit, g, NodeOf(p), f, r, n);
    } else {
      ReadRuns(w, limit, alias, message, p, f, r, n);
      var done := Read(w, alias, r);
      if done.Body? && !HasError(done.body) {
        var f', v := Completed(f, NodeOf(p), done.body, None), Judge(done.body);
        if n + 2 > limit {
          NoSteps(w, limit, g, CheckOf(p), f', done.run, n + 1);
        } else {
          CheckRuns(w, limit, alias, message, p, f', done.run, n + 1, done.body);
          match Next(p, v)
          case None => NotifyRuns(w, limit, alias, message, f', done.run, n + 2);
          case Some(q) =>
            if q != p {
              WalkWatches(w, limit, alias, message, q, f', done.run, n + 2);
            } else if n + 3 > limit {
              NoSteps(w, limit, g, WaitOf(p), f', done.run, n + 2);
            } else {
              WaitRuns(w, limit, alias, message, p, f', done.run, n + 2);
              WalkWatches(w, limit, alias, message, q, f', done.run.(clock := done.run.clock + POLL), n + 3);
            }
        }
      }
    }
  }

  function Messages(trace: seq<Invocation>): nat
  {
    if trace == [] then 0
    else Messages(trace[..|trace| - 1]) + (if trace[|trace| - 1].name == MESSENGER then 1 else 0)
  }

  lemma InvokeCounts(w: World, name: string, args: Json, r: Run)
    requires name != CHAIN_STEP
    ensures Messages(Invoke(w, name, args, r).run.trace) == Messages(r.trace) + (if name == MESSENGER then 1 else 0)
  {
    var trace := r.trace + [Invocation(name, args, r.clock)];
    assert trace[..|trace| - 1] == r.trace;
  }

  lemma ReadIsSilent(w: World, alias: string, r: Run)
    ensures Messages(Read(w, alias, r).run.trace) == Messages(r.trace)
  {
    hide Messages;
    InvokeCounts(w, SENSOR,
      Obj(map["capability" := Str("presence.read"), "target" := Str(alias), "input" := Obj(map[])]), r);
  }

  lemma {:induction false} WatchIsSilent(w: World, limit: nat, alias: string, p: Phase, r: Run, n: nat)
    ensures Messages(Watch(w, limit, alias, p, r, n).run.trace) == Messages(r.trace)
    decreases Left(limit, n)
  {
    hide Judge, Next, Read, Messages, HasError;
    ReadIsSilent(w, alias, r);
    if n + 1 <= limit {
      var done := Read(w, alias, r);
      if done.Body? && !HasError(done.body) && n + 2 <= limit && Next(p, Judge(done.body)).Some? {
        var q := Next(p, Judge(done.body)).value;
        if q != p {
          WatchIsSilent(w, limit, alias, q, done.run, n + 2);
        } else if n + 3 <= limit {
          WatchIsSilent(w, limit, alias, q, done.run.(clock := done.run.clock + POLL), n + 3);
        }
      }
    }
  }

  /** For every stream of readings: the reminder is sent at most once, exactly when a reading says
      present after one said absent, with the first such reading; a run that ends has sent it. */
  lemma RemindsOnce(w: World, limit: nat, alias: string, message: string, r: Run)
    ensures var out := Walk(Reminder(alias, message), w, limit, "initial_presence", FRESH, r, 0);
      var vs := Watch(w, limit, alias, Starting, r, 0).verdicts;
      && Messages(r.trace) <= Messages(out.run.trace) <= Messages(r.trace) + 1
      && (Messages(out.run.trace) > Messages(r.trace) <==> Arrived(vs) && !(out.Failed? && out.error == OutOfSteps))
      && (forall k | 0 <= k < |vs| :: !Arrived(vs[..k]))
      && (out.Done? ==> Arrived(vs))
  {
    hide Walk, Watch, Arrived, Reminder, Messages;
    var log := Watch(w, limit, alias, Starting, r, 0);
    WatchSeesArrival(w, limit, alias, Starting, r, 0);
    WalkWatches(w, limit, alias, message, Starting, FRESH, r, 0);
    WatchIsSilent(w, limit, alias, Starting, r, 0);
    InvokeCounts(w, MESSENGER, Obj(map["text" := Str(message)]), log.run);
  }
}
