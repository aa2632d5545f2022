/** The compiler object: it compiles a plan on its own mutable state, operation by operation,
    backwards from the end of the plan. */
module PlanCompiler {
  import opened Json
  import opened Plan
  import opened Graph
  import opened Meaning
  import opened Sets
  import opened Compiler
  import opened Construction
  import opened Growth

  /** What a step of the compiler returns and leaves behind, against what it should. */
  ghost predicate Gave<T>(spec: Result<(T, Build)>, r: Result<T>, st: Build)
  {
    if spec.Ok? then r == Ok(spec.value.0) && st == spec.value.1 else r.Raise?
  }

  ghost predicate Became(spec: Result<Build>, r: Result<()>, st: Build)
  {
    if spec.Ok? then r.Ok? && st == spec.value else r.Raise?
  }

  function Prepended(entries: seq<string>, rest: Result<(seq<string>, Build)>): Result<(seq<string>, Build)>
  {
    match rest
    case Raise(_) => rest
    case Ok(more) => Ok((entries + more.0, more.1))
  }

  lemma PrependOne(entries: seq<string>, entry: string, rest: Result<(seq<string>, Build)>)
    ensures Prepended(entries, Prepended([entry], rest)) == Prepended(entries + [entry], rest)
  {
    if rest.Ok? { assert entries + ([entry] + rest.value.0) == (entries + [entry]) + rest.value.0; }
  }

  lemma PrependRaise(entries: seq<string>, rest: Result<(seq<string>, Build)>)
    requires rest.Raise?
    ensures Prepended(entries, rest).Raise?
  {
  }

  lemma PrependsNothing(entries: seq<string>, st: Build)
    ensures Prepended(entries, Ok(([], st))) == Ok((entries, st))
  {
    assert entries + [] == entries;
  }

  /** Compiling branches compiles the first, exposes what ends it, and compiles the rest. */
  lemma BranchesStep(branches: seq<Op>, index: nat, nid: string, join: string, scope: string, st: Build, entry: string,
      st2: Build)
    requires branches != [] && CompileOp(branches[0], END, BranchScope(scope, nid, index), st).Ok?
    requires entry == CompileOp(branches[0], END, BranchScope(scope, nid, index), st).value.0
    requires var st1 := CompileOp(branches[0], END, BranchScope(scope, nid, index), st).value.1;
      st2 == st1.(joins := Expose(st1.joins, Terminals(st1.nodes, st.ids), join, index))
    ensures CompileBranches(branches, index, nid, join, scope, st)
         == Prepended([entry], CompileBranches(branches[1..], index + 1, nid, join, scope, st2))
  {
  }

  lemma PrependNothing(rest: Result<(seq<string>, Build)>)
    ensures Prepended([], rest) == rest
  {
    if rest.Ok? { assert [] + rest.value.0 == rest.value.0; }
  }

  /** A suffix that does not compile keeps the whole from compiling. */
  lemma {:induction false} SuffixRaises(ops: seq<Op>, i: nat, after: string, scope: string, st: Build)
    requires i <= |ops| && CompileOps(ops[i..], after, scope, st).Raise?
    ensures CompileOps(ops, after, scope, st).Raise?
    decreases i
  {
    if i > 0 {
      assert ops[i - 1..][1..] == ops[i..];
      SuffixRaises(ops, i - 1, after, scope, st);
    } else {
      assert ops[0..] == ops;
    }
  }

  class PlanCompiler {
    var nodes: map<string, Draft>
    var ids: set<string>
    ghost var inner: set<string>                     // ids no plan can name
    var scopes: map<string, string>
    var branchResults: map<string, (string, nat)>
    var exitCache: map<int, string>

    constructor ()
      ensures State() == EMPTY
    {
      nodes, ids, inner, scopes, branchResults, exitCache := map[], {}, {}, map[], map[], map[];
    }

    ghost function State(): Build
      reads this
    {
      Build(nodes, ids, inner, scopes, branchResults, exitCache)
    }

    // -------------------------------------------------------------- operations

    method Id(wanted: Option<string>) returns (r: Result<string>)
      modifies this`ids, this`inner
      ensures Gave(Reserve(old(State()), wanted), r, State()) && old(ids) <= ids
    {
      var candidate := if wanted.Some? then wanted.value else "rs_" + Digits(|ids|);
      if candidate == END || candidate == "" || candidate in ids {
        return Raise("Duplicate/reserved operation id");
      }
      ids := ids + {candidate};
      if wanted.None? { inner := inner + {candidate}; }
      return Ok(candidate);
    }

    method AddNode(id: string, node: Draft, scope: string)
      modifies this`nodes, this`scopes
      ensures State() == Add(old(State()), id, node, scope)
    {
      nodes := nodes[id := node];
      scopes := scopes[id := scope];
    }

    /** Steps are compiled last to first, each continuing at the one compiled before it. */
    method SequenceOf(steps: seq<Op>, after: string, scope: string) returns (r: Result<string>)
      modifies this
      ensures Gave(CompileOps(steps, after, scope, old(State())), r, State()) && old(ids) <= ids
      decreases steps, 1
    {
      var entry, i := after, |steps|;
      ghost var start := State();
      assert steps[i..] == [];
      while i > 0
        invariant 0 <= i <= |steps|
        invariant CompileOps(steps[i..], after, scope, start) == Ok((entry, State())) && old(ids) <= ids
      {
        assert steps[i - 1..][0] == steps[i - 1] && steps[i - 1..][1..] == steps[i..];
        var compiled := Operation(steps[i - 1], entry, scope);
        if compiled.Raise? {
          SuffixRaises(steps, i - 1, after, scope, start);
          return compiled;
        }
        entry, i := compiled.value, i - 1;
      }
      assert steps[0..] == steps;
      return Ok(entry);
    }

    method Operation(op: Op, after: string, scope: string) returns (r: Result<string>)
      modifies this
      ensures Gave(CompileOp(op, after, scope, old(State())), r, State()) && old(ids) <= ids
      decreases op, 0
    {
      match op {
        case Call(id, target, args, undo) =>
          var nid :- Id(id);
          if target == "" { return Raise("task target must not be empty"); }
          AddNode(nid, Task(Capability(target, args), after, undo), scope);
          return Ok(nid);
        case Wait(id, seconds) =>
          var nid :- Id(id);
          AddNode(nid, Sleep(seconds, after), scope);
          return Ok(nid);
        case Sequence(steps) => r := SequenceOf(steps, after, scope);
        case Condition(id, when, steps, otherwise) =>
          var nid :- Id(id);
          var yes :- SequenceOf(steps, after, scope);
          var no :- SequenceOf(otherwise, after, scope);
          if !RawRootsOk(when) { return Raise("condition path needs a structured reference"); }
          AddNode(nid, Switch([Case(when, yes)], no), scope);
          return Ok(nid);
        case Parallel(id, branches) =>
          var nid :- Id(id);
          var join :- Id(Some(nid + "_join"));
          inner := inner + {join};
          AddNode(join, Join(after), scope);
          var entries :- BranchEntries(branches, nid, join, scope);
          AddNode(nid, Split(entries, join), scope);
          return Ok(nid);
      }
    }

    /** Compiles the branches of a parallel, exposing the nodes that end each of them. */
    method BranchEntries(branches: seq<Op>, nid: string, join: string, scope: string) returns (r: Result<seq<string>>)
      modifies this
      ensures Gave(CompileBranches(branches, 0, nid, join, scope, old(State())), r, State()) && old(ids) <= ids
      decreases branches, 1
    {
      hide CompileOp, Terminals, Expose, BranchScope, Prepended;
      var entries: seq<string> := [];
      ghost var whole := CompileBranches(branches, 0, nid, join, scope, State());
      PrependNothing(whole);
      assert branches[0..] == branches;
      var index := 0;
      while index < |branches|
        invariant 0 <= index <= |branches|
        invariant whole == Prepended(entries, CompileBranches(branches[index..], index, nid, join, scope, State()))
        invariant old(ids) <= ids
      {
        assert branches[index..][0] == branches[index] && branches[index..][1..] == branches[index + 1..];
        var before := ids;
        ghost var st := State();
        var tried := Operation(branches[index], END, BranchScope(scope, nid, index));
        if tried.Raise? {
          PrependRaise(entries, CompileBranches(branches[index..], index, nid, join, scope, st));
          return Raise(tried.reason);
        }
        var entry := tried.value;
        Terminate(Terminals(nodes, before), join, index);
        BranchesStep(branches[index..], index, nid, join, scope, st, entry, State());
        PrependOne(entries, entry, CompileBranches(branches[index + 1..], index + 1, nid, join, scope, State()));
        entries := entries + [entry];
        index := index + 1;
      }
      assert branches[index..] == [];
      PrependsNothing(entries, State());
      return Ok(entries);
    }

    /** Records, one after the other, the nodes whose results a join exposes. */
    method Terminate(terminal: set<string>, join: string, index: nat)
      modifies this`branchResults
      ensures State() == old(State()).(joins := Expose(old(branchResults), terminal, join, index))
    {
      var todo := terminal;
      while todo != {}
        invariant todo <= terminal
        invariant branchResults == Expose(old(branchResults), terminal - todo, join, index)
      {
        var nodeId :| nodeId in todo;
        branchResults := branchResults[nodeId := (join, index)];
        todo := todo - {nodeId};
      }
      assert terminal - todo == terminal;
    }

    // -------------------------------------------------------------- exits of a repeat

    /** The nodes reachable from the entry of the after-steps. */
    method Reachable(after: string) returns (reachable: set<string>)
      ensures reachable == Reach(nodes, [after], {})
    {
      reachable := {};
      var stack := [after];
      while stack != []
        invariant Reach(nodes, stack, reachable) == Reach(nodes, [after], {})
        decreases |nodes.Keys - reachable|, |stack|
      {
        var key := stack[|stack| - 1];
        stack := stack[..|stack| - 1];
        if key in nodes && key !in reachable {
          assert nodes.Keys - (reachable + {key}) < nodes.Keys - reachable by { assert key in nodes.Keys - reachable; }
          Smaller(nodes.Keys - reachable, nodes.Keys - (reachable + {key}));
          reachable := reachable + {key};
          stack := stack + Successors(nodes[key]);
        }
      }
    }

    /** Where a run leaves the loop after pass `index`: copies of the after-steps are made once per exit. */
    method ExitFrom(l: Layout, index: int) returns (r: Result<string>)
      requires index >= -1 && l.tail <= ids
      modifies this
      ensures Gave(ExitEntry(l, index, old(State())), r, State()) && old(ids) <= ids
    {
      hide ExitNode, ExitId, CopyTail, WithCopies, InnerCopies, ExitIds;
      if l.tail == {} || index == l.block.chunk - 1 { return Ok(l.after); }
      if index in exitCache { return Ok(exitCache[index]); }
      ghost var start := State();
      var reserved := ReserveCopies(l, index);
      if reserved.Raise? { return Raise(reserved.reason); }
      if exists key | key in l.tail :: key !in l.source || ExitNode(l, index, l.source[key]).Raise? {
        return Raise("seed"); }
      CopiesAreTail(l, index, start);
      CopyNodes(l, index);
      inner := inner + InnerCopies(l, index, inner);
      exitCache := exitCache[index := ExitId(l, index, l.after)];
      return Ok(ExitId(l, index, l.after));
    }

    /** Reserves the ids of the copies, one after the other. */
    method ReserveCopies(l: Layout, index: int) returns (r: Result<()>)
      requires index >= -1
      modifies this`ids, this`inner
      ensures r.Ok? <==> forall key | key in l.tail :: ExitId(l, index, key) !in old(ids)
      ensures r.Ok? ==> State() == old(State()).(ids := old(ids) + ExitIds(l, index))
      ensures old(ids) <= ids
    {
      hide ExitId, ExitSuffix;
      var todo := l.tail;
      assert CopyIds(l, index, l.tail - todo) == {};
      while todo != {}
        invariant todo <= l.tail
        invariant State() == old(State()).(ids := old(ids) + CopyIds(l, index, l.tail - todo))
        invariant forall key | key in l.tail - todo :: ExitId(l, index, key) !in old(ids)
      {
        var key :| key in todo;
        ghost var done := l.tail - todo;
        ExitIdDiffers(l, index, key);
        FreshUnlessOld(l, index, key, done);
        var reserved := Id(Some(ExitId(l, index, key)));
        if reserved.Raise? { return Raise(reserved.reason); }
        todo := todo - {key};
        assert l.tail - todo == done + {key};
        assert CopyIds(l, index, done + {key}) == CopyIds(l, index, done) + {ExitId(l, index, key)};
      }
      assert l.tail - todo == l.tail;
      assert CopyIds(l, index, l.tail) == ExitIds(l, index);
      return Ok(());
    }

    /** Adds the renamed after-steps, one node after the other. */
    method CopyNodes(l: Layout, index: int)
      requires index >= -1 && Copyable(l, index)
      requires forall key | key in l.tail :: ExitId(l, index, key) !in l.tail
      modifies this`nodes, this`scopes, this`branchResults
      ensures State() == old(State()).(nodes := nodes, scopes := scopes, joins := branchResults)
      ensures State() == WithCopies(l, index, l.tail, old(State()))
    {
      hide WithCopies, ExitNode, ExitId;
      var todo := l.tail;
      ghost var start := State();
      assert l.tail - todo == {};
      NoCopies(l, index, start);
      while todo != {}
        invariant todo <= l.tail
        invariant State() == WithCopies(l, index, l.tail - todo, start)
      {
        var key :| key in todo;
        ghost var done := l.tail - todo;
        OneMoreCopy(l, index, done, key, start);
        OwnScope(l, index, done, key, start);
        var id := ExitId(l, index, key);
        if key in branchResults {
          branchResults := branchResults[id := (ExitId(l, index, branchResults[key].0), branchResults[key].1)];
        }
        AddNode(id, ExitNode(l, index, l.source[key]).value, if key in scopes then scopes[key] else "");
        todo := todo - {key};
        assert l.tail - todo == done + {key};
      }
      assert l.tail - todo == l.tail;
    }

    // -------------------------------------------------------------- passes of a repeat

    method Clock(l: Layout, index: nat) returns (r: Result<()>)
      modifies this
      ensures Became(CompileClock(l, index, old(State())), r, State()) && old(ids) <= ids
    {
      if Timed(l.block.loop) {
        var clock :- Id(Some(Checked(l.block, "_clock", index)));
        AddNode(clock, Helper(ClockInput(l.block, index), Checked(l.block, "_expired", index)), "");
      }
      return Ok(());
    }

    /** The bookkeeping behind a pass: its tick, and the check that may end the loop. */
    method Tick(l: Layout, index: nat, next: string) returns (r: Result<string>)
      requires l.tail <= ids
      modifies this
      ensures Gave(CompileTick(l, index, next, old(State())), r, State()) && old(ids) <= ids
    {
      hide TickInput, ClockInput, CompileClock, ExitEntry, DoneTest;
      var b := l.block;
      var tick :- Id(Some(Checked(b, "_tick", index)));
      var check :- Id(Some(Checked(b, "_check", index)));
      var _ :- Clock(l, index);
      var input :- TickInput(b, l.text, index);
      AddNode(tick, Helper(input, check), "");
      if !Timed(b.loop) && b.remaining.Some? && index < b.chunk - 1 {
        nodes := nodes[tick := Helper(input, next)];
      } else {
        var target := l.after;
        if Timed(b.loop) { target :- ExitFrom(l, index); }
        AddNode(check, Switch([Case(DoneTest(tick), target)], next), "");
      }
      return Ok(tick);
    }

    /** The expiry check in front of a timed pass. */
    method Expiry(l: Layout, index: nat, body: string) returns (r: Result<string>)
      requires l.tail <= ids
      modifies this
      ensures Gave(CompileExpiry(l, index, body, old(State())), r, State()) && old(ids) <= ids
    {
      hide ExitEntry, DoneTest;
      if !Timed(l.block.loop) { return Ok(body); }
      var expired :- Id(Some(Checked(l.block, "_expired", index)));
      var target :- ExitFrom(l, index - 1);
      var clock := Checked(l.block, "_clock", index);
      AddNode(expired, Switch([Case(DoneTest(clock), target)], body), "");
      return Ok(clock);
    }

    /** One pass, entered through the wait that separates it from the pass before. */
    method Pass(l: Layout, index: nat, next: string) returns (r: Result<string>)
      requires l.tail <= ids
      modifies this
      ensures Gave(CompilePass(l, index, next, old(State())), r, State()) && old(ids) <= ids
    {
      hide CompileTick, CompileExpiry, CompileOps, RewriteOps;
      var tick :- Tick(l, index, next);
      var body :- RewriteOps(Shift(l.block, index, false), l.text, l.block.loop.body);
      var entry :- SequenceOf(body, tick, "");
      var first :- Expiry(l, index, entry);
      if index == 0 { return Ok(first); }
      var wait :- Id(Some(Checked(l.block, "_wait", index - 1)));
      AddNode(wait, Sleep(l.block.loop.interval, first), "");
      return Ok(wait);
    }

    /** The node that hands an unfinished repeat on, behind the wait at the end of the block. */
    method Continuation(b: Block, plan: Plan, after: string) returns (r: Result<string>)
      modifies this
      ensures Gave(CompileContinuation(b, plan, after, old(State())), r, State()) && old(ids) <= ids
    {
      hide CarryExpr;
      if !Continues(b) { return Ok(after); }
      var continuation :- Id(Some(b.loop.id + "_continue"));
      var boundary :- Id(Some(b.loop.id + "_boundary_wait"));
      AddNode(continuation, Task(Replan(Cached(plan, b.loop.id), CarryExpr(b)), END, None), "");
      AddNode(boundary, Sleep(b.loop.interval, continuation), "");
      return Ok(boundary);
    }

    /** A repeat resumed with nothing left: its after-steps are rewritten in place. */
    method Seed(l: Layout) returns (r: Result<()>)
      modifies this`nodes
      ensures Became(SeedTail(l, old(State())), r, State())
    {
      hide ExitNode;
      var keep := l.(tail := {});
      ghost var start := nodes;
      var todo := set key | key in l.tail && key in nodes;
      ghost var all := todo;
      while todo != {}
        invariant todo <= all && nodes.Keys == start.Keys
        invariant forall key | key in all - todo :: ExitNode(keep, -1, start[key]).Ok?
        invariant forall key | key in start ::
          nodes[key] == if key in all - todo then ExitNode(keep, -1, start[key]).value else start[key]
      {
        var key :| key in todo;
        var node :- ExitNode(keep, -1, nodes[key]);
        nodes := nodes[key := node];
        todo := todo - {key};
      }
      assert all - todo == all;
      return Ok(());
    }

    /** The passes of a repeat's block, last to first, in front of its continuation. */
    method RepeatBlock(plan: Plan, loop: Repeat, continuation: map<string, Json>, text: Json -> string, after: string)
      returns (r: Result<string>)
      requires nodes.Keys <= ids
      modifies this
      ensures Gave(CompileRepeat(plan, loop, continuation, text, after, old(State())), r, State())
    {
      hide BlockOf, CompilePass, CompileContinuation, SeedTail, Reach;
      var _ :- Id(Some(loop.id));
      var b :- BlockOf(loop, continuation);
      var tail := Reachable(after);
      ReachInNodes(nodes, after);
      var l := Layout(b, after, tail, nodes, text);
      if b.remaining == Some(0) {
        var _ :- Seed(l);
        return Ok(after);
      }
      var next :- Continuation(b, plan, after);
      ghost var whole := CompilePasses(l, b.chunk, next, State());
      var index := b.chunk;
      while index > 0
        invariant CompilePasses(l, index, next, State()) == whole && l.tail <= ids
      {
        index := index - 1;
        next :- Pass(l, index, next);
      }
      return Ok(next);
    }

    // -------------------------------------------------------------- whole plans

    method Draft(plan: Plan, continuation: map<string, Json>, resume: Option<string>, text: Json -> string)
      returns (r: Result<string>)
      requires State() == EMPTY
      modifies this
      ensures if CompileDraft(plan, continuation, resume, text).Ok? then
                r.Ok? && CompileDraft(plan, continuation, resume, text).value == Built(r.value, State())
              else r.Raise?
    {
      hide CompileOps, CompileRepeat;
      match plan {
        case Straight(steps) =>
          if resume.Some? { return Raise("Continuation must resume a top-level repeat"); }
          r := SequenceOf(steps, END, "");
        case Looping(before, loop, after) =>
          if before != [] && Chunked(loop) { return Raise("actions before a continued repeat"); }
          if resume.Some? && resume.value != loop.id { return Raise("Continuation must resume a top-level repeat"); }
          var tail :- SequenceOf(after, END, "");
          CompiledIsSound(after);
          var entry :- RepeatBlock(plan, loop, continuation, text, tail);
          if resume.Some? { return Ok(entry); }
          r := SequenceOf(before, entry, "");
      }
    }

    /** Resolves every node's references, one node after the other. */
    method ResolveNodes() returns (r: Result<Native>)
      ensures if ResolveAll(State()).Ok? then r == ResolveAll(State()) else r.Raise?
    {
      hide ResolveNode;
      var graph: Native := map[];
      var todo := nodes.Keys;
      while todo != {}
        invariant todo <= nodes.Keys && graph.Keys == nodes.Keys - todo
        invariant forall id | id in graph ::
          ResolveNode(State(), ScopeOf(State(), id), nodes[id]) == Ok(graph[id])
      {
        var id :| id in todo;
        var node :- Resolved(id);
        graph := graph[id := node];
        todo := todo - {id};
      }
      assert ResolveAll(State()).value == graph;
      return Ok(graph);
    }

    method Resolved(id: string) returns (r: Result<NativeNode>)
      requires id in nodes
      ensures r == ResolveNode(State(), ScopeOf(State(), id), nodes[id])
    {
      hide ResolveNode;
      var st := Build(nodes, ids, {}, scopes, branchResults, exitCache);
      InnerIsSpectator(st, inner, ScopeOf(st, id), nodes[id]);
      return ResolveNode(st, if id in scopes then scopes[id] else "", nodes[id]);
    }

    /** Compiles a plan, or the rest of one, into a native graph. */
    method CompilePlan(plan: Plan, continuation: map<string, Json>, resume: Option<string>, text: Json -> string)
      returns (r: Result<Compiled>)
      requires State() == EMPTY
      modifies this
      ensures if Compile(plan, continuation, resume, text).Ok? then r == Compile(plan, continuation, resume, text)
        else r.Raise?
    {
      hide CompileDraft, ResolveAll;
      var entry :- Draft(plan, continuation, resume, text);
      var graph :- ResolveNodes();
      return Ok(Compiled(entry, graph));
    }
  }

  /** The build once the given after-steps are copied. */
  function WithCopies(l: Layout, index: int, keys: set<string>, st: Build): Build
    requires index >= -1 && keys <= l.tail && Copyable(l, index)
  {
    st.(nodes := st.nodes + NodeCopies(l, index, keys),
        scopes := st.scopes + ScopeCopies(l, index, keys, st),
        joins := st.joins + JoinCopies(l, index, keys, st))
  }

  /** Which ids no plan can name does not matter to what a reference resolves to. */
  lemma {:induction false} InnerIsSpectatorIn(st: Build, inner: set<string>, scope: string, e: Expr)
    ensures Resolve(st.(inner := inner), scope, e) == Resolve(st, scope, e)
    decreases e, 0
  {
    match e
    case List(items) =>
      forall i | 0 <= i < |items| { InnerIsSpectatorIn(st, inner, scope, items[i]); }
      SameItems(st, st.(inner := inner), scope, items);
    case Dict(entries) =>
      forall k | k in entries { InnerIsSpectatorIn(st, inner, scope, entries[k]); }
      SameEntries(st, st.(inner := inner), scope, entries);
    case Template(parts) => InnerIsSpectatorInParts(st, inner, scope, parts);
    case _ =>
  }

  lemma SameItems(a: Build, b: Build, scope: string, items: seq<Expr>)
    requires forall i | 0 <= i < |items| :: Resolve(a, scope, items[i]) == Resolve(b, scope, items[i])
    ensures Resolve(a, scope, List(items)) == Resolve(b, scope, List(items))
  {
    var ok := forall i | 0 <= i < |items| :: Resolve(a, scope, items[i]).Ok?;
    assert ok <==> forall i | 0 <= i < |items| :: Resolve(b, scope, items[i]).Ok?;
    if ok {
      var x := seq(|items|, i requires 0 <= i < |items| => Resolve(a, scope, items[i]).value);
      var y := seq(|items|, i requires 0 <= i < |items| => Resolve(b, scope, items[i]).value);
      assert Resolve(a, scope, List(items)) == Ok(TList(x));
      assert Resolve(b, scope, List(items)) == Ok(TList(y));
      assert x == y;
    }
  }

  lemma SameEntries(a: Build, b: Build, scope: string, entries: map<string, Expr>)
    requires forall k | k in entries :: Resolve(a, scope, entries[k]) == Resolve(b, scope, entries[k])
    ensures Resolve(a, scope, Dict(entries)) == Resolve(b, scope, Dict(entries))
  {
    if forall k | k in entries :: Resolve(a, scope, entries[k]).Ok? {
      var x, y := Resolve(a, scope, Dict(entries)).value.entries, Resolve(b, scope, Dict(entries)).value.entries;
      assert x == y;
    }
  }

  lemma {:induction false} InnerIsSpectatorInParts(st: Build, inner: set<string>, scope: string, es: seq<Expr>)
    ensures ResolveParts(st.(inner := inner), scope, es) == ResolveParts(st, scope, es)
    decreases es, 1
  {
    if es != [] {
      InnerIsSpectatorIn(st, inner, scope, es[0]);
      InnerIsSpectatorInParts(st, inner, scope, es[1..]);
    }
  }

  lemma {:induction false} InnerIsSpectatorInCond(st: Build, inner: set<string>, scope: string, c: Cond)
    ensures ResolveCond(st.(inner := inner), scope, c) == ResolveCond(st, scope, c)
    decreases c, 0
  {
    match c
    case Group(items) => InnerIsSpectatorInConds(st, inner, scope, items);
    case Operator(_, args) => InnerIsSpectatorInConds(st, inner, scope, args);
    case _ =>
  }

  lemma {:induction false} InnerIsSpectatorInConds(st: Build, inner: set<string>, scope: string, cs: seq<Cond>)
    ensures ResolveConds(st.(inner := inner), scope, cs) == ResolveConds(st, scope, cs)
    decreases cs, 1
  {
    if cs != [] {
      InnerIsSpectatorInCond(st, inner, scope, cs[0]);
      InnerIsSpectatorInConds(st, inner, scope, cs[1..]);
    }
  }

  lemma {:induction false} InnerIsSpectatorInCases(st: Build, inner: set<string>, scope: string,
      cases: seq<Case<Operand>>)
    ensures ResolveCases(st.(inner := inner), scope, cases) == ResolveCases(st, scope, cases)
    decreases cases
  {
    if cases != [] {
      InnerIsSpectatorInCond(st, inner, scope, cases[0].when);
      InnerIsSpectatorInCases(st, inner, scope, cases[1..]);
    }
  }

  lemma InnerIsSpectator(st: Build, inner: set<string>, scope: string, node: Draft)
    ensures ResolveNode(st.(inner := inner), scope, node) == ResolveNode(st, scope, node)
  {
    match node
    case Task(action, _, undo) =>
      if action.Capability? { InnerIsSpectatorIn(st, inner, scope, action.input); }
      if action.Replan? { InnerIsSpectatorIn(st, inner, scope, action.carry); }
      if undo.Some? { InnerIsSpectatorIn(st, inner, scope, undo.value); }
    case Switch(cases, _) => InnerIsSpectatorInCases(st, inner, scope, cases);
    case _ =>
  }

  lemma ReachInNodes(nodes: map<string, Draft>, after: string)
    ensures Reach(nodes, [after], {}) <= nodes.Keys
  {
    ReachIsClosed(nodes, [after], {});
  }

  lemma CompiledIsSound(after: seq<Op>)
    requires CompileOps(after, END, "", EMPTY).Ok?
    ensures CompileOps(after, END, "", EMPTY).value.1.nodes.Keys <= CompileOps(after, END, "", EMPTY).value.1.ids
  {
    assert Sound(EMPTY);
    CompileAllExtends(after, END, "", EMPTY);
  }

  lemma PlusNothing<K, V>(a: map<K, V>, b: map<K, V>)
    requires b.Keys == {}
    ensures a + b == a
  {
  }

  lemma NoCopies(l: Layout, index: int, st: Build)
    requires index >= -1 && Copyable(l, index)
    ensures WithCopies(l, index, {}, st) == st
  {
    hide ExitNode, Copyable;
    assert CopyIds(l, index, {}) == {};
    PlusNothing(st.nodes, NodeCopies(l, index, {}));
    PlusNothing(st.scopes, ScopeCopies(l, index, {}, st));
    PlusNothing(st.joins, JoinCopies(l, index, {}, st));
    hide NodeCopies, ScopeCopies, JoinCopies;
  }

  lemma CopiesAreTail(l: Layout, index: int, st: Build)
    requires index >= -1 && Copyable(l, index)
    ensures CopyTail(l, index, st) ==
      WithCopies(l, index, l.tail, st.(ids := st.ids + ExitIds(l, index))).(
        inner := st.inner + InnerCopies(l, index, st.inner), exits := st.exits[index := ExitId(l, index, l.after)])
  {
    hide ExitNode, ExitId, NodeCopies, JoinCopies;
    assert ScopeCopies(l, index, l.tail, st) == ScopeCopies(l, index, l.tail, st.(ids := st.ids + ExitIds(l, index)));
    SameJoins(l, index, st);
  }

  lemma SameJoins(l: Layout, index: int, st: Build)
    requires index >= -1
    ensures JoinCopies(l, index, l.tail, st) == JoinCopies(l, index, l.tail, st.(ids := st.ids + ExitIds(l, index)))
  {
  }

  /** What is recorded for a key is not touched by copying others. */
  lemma OwnScope(l: Layout, index: int, done: set<string>, key: string, st: Build)
    requires index >= -1 && done <= l.tail && key in l.tail && Copyable(l, index)
    requires forall key | key in l.tail :: ExitId(l, index, key) !in l.tail
    ensures var now := WithCopies(l, index, done, st);
      && ScopeOf(now, key) == ScopeOf(st, key)
      && (key in now.joins <==> key in st.joins) && (key in st.joins ==> now.joins[key] == st.joins[key])
  {
    hide ExitNode, Copyable, NodeCopies;
  }

  lemma OneMoreNode(l: Layout, index: int, done: set<string>, key: string)
    requires index >= -1 && done <= l.tail && key in l.tail && key !in done && Copyable(l, index)
    ensures NodeCopies(l, index, done + {key})
         == NodeCopies(l, index, done)[ExitId(l, index, key) := ExitNode(l, index, l.source[key]).value]
  {
    CopyIdsLong(l, index, done + {key});
    CopyIdsLong(l, index, done);
    FreshUnlessOld(l, index, key, done);
    assert CopyIds(l, index, done + {key}) == CopyIds(l, index, done) + {ExitId(l, index, key)};
    hide ExitNode, ExitId, Original;
  }

  lemma OneMoreScope(l: Layout, index: int, done: set<string>, key: string, st: Build)
    requires index >= -1 && done <= l.tail && key in l.tail && key !in done
    ensures ScopeCopies(l, index, done + {key}, st)
      == ScopeCopies(l, index, done, st)[ExitId(l, index, key) := ScopeOf(st, key)]
  {
    CopyIdsLong(l, index, done + {key});
    CopyIdsLong(l, index, done);
    FreshUnlessOld(l, index, key, done);
    assert CopyIds(l, index, done + {key}) == CopyIds(l, index, done) + {ExitId(l, index, key)};
    hide ExitId, Original, ScopeOf;
  }

  lemma OneMoreJoin(l: Layout, index: int, done: set<string>, key: string, st: Build)
    requires index >= -1 && done <= l.tail && key in l.tail && key !in done
    ensures JoinCopies(l, index, done + {key}, st) ==
      if key in st.joins
        then JoinCopies(l, index, done,
        st)[ExitId(l, index, key) := (ExitId(l, index, st.joins[key].0), st.joins[key].1)]
      else JoinCopies(l, index, done, st)
  {
    CopyIdsLong(l, index, done + {key});
    CopyIdsLong(l, index, done);
    FreshUnlessOld(l, index, key, done);
    assert CopyIds(l, index, done + {key}) == CopyIds(l, index, done) + {ExitId(l, index, key)};
    hide ExitId, Original;
  }

  lemma PutOver<K, V>(a: map<K, V>, b: map<K, V>, k: K, v: V)
    ensures a + b[k := v] == (a + b)[k := v]
  {
  }

  lemma OneMoreCopy(l: Layout, index: int, done: set<string>, key: string, st: Build)
    requires index >= -1 && done <= l.tail && key in l.tail && key !in done && Copyable(l, index)
    ensures var id := ExitId(l, index, key); var now := WithCopies(l, index, done, st);
      WithCopies(l, index, done + {key}, st) ==
        now.(nodes := now.nodes[id := ExitNode(l, index, l.source[key]).value],
             scopes := now.scopes[id := ScopeOf(st, key)],
             joins := if key in st.joins then now.joins[id := (ExitId(l, index, st.joins[key].0), st.joins[key].1)]
               else now.joins)
  {
    OneMoreNode(l, index, done, key);
    OneMoreScope(l, index, done, key, st);
    OneMoreJoin(l, index, done, key, st);
    var id := ExitId(l, index, key);
    PutOver(st.nodes, NodeCopies(l, index, done), id, ExitNode(l, index, l.source[key]).value);
    PutOver(st.scopes, ScopeCopies(l, index, done, st), id, ScopeOf(st, key));
    if key in st.joins {
      PutOver(st.joins, JoinCopies(l, index, done, st), id, (ExitId(l, index, st.joins[key].0), st.joins[key].1));
    }
    hide NodeCopies, ScopeCopies, JoinCopies, ExitNode, ExitId;
  }

  lemma FreshUnlessOld(l: Layout, index: int, key: string, done: set<string>)
    requires index >= -1 && key in l.tail && key !in done && done <= l.tail
    ensures ExitId(l, index, key) !in set k | k in done :: ExitId(l, index, k)
  {
    forall k | k in done ensures ExitId(l, index, k) != ExitId(l, index, key) {
      OriginalOf(l, index, k);
      OriginalOf(l, index, key);
    }
  }
}
