/** Completion injection: every way to end a run is led through one completing task. */
module Completion {
  import opened Json
  import opened Plan
  import opened Graph
  import opened Branches

  const RS_COMPLETE := "rs_complete"

  const COMPLETING: NativeNode := Task(Complete, END, None)

  function Redirect(target: string): string { if target == END then RS_COMPLETE else target }

  function RedirectCases(cases: seq<Case<Path>>): (r: seq<Case<Path>>)
    ensures |r| == |cases|
    ensures forall i | 0 <= i < |cases| :: r[i] == Case(cases[i].when, Redirect(cases[i].target))
  {
    if cases == [] then [] else [Case(cases[0].when, Redirect(cases[0].target))] + RedirectCases(cases[1..])
  }

  function Rewired(node: NativeNode): NativeNode
  {
    match node
    case Task(action, next, undo) => Task(action, Redirect(next), undo)
    case Sleep(seconds, next) => Sleep(seconds, Redirect(next))
    case Join(next) => Join(Redirect(next))
    case Switch(cases, default) => Switch(RedirectCases(cases), Redirect(default))
    case Split(_, _) => node
  }

  /** The graph with its completing task; branches keep their ends. */
  ghost function Injected(g: Native): Native
  {
    if RS_COMPLETE in g then g
    else (map key | key in g :: if Inside(g, key) then g[key] else Rewired(g[key]))[RS_COMPLETE := COMPLETING]
  }

  /** A workflow definition, rewired in place. */
  class Definition {
    var nodes: Native
    var entrypoint: string

    constructor (nodes: Native, entrypoint: string)
      ensures this.nodes == nodes && this.entrypoint == entrypoint
    {
      this.nodes, this.entrypoint := nodes, entrypoint;
    }

    method InjectCompletion()
      modifies this
      ensures nodes == Injected(old(nodes))
      ensures entrypoint == if RS_COMPLETE in old(nodes) then old(entrypoint) else Redirect(old(entrypoint))
    {
      if RS_COMPLETE in nodes { return; }
      var inside := BranchNodes(nodes);
      ghost var start := nodes;
      var todo := nodes.Keys;
      while todo != {}
        invariant todo <= start.Keys == nodes.Keys && entrypoint == old(entrypoint)
        invariant forall key | key in start ::
          nodes[key] == if key in todo || key in inside then start[key] else Rewired(start[key])
      {
        var key :| key in todo;
        if key !in inside {
          nodes := nodes[key := Rewired(nodes[key])];
        }
        todo := todo - {key};
      }
      if entrypoint == END { entrypoint := RS_COMPLETE; }
      nodes := nodes[RS_COMPLETE := COMPLETING];
    }
  }

  /** Injecting twice changes nothing more. */
  lemma InjectionIsIdempotent(g: Native)
    ensures RS_COMPLETE in Injected(g) && Injected(Injected(g)) == Injected(g)
  {
  }

  // ---------------------------------------------------------------- graphs the claim is about

  /** Nothing names the completing task yet; branches are flat and entered only through their split. */
  ghost predicate Injectable(g: Native, entry: string)
  {
    && ProperNames(g) && RS_COMPLETE !in g && entry != RS_COMPLETE && FlatSplits(g)
    && (forall key | key in g :: RS_COMPLETE !in Targeted(g[key]))
    && (entry in g ==> !Inside(g, entry))
    && (forall key, x | key in g && !Inside(g, key) && x in Targeted(g[key]) && x in g ::
          !Inside(g, x) || (g[key].Split? && x in g[key].branches))
    && forall key | key in g && g[key].Split? && g[key].join in g :: !Inside(g, g[key].join)
  }

  // ---------------------------------------------------------------- branches are unchanged

  lemma InsideStays(g: Native, key: string, x: string)
    requires ProperNames(g) && FlatSplits(g) && key in g && Inside(g, key) && x in Targeted(g[key]) && x in g
    ensures Inside(g, x)
  {
    var b :| BranchEntry(g, b) && InBranch(g, b, key);
    assert !g[key].Split?;
    ChainOn(g, b, key, x);
  }

  lemma {:induction false} ChosenIsTargeted(w: World, cases: seq<Case<Path>>, default: string, ctx: Json)
    ensures Choose(w, cases, default, ctx).Some? ==> Choose(w, cases, default, ctx).value in Targets(cases) + [default]
    decreases cases
  {
    var targets := Targets(cases) + [default];
    assert targets[|cases|] == default;
    if cases != [] {
      ChosenIsTargeted(w, cases[1..], default, ctx);
      assert targets[0] == cases[0].target;
      assert Targets(cases[1..]) + [default] == targets[1..];
      assert forall x | x in targets[1..] :: x in targets;
    }
  }

  /** A branch runs in the injected graph exactly as before. */
  lemma {:induction false} BranchUnchanged(g: Native, entry: string, w: World, limit: nat, current: string, f: Frame,
      r: Run, n: nat)
    requires Injectable(g, entry) && current != RS_COMPLETE && (current in g ==> Inside(g, current))
    ensures Walk(Injected(g), w, limit, current, f, r, n) == Walk(g, w, limit, current, f, r, n)
    decreases Left(limit, n)
  {
    hide Inside, Perform, Choose, Unwind;
    var g' := Injected(g);
    if current != END && n + 1 <= limit && current in g {
      assert g'[current] == g[current];
      NoSplitInside(g, current);
      match g[current]
      case Task(action, next, undo) =>
        StaysInside(g, entry, current, next);
        var done := Perform(w, action, Context(w, f.nodes), r);
        if done.Body? && !HasError(done.body) {
          BranchUnchanged(g, entry, w, limit, next, Completed(f, current, done.body, undo), done.run, n + 1);
        }
      case Sleep(seconds, next) =>
        StaysInside(g, entry, current, next);
        BranchUnchanged(g, entry, w, limit, next, f, r.(clock := r.clock + seconds), n + 1);
      case Switch(cases, default) =>
        var chosen := Choose(w, cases, default, Context(w, f.nodes));
        ChosenIsTargeted(w, cases, default, Context(w, f.nodes));
        if chosen.Some? {
          StaysInside(g, entry, current, chosen.value);
          BranchUnchanged(g, entry, w, limit, chosen.value, f, r, n + 1);
        }
      case Join(_) =>
    }
  }

  lemma NoSplitInside(g: Native, key: string)
    requires FlatSplits(g) && key in g && Inside(g, key)
    ensures !g[key].Split?
  {
  }

  lemma StaysInside(g: Native, entry: string, key: string, x: string)
    requires Injectable(g, entry) && key in g && Inside(g, key) && x in Targeted(g[key])
    ensures x != RS_COMPLETE && (x in g ==> Inside(g, x))
  {
    if x in g { InsideStays(g, key, x); }
  }

  lemma {:induction false} BranchesUnchanged(g: Native, entry: string, w: World, limit: nat, branches: seq<string>,
      start: real, r: Run, n: nat)
    requires Injectable(g, entry) && forall b | b in branches :: b != RS_COMPLETE && (b in g ==> Inside(g, b))
    ensures WalkBranches(Injected(g), w, limit, branches, start, r, n)
      == WalkBranches(g, w, limit, branches, start, r, n)
    decreases branches
  {
    hide Inside, Walk, Injected;
    if branches != [] {
      BranchUnchanged(g, entry, w, limit, branches[0], FRESH, r.(clock := start), n);
      match Walk(g, w, limit, branches[0], FRESH, r.(clock := start), n)
      case Failed(_, _, _) =>
      case Done(_, r', n') => BranchesUnchanged(g, entry, w, limit, branches[1..], start, r', n');
    }
  }

  lemma SplitEntries(g: Native, key: string, b: string)
    requires key in g && g[key].Split? && b in g[key].branches && b in g
    ensures Inside(g, b)
  {
    EntryInBranch(g, b);
    assert BranchEntry(g, b);
  }

  // ---------------------------------------------------------------- runs end by completing

  /** What a run becomes: unchanged when it fails, completed once as its last step when it ends. */
  function WithCompletion(out: Outcome, limit: nat): Outcome
  {
    match out
    case Failed(_, _, _) => out
    case Done(f, r, n) =>
      if n + 1 > limit then Failed(OutOfSteps, r, n + 1)
      else Done(Frame(f.nodes[RS_COMPLETE := Response(Obj(map[]))], Obj(map[]), f.undo),
        r.(completions := r.completions + 1), n + 1)
  }

  lemma {:induction false} ChooseRedirected(w: World, cases: seq<Case<Path>>, default: string, ctx: Json)
    ensures var chosen := Choose(w, cases, default, ctx);
      Choose(w, RedirectCases(cases), Redirect(default), ctx) == if chosen.None? then None
        else Some(Redirect(chosen.value))
    decreases cases
  {
    if cases != [] {
      ChooseRedirected(w, cases[1..], default, ctx);
      var rest := RedirectCases(cases[1..]);
      assert RedirectCases(cases) == [Case(cases[0].when, Redirect(cases[0].target))] + rest;
      assert RedirectCases(cases)[1..] == rest;
    }
  }

  lemma CompletingRuns(g: Native, w: World, limit: nat, f: Frame, r: Run, n: nat)
    requires RS_COMPLETE !in g
    ensures Walk(Injected(g), w, limit, RS_COMPLETE, f, r, n) == WithCompletion(Done(f, r, n), limit)
  {
    if n + 1 <= limit {
      var r' := r.(completions := r.completions + 1);
      var f' := Completed(f, RS_COMPLETE, Obj(map[]), None);
      assert !HasError(Obj(map[]));
      assert Walk(Injected(g), w, limit, END, f', r', n + 1) == Done(f', r', n + 1);
    }
  }

  lemma OutsideGoes(g: Native, entry: string, key: string, x: string)
    requires Injectable(g, entry) && key in g && !Inside(g, key) && !g[key].Split? && x in Targeted(g[key])
    ensures x != RS_COMPLETE && (x in g ==> !Inside(g, x))
  {
  }

  /** Every top-level run of the injected graph is the original run, completed exactly once as its
      last step if it ends; branches, calls, times and failures are unchanged. */
  lemma {:induction false} InjectionCompletes(g: Native, entry: string, w: World, limit: nat, current: string, f: Frame,
      r: Run, n: nat)
    requires Injectable(g, entry) && current != RS_COMPLETE && (current in g ==> !Inside(g, current))
    ensures Walk(Injected(g), w, limit, Redirect(current), f, r, n)
      == WithCompletion(Walk(g, w, limit, current, f, r, n), limit)
    decreases Left(limit, n), 1
  {
    hide Inside, Perform, Choose, Unwind, WithCompletion;
    if current == END {
      CompletingRuns(g, w, limit, f, r, n);
    } else {
      assert FailedIs(Walk(g, w, limit, current, f, r, n), limit) by {
        FailuresStay(Walk(g, w, limit, current, f, r, n), limit); }
      if n + 1 <= limit && current in g {
        match g[current]
        case Task(_, _, _) => TaskCompletes(g, entry, w, limit, current, f, r, n);
        case Sleep(seconds, next) =>
          OutsideGoes(g, entry, current, next);
          InjectionCompletes(g, entry, w, limit, next, f, r.(clock := r.clock + seconds), n + 1);
        case Switch(cases, default) =>
          var chosen := Choose(w, cases, default, Context(w, f.nodes));
          ChosenIsTargeted(w, cases, default, Context(w, f.nodes));
          ChooseRedirected(w, cases, default, Context(w, f.nodes));
          if chosen.Some? {
            OutsideGoes(g, entry, current, chosen.value);
            InjectionCompletes(g, entry, w, limit, chosen.value, f, r, n + 1);
          }
        case Split(branches, join) => SplitCompletes(g, entry, w, limit, current, f, r, n);
        case Join(_) =>
      }
    }
  }

  lemma {:induction false} TaskCompletes(g: Native, entry: string, w: World, limit: nat, current: string, f: Frame,
      r: Run, n: nat)
    requires Injectable(g, entry) && current in g && current != RS_COMPLETE && !Inside(g, current) && g[current].Task?
      && current != END && n + 1 <= limit
    ensures Walk(Injected(g), w, limit, current, f, r, n) == WithCompletion(Walk(g, w, limit, current, f, r, n), limit)
    decreases Left(limit, n), 0
  {
    hide Inside, Perform, Unwind, WithCompletion, HasError;
    var next := g[current].next;
    OutsideGoes(g, entry, current, next);
    FailuresStay(Walk(g, w, limit, current, f, r, n), limit);
    var done := Perform(w, g[current].action, Context(w, f.nodes), r);
    if done.Body? && !HasError(done.body) {
      InjectionCompletes(g, entry, w, limit, next, Completed(f, current, done.body, g[current].undo), done.run, n + 1);
    }
  }

  predicate FailedIs(out: Outcome, limit: nat) { out.Failed? ==> WithCompletion(out, limit) == out }

  lemma FailuresStay(out: Outcome, limit: nat)
    ensures FailedIs(out, limit)
  {
  }

  lemma {:induction false} SplitCompletes(g: Native, entry: string, w: World, limit: nat, current: string, f: Frame,
      r: Run, n: nat)
    requires Injectable(g, entry) && current in g && !Inside(g, current) && g[current].Split? && current != END
      && n + 1 <= limit
    ensures Walk(Injected(g), w, limit, current, f, r, n) == WithCompletion(Walk(g, w, limit, current, f, r, n), limit)
    decreases Left(limit, n), 0
  {
    hide Inside;
    var branches, join := g[current].branches, g[current].join;
    forall b | b in branches ensures b != RS_COMPLETE && (b in g ==> Inside(g, b)) {
      EntryIsTargeted(g[current], b);
      if b in g { SplitEntries(g, current, b); }
    }
    BranchesUnchanged(g, entry, w, limit, branches, r.clock, r, n + 1);
    var done := WalkBranches(g, w, limit, branches, r.clock, r, n + 1);
    if done.AllDone? && done.clocks != [] && join in g && g[join].Join? {
      var next := g[join].next;
      OutsideGoes(g, entry, join, next);
      InjectionCompletes(g, entry, w, limit, next,
        Frame(f.nodes[join := Response(JoinBody(branches, done.results))], JoinBody(branches, done.results), f.undo),
        done.run.(clock := Latest(done.clocks)), done.steps);
    }
  }
}
