/** Plans whose references name earlier operations or retained state, what the nodes compiled from
    them refer to, and when a node is safe to enter: every task from there on finds its references. */
module Timeliness {
  import opened Json
  import opened Plan
  import opened Graph
  import opened Meaning
  import opened Compiler
  import opened Discipline
  import opened InitCheck
  import opened Moving
  import opened Shifting
  import opened Exiting
  import opened Realization
  import opened Visibility

  // ---------------------------------------------------------------- plans that refer to earlier steps

  /** Ids whose outputs exist once the operation is over, whatever its conditions decide. */
  function Sure(op: Op): set<string>
  {
    match op
    case Call(id, _, _, _) => Named(id)
    case Sequence(steps) => SureOf(steps)
    case _ => {}
  }

  function SureOf(ops: seq<Op>): set<string>
  {
    if ops == [] then {} else Sure(ops[0]) + SureOf(ops[1..])
  }

  /** References name operations surely over. In a repeat's body a call's own id means its previous
      pass, which must then be one of the given ids. */
  predicate Orderly(op: Op, known: set<string>, again: Option<set<string>>)
  {
    match op
    case Call(id, _, args, _) => ExprOk(args, Readable(id, known, again))
    case Wait(_, _) => true
    case Sequence(steps) => OrderlyAll(steps, known, again)
    case Condition(_, _, steps, otherwise) => OrderlyAll(steps, known, again) && OrderlyAll(otherwise, known, again)
    case Parallel(_, _) => false
  }

  predicate OrderlyAll(ops: seq<Op>, known: set<string>, again: Option<set<string>>)
  {
    ops == [] || (Orderly(ops[0], known, again) && OrderlyAll(ops[1..], known + Sure(ops[0]), again))
  }

  function Readable(id: Option<string>, known: set<string>, again: Option<set<string>>): set<string>
  {
    if again.None? then known else known - Named(id) + Named(id) * again.value
  }

  /** No pass of the block is its last: each may be followed by the after-steps. */
  predicate Endless(loop: Repeat, remaining: Option<nat>) { !Timed(loop) && remaining.None? }

  /** What is surely over when the after-steps start; an endless block can be left before it has
      run its last pass. */
  function Over(loop: Repeat, remaining: Option<nat>): set<string>
  {
    if Endless(loop, remaining) then {} else SureOf(loop.body) + {TickId(loop)}
  }

  /** References name earlier operations of the same pass or retained state. */
  predicate Timely(pre: seq<Op>, loop: Repeat, after: seq<Op>, remaining: Option<nat>)
  {
    && OrderlyAll(pre, {}, None)
    && OrderlyAll(loop.body, SureOf(pre) + {TickId(loop)}, Some(SureOf(loop.body)))
    && (forall i | 0 <= i < |loop.state| ::
      ExprOk(loop.state[i].value, SureOf(pre) + SureOf(loop.body) + {TickId(loop)}))
    && OrderlyAll(after, SureOf(pre) + Over(loop, remaining), None)
  }

  // ---------------------------------------------------------------- what unresolved nodes refer to

  function ExprRefs(e: Expr): set<string>
  {
    match e
    case Words(pieces) => set i, x | 0 <= i < |pieces| && pieces[i].Hole? && x in PathNode(pieces[i].path) :: x
    case Ref(ref, _) => {ref} - ROOTS
    case List(items) => set i, x | 0 <= i < |items| && x in ExprRefs(items[i]) :: x
    case Dict(entries) => set k, x | k in entries && x in ExprRefs(entries[k]) :: x
    case Template(parts) => set i, x | 0 <= i < |parts| && x in ExprRefs(parts[i]) :: x
    case _ => {}
  }

  function DraftRefs(node: Draft): set<string>
  {
    match node
    case Task(Capability(_, input), _, _) => ExprRefs(input)
    case Task(Replan(_, carry), _, _) => ExprRefs(carry)
    case _ => {}
  }

  lemma {:induction false} OkRefs(e: Expr, known: set<string>)
    requires ExprOk(e, known)
    ensures ExprRefs(e) <= known
    decreases e
  {
    match e
    case List(items) => forall i | 0 <= i < |items| { OkRefs(items[i], known); }
    case Dict(entries) => forall k | k in entries { OkRefs(entries[k], known); }
    case Template(parts) => forall i | 0 <= i < |parts| { OkRefs(parts[i], known); }
    case _ =>
  }

  // ---------------------------------------------------------------- safe entry

  function Leaves(node: Draft, key: string): set<string>
  {
    if node.Task? || node.Join? then {key} else {}
  }

  /** For so many steps from the node on, every task finds what it refers to, given the outputs
      there are. */
  ghost predicate Fed(nodes: map<string, Draft>, steps: nat, key: string, got: set<string>)
  {
    steps == 0 || key !in nodes ||
      (DraftRefs(nodes[key]) <= got
       && forall x | x in Targeted(nodes[key]) :: Fed(nodes, steps - 1, x, got + Leaves(nodes[key], key)))
  }

  ghost predicate Safe(nodes: map<string, Draft>, key: string, got: set<string>)
  {
    forall steps: nat :: Fed(nodes, steps, key, got)
  }

  lemma SafeHere(nodes: map<string, Draft>, key: string, got: set<string>)
    requires key in nodes ==> DraftRefs(nodes[key]) <= got
    requires key in nodes ==> forall x | x in Targeted(nodes[key]) :: Safe(nodes, x, got + Leaves(nodes[key], key))
    ensures Safe(nodes, key, got)
  {
    if key in nodes {
      forall steps: nat ensures Fed(nodes, steps, key, got) {
        if steps > 0 {
          forall x | x in Targeted(nodes[key]) ensures Fed(nodes, steps - 1, x, got + Leaves(nodes[key], key)) {
            assert Safe(nodes, x, got + Leaves(nodes[key], key));
          }
        }
      }
    }
  }

  lemma SafeNext(nodes: map<string, Draft>, key: string, got: set<string>, x: string)
    requires Safe(nodes, key, got) && key in nodes && x in Targeted(nodes[key])
    ensures DraftRefs(nodes[key]) <= got && Safe(nodes, x, got + Leaves(nodes[key], key))
  {
    assert Fed(nodes, 1, key, got);
    forall steps: nat ensures Fed(nodes, steps, x, got + Leaves(nodes[key], key)) {
      assert Fed(nodes, steps + 1, key, got);
    }
  }

  lemma {:induction false} FedMore(nodes: map<string, Draft>, steps: nat, key: string, got: set<string>,
      more: set<string>)
    requires Fed(nodes, steps, key, got) && got <= more
    ensures Fed(nodes, steps, key, more)
    decreases steps
  {
    if steps > 0 && key in nodes {
      forall x | x in Targeted(nodes[key]) {
        FedMore(nodes, steps - 1, x, got + Leaves(nodes[key], key), more + Leaves(nodes[key], key));
      }
    }
  }

  lemma SafeMore(nodes: map<string, Draft>, key: string, got: set<string>, more: set<string>)
    requires Safe(nodes, key, got) && got <= more
    ensures Safe(nodes, key, more)
  {
    forall steps: nat { FedMore(nodes, steps, key, got, more); }
  }

  // ---------------------------------------------------------------- operations

  lemma {:induction false} OpSafe(st: Build, vis: set<string>, op: Op, entry: string, after: string, got: set<string>)
    requires Realizes(st, vis, op, entry, after, "") && Orderly(op, got, None) && Safe(st.nodes, after, got + Sure(op))
    ensures Safe(st.nodes, entry, got)
    decreases op, 0
  {
    hide Safe;
    match op
    case Call(id, target, args, undo) =>
      OkRefs(args, Readable(id, got, None));
      SafeMore(st.nodes, after, got + Sure(op), got + {entry});
      SafeHere(st.nodes, entry, got);
    case Wait(id, seconds) => SafeHere(st.nodes, entry, got);
    case Sequence(steps) => OpsSafe(st, vis, steps, entry, after, got);
    case Condition(id, when, steps, otherwise) =>
      var yes, no :| Labelled(id, entry, vis) && Holds(st, entry, Switch([Case(when, yes)], no), "")
        && RealizesAll(st, vis, steps, yes, after, "") && RealizesAll(st, vis, otherwise, no, after, "");
      assert got + Sure(op) == got;
      SafeMore(st.nodes, after, got, got + SureOf(steps));
      SafeMore(st.nodes, after, got, got + SureOf(otherwise));
      OpsSafe(st, vis, steps, yes, after, got);
      OpsSafe(st, vis, otherwise, no, after, got);
      SwitchSafe(st, entry, when, yes, no, got);
  }

  lemma SwitchSafe(st: Build, entry: string, when: Cond, yes: string, no: string, got: set<string>)
    requires Holds(st, entry, Switch([Case(when, yes)], no), "") && Safe(st.nodes, yes, got) && Safe(st.nodes, no, got)
    ensures Safe(st.nodes, entry, got)
  {
    hide Safe;
    assert Targeted(st.nodes[entry]) == [yes, no];
    assert got + {} == got;
    SafeHere(st.nodes, entry, got);
  }

  /** Orderly steps are safe to enter when what follows them is, once they are over. */
  lemma {:induction false} OpsSafe(st: Build, vis: set<string>, ops: seq<Op>, entry: string, after: string,
      got: set<string>)
    requires RealizesAll(st, vis, ops, entry, after, "") && OrderlyAll(ops, got, None)
      && Safe(st.nodes, after, got + SureOf(ops))
    ensures Safe(st.nodes, entry, got)
    decreases ops, 1
  {
    hide Safe;
    if ops == [] {
      assert got + {} == got;
    } else {
      var mid :| Realizes(st, vis, ops[0], entry, mid, "") && RealizesAll(st, vis, ops[1..], mid, after, "");
      assert got + SureOf(ops) == (got + Sure(ops[0])) + SureOf(ops[1..]);
      OpsSafe(st, vis, ops[1..], mid, after, got + Sure(ops[0]));
      OpSafe(st, vis, ops[0], entry, mid, got);
    }
  }

  // ---------------------------------------------------------------- rewritten source

  lemma {:induction false} SureIsNamed(op: Op)
    ensures Sure(op) <= Ids(op)
    decreases op, 0
  {
    match op
    case Sequence(steps) => SureAreNamed(steps);
    case _ =>
  }

  lemma {:induction false} SureAreNamed(ops: seq<Op>)
    ensures SureOf(ops) <= IdsOf(ops)
    decreases ops, 1
  {
    if ops != [] {
      SureIsNamed(ops[0]);
      SureAreNamed(ops[1..]);
    }
  }

  /** What a pass can read, for what its source can name. */
  predicate PassGot(b: Block, i: nat, known: set<string>, again: set<string>, got: set<string>)
  {
    && known - LoopIds(b.loop) <= got
    && (forall x | x in known * IdsOf(b.loop.body) :: NameOf(x, i, b.chunk) in got)
    && (i > 0 && TickId(b.loop) in known ==> NameOf(TickId(b.loop), i - 1, b.chunk) in got)
    && (i > 0 ==> forall x | x in again :: NameOf(x, i - 1, b.chunk) in got)
  }

  lemma PassReads(b: Block, text: Json -> string, i: nat, all: set<string>, known: set<string>, again: set<string>,
      got: set<string>, owner: Option<string>)
    requires PassGot(b, i, known, again, got) && ProperIds(b.loop, all) && known <= all && again <= IdsOf(b.loop.body)
    requires owner.Some? ==> owner.value in IdsOf(b.loop.body)
    ensures Lands(Stay(b, text), Shift(b, i, false), owner, Readable(owner, known, Some(again)), got)
  {
    var s, l := Shift(b, i, false), Stay(b, text);
    forall ref, path | ref in ROOTS || ref in Readable(owner, known, Some(again))
      ensures LandsAt(l, s, owner, got, ref, path) {
      var r := RewriteRef(s, owner, ref, path);
      if r.Ok? && r.value.Points? {
        assert r.value.ref == ref || r.value.ref == NameOf(ref, i, b.chunk)
          || (i > 0 && r.value.ref == NameOf(ref, i - 1, b.chunk));
      }
    }
  }

  lemma {:induction false} PassOrderly(b: Block, text: Json -> string, i: nat, all: set<string>, known: set<string>,
      again: set<string>, got: set<string>, op: Op)
    requires PassGot(b, i, known, again, got) && ProperIds(b.loop, all) && known <= all && again <= IdsOf(b.loop.body)
    requires Orderly(op, known, Some(again)) && Ids(op) <= IdsOf(b.loop.body)
      && RewriteOp(Shift(b, i, false), text, op).Ok?
    ensures Orderly(RewriteOp(Shift(b, i, false), text, op).value, got, None)
    ensures forall x | x in Sure(op) :: NameOf(x, i, b.chunk) in Sure(RewriteOp(Shift(b, i, false), text, op).value)
    decreases op, 0
  {
    var s, l := Shift(b, i, false), Stay(b, text);
    match op
    case Call(id, _, args, _) =>
      PassReads(b, text, i, all, known, again, got, id);
      MovedExprOk(l, s, text, id, Readable(id, known, Some(again)), got, args);
      RenameNothing(l, i, RewriteExpr(s, text, id, args).value);
    case Wait(_, _) =>
    case Sequence(steps) => PassOrderlyAll(b, text, i, all, known, again, got, steps);
    case Condition(id, when, steps, otherwise) =>
      PassOrderlyAll(b, text, i, all, known, again, got, steps);
      PassOrderlyAll(b, text, i, all, known, again, got, otherwise);
  }

  lemma {:induction false} PassOrderlyAll(b: Block, text: Json -> string, i: nat, all: set<string>, known: set<string>,
      again: set<string>, got: set<string>, ops: seq<Op>)
    requires PassGot(b, i, known, again, got) && ProperIds(b.loop, all) && known <= all && again <= IdsOf(b.loop.body)
    requires OrderlyAll(ops, known, Some(again)) && IdsOf(ops) <= IdsOf(b.loop.body)
      && RewriteOps(Shift(b, i, false), text, ops).Ok?
    ensures OrderlyAll(RewriteOps(Shift(b, i, false), text, ops).value, got, None)
    ensures forall x | x in SureOf(ops) ::
      NameOf(x, i, b.chunk) in SureOf(RewriteOps(Shift(b, i, false), text, ops).value)
    decreases ops, 1
  {
    if ops != [] {
      var s := Shift(b, i, false);
      var first, rest := RewriteOp(s, text, ops[0]).value, RewriteOps(s, text, ops[1..]).value;
      assert ([first] + rest)[1..] == rest;
      PassOrderly(b, text, i, all, known, again, got, ops[0]);
      SureIsNamed(ops[0]);
      PassOrderlyAll(b, text, i, all, known + Sure(ops[0]), again, got + Sure(first), ops[1..]);
    }
  }

  // ---------------------------------------------------------------- exits

  /** What the after-steps behind an exit can read, for what their source can name. */
  predicate ExitGot(l: Layout, k: int, known: set<string>, got: set<string>)
    requires k >= -1
  {
    var b := l.block;
    && l.tail !! ROOTS
    && (forall x | x in known - LoopIds(b.loop) :: ExitId(l, k, x) in got)
    && (k >= 0 ==> forall x | x in known * LoopIds(b.loop) :: ExitId(l, k, NameOf(x, k, b.chunk)) in got)
  }

  lemma ExitReads(l: Layout, k: int, all: set<string>, known: set<string>, got: set<string>)
    requires k >= -1 && ExitGot(l, k, known, got) && ProperIds(l.block.loop, all) && known <= all
    ensures Lands(l, Shift(l.block, k, true), None, known, got)
  {
    var s, b := Shift(l.block, k, true), l.block;
    forall ref, path | ref in ROOTS || ref in known ensures LandsAt(l, s, None, got, ref, path) {
      var r := RewriteRef(s, None, ref, path);
      if r.Ok? && r.value.Points? {
        assert r.value.ref == ref || (k >= 0 && ref in LoopIds(b.loop) && r.value.ref == NameOf(ref, k, b.chunk));
        if ref in LoopIds(b.loop) { assert k >= 0 && r.value.ref == NameOf(ref, k, b.chunk); }
      }
    }
  }

  lemma {:induction false} ExitOrderly(l: Layout, k: int, all: set<string>, known: set<string>, got: set<string>,
      op: Op)
    requires k >= -1 && ExitGot(l, k, known, got) && ProperIds(l.block.loop, all) && known + Ids(op) <= all
    requires Orderly(op, known, None) && Ids(op) !! LoopIds(l.block.loop) && ExitOp(l, k, op).Ok?
    ensures Orderly(ExitOp(l, k, op).value, got, None)
    ensures forall x | x in Sure(op) :: ExitId(l, k, x) in Sure(ExitOp(l, k, op).value)
    decreases op, 0
  {
    match op
    case Call(_, _, args, _) =>
      ExitReads(l, k, all, known, got);
      MovedExprOk(l, Shift(l.block, k, true), l.text, None, known, got, args);
    case Wait(_, _) =>
    case Sequence(steps) => ExitOrderlyAll(l, k, all, known, got, steps);
    case Condition(_, when, steps, otherwise) =>
      ExitOrderlyAll(l, k, all, known, got, steps);
      ExitOrderlyAll(l, k, all, known, got, otherwise);
  }

  lemma {:induction false} ExitOrderlyAll(l: Layout, k: int, all: set<string>, known: set<string>, got: set<string>,
      ops: seq<Op>)
    requires k >= -1 && ExitGot(l, k, known, got) && ProperIds(l.block.loop, all) && known + IdsOf(ops) <= all
    requires OrderlyAll(ops, known, None) && IdsOf(ops) !! LoopIds(l.block.loop) && ExitOps(l, k, ops).Ok?
    ensures OrderlyAll(ExitOps(l, k, ops).value, got, None)
    ensures forall x | x in SureOf(ops) :: ExitId(l, k, x) in SureOf(ExitOps(l, k, ops).value)
    decreases ops, 1
  {
    if ops != [] {
      var first, rest := ExitOp(l, k, ops[0]).value, ExitOps(l, k, ops[1..]).value;
      assert ([first] + rest)[1..] == rest;
      ExitOrderly(l, k, all, known, got, ops[0]);
      SureIsNamed(ops[0]);
      ExitOrderlyAll(l, k, all, known + Sure(ops[0]), got + Sure(first), ops[1..]);
    }
  }
}
