/** One pass of a repeat, as renamed and seeded by the compiler, means what the evaluator says
    the pass means; so do the after-steps behind an exit. */
module Shifting {
  import opened Json
  import opened Plan
  import opened Graph
  import opened Meaning
  import opened Compiler
  import opened Discipline
  import opened Moving

  /** The ids a repeat adds to the plan's: its operations' and its own tick. */
  function LoopIds(loop: Repeat): set<string> { IdsOf(loop.body) + {TickId(loop)} }

  /** Plan ids are not data roots, and the tick is no operation of the body. */
  predicate ProperIds(loop: Repeat, known: set<string>)
  {
    known !! ROOTS && LoopIds(loop) <= known && TickId(loop) !in IdsOf(loop.body)
  }

  /** The carry a block starts from. */
  predicate StartsFrom(b: Block, c: Carry)
  {
    c.first && c.state == b.initial && c.remaining == b.remaining && DeadlineJson(c.deadline) == b.seedDeadline
  }

  /** The carry as the block's seeds are compiled from it. */
  predicate Written(b: Block, c: Carry) { StartsFrom(b, c) && c.written }

  /** An unchanged layout, for source that is not copied behind an exit. */
  function Stay(b: Block, text: Json -> string): Layout { Layout(b, END, {}, map[], text) }

  // ---------------------------------------------------------------- inside a pass

  /** Plain outputs as they stand in pass i, next to the evaluator's. */
  ghost predicate PassEnv(b: Block, i: nat, known: set<string>, c: Carry, env: map<string, Json>,
      env': map<string, Json>)
  {
    && (if i == 0 then Written(b, c) else !c.first)
    && (forall x | x in known - LoopIds(b.loop) :: Get(env', x) == Get(env, x))
    && (forall x | x in IdsOf(b.loop.body) :: Get(env', NameOf(x, i, b.chunk)) == Get(env, x))
    && (i > 0 ==> forall x | x in IdsOf(b.loop.body) :: Get(env', NameOf(x, i - 1, b.chunk)) == Get(c.outputs, x))
    && (i > 0 ==> Get(env', NameOf(TickId(b.loop), i - 1, b.chunk)) == TickOutput(c))
  }

  /** Names of pass i are its own. */
  predicate PassApart(b: Block, i: nat, known: set<string>)
  {
    && (forall x | x in LoopIds(b.loop) ::
      NameOf(x, i, b.chunk) !in known - LoopIds(b.loop) && NameOf(x, i, b.chunk) !in ROOTS)
    && (i > 0 ==>
      forall x, y | x in LoopIds(b.loop) && y in LoopIds(b.loop) :: NameOf(x, i, b.chunk) != NameOf(y, i - 1, b.chunk))
    && (i > 0 ==> forall y | y in LoopIds(b.loop) :: NameOf(y, i - 1, b.chunk) !in ROOTS)
  }

  lemma NameInjective(x: string, y: string, i: nat, chunk: nat)
    ensures NameOf(x, i, chunk) == NameOf(y, i, chunk) ==> x == y
  {
    if i + 1 != chunk && NameOf(x, i, chunk) == NameOf(y, i, chunk) {
      var suffix := "__rs_" + Digits(i + 1);
      assert NameOf(x, i, chunk) == x + suffix && NameOf(y, i, chunk) == y + suffix;
      assert |x + suffix| == |x| + |suffix| && |y + suffix| == |y| + |suffix|;
      assert (x + suffix)[..|x|] == x && (y + suffix)[..|y|] == y;
    }
  }

  lemma PassRefReads(w: World, b: Block, i: nat, known: set<string>, c: Carry, owner: Option<string>,
                     env: map<string, Json>, env': map<string, Json>, ref: string, path: Path)
    requires PassEnv(b, i, known, c, env, env') && PassApart(b, i, known) && ProperIds(b.loop, known)
    requires owner.Some? ==> owner.value in IdsOf(b.loop.body)
    requires (ref in ROOTS || ref in known) && !Continued(ref, path)
    ensures Reads(w, Stay(b, w.text), Shift(b, i, false), owner, InPass(b.loop, c), env, env', ref, path)
  {
    var s := Shift(b, i, false);
    var r := RewriteRef(s, owner, ref, path);
    if ref in ROOTS {
      assert r == Ok(Points(ref, path));
    } else if r.Ok? {
      var target := if r.value.Points? then r.value.ref else ref;
      if ref == TickId(b.loop) {
        assert i > 0 ==> r.value == Points(NameOf(ref, i - 1, b.chunk), path);
      } else if owner == Some(ref) {
        assert i > 0 ==> r.value == Points(NameOf(ref, i - 1, b.chunk), path);
      } else if ref in IdsOf(b.loop.body) {
        assert r.value == Points(NameOf(ref, i, b.chunk), path);
      } else {
        assert r.value == Points(ref, path);
      }
    }
  }

  lemma PassIsFaithful(w: World, b: Block, i: nat, known: set<string>, c: Carry, owner: Option<string>,
                       env: map<string, Json>, env': map<string, Json>)
    requires PassEnv(b, i, known, c, env, env') && PassApart(b, i, known) && ProperIds(b.loop, known)
    requires owner.Some? ==> owner.value in IdsOf(b.loop.body)
    ensures Faithful(w, Stay(b, w.text), Shift(b, i, false), owner, known, InPass(b.loop, c), env, env')
  {
    forall ref, path | (ref in ROOTS || ref in known) && !Continued(ref, path)
      ensures Reads(w, Stay(b, w.text), Shift(b, i, false), owner, InPass(b.loop, c), env, env', ref, path)
    {
      PassRefReads(w, b, i, known, c, owner, env, env', ref, path);
    }
  }

  /** Only names of pass i change while it runs, and only the body's ids change for the evaluator. */
  ghost predicate PassChanges(b: Block, i: nat, env: map<string, Json>, env1: map<string, Json>,
                              env': map<string, Json>, env1': map<string, Json>)
  {
    && (forall k | k !in IdsOf(b.loop.body) :: Get(env1, k) == Get(env, k) && (k in env1 <==> k in env))
    && (forall k | (forall x | x in IdsOf(b.loop.body) :: k != NameOf(x, i, b.chunk)) :: Get(env1', k) == Get(env', k))
  }

  ghost predicate PassFrames(b: Block, i: nat, known: set<string>, c: Carry, f: EFrame, f': EFrame)
  {
    PassEnv(b, i, known, c, f.env, f'.env) && f'.last == f.last && f.undo == [] && f'.undo == []
  }

  /** Evaluating a pass's rewritten source ends as evaluating its original in that pass does. */
  ghost predicate PassAlike(b: Block, i: nat, known: set<string>, c: Carry, f: EFrame, f': EFrame, out: EOutcome,
      renamed: EOutcome, g': EFrame)
  {
    match out
    case EFailed(e, r1) => renamed == EFailed(e, r1)
    case EDone(g, r1) =>
      && renamed == EDone(g', r1)
      && PassFrames(b, i, known, c, g, g') && PassChanges(b, i, f.env, g.env, f'.env, g'.env)
  }

  lemma PassBind(b: Block, i: nat, known: set<string>, c: Carry, id: Option<string>, v: Json,
                 env: map<string, Json>, env': map<string, Json>)
    requires PassEnv(b, i, known, c, env, env') && PassApart(b, i, known) && ProperIds(b.loop, known)
    requires id.Some? ==> id.value in IdsOf(b.loop.body)
    ensures PassEnv(b, i, known, c, Bind(env, id, v), Bind(env', Renamed(Shift(b, i, false), id), v))
    ensures PassChanges(b, i, env, Bind(env, id, v), env', Bind(env', Renamed(Shift(b, i, false), id), v))
  {
    if id.Some? {
      forall x | x in IdsOf(b.loop.body)
        ensures NameOf(x, i, b.chunk) == NameOf(id.value, i, b.chunk) ==> x == id.value {
        NameInjective(x, id.value, i, b.chunk);
      }
      PassBindEnv(b, i, known, c, id.value, v, env, env');
      PassBindChanges(b, i, id.value, v, env, env');
    }
  }

  lemma PassBindEnv(b: Block, i: nat, known: set<string>, c: Carry, id: string, v: Json, env: map<string, Json>,
      env': map<string, Json>)
    requires PassEnv(b, i, known, c, env, env') && PassApart(b, i, known) && ProperIds(b.loop, known)
      && id in IdsOf(b.loop.body)
    requires forall x | x in IdsOf(b.loop.body) :: NameOf(x, i, b.chunk) == NameOf(id, i, b.chunk) ==> x == id
    ensures PassEnv(b, i, known, c, env[id := v], env'[NameOf(id, i, b.chunk) := v])
  {
    hide NameOf, StartsFrom, TickOutput, TickId;
  }

  lemma PassBindChanges(b: Block, i: nat, id: string, v: Json, env: map<string, Json>, env': map<string, Json>)
    requires id in IdsOf(b.loop.body)
    ensures PassChanges(b, i, env, env[id := v], env', env'[NameOf(id, i, b.chunk) := v])
  {
    hide NameOf;
  }

  lemma {:induction false} PassOpMeans(w: World, b: Block, i: nat, known: set<string>, c: Carry, op: Op, f: EFrame,
      f': EFrame, r: Run)
    returns (g': EFrame)
    requires PassFrames(b, i, known, c, f, f') && PassApart(b, i, known) && ProperIds(b.loop, known)
    requires OpOk(op, known) && Plain(op) && Ids(op) <= IdsOf(b.loop.body)
    requires RewriteOp(Shift(b, i, false), w.text, op).Ok?
    ensures PassAlike(b, i, known, c, f, f', EvalOp(w, InPass(b.loop, c), op, f, r),
      EvalOp(w, Outside, RewriteOp(Shift(b, i, false), w.text, op).value, f', r), g')
    decreases op, 1
  {
    g' := f';
    match op
    case Call(_, _, _, _) => g' := PassCallMeans(w, b, i, known, c, op, f, f', r);
    case Wait(_, _) =>
    case Sequence(steps) => g' := PassOpsMean(w, b, i, known, c, steps, f, f', r);
    case Condition(id, when, steps, otherwise) =>
      PassIsFaithful(w, b, i, known, c, id, f.env, f'.env);
      var s, l := Shift(b, i, false), Stay(b, w.text);
      MovedCondMeans(w, l, s, id, known, InPass(b.loop, c), f.env, f'.env, Renamed(s, id), when);
      RenameNoCond(l, i, RewriteCond(s, id, when).value);
      var v := Decide(w, when, EvalOperand(w, InPass(b.loop, c), f.env, id));
      if v.Some? {
        if Truthy(v.value) {
          g' := PassOpsMean(w, b, i, known, c, steps, f, f', r);
        } else {
          g' := PassOpsMean(w, b, i, known, c, otherwise, f, f', r);
        }
      }
  }

  lemma PassCallMeans(w: World, b: Block, i: nat, known: set<string>, c: Carry, op: Op, f: EFrame, f': EFrame, r: Run)
    returns (g': EFrame)
    requires PassFrames(b, i, known, c, f, f') && PassApart(b, i, known) && ProperIds(b.loop, known)
    requires op.Call? && OpOk(op, known) && Plain(op) && Ids(op) <= IdsOf(b.loop.body)
    requires RewriteOp(Shift(b, i, false), w.text, op).Ok?
    ensures PassAlike(b, i, known, c, f, f', EvalOp(w, InPass(b.loop, c), op, f, r),
      EvalOp(w, Outside, RewriteOp(Shift(b, i, false), w.text, op).value, f', r), g')
  {
    g' := f';
    var s, l, id := Shift(b, i, false), Stay(b, w.text), op.id;
    PassIsFaithful(w, b, i, known, c, id, f.env, f'.env);
    MovedExprMeans(w, l, s, id, known, InPass(b.loop, c), f.env, f'.env, Renamed(s, id), op.args);
    RenameNothing(l, i, RewriteExpr(s, w.text, id, op.args).value);
    match Invoke(w, op.target, EvalExpr(w, InPass(b.loop, c), f.env, id, op.args), r)
    case Crashed(_) =>
    case Body(body, r1) =>
      if !HasError(body) {
        PassBind(b, i, known, c, id, Step(body, "output"), f.env, f'.env);
        g' := EFrame(Bind(f'.env, Renamed(s, id), Step(body, "output")), body, []);
      }
  }

  lemma PassChangesThrough(b: Block, i: nat, env: map<string, Json>, env1: map<string, Json>, env2: map<string, Json>,
                           env': map<string, Json>, env1': map<string, Json>, env2': map<string, Json>)
    requires PassChanges(b, i, env, env1, env', env1') && PassChanges(b, i, env1, env2, env1', env2')
    ensures PassChanges(b, i, env, env2, env', env2')
  {
  }

  lemma {:induction false} PassOpsMean(w: World, b: Block, i: nat, known: set<string>, c: Carry, ops: seq<Op>,
      f: EFrame, f': EFrame, r: Run)
    returns (g': EFrame)
    requires PassFrames(b, i, known, c, f, f') && PassApart(b, i, known) && ProperIds(b.loop, known)
    requires OpsOk(ops, known) && AllPlain(ops) && IdsOf(ops) <= IdsOf(b.loop.body)
    requires RewriteOps(Shift(b, i, false), w.text, ops).Ok?
    ensures PassAlike(b, i, known, c, f, f', EvalOps(w, InPass(b.loop, c), ops, f, r),
      EvalOps(w, Outside, RewriteOps(Shift(b, i, false), w.text, ops).value, f', r), g')
    decreases ops, 2
  {
    g' := f';
    if ops != [] {
      var s := Shift(b, i, false);
      var first, rest := RewriteOp(s, w.text, ops[0]).value, RewriteOps(s, w.text, ops[1..]).value;
      assert ([first] + rest)[1..] == rest;
      g' := PassOpMeans(w, b, i, known, c, ops[0], f, f', r);
      match EvalOp(w, InPass(b.loop, c), ops[0], f, r)
      case EFailed(_, _) =>
      case EDone(g, r1) =>
        var mid := g';
        g' := PassOpsMean(w, b, i, known, c, ops[1..], g, mid, r1);
        match EvalOps(w, InPass(b.loop, c), ops[1..], g, r1)
        case EFailed(_, _) =>
        case EDone(h, _) => PassChangesThrough(b, i, f.env, g.env, h.env, f'.env, mid.env, g'.env);
    }
  }
}
