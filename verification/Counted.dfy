/** Plans a reader can see to be carried across blocks: every reference to the previous pass is one
    the retained state is mapped from, or a key of it, and none is spelled out or tested. */
module Counted {
  import opened Json
  import opened Plan
  import opened Graph
  import opened Meaning
  import opened Compiler
  import opened Discipline
  import opened Assembly
  import opened Handover
  import opened Writing
  import opened Chain
  import opened Alike
  import opened Sowing
  import opened Spelling
  import opened Unbroken
  import opened Resumption
  import opened Succession
  import opened Repeats

  // ---------------------------------------------------------------- covered source

  /** The keys of the state a finished pass retains. */
  function Keys(loop: Repeat): set<string>
  {
    if loop.state == [] then loop.initial.Keys else set i | 0 <= i < |loop.state| :: loop.state[i].key
  }

  const COUNTERS: set<Path> := {["remaining_iterations"], ["deadline_unix"]}

  predicate CoveredRef(loop: Repeat, ref: string, path: Path)
  {
    if ref == TickId(loop) then path == ["state"] || path in COUNTERS
      || (|path| == 2 && path[0] == "state" && path[1] in Keys(loop))
    else exists i | 0 <= i < |loop.state| :: loop.state[i].value == Ref(ref, path)
  }

  predicate CoveredExpr(loop: Repeat, prev: set<string>, e: Expr)
  {
    match e
    case Ref(ref, path) => ref in prev ==> CoveredRef(loop, ref, path)
    case List(items) => forall i | 0 <= i < |items| :: CoveredExpr(loop, prev, items[i])
    case Dict(entries) => forall k | k in entries :: CoveredExpr(loop, prev, entries[k])
    case Template(parts) => AllUnspelled(loop, prev, parts)
    case _ => true
  }

  /** The part spells nothing of the previous pass. */
  predicate Unspelled(loop: Repeat, prev: set<string>, e: Expr)
    decreases e, 1
  {
    match e
    case Ref(ref, _) => ref !in prev
    case Template(parts) => AllUnspelled(loop, prev, parts)
    case List(_) => false
    case Dict(_) => false
    case _ => true
  }

  predicate AllUnspelled(loop: Repeat, prev: set<string>, parts: seq<Expr>)
    decreases parts, 0
  {
    parts == [] || (Unspelled(loop, prev, parts[0]) && AllUnspelled(loop, prev, parts[1..]))
  }

  predicate CoveredCond(loop: Repeat, prev: set<string>, c: Cond)
    decreases c, 0
  {
    match c
    case Var(To(ref, path)) => ref in prev ==> ref == TickId(loop) && path in COUNTERS
    case Group(items) => CoveredConds(loop, prev, items)
    case Operator(_, args) => CoveredConds(loop, prev, args)
    case _ => true
  }

  predicate CoveredConds(loop: Repeat, prev: set<string>, cs: seq<Cond>)
    decreases cs, 1
  {
    cs == [] || (CoveredCond(loop, prev, cs[0]) && CoveredConds(loop, prev, cs[1..]))
  }

  predicate CoveredOp(loop: Repeat, inside: bool, op: Op)
  {
    match op
    case Call(id, _, args, _) => CoveredExpr(loop, Prior(loop, inside, id), args)
    case Wait(_, _) => true
    case Sequence(steps) => AllCovered(loop, inside, steps)
    case Condition(id, when, steps, otherwise) =>
      CoveredCond(loop, Prior(loop, inside, id), when) && AllCovered(loop, inside, steps)
        && AllCovered(loop, inside, otherwise)
    case Parallel(_, _) => false
  }

  predicate AllCovered(loop: Repeat, inside: bool, ops: seq<Op>)
  {
    ops == [] || (CoveredOp(loop, inside, ops[0]) && AllCovered(loop, inside, ops[1..]))
  }

  predicate Covered(loop: Repeat, after: seq<Op>)
  {
    && loop.initial.Keys <= Keys(loop)
    && AllCovered(loop, true, loop.body)
    && (forall i | 0 <= i < |loop.state| :: CoveredExpr(loop, PreviousIn(loop, None), loop.state[i].value))
    && (Timed(loop) ==> AllCovered(loop, false, after))
  }

  // ---------------------------------------------------------------- covered source has its seeds

  lemma {:induction false} BestIsExact(entries: seq<Retained>, ref: string, path: Path, i: nat)
    requires i < |entries| && entries[i].value == Ref(ref, path)
    ensures BestKey(entries, ref, path).Some? && BestKey(entries, ref, path).value.0 == path
    decreases entries
  {
    if i > 0 { BestIsExact(entries[1..], ref, path, i - 1); }
    LongestCovers(entries, ref, path);
    LongestCovers(entries[1..], ref, path);
  }

  lemma {:induction false} LongestCovers(entries: seq<Retained>, ref: string, path: Path)
    ensures BestKey(entries, ref, path).Some? ==>
      var (base, key) := BestKey(entries, ref, path).value;
      && |base| <= |path| && (|base| == |path| ==> base == path)
      && exists j | 0 <= j < |entries| :: entries[j].key == key
    decreases entries
  {
    if entries != [] {
      LongestCovers(entries[1..], ref, path);
      assert forall j | 0 < j < |entries| :: entries[j] == entries[1..][j - 1];
      if BestKey(entries, ref, path).Some? && BestKey(entries, ref, path) != BestKey(entries[1..], ref, path) {
        assert entries[0].key == BestKey(entries, ref, path).value.1;
      } else if BestKey(entries[1..], ref, path).Some? {
        var j :| 0 <= j < |entries[1..]| && entries[1..][j].key == BestKey(entries[1..], ref, path).value.1;
        assert entries[j + 1].key == BestKey(entries[1..], ref, path).value.1;
      }
    }
  }

  lemma CoveredHasSeed(loop: Repeat, c: Carry, ref: string, path: Path)
    requires CoveredRef(loop, ref, path) && c.state.Obj? && c.state.fields.Keys == Keys(loop)
    ensures SeedAt(loop, c, ref, path).Ok?
  {
    if ref == TickId(loop) {
      if |path| == 2 && path[0] == "state" {
        var rest := path[1..];
        assert rest[0] == path[1] && rest[1..] == [];
        assert SeedWalk(c.state, rest) == SeedWalk(c.state.fields[rest[0]], rest[1..]);
      }
    } else {
      var i :| 0 <= i < |loop.state| && loop.state[i].value == Ref(ref, path);
      BestIsExact(loop.state, ref, path, i);
      LongestCovers(loop.state, ref, path);
      var key := BestKey(loop.state, ref, path).value.1;
      var j :| 0 <= j < |loop.state| && loop.state[j].key == key;
      assert key in Keys(loop);
      var rest := [key] + path[|path|..];
      assert rest[0] == key && rest[1..] == [];
      assert SeedWalk(c.state, rest) == SeedWalk(c.state.fields[key], rest[1..]);
    }
  }

  lemma {:induction false} CoveredIsSown(loop: Repeat, c: Carry, prev: set<string>, e: Expr)
    requires CoveredExpr(loop, prev, e) && c.state.Obj? && c.state.fields.Keys == Keys(loop)
    ensures Sown(loop, c, prev, e)
    decreases e, 2
  {
    hide CoveredRef, SeedAt;
    match e
    case Ref(ref, path) => if ref in prev { CoveredHasSeed(loop, c, ref, path); }
    case List(items) => forall i | 0 <= i < |items| { CoveredIsSown(loop, c, prev, items[i]); }
    case Dict(entries) => forall k | k in entries { CoveredIsSown(loop, c, prev, entries[k]); }
    case Template(parts) => UnspelledIsSown(loop, c, prev, parts);
    case _ =>
  }

  lemma {:induction false} UnspelledIsSown(loop: Repeat, c: Carry, prev: set<string>, parts: seq<Expr>)
    requires AllUnspelled(loop, prev, parts)
    ensures AllSown(loop, c, prev, parts)
    decreases parts, 0
  {
    if parts != [] {
      if parts[0].Template? { UnspelledIsSown(loop, c, prev, parts[0].parts); }
      UnspelledIsSown(loop, c, prev, parts[1..]);
    }
  }

  lemma {:induction false} CoveredCondSown(loop: Repeat, c: Carry, prev: set<string>, cond: Cond)
    requires CoveredCond(loop, prev, cond)
    ensures SownCond(loop, c, prev, cond)
    decreases cond, 0
  {
    match cond
    case Group(items) => CoveredCondsSown(loop, c, prev, items);
    case Operator(_, args) => CoveredCondsSown(loop, c, prev, args);
    case _ =>
  }

  lemma {:induction false} CoveredCondsSown(loop: Repeat, c: Carry, prev: set<string>, conds: seq<Cond>)
    requires CoveredConds(loop, prev, conds)
    ensures SownConds(loop, c, prev, conds)
    decreases conds, 1
  {
    if conds != [] {
      CoveredCondSown(loop, c, prev, conds[0]);
      CoveredCondsSown(loop, c, prev, conds[1..]);
    }
  }

  lemma {:induction false} CoveredOpsSown(loop: Repeat, c: Carry, inside: bool, ops: seq<Op>)
    requires AllCovered(loop, inside, ops) && c.state.Obj? && c.state.fields.Keys == Keys(loop)
    ensures SownOps(loop, c, inside, ops)
    decreases ops, 1
  {
    if ops != [] {
      CoveredOpSown(loop, c, inside, ops[0]);
      CoveredOpsSown(loop, c, inside, ops[1..]);
    }
  }

  lemma {:induction false} CoveredOpSown(loop: Repeat, c: Carry, inside: bool, op: Op)
    requires CoveredOp(loop, inside, op) && c.state.Obj? && c.state.fields.Keys == Keys(loop)
    ensures SownOp(loop, c, inside, op)
    decreases op, 0
  {
    match op
    case Call(id, _, args, _) => CoveredIsSown(loop, c, Prior(loop, inside, id), args);
    case Wait(_, _) =>
    case Sequence(steps) => CoveredOpsSown(loop, c, inside, steps);
    case Condition(id, when, steps, otherwise) =>
      CoveredCondSown(loop, c, Prior(loop, inside, id), when);
      CoveredOpsSown(loop, c, inside, steps);
      CoveredOpsSown(loop, c, inside, otherwise);
  }

  /** A covered repeat resumes from every state its passes can retain. */
  lemma CoveredResumes(loop: Repeat, after: seq<Op>, c: Carry)
    requires Covered(loop, after) && c.state.Obj? && c.state.fields.Keys == Keys(loop)
    ensures Resumes(loop, after, c)
  {
    hide Sown, AllCovered, SownOps, CoveredExpr;
    CoveredOpsSown(loop, c, true, loop.body);
    forall i | 0 <= i < |loop.state| { CoveredIsSown(loop, c, PreviousIn(loop, None), loop.state[i].value); }
    if Timed(loop) { CoveredOpsSown(loop, c, false, after); }
  }

  // ---------------------------------------------------------------- and is read the same

  predicate NoneOf(marks: seq<bool>) { forall i | 0 <= i < |marks| :: !marks[i] }

  lemma NoneOfBoth(a: seq<bool>, b: seq<bool>)
    requires NoneOf(a) && NoneOf(b)
    ensures NoneOf(a + b)
  {
  }

  lemma {:induction false} NoneIsMarked(fs: seq<Fragment>, marks: seq<bool>)
    requires |fs| == |marks| && NoneOf(marks)
    ensures Marked(fs, marks) == []
    decreases fs
  {
    if fs != [] {
      assert NoneOf(marks[1..]) by { forall i | 0 <= i < |marks[1..]| ensures !marks[1..][i] { assert !marks[i + 1]; } }
      NoneIsMarked(fs[1..], marks[1..]);
    }
  }

  lemma {:induction false} UnspelledPart(w: World, loop: Repeat, p: Carry, inside: bool, owner: Option<string>,
      prev: set<string>, e: Expr)
    requires Unspelled(loop, prev, e) && !p.first
    ensures NoneOf(Marks(prev, e)) && |Parts(w, Unbroken.Place(loop, p, inside), map[], owner, e)| == |Marks(prev, e)|
    decreases e, 1
  {
    if e.Template? { UnspelledParts(w, loop, p, inside, owner, prev, e.parts); }
  }

  lemma {:induction false} UnspelledParts(w: World, loop: Repeat, p: Carry, inside: bool, owner: Option<string>,
      prev: set<string>, parts: seq<Expr>)
    requires AllUnspelled(loop, prev, parts) && !p.first
    ensures NoneOf(MarksOf(prev, parts))
      && |PartsOf(w, Unbroken.Place(loop, p, inside), map[], owner, parts)| == |MarksOf(prev, parts)|
    decreases parts, 0
  {
    hide NoneOf;
    if parts == [] {
      assert NoneOf([]) by { NoMarks(); }
    } else {
      UnspelledPart(w, loop, p, inside, owner, prev, parts[0]);
      UnspelledParts(w, loop, p, inside, owner, prev, parts[1..]);
      NoneOfBoth(Marks(prev, parts[0]), MarksOf(prev, parts[1..]));
    }
  }

  lemma NoMarks()
    ensures NoneOf([])
  {
  }

  lemma UnspelledIsFaithful(w: World, loop: Repeat, p: Carry, inside: bool, owner: Option<string>, prev: set<string>,
      parts: seq<Expr>)
    requires AllUnspelled(loop, prev, parts) && !p.first
    ensures FaithfulText(w, Unbroken.Place(loop, p, inside), owner, prev, parts)
  {
    hide Parts, PartsOf, AllUnspelled, Unbroken.Place;
    UnspelledParts(w, loop, p, inside, owner, prev, parts);
    NoneIsMarked(PartsOf(w, Unbroken.Place(loop, p, inside), map[], owner, parts), MarksOf(prev, parts));
  }

  lemma {:induction false} CoveredIsFaithful(w: World, loop: Repeat, p: Carry, inside: bool, owner: Option<string>,
      prev: set<string>, e: Expr)
    requires CoveredExpr(loop, prev, e) && !p.first
    ensures FaithfulExpr(w, Unbroken.Place(loop, p, inside), owner, prev, e)
    decreases e
  {
    hide FaithfulText, CoveredRef, Unbroken.Place;
    match e
    case List(items) => forall i | 0 <= i < |items| { CoveredIsFaithful(w, loop, p, inside, owner, prev, items[i]); }
    case Dict(entries) => forall k | k in entries { CoveredIsFaithful(w, loop, p, inside, owner, prev, entries[k]); }
    case Template(parts) => UnspelledIsFaithful(w, loop, p, inside, owner, prev, parts);
    case _ =>
  }

  lemma CounterIsBare(p: Carry, path: Path)
    requires path in COUNTERS
    ensures !NeedsWrapper(Lookup(TickOutput(p), path))
  {
    assert path[1..] == [];
    assert Lookup(TickOutput(p), path) == Lookup(Step(TickOutput(p), path[0]), path[1..]);
  }

  lemma {:induction false} CoveredCondFaithful(w: World, loop: Repeat, p: Carry, inside: bool, owner: Option<string>,
      prev: set<string>, c: Cond)
    requires CoveredCond(loop, prev, c) && !p.first && TickId(loop) !in ROOTS
    ensures FaithfulCond(w, Unbroken.Place(loop, p, inside), owner, prev, c)
    decreases c, 0
  {
    hide NeedsWrapper;
    match c
    case Var(To(ref, path)) => if ref in prev { CounterIsBare(p, path); }
    case Group(items) => CoveredCondsFaithful(w, loop, p, inside, owner, prev, items);
    case Operator(_, args) => CoveredCondsFaithful(w, loop, p, inside, owner, prev, args);
    case _ =>
  }

  lemma {:induction false} CoveredCondsFaithful(w: World, loop: Repeat, p: Carry, inside: bool, owner: Option<string>,
      prev: set<string>, cs: seq<Cond>)
    requires CoveredConds(loop, prev, cs) && !p.first && TickId(loop) !in ROOTS
    ensures forall i | 0 <= i < |cs| :: FaithfulCond(w, Unbroken.Place(loop, p, inside), owner, prev, cs[i])
    decreases cs, 1
  {
    hide Unbroken.Place;
    if cs != [] {
      CoveredCondFaithful(w, loop, p, inside, owner, prev, cs[0]);
      CoveredCondsFaithful(w, loop, p, inside, owner, prev, cs[1..]);
      assert forall i | 0 < i < |cs| :: cs[i] == cs[1..][i - 1];
    }
  }

  lemma {:induction false} CoveredOpsFaithful(w: World, loop: Repeat, p: Carry, inside: bool, ops: seq<Op>)
    requires AllCovered(loop, inside, ops) && !p.first && TickId(loop) !in ROOTS
    ensures AllFaithful(w, loop, p, inside, ops)
    decreases ops, 1
  {
    if ops != [] {
      CoveredOpFaithful(w, loop, p, inside, ops[0]);
      CoveredOpsFaithful(w, loop, p, inside, ops[1..]);
    }
  }

  lemma {:induction false} CoveredOpFaithful(w: World, loop: Repeat, p: Carry, inside: bool, op: Op)
    requires CoveredOp(loop, inside, op) && !p.first && TickId(loop) !in ROOTS
    ensures FaithfulOp(w, loop, p, inside, op)
    decreases op, 0
  {
    match op
    case Call(id, _, args, _) => CoveredIsFaithful(w, loop, p, inside, id, Prior(loop, inside, id), args);
    case Wait(_, _) =>
    case Sequence(steps) => CoveredOpsFaithful(w, loop, p, inside, steps);
    case Condition(id, when, steps, otherwise) =>
      CoveredCondFaithful(w, loop, p, inside, id, Prior(loop, inside, id), when);
      CoveredOpsFaithful(w, loop, p, inside, steps);
      CoveredOpsFaithful(w, loop, p, inside, otherwise);
  }

  /** What a covered repeat carries is read the same as seeds and live. */
  lemma CoveredCarry(w: World, loop: Repeat, after: seq<Op>, p: Carry)
    requires Covered(loop, after) && !p.first && TickId(loop) !in ROOTS
    ensures FaithfulCarry(w, loop, after, p)
  {
    hide AllCovered, CoveredExpr, AllFaithful, FaithfulExpr;
    CoveredOpsFaithful(w, loop, p, true, loop.body);
    forall i | 0 <= i < |loop.state| {
      CoveredIsFaithful(w, loop, p, true, None, PreviousIn(loop, None), loop.state[i].value); }
    if Timed(loop) { CoveredOpsFaithful(w, loop, p, false, after); }
  }

  // ---------------------------------------------------------------- and can be written

  lemma {:induction false} UnspelledWrites(w: World, loop: Repeat, c: Carry, inside: bool, owner: Option<string>,
      parts: seq<Expr>)
    requires AllUnspelled(loop, Prior(loop, inside, owner), parts) && !c.written
    ensures var look := Unbroken.Place(loop, c, inside);
      && AllUnwrapped(w, look, owner, parts) && NoneOf(SeedMarksOf(w, look, owner, parts))
      && |PartsOf(w, look, map[], owner, parts)| == |SeedMarksOf(w, look, owner, parts)|
    decreases parts, 0
  {
    hide NoneOf, Unbroken.Place, Prior;
    if parts == [] {
      assert NoneOf([]) by { NoMarks(); }
    } else {
      var look := Unbroken.Place(loop, c, inside);
      UnspelledPartWrites(w, loop, c, inside, owner, parts[0]);
      UnspelledWrites(w, loop, c, inside, owner, parts[1..]);
      NoneOfBoth(SeedMarks(w, look, owner, parts[0]), SeedMarksOf(w, look, owner, parts[1..]));
    }
  }

  lemma {:induction false} UnspelledPartWrites(w: World, loop: Repeat, c: Carry, inside: bool, owner: Option<string>,
      e: Expr)
    requires Unspelled(loop, Prior(loop, inside, owner), e) && !c.written
    ensures var look := Unbroken.Place(loop, c, inside);
      && Unwrapped(w, look, owner, e) && NoneOf(SeedMarks(w, look, owner, e))
      && |Parts(w, look, map[], owner, e)| == |SeedMarks(w, look, owner, e)|
    decreases e, 1
  {
    if e.Template? { UnspelledWrites(w, loop, c, inside, owner, e.parts); }
  }

  lemma {:induction false} CoveredWrites(w: World, loop: Repeat, c: Carry, inside: bool, owner: Option<string>, e: Expr)
    requires CoveredExpr(loop, Prior(loop, inside, owner), e) && !c.written
    ensures ExprWrites(w, Unbroken.Place(loop, c, inside), owner, e)
    decreases e
  {
    hide CoveredRef, Unbroken.Place, Prior, AllUnspelled, SeedMarksOf, PartsOf, AllUnwrapped, NoneOf;
    match e
    case List(items) => forall i | 0 <= i < |items| { CoveredWrites(w, loop, c, inside, owner, items[i]); }
    case Dict(entries) => forall k | k in entries { CoveredWrites(w, loop, c, inside, owner, entries[k]); }
    case Template(parts) =>
      UnspelledWrites(w, loop, c, inside, owner, parts);
      var look := Unbroken.Place(loop, c, inside);
      NoneIsMarked(PartsOf(w, look, map[], owner, parts), SeedMarksOf(w, look, owner, parts));
    case _ =>
  }

  lemma CounterSeedIsBare(c: Carry, path: Path)
    requires path in COUNTERS
    ensures !NeedsWrapper(OrNull(SeedTick(c.state, RemainingJson(c.remaining), DeadlineJson(c.deadline), path)))
  {
  }

  lemma {:induction false} CoveredTestable(w: World, loop: Repeat, c: Carry, inside: bool, owner: Option<string>,
      cond: Cond)
    requires CoveredCond(loop, Prior(loop, inside, owner), cond)
    ensures Testable(w, Unbroken.Place(loop, c, inside), owner, cond)
    decreases cond, 0
  {
    hide NeedsWrapper, SeedTick;
    match cond
    case Var(To(ref, path)) => if path in COUNTERS { CounterSeedIsBare(c, path); }
    case Group(items) => AllCoveredTestable(w, loop, c, inside, owner, items);
    case Operator(_, args) => AllCoveredTestable(w, loop, c, inside, owner, args);
    case _ =>
  }

  lemma {:induction false} AllCoveredTestable(w: World, loop: Repeat, c: Carry, inside: bool, owner: Option<string>,
      cs: seq<Cond>)
    requires CoveredConds(loop, Prior(loop, inside, owner), cs)
    ensures AllTestable(w, Unbroken.Place(loop, c, inside), owner, cs)
    decreases cs, 1
  {
    if cs != [] {
      CoveredTestable(w, loop, c, inside, owner, cs[0]);
      AllCoveredTestable(w, loop, c, inside, owner, cs[1..]);
    }
  }

  lemma {:induction false} CoveredOpWrites(w: World, loop: Repeat, c: Carry, inside: bool, op: Op)
    requires CoveredOp(loop, inside, op) && Plain(op) && !c.written
    ensures OpWrites(w, Unbroken.Place(loop, c, inside), op)
    decreases op, 0
  {
    hide Testable, Unbroken.Place, ExprWrites, Prior;
    match op
    case Call(id, _, args, _) => CoveredWrites(w, loop, c, inside, id, args);
    case Wait(_, _) =>
    case Sequence(steps) => CoveredOpsWrite(w, loop, c, inside, steps);
    case Condition(id, when, steps, otherwise) =>
      CoveredTestable(w, loop, c, inside, id, when);
      CoveredOpsWrite(w, loop, c, inside, steps);
      CoveredOpsWrite(w, loop, c, inside, otherwise);
  }

  lemma {:induction false} CoveredOpsWrite(w: World, loop: Repeat, c: Carry, inside: bool, ops: seq<Op>)
    requires AllCovered(loop, inside, ops) && AllPlain(ops) && !c.written
    ensures OpsWrite(w, Unbroken.Place(loop, c, inside), ops)
    decreases ops, 1
  {
    if ops != [] {
      CoveredOpWrites(w, loop, c, inside, ops[0]);
      CoveredOpsWrite(w, loop, c, inside, ops[1..]);
    }
  }

  /** What a covered repeat starts from can be written into source. */
  lemma CoveredStart(w: World, loop: Repeat, after: seq<Op>, c: Carry)
    requires Covered(loop, after) && LoopingOk([], loop, after) && !c.written
    ensures LoopWrites(w, loop, after, c)
  {
    hide AllCovered, AllPlain, CoveredExpr, ExprWrites, OpsWrite, OpsOk;
    CoveredOpsWrite(w, loop, c, true, loop.body);
    forall i | 0 <= i < |loop.state| ensures ExprWrites(w, InPass(loop, c), None, loop.state[i].value) {
      CoveredWrites(w, loop, c, true, None, loop.state[i].value);
    }
    if Timed(loop) { CoveredOpsWrite(w, loop, c, false, after); }
  }

  // ---------------------------------------------------------------- what passes retain

  /** The carry has the retained keys, or is a first one that starts with them. */
  predicate Keyed(loop: Repeat, c: Carry)
  {
    c.state.Obj? && ((loop.state != [] && c.first) || c.state.fields.Keys == Keys(loop))
  }

  lemma {:induction false} RetainKeys(w: World, look: Outlook, env: map<string, Json>, entries: seq<Retained>)
    ensures Retain(w, look, env, entries).Keys == set i | 0 <= i < |entries| :: entries[i].key
    decreases entries
  {
    if entries != [] {
      var front, last := entries[..|entries| - 1], entries[|entries| - 1];
      RetainKeys(w, look, env, front);
      var keys, before := (set i | 0 <= i < |entries| :: entries[i].key), (set i | 0 <= i < |front| :: front[i].key);
      forall k ensures k in keys <==> k in before + {last.key} {
        if k in before {
          var i :| 0 <= i < |front| && front[i].key == k;
          assert entries[i].key == k;
        }
        if k in keys {
          var i :| 0 <= i < |entries| && entries[i].key == k;
          if i < |front| { assert front[i].key == k; }
        }
      }
    }
  }

  lemma PassKeys(w: World, loop: Repeat, c: Carry, outer: map<string, Json>, r: Run)
    requires Keyed(loop, c) && Pass(w, loop, c, outer, r).GoesOn?
    ensures Keyed(loop, Pass(w, loop, c, outer, r).carry) && !Pass(w, loop, c, outer, r).carry.first
  {
    hide EvalOps;
    var r' := if Timed(loop) then Stepped(r) else r;
    var body := EvalOps(w, InPass(loop, c), loop.body, EFrame(outer, Null, []), r');
    RetainKeys(w, InPass(loop, c), body.frame.env, loop.state);
  }

  lemma {:induction false} PassesKeys(w: World, loop: Repeat, c: Carry, outer: map<string, Json>, r: Run, passes: nat)
    requires passes > 0 && Keyed(loop, c) && Passes(w, loop, c, outer, r, passes).GoesOn?
    ensures Keyed(loop, Passes(w, loop, c, outer, r, passes).carry) && !Passes(w, loop, c, outer, r, passes).carry.first
    decreases passes
  {
    hide Pass, Keyed;
    PassKeys(w, loop, c, outer, r);
    var x := Pass(w, loop, c, outer, r);
    if passes > 1 { PassesKeys(w, loop, x.carry, outer, Rest(loop, x.run), passes - 1); }
  }

  /** The plain loop of a covered repeat is refused nowhere, and faithful wherever it is cut. */
  lemma {:induction false} CoveredCourse(w: World, loop: Repeat, after: seq<Op>, p: Carry, q: Run, more: nat)
    requires Covered(loop, after) && Keyed(loop, p) && p.remaining != Some(0) && TickId(loop) !in ROOTS
    ensures CourseOf(w, loop, after, p, q, more).Runs? && Faithfully(w, loop, after, p, q, more)
    decreases more
  {
    hide Passes, Covered, FaithfulCarry, Resumes;
    var n := BlockLength(p.remaining);
    var out := EvalPasses(w, loop, after, p, map[], q, n);
    if out.Suspended? {
      PassesKeys(w, loop, p, map[], q, n);
      SuspendedRemains(w, loop, after, p, q, n);
      if more > 0 {
        KeyedResumes(loop, after, out.carry);
        CoveredCarry(w, loop, after, out.carry);
        CoveredCourse(w, loop, after, out.carry, out.run, more - 1);
      }
    }
  }

  lemma KeyedResumes(loop: Repeat, after: seq<Op>, p: Carry)
    requires Covered(loop, after) && Keyed(loop, p) && !p.first
    ensures Resumes(loop, after, Resume(p))
  {
    hide Covered, Resumes;
    CoveredResumes(loop, after, Resume(p));
  }

  // ---------------------------------------------------------------- whole chains

  lemma StartIsKeyed(loop: Repeat, after: seq<Op>)
    requires Covered(loop, after)
    ensures Keyed(loop, Start(loop))
  {
  }

  lemma TickIsNoRoot(loop: Repeat, after: seq<Op>)
    requires LoopingOk([], loop, after)
    ensures TickId(loop) !in ROOTS && Total(loop) != Some(0)
  {
    assert TickId(loop) in KnownIds([], loop, after);
    StopsLater([], loop, after);
  }

  /** A covered repeat whose first block compiles runs, block by block, as the plain loop: no later
      block is rejected, and every call, failure and carry is the loop's. */
  lemma CoveredRepeat(loop: Repeat, after: seq<Op>, w: World, limit: nat, r: Run, more: nat)
    requires LoopingOk([], loop, after) && SayableIds(loop, after) && SteadyLoop(loop, after) && Covered(loop, after)
    requires Compile(Looping([], loop, after), map[], None, w.text).Ok? && LongestBlock([], loop, after) <= limit
    ensures Total(loop) != Some(0)
    ensures SameChain(RunChain(Looping([], loop, after), map[], None, w, limit, r, more),
                      Runs(EvalPasses(w, loop, after, Start(loop), map[], r, PassesWithin(Total(loop), more))))
  {
    hide RunChain, Compile, LongestBlock, LoopingOk, SteadyLoop, SayableIds, Covered, EvalPasses, CourseOf, Faithfully,
      SameChain, LoopWrites;
    TickIsNoRoot(loop, after);
    StartIsKeyed(loop, after);
    CoveredCourse(w, loop, after, Start(loop), r, more);
    CoveredStart(w, loop, after, Start(loop));
    RepeatAcrossBlocks([], loop, after, w, limit, r, more);
    CourseFollows(w, loop, after, Start(loop), r, more);
  }

  /** A counted repeat of the kind is done in `more` further blocks: it ends as the loop of all its
      passes ends. */
  lemma CountedRepeat(loop: Repeat, after: seq<Op>, w: World, limit: nat, r: Run, more: nat)
    requires LoopingOk([], loop, after) && SayableIds(loop, after) && SteadyLoop(loop, after) && Covered(loop, after)
    requires Compile(Looping([], loop, after), map[], None, w.text).Ok? && LongestBlock([], loop, after) <= limit
    requires Total(loop).Some? && 0 < Total(loop).value <= CHUNK * (more + 1)
    ensures EndsAlike(EvalPasses(w, loop, after, Start(loop), map[], r, Total(loop).value),
                      RunChain(Looping([], loop, after), map[], None, w, limit, r, more))
  {
    hide RunChain, Compile, LongestBlock, LoopingOk, SteadyLoop, SayableIds, Covered, EvalPasses;
    CoveredRepeat(loop, after, w, limit, r, more);
    var n := Total(loop).value;
    if EvalPasses(w, loop, after, Start(loop), map[], r, n).Suspended? {
      SuspendedShort(w, loop, after, Start(loop), r, n); }
  }

  /** The loop finished or failed, and the chain did so with it. */
  predicate EndsAlike(loop: BlockOutcome, chain: ChainOutcome)
  {
    match loop
    case Finished(q) => chain.Ended? && SameRun(chain.run, q)
    case Broken(e, q) => chain.Stopped? && chain.error == e && SameRun(chain.run, q)
    case Suspended(_, _) => false
  }

  lemma SuspendedShort(w: World, loop: Repeat, after: seq<Op>, p: Carry, q: Run, n: nat)
    requires n > 0 && p.remaining == Some(n)
    ensures !EvalPasses(w, loop, after, p, map[], q, n).Suspended?
  {
    hide Passes;
    if EvalPasses(w, loop, after, p, map[], q, n).Suspended? { PassesGoOn(w, loop, p, map[], q, n); }
  }
}
