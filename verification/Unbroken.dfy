/** Resumed blocks against the unbroken repeat: the seeds a block is compiled with are the values
    the unbroken repeat reads, and where source reads them alike it means the same. */
module Unbroken {
  import opened Json
  import opened Plan
  import opened Graph
  import opened Meaning
  import opened Discipline
  import opened Shifting
  import opened Alike
  import opened Sowing
  import opened Spelling

  // ---------------------------------------------------------------- seeds are outputs

  lemma {:induction false} SeedWalkIsLookup(v: Json, parts: Path)
    requires SeedWalk(v, parts).Ok?
    ensures SeedWalk(v, parts).value == Lookup(v, parts)
    decreases parts
  {
    if parts != [] {
      if v.Arr? && ParseNat(parts[0]).Some? && ParseNat(parts[0]).value < |v.items| {
        assert IsDigit(parts[0][0]);
        assert Step(v, parts[0]) == v.items[ParseNat(parts[0]).value];
      }
      SeedWalkIsLookup(Step(v, parts[0]), parts[1..]);
    }
  }

  lemma {:induction false} BestKeyIsEntry(entries: seq<Retained>, ref: string, path: Path) returns (i: nat)
    requires BestKey(entries, ref, path).Some?
    ensures var (base, key) := BestKey(entries, ref, path).value;
      i < |entries| && entries[i] == Retained(key, Ref(ref, base)) && Covers(base, path)
    decreases entries
  {
    var later := BestKey(entries[1..], ref, path);
    if BestKey(entries, ref, path) == later {
      i := BestKeyIsEntry(entries[1..], ref, path);
      i := i + 1;
    } else {
      i := 0;
    }
  }

  /** The retained state holds the outputs its keys are mapped from. */
  predicate KeepsOutputs(loop: Repeat, p: Carry)
  {
    && p.state.Obj?
    && forall i | 0 <= i < |loop.state| && loop.state[i].value.Ref? && loop.state[i].value.ref in IdsOf(loop.body) ::
         var e := loop.state[i];
         e.key in p.state.fields && p.state.fields[e.key] == Lookup(Get(p.outputs, e.value.ref), e.value.path)
  }

  lemma SeedOwnIsOutput(loop: Repeat, p: Carry, ref: string, path: Path)
    requires KeepsOutputs(loop, p) && ref in IdsOf(loop.body) && SeedOwn(loop.state, p.state, ref, path).Ok?
    ensures SeedOwn(loop.state, p.state, ref, path).value == Lookup(Get(p.outputs, ref), path)
  {
    var i := BestKeyIsEntry(loop.state, ref, path);
    var (base, key) := BestKey(loop.state, ref, path).value;
    var rest := path[|base|..];
    assert path == base + rest;
    var out := Get(p.outputs, ref);
    assert loop.state[i].value == Ref(ref, base);
    SeedWalkIsLookup(p.state, [key] + rest);
    assert ([key] + rest)[1..] == rest;
    LookupAppend(out, base, rest);
  }

  lemma SeedTickIsOutput(c: Carry, p: Carry, path: Path)
    requires p.state == c.state && p.remaining == c.remaining && p.deadline == c.deadline
    requires path != [] && path[0] != "iteration"
    requires SeedTick(c.state, RemainingJson(c.remaining), DeadlineJson(c.deadline), path).Ok?
    ensures SeedTick(c.state, RemainingJson(c.remaining), DeadlineJson(c.deadline), path).value
      == Lookup(TickOutput(p), path)
  {
    assert Lookup(TickOutput(p), path) == Lookup(Step(TickOutput(p), path[0]), path[1..]);
    if |path| > 1 {
      SeedWalkIsLookup(c.state, path[1..]);
    } else {
      assert path[1..] == [];
    }
  }

  // ---------------------------------------------------------------- carries

  /** A block's carry next to the unbroken repeat's. */
  predicate Tracks(loop: Repeat, c: Carry, p: Carry)
  {
    && c.state == p.state && c.remaining == p.remaining && c.deadline == p.deadline
    && !p.first && KeepsOutputs(loop, p)
    && (if c.first then c.written else c.outputs == p.outputs && c.done == p.done)
  }

  /** Blocks restart the iteration counter, so nothing may read it. */
  predicate SteadyRef(loop: Repeat, ref: string, path: Path)
  {
    ref == TickId(loop) ==> path != [] && path[0] != "iteration"
  }

  lemma TickReadsSame(c: Carry, p: Carry, path: Path)
    requires c.state == p.state && c.remaining == p.remaining && c.deadline == p.deadline && c.done == p.done
    requires path != [] && path[0] != "iteration"
    ensures Lookup(TickOutput(c), path) == Lookup(TickOutput(p), path)
  {
    assert Lookup(TickOutput(c), path) == Lookup(Step(TickOutput(c), path[0]), path[1..]);
    assert Lookup(TickOutput(p), path) == Lookup(Step(TickOutput(p), path[0]), path[1..]);
  }

  /** No reference of the source reads the iteration counter. */
  predicate Steady(loop: Repeat, e: Expr)
  {
    match e
    case Ref(ref, path) => SteadyRef(loop, ref, path)
    case List(items) => forall i | 0 <= i < |items| :: Steady(loop, items[i])
    case Dict(entries) => forall k | k in entries :: Steady(loop, entries[k])
    case Template(parts) => forall i | 0 <= i < |parts| :: Steady(loop, parts[i])
    case _ => true
  }

  predicate SteadyCond(loop: Repeat, c: Cond)
  {
    match c
    case Var(To(ref, path)) => SteadyRef(loop, ref, path)
    case Group(items) => forall i | 0 <= i < |items| :: SteadyCond(loop, items[i])
    case Operator(_, args) => forall i | 0 <= i < |args| :: SteadyCond(loop, args[i])
    case _ => true
  }

  predicate SteadyOp(loop: Repeat, op: Op)
  {
    match op
    case Call(_, _, args, _) => Steady(loop, args)
    case Wait(_, _) => true
    case Sequence(steps) => AllSteady(loop, steps)
    case Condition(_, when, steps, otherwise) =>
      SteadyCond(loop, when) && AllSteady(loop, steps) && AllSteady(loop, otherwise)
    case Parallel(_, _) => false
  }

  predicate AllSteady(loop: Repeat, ops: seq<Op>)
  {
    ops == [] || (SteadyOp(loop, ops[0]) && AllSteady(loop, ops[1..]))
  }

  // ---------------------------------------------------------------- one reference

  /** The reference reads the same in both; where the first is resumed, the previous pass's values
      are seeds. */
  ghost predicate TracksRef(w: World, x: Outlook, y: Outlook, owner: Option<string>, loop: Repeat, c: Carry,
      seeded: bool, ref: string, path: Path)
  {
    forall env ::
      var a, b := Read(w, x, env, owner, ref, path), Read(w, y, env, owner, ref, path);
      b.Live? && if seeded then a == Seeded(b.v, true) && SeedAt(loop, c, ref, path) == Ok(b.v) else a == b
  }

  /** Every steady reference of known source that has its seed is read alike. */
  ghost predicate Follows(w: World, x: Outlook, y: Outlook, owner: Option<string>, loop: Repeat, known: set<string>,
      prev: set<string>, c: Carry)
  {
    forall ref, path | (ref in ROOTS || ref in known) && SteadyRef(loop, ref, path)
      && (c.first && ref in prev ==> SeedAt(loop, c, ref, path).Ok?) ::
      TracksRef(w, x, y, owner, loop, c, c.first && ref in prev, ref, path)
  }

  lemma PreviousTracks(loop: Repeat, c: Carry, p: Carry, ref: string, path: Path)
    requires Tracks(loop, c, p) && ref in IdsOf(loop.body) && ref != TickId(loop)
      && (c.first ==> SeedAt(loop, c, ref, path).Ok?)
    ensures Previous(loop, p, ref, path).Live?
      && (c.first ==> SeedAt(loop, c, ref, path) == Ok(Previous(loop, p, ref, path).v))
    ensures Previous(loop, c, ref, path) == if c.first then Seeded(Previous(loop, p, ref, path).v, true)
      else Previous(loop, p, ref, path)
  {
    if c.first { SeedOwnIsOutput(loop, p, ref, path); }
  }

  lemma PreviousTickTracks(loop: Repeat, c: Carry, p: Carry, path: Path)
    requires Tracks(loop, c, p) && SteadyRef(loop, TickId(loop), path)
      && (c.first ==> SeedAt(loop, c, TickId(loop), path).Ok?)
    ensures PreviousTick(p, path).Live?
      && (c.first ==> SeedAt(loop, c, TickId(loop), path) == Ok(PreviousTick(p, path).v))
    ensures PreviousTick(c, path) == if c.first then Seeded(PreviousTick(p, path).v, true) else PreviousTick(p, path)
  {
    if c.first { SeedTickIsOutput(c, p, path); } else { TickReadsSame(c, p, path); }
  }

  lemma PassFollows(w: World, loop: Repeat, known: set<string>, c: Carry, p: Carry, owner: Option<string>)
    requires Tracks(loop, c, p) && ProperIds(loop, known) && (owner.Some? ==> owner.value in IdsOf(loop.body))
    ensures Follows(w, InPass(loop, c), InPass(loop, p), owner, loop, known, PreviousIn(loop, owner), c)
  {
    forall ref, path | (ref in ROOTS || ref in known) && SteadyRef(loop, ref, path)
      && (c.first && ref in PreviousIn(loop, owner) ==> SeedAt(loop, c, ref, path).Ok?)
      ensures TracksRef(w, InPass(loop, c), InPass(loop, p), owner, loop, c, c.first
        && ref in PreviousIn(loop, owner), ref, path)
    {
      if ref !in ROOTS {
        if ref == TickId(loop) {
          PreviousTickTracks(loop, c, p, path);
        } else if owner == Some(ref) {
          PreviousTracks(loop, c, p, ref, path);
        }
      }
    }
  }

  lemma ExitFollows(w: World, loop: Repeat, known: set<string>, c: Carry, p: Carry, owner: Option<string>)
    requires Tracks(loop, c, p) && ProperIds(loop, known)
    ensures Follows(w, AtExit(loop, c), AtExit(loop, p), owner, loop, known, LoopIds(loop), c)
  {
    forall ref, path | (ref in ROOTS || ref in known) && SteadyRef(loop, ref, path)
      && (c.first && ref in LoopIds(loop) ==> SeedAt(loop, c, ref, path).Ok?)
      ensures TracksRef(w, AtExit(loop, c), AtExit(loop, p), owner, loop, c, c.first && ref in LoopIds(loop), ref, path)
    {
      if ref !in ROOTS {
        if ref == TickId(loop) {
          PreviousTickTracks(loop, c, p, path);
        } else if ref in IdsOf(loop.body) {
          PreviousTracks(loop, c, p, ref, path);
        }
      }
    }
  }

  // ---------------------------------------------------------------- templates

  /** Which fragments of a template part read the previous pass. */
  function Marks(prev: set<string>, e: Expr): seq<bool>
    decreases e, 1
  {
    match e
    case Words(pieces) => seq(|pieces|, i => false)
    case Ref(ref, _) => [ref in prev]
    case Template(parts) => MarksOf(prev, parts)
    case _ => []
  }

  function MarksOf(prev: set<string>, parts: seq<Expr>): seq<bool>
    decreases parts, 0
  {
    if parts == [] then [] else Marks(prev, parts[0]) + MarksOf(prev, parts[1..])
  }

  /** The template reads the same whether its references to the previous pass are seeds or live. */
  predicate FaithfulText(w: World, y: Outlook, owner: Option<string>, prev: set<string>, parts: seq<Expr>)
  {
    var fs, marks := PartsOf(w, y, map[], owner, parts), MarksOf(prev, parts);
    |fs| == |marks| && Faithful(w.text, fs, Marked(fs, marks))
  }

  /** References of the parts can be read. */
  predicate Readable(loop: Repeat, known: set<string>, prev: set<string>, c: Carry, e: Expr)
  {
    match e
    case Ref(ref, path) =>
      (ref in ROOTS || ref in known) && SteadyRef(loop, ref, path)
        && (c.first && ref in prev ==>
        SeedAt(loop, c, ref, path).Ok? && !NeedsWrapper(SeedAt(loop, c, ref, path).value))
    case Template(parts) => forall i | 0 <= i < |parts| :: Readable(loop, known, prev, c, parts[i])
    case _ => true
  }

  /** Values of the previous pass do not depend on the outputs at hand. */
  ghost predicate Fixed(w: World, y: Outlook, owner: Option<string>, prev: set<string>)
  {
    forall ref, path, env, env' | ref in prev :: Read(w, y, env, owner, ref, path) == Read(w, y, env', owner, ref, path)
  }

  lemma {:induction false} PartsSpelled(w: World, x: Outlook, y: Outlook, owner: Option<string>, loop: Repeat,
      known: set<string>, prev: set<string>,
                                        c: Carry, env: map<string, Json>, parts: seq<Expr>)
    requires Follows(w, x, y, owner, loop, known, prev, c) && Fixed(w, y, owner, prev)
    requires forall i | 0 <= i < |parts| :: Readable(loop, known, prev, c, parts[i])
    ensures var fs, marks := PartsOf(w, y, env, owner, parts), MarksOf(prev, parts);
      && SameShape(fs, PartsOf(w, y, map[], owner, parts), marks)
      && PartsOf(w, x, env, owner, parts) == if c.first then SpelledOut(w.text, fs, marks) else fs
    decreases parts, 0
  {
    hide Follows, Fixed, Readable, Parts, Marks, SpelledOut, SameShape;
    if parts == [] {
      NothingSpelled(w.text);
    } else {
      PartSpelled(w, x, y, owner, loop, known, prev, c, env, parts[0]);
      assert forall i | 0 <= i < |parts[1..]| :: parts[1..][i] == parts[i + 1];
      PartsSpelled(w, x, y, owner, loop, known, prev, c, env, parts[1..]);
      var fs, rest := Parts(w, y, env, owner, parts[0]), PartsOf(w, y, env, owner, parts[1..]);
      var marks, more := Marks(prev, parts[0]), MarksOf(prev, parts[1..]);
      ShapeAppends(fs, Parts(w, y, map[], owner, parts[0]), marks, rest, PartsOf(w, y, map[], owner, parts[1..]), more);
      ShapeLengths(fs, Parts(w, y, map[], owner, parts[0]), marks);
      ShapeLengths(rest, PartsOf(w, y, map[], owner, parts[1..]), more);
      SpelledAppend(w.text, fs, rest, marks, more);
    }
  }

  lemma {:induction false} PartSpelled(w: World, x: Outlook, y: Outlook, owner: Option<string>, loop: Repeat,
      known: set<string>, prev: set<string>,
                                       c: Carry, env: map<string, Json>, e: Expr)
    requires Follows(w, x, y, owner, loop, known, prev, c) && Fixed(w, y, owner, prev)
      && Readable(loop, known, prev, c, e)
    ensures var fs, marks := Parts(w, y, env, owner, e), Marks(prev, e);
      && SameShape(fs, Parts(w, y, map[], owner, e), marks)
      && Parts(w, x, env, owner, e) == if c.first then SpelledOut(w.text, fs, marks) else fs
    decreases e, 1
  {
    hide Read, TracksRef, SeedAt, NeedsWrapper;
    match e
    case Ref(ref, path) => RefSpelled(w, x, y, owner, loop, prev, c, env, ref, path);
    case Template(parts) => PartsSpelled(w, x, y, owner, loop, known, prev, c, env, parts);
    case _ =>
  }

  lemma RefSpelled(w: World, x: Outlook, y: Outlook, owner: Option<string>, loop: Repeat, prev: set<string>, c: Carry,
                   env: map<string, Json>, ref: string, path: Path)
    requires TracksRef(w, x, y, owner, loop, c, c.first && ref in prev, ref, path)
    requires ref in prev ==> Read(w, y, env, owner, ref, path) == Read(w, y, map[], owner, ref, path)
    requires c.first && ref in prev ==>
      SeedAt(loop, c, ref, path).Ok? && !NeedsWrapper(SeedAt(loop, c, ref, path).value)
    ensures var fs, marks := Parts(w, y, env, owner, Ref(ref, path)), Marks(prev, Ref(ref, path));
      && SameShape(fs, Parts(w, y, map[], owner, Ref(ref, path)), marks)
      && Parts(w, x, env, owner, Ref(ref, path)) == if c.first then SpelledOut(w.text, fs, marks) else fs
  {
    hide Read, SeedAt, NeedsWrapper;
    var a, b := Read(w, x, env, owner, ref, path), Read(w, y, env, owner, ref, path);
    assert b.Live? && Read(w, y, map[], owner, ref, path).Live?;
    var fs := Parts(w, y, env, owner, Ref(ref, path));
    assert fs == [Value(b.v)];
    if c.first && ref in prev { assert SpelledOut(w.text, fs, [true]) == [Spoken(SeedText(w.text, b.v))]; }
    if c.first && ref !in prev { assert SpelledOut(w.text, fs, [false]) == fs; }
  }

  lemma {:induction false} SownIsReadable(loop: Repeat, known: set<string>, prev: set<string>, c: Carry, e: Expr)
    requires ExprOk(e, known) && Steady(loop, e) && (c.first ==> PartSown(loop, c, prev, e))
    ensures Readable(loop, known, prev, c, e)
    decreases e, 1
  {
    if e.Template? { AllSownReadable(loop, known, prev, c, e.parts); }
  }

  lemma {:induction false} AllSownReadable(loop: Repeat, known: set<string>, prev: set<string>, c: Carry,
      parts: seq<Expr>)
    requires (forall i | 0 <= i < |parts| :: ExprOk(parts[i], known) && Steady(loop, parts[i]))
      && (c.first ==> AllSown(loop, c, prev, parts))
    ensures forall i | 0 <= i < |parts| :: Readable(loop, known, prev, c, parts[i])
    decreases parts, 0
  {
    if parts != [] {
      SownIsReadable(loop, known, prev, c, parts[0]);
      assert forall i | 0 <= i < |parts[1..]| :: parts[1..][i] == parts[i + 1];
      AllSownReadable(loop, known, prev, c, parts[1..]);
      assert forall i | 0 < i < |parts| :: parts[i] == parts[1..][i - 1];
    }
  }

  lemma TextIsSame(w: World, x: Outlook, y: Outlook, owner: Option<string>, loop: Repeat, known: set<string>,
      prev: set<string>, c: Carry, parts: seq<Expr>)
    requires Follows(w, x, y, owner, loop, known, prev, c) && Fixed(w, y, owner, prev)
    requires forall i | 0 <= i < |parts| :: Readable(loop, known, prev, c, parts[i])
    requires c.first ==> FaithfulText(w, y, owner, prev, parts)
    ensures SameText(w, x, y, owner, parts)
  {
    hide Follows, Fixed, Finish, PartsOf;
    forall env ensures Finish(w.text, PartsOf(w, x, env, owner, parts))
      == Finish(w.text, PartsOf(w, y, env, owner, parts)) {
      PartsSpelled(w, x, y, owner, loop, known, prev, c, env, parts);
      if c.first {
        var fs, marks := PartsOf(w, y, env, owner, parts), MarksOf(prev, parts);
        ShapeCounts(fs, PartsOf(w, y, map[], owner, parts), marks);
        FaithfulIsSame(w.text, fs, marks);
      }
    }
  }

  // ---------------------------------------------------------------- source that reads alike

  /** Templates of the source are faithful. */
  predicate FaithfulExpr(w: World, y: Outlook, owner: Option<string>, prev: set<string>, e: Expr)
  {
    match e
    case List(items) => forall i | 0 <= i < |items| :: FaithfulExpr(w, y, owner, prev, items[i])
    case Dict(entries) => forall k | k in entries :: FaithfulExpr(w, y, owner, prev, entries[k])
    case Template(parts) => FaithfulText(w, y, owner, prev, parts)
    case _ => true
  }

  /** Conditions read no value of the previous pass that would have to be wrapped as a seed. */
  predicate FaithfulCond(w: World, y: Outlook, owner: Option<string>, prev: set<string>, c: Cond)
  {
    match c
    case Var(To(ref, path)) => ref in prev ==> !NeedsWrapper(Read(w, y, map[], owner, ref, path).v)
    case Group(items) => forall i | 0 <= i < |items| :: FaithfulCond(w, y, owner, prev, items[i])
    case Operator(_, args) => forall i | 0 <= i < |args| :: FaithfulCond(w, y, owner, prev, args[i])
    case _ => true
  }

  /** Where the unbroken repeat reads the previous pass: in its next pass, or after its last. */
  function Place(loop: Repeat, p: Carry, inside: bool): Outlook
  {
    if inside then InPass(loop, p) else AtExit(loop, p)
  }

  predicate FaithfulOp(w: World, loop: Repeat, p: Carry, inside: bool, op: Op)
  {
    match op
    case Call(id, _, args, _) => FaithfulExpr(w, Place(loop, p, inside), id, Prior(loop, inside, id), args)
    case Wait(_, _) => true
    case Sequence(steps) => AllFaithful(w, loop, p, inside, steps)
    case Condition(id, when, steps, otherwise) =>
      && FaithfulCond(w, Place(loop, p, inside), id, Prior(loop, inside, id), when)
      && AllFaithful(w, loop, p, inside, steps) && AllFaithful(w, loop, p, inside, otherwise)
    case Parallel(_, _) => false
  }

  predicate AllFaithful(w: World, loop: Repeat, p: Carry, inside: bool, ops: seq<Op>)
  {
    ops == [] || (FaithfulOp(w, loop, p, inside, ops[0]) && AllFaithful(w, loop, p, inside, ops[1..]))
  }

  /** The values carried from one block to the next are read the same as seeds and live. */
  predicate FaithfulCarry(w: World, loop: Repeat, after: seq<Op>, p: Carry)
  {
    && AllFaithful(w, loop, p, true, loop.body)
    && (forall i | 0 <= i < |loop.state| ::
      FaithfulExpr(w, InPass(loop, p), None, PreviousIn(loop, None), loop.state[i].value))
    && (Timed(loop) ==> AllFaithful(w, loop, p, false, after))
  }

  lemma {:induction false} ExprIsAlike(w: World, x: Outlook, y: Outlook, owner: Option<string>, loop: Repeat,
      known: set<string>, prev: set<string>, c: Carry, e: Expr)
    requires Follows(w, x, y, owner, loop, known, prev, c) && Fixed(w, y, owner, prev) && ExprOk(e, known)
      && Steady(loop, e)
    requires c.first ==> Sown(loop, c, prev, e) && FaithfulExpr(w, y, owner, prev, e)
    ensures ExprAlike(w, x, y, owner, e)
    decreases e
  {
    match e
    case Ref(ref, path) => assert TracksRef(w, x, y, owner, loop, c, c.first && ref in prev, ref, path);
    case List(items) => forall i | 0 <= i < |items| { ExprIsAlike(w, x, y, owner, loop, known, prev, c, items[i]); }
    case Dict(entries) => forall k | k in entries { ExprIsAlike(w, x, y, owner, loop, known, prev, c, entries[k]); }
    case Template(parts) =>
      AllSownReadable(loop, known, prev, c, parts);
      TextIsSame(w, x, y, owner, loop, known, prev, c, parts);
    case _ =>
  }

  lemma OperandIsAlike(w: World, x: Outlook, y: Outlook, owner: Option<string>, loop: Repeat, prev: set<string>,
      c: Carry, ref: string, path: Path)
    requires TracksRef(w, x, y, owner, loop, c, c.first && ref in prev, ref, path) && Fixed(w, y, owner, prev)
    requires c.first && ref in prev ==> !NeedsWrapper(Read(w, y, map[], owner, ref, path).v)
    ensures SameOperand(w, x, y, owner, To(ref, path))
  {
    hide Read, NeedsWrapper;
    forall env ensures EvalOperand(w, x, env, owner)(To(ref, path)) == EvalOperand(w, y, env, owner)(To(ref, path)) {
      if ref in prev { assert Read(w, y, env, owner, ref, path) == Read(w, y, map[], owner, ref, path); }
    }
  }

  lemma {:induction false} CondIsAlike(w: World, x: Outlook, y: Outlook, owner: Option<string>, loop: Repeat,
      known: set<string>, prev: set<string>, c: Carry, cond: Cond)
    requires Follows(w, x, y, owner, loop, known, prev, c) && Fixed(w, y, owner, prev) && CondOk(cond, known)
      && SteadyCond(loop, cond)
    requires c.first ==> SownCond(loop, c, prev, cond) && FaithfulCond(w, y, owner, prev, cond)
    ensures CondAlike(w, x, y, owner, cond)
    decreases cond, 0
  {
    hide SameOperand, TracksRef, Fixed, Read;
    match cond
    case Var(Raw(path)) => RawIsAlike(w, x, y, owner, path);
    case Var(To(ref, path)) => OperandIsAlike(w, x, y, owner, loop, prev, c, ref, path);
    case Group(items) => CondsAreAlike(w, x, y, owner, loop, known, prev, c, items);
    case Operator(_, args) => CondsAreAlike(w, x, y, owner, loop, known, prev, c, args);
    case _ =>
  }

  lemma RawIsAlike(w: World, x: Outlook, y: Outlook, owner: Option<string>, path: Path)
    ensures SameOperand(w, x, y, owner, Raw(path))
  {
  }

  lemma {:induction false} CondsAreAlike(w: World, x: Outlook, y: Outlook, owner: Option<string>, loop: Repeat,
      known: set<string>, prev: set<string>, c: Carry, conds: seq<Cond>)
    requires Follows(w, x, y, owner, loop, known, prev, c) && Fixed(w, y, owner, prev)
    requires forall i | 0 <= i < |conds| :: CondOk(conds[i], known) && SteadyCond(loop, conds[i])
    requires c.first ==>
      SownConds(loop, c, prev, conds) && forall i | 0 <= i < |conds| :: FaithfulCond(w, y, owner, prev, conds[i])
    ensures forall i | 0 <= i < |conds| :: CondAlike(w, x, y, owner, conds[i])
    decreases conds, 1
  {
    if conds != [] {
      CondIsAlike(w, x, y, owner, loop, known, prev, c, conds[0]);
      assert forall i | 0 <= i < |conds[1..]| :: conds[1..][i] == conds[i + 1];
      CondsAreAlike(w, x, y, owner, loop, known, prev, c, conds[1..]);
      assert forall i | 0 < i < |conds| :: conds[i] == conds[1..][i - 1];
    }
  }

  // ---------------------------------------------------------------- conditions over seeds

  lemma OperandOnSeeds(w: World, x: Outlook, y: Outlook, owner: Option<string>, loop: Repeat, prev: set<string>,
      c: Carry, env: map<string, Json>, ref: string, path: Path)
    requires TracksRef(w, x, y, owner, loop, c, ref in prev, ref, path) && Fixed(w, y, owner, prev)
    ensures EvalOperand(w, x, env, owner)(To(ref, path))
         == if FaithfulCond(w, y, owner, prev, Var(To(ref, path))) then EvalOperand(w, y, env, owner)(To(ref, path))
           else None
  {
    hide Read, NeedsWrapper;
    var a, b := Read(w, x, env, owner, ref, path), Read(w, y, env, owner, ref, path);
    if ref in prev { assert b == Read(w, y, map[], owner, ref, path); }
  }

  lemma {:induction false} OnSeeds(w: World, x: Outlook, y: Outlook, owner: Option<string>, loop: Repeat,
      known: set<string>, prev: set<string>, c: Carry, env: map<string, Json>, cond: Cond)
    requires Follows(w, x, y, owner, loop, known, prev, c) && Fixed(w, y, owner, prev) && CondOk(cond, known)
      && SteadyCond(loop, cond)
    requires c.first && SownCond(loop, c, prev, cond)
    ensures Decide(w, cond, EvalOperand(w, x, env, owner))
         == if FaithfulCond(w, y, owner, prev, cond) then Decide(w, cond, EvalOperand(w, y, env, owner)) else None
    decreases cond, 0
  {
    hide TracksRef, Fixed, Read, NeedsWrapper;
    match cond
    case Var(To(ref, path)) => OperandOnSeeds(w, x, y, owner, loop, prev, c, env, ref, path);
    case Group(items) => AllOnSeeds(w, x, y, owner, loop, known, prev, c, env, items);
    case Operator(_, args) => AllOnSeeds(w, x, y, owner, loop, known, prev, c, env, args);
    case _ =>
  }

  lemma {:induction false} AllOnSeeds(w: World, x: Outlook, y: Outlook, owner: Option<string>, loop: Repeat,
      known: set<string>, prev: set<string>, c: Carry, env: map<string, Json>, conds: seq<Cond>)
    requires Follows(w, x, y, owner, loop, known, prev, c) && Fixed(w, y, owner, prev)
    requires forall i | 0 <= i < |conds| :: CondOk(conds[i], known) && SteadyCond(loop, conds[i])
    requires c.first && SownConds(loop, c, prev, conds)
    ensures DecideAll(w, conds, EvalOperand(w, x, env, owner))
         == if forall i | 0 <= i < |conds| :: FaithfulCond(w, y, owner, prev, conds[i])
           then DecideAll(w, conds, EvalOperand(w, y, env, owner)) else None
    decreases conds, 1
  {
    hide Follows, Fixed, FaithfulCond;
    if conds != [] {
      OnSeeds(w, x, y, owner, loop, known, prev, c, env, conds[0]);
      assert forall i | 0 <= i < |conds[1..]| :: conds[1..][i] == conds[i + 1];
      AllOnSeeds(w, x, y, owner, loop, known, prev, c, env, conds[1..]);
      assert forall i | 0 < i < |conds| :: conds[i] == conds[1..][i - 1];
    }
  }

  // ---------------------------------------------------------------- bodies and after-steps

  lemma PriorIsFixed(w: World, loop: Repeat, p: Carry, inside: bool, owner: Option<string>, known: set<string>)
    requires ProperIds(loop, known) && (inside && owner.Some? ==> owner.value in IdsOf(loop.body))
    ensures Fixed(w, Place(loop, p, inside), owner, Prior(loop, inside, owner))
  {
  }

  lemma PlaceFollows(w: World, loop: Repeat, known: set<string>, c: Carry, p: Carry, inside: bool,
      owner: Option<string>)
    requires Tracks(loop, c, p) && ProperIds(loop, known) && (inside && owner.Some? ==> owner.value in IdsOf(loop.body))
    ensures Follows(w, Place(loop, c, inside), Place(loop, p, inside), owner, loop, known, Prior(loop, inside, owner),
      c)
    ensures Fixed(w, Place(loop, p, inside), owner, Prior(loop, inside, owner))
  {
    hide Follows, Fixed, Tracks;
    PriorIsFixed(w, loop, p, inside, owner, known);
    if inside { PassFollows(w, loop, known, c, p, owner); } else { ExitFollows(w, loop, known, c, p, owner); }
  }

  lemma {:induction false} OpIsAlike(w: World, loop: Repeat, known: set<string>, c: Carry, p: Carry, inside: bool,
      op: Op)
    requires Tracks(loop, c, p) && ProperIds(loop, known) && OpOk(op, known) && Plain(op) && SteadyOp(loop, op)
    requires (inside ==> Ids(op) <= IdsOf(loop.body))
      && (c.first ==> SownOp(loop, c, inside, op) && FaithfulOp(w, loop, p, inside, op))
    ensures OpAlike(w, Place(loop, c, inside), Place(loop, p, inside), op)
    decreases op, 0
  {
    hide Follows, Fixed, Tracks, ExprAlike, CondAlike, ProperIds;
    match op
    case Call(id, _, args, _) =>
      PlaceFollows(w, loop, known, c, p, inside, id);
      ExprIsAlike(w, Place(loop, c, inside), Place(loop, p, inside), id, loop, known, Prior(loop, inside, id), c, args);
    case Wait(_, _) =>
    case Sequence(steps) => OpsAreAlike(w, loop, known, c, p, inside, steps);
    case Condition(id, when, steps, otherwise) =>
      PlaceFollows(w, loop, known, c, p, inside, id);
      CondIsAlike(w, Place(loop, c, inside), Place(loop, p, inside), id, loop, known, Prior(loop, inside, id), c, when);
      OpsAreAlike(w, loop, known, c, p, inside, steps);
      OpsAreAlike(w, loop, known, c, p, inside, otherwise);
  }

  lemma {:induction false} OpsAreAlike(w: World, loop: Repeat, known: set<string>, c: Carry, p: Carry, inside: bool,
      ops: seq<Op>)
    requires Tracks(loop, c, p) && ProperIds(loop, known) && OpsOk(ops, known) && AllPlain(ops) && AllSteady(loop, ops)
    requires (inside ==> IdsOf(ops) <= IdsOf(loop.body))
      && (c.first ==> SownOps(loop, c, inside, ops) && AllFaithful(w, loop, p, inside, ops))
    ensures AllAlike(w, Place(loop, c, inside), Place(loop, p, inside), ops)
    decreases ops, 1
  {
    hide Tracks, ProperIds;
    if ops != [] {
      OpIsAlike(w, loop, known, c, p, inside, ops[0]);
      OpsAreAlike(w, loop, known, c, p, inside, ops[1..]);
    }
  }

  // ---------------------------------------------------------------- where the two part

  /** A condition of a resumed block raises if and only if the unbroken repeat's would, or a value it
      reads from the previous pass would have to be wrapped as a seed; otherwise both decide alike. */
  lemma DecidedIffFaithful(w: World, loop: Repeat, known: set<string>, c: Carry, p: Carry, inside: bool,
      owner: Option<string>, env: map<string, Json>, cond: Cond)
    requires Tracks(loop, c, p) && ProperIds(loop, known) && (inside && owner.Some? ==> owner.value in IdsOf(loop.body))
    requires CondOk(cond, known) && SteadyCond(loop, cond) && c.first
      && SownCond(loop, c, Prior(loop, inside, owner), cond)
    ensures var resumed := Decide(w, cond, EvalOperand(w, Place(loop, c, inside), env, owner));
      var live := Decide(w, cond, EvalOperand(w, Place(loop, p, inside), env, owner));
      var faithful := FaithfulCond(w, Place(loop, p, inside), owner, Prior(loop, inside, owner), cond);
      resumed == (if faithful then live else None) && (live.Some? ==> (resumed == live <==> faithful))
  {
    hide Tracks, Follows, Fixed, ProperIds, SownCond, SteadyCond, CondOk, FaithfulCond;
    PlaceFollows(w, loop, known, c, p, inside, owner);
    OnSeeds(w, Place(loop, c, inside), Place(loop, p, inside), owner, loop, known, Prior(loop, inside, owner), c, env,
      cond);
  }

  /** A seed of the repeat's counters and retained state is what the unbroken repeat reads if and only
      if it is not the iteration counter, once a pass has been counted. */
  lemma SeedIffSteady(loop: Repeat, c: Carry, p: Carry, path: Path)
    requires Tracks(loop, c, p) && p.iteration > 0 && SeedAt(loop, c, TickId(loop), path).Ok?
    ensures SeedAt(loop, c, TickId(loop), path) == Ok(Lookup(TickOutput(p), path)) <==>
      SteadyRef(loop, TickId(loop), path)
  {
    if SteadyRef(loop, TickId(loop), path) {
      SeedTickIsOutput(c, p, path);
    } else {
      assert path == ["iteration"] && path[1..] == [];
      assert Lookup(TickOutput(p), path) == Lookup(Num(p.iteration as real), []);
    }
  }
}
