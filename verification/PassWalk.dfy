/** Walking one compiled pass is one pass of the plain loop. */
module PassWalk {
  import opened Json
  import opened Plan
  import opened Graph
  import opened Meaning
  import opened Compiler
  import opened Discipline
  import opened Agreement
  import opened Moving
  import opened Shifting
  import opened Realization
  import opened Construction
  import opened Growth
  import opened Copies
  import opened Placement
  import opened Distinctness
  import opened ChainSteps
  import opened Visibility

  /** A finished graph, a world, the plan ids source may name, those of earlier steps, and the
      after-steps. */
  datatype Setting = Setting(sc: Scene, g: Native, w: World, limit: nat, known: set<string>, early: set<string>,
      tail: seq<Op>) {
    function B(): Block { sc.l.block }
    function Loop(): Repeat { sc.l.block.loop }
  }

  /** A block whose counters and deadlines are the repeat's own. A deadline at time zero counts
      as absent where the compiler picks the block's deadline, but not where it is handed on. */
  predicate SaneBlock(b: Block)
  {
    && b.chunk > 0 && b.initial.Obj?
    && b.chunk <= CHUNK
    && (b.remaining.None? ==> b.chunk == CHUNK)
    && (b.remaining.Some? ==> b.chunk <= b.remaining.value && (b.chunk == CHUNK || b.chunk == b.remaining.value))
    && (b.seedDeadline == b.deadline || (b.deadline == Null && b.given == b.seedDeadline))
    && (b.deadline == Null || b.deadline.Num?)
    && (b.given == Null || b.given == b.seedDeadline)
    && (!Timed(b.loop) ==> b.deadline == Null)
    && (b.loop.stop.Deadline? ==> b.deadline.Num?)
  }

  predicate StateOk(entries: seq<Retained>, known: set<string>)
  {
    forall i | 0 <= i < |entries| :: ExprOk(entries[i].value, known) && PlainExpr(entries[i].value)
  }

  predicate LoopOk(loop: Repeat, known: set<string>)
  {
    && ProperIds(loop, known)
    && OpsOk(loop.body, known) && AllPlain(loop.body) && StateOk(loop.state, known)
  }

  ghost predicate Sensible(se: Setting)
  {
    var sc, b := se.sc, se.B();
    && ResolveAll(sc.fin) == Ok(se.g) && Sound(sc.fin) && LaidOut(sc.l, sc.base)
    && sc.l.text == se.w.text && sc.vis == Plainly(sc.fin)
    && Distinct(sc.l, sc.base, sc.fin, PairsFrom(b.loop, 0, b.chunk))
    && LoopOk(b.loop, se.known) && se.known - LoopIds(b.loop) <= sc.vis && se.early <= se.known - LoopIds(b.loop)
    && (forall p | p in PairsFrom(b.loop, 0, b.chunk) ::
          NameAt(b, p) !in se.known - LoopIds(b.loop) && NameAt(b, p) !in ROOTS)
    && (Timed(b.loop) ==> ClockId(b.loop) !in LoopIds(b.loop))
    && SaneBlock(b)
  }

  ghost predicate FrameOk(se: Setting, f: Frame, env: map<string, Json>)
  {
    Agrees(se.sc.fin, se.sc.vis, "", f.nodes, env) && f.undo == []
  }

  // ---------------------------------------------------------------- state between passes

  /** The carry's counters before pass i. */
  predicate Counting(b: Block, i: nat, c: Carry)
  {
    && c.iteration == i && c.state.Obj?
    && (b.remaining.None? ==> c.remaining.None?)
    && (b.remaining.Some? ==> i <= b.remaining.value && c.remaining == Some(b.remaining.value - i))
    && (!Timed(b.loop) ==> c.deadline.None?)
    && (b.deadline != Null ==> DeadlineJson(c.deadline) == b.deadline)
    && (b.given != Null ==> DeadlineJson(c.deadline) == b.given)
    && (i == 0 ==> DeadlineJson(c.deadline) == b.seedDeadline)
    && (i > 0 && Timed(b.loop) ==> c.deadline.Some?)
  }

  /** Names no pass before i has used. */
  predicate Untouched(b: Block, i: nat, env: map<string, Json>)
  {
    forall p | p in PairsFrom(b.loop, 0, b.chunk) && p.1 >= i :: Get(env, NameAt(b, p)) == Null
  }

  /** Only earlier steps and passes have outputs. */
  ghost predicate Within(se: Setting, env: map<string, Json>)
  {
    forall z | Get(env, z) != Null :: z in se.early || exists p ::
      p in PairsFrom(se.Loop(), 0, se.B().chunk) && z == NameAt(se.B(), p)
  }

  /** What holds when pass i is about to start (or, for i == chunk, when the block is over). */
  ghost predicate PassState(se: Setting, i: nat, c: Carry, outer: map<string, Json>, env: map<string, Json>)
  {
    var b := se.B();
    && Counting(b, i, c)
    && (if i == 0 then Written(b, c) else !c.first)
    && (forall x | x in se.known - LoopIds(b.loop) :: Get(env, x) == Get(outer, x))
    && (i > 0 ==> forall x | x in IdsOf(b.loop.body) :: Get(env, NameOf(x, i - 1, b.chunk)) == Get(c.outputs, x))
    && (i > 0 ==> Get(env, NameOf(TickId(b.loop), i - 1, b.chunk)) == TickOutput(c))
    && (i > 0 && Timed(b.loop) ==>
      Step(Get(env, NameOf(ClockId(b.loop), i - 1, b.chunk)), "deadline_unix") == DeadlineJson(c.deadline))
    && Untouched(b, i, env) && Within(se, env)
    && (forall x | x in IdsOf(b.loop.body) :: Get(outer, x) == Null)
  }

  lemma PairIn(se: Setting, x: string, i: nat)
    requires x in LoopNames(se.Loop()) && i < se.B().chunk
    ensures (x, i) in PairsFrom(se.Loop(), 0, se.B().chunk)
  {
  }

  lemma NamesAreApart(se: Setting, x: string, i: nat, y: string, j: nat)
    requires Sensible(se) && x in LoopNames(se.Loop()) && y in LoopNames(se.Loop()) && i < se.B().chunk
      && j < se.B().chunk
    ensures NameOf(x, i, se.B().chunk) == NameOf(y, j, se.B().chunk) ==> x == y && i == j
    ensures NameOf(x, i, se.B().chunk) in se.sc.vis
    ensures NameOf(x, i, se.B().chunk) !in se.known - LoopIds(se.Loop()) && NameOf(x, i, se.B().chunk) !in ROOTS
  {
    PairIn(se, x, i);
    PairIn(se, y, j);
    assert NameAt(se.B(), (x, i)) == NameOf(x, i, se.B().chunk);
    assert NameAt(se.B(), (y, j)) == NameOf(y, j, se.B().chunk);
  }

  lemma PassIsApart(se: Setting, i: nat)
    requires Sensible(se) && i < se.B().chunk
    ensures PassApart(se.B(), i, se.known) && PassVisible(se.B(), i, se.known, se.sc.vis)
  {
    var b := se.B();
    forall x, y | x in LoopIds(b.loop) && y in LoopIds(b.loop)
      ensures NameOf(x, i, b.chunk) !in se.known - LoopIds(b.loop) && NameOf(x, i, b.chunk) !in ROOTS
        && NameOf(x, i, b.chunk) in se.sc.vis
      ensures i > 0 ==> NameOf(x, i, b.chunk) != NameOf(y, i - 1, b.chunk) && NameOf(y, i - 1, b.chunk) !in ROOTS
      ensures i > 0 ==> NameOf(y, i - 1, b.chunk) in se.sc.vis
    {
      NamesAreApart(se, x, i, x, i);
      if i > 0 {
        NamesAreApart(se, x, i, y, i - 1);
        NamesAreApart(se, y, i - 1, y, i - 1);
      }
    }
  }

  lemma PassStateEnv(se: Setting, i: nat, c: Carry, outer: map<string, Json>, env: map<string, Json>)
    requires Sensible(se) && i < se.B().chunk && PassState(se, i, c, outer, env)
    ensures PassEnv(se.B(), i, se.known, c, outer, env)
  {
    var b := se.B();
    forall x | x in IdsOf(b.loop.body) ensures Get(env, NameOf(x, i, b.chunk)) == Get(outer, x) {
      PairIn(se, x, i);
      assert Get(env, NameAt(b, (x, i))) == Null;
    }
  }

  // ---------------------------------------------------------------- the pause and the clock

  lemma SleepRuns(st: Build, g: Native, w: World, limit: nat, id: string, seconds: real, next: string, f: Frame, r: Run,
      n: nat)
    requires ResolveAll(st) == Ok(g) && Holds(st, id, Sleep(seconds, next), "") && n + 1 <= limit
    ensures Walk(g, w, limit, id, f, r, n) == Walk(g, w, limit, next, f, r.(clock := r.clock + seconds), n + 1)
  {
    assert g[id] == Sleep(seconds, next);
  }

  /** The run as pass i finds it: the interval passes before every pass but the first. */
  function Arrived(loop: Repeat, i: nat, r: Run): Run { if i == 0 then r else Rest(loop, r) }

  predicate TopLevel(st: Build, id: string) { id in st.scopes && st.scopes[id] == "" }

  predicate ClocksScoped(se: Setting, i: nat)
  {
    Timed(se.Loop()) && i > 0 ==> TopLevel(se.sc.fin, NameOf(ClockId(se.Loop()), i - 1, se.B().chunk))
  }

  /** The deadline pass i hands its clock: the block's own, or the one the last clock found. */
  function Shown(b: Block, i: nat, c: Carry): Json { if i == 0 then b.deadline else DeadlineJson(c.deadline) }

  predicate ClockReads(st: Build, vis: set<string>, b: Block, i: nat, shown: Json, env: map<string, Json>)
  {
    if i > 0 && b.deadline == Null then
      var last := NameOf(ClockId(b.loop), i - 1, b.chunk);
      last in vis && TopLevel(st, last) && Step(Get(env, last), "deadline_unix") == shown
    else b.deadline == shown
  }

  function DurationJson(loop: Repeat): Json
  {
    if loop.stop.Duration? then Num(loop.stop.seconds) else Null
  }

  lemma DeadlineInputRenders(st: Build, vis: set<string>, w: World, b: Block, i: nat, shown: Json,
                             nodes: map<string, Json>, env: map<string, Json>)
    requires Agrees(st, vis, "", nodes, env) && ClockReads(st, vis, b, i, shown, env)
    ensures Renders(st, Context(w, nodes), w.text, ClockInput(b, i).entries["deadline_unix"], shown)
  {
    if i > 0 && b.deadline == Null {
      HoleReads(st, vis, w, nodes, env, NameOf(ClockId(b.loop), i - 1, b.chunk), "deadline_unix");
    }
  }

  const CLOCK_KEYS := {"deadline_unix", "duration_seconds", "initial_deadline"}

  lemma ClockInputEntries(b: Block, i: nat)
    ensures ClockInput(b, i).Dict? && ClockInput(b, i).entries.Keys == CLOCK_KEYS
    ensures ClockInput(b, i).entries["duration_seconds"] == Scalar(DurationJson(b.loop))
    ensures ClockInput(b, i).entries["initial_deadline"] == Scalar(b.given)
  {
    hide OutputHole;
  }

  lemma ClockArgsEntries(deadline: Json, duration: Json, given: Json)
    ensures var args := ClockArgs(deadline, duration, given);
      && args.Obj? && args.fields.Keys == CLOCK_KEYS
      && args.fields["deadline_unix"] == deadline && args.fields["duration_seconds"] == duration
      && args.fields["initial_deadline"] == given
  {
  }

  lemma ClockInputRenders(st: Build, vis: set<string>, w: World, b: Block, i: nat, shown: Json,
                          nodes: map<string, Json>, env: map<string, Json>)
    requires Agrees(st, vis, "", nodes, env) && ClockReads(st, vis, b, i, shown, env)
    requires Resolve(st, "", ClockInput(b, i)).Ok?
    ensures Render(Resolve(st, "", ClockInput(b, i)).value, Context(w, nodes), w.text)
         == ClockArgs(shown, DurationJson(b.loop), b.given)
  {
    hide Render, Resolve, Agrees, ClockReads, Lookup, Renders, ClockInput, ClockArgs;
    var ctx, args := Context(w, nodes), ClockArgs(shown, DurationJson(b.loop), b.given);
    ClockInputEntries(b, i);
    ClockArgsEntries(shown, DurationJson(b.loop), b.given);
    var entries := ClockInput(b, i).entries;
    DeadlineInputRenders(st, vis, w, b, i, shown, nodes, env);
    ScalarRenders(st, ctx, w.text, DurationJson(b.loop));
    ScalarRenders(st, ctx, w.text, b.given);
    forall k | k in entries ensures Renders(st, ctx, w.text, entries[k], args.fields[k]) {
      assert k == "deadline_unix" || k == "duration_seconds" || k == "initial_deadline";
    }
    assert ClockInput(b, i) == Dict(entries);
    DictIs(st, entries, ctx, w.text, args.fields);
  }

  lemma StateReads(se: Setting, i: nat, c: Carry, outer: map<string, Json>, env: map<string, Json>)
    requires Sensible(se) && i < se.B().chunk && Timed(se.Loop()) && PassState(se, i, c, outer, env)
      && ClocksScoped(se, i)
    ensures ClockReads(se.sc.fin, se.sc.vis, se.B(), i, Shown(se.B(), i, c), env)
  {
    if i > 0 { NamesAreApart(se, ClockId(se.Loop()), i - 1, ClockId(se.Loop()), i - 1); }
  }

  lemma DeadlineFound(se: Setting, i: nat, c: Carry, outer: map<string, Json>, env: map<string, Json>, now: real)
    requires Sensible(se) && i < se.B().chunk && Timed(se.Loop()) && PassState(se, i, c, outer, env)
    ensures AdvanceChain(ClockArgs(Shown(se.B(), i, c), DurationJson(se.Loop()), se.B().given), now)
         == Some(ClockOutput(DeadlineOf(se.Loop(), c, now), now))
  {
    ClockAdvances(Shown(se.B(), i, c), c.deadline, se.B().given, DurationJson(se.Loop()), DeadlineOf(se.Loop(), c, now),
      now);
  }

  /** The clock and its expiry test lead into the body, or out when the deadline has passed. */
  lemma ClockRuns(st: Build, g: Native, vis: set<string>, w: World, limit: nat, b: Block, i: nat, shown: Json,
      found: Option<real>,
                  exit: string, entry: string, f: Frame, env: map<string, Json>, r: Run, n: nat)
    returns (f': Frame)
    requires ResolveAll(st) == Ok(g) && JoinsAreJoins(st) && n + 2 <= limit
    requires Holds(st, NameOf(ClockId(b.loop), i, b.chunk), Helper(ClockInput(b, i), Checked(b, "_expired", i)), "")
    requires Holds(st, Checked(b, "_expired", i),
      Switch([Case(DoneTest(NameOf(ClockId(b.loop), i, b.chunk)), exit)], entry), "")
    requires Agrees(st, vis, "", f.nodes, env) && f.undo == [] && NameOf(ClockId(b.loop), i, b.chunk) in vis
    requires ClockReads(st, vis, b, i, shown, env)
    requires AdvanceChain(ClockArgs(shown, DurationJson(b.loop), b.given), r.clock) == Some(ClockOutput(found, r.clock))
    ensures Walk(g, w, limit, NameOf(ClockId(b.loop), i, b.chunk), f, r, n)
         == Walk(g, w, limit, if Past(found, r.clock) then exit else entry, f', Stepped(r), n + 2)
    ensures Agrees(st, vis, "", f'.nodes, env[NameOf(ClockId(b.loop), i, b.chunk) := ClockOutput(found, r.clock)])
      && f'.undo == []
  {
    var clock, out := NameOf(ClockId(b.loop), i, b.chunk), ClockOutput(found, r.clock);
    var args := ClockArgs(shown, DurationJson(b.loop), b.given);
    if Resolve(st, "", ClockInput(b, i)).Ok? { ClockInputRenders(st, vis, w, b, i, shown, f.nodes, env); }
    f' := HelperRuns(st, g, vis, w, limit, clock, ClockInput(b, i), Checked(b, "_expired", i), f, env, r, n, args, out);
    DoneTestRuns(st, g, vis, w, limit, Checked(b, "_expired", i), clock, exit, entry, f', env[clock := out], Stepped(r),
      n + 1, Past(found, r.clock));
  }

  lemma PauseRuns(se: Setting, i: nat, first: string, arrival: string, f: Frame, r: Run, n: nat) returns (n': nat)
    requires ResolveAll(se.sc.fin) == Ok(se.g) && PausePlaced(se.sc, i, first, arrival) && n + 1 <= se.limit
    ensures n <= n' <= n + 1
    ensures Walk(se.g, se.w, se.limit, arrival, f, r, n)
      == Walk(se.g, se.w, se.limit, first, f, Arrived(se.Loop(), i, r), n')
  {
    n' := n;
    if i > 0 {
      SleepRuns(se.sc.fin, se.g, se.w, se.limit, arrival, se.Loop().interval, first, f, r, n);
      n' := n + 1;
    }
  }

  /** Outputs once the clock of pass i, if any, has run. */
  function Clocked(se: Setting, i: nat, c: Carry, now: real, env: map<string, Json>): map<string, Json>
  {
    if Timed(se.Loop()) then
      env[NameOf(ClockId(se.Loop()), i, se.B().chunk) := ClockOutput(DeadlineOf(se.Loop(), c, now), now)]
    else env
  }

  /** From where a pass is entered to its body, or to an exit when its deadline has passed. */
  lemma FrontRuns(se: Setting, i: nat, arrival: string, first: string, entry: string,
                  c: Carry, outer: map<string, Json>, f: Frame, env: map<string, Json>, r: Run, n: nat)
    returns (f': Frame, target: string, n': nat)
    requires Sensible(se) && i < se.B().chunk && PassState(se, i, c, outer, env) && FrameOk(se, f, env)
    requires ClockPlaced(se.sc, i) && FrontPlaced(se.sc, i, entry, first) && PausePlaced(se.sc, i, first, arrival)
    requires ClocksScoped(se, i) && n + 3 <= se.limit
    ensures n <= n' <= n + 3
    ensures var r1 := Arrived(se.Loop(), i, r); var r2 := if Timed(se.Loop()) then Stepped(r1) else r1;
      && FrameOk(se, f', Clocked(se, i, c, r1.clock, env))
      && Walk(se.g, se.w, se.limit, arrival, f, r, n) == Walk(se.g, se.w, se.limit, target, f', r2, n')
      && if Past(DeadlineOf(se.Loop(), c, r1.clock), r1.clock) then ExitPlaced(se.sc, i - 1, target)
        else target == entry
  {
    hide Walk, ResolveAll, Distinct, LaidOut, LoopOk, SaneBlock, ClockPlaced, PausePlaced, ClockReads, Agrees,
      AdvanceChain, ClockArgs, ClockOutput, DurationJson, Shown, ExitPlaced, PassState;
    var r1 := Arrived(se.Loop(), i, r);
    n' := PauseRuns(se, i, first, arrival, f, r, n);
    f', target := f, entry;
    if Timed(se.Loop()) {
      StateReads(se, i, c, outer, env);
      DeadlineFound(se, i, c, outer, env, r1.clock);
      NamesAreApart(se, ClockId(se.Loop()), i, ClockId(se.Loop()), i);
      f', target := TimedFrontRuns(se, i, first, entry, c, f, env, r1, n');
      n' := n' + 2;
    }
  }

  lemma TimedFrontRuns(se: Setting, i: nat, first: string, entry: string, c: Carry, f: Frame, env: map<string, Json>,
      r: Run, n: nat)
    returns (f': Frame, target: string)
    requires ResolveAll(se.sc.fin) == Ok(se.g) && JoinsAreJoins(se.sc.fin) && Timed(se.Loop()) && FrameOk(se, f, env)
    requires ClockPlaced(se.sc, i) && FrontPlaced(se.sc, i, entry, first)
    requires ClockReads(se.sc.fin, se.sc.vis, se.B(), i, Shown(se.B(), i, c), env)
    requires AdvanceChain(ClockArgs(Shown(se.B(), i, c), DurationJson(se.Loop()), se.B().given), r.clock)
          == Some(ClockOutput(DeadlineOf(se.Loop(), c, r.clock), r.clock))
    requires NameOf(ClockId(se.Loop()), i, se.B().chunk) in se.sc.vis && n + 2 <= se.limit
    ensures FrameOk(se, f', Clocked(se, i, c, r.clock, env))
    ensures Walk(se.g, se.w, se.limit, first, f, r, n) == Walk(se.g, se.w, se.limit, target, f', Stepped(r), n + 2)
    ensures if Past(DeadlineOf(se.Loop(), c, r.clock), r.clock) then ExitPlaced(se.sc, i - 1, target)
      else target == entry
  {
    var b, fin := se.B(), se.sc.fin;
    var found := DeadlineOf(se.Loop(), c, r.clock);
    var exit :| Holds(fin, Checked(b, "_expired", i), Switch([Case(DoneTest(first), exit)], entry), "")
      && ExitPlaced(se.sc, i - 1, exit);
    f' := ClockRuns(fin, se.g, se.sc.vis, se.w, se.limit, b, i, Shown(b, i, c), found, exit, entry, f, env, r, n);
    target := if Past(found, r.clock) then exit else entry;
  }

  // ---------------------------------------------------------------- the body

  /** The body of pass i fails as evaluating it fails, or the walk stands at its tick. */
  ghost predicate BodyEnds(se: Setting, i: nat, c: Carry, outer: map<string, Json>, env: map<string, Json>,
      out: EOutcome,
                           walked: Outcome, f': Frame, env': map<string, Json>, n': nat)
    requires se.B().chunk > i
  {
    match out
    case EFailed(e, r') => walked == Failed(e, r', n')
    case EDone(g, r') =>
      && walked == Walk(se.g, se.w, se.limit, Checked(se.B(), "_tick", i), f', r', n')
      && FrameOk(se, f', env') && PassEnv(se.B(), i, se.known, c, g.env, env')
      && PassChanges(se.B(), i, outer, g.env, env, env')
  }

  /** The body of a compiled pass runs as the evaluator runs the pass. */
  lemma BodyRuns(se: Setting, i: nat, entry: string, c: Carry, outer: map<string, Json>, f: Frame,
      env: map<string, Json>, r: Run, n: nat)
    returns (f': Frame, env': map<string, Json>, n': nat)
    requires Sensible(se) && i < se.B().chunk && BodyPlaced(se.sc, i, entry)
    requires PassEnv(se.B(), i, se.known, c, outer, env) && FrameOk(se, f, env)
    requires n + SizeOf(se.Loop().body) <= se.limit
    ensures n <= n' <= n + SizeOf(se.Loop().body)
    ensures BodyEnds(se, i, c, outer, env,
      EvalOps(se.w, InPass(se.Loop(), c), se.Loop().body, EFrame(outer, Null, []), r),
                     Walk(se.g, se.w, se.limit, entry, f, r, n), f', env', n')
  {
    hide Walk, EvalOps, ResolveAll, Distinct, LaidOut, Agrees, PassEnv, PassChanges, RealizesAll, PassApart;
    var b, body, vis := se.B(), se.Loop().body, se.sc.vis;
    var body' := BodyOf(se.sc.l, i).value;
    PassIsApart(se, i);
    var g' := PassOpsMean(se.w, b, i, se.known, c, body, EFrame(outer, Null, []), EFrame(env, Null, []), r);
    PassOpsOk(b, se.w.text, i, se.known, vis, body);
    PlainHasNoParallel(body);
    RewrittenShape(Shift(b, i, false), se.w.text, body);
    f', n' := SimulatesAll(se.sc.fin, se.g, vis, se.w, se.limit, body', entry, Checked(b, "_tick", i), "",
                           f, EFrame(env, Null, []), r, n);
    env' := g'.env;
  }

  // ---------------------------------------------------------------- retained state

  lemma {:induction false} StateMeans(se: Setting, i: nat, c: Carry, env: map<string, Json>, env': map<string, Json>,
      entries: seq<Retained>)
    requires PassEnv(se.B(), i, se.known, c, env, env') && PassApart(se.B(), i, se.known)
      && ProperIds(se.Loop(), se.known)
    requires PassVisible(se.B(), i, se.known, se.sc.vis)
    requires StateOk(entries, se.known) && StateEntries(Shift(se.B(), i, false), se.w.text, entries).Ok?
    ensures var m := StateEntries(Shift(se.B(), i, false), se.w.text, entries).value;
            var kept := Retain(se.w, InPass(se.Loop(), c), env, entries);
      && m.Keys == kept.Keys
      && forall k | k in m :: EvalExpr(se.w, Outside, env', None, m[k]) == kept[k] && ExprOk(m[k], se.sc.vis)
    decreases entries
  {
    if entries != [] {
      var s, l, e := Shift(se.B(), i, false), Stay(se.B(), se.w.text), entries[|entries| - 1].value;
      StateMeans(se, i, c, env, env', entries[..|entries| - 1]);
      PassIsFaithful(se.w, se.B(), i, se.known, c, None, env, env');
      MovedExprMeans(se.w, l, s, None, se.known, InPass(se.Loop(), c), env, env', None, e);
      PassLands(se.B(), se.w.text, i, se.known, se.sc.vis, None);
      MovedExprOk(l, s, se.w.text, None, se.known, se.sc.vis, e);
      RenameNothing(l, i, RewriteExpr(s, se.w.text, None, e).value);
    }
  }

  /** The state a tick is given: the rendered mapping, or null when the repeat has none. */
  function GivenState(w: World, loop: Repeat, c: Carry, env: map<string, Json>): Json
  {
    if loop.state == [] then Null else Obj(Retain(w, InPass(loop, c), env, loop.state))
  }

  lemma StateRenders(se: Setting, i: nat, c: Carry, env: map<string, Json>, env': map<string, Json>,
      nodes: map<string, Json>)
    requires PassEnv(se.B(), i, se.known, c, env, env') && PassApart(se.B(), i, se.known)
      && ProperIds(se.Loop(), se.known)
    requires PassVisible(se.B(), i, se.known, se.sc.vis) && StateOk(se.Loop().state, se.known)
    requires Agrees(se.sc.fin, se.sc.vis, "", nodes, env') && TickInput(se.B(), se.w.text, i).Ok?
    ensures Renders(se.sc.fin, Context(se.w, nodes), se.w.text, TickInput(se.B(), se.w.text, i).value.entries["state"],
      GivenState(se.w, se.Loop(), c, env))
  {
    TickStateEntry(se.B(), se.w.text, i);
    hide TickInput, StateEntries, PassEnv, PassApart, PassVisible, Render, Resolve, Agrees, Retain, ProperIds, StateOk;
    if se.Loop().state != [] {
      var m := StateEntries(Shift(se.B(), i, false), se.w.text, se.Loop().state).value;
      StateMeans(se, i, c, env, env', se.Loop().state);
      StateIs(se.sc.fin, se.sc.vis, se.w, nodes, env', m, Retain(se.w, InPass(se.Loop(), c), env, se.Loop().state));
    }
  }

  lemma TickStateEntry(b: Block, text: Json -> string, i: nat)
    requires TickInput(b, text, i).Ok?
    ensures StateEntries(Shift(b, i, false), text, b.loop.state).Ok?
    ensures TickInput(b, text, i).value.entries["state"]
         == if b.loop.state == [] then Scalar(Null)
           else Dict(StateEntries(Shift(b, i, false), text, b.loop.state).value)
  {
    hide OutputHole, StateEntries, LiteralOf, Checked;
  }

  lemma StateIs(st: Build, vis: set<string>, w: World, nodes: map<string, Json>, env: map<string, Json>,
      m: map<string, Expr>, kept: map<string, Json>)
    requires Agrees(st, vis, "", nodes, env) && m.Keys == kept.Keys
    requires forall k | k in m :: EvalExpr(w, Outside, env, None, m[k]) == kept[k] && ExprOk(m[k], vis)
    ensures Renders(st, Context(w, nodes), w.text, Dict(m), Obj(kept))
  {
    var fields := EvalDict(w, Outside, env, None, m);
    assert fields == kept;
    if Resolve(st, "", Dict(m)).Ok? {
      ExprAgrees(st, vis, "", w, nodes, env, None, Dict(m));
    }
  }

  // ---------------------------------------------------------------- the tick

  /** What pass i hands its tick, and what the tick makes of it. */
  predicate TickReads(se: Setting, i: nat, c: Carry, found: Option<real>, env: map<string, Json>)
  {
    var b, st, vis := se.B(), se.sc.fin, se.sc.vis;
    && (if Timed(b.loop) then
          var clock := NameOf(ClockId(b.loop), i, b.chunk);
          clock in vis && TopLevel(st, clock) && Step(Get(env, clock), "deadline_unix") == DeadlineJson(found)
        else b.deadline == DeadlineJson(found))
    && (if i == 0 then b.initial == c.state
        else
          var last := NameOf(TickId(b.loop), i - 1, b.chunk);
          last in vis && TopLevel(st, last) && Step(Get(env, last), "state") == c.state)
  }

  lemma TickDeadlineRenders(se: Setting, i: nat, c: Carry, found: Option<real>, env: map<string, Json>,
      nodes: map<string, Json>)
    requires Agrees(se.sc.fin, se.sc.vis, "", nodes, env) && TickReads(se, i, c, found, env)
      && TickInput(se.B(), se.w.text, i).Ok?
    ensures Renders(se.sc.fin, Context(se.w, nodes), se.w.text,
      TickInput(se.B(), se.w.text, i).value.entries["deadline_unix"], DeadlineJson(found))
  {
    var b := se.B();
    if Timed(b.loop) {
      HoleReads(se.sc.fin, se.sc.vis, se.w, nodes, env, NameOf(ClockId(b.loop), i, b.chunk), "deadline_unix");
    }
  }

  lemma TickPreviousRenders(se: Setting, i: nat, c: Carry, found: Option<real>, env: map<string, Json>,
      nodes: map<string, Json>)
    requires Agrees(se.sc.fin, se.sc.vis, "", nodes, env) && TickReads(se, i, c, found, env)
      && TickInput(se.B(), se.w.text, i).Ok?
    ensures Renders(se.sc.fin, Context(se.w, nodes), se.w.text,
      TickInput(se.B(), se.w.text, i).value.entries["previous_state"], c.state)
  {
    var b := se.B();
    if i == 0 {
      LiteralRenders(se.sc.fin, "", Context(se.w, nodes), se.w.text, b.initial);
    } else {
      HoleReads(se.sc.fin, se.sc.vis, se.w, nodes, env, NameOf(TickId(b.loop), i - 1, b.chunk), "state");
    }
  }

  lemma TickInputEntries(b: Block, text: Json -> string, i: nat)
    requires TickInput(b, text, i).Ok? && (b.remaining.Some? ==> i <= b.remaining.value)
    ensures var e := TickInput(b, text, i).value;
      && e.Dict? && e.entries.Keys == TICK_KEYS
      && e.entries["iteration"] == Scalar(Num(i as real))
      && e.entries["remaining_iterations"] == Scalar(LeftJson(b.remaining, i))
      && e.entries["initial_remaining"] == Scalar(RemainingJson(b.remaining))
      && e.entries["initial_state"] == LiteralOf(b.initial)
  {
    hide OutputHole, StateEntries, LiteralOf, Checked;
  }

  lemma TickEntryRenders(se: Setting, i: nat, c: Carry, found: Option<real>, state: Json, env: map<string, Json>,
      nodes: map<string, Json>, k: string)
    requires Agrees(se.sc.fin, se.sc.vis, "", nodes, env) && TickReads(se, i, c, found, env)
      && TickInput(se.B(), se.w.text, i).Ok?
    requires Renders(se.sc.fin, Context(se.w, nodes), se.w.text, TickInput(se.B(), se.w.text, i).value.entries["state"],
      state)
    requires (se.B().remaining.Some? ==> i <= se.B().remaining.value) && k in TICK_KEYS
    ensures k in TickInput(se.B(), se.w.text, i).value.entries
    ensures Renders(se.sc.fin, Context(se.w, nodes), se.w.text, TickInput(se.B(), se.w.text, i).value.entries[k],
      TickArgs(i, LeftJson(se.B().remaining, i), RemainingJson(se.B().remaining), DeadlineJson(found), state, c.state,
        se.B().initial).fields[k])
  {
    var b, st, ctx, text := se.B(), se.sc.fin, Context(se.w, nodes), se.w.text;
    TickInputEntries(b, text, i);
    TickArgsEntries(i, LeftJson(b.remaining, i), RemainingJson(b.remaining), DeadlineJson(found), state, c.state,
      b.initial);
    hide Render, Resolve, Agrees, TickReads, Lookup, TickInput, TickArgs, Renders, LiteralOf, LeftJson, Context;
    if k == "deadline_unix" {
      TickDeadlineRenders(se, i, c, found, env, nodes);
    } else if k == "previous_state" {
      TickPreviousRenders(se, i, c, found, env, nodes);
    } else if k == "initial_state" {
      SeedRenders(st, ctx, text, b.initial);
    } else if k == "iteration" {
      ScalarRenders(st, ctx, text, Num(i as real));
    } else if k == "remaining_iterations" {
      ScalarRenders(st, ctx, text, LeftJson(b.remaining, i));
    } else if k == "initial_remaining" {
      ScalarRenders(st, ctx, text, RemainingJson(b.remaining));
    }
  }

  lemma TickInputRenders(se: Setting, i: nat, c: Carry, found: Option<real>, state: Json, env: map<string, Json>,
      nodes: map<string, Json>)
    requires Agrees(se.sc.fin, se.sc.vis, "", nodes, env) && TickReads(se, i, c, found, env)
      && TickInput(se.B(), se.w.text, i).Ok?
    requires Renders(se.sc.fin, Context(se.w, nodes), se.w.text, TickInput(se.B(), se.w.text, i).value.entries["state"],
      state)
    requires Resolve(se.sc.fin, "", TickInput(se.B(), se.w.text, i).value).Ok?
    requires se.B().remaining.Some? ==> i <= se.B().remaining.value
    ensures Render(Resolve(se.sc.fin, "", TickInput(se.B(), se.w.text, i).value).value, Context(se.w, nodes), se.w.text)
         == TickArgs(i, LeftJson(se.B().remaining, i), RemainingJson(se.B().remaining), DeadlineJson(found), state,
           c.state, se.B().initial)
  {
    var b, st, ctx, text := se.B(), se.sc.fin, Context(se.w, nodes), se.w.text;
    TickInputEntries(b, text, i);
    TickArgsEntries(i, LeftJson(b.remaining, i), RemainingJson(b.remaining), DeadlineJson(found), state, c.state,
      b.initial);
    hide Render, Resolve, Agrees, TickReads, Lookup, TickInput, TickArgs, Renders, LiteralOf, LeftJson, Context,
      TICK_KEYS;
    var args := TickArgs(i, LeftJson(b.remaining, i), RemainingJson(b.remaining), DeadlineJson(found), state, c.state,
      b.initial);
    var entries := TickInput(b, text, i).value.entries;
    forall k | k in entries ensures Renders(st, ctx, text, entries[k], args.fields[k]) {
      TickEntryRenders(se, i, c, found, state, env, nodes, k);
    }
    assert TickInput(b, text, i).value == Dict(entries);
    DictIs(st, entries, ctx, text, args.fields);
  }

  lemma SeedRenders(st: Build, ctx: Json, text: Json -> string, v: Json)
    ensures Renders(st, ctx, text, LiteralOf(v), v)
  {
    LiteralRenders(st, "", ctx, text, v);
  }

  /** The carry after a completed pass, and the outputs the tick adds to. */
  lemma TickRuns(se: Setting, i: nat, next: string, c: Carry, found: Option<real>, genv: map<string, Json>,
                 f: Frame, env: map<string, Json>, r: Run, n: nat)
    returns (f': Frame)
    requires Sensible(se) && i < se.B().chunk && PassEnv(se.B(), i, se.known, c, genv, env) && FrameOk(se, f, env)
    requires Counting(se.B(), i, c) && TickReads(se, i, c, found, env)
    requires TickInput(se.B(), se.w.text, i).Ok? && n + 1 <= se.limit
    requires Holds(se.sc.fin, NameOf(TickId(se.Loop()), i, se.B().chunk),
      Helper(TickInput(se.B(), se.w.text, i).value, next), "")
    ensures var c' := Advance(se.w, se.Loop(), c, found, genv, r.clock);
      && FrameOk(se, f', env[NameOf(TickId(se.Loop()), i, se.B().chunk) := TickOutput(c')])
      && Walk(se.g, se.w, se.limit, NameOf(TickId(se.Loop()), i, se.B().chunk), f, r, n)
         == Walk(se.g, se.w, se.limit, next, f', Stepped(r), n + 1)
  {
    hide Walk, ResolveAll, Agrees, PassEnv, PassApart, Distinct, LaidOut, TickReads, AdvanceChain, Resolve, Render,
      Retain, TickInput;
    var b, st, vis := se.B(), se.sc.fin, se.sc.vis;
    var tick, input := NameOf(TickId(se.Loop()), i, b.chunk), TickInput(b, se.w.text, i).value;
    var state := GivenState(se.w, se.Loop(), c, genv);
    var c' := Advance(se.w, se.Loop(), c, found, genv, r.clock);
    var args := TickArgs(i, LeftJson(b.remaining, i), RemainingJson(b.remaining), DeadlineJson(found), state, c.state,
      b.initial);
    PassIsApart(se, i);
    StateRenders(se, i, c, genv, env, f.nodes);
    if Resolve(st, "", input).Ok? { TickInputRenders(se, i, c, found, state, env, f.nodes); }
    TickAdvances(i, b.remaining, found, state, c.state, b.initial, r.clock, c');
    f' := HelperRuns(st, se.g, vis, se.w, se.limit, tick, input, next, f, env, r, n, args, TickOutput(c'));
  }

  // ---------------------------------------------------------------- after the tick

  /** What holds when a run leaves the loop after pass k. */
  ghost predicate ExitState(se: Setting, k: int, c: Carry, outer: map<string, Json>, env: map<string, Json>)
  {
    var b := se.B();
    && -1 <= k < b.chunk
    && (if k == -1 then Written(b, c) else !c.first)
    && (forall x | x in se.known - LoopIds(b.loop) :: Get(env, x) == Get(outer, x))
    && (k >= 0 ==> forall x | x in IdsOf(b.loop.body) :: Get(env, NameOf(x, k, b.chunk)) == Get(c.outputs, x))
    && (k >= 0 ==> Get(env, NameOf(TickId(b.loop), k, b.chunk)) == TickOutput(c))
    && Within(se, env)
  }

  lemma UncheckedGoesOn(b: Block, i: nat, c: Carry, c': Carry, now: real)
    requires SaneBlock(b) && Counting(b, i, c) && i < b.chunk
    requires c'.remaining == Decrement(c.remaining) && (c'.done <==> c'.remaining == Some(0) || Past(c'.deadline, now))
    requires !Timed(b.loop) ==> c'.deadline.None?
    ensures Unchecked(b, i) ==> !c'.done
    ensures !Timed(b.loop) && c'.done ==> i == b.chunk - 1
  {
  }

  /** Behind the tick: straight on, or through the check to an exit. */
  lemma CheckRuns(se: Setting, i: nat, nxt: string, c': Carry, f: Frame, env: map<string, Json>, r: Run, n: nat)
    returns (target: string)
    requires ResolveAll(se.sc.fin) == Ok(se.g) && FrameOk(se, f, env) && CheckPlaced(se.sc, i, nxt) && n + 1 <= se.limit
    requires NameOf(TickId(se.Loop()), i, se.B().chunk) in se.sc.vis
      && TopLevel(se.sc.fin, NameOf(TickId(se.Loop()), i, se.B().chunk))
    requires Get(env, NameOf(TickId(se.Loop()), i, se.B().chunk)) == TickOutput(c')
    requires !Timed(se.Loop()) && c'.done ==> i == se.B().chunk - 1
    ensures Walk(se.g, se.w, se.limit, Checked(se.B(), "_check", i), f, r, n)
      == Walk(se.g, se.w, se.limit, target, f, r, n + 1)
    ensures if c'.done then ExitPlaced(se.sc, i, target) else target == nxt
  {
    hide Walk, ResolveAll, Agrees;
    var b := se.B();
    var tick := Checked(b, "_tick", i);
    var exit :|
      && Holds(se.sc.fin, Checked(b, "_check", i), Switch([Case(DoneTest(tick), exit)], nxt), "")
      && if Timed(b.loop) then ExitPlaced(se.sc, i, exit) else exit == se.sc.l.after;
    DoneTestRuns(se.sc.fin, se.g, se.sc.vis, se.w, se.limit, Checked(b, "_check", i), tick, exit, nxt, f, env, r, n,
      c'.done);
    target := if c'.done then exit else nxt;
  }

  /** From the tick to the next pass, the end of the block, or an exit. */
  lemma TailRuns(se: Setting, i: nat, nxt: string, c: Carry, found: Option<real>, genv: map<string, Json>,
                 f: Frame, env: map<string, Json>, r: Run, n: nat)
    returns (f': Frame, target: string, n': nat)
    requires Sensible(se) && i < se.B().chunk && PassEnv(se.B(), i, se.known, c, genv, env) && FrameOk(se, f, env)
    requires Counting(se.B(), i, c) && TickReads(se, i, c, found, env) && TickPlaced(se.sc, i, nxt) && n + 2 <= se.limit
    requires !Timed(se.Loop()) ==> found.None?
    ensures n <= n' <= n + 2
    ensures var c' := Advance(se.w, se.Loop(), c, found, genv, r.clock);
      && FrameOk(se, f', env[NameOf(TickId(se.Loop()), i, se.B().chunk) := TickOutput(c')])
      && Walk(se.g, se.w, se.limit, Checked(se.B(), "_tick", i), f, r, n)
        == Walk(se.g, se.w, se.limit, target, f', Stepped(r), n')
      && if c'.done then ExitPlaced(se.sc, i, target) else target == nxt
  {
    hide Walk, ResolveAll, Agrees, PassEnv, Distinct, LaidOut, TickReads, TickInput, CheckPlaced, ExitPlaced, Retain;
    var b, tick := se.B(), Checked(se.B(), "_tick", i);
    var c' := Advance(se.w, se.Loop(), c, found, genv, r.clock);
    UncheckedGoesOn(b, i, c, c', r.clock);
    if Unchecked(b, i) {
      f' := TickRuns(se, i, nxt, c, found, genv, f, env, r, n);
      target, n' := nxt, n + 1;
    } else {
      f' := TickRuns(se, i, Checked(b, "_check", i), c, found, genv, f, env, r, n);
      NamesAreApart(se, TickId(se.Loop()), i, TickId(se.Loop()), i);
      target := CheckRuns(se, i, nxt, c', f', env[tick := TickOutput(c')], Stepped(r), n + 1);
      n' := n + 2;
    }
  }
}
