/** Plans without a repeat: simulating the compiled graph is evaluating the plan. */
module LoopFree {
  import opened Json
  import opened Plan
  import opened Graph
  import opened Meaning
  import opened Compiler
  import opened Discipline
  import opened Agreement
  import opened Realization
  import opened Construction

  /** References name explicit ids or data roots. */
  predicate WellFormed(steps: seq<Op>)
  {
    OpsOk(steps, IdsOf(steps))
  }

  lemma EmptyIsSound()
    ensures Sound(EMPTY)
  {
  }

  lemma DraftRealizes(steps: seq<Op>, entry: string, st: Build)
    requires CompileOps(steps, END, "", EMPTY) == Ok((entry, st))
    ensures RealizesAll(st, IdsOf(steps), steps, entry, END, "") && Sound(st)
  {
    EmptyIsSound();
    CompileAllExtends(steps, END, "", EMPTY);
    CompileRealizesAll(steps, END, "", EMPTY, st, IdsOf(steps));
  }

  /** The walk fails as the plan's evaluation fails, or ends with the same run and with node results
      that agree with the evaluator's outputs. */
  ghost predicate RunsAs(st: Build, vis: set<string>, out: EOutcome, walked: Outcome, f: Frame, n: nat)
  {
    match out
    case EFailed(e, r') => walked == Failed(e, r', n)
    case EDone(ef, r') => walked == Done(f, r', n) && Agrees(st, vis, "", f.nodes, ef.env)
  }

  /** Same calls with the same arguments at the same times, same final clock, same
      compensations and same failure; every operation visible at top level, branch results
      included, reads the same afterwards; no more steps than the plan has operations. */
  lemma StraightPlanMeaning(steps: seq<Op>, w: World, limit: nat, r: Run) returns (f: Frame, n: nat)
    requires Compile(Straight(steps), map[], None, w.text).Ok?
    requires WellFormed(steps) && SizeOf(steps) <= limit
    ensures n <= SizeOf(steps)
    ensures var c := Compile(Straight(steps), map[], None, w.text).value;
      RunsAs(CompileDraft(Straight(steps), map[], None, w.text).value.build, IdsOf(steps),
             EvalOps(w, Outside, steps, BLANK, r), Walk(c.graph, w, limit, c.entry, FRESH, r, 0), f, n)
  {
    var built := CompileDraft(Straight(steps), map[], None, w.text).value;
    var st, entry := built.build, built.entry;
    assert CompileOps(steps, END, "", EMPTY).Ok?;
    assert CompileOps(steps, END, "", EMPTY).value == (entry, st);
    DraftRealizes(steps, entry, st);
    FreshMatches(st, IdsOf(steps), "");
    f, n := SimulatesAll(st, ResolveAll(st).value, IdsOf(steps), w, limit, steps, entry, END, "", FRESH, BLANK, r, 0);
  }
}
