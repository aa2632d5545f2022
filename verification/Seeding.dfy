/** The passes of a compiled block, one by one, are safe to enter with what earlier passes leave;
    a first pass needs nothing, because its references became seeds. */
module Seeding {
  import opened Json
  import opened Plan
  import opened Graph
  import opened Meaning
  import opened Compiler
  import opened Discipline
  import opened InitCheck
  import opened Moving
  import opened Shifting
  import opened Exiting
  import opened Realization
  import opened Growth
  import opened Copies
  import opened Placement
  import opened Distinctness
  import opened PassWalk
  import opened Visibility
  import opened Leaving
  import opened Timeliness

  // ---------------------------------------------------------------- a compiled block

  /** A scene, the ids of the steps before the repeat that are surely over, all plan ids, and
      the after-steps. */
  datatype Ground = Ground(sc: Scene, early: set<string>, all: set<string>, tail: seq<Op>) {
    function B(): Block { sc.l.block }
    function Loop(): Repeat { sc.l.block.loop }
    function Nodes(): map<string, Draft> { sc.fin.nodes }
  }

  ghost predicate Grounded(gr: Ground)
  {
    var sc, b, loop := gr.sc, gr.B(), gr.Loop();
    && LaidOut(sc.l, sc.base) && Later(sc.base, sc.fin) && sc.vis == Plainly(sc.fin)
    && Distinct(sc.l, sc.base, sc.fin, PairsFrom(loop, 0, b.chunk)) && sc.l.tail !! ROOTS
    && RealizesAll(sc.base, Plainly(sc.base), gr.tail, sc.l.after, END, "")
    && RealizesAll(sc.fin, sc.vis, gr.tail, sc.l.after, END, "")
    && AllPlain(gr.tail) && AllPlain(loop.body) && ProperIds(loop, gr.all) && gr.early + IdsOf(gr.tail) <= gr.all
    && gr.early !! sc.base.ids && gr.early !! LoopIds(loop) && IdsOf(gr.tail) !! LoopIds(loop)
    && OrderlyAll(loop.body, gr.early + {TickId(loop)}, Some(SureOf(loop.body)))
    && (forall i | 0 <= i < |loop.state| :: ExprOk(loop.state[i].value, gr.early + SureOf(loop.body) + {TickId(loop)}))
    && OrderlyAll(gr.tail, gr.early + Over(loop, b.remaining), None)
  }

  /** Ids of a pass whose outputs exist once it is over. */
  function Certain(loop: Repeat): set<string>
  {
    SureOf(loop.body) + {TickId(loop)} + (if Timed(loop) then {ClockId(loop)} else {})
  }

  function NamesAt(b: Block, ids: set<string>, i: nat): set<string> { set x | x in ids :: NameOf(x, i, b.chunk) }

  /** What there is when pass i starts. */
  function Before(gr: Ground, i: nat): set<string>
  {
    gr.early + if i > 0 then NamesAt(gr.B(), Certain(gr.Loop()), i - 1) else {}
  }

  lemma CertainAreNames(loop: Repeat)
    ensures Certain(loop) <= LoopNames(loop) && SureOf(loop.body) <= IdsOf(loop.body)
  {
    SureAreNamed(loop.body);
  }

  lemma NameIsNew(gr: Ground, x: string, k: nat)
    requires Grounded(gr) && x in LoopNames(gr.Loop()) && k < gr.B().chunk
    ensures NameOf(x, k, gr.B().chunk) !in gr.sc.l.tail
  {
    hide RealizesAll, OrderlyAll, AllPlain;
    var p := (x, k);
    assert p in PairsFrom(gr.Loop(), 0, gr.B().chunk);
    assert NameAt(gr.B(), p) == NameOf(x, k, gr.B().chunk);
  }

  lemma EndIsSafe(nodes: map<string, Draft>, got: set<string>)
    requires END !in nodes
    ensures Safe(nodes, END, got)
  {
  }

  /** The after-steps themselves are safe once the block's last pass is over. */
  lemma TailIsSafe(gr: Ground, got: set<string>)
    requires Grounded(gr) && gr.early + Over(gr.Loop(), gr.B().remaining) <= got
    ensures Safe(gr.Nodes(), gr.sc.l.after, got)
  {
    hide Safe, RealizesAll, OrderlyAll, Distinct;
    EndIsSafe(gr.Nodes(), gr.early + Over(gr.Loop(), gr.B().remaining) + SureOf(gr.tail));
    OpsSafe(gr.sc.fin, gr.sc.vis, gr.tail, gr.sc.l.after, END, gr.early + Over(gr.Loop(), gr.B().remaining));
    SafeMore(gr.Nodes(), gr.sc.l.after, gr.early + Over(gr.Loop(), gr.B().remaining), got);
  }

  lemma LastNames(gr: Ground)
    requires gr.B().chunk > 0
    ensures Over(gr.Loop(), gr.B().remaining) <= NamesAt(gr.B(), Certain(gr.Loop()), gr.B().chunk - 1)
  {
    var b, loop := gr.B(), gr.Loop();
    forall x | x in Over(loop, b.remaining) ensures x in NamesAt(b, Certain(loop), b.chunk - 1) {
      assert NameOf(x, b.chunk - 1, b.chunk) == x && x in Certain(loop);
    }
  }

  lemma CopyReads(gr: Ground, k: int)
    requires Grounded(gr) && -1 <= k < gr.B().chunk - 1 && Timed(gr.Loop())
    ensures ExitGot(gr.sc.l, k, gr.early + Over(gr.Loop(), gr.B().remaining), Before(gr, k + 1))
  {
    hide RealizesAll, OrderlyAll, Distinct, AllPlain;
    var l, b, loop := gr.sc.l, gr.B(), gr.Loop();
    CertainAreNames(loop);
    if k >= 0 {
      forall x | x in (gr.early + Over(loop, b.remaining)) * LoopIds(loop)
        ensures ExitId(l, k, NameOf(x, k, b.chunk)) in Before(gr, k + 1) {
        NameIsNew(gr, x, k);
        assert x in Certain(loop);
      }
    }
  }

  /** Whatever pass a timed block is left after, the after-steps behind that exit find what they
      read: that pass's outputs, or seeds. */
  lemma ExitIsSafe(gr: Ground, k: int, target: string)
    requires Grounded(gr) && ExitPlaced(gr.sc, k, target) && -1 <= k < gr.B().chunk && Timed(gr.Loop())
    ensures Safe(gr.Nodes(), target, Before(gr, k + 1))
  {
    hide Safe, RealizesAll, OrderlyAll, Distinct, Certain, AllPlain;
    if k == gr.B().chunk - 1 {
      LastNames(gr);
      TailIsSafe(gr, Before(gr, k + 1));
    } else {
      CopyStands(gr.sc, gr.tail, k, target);
      CopyReads(gr, k);
      var tail' := ExitOps(gr.sc.l, k, gr.tail).value;
      assert gr.early + Over(gr.Loop(), gr.B().remaining) <= gr.all by { OverIsKnown(gr); }
      ExitOrderlyAll(gr.sc.l, k, gr.all, gr.early + Over(gr.Loop(), gr.B().remaining), Before(gr, k + 1), gr.tail);
      EndIsSafe(gr.Nodes(), Before(gr, k + 1) + SureOf(tail'));
      OpsSafe(gr.sc.fin, gr.sc.vis, tail', target, END, Before(gr, k + 1));
    }
  }

  lemma OverIsKnown(gr: Ground)
    requires Grounded(gr)
    ensures Over(gr.Loop(), gr.B().remaining) <= gr.all
      && gr.early + SureOf(gr.Loop().body) + {TickId(gr.Loop())} <= gr.all
  {
    hide RealizesAll, OrderlyAll, Distinct, AllPlain;
    SureAreNamed(gr.Loop().body);
  }

  // ---------------------------------------------------------------- one pass

  lemma HoleRefs(node: string, key: string)
    ensures ExprRefs(OutputHole(node, key)) == {node}
  {
    var pieces := [Hole(["nodes", node] + OUTPUT + [key])];
    assert PathNode(pieces[0].path) == {node};
  }

  lemma LiteralRefs(v: Json)
    ensures ExprRefs(LiteralOf(v)) == {}
  {
  }

  lemma {:induction false} StateRefs(s: Shift, text: Json -> string, l: Layout, known: set<string>, got: set<string>,
      entries: seq<Retained>)
    requires s.index >= 0 && l == Stay(s.block, text) && Lands(l, s, None, known, got)
      && StateEntries(s, text, entries).Ok?
    requires forall i | 0 <= i < |entries| :: ExprOk(entries[i].value, known)
    ensures forall k | k in StateEntries(s, text, entries).value ::
      ExprRefs(StateEntries(s, text, entries).value[k]) <= got
    decreases entries
  {
    if entries != [] {
      var last := entries[|entries| - 1].value;
      StateRefs(s, text, l, known, got, entries[..|entries| - 1]);
      MovedExprOk(l, s, text, None, known, got, last);
      RenameNothing(l, s.index, RewriteExpr(s, text, None, last).value);
      OkRefs(RewriteExpr(s, text, None, last).value, got);
    }
  }

  lemma DictRefs(entries: map<string, Expr>, got: set<string>)
    requires forall k | k in entries :: ExprRefs(entries[k]) <= got
    ensures ExprRefs(Dict(entries)) <= got
  {
  }

  /** What a tick reads: its clock, the previous tick, and what the retained state names. */
  lemma TickRefs(b: Block, text: Json -> string, i: nat, known: set<string>, got: set<string>)
    requires TickInput(b, text, i).Ok? && Lands(Stay(b, text), Shift(b, i, false), None, known, got)
    requires forall j | 0 <= j < |b.loop.state| :: ExprOk(b.loop.state[j].value, known)
    requires Timed(b.loop) ==> Checked(b, "_clock", i) in got
    requires i > 0 ==> Checked(b, "_tick", i - 1) in got
    ensures ExprRefs(TickInput(b, text, i).value) <= got
  {
    hide Lands, LiteralOf, OutputHole, Checked, StateEntries;
    StateRefs(Shift(b, i, false), text, Stay(b, text), known, got, b.loop.state);
    var state := StateEntries(Shift(b, i, false), text, b.loop.state).value;
    DictRefs(state, got);
    LiteralRefs(b.initial);
    HoleRefs(Checked(b, "_clock", i), "deadline_unix");
    if i > 0 { HoleRefs(Checked(b, "_tick", i - 1), "state"); }
    var entries := TickInput(b, text, i).value.entries;
    forall k | k in entries ensures ExprRefs(entries[k]) <= got {
    }
    DictRefs(entries, got);
  }

  lemma ClockRefs(b: Block, i: nat, got: set<string>)
    requires i > 0 ==> Checked(b, "_clock", i - 1) in got
    ensures ExprRefs(ClockInput(b, i)) <= got
  {
    hide OutputHole, Checked;
    if i > 0 { HoleRefs(Checked(b, "_clock", i - 1), "deadline_unix"); }
    var entries := ClockInput(b, i).entries;
    forall k | k in entries ensures ExprRefs(entries[k]) <= got {
    }
    DictRefs(entries, got);
  }

  /** What there is when the body of pass i starts, and when its tick does. */
  function Within(gr: Ground, i: nat): set<string>
  {
    Before(gr, i) + if Timed(gr.Loop()) then {Checked(gr.B(), "_clock", i)} else {}
  }

  function Ticking(gr: Ground, i: nat): set<string>
  {
    Within(gr, i) + NamesAt(gr.B(), SureOf(gr.Loop().body), i)
  }

  lemma PassEnds(gr: Ground, i: nat)
    ensures Before(gr, i + 1) <= Ticking(gr, i) + {Checked(gr.B(), "_tick", i)}
  {
    var b, loop := gr.B(), gr.Loop();
    forall x | x in Certain(loop) ensures NameOf(x, i, b.chunk) in Ticking(gr, i) + {Checked(b, "_tick", i)} {
      if x in SureOf(loop.body) { assert NameOf(x, i, b.chunk) in NamesAt(b, SureOf(loop.body), i); }
    }
  }

  lemma TickReads(gr: Ground, i: nat)
    requires Grounded(gr)
    ensures PassGot(gr.B(), i, gr.early + SureOf(gr.Loop().body) + {TickId(gr.Loop())}, {}, Ticking(gr, i))
    ensures i > 0 ==> Checked(gr.B(), "_tick", i - 1) in Ticking(gr, i)
  {
    hide RealizesAll, OrderlyAll, Distinct, AllPlain;
    var b, loop := gr.B(), gr.Loop();
    var known := gr.early + SureOf(loop.body) + {TickId(loop)};
    SureAreNamed(loop.body);
    forall x | x in known * IdsOf(loop.body) ensures NameOf(x, i, b.chunk) in Ticking(gr, i) {
      assert x in SureOf(loop.body);
      assert NameOf(x, i, b.chunk) in NamesAt(b, SureOf(loop.body), i);
    }
    if i > 0 {
      assert TickId(loop) in Certain(loop);
      assert NameOf(TickId(loop), i - 1, b.chunk) in NamesAt(b, Certain(loop), i - 1);
    }
  }

  lemma BodyReads(gr: Ground, i: nat)
    requires Grounded(gr)
    ensures PassGot(gr.B(), i, gr.early + {TickId(gr.Loop())}, SureOf(gr.Loop().body), Within(gr, i))
    ensures i > 0 && Timed(gr.Loop()) ==> Checked(gr.B(), "_clock", i - 1) in Before(gr, i)
  {
    hide RealizesAll, OrderlyAll, Distinct, AllPlain;
    var b, loop := gr.B(), gr.Loop();
    if i > 0 {
      forall x | x in Certain(loop) ensures NameOf(x, i - 1, b.chunk) in Before(gr, i) {
      }
    }
  }

  /** The bookkeeping behind the body of pass i. */
  lemma TickIsSafe(gr: Ground, i: nat, nxt: string)
    requires Grounded(gr) && i < gr.B().chunk && TickPlaced(gr.sc, i, nxt) && Safe(gr.Nodes(), nxt, Before(gr, i + 1))
    ensures Safe(gr.Nodes(), Checked(gr.B(), "_tick", i), Ticking(gr, i))
  {
    hide Safe, RealizesAll, OrderlyAll, Distinct, AllPlain, TickInput, Lands, PassGot, Before, Ticking, Within, Later,
      LaidOut;
    var b, loop := gr.B(), gr.Loop();
    var known := gr.early + SureOf(loop.body) + {TickId(loop)};
    var tick, check := Checked(b, "_tick", i), Checked(b, "_check", i);
    var got := Ticking(gr, i);
    TickReads(gr, i);
    OverIsKnown(gr);
    PassReads(b, gr.sc.l.text, i, gr.all, known, {}, got, None);
    assert Readable(None, known, Some({})) == known;
    ClockIsThere(gr, i);
    TickRefs(b, gr.sc.l.text, i, known, got);
    PassEnds(gr, i);
    SafeMore(gr.Nodes(), nxt, Before(gr, i + 1), got + {tick});
    if !Unchecked(b, i) { CheckIsSafe(gr, i, nxt); }
    TickNode(gr, i, nxt);
    SafeHere(gr.Nodes(), tick, got);
  }

  lemma ClockIsThere(gr: Ground, i: nat)
    ensures Timed(gr.Loop()) ==> Checked(gr.B(), "_clock", i) in Ticking(gr, i)
  {
  }

  lemma TickNode(gr: Ground, i: nat, nxt: string)
    requires TickPlaced(gr.sc, i, nxt)
    ensures var tick := Checked(gr.B(), "_tick", i);
      && tick in gr.Nodes() && DraftRefs(gr.Nodes()[tick]) == ExprRefs(TickInput(gr.B(), gr.sc.l.text, i).value)
      && Leaves(gr.Nodes()[tick], tick) == {tick}
      && Targeted(gr.Nodes()[tick]) == [if Unchecked(gr.B(), i) then nxt else Checked(gr.B(), "_check", i)]
  {
    hide TickInput;
  }

  lemma CheckIsSafe(gr: Ground, i: nat, nxt: string)
    requires Grounded(gr) && i < gr.B().chunk && !Unchecked(gr.B(), i) && CheckPlaced(gr.sc, i, nxt)
    requires Safe(gr.Nodes(), nxt, Ticking(gr, i) + {Checked(gr.B(), "_tick", i)})
    ensures Safe(gr.Nodes(), Checked(gr.B(), "_check", i), Ticking(gr, i) + {Checked(gr.B(), "_tick", i)})
  {
    hide Safe, RealizesAll, OrderlyAll, Distinct, AllPlain, Before, Ticking, Within, Later, LaidOut;
    var b := gr.B();
    var tick, check := Checked(b, "_tick", i), Checked(b, "_check", i);
    var got := Ticking(gr, i) + {tick};
    var target :| Holds(gr.sc.fin, check, Switch([Case(DoneTest(tick), target)], nxt), "")
      && if Timed(b.loop) then ExitPlaced(gr.sc, i, target) else target == gr.sc.l.after;
    PassEnds(gr, i);
    if Timed(b.loop) {
      ExitIsSafe(gr, i, target);
      SafeMore(gr.Nodes(), target, Before(gr, i + 1), got);
    } else {
      LeftIsSafe(gr, i);
      SafeMore(gr.Nodes(), target, Before(gr, i + 1), got);
    }
    SwitchSafe(gr.sc.fin, check, DoneTest(tick), target, nxt, got);
  }

  /** An untimed repeat is left after its last pass, unless it is endless. */
  lemma LeftIsSafe(gr: Ground, i: nat)
    requires Grounded(gr) && i < gr.B().chunk && !Unchecked(gr.B(), i) && !Timed(gr.Loop())
    ensures Safe(gr.Nodes(), gr.sc.l.after, Before(gr, i + 1))
  {
    hide Safe, RealizesAll, OrderlyAll, Distinct, AllPlain, Certain;
    if gr.B().remaining.Some? { LastNames(gr); }
    TailIsSafe(gr, Before(gr, i + 1));
  }

  lemma BodyIsSafe(gr: Ground, i: nat, entry: string)
    requires Grounded(gr) && BodyPlaced(gr.sc, i, entry)
      && Safe(gr.Nodes(), Checked(gr.B(), "_tick", i), Ticking(gr, i))
    ensures Safe(gr.Nodes(), entry, Within(gr, i))
  {
    hide Safe, RealizesAll, Distinct, AllPlain, PassGot, Before, Within, Later, LaidOut;
    var b, loop := gr.B(), gr.Loop();
    BodyReads(gr, i);
    OverIsKnown(gr);
    SureAreNamed(loop.body);
    PassOrderlyAll(b, gr.sc.l.text, i, gr.all, gr.early + {TickId(loop)}, SureOf(loop.body), Within(gr, i), loop.body);
    var body := BodyOf(gr.sc.l, i).value;
    SafeMore(gr.Nodes(), Checked(b, "_tick", i), Ticking(gr, i), Within(gr, i) + SureOf(body));
    OpsSafe(gr.sc.fin, gr.sc.vis, body, entry, Checked(b, "_tick", i), Within(gr, i));
  }

  lemma FrontIsSafe(gr: Ground, i: nat, entry: string, first: string)
    requires Grounded(gr) && i < gr.B().chunk && ClockPlaced(gr.sc, i) && FrontPlaced(gr.sc, i, entry, first)
    requires Safe(gr.Nodes(), entry, Within(gr, i))
    ensures Safe(gr.Nodes(), first, Before(gr, i))
  {
    hide Safe, RealizesAll, OrderlyAll, Distinct, AllPlain, Before, ClockInput, Later, LaidOut;
    var b := gr.B();
    if !Timed(b.loop) {
      assert Within(gr, i) == Before(gr, i);
    } else {
      var expired := Checked(b, "_expired", i);
      var target :| Holds(gr.sc.fin, expired, Switch([Case(DoneTest(first), target)], entry), "")
        && ExitPlaced(gr.sc, i - 1, target);
      ExitIsSafe(gr, i - 1, target);
      SafeMore(gr.Nodes(), target, Before(gr, i), Within(gr, i));
      SwitchSafe(gr.sc.fin, expired, DoneTest(first), target, entry, Within(gr, i));
      BodyReads(gr, i);
      ClockRefs(b, i, Before(gr, i));
      assert Within(gr, i) == Before(gr, i) + {first};
      SafeHere(gr.Nodes(), first, Before(gr, i));
    }
  }

  lemma PassIsSafe(gr: Ground, i: nat, arrival: string, nxt: string)
    requires Grounded(gr) && i < gr.B().chunk && PassPlaced(gr.sc, i, arrival, nxt)
      && Safe(gr.Nodes(), nxt, Before(gr, i + 1))
    ensures Safe(gr.Nodes(), arrival, Before(gr, i))
  {
    hide Safe, Grounded, TickPlaced, ClockPlaced, BodyPlaced, FrontPlaced, Before, Within, Ticking;
    var entry, first :|
      && TickPlaced(gr.sc, i, nxt) && ClockPlaced(gr.sc, i) && BodyPlaced(gr.sc, i, entry)
      && FrontPlaced(gr.sc, i, entry, first) && PausePlaced(gr.sc, i, first, arrival);
    TickIsSafe(gr, i, nxt);
    BodyIsSafe(gr, i, entry);
    FrontIsSafe(gr, i, entry, first);
    if i > 0 {
      assert Before(gr, i) + {} == Before(gr, i);
      SafeHere(gr.Nodes(), arrival, Before(gr, i));
    }
  }

  lemma {:induction false} PassesAreSafe(gr: Ground, i: nat, arrival: string, nxt: string)
    requires Grounded(gr) && i <= gr.B().chunk && PassesPlaced(gr.sc, i, gr.B().chunk, arrival, nxt)
    requires Safe(gr.Nodes(), nxt, Before(gr, gr.B().chunk))
    ensures Safe(gr.Nodes(), arrival, Before(gr, i))
    decreases gr.B().chunk - i
  {
    hide Safe, Grounded, PassPlaced, Before;
    if i < gr.B().chunk {
      var mid :| PassPlaced(gr.sc, i, arrival, mid) && PassesPlaced(gr.sc, i + 1, gr.B().chunk, mid, nxt);
      PassesAreSafe(gr, i + 1, mid, nxt);
      PassIsSafe(gr, i, arrival, mid);
    }
  }
}
