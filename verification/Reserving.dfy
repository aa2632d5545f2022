/** When compilation succeeds, as far as ids decide: exactly when the names a block reserves are
    distinct and free. Ids of the compiler's own choosing never get in the way. */
module Reserving {
  import opened Json
  import opened Plan
  import opened Graph
  import opened Meaning
  import opened Compiler
  import opened Discipline
  import opened Shifting
  import opened Placement

  // ---------------------------------------------------------------- automatic ids

  /** Looks like an id the compiler chooses for an operation without one. */
  predicate AutoLike(x: string)
  {
    |x| > 3 && x[..3] == "rs_" && AllDigits(x[3..])
  }

  /** A name a plan may give: neither empty, nor the end, nor like an automatic id. */
  predicate Sayable(x: string) { x != "" && x != END && !AutoLike(x) }

  /** Automatic ids have been counted. */
  ghost predicate Tidy(st: Build)
  {
    END !in st.ids && "" !in st.ids && forall m: nat :: "rs_" + Digits(m) in st.ids ==> m < |st.ids|
  }

  /** The ids of b are those of a, the given names, and automatic ones. */
  ghost predicate Adds(a: Build, b: Build, names: set<string>)
  {
    && Tidy(b) && a.ids <= b.ids
    && forall x | !AutoLike(x) :: x in b.ids <==> x in a.ids || x in names
  }

  lemma AddsThrough(a: Build, b: Build, c: Build, first: set<string>, second: set<string>)
    requires Adds(a, b, first) && Adds(b, c, second)
    ensures Adds(a, c, first + second)
  {
  }

  lemma AutoIsAutoLike(m: nat)
    ensures AutoLike("rs_" + Digits(m))
  {
    var x := "rs_" + Digits(m);
    assert x[..3] == "rs_" && x[3..] == Digits(m);
  }

  lemma AutoReserve(st: Build)
    requires Tidy(st)
    ensures Reserve(st, None).Ok? && Adds(st, Reserve(st, None).value.1, {})
    ensures AutoLike(Reserve(st, None).value.0)
  {
    var n := |st.ids|;
    var x := "rs_" + Digits(n);
    AutoIsAutoLike(n);
    assert x[..3] == "rs_" && END[..3] == "end";
    var b := Reserve(st, None).value.1;
    assert |b.ids| == n + 1;
    forall m: nat | "rs_" + Digits(m) in b.ids ensures m < |b.ids| {
      if "rs_" + Digits(m) == x { DigitsInjective(m, n); }
    }
  }

  lemma DigitsInjective(m: nat, n: nat)
    requires "rs_" + Digits(m) == "rs_" + Digits(n)
    ensures m == n
  {
    assert ("rs_" + Digits(m))[3..] == Digits(m) && ("rs_" + Digits(n))[3..] == Digits(n);
    DecimalRoundTrip(m);
    DecimalRoundTrip(n);
  }

  lemma NameReserve(st: Build, x: string)
    requires Tidy(st) && Sayable(x)
    ensures Reserve(st, Some(x)).Ok? <==> x !in st.ids
    ensures Reserve(st, Some(x)).Ok? ==>
      Reserve(st, Some(x)).value.0 == x && Adds(st, Reserve(st, Some(x)).value.1, {x})
  {
    if x !in st.ids {
      var b := Reserve(st, Some(x)).value.1;
      assert |b.ids| == |st.ids| + 1;
      forall m: nat | "rs_" + Digits(m) in b.ids ensures m < |b.ids| { AutoIsAutoLike(m); }
    }
  }

  /** Names the compiler derives never look automatic. */
  lemma SuffixedIsSayable(x: string, suffix: string, i: nat)
    requires x != "" && 2 <= i < |suffix| && !IsDigit(suffix[i]) && |x + suffix| > 3
    ensures Sayable(x + suffix)
  {
    var y := x + suffix;
    assert y[|x| + i] == suffix[i] && |x| + i >= 3;
    assert !IsDigit(y[3..][|x| + i - 3]);
  }

  // ---------------------------------------------------------------- operations

  /** Targets are named and raw paths start at a data root. */
  predicate WellMade(op: Op)
  {
    match op
    case Call(_, target, _, _) => target != ""
    case Wait(_, _) => true
    case Sequence(steps) => AllWellMade(steps)
    case Condition(_, when, steps, otherwise) => RawRootsOk(when) && AllWellMade(steps) && AllWellMade(otherwise)
    case Parallel(_, _) => false
  }

  predicate AllWellMade(ops: seq<Op>)
  {
    ops == [] || (WellMade(ops[0]) && AllWellMade(ops[1..]))
  }

  /** No explicit id is given twice. */
  predicate Unique(op: Op)
  {
    match op
    case Sequence(steps) => AllUnique(steps)
    case Condition(id, _, steps, otherwise) =>
      && Named(id) !! IdsOf(steps) && Named(id) !! IdsOf(otherwise) && IdsOf(steps) !! IdsOf(otherwise)
      && AllUnique(steps) && AllUnique(otherwise)
    case _ => true
  }

  predicate AllUnique(ops: seq<Op>)
  {
    ops == [] || (Unique(ops[0]) && AllUnique(ops[1..]) && Ids(ops[0]) !! IdsOf(ops[1..]))
  }

  predicate AllSayable(names: set<string>) { forall x | x in names :: Sayable(x) }

  /** What an attempt at compiling operations comes to. */
  ghost predicate Granted(st: Build, result: Result<(string, Build)>, names: set<string>, fits: bool)
  {
    && (result.Ok? <==> fits && names !! st.ids)
    && (result.Ok? ==> Adds(st, result.value.1, names) && result.value.1.exits == st.exits)
  }

  lemma {:induction false} OpGranted(op: Op, after: string, scope: string, st: Build)
    requires Tidy(st) && NoParallel(op) && AllSayable(Ids(op))
    ensures Granted(st, CompileOp(op, after, scope, st), Ids(op), WellMade(op) && Unique(op))
    decreases op, 1
  {
    hide Tidy, Adds, Sayable;
    match op
    case Call(id, target, args, undo) => LeafReserves(st, id);
    case Wait(id, seconds) => LeafReserves(st, id);
    case Sequence(steps) => OpsGranted(steps, after, scope, st);
    case Condition(_, _, _, _) => ConditionGranted(op, after, scope, st);
  }

  lemma LeafReserves(st: Build, id: Option<string>)
    requires Tidy(st) && AllSayable(Named(id))
    ensures Reserve(st, id).Ok? <==> Named(id) !! st.ids
    ensures Reserve(st, id).Ok? ==>
      Reserve(st, id).value.1.exits == st.exits && Adds(st, Reserve(st, id).value.1, Named(id))
    ensures Reserve(st, id).Ok? ==>
      forall node, scope {:trigger Add(Reserve(st, id).value.1, Reserve(st, id).value.0, node, scope)} ::
      Adds(st, Add(Reserve(st, id).value.1, Reserve(st, id).value.0, node, scope), Named(id))
  {
    match id
    case Some(x) => NameReserve(st, x);
    case None => AutoReserve(st);
  }

  /** New names are free later if they were free before and are not among those added. */
  lemma FreeLater(a: Build, b: Build, added: set<string>, names: set<string>)
    requires Adds(a, b, added) && AllSayable(names)
    ensures names !! b.ids <==> names !! a.ids && names !! added
  {
    if names !! a.ids && names !! added {
      forall x | x in names ensures x !in b.ids { assert Sayable(x); }
    }
    if names !! b.ids {
      forall x | x in names ensures x !in a.ids && x !in added { assert Sayable(x); }
    }
  }

  lemma {:induction false} ConditionGranted(op: Op, after: string, scope: string, st: Build)
    requires Tidy(st) && NoParallel(op) && AllSayable(Ids(op)) && op.Condition?
    ensures Granted(st, CompileOp(op, after, scope, st), Ids(op), WellMade(op) && Unique(op))
    decreases op, 0
  {
    hide Tidy, Adds, Sayable;
    var id, steps, otherwise := op.id, op.steps, op.otherwise;
    LeafReserves(st, id);
    if Reserve(st, id).Ok? {
      var (nid, st1) := Reserve(st, id).value;
      assert Tidy(st1) by { AddsTidy(st, st1, Named(id)); }
      FreeLater(st, st1, Named(id), IdsOf(steps));
      FreeLater(st, st1, Named(id), IdsOf(otherwise));
      OpsGranted(steps, after, scope, st1);
      if CompileOps(steps, after, scope, st1).Ok? {
        var (yes, st2) := CompileOps(steps, after, scope, st1).value;
        assert Tidy(st2) by { AddsTidy(st1, st2, IdsOf(steps)); }
        FreeLater(st1, st2, IdsOf(steps), IdsOf(otherwise));
        OpsGranted(otherwise, after, scope, st2);
        if CompileOps(otherwise, after, scope, st2).Ok? {
          var (no, st3) := CompileOps(otherwise, after, scope, st2).value;
          AddsThrough(st, st1, st2, Named(id), IdsOf(steps));
          AddsThrough(st, st2, st3, Named(id) + IdsOf(steps), IdsOf(otherwise));
          AddsNode(st, st3, Ids(op), nid, Switch([Case(op.when, yes)], no), scope);
        }
      }
    }
  }

  lemma AddsTidy(a: Build, b: Build, names: set<string>)
    requires Adds(a, b, names)
    ensures Tidy(b)
  {
  }

  lemma AddsNode(a: Build, b: Build, names: set<string>, id: string, node: Draft, scope: string)
    requires Adds(a, b, names)
    ensures Adds(a, Add(b, id, node, scope), names)
  {
  }

  lemma {:induction false} OpsGranted(ops: seq<Op>, after: string, scope: string, st: Build)
    requires Tidy(st) && NoParallels(ops) && AllSayable(IdsOf(ops))
    ensures Granted(st, CompileOps(ops, after, scope, st), IdsOf(ops), AllWellMade(ops) && AllUnique(ops))
    decreases ops, 2
  {
    hide Tidy, Adds, Sayable;
    if ops == [] {
      assert Adds(st, st, {}) by { NothingAdded(st); }
    } else {
      OpsGranted(ops[1..], after, scope, st);
      if CompileOps(ops[1..], after, scope, st).Ok? {
        var (entry, st1) := CompileOps(ops[1..], after, scope, st).value;
        assert Tidy(st1) by { AddsTidy(st, st1, IdsOf(ops[1..])); }
        FreeLater(st, st1, IdsOf(ops[1..]), Ids(ops[0]));
        OpGranted(ops[0], entry, scope, st1);
        if CompileOp(ops[0], entry, scope, st1).Ok? {
          AddsThrough(st, st1, CompileOp(ops[0], entry, scope, st1).value.1, IdsOf(ops[1..]), Ids(ops[0]));
          assert IdsOf(ops[1..]) + Ids(ops[0]) == IdsOf(ops);
        }
      }
    }
  }

  lemma NothingAdded(st: Build)
    requires Tidy(st)
    ensures Adds(st, st, {})
  {
  }

  // ---------------------------------------------------------------- rewritten bodies

  lemma {:induction false} RewrittenFits(s: Shift, text: Json -> string, op: Op)
    requires s.index >= 0 && RewriteOp(s, text, op).Ok? && NoParallel(op)
    ensures var op' := RewriteOp(s, text, op).value;
      (WellMade(op') <==> WellMade(op)) && (Unique(op') <==> Unique(op))
    decreases op, 0
  {
    match op
    case Call(_, _, _, _) =>
    case Wait(_, _) =>
    case Sequence(steps) => AllRewrittenFit(s, text, steps);
    case Condition(id, when, steps, otherwise) =>
      RootsStay(s, id, when);
      AllRewrittenFit(s, text, steps);
      AllRewrittenFit(s, text, otherwise);
      RewrittenShape(s, text, steps);
      RewrittenShape(s, text, otherwise);
      var steps', otherwise' := RewriteOps(s, text, steps).value, RewriteOps(s, text, otherwise).value;
      RenamedApart(s, IdsOf(steps), IdsOf(otherwise));
      RenamedApart(s, Named(id), IdsOf(steps));
      RenamedApart(s, Named(id), IdsOf(otherwise));
      assert Named(Renamed(s, id)) == Names(s, Named(id));
  }

  function Names(s: Shift, ids: set<string>): set<string>
    requires s.index >= 0
  {
    set x | x in ids :: NameOf(x, s.index, s.block.chunk)
  }

  /** Renaming keeps sets of ids apart, or together. */
  lemma RenamedApart(s: Shift, a: set<string>, b: set<string>)
    requires s.index >= 0
    ensures Names(s, a) !! Names(s, b) <==> a !! b
  {
    if a !! b {
      forall x, y | x in a && y in b ensures NameOf(x, s.index, s.block.chunk) != NameOf(y, s.index, s.block.chunk) {
        NameInjective(x, y, s.index, s.block.chunk);
      }
    } else {
      var x :| x in a && x in b;
      assert NameOf(x, s.index, s.block.chunk) in Names(s, a) && NameOf(x, s.index, s.block.chunk) in Names(s, b);
    }
  }

  lemma {:induction false} AllRewrittenFit(s: Shift, text: Json -> string, ops: seq<Op>)
    requires s.index >= 0 && RewriteOps(s, text, ops).Ok? && NoParallels(ops)
    ensures var ops' := RewriteOps(s, text, ops).value;
      (AllWellMade(ops') <==> AllWellMade(ops)) && (AllUnique(ops') <==> AllUnique(ops))
    decreases ops, 1
  {
    if ops != [] {
      RewrittenFits(s, text, ops[0]);
      AllRewrittenFit(s, text, ops[1..]);
      var first, rest := RewriteOp(s, text, ops[0]).value, RewriteOps(s, text, ops[1..]).value;
      assert ([first] + rest)[1..] == rest;
      RewrittenOpShape(s, text, ops[0]);
      RewrittenShape(s, text, ops[1..]);
      RenamedApart(s, Ids(ops[0]), IdsOf(ops[1..]));
    }
  }

  lemma {:induction false} RootsStay(s: Shift, owner: Option<string>, c: Cond)
    requires RewriteCond(s, owner, c).Ok?
    ensures RawRootsOk(RewriteCond(s, owner, c).value) <==> RawRootsOk(c)
    decreases c, 0
  {
    match c
    case Group(items) => AllRootsStay(s, owner, items);
    case Operator(_, args) => AllRootsStay(s, owner, args);
    case _ =>
  }

  predicate AllRootsOk(cs: seq<Cond>) { forall i | 0 <= i < |cs| :: RawRootsOk(cs[i]) }

  lemma RootsOfFirst(cs: seq<Cond>)
    requires cs != []
    ensures AllRootsOk(cs) <==> RawRootsOk(cs[0]) && AllRootsOk(cs[1..])
  {
    if RawRootsOk(cs[0]) && AllRootsOk(cs[1..]) {
      forall i | 0 <= i < |cs| ensures RawRootsOk(cs[i]) {
        if i > 0 { assert cs[i] == cs[1..][i - 1]; }
      }
    }
  }

  lemma {:induction false} AllRootsStay(s: Shift, owner: Option<string>, cs: seq<Cond>)
    requires RewriteConds(s, owner, cs).Ok?
    ensures AllRootsOk(RewriteConds(s, owner, cs).value) <==> AllRootsOk(cs)
    decreases cs, 1
  {
    if cs != [] {
      RootsStay(s, owner, cs[0]);
      AllRootsStay(s, owner, cs[1..]);
      var cs' := RewriteConds(s, owner, cs).value;
      assert cs'[1..] == RewriteConds(s, owner, cs[1..]).value;
      RootsOfFirst(cs);
      RootsOfFirst(cs');
    }
  }
}
