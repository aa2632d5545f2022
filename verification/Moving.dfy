/** Source moved into a pass, or behind an exit, means what the evaluator says it means there. */
module Moving {
  import opened Json
  import opened Plan
  import opened Graph
  import opened Meaning
  import opened Compiler
  import opened Discipline

  /** What a moved reference reads, against plain outputs. */
  function Seen(w: World, env: map<string, Json>, ref: string, path: Path): Json
  {
    Read(w, Outside, env, None, ref, path).v
  }

  /** A rewritten reference, renamed along with the after-steps if it points into them. */
  function Landing(l: Layout, s: Shift, r: Rewritten): Rewritten
    requires s.index >= -1
  {
    match r
    case Points(ref, path) => Points(ExitId(l, s.index, ref), path)
    case Seed(_) => r
  }

  predicate Same(w: World, r: Rewritten, reading: Reading, env': map<string, Json>)
  {
    match r
    case Points(ref, path) => reading == Live(Seen(w, env', ref, path))
    case Seed(v) => reading == Seeded(v, true)
  }

  predicate Reads(w: World, l: Layout, s: Shift, owner: Option<string>, look: Outlook,
                  env: map<string, Json>, env': map<string, Json>, ref: string, path: Path)
    requires s.index >= -1
  {
    var r := RewriteRef(s, owner, ref, path);
    r.Ok? ==> Same(w, Landing(l, s, r.value), Read(w, look, env, owner, ref, path), env')
  }

  /** Every reference an expression may make lands where the evaluator reads. */
  ghost predicate Faithful(w: World, l: Layout, s: Shift, owner: Option<string>, known: set<string>, look: Outlook,
                           env: map<string, Json>, env': map<string, Json>)
    requires s.index >= -1
  {
    forall ref, path | (ref in ROOTS || ref in known) && !Continued(ref, path) ::
      Reads(w, l, s, owner, look, env, env', ref, path)
  }

  // ---------------------------------------------------------------- expressions

  lemma LiteralMeans(w: World, look: Outlook, env: map<string, Json>, owner: Option<string>, v: Json)
    ensures EvalExpr(w, look, env, owner, LiteralOf(v)) == v
    ensures LiteralOf(v).Scalar? || LiteralOf(v).Literal? || LiteralOf(v).Words?
  {
    if v.Str? && !NeedsWrapper(v) {
      assert Fill([Text(v.s)], Context(w, map[])) == [Spoken(v.s)];
      assert Speak(w.text, [Spoken(v.s)]) == v.s + Speak(w.text, []);
      assert [Spoken(v.s)][1..] == [] && DropEmpty([Spoken(v.s)]) == if v.s == "" then [] else [Spoken(v.s)];
    }
  }

  lemma MovedRefMeans(w: World, l: Layout, s: Shift, owner: Option<string>, known: set<string>, look: Outlook,
                      env: map<string, Json>, env': map<string, Json>, owner': Option<string>, ref: string, path: Path)
    requires s.index >= -1 && Faithful(w, l, s, owner, known, look, env, env')
    requires (ref in ROOTS || ref in known) && !Continued(ref, path)
    requires RewriteExpr(s, w.text, owner, Ref(ref, path)).Ok?
    ensures EvalExpr(w, Outside, env', owner',
      RenameExpr(l, s.index, RewriteExpr(s, w.text, owner, Ref(ref, path)).value))
         == Read(w, look, env, owner, ref, path).v
  {
    assert Reads(w, l, s, owner, look, env, env', ref, path);
    var r := RewriteRef(s, owner, ref, path).value;
    if r.Seed? { LiteralMeans(w, Outside, env', owner', r.v); }
  }

  lemma MovedVarMeans(w: World, l: Layout, s: Shift, owner: Option<string>, known: set<string>, look: Outlook,
                      env: map<string, Json>, env': map<string, Json>, owner': Option<string>, ref: string, path: Path)
    requires s.index >= -1 && Faithful(w, l, s, owner, known, look, env, env')
    requires (ref in ROOTS || ref in known) && !Continued(ref, path)
    requires RewriteCond(s, owner, Var(To(ref, path))).Ok?
    ensures Decide(w, RenameCond(l, s.index, RewriteCond(s, owner, Var(To(ref, path))).value),
      EvalOperand(w, Outside, env', owner'))
         == EvalOperand(w, look, env, owner)(To(ref, path))
  {
    assert Reads(w, l, s, owner, look, env, env', ref, path);
  }

  lemma {:induction false} MovedExprMeans(w: World, l: Layout, s: Shift, owner: Option<string>, known: set<string>,
      look: Outlook,
                                          env: map<string, Json>, env': map<string, Json>, owner': Option<string>,
                                            e: Expr)
    requires s.index >= -1 && Faithful(w, l, s, owner, known, look, env, env')
    requires ExprOk(e, known) && PlainExpr(e) && RewriteExpr(s, w.text, owner, e).Ok?
    ensures EvalExpr(w, Outside, env', owner', RenameExpr(l, s.index, RewriteExpr(s, w.text, owner, e).value))
         == EvalExpr(w, look, env, owner, e)
    decreases e, 0
  {
    match e
    case Ref(ref, path) => MovedRefMeans(w, l, s, owner, known, look, env, env', owner', ref, path);
    case List(items) =>
      forall i | 0 <= i < |items|
        ensures EvalExpr(w, Outside, env', owner',
          RenameExpr(l, s.index, RewriteExpr(s, w.text, owner, items[i]).value))
             == EvalExpr(w, look, env, owner, items[i])
      {
        MovedExprMeans(w, l, s, owner, known, look, env, env', owner', items[i]);
      }
      MovedListMeans(w, l, s, owner, look, env, env', owner', items);
    case Dict(entries) =>
      var target := MovedEntries(l, s, w.text, owner, entries);
      forall k | k in entries
        ensures EvalExpr(w, Outside, env', owner', target[k]) == EvalExpr(w, look, env, owner, entries[k])
      {
        MovedExprMeans(w, l, s, owner, known, look, env, env', owner', entries[k]);
      }
      EntriesAgree(w, look, env, env', owner, owner', entries, target);
    case Template(parts) => MovedPartsMean(w, l, s, owner, known, look, env, env', owner', parts);
    case _ =>
  }

  lemma MovedListMeans(w: World, l: Layout, s: Shift, owner: Option<string>, look: Outlook,
                       env: map<string, Json>, env': map<string, Json>, owner': Option<string>, items: seq<Expr>)
    requires s.index >= -1 && RewriteExpr(s, w.text, owner, List(items)).Ok?
    requires forall i | 0 <= i < |items| ::
      EvalExpr(w, Outside, env', owner', RenameExpr(l, s.index, RewriteExpr(s, w.text, owner, items[i]).value))
        == EvalExpr(w, look, env, owner, items[i])
    ensures EvalExpr(w, Outside, env', owner', RenameExpr(l, s.index, RewriteExpr(s, w.text, owner, List(items)).value))
         == EvalExpr(w, look, env, owner, List(items))
  {
    var target := MovedItems(l, s, w.text, owner, items);
    var a := EvalList(w, Outside, env', owner', target);
    var b := EvalList(w, look, env, owner, items);
    hide EvalExpr, RenameExpr, RewriteExpr;
    assert a == b;
  }

  lemma MovedItems(l: Layout, s: Shift, text: Json -> string, owner: Option<string>, items: seq<Expr>)
    returns (target: seq<Expr>)
    requires s.index >= -1 && RewriteExpr(s, text, owner, List(items)).Ok?
    ensures |target| == |items| && forall i | 0 <= i < |items| :: RewriteExpr(s, text, owner, items[i]).Ok?
    ensures forall i | 0 <= i < |items| ::
      target[i] == RenameExpr(l, s.index, RewriteExpr(s, text, owner, items[i]).value)
    ensures RenameExpr(l, s.index, RewriteExpr(s, text, owner, List(items)).value) == List(target)
  {
    var moved := RewriteExpr(s, text, owner, List(items)).value;
    assert moved.List? && |moved.items| == |items|;
    target := RenameExpr(l, s.index, moved).items;
  }

  lemma EntriesAgree(w: World, look: Outlook, env: map<string, Json>, env': map<string, Json>,
                     owner: Option<string>, owner': Option<string>, source: map<string, Expr>,
                       target: map<string, Expr>)
    requires source.Keys == target.Keys
    requires forall k | k in source ::
      EvalExpr(w, Outside, env', owner', target[k]) == EvalExpr(w, look, env, owner, source[k])
    ensures EvalExpr(w, Outside, env', owner', Dict(target)) == EvalExpr(w, look, env, owner, Dict(source))
  {
    var a := EvalDict(w, Outside, env', owner', target);
    var b := EvalDict(w, look, env, owner, source);
    hide EvalExpr;
    assert a == b;
  }

  lemma MovedEntries(l: Layout, s: Shift, text: Json -> string, owner: Option<string>, entries: map<string, Expr>)
    returns (target: map<string, Expr>)
    requires s.index >= -1 && RewriteExpr(s, text, owner, Dict(entries)).Ok?
    ensures target.Keys == entries.Keys
    ensures forall k | k in entries :: RewriteExpr(s, text, owner, entries[k]).Ok?
    ensures forall k | k in entries ::
      target[k] == RenameExpr(l, s.index, RewriteExpr(s, text, owner, entries[k]).value)
    ensures RenameExpr(l, s.index, RewriteExpr(s, text, owner, Dict(entries)).value) == Dict(target)
  {
    var moved := RewriteExpr(s, text, owner, Dict(entries)).value;
    assert moved.entries.Keys == entries.Keys;
    target := RenameExpr(l, s.index, moved).entries;
  }

  lemma {:induction false} MovedPartsMean(w: World, l: Layout, s: Shift, owner: Option<string>, known: set<string>,
      look: Outlook,
                                          env: map<string, Json>, env': map<string, Json>, owner': Option<string>,
                                            parts: seq<Expr>)
    requires s.index >= -1 && Faithful(w, l, s, owner, known, look, env, env')
    requires forall i | 0 <= i < |parts| :: ExprOk(parts[i], known) && PlainExpr(parts[i])
    requires RewriteParts(s, w.text, owner, parts).Ok?
    ensures PartsOf(w, Outside, env', owner', RenameExprs(l, s.index, RewriteParts(s, w.text, owner, parts).value))
         == PartsOf(w, look, env, owner, parts)
    decreases parts, 1
  {
    if parts != [] {
      var e := parts[0];
      MovedPartMeans(w, l, s, owner, known, look, env, env', owner', e);
      MovedPartsMean(w, l, s, owner, known, look, env, env', owner', parts[1..]);
      var first := RewriteExpr(s, w.text, owner, e).value;
      var rest := RewriteParts(s, w.text, owner, parts[1..]).value;
      var moved := if e.Ref? then Spell(w.text, first) else first;
      assert RewriteParts(s, w.text, owner, parts).value == [moved] + rest;
      assert ([moved] + rest)[1..] == rest;
      var renamed := RenameExprs(l, s.index, [moved] + rest);
      assert renamed == [RenameExpr(l, s.index, moved)] + RenameExprs(l, s.index, rest);
      assert renamed[1..] == RenameExprs(l, s.index, rest);
    }
  }

  lemma MovedRefPart(w: World, l: Layout, s: Shift, owner: Option<string>, look: Outlook,
                     env: map<string, Json>, env': map<string, Json>, owner': Option<string>, ref: string, path: Path)
    requires s.index >= -1 && Reads(w, l, s, owner, look, env, env', ref, path)
      && RewriteExpr(s, w.text, owner, Ref(ref, path)).Ok?
    ensures Parts(w, Outside, env', owner',
      RenameExpr(l, s.index, Spell(w.text, RewriteExpr(s, w.text, owner, Ref(ref, path)).value)))
         == Parts(w, look, env, owner, Ref(ref, path))
  {
    var r := RewriteRef(s, owner, ref, path).value;
    if r.Seed? && !NeedsWrapper(r.v) {
      var text := SeedText(w.text, r.v);
      assert Fill([Text(text)], Context(w, map[])) == [Spoken(text)];
    }
  }

  lemma {:induction false} MovedPartMeans(w: World, l: Layout, s: Shift, owner: Option<string>, known: set<string>,
      look: Outlook,
                                          env: map<string, Json>, env': map<string, Json>, owner': Option<string>,
                                            e: Expr)
    requires s.index >= -1 && Faithful(w, l, s, owner, known, look, env, env')
    requires ExprOk(e, known) && PlainExpr(e) && RewriteExpr(s, w.text, owner, e).Ok?
    ensures var first := RewriteExpr(s, w.text, owner, e).value;
      Parts(w, Outside, env', owner', RenameExpr(l, s.index, if e.Ref? then Spell(w.text, first) else first))
        == Parts(w, look, env, owner, e)
    decreases e, 2
  {
    match e
    case Ref(ref, path) =>
      assert Reads(w, l, s, owner, look, env, env', ref, path);
      MovedRefPart(w, l, s, owner, look, env, env', owner', ref, path);
    case Template(inner) => MovedPartsMean(w, l, s, owner, known, look, env, env', owner', inner);
    case _ =>
  }

  // ---------------------------------------------------------------- conditions

  lemma {:induction false} MovedCondMeans(w: World, l: Layout, s: Shift, owner: Option<string>, known: set<string>,
      look: Outlook,
                                          env: map<string, Json>, env': map<string, Json>, owner': Option<string>,
                                            c: Cond)
    requires s.index >= -1 && Faithful(w, l, s, owner, known, look, env, env')
    requires CondOk(c, known) && PlainCond(c) && RewriteCond(s, owner, c).Ok?
    ensures Decide(w, RenameCond(l, s.index, RewriteCond(s, owner, c).value), EvalOperand(w, Outside, env', owner'))
         == Decide(w, c, EvalOperand(w, look, env, owner))
    decreases c, 0
  {
    match c
    case Var(To(ref, path)) =>
      MovedVarMeans(w, l, s, owner, known, look, env, env', owner', ref, path);
    case Group(items) => MovedCondsMean(w, l, s, owner, known, look, env, env', owner', items);
    case Operator(_, args) => MovedCondsMean(w, l, s, owner, known, look, env, env', owner', args);
    case _ =>
  }

  lemma {:induction false} MovedCondsMean(w: World, l: Layout, s: Shift, owner: Option<string>, known: set<string>,
      look: Outlook,
                                          env: map<string, Json>, env': map<string, Json>, owner': Option<string>,
                                            cs: seq<Cond>)
    requires s.index >= -1 && Faithful(w, l, s, owner, known, look, env, env')
    requires forall i | 0 <= i < |cs| :: CondOk(cs[i], known) && PlainCond(cs[i])
    requires RewriteConds(s, owner, cs).Ok?
    ensures DecideAll(w, RenameConds(l, s.index, RewriteConds(s, owner, cs).value),
      EvalOperand(w, Outside, env', owner'))
         == DecideAll(w, cs, EvalOperand(w, look, env, owner))
    decreases cs, 1
  {
    if cs != [] {
      MovedCondMeans(w, l, s, owner, known, look, env, env', owner', cs[0]);
      MovedCondsMean(w, l, s, owner, known, look, env, env', owner', cs[1..]);
      var first := RewriteCond(s, owner, cs[0]).value;
      var rest := RewriteConds(s, owner, cs[1..]).value;
      assert ([first] + rest)[1..] == rest;
      var renamed := RenameConds(l, s.index, [first] + rest);
      assert renamed[1..] == RenameConds(l, s.index, rest);
    }
  }

  // ---------------------------------------------------------------- nothing to rename

  predicate Unmoved(l: Layout) { l.tail == {} }

  lemma {:induction false} RenameNothing(l: Layout, index: int, e: Expr)
    requires index >= -1 && Unmoved(l)
    ensures RenameExpr(l, index, e) == e
    decreases e, 0
  {
    match e
    case List(items) =>
      forall i | 0 <= i < |items| { RenameNothing(l, index, items[i]); }
    case Dict(entries) =>
      forall k | k in entries { RenameNothing(l, index, entries[k]); }
    case Template(parts) => RenameNothings(l, index, parts);
    case _ =>
  }

  lemma {:induction false} RenameNothings(l: Layout, index: int, es: seq<Expr>)
    requires index >= -1 && Unmoved(l)
    ensures RenameExprs(l, index, es) == es
    decreases es, 1
  {
    if es != [] {
      RenameNothing(l, index, es[0]);
      RenameNothings(l, index, es[1..]);
    }
  }

  lemma {:induction false} RenameNoCond(l: Layout, index: int, c: Cond)
    requires index >= -1 && Unmoved(l)
    ensures RenameCond(l, index, c) == c
    decreases c, 0
  {
    match c
    case Group(items) => RenameNoConds(l, index, items);
    case Operator(_, args) => RenameNoConds(l, index, args);
    case _ =>
  }

  lemma {:induction false} RenameNoConds(l: Layout, index: int, cs: seq<Cond>)
    requires index >= -1 && Unmoved(l)
    ensures RenameConds(l, index, cs) == cs
    decreases cs, 1
  {
    if cs != [] {
      RenameNoCond(l, index, cs[0]);
      RenameNoConds(l, index, cs[1..]);
    }
  }
}
