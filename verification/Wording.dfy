/** When unresolved source resolves: its references name nodes, and the parts of its templates are
    texts. Rewriting keeps that, unless a seed that must be wrapped lands in a template. */
module Wording {
  import opened Json
  import opened Plan
  import opened Graph
  import opened Meaning
  import opened Compiler
  import opened Discipline

  // ---------------------------------------------------------------- templates made of text

  predicate Worded(e: Expr)
  {
    match e
    case List(items) => forall i | 0 <= i < |items| :: Worded(items[i])
    case Dict(entries) => forall k | k in entries :: Worded(entries[k])
    case Template(parts) => AllText(parts)
    case _ => true
  }

  predicate TextPart(e: Expr)
    decreases e, 1
  {
    match e
    case Words(_) => true
    case Ref(_, _) => true
    case Template(parts) => AllText(parts)
    case _ => false
  }

  predicate AllText(parts: seq<Expr>)
    decreases parts, 0
  {
    parts == [] || (TextPart(parts[0]) && AllText(parts[1..]))
  }

  // ---------------------------------------------------------------- resolving

  predicate Known(vis: set<string>, ref: string) { ref in ROOTS || ref in vis }

  predicate RefsIn(e: Expr, vis: set<string>)
  {
    match e
    case Ref(ref, _) => Known(vis, ref)
    case List(items) => forall i | 0 <= i < |items| :: RefsIn(items[i], vis)
    case Dict(entries) => forall k | k in entries :: RefsIn(entries[k], vis)
    case Template(parts) => forall i | 0 <= i < |parts| :: RefsIn(parts[i], vis)
    case _ => true
  }

  lemma {:induction false} OkRefsIn(e: Expr, vis: set<string>)
    requires ExprOk(e, vis)
    ensures RefsIn(e, vis)
    decreases e
  {
    match e
    case List(items) => forall i | 0 <= i < |items| { OkRefsIn(items[i], vis); }
    case Dict(entries) => forall k | k in entries { OkRefsIn(entries[k], vis); }
    case Template(parts) => forall i | 0 <= i < |parts| { OkRefsIn(parts[i], vis); }
    case _ =>
  }

  /** The given ids are nodes of the top scope. */
  predicate TopNodes(st: Build, vis: set<string>)
  {
    forall x | x in vis :: x in st.scopes && st.scopes[x] == ""
  }

  lemma RefResolves(st: Build, vis: set<string>, ref: string, path: Path)
    requires TopNodes(st, vis) && Known(vis, ref)
    ensures ResolveRef(st, "", ref, path).Ok?
  {
  }

  lemma {:induction false} ExprResolves(st: Build, vis: set<string>, e: Expr)
    requires TopNodes(st, vis) && RefsIn(e, vis) && Worded(e)
    ensures Resolve(st, "", e).Ok?
    decreases e, 0
  {
    hide ResolveRef;
    match e
    case Ref(ref, path) => RefResolves(st, vis, ref, path);
    case List(items) => forall i | 0 <= i < |items| { ExprResolves(st, vis, items[i]); }
    case Dict(entries) => forall k | k in entries { ExprResolves(st, vis, entries[k]); }
    case Template(parts) => PartsResolve(st, vis, parts);
    case _ =>
  }

  lemma {:induction false} PartsResolve(st: Build, vis: set<string>, parts: seq<Expr>)
    requires TopNodes(st, vis) && (forall i | 0 <= i < |parts| :: RefsIn(parts[i], vis)) && AllText(parts)
    ensures ResolveParts(st, "", parts).Ok?
    decreases parts, 1
  {
    hide ResolveRef;
    if parts != [] {
      assert forall i | 0 <= i < |parts[1..]| :: parts[1..][i] == parts[i + 1];
      PartsResolve(st, vis, parts[1..]);
      if parts[0].Ref? { RefResolves(st, vis, parts[0].ref, parts[0].path); }
      if parts[0].Template? { PartsResolve(st, vis, parts[0].parts); }
    }
  }

  /** Only source whose templates are made of text resolves. */
  lemma {:induction false} ResolvedIsWorded(st: Build, scope: string, e: Expr)
    requires Resolve(st, scope, e).Ok?
    ensures Worded(e)
    decreases e, 0
  {
    match e
    case List(items) => forall i | 0 <= i < |items| { ResolvedIsWorded(st, scope, items[i]); }
    case Dict(entries) => forall k | k in entries { ResolvedIsWorded(st, scope, entries[k]); }
    case Template(parts) => ResolvedAreText(st, scope, parts);
    case _ =>
  }

  lemma {:induction false} ResolvedAreText(st: Build, scope: string, parts: seq<Expr>)
    requires ResolveParts(st, scope, parts).Ok?
    ensures AllText(parts)
    decreases parts, 1
  {
    if parts != [] {
      if parts[0].Template? { ResolvedAreText(st, scope, parts[0].parts); }
      ResolvedAreText(st, scope, parts[1..]);
    }
  }

  predicate CondRefsIn(c: Cond, vis: set<string>)
  {
    match c
    case Var(To(ref, _)) => Known(vis, ref)
    case Group(items) => forall i | 0 <= i < |items| :: CondRefsIn(items[i], vis)
    case Operator(_, args) => forall i | 0 <= i < |args| :: CondRefsIn(args[i], vis)
    case _ => true
  }

  lemma {:induction false} OkCondRefsIn(c: Cond, vis: set<string>)
    requires CondOk(c, vis)
    ensures CondRefsIn(c, vis)
    decreases c
  {
    match c
    case Group(items) => forall i | 0 <= i < |items| { OkCondRefsIn(items[i], vis); }
    case Operator(_, args) => forall i | 0 <= i < |args| { OkCondRefsIn(args[i], vis); }
    case _ =>
  }

  lemma {:induction false} CondResolves(st: Build, vis: set<string>, c: Cond)
    requires TopNodes(st, vis) && CondRefsIn(c, vis)
    ensures ResolveCond(st, "", c).Ok?
    decreases c, 0
  {
    hide ResolveRef;
    match c
    case Var(To(ref, path)) => RefResolves(st, vis, ref, path);
    case Group(items) => CondsResolve(st, vis, items);
    case Operator(_, args) => CondsResolve(st, vis, args);
    case _ =>
  }

  lemma {:induction false} CondsResolve(st: Build, vis: set<string>, cs: seq<Cond>)
    requires TopNodes(st, vis) && forall i | 0 <= i < |cs| :: CondRefsIn(cs[i], vis)
    ensures ResolveConds(st, "", cs).Ok?
    decreases cs, 1
  {
    if cs != [] {
      CondResolves(st, vis, cs[0]);
      assert forall i | 0 <= i < |cs[1..]| :: cs[1..][i] == cs[i + 1];
      CondsResolve(st, vis, cs[1..]);
    }
  }

  // ---------------------------------------------------------------- rewriting

  /** No seed that needs a wrapper lands in a template. */
  predicate Interpolates(s: Shift, owner: Option<string>, e: Expr)
    decreases e, 0
  {
    match e
    case List(items) => forall i | 0 <= i < |items| :: Interpolates(s, owner, items[i])
    case Dict(entries) => forall k | k in entries :: Interpolates(s, owner, entries[k])
    case Template(parts) => AllInterpolate(s, owner, parts)
    case _ => true
  }

  predicate PartInterpolates(s: Shift, owner: Option<string>, e: Expr)
    decreases e, 1
  {
    match e
    case Ref(ref, path) =>
      var r := RewriteRef(s, owner, ref, path);
      r.Ok? && r.value.Seed? ==> !NeedsWrapper(r.value.v)
    case Template(parts) => AllInterpolate(s, owner, parts)
    case _ => Interpolates(s, owner, e)
  }

  predicate AllInterpolate(s: Shift, owner: Option<string>, parts: seq<Expr>)
    decreases parts, 0
  {
    parts == [] || (PartInterpolates(s, owner, parts[0]) && AllInterpolate(s, owner, parts[1..]))
  }

  /** Rewritten source is worded exactly when the source is and no wrapped seed lands in a template. */
  lemma {:induction false} RewrittenIsWorded(s: Shift, text: Json -> string, owner: Option<string>, e: Expr)
    requires RewriteExpr(s, text, owner, e).Ok?
    ensures Worded(RewriteExpr(s, text, owner, e).value) <==> Worded(e) && Interpolates(s, owner, e)
    decreases e, 0
  {
    match e
    case List(items) =>
      var items' := RewriteExpr(s, text, owner, e).value.items;
      forall i | 0 <= i < |items| ensures Worded(items'[i]) <==> Worded(items[i]) && Interpolates(s, owner, items[i]) {
        RewrittenIsWorded(s, text, owner, items[i]);
      }
    case Dict(entries) =>
      var entries' := RewriteExpr(s, text, owner, e).value.entries;
      forall k | k in entries
        ensures k in entries' && (Worded(entries'[k]) <==> Worded(entries[k]) && Interpolates(s, owner, entries[k])) {
        RewrittenIsWorded(s, text, owner, entries[k]);
      }
      assert entries'.Keys == entries.Keys;
    case Template(parts) => RewrittenAreText(s, text, owner, parts);
    case _ =>
  }

  lemma {:induction false} RewrittenAreText(s: Shift, text: Json -> string, owner: Option<string>, parts: seq<Expr>)
    requires RewriteParts(s, text, owner, parts).Ok?
    ensures AllText(RewriteParts(s, text, owner, parts).value) <==> AllText(parts) && AllInterpolate(s, owner, parts)
    decreases parts, 1
  {
    if parts != [] {
      RewrittenAreText(s, text, owner, parts[1..]);
      var first := RewriteExpr(s, text, owner, parts[0]).value;
      var moved := if parts[0].Ref? then Spell(text, first) else first;
      var rest := RewriteParts(s, text, owner, parts[1..]).value;
      assert ([moved] + rest)[1..] == rest;
      if parts[0].Template? { RewrittenAreText(s, text, owner, parts[0].parts); }
      assert TextPart(moved) <==> TextPart(parts[0]) && PartInterpolates(s, owner, parts[0]);
    }
  }

  lemma {:induction false} RenamedIsWorded(l: Layout, k: int, e: Expr)
    requires k >= -1
    ensures Worded(RenameExpr(l, k, e)) <==> Worded(e)
    decreases e, 0
  {
    match e
    case List(items) =>
      var items' := RenameExpr(l, k, e).items;
      forall i | 0 <= i < |items| ensures Worded(items'[i]) <==> Worded(items[i]) { RenamedIsWorded(l, k, items[i]); }
    case Dict(entries) =>
      var entries' := RenameExpr(l, k, e).entries;
      forall key | key in entries ensures Worded(entries'[key]) <==>
        Worded(entries[key]) { RenamedIsWorded(l, k, entries[key]); }
    case Template(parts) => RenamedAreText(l, k, parts);
    case _ =>
  }

  lemma {:induction false} RenamedAreText(l: Layout, k: int, parts: seq<Expr>)
    requires k >= -1
    ensures AllText(RenameExprs(l, k, parts)) <==> AllText(parts)
    decreases parts, 1
  {
    if parts != [] {
      RenamedAreText(l, k, parts[1..]);
      if parts[0].Template? { RenamedAreText(l, k, parts[0].parts); }
      assert ([RenameExpr(l, k, parts[0])] + RenameExprs(l, k, parts[1..]))[1..] == RenameExprs(l, k, parts[1..]);
    }
  }
}
