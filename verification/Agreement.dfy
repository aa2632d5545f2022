/** Compiled expressions and conditions mean what their sources mean, as long as the node
    results of an execution agree with the outputs the evaluator knows. */
module Agreement {
  import opened Json
  import opened Plan
  import opened Graph
  import opened Meaning
  import opened Compiler
  import opened Discipline

  predicate Accessible(st: Build, scope: string, ref: string)
  {
    ref in st.scopes && (st.scopes[ref] == scope || (scope == "" && ref in st.joins))
  }

  /** Where an accessible operation's output is found below `nodes`. */
  function Base(st: Build, scope: string, ref: string): Path
    requires Accessible(st, scope, ref)
  {
    if st.scopes[ref] == scope then [ref] + OUTPUT
    else [st.joins[ref].0, "response", "body", "branches", Digits(st.joins[ref].1), "result", "output"]
  }

  /** The node results of an execution agree with the evaluator's outputs. */
  ghost predicate Agrees(st: Build, vis: set<string>, scope: string, nodes: map<string, Json>, env: map<string, Json>)
  {
    forall ref | ref in vis && Accessible(st, scope, ref) ::
      Lookup(Obj(nodes), Base(st, scope, ref)) == Get(env, ref)
  }

  lemma RootLookup(w: World, nodes: map<string, Json>, path: Path)
    requires RawOk(path)
    ensures Lookup(Context(w, nodes), path) == Lookup(Context(w, map[]), path)
  {
    assert path == [path[0]] + path[1..];
    LookupFirst(Context(w, nodes).fields, path[0], path[1..]);
    LookupFirst(Context(w, map[]).fields, path[0], path[1..]);
  }

  lemma RefAgrees(st: Build, vis: set<string>, scope: string, w: World, nodes: map<string, Json>,
      env: map<string, Json>,
                  owner: Option<string>, ref: string, path: Path)
    requires Agrees(st, vis, scope, nodes, env)
    requires ref in ROOTS || ref in vis
    requires ResolveRef(st, scope, ref, path).Ok?
    ensures Read(w, Outside, env, owner, ref, path)
      == Live(Lookup(Context(w, nodes), ResolveRef(st, scope, ref, path).value))
  {
    var p := ResolveRef(st, scope, ref, path).value;
    if ref in ROOTS {
      RootLookup(w, nodes, p);
    } else {
      var base := Base(st, scope, ref);
      assert p == ["nodes"] + (base + path);
      LookupFirst(Context(w, nodes).fields, "nodes", base + path);
      LookupAppend(Obj(nodes), base, path);
    }
  }

  lemma FillAppend(a: seq<Piece>, b: seq<Piece>, ctx: Json)
    ensures Fill(a + b, ctx) == Fill(a, ctx) + Fill(b, ctx)
  {
  }

  lemma FillRaw(w: World, nodes: map<string, Json>, pieces: seq<Piece>)
    requires PiecesOk(pieces)
    ensures Fill(pieces, Context(w, nodes)) == Fill(pieces, Context(w, map[]))
  {
    forall i | 0 <= i < |pieces| && pieces[i].Hole? {
      RootLookup(w, nodes, pieces[i].path);
    }
  }

  /** A string that is one placeholder renders as the typed value. */
  lemma LoneHole(path: Path, ctx: Json, text: Json -> string)
    ensures Render(TWords([Hole(path)]), ctx, text) == Lookup(ctx, path)
  {
    var v := Lookup(ctx, path);
    assert Fill([Hole(path)], ctx) == [Value(v)];
    assert DropEmpty([Value(v)]) == [Value(v)];
  }

  lemma EntriesRender(st: Build, scope: string, w: World, ctx: Json, env: map<string, Json>, owner: Option<string>,
      entries: map<string, Expr>)
    requires Resolve(st, scope, Dict(entries)).Ok? && forall k | k in entries :: Resolve(st, scope, entries[k]).Ok?
    requires forall k | k in entries ::
      Render(Resolve(st, scope, entries[k]).value, ctx, w.text) == EvalExpr(w, Outside, env, owner, entries[k])
    ensures Render(Resolve(st, scope, Dict(entries)).value, ctx, w.text)
      == EvalExpr(w, Outside, env, owner, Dict(entries))
  {
    var fields := EvalDict(w, Outside, env, owner, entries);
    hide EvalExpr;
    assert Render(Resolve(st, scope, Dict(entries)).value, ctx, w.text).fields == fields;
  }

  lemma ItemsRender(st: Build, scope: string, w: World, ctx: Json, env: map<string, Json>, owner: Option<string>,
      items: seq<Expr>)
    requires Resolve(st, scope, List(items)).Ok? && forall i | 0 <= i < |items| :: Resolve(st, scope, items[i]).Ok?
    requires forall i | 0 <= i < |items| ::
      Render(Resolve(st, scope, items[i]).value, ctx, w.text) == EvalExpr(w, Outside, env, owner, items[i])
    ensures Render(Resolve(st, scope, List(items)).value, ctx, w.text) == EvalExpr(w, Outside, env, owner, List(items))
  {
    var values := EvalList(w, Outside, env, owner, items);
    hide EvalExpr;
    assert Render(Resolve(st, scope, List(items)).value, ctx, w.text).items == values;
  }

  lemma {:induction false} ExprAgrees(st: Build, vis: set<string>, scope: string, w: World, nodes: map<string, Json>,
      env: map<string, Json>,
                                      owner: Option<string>, e: Expr)
    requires Agrees(st, vis, scope, nodes, env)
    requires ExprOk(e, vis)
    requires Resolve(st, scope, e).Ok?
    ensures Render(Resolve(st, scope, e).value, Context(w, nodes), w.text) == EvalExpr(w, Outside, env, owner, e)
    decreases e, 0
  {
    match e
    case Words(pieces) => FillRaw(w, nodes, pieces);
    case Ref(ref, path) =>
      RefAgrees(st, vis, scope, w, nodes, env, owner, ref, path);
      LoneHole(ResolveRef(st, scope, ref, path).value, Context(w, nodes), w.text);
    case List(items) =>
      forall i | 0 <= i < |items|
        ensures Resolve(st, scope, items[i]).Ok?
        ensures Render(Resolve(st, scope, items[i]).value, Context(w, nodes), w.text)
          == EvalExpr(w, Outside, env, owner, items[i])
      {
        ExprAgrees(st, vis, scope, w, nodes, env, owner, items[i]);
      }
      ItemsRender(st, scope, w, Context(w, nodes), env, owner, items);
    case Dict(entries) =>
      forall k | k in entries
        ensures Resolve(st, scope, entries[k]).Ok?
        ensures Render(Resolve(st, scope, entries[k]).value, Context(w, nodes), w.text)
          == EvalExpr(w, Outside, env, owner, entries[k])
      {
        ExprAgrees(st, vis, scope, w, nodes, env, owner, entries[k]);
      }
      EntriesRender(st, scope, w, Context(w, nodes), env, owner, entries);
    case Template(parts) => PartsAgree(st, vis, scope, w, nodes, env, owner, parts);
    case _ =>
  }

  lemma {:induction false} PartsAgree(st: Build, vis: set<string>, scope: string, w: World, nodes: map<string, Json>,
      env: map<string, Json>,
                                      owner: Option<string>, parts: seq<Expr>)
    requires Agrees(st, vis, scope, nodes, env)
    requires forall i | 0 <= i < |parts| :: ExprOk(parts[i], vis)
    requires ResolveParts(st, scope, parts).Ok?
    ensures Fill(ResolveParts(st, scope, parts).value, Context(w, nodes)) == PartsOf(w, Outside, env, owner, parts)
    decreases parts, 1
  {
    if parts != [] {
      var e, ctx := parts[0], Context(w, nodes);
      var first := Resolve(st, scope, e).value;
      FillAppend(first.pieces, ResolveParts(st, scope, parts[1..]).value, ctx);
      PartsAgree(st, vis, scope, w, nodes, env, owner, parts[1..]);
      match e
      case Words(pieces) => FillRaw(w, nodes, pieces);
      case Ref(ref, path) => RefAgrees(st, vis, scope, w, nodes, env, owner, ref, path);
      case Template(inner) => PartsAgree(st, vis, scope, w, nodes, env, owner, inner);
      case _ =>
    }
  }

  lemma {:induction false} CondAgrees(st: Build, vis: set<string>, scope: string, w: World, nodes: map<string, Json>,
      env: map<string, Json>,
                                      owner: Option<string>, c: Cond)
    requires Agrees(st, vis, scope, nodes, env)
    requires CondOk(c, vis)
    requires ResolveCond(st, scope, c).Ok?
    ensures Decide(w, ResolveCond(st, scope, c).value, ReadFrom(Context(w, nodes)))
         == Decide(w, c, EvalOperand(w, Outside, env, owner))
    decreases c, 0
  {
    match c
    case Var(Raw(path)) => RootLookup(w, nodes, path);
    case Var(To(ref, path)) => RefAgrees(st, vis, scope, w, nodes, env, owner, ref, path);
    case Group(items) => CondsAgree(st, vis, scope, w, nodes, env, owner, items);
    case Operator(_, args) => CondsAgree(st, vis, scope, w, nodes, env, owner, args);
    case _ =>
  }

  lemma {:induction false} CondsAgree(st: Build, vis: set<string>, scope: string, w: World, nodes: map<string, Json>,
      env: map<string, Json>,
                                      owner: Option<string>, cs: seq<Cond>)
    requires Agrees(st, vis, scope, nodes, env)
    requires forall i | 0 <= i < |cs| :: CondOk(cs[i], vis)
    requires ResolveConds(st, scope, cs).Ok?
    ensures DecideAll(w, ResolveConds(st, scope, cs).value, ReadFrom(Context(w, nodes)))
         == DecideAll(w, cs, EvalOperand(w, Outside, env, owner))
    decreases cs, 1
  {
    if cs != [] {
      CondAgrees(st, vis, scope, w, nodes, env, owner, cs[0]);
      CondsAgree(st, vis, scope, w, nodes, env, owner, cs[1..]);
      var rs := ResolveConds(st, scope, cs).value;
      assert rs[0] == ResolveCond(st, scope, cs[0]).value && rs[1..] == ResolveConds(st, scope, cs[1..]).value;
    }
  }
}
