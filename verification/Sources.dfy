/** Source JSON as text: strings whose placeholders the simulator finds with a regular expression,
    and the wrapper that protects data from it. */
module Sources {
  import opened Json
  import opened Plan
  import opened Graph
  import Meaning

  const WRAPPER := "__trama_literal_json__"

  function Wrap(v: Json): Json { Obj(map[WRAPPER := v]) }

  predicate Wrapped(v: Json) { v.Obj? && v.fields.Keys == {WRAPPER} }

  // ---------------------------------------------------------------- placeholders in text

  predicate IsBrace(c: char) { c == '{' || c == '}' }

  predicate IsSpace(c: char) { c == ' ' || ('\t' <= c <= '\r') }

  predicate Opens(s: string, i: nat) { i + 2 <= |s| && s[i] == '{' && s[i + 1] == '{' }

  /** The next brace from position i on. */
  function NextBrace(s: string, i: nat): (j: nat)
    requires i <= |s|
    ensures i <= j <= |s| && (forall k | i <= k < j :: !IsBrace(s[k])) && (j < |s| ==> IsBrace(s[j]))
    decreases |s| - i
  {
    if i == |s| || IsBrace(s[i]) then i else NextBrace(s, i + 1)
  }

  /** Where the placeholder that starts at i ends, if one does: braces, text without braces, braces. */
  function PlaceholderEnd(s: string, i: nat): (end: Option<nat>)
    ensures end.Some? ==> Opens(s, i) && i + 5 <= end.value <= |s|
  {
    if !Opens(s, i) then None
    else
      var j := NextBrace(s, i + 2);
      if j > i + 2 && j + 2 <= |s| && s[j] == '}' && s[j + 1] == '}' then Some(j + 2) else None
  }

  function TrimLeft(s: string): string
  {
    if |s| > 1 && IsSpace(s[0]) then TrimLeft(s[1..]) else s
  }

  function TrimRight(s: string): string
  {
    if |s| > 1 && IsSpace(s[|s| - 1]) then TrimRight(s[..|s| - 1]) else s
  }

  /** A path split at its dots. */
  function Dotted(s: string): Path
    decreases s
  {
    var i := NextDot(s, 0);
    if i == |s| then [s] else [s[..i]] + Dotted(s[i + 1..])
  }

  function NextDot(s: string, i: nat): (j: nat)
    requires i <= |s|
    ensures i <= j <= |s|
    decreases |s| - i
  {
    if i == |s| || s[i] == '.' then i else NextDot(s, i + 1)
  }

  /** The pieces of a source string from position i on, the text since `from` still to be added. */
  function Scan(s: string, from: nat, i: nat): seq<Piece>
    requires from <= i <= |s|
    decreases |s| - i
  {
    if i == |s| then (if from == i then [] else [Text(s[from..])])
    else
      match PlaceholderEnd(s, i)
      case None => Scan(s, from, i + 1)
      case Some(end) =>
        (if from == i then [] else [Text(s[from..i])])
        + [Hole(Dotted(TrimRight(TrimLeft(s[i + 2..end - 2]))))] + Scan(s, end, end)
  }

  function Pieces(s: string): seq<Piece> { Scan(s, 0, 0) }

  /** Nothing in the text opens a placeholder. */
  predicate Inert(s: string) { !Meaning.HasBraces(s) }

  lemma {:induction false} InertScan(s: string, i: nat)
    requires Inert(s) && i <= |s|
    ensures Scan(s, 0, i) == if s == "" then [] else [Text(s)]
    decreases |s| - i
  {
    if i < |s| {
      assert !Opens(s, i);
      InertScan(s, i + 1);
    } else {
      assert s[0..] == s;
    }
  }

  // ---------------------------------------------------------------- rendering source

  /** Typed rendering of source JSON. */
  function RenderSource(v: Json, ctx: Json, text: Json -> string): Json
    decreases v
  {
    if Wrapped(v) then v.fields[WRAPPER]
    else
      match v
      case Obj(fields) => Obj(map k | k in fields :: RenderSource(fields[k], ctx, text))
      case Arr(items) => Arr(seq(|items|, i requires 0 <= i < |items| => RenderSource(items[i], ctx, text)))
      case Str(s) => Finish(text, Fill(Pieces(s), ctx))
      case _ => v
  }

  /** Seed data as source: collections and text with an opening brace pair are wrapped. */
  function Protect(v: Json): Json
  {
    if Meaning.NeedsWrapper(v) then Wrap(v) else v
  }

  lemma InertRenders(s: string, ctx: Json, text: Json -> string)
    requires Inert(s)
    ensures RenderSource(Str(s), ctx, text) == Str(s)
  {
    InertScan(s, 0);
    var fragments := Fill(Pieces(s), ctx);
    if s != "" {
      assert fragments == [Spoken(s)];
      assert Speak(text, fragments) == s + Speak(text, []);
      assert DropEmpty(fragments) == [Spoken(s)];
    }
  }

  /** Protected data survives one rendering unchanged, whatever placeholders or wrappers it holds. */
  lemma ProtectedSurvives(v: Json, ctx: Json, text: Json -> string)
    ensures RenderSource(Protect(v), ctx, text) == v
    ensures RenderSource(Wrap(v), ctx, text) == v
  {
    if v.Str? && Inert(v.s) { InertRenders(v.s, ctx, text); }
  }
}
