/** A template that reads the previous pass is spelled out at compile time where its reference
    became a seed, and at run time where it did not. When the two give the same value. */
module Spelling {
  import opened Json
  import opened Plan
  import opened Graph
  import opened Meaning

  // ---------------------------------------------------------------- counting fragments

  /** Placeholder values among the fragments, and texts that are not empty. */
  function Values(fs: seq<Fragment>): nat
  {
    if fs == [] then 0 else (if fs[0].Value? then 1 else 0) + Values(fs[1..])
  }

  function Texts(fs: seq<Fragment>): nat
  {
    if fs == [] then 0 else (if fs[0].Spoken? && fs[0].text != "" then 1 else 0) + Texts(fs[1..])
  }

  /** The first placeholder value. */
  function Lone(fs: seq<Fragment>): Json
    requires Values(fs) > 0
  {
    if fs[0].Value? then fs[0].v else Lone(fs[1..])
  }

  lemma {:induction false} KeptCounts(fs: seq<Fragment>)
    ensures |DropEmpty(fs)| == Values(fs) + Texts(fs)
    ensures Values(fs) > 0 && |DropEmpty(fs)| == 1 ==> DropEmpty(fs)[0] == Value(Lone(fs))
    ensures Values(fs) == 0 ==> forall f | f in DropEmpty(fs) :: f.Spoken?
    decreases fs
  {
    if fs != [] { KeptCounts(fs[1..]); }
  }

  /** Rendered text is typed only when it is one placeholder and nothing else. */
  lemma FinishIs(text: Json -> string, fs: seq<Fragment>)
    ensures Finish(text, fs) == if Values(fs) == 1 && Texts(fs) == 0 then Lone(fs) else Str(Speak(text, fs))
  {
    KeptCounts(fs);
  }

  // ---------------------------------------------------------------- seeds among the fragments

  /** The fragment as it is spelled when its value became a seed. */
  function Spelled(text: Json -> string, f: Fragment): Fragment
  {
    if f.Value? then Spoken(SeedText(text, f.v)) else f
  }

  /** Fragments of which the marked ones became seeds. */
  function SpelledOut(text: Json -> string, fs: seq<Fragment>, marks: seq<bool>): (r: seq<Fragment>)
    requires |fs| == |marks|
    ensures |r| == |fs|
  {
    seq(|fs|, i requires 0 <= i < |fs| => if marks[i] then Spelled(text, fs[i]) else fs[i])
  }

  /** The values of marked placeholders. */
  function Marked(fs: seq<Fragment>, marks: seq<bool>): seq<Json>
    requires |fs| == |marks|
  {
    if fs == [] then []
    else (if marks[0] && fs[0].Value? then [fs[0].v] else []) + Marked(fs[1..], marks[1..])
  }

  predicate ReadsAlike(text: Json -> string, v: Json) { SeedText(text, v) == LiveText(text, v) }

  predicate AllReadAlike(text: Json -> string, vs: seq<Json>) { forall v | v in vs :: ReadsAlike(text, v) }

  predicate SomeSpoken(text: Json -> string, vs: seq<Json>) { exists v :: v in vs && SeedText(text, v) != "" }

  /** When a template reads the same, whichever of its placeholders became seeds: every seed is
      spelled as it would be live, and seeding neither turns a lone typed value into text nor
      leaves a lone placeholder to be read as a typed value. */
  predicate Faithful(text: Json -> string, fs: seq<Fragment>, vs: seq<Json>)
  {
    vs == [] ||
    (AllReadAlike(text, vs)
     && (Texts(fs) > 0 || (Values(fs) == 1 ==> vs[0].Str?))
     && (Texts(fs) > 0 || Values(fs) != |vs| + 1 || SomeSpoken(text, vs)))
  }

  lemma {:induction false} SeedingCounts(text: Json -> string, fs: seq<Fragment>, marks: seq<bool>)
    requires |fs| == |marks|
    ensures var s, vs := SpelledOut(text, fs, marks), Marked(fs, marks);
      && Values(s) == Values(fs) - |vs| && |vs| <= Values(fs)
      && Texts(s) >= Texts(fs)
      && (Texts(s) == Texts(fs) <==> !SomeSpoken(text, vs))
    decreases fs
  {
    if fs != [] {
      SeedingCounts(text, fs[1..], marks[1..]);
      var s := SpelledOut(text, fs, marks);
      assert s[1..] == SpelledOut(text, fs[1..], marks[1..]);
      var vs, rest := Marked(fs, marks), Marked(fs[1..], marks[1..]);
      assert vs == (if marks[0] && fs[0].Value? then [fs[0].v] else []) + rest;
      if SomeSpoken(text, rest) {
        var v :| v in rest && SeedText(text, v) != "";
        assert v in vs;
      }
      if marks[0] && fs[0].Value? { assert fs[0].v in vs; }
    }
  }

  lemma {:induction false} AlikeSpeaks(text: Json -> string, fs: seq<Fragment>, marks: seq<bool>)
    requires |fs| == |marks| && AllReadAlike(text, Marked(fs, marks))
    ensures Speak(text, SpelledOut(text, fs, marks)) == Speak(text, fs)
    decreases fs
  {
    if fs != [] {
      var vs, rest := Marked(fs, marks), Marked(fs[1..], marks[1..]);
      assert vs == (if marks[0] && fs[0].Value? then [fs[0].v] else []) + rest;
      assert AllReadAlike(text, rest) by { forall v | v in rest ensures ReadsAlike(text, v) { assert v in vs; } }
      AlikeSpeaks(text, fs[1..], marks[1..]);
      var s := SpelledOut(text, fs, marks);
      assert s[1..] == SpelledOut(text, fs[1..], marks[1..]);
      if marks[0] && fs[0].Value? { assert fs[0].v in vs; }
    }
  }

  lemma {:induction false} LoneSpeaks(text: Json -> string, fs: seq<Fragment>)
    requires Values(fs) == 1 && Texts(fs) == 0
    ensures Speak(text, fs) == LiveText(text, Lone(fs))
    decreases fs
  {
    if fs[0].Value? {
      NothingSpeaks(text, fs[1..]);
    } else {
      LoneSpeaks(text, fs[1..]);
    }
  }

  lemma {:induction false} NothingSpeaks(text: Json -> string, fs: seq<Fragment>)
    requires Values(fs) == 0 && Texts(fs) == 0
    ensures Speak(text, fs) == ""
    decreases fs
  {
    if fs != [] { NothingSpeaks(text, fs[1..]); }
  }

  lemma {:induction false} OnlyMarked(fs: seq<Fragment>, marks: seq<bool>)
    requires |fs| == |marks| && Values(fs) == 1 && Marked(fs, marks) != []
    ensures Marked(fs, marks) == [Lone(fs)]
    decreases fs
  {
    if fs[0].Value? {
      NoneMarked(fs[1..], marks[1..]);
    } else {
      OnlyMarked(fs[1..], marks[1..]);
    }
  }

  lemma {:induction false} NoneMarked(fs: seq<Fragment>, marks: seq<bool>)
    requires |fs| == |marks| && Values(fs) == 0
    ensures Marked(fs, marks) == []
    decreases fs
  {
    if fs != [] { NoneMarked(fs[1..], marks[1..]); }
  }

  lemma {:induction false} NothingSeeded(text: Json -> string, fs: seq<Fragment>, marks: seq<bool>)
    requires |fs| == |marks| && Marked(fs, marks) == []
    ensures SpelledOut(text, fs, marks) == fs
    decreases fs
  {
    if fs != [] {
      NothingSeeded(text, fs[1..], marks[1..]);
      var s := SpelledOut(text, fs, marks);
      assert s[1..] == SpelledOut(text, fs[1..], marks[1..]) == fs[1..];
      assert s == [s[0]] + s[1..] && fs == [fs[0]] + fs[1..];
    }
  }

  /** A faithful template is spelled at compile time as at run time. */
  lemma FaithfulIsSame(text: Json -> string, fs: seq<Fragment>, marks: seq<bool>)
    requires |fs| == |marks| && Faithful(text, fs, Marked(fs, marks))
    ensures Finish(text, SpelledOut(text, fs, marks)) == Finish(text, fs)
  {
    var vs, s := Marked(fs, marks), SpelledOut(text, fs, marks);
    if vs == [] {
      NothingSeeded(text, fs, marks);
    } else {
      FinishIs(text, fs);
      FinishIs(text, s);
      SeedingCounts(text, fs, marks);
      AlikeSpeaks(text, fs, marks);
      if Values(fs) == 1 && Texts(fs) == 0 {
        OnlyMarked(fs, marks);
        LoneSpeaks(text, fs);
      }
    }
  }

  // ---------------------------------------------------------------- exactly when

  /** str() as Python spells it: True for true, and no number as nothing. */
  predicate Pythonic(text: Json -> string)
  {
    text(Bool(true)) == "True" && text(Num(0.0)) != ""
  }

  /** A seed is never spelled shorter than it would be live. */
  lemma NeverShorter(text: Json -> string, v: Json)
    requires Pythonic(text)
    ensures |SeedText(text, v)| >= |LiveText(text, v)|
    ensures ReadsAlike(text, v) <==> SeedText(text, v) == LiveText(text, v)
  {
    assert v.Bool? && v.b ==> v == Bool(true);
  }

  function Voice(text: Json -> string, f: Fragment): string
  {
    match f
    case Spoken(s) => s
    case Value(v) => LiveText(text, v)
  }

  lemma {:induction false} SpeaksAlike(text: Json -> string, fs: seq<Fragment>, marks: seq<bool>)
    requires |fs| == |marks| && Pythonic(text)
    ensures |Speak(text, SpelledOut(text, fs, marks))| >= |Speak(text, fs)|
    ensures Speak(text, SpelledOut(text, fs, marks)) == Speak(text, fs) ==> AllReadAlike(text, Marked(fs, marks))
    decreases fs
  {
    if fs != [] {
      SpeaksAlike(text, fs[1..], marks[1..]);
      var s := SpelledOut(text, fs, marks);
      assert s[1..] == SpelledOut(text, fs[1..], marks[1..]);
      if fs[0].Value? { NeverShorter(text, fs[0].v); }
      var a, b := Speak(text, s), Speak(text, fs);
      var x, y := Voice(text, s[0]), Voice(text, fs[0]);
      assert a == x + Speak(text, s[1..]) && b == y + Speak(text, fs[1..]);
      if a == b {
        assert |x| == |y|;
        assert x == a[..|x|] == b[..|y|] == y;
        assert Speak(text, s[1..]) == a[|x|..] == b[|y|..] == Speak(text, fs[1..]);
      }
    }
  }

  /** The template's live placeholder, where it would stand alone, is a string. */
  predicate LoneIsText(fs: seq<Fragment>) { Values(fs) > 0 ==> Lone(fs).Str? }

  /** Spelled at compile time and at run time, a template gives the same value exactly when it is
      faithful, or all it leaves to run time is one string. */
  lemma SameIsFaithful(text: Json -> string, fs: seq<Fragment>, marks: seq<bool>)
    requires |fs| == |marks| && Pythonic(text)
    ensures var vs, s := Marked(fs, marks), SpelledOut(text, fs, marks);
      Finish(text, s) == Finish(text, fs) <==>
        Faithful(text, fs, vs)
        || (AllReadAlike(text, vs) && Texts(fs) == 0 && Values(fs) == |vs| + 1 && Values(fs) > 1
          && !SomeSpoken(text, vs) && LoneIsText(s))
  {
    var vs, s := Marked(fs, marks), SpelledOut(text, fs, marks);
    if Faithful(text, fs, vs) {
      FaithfulIsSame(text, fs, marks);
    } else {
      FinishIs(text, fs);
      FinishIs(text, s);
      SeedingCounts(text, fs, marks);
      SpeaksAlike(text, fs, marks);
      if AllReadAlike(text, vs) { AlikeSpeaks(text, fs, marks); }
      if Values(fs) == 1 && Texts(fs) == 0 {
        OnlyMarked(fs, marks);
        LoneSpeaks(text, fs);
      } else if Values(s) == 1 && Texts(s) == 0 {
        LoneSpeaks(text, s);
        if !AllReadAlike(text, vs) { UnspokenIsAlike(text, vs); }
      }
    }
  }

  /** What is spelled as nothing would be nothing live, too. */
  lemma UnspokenIsAlike(text: Json -> string, vs: seq<Json>)
    requires Pythonic(text) && !SomeSpoken(text, vs)
    ensures AllReadAlike(text, vs)
  {
    forall v | v in vs ensures ReadsAlike(text, v) { NeverShorter(text, v); }
  }

  // ---------------------------------------------------------------- fragments side by side

  /** Fragments of one template under two environments: they differ in live values only. */
  predicate SameShape(a: seq<Fragment>, b: seq<Fragment>, marks: seq<bool>)
  {
    && |a| == |b| == |marks|
    && forall i | 0 <= i < |a| :: (a[i].Value? && b[i].Value? && (marks[i] ==> a[i] == b[i])) || a[i] == b[i]
  }

  lemma {:induction false} ShapeCounts(a: seq<Fragment>, b: seq<Fragment>, marks: seq<bool>)
    requires SameShape(a, b, marks)
    ensures Values(a) == Values(b) && Texts(a) == Texts(b) && Marked(a, marks) == Marked(b, marks)
    decreases a
  {
    if a != [] {
      assert SameShape(a[1..], b[1..], marks[1..]) by {
        forall i | 0 <= i < |a[1..]|
          ensures (a[1..][i].Value? && b[1..][i].Value? && (marks[1..][i] ==> a[1..][i] == b[1..][i]))
            || a[1..][i] == b[1..][i]
        { assert a[i + 1] == a[1..][i] && b[i + 1] == b[1..][i] && marks[i + 1] == marks[1..][i]; }
      }
      ShapeCounts(a[1..], b[1..], marks[1..]);
      assert (a[0].Value? && b[0].Value? && (marks[0] ==> a[0] == b[0])) || a[0] == b[0];
    }
  }

  lemma ShapeAppends(a: seq<Fragment>, b: seq<Fragment>, marks: seq<bool>, a': seq<Fragment>, b': seq<Fragment>,
      more: seq<bool>)
    requires SameShape(a, b, marks) && SameShape(a', b', more)
    ensures SameShape(a + a', b + b', marks + more)
  {
  }

  lemma SpelledAppend(text: Json -> string, a: seq<Fragment>, b: seq<Fragment>, marks: seq<bool>, more: seq<bool>)
    requires |a| == |marks| && |b| == |more|
    ensures SpelledOut(text, a + b, marks + more) == SpelledOut(text, a, marks) + SpelledOut(text, b, more)
  {
  }

  lemma ShapeLengths(a: seq<Fragment>, b: seq<Fragment>, marks: seq<bool>)
    requires SameShape(a, b, marks)
    ensures |a| == |b| == |marks|
  {
  }

  lemma NothingSpelled(text: Json -> string)
    ensures SameShape([], [], []) && SpelledOut(text, [], []) == []
  {
  }
}
