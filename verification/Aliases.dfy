/** Reading a repeat's retained state through the repeat itself: references to a repeat become
    references to its tick, in the source JSON of a plan, before it is parsed. */
module Aliases {
  import opened Json
  import opened Sources

  const COUNTERS := {"iteration", "remaining_iterations", "deadline_unix"}

  // ---------------------------------------------------------------- the repeats of a plan

  /** The ids of the repeats among the steps, at every depth. */
  function Repeats(steps: Json): Result<set<string>>
    decreases steps, 1
  {
    match steps
    case Arr(items) => RepeatsAmong(items)
    case _ => Ok({})
  }

  function RepeatsAmong(items: seq<Json>): Result<set<string>>
    decreases items, 0
  {
    if items == [] then Ok({})
    else
      var first :- RepeatsOf(items[0]);
      var rest :- RepeatsAmong(items[1..]);
      Ok(first + rest)
  }

  function RepeatsOf(step: Json): Result<set<string>>
    decreases step, 2
  {
    match step
    case Obj(fields) =>
      var own :- OwnId(fields);
      var steps :- if "steps" in fields then Repeats(fields["steps"]) else Ok({});
      var otherwise :- if "otherwise" in fields then Repeats(fields["otherwise"]) else Ok({});
      var branches :- if "branches" in fields then Repeats(fields["branches"]) else Ok({});
      Ok(own + steps + otherwise + branches)
    case _ => Ok({})
  }

  function OwnId(fields: map<string, Json>): Result<set<string>>
  {
    if !("kind" in fields && fields["kind"] == Str("repeat") && "id" in fields && Truthy(fields["id"])) then Ok({})
    else if fields["id"].Str? then Ok({fields["id"].s})
    else Raise("id")
  }

  // ---------------------------------------------------------------- aliasing

  predicate Prefixed(s: string, prefix: string) { prefix <= s }

  /** A retained key is read below "state"; counters and whole states are read as they are. */
  function StatePath(path: string): string
  {
    if path in COUNTERS || path == "state" || Prefixed(path, "state.") then path
    else if path == "" then "state"
    else "state." + path
  }

  function PathOf(fields: map<string, Json>): Result<string>
  {
    if "path" !in fields || !Truthy(fields["path"]) then Ok("")
    else if fields["path"].Str? then Ok(fields["path"].s)
    else Raise("path")
  }

  function TickRef(repeat: string, path: string): Json
  {
    Obj(map["ref" := Str(repeat + "_tick"), "path" := Str(StatePath(path))])
  }

  predicate NamesRepeat(repeats: set<string>, fields: map<string, Json>)
  {
    "ref" in fields && fields["ref"].Str? && fields["ref"].s in repeats && fields.Keys <= {"ref", "path"}
  }

  function Alias(repeats: set<string>, v: Json): Result<Json>
    decreases v
  {
    if Wrapped(v) then Ok(v)
    else
      match v
      case Arr(items) =>
        if forall i | 0 <= i < |items| :: Alias(repeats, items[i]).Ok? then
          Ok(Arr(seq(|items|, i requires 0 <= i < |items| => Alias(repeats, items[i]).value)))
        else Raise("alias")
      case Obj(fields) =>
        if "ref" in fields && (fields["ref"].Obj? || fields["ref"].Arr?) then Raise("unhashable ref")
        else if NamesRepeat(repeats, fields) then
          var path :- PathOf(fields);
          Ok(TickRef(fields["ref"].s, path))
        else if forall k | k in fields :: Alias(repeats, fields[k]).Ok? then
          Ok(Obj(map k | k in fields :: Alias(repeats, fields[k]).value))
        else Raise("alias")
      case _ => Ok(v)
  }

  function Steps(plan: Json): Json
  {
    if plan.Obj? && "steps" in plan.fields then plan.fields["steps"] else Null
  }

  /** The plan the compiler parses. */
  function Aliased(plan: Json): Result<Json>
  {
    var repeats :- Repeats(Steps(plan));
    if repeats == {} then Ok(plan) else Alias(repeats, plan)
  }

  // ---------------------------------------------------------------- aliasing twice

  /** No repeat is called like another one's tick. */
  predicate Apart(repeats: set<string>)
  {
    forall r | r in repeats :: r + "_tick" !in repeats
  }

  lemma {:induction false} AliasTwice(repeats: set<string>, v: Json)
    requires Apart(repeats) && Alias(repeats, v).Ok?
    ensures Alias(repeats, Alias(repeats, v).value) == Alias(repeats, v)
    ensures Wrapped(Alias(repeats, v).value) <==> Wrapped(v)
    decreases v
  {
    if !Wrapped(v) {
      match v
      case Arr(items) =>
        var w := Alias(repeats, v).value;
        forall i | 0 <= i < |items|
          ensures Alias(repeats, w.items[i]) == Ok(w.items[i]) { AliasTwice(repeats, items[i]); }
        SameItems(repeats, w.items);
      case Obj(fields) =>
        if NamesRepeat(repeats, fields) {
          TickRefStays(repeats, fields["ref"].s, PathOf(fields).value);
        } else {
          var w := Alias(repeats, v).value;
          forall k | k in fields
            ensures Alias(repeats, w.fields[k]) == Ok(w.fields[k]) { AliasTwice(repeats, fields[k]); }
          ScalarsStay(repeats, fields, "ref");
          assert w.fields.Keys == fields.Keys;
          SameFields(repeats, w.fields);
        }
      case _ =>
    }
  }

  lemma SameItems(repeats: set<string>, items: seq<Json>)
    requires forall i | 0 <= i < |items| :: Alias(repeats, items[i]) == Ok(items[i])
    ensures Alias(repeats, Arr(items)) == Ok(Arr(items))
  {
    assert seq(|items|, i requires 0 <= i < |items| => Alias(repeats, items[i]).value) == items;
  }

  lemma SameFields(repeats: set<string>, fields: map<string, Json>)
    requires !Wrapped(Obj(fields)) && !NamesRepeat(repeats, fields)
    requires "ref" in fields ==> !fields["ref"].Obj? && !fields["ref"].Arr?
    requires forall k | k in fields :: Alias(repeats, fields[k]) == Ok(fields[k])
    ensures Alias(repeats, Obj(fields)) == Ok(Obj(fields))
  {
    var v := Obj(fields);
    assert forall k | k in v.fields :: Alias(repeats, v.fields[k]).Ok?;
    var same := map k | k in v.fields :: Alias(repeats, v.fields[k]).value;
    assert same == v.fields;
    assert Alias(repeats, v) == Ok(Obj(same));
  }

  lemma TickRefStays(repeats: set<string>, repeat: string, path: string)
    requires Apart(repeats) && repeat in repeats
    ensures Alias(repeats, TickRef(repeat, path)) == Ok(TickRef(repeat, path)) && !Wrapped(TickRef(repeat, path))
  {
    var v := TickRef(repeat, path);
    assert "ref" in v.fields && v.fields["ref"] == Str(repeat + "_tick");
    assert "ref" != WRAPPER;
    SameFields(repeats, v.fields);
  }

  /** A field's value keeps its kind. */
  lemma ScalarsStay(repeats: set<string>, fields: map<string, Json>, key: string)
    requires forall k | k in fields :: Alias(repeats, fields[k]).Ok?
    ensures key in fields ==> (fields[key].Str? ==> Alias(repeats, fields[key]).value == fields[key])
    ensures key in fields ==>
      (!fields[key].Obj? && !fields[key].Arr? ==> Alias(repeats, fields[key]).value == fields[key])
  {
  }

  /** Aliasing leaves the repeats themselves where they are. */
  lemma {:induction false} SameRepeats(repeats: set<string>, steps: Json)
    requires Alias(repeats, steps).Ok? && Repeats(steps).Ok?
    ensures Repeats(Alias(repeats, steps).value) == Repeats(steps)
    decreases steps, 1
  {
    if steps.Arr? {
      var items, items' := steps.items, Alias(repeats, steps).value.items;
      SameAmong(repeats, items, items');
    }
  }

  lemma {:induction false} SameAmong(repeats: set<string>, items: seq<Json>, items': seq<Json>)
    requires |items'| == |items| && RepeatsAmong(items).Ok?
    requires forall i | 0 <= i < |items| :: Alias(repeats, items[i]) == Ok(items'[i])
    ensures RepeatsAmong(items') == RepeatsAmong(items)
    decreases items, 0
  {
    if items != [] {
      SameOf(repeats, items[0]);
      SameAmong(repeats, items[1..], items'[1..]);
    }
  }

  lemma {:induction false} SameOf(repeats: set<string>, step: Json)
    requires Alias(repeats, step).Ok? && RepeatsOf(step).Ok?
    ensures RepeatsOf(Alias(repeats, step).value) == RepeatsOf(step)
    decreases step, 2
  {
    if step.Obj? && !Wrapped(step) {
      var fields := step.fields;
      if NamesRepeat(repeats, fields) {
        assert "kind" !in fields && "steps" !in fields && "otherwise" !in fields && "branches" !in fields;
        var w := Alias(repeats, step).value;
        assert w.fields.Keys == {"ref", "path"};
      } else {
        ScalarsStay(repeats, fields, "kind");
        ScalarsStay(repeats, fields, "id");
        KindStays(repeats, fields);
        if "steps" in fields { SameRepeats(repeats, fields["steps"]); }
        if "otherwise" in fields { SameRepeats(repeats, fields["otherwise"]); }
        if "branches" in fields { SameRepeats(repeats, fields["branches"]); }
      }
    }
  }

  lemma KindStays(repeats: set<string>, fields: map<string, Json>)
    requires Alias(repeats, Obj(fields)).Ok? && !NamesRepeat(repeats, fields) && !Wrapped(Obj(fields))
      && OwnId(fields).Ok?
    ensures OwnId(Alias(repeats, Obj(fields)).value.fields) == OwnId(fields)
  {
    var fields' := Alias(repeats, Obj(fields)).value.fields;
    if "kind" in fields {
      assert fields'["kind"] == Alias(repeats, fields["kind"]).value;
      ScalarsStay(repeats, fields, "kind");
      ScalarsStay(repeats, fields, "id");
    }
  }

  /** A cached plan is re-aliased to itself, so a resumed block compiles the same plan. */
  lemma AliasedTwice(plan: Json)
    requires Aliased(plan).Ok? && Apart(Repeats(Steps(plan)).value)
    ensures Aliased(Aliased(plan).value) == Aliased(plan)
  {
    var repeats := Repeats(Steps(plan)).value;
    if repeats != {} {
      AliasTwice(repeats, plan);
      var plan' := Aliased(plan).value;
      if Wrapped(plan) {
      } else {
        assert plan.Obj? && "steps" in plan.fields;
        assert !NamesRepeat(repeats, plan.fields);
        assert Steps(plan') == Alias(repeats, plan.fields["steps"]).value;
        SameRepeats(repeats, plan.fields["steps"]);
      }
    }
  }

  /** One repeat is always apart from itself, so the condition holds of every plan the compiler
      accepts; with two, a plan can be aliased twice over. */
  lemma OneIsApart(repeat: string)
    ensures Apart({repeat})
  {
    assert |repeat + "_tick"| != |repeat|;
  }

  lemma TwoCanClash()
    ensures var repeats := {"a", "a_tick"};
      var v := Obj(map["ref" := Str("a"), "path" := Str("")]);
      && Alias(repeats, v) == Ok(TickRef("a", ""))
      && Alias(repeats, TickRef("a", "")) == Ok(TickRef("a_tick", "state")) != Ok(TickRef("a", ""))
  {
    var v := Obj(map["ref" := Str("a"), "path" := Str("")]);
    assert "a" + "_tick" == "a_tick";
    assert "ref" in v.fields && "ref" != WRAPPER;
    assert TickRef("a", "") == Obj(map["ref" := Str("a_tick"), "path" := Str("state")]);
    assert !Wrapped(TickRef("a", "")) by { assert "ref" in TickRef("a", "").fields; }
    assert TickRef("a_tick", "state").fields["ref"].s == "a_tick_tick";
  }
}
