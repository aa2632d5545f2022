/** A plan parsed from JSON, and dumped again without what has its default. */
module Dumps {
  import opened Json
  import opened Sources
  import opened Aliases

  /** The fields of an operation besides its kind, and what they are when left out. */
  const DEFAULTS: map<string, Json> := map[
    "id" := Null, "capability_name" := Null, "artifact_id" := Null, "args" := Obj(map[]),
    "steps" := Arr([]), "branches" := Arr([]), "otherwise" := Arr([]), "when" := Null, "seconds" := Null,
    "interval_seconds" := Null, "count" := Null, "duration_seconds" := Null, "continuous" := Bool(false),
    "deadline_unix" := Null, "state" := Null, "initial_state" := Null, "action" := Null, "compensation" := Null]

  const FIELDS := DEFAULTS.Keys + {"kind"}

  /** The fields that hold operations. */
  const NESTED := {"steps", "branches", "otherwise"}

  lemma FieldNames()
    ensures "kind" in FIELDS && "kind" !in DEFAULTS && "kind" !in NESTED && "kind" != WRAPPER
      && "kind" !in {"ref", "path"}
    ensures "ref" !in FIELDS && NESTED <= DEFAULTS.Keys && (forall k | k in NESTED :: DEFAULTS[k] == Arr([]))
    ensures "args" in DEFAULTS && DEFAULTS["args"].Obj? && "continuous" in DEFAULTS && DEFAULTS["continuous"].Bool?
    ensures "args" !in NESTED && "continuous" !in NESTED && "id" in DEFAULTS && DEFAULTS["id"] == Null
      && "id" !in NESTED
  {
  }

  // ---------------------------------------------------------------- parsing

  /** Fields that cannot be null have the type of their default. */
  predicate Typed(fields: map<string, Json>)
  {
    && "kind" in fields && fields["kind"].Str? && fields.Keys <= FIELDS
    && ("args" in fields ==> fields["args"].Obj?) && ("continuous" in fields ==> fields["continuous"].Bool?)
  }

  /** The operation with all its fields. */
  function ParsedOp(v: Json): Result<Json>
    decreases v
  {
    if v.Obj? && Typed(v.fields) && forall k | k in v.fields && k in NESTED :: ParsedOps(v.fields[k]).Ok? then
      Ok(Obj(map k | k in FIELDS ::
        if k !in v.fields then DEFAULTS[k] else if k in NESTED then ParsedOps(v.fields[k]).value else v.fields[k]))
    else Raise("operation")
  }

  function ParsedOps(v: Json): Result<Json>
    decreases v
  {
    if v.Arr? && forall i | 0 <= i < |v.items| :: ParsedOp(v.items[i]).Ok? then
      Ok(Arr(seq(|v.items|, i requires 0 <= i < |v.items| => ParsedOp(v.items[i]).value)))
    else Raise("operations")
  }

  // ---------------------------------------------------------------- dumping

  /** A field is dumped unless it is null or has its default. */
  predicate Kept(k: string, v: Json) { v != Null && (k in DEFAULTS ==> v != DEFAULTS[k]) }

  function DumpedOp(p: Json): Json
    decreases p
  {
    match p
    case Obj(fields) =>
      Obj(map k | k in fields && Kept(k, fields[k]) :: if k in NESTED then DumpedOps(fields[k]) else fields[k])
    case _ => p
  }

  function DumpedOps(v: Json): Json
    decreases v
  {
    match v
    case Arr(items) => Arr(seq(|items|, i requires 0 <= i < |items| => DumpedOp(items[i])))
    case _ => v
  }

  /** What a dump of a parsed operation holds. */
  lemma DumpedFields(v: Json) returns (p: map<string, Json>, d: map<string, Json>)
    requires ParsedOp(v).Ok?
    ensures v.Obj? && Typed(v.fields) && ParsedOp(v) == Ok(Obj(p)) && DumpedOp(Obj(p)) == Obj(d) && p.Keys == FIELDS
    ensures forall k | k in v.fields && k in NESTED :: ParsedOps(v.fields[k]) == Ok(p[k])
    ensures forall k | k in v.fields && k !in NESTED :: p[k] == v.fields[k]
    ensures forall k | k in FIELDS && k !in v.fields :: p[k] == DEFAULTS[k]
    ensures forall k :: k in d <==> k in v.fields && Kept(k, p[k])
    ensures forall k | k in d :: d[k] == if k in NESTED then DumpedOps(p[k]) else p[k]
  {
    p := ParsedOp(v).value.fields;
    d := DumpedOp(Obj(p)).fields;
  }

  // ---------------------------------------------------------------- the round trip

  /** The object parses to the fields. */
  lemma ParsesTo(d: map<string, Json>, p: map<string, Json>)
    requires Typed(d) && p.Keys == FIELDS
    requires forall k | k in d && k in NESTED :: ParsedOps(d[k]) == Ok(p[k])
    requires forall k | k in d && k !in NESTED :: p[k] == d[k]
    requires forall k | k in FIELDS && k !in d :: k in DEFAULTS && p[k] == DEFAULTS[k]
    ensures ParsedOp(Obj(d)) == Ok(Obj(p))
  {
    hide DEFAULTS, ParsedOps;
    var w := Obj(d);
    var again := map k | k in FIELDS :: if k !in w.fields then DEFAULTS[k]
      else if k in NESTED then ParsedOps(w.fields[k]).value else w.fields[k];
    assert again == p;
    assert ParsedOp(w) == Ok(Obj(again));
  }

  lemma {:induction false} OpRoundTrip(v: Json)
    requires ParsedOp(v).Ok?
    ensures ParsedOp(DumpedOp(ParsedOp(v).value)) == ParsedOp(v)
    decreases v
  {
    hide DEFAULTS, ParsedOp, ParsedOps, DumpedOp, DumpedOps, Kept;
    var p, d := DumpedFields(v);
    forall k | k in d && k in NESTED ensures ParsedOps(d[k]) == Ok(p[k]) { OpsRoundTrip(v.fields[k]); }
    forall k | k in FIELDS && k !in d ensures k in DEFAULTS && p[k] == DEFAULTS[k] {
      if k in v.fields { DroppedIsDefault(v, p, k); } else { FieldNames(); }
    }
    DumpIsTyped(v.fields, p, d);
    ParsesTo(d, p);
  }

  lemma DumpIsTyped(fields: map<string, Json>, p: map<string, Json>, d: map<string, Json>)
    requires Typed(fields) && p.Keys == FIELDS && (forall k :: k in d <==> k in fields && Kept(k, p[k]))
    requires forall k | k in fields && k !in NESTED :: p[k] == fields[k]
    requires forall k | k in d && k !in NESTED :: d[k] == p[k]
    ensures Typed(d) && "kind" in d
  {
    FieldNames();
    hide DEFAULTS;
  }

  /** What is dropped for being null has null as its default. */
  lemma DroppedIsDefault(v: Json, p: map<string, Json>, k: string)
    requires v.Obj? && Typed(v.fields) && k in v.fields && k in p && !Kept(k, p[k])
    requires if k in NESTED then ParsedOps(v.fields[k]) == Ok(p[k]) else p[k] == v.fields[k]
    ensures k in DEFAULTS && p[k] == DEFAULTS[k]
  {
  }

  lemma {:induction false} OpsRoundTrip(v: Json)
    requires ParsedOps(v).Ok?
    ensures ParsedOps(DumpedOps(ParsedOps(v).value)) == ParsedOps(v)
    decreases v
  {
    var p := ParsedOps(v).value;
    var d := DumpedOps(p);
    forall i | 0 <= i < |v.items| ensures ParsedOp(d.items[i]) == Ok(p.items[i]) { OpRoundTrip(v.items[i]); }
    assert seq(|d.items|, i requires 0 <= i < |d.items| => ParsedOp(d.items[i]).value) == p.items;
  }

  // ---------------------------------------------------------------- aliases

  lemma {:induction false} DumpStaysAliased(repeats: set<string>, v: Json)
    requires ParsedOp(v).Ok? && Alias(repeats, v) == Ok(v)
    ensures Alias(repeats, DumpedOp(ParsedOp(v).value)) == Ok(DumpedOp(ParsedOp(v).value))
    decreases v
  {
    hide DEFAULTS, ParsedOp, ParsedOps, DumpedOp, DumpedOps, Kept, Alias;
    var p, d := DumpedFields(v);
    FieldNames();
    KeepsAliases(repeats, v.fields);
    DumpIsTyped(v.fields, p, d);
    forall k | k in d ensures Alias(repeats, d[k]) == Ok(d[k]) {
      if k in NESTED { DumpsStayAliased(repeats, v.fields[k]); }
    }
    SameFields(repeats, d);
  }

  /** Aliasing that changes nothing changes no field. */
  lemma KeepsAliases(repeats: set<string>, fields: map<string, Json>)
    requires Alias(repeats, Obj(fields)) == Ok(Obj(fields)) && Typed(fields)
    ensures forall k | k in fields :: Alias(repeats, fields[k]) == Ok(fields[k])
  {
    FieldNames();
    hide DEFAULTS;
    NothingAliased(repeats, fields);
  }

  lemma NothingAliased(repeats: set<string>, fields: map<string, Json>)
    requires Alias(repeats, Obj(fields)) == Ok(Obj(fields)) && !Wrapped(Obj(fields)) && !NamesRepeat(repeats, fields)
    ensures forall k | k in fields :: Alias(repeats, fields[k]) == Ok(fields[k])
  {
    var v := Obj(fields);
    var same := map k | k in v.fields :: Alias(repeats, v.fields[k]).value;
    assert same == fields;
    forall k | k in fields ensures Alias(repeats, fields[k]) == Ok(fields[k]) { assert same[k] == fields[k]; }
  }

  lemma {:induction false} DumpsStayAliased(repeats: set<string>, v: Json)
    requires ParsedOps(v).Ok? && Alias(repeats, v) == Ok(v)
    ensures Alias(repeats, DumpedOps(ParsedOps(v).value)) == Ok(DumpedOps(ParsedOps(v).value))
    decreases v
  {
    var d := DumpedOps(ParsedOps(v).value);
    assert !Wrapped(v);
    var same := seq(|v.items|, i requires 0 <= i < |v.items| => Alias(repeats, v.items[i]).value);
    assert same == v.items;
    forall i | 0 <= i < |v.items| ensures Alias(repeats, d.items[i]) == Ok(d.items[i]) {
      assert same[i] == v.items[i];
      DumpStaysAliased(repeats, v.items[i]);
    }
    SameItems(repeats, d.items);
  }

  // ---------------------------------------------------------------- repeats

  lemma {:induction false} DumpKeepsRepeat(v: Json)
    requires ParsedOp(v).Ok? && RepeatsOf(v).Ok?
    ensures RepeatsOf(DumpedOp(ParsedOp(v).value)) == RepeatsOf(v)
    decreases v, 1
  {
    hide DEFAULTS, ParsedOp, ParsedOps, DumpedOp, DumpedOps, Repeats;
    var p, d := DumpedFields(v);
    FieldNames();
    forall k | k in NESTED
      ensures (if k in d then Repeats(d[k]) else Ok({})) == (if k in v.fields then Repeats(v.fields[k]) else Ok({}))
    {
      if k in v.fields {
        DumpKeepsRepeats(v.fields[k]);
        if k !in d { NothingDumped(v.fields[k], p[k]); }
      }
    }
    DumpIsTyped(v.fields, p, d);
    assert OwnId(d) == OwnId(v.fields);
  }

  lemma NothingDumped(v: Json, p: Json)
    requires ParsedOps(v) == Ok(p) && (p == Null || p == Arr([]))
    ensures DumpedOps(p) == Arr([]) && Repeats(Arr([])) == Ok({})
  {
  }

  lemma {:induction false} DumpKeepsRepeats(v: Json)
    requires ParsedOps(v).Ok? && Repeats(v).Ok?
    ensures Repeats(DumpedOps(ParsedOps(v).value)) == Repeats(v)
    decreases v, 0
  {
    var d := DumpedOps(ParsedOps(v).value);
    DumpKeepsAmong(v.items, d.items);
  }

  lemma {:induction false} DumpKeepsAmong(items: seq<Json>, items': seq<Json>)
    requires |items'| == |items| && RepeatsAmong(items).Ok?
    requires forall i | 0 <= i < |items| :: ParsedOp(items[i]).Ok? && items'[i] == DumpedOp(ParsedOp(items[i]).value)
    ensures RepeatsAmong(items') == RepeatsAmong(items)
    decreases items, 0
  {
    if items != [] {
      DumpKeepsRepeat(items[0]);
      DumpKeepsAmong(items[1..], items'[1..]);
    }
  }

  // ---------------------------------------------------------------- whole plans

  const PLAN_FIELDS := {"version", "name", "steps", "failureHandling"}

  const VERSION := Str("workflow-plan-v1")

  predicate PlanTyped(fields: map<string, Json>)
  {
    && {"name", "steps"} <= fields.Keys <= PLAN_FIELDS && fields["name"].Str?
    && ("version" in fields ==> fields["version"] == VERSION)
  }

  function ParsedPlan(v: Json): Result<Json>
  {
    if v.Obj? && PlanTyped(v.fields) && ParsedOps(v.fields["steps"]).Ok? && v.fields["steps"] != Arr([]) then
      Ok(Obj(map["version" := VERSION, "name" := v.fields["name"], "steps" := ParsedOps(v.fields["steps"]).value,
                 "failureHandling" := if "failureHandling" in v.fields then v.fields["failureHandling"] else Null]))
    else Raise("plan")
  }

  /** The version always has its default. */
  function DumpedPlan(p: Json): Json
  {
    if !p.Obj? || !(PLAN_FIELDS <= p.fields.Keys) then p
    else
      var least := map["name" := p.fields["name"], "steps" := DumpedOps(p.fields["steps"])];
      Obj(if p.fields["failureHandling"] == Null then least
        else least["failureHandling" := p.fields["failureHandling"]])
  }

  lemma PlanRoundTrip(v: Json)
    requires ParsedPlan(v).Ok?
    ensures ParsedPlan(DumpedPlan(ParsedPlan(v).value)) == ParsedPlan(v)
  {
    OpsRoundTrip(v.fields["steps"]);
    var p := ParsedPlan(v).value;
    var d := DumpedPlan(p);
    assert d.fields["steps"] == DumpedOps(p.fields["steps"]);
    assert |p.fields["steps"].items| == |v.fields["steps"].items| == |d.fields["steps"].items| > 0;
  }

  lemma PlanStaysAliased(repeats: set<string>, v: Json)
    requires ParsedPlan(v).Ok? && Alias(repeats, v) == Ok(v)
    ensures Alias(repeats, DumpedPlan(ParsedPlan(v).value)) == Ok(DumpedPlan(ParsedPlan(v).value))
  {
    hide Alias, ParsedOps, DumpedOps;
    var d := DumpedPlan(ParsedPlan(v).value).fields;
    assert "name" in d && "name" != WRAPPER && "name" !in {"ref", "path"} && "ref" !in PLAN_FIELDS;
    PlanKeepsAliases(repeats, v.fields);
    DumpsStayAliased(repeats, v.fields["steps"]);
    assert d.Keys <= {"name", "steps", "failureHandling"};
    SameFields(repeats, d);
  }

  lemma PlanKeepsAliases(repeats: set<string>, fields: map<string, Json>)
    requires Alias(repeats, Obj(fields)) == Ok(Obj(fields)) && PlanTyped(fields)
    ensures forall k | k in fields :: Alias(repeats, fields[k]) == Ok(fields[k])
  {
    assert "name" in fields && "name" != WRAPPER && "name" !in {"ref", "path"} && "ref" !in PLAN_FIELDS;
    NothingAliased(repeats, fields);
  }

  /** A plan that was aliased, parsed and dumped is aliased and parsed to the same plan. */
  lemma SameParse(plan: Json)
    requires Aliased(plan).Ok? && Apart(Aliases.Repeats(Steps(plan)).value) && ParsedPlan(Aliased(plan).value).Ok?
    ensures var again := Aliased(DumpedPlan(ParsedPlan(Aliased(plan).value).value));
      again.Ok? && ParsedPlan(again.value) == ParsedPlan(Aliased(plan).value)
  {
    var v := Aliased(plan).value;
    var repeats := Aliases.Repeats(Steps(plan)).value;
    var d := DumpedPlan(ParsedPlan(v).value);
    AliasedTwice(plan);
    PlanRoundTrip(v);
    assert Steps(v) == v.fields["steps"] && Steps(d) == DumpedOps(ParsedOps(v.fields["steps"]).value);
    AliasedRepeats(plan);
    DumpKeepsRepeats(v.fields["steps"]);
    if repeats != {} { PlanStaysAliased(repeats, v); }
  }

  lemma AliasedRepeats(plan: Json)
    requires Aliased(plan).Ok? && ParsedPlan(Aliased(plan).value).Ok?
    ensures Aliases.Repeats(Steps(Aliased(plan).value)) == Aliases.Repeats(Steps(plan))
  {
    var repeats := Aliases.Repeats(Steps(plan)).value;
    if repeats != {} && !Wrapped(plan) {
      assert plan.Obj? && "steps" in plan.fields;
      assert !NamesRepeat(repeats, plan.fields);
      SameRepeats(repeats, plan.fields["steps"]);
    }
  }
}
