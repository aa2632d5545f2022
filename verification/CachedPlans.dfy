/** The plan a continuation carries as JSON: what the next compilation starts from is what the
    last one started from. */
module CachedPlans {
  import opened Json
  import opened Sources
  import opened Aliases
  import opened Dumps
  import opened Transport

  /** Plan and repeat as a continuation caches them. */
  predicate Caches(cached: Json, plan: Json, repeat: string)
  {
    && cached.Obj? && {"plan", "completed_repeat"} <= cached.fields.Keys
    && cached.fields["plan"] == plan && cached.fields["completed_repeat"] == Str(repeat)
  }

  /** One repeat is apart from itself. */
  lemma OneRepeatIsApart(repeats: set<string>)
    requires |repeats| <= 1
    ensures Apart(repeats)
  {
    forall r | r in repeats ensures r + "_tick" !in repeats {
      assert |repeats - {r}| == 0;
      assert repeats == {r};
      OneIsApart(r);
    }
  }

  /** A plan with one repeat at most was aliased, parsed and compiled, and cached as the parsed plan is
      dumped. However the request that hands it on is prepared and rendered, the next compilation
      parses the very same plan from what arrives, and resumes the same repeat. */
  lemma SamePlanAgain(lib: Library, m: Message, intent: Json, constraints: Json, cached: Json, source: Json, plan: Json,
      repeat: string,
                      ctx: Json, text: Json -> string)
    requires Aliased(source).Ok? && ParsedPlan(Aliased(source).value) == Ok(plan)
      && |Aliases.Repeats(Steps(source)).value| <= 1
    requires Caches(cached, DumpedPlan(plan), repeat)
    requires Prepared(lib, m).Ok? && m.body.Some? && HandsOn(m.body.value, intent, constraints, cached)
    ensures Arrives(Prepared(lib, m).value.body, plan, repeat, ctx, text)
  {
    hide Prepared, RenderSource, Protect, ParsedPlan, DumpedPlan, Apart;
    HandedOnSurvives(lib, m, intent, constraints, cached, ctx, text);
    OneRepeatIsApart(Aliases.Repeats(Steps(source)).value);
    SameParse(source);
  }

  ghost predicate Arrives(sent: Option<Json>, plan: Json, repeat: string, ctx: Json, text: Json -> string)
  {
    sent.Some? &&
    var v := RenderSource(sent.value, ctx, text);
    && v.Obj? && "context" in v.fields && v.fields["context"].Obj? && CACHED in v.fields["context"].fields
    && var got := v.fields["context"].fields[CACHED];
       got.Obj? && "plan" in got.fields && Caches(got, got.fields["plan"], repeat)
       && Aliased(got.fields["plan"]).Ok? && ParsedPlan(Aliased(got.fields["plan"]).value) == Ok(plan)
  }
}
