/** The compact workflow schema: native definitions are compressed where a task is a plain capability
    call, and expanded again after validation. */
module Compact {
  import opened Json

  type Fields = map<string, Json>

  // ---------------------------------------------------------------- the schema

  predicate Named(f: Fields, key: string) { key in f && f[key].Str? && f[key].s != "" }

  predicate Text(f: Fields, key: string) { key in f && f[key].Str? }

  predicate OptionalText(f: Fields, key: string) { key in f ==> f[key].Str? }

  predicate OptionalObject(f: Fields, key: string) { key in f ==> f[key].Obj? }

  const TASK_KEYS := {"id", "kind", "capability_name", "artifact_id", "input", "plan", "action", "compensation", "next"}

  function Given(f: Fields, key: string): nat { if key in f then 1 else 0 }

  /** How many of the four ways to say what a task does are given. */
  function Targets(f: Fields): nat
  {
    Given(f, "capability_name") + Given(f, "artifact_id") + Given(f, "plan") + Given(f, "action")
  }

  predicate TaskOk(f: Fields)
  {
    && f.Keys <= TASK_KEYS && Named(f, "id")
    && OptionalText(f, "capability_name") && OptionalText(f, "artifact_id") && OptionalText(f, "next")
    && OptionalObject(f, "input") && OptionalObject(f, "plan") && OptionalObject(f, "action")
    && OptionalObject(f, "compensation")
    && Targets(f) == 1
    && ("capability_name" in f ==> f["capability_name"] != Str(""))
    && ("artifact_id" in f ==> f["artifact_id"] != Str(""))
    && ("action" in f || "plan" in f ==> "input" !in f || f["input"] == Obj(map[]))
  }

  predicate SleepOk(f: Fields)
  {
    f.Keys <= {"id", "kind", "durationSeconds", "next"} && Named(f, "id") && OptionalText(f, "next")
    && "durationSeconds" in f && f["durationSeconds"].Num? && f["durationSeconds"].n > 0.0
  }

  predicate CaseOk(c: Json)
  {
    c.Obj? && c.fields.Keys == {"name", "when", "target"} && c.fields["name"].Str? && c.fields["when"].Obj?
      && c.fields["target"].Str?
  }

  predicate SwitchOk(f: Fields)
  {
    f.Keys == {"id", "kind", "cases", "default"} && Named(f, "id") && Text(f, "default")
    && f["cases"].Arr? && forall i | 0 <= i < |f["cases"].items| :: CaseOk(f["cases"].items[i])
  }

  predicate SplitOk(f: Fields)
  {
    f.Keys == {"id", "kind", "branches", "join"} && Named(f, "id") && Text(f, "join")
    && f["branches"].Arr? && |f["branches"].items| >= 2 && forall i | 0 <= i < |f["branches"].items| ::
      f["branches"].items[i].Str?
  }

  predicate JoinOk(f: Fields) { f.Keys <= {"id", "kind", "next"} && Named(f, "id") && OptionalText(f, "next") }

  predicate NodeOk(f: Fields)
  {
    "kind" in f &&
    if f["kind"] == Str("task") then TaskOk(f)
    else if f["kind"] == Str("sleep") then SleepOk(f)
    else if f["kind"] == Str("switch") then SwitchOk(f)
    else if f["kind"] == Str("split") then SplitOk(f)
    else f["kind"] == Str("join") && JoinOk(f)
  }

  const TOP_KEYS := {"name", "version", "entrypoint", "nodes", "max_iterations", "failureHandling"}

  /** The workflow's own fields, without its nodes. */
  predicate FrameOk(f: Fields)
  {
    && f.Keys <= TOP_KEYS && Named(f, "name") && Text(f, "entrypoint") && OptionalText(f, "version")
    && OptionalObject(f, "failureHandling")
    && ("max_iterations" in f ==>
      f["max_iterations"].Num? && f["max_iterations"].n >= 1.0
      && f["max_iterations"].n.Floor as real == f["max_iterations"].n)
    && "nodes" in f && f["nodes"].Arr?
  }

  // ---------------------------------------------------------------- expansion

  function WithoutNulls(f: Fields): Fields { map k | k in f && f[k] != Null :: f[k] }

  function CleanNode(n: Json): Json { if n.Obj? then Obj(WithoutNulls(n.fields)) else n }

  function WithDefault(f: Fields, key: string, v: Json): Fields { if key in f then f else f[key := v] }

  function Stripped(base: string): string
  {
    if base != "" && base[|base| - 1] == '/' then Stripped(base[..|base| - 1]) else base
  }

  const CALL_HEADERS: Json :=
      Obj(map["Authorization" := Str("Bearer __TRAMA_TOKEN__"), "Content-Type" := Str("application/json")])

  function CallRequest(base: string, body: Json): Json
  {
    Obj(map["url" := Str(Stripped(base) + "/trama/execute"), "verb" := Str("POST"), "headers" := CALL_HEADERS,
      "body" := body])
  }

  function CapabilityAction(base: string, body: Json): Json
  {
    Obj(map["mode" := Str("sync"), "request" := CallRequest(base, body), "successStatusCodes" := Arr([Num(200.0)])])
  }

  function PlanAction(base: string, body: Json): Json
  {
    Obj(map[
      "mode" := Str("sync"),
      "request" := Obj(map[
        "url" := Str(Stripped(base) + "/plans"),
        "verb" := Str("POST"),
        "headers" := Obj(map["Content-Type" := Str("application/json")]),
        "body" := body]),
      "successStatusCodes" := Arr([Num(200.0), Num(201.0)])])
  }

  const BASE_MARK := "__RS_BASE_URL__"

  predicate Marked(url: Json) { url.Str? && BASE_MARK + "/" <= url.s }

  /** A raw action with the mark at the start of its address replaced. */
  function RawAction(base: string, action: Fields): Result<Json>
  {
    if "request" !in action then Ok(Obj(action))
    else if !action["request"].Obj? then Raise("request")
    else
      var request := action["request"].fields;
      if "url" in request && Marked(request["url"]) then
        Ok(Obj(action["request" := Obj(request["url" := Str(Stripped(base) + request["url"].s[|BASE_MARK|..])])]))
      else Ok(Obj(action))
  }

  function TaskAction(base: string, f: Fields): Result<Json>
    requires TaskOk(f)
  {
    if "action" in f then RawAction(base, f["action"].fields)
    else if "plan" in f then Ok(PlanAction(base, f["plan"]))
    else
      var key := if "capability_name" in f then "capability_name" else "artifact_id";
      Ok(CapabilityAction(base, Obj(map[key := f[key], "input" := if "input" in f then f["input"] else Obj(map[])])))
  }

  /** A validated node, written out. */
  function NativeNode(base: string, f: Fields): Result<Json>
    requires NodeOk(f)
  {
    if f["kind"] == Str("task") then
      var action :- TaskAction(base, f);
      var native: Fields :=
        map["id" := f["id"], "kind" := Str("task"), "next" := if "next" in f then f["next"]
        else Str("end"), "action" := action];
      Ok(Obj(if "compensation" in f then native["compensation" := f["compensation"]] else native))
    else if f["kind"] == Str("sleep") || f["kind"] == Str("join") then Ok(Obj(WithDefault(f, "next", Str("end"))))
    else Ok(Obj(f))
  }

  function CompiledNode(base: string, n: Json): Result<Json>
  {
    var clean := CleanNode(n);
    if clean.Obj? && NodeOk(clean.fields) then NativeNode(base, clean.fields) else Raise("node")
  }

  function CompiledNodes(base: string, nodes: seq<Json>): (r: Result<seq<Json>>)
    ensures r.Ok? ==> |r.value| == |nodes|
  {
    if nodes == [] then Ok([])
    else
      var rest :- CompiledNodes(base, nodes[..|nodes| - 1]);
      var last :- CompiledNode(base, nodes[|nodes| - 1]);
      Ok(rest + [last])
  }

  function Compiled(base: string, d: Json): Result<Json>
  {
    if !d.Obj? || !FrameOk(WithoutNulls(d.fields)) then Raise("workflow")
    else
      var f := WithoutNulls(d.fields);
      var nodes :- CompiledNodes(base, f["nodes"].items);
      Ok(Obj(WithDefault(f, "version", Str("2.0.0"))["nodes" := Arr(nodes)]))
  }

  // ---------------------------------------------------------------- compression

  /** The body of a task's request; None when looking for it raises. */
  function BodyOf(f: Fields): Option<Json>
  {
    var action := if "action" in f then f["action"] else Obj(map[]);
    if !action.Obj? then None
    else
      var request := if "request" in action.fields then action.fields["request"] else Obj(map[]);
      if !request.Obj? then None
      else Some(if "body" in request.fields then request.fields["body"] else Obj(map[]))
  }

  /** The one target a capability call's body names. */
  function TargetOf(body: Json): Option<string>
  {
    if !body.Obj? then None
    else if body.fields.Keys == {"capability_name", "input"} then Some("capability_name")
    else if body.fields.Keys == {"artifact_id", "input"} then Some("artifact_id")
    else None
  }

  /** The task is the canonical call of its target. */
  predicate Plain(base: string, f: Fields)
  {
    && BodyOf(f).Some? && TargetOf(BodyOf(f).value).Some? && "action" in f
    && LooseEqual(f["action"], CapabilityAction(base, BodyOf(f).value))
  }

  function CompactNode(base: string, n: Json): Result<Json>
  {
    if !n.Obj? then Raise("node")
    else
      var f := n.fields;
      if "kind" !in f || f["kind"] != Str("task") then Ok(n)
      else if BodyOf(f).None? then Raise("action")
      else if !Plain(base, f) then Ok(n)
      else
        var body := BodyOf(f).value.fields;
        var key := TargetOf(BodyOf(f).value).value;
        Ok(Obj((f - {"action"})[key := body[key]]["input" := body["input"]]))
  }

  function CompactNodes(base: string, nodes: seq<Json>): (r: Result<seq<Json>>)
    ensures r.Ok? ==> |r.value| == |nodes|
  {
    if nodes == [] then Ok([])
    else
      var rest :- CompactNodes(base, nodes[..|nodes| - 1]);
      var last :- CompactNode(base, nodes[|nodes| - 1]);
      Ok(rest + [last])
  }

  function Compacted(base: string, d: Json): Result<Json>
  {
    if !d.Obj? then Raise("definition")
    else if "nodes" !in d.fields then Ok(d)
    else if !d.fields["nodes"].Arr? then Raise("nodes")
    else
      var nodes :- CompactNodes(base, d.fields["nodes"].items);
      Ok(Obj(d.fields["nodes" := Arr(nodes)]))
  }

  // ---------------------------------------------------------------- canonical calls

  /** Python's equality tells no canonical action from another but for its body. */
  lemma CanonicalIsExact(base: string, action: Json, body: Json)
    requires LooseEqual(action, CapabilityAction(base, body)) && action.Obj?
    requires "request" in action.fields && action.fields["request"].Obj? && "body" in action.fields["request"].fields
    requires action.fields["request"].fields["body"] == body
    ensures action == CapabilityAction(base, body)
  {
    hide Normal;
    var want := CapabilityAction(base, body);
    SameFields(action, want);
    StringsAreExact(action.fields["mode"], "sync");
    RequestIsExact(base, action.fields["request"], body);
    CodesAreExact(action.fields["successStatusCodes"]);
    assert action.fields == want.fields;
  }

  lemma StringsAreExact(v: Json, s: string)
    requires Normal(v) == Normal(Str(s))
    ensures v == Str(s)
  {
  }

  lemma CodesAreExact(v: Json)
    requires Normal(v) == Normal(Arr([Num(200.0)]))
    ensures v == Arr([Num(200.0)])
  {
    var want := Arr([Num(200.0)]);
    assert Normal(want).items[0] == Normal(Num(200.0));
    assert |v.items| == |Normal(v).items| == 1;
    assert Normal(v.items[0]) == Normal(v).items[0];
    assert v.items == [v.items[0]];
  }

  lemma HeadersAreExact(v: Json)
    requires Normal(v) == Normal(CALL_HEADERS)
    ensures v == CALL_HEADERS
  {
    SameFields(v, CALL_HEADERS);
    hide Normal;
    forall k | k in CALL_HEADERS.fields ensures v.fields[k] == CALL_HEADERS.fields[k] {
      StringsAreExact(v.fields[k], CALL_HEADERS.fields[k].s);
    }
  }

  lemma RequestIsExact(base: string, v: Json, body: Json)
    requires v.Obj? && "body" in v.fields && v.fields["body"] == body && Normal(v) == Normal(CallRequest(base, body))
    ensures v == CallRequest(base, body)
  {
    hide Normal;
    var want := CallRequest(base, body);
    SameFields(v, want);
    forall k | k in want.fields ensures v.fields[k] == want.fields[k] {
      if k == "headers" {
        HeadersAreExact(v.fields[k]);
      } else if k != "body" {
        StringsAreExact(v.fields[k], want.fields[k].s);
      }
    }
  }

  lemma SameFields(v: Json, want: Json)
    requires v.Obj? && want.Obj? && Normal(v) == Normal(want)
    ensures v.fields.Keys == want.fields.Keys && forall k | k in want.fields ::
      Normal(v.fields[k]) == Normal(want.fields[k])
  {
    assert v.fields.Keys == Normal(v).fields.Keys == Normal(want).fields.Keys == want.fields.Keys;
    forall k | k in want.fields ensures Normal(v.fields[k]) == Normal(want.fields[k]) {
      assert Normal(v.fields[k]) == Normal(v).fields[k];
      assert Normal(want.fields[k]) == Normal(want).fields[k];
    }
  }

  // ---------------------------------------------------------------- the round trip of a node

  /** The mark at the start of the action's address would be replaced by something else. */
  predicate Readdressed(base: string, action: Fields)
  {
    && "request" in action && action["request"].Obj? && "url" in action["request"].fields
    && Marked(action["request"].fields["url"]) && Stripped(base) != BASE_MARK
  }

  /** A body that can be said as a target and its input. */
  predicate Sayable(body: Json)
  {
    TargetOf(body).Some? ==> Named(body.fields, TargetOf(body).value) && body.fields["input"].Obj?
  }

  /** A task as the expansion writes it. */
  predicate TaskNative(base: string, f: Fields)
  {
    && {"id", "kind", "next", "action"} <= f.Keys <= {"id", "kind", "next", "action", "compensation"}
    && Named(f, "id") && Text(f, "next") && f["action"].Obj? && OptionalObject(f, "compensation")
    && BodyOf(f).Some?
    && if Plain(base, f) then Sayable(BodyOf(f).value) else !Readdressed(base, f["action"].fields)
  }

  /** A node as the expansion writes it: within the schema, its successor explicit. */
  predicate Native(base: string, n: Json)
  {
    && n.Obj? && "kind" in n.fields
    && if n.fields["kind"] == Str("task") then TaskNative(base, n.fields)
       else NodeOk(n.fields) && (n.fields["kind"] in {Str("sleep"), Str("join")} ==> "next" in n.fields)
  }

  predicate NodeTrips(base: string, n: Json)
  {
    CompactNode(base, n).Ok? && CompiledNode(base, CompactNode(base, n).value) == Ok(n)
  }

  lemma OtherRoundTrip(base: string, n: Json)
    requires n.Obj? && ("kind" in n.fields ==> n.fields["kind"] != Str("task"))
    ensures NodeTrips(base, n) <==> Native(base, n)
  {
    var f := n.fields;
    var clean := WithoutNulls(f);
    if Native(base, n) { assert clean == f; }
    if NodeTrips(base, n) { assert clean.Keys <= f.Keys; assert clean == f; }
  }

  lemma {:induction false} StrippedAddress(base: string, url: string)
    requires BASE_MARK + "/" <= url
    ensures Stripped(base) + url[|BASE_MARK|..] == url <==> Stripped(base) == BASE_MARK
  {
    var rest := url[|BASE_MARK|..];
    assert url == BASE_MARK + rest;
    if Stripped(base) + rest == url {
      assert |Stripped(base)| == |BASE_MARK|;
      assert Stripped(base) == url[..|BASE_MARK|] == BASE_MARK;
    }
  }

  /** A raw action survives unless it is readdressed. */
  lemma RawSurvives(base: string, action: Fields)
    ensures RawAction(base, action) == Ok(Obj(action)) <==>
      ("request" in action ==> action["request"].Obj?) && !Readdressed(base, action)
  {
    if "request" in action && action["request"].Obj? {
      var request := action["request"].fields;
      if "url" in request && Marked(request["url"]) {
        StrippedAddress(base, request["url"].s);
        var url := Str(Stripped(base) + request["url"].s[|BASE_MARK|..]);
        if url == request["url"] {
          assert request["url" := url] == request;
          assert action["request" := Obj(request)] == action;
        } else {
          assert request["url" := url]["url"] != request["url"];
          assert action["request" := Obj(request["url" := url])]["request"] != action["request"];
        }
      }
    }
  }

  lemma RawComesBack(base: string, n: Json)
    requires n.Obj? && "kind" in n.fields && n.fields["kind"] == Str("task") && TaskNative(base, n.fields)
      && !Plain(base, n.fields)
    ensures NodeTrips(base, n)
  {
    hide Readdressed, CapabilityAction, PlanAction, RawAction, Plain, BodyOf;
    var f := n.fields;
    assert WithoutNulls(f) == f;
    RequestIsObject(f);
    RawSurvives(base, f["action"].fields);
    var native: Fields := map["id" := f["id"], "kind" := Str("task"), "next" := f["next"], "action" := f["action"]];
    assert f == if "compensation" in f then native["compensation" := f["compensation"]] else native;
  }

  lemma RequestIsObject(f: Fields)
    requires "action" in f && BodyOf(f).Some?
    ensures f["action"].Obj? && ("request" in f["action"].fields ==> f["action"].fields["request"].Obj?)
  {
  }

  lemma RawWasNative(base: string, n: Json)
    requires n.Obj? && "kind" in n.fields && n.fields["kind"] == Str("task") && BodyOf(n.fields).Some?
      && !Plain(base, n.fields)
    requires NodeTrips(base, n)
    ensures TaskNative(base, n.fields)
  {
    hide Readdressed, CapabilityAction, PlanAction, RawAction, Plain, BodyOf;
    var f := n.fields;
    var clean := WithoutNulls(f);
    assert TaskOk(clean) && "action" in f;
    assert f["action"] == TaskAction(base, clean).value;
    RequestIsObject(f);
    assert clean["action"] == f["action"];
    RawSurvives(base, f["action"].fields);
  }

  /** A task that is not a plain call survives as it is, unless it is readdressed. */
  lemma RawRoundTrip(base: string, n: Json)
    requires n.Obj? && "kind" in n.fields && n.fields["kind"] == Str("task") && BodyOf(n.fields).Some?
      && !Plain(base, n.fields)
    ensures NodeTrips(base, n) <==> TaskNative(base, n.fields)
  {
    hide NodeTrips, TaskNative;
    if TaskNative(base, n.fields) { RawComesBack(base, n); }
    if NodeTrips(base, n) { RawWasNative(base, n); }
  }

  // ---------------------------------------------------------------- the round trip of a plain call

  function Compressed(f: Fields, body: Fields, key: string): Fields
    requires key in body && "input" in body
  {
    (f - {"action"})[key := body[key]]["input" := body["input"]]
  }

  lemma PlainIsCanonical(base: string, f: Fields)
    requires Plain(base, f)
    ensures f["action"] == CapabilityAction(base, BodyOf(f).value)
  {
    hide CapabilityAction;
    RequestIsObject(f);
    PlainHasBody(base, f);
    CanonicalIsExact(base, f["action"], BodyOf(f).value);
  }

  lemma PlainHasBody(base: string, f: Fields)
    requires Plain(base, f)
    ensures var action := f["action"];
      && action.Obj? && "request" in action.fields && action.fields["request"].Obj?
      && "body" in action.fields["request"].fields
      && action.fields["request"].fields["body"] == BodyOf(f).value
  {
    RequestIsObject(f);
    if "request" !in f["action"].fields || "body" !in f["action"].fields["request"].fields {
      assert BodyOf(f).value == Obj(map[]);
      assert TargetOf(Obj(map[])).None? by { NoTarget(); }
    }
  }

  lemma NoTarget()
    ensures TargetOf(Obj(map[])).None?
  {
    var none: Fields := map[];
    assert "input" !in none.Keys;
  }

  /** What a plain call is compressed to. */
  lemma PlainCompressed(base: string, n: Json) returns (body: Fields, key: string)
    requires n.Obj? && "kind" in n.fields && n.fields["kind"] == Str("task") && Plain(base, n.fields)
    ensures BodyOf(n.fields) == Some(Obj(body)) && TargetOf(Obj(body)) == Some(key)
    ensures key in {"capability_name", "artifact_id"} && body.Keys == {key, "input"}
    ensures CompactNode(base, n) == Ok(Obj(Compressed(n.fields, body, key)))
    ensures "action" in n.fields && n.fields["action"] == CapabilityAction(base, Obj(body))
  {
    hide CapabilityAction, LooseEqual;
    PlainIsCanonical(base, n.fields);
    body := BodyOf(n.fields).value.fields;
    key := TargetOf(BodyOf(n.fields).value).value;
  }

  /** The fields of an expanded task. */
  function Written(id: Json, next: Json, action: Json, f: Fields): Fields
  {
    var native: Fields := map["id" := id, "kind" := Str("task"), "next" := next, "action" := action];
    if "compensation" in f then native["compensation" := f["compensation"]] else native
  }

  lemma CompressedAction(base: string, f: Fields, body: Fields, key: string)
    requires key in {"capability_name", "artifact_id"} && body.Keys == {key, "input"}
      && f.Keys <= {"id", "kind", "next", "action", "compensation"}
    requires TaskOk(Compressed(f, body, key))
    ensures TaskAction(base, Compressed(f, body, key)) == Ok(CapabilityAction(base, Obj(body)))
  {
    hide CapabilityAction, TaskOk;
    var g := Compressed(f, body, key);
    assert body == map[key := g[key], "input" := g["input"]];
    assert "capability_name" in g <==> key == "capability_name";
  }

  lemma CompressedCompiles(base: string, f: Fields, body: Fields, key: string)
    requires {"id", "kind", "next", "action"} <= f.Keys <= {"id", "kind", "next", "action", "compensation"}
    requires f["kind"] == Str("task") && Named(f, "id") && Text(f, "next") && OptionalObject(f, "compensation")
    requires key in {"capability_name", "artifact_id"} && body.Keys == {key, "input"} && Named(body, key)
      && body["input"].Obj?
    ensures CompiledNode(base, Obj(Compressed(f, body, key)))
      == Ok(Obj(Written(f["id"], f["next"], CapabilityAction(base, Obj(body)), f)))
  {
    hide CapabilityAction, TaskOk, TaskAction, WithoutNulls;
    GoodTask(f, body, key);
    CompressedAction(base, f, body, key);
  }

  lemma PlainComesBack(base: string, n: Json)
    requires n.Obj? && "kind" in n.fields && n.fields["kind"] == Str("task") && TaskNative(base, n.fields)
      && Plain(base, n.fields)
    ensures NodeTrips(base, n)
  {
    hide CapabilityAction, Plain, BodyOf, TargetOf, CompactNode, CompiledNode, Compressed;
    var f := n.fields;
    var body, key := PlainCompressed(base, n);
    CompressedCompiles(base, f, body, key);
    assert f == Written(f["id"], f["next"], f["action"], f);
  }

  lemma CompressedIs(f: Fields, body: Fields, key: string)
    requires key in {"capability_name", "artifact_id"} && body.Keys == {key, "input"}
    ensures var g := Compressed(f, body, key);
      && g.Keys == f.Keys - {"action"} + {key, "input"} && g[key] == body[key] && g["input"] == body["input"]
      && forall k | k in f && k !in {"action", key, "input"} :: g[k] == f[k]
  {
  }

  lemma GoodTask(f: Fields, body: Fields, key: string)
    requires {"id", "kind", "next", "action"} <= f.Keys <= {"id", "kind", "next", "action", "compensation"}
    requires f["kind"] == Str("task") && Named(f, "id") && Text(f, "next") && OptionalObject(f, "compensation")
    requires key in {"capability_name", "artifact_id"} && body.Keys == {key, "input"} && Named(body, key)
      && body["input"].Obj?
    ensures var g := Compressed(f, body, key); TaskOk(g) && WithoutNulls(g) == g && "action" !in g && "plan" !in g
  {
    hide Compressed, TaskOk, Named, Text, OptionalObject;
    var g := Compressed(f, body, key);
    CompressedIs(f, body, key);
    GoodKeys(f, g, key);
    assert TaskOk(g) by { GoodFields(f, body, g, key); }
    assert WithoutNulls(g) == g by { NoNulls(f, body, g, key); }
  }

  lemma GoodKeys(f: Fields, g: Fields, key: string)
    requires {"id", "kind", "next", "action"} <= f.Keys <= {"id", "kind", "next", "action", "compensation"}
    requires key in {"capability_name", "artifact_id"} && g.Keys == f.Keys - {"action"} + {key, "input"}
    ensures g.Keys <= TASK_KEYS && "action" !in g && "plan" !in g && key in g
      && {"id", "kind", "next", "input"} <= g.Keys
    ensures Targets(g) == 1 && ("capability_name" in g <==> key == "capability_name") && ("artifact_id" in g <==>
      key == "artifact_id")
    ensures "compensation" in g <==> "compensation" in f
  {
  }

  lemma GoodFields(f: Fields, body: Fields, g: Fields, key: string)
    requires g.Keys <= TASK_KEYS && "action" !in g && "plan" !in g && key in g
      && {"id", "kind", "next", "input"} <= g.Keys && {"id", "next"} <= f.Keys
    requires Targets(g) == 1 && ("capability_name" in g <==> key == "capability_name") && ("artifact_id" in g <==>
      key == "artifact_id")
    requires "compensation" in g <==> "compensation" in f
    requires key in body && "input" in body && g[key] == body[key] && g["input"] == body["input"]
    requires forall k | k in {"id", "next", "compensation"} && k in f && k in g :: g[k] == f[k]
    requires Named(f, "id") && Text(f, "next") && OptionalObject(f, "compensation") && Named(body, key)
      && body["input"].Obj?
    ensures TaskOk(g)
  {
    hide Targets;
  }

  lemma NoNulls(f: Fields, body: Fields, g: Fields, key: string)
    requires f.Keys <= {"id", "kind", "next", "action", "compensation"} && {"id", "kind", "next"} <= f.Keys
    requires g.Keys == f.Keys - {"action"} + {key, "input"} && key in body && "input" in body && g[key] == body[key]
      && g["input"] == body["input"]
    requires forall k | k in f && k !in {"action", key, "input"} :: g[k] == f[k]
    requires f["kind"] == Str("task") && Named(f, "id") && Text(f, "next") && OptionalObject(f, "compensation")
      && Named(body, key) && body["input"].Obj?
    ensures WithoutNulls(g) == g
  {
    forall k | k in g ensures g[k] != Null {
      if k != key && k != "input" { assert k in f && g[k] == f[k]; }
    }
  }

  lemma PlainWasNative(base: string, n: Json)
    requires n.Obj? && "kind" in n.fields && n.fields["kind"] == Str("task") && Plain(base, n.fields)
      && NodeTrips(base, n)
    ensures TaskNative(base, n.fields)
  {
    hide CapabilityAction, Plain, BodyOf, TargetOf, CompactNode, CompiledNode, Compressed;
    var f := n.fields;
    var body, key := PlainCompressed(base, n);
    CompiledTells(base, f, body, key, n);
    RequestIsObject(f);
  }

  lemma CompiledTells(base: string, f: Fields, body: Fields, key: string, n: Json)
    requires key in {"capability_name", "artifact_id"} && body.Keys == {key, "input"} && n == Obj(f)
    requires "kind" in f && f["kind"] == Str("task") && "action" in f
      && f["action"] == CapabilityAction(base, Obj(body))
    requires CompiledNode(base, Obj(Compressed(f, body, key))) == Ok(n)
    ensures {"id", "kind", "next", "action"} <= f.Keys <= {"id", "kind", "next", "action", "compensation"}
    ensures Named(f, "id") && Text(f, "next") && OptionalObject(f, "compensation") && Named(body, key)
      && body["input"].Obj?
  {
    hide CapabilityAction;
    var clean := WithoutNulls(Compressed(f, body, key));
    assert TaskOk(clean) && NativeNode(base, clean) == Ok(n);
    var action := TaskAction(base, clean).value;
    assert f == Written(clean["id"], if "next" in clean then clean["next"] else Str("end"), action, clean);
    ActionTells(base, f, body, key, clean);
  }

  lemma ActionTells(base: string, f: Fields, body: Fields, key: string, clean: Fields)
    requires key in {"capability_name", "artifact_id"} && body.Keys == {key, "input"}
      && clean == WithoutNulls(Compressed(f, body, key))
    requires f.Keys <= {"id", "kind", "next", "action", "compensation"} && TaskOk(clean) && "action" in f
    requires f["action"] == CapabilityAction(base, Obj(body)) && TaskAction(base, clean) == Ok(f["action"])
    ensures Named(body, key) && body["input"].Obj?
  {
    hide CapabilityAction;
    assert key in clean && "action" !in clean && "plan" !in clean;
    var input := if "input" in clean then clean["input"] else Obj(map[]);
    SameBody(base, Obj(body), Obj(map[key := clean[key], "input" := input]));
    assert body["input"] == input;
  }

  lemma SameBody(base: string, a: Json, b: Json)
    requires CapabilityAction(base, a) == CapabilityAction(base, b)
    ensures a == b
  {
    assert CapabilityAction(base, a).fields["request"].fields["body"] == a;
    assert CapabilityAction(base, b).fields["request"].fields["body"] == b;
  }

  // ---------------------------------------------------------------- the round trip

  /** Compressing and expanding a node gives it back exactly when it is written as the expansion
      writes nodes. */
  lemma NodeRoundTrip(base: string, n: Json)
    ensures NodeTrips(base, n) <==> Native(base, n)
  {
    hide NodeTrips, TaskNative, NodeOk, Plain;
    if n.Obj? {
      if "kind" !in n.fields || n.fields["kind"] != Str("task") {
        OtherRoundTrip(base, n);
      } else if BodyOf(n.fields).None? {
        NoBodyNoTrip(base, n);
      } else if Plain(base, n.fields) {
        if TaskNative(base, n.fields) { PlainComesBack(base, n); }
        if NodeTrips(base, n) { PlainWasNative(base, n); }
      } else {
        RawRoundTrip(base, n);
      }
    } else {
      NoBodyNoTrip(base, n);
    }
  }

  lemma NoBodyNoTrip(base: string, n: Json)
    requires n.Obj? ==> "kind" in n.fields && n.fields["kind"] == Str("task") && BodyOf(n.fields).None?
    ensures !NodeTrips(base, n) && !Native(base, n)
  {
    hide BodyOf;
  }

  lemma {:induction false} NodesRoundTrip(base: string, nodes: seq<Json>)
    ensures CompactNodes(base, nodes).Ok? && CompiledNodes(base, CompactNodes(base, nodes).value) == Ok(nodes)
      <==> forall i | 0 <= i < |nodes| :: NodeTrips(base, nodes[i])
    decreases nodes
  {
    hide CompactNode, CompiledNode;
    if nodes != [] {
      var init, last := nodes[..|nodes| - 1], nodes[|nodes| - 1];
      NodesRoundTrip(base, init);
      assert nodes == init + [last];
      if CompactNodes(base, nodes).Ok? {
        var rest, tip := CompactNodes(base, init).value, CompactNode(base, last).value;
        assert (rest + [tip])[..|rest + [tip]| - 1] == rest;
        if CompiledNodes(base, rest + [tip]) == Ok(nodes) {
          assert nodes[..|nodes| - 1] == CompiledNodes(base, rest).value;
          assert nodes[|nodes| - 1] == CompiledNode(base, tip).value;
        }
      }
      assert forall i | 0 <= i < |init| :: nodes[i] == init[i];
    }
  }

  /** A definition as the expansion writes it: the schema's own fields, an explicit version and
      nodes written likewise. */
  predicate NativeWorkflow(base: string, d: Json)
  {
    && d.Obj? && FrameOk(d.fields) && "version" in d.fields
    && forall i | 0 <= i < |d.fields["nodes"].items| :: Native(base, d.fields["nodes"].items[i])
  }

  predicate Trips(base: string, d: Json)
  {
    Compacted(base, d).Ok? && Compiled(base, Compacted(base, d).value) == Ok(d)
  }

  /** Compressing a definition and expanding it again gives it back exactly when it is written as
      the expansion writes definitions: so only what the expansion restores is compressed. */
  lemma RoundTrip(base: string, d: Json)
    ensures Trips(base, d) <==> NativeWorkflow(base, d)
  {
    hide NodeTrips, Native, CompactNodes, CompiledNodes;
    if d.Obj? && "nodes" in d.fields && d.fields["nodes"].Arr? {
      var nodes := d.fields["nodes"].items;
      NodesRoundTrip(base, nodes);
      forall i | 0 <= i < |nodes| ensures NodeTrips(base, nodes[i]) <==>
        Native(base, nodes[i]) { NodeRoundTrip(base, nodes[i]); }
      if CompactNodes(base, nodes).Ok? { FrameTrips(base, d, CompactNodes(base, nodes).value); }
    }
  }

  lemma FrameTrips(base: string, d: Json, nodes: seq<Json>)
    requires d.Obj? && "nodes" in d.fields && d.fields["nodes"].Arr?
    ensures Compiled(base, Obj(d.fields["nodes" := Arr(nodes)])) == Ok(d)
      <==> FrameOk(d.fields) && "version" in d.fields && CompiledNodes(base, nodes) == Ok(d.fields["nodes"].items)
  {
    hide CompiledNodes;
    var f := d.fields["nodes" := Arr(nodes)];
    var clean := WithoutNulls(f);
    if FrameOk(d.fields) { assert clean == f; }
    if Compiled(base, Obj(f)) == Ok(d) {
      var got := WithDefault(clean, "version", Str("2.0.0"))["nodes" := Arr(CompiledNodes(base, nodes).value)];
      assert d.fields == got;
      assert clean.Keys <= f.Keys == d.fields.Keys;
      assert clean == f;
    }
    if FrameOk(d.fields) && "version" in d.fields && CompiledNodes(base, nodes) == Ok(d.fields["nodes"].items) {
      assert WithDefault(f, "version", Str("2.0.0"))["nodes" := d.fields["nodes"]] == d.fields;
    }
  }

  // ---------------------------------------------------------------- step by step

  /** Expands a definition node by node. */
  method CompileWorkflow(definition: Json, base: string) returns (result: Result<Json>)
    ensures result.Ok? <==> Compiled(base, definition).Ok?
    ensures result.Ok? ==> result == Compiled(base, definition)
  {
    hide CompiledNode;
    if !definition.Obj? || !FrameOk(WithoutNulls(definition.fields)) { return Raise("workflow"); }
    var f := WithoutNulls(definition.fields);
    var all := f["nodes"].items;
    var nodes := [];
    for i := 0 to |all|
      invariant CompiledNodes(base, all[..i]) == Ok(nodes)
    {
      assert all[..i + 1][..i] == all[..i];
      var node := CompiledNode(base, all[i]);
      if node.Raise? {
        CompileFails(base, all, i + 1);
        return Raise("node");
      }
      nodes := nodes + [node.value];
    }
    assert all[..|all|] == all;
    return Ok(Obj(WithDefault(f, "version", Str("2.0.0"))["nodes" := Arr(nodes)]));
  }

  lemma {:induction false} CompileFails(base: string, nodes: seq<Json>, n: nat)
    requires n <= |nodes| && CompiledNodes(base, nodes[..n]).Raise?
    ensures CompiledNodes(base, nodes).Raise?
    decreases |nodes|
  {
    if n == |nodes| {
      assert nodes[..n] == nodes;
    } else {
      assert nodes[..|nodes| - 1][..n] == nodes[..n];
      CompileFails(base, nodes[..|nodes| - 1], n);
    }
  }

  /** Compresses the nodes of a copied definition in place. */
  method CompactWorkflow(definition: Json, base: string) returns (result: Result<Json>)
    ensures result.Ok? <==> Compacted(base, definition).Ok?
    ensures result.Ok? ==> result == Compacted(base, definition)
  {
    hide CompactNode;
    if !definition.Obj? { return Raise("definition"); }
    if "nodes" !in definition.fields { return Ok(definition); }
    if !definition.fields["nodes"].Arr? { return Raise("nodes"); }
    var original := definition.fields["nodes"].items;
    var nodes := original;
    for i := 0 to |original|
      invariant |nodes| == |original| && nodes[i..] == original[i..]
      invariant CompactNodes(base, original[..i]) == Ok(nodes[..i])
    {
      assert original[..i + 1][..i] == original[..i];
      var node := CompactNode(base, nodes[i]);
      assert nodes[i] == nodes[i..][0] == original[i];
      if node.Raise? {
        CompactFails(base, original, i + 1);
        return Raise("node");
      }
      ghost var before := nodes;
      nodes := nodes[i := node.value];
      assert nodes[..i + 1] == before[..i] + [node.value];
      assert nodes[i + 1..] == before[i..][1..];
    }
    assert original[..|original|] == original && nodes[..|original|] == nodes;
    return Ok(Obj(definition.fields["nodes" := Arr(nodes)]));
  }

  lemma {:induction false} CompactFails(base: string, nodes: seq<Json>, n: nat)
    requires n <= |nodes| && CompactNodes(base, nodes[..n]).Raise?
    ensures CompactNodes(base, nodes).Raise?
    decreases |nodes|
  {
    if n == |nodes| {
      assert nodes[..n] == nodes;
    } else {
      assert nodes[..|nodes| - 1][..n] == nodes[..n];
      CompactFails(base, nodes[..|nodes| - 1], n);
    }
  }
}
