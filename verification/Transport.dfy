/** Preparing native requests for typed JSON: unwrapped string templates, parsed bodies, and
    literal wrappers around what a request to /plans hands to a future compilation. */
module Transport {
  import opened Json
  import opened Sources

  /** A string template, plain or in its value wrapper. */
  datatype Template = Plain(s: string) | Valued(s: string)

  datatype Header = Header(key: string, value: Template)

  /** The parts of an action's request, or of a compensation, that preparation touches. */
  datatype Message = Message(url: Option<Template>, headers: Option<seq<Header>>, body: Option<Json>)

  /** Text operations of the standard library: lower case, JSON parsing, and whether the
      placeholders of a string are well formed. */
  datatype Library = Library(lower: string -> string, parse: string -> Option<Json>, wellFormed: string -> bool)

  const MODE := "x-trama-template-mode"
  const CONTENT := "content-type"

  // ---------------------------------------------------------------- headers

  function Unvalued(t: Template): Template { Plain(t.s) }

  function Flat(headers: seq<Header>): (r: seq<Header>)
    ensures |r| == |headers|
  {
    seq(|headers|, i requires 0 <= i < |headers| => Header(headers[i].key, Unvalued(headers[i].value)))
  }

  function Modeless(lib: Library, headers: seq<Header>): seq<Header>
  {
    if headers == [] then []
    else (if lib.lower(headers[0].key) == MODE then [] else [headers[0]]) + Modeless(lib, headers[1..])
  }

  function ContentType(lib: Library, headers: seq<Header>): Option<string>
  {
    if headers == [] then None
    else if lib.lower(headers[0].key) == CONTENT then Some(headers[0].value.s)
    else ContentType(lib, headers[1..])
  }

  predicate Contains(s: string, part: string)
  {
    exists i | 0 <= i <= |s| :: part <= s[i..]
  }

  // ---------------------------------------------------------------- bodies

  /** A body whose top-level "value" is a string, the shape of a wrapped template. */
  predicate ValueShaped(v: Json) { v.Obj? && "value" in v.fields && v.fields["value"].Str? }

  predicate Collection(v: Json) { v.Obj? || v.Arr? }

  predicate StartsCollection(s: string)
  {
    s != "" && (s[0] == '{' || s[0] == '[' || (IsSpace(s[0]) && StartsCollection(s[1..])))
  }

  /** Every string outside literal wrappers has well-formed placeholders. */
  predicate Valid(lib: Library, v: Json)
  {
    Wrapped(v) ||
    match v
    case Obj(fields) => forall k | k in fields :: Valid(lib, fields[k])
    case Arr(items) => forall i | 0 <= i < |items| :: Valid(lib, items[i])
    case Str(s) => lib.wellFormed(s)
    case _ => true
  }

  function Shielded(v: Json): Json { if Wrapped(v) then v else Wrap(v) }

  function WithShielded(fields: map<string, Json>, key: string): map<string, Json>
  {
    if key in fields then fields[key := Shielded(fields[key])] else fields
  }

  const CACHED := "workflow_continuation"

  /** What a request to /plans hands on, protected: intent, constraints, cached plan. */
  function PlanBody(fields: map<string, Json>): Result<map<string, Json>>
  {
    PlanContext(WithShielded(WithShielded(fields, "intent"), "constraints"))
  }

  function PlanContext(fields: map<string, Json>): Result<map<string, Json>>
  {
    if "context" !in fields || !Truthy(fields["context"]) then Ok(fields)
    else if !fields["context"].Obj? then Raise("/plans context must be an object")
    else
      var context := fields["context"].fields;
      if CACHED in context && context[CACHED] != Null then
        Ok(fields["context" := Obj(WithShielded(context, CACHED))])
      else Ok(fields)
  }

  /** A body as it will be sent, and as it is read for checking; they are one object unless the
      sent one is still source text. */
  datatype Reading = Reading(sent: Json, read: Json, shared: bool)

  function Read(lib: Library, typed: bool, body: Json): Result<Reading>
  {
    if ValueShaped(body) && body.fields.Keys != {"value"} then Raise("ambiguous value wrapper")
    else
      var read := if ValueShaped(body) then body.fields["value"] else body;
      if read.Str? && (StartsCollection(read.s) || typed) then
        match lib.parse(read.s)
        case None => Raise("request.body is invalid JSON")
        case Some(v) =>
          if !Collection(v) || ValueShaped(v) then Ok(Reading(read, v, false)) else Ok(Reading(v, v, true))
      else Ok(Reading(body, read, !ValueShaped(body)))
  }

  predicate ToPlans(url: Option<Template>)
  {
    url.Some? && |url.value.s| >= 6 && url.value.s[|url.value.s| - 6..] == "/plans"
  }

  function Finished(lib: Library, url: Option<Template>, r: Reading): Result<Json>
  {
    if ToPlans(url) && r.read.Obj? then
      var fields :- PlanBody(r.read.fields);
      if !Valid(lib, Obj(fields)) then Raise("request.body")
      else Ok(if r.shared then Obj(fields) else r.sent)
    else if !Valid(lib, r.read) then Raise("request.body")
    else Ok(r.sent)
  }

  // ---------------------------------------------------------------- requests

  function Prepared(lib: Library, m: Message): Result<Message>
  {
    var url := if m.url.Some? then Some(Unvalued(m.url.value)) else None;
    var flat := if m.headers.Some? then Some(Flat(m.headers.value)) else None;
    if m.body.None? then Ok(Message(url, flat, None))
    else
      var headers := Modeless(lib, if flat.Some? then flat.value else []);
      var typed := ContentType(lib, headers);
      if typed.Some? && !Contains(lib.lower(typed.value), "json") then Ok(Message(url, Some(headers), m.body))
      else
        var r :- Read(lib, typed.Some?, m.body.value);
        if typed.None? && !Collection(r.sent) then Ok(Message(url, Some(headers), Some(r.sent)))
        else
          var body :- Finished(lib, url, r);
          Ok(Message(url, Some(headers), Some(body)))
  }

  // ---------------------------------------------------------------- preparing twice

  lemma FlatTwice(headers: seq<Header>)
    requires forall h | h in headers :: h.value.Plain?
    ensures Flat(headers) == headers
  {
    forall i | 0 <= i < |headers| ensures Flat(headers)[i] == headers[i] { assert headers[i] in headers; }
  }

  lemma {:induction false} ModelessTwice(lib: Library, headers: seq<Header>)
    ensures Modeless(lib, Modeless(lib, headers)) == Modeless(lib, headers)
    ensures forall h | h in Modeless(lib, headers) :: h in headers
    decreases headers
  {
    if headers != [] {
      ModelessTwice(lib, headers[1..]);
      var rest := Modeless(lib, headers[1..]);
      if lib.lower(headers[0].key) != MODE {
        assert ([headers[0]] + rest)[1..] == rest;
      } else {
        assert [] + rest == rest;
      }
    }
  }

  lemma ProtectTwice(fields: map<string, Json>, key: string)
    ensures WithShielded(WithShielded(fields, key), key) == WithShielded(fields, key)
  {
  }

  lemma PlanBodyTwice(fields: map<string, Json>)
    requires PlanBody(fields).Ok?
    ensures PlanBody(PlanBody(fields).value) == PlanBody(fields)
    ensures PlanBody(fields).value.Keys == fields.Keys && "value" in fields ==>
      PlanBody(fields).value["value"] == fields["value"]
  {
    var once := WithShielded(WithShielded(fields, "intent"), "constraints");
    var result := PlanBody(fields).value;
    assert WithShielded(WithShielded(once, "intent"), "constraints") == once;
    assert result.Keys == fields.Keys;
    if "context" in once && once["context"].Obj? && CACHED in once["context"].fields
      && once["context"].fields[CACHED] != Null {
      var context := once["context"].fields;
      ProtectTwice(context, CACHED);
      assert result == once["context" := Obj(WithShielded(context, CACHED))];
      assert CACHED in result["context"].fields;
      assert WithShielded(WithShielded(result, "intent"), "constraints") == result;
      assert result["context" := result["context"]] == result;
    }
  }

  lemma ReadTwice(lib: Library, typed: bool, body: Json)
    requires Read(lib, typed, body).Ok?
    ensures var r := Read(lib, typed, body).value;
      && Read(lib, typed, r.sent) == Ok(r)
      && (r.shared ==> r.sent == r.read && !ValueShaped(r.sent))
  {
  }

  /** Preparing a prepared body changes nothing. */
  lemma FinishedTwice(lib: Library, typed: bool, url: Option<Template>, body: Json)
    requires Read(lib, typed, body).Ok? && Finished(lib, url, Read(lib, typed, body).value).Ok?
    ensures var r := Read(lib, typed, body).value;
      var sent := Finished(lib, url, r).value;
      && Read(lib, typed, sent).Ok? && Finished(lib, url, Read(lib, typed, sent).value) == Ok(sent)
      && (Collection(sent) <==> Collection(r.sent))
      && (Collection(Read(lib, typed, sent).value.sent) <==> Collection(sent))
  {
    ReadTwice(lib, typed, body);
    var r := Read(lib, typed, body).value;
    if ToPlans(url) && r.read.Obj? && r.shared {
      PlanBodyTwice(r.read.fields);
      var sent := Obj(PlanBody(r.read.fields).value);
      assert !ValueShaped(sent);
      assert Read(lib, typed, sent) == Ok(Reading(sent, sent, true));
    }
  }

  /** Preparation is idempotent. */
  lemma PreparedTwice(lib: Library, m: Message)
    requires Prepared(lib, m).Ok?
    ensures Prepared(lib, Prepared(lib, m).value) == Prepared(lib, m)
  {
    hide Read, Finished, ContentType, Contains, Collection;
    var once := Prepared(lib, m).value;
    if m.headers.Some? { FlatTwice(Flat(m.headers.value)); }
    if m.body.Some? {
      var flat := if m.headers.Some? then Flat(m.headers.value) else [];
      ModelessTwice(lib, flat);
      var headers := Modeless(lib, flat);
      FlatTwice(headers);
      var typed := ContentType(lib, headers);
      if typed.None? || Contains(lib.lower(typed.value), "json") {
        var r := Read(lib, typed.Some?, m.body.value).value;
        ReadTwice(lib, typed.Some?, m.body.value);
        if !(typed.None? && !Collection(r.sent)) {
          FinishedTwice(lib, typed.Some?, once.url, m.body.value);
        }
      }
    }
  }

  // ---------------------------------------------------------------- what reaches the next compilation

  /** A body that hands a plan on: intent, constraints and cached plan are protected data. */
  predicate HandsOn(body: Json, intent: Json, constraints: Json, cached: Json)
  {
    && body.Obj? && {"intent", "constraints", "context"} <= body.fields.Keys && !ValueShaped(body)
    && body.fields["intent"] == Protect(intent) && body.fields["constraints"] == Protect(constraints)
    && body.fields["context"].Obj? && CACHED in body.fields["context"].fields
    && body.fields["context"].fields[CACHED] == Protect(cached)
  }

  /** The rendered body carries the data itself, and everything else as it was rendered before. */
  ghost predicate Delivers(v: Json, body: Json, intent: Json, constraints: Json, cached: Json, ctx: Json,
      text: Json -> string)
    requires HandsOn(body, intent, constraints, cached)
  {
    && v.Obj? && v.fields.Keys == body.fields.Keys
    && v.fields["intent"] == intent && v.fields["constraints"] == constraints
    && (forall k | k in body.fields && k !in {"intent", "constraints", "context"} ::
      v.fields[k] == RenderSource(body.fields[k], ctx, text))
    && v.fields["context"].Obj? && v.fields["context"].fields.Keys == body.fields["context"].fields.Keys
    && v.fields["context"].fields[CACHED] == cached
    && forall k | k in body.fields["context"].fields && k != CACHED ::
         v.fields["context"].fields[k] == RenderSource(body.fields["context"].fields[k], ctx, text)
  }

  lemma FieldsRender(v: Json, key: string, ctx: Json, text: Json -> string)
    requires v.Obj? && key in v.fields && key != WRAPPER
    ensures RenderSource(v, ctx, text).Obj? && RenderSource(v, ctx, text).fields.Keys == v.fields.Keys
    ensures forall k | k in v.fields :: RenderSource(v, ctx, text).fields[k] == RenderSource(v.fields[k], ctx, text)
  {
    assert !Wrapped(v);
  }

  lemma ProtectedDelivers(v: Json, sent: Json, ctx: Json, text: Json -> string)
    requires sent == Protect(v) || sent == Shielded(Protect(v))
    ensures RenderSource(sent, ctx, text) == v
  {
    ProtectedSurvives(v, ctx, text);
  }

  /** What preparation may have done to a body that hands a plan on. */
  predicate OnlyProtects(sent: Json, body: Json)
    requires body.Obj? && "context" in body.fields && body.fields["context"].Obj?
  {
    && sent.Obj? && sent.fields.Keys == body.fields.Keys && sent.fields["context"].Obj?
    && (forall k | k in body.fields && k !in {"intent", "constraints", "context"} :: sent.fields[k] == body.fields[k])
    && (forall k | k in body.fields && k in {"intent", "constraints"} ::
      sent.fields[k] == body.fields[k] || sent.fields[k] == Shielded(body.fields[k]))
    && (var before, now := body.fields["context"].fields, sent.fields["context"].fields;
        && now.Keys == before.Keys
        && (forall k | k in before && k != CACHED :: now[k] == before[k])
        && (CACHED in before ==> now[CACHED] == before[CACHED] || now[CACHED] == Shielded(before[CACHED])))
  }

  lemma PlanBodyOnlyProtects(body: Json)
    requires body.Obj? && "context" in body.fields && body.fields["context"].Obj? && PlanBody(body.fields).Ok?
    ensures OnlyProtects(Obj(PlanBody(body.fields).value), body)
  {
  }

  lemma PreparedBody(lib: Library, m: Message)
    requires Prepared(lib, m).Ok? && m.body.Some? && m.body.value.Obj? && !ValueShaped(m.body.value)
    ensures var sent := Prepared(lib, m).value.body;
      sent.Some? && (sent == m.body
        || (PlanBody(m.body.value.fields).Ok? && sent.value == Obj(PlanBody(m.body.value.fields).value)))
  {
    hide ContentType, Modeless, Contains, Valid, PlanBody, Flat;
  }

  lemma ProtectedDeliversAll(sent: Json, body: Json, intent: Json, constraints: Json, cached: Json, ctx: Json,
      text: Json -> string)
    requires HandsOn(body, intent, constraints, cached) && OnlyProtects(sent, body)
    ensures Delivers(RenderSource(sent, ctx, text), body, intent, constraints, cached, ctx, text)
  {
    hide RenderSource, Protect, Shielded;
    ProtectedDelivers(intent, sent.fields["intent"], ctx, text);
    ProtectedDelivers(constraints, sent.fields["constraints"], ctx, text);
    ProtectedDelivers(cached, sent.fields["context"].fields[CACHED], ctx, text);
    FieldsRender(sent, "intent", ctx, text);
    FieldsRender(sent.fields["context"], CACHED, ctx, text);
    var v := RenderSource(sent, ctx, text);
    assert v.fields["context"] == RenderSource(sent.fields["context"], ctx, text);
  }

  /** Preparing and rendering a continuation request delivers the plan to be compiled next exactly
      as it was cached, whatever placeholders or wrappers it contains. */
  lemma HandedOnSurvives(lib: Library, m: Message, intent: Json, constraints: Json, cached: Json, ctx: Json,
      text: Json -> string)
    requires Prepared(lib, m).Ok? && m.body.Some? && HandsOn(m.body.value, intent, constraints, cached)
    ensures var sent := Prepared(lib, m).value.body;
      sent.Some? && Delivers(RenderSource(sent.value, ctx, text), m.body.value, intent, constraints, cached, ctx, text)
  {
    hide Prepared, RenderSource, PlanBody, OnlyProtects, Protect, Delivers;
    PreparedBody(lib, m);
    var body, sent := m.body.value, Prepared(lib, m).value.body.value;
    if sent == body {
      assert OnlyProtects(body, body) by { BodyOnlyProtects(body); }
    } else {
      PlanBodyOnlyProtects(body);
    }
    ProtectedDeliversAll(sent, body, intent, constraints, cached, ctx, text);
  }

  lemma BodyOnlyProtects(body: Json)
    requires body.Obj? && "context" in body.fields && body.fields["context"].Obj?
    ensures OnlyProtects(body, body)
  {
  }

  // ---------------------------------------------------------------- in place

  lemma {:induction false} ModelessSnoc(lib: Library, headers: seq<Header>, h: Header)
    ensures Modeless(lib, headers + [h]) == Modeless(lib, headers) + if lib.lower(h.key) == MODE then [] else [h]
    decreases headers
  {
    if headers == [] {
      assert [] + [h] == [h];
      assert [h][1..] == [];
    } else {
      ModelessSnoc(lib, headers[1..], h);
      assert (headers + [h])[1..] == headers[1..] + [h];
    }
  }

  /** One request of the copied definition, edited in place. */
  class Request {
    var url: Option<Template>
    var headers: Option<seq<Header>>
    var body: Option<Json>

    constructor (m: Message)
      ensures Value() == m
    {
      url, headers, body := m.url, m.headers, m.body;
    }

    function Value(): Message
      reads this
    {
      Message(url, headers, body)
    }

    method DropMode(lib: Library)
      modifies this`headers
      ensures headers == Some(Modeless(lib, if old(headers).Some? then old(headers).value else []))
    {
      var all := if headers.Some? then headers.value else [];
      var kept := [];
      for i := 0 to |all|
        invariant kept == Modeless(lib, all[..i])
      {
        ModelessSnoc(lib, all[..i], all[i]);
        assert all[..i + 1] == all[..i] + [all[i]];
        if lib.lower(all[i].key) != MODE { kept := kept + [all[i]]; }
      }
      assert all[..|all|] == all;
      headers := Some(kept);
    }

    /** Prepares the request, or says why its definition is refused. */
    method Prepare(lib: Library) returns (refused: bool)
      modifies this
      ensures refused <==> Prepared(lib, old(Value())).Raise?
      ensures !refused ==> Prepared(lib, old(Value())) == Ok(Value())
    {
      hide Read, Finished, ContentType, Contains, Modeless;
      if url.Some? { url := Some(Unvalued(url.value)); }
      if headers.Some? { headers := Some(Flat(headers.value)); }
      if body.None? { return false; }
      DropMode(lib);
      var typed := ContentType(lib, headers.value);
      if typed.Some? && !Contains(lib.lower(typed.value), "json") { return false; }
      var read := Read(lib, typed.Some?, body.value);
      if read.Raise? { return true; }
      body := Some(read.value.sent);
      if typed.None? && !Collection(body.value) { return false; }
      var finished := Finished(lib, url, read.value);
      if finished.Raise? { return true; }
      body := Some(finished.value);
      return false;
    }
  }

  function PreparedAll(lib: Library, messages: seq<Message>): Result<seq<Message>>
  {
    if messages == [] then Ok([])
    else
      var rest :- PreparedAll(lib, messages[..|messages| - 1]);
      var last :- Prepared(lib, messages[|messages| - 1]);
      Ok(rest + [last])
  }

  /** Every request of a definition is prepared on a copy of its own; one refusal refuses all. */
  method TypedWorkflow(lib: Library, messages: seq<Message>) returns (result: Result<seq<Message>>)
    ensures result.Ok? <==> PreparedAll(lib, messages).Ok?
    ensures result.Ok? ==> result == PreparedAll(lib, messages)
    ensures result.Ok? ==> PreparedAll(lib, result.value) == result
  {
    hide Prepared;
    var done := [];
    for i := 0 to |messages|
      invariant PreparedAll(lib, messages[..i]) == Ok(done)
    {
      assert messages[..i + 1][..i] == messages[..i];
      var request := new Request(messages[i]);
      var refused := request.Prepare(lib);
      if refused {
        RefusalSpreads(lib, messages, i + 1);
        return Raise("request");
      }
      done := done + [request.Value()];
    }
    assert messages[..|messages|] == messages;
    PreparedAllTwice(lib, messages);
    return Ok(done);
  }

  lemma {:induction false} RefusalSpreads(lib: Library, messages: seq<Message>, n: nat)
    requires n <= |messages| && PreparedAll(lib, messages[..n]).Raise?
    ensures PreparedAll(lib, messages).Raise?
    decreases |messages|
  {
    if n == |messages| {
      assert messages[..n] == messages;
    } else {
      assert messages[..|messages| - 1][..n] == messages[..n];
      RefusalSpreads(lib, messages[..|messages| - 1], n);
    }
  }

  /** The whole definition, prepared twice. */
  lemma {:induction false} PreparedAllTwice(lib: Library, messages: seq<Message>)
    requires PreparedAll(lib, messages).Ok?
    ensures PreparedAll(lib, PreparedAll(lib, messages).value) == PreparedAll(lib, messages)
    decreases |messages|
  {
    hide Prepared;
    if messages != [] {
      var rest := PreparedAll(lib, messages[..|messages| - 1]).value;
      var last := Prepared(lib, messages[|messages| - 1]).value;
      PreparedAllTwice(lib, messages[..|messages| - 1]);
      PreparedTwice(lib, messages[|messages| - 1]);
      assert (rest + [last])[..|rest + [last]| - 1] == rest;
    }
  }
}
