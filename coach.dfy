/**
 * The coach endpoint: CORS headers, method dispatch, the body and snapshot
 * guards, the credential check, the commit of the stream headers, and the relay
 * of the language model's fragments to the caller. The HTTP response is a class
 * whose fields the handler updates in place; the model provider is a class that
 * records each chat request and answers it with a scripted event stream.
 */
module Coach {
  import opened Wrappers
  import opened Js
  import Prompt
  import opened Strings

  // ---- Request, environment, tenant ----

  /** An incoming request: its HTTP method and its parsed body (`None` when there is none). */
  datatype Request = Request(httpMethod: string, body: Value)

  /** The environment variable the handler reads: `OPENAI_API_KEY`, `None` when unset. */
  datatype Env = Env(openAiKey: Option<string>)

  datatype TenantConfig = TenantConfig(plan: string, provider: string, model: string, apiKey: Option<string>)

  /** The subject every request runs as while token verification is switched off. */
  const DevUid: string := "dev"

  /** `getTenantConfig`: a constant plan, provider and model, and the key from the environment. */
  function GetTenantConfig(uid: string, env: Env): (cfg: TenantConfig)
    ensures cfg.plan == "starter" && cfg.provider == "openai" && cfg.model == "gpt-4o-mini"
    ensures cfg.apiKey == env.openAiKey
  {
    TenantConfig("starter", "openai", "gpt-4o-mini", env.openAiKey)
  }

  /** The tenant configuration depends on the environment only, never on the subject. */
  lemma TenantIgnoresSubject(uid: string, uid': string, env: Env)
    ensures GetTenantConfig(uid, env) == GetTenantConfig(uid', env)
    ensures GetTenantConfig(uid, env).apiKey == env.openAiKey
    ensures GetTenantConfig(uid, env).model == "gpt-4o-mini"
  {
  }

  /** `!tenant.apiKey` is false: the key is set and not empty. */
  predicate HasKey(apiKey: Option<string>) {
    apiKey.Some? && apiKey.value != ""
  }

  // ---- The snapshot guard ----

  predicate NumAt(j: Json, key: string) {
    j.JObj? && key in j.fields && j.fields[key].JNum?
  }

  predicate ObjAt(j: Json, key: string) {
    j.JObj? && key in j.fields && j.fields[key].JObj?
  }

  /**
   * The light runtime guard on a truthy `dataSnapshot`: `readiness`,
   * `sleep.durationHrs`, `recovery.score` and `workload.completed` are numbers,
   * with `sleep`, `recovery` and `workload` truthy in between. It accepts exactly
   * the objects whose three groups are objects holding those numeric leaves.
   */
  function ShapeOk(ds: Value): (ok: bool)
    requires Truthy(ds)
    ensures ok <==> NumAt(ds.value, "readiness")
                    && ObjAt(ds.value, "sleep") && NumAt(ds.value.fields["sleep"], "durationHrs")
                    && ObjAt(ds.value, "recovery") && NumAt(ds.value.fields["recovery"], "score")
                    && ObjAt(ds.value, "workload") && NumAt(ds.value.fields["workload"], "completed")
  {
    IsNumber(Get(ds, "readiness"))
    && Truthy(Get(ds, "sleep")) && IsNumber(Get(Get(ds, "sleep"), "durationHrs"))
    && Truthy(Get(ds, "recovery")) && IsNumber(Get(Get(ds, "recovery"), "score"))
    && Truthy(Get(ds, "workload")) && IsNumber(Get(Get(ds, "workload"), "completed"))
  }

  /** The guard never looks at any top-level key other than the four it checks. */
  lemma ShapeIgnoresOtherKeys(fields: map<string, Json>, key: string, v: Json)
    requires key !in {"readiness", "sleep", "recovery", "workload"}
    ensures ShapeOk(Some(JObj(fields))) == ShapeOk(Some(JObj(fields[key := v])))
  {
  }

  /**
   * Nor at any leaf of `sleep`, `recovery` or `workload` other than the one it
   * checks there: `efficiency`, `consistency`, `hrvMs`, `restingHr` and `goal`
   * may hold anything.
   */
  lemma ShapeIgnoresOtherLeaves(fields: map<string, Json>, group: string, inner: map<string, Json>, leaf: string, v: Json)
    requires (group, leaf) in {("sleep", "efficiency"), ("sleep", "consistency"), ("recovery", "hrvMs"),
                               ("recovery", "restingHr"), ("workload", "goal")}
    ensures ShapeOk(Some(JObj(fields[group := JObj(inner)])))
            == ShapeOk(Some(JObj(fields[group := JObj(inner[leaf := v])])))
  {
  }

  /**
   * The snapshot as the prompt builder reads it: each leaf is whatever value the
   * body holds at that path. The four leaves the guard checks are numbers; the
   * other five are unchecked and may be anything, `undefined` included.
   */
  function SnapshotOf(ds: Value): (s: Prompt.Snapshot<Value>)
    requires Truthy(ds) && ShapeOk(ds)
    ensures IsNumber(s.readiness) && IsNumber(s.sleep.durationHrs)
            && IsNumber(s.recovery.score) && IsNumber(s.workload.completed)
    ensures s.readiness == Get(ds, "readiness")
    ensures var sleep := Some(ds.value.fields["sleep"]);
            s.sleep.durationHrs == Get(sleep, "durationHrs") && s.sleep.efficiency == Get(sleep, "efficiency")
            && s.sleep.consistency == Get(sleep, "consistency")
    ensures var recovery := Some(ds.value.fields["recovery"]);
            s.recovery.score == Get(recovery, "score") && s.recovery.hrvMs == Get(recovery, "hrvMs")
            && s.recovery.restingHr == Get(recovery, "restingHr")
    ensures var workload := Some(ds.value.fields["workload"]);
            s.workload.completed == Get(workload, "completed") && s.workload.goal == Get(workload, "goal")
  {
    var sleep, recovery, workload := Get(ds, "sleep"), Get(ds, "recovery"), Get(ds, "workload");
    Prompt.Snapshot(
      Get(ds, "readiness"),
      Prompt.Sleep(Get(sleep, "durationHrs"), Get(sleep, "efficiency"), Get(sleep, "consistency")),
      Prompt.Recovery(Get(recovery, "score"), Get(recovery, "hrvMs"), Get(recovery, "restingHr")),
      Prompt.Workload(Get(workload, "completed"), Get(workload, "goal")))
  }

  /**
   * `${message}`: a string interpolates as itself, any other value through the
   * rendering. A value JavaScript cannot convert (an object whose `toString` is
   * not a function) throws instead; that throw is the handler's `fault` input.
   */
  function TextOf(fmt: Prompt.Format<Value>, message: Value): (text: string)
    ensures message.Some? && message.value.JStr? ==> text == message.value.s
    ensures !(message.Some? && message.value.JStr?) ==> text == fmt.show(message)
  {
    if message.Some? && message.value.JStr? then message.value.s else fmt.show(message)
  }

  // ---- The provider stream ----

  /** One step of the provider's stream: a chunk whose `delta.content` may be missing, or a thrown failure. */
  datatype StreamEvent = Chunk(content: Option<string>) | Fail(message: string)

  /** The chat-completion request the handler sends. */
  datatype ChatRequest = ChatRequest(model: string, messages: seq<Prompt.Message>, temperature: real, stream: bool)

  /** The fragments written to the caller: the non-empty contents, in order, up to the first failure. */
  function Tokens(events: seq<StreamEvent>): (written: seq<string>)
    ensures forall k :: 0 <= k < |written| ==> written[k] != ""
    ensures |written| <= |events|
  {
    if events == [] then []
    else match events[0]
      case Fail(_) => []
      case Chunk(c) =>
        if c.Some? && c.value != "" then [c.value] + Tokens(events[1..]) else Tokens(events[1..])
  }

  /** The message of the first failure in the stream, if any. */
  function FirstFailure(events: seq<StreamEvent>): Option<string> {
    if events == [] then None
    else match events[0]
      case Fail(m) => Some(m)
      case Chunk(_) => FirstFailure(events[1..])
  }

  function Concat(parts: seq<string>): string {
    if parts == [] then "" else parts[0] + Concat(parts[1..])
  }

  /** Everything the provider said before failing, missing content counting as empty. */
  function SaidBeforeFailure(events: seq<StreamEvent>): string {
    if events == [] then ""
    else match events[0]
      case Fail(_) => ""
      case Chunk(c) => c.GetOr("") + SaidBeforeFailure(events[1..])
  }

  /** The streamed body reads as the in-order concatenation of every content before the first failure. */
  lemma {:induction false} TokensSpellReply(events: seq<StreamEvent>)
    ensures Concat(Tokens(events)) == SaidBeforeFailure(events)
  {
    if events != [] {
      TokensSpellReply(events[1..]);
      match events[0]
      case Fail(_) =>
      case Chunk(c) =>
        if c.Some? && c.value != "" {
          var t := [c.value] + Tokens(events[1..]);
          assert t[0] == c.value && t[1..] == Tokens(events[1..]);
        }
    }
  }

  /** A stream without failure relays piecewise; nothing after a failure is ever relayed. */
  lemma {:induction false} TokensAppend(a: seq<StreamEvent>, b: seq<StreamEvent>)
    ensures Tokens(a + b) == if FirstFailure(a).None? then Tokens(a) + Tokens(b) else Tokens(a)
  {
    if a == [] {
      assert a + b == b;
    } else {
      assert (a + b)[0] == a[0] && (a + b)[1..] == a[1..] + b;
      TokensAppend(a[1..], b);
    }
  }

  // ---- The HTTP response ----

  /** The observable state of a response. */
  datatype Reply = Reply(status: int, headers: map<string, string>, headersSent: bool,
                         body: seq<string>, jsonError: Option<string>, ended: bool)

  /** A response as the framework hands it over: status 200, no headers, nothing sent. */
  const FreshReply: Reply := Reply(200, map[], false, [], None, false)

  /** The response object; `body` holds the streamed writes and `jsonError` the error of a JSON reply. */
  class Response {
    var status: int
    var headers: map<string, string>
    var headersSent: bool
    var body: seq<string>
    var jsonError: Option<string>
    var ended: bool

    constructor ()
      ensures State() == FreshReply
    {
      status, headers, headersSent := 200, map[], false;
      body, jsonError, ended := [], None, false;
    }

    function State(): Reply
      reads this
    {
      Reply(status, headers, headersSent, body, jsonError, ended)
    }

    /** `res.setHeader`: only before the headers are sent. */
    method SetHeader(name: string, value: string)
      requires !headersSent
      modifies this
      ensures State() == old(State()).(headers := old(headers)[name := value])
    {
      headers := headers[name := value];
    }

    /** `res.status(code)`. */
    method Status(code: int)
      modifies this
      ensures State() == old(State()).(status := code)
    {
      status := code;
    }

    /** `res.json({ error })`: sends the headers and the error object, then ends. */
    method Json(error: string)
      requires !headersSent
      modifies this
      ensures State() == old(State()).(headersSent := true, jsonError := Some(error), ended := true)
    {
      headersSent, jsonError, ended := true, Some(error), true;
    }

    /** `res.writeHead(code, extra)`: sets the status, merges the headers (the new ones win) and sends them. */
    method WriteHead(code: int, extra: map<string, string>)
      requires !headersSent
      modifies this
      ensures State() == old(State()).(status := code, headers := old(headers) + extra, headersSent := true)
    {
      status, headers, headersSent := code, headers + extra, true;
    }

    /** `res.write(chunk)`: appends one fragment to the open stream. */
    method Write(chunk: string)
      requires !ended
      modifies this
      ensures State() == old(State()).(headersSent := true, body := old(body) + [chunk])
    {
      headersSent, body := true, body + [chunk];
    }

    /** `res.end()`. */
    method End()
      modifies this
      ensures State() == old(State()).(headersSent := true, ended := true)
    {
      headersSent, ended := true, true;
    }
  }

  /** The model provider: the requests it has received and the stream it answers with. */
  class Provider {
    var calls: seq<ChatRequest>
    var script: seq<StreamEvent>

    constructor (script: seq<StreamEvent>)
      ensures calls == [] && this.script == script
    {
      calls, this.script := [], script;
    }

    /** `client.chat.completions.create`: records the request and returns the stream. */
    method Create(request: ChatRequest) returns (events: seq<StreamEvent>)
      modifies this
      ensures calls == old(calls) + [request] && script == old(script) && events == script
    {
      calls := calls + [request];
      events := script;
    }
  }

  // ---- Headers ----

  const AllowOrigin: string := "Access-Control-Allow-Origin"
  const AllowMethods: string := "Access-Control-Allow-Methods"
  const AllowHeaders: string := "Access-Control-Allow-Headers"
  const MaxAge: string := "Access-Control-Max-Age"

  lemma CorsNamesDistinct()
    ensures AllowOrigin != AllowMethods && AllowOrigin != AllowHeaders && AllowOrigin != MaxAge
    ensures AllowMethods != AllowHeaders && AllowMethods != MaxAge && AllowHeaders != MaxAge
  {
    assert |AllowOrigin| == 27 && |AllowMethods| == 28 && |AllowHeaders| == 28 && |MaxAge| == 22;
    assert AllowMethods[21] == 'M' && AllowHeaders[21] == 'H';
  }

  const CorsHeaders: map<string, string> := map[
    AllowOrigin := "*",
    AllowMethods := "POST, OPTIONS",
    AllowHeaders := "Content-Type, Authorization",
    MaxAge := "86400"]

  const StreamHeaders: map<string, string> := map[
    "Content-Type" := "text/event-stream",
    "Cache-Control" := "no-cache, no-transform",
    "Connection" := "keep-alive",
    AllowOrigin := "*",
    AllowMethods := "POST, OPTIONS",
    AllowHeaders := "Content-Type, Authorization"]

  /** `setCors`: adds the four CORS headers and changes nothing else. */
  method SetCors(res: Response)
    requires !res.headersSent
    modifies res
    ensures res.State() == old(res.State()).(headers := old(res.headers) + CorsHeaders)
  {
    ghost var h := old(res.headers);
    res.SetHeader(AllowOrigin, "*");
    res.SetHeader(AllowMethods, "POST, OPTIONS");
    res.SetHeader(AllowHeaders, "Content-Type, Authorization");
    res.SetHeader(MaxAge, "86400");
    CorsMerge(h);
  }

  /** Setting the four CORS headers one by one is merging `CorsHeaders`. */
  lemma CorsMerge(h: map<string, string>)
    ensures h[AllowOrigin := "*"][AllowMethods := "POST, OPTIONS"]
             [AllowHeaders := "Content-Type, Authorization"][MaxAge := "86400"] == h + CorsHeaders
  {
    CorsNamesDistinct();
    var set4 := h[AllowOrigin := "*"][AllowMethods := "POST, OPTIONS"]
                 [AllowHeaders := "Content-Type, Authorization"][MaxAge := "86400"];
    assert set4.Keys == h.Keys + CorsHeaders.Keys;
    forall k | k in set4 ensures set4[k] == (h + CorsHeaders)[k] {
      if k in CorsHeaders {
        assert k == AllowOrigin || k == AllowMethods || k == AllowHeaders || k == MaxAge;
      }
    }
  }

  /** Every CORS header is present with its value. */
  predicate CarriesCors(headers: map<string, string>) {
    forall k :: k in CorsHeaders ==> k in headers && headers[k] == CorsHeaders[k]
  }

  /** The stream headers repeat three CORS headers with the same values, so the merged headers still carry all four. */
  lemma StreamKeepsCors()
    ensures CarriesCors(CorsHeaders + StreamHeaders)
    ensures (CorsHeaders + StreamHeaders)["Content-Type"] == "text/event-stream"
  {
    CorsNamesDistinct();
    assert MaxAge !in StreamHeaders by {
      assert |MaxAge| == 22 && |"Content-Type"| == 12 && |"Cache-Control"| == 13 && |"Connection"| == 10;
    }
    assert "Content-Type" !in CorsHeaders by {
      assert |"Content-Type"| == 12;
    }
  }

  // ---- The handler's specification ----

  /** `err?.message || "Server error"`: an empty message stands for a missing one. */
  function ErrorText(message: string): (text: string)
    ensures text != ""
    ensures message != "" ==> text == message
  {
    if message == "" then "Server error" else message
  }

  /** The final response and the provider requests of one call of the handler. */
  datatype Outcome = Outcome(reply: Reply, calls: seq<ChatRequest>)

  function JsonReply(status: int, error: string): Outcome {
    Outcome(Reply(status, CorsHeaders, true, [], Some(error), true), [])
  }

  /** The body as destructured: a falsy body counts as `{}`. */
  function BodyOf(req: Request): (body: Value)
    ensures !IsNullish(body)
  {
    if Truthy(req.body) then req.body else Some(JObj(map[]))
  }

  /** A POST whose body holds a truthy message and a truthy snapshot of the right shape. */
  predicate WellFormed(req: Request) {
    var body := BodyOf(req);
    req.httpMethod == "POST"
    && Truthy(Get(body, "message")) && Truthy(Get(body, "dataSnapshot"))
    && ShapeOk(Get(body, "dataSnapshot"))
  }

  /** The chat request built for a well-formed request. */
  function ChatRequestFor(req: Request, env: Env, fmt: Prompt.Format<Value>): (r: ChatRequest)
    requires WellFormed(req)
    ensures r.model == "gpt-4o-mini" && r.temperature == 0.4 && r.stream
    ensures |r.messages| == 2 && r.messages[0] == Prompt.Message(Prompt.System, Prompt.SystemPrompt())
    ensures r.messages[1].role == Prompt.User
    ensures EndsWith(r.messages[1].content, Prompt.QuestionSeparator + TextOf(fmt, Get(BodyOf(req), "message")))
    // the user turn is the context rendered from the body's snapshot, the separator and the rendered message
    ensures r.messages[1].content
            == Prompt.ContextText(fmt, SnapshotOf(Get(BodyOf(req), "dataSnapshot")))
               + Prompt.QuestionSeparator + TextOf(fmt, Get(BodyOf(req), "message"))
  {
    var body := BodyOf(req);
    var text, snapshot := TextOf(fmt, Get(body, "message")), SnapshotOf(Get(body, "dataSnapshot"));
    var messages := Prompt.BuildCoachMessages(fmt, text, snapshot);
    Prompt.UserTurnIs(fmt, text, snapshot);
    ChatRequest(GetTenantConfig(DevUid, env).model, messages, 0.4, true)
  }

  /**
   * What the handler does, given the request, the environment, the rendering of
   * values, a possible throw before the stream headers are committed (`fault`:
   * the provider client's constructor, or the rendering of the message or of a
   * snapshot value that JavaScript cannot convert to a string), and the
   * provider's stream.
   */
  function Respond(req: Request, env: Env, fmt: Prompt.Format<Value>, fault: Option<string>,
                   script: seq<StreamEvent>): (o: Outcome)
    // every response carries the CORS headers, and every response is ended
    ensures CarriesCors(o.reply.headers)
    ensures o.reply.headersSent && o.reply.ended
    // pre-flight: 204, empty, no JSON, no provider call, whatever the body
    ensures req.httpMethod == "OPTIONS" ==>
              o == Outcome(Reply(204, CorsHeaders, true, [], None, true), [])
    // any other method but POST: 405
    ensures req.httpMethod != "OPTIONS" && req.httpMethod != "POST" ==>
              o == JsonReply(405, "Method Not Allowed")
    // the stream is opened exactly when the request passes every check
    ensures o.reply.status == 200 <==> WellFormed(req) && HasKey(env.openAiKey) && fault.None?
    ensures |o.calls| == (if o.reply.status == 200 then 1 else 0)
    // a JSON error exactly on the error statuses; stream writes only on 200
    ensures o.reply.jsonError.Some? <==> o.reply.status !in {200, 204}
    ensures o.reply.status != 200 ==> o.reply.body == []
    // on 200: the stream headers, the relayed fragments, one request to the tenant's model
    ensures o.reply.status == 200 ==>
              o.reply.headers == CorsHeaders + StreamHeaders && o.reply.body == Tokens(script)
              && o.calls == [ChatRequestFor(req, env, fmt)]
  {
    if req.httpMethod == "OPTIONS" then
      Outcome(Reply(204, CorsHeaders, true, [], None, true), [])
    else if req.httpMethod != "POST" then
      JsonReply(405, "Method Not Allowed")
    else
      RespondPost(req, env, fmt, fault, script)
  }

  /**
   * The `try` block for a POST: each check in turn, in source order, refuses
   * with its own status and error before anything is committed; a request that
   * passes them all is answered with a 200 event stream.
   */
  function RespondPost(req: Request, env: Env, fmt: Prompt.Format<Value>, fault: Option<string>,
                       script: seq<StreamEvent>): (o: Outcome)
    requires req.httpMethod == "POST"
    ensures CarriesCors(o.reply.headers) && o.reply.headersSent && o.reply.ended
    ensures o.reply.status == 200 <==> WellFormed(req) && HasKey(env.openAiKey) && fault.None?
    ensures o.reply.status != 200 ==>
              o.reply.status in {400, 500} && o.reply.jsonError.Some? && o.reply.body == [] && o.calls == []
    ensures o.reply.status == 200 ==>
              o == Outcome(Reply(200, CorsHeaders + StreamHeaders, true, Tokens(script), None, true),
                           [ChatRequestFor(req, env, fmt)])
  {
    var body := BodyOf(req);
    var message, dataSnapshot := Get(body, "message"), Get(body, "dataSnapshot");
    if !Truthy(message) || !Truthy(dataSnapshot) then
      JsonReply(400, "Missing message or dataSnapshot")
    else if !ShapeOk(dataSnapshot) then
      JsonReply(400, "Invalid dataSnapshot shape")
    else if !HasKey(GetTenantConfig(DevUid, env).apiKey) then
      JsonReply(500, "Missing OPENAI_API_KEY")
    else if fault.Some? then
      JsonReply(500, ErrorText(fault.value))
    else
      StreamKeepsCors();
      Outcome(Reply(200, CorsHeaders + StreamHeaders, true, Tokens(script), None, true),
              [ChatRequestFor(req, env, fmt)])
  }

  // ---- The handler ----

  /**
   * The `for await` loop: writes every non-empty content in order and stops at
   * the first failure, whose message it returns.
   */
  method Relay(res: Response, events: seq<StreamEvent>) returns (failure: Option<string>)
    requires res.headersSent && !res.ended
    modifies res
    ensures res.State() == old(res.State()).(body := old(res.body) + Tokens(events))
    ensures failure == FirstFailure(events)
  {
    var i := 0;
    while i < |events|
      invariant 0 <= i <= |events|
      invariant res.State() == old(res.State()).(body := res.body)
      invariant old(res.body) + Tokens(events) == res.body + Tokens(events[i..])
      invariant FirstFailure(events) == FirstFailure(events[i..])
    {
      assert events[i..][0] == events[i] && events[i..][1..] == events[i + 1..];
      match events[i]
      case Fail(m) =>
        return Some(m);
      case Chunk(c) =>
        if c.Some? && c.value != "" {
          res.Write(c.value);
        }
      i := i + 1;
    }
    assert events[i..] == [];
    return None;
  }

  /** The catch block: a JSON error if nothing was sent yet, otherwise just end the stream. */
  method Catch(res: Response, message: string)
    modifies res
    ensures !old(res.headersSent) ==>
              res.State() == old(res.State()).(status := 500, headersSent := true,
                                               jsonError := Some(ErrorText(message)), ended := true)
    ensures old(res.headersSent) ==> res.State() == old(res.State()).(ended := true)
  {
    if !res.headersSent {
      res.Status(500);
      res.Json(ErrorText(message));
    } else {
      res.End();
    }
  }

  /** `handler`: leaves the response and the provider as `Respond` describes. */
  method Handler(req: Request, res: Response, provider: Provider, env: Env,
                 fmt: Prompt.Format<Value>, fault: Option<string>)
    requires res.State() == FreshReply
    modifies res, provider
    ensures res.State() == Respond(req, env, fmt, fault, old(provider.script)).reply
    ensures provider.calls == old(provider.calls) + Respond(req, env, fmt, fault, old(provider.script)).calls
    ensures provider.script == old(provider.script)
  {
    SetCors(res);
    assert res.headers == CorsHeaders by {
      assert map[] + CorsHeaders == CorsHeaders;
    }

    if req.httpMethod == "OPTIONS" {
      res.Status(204);
      res.End();
      return;
    }

    if req.httpMethod != "POST" {
      res.Status(405);
      res.Json("Method Not Allowed");
      return;
    }

    assert Respond(req, env, fmt, fault, provider.script) == RespondPost(req, env, fmt, fault, provider.script);
    HandlePost(req, res, provider, env, fmt, fault);
  }

  /** The `try` block of `handler`, entered for a POST once the CORS headers are set. */
  method HandlePost(req: Request, res: Response, provider: Provider, env: Env,
                    fmt: Prompt.Format<Value>, fault: Option<string>)
    requires req.httpMethod == "POST"
    requires res.State() == FreshReply.(headers := CorsHeaders)
    modifies res, provider
    ensures res.State() == RespondPost(req, env, fmt, fault, old(provider.script)).reply
    ensures provider.calls == old(provider.calls) + RespondPost(req, env, fmt, fault, old(provider.script)).calls
    ensures provider.script == old(provider.script)
  {
    ghost var o := RespondPost(req, env, fmt, fault, provider.script);
    var uid := DevUid;
    var body := BodyOf(req);
    var message, dataSnapshot := Get(body, "message"), Get(body, "dataSnapshot");

    if !Truthy(message) || !Truthy(dataSnapshot) {
      res.Status(400);
      res.Json("Missing message or dataSnapshot");
      assert o == JsonReply(400, "Missing message or dataSnapshot");
      return;
    }

    var ok := ShapeOk(dataSnapshot);
    if !ok {
      res.Status(400);
      res.Json("Invalid dataSnapshot shape");
      assert o == JsonReply(400, "Invalid dataSnapshot shape");
      return;
    }

    var tenant := GetTenantConfig(uid, env);
    if !HasKey(tenant.apiKey) {
      res.Status(500);
      res.Json("Missing OPENAI_API_KEY");
      assert o == JsonReply(500, "Missing OPENAI_API_KEY");
      return;
    }

    if fault.Some? {
      Catch(res, fault.value);
      assert o == JsonReply(500, ErrorText(fault.value));
      return;
    }

    var messages := Prompt.BuildCoachMessages(fmt, TextOf(fmt, message), SnapshotOf(dataSnapshot));
    assert WellFormed(req) && ChatRequestFor(req, env, fmt) == ChatRequest(tenant.model, messages, 0.4, true);
    StreamReply(res, provider, ChatRequest(tenant.model, messages, 0.4, true));
  }

  /**
   * From the commit of the stream headers to the end of the response: whether
   * or not the provider fails, the response ends as a 200 carrying exactly the
   * fragments relayed before any failure, and no JSON error.
   */
  method StreamReply(res: Response, provider: Provider, request: ChatRequest)
    requires res.State() == FreshReply.(headers := CorsHeaders)
    modifies res, provider
    ensures res.State() == Reply(200, CorsHeaders + StreamHeaders, true, Tokens(old(provider.script)), None, true)
    ensures provider.calls == old(provider.calls) + [request] && provider.script == old(provider.script)
  {
    res.WriteHead(200, StreamHeaders);
    var stream := provider.Create(request);
    var failure := Relay(res, stream);
    if failure.Some? {
      Catch(res, failure.value);
    } else {
      res.End();
    }
  }

  // ---- Properties across requests ----

  /** A falsy body is read as `{}`, so it is refused as missing both fields. */
  lemma FalsyBodyIsMissingFields(req: Request, env: Env, fmt: Prompt.Format<Value>, fault: Option<string>, script: seq<StreamEvent>)
    requires req.httpMethod == "POST" && !Truthy(req.body)
    ensures Respond(req, env, fmt, fault, script) == JsonReply(400, "Missing message or dataSnapshot")
  {
  }

  /** A POST whose message or snapshot is falsy (absent, `null`, `""`, `0`, `false`) is refused with 400. */
  lemma MissingFieldsRefused(req: Request, env: Env, fmt: Prompt.Format<Value>, fault: Option<string>, script: seq<StreamEvent>)
    requires req.httpMethod == "POST"
    requires !Truthy(Get(BodyOf(req), "message")) || !Truthy(Get(BodyOf(req), "dataSnapshot"))
    ensures Respond(req, env, fmt, fault, script) == JsonReply(400, "Missing message or dataSnapshot")
  {
  }

  /** A POST with both fields present but a snapshot failing the guard is refused with 400. */
  lemma BadShapeRefused(req: Request, env: Env, fmt: Prompt.Format<Value>, fault: Option<string>, script: seq<StreamEvent>)
    requires req.httpMethod == "POST"
    requires Truthy(Get(BodyOf(req), "message")) && Truthy(Get(BodyOf(req), "dataSnapshot"))
    requires !ShapeOk(Get(BodyOf(req), "dataSnapshot"))
    ensures Respond(req, env, fmt, fault, script) == JsonReply(400, "Invalid dataSnapshot shape")
  {
  }

  /** A missing or empty key is refused with 500 before any header is committed or any provider call. */
  lemma MissingKeyRefused(req: Request, env: Env, fmt: Prompt.Format<Value>, fault: Option<string>, script: seq<StreamEvent>)
    requires WellFormed(req) && !HasKey(env.openAiKey)
    ensures Respond(req, env, fmt, fault, script) == JsonReply(500, "Missing OPENAI_API_KEY")
  {
  }

  /** A throw before the stream headers are committed gives 500 with its message, or "Server error" when it has none. */
  lemma FaultBeforeCommit(req: Request, env: Env, fmt: Prompt.Format<Value>, m: string, script: seq<StreamEvent>)
    requires WellFormed(req) && HasKey(env.openAiKey)
    ensures Respond(req, env, fmt, Some(m), script) == JsonReply(500, if m == "" then "Server error" else m)
  {
  }

  /**
   * Once the stream headers are committed a provider failure only ends the
   * response: status 200, no JSON error, and exactly the fragments relayed
   * before the failure. In particular a failure before the first fragment gives
   * an empty 200 response.
   */
  lemma {:induction false} FailureAfterCommit(req: Request, env: Env, fmt: Prompt.Format<Value>,
                                              before: seq<StreamEvent>, m: string, after: seq<StreamEvent>)
    requires WellFormed(req) && HasKey(env.openAiKey) && FirstFailure(before).None?
    ensures var o := Respond(req, env, fmt, None, before + [Fail(m)] + after);
            o.reply.status == 200 && o.reply.jsonError.None? && o.reply.ended
            && o.reply.body == Tokens(before)
  {
    TokensAppend(before, [Fail(m)] + after);
    assert before + [Fail(m)] + after == before + ([Fail(m)] + after);
  }

  /** The snapshot of the end-to-end scenario. */
  function ScenarioSnapshot(): Json {
    var sleep := JObj(map["durationHrs" := JNum(7.2), "efficiency" := JNum(0.91), "consistency" := JNum(0.78)]);
    var recovery := JObj(map["score" := JNum(75.0), "hrvMs" := JNum(61.0), "restingHr" := JNum(52.0)]);
    var workload := JObj(map["completed" := JNum(3.0), "goal" := JNum(5.0)]);
    JObj(map["readiness" := JNum(82.0), "sleep" := sleep, "recovery" := recovery, "workload" := workload])
  }

  /** The request of the end-to-end scenario. */
  function ScenarioRequest(): Request {
    Request("POST", Some(JObj(map["message" := JStr("How should I train today?"), "dataSnapshot" := ScenarioSnapshot()])))
  }

  /** The request of the end-to-end scenario passes every check of the handler. */
  lemma ScenarioIsWellFormed()
    ensures WellFormed(ScenarioRequest())
  {
    var body := BodyOf(ScenarioRequest());
    assert Get(body, "message") == Some(JStr("How should I train today?"));
    var ds := ScenarioSnapshot();
    assert Get(body, "dataSnapshot") == Some(ds);
    assert NumAt(ds, "readiness");
    assert ObjAt(ds, "sleep") && NumAt(ds.fields["sleep"], "durationHrs");
    assert ObjAt(ds, "recovery") && NumAt(ds.fields["recovery"], "score");
    assert ObjAt(ds, "workload") && NumAt(ds.fields["workload"], "completed");
  }

  /** Once every check passes, the response is a 200 event stream of the relayed fragments, whatever the stream. */
  lemma StreamedOutcome(req: Request, env: Env, fmt: Prompt.Format<Value>, script: seq<StreamEvent>)
    requires WellFormed(req) && HasKey(env.openAiKey)
    ensures Respond(req, env, fmt, None, script).reply
            == Reply(200, CorsHeaders + StreamHeaders, true, Tokens(script), None, true)
  {
  }

  /** The stream of the end-to-end scenario relays its three fragments in order. */
  lemma ScenarioFragments()
    ensures Tokens([Chunk(Some("Great")), Chunk(Some(" readiness")), Chunk(Some(" today."))])
            == ["Great", " readiness", " today."]
    ensures Concat(["Great", " readiness", " today."]) == "Great" + " readiness" + " today."
    ensures Tokens([Chunk(Some("Great")), Fail("reset")]) == ["Great"]
  {
    var three := [Chunk(Some("Great")), Chunk(Some(" readiness")), Chunk(Some(" today."))];
    assert three[1..] == [Chunk(Some(" readiness")), Chunk(Some(" today."))];
    assert three[1..][1..] == [Chunk(Some(" today."))];
    assert three[1..][1..][1..] == [];
    var body := ["Great", " readiness", " today."];
    assert body[1..] == [" readiness", " today."] && body[1..][1..] == [" today."] && body[1..][1..][1..] == [];
    assert Concat(body) == "Great" + (" readiness" + (" today." + ""));
    var failing := [Chunk(Some("Great")), Fail("reset")];
    assert failing[1..][0] == Fail("reset");
  }

  /**
   * The end-to-end scenario: for a well-formed request such as the one above,
   * three fragments stream, in order, to a 200 event-stream response; one
   * fragment then a failure leaves exactly that fragment, a 200 status and no
   * JSON error.
   */
  lemma Scenarios(req: Request, env: Env, fmt: Prompt.Format<Value>)
    requires WellFormed(req) && HasKey(env.openAiKey)
    ensures var o := Respond(req, env, fmt, None,
                             [Chunk(Some("Great")), Chunk(Some(" readiness")), Chunk(Some(" today."))]);
            o.reply.status == 200 && o.reply.headers["Content-Type"] == "text/event-stream"
            && o.reply.body == ["Great", " readiness", " today."]
            && Concat(o.reply.body) == "Great" + " readiness" + " today."
    ensures var o := Respond(req, env, fmt, None, [Chunk(Some("Great")), Fail("reset")]);
            o.reply.status == 200 && o.reply.body == ["Great"] && o.reply.jsonError.None?
  {
    StreamedOutcome(req, env, fmt, [Chunk(Some("Great")), Chunk(Some(" readiness")), Chunk(Some(" today."))]);
    StreamedOutcome(req, env, fmt, [Chunk(Some("Great")), Fail("reset")]);
    StreamKeepsCors();
    ScenarioFragments();
  }
}
