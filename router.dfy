/**
 * The WebSocket Lambda handler (backend/src/index.ts): route classification, the authorization
 * gate on `ask`, and the processPrompt pipeline (backend call, answer frame, "End" frame, session row).
 * The AWS clients, JSON.parse, the JWT library and the clock are oracles gathered in `World`;
 * every backend call, push and session put the handler makes is recorded, in order, as an
 * `Effect` (the session query, a read, is not).
 */
module Router {
  import opened Wrappers
  import Auth
  import Decimal

  const SessionTable: string := "bedrock_sessions"
  const KnowledgeBaseId: string := "JD6EOVOZMZ"
  /** The frame that tells the client no more frames follow for this answer. */
  const EndMarker: string := "End"
  /** Seven days, in milliseconds (1000 * 60 * 60 * 24 * 7). */
  const SessionTtl: nat := 1000 * 60 * 60 * 24 * 7

  /** The acknowledgement returned to API Gateway. */
  const Ack: Response := Response(200, map["Access-Control-Allow-Origin" := "*"], "{}")

  datatype Response = Response(statusCode: int, headers: map<string, string>, body: string)

  /** An API Gateway WebSocket event: requestContext.connectionId, requestContext.routeKey, body. */
  datatype Event = Event(connectionId: string, routeKey: string, body: string)

  /** The fields of the parsed `ask` body the handler reads. */
  datatype RequestData = RequestData(token: string, data: string)

  /** The RetrieveAndGenerate input: prompt text, knowledge base, model, optional session id. */
  datatype Request = Request(text: string, knowledgeBaseId: string, modelArn: string, sessionId: Option<string>)

  /** The fields of the backend's response the handler reads: output.text and sessionId. */
  datatype Answer = Answer(outputText: string, sessionId: string)

  /** The item written to the session table; `ttl` is the number attribute as its decimal string. */
  datatype SessionRow = SessionRow(table: string, connectionid: string, bedrockSessionid: string, ttl: string)

  /** One call to the outside world, recorded when it is made (whether or not it then fails). */
  datatype Effect =
    | BackendCall(request: Request)
    | Push(connection: string, data: string)
    | Put(row: SessionRow)

  /** Why an invocation ended in a thrown error. */
  datatype Failure = MalformedBody | BackendFailed | PushFailed | PutFailed

  /** How the handler's promise settles: resolved with a value (possibly undefined) or rejected. */
  datatype Completion = Returned(value: Option<Response>) | Threw(failure: Failure)

  /**
   * Everything one invocation consults outside this code. `parse` is JSON.parse of the body
   * (None when it throws); `observedSessionId` is the value of bedrock_sessionid when line 127
   * reads it; `backend` is None when the call rejects; the push and put flags say whether those
   * calls succeed; `now` is Date.now().
   */
  datatype World = World(
    parse: string -> Option<RequestData>,
    jwt: Auth.Jwt,
    observedSessionId: Option<string>,
    region: string,
    backend: Request -> Option<Answer>,
    answerPushOk: bool,
    endPushOk: bool,
    putOk: bool,
    now: nat)

  /** The module-level `connectionId` and `prompt` (undefined until first assigned). */
  datatype Globals = Globals(connectionId: Option<string>, prompt: Option<string>)

  function ModelArn(region: string): string {
    "arn:aws:bedrock:" + region + "::foundation-model/anthropic.claude-instant-v1"
  }

  // ----- Projections of a trace -----

  function Calls(effects: seq<Effect>): seq<Request> {
    if effects == [] then []
    else
      var rest := Calls(effects[..|effects| - 1]);
      match effects[|effects| - 1]
      case BackendCall(r) => rest + [r]
      case _ => rest
  }

  /** The frames pushed, as (connection, data) pairs. */
  function Frames(effects: seq<Effect>): seq<(string, string)> {
    if effects == [] then []
    else
      var rest := Frames(effects[..|effects| - 1]);
      match effects[|effects| - 1]
      case Push(c, d) => rest + [(c, d)]
      case _ => rest
  }

  function Puts(effects: seq<Effect>): seq<SessionRow> {
    if effects == [] then []
    else
      var rest := Puts(effects[..|effects| - 1]);
      match effects[|effects| - 1]
      case Put(row) => rest + [row]
      case _ => rest
  }

  /** Appending one effect extends exactly the projection it belongs to. */
  lemma ProjectLast(effects: seq<Effect>, e: Effect)
    ensures Calls(effects + [e]) == Calls(effects) + (if e.BackendCall? then [e.request] else [])
    ensures Frames(effects + [e]) == Frames(effects) + (if e.Push? then [(e.connection, e.data)] else [])
    ensures Puts(effects + [e]) == Puts(effects) + (if e.Put? then [e.row] else [])
  {
  }

  /** An effect that concerns no connection other than `conn`. */
  predicate AddressedTo(e: Effect, conn: string) {
    match e
    case BackendCall(_) => true
    case Push(c, _) => c == conn
    case Put(row) => row.connectionid == conn
  }

  // ----- processPrompt -----

  /**
   * The query callback (lines 99-111): on success with a non-empty item list, every item in turn
   * overwrites bedrock_sessionid, so the last item's attribute (possibly missing) is what remains;
   * on error, or with no items, the variable keeps its initial null.
   */
  datatype Item = Item(bedrockSessionid: Option<string>)
  datatype QueryPage = QueryPage(items: Option<seq<Item>>)
  datatype QueryOutcome = QueryError | QueryData(page: Option<QueryPage>)

  method QueryCallback(outcome: QueryOutcome) returns (sessionId: Option<string>)
    ensures (outcome.QueryData? && outcome.page.Some? && outcome.page.value.items.Some?
             && |outcome.page.value.items.value| > 0)
            ==> sessionId == outcome.page.value.items.value[|outcome.page.value.items.value| - 1].bedrockSessionid
    ensures !(outcome.QueryData? && outcome.page.Some? && outcome.page.value.items.Some?
              && |outcome.page.value.items.value| > 0)
            ==> sessionId == None
  {
    sessionId := None;
    if outcome.QueryError? {
      return;
    }
    if outcome.page.Some? && outcome.page.value.items.Some? && |outcome.page.value.items.value| > 0 {
      var items := outcome.page.value.items.value;
      var i := 0;
      while i < |items|
        invariant 0 <= i <= |items|
        invariant i == 0 ==> sessionId == None
        invariant i > 0 ==> sessionId == items[i - 1].bedrockSessionid
      {
        sessionId := items[i].bedrockSessionid;
        i := i + 1;
      }
    }
  }

  /**
   * The backend request built at lines 113-129: the prompt as input text, the fixed knowledge
   * base and model, and a sessionId exactly when the observed session id is truthy.
   */
  function BackendRequest(prompt: string, observed: Option<string>, region: string): (req: Request)
    ensures req.text == prompt
    ensures req.knowledgeBaseId == KnowledgeBaseId && req.modelArn == ModelArn(region)
    ensures req.sessionId.Some? <==> Auth.Truthy(observed)
    ensures req.sessionId.Some? ==> req.sessionId == observed
  {
    var params := Request(prompt, KnowledgeBaseId, ModelArn(region), None);
    if Auth.Truthy(observed) then params.(sessionId := observed) else params
  }

  /**
   * The session row of lines 151-164: table bedrock_sessions, keyed by the connection, holding
   * the backend's session id, and a ttl that reads back as `now` plus seven days in milliseconds.
   */
  function SessionRowFor(conn: string, sessionId: string, now: nat): (row: SessionRow)
    ensures row.table == SessionTable && row.connectionid == conn && row.bedrockSessionid == sessionId
    ensures Decimal.AllDigits(row.ttl) && Decimal.ParseDecimal(row.ttl) == now + 604800000
  {
    Decimal.ParseDecimalString(now + SessionTtl);
    SessionRow(SessionTable, conn, sessionId, Decimal.DecimalString(now + SessionTtl))
  }

  /** The four calls of a pipeline that runs to the end, in order. */
  function Script(req: Request, conn: string, answer: Answer, now: nat): seq<Effect> {
    [BackendCall(req), Push(conn, answer.outputText), Push(conn, EndMarker),
     Put(SessionRowFor(conn, answer.sessionId, now))]
  }

  datatype PipelineRun = PipelineRun(effects: seq<Effect>, failure: Option<Failure>)

  /**
   * processPrompt: exactly one backend call, carrying the prompt; then, if it answers, the answer
   * frame and the "End" frame to the same connection and one session put. The first failing call
   * ends the run, so what was done is a prefix of the script, and nothing is pushed without an
   * answer and nothing is written unless both frames went out.
   */
  function Pipeline(prompt: string, conn: string, w: World): (p: PipelineRun)
    ensures var req := BackendRequest(prompt, w.observedSessionId, w.region);
      && Calls(p.effects) == [req]
      && (w.backend(req).None? ==> p.failure == Some(BackendFailed) && Frames(p.effects) == [] && Puts(p.effects) == [])
      && (w.backend(req).Some? ==> p.effects <= Script(req, conn, w.backend(req).value, w.now))
      && (p.failure.None? <==> w.backend(req).Some? && w.answerPushOk && w.endPushOk && w.putOk)
      && (p.failure.None? ==> p.effects == Script(req, conn, w.backend(req).value, w.now))
      && (Puts(p.effects) != [] ==>
            && Frames(p.effects) == [(conn, w.backend(req).value.outputText), (conn, EndMarker)]
            && Puts(p.effects) == [SessionRowFor(conn, w.backend(req).value.sessionId, w.now)])
    ensures var req := BackendRequest(prompt, w.observedSessionId, w.region);
      w.backend(req).Some? ==>
        var answer := w.backend(req).value;
        && (!w.answerPushOk ==>
              p == PipelineRun([BackendCall(req), Push(conn, answer.outputText)], Some(PushFailed)))
        && (w.answerPushOk && !w.endPushOk ==>
              p == PipelineRun([BackendCall(req), Push(conn, answer.outputText), Push(conn, EndMarker)],
                               Some(PushFailed)))
        && (w.answerPushOk && w.endPushOk && !w.putOk ==>
              p == PipelineRun(Script(req, conn, answer, w.now), Some(PutFailed)))
    ensures p.failure == Some(PushFailed) ==> Puts(p.effects) == []
    ensures forall i :: 0 <= i < |p.effects| ==> AddressedTo(p.effects[i], conn)
  {
    var req := BackendRequest(prompt, w.observedSessionId, w.region);
    match w.backend(req)
    case None =>
      ProjectLast([], BackendCall(req));
      PipelineRun([BackendCall(req)], Some(BackendFailed))
    case Some(answer) =>
      ScriptPrefixes(req, conn, answer, w.now);
      var script := Script(req, conn, answer, w.now);
      if !w.answerPushOk then PipelineRun(script[..2], Some(PushFailed))
      else if !w.endPushOk then PipelineRun(script[..3], Some(PushFailed))
      else PipelineRun(script, if w.putOk then None else Some(PutFailed))
  }

  /** What each prefix of the script calls, pushes and writes. */
  lemma ScriptPrefixes(req: Request, conn: string, answer: Answer, now: nat)
    ensures var s := Script(req, conn, answer, now);
      && s[..2] == [BackendCall(req), Push(conn, answer.outputText)]
      && s[..3] == [BackendCall(req), Push(conn, answer.outputText), Push(conn, EndMarker)]
      && Calls(s[..2]) == [req] && Frames(s[..2]) == [(conn, answer.outputText)] && Puts(s[..2]) == []
      && Calls(s[..3]) == [req] && Frames(s[..3]) == [(conn, answer.outputText), (conn, EndMarker)]
      && Puts(s[..3]) == []
      && Calls(s) == [req] && Frames(s) == [(conn, answer.outputText), (conn, EndMarker)]
      && Puts(s) == [SessionRowFor(conn, answer.sessionId, now)]
  {
    var s := Script(req, conn, answer, now);
    ProjectLast([], s[0]);
    assert s[..2] == [s[0]] + [s[1]];
    ProjectLast([s[0]], s[1]);
    assert s[..3] == s[..2] + [s[2]];
    ProjectLast(s[..2], s[2]);
    assert s == s[..3] + [s[3]];
    ProjectLast(s[..3], s[3]);
  }

  // ----- handler -----

  /** An `ask` event whose body parses and whose token authorize accepts. */
  predicate AuthorizedAsk(e: Event, w: World) {
    e.routeKey == "ask" && w.parse(e.body).Some? && Auth.Authorize(w.jwt, w.parse(e.body).value.token)
  }

  datatype Run = Run(globals: Globals, effects: seq<Effect>, result: Completion)

  /**
   * One invocation of the handler from globals `g`. Every event sets the global connectionId;
   * only an authorized ask calls out, and then everything it does is the pipeline's, addressed to
   * the event's own connection. $connect, $disconnect and unknown routes return the ack and call
   * nothing; an unparsable ask body throws before anything is called; an unauthorized ask
   * resolves to undefined with no ack.
   */
  function Handle(g: Globals, e: Event, w: World): (run: Run)
    ensures run.globals.connectionId == Some(e.connectionId)
    ensures e.routeKey == "$connect" ==> run.globals.prompt == Some("Hello!")
    ensures e.routeKey == "$disconnect" ==> run.globals.prompt == Some("Bye!")
    ensures AuthorizedAsk(e, w) ==> run.globals.prompt == Some(w.parse(e.body).value.data)
    ensures e.routeKey != "$connect" && e.routeKey != "$disconnect" && !AuthorizedAsk(e, w)
            ==> run.globals.prompt == g.prompt
    ensures e.routeKey != "ask" ==> run.effects == [] && run.result == Returned(Some(Ack))
    ensures run.effects != [] <==> AuthorizedAsk(e, w)
    ensures run.result == Returned(None)
            <==> e.routeKey == "ask" && w.parse(e.body).Some? && !AuthorizedAsk(e, w)
    ensures run.result == Threw(MalformedBody) <==> e.routeKey == "ask" && w.parse(e.body).None?
    ensures AuthorizedAsk(e, w) ==>
      var p := Pipeline(w.parse(e.body).value.data, e.connectionId, w);
      && run.effects == p.effects
      && (run.result == Returned(Some(Ack)) <==> p.failure.None?)
      && (p.failure.Some? ==> run.result == Threw(p.failure.value))
    ensures forall i :: 0 <= i < |run.effects| ==> AddressedTo(run.effects[i], e.connectionId)
  {
    var connected := g.(connectionId := Some(e.connectionId));
    if e.routeKey == "$connect" then
      Run(connected.(prompt := Some("Hello!")), [], Returned(Some(Ack)))
    else if e.routeKey == "$disconnect" then
      Run(connected.(prompt := Some("Bye!")), [], Returned(Some(Ack)))
    else if e.routeKey == "ask" then
      match w.parse(e.body)
      case None => Run(connected, [], Threw(MalformedBody))
      case Some(requestData) =>
        if !Auth.Authorize(w.jwt, requestData.token) then
          Run(connected, [], Returned(None))
        else
          var p := Pipeline(requestData.data, e.connectionId, w);
          Run(connected.(prompt := Some(requestData.data)), p.effects,
              if p.failure.None? then Returned(Some(Ack)) else Threw(p.failure.value))
    else
      Run(connected, [], Returned(Some(Ack)))
  }

  /**
   * The Lambda module instance: the module-level `connectionId` and `prompt`, which each
   * invocation reassigns, and the record of every call made to the outside world so far.
   */
  class Router {
    var connectionId: Option<string>
    var prompt: Option<string>
    var effects: seq<Effect>

    constructor ()
      ensures connectionId == None && prompt == None && effects == []
    {
      connectionId := None;
      prompt := None;
      effects := [];
    }

    function State(): Globals
      reads this
    {
      Globals(connectionId, prompt)
    }

    /** processPrompt, one awaited call at a time; the parameters shadow the globals, as in the source. */
    method ProcessPrompt(prompt: string, connectionId: string, w: World) returns (failure: Option<Failure>)
      modifies this`effects
      ensures effects == old(effects) + Pipeline(prompt, connectionId, w).effects
      ensures failure == Pipeline(prompt, connectionId, w).failure
    {
      ghost var spec := Pipeline(prompt, connectionId, w);
      // The query callback has not necessarily run: bedrock_sessionid is whatever it holds now.
      var bedrockSessionid := w.observedSessionId;
      var params := Request(prompt, KnowledgeBaseId, ModelArn(w.region), None);
      if Auth.Truthy(bedrockSessionid) {
        params := params.(sessionId := bedrockSessionid);
      }
      assert params == BackendRequest(prompt, w.observedSessionId, w.region);
      effects := effects + [BackendCall(params)];
      var response := w.backend(params);
      if response.None? {
        assert spec == PipelineRun([BackendCall(params)], Some(BackendFailed));
        return Some(BackendFailed);
      }
      ghost var script := Script(params, connectionId, response.value, w.now);
      ScriptPrefixes(params, connectionId, response.value, w.now);
      effects := effects + [Push(connectionId, response.value.outputText)];
      if !w.answerPushOk {
        assert spec == PipelineRun(script[..2], Some(PushFailed));
        return Some(PushFailed);
      }
      effects := effects + [Push(connectionId, EndMarker)];
      if !w.endPushOk {
        assert spec == PipelineRun(script[..3], Some(PushFailed));
        return Some(PushFailed);
      }
      var row := SessionRow(SessionTable, connectionId, response.value.sessionId,
                            Decimal.DecimalString(w.now + SessionTtl));
      effects := effects + [Put(row)];
      assert spec.effects == script;
      if !w.putOk {
        return Some(PutFailed);
      }
      return None;
    }

    /** handler: reassigns the globals, dispatches on the route key, and settles as `Handle` says. */
    method Handler(event: Event, w: World) returns (c: Completion)
      modifies this
      ensures State() == Handle(old(State()), event, w).globals
      ensures effects == old(effects) + Handle(old(State()), event, w).effects
      ensures c == Handle(old(State()), event, w).result
    {
      connectionId := Some(event.connectionId);
      var routeKey := event.routeKey;
      if routeKey == "$connect" {
        prompt := Some("Hello!");
      } else if routeKey == "$disconnect" {
        prompt := Some("Bye!");
      } else if routeKey == "ask" {
        var requestData := w.parse(event.body);
        if requestData.None? {
          return Threw(MalformedBody);
        }
        var isAuthorized := Auth.Authorize(w.jwt, requestData.value.token);
        if !isAuthorized {
          return Returned(None);
        }
        prompt := Some(requestData.value.data);
        var failure := ProcessPrompt(prompt.value, connectionId.value, w);
        if failure.Some? {
          return Threw(failure.value);
        }
      }
      return Returned(Some(Ack));
    }
  }
}
