/**
 * The end-of-stream protocol seen from both sides: the frames the handler pushes to a connection
 * (backend/src/index.ts, processPrompt) are the messages the chat client on that connection
 * receives (frontend/src/components/App.tsx, onMessage).
 */
module EndOfStream {
  import opened Wrappers
  import Auth
  import Router
  import ChatClient

  /** The frames a trace pushes to `conn`, in order, as the messages the client receives. */
  function Delivered(effects: seq<Router.Effect>, conn: string): seq<ChatClient.Input> {
    if effects == [] then []
    else
      var rest := Delivered(effects[..|effects| - 1], conn);
      match effects[|effects| - 1]
      case Push(c, d) => if c == conn then rest + [ChatClient.Message(d)] else rest
      case _ => rest
  }

  /**
   * The calls of one invocation that completed: the run stops at the first call that throws,
   * so when it threw, every recorded call but the last one went through.
   */
  function Completed(run: Router.Run): (done: seq<Router.Effect>)
    ensures done <= run.effects
  {
    if run.result.Threw? && run.effects != [] then run.effects[..|run.effects| - 1] else run.effects
  }

  lemma DeliveredLast(effects: seq<Router.Effect>, e: Router.Effect, conn: string)
    ensures Delivered(effects + [e], conn)
            == Delivered(effects, conn) + (if e.Push? && e.connection == conn then [ChatClient.Message(e.data)] else [])
  {
  }

  /** The messages the client receives from the four steps of a complete pipeline: the answer, then "End". */
  lemma DeliveredScript(req: Router.Request, conn: string, answer: Router.Answer, now: nat)
    ensures Delivered(Router.Script(req, conn, answer, now), conn)
            == [ChatClient.Message(answer.outputText), ChatClient.Message(Router.EndMarker)]
  {
    var s := Router.Script(req, conn, answer, now);
    assert s == [s[0]] + [s[1]] + [s[2]] + [s[3]];
    DeliveredLast([], s[0], conn);
    DeliveredLast([s[0]], s[1], conn);
    DeliveredLast([s[0]] + [s[1]], s[2], conn);
    DeliveredLast([s[0]] + [s[1]] + [s[2]], s[3], conn);
  }

  /** The body the handler parses carries what the client sent. */
  predicate CarriesAsk(w: Router.World, e: Router.Event, m: ChatClient.OutMessage) {
    e.routeKey == m.action && w.parse(e.body) == Some(Router.RequestData(m.token, m.data))
  }

  /**
   * A question typed and sent with Enter, answered in full by the handler: the backend is asked
   * the typed text, and once the client has received the pushed frames its spinner is off and the
   * conversation gained the question and the answer. An answer that is itself "End" (taken for
   * the end marker) or that mentions the gateway timeout (filtered out) is not shown: then only
   * the question is added.
   */
  lemma {:induction false} CompletedAskEndsTurn(v: ChatClient.View, token: string, g: Router.Globals,
                                               e: Router.Event, w: Router.World)
    requires CarriesAsk(w, e, ChatClient.SentOnKey(v, "Enter", token)[0])
    requires Router.Handle(g, e, w).result == Router.Returned(Some(Router.Ack))
    ensures var run := Router.Handle(g, e, w);
      var req := Router.BackendRequest(v.prompt, w.observedSessionId, w.region);
      var after := ChatClient.Run(ChatClient.AfterKey(v, "Enter"), Delivered(Completed(run), e.connectionId));
      && Router.Calls(run.effects) == [req]
      && req.text == v.prompt
      && w.backend(req).Some?
      && !after.loading
      && after.prompt == ""
      && (var text := w.backend(req).value.outputText;
          && (text != Router.EndMarker && !ChatClient.Contains(text, ChatClient.TimeoutNotice) ==>
                after.conversation == v.conversation + [ChatClient.Entry(v.prompt, ChatClient.Question),
                                                        ChatClient.Entry(text, ChatClient.Answer)])
          && (text != Router.EndMarker && ChatClient.Contains(text, ChatClient.TimeoutNotice) ==>
                after.conversation == v.conversation + [ChatClient.Entry(v.prompt, ChatClient.Question)])
          && (text == Router.EndMarker ==>
                after.conversation == v.conversation + [ChatClient.Entry(v.prompt, ChatClient.Question)]))
  {
    var run := Router.Handle(g, e, w);
    var req := Router.BackendRequest(v.prompt, w.observedSessionId, w.region);
    assert Router.AuthorizedAsk(e, w);
    var answer := w.backend(req).value;
    DeliveredScript(req, e.connectionId, answer, w.now);
    var sent := ChatClient.AfterKey(v, "Enter");
    var msgs := [ChatClient.Message(answer.outputText), ChatClient.Message(Router.EndMarker)];
    assert msgs[1..] == [ChatClient.Message(Router.EndMarker)];
    var first := ChatClient.Step(sent, msgs[0]);
    assert ChatClient.Run(sent, msgs) == ChatClient.Run(first, msgs[1..]);
    assert msgs[1..][1..] == [];
    assert ChatClient.Run(first, msgs[1..]) == ChatClient.Run(ChatClient.Step(first, msgs[1]), []);
  }

  /**
   * When the "End" frame is not delivered (no authorization, a failed backend call or a failed
   * push), the client that sent the question keeps its spinner on and its input disabled,
   * whatever other messages arrive, as long as none is "End".
   */
  lemma {:induction false} MissingEndKeepsClientWaiting(v: ChatClient.View, token: string, g: Router.Globals,
                                                       e: Router.Event, w: Router.World, later: seq<ChatClient.Input>)
    requires CarriesAsk(w, e, ChatClient.SentOnKey(v, "Enter", token)[0])
    requires var req := Router.BackendRequest(v.prompt, w.observedSessionId, w.region);
      !(Auth.Authorize(w.jwt, token) && w.backend(req).Some? && w.answerPushOk && w.endPushOk)
    requires var req := Router.BackendRequest(v.prompt, w.observedSessionId, w.region);
      w.backend(req).Some? ==> w.backend(req).value.outputText != Router.EndMarker
    requires forall i :: 0 <= i < |later| ==> later[i] != ChatClient.Message(Router.EndMarker)
    ensures var run := Router.Handle(g, e, w);
      ChatClient.Run(ChatClient.AfterKey(v, "Enter"), Delivered(Completed(run), e.connectionId) + later).loading
  {
    var run := Router.Handle(g, e, w);
    var conn := e.connectionId;
    var delivered := Delivered(Completed(run), conn);
    var req := Router.BackendRequest(v.prompt, w.observedSessionId, w.region);
    if Router.AuthorizedAsk(e, w) {
      var p := Router.Pipeline(v.prompt, conn, w);
      assert run.effects == p.effects;
      if w.backend(req).None? {
        assert p.effects == [Router.BackendCall(req)];
        assert Completed(run) == [];
      } else {
        var answer := w.backend(req).value;
        var s := Router.Script(req, conn, answer, w.now);
        DeliveredLast([], s[0], conn);
        DeliveredLast([s[0]], s[1], conn);
        DeliveredLast([s[0]] + [s[1]], s[2], conn);
        if !w.answerPushOk {
          assert p.effects == [s[0]] + [s[1]];
          assert Completed(run) == [s[0]];
        } else {
          assert p.effects == [s[0]] + [s[1]] + [s[2]];
          assert Completed(run) == [s[0]] + [s[1]];
          assert delivered == [ChatClient.Message(answer.outputText)];
        }
      }
    } else {
      assert run.effects == [];
    }
    var all := delivered + later;
    assert forall i :: 0 <= i < |all| ==> all[i] != ChatClient.Message(Router.EndMarker);
    ChatClient.LoadingUntilEnd(ChatClient.AfterKey(v, "Enter"), all);
  }
}
