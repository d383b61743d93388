/** How the three programs meet: the extension's POST becomes the voice
    server's `browser_data`, the server's payload becomes the generation
    service's request, and the service's reply becomes what the server
    speaks and the token it keeps. */
module Pipeline {
  import opened Wrappers
  import opened Json
  import Background
  import Server
  import Rag

  /** The extension's `JSON.stringify({token, currentUrl, allUrls})` as the
      voice server's `get_json` decodes it. */
  function PushBodyOf(m: Background.PushMessage): Server.PushBody
  {
    Server.Object(Some(m.currentUrl), Some(m.allUrls), Some(JString(m.token)), false)
  }

  /** A push from the extension is always accepted and installs exactly its
      three fields. */
  lemma PushInstalls(m: Background.PushMessage)
    ensures Server.Accepted(PushBodyOf(m))
    ensures Server.PushedState(PushBodyOf(m)) == Server.BrowserState(m.currentUrl, m.allUrls, m.token)
  {
  }

  /** The server's `requests.post(..., json=payload)` as the generation
      service's handler reads it. */
  function RequestOf(p: Server.Payload): Rag.GenerateRequest
  {
    Rag.Fields(Some(p.command), Some(p.urls), Some(JString(p.token)))
  }

  /** The service's reply as `requests.post` returns it to the server. */
  function HttpReplyOf(reply: Rag.GenerateReply): Server.HttpReply
  {
    match reply
    case Response200(text) => Server.Ok(Some(Server.ObjectJson(Some(text))))
    case BadRequest400 => Server.NotOk
    case Error500 => Server.NotOk
  }

  datatype Served = Served(answer: string, state: Server.BrowserState, index: Rag.Index)

  /** One command from the voice loop through the generation service and
      back. */
  function Serve(state: Server.BrowserState, command: string, index: Rag.Index,
                 engines: Rag.Engines): Served
  {
    var p := Server.Payload(state.token, command, state.urls);
    var h := Rag.Handle(index, RequestOf(p), engines);
    var d := Server.Dispatch(state, command, HttpReplyOf(h.reply));
    Served(d.answer, d.state, h.index)
  }

  /** The round trip: the index is rebuilt exactly when the server's token
      is "0"; the spoken answer is the model's when generation succeeds
      and the fallback otherwise; afterwards the server's token is "1"
      exactly when generation succeeded or it was "1" already. */
  lemma {:induction false} ServeRoundTrip(state: Server.BrowserState, command: string,
                                          index: Rag.Index, engines: Rag.Engines)
    ensures var s := Serve(state, command, index, engines);
            var g := Rag.GenerateOutcome(index, command, state.urls, JString(state.token), engines);
            (state.token != "0" ==> s.index == index) &&
            (state.token == "0" ==> s.index == Rag.CreateDbOutcome(index, state.urls, engines).index) &&
            (g.result.Success? ==> s.answer == g.result.value && s.state.token == "1") &&
            (g.result.Failure? ==> s.answer == Server.Fallback && s.state == state) &&
            s.state.urls == state.urls && s.state.currentUrl == state.currentUrl
  {
    var p := Server.Payload(state.token, command, state.urls);
    assert Rag.Complete(RequestOf(p));
    assert JString(state.token) == JString("0") <==> state.token == "0";
    var g := Rag.GenerateOutcome(index, command, state.urls, JString(state.token), engines);
    if g.result.Success? {
      assert Server.ReachesTokenUpdate(HttpReplyOf(Rag.Response200(g.result.value)));
    }
  }

  /** Once the scrape and the build succeed for a page, the next command
      about it reuses the index: the server now holds "1", so it sends "1"
      and the service keeps the index it has. */
  lemma {:induction false} SecondCommandReuses(state: Server.BrowserState, first: string, second: string,
                                               index: Rag.Index, engines: Rag.Engines)
    requires Rag.GenerateOutcome(index, first, state.urls, JString(state.token), engines).result.Success?
    ensures var s1 := Serve(state, first, index, engines);
            Serve(s1.state, second, s1.index, engines).index == s1.index
  {
    ServeRoundTrip(state, first, index, engines);
    var s1 := Serve(state, first, index, engines);
    ServeRoundTrip(s1.state, second, s1.index, engines);
  }

  /** The extension's token reaches the service unchanged: a page pushed
      twice in a row arrives with "1" and reuses the index; a page pushed
      for the first time arrives with "0" and rebuilds it. */
  lemma {:induction false} PageTokenDecidesRebuild(previousUrl: Option<string>, visit: Background.Visit,
                                                   command: string, index: Rag.Index, engines: Rag.Engines)
    requires Background.ProcessStep(previousUrl, visit).post.Some?
    ensures var m := Background.ProcessStep(previousUrl, visit).post.value;
            var state := Server.PushedState(PushBodyOf(m));
            (previousUrl == Some(m.currentUrl) ==> Serve(state, command, index, engines).index == index) &&
            (previousUrl != Some(m.currentUrl) ==>
               Serve(state, command, index, engines).index ==
                 Rag.CreateDbOutcome(index, m.allUrls, engines).index)
  {
    var m := Background.ProcessStep(previousUrl, visit).post.value;
    PushInstalls(m);
    var state := Server.PushedState(PushBodyOf(m));
    ServeRoundTrip(state, command, index, engines);
  }
}
