/** The voice front-end and page-data store of URL_Server/server.py: the
    process-global `browser_data` record, the push endpoint that replaces it,
    the health probe that reports it, the dispatcher that sends a spoken
    command to the generation service, and one pass of the voice loop. */
module Server {
  import opened Wrappers
  import opened Text
  import opened Phrases
  import opened Json

  /** `browser_data`: the page the extension last reported and the cache
      flag ("0": no index built for these pages yet). */
  datatype BrowserState = BrowserState(currentUrl: string, urls: seq<string>, token: string)

  const InitialBrowserData: BrowserState := BrowserState("", [], "0")

  // ---------------------------------------------------------------------
  // /process-links

  /** The body of a POST to /process-links as `request.get_json()` returns
      it. `NoJson` stands for every case in which it returns `None` or raises
      (no body, another content type, malformed JSON). In an `Object`, a
      field is `None` when the key is absent, and `otherKeys` says whether
      the object has keys besides these three. */
  datatype PushBody =
    | NoJson
    | NotAnObject
    | Object(currentUrl: Option<string>, allUrls: Option<seq<string>>,
             token: Option<JsonScalar>, otherKeys: bool)

  /** Python's truthiness of the decoded body: an empty object is false.
      Every non-object body ends in the 500 branch, falsy ones through the
      `ValueError`, truthy ones because they have no `.get`. */
  predicate Accepted(body: PushBody)
  {
    body.Object? &&
    (body.currentUrl.Some? || body.allUrls.Some? || body.token.Some? || body.otherKeys)
  }

  function OrElse<T>(o: Option<T>, default: T): T
  {
    if o.Some? then o.value else default
  }

  /** The record an accepted push installs: each field from the body, or its
      default when the key is absent, with the token passed through `str`. */
  function PushedState(body: PushBody): (s: BrowserState)
    requires Accepted(body)
    ensures s.currentUrl == (if body.currentUrl.Some? then body.currentUrl.value else "")
    ensures s.urls == (if body.allUrls.Some? then body.allUrls.value else [])
    ensures body.token.None? ==> s.token == "0"
    ensures body.token.Some? && body.token.value.JString? ==> s.token == body.token.value.s
    ensures body.token.Some? ==> s.token == PyStr(body.token.value)
  {
    BrowserState(OrElse(body.currentUrl, ""), OrElse(body.allUrls, []),
                 PyStr(OrElse(body.token, JString("0"))))
  }

  datatype PushStatus = PushSuccess | PushError500

  // ---------------------------------------------------------------------
  // send_command_to_backend

  const Fallback: string := "Response not received"

  /** The JSON the generation service replied with, when it decodes. */
  datatype ReplyJson = NonObjectJson | ObjectJson(response: Option<string>)

  /** What `requests.post` gave: a reply whose status is OK (with its body
      decoded, or `None` when `response.json()` raises), a reply whose status
      is not OK, or an exception from the transport. */
  datatype HttpReply = Ok(json: Option<ReplyJson>) | NotOk | Raised

  /** The JSON body sent to /generate. */
  datatype Payload = Payload(token: string, command: string, urls: seq<string>)

  datatype Dispatched = Dispatched(payload: Payload, answer: string, state: BrowserState)

  /** The reply reaches line 261: status OK, the body decodes, and it is an
      object, so the `.get` on the logging line before does not raise. */
  predicate ReachesTokenUpdate(reply: HttpReply)
  {
    reply.Ok? && reply.json.Some? && reply.json.value.ObjectJson?
  }

  /** One backend call as a value: what is sent, what comes back, and what
      `browser_data` is afterwards. */
  function Dispatch(state: BrowserState, command: string, reply: HttpReply): (d: Dispatched)
    ensures d.payload == Payload(state.token, command, state.urls)
    ensures d.state.currentUrl == state.currentUrl && d.state.urls == state.urls
    ensures ReachesTokenUpdate(reply) ==> d.state.token == "1"
    ensures !ReachesTokenUpdate(reply) ==> d.state == state && d.answer == Fallback
    ensures d.answer != Fallback ==> reply == Ok(Some(ObjectJson(Some(d.answer))))
    ensures reply == Ok(Some(ObjectJson(None))) ==> d.answer == Fallback && d.state.token == "1"
    ensures ReachesTokenUpdate(reply) && reply.json.value.response.Some? ==>
              d.answer == reply.json.value.response.value
  {
    var payload := Payload(state.token, command, state.urls);
    match reply
    case Ok(Some(ObjectJson(response))) =>
      Dispatched(payload, OrElse(response, Fallback), state.(token := "1"))
    case _ =>
      Dispatched(payload, Fallback, state)
  }

  // ---------------------------------------------------------------------
  // /health

  datatype Health = Health(status: string, currentPage: string, urlsCollected: nat)

  // ---------------------------------------------------------------------
  // The store

  /** The module-level `browser_data` dictionary, shared by the voice thread
      and the Flask handlers; here their calls follow one another, and none
      runs while another is in progress. */
  class BrowserStore {
    var data: BrowserState

    constructor ()
      ensures data == InitialBrowserData
    {
      data := BrowserState("", [], "0");
    }

    /** `process_links`: an accepted body replaces the whole record, nothing
        of the old one survives; a rejected one leaves it as it was and
        answers 500. */
    method ProcessLinks(body: PushBody) returns (status: PushStatus)
      modifies this
      ensures status == PushSuccess <==> Accepted(body)
      ensures Accepted(body) ==> data == PushedState(body)
      ensures !Accepted(body) ==> data == old(data)
    {
      if !body.Object? {
        return PushError500;
      }
      if body.currentUrl.None? && body.allUrls.None? && body.token.None? && !body.otherKeys {
        return PushError500;
      }
      var buffer := if body.token.Some? then body.token.value else JString("0");
      var url := if body.currentUrl.Some? then body.currentUrl.value else "";
      var urls := if body.allUrls.Some? then body.allUrls.value else [];
      data := BrowserState(url, urls, PyStr(buffer));
      status := PushSuccess;
    }

    /** `health_check`: reports the current page and how many URLs are held. */
    method HealthCheck() returns (h: Health)
      ensures h.status == "healthy"
      ensures h.currentPage == data.currentUrl
      ensures h.urlsCollected == |data.urls|
    {
      h := Health("healthy", data.currentUrl, |data.urls|);
    }

    /** `send_command_to_backend`, with the service's reply as an input. */
    method SendCommandToBackend(command: string, reply: HttpReply)
      returns (payload: Payload, answer: string)
      modifies this
      ensures payload == Dispatch(old(data), command, reply).payload
      ensures answer == Dispatch(old(data), command, reply).answer
      ensures data == Dispatch(old(data), command, reply).state
    {
      payload := Payload(data.token, command, data.urls);
      if reply.Raised? || reply.NotOk? {
        return payload, Fallback;
      }
      if reply.json.None? || reply.json.value.NonObjectJson? {
        // response.json() or response_data.get raised
        return payload, Fallback;
      }
      data := data.(token := "1");
      answer := if reply.json.value.response.Some? then reply.json.value.response.value else Fallback;
    }
  }

  // ---------------------------------------------------------------------
  // run_voice_assistant

  const Acknowledgment: string := "Hi! How can I help you today?"
  const RetrievingNotice: string := "Retrieving Data. Please be patient"
  const Closing: string := "Done. Please let me know if you have more questions."
  const NoPageData: string := "No page data available. Please wait for a page to load."

  /** What one pass of the loop does that can be observed: an utterance, or
      the request sent to the generation service. */
  datatype Event = Speak(text: string) | CallBackend(payload: Payload)

  /** The inputs of one pass: the two recognitions (`None` when nothing was
      understood) and the service's reply, used only if the service is
      called. */
  datatype Turn = Turn(wake: Option<string>, command: Option<string>, reply: HttpReply)

  datatype TurnResult = TurnResult(events: seq<Event>, state: BrowserState)

  predicate CallsBackend(events: seq<Event>)
  {
    exists i :: 0 <= i < |events| && events[i].CallBackend?
  }

  /** What a pass says once it hears a wake word, before the command: the
      acknowledgment, then the retrieving notice while the token is "0". */
  function Opening(token: string): (r: seq<Event>)
    ensures |r| > 0 && r[0] == Speak(Acknowledgment)
    ensures (|r| > 1 && r[1] == Speak(RetrievingNotice)) <==> token == "0"
    ensures |r| == if token == "0" then 2 else 1
    ensures !CallsBackend(r)
  {
    [Speak(Acknowledgment)] + (if token == "0" then [Speak(RetrievingNotice)] else [])
  }

  /** One pass of the `while True` body. Only a call to the generation
      service changes the record, and every call carries the record's token
      and URLs. */
  function VoiceTurn(state: BrowserState, turn: Turn): (r: TurnResult)
    ensures !CallsBackend(r.events) ==> r.state == state
    ensures CallsBackend(r.events) ==>
              turn.command.Some? && r.state == Dispatch(state, turn.command.value, turn.reply).state
    ensures forall e :: e in r.events && e.CallBackend? ==>
              e.payload.token == state.token && e.payload.urls == state.urls
  {
    if NonEmpty(turn.wake) && IsWakeWord(turn.wake) then
      var heard := Opening(state.token);
      if NonEmpty(turn.command) then
        if state.urls != [] then
          var d := Dispatch(state, turn.command.value, turn.reply);
          var events := heard + [CallBackend(d.payload), Speak(d.answer), Speak(Closing)];
          assert events[|heard|].CallBackend?;
          TurnResult(events, d.state)
        else
          TurnResult(heard + [Speak(NoPageData)], state)
      else
        TurnResult(heard, state)
    else
      TurnResult([], state)
  }

  /** Without a wake word nothing happens; with one, the pass opens with the
      acknowledgment, and the retrieving notice follows exactly when the
      token is "0". */
  lemma VoiceTurnOpening(state: BrowserState, turn: Turn)
    ensures !IsWakeWord(turn.wake) ==> VoiceTurn(state, turn) == TurnResult([], state)
    ensures IsWakeWord(turn.wake) ==>
              VoiceTurn(state, turn).events[..|Opening(state.token)|] == Opening(state.token)
  {
  }

  /** The service is called exactly when a wake word is followed by a
      non-empty command and URLs are known; the call, its answer and the
      closing remark then end the pass. With no URLs the pass ends by saying
      that no page data is available. */
  lemma VoiceTurnBackend(state: BrowserState, turn: Turn)
    ensures CallsBackend(VoiceTurn(state, turn).events) <==>
              IsWakeWord(turn.wake) && NonEmpty(turn.command) && state.urls != []
    ensures CallsBackend(VoiceTurn(state, turn).events) ==>
              var d := Dispatch(state, turn.command.value, turn.reply);
              var events := VoiceTurn(state, turn).events;
              |events| >= 3 &&
              events[|events| - 3..] == [CallBackend(d.payload), Speak(d.answer), Speak(Closing)]
    ensures CallsBackend(VoiceTurn(state, turn).events) ==>
              |VoiceTurn(state, turn).events| == |Opening(state.token)| + 3
    ensures IsWakeWord(turn.wake) && !NonEmpty(turn.command) ==>
              VoiceTurn(state, turn).events == Opening(state.token)
    ensures IsWakeWord(turn.wake) && NonEmpty(turn.command) && state.urls == [] ==>
              VoiceTurn(state, turn).events == Opening(state.token) + [Speak(NoPageData)]
  {
    var opening := Opening(state.token);
    var events := VoiceTurn(state, turn).events;
    if !IsWakeWord(turn.wake) {
      assert events == [];
    } else if !NonEmpty(turn.command) {
      assert events == opening;
    } else if state.urls == [] {
      assert events == opening + [Speak(NoPageData)];
      forall i | 0 <= i < |events|
        ensures !events[i].CallBackend?
      {
        if i < |opening| {
          assert events[i] == opening[i];
        }
      }
    } else {
      var d := Dispatch(state, turn.command.value, turn.reply);
      assert events[|opening|] == CallBackend(d.payload);
    }
  }

  /** Consecutive passes of the loop, each starting from the record the
      previous one left. The voice loop never changes the page data; only
      the extension's pushes do. */
  function Run(state: BrowserState, turns: seq<Turn>): (r: TurnResult)
    ensures r.state.currentUrl == state.currentUrl && r.state.urls == state.urls
    decreases |turns|
  {
    if turns == [] then TurnResult([], state)
    else
      var before := Run(state, turns[..|turns| - 1]);
      var last := VoiceTurn(before.state, turns[|turns| - 1]);
      TurnResult(before.events + last.events, last.state)
  }

  /** One more pass starts from the record the earlier ones left and adds
      its events after theirs. */
  lemma RunExtend(state: BrowserState, turns: seq<Turn>, turn: Turn)
    ensures var before := Run(state, turns);
            var last := VoiceTurn(before.state, turn);
            Run(state, turns + [turn]) == TurnResult(before.events + last.events, last.state)
  {
    assert (turns + [turn])[..|turns|] == turns;
  }

  /** Once the token is "1" the passes never set it back: every later request
      carries "1", and the record ends with "1". */
  lemma {:induction false} WarmTokenStays(state: BrowserState, turns: seq<Turn>)
    requires state.token == "1"
    ensures Run(state, turns).state.token == "1"
    ensures forall e :: e in Run(state, turns).events && e.CallBackend? ==> e.payload.token == "1"
    decreases |turns|
  {
    if turns != [] {
      WarmTokenStays(state, turns[..|turns| - 1]);
      var before := Run(state, turns[..|turns| - 1]);
      var last := VoiceTurn(before.state, turns[|turns| - 1]);
      assert Run(state, turns).events == before.events + last.events;
    }
  }

  /** One pass, on the shared store. */
  method VoicePass(store: BrowserStore, turn: Turn) returns (events: seq<Event>)
    modifies store
    ensures events == VoiceTurn(old(store.data), turn).events
    ensures store.data == VoiceTurn(old(store.data), turn).state
  {
    events := [];
    if NonEmpty(turn.wake) && IsWakeWord(turn.wake) {
      events := events + [Speak(Acknowledgment)];
      if store.data.token == "0" {
        events := events + [Speak(RetrievingNotice)];
      }
      if NonEmpty(turn.command) {
        if store.data.urls != [] {
          var payload, answer := store.SendCommandToBackend(turn.command.value, turn.reply);
          events := events + [CallBackend(payload), Speak(answer), Speak(Closing)];
        } else {
          events := events + [Speak(NoPageData)];
        }
      }
    }
  }

  /** `run_voice_assistant`, for as many passes as there are inputs. */
  method RunVoiceAssistant(store: BrowserStore, turns: seq<Turn>) returns (events: seq<Event>)
    modifies store
    ensures events == Run(old(store.data), turns).events
    ensures store.data == Run(old(store.data), turns).state
  {
    ghost var start := store.data;
    events := [];
    var i := 0;
    while i < |turns|
      invariant 0 <= i <= |turns|
      invariant events == Run(start, turns[..i]).events
      invariant store.data == Run(start, turns[..i]).state
    {
      RunExtend(start, turns[..i], turns[i]);
      assert turns[..i + 1] == turns[..i] + [turns[i]];
      var heard := VoicePass(store, turns[i]);
      events := events + heard;
      i := i + 1;
    }
    assert turns[..i] == turns;
  }
}
