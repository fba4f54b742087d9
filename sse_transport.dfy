/** The streaming transport (`sendMcpRequestSSE`) as an explicit state
    machine. The closure flags of one attempt (`sessionId`,
    `hasReceivedResponse`, `connectionEstablished`, whether the event source
    is still open and whether the 45 s timer is still pending) form one
    `Attempt`; each callback of the event source, and the timer, is one
    `Event`. The POST to `/messages` happens inside the message handler, so
    its success is part of the `Message` event. */
module SseTransport {
  import opened Common
  import opened Json
  import opened Requests
  import opened SessionScan
  import opened HttpTransport
  import opened Settings

  /** How the attempt's promise settled, if it has. `FallbackToHttp` hands
      the request to the direct transport, whose outcome becomes the
      attempt's. */
  datatype Outcome = Pending | Resolved(response: Json) | Rejected(failure: Failure) | FallbackToHttp

  datatype Event =
    | Open                                 // eventSource.onopen
    | Message(data: string, postOk: bool)  // eventSource.onmessage; postOk: the POST it makes succeeds
    | StreamError                          // eventSource.onerror
    | Timeout                              // the 45 s timer fires

  datatype Attempt = Attempt(
    requestId: int,
    sseUrl: string,
    sessionId: Option<string>,
    hasReceivedResponse: bool,
    connectionEstablished: bool,
    streamOpen: bool,
    timerArmed: bool,
    posts: seq<string>,  // the URLs the request was POSTed to, in order
    outcome: Outcome)

  /** Where the request is POSTed once the session is known:
      `${sseUrl.replace("/sse", "")}/messages?sessionId=${sessionId}`. */
  function MessagesUrl(sseUrl: string, sessionId: string): (u: string)
    ensures IndexOf(sseUrl, "/sse", 0).None? ==> u == sseUrl + "/messages?sessionId=" + sessionId
    ensures IndexOf(sseUrl, "/sse", 0).Some? ==>
              var i := IndexOf(sseUrl, "/sse", 0).value;
              u == sseUrl[..i] + sseUrl[i + 4..] + "/messages?sessionId=" + sessionId
  {
    var base := ReplaceFirst(sseUrl, "/sse", "");
    assert IndexOf(sseUrl, "/sse", 0).Some? ==>
             (var i := IndexOf(sseUrl, "/sse", 0).value; base == base[..i] + base[i..]);
    base + "/messages?sessionId=" + sessionId
  }

  lemma SecondMismatch(s: string, pat: string, i: nat)
    requires |pat| >= 2 && i + 1 < |s| && s[i + 1] != pat[1]
    ensures !OccursAt(s, pat, i)
  {
    if i + |pat| <= |s| {
      assert s[i..i + |pat|][1] == s[i + 1];
    }
  }

  /** With the default SSE URL (and a port without a slash) the POST goes
      to `http://localhost:PORT/messages?sessionId=...`: the only "/sse" is
      the path. */
  lemma MessagesUrlOfDefault(port: Option<string>, sessionId: string)
    requires forall k :: 0 <= k < |PortText(port)| ==> PortText(port)[k] != '/'
    ensures MessagesUrl(DefaultConfig(port).sseUrl, sessionId) ==
            "http://localhost:" + PortText(port) + "/messages?sessionId=" + sessionId
  {
    var host := "http://localhost:";
    var pt := PortText(port);
    var url := DefaultConfig(port).sseUrl;
    assert url == host + pt + "/sse";
    var n := |host| + |pt|;
    assert url[n..n + 4] == "/sse";
    forall k | 0 <= k < n ensures !OccursAt(url, "/sse", k) {
      if k < |host| {
        assert url[k] == host[k];
        if k == 5 {
          assert url[6] == '/';
          SecondMismatch(url, "/sse", k);
        } else if k == 6 {
          assert url[7] == 'l';
          SecondMismatch(url, "/sse", k);
        } else {
          HeadMismatch(url, "/sse", k);
        }
      } else {
        assert url[k] == pt[k - |host|];
        HeadMismatch(url, "/sse", k);
      }
    }
    assert OccursAt(url, "/sse", n);
    assert IndexOf(url, "/sse", 0) == Some(n);
    assert url[..n] == host + pt;
    assert url[n + 4..] == "";
  }

  /** What every reachable attempt satisfies: it is pending exactly while its
      stream and its timer are live, it resolves only with a response to its
      own request, and every POST went to the one session it found. */
  ghost predicate Inv(a: Attempt)
  {
    && (a.outcome.Pending? <==> a.streamOpen)
    && (a.outcome.Pending? <==> a.timerArmed)
    && (a.hasReceivedResponse <==> a.outcome.Resolved?)
    && (a.outcome.Resolved? ==> IsResponseTo(a.outcome.response, a.requestId))
    && (a.sessionId.Some? ==> a.sessionId.value != [] && '"' !in a.sessionId.value)
    && (|a.posts| > 0 ==> a.sessionId.Some?)
    && (forall i :: 0 <= i < |a.posts| ==> a.posts[i] == MessagesUrl(a.sseUrl, a.sessionId.value))
  }

  /** The attempt just after `new EventSource(sseUrl)`: live if the event
      source could be created, rejected at once if the constructor threw. */
  function Begin(requestId: int, sseUrl: string, streamCreated: bool): (a: Attempt)
    ensures Inv(a)
    ensures a.outcome.Pending? <==> streamCreated
    ensures !streamCreated ==> a.outcome == Rejected(ConnectFailed)
    ensures a.requestId == requestId && a.sessionId == None && a.posts == []
  {
    if streamCreated then Attempt(requestId, sseUrl, None, false, false, true, true, [], Pending)
    else Attempt(requestId, sseUrl, None, false, false, false, false, [], Rejected(ConnectFailed))
  }

  /** `clearTimeout(timeout); cleanup();` followed by settling the promise. */
  function Settle(a: Attempt, o: Outcome): (r: Attempt)
    ensures !r.streamOpen && !r.timerArmed && r.outcome == o
    ensures r.requestId == a.requestId && r.sseUrl == a.sseUrl && r.sessionId == a.sessionId
    ensures r.posts == a.posts && r.hasReceivedResponse == a.hasReceivedResponse
    ensures r.connectionEstablished == a.connectionEstablished
    ensures Inv(a) && !a.hasReceivedResponse && !o.Pending? && !o.Resolved? ==> Inv(r)
  {
    a.(streamOpen := false, timerArmed := false, outcome := o)
  }

  /** The message handler's session-id step: scan only while none is known. */
  function ScanForSession(known: Option<string>, data: string): (r: Option<string>)
    ensures known.Some? ==> r == known
    ensures known.None? && data != "" ==> r == SessionIdOf(data)
    ensures known.None? && data == "" ==> r == None
  {
    if known.None? && data != "" then SessionIdOf(data) else known
  }

  /** Whether a message makes a pending attempt POST the request: a session
      id is known already or is found in this message. */
  predicate Dispatches(a: Attempt, data: string)
  {
    ScanForSession(a.sessionId, data).Some?
  }

  /** A decodable message that answers request `id`. */
  predicate Answers(data: string, id: int, parse: string -> Option<Json>)
  {
    parse(data).Some? && IsResponseTo(parse(data).value, id)
  }

  /** The message handler's last step: resolve on a decodable message that
      answers this request, unless a response has arrived already. */
  function Correlate(a: Attempt, data: string, parse: string -> Option<Json>): (r: Attempt)
    ensures Inv(a) ==> Inv(r)
    ensures r.requestId == a.requestId && r.sseUrl == a.sseUrl
    ensures r.sessionId == a.sessionId && r.posts == a.posts
    ensures Answers(data, a.requestId, parse) && !a.hasReceivedResponse ==>
              r.outcome == Resolved(parse(data).value) && r.hasReceivedResponse && !r.streamOpen && !r.timerArmed
    ensures !(Answers(data, a.requestId, parse) && !a.hasReceivedResponse) ==> r == a
  {
    var parsed := parse(data);
    if parsed.Some? && IsResponseTo(parsed.value, a.requestId) && !a.hasReceivedResponse then
      Settle(a.(hasReceivedResponse := true), Resolved(parsed.value))
    else a
  }

  /** `eventSource.onmessage`: scan for the session id, POST the request
      once a session is known and no response has arrived (a failed POST
      rejects), then correlate. */
  function OnMessage(a: Attempt, data: string, postOk: bool, parse: string -> Option<Json>): (r: Attempt)
    ensures Inv(a) ==> Inv(r)
    ensures r.requestId == a.requestId && r.sseUrl == a.sseUrl
    ensures r.sessionId == ScanForSession(a.sessionId, data)
    ensures Dispatches(a, data) && !a.hasReceivedResponse ==>
              r.posts == a.posts + [MessagesUrl(a.sseUrl, r.sessionId.value)]
    ensures !(Dispatches(a, data) && !a.hasReceivedResponse) ==> r.posts == a.posts
    ensures Dispatches(a, data) && !a.hasReceivedResponse && !postOk ==>
              r.outcome == Rejected(SendFailed) && !r.streamOpen && !r.timerArmed
  {
    var a1 := a.(sessionId := ScanForSession(a.sessionId, data));
    if a1.sessionId.Some? && !a1.hasReceivedResponse then
      var a2 := a1.(posts := a1.posts + [MessagesUrl(a1.sseUrl, a1.sessionId.value)]);
      if !postOk then Settle(a2, Rejected(SendFailed))
      else Correlate(a2, data, parse)
    else Correlate(a1, data, parse)
  }

  /** The message handler in the order the method takes its steps. */
  lemma OnMessageSteps(a: Attempt, data: string, postOk: bool, parse: string -> Option<Json>)
    ensures var a1 := a.(sessionId := ScanForSession(a.sessionId, data));
            var a2 := a1.(posts := a1.posts + [if a1.sessionId.Some? then MessagesUrl(a1.sseUrl, a1.sessionId.value) else ""]);
            && (a1.sessionId.Some? && !a1.hasReceivedResponse && !postOk ==>
                  OnMessage(a, data, postOk, parse) == Settle(a2, Rejected(SendFailed)))
            && (a1.sessionId.Some? && !a1.hasReceivedResponse && postOk ==>
                  OnMessage(a, data, postOk, parse) == Correlate(a2, data, parse))
            && (!(a1.sessionId.Some? && !a1.hasReceivedResponse) ==>
                  OnMessage(a, data, postOk, parse) == Correlate(a1, data, parse))
  {
  }

  /** `eventSource.onopen`: only marks the connection as established. */
  function OnOpen(a: Attempt): (r: Attempt)
    ensures Inv(a) ==> Inv(r)
    ensures r.requestId == a.requestId && r.sseUrl == a.sseUrl
    ensures r.outcome == a.outcome && r.sessionId == a.sessionId && r.posts == a.posts
    ensures r.streamOpen == a.streamOpen && r.timerArmed == a.timerArmed
    ensures a.streamOpen ==> r.connectionEstablished
  {
    if a.streamOpen then a.(connectionEstablished := true) else a
  }

  /** `eventSource.onerror`: fall back to the direct transport unless a
      response has arrived. */
  function OnError(a: Attempt): (r: Attempt)
    ensures Inv(a) ==> Inv(r)
    ensures a.streamOpen && !a.hasReceivedResponse ==>
              r.outcome == FallbackToHttp && !r.streamOpen && !r.timerArmed &&
              r.sessionId == a.sessionId && r.posts == a.posts
    ensures !(a.streamOpen && !a.hasReceivedResponse) ==> r == a
  {
    if a.streamOpen && !a.hasReceivedResponse then Settle(a, FallbackToHttp) else a
  }

  /** The timeout callback: reject unless a response has arrived. */
  function OnTimeout(a: Attempt): (r: Attempt)
    ensures Inv(a) ==> Inv(r)
    ensures !r.timerArmed && r.sessionId == a.sessionId && r.posts == a.posts
    ensures a.timerArmed && !a.hasReceivedResponse ==> r.outcome == Rejected(SseTimeout) && !r.streamOpen
    ensures !(a.timerArmed && !a.hasReceivedResponse) ==> r.outcome == a.outcome && r.streamOpen == a.streamOpen
  {
    if a.timerArmed && !a.hasReceivedResponse then Settle(a, Rejected(SseTimeout))
    else a.(timerArmed := false)
  }

  /** One event. A closed event source delivers nothing more and a cleared
      timer never fires, so those events leave the attempt as it is. */
  function Step(a: Attempt, e: Event, parse: string -> Option<Json>): (r: Attempt)
    ensures Inv(a) ==> Inv(r)
    ensures r.requestId == a.requestId && r.sseUrl == a.sseUrl
  {
    match e
    case Open => OnOpen(a)
    case Message(data, postOk) => if a.streamOpen then OnMessage(a, data, postOk, parse) else a
    case StreamError => OnError(a)
    case Timeout => OnTimeout(a)
  }

  /** The attempt after a sequence of events. */
  function Run(a: Attempt, events: seq<Event>, parse: string -> Option<Json>): (r: Attempt)
    ensures Inv(a) ==> Inv(r)
    decreases |events|
  {
    if events == [] then a else Run(Step(a, events[0], parse), events[1..], parse)
  }

  /** What the caller of `sendMcpRequestSSE` receives once the attempt has
      settled, given the reply the fallback HTTP request would get. */
  function AttemptResult(a: Attempt, fallbackReply: HttpReply, parse: string -> Option<Json>): (r: Option<Result<Json, Failure>>)
    ensures r.None? <==> a.outcome.Pending?
    ensures a.outcome.Resolved? ==> r == Some(Ok(a.outcome.response))
    ensures a.outcome.Rejected? ==> r == Some(Err(a.outcome.failure))
    ensures a.outcome.FallbackToHttp? ==> r == Some(DecodeReply(fallbackReply, parse))
  {
    match a.outcome
    case Pending => None
    case Resolved(v) => Some(Ok(v))
    case Rejected(f) => Some(Err(f))
    case FallbackToHttp => Some(DecodeReply(fallbackReply, parse))
  }

  /** Once settled, no later event changes anything. */
  lemma SettledIsFinal(a: Attempt, e: Event, parse: string -> Option<Json>)
    requires Inv(a) && !a.outcome.Pending?
    ensures Step(a, e, parse) == a
  {
  }

  /** ... nor does any later sequence of events. */
  lemma {:induction false} RunAfterSettled(a: Attempt, events: seq<Event>, parse: string -> Option<Json>)
    requires Inv(a) && !a.outcome.Pending?
    ensures Run(a, events, parse) == a
    decreases |events|
  {
    if events != [] {
      SettledIsFinal(a, events[0], parse);
      RunAfterSettled(a, events[1..], parse);
    }
  }

  lemma {:induction false} RunAppend(a: Attempt, xs: seq<Event>, ys: seq<Event>, parse: string -> Option<Json>)
    ensures Run(a, xs + ys, parse) == Run(Run(a, xs, parse), ys, parse)
    decreases |xs|
  {
    if xs == [] {
      assert xs + ys == ys;
    } else {
      assert (xs + ys)[0] == xs[0] && (xs + ys)[1..] == xs[1..] + ys;
      RunAppend(Step(a, xs[0], parse), xs[1..], ys, parse);
    }
  }

  /** The attempt settles at most once: whatever it settled with after some
      events is what it holds after any further events. */
  lemma SettlesAtMostOnce(a: Attempt, xs: seq<Event>, ys: seq<Event>, parse: string -> Option<Json>)
    requires Inv(a) && !Run(a, xs, parse).outcome.Pending?
    ensures Run(a, xs + ys, parse) == Run(a, xs, parse)
  {
    RunAppend(a, xs, ys, parse);
    RunAfterSettled(Run(a, xs, parse), ys, parse);
  }

  /** Once a session id is known it never changes. */
  lemma {:induction false} SessionIdIsStable(a: Attempt, events: seq<Event>, parse: string -> Option<Json>)
    requires a.sessionId.Some?
    ensures Run(a, events, parse).sessionId == a.sessionId
    decreases |events|
  {
    if events != [] {
      var b := Step(a, events[0], parse);
      assert b.sessionId == a.sessionId;
      SessionIdIsStable(b, events[1..], parse);
    }
  }

  /** A message settles a pending attempt as a response exactly when the
      POST it makes (if any) succeeds and it decodes to a response to this
      request; it then resolves with that response. */
  lemma MessageResolvesIff(a: Attempt, data: string, postOk: bool, parse: string -> Option<Json>)
    requires Inv(a) && a.outcome.Pending?
    ensures var r := Step(a, Message(data, postOk), parse);
            r.outcome.Resolved? <==>
              (!Dispatches(a, data) || postOk) && parse(data).Some? && IsResponseTo(parse(data).value, a.requestId)
    ensures var r := Step(a, Message(data, postOk), parse);
            r.outcome.Resolved? ==> r.outcome.response == parse(data).value
  {
  }

  /** Only a message can resolve an attempt, and only with a response to its
      own request. */
  lemma ResolvesOnlyWithOwnResponse(a: Attempt, e: Event, parse: string -> Option<Json>)
    requires Inv(a) && a.outcome.Pending?
    requires Step(a, e, parse).outcome.Resolved?
    ensures e.Message?
    ensures parse(e.data) == Some(Step(a, e, parse).outcome.response)
    ensures IsResponseTo(Step(a, e, parse).outcome.response, a.requestId)
  {
  }

  /** A failed POST rejects the attempt; it does not fall back. */
  lemma DispatchFailureRejects(a: Attempt, data: string, parse: string -> Option<Json>)
    requires Inv(a) && a.outcome.Pending? && Dispatches(a, data)
    ensures Step(a, Message(data, false), parse).outcome == Rejected(SendFailed)
  {
  }

  /** A stream error before a response hands the request to the direct
      transport. */
  lemma StreamErrorFallsBack(a: Attempt, parse: string -> Option<Json>)
    requires Inv(a) && a.outcome.Pending?
    ensures Step(a, StreamError, parse).outcome == FallbackToHttp
  {
  }

  /** The timeout before a response rejects the attempt, with no fallback. */
  lemma TimeoutRejects(a: Attempt, parse: string -> Option<Json>)
    requires Inv(a) && a.outcome.Pending?
    ensures Step(a, Timeout, parse).outcome == Rejected(SseTimeout)
  {
  }

  /** After a stream error the caller receives exactly what the direct
      transport returns for the same request. */
  lemma FallbackIsDirectOutcome(a: Attempt, reply: HttpReply, parse: string -> Option<Json>)
    requires Inv(a) && a.outcome.Pending?
    ensures AttemptResult(Step(a, StreamError, parse), reply, parse) == Some(DecodeReply(reply, parse))
  {
  }

  /** There is no "already sent" flag: while pending with a known session,
      every successfully handled message POSTs the request once more. */
  lemma EveryMessageReposts(a: Attempt, data: string, parse: string -> Option<Json>)
    requires Inv(a) && a.outcome.Pending? && a.sessionId.Some?
    ensures Step(a, Message(data, true), parse).posts == a.posts + [MessagesUrl(a.sseUrl, a.sessionId.value)]
  {
  }

  /** An event that neither reveals a session id, nor answers request `id`,
      nor ends the stream. */
  predicate Quiet(e: Event, id: int, parse: string -> Option<Json>)
  {
    e.Open? ||
    (e.Message? && (e.data == "" || SessionIdOf(e.data).None?) &&
     !(parse(e.data).Some? && IsResponseTo(parse(e.data).value, id)))
  }

  lemma {:induction false} QuietRunStaysPending(a: Attempt, events: seq<Event>, parse: string -> Option<Json>)
    requires Inv(a) && a.outcome.Pending? && a.sessionId.None?
    requires forall i :: 0 <= i < |events| ==> Quiet(events[i], a.requestId, parse)
    ensures var r := Run(a, events, parse);
            Inv(r) && r.outcome.Pending? && r.sessionId.None? && r.requestId == a.requestId
    decreases |events|
  {
    if events != [] {
      var b := Step(a, events[0], parse);
      assert Quiet(events[0], a.requestId, parse);
      assert b.outcome.Pending? && b.sessionId.None?;
      assert forall i :: 0 <= i < |events[1..]| ==> events[1..][i] == events[i + 1];
      QuietRunStaysPending(b, events[1..], parse);
    }
  }

  /** An attempt that never sees a session id and never a response to its
      request is ended by the timeout, with no fallback. */
  lemma QuietAttemptTimesOut(requestId: int, sseUrl: string, events: seq<Event>, parse: string -> Option<Json>)
    requires forall i :: 0 <= i < |events| ==> Quiet(events[i], requestId, parse)
    ensures Run(Begin(requestId, sseUrl, true), events + [Timeout], parse).outcome == Rejected(SseTimeout)
  {
    var a := Begin(requestId, sseUrl, true);
    QuietRunStaysPending(a, events, parse);
    RunAppend(a, events, [Timeout], parse);
    var b := Run(a, events, parse);
    TimeoutRejects(b, parse);
    assert Run(b, [Timeout], parse) == Run(Step(b, Timeout, parse), [], parse);
  }

  /** One attempt's closure state, with the event-source callbacks and the
      timer callback as methods. */
  class SseAttempt {
    const requestId: int
    const sseUrl: string
    var sessionId: Option<string>
    var hasReceivedResponse: bool
    var connectionEstablished: bool
    var streamOpen: bool   // eventSource is not null
    var timerArmed: bool   // the timeout has been neither cleared nor fired
    var posts: seq<string>
    var outcome: Outcome

    function State(): Attempt
      reads this
    {
      Attempt(requestId, sseUrl, sessionId, hasReceivedResponse, connectionEstablished,
              streamOpen, timerArmed, posts, outcome)
    }

    constructor (requestId: int, sseUrl: string, streamCreated: bool)
      ensures State() == Begin(requestId, sseUrl, streamCreated)
    {
      this.requestId := requestId;
      this.sseUrl := sseUrl;
      sessionId := None;
      hasReceivedResponse := false;
      connectionEstablished := false;
      posts := [];
      if streamCreated {
        streamOpen, timerArmed, outcome := true, true, Pending;
      } else {
        streamOpen, timerArmed, outcome := false, false, Rejected(ConnectFailed);
      }
    }

    /** `clearTimeout(timeout); cleanup();` and settle. */
    method Finish(o: Outcome)
      modifies this
      ensures State() == Settle(old(State()), o)
    {
      timerArmed := false;
      streamOpen := false;
      outcome := o;
    }

    method HandleOpen()
      modifies this
      ensures State() == OnOpen(old(State()))
    {
      if streamOpen {
        connectionEstablished := true;
      }
    }

    method HandleMessage(data: string, postOk: bool, parse: string -> Option<Json>)
      modifies this
      ensures old(streamOpen) ==> State() == OnMessage(old(State()), data, postOk, parse)
      ensures !old(streamOpen) ==> State() == old(State())
    {
      if !streamOpen {
        return;
      }
      ghost var a0 := State();
      OnMessageSteps(a0, data, postOk, parse);
      ScanMessage(data);
      var sent := DispatchMessage(postOk);
      if !sent {
        return;
      }
      CorrelateMessage(data, parse);
    }

    /** The session-id step of the message handler (lines scanned only while
        no id is known). */
    method ScanMessage(data: string)
      modifies this`sessionId
      ensures State() == old(State()).(sessionId := ScanForSession(old(sessionId), data))
    {
      if sessionId.None? && data != "" {
        sessionId := ExtractSessionId(data);
      }
    }

    /** The POST step of the message handler: with a session and no response
        yet, POST once more; a failed POST rejects. `sent` is false exactly
        when the handler returns here. */
    method DispatchMessage(postOk: bool) returns (sent: bool)
      modifies this
      ensures var a := old(State());
              var a2 := a.(posts := a.posts + [if a.sessionId.Some? then MessagesUrl(a.sseUrl, a.sessionId.value) else ""]);
              && (a.sessionId.Some? && !a.hasReceivedResponse && !postOk ==>
                    !sent && State() == Settle(a2, Rejected(SendFailed)))
              && (a.sessionId.Some? && !a.hasReceivedResponse && postOk ==> sent && State() == a2)
              && (!(a.sessionId.Some? && !a.hasReceivedResponse) ==> sent && State() == a)
    {
      sent := true;
      if sessionId.Some? && !hasReceivedResponse {
        posts := posts + [MessagesUrl(sseUrl, sessionId.value)];
        if !postOk {
          Finish(Rejected(SendFailed));
          sent := false;
        }
      }
    }

    /** The `try { JSON.parse(event.data) ... }` block of the message handler. */
    method CorrelateMessage(data: string, parse: string -> Option<Json>)
      modifies this
      ensures State() == Correlate(old(State()), data, parse)
    {
      var parsed := parse(data);
      if parsed.Some? && IsResponseTo(parsed.value, requestId) && !hasReceivedResponse {
        hasReceivedResponse := true;
        Finish(Resolved(parsed.value));
      }
    }

    method HandleError()
      modifies this
      ensures State() == OnError(old(State()))
    {
      if streamOpen && !hasReceivedResponse {
        Finish(FallbackToHttp);
      }
    }

    method HandleTimeout()
      modifies this
      ensures State() == OnTimeout(old(State()))
    {
      if timerArmed && !hasReceivedResponse {
        Finish(Rejected(SseTimeout));
      } else {
        timerArmed := false;
      }
    }
  }
}
