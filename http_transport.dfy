/** The direct transport's reply handling (`sendMcpRequestHttp`): a reply
    with a non-2xx status fails, a one-frame event-stream body is unwrapped,
    and anything else is parsed whole. The POST itself is I/O and is left
    to the caller; `parse` stands for `JSON.parse`. */
module HttpTransport {
  import opened Common
  import opened Json
  import opened Requests

  /** The status and the text of a `fetch` response. */
  datatype HttpReply = HttpReply(status: int, body: string)

  /** `response.ok` */
  predicate IsOk(status: int)
    ensures IsOk(status) <==> status / 100 == 2
  {
    200 <= status <= 299
  }

  const SseFramePrefix := "event: message\ndata: "
  const DataMarker := "data: "

  /** A body that starts with the frame prefix contains the marker: the
      first one starts right after "event: message\n". */
  lemma FirstMarkerOfFrame(body: string)
    requires StartsWith(body, SseFramePrefix)
    ensures IndexOf(body, DataMarker, 0) == Some(15)
  {
    assert body[..21] == SseFramePrefix;
    assert body[15..21] == DataMarker by {
      assert body[15..21] == body[..21][15..21];
    }
    assert OccursAt(body, DataMarker, 15);
    forall k | 0 <= k < 15 ensures !OccursAt(body, DataMarker, k) {
      assert body[k] == SseFramePrefix[k] != 'd';
    }
  }

  /** The text handed to `JSON.parse`: `split("data: ")[1]` of a framed
      body, the whole of any other body. */
  function PayloadText(body: string): (t: string)
    ensures StartsWith(body, SseFramePrefix) ==> SecondSegment(body, DataMarker) == Some(t)
    ensures !StartsWith(body, SseFramePrefix) ==> t == body
  {
    if StartsWith(body, SseFramePrefix) then
      FirstMarkerOfFrame(body);
      SecondSegment(body, DataMarker).value
    else body
  }

  /** `JSON.parse(text) as McpResponse`: no shape is checked. */
  function ParseReply(parse: string -> Option<Json>, text: string): (r: Result<Json, Failure>)
    ensures r.Ok? <==> parse(text).Some?
    ensures r.Ok? ==> r.value == parse(text).value
    ensures r.Err? ==> r.error == UndecodableBody
  {
    match parse(text)
    case Some(v) => Ok(v)
    case None => Err(UndecodableBody)
  }

  /** `sendMcpRequestHttp` after the fetch has answered. */
  function DecodeReply(reply: HttpReply, parse: string -> Option<Json>): (r: Result<Json, Failure>)
    ensures !IsOk(reply.status) ==> r == Err(HttpStatus(reply.status))
    ensures IsOk(reply.status) ==> r == ParseReply(parse, PayloadText(reply.body))
  {
    if !IsOk(reply.status) then Err(HttpStatus(reply.status))
    else ParseReply(parse, PayloadText(reply.body))
  }

  /** A framed body is decoded from the text after the first marker, up to
      the next marker or the end of the body. */
  lemma PayloadOfFrame(body: string)
    requires StartsWith(body, SseFramePrefix)
    ensures var t := PayloadText(body);
            var rest := body[21..];
            IndexOf(rest, DataMarker, 0).None? ==> t == rest
    ensures var t := PayloadText(body);
            var rest := body[21..];
            IndexOf(rest, DataMarker, 0).Some? ==> t == rest[..IndexOf(rest, DataMarker, 0).value]
  {
    FirstMarkerOfFrame(body);
    var rest := body[21..];
    ShiftedSearch(body, 21);
  }

  /** Searching `s` from `n` is searching `s[n..]` from 0, shifted by `n`. */
  lemma ShiftedSearch(s: string, n: nat)
    requires n <= |s|
    ensures IndexOf(s, DataMarker, n).None? <==> IndexOf(s[n..], DataMarker, 0).None?
    ensures IndexOf(s, DataMarker, n).Some? ==>
              IndexOf(s, DataMarker, n).value == n + IndexOf(s[n..], DataMarker, 0).value
  {
    var t := s[n..];
    forall k: nat ensures OccursAt(t, DataMarker, k) <==> OccursAt(s, DataMarker, n + k) {
      if k + 6 <= |t| {
        assert t[k..k + 6] == s[n + k..n + k + 6];
      }
    }
    match IndexOf(s, DataMarker, n)
    case None =>
      assert forall k: nat :: !OccursAt(t, DataMarker, k) by {
        forall k: nat ensures !OccursAt(t, DataMarker, k) {
          assert !OccursAt(s, DataMarker, n + k);
        }
      }
    case Some(i) =>
      var j := i - n;
      assert OccursAt(t, DataMarker, j);
      forall k | 0 <= k < j ensures !OccursAt(t, DataMarker, k) {
        assert !OccursAt(s, DataMarker, n + k);
      }
      match IndexOf(t, DataMarker, 0)
      case None =>
      case Some(j') =>
        assert j' == j;
  }

  /** The framing is transparent: a JSON text without the marker decodes
      the same whether it arrives bare or wrapped in one event frame. */
  lemma {:induction false} FramedAndBareAgree(status: int, text: string, parse: string -> Option<Json>)
    requires !Includes(text, DataMarker)
    ensures PayloadText(SseFramePrefix + text) == text
    ensures DecodeReply(HttpReply(status, SseFramePrefix + text), parse) == DecodeReply(HttpReply(status, text), parse)
  {
    var body := SseFramePrefix + text;
    assert body[..21] == SseFramePrefix;
    assert body[21..] == text;
    PayloadOfFrame(body);
    FramedHasMarker(text);
    assert PayloadText(body) == text;
  }

  /** A framed body contains the marker. */
  lemma FramedHasMarker(s: string)
    ensures StartsWith(s, SseFramePrefix) ==> Includes(s, DataMarker)
  {
    if StartsWith(s, SseFramePrefix) {
      FirstMarkerOfFrame(s);
    }
  }
}
