/** Finding the session id in an SSE message: the lines of the message are
    scanned in order, and the first line on which the pattern
    `"sessionId":\s*"([^"]+)"` matches gives the captured text. */
module SessionScan {
  import opened Common

  /** The literal start of the pattern: `"sessionId":` (12 characters). */
  const SessionKey := "\"sessionId\":"

  /** The characters `\s` matches in a JavaScript regular expression. */
  predicate IsRegexSpace(c: char)
  {
    c == '\t' || c == '\n' || c == '\U{B}' || c == '\U{C}' || c == '\r' || c == ' ' ||
    c == '\U{A0}' || c == '\U{1680}' || ('\U{2000}' <= c <= '\U{200A}') ||
    c == '\U{2028}' || c == '\U{2029}' || c == '\U{202F}' || c == '\U{205F}' ||
    c == '\U{3000}' || c == '\U{FEFF}'
  }

  /** The end of the run of `\s` characters starting at `i`. */
  function SkipSpaces(line: string, i: nat): (j: nat)
    requires i <= |line|
    ensures i <= j <= |line|
    ensures forall k :: i <= k < j ==> IsRegexSpace(line[k])
    ensures j < |line| ==> !IsRegexSpace(line[j])
    decreases |line| - i
  {
    if i < |line| && IsRegexSpace(line[i]) then SkipSpaces(line, i + 1) else i
  }

  /** The end of the run of non-quote characters starting at `i`. */
  function QuoteFreeEnd(line: string, i: nat): (j: nat)
    requires i <= |line|
    ensures i <= j <= |line|
    ensures forall k :: i <= k < j ==> line[k] != '"'
    ensures j < |line| ==> line[j] == '"'
    decreases |line| - i
  {
    if i < |line| && line[i] != '"' then QuoteFreeEnd(line, i + 1) else i
  }

  /** The capture of the pattern when it matches at position `p`. The
      greedy `\s*` and `[^"]+` can only succeed with their longest runs,
      since giving characters back leaves a space or a non-quote where a
      quote is needed. */
  function MatchAt(line: string, p: nat): (r: Option<string>)
    ensures r.Some? ==> r.value != [] && '"' !in r.value && OccursAt(line, SessionKey, p)
  {
    if !OccursAt(line, SessionKey, p) then None
    else
      var q := SkipSpaces(line, p + |SessionKey|);
      if q < |line| && line[q] == '"' then
        var e := QuoteFreeEnd(line, q + 1);
        if q + 1 < e < |line| then Some(line[q + 1..e]) else None
      else None
  }

  /** The leftmost position at or after `p` where the pattern matches. */
  function FirstMatchFrom(line: string, p: nat): (r: Option<nat>)
    ensures r.Some? ==> p <= r.value && MatchAt(line, r.value).Some?
    ensures r.Some? ==> forall q :: p <= q < r.value ==> MatchAt(line, q).None?
    ensures r.None? ==> forall q :: p <= q ==> MatchAt(line, q).None?
    decreases |line| - p
  {
    if |line| < p + |SessionKey| then None
    else if MatchAt(line, p).Some? then Some(p)
    else FirstMatchFrom(line, p + 1)
  }

  /** The pattern matches at `p` and at no earlier position. */
  ghost predicate LeftmostMatch(line: string, p: nat)
  {
    MatchAt(line, p).Some? && forall q: nat :: q < p ==> MatchAt(line, q).None?
  }

  /** `line.match(/"sessionId":\s*"([^"]+)"/)?.[1]` */
  function LineSessionId(line: string): (r: Option<string>)
    ensures r.Some? ==> r.value != [] && '"' !in r.value
    ensures r.Some? <==> exists p :: MatchAt(line, p).Some?
  {
    match FirstMatchFrom(line, 0)
    case None => None
    case Some(p) => MatchAt(line, p)
  }

  /** The id a line yields is the capture at the leftmost match. */
  lemma LineSessionIdIsLeftmost(line: string)
    ensures LineSessionId(line).Some? ==>
              exists p: nat :: LeftmostMatch(line, p) && MatchAt(line, p) == LineSessionId(line)
  {
    if LineSessionId(line).Some? {
      var p := FirstMatchFrom(line, 0).value;
      assert LeftmostMatch(line, p);
    }
  }

  /** The id found on the first line that has one. */
  function SessionIdIn(lines: seq<string>): (r: Option<string>)
    ensures r.Some? ==> exists i :: 0 <= i < |lines| && LineSessionId(lines[i]) == r
    ensures r.Some? ==> r.value != [] && '"' !in r.value
    ensures r.None? <==> forall i :: 0 <= i < |lines| ==> LineSessionId(lines[i]).None?
  {
    if lines == [] then None
    else
      match LineSessionId(lines[0])
      case Some(id) => Some(id)
      case None =>
        var r := SessionIdIn(lines[1..]);
        assert forall i :: 1 <= i < |lines| ==> lines[i] == lines[1..][i - 1];
        r
  }

  /** The session id carried by the message `data`, if any. */
  function SessionIdOf(data: string): (r: Option<string>)
    ensures r.Some? ==> r.value != [] && '"' !in r.value
    ensures r.Some? ==> exists i :: FirstLineWithId(Lines(data), i) && LineSessionId(Lines(data)[i]) == r
  {
    var lines := Lines(data);
    SessionIdInIsFirst(lines);
    SessionIdIn(lines)
  }

  /** Line `i` has an id and no line before it has one. */
  ghost predicate FirstLineWithId(lines: seq<string>, i: int)
  {
    0 <= i < |lines| && LineSessionId(lines[i]).Some? &&
    forall k :: 0 <= k < i ==> LineSessionId(lines[k]).None?
  }

  /** The id found is the one on the first line that has an id. */
  lemma {:induction false} SessionIdInIsFirst(lines: seq<string>)
    ensures SessionIdIn(lines).Some? ==>
              exists i :: FirstLineWithId(lines, i) && LineSessionId(lines[i]) == SessionIdIn(lines)
  {
    if lines != [] && LineSessionId(lines[0]).None? && SessionIdIn(lines[1..]).Some? {
      SessionIdInIsFirst(lines[1..]);
      var i :| FirstLineWithId(lines[1..], i) && LineSessionId(lines[1..][i]) == SessionIdIn(lines[1..]);
      assert lines[1..][i] == lines[i + 1];
      forall k | 0 < k < i + 1 ensures LineSessionId(lines[k]).None? {
        assert lines[k] == lines[1..][k - 1];
      }
      assert FirstLineWithId(lines, i + 1);
    } else if lines != [] && LineSessionId(lines[0]).Some? {
      assert FirstLineWithId(lines, 0);
    }
  }

  /** A message yields no id exactly when none of its lines has one. */
  lemma SessionIdOfNone(data: string)
    ensures var lines := Lines(data);
            SessionIdOf(data).None? <==> forall i :: 0 <= i < |lines| ==> LineSessionId(lines[i]).None?
  {
    SessionIdOfLines(data);
  }

  lemma SessionIdOfLines(data: string)
    ensures SessionIdOf(data) == SessionIdIn(Lines(data))
  {
  }

  /** `"sessionId":` contains `sessionId`, one character in. */
  lemma KeyContainsName(line: string, p: nat)
    requires OccursAt(line, SessionKey, p)
    ensures OccursAt(line, "sessionId", p + 1)
  {
    assert line[p + 1..p + 10] == line[p..p + 12][1..10];
  }

  /** A line without "sessionId" cannot match the pattern. */
  lemma MatchNeedsKey(line: string)
    requires LineSessionId(line).Some?
    ensures Includes(line, "sessionId")
  {
    var p := FirstMatchFrom(line, 0).value;
    KeyContainsName(line, p);
    OccursAtIncludes(line, "sessionId", p + 1);
  }

  /** The `for ... of` loop over the lines of the message, with its early
      `break` on the first match. */
  method ExtractSessionId(data: string) returns (id: Option<string>)
    ensures id == SessionIdOf(data)
  {
    var lines := Lines(data);
    id := None;
    var i := 0;
    while i < |lines|
      invariant 0 <= i <= |lines|
      invariant SessionIdIn(lines[i..]) == SessionIdIn(lines)
      invariant id == None
    {
      var line := lines[i];
      assert lines[i..][0] == line && lines[i..][1..] == lines[i + 1..];
      if Includes(line, "sessionId") {
        var found := LineSessionId(line);
        if found.Some? {
          id := found;
          break;
        }
      } else {
        assert LineSessionId(line).None? by {
          if LineSessionId(line).Some? { MatchNeedsKey(line); }
        }
      }
      i := i + 1;
    }
  }

  /** The text the pattern matches: `"sessionId":`, white space, and the id
      between quotes. */
  function MatchText(ws: string, id: string): string
  {
    SessionKey + ws + "\"" + id + "\""
  }

  /** The pattern matches at `p` with the runs ending at `q` (the opening
      quote) and `e` (the closing quote). */
  lemma MatchAtRuns(line: string, p: nat, q: nat, e: nat)
    requires OccursAt(line, SessionKey, p)
    requires SkipSpaces(line, p + 12) == q && q < |line| && line[q] == '"'
    requires QuoteFreeEnd(line, q + 1) == e && q + 1 < e < |line|
    ensures MatchAt(line, p) == Some(line[q + 1..e])
  {
  }

  /** White space followed by a quote, from `i` on, ends the run at the
      quote. */
  lemma SpacesThenQuote(line: string, i: nat, ws: string)
    requires forall k :: 0 <= k < |ws| ==> IsRegexSpace(ws[k])
    requires i + |ws| < |line| && line[i..i + |ws|] == ws && line[i + |ws|] == '"'
    ensures SkipSpaces(line, i) == i + |ws|
  {
    forall k | i <= k < i + |ws| ensures IsRegexSpace(line[k]) {
      assert line[k] == line[i..i + |ws|][k - i];
    }
    SkipSpacesRun(line, i, i + |ws|);
  }

  /** A quote-free id followed by a quote, from `i` on, ends the run at the
      quote. */
  lemma IdThenQuote(line: string, i: nat, id: string)
    requires '"' !in id
    requires i + |id| < |line| && line[i..i + |id|] == id && line[i + |id|] == '"'
    ensures QuoteFreeEnd(line, i) == i + |id|
  {
    forall k | i <= k < i + |id| ensures line[k] != '"' {
      assert line[k] == line[i..i + |id|][k - i];
    }
    QuoteFreeRun(line, i, i + |id|);
  }

  /** A piece of text that sits at `p` in `line` has its own pieces there. */
  lemma SubSlice(line: string, p: nat, m: string, a: nat, b: nat)
    requires p + |m| <= |line| && line[p..p + |m|] == m
    requires a <= b <= |m|
    ensures line[p + a..p + b] == m[a..b]
  {
    forall k | 0 <= k < b - a ensures line[p + a..p + b][k] == m[a..b][k] {
      assert line[p + a + k] == line[p..p + |m|][a + k];
    }
  }

  /** Where the matched text sits in `line`, it starts with the key, and
      its white-space run ends at the opening quote. */
  lemma EmbeddedSpaces(line: string, p: nat, ws: string, id: string)
    requires forall k :: 0 <= k < |ws| ==> IsRegexSpace(ws[k])
    requires p + |MatchText(ws, id)| <= |line| && line[p..p + |MatchText(ws, id)|] == MatchText(ws, id)
    ensures OccursAt(line, SessionKey, p)
    ensures SkipSpaces(line, p + 12) == p + 12 + |ws| && line[p + 12 + |ws|] == '"'
  {
    var m := MatchText(ws, id);
    var q := p + 12 + |ws|;
    assert m[..12] == SessionKey && m[12..12 + |ws|] == ws && m[12 + |ws|] == '"';
    SubSlice(line, p, m, 0, 12);
    SubSlice(line, p, m, 12, 12 + |ws|);
    assert line[q] == line[p..p + |m|][12 + |ws|];
    SpacesThenQuote(line, p + 12, ws);
  }

  /** Where the matched text sits in `line`, its id run ends at the closing
      quote. */
  lemma EmbeddedId(line: string, p: nat, ws: string, id: string)
    requires '"' !in id
    requires p + |MatchText(ws, id)| <= |line| && line[p..p + |MatchText(ws, id)|] == MatchText(ws, id)
    ensures var q := p + 12 + |ws|;
            var e := q + 1 + |id|;
            e < |line| && QuoteFreeEnd(line, q + 1) == e && line[q + 1..e] == id
  {
    var m := MatchText(ws, id);
    var q := p + 12 + |ws|;
    var e := q + 1 + |id|;
    assert m[13 + |ws|..13 + |ws| + |id|] == id && m[|m| - 1] == '"';
    SubSlice(line, p, m, 13 + |ws|, 13 + |ws| + |id|);
    assert line[e] == line[p..p + |m|][|m| - 1];
    IdThenQuote(line, q + 1, id);
  }

  /** The pattern matches where `"sessionId":`, white space and a quoted id
      stand, and captures that id. */
  lemma MatchAtEmbedded(line: string, p: nat, ws: string, id: string)
    requires forall k :: 0 <= k < |ws| ==> IsRegexSpace(ws[k])
    requires id != [] && '"' !in id
    requires p + |MatchText(ws, id)| <= |line| && line[p..p + |MatchText(ws, id)|] == MatchText(ws, id)
    ensures MatchAt(line, p) == Some(id)
  {
    EmbeddedSpaces(line, p, ws, id);
    EmbeddedId(line, p, ws, id);
    MatchAtRuns(line, p, p + 12 + |ws|, p + 13 + |ws| + |id|);
  }

  /** Conversely, every match has that shape: at `p` stand `"sessionId":`,
      a run of `\s` characters, and the captured id between quotes. */
  lemma MatchAtShape(line: string, p: nat)
    requires MatchAt(line, p).Some?
    ensures var id := MatchAt(line, p).value;
            exists ws :: && (forall k :: 0 <= k < |ws| ==> IsRegexSpace(ws[k]))
                         && p + |MatchText(ws, id)| <= |line|
                         && line[p..p + |MatchText(ws, id)|] == MatchText(ws, id)
  {
    var id := MatchAt(line, p).value;
    var q := SkipSpaces(line, p + 12);
    var e := QuoteFreeEnd(line, q + 1);
    assert id == line[q + 1..e];
    var ws := line[p + 12..q];
    forall k | 0 <= k < |ws| ensures IsRegexSpace(ws[k]) {
      assert ws[k] == line[p + 12 + k];
    }
    assert line[p..p + 12] == SessionKey;
    assert line[q..q + 1] == "\"" && line[e..e + 1] == "\"";
    SliceConcat(line, p, p + 12, q);
    SliceConcat(line, p, q, q + 1);
    SliceConcat(line, p, q + 1, e);
    SliceConcat(line, p, e, e + 1);
    assert line[p..e + 1] == MatchText(ws, id);
  }

  lemma SliceConcat(s: string, i: nat, j: nat, k: nat)
    requires i <= j <= k <= |s|
    ensures s[i..k] == s[i..j] + s[j..k]
  {
  }

  /** A line that carries `"sessionId":`, some white space and a quoted
      id, after text with no quote in it, yields exactly that id. */
  lemma {:induction false} EmbeddedIdIsFound(pre: string, ws: string, id: string, post: string)
    requires '"' !in pre
    requires forall k :: 0 <= k < |ws| ==> IsRegexSpace(ws[k])
    requires id != [] && '"' !in id
    ensures LineSessionId(pre + SessionKey + ws + "\"" + id + "\"" + post) == Some(id)
  {
    var m := MatchText(ws, id);
    var line := pre + m + post;
    assert line == pre + SessionKey + ws + "\"" + id + "\"" + post;
    var p := |pre|;
    assert line[p..p + |m|] == m;
    MatchAtEmbedded(line, p, ws, id);
    forall k | 0 <= k < p ensures MatchAt(line, k).None? {
      assert line[k] == pre[k] != '"';
      HeadMismatch(line, SessionKey, k);
    }
    FirstMatchBetween(line, 0, p);
  }

  lemma {:induction false} SkipSpacesRun(line: string, i: nat, j: nat)
    requires i <= j < |line|
    requires forall k :: i <= k < j ==> IsRegexSpace(line[k])
    requires !IsRegexSpace(line[j])
    ensures SkipSpaces(line, i) == j
    decreases j - i
  {
    if i < j {
      SkipSpacesRun(line, i + 1, j);
    }
  }

  lemma {:induction false} QuoteFreeRun(line: string, i: nat, j: nat)
    requires i <= j < |line|
    requires forall k :: i <= k < j ==> line[k] != '"'
    requires line[j] == '"'
    ensures QuoteFreeEnd(line, i) == j
    decreases j - i
  {
    if i < j {
      QuoteFreeRun(line, i + 1, j);
    }
  }

  lemma {:induction false} FirstMatchBetween(line: string, from: nat, p: nat)
    requires from <= p && MatchAt(line, p).Some?
    requires forall k :: from <= k < p ==> MatchAt(line, k).None?
    ensures FirstMatchFrom(line, from) == Some(p)
    decreases p - from
  {
    if from < p {
      FirstMatchBetween(line, from + 1, p);
    }
  }
}
