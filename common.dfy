/** Option and Result values, and the few JavaScript string operations the
    caller script relies on (startsWith, indexOf, includes, split, replace). */
module Common {

  datatype Option<+T> = None | Some(value: T)

  datatype Result<+T, +E> = Ok(value: T) | Err(error: E)

  /** `s.startsWith(prefix)` */
  predicate StartsWith(s: string, prefix: string)
    ensures StartsWith(s, prefix) <==> OccursAt(s, prefix, 0)
    ensures StartsWith(s, prefix) ==> s == prefix + s[|prefix|..]
  {
    |prefix| <= |s| && s[..|prefix|] == prefix
  }

  /** `pat` occurs in `s` starting at index `i`. */
  predicate OccursAt(s: string, pat: string, i: nat)
  {
    i + |pat| <= |s| && s[i..i + |pat|] == pat
  }

  lemma HeadMismatch(s: string, pat: string, i: nat)
    requires pat != [] && i < |s| && s[i] != pat[0]
    ensures !OccursAt(s, pat, i)
  {
    if i + |pat| <= |s| {
      assert s[i..i + |pat|][0] == s[i];
    }
  }

  /** `s.indexOf(pat, from)` for a non-empty pattern: the first occurrence at
      or after `from`, if there is one. */
  function IndexOf(s: string, pat: string, from: nat): (r: Option<nat>)
    requires pat != []
    ensures r.Some? ==> from <= r.value && OccursAt(s, pat, r.value)
    ensures r.Some? ==> forall k :: from <= k < r.value ==> !OccursAt(s, pat, k)
    ensures r.None? ==> forall k :: from <= k ==> !OccursAt(s, pat, k)
    decreases |s| - from
  {
    if |s| < from + |pat| then None
    else if OccursAt(s, pat, from) then Some(from)
    else IndexOf(s, pat, from + 1)
  }

  /** `s.includes(pat)` */
  predicate Includes(s: string, pat: string)
    requires pat != []
    ensures Includes(s, pat) <==> exists k: nat :: OccursAt(s, pat, k)
  {
    IndexOf(s, pat, 0).Some?
  }

  lemma OccursAtIncludes(s: string, pat: string, i: nat)
    requires pat != [] && OccursAt(s, pat, i)
    ensures Includes(s, pat)
  {
  }

  /** `s.split(sep)[1]`: the text between the first and the second occurrence
      of `sep` (or the end of `s`); absent when `sep` does not occur. */
  function SecondSegment(s: string, sep: string): (r: Option<string>)
    requires sep != []
    ensures r.Some? <==> IndexOf(s, sep, 0).Some?
    ensures r.Some? ==>
              var start := IndexOf(s, sep, 0).value + |sep|;
              var end := start + |r.value|;
              && end <= |s| && s[start..end] == r.value
              && (end == |s| || OccursAt(s, sep, end))
              && forall k :: start <= k < end ==> !OccursAt(s, sep, k)
  {
    match IndexOf(s, sep, 0)
    case None => None
    case Some(i) =>
      var start := i + |sep|;
      match IndexOf(s, sep, start)
      case None => Some(s[start..])
      case Some(j) => Some(s[start..j])
  }

  /** `s.replace(pat, rep)` with a string pattern: only the first occurrence
      is replaced. */
  function ReplaceFirst(s: string, pat: string, rep: string): (r: string)
    requires pat != []
    ensures IndexOf(s, pat, 0).None? ==> r == s
    ensures IndexOf(s, pat, 0).Some? ==>
              var i := IndexOf(s, pat, 0).value;
              i <= |r| && r[..i] == s[..i] && r[i..] == rep + s[i + |pat|..]
  {
    match IndexOf(s, pat, 0)
    case None => s
    case Some(i) => s[..i] + rep + s[i + |pat|..]
  }

  /** `s.split("\n")`: the lines of `s`; there is always at least one. */
  function Lines(s: string): (ls: seq<string>)
    ensures |ls| >= 1
    ensures forall k :: 0 <= k < |ls| ==> '\n' !in ls[k]
    decreases |s|
  {
    match IndexOf(s, "\n", 0)
    case None =>
      assert forall k :: 0 <= k < |s| ==> s[k] != '\n' by {
        forall k | 0 <= k < |s| ensures s[k] != '\n' {
          assert !OccursAt(s, "\n", k);
          assert s[k..k + 1] == [s[k]];
        }
      }
      [s]
    case Some(i) =>
      assert '\n' !in s[..i] by {
        forall k | 0 <= k < i ensures s[k] != '\n' {
          assert !OccursAt(s, "\n", k);
          assert s[k..k + 1] == [s[k]];
        }
      }
      [s[..i]] + Lines(s[i + 1..])
  }

  /** `lines.join("\n")` */
  function JoinLines(ls: seq<string>): string
  {
    if |ls| <= 1 then (if ls == [] then "" else ls[0])
    else ls[0] + "\n" + JoinLines(ls[1..])
  }

  /** Splitting into lines loses nothing: joining them back gives `s`. */
  lemma {:induction false} JoinLinesOfLines(s: string)
    ensures JoinLines(Lines(s)) == s
    decreases |s|
  {
    match IndexOf(s, "\n", 0)
    case None =>
    case Some(i) =>
      var rest := s[i + 1..];
      JoinLinesOfLines(rest);
      assert s[i..i + 1] == "\n";
      assert Lines(s) == [s[..i]] + Lines(rest);
      assert s == s[..i] + "\n" + rest;
  }
}
