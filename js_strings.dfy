/**
 * The few JavaScript string operations the detector relies on:
 * `indexOf`, `lastIndexOf`, `slice` and `trim`, on strings as `seq<char>`.
 */
module JsStrings {

  /** `p` occurs in `s` starting at index `i`. */
  predicate IsAt(s: string, p: string, i: int) {
    0 <= i && i + |p| <= |s| && s[i..i + |p|] == p
  }

  /** `p` occurs somewhere in `s`. */
  ghost predicate Occurs(s: string, p: string) {
    exists i :: IsAt(s, p, i)
  }

  /** The first occurrence of `p` at or after `i`, or -1. */
  function IndexFrom(s: string, p: string, i: nat): (r: int)
    decreases |s| - i
    ensures r == -1 <==> forall j :: i <= j ==> !IsAt(s, p, j)
    ensures r != -1 ==> i <= r && IsAt(s, p, r) && forall j :: i <= j < r ==> !IsAt(s, p, j)
  {
    if i + |p| > |s| then -1
    else if IsAt(s, p, i) then i
    else IndexFrom(s, p, i + 1)
  }

  /** `s.indexOf(p)`: the first index at which `p` occurs, or -1. */
  function IndexOf(s: string, p: string): (r: int)
    ensures r == -1 <==> !Occurs(s, p)
    ensures r != -1 ==> IsAt(s, p, r) && forall j :: 0 <= j < r ==> !IsAt(s, p, j)
  {
    IndexFrom(s, p, 0)
  }

  /** The last occurrence of `p` at or before `i`, or -1. */
  function LastIndexFrom(s: string, p: string, i: int): (r: int)
    decreases i + 1
    ensures r == -1 <==> forall j :: j <= i ==> !IsAt(s, p, j)
    ensures r != -1 ==> r <= i && IsAt(s, p, r) && forall j :: r < j <= i ==> !IsAt(s, p, j)
  {
    if i < 0 then -1
    else if IsAt(s, p, i) then i
    else LastIndexFrom(s, p, i - 1)
  }

  /** `s.lastIndexOf(p)`: the last index at which `p` occurs, or -1. */
  function LastIndexOf(s: string, p: string): (r: int)
    ensures r == -1 <==> !Occurs(s, p)
    ensures r != -1 ==> IsAt(s, p, r) && forall j :: r < j ==> !IsAt(s, p, j)
  {
    LastIndexFrom(s, p, |s| - |p|)
  }

  /** The first occurrence, once located, is what `indexOf` returns. */
  lemma IndexOfIs(s: string, p: string, i: nat)
    requires IsAt(s, p, i)
    requires forall j :: 0 <= j < i ==> !IsAt(s, p, j)
    ensures IndexOf(s, p) == i
  {
    assert IndexOf(s, p) != -1;
  }

  /** The last occurrence, once located, is what `lastIndexOf` returns. */
  lemma LastIndexOfIs(s: string, p: string, i: nat)
    requires IsAt(s, p, i)
    requires forall j :: i < j ==> !IsAt(s, p, j)
    ensures LastIndexOf(s, p) == i
  {
    assert LastIndexOf(s, p) != -1;
  }

  /** How `slice` reads one of its arguments: negative counts from the end, then clamped to the string. */
  function RelativeIndex(k: int, len: nat): (r: nat)
    ensures r <= len
    ensures 0 <= k <= len ==> r == k
    ensures k > len ==> r == len
  {
    if k < 0 then (if len + k < 0 then 0 else len + k)
    else if k > len then len
    else k
  }

  /** `s.slice(start, end)`: empty whenever the (clamped) start is not before the (clamped) end. */
  function Slice(s: string, start: int, end: int): (r: string)
    ensures |r| <= |s|
    ensures 0 <= start <= end <= |s| ==> r == s[start..end]
    ensures 0 <= end <= start ==> r == []
  {
    var from := RelativeIndex(start, |s|);
    var to := RelativeIndex(end, |s|);
    if from < to then s[from..to] else []
  }

  /** The characters `trim` removes, restricted to the common ones (see README). */
  predicate IsWhitespace(c: char) {
    c == ' ' || c == '\t' || c == '\n' || c == '\r' || c == '\U{000B}' || c == '\U{000C}'
    || c == '\U{00A0}' || c == '\U{FEFF}' || c == '\U{2028}' || c == '\U{2029}'
  }

  predicate AllWhitespace(s: string) {
    forall i :: 0 <= i < |s| ==> IsWhitespace(s[i])
  }

  /** `s` with its leading whitespace removed. */
  function TrimStart(s: string): (r: string)
    ensures |r| <= |s| && r == s[|s| - |r|..]
    ensures AllWhitespace(s[..|s| - |r|])
    ensures r == [] || !IsWhitespace(r[0])
  {
    if |s| > 0 && IsWhitespace(s[0]) then TrimStart(s[1..]) else s
  }

  /** `s` with its trailing whitespace removed. */
  function TrimEnd(s: string): (r: string)
    ensures |r| <= |s| && r == s[..|r|]
    ensures AllWhitespace(s[|r|..])
    ensures r == [] || !IsWhitespace(r[|r| - 1])
  {
    if |s| > 0 && IsWhitespace(s[|s| - 1]) then TrimEnd(s[..|s| - 1]) else s
  }

  /** `s.trim()`: the part of `s` between its leading and its trailing whitespace. */
  function Trim(s: string): (r: string)
    ensures exists i, j :: 0 <= i <= j <= |s| && r == s[i..j] && AllWhitespace(s[..i]) && AllWhitespace(s[j..])
    ensures r == [] || (!IsWhitespace(r[0]) && !IsWhitespace(r[|r| - 1]))
  {
    var t := TrimStart(s);
    var r := TrimEnd(t);
    var i := |s| - |t|;
    assert r == s[i..i + |r|];
    assert s[i + |r|..] == t[|r|..];
    r
  }

  /** Whitespace in front of a string that does not start with whitespace is exactly what TrimStart removes. */
  lemma {:induction false} TrimStartOf(ws: string, t: string)
    requires AllWhitespace(ws)
    requires t == [] || !IsWhitespace(t[0])
    ensures TrimStart(ws + t) == t
  {
    if ws == [] {
      assert ws + t == t;
    } else {
      assert (ws + t)[1..] == ws[1..] + t;
      TrimStartOf(ws[1..], t);
    }
  }

  /** Whitespace after a string that does not end with whitespace is exactly what TrimEnd removes. */
  lemma {:induction false} TrimEndOf(t: string, ws: string)
    requires AllWhitespace(ws)
    requires t == [] || !IsWhitespace(t[|t| - 1])
    ensures TrimEnd(t + ws) == t
  {
    if ws == [] {
      assert t + ws == t;
    } else {
      assert (t + ws)[..|t + ws| - 1] == t + ws[..|ws| - 1];
      TrimEndOf(t, ws[..|ws| - 1]);
    }
  }

  /** `trim` strips exactly the surrounding whitespace and nothing inside. */
  lemma TrimOf(lead: string, t: string, trail: string)
    requires AllWhitespace(lead) && AllWhitespace(trail)
    requires t == [] || (!IsWhitespace(t[0]) && !IsWhitespace(t[|t| - 1]))
    ensures Trim(lead + t + trail) == t
  {
    if t == [] {
      assert lead + t + trail == (lead + trail) + [];
      TrimStartOf(lead + trail, []);
    } else {
      assert lead + t + trail == lead + (t + trail);
      TrimStartOf(lead, t + trail);
      TrimEndOf(t, trail);
    }
  }
}
