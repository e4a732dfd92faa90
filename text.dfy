/** The few Python `str` operations the signal gateway relies on:
    `str.isspace` for one character, `sub in s`, `s.replace(sub, '')`
    and `s.strip()`. Strings are sequences of Unicode code points. */
module Text {

  /** Python's `str.isspace` on one code point: the characters that
      `str.strip()` with no argument removes. */
  predicate IsSpace(c: char) {
    || ('\t' <= c <= '\r')
    || ('\U{1C}' <= c <= '\U{1F}')
    || c == ' '
    || c == '\U{85}'
    || c == '\U{A0}'
    || c == '\U{1680}'
    || ('\U{2000}' <= c <= '\U{200A}')
    || c == '\U{2028}'
    || c == '\U{2029}'
    || c == '\U{202F}'
    || c == '\U{205F}'
    || c == '\U{3000}'
  }

  /** Every character of `s` is whitespace. */
  predicate AllSpace(s: string) {
    forall i :: 0 <= i < |s| ==> IsSpace(s[i])
  }

  /** `s` has no whitespace at either end (what `strip()` leaves). */
  predicate Trimmed(s: string) {
    s == [] || (!IsSpace(s[0]) && !IsSpace(s[|s| - 1]))
  }

  /** `pat` occurs in `s` starting at index `i`. */
  predicate OccursAt(s: string, pat: string, i: int) {
    0 <= i && i + |pat| <= |s| && s[i..i + |pat|] == pat
  }

  /** On ASCII, `str.isspace` holds of exactly the ten characters tab,
      newline, vertical tab, form feed, carriage return, the four
      information separators and space. */
  lemma AsciiWhitespace(c: char)
    requires c < '\U{80}'
    ensures IsSpace(c) <==> c in "\t\n\U{B}\U{C}\r\U{1C}\U{1D}\U{1E}\U{1F} "
  {
  }

  /** Python's `pat in s` for two strings: the empty string is in every
      string, and nothing longer than `s` is in `s`. */
  predicate Contains(s: string, pat: string)
    ensures pat == [] ==> Contains(s, pat)
    ensures Contains(s, pat) ==> |pat| <= |s|
  {
    assert pat == [] ==> OccursAt(s, pat, 0);
    exists i :: 0 <= i <= |s| - |pat| && OccursAt(s, pat, i)
  }

  /** An occurrence inside a substring is an occurrence in the whole. */
  lemma ContainsWithin(s: string, t: string, pat: string)
    requires Contains(s, t)
    ensures Contains(t, pat) ==> Contains(s, pat)
  {
    var i :| 0 <= i <= |s| - |t| && OccursAt(s, t, i);
    forall j | 0 <= j <= |t| - |pat| && OccursAt(t, pat, j)
      ensures 0 <= i + j <= |s| - |pat| && OccursAt(s, pat, i + j)
    {
      assert t == s[i..i + |t|];
      var inS, inT := s[i + j..i + j + |pat|], t[j..j + |pat|];
      forall k | 0 <= k < |pat|
        ensures inS[k] == inT[k]
      {
        assert t[j + k] == s[i + j + k];
      }
      assert inS == inT;
    }
  }

  /** Python's `s.replace(pat, '')`: scanning from the left, every
      non-overlapping occurrence of `pat` is deleted; the scan resumes
      right after a deleted occurrence, so text brought together by a
      deletion is not examined again. */
  function RemoveAll(s: string, pat: string): (r: string)
    requires pat != []
    ensures |r| <= |s|
    ensures pat[0] !in s ==> r == s
    decreases |s|
  {
    if |s| < |pat| then s
    else if s[..|pat|] == pat then RemoveAll(s[|pat|..], pat)
    else [s[0]] + RemoveAll(s[1..], pat)
  }

  /** A prefix in which `pat` cannot start passes through `replace`
      untouched, and the rest is processed on its own. */
  lemma {:induction false} RemoveAllAfterPlain(x: string, y: string, pat: string)
    requires pat != []
    requires pat[0] !in x
    ensures RemoveAll(x + y, pat) == x + RemoveAll(y, pat)
    decreases |x|
  {
    if x == [] {
      assert x + y == y;
    } else {
      var s := x + y;
      if |s| < |pat| {
        assert RemoveAll(y, pat) == y;
      } else {
        assert s[0] == x[0] && s[..|pat|][0] == s[0];
        assert s[1..] == x[1..] + y;
        RemoveAllAfterPlain(x[1..], y, pat);
        assert [x[0]] + x[1..] == x;
      }
    }
  }

  /** A suffix of `s[1..]` after whitespace is a suffix of `s` after
      whitespace, when `s[0]` is whitespace too. */
  lemma SpaceBefore(s: string, r: string)
    requires s != [] && IsSpace(s[0])
    requires |r| <= |s| - 1 && r == s[1..][|s| - 1 - |r|..] && AllSpace(s[1..][..|s| - 1 - |r|])
    ensures r == s[|s| - |r|..] && AllSpace(s[..|s| - |r|])
  {
    var k := |s| - |r|;
    assert s[..k] == [s[0]] + s[1..][..k - 1];
    assert forall i :: 1 <= i < k ==> s[..k][i] == s[1..][..k - 1][i - 1];
  }

  /** A prefix of `s[..|s| - 1]` before whitespace is a prefix of `s`
      before whitespace, when the last character of `s` is whitespace. */
  lemma SpaceAfter(s: string, r: string)
    requires s != [] && IsSpace(s[|s| - 1])
    requires |r| <= |s| - 1 && r == s[..|s| - 1][..|r|] && AllSpace(s[..|s| - 1][|r|..])
    ensures r == s[..|r|] && AllSpace(s[|r|..])
  {
    assert s[|r|..] == s[..|s| - 1][|r|..] + [s[|s| - 1]];
  }

  /** Python's `s.lstrip()`: the longest suffix of `s` that does not
      start with whitespace. */
  function TrimStart(s: string): (r: string)
    ensures |r| <= |s| && r == s[|s| - |r|..]
    ensures AllSpace(s[..|s| - |r|])
    ensures r == [] || !IsSpace(r[0])
  {
    if s != [] && IsSpace(s[0]) then
      var r := TrimStart(s[1..]);
      SpaceBefore(s, r);
      r
    else s
  }

  /** Python's `s.rstrip()`: the longest prefix of `s` that does not end
      with whitespace. */
  function TrimEnd(s: string): (r: string)
    ensures |r| <= |s| && r == s[..|r|]
    ensures AllSpace(s[|r|..])
    ensures r == [] || !IsSpace(r[|r| - 1])
  {
    if s != [] && IsSpace(s[|s| - 1]) then
      var r := TrimEnd(s[..|s| - 1]);
      SpaceAfter(s, r);
      r
    else s
  }

  /** `s` is `r` with whitespace `s[..i]` before it and `s[j..]` after it. */
  predicate Padded(s: string, r: string, i: int, j: int) {
    0 <= i <= j <= |s| && r == s[i..j] && AllSpace(s[..i]) && AllSpace(s[j..])
  }

  /** A prefix of a suffix of `s`, with whitespace cut off on each side,
      is a piece of `s` padded by whitespace. */
  lemma PaddedPiece(s: string, t: string, r: string)
    requires |t| <= |s| && t == s[|s| - |t|..] && AllSpace(s[..|s| - |t|])
    requires |r| <= |t| && r == t[..|r|] && AllSpace(t[|r|..])
    ensures Padded(s, r, |s| - |t|, |s| - |t| + |r|)
  {
    var i, j := |s| - |t|, |s| - |t| + |r|;
    assert r == s[i..j];
    assert s[j..] == t[|r|..];
  }

  /** Python's `s.strip()`: a piece of `s` with no whitespace at either
      end, equal to `s` when `s` has none to remove. */
  function Trim(s: string): (r: string)
    ensures Trimmed(r)
    ensures exists i, j :: Padded(s, r, i, j)
    ensures Contains(s, r)
    ensures Trimmed(s) ==> r == s
  {
    var t := TrimStart(s);
    var r := TrimEnd(t);
    PaddedPiece(s, t, r);
    assert OccursAt(s, r, |s| - |t|);
    r
  }

  /** Leading whitespace does not change what `lstrip()` returns. */
  lemma {:induction false} TrimStartSkipsSpace(ws: string, x: string)
    requires AllSpace(ws)
    ensures TrimStart(ws + x) == TrimStart(x)
    decreases |ws|
  {
    if ws != [] {
      assert (ws + x)[0] == ws[0];
      assert (ws + x)[1..] == ws[1..] + x;
      TrimStartSkipsSpace(ws[1..], x);
    } else {
      assert ws + x == x;
    }
  }

  /** Trailing whitespace does not change what `rstrip()` returns. */
  lemma {:induction false} TrimEndSkipsSpace(x: string, ws: string)
    requires AllSpace(ws)
    ensures TrimEnd(x + ws) == TrimEnd(x)
    decreases |ws|
  {
    if ws != [] {
      var s := x + ws;
      assert s[|s| - 1] == ws[|ws| - 1];
      assert s[..|s| - 1] == x + ws[..|ws| - 1];
      TrimEndSkipsSpace(x, ws[..|ws| - 1]);
    } else {
      assert x + ws == x;
    }
  }

  /** `strip()` undoes whitespace padding: it returns exactly the text
      between the leading and the trailing whitespace. */
  lemma TrimPadded(lead: string, body: string, trail: string)
    requires AllSpace(lead) && AllSpace(trail) && Trimmed(body)
    ensures Trim(lead + body + trail) == body
  {
    var s := lead + body + trail;
    assert s == lead + (body + trail);
    TrimStartSkipsSpace(lead, body + trail);
    if body == [] {
      assert body + trail == trail + [];
      TrimStartSkipsSpace(trail, []);
      assert TrimStart(s) == [];
    } else {
      assert TrimStart(body + trail) == body + trail;
      TrimEndSkipsSpace(body, trail);
      assert TrimEnd(body) == body;
    }
  }
}
