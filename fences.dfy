/** Removal of Markdown code fences from a completion reply before it is
    parsed: `reply.replace('```json', '').replace('```', '').strip()`. */
module Fences {
  import opened Text

  /** The fence that opens a JSON code block. */
  const JsonFence: string := "```json"

  /** A bare fence: three backticks. */
  const Fence: string := "```"

  /** The reply as handed to the JSON parser: every "```json" deleted,
      then every "```" deleted, then whitespace cut from both ends. The
      result holds no "```" and has no whitespace at either end. */
  function StripFences(reply: string): (r: string)
    ensures !Contains(r, Fence)
    ensures Trimmed(r)
  {
    var m := RemoveAll(RemoveAll(reply, JsonFence), Fence);
    FenceRemoval(RemoveAll(reply, JsonFence));
    ContainsWithin(m, Trim(m), Fence);
    Trim(m)
  }

  /** Number of backticks at the start of `s`. */
  function LeadingTicks(s: string): (n: nat)
    ensures n <= |s|
    ensures forall i :: 0 <= i < n ==> s[i] == '`'
    ensures n < |s| ==> s[n] != '`'
  {
    if s != [] && s[0] == '`' then 1 + LeadingTicks(s[1..]) else 0
  }

  /** The three facts that pin down `LeadingTicks`. */
  lemma LeadingTicksIs(s: string, n: nat)
    requires n <= |s|
    requires forall i :: 0 <= i < n ==> s[i] == '`'
    requires n < |s| ==> s[n] != '`'
    ensures LeadingTicks(s) == n
  {
  }

  /** Putting one character in front of a text that holds no "```" and,
      if the character is a backtick, starts with at most one backtick,
      makes no "```" either. */
  lemma ConsNoFence(c: char, t: string)
    requires !Contains(t, Fence)
    requires c == '`' ==> LeadingTicks(t) <= 1
    ensures !Contains([c] + t, Fence)
    ensures LeadingTicks([c] + t) == if c == '`' then 1 + LeadingTicks(t) else 0
  {
    var r := [c] + t;
    if c == '`' {
      LeadingTicksIs(r, 1 + LeadingTicks(t));
    } else {
      LeadingTicksIs(r, 0);
    }
    forall i | 0 <= i <= |r| - 3
      ensures !OccursAt(r, Fence, i)
    {
      if i == 0 {
        assert r[..3][0] == c && r[..3][1] == t[0] && r[..3][2] == t[1];
      } else {
        assert r[i..i + 3] == t[i - 1..i + 2];
        assert !OccursAt(t, Fence, i - 1);
      }
    }
  }

  /** A leading "```" is deleted and the rest is processed on its own;
      it accounts for three of the leading backticks. */
  lemma DropLeadingFence(s: string)
    requires |s| >= 3 && s[..3] == Fence
    ensures RemoveAll(s, Fence) == RemoveAll(s[3..], Fence)
    ensures LeadingTicks(s) == 3 + LeadingTicks(s[3..])
  {
    assert s[0] == '`' && s[1] == '`' && s[2] == '`' by {
      assert s[..3][0] == s[0] && s[..3][1] == s[1] && s[..3][2] == s[2];
    }
    var a := s[1..];
    var b := a[1..];
    assert a[0] == s[1] && b[0] == s[2] && b[1..] == s[3..];
    assert LeadingTicks(b) == 1 + LeadingTicks(s[3..]);
    assert LeadingTicks(a) == 1 + LeadingTicks(b);
  }

  /** A first character that does not begin "```" is kept and the rest
      is processed on its own. */
  lemma KeepFirst(s: string)
    requires |s| >= 3 && s[..3] != Fence
    ensures RemoveAll(s, Fence) == [s[0]] + RemoveAll(s[1..], Fence)
  {
  }

  /** A backtick that does not begin "```" starts a run of one or two. */
  lemma ShortLeadingRun(s: string)
    requires |s| >= 3 && s[..3] != Fence && s[0] == '`'
    ensures LeadingTicks(s[1..]) <= 1
    ensures LeadingTicks(s) == 1 + LeadingTicks(s[1..])
  {
    assert s[1] != '`' || s[2] != '`' by {
      assert s[..3][0] == s[0] && s[..3][1] == s[1] && s[..3][2] == s[2];
    }
    var a := s[1..];
    var b := a[1..];
    assert a[0] == s[1] && b[0] == s[2];
    if a[0] == '`' {
      assert LeadingTicks(b) == 0;
    }
  }

  /** What deleting "```" from the left does to `s`: no three backticks
      in a row remain, and the leading run of backticks keeps its length
      modulo 3. */
  predicate RunsShortened(s: string) {
    && !Contains(RemoveAll(s, Fence), Fence)
    && LeadingTicks(RemoveAll(s, Fence)) == LeadingTicks(s) % 3
  }

  /** A text shorter than a fence is left as it is. */
  lemma ShortRunsShortened(s: string)
    requires |s| < 3
    ensures RunsShortened(s)
  {
    assert RemoveAll(s, Fence) == s;
    assert LeadingTicks(s) % 3 == LeadingTicks(s);
  }

  /** Deleting a leading fence takes three backticks off the leading run. */
  lemma DropRunsShortened(s: string)
    requires |s| >= 3 && s[..3] == Fence
    requires RunsShortened(s[3..])
    ensures RunsShortened(s)
  {
    DropLeadingFence(s);
    ThreeMore(LeadingTicks(s[3..]));
  }

  /** Three more backticks leave a run's length modulo 3 unchanged
      (kept apart so the solver sees the modulus in a small context). */
  lemma ThreeMore(n: nat)
    ensures (3 + n) % 3 == n % 3
  {
  }

  /** Keeping a first character that does not begin a fence. */
  lemma KeepRunsShortened(s: string)
    requires |s| >= 3 && s[..3] != Fence
    requires RunsShortened(s[1..])
    ensures RunsShortened(s)
  {
    KeepFirst(s);
    if s[0] == '`' {
      ShortLeadingRun(s);
    } else {
      LeadingTicksIs(s, 0);
    }
    ConsNoFence(s[0], RemoveAll(s[1..], Fence));
    assert LeadingTicks(s) % 3 == LeadingTicks(s);
  }

  /** Deleting "```" from the left leaves no three backticks in a row,
      and the leading run of backticks keeps its length modulo 3. */
  lemma {:induction false} FenceRemoval(s: string)
    ensures !Contains(RemoveAll(s, Fence), Fence)
    ensures LeadingTicks(RemoveAll(s, Fence)) == LeadingTicks(s) % 3
    decreases |s|
  {
    if |s| < 3 {
      ShortRunsShortened(s);
    } else if s[..3] == Fence {
      FenceRemoval(s[3..]);
      DropRunsShortened(s);
    } else {
      FenceRemoval(s[1..]);
      KeepRunsShortened(s);
    }
  }

  /** A JSON body fenced as ```json … ``` with any whitespace around it
      comes out exactly as the body, provided the body holds no backtick
      and has no whitespace at its ends. */
  lemma FencedReplyRoundTrip(lead: string, body: string, trail: string)
    requires AllSpace(lead) && AllSpace(trail)
    requires '`' !in body && Trimmed(body)
    ensures StripFences(JsonFence + lead + body + trail + Fence) == body
  {
    var inner := lead + body + trail;
    assert '`' !in inner by {
      forall i | 0 <= i < |inner|
        ensures inner[i] != '`'
      {
        if i < |lead| {
          assert inner[i] == lead[i];
        } else if i < |lead| + |body| {
          assert inner[i] == body[i - |lead|];
        } else {
          assert inner[i] == trail[i - |lead| - |body|];
        }
      }
    }
    var s := JsonFence + lead + body + trail + Fence;
    assert s == JsonFence + (inner + Fence);
    assert s[..7] == JsonFence && s[7..] == inner + Fence;
    RemoveAllAfterPlain(inner, Fence, JsonFence);
    assert RemoveAll(Fence, JsonFence) == Fence;
    RemoveAllAfterPlain(inner, Fence, Fence);
    assert Fence[..3] == Fence && Fence[3..] == [];
    assert RemoveAll(Fence, Fence) == [];
    assert inner + [] == inner;
    TrimPadded(lead, body, trail);
  }
}
