/**
 * The trailing-newline trimmer that `logMessage` applies to every message
 * before it is queued (src/main.ts, lines 22-24). It is modelled exactly as
 * written: while the message ends with a line feed, the last TWO characters
 * are removed, using JavaScript's clamping `substring`.
 */
module Trim {

  /** JavaScript's `String.prototype.endsWith('\n')`. */
  predicate EndsWithNewline(s: string) {
    |s| > 0 && s[|s| - 1] == '\n'
  }

  /** `p` is a prefix of `s`. */
  predicate IsPrefix(p: string, s: string) {
    |p| <= |s| && p == s[..|p|]
  }

  /** An index argument of `substring`, clamped to `[0, n]`. */
  function Clamp(i: int, n: nat): (r: nat)
    ensures r <= n
    ensures 0 <= i <= n ==> r == i
    ensures i < 0 ==> r == 0
    ensures n < i ==> r == n
  {
    if i < 0 then 0 else if i > n then n else i
  }

  /**
   * JavaScript's `s.substring(start, end)`: both indices are clamped to the
   * string's length, and they are swapped when `start` exceeds `end`.
   */
  function Substring(s: string, start: int, end: int): (r: string)
    ensures start <= end ==> r == s[Clamp(start, |s|)..Clamp(end, |s|)]
    ensures end < start ==> r == s[Clamp(end, |s|)..Clamp(start, |s|)]
  {
    var a, b := Clamp(start, |s|), Clamp(end, |s|);
    if a <= b then s[a..b] else s[b..a]
  }

  /** One pass of the loop body: `message.substring(0, message.length - 2)`. */
  function TrimStep(s: string): (r: string)
    ensures |s| >= 2 ==> r == s[..|s| - 2]
    ensures |s| < 2 ==> r == []
  {
    Substring(s, 0, |s| - 2)
  }

  /**
   * The value the loop leaves in `message`. Its result is a prefix of the
   * input that does not end with a line feed.
   */
  function Trimmed(s: string): (r: string)
    ensures IsPrefix(r, s)
    ensures !EndsWithNewline(r)
    decreases |s|
  {
    if EndsWithNewline(s) then Trimmed(TrimStep(s)) else s
  }

  /**
   * The trimming loop of `logMessage`. It terminates because every pass
   * makes the string strictly shorter.
   */
  method TrimTrailingNewlines(msg: string) returns (message: string)
    ensures message == Trimmed(msg)
    ensures IsPrefix(message, msg) && !EndsWithNewline(message)
    ensures !EndsWithNewline(msg) ==> message == msg
  {
    message := msg;
    while EndsWithNewline(message)
      invariant IsPrefix(message, msg)
      invariant Trimmed(message) == Trimmed(msg)
      decreases |message|
    {
      message := TrimStep(message);
    }
  }

  /**
   * An independent description of what the loop computes. `r` is a prefix of
   * `s` that does not end with a line feed. Its length is one the loop can
   * reach: `|s|` minus an even number, or 0 (reached in one step from length 1).
   * Every longer prefix the loop passes through ends with a line feed.
   */
  ghost predicate IsTrimOf(s: string, r: string) {
    && IsPrefix(r, s)
    && !EndsWithNewline(r)
    && ((|s| - |r|) % 2 == 0 || |r| == 0)
    && forall k :: |r| < k <= |s| && (|s| - k) % 2 == 0 ==> EndsWithNewline(s[..k])
  }

  /** The loop's result meets the independent description. */
  lemma {:induction false} TrimmedIsTrimOf(s: string)
    ensures IsTrimOf(s, Trimmed(s))
    decreases |s|
  {
    if EndsWithNewline(s) {
      var t := TrimStep(s);
      TrimmedIsTrimOf(t);
      var r := Trimmed(s);
      assert r == Trimmed(t);
      forall k | |r| < k <= |s| && (|s| - k) % 2 == 0
        ensures EndsWithNewline(s[..k])
      {
        if k == |s| {
          assert s[..k] == s;
        } else {
          assert |s| >= 2;
          assert k <= |t| && (|t| - k) % 2 == 0;
          assert t[..k] == s[..k];
        }
      }
    }
  }

  /** At most one string meets the description: it determines the loop's result. */
  lemma {:induction false} IsTrimOfUnique(s: string, r: string)
    requires IsTrimOf(s, r)
    ensures r == Trimmed(s)
    decreases |s|
  {
    if !EndsWithNewline(s) {
      assert |r| < |s| ==> EndsWithNewline(s[..|s|]);
      assert r == s[..|s|] == s;
    } else {
      assert |r| < |s|;
      var t := TrimStep(s);
      if |s| >= 2 {
        assert |r| <= |t|;
        assert IsPrefix(r, t) by { assert t[..|r|] == s[..|r|]; }
        forall k | |r| < k <= |t| && (|t| - k) % 2 == 0
          ensures EndsWithNewline(t[..k])
        {
          assert t[..k] == s[..k];
        }
        assert IsTrimOf(t, r);
        IsTrimOfUnique(t, r);
      } else {
        assert r == [] && t == [];
      }
    }
  }

  /** The loop's result is exactly the string meeting the independent description. */
  lemma TrimmedCharacterized(s: string, r: string)
    ensures r == Trimmed(s) <==> IsTrimOf(s, r)
  {
    TrimmedIsTrimOf(s);
    if IsTrimOf(s, r) { IsTrimOfUnique(s, r); }
  }

  /** Trimming an already-trimmed message changes nothing. */
  lemma TrimmedIdempotent(s: string)
    ensures Trimmed(Trimmed(s)) == Trimmed(s)
  {
  }

  /**
   * Concrete cases that show the loop is not "strip trailing line feeds":
   * each pass drops two characters, so the character before a final line
   * feed is lost, and a final carriage return alone is kept.
   */
  lemma TrimExamples()
    ensures Trimmed("ab\n") == "a"
    ensures Trimmed("a\r\n") == "a"
    ensures Trimmed("\n\n") == ""
    ensures Trimmed("\n") == ""
    ensures Trimmed("a\r") == "a\r"
    ensures Trimmed("ab\n\n\n") == "a"
  {
    assert TrimStep("ab\n") == "a";
    assert TrimStep("a\r\n") == "a";
    assert TrimStep("\n\n") == "";
    assert TrimStep("\n") == "";
    assert TrimStep("ab\n\n\n") == "ab\n";
  }
}
