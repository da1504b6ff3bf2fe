/** The few Python string operations the modelled code relies on. */
module Text {
  import opened Common

  /** The characters Python's `str.strip` removes. */
  predicate IsSpace(c: char) {
    || '\t' <= c <= '\r' || '\U{1c}' <= c <= ' '
    || c == '\U{85}' || c == '\U{a0}' || c == '\U{1680}'
    || '\U{2000}' <= c <= '\U{200a}' || c == '\U{2028}' || c == '\U{2029}'
    || c == '\U{202f}' || c == '\U{205f}' || c == '\U{3000}'
  }

  predicate AllSpace(s: string) {
    forall i :: 0 <= i < |s| ==> IsSpace(s[i])
  }

  /** Neither end is white space. */
  predicate Trimmed(s: string) {
    s != "" ==> !IsSpace(s[0]) && !IsSpace(s[|s| - 1])
  }

  function LStrip(s: string): string {
    if s != "" && IsSpace(s[0]) then LStrip(s[1..]) else s
  }

  function RStrip(s: string): string {
    if s != "" && IsSpace(s[|s| - 1]) then RStrip(s[..|s| - 1]) else s
  }

  function Strip(s: string): string {
    RStrip(LStrip(s))
  }

  lemma {:induction false} LStripDrops(w: string, s: string)
    requires AllSpace(w)
    requires s != "" ==> !IsSpace(s[0])
    ensures LStrip(w + s) == s
  {
    if w == "" {
      assert w + s == s;
    } else {
      assert (w + s)[1..] == w[1..] + s;
      LStripDrops(w[1..], s);
    }
  }

  lemma {:induction false} RStripDrops(s: string, w: string)
    requires AllSpace(w)
    requires s != "" ==> !IsSpace(s[|s| - 1])
    ensures RStrip(s + w) == s
  {
    if w == "" {
      assert s + w == s;
    } else {
      assert (s + w)[..|s + w| - 1] == s + w[..|w| - 1];
      RStripDrops(s, w[..|w| - 1]);
    }
  }

  /** Stripping removes exactly the white space around a trimmed text. */
  lemma StripPadding(before: string, s: string, after: string)
    requires AllSpace(before) && AllSpace(after) && Trimmed(s)
    ensures Strip(before + s + after) == s
  {
    if s == "" {
      assert before + s + after == (before + after) + "";
      LStripDrops(before + after, "");
    } else {
      assert before + s + after == before + (s + after);
      LStripDrops(before, s + after);
      RStripDrops(s, after);
    }
  }

  function LowerChar(c: char): char {
    if 'A' <= c <= 'Z' then c - 'A' + 'a' else c
  }

  /** `str.lower` on ASCII text. */
  function Lower(s: string): (r: string)
    ensures |r| == |s|
    ensures forall i :: 0 <= i < |s| ==> r[i] == LowerChar(s[i])
  {
    seq(|s|, i requires 0 <= i < |s| => LowerChar(s[i]))
  }

  /** `sub in s`. */
  predicate Contains(s: string, sub: string) {
    exists i :: 0 <= i <= |s| && sub <= s[i..]
  }

  predicate EndsWith(s: string, suffix: string) {
    |suffix| <= |s| && s[|s| - |suffix|..] == suffix
  }

  /** `s[:n]`. */
  function Clip(s: string, n: nat): string {
    if |s| <= n then s else s[..n]
  }

  // ---- what they mean -------------------------------------------------------

  const UPPER := "ABCDEFGHIJKLMNOPQRSTUVWXYZ"
  const LOWER := "abcdefghijklmnopqrstuvwxyz"

  /** Each capital letter has its small one; everything else stays. */
  lemma LettersLowered(c: char)
    ensures forall i :: 0 <= i < 26 && UPPER[i] == c ==> LowerChar(c) == LOWER[i]
    ensures !('A' <= c <= 'Z') ==> LowerChar(c) == c
  {
  }

  /** A text contains another exactly if it is some text, the other, and some text. */
  lemma ContainsAround(before: string, sub: string, after: string)
    ensures Contains(before + sub + after, sub)
  {
    assert sub <= (before + sub + after)[|before|..];
  }

  lemma ContainedAround(s: string, sub: string) returns (before: string, after: string)
    requires Contains(s, sub)
    ensures s == before + sub + after
  {
    var i :| 0 <= i <= |s| && sub <= s[i..];
    before, after := s[..i], s[i + |sub|..];
    assert s == s[..i] + s[i..] && s[i..] == sub + s[i..][|sub|..];
  }

  lemma EndsWithAppended(s: string, suffix: string)
    ensures EndsWith(s + suffix, suffix)
  {
  }

  lemma EndsWithSplits(s: string, suffix: string)
    requires EndsWith(s, suffix)
    ensures s == s[..|s| - |suffix|] + suffix
  {
  }

  /** Every text is blanks, a trimmed text and blanks; the trimmed text is what stripping leaves. */
  lemma {:induction false} LStripSplits(s: string) returns (before: string)
    ensures AllSpace(before) && s == before + LStrip(s) && (LStrip(s) != "" ==> !IsSpace(LStrip(s)[0]))
  {
    if s != "" && IsSpace(s[0]) {
      var rest := LStripSplits(s[1..]);
      before := [s[0]] + rest;
      assert s == [s[0]] + s[1..];
    } else {
      before := "";
    }
  }

  lemma {:induction false} RStripSplits(s: string) returns (after: string)
    ensures AllSpace(after) && s == RStrip(s) + after
    ensures RStrip(s) != "" ==> !IsSpace(RStrip(s)[|RStrip(s)| - 1])
  {
    if s != "" && IsSpace(s[|s| - 1]) {
      var front, last := s[..|s| - 1], [s[|s| - 1]];
      var rest := RStripSplits(front);
      after := rest + last;
      assert s == front + last && RStrip(s) + (rest + last) == (RStrip(s) + rest) + last;
    } else {
      after := "";
    }
  }

  lemma FirstStays(s: string, t: string, after: string)
    requires s == t + after && t != ""
    ensures t[0] == s[0]
  {
  }

  lemma StripSplits(s: string) returns (before: string, after: string)
    ensures AllSpace(before) && AllSpace(after) && Trimmed(Strip(s)) && s == before + Strip(s) + after
  {
    before := LStripSplits(s);
    after := RStripSplits(LStrip(s));
    if Strip(s) != "" {
      FirstStays(LStrip(s), Strip(s), after);
    }
    assert before + (Strip(s) + after) == before + Strip(s) + after;
  }
}
