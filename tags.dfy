/**
 * The timestamp-tag patterns that the plugins strip with `re.sub`:
 * `\[[0-9]+:[0-9]+.[0-9]+]` followed by a fixed trailer (empty in
 * interface.py, a single space in modules/musixmatch/interface.py).
 * The `.` is unescaped, so it stands for any character but a newline.
 */
module Tags {
  import opened Numerals
  import opened Wrappers

  /** `s[a..b]` is a non-empty run of digits. */
  predicate DigitGroup(s: string, a: nat, b: nat)
    requires b <= |s|
  {
    a < b && forall t :: a <= t < b ==> IsDigit(s[t])
  }

  /**
   * The reference definition: `s[p..end]` is `[`, digits, `:`, digits, one
   * character other than a newline (at `j`), digits, `]` (at `k`), and then
   * the trailer.
   */
  predicate TagSplit(s: string, p: nat, i: nat, j: nat, k: nat, end: nat, trailer: string)
  {
    && end <= |s| && p < i < j < k && end == k + 1 + |trailer|
    && s[p] == '['
    && DigitGroup(s, p + 1, i) && s[i] == ':'
    && DigitGroup(s, i + 1, j) && s[j] != '\n'
    && DigitGroup(s, j + 1, k) && s[k] == ']'
    && s[k + 1..end] == trailer
  }

  ghost predicate IsTagAt(s: string, p: nat, end: nat, trailer: string)
  {
    exists i: nat, j: nat, k: nat :: TagSplit(s, p, i, j, k, end, trailer)
  }

  /** The end of the run of digits that starts at `i`. */
  function DigitRunEnd(s: string, i: nat): (e: nat)
    requires i <= |s|
    ensures i <= e <= |s|
    ensures forall t :: i <= t < e ==> IsDigit(s[t])
    ensures e < |s| ==> !IsDigit(s[e])
    decreases |s| - i
  {
    if i < |s| && IsDigit(s[i]) then DigitRunEnd(s, i + 1) else i
  }

  /** A `]` at `k` followed by the trailer. */
  predicate ClosesAt(s: string, k: nat, trailer: string)
  {
    k < |s| && s[k] == ']' && k + 1 + |trailer| <= |s| && s[k + 1..k + 1 + |trailer|] == trailer
  }

  /**
   * The end of the match the regular expression engine reports at `p`, scanning
   * as it does: each digit group is taken greedily, and when the character
   * after the second group cannot serve as the `.`, the engine gives back
   * digits of that group until one of them can.
   */
  function MatchTag(s: string, p: nat, trailer: string): Option<nat>
  {
    if p < |s| && s[p] == '[' then
      var i := DigitRunEnd(s, p + 1);
      if p + 1 < i < |s| && s[i] == ':' then
        var e := DigitRunEnd(s, i + 1);
        var whole := if e < |s| && s[e] != '\n' then DigitRunEnd(s, e + 1) else e;
        if i + 1 < e < |s| && s[e] != '\n' && e + 1 < whole && ClosesAt(s, whole, trailer) then
          Some(whole + 1 + |trailer|)
        else if e >= i + 4 && ClosesAt(s, e, trailer) then
          Some(e + 1 + |trailer|)
        else None
      else None
    else None
  }

  /** A run of digits that stops at a non-digit is the run `DigitRunEnd` finds. */
  lemma RunIsMaximal(s: string, a: nat, b: nat)
    requires a <= b <= |s|
    requires forall t :: a <= t < b ==> IsDigit(s[t])
    requires b < |s| ==> !IsDigit(s[b])
    ensures DigitRunEnd(s, a) == b
    decreases b - a
  {
    if a < b {
      RunIsMaximal(s, a + 1, b);
    }
  }

  /** A run of digits inside a longer one ends no later than it. */
  lemma RunBound(s: string, a: nat, b: nat)
    requires a <= b <= |s|
    requires forall t :: a <= t < b ==> IsDigit(s[t])
    ensures b <= DigitRunEnd(s, a)
    decreases b - a
  {
    if a < b {
      RunBound(s, a + 1, b);
    }
  }

  /**
   * Every way of reading a tag at `p` ends where the scanner's first choice
   * ends or where its fallback ends, and that choice is available.
   */
  lemma TagEnds(s: string, p: nat, i: nat, j: nat, k: nat, end: nat, trailer: string)
    requires TagSplit(s, p, i, j, k, end, trailer)
    ensures MatchTag(s, p, trailer).Some?
    ensures end <= MatchTag(s, p, trailer).value
  {
    RunIsMaximal(s, p + 1, i);
    RunBound(s, i + 1, j);
    if j == DigitRunEnd(s, i + 1) {
      GreedyReading(s, p, i, j, k, end, trailer);
    } else {
      FallbackReading(s, p, i, j, k, end, trailer);
    }
  }

  /** The `.` is the character right after the whole second digit group. */
  lemma GreedyReading(s: string, p: nat, i: nat, j: nat, k: nat, end: nat, trailer: string)
    requires TagSplit(s, p, i, j, k, end, trailer)
    requires DigitRunEnd(s, p + 1) == i && DigitRunEnd(s, i + 1) == j
    ensures MatchTag(s, p, trailer) == Some(end)
  {
    RunIsMaximal(s, j + 1, k);
  }

  /** The `.` is a digit given back by the second group, so the `]` ends that group's run. */
  lemma FallbackReading(s: string, p: nat, i: nat, j: nat, k: nat, end: nat, trailer: string)
    requires TagSplit(s, p, i, j, k, end, trailer)
    requires DigitRunEnd(s, p + 1) == i && j < DigitRunEnd(s, i + 1)
    ensures MatchTag(s, p, trailer).Some? && end <= MatchTag(s, p, trailer).value
  {
    var e := DigitRunEnd(s, i + 1);
    RunIsMaximal(s, j + 1, k);
    RunIsMaximal(s, j + 1, e);
    assert k == e;
    assert ClosesAt(s, e, trailer);
  }

  /**
   * The scanner agrees with the pattern: it reports a match exactly when a
   * tag starts at `p`, and the match it reports is the longest one, which is
   * the one the backtracking engine settles on first.
   */
  lemma MatchTagCorrect(s: string, p: nat, trailer: string)
    ensures MatchTag(s, p, trailer).Some? ==>
              var end := MatchTag(s, p, trailer).value;
              p < end <= |s| && IsTagAt(s, p, end, trailer)
    ensures MatchTag(s, p, trailer).Some? ==>
              forall end: nat :: IsTagAt(s, p, end, trailer) ==> end <= MatchTag(s, p, trailer).value
    ensures MatchTag(s, p, trailer).None? ==> forall end: nat :: !IsTagAt(s, p, end, trailer)
  {
    forall end: nat | IsTagAt(s, p, end, trailer)
      ensures MatchTag(s, p, trailer).Some? && end <= MatchTag(s, p, trailer).value
    {
      var i: nat, j: nat, k: nat :| TagSplit(s, p, i, j, k, end, trailer);
      TagEnds(s, p, i, j, k, end, trailer);
    }
    if MatchTag(s, p, trailer).Some? {
      var i, j, k := MatchIsTag(s, p, trailer);
    }
  }

  /** What the scanner reports is a tag: its own digit runs are a way of reading one. */
  lemma MatchIsTag(s: string, p: nat, trailer: string) returns (i: nat, j: nat, k: nat)
    requires MatchTag(s, p, trailer).Some?
    ensures TagSplit(s, p, i, j, k, MatchTag(s, p, trailer).value, trailer)
  {
    i := DigitRunEnd(s, p + 1);
    var e := DigitRunEnd(s, i + 1);
    var whole := if e < |s| && s[e] != '\n' then DigitRunEnd(s, e + 1) else e;
    if i + 1 < e < |s| && s[e] != '\n' && e + 1 < whole && ClosesAt(s, whole, trailer) {
      j, k := e, whole;
      GreedyIsTag(s, p, i, e, whole, trailer);
    } else {
      j, k := e - 2, e;
      FallbackIsTag(s, p, i, e, trailer);
    }
  }

  lemma GreedyIsTag(s: string, p: nat, i: nat, e: nat, whole: nat, trailer: string)
    requires p < |s| && s[p] == '[' && i == DigitRunEnd(s, p + 1) && p + 1 < i < |s| && s[i] == ':'
    requires e == DigitRunEnd(s, i + 1) && i + 1 < e < |s| && s[e] != '\n'
    requires whole == DigitRunEnd(s, e + 1) && e + 1 < whole && ClosesAt(s, whole, trailer)
    ensures TagSplit(s, p, i, e, whole, whole + 1 + |trailer|, trailer)
  {
  }

  lemma FallbackIsTag(s: string, p: nat, i: nat, e: nat, trailer: string)
    requires p < |s| && s[p] == '[' && i == DigitRunEnd(s, p + 1) && p + 1 < i < |s| && s[i] == ':'
    requires e == DigitRunEnd(s, i + 1) && e >= i + 4 && ClosesAt(s, e, trailer)
    ensures TagSplit(s, p, i, e - 2, e, e + 1 + |trailer|, trailer)
  {
  }

  /** `re.sub(pattern, '', s[p..])`: matches are removed, everything between them is kept in order. */
  function StripFrom(s: string, p: nat, trailer: string): string
    decreases |s| - p
  {
    if p >= |s| then ""
    else match MatchTag(s, p, trailer)
      case Some(end) =>
        MatchTagCorrect(s, p, trailer);
        StripFrom(s, end, trailer)
      case None => [s[p]] + StripFrom(s, p + 1, trailer)
  }

  function StripTags(s: string, trailer: string): string
  {
    StripFrom(s, 0, trailer)
  }

  /** Text without a `[` is left as it is. */
  lemma {:induction false} StripFromNoBracket(s: string, p: nat, trailer: string)
    requires p <= |s| && forall t :: p <= t < |s| ==> s[t] != '['
    ensures StripFrom(s, p, trailer) == s[p..]
    decreases |s| - p
  {
    if p < |s| {
      assert MatchTag(s, p, trailer).None?;
      StripFromNoBracket(s, p + 1, trailer);
      assert s[p..] == [s[p]] + s[p + 1..];
    }
  }

  /** A line `[mm:ss.ff]`, the trailer, then text without a `[`, loses exactly its tag. */
  lemma LrcLineStripped(mm: string, ss: string, ff: string, trailer: string, text: string)
    requires |mm| > 0 && |ss| > 0 && |ff| > 0 && AllDigits(mm) && AllDigits(ss) && AllDigits(ff)
    requires '[' !in text
    ensures StripTags("[" + mm + ":" + ss + "." + ff + "]" + trailer + text, trailer) == text
  {
    var s := "[" + mm + ":" + ss + "." + ff + "]" + trailer + text;
    var i := 1 + |mm|;
    var j := i + 1 + |ss|;
    var k := j + 1 + |ff|;
    var end := k + 1 + |trailer|;
    LrcLineSplit(mm, ss, ff, trailer, text);
    GreedyReading(s, 0, i, j, k, end, trailer);
    assert s[end..] == text;
    StripFromNoBracket(s, end, trailer);
  }

  /** The fields of such a line are exactly the digit runs the scanner finds. */
  lemma LrcLineSplit(mm: string, ss: string, ff: string, trailer: string, text: string)
    requires |mm| > 0 && |ss| > 0 && |ff| > 0 && AllDigits(mm) && AllDigits(ss) && AllDigits(ff)
    ensures var s := "[" + mm + ":" + ss + "." + ff + "]" + trailer + text;
            var i := 1 + |mm|;
            var j := i + 1 + |ss|;
            var k := j + 1 + |ff|;
            TagSplit(s, 0, i, j, k, k + 1 + |trailer|, trailer)
            && DigitRunEnd(s, 1) == i && DigitRunEnd(s, i + 1) == j
  {
    var s := "[" + mm + ":" + ss + "." + ff + "]" + trailer + text;
    var i := 1 + |mm|;
    var j := i + 1 + |ss|;
    var k := j + 1 + |ff|;
    forall t | 1 <= t < i ensures IsDigit(s[t]) { assert s[t] == mm[t - 1]; }
    forall t | i + 1 <= t < j ensures IsDigit(s[t]) { assert s[t] == ss[t - i - 1]; }
    forall t | j + 1 <= t < k ensures IsDigit(s[t]) { assert s[t] == ff[t - j - 1]; }
    assert s[i] == ':' && s[j] == '.' && s[k] == ']' && s[0] == '[';
    assert s[k + 1..k + 1 + |trailer|] == trailer;
    RunIsMaximal(s, 1, i);
    RunIsMaximal(s, i + 1, j);
  }

  /**
   * The pattern with the space trailer keeps a tag that no space follows
   * (the pattern without a trailer removes it, by `LrcLineStripped`).
   */
  lemma TagWithoutSpaceKept(mm: string, ss: string, ff: string, text: string)
    requires |mm| > 0 && |ss| > 0 && |ff| > 0 && AllDigits(mm) && AllDigits(ss) && AllDigits(ff)
    requires '[' !in text && (text == [] || text[0] != ' ')
    ensures var s := "[" + mm + ":" + ss + "." + ff + "]" + text;
            StripTags(s, " ") == s
  {
    var s := "[" + mm + ":" + ss + "." + ff + "]" + text;
    assert s == "[" + mm + ":" + ss + "." + ff + "]" + "" + text;
    var i := 1 + |mm|;
    var j := i + 1 + |ss|;
    var k := j + 1 + |ff|;
    LrcLineSplit(mm, ss, ff, "", text);
    assert s[j] == '.';
    assert k + 1 == |s| || s[k + 1] == text[0];
    NoMatchWithoutSpace(s, i, j, k);
    assert s[k + 1..] == text;
    NoBracketAfterTag(s, i, j, k);
    StripFromNoBracket(s, 1, " ");
    assert [s[0]] + s[1..] == s;
  }

  lemma NoMatchWithoutSpace(s: string, i: nat, j: nat, k: nat)
    requires TagSplit(s, 0, i, j, k, k + 1, "") && DigitRunEnd(s, 1) == i && DigitRunEnd(s, i + 1) == j
    requires s[j] == '.' && (k + 1 == |s| || s[k + 1] != ' ')
    ensures MatchTag(s, 0, " ").None?
  {
    RunIsMaximal(s, j + 1, k);
    assert !ClosesAt(s, k, " ") by {
      if k + 2 <= |s| {
        assert s[k + 1..k + 2][0] == s[k + 1];
      }
    }
  }

  /** Past its opening `[`, a tag followed by text without a `[` holds no other `[`. */
  lemma NoBracketAfterTag(s: string, i: nat, j: nat, k: nat)
    requires TagSplit(s, 0, i, j, k, k + 1, "") && s[j] == '.' && '[' !in s[k + 1..]
    ensures forall t :: 1 <= t < |s| ==> s[t] != '['
  {
    forall t | 1 <= t < |s| ensures s[t] != '[' {
      if t > k {
        assert s[t] == s[k + 1..][t - k - 1];
      }
    }
  }
}
