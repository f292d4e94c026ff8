/** The string operations of the Python code: `str.join`, `str.split` and `str.replace`. */
module Text {

  /** Python `sep.join(parts)`. */
  function Join(parts: seq<string>, sep: string): string
  {
    if parts == [] then ""
    else if |parts| == 1 then parts[0]
    else parts[0] + sep + Join(parts[1..], sep)
  }

  /** The first index of `c` in `s`, or `|s|` when there is none. */
  function IndexOf(s: string, c: char): (i: nat)
    ensures i <= |s| && (i < |s| ==> s[i] == c)
    ensures forall k :: 0 <= k < i ==> s[k] != c
  {
    if s == [] then 0
    else if s[0] == c then 0
    else 1 + IndexOf(s[1..], c)
  }

  /** Python `s.split(c)` for a one-character separator. */
  function Split(s: string, c: char): seq<string>
    decreases |s|
  {
    var i := IndexOf(s, c);
    if i == |s| then [s] else [s[..i]] + Split(s[i + 1..], c)
  }

  /**
   * Joining pieces that do not contain the separator and splitting again
   * gives the pieces back: `'\n'.join(xs).split('\n') == xs`.
   */
  lemma {:induction false} SplitJoin(parts: seq<string>, c: char)
    requires parts != []
    requires forall k :: 0 <= k < |parts| ==> c !in parts[k]
    ensures Split(Join(parts, [c]), c) == parts
  {
    var s := Join(parts, [c]);
    var p := parts[0];
    if |parts| == 1 {
      IndexOfAbsent(p, c);
    } else {
      var rest := Join(parts[1..], [c]);
      assert s == p + [c] + rest;
      IndexOfAfter(p, c, rest);
      assert s[..|p|] == p;
      assert s[|p| + 1..] == rest;
      SplitJoin(parts[1..], c);
    }
  }

  lemma IndexOfAbsent(s: string, c: char)
    requires c !in s
    ensures IndexOf(s, c) == |s|
  {
  }

  lemma IndexOfAfter(p: string, c: char, rest: string)
    requires c !in p
    ensures IndexOf(p + [c] + rest, c) == |p|
  {
    var s := p + [c] + rest;
    assert forall k :: 0 <= k < |p| ==> s[k] == p[k] && s[k] != c;
    assert s[|p|] == c;
  }

  /** Python `s.replace(pat, rep)`: every non-overlapping occurrence, scanning left to right. */
  function ReplaceAll(s: string, pat: string, rep: string): string
    requires |pat| > 0
    decreases |s|
  {
    if |s| < |pat| then s
    else if s[..|pat|] == pat then rep + ReplaceAll(s[|pat|..], pat, rep)
    else [s[0]] + ReplaceAll(s[1..], pat, rep)
  }

  /**
   * `s` with every space that directly follows a `]` removed; `afterBracket`
   * says whether the character before `s` was a `]`.
   */
  function DropSpacesAfterBrackets(s: string, afterBracket: bool := false): string
  {
    if s == [] then []
    else (if afterBracket && s[0] == ' ' then [] else [s[0]])
         + DropSpacesAfterBrackets(s[1..], s[0] == ']')
  }

  /**
   * `s.replace('] ', ']')` deletes exactly the spaces that directly follow a
   * `]` in the original text and keeps every other character in order.
   */
  lemma {:induction false} ReplaceBracketSpace(s: string)
    ensures ReplaceAll(s, "] ", "]") == DropSpacesAfterBrackets(s)
    decreases |s|
  {
    if |s| < 2 {
      if |s| == 1 {
        assert DropSpacesAfterBrackets(s[1..], s[0] == ']') == [];
      }
    } else if s[..2] == "] " {
      assert s[0] == ']' && s[1] == ' ';
      assert s[1..][1..] == s[2..];
      ReplaceBracketSpace(s[2..]);
    } else {
      ReplaceBracketSpace(s[1..]);
      if s[0] == ']' {
        assert s[1] != ' ';
        assert s[1..][1..] == s[2..];
      }
    }
  }

  /** Concatenation regroups freely. */
  lemma ConcatAssoc<T>(a: seq<T>, b: seq<T>, c: seq<T>)
    ensures a + (b + c) == (a + b) + c
  {
  }

  /** Extending a prefix by one element. */
  lemma TakeSnoc<T>(s: seq<T>, n: nat)
    requires n < |s|
    ensures s[..n + 1] == s[..n] + [s[n]]
  {
  }

  /** Extending a slice by the element after it. */
  lemma SliceSnoc<T>(s: seq<T>, a: nat, n: nat)
    requires a <= n < |s|
    ensures s[a..n + 1] == s[a..n] + [s[n]]
  {
  }
}
