/**
 * `parse_rich_sync_lyrics` (interface.py): word-timed lines rendered either as
 * enhanced LRC or as LyricsX attachment text. The specification functions
 * below define each output line by the order in which the source appends to
 * it; `ParseRichSyncLyrics` is the loop the source runs, proved to produce
 * them.
 */
module RichSync {
  import opened Wrappers
  import opened Numerals
  import opened Timestamp
  import opened Text

  /** A word of a rich-sync line: its text `c` and its offset `o` in seconds from the line start. */
  datatype Word = Word(c: string, o: real)

  /** A rich-sync line: start `ts` and end `te` in seconds, full text `x`, words `l`. */
  datatype Line = Line(ts: real, te: real, x: string, l: seq<Word>)

  /** `line['l'][0]` on an empty word list raises IndexError in the LyricsX branch. */
  datatype RichSyncError = EmptyWordList

  /** A word whose text is a single space is skipped by both renderers. */
  predicate IsSpace(w: Word) { w.c == " " }

  /** `[MM:SS.F…]` */
  function Tag(seconds: real, decimalPlaces: nat): string
  {
    "[" + FormatTimestamp(seconds, decimalPlaces) + "]"
  }

  // ---------------------------------------------------------------- enhanced LRC

  /** ` <MM:SS.FF> word`, the word's absolute time rounded to two places. */
  function WordToken(ts: real, w: Word): string
  {
    " <" + FormatTimestamp(RoundIn(ts + w.o, 100)) + "> " + w.c
  }

  /** What one word adds to an enhanced-LRC line: its token, or nothing for a space word. */
  function WordPiece(ts: real, w: Word): string
  {
    if IsSpace(w) then "" else WordToken(ts, w)
  }

  /** The enhanced-LRC line opened by `lead` after the words `words` of a line starting at `ts`. */
  function EnhancedLine(lead: string, ts: real, words: seq<Word>): string
  {
    if words == [] then lead
    else EnhancedLine(lead, ts, words[..|words| - 1]) + WordPiece(ts, words[|words| - 1])
  }

  /** The tag that opens output line `i`: the `00:00.00` seed for the first, the previous line's end after it. */
  function LeadTag(lines: seq<Line>, i: nat): string
    requires i < |lines|
  {
    if i == 0 then Tag(0.0, 2) else Tag(lines[i - 1].te, 2)
  }

  /** The enhanced-LRC output lines: one per input line, each opened by its lead tag. */
  function EnhancedLines(lines: seq<Line>): (r: seq<string>)
    ensures |r| == |lines|
  {
    seq(|lines|, i requires 0 <= i < |lines| => EnhancedLine(LeadTag(lines, i), lines[i].ts, lines[i].l))
  }

  /** The rendered enhanced-LRC text of `lines`. */
  function EnhancedLrc(lines: seq<Line>): (r: string)
    ensures lines == [] ==> r == ""
  {
    Join(EnhancedLines(lines), "\n")
  }

  // ---------------------------------------------------------------- LyricsX

  /** `int(round(o, 3) * 1000.0)`: a word's offset in milliseconds. */
  function WordMs(o: real): int
  {
    Trunc(RoundIn(o, 1000) * 1000.0)
  }

  /** `<ms,count>` */
  function Attachment(ms: int, count: nat): string
  {
    "<" + IntToString(ms) + "," + NatToString(count) + ">"
  }

  /** The counter after one word: a non-space word adds its length plus one. */
  function CountStep(w: Word, count: nat): (r: nat)
    ensures r >= count
  {
    if IsSpace(w) then count else count + |w.c| + 1
  }

  /** The character counter after `words`, starting from `seed`. */
  function CharCount(words: seq<Word>, seed: nat): (r: nat)
    ensures r >= seed
  {
    if words == [] then seed else CountStep(words[|words| - 1], CharCount(words[..|words| - 1], seed))
  }

  /** What one word adds to a LyricsX line: `<ms,count>` with the count before it, or nothing for a space word. */
  function AttachmentPiece(w: Word, count: nat): string
  {
    if IsSpace(w) then "" else Attachment(WordMs(w.o), count)
  }

  /** The LyricsX line opened by `head` after the `<ms,count>` tokens of `words`, the counter starting at `seed`. */
  function AttachmentLine(head: string, words: seq<Word>, seed: nat): string
  {
    if words == [] then head
    else
      var init := words[..|words| - 1];
      AttachmentLine(head, init, seed) + AttachmentPiece(words[|words| - 1], CharCount(init, seed))
  }

  /** `int(float(te - ts) * 1000.0)`: the line duration in milliseconds, truncated toward zero. */
  function DurationMs(line: Line): int
  {
    Trunc((line.te - line.ts) * 1000.0)
  }

  /** `int(float((te - ts) - 0.005) * 1000.0)`: the duration less the 5 ms margin. */
  function MarginMs(line: Line): (ms: int)
    ensures (line.te - line.ts >= 0.005 || line.te - line.ts <= 0.0) ==> ms == DurationMs(line) - 5
    ensures 0.0 < line.te - line.ts < 0.005 ==> ms == DurationMs(line) - 4 || ms == DurationMs(line) - 5
  {
    Trunc(((line.te - line.ts) - 0.005) * 1000.0)
  }

  /** `[MM:SS.FFF]` followed by `<x>\n[MM:SS.FFF][tt]<0,0>`: the stamped line text and the opening of its attachment. */
  function LyricsXHead(line: Line): string
  {
    Tag(line.ts, 3) + (line.x + "\n[" + FormatTimestamp(line.ts, 3) + "][tt]<0,0>")
  }

  /**
   * The LyricsX text of one line: the head, the word tokens from index 1 on
   * (the counter seeded with the length of word 0, whatever it is), the
   * margin token with the final count, and the duration token.
   */
  function LyricsXLine(line: Line): string
    requires line.l != []
  {
    AttachmentsAfter(LyricsXHead(line), line)
  }

  /** `head`, then the word tokens after the first word, the margin token with the final count, and the duration token. */
  function AttachmentsAfter(head: string, line: Line): string
    requires line.l != []
  {
    var seed := |line.l[0].c|;
    AttachmentLine(head, line.l[1..], seed)
      + Attachment(MarginMs(line), CharCount(line.l[1..], seed))
      + ("<" + IntToString(DurationMs(line)) + ">")
  }

  /** No line has an empty word list. */
  predicate AllHaveWords(lines: seq<Line>)
  {
    forall i :: 0 <= i < |lines| ==> lines[i].l != []
  }

  /** The LyricsX text of each line, in order. */
  function LyricsXTexts(lines: seq<Line>): (r: seq<string>)
    requires AllHaveWords(lines)
  {
    seq(|lines|, i requires 0 <= i < |lines| => LyricsXLine(lines[i]))
  }

  /** The LyricsX lines, or the error that the first line without words raises. */
  function LyricsXLines(lines: seq<Line>): Result<seq<string>, RichSyncError>
  {
    if AllHaveWords(lines) then Success(LyricsXTexts(lines)) else Failure(EmptyWordList)
  }

  /** The rendered LyricsX text of `lines`. */
  function LyricsX(lines: seq<Line>): (r: Result<string, RichSyncError>)
    ensures lines == [] ==> r == Success("")
  {
    match LyricsXLines(lines)
    case Success(parts) => Success(Join(parts, "\n"))
    case Failure(e) => Failure(e)
  }

  /** The text `parse_rich_sync_lyrics` returns for the chosen format. */
  function RichSyncLrc(lines: seq<Line>, useLyricsX: bool): Result<string, RichSyncError>
  {
    if useLyricsX then LyricsX(lines) else Success(EnhancedLrc(lines))
  }

  // ---------------------------------------------------------------- one step of each loop

  /** Appending a word extends the enhanced-LRC line by that word's piece. */
  lemma EnhancedLineSnoc(lead: string, ts: real, init: seq<Word>, w: Word)
    ensures IsSpace(w) ==> EnhancedLine(lead, ts, init + [w]) == EnhancedLine(lead, ts, init)
    ensures !IsSpace(w) ==> EnhancedLine(lead, ts, init + [w]) == EnhancedLine(lead, ts, init) + WordToken(ts, w)
  {
    assert (init + [w])[..|init|] == init;
  }

  /** Appending a word extends the LyricsX line by that word's token and advances the counter. */
  lemma AttachmentLineSnoc(head: string, init: seq<Word>, w: Word, seed: nat)
    ensures IsSpace(w) ==> AttachmentLine(head, init + [w], seed) == AttachmentLine(head, init, seed)
    ensures !IsSpace(w) ==> AttachmentLine(head, init + [w], seed)
                            == AttachmentLine(head, init, seed) + Attachment(WordMs(w.o), CharCount(init, seed))
    ensures CharCount(init + [w], seed) == CountStep(w, CharCount(init, seed))
  {
    assert (init + [w])[..|init|] == init;
  }

  // ---------------------------------------------------------------- the source's loops

  /**
   * The word loop of the LyricsX branch: after the head, one `<ms,count>`
   * per non-space word from index 1 on, with the running character counter,
   * then the margin and duration tokens.
   */
  method RenderLyricsXLine(line: Line, head: string) returns (richSyncLine: string)
    requires line.l != []
    ensures richSyncLine == AttachmentsAfter(head, line)
  {
    var charCount;
    richSyncLine, charCount := RenderAttachments(line, head);
    richSyncLine := richSyncLine + Attachment(MarginMs(line), charCount);
    richSyncLine := richSyncLine + ("<" + IntToString(DurationMs(line)) + ">");
  }

  /**
   * The `for i in range(1, len(line['l']))` loop itself: the line and the
   * character counter after every word but the first.
   */
  method RenderAttachments(line: Line, head: string) returns (richSyncLine: string, charCount: nat)
    requires line.l != []
    ensures richSyncLine == AttachmentLine(head, line.l[1..], |line.l[0].c|)
    ensures charCount == CharCount(line.l[1..], |line.l[0].c|)
  {
    richSyncLine := head;
    var seed := |line.l[0].c|;
    charCount := seed;
    for i := 1 to |line.l|
      invariant richSyncLine == AttachmentLine(head, line.l[1..i], seed)
      invariant charCount == CharCount(line.l[1..i], seed)
    {
      var word := line.l[i];
      SliceSnoc(line.l, 1, i);
      AttachmentStep(head, line.l[1..i], word, line.l[1..i + 1], seed, richSyncLine, charCount);
      if word.c == " " {
        continue;
      }
      richSyncLine := richSyncLine + Attachment(WordMs(word.o), charCount);
      charCount := charCount + |word.c| + 1;
    }
    assert line.l[1..|line.l|] == line.l[1..];
  }

  /** One pass of that loop, in the terms of its two variables. */
  lemma AttachmentStep(head: string, init: seq<Word>, w: Word, next: seq<Word>, seed: nat, line: string, count: nat)
    requires next == init + [w]
    requires line == AttachmentLine(head, init, seed) && count == CharCount(init, seed)
    ensures IsSpace(w) ==> line == AttachmentLine(head, next, seed) && count == CharCount(next, seed)
    ensures !IsSpace(w) ==>
              line + Attachment(WordMs(w.o), count) == AttachmentLine(head, next, seed)
              && count + |w.c| + 1 == CharCount(next, seed)
  {
    AttachmentLineSnoc(head, init, w, seed);
  }

  /**
   * The word loop of the enhanced-LRC branch: the running line, opened by
   * `lead`, gains ` <MM:SS.FF> word` for each non-space word.
   */
  method RenderEnhancedLine(line: Line, lead: string) returns (richSyncLine: string)
    ensures richSyncLine == EnhancedLine(lead, line.ts, line.l)
  {
    richSyncLine := lead;
    var timeStart := line.ts;
    for k := 0 to |line.l|
      invariant richSyncLine == EnhancedLine(lead, timeStart, line.l[..k])
    {
      var word := line.l[k];
      TakeSnoc(line.l, k);
      EnhancedLineSnoc(lead, timeStart, line.l[..k], word);
      if word.c == " " {
        continue;
      }
      richSyncLine := richSyncLine + WordToken(timeStart, word);
    }
    assert line.l[..|line.l|] == line.l;
  }

  /**
   * The line loop of the LyricsX branch: each input line becomes its
   * stamped head plus attachment text; a line without words stops the loop
   * with the IndexError the source raises.
   */
  method RenderLyricsXLines(richSync: seq<Line>) returns (r: Result<seq<string>, RichSyncError>)
    ensures r == LyricsXLines(richSync)
  {
    var richSyncLrc: seq<string> := [];
    ghost var texts := seq(|richSync|, i requires 0 <= i < |richSync| => if richSync[i].l == [] then "" else LyricsXLine(richSync[i]));
    for n := 0 to |richSync|
      invariant AllHaveWords(richSync[..n])
      invariant richSyncLrc == texts[..n]
    {
      var line := richSync[n];
      var timeStart := line.ts;
      var richSyncLine := "[" + FormatTimestamp(timeStart, 3) + "]";
      richSyncLine := richSyncLine + (line.x + "\n[" + FormatTimestamp(timeStart, 3) + "][tt]<0,0>");
      if |line.l| == 0 {
        assert !AllHaveWords(richSync) by {
          assert richSync[n].l == [];
        }
        return Failure(EmptyWordList);
      }
      assert richSyncLine == LyricsXHead(line);
      richSyncLine := RenderLyricsXLine(line, richSyncLine);
      TakeSnoc(texts, n);
      TakeSnoc(richSync, n);
      richSyncLrc := richSyncLrc + [richSyncLine];
    }
    assert richSync[..|richSync|] == richSync;
    assert texts[..|richSync|] == texts;
    assert texts == LyricsXTexts(richSync);
    r := Success(richSyncLrc);
  }

  /**
   * The line loop of the enhanced-LRC branch: the running line starts as
   * `[00:00.00]`, gains the words of each input line, is appended, and is
   * restarted with the tag of that line's end.
   */
  method RenderEnhancedLines(richSync: seq<Line>) returns (richSyncLrc: seq<string>)
    ensures richSyncLrc == EnhancedLines(richSync)
  {
    richSyncLrc := [];
    var richSyncLine := "[" + FormatTimestamp(0.0) + "]";
    ghost var lines := EnhancedLines(richSync);
    for n := 0 to |richSync|
      invariant richSyncLrc == lines[..n]
      invariant n < |richSync| ==> richSyncLine == LeadTag(richSync, n)
    {
      var line := richSync[n];
      richSyncLine := RenderEnhancedLine(line, richSyncLine);
      TakeSnoc(lines, n);
      richSyncLrc := richSyncLrc + [richSyncLine];
      richSyncLine := "[" + FormatTimestamp(line.te) + "]";
    }
    assert lines[..|richSync|] == lines;
  }

  /**
   * `parse_rich_sync_lyrics(rich_sync_lyrics, use_lyrics_x)`: the lines of
   * the chosen format joined with newlines.
   */
  method ParseRichSyncLyrics(richSync: seq<Line>, useLyricsX: bool) returns (r: Result<string, RichSyncError>)
    ensures r == RichSyncLrc(richSync, useLyricsX)
  {
    var richSyncLrc: seq<string>;
    if useLyricsX {
      var lines := RenderLyricsXLines(richSync);
      if lines.Failure? {
        return Failure(lines.error);
      }
      richSyncLrc := lines.value;
    } else {
      richSyncLrc := RenderEnhancedLines(richSync);
    }
    r := Success(Join(richSyncLrc, "\n"));
  }
}

/** Properties of the rich-sync renderings. */
module RichSyncFacts {
  import opened Numerals
  import opened Timestamp
  import opened Text
  import opened RichSync

  // ---------------------------------------------------------------- reference readings, word by word from the front

  /** The tokens of `words` read from the front: each non-space word's token, in order. */
  function WordTokens(ts: real, words: seq<Word>): string
  {
    if words == [] then "" else WordPiece(ts, words[0]) + WordTokens(ts, words[1..])
  }

  /** The attachments of `words` read from the front: each non-space word carries the count reached before it. */
  function Attachments(words: seq<Word>, count: nat): string
  {
    if words == [] then ""
    else AttachmentPiece(words[0], count) + Attachments(words[1..], CountStep(words[0], count))
  }

  /** The characters `words` account for: length plus one for each non-space word. */
  function Width(words: seq<Word>): nat
  {
    if words == [] then 0 else (if IsSpace(words[0]) then 0 else |words[0].c| + 1) + Width(words[1..])
  }

  /** An enhanced-LRC line is its lead tag followed by the tokens of its non-space words in order. */
  lemma {:induction false} EnhancedLineTokens(lead: string, ts: real, words: seq<Word>)
    ensures EnhancedLine(lead, ts, words) == lead + WordTokens(ts, words)
    decreases |words|
  {
    if words != [] {
      var init, w := words[..|words| - 1], words[|words| - 1];
      assert words == init + [w];
      EnhancedLineTokens(lead, ts, init);
      WordTokensSnoc(ts, init, w);
      ConcatAssoc(lead, WordTokens(ts, init), WordPiece(ts, w));
    }
  }

  lemma {:induction false} WordTokensSnoc(ts: real, init: seq<Word>, w: Word)
    ensures WordTokens(ts, init + [w]) == WordTokens(ts, init) + WordPiece(ts, w)
    decreases |init|
  {
    if init == [] {
      assert WordTokens(ts, [w]) == WordPiece(ts, w) + WordTokens(ts, []);
    } else {
      assert (init + [w])[1..] == init[1..] + [w];
      WordTokensSnoc(ts, init[1..], w);
    }
  }

  lemma {:induction false} WidthSnoc(init: seq<Word>, w: Word)
    ensures Width(init + [w]) == Width(init) + (if IsSpace(w) then 0 else |w.c| + 1)
    decreases |init|
  {
    if init != [] {
      assert (init + [w])[1..] == init[1..] + [w];
      WidthSnoc(init[1..], w);
    }
  }

  /** The LyricsX character counter is the seed plus the width of the words passed. */
  lemma {:induction false} CharCountWidth(words: seq<Word>, seed: nat)
    ensures CharCount(words, seed) == seed + Width(words)
    decreases |words|
  {
    if words != [] {
      var init, w := words[..|words| - 1], words[|words| - 1];
      assert words == init + [w];
      CharCountWidth(init, seed);
      WidthSnoc(init, w);
    }
  }

  lemma {:induction false} AttachmentsSnoc(init: seq<Word>, w: Word, count: nat)
    ensures Attachments(init + [w], count) == Attachments(init, count) + AttachmentPiece(w, count + Width(init))
    decreases |init|
  {
    if init == [] {
      assert Attachments([w], count) == AttachmentPiece(w, count) + Attachments([], CountStep(w, count));
    } else {
      var w0, rest := init[0], init[1..];
      var next := CountStep(w0, count);
      assert (init + [w])[1..] == rest + [w];
      AttachmentsSnoc(rest, w, next);
      assert next + Width(rest) == count + Width(init);
      ConcatAssoc(AttachmentPiece(w0, count), Attachments(rest, next), AttachmentPiece(w, count + Width(init)));
    }
  }

  /** The LyricsX word tokens follow the head in order, each carrying the seed plus the width of the words before it. */
  lemma {:induction false} AttachmentLineReading(head: string, words: seq<Word>, seed: nat)
    ensures AttachmentLine(head, words, seed) == head + Attachments(words, seed)
    decreases |words|
  {
    if words != [] {
      var init, w := words[..|words| - 1], words[|words| - 1];
      assert words == init + [w];
      AttachmentLineReading(head, init, seed);
      CharCountWidth(init, seed);
      AttachmentsSnoc(init, w, seed);
      ConcatAssoc(head, Attachments(init, seed), AttachmentPiece(w, seed + Width(init)));
    }
  }

  // ---------------------------------------------------------------- space words

  /** The words that are not a single space, in order. */
  function NonSpace(words: seq<Word>): (r: seq<Word>)
    ensures |r| <= |words|
    ensures forall w | w in r :: w in words && !IsSpace(w)
    ensures forall w | w in words && !IsSpace(w) :: w in r
  {
    if words == [] then []
    else
      assert forall w | w in words :: w == words[0] || w in words[1..];
      if IsSpace(words[0]) then NonSpace(words[1..])
      else [words[0]] + NonSpace(words[1..])
  }

  /** Removing the space words keeps the order: it distributes over concatenation. */
  lemma {:induction false} NonSpaceAppend(a: seq<Word>, b: seq<Word>)
    ensures NonSpace(a + b) == NonSpace(a) + NonSpace(b)
    decreases |a|
  {
    if a != [] {
      assert (a + b)[0] == a[0];
      assert (a + b)[1..] == a[1..] + b;
      NonSpaceAppend(a[1..], b);
    } else {
      assert a + b == b;
    }
  }

  /** Space words leave no trace in the enhanced-LRC tokens, the LyricsX tokens or the counter. */
  lemma {:induction false} SpaceWordsInvisible(ts: real, words: seq<Word>, count: nat)
    ensures WordTokens(ts, words) == WordTokens(ts, NonSpace(words))
    ensures Attachments(words, count) == Attachments(NonSpace(words), count)
    ensures Width(words) == Width(NonSpace(words))
    decreases |words|
  {
    if words != [] {
      var w := words[0];
      SpaceWordsInvisible(ts, words[1..], CountStep(w, count));
      SpaceWordsInvisible(ts, words[1..], count);
      if !IsSpace(w) {
        assert ([w] + NonSpace(words[1..]))[0] == w;
        assert ([w] + NonSpace(words[1..]))[1..] == NonSpace(words[1..]);
      }
    }
  }

  // ---------------------------------------------------------------- whole lines

  /**
   * A LyricsX line reads: the stamped text and `[tt]<0,0>` head, one
   * `<ms,count>` per non-space word after the first, the margin token whose
   * count is the first word's length plus the width of the rest, and the
   * duration token.
   */
  lemma LyricsXLineReading(line: Line)
    requires line.l != []
    ensures var seed := |line.l[0].c|;
            LyricsXLine(line)
            == LyricsXHead(line) + Attachments(line.l[1..], seed)
               + Attachment(MarginMs(line), seed + Width(line.l[1..]))
               + ("<" + IntToString(DurationMs(line)) + ">")
  {
    var seed := |line.l[0].c|;
    AttachmentLineReading(LyricsXHead(line), line.l[1..], seed);
    CharCountWidth(line.l[1..], seed);
  }

  /** The first word of a LyricsX line contributes only its length: its offset is never rendered. */
  lemma FirstOffsetUnused(line: Line, o: real)
    requires line.l != []
    ensures var other := line.(l := [line.l[0].(o := o)] + line.l[1..]);
            LyricsXLine(other) == LyricsXLine(line)
  {
    var other := line.(l := [line.l[0].(o := o)] + line.l[1..]);
    assert other.l[1..] == line.l[1..];
    assert LyricsXHead(other) == LyricsXHead(line);
    assert MarginMs(other) == MarginMs(line) && DurationMs(other) == DurationMs(line);
  }

  /**
   * Enhanced LRC reads only the start and the words of each line and the
   * end of each line but the last (which opens the next output line).
   */
  lemma EnhancedLinesReads(a: seq<Line>, b: seq<Line>)
    requires |a| == |b|
    requires forall i :: 0 <= i < |a| ==> a[i].ts == b[i].ts && a[i].l == b[i].l
    requires forall i :: 0 <= i < |a| - 1 ==> a[i].te == b[i].te
    ensures EnhancedLines(a) == EnhancedLines(b)
  {
    forall i | 0 <= i < |a|
      ensures EnhancedLines(a)[i] == EnhancedLines(b)[i]
    {
      assert LeadTag(a, i) == LeadTag(b, i) by {
        if i > 0 {
          assert a[i - 1].te == b[i - 1].te;
        }
      }
    }
  }

  /** The end time of the last line is never rendered in enhanced LRC. */
  lemma LastEndUnused(lines: seq<Line>, te: real)
    requires lines != []
    ensures var last := |lines| - 1;
            EnhancedLrc(lines[..last] + [lines[last].(te := te)]) == EnhancedLrc(lines)
  {
    var last := |lines| - 1;
    var other := lines[..last] + [lines[last].(te := te)];
    assert forall i :: 0 <= i < last ==> other[i] == lines[i];
    EnhancedLinesReads(other, lines);
  }

  /** The first enhanced-LRC line opens with `[00:00.00]`. */
  lemma FirstLeadTag(lines: seq<Line>)
    requires lines != []
    ensures LeadTag(lines, 0) == "[00:00.00]"
  {
    ZeroTimestamp();
  }

  lemma ZeroTimestamp()
    ensures FormatTimestamp(0.0) == "00:00.00"
  {
    assert Pow10(2) == 100;
    assert Minutes(0.0) == 0;
    assert FloatMod(0.0, 60.0) == 0.0;
    assert SecondOfMinute(0.0) == 0;
    assert FloatMod(0.0, 100.0) == 0.0;
    assert Fraction(0.0, 100) == 0;
    assert NatToString(0) == "0";
    assert FormatInt(0, 2) == "00";
  }

  // ---------------------------------------------------------------- word times

  /**
   * The time in an enhanced-LRC word token is the word's absolute time
   * rounded to hundredths (within 5 ms of it), and its fields read back to
   * exactly that rounded time.
   */
  lemma WordTimeRounded(ts: real, w: Word)
    ensures var t := RoundIn(ts + w.o, 100);
            ts + w.o - 0.005 <= t <= ts + w.o + 0.005
            && ReadBack(Minutes(t), SecondOfMinute(t), Fraction(t, 100), 100) == t
  {
    RoundInNearest(ts + w.o, 100);
    RoundedTimestampExact(ts + w.o, 100);
  }

  /** The milliseconds in a LyricsX word token are the word offset rounded half-even to whole milliseconds. */
  lemma WordMsRounded(o: real)
    ensures o * 1000.0 - 0.5 <= WordMs(o) as real <= o * 1000.0 + 0.5
  {
    RoundedMilliseconds(o);
  }
}
