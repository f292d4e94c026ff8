/**
 * The `ModuleInterface` of interface.py: the user-token rotation over the
 * stored token list and the choice of lyrics that `get_track_lyrics` makes
 * from a search result.
 */
module Plugin {
  import opened Wrappers
  import opened Text
  import opened Tags
  import opened RichSync

  // ---------------------------------------------------------------- token rotation

  /** The API client; of its state only the token it sends with each request is modelled. */
  class Musixmatch {
    var userToken: string

    constructor(userToken: string)
      ensures this.userToken == userToken
    {
      this.userToken := userToken;
    }
  }

  /** The rotation state: the token list, the index into it, and the token the client sends. */
  datatype Rotation = Rotation(tokens: seq<string>, index: nat, token: string)

  /** The index stays inside the list. */
  predicate InRange(r: Rotation)
  {
    r.index < |r.tokens|
  }

  /** The client sends the token the index points at. */
  predicate Synced(r: Rotation)
  {
    InRange(r) && r.token == r.tokens[r.index]
  }

  /** `set_next_user_token` as written: step the index, or wrap it to 0 without touching the token. */
  function NextToken(r: Rotation): Rotation
  {
    if r.index < |r.tokens| - 1 then
      r.(index := r.index + 1, token := r.tokens[r.index + 1])
    else
      r.(index := 0)
  }

  /** `set_next_user_token` as evidently intended: the wrap also selects the first token. */
  function NextTokenFixed(r: Rotation): Rotation
    requires |r.tokens| > 0
  {
    if r.index < |r.tokens| - 1 then
      r.(index := r.index + 1, token := r.tokens[r.index + 1])
    else
      r.(index := 0, token := r.tokens[0])
  }

  class ModuleInterface {
    var musixmatch: Musixmatch
    var userTokens: seq<string>
    var userTokenIndex: nat
    var forceLyricsXFormatting: bool

    function State(): Rotation
      reads this, musixmatch
    {
      Rotation(userTokens, userTokenIndex, musixmatch.userToken)
    }

    /**
     * The end of `__init__`: the token list is kept, the index starts at 0
     * and the client is given the first token.
     */
    constructor(userTokens: seq<string>, forceLyricsXFormatting: bool)
      requires userTokens != []
      ensures this.userTokens == userTokens && userTokenIndex == 0
      ensures this.forceLyricsXFormatting == forceLyricsXFormatting
      ensures fresh(musixmatch) && musixmatch.userToken == userTokens[0]
      ensures Synced(State())
    {
      musixmatch := new Musixmatch(userTokens[0]);
      this.userTokens := userTokens;
      userTokenIndex := 0;
      this.forceLyricsXFormatting := forceLyricsXFormatting;
    }

    /** `set_next_user_token`, as written. */
    method SetNextUserToken()
      modifies this, musixmatch
      ensures musixmatch == old(musixmatch) && forceLyricsXFormatting == old(forceLyricsXFormatting)
      ensures State() == NextToken(old(State()))
    {
      if userTokenIndex < |userTokens| - 1 {
        userTokenIndex := userTokenIndex + 1;
        musixmatch.userToken := userTokens[userTokenIndex];
      } else {
        userTokenIndex := 0;
      }
    }

    /** `set_next_user_token` with the wrap selecting the first token, which keeps the client in step. */
    method SetNextUserTokenFixed()
      requires userTokens != []
      modifies this, musixmatch
      ensures musixmatch == old(musixmatch) && forceLyricsXFormatting == old(forceLyricsXFormatting)
      ensures State() == NextTokenFixed(old(State()))
      ensures Synced(State())
    {
      if userTokenIndex < |userTokens| - 1 {
        userTokenIndex := userTokenIndex + 1;
      } else {
        userTokenIndex := 0;
      }
      musixmatch.userToken := userTokens[userTokenIndex];
    }

    /**
     * `get_track_lyrics` on this object: the choice `TrackLyrics` makes,
     * rendered in the format the object's flag selects. Only the LyricsX
     * format can fail, so without the flag the call always succeeds.
     */
    method GetTrackLyrics(lyrics: Option<LyricsPayload>) returns (r: Result<LyricsInfo, RichSyncError>)
      ensures r == TrackLyrics(lyrics, forceLyricsXFormatting)
      ensures r.Failure? ==> forceLyricsXFormatting
    {
      TrackLyricsFails(lyrics, forceLyricsXFormatting);
      r := TrackLyrics(lyrics, forceLyricsXFormatting);
    }
  }

  /** Both variants keep the index in range and never change the token list. */
  lemma NextInRange(r: Rotation)
    requires InRange(r)
    ensures InRange(NextToken(r)) && NextToken(r).tokens == r.tokens
    ensures InRange(NextTokenFixed(r)) && NextTokenFixed(r).tokens == r.tokens
  {
  }

  /** The corrected rotation leaves the client on the indexed token, from any state. */
  lemma NextKeepsSynced(r: Rotation)
    requires |r.tokens| > 0
    ensures Synced(NextTokenFixed(r))
  {
  }

  /** As written, the index advances by one and selects its token, except at the end, where the token is kept. */
  lemma NextTokenSteps(r: Rotation)
    requires InRange(r)
    ensures r.index < |r.tokens| - 1 ==> NextToken(r).index == r.index + 1 && Synced(NextToken(r))
    ensures r.index == |r.tokens| - 1 ==> NextToken(r).index == 0 && NextToken(r).token == r.token
  {
  }

  /** `k` rotation steps from `r`. */
  function Rotate(r: Rotation, k: nat): (s: Rotation)
    requires |r.tokens| > 0
    ensures s.tokens == r.tokens
  {
    if k == 0 then r else NextTokenFixed(Rotate(r, k - 1))
  }

  /**
   * Starting from the first token, the corrected rotation sends each token
   * of the list in turn and comes back to the first after a full round.
   */
  lemma {:induction false} RotationVisitsAll(tokens: seq<string>, k: nat)
    requires tokens != [] && k <= |tokens|
    ensures var s := Rotate(Rotation(tokens, 0, tokens[0]), k);
            Synced(s) && s.index == (if k == |tokens| then 0 else k)
  {
    if k > 0 {
      RotationVisitsAll(tokens, k - 1);
    }
  }

  /**
   * The quirk of the code as written: with two tokens, after the wrap the
   * index is back at the first token while the client still sends the second.
   */
  lemma WrapKeepsStaleToken()
    ensures var r := Rotation(["a", "b"], 1, "b");
            Synced(r) && !Synced(NextToken(r)) && NextToken(r) == Rotation(["a", "b"], 0, "b")
  {
  }

  // ---------------------------------------------------------------- get_track_lyrics

  /**
   * The lyrics a search attached to its result. A body is `None` when the
   * key is missing or its value is falsy, or `Some("")`, which `Present`
   * reads as falsy; the rich-sync body is given already parsed from its
   * JSON text.
   */
  datatype LyricsPayload = LyricsPayload(richsyncBody: Option<seq<Line>>, subtitleBody: Option<string>, lyricsBody: Option<string>)

  /** `LyricsInfo(embedded=…, synced=…)`. */
  datatype LyricsInfo = LyricsInfo(embedded: Option<string>, synced: Option<string>)

  /** A Python string value that is present and truthy (non-empty). */
  predicate Present(body: Option<string>)
  {
    body.Some? && body.value != ""
  }

  /** `[line['x'] for line in rich_sync_lyrics]` */
  function LineTexts(lines: seq<Line>): seq<string>
  {
    seq(|lines|, i requires 0 <= i < |lines| => lines[i].x)
  }

  /**
   * `get_track_lyrics(lyrics_id, lyrics)`, with `self.force_lyrics_x_formatting`
   * passed as `forceLyricsX`: rich sync first, then the subtitle, then the
   * plain lyrics; the error is the one rendering the rich sync raises.
   */
  function TrackLyrics(lyrics: Option<LyricsPayload>, forceLyricsX: bool): (r: Result<LyricsInfo, RichSyncError>)
  {
    match lyrics
    case None => Success(LyricsInfo(None, None))
    case Some(p) =>
      if p.richsyncBody.Some? then
        var lines := p.richsyncBody.value;
        var synced :- RichSyncLrc(lines, forceLyricsX);
        Success(LyricsInfo(Some(Join(LineTexts(lines), "\n")), Some(synced)))
      else if Present(p.subtitleBody) then
        var synced := ReplaceAll(p.subtitleBody.value, "] ", "]");
        Success(LyricsInfo(Some(StripTags(synced, "")), Some(synced)))
      else if Present(p.lyricsBody) then
        Success(LyricsInfo(Some(p.lyricsBody.value), None))
      else
        Success(LyricsInfo(None, None))
  }

  /** The rich-sync body wins: `synced` is its rendering and `embedded` its line texts, one per output line. */
  lemma RichSyncChosen(p: LyricsPayload, forceLyricsX: bool)
    requires p.richsyncBody.Some?
    ensures var lines := p.richsyncBody.value;
            var r := TrackLyrics(Some(p), forceLyricsX);
            (r.Success? <==> RichSyncLrc(lines, forceLyricsX).Success?)
            && (r.Success? ==> r.value.synced == Some(RichSyncLrc(lines, forceLyricsX).value))
            && (r.Success? ==> r.value.embedded == Some(Join(LineTexts(lines), "\n")))
            && (r.Success? && lines != [] && (forall i :: 0 <= i < |lines| ==> '\n' !in lines[i].x)
                ==> Split(r.value.embedded.value, '\n') == LineTexts(lines))
  {
    var lines := p.richsyncBody.value;
    if lines != [] && (forall i :: 0 <= i < |lines| ==> '\n' !in lines[i].x) {
      SplitJoin(LineTexts(lines), '\n');
    }
  }

  /** Only a rich-sync body rendered in the LyricsX format, with a line without words, fails. */
  lemma TrackLyricsFails(lyrics: Option<LyricsPayload>, forceLyricsX: bool)
    ensures TrackLyrics(lyrics, forceLyricsX).Failure? <==>
              lyrics.Some? && lyrics.value.richsyncBody.Some? && forceLyricsX
              && exists i :: 0 <= i < |lyrics.value.richsyncBody.value| && lyrics.value.richsyncBody.value[i].l == []
  {
  }

  /**
   * Without rich sync, a subtitle body gives `synced`: the body with every
   * space right after a `]` deleted, and `embedded`: that text with its
   * timestamp tags removed.
   */
  lemma SubtitleChosen(p: LyricsPayload, forceLyricsX: bool)
    requires p.richsyncBody.None? && Present(p.subtitleBody)
    ensures var synced := DropSpacesAfterBrackets(p.subtitleBody.value);
            TrackLyrics(Some(p), forceLyricsX) == Success(LyricsInfo(Some(StripTags(synced, "")), Some(synced)))
  {
    ReplaceBracketSpace(p.subtitleBody.value);
  }

  /** Plain lyrics come last and give only `embedded`; with nothing usable both are `None`. */
  lemma PlainLyricsChosen(lyrics: Option<LyricsPayload>, forceLyricsX: bool)
    ensures lyrics.None? ==> TrackLyrics(lyrics, forceLyricsX) == Success(LyricsInfo(None, None))
    ensures lyrics.Some? && lyrics.value.richsyncBody.None? && !Present(lyrics.value.subtitleBody) ==>
              TrackLyrics(lyrics, forceLyricsX)
              == Success(if Present(lyrics.value.lyricsBody) then LyricsInfo(Some(lyrics.value.lyricsBody.value), None)
                         else LyricsInfo(None, None))
  {
  }
}
