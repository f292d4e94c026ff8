/**
 * The older plugin variant, modules/musixmatch/interface.py: `search`
 * stores what it found in the `lyrics` cache under the id it returns, and
 * `get_track_lyrics` turns the stored subtitle body into embedded and
 * synced text. The calls into the API client are parameters here.
 */
module LegacyPlugin {
  import opened Wrappers
  import opened Text
  import opened Tags
  import opened Numerals
  import Plugin

  type TrackId = int

  /** A stored search result; `subtitleBody` is `None` when the key is missing or its value is null. */
  datatype StoredLyrics = StoredLyrics(subtitleBody: Option<string>)

  /** `get_track_by_isrc`'s result, of which only `commontrack_id` is read. */
  datatype IsrcTrack = IsrcTrack(commontrackId: TrackId)

  /** `get_lyrics_by_metadata`'s result, stored whole under its `subtitle_id`. */
  datatype MetadataTrack = MetadataTrack(subtitleId: TrackId, subtitleBody: Option<string>)

  /** `self.lyrics[lyrics_id]` for an id never stored (KeyError), or `lyrics['subtitle_body']` missing (KeyError, TypeError). */
  datatype LegacyError = UnknownId | MissingSubtitleBody

  /**
   * Lines 45-46 on one stored value: a falsy value gives neither text;
   * otherwise `embedded` is the body with every tag followed by a space
   * removed and `synced` the body with `"] "` replaced by `"]"`.
   */
  function LyricsOf(stored: Option<StoredLyrics>): Result<Plugin.LyricsInfo, LegacyError>
  {
    match stored
    case None => Success(Plugin.LyricsInfo(None, None))
    case Some(entry) =>
      if entry.subtitleBody.None? then Failure(MissingSubtitleBody)
      else
        var body := entry.subtitleBody.value;
        Success(Plugin.LyricsInfo(Some(StripTags(body, " ")), Some(ReplaceAll(body, "] ", "]"))))
  }

  class ModuleInterface {
    /** `self.lyrics`: what each search found, by the id it returned; `None` for a falsy value. */
    var lyrics: map<TrackId, Option<StoredLyrics>>

    constructor()
      ensures lyrics == map[]
    {
      lyrics := map[];
    }

    /**
     * `search`: the ISRC lookup first (when the tags carry an ISRC), storing
     * the subtitle fetched for its `commontrack_id`; otherwise the metadata
     * lookup, storing its result under its `subtitle_id`. `isrcTrack`,
     * `subtitle` and `metadata` are what the three API calls return.
     */
    method Search(hasIsrc: bool, isrcTrack: Option<IsrcTrack>, subtitle: Option<StoredLyrics>, metadata: Option<MetadataTrack>)
      returns (results: seq<TrackId>)
      modifies this
      ensures hasIsrc && isrcTrack.Some? ==>
                var id := isrcTrack.value.commontrackId;
                results == [id] && lyrics == old(lyrics)[id := subtitle]
      ensures !(hasIsrc && isrcTrack.Some?) && metadata.Some? ==>
                var id := metadata.value.subtitleId;
                results == [id] && lyrics == old(lyrics)[id := Some(StoredLyrics(metadata.value.subtitleBody))]
      ensures !(hasIsrc && isrcTrack.Some?) && metadata.None? ==> results == [] && lyrics == old(lyrics)
      ensures forall id :: id in results ==> GetTrackLyrics(id) != Failure(UnknownId)
    {
      var track: Option<IsrcTrack> := None;
      var found := false;
      var trackId: TrackId := 0;
      if hasIsrc {
        track := isrcTrack;
        if track.Some? {
          trackId := track.value.commontrackId;
          lyrics := lyrics[trackId := subtitle];
          found := true;
        }
      }
      if !found {
        if metadata.Some? {
          trackId := metadata.value.subtitleId;
          lyrics := lyrics[trackId := Some(StoredLyrics(metadata.value.subtitleBody))];
          found := true;
        }
      }
      if found {
        return [trackId];
      }
      return [];
    }

    /** `get_track_lyrics(lyrics_id)`: the texts made from the value stored under `lyrics_id`. */
    function GetTrackLyrics(lyricsId: TrackId): Result<Plugin.LyricsInfo, LegacyError>
      reads this
    {
      if lyricsId !in lyrics then Failure(UnknownId) else LyricsOf(lyrics[lyricsId])
    }
  }

  /**
   * For a stored body, `synced` deletes exactly the spaces right after a `]`
   * and `embedded` is the body with its space-trailed tags removed; a lyrics
   * value that is falsy gives neither.
   */
  lemma StoredBodyTexts(stored: Option<StoredLyrics>)
    ensures stored.None? ==> LyricsOf(stored) == Success(Plugin.LyricsInfo(None, None))
    ensures stored.Some? && stored.value.subtitleBody.None? ==> LyricsOf(stored) == Failure(MissingSubtitleBody)
    ensures stored.Some? && stored.value.subtitleBody.Some? ==>
              var body := stored.value.subtitleBody.value;
              LyricsOf(stored) == Success(Plugin.LyricsInfo(Some(StripTags(body, " ")), Some(DropSpacesAfterBrackets(body))))
  {
    if stored.Some? && stored.value.subtitleBody.Some? {
      ReplaceBracketSpace(stored.value.subtitleBody.value);
    }
  }

  /**
   * `get_track_lyrics(lyrics_id)` on the cache: an id never stored is the
   * KeyError, and a stored entry gives the texts `StoredBodyTexts` describes.
   */
  lemma StoredLookup(m: ModuleInterface, id: TrackId)
    ensures id !in m.lyrics <==> m.GetTrackLyrics(id) == Failure(UnknownId)
    ensures id in m.lyrics && m.lyrics[id].None? ==> m.GetTrackLyrics(id) == Success(Plugin.LyricsInfo(None, None))
    ensures id in m.lyrics && m.lyrics[id].Some? && m.lyrics[id].value.subtitleBody.None? ==>
              m.GetTrackLyrics(id) == Failure(MissingSubtitleBody)
    ensures id in m.lyrics && m.lyrics[id].Some? && m.lyrics[id].value.subtitleBody.Some? ==>
              var body := m.lyrics[id].value.subtitleBody.value;
              m.GetTrackLyrics(id) == Success(Plugin.LyricsInfo(Some(StripTags(body, " ")), Some(DropSpacesAfterBrackets(body))))
  {
    if id in m.lyrics {
      StoredBodyTexts(m.lyrics[id]);
    }
  }

  /**
   * A stored line `[mm:ss.ff] text` (text without a `[`) embeds as the bare
   * text; a tag that no space follows stays in the embedded text.
   */
  lemma LegacyLineTexts(mm: string, ss: string, ff: string, text: string)
    requires |mm| > 0 && |ss| > 0 && |ff| > 0 && AllDigits(mm) && AllDigits(ss) && AllDigits(ff)
    requires '[' !in text
    ensures var body := "[" + mm + ":" + ss + "." + ff + "]" + " " + text;
            LyricsOf(Some(StoredLyrics(Some(body)))).Success?
            && LyricsOf(Some(StoredLyrics(Some(body)))).value.embedded == Some(text)
    ensures var body := "[" + mm + ":" + ss + "." + ff + "]" + text;
            (text == [] || text[0] != ' ') ==>
              LyricsOf(Some(StoredLyrics(Some(body)))).Success?
              && LyricsOf(Some(StoredLyrics(Some(body)))).value.embedded == Some(body)
  {
    LrcLineStripped(mm, ss, ff, " ", text);
    if text == [] || text[0] != ' ' {
      TagWithoutSpaceKept(mm, ss, ff, text);
    }
  }
}
