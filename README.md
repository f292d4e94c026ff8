# Musixmatch lyrics plugin: a Dafny model

This project models the lyrics-formatting core of the Musixmatch plugin for
OrpheusDL, and proves properties of that model:

- `format_timestamp` renders a number of seconds as `MM:SS.F…`.
- `parse_rich_sync_lyrics` turns word-timed "rich sync" lines into either
  enhanced-LRC text or LyricsX attachment text.
- `ModuleInterface` rotates through its list of user tokens.
- `get_track_lyrics` chooses the embedded and synced lyrics from what a
  search found.
- The older plugin variant in `modules/musixmatch/interface.py` keeps a
  `lyrics` cache. `search` fills it, and `get_track_lyrics` turns the stored
  subtitle body into the two texts.

Layout, one module per file:

- `wrappers.dfy`: Option and Result.
- `numerals.dfy`: Python's `str(n)` and `format(n, '0wd')`.
- `timestamp.dfy`: `format_timestamp`, and Python's `round` and `int` on exact values.
- `text.dfy`: `'\n'.join`, `split`, and `str.replace`.
- `tags.dfy`: the `re.sub` that removes timestamp tags.
- `rich_sync.dfy`: module `RichSync` holds the rendering loops and the functions that specify them. Module `RichSyncFacts` holds what is proved about those functions.
- `plugin.dfy`: token rotation and `get_track_lyrics`.
- `legacy_plugin.dfy`: the older variant.

The loops of `parse_rich_sync_lyrics` are written as methods, one method per
loop. Each is proved to return exactly what a specification function defines.
The lemmas in `RichSyncFacts` then state what those functions produce.

The token rotation mutates an object, so it is a class. That class has the
token list, the index and the API client's token as fields.

Two details of the code are easy to misread, and the model follows the code:

- `int(...)` in the LyricsX tokens truncates toward zero. It is not a floor.
- The `.` in the tag pattern is an unescaped regex dot. It matches any character except a newline, so a literal period is not required.

## Model

| member | source | states |
|---|---|---|
| Numerals.NatToStringDigits | interface.py:26-27 | `str(n)` of a natural number is a non-empty digit string that denotes `n`, with no leading zero |
| Numerals.IntToStringDigits | interface.py:61 | `str(n)` of any integer denotes `n`, with a leading `-` exactly when `n` is negative, and its digits have no leading zero (a non-negative `n` gives `"0"` only for 0) |
| Numerals.ZeroPadDigits | interface.py:26-27 | zero padding keeps the value and the original digits at the end, and reaches the requested width |
| Numerals.FormatIntDigits | interface.py:26-27 | `format(n, '0wd')` denotes `n`, is at least `w` characters long, carries a sign only for negative `n`, and when longer than `w` has no leading zero after the sign |
| Numerals.NatToStringLength | interface.py:26-27 | a number below 10^w has a numeral of at most `w` digits |
| Numerals.DigitsValueBound | interface.py:26-27 | a numeral of `w` digits denotes a number below 10^w |
| Timestamp.FloatMod | interface.py:26-27 | Python's float `%` with a positive divisor gives a remainder in `[0, m)`, and `x` is `m * floor(x / m)` plus that remainder |
| Timestamp.MinuteFields | interface.py:26 | the seconds field lies in 0..59, and minutes * 60 + seconds is the whole number of seconds |
| Timestamp.FractionFields | interface.py:25-27 | the fraction field lies in 0..10^d - 1 and completes the whole seconds to `floor(seconds * 10^d)` |
| Timestamp.TimestampShape | interface.py:23-27 | for `seconds >= 0`, `FormatTimestamp`'s output is `mm:ss.ff`: at least two minute digits with no leading zero beyond two, exactly two second digits below 60, and exactly `d` fraction digits (one when `d` is 0), each field denoting its value |
| Timestamp.TruncatedValue | interface.py:23-27 | the three fields of `FormatTimestamp` read back to `floor(seconds * 10^d) / 10^d` |
| Timestamp.Truncation | interface.py:23-27 | the value read back is at most `seconds` and less than one unit of 10^-d below it |
| Timestamp.RoundHalfEven | interface.py:59 | `round(y)` is within 0.5 of `y`, and a tie goes to the even integer |
| Timestamp.RoundInNearest | interface.py:88 | `round(x, d)` is a whole number of 10^-d units within half a unit of `x` |
| Timestamp.Trunc | interface.py:61 | `int(x)` truncates toward zero |
| Timestamp.RoundedTimestampExact | interface.py:88-91 | a time already rounded to 10^-d is rendered without loss: its fields read back to that time |
| Timestamp.RoundedMilliseconds | interface.py:59-61 | `int(round(o, 3) * 1000.0)` is `o` in milliseconds, rounded half-even |
| Text.SplitJoin | interface.py:205 | joining non-empty lists of parts that contain no newline with `'\n'`, then splitting on `'\n'`, gives the parts back |
| Text.ReplaceBracketSpace | interface.py:207 | `replace('] ', ']')` deletes exactly the spaces right after a `]` and keeps every other character in order |
| Tags.MatchTagCorrect | interface.py:208 | the scanner reports a match at `p` exactly when a tag `[digits:digits?digits]` plus the trailer starts there (`?` being any character but a newline), and it reports the longest such tag |
| Tags.StripFromNoBracket | interface.py:208 | text with no `[` passes through the tag removal unchanged |
| Tags.LrcLineStripped | interface.py:208 | `StripTags` turns a line `[mm:ss.ff]` + trailer + text, where the text has no `[`, into the bare text |
| Tags.TagWithoutSpaceKept | modules/musixmatch/interface.py:45 | `StripTags` with the pattern ending in a space leaves a tag alone when no space follows it |
| RichSync.EnhancedLineSnoc | interface.py:83-91 | one word extends an enhanced-LRC line by ` <MM:SS.FF> word`, or by nothing for a space word |
| RichSync.AttachmentLineSnoc | interface.py:51-63 | one word extends a LyricsX line by `<ms,count>`, where count is the counter before the word, and then adds its length plus one to the counter; a space word changes neither |
| RichSync.MarginMs | interface.py:68 | the margin token is the duration less 5 ms whenever the line lasts at least 5 ms or not at all; for a line shorter than 5 ms it is the duration less 4 or 5 ms |
| RichSync.LyricsX | interface.py:37-72 | an empty rich-sync list renders as the empty string |
| RichSync.EnhancedLines | interface.py:74-94 | enhanced LRC has exactly one output line per input line |
| RichSync.EnhancedLrc | interface.py:74-97 | `EnhancedLrc` of an empty list is the empty string: the `[00:00.00]` seed line is never appended |
| RichSync.RenderAttachments | interface.py:50-63 | the word loop from index 1 returns the line and the character counter that the specification defines |
| RichSync.RenderLyricsXLine | interface.py:50-70 | after the word loop, the margin and duration tokens are appended; the result is the LyricsX line the specification defines |
| RichSync.RenderEnhancedLine | interface.py:80-91 | the word loop of one enhanced-LRC line returns that line's specified text |
| RichSync.RenderLyricsXLines | interface.py:41-72 | the LyricsX line loop returns the specified line of every input line, or fails when some line has no words |
| RichSync.RenderEnhancedLines | interface.py:76-94 | the enhanced-LRC loop returns, for each input line, that line's words behind the tag that opens it: `[00:00.00]` for the first line, the previous line's end for each later one |
| RichSync.ParseRichSyncLyrics | interface.py:30-97 | the rendered text is `RichSyncLrc`: the joined output of the chosen format, or the error a line without words raises in the LyricsX format |
| RichSyncFacts.EnhancedLineTokens | interface.py:83-93 | an enhanced-LRC line is its lead tag followed by the tokens of its words, in order |
| RichSyncFacts.CharCountWidth | interface.py:50-63 | the final counter is the length of word 0 plus, for each non-space word after it, its length plus one |
| RichSyncFacts.AttachmentLineReading | interface.py:51-63 | the LyricsX attachment is the head followed by one token per non-space word, in order |
| RichSyncFacts.NonSpace | interface.py:53-54 | removing space words keeps exactly the non-space words of the input, and no longer list |
| RichSyncFacts.NonSpaceAppend | interface.py:53-54 | removing space words keeps the order: it distributes over concatenation |
| RichSyncFacts.SpaceWordsInvisible | interface.py:53-54 | removing space words changes neither format's word tokens (the enhanced-LRC tokens and the LyricsX attachments from word 1 on) nor the counter's growth `Width`; in LyricsX, word 0 is counted whatever it is and is never removed |
| RichSyncFacts.LyricsXLineReading | interface.py:41-72 | a LyricsX line is the head, the word tokens, the margin token carrying the final count, and the duration token |
| RichSyncFacts.FirstOffsetUnused | interface.py:50-51 | the offset of word 0 never appears in a LyricsX line; only its length does |
| RichSyncFacts.EnhancedLinesReads | interface.py:78-94 | enhanced LRC depends only on each line's start and words, and on the end of every line except the last |
| RichSyncFacts.LastEndUnused | interface.py:94-97 | the end time of the last line never appears in the enhanced-LRC text |
| RichSyncFacts.FirstLeadTag | interface.py:76 | the first enhanced-LRC line opens with `[00:00.00]` |
| RichSyncFacts.ZeroTimestamp | interface.py:76 | `format_timestamp(0.0)` is `00:00.00` |
| RichSyncFacts.WordTimeRounded | interface.py:88-91 | the time in a word token is within 5 ms of the word's absolute time, and its fields read back to exactly the rounded time |
| RichSyncFacts.WordMsRounded | interface.py:59-61 | the milliseconds in a LyricsX token are within half a millisecond of the word's offset |
| Plugin.ModuleInterface.constructor | interface.py:125-127 | the token list is kept, the index starts at 0, and the client sends the first token |
| Plugin.ModuleInterface.SetNextUserToken | interface.py:129-135 | as written: the index advances and the client takes that token, or at the end of the list the index wraps to 0 and the client's token is left alone |
| Plugin.ModuleInterface.SetNextUserTokenFixed | interface.py:129-135 | corrected: the wrap also gives the client the first token, so the client keeps sending the token the index points at |
| Plugin.NextInRange | interface.py:131-135 | both variants keep the index inside the list and never change the list |
| Plugin.NextKeepsSynced | interface.py:131-135 | from any state with a non-empty list, the corrected step leaves the client on the token the index points at |
| Plugin.NextTokenSteps | interface.py:131-135 | as written, a step before the end selects the next token, and the step at the end keeps the old token |
| Plugin.RotationVisitsAll | interface.py:129-135 | starting from the first token, the corrected rotation sends every token in turn and returns to the first after a full round |
| Plugin.WrapKeepsStaleToken | interface.py:134-135 | with tokens `a` and `b` at `b`, the step as written points the index at `a` while the client still sends `b` |
| Plugin.ModuleInterface.GetTrackLyrics | interface.py:198-215 | `get_track_lyrics` renders with the object's own `force_lyrics_x_formatting` flag, changes nothing, and can fail only when that flag is set |
| Plugin.RichSyncChosen | interface.py:200-205 | in `TrackLyrics`, a rich-sync body wins: `synced` is its rendering, and `embedded` is its line texts joined by newlines, which split back into those texts when the list is non-empty and no text contains a newline |
| Plugin.TrackLyricsFails | interface.py:198-215 | `TrackLyrics` (`get_track_lyrics`) fails exactly when a rich-sync body is rendered as LyricsX and one of its lines has no words |
| Plugin.SubtitleChosen | interface.py:206-208 | without rich sync, a subtitle body gives `synced` (the body with the spaces after each `]` deleted) and `embedded` (that text minus its timestamp tags) |
| Plugin.PlainLyricsChosen | interface.py:209-215 | the plain lyrics come last and give only `embedded`; with nothing usable both are `None` |
| LegacyPlugin.ModuleInterface.constructor | modules/musixmatch/interface.py:22 | the lyrics cache starts empty |
| LegacyPlugin.ModuleInterface.Search | modules/musixmatch/interface.py:24-39 | an ISRC hit caches the fetched subtitle under its `commontrack_id`; otherwise a metadata hit caches the track under its `subtitle_id`; the one id returned is then known to `get_track_lyrics`, and every other cache entry is unchanged |
| LegacyPlugin.StoredBodyTexts | modules/musixmatch/interface.py:41-47 | in `LyricsOf`, a falsy cached value gives both texts as `None`; a missing body is an error; otherwise `synced` deletes the spaces after each `]` and `embedded` removes each tag that a space follows |
| LegacyPlugin.StoredLookup | modules/musixmatch/interface.py:41-47 | `GetTrackLyrics(id)` is `UnknownId` exactly when no entry is stored under `id`; otherwise it is `LyricsOf` of that entry: `None`/`None` for a falsy entry, `MissingSubtitleBody` for a missing body, and else the space deletion and the space-trailed tag removal |
| LegacyPlugin.LegacyLineTexts | modules/musixmatch/interface.py:45 | a cached line `[mm:ss.ff] text` embeds as the bare text, but a tag that no space follows stays in the embedded text |

## Left out

- Floating point: times are exact reals. Binary rounding error is not modelled, nor its effect on `round` ties and on the 5 ms margin.
- RoundedTimestampExact and WordTimeRounded hold for exact reals only. In binary floating point, `seconds * 100` can land just below a whole number, and the truncated fraction field then loses a unit. For example, `0.29 * 100` is `28.999999999999996` in IEEE-754 arithmetic, so `format_timestamp(round(0.29, 2))` renders `00:00.28`. The model renders `00:00.29`.
- RoundedMilliseconds, WordMsRounded, DurationMs and MarginMs hold for exact reals only. The LyricsX tokens multiply by `1000.0` and truncate with `int`, so a product that lands just below a whole number loses a millisecond. For example, `round(1.001, 3) * 1000.0` is `1000.9999999999999` in IEEE-754 arithmetic, so a word at offset `1.001` gets the token `<1000,n>`, where the model writes `<1001,n>`. In the same way, a line with `ts` 0 and `te` `1.001` gets the duration token `<1000>` in Python and `<1001>` in the model.
- `json.loads` of `richsync_body`: the body is given already parsed into lines. Malformed JSON and missing keys (`ts`, `te`, `x`, `l`, `c`, `o`) are not modelled.
- `Plugin.ModuleInterface.constructor`: requires a non-empty token list. The source indexes `user_tokens[0]` and raises IndexError when the list is empty.
- The loop in `__init__` that fetches tokens until a captcha error is network I/O. The constructor receives the resulting list.
- `search` in interface.py is left out, including its retry loop over tokens: every call in it goes to the network. Its result reaches `get_track_lyrics` as the `lyrics` parameter.
- `module_information`, the settings store, and the `logging` calls are left out.
- `Plugin.TrackLyrics`: `self.force_lyrics_x_formatting` is a parameter of this function; `Plugin.ModuleInterface.GetTrackLyrics` passes it the object's field. `lyrics_id` is left out because the code never reads it.
- The API client (`musixmatch_api.py`) is not part of this model. Its results are parameters of `LegacyPlugin.ModuleInterface.Search`, and of the client only the user token is a field.
- `LegacyPlugin.ModuleInterface.Search`: the three lookups are passed in as already-made results, so the order and number of network calls are not modelled.
- In the older variant, `get_lyrics_by_metadata` is called with two arguments, but the client's method takes three. The model takes that call's result as given.
- `LegacyPlugin.ModuleInterface.Search`: if the ISRC track has no `commontrack_id`, or the metadata result has no `subtitle_id`, Python raises KeyError. `LegacyPlugin.IsrcTrack` and `LegacyPlugin.MetadataTrack` take those keys as present.
- Python's truthiness is reduced to `Option`. In interface.py, a missing or falsy body is `None`, or else `Some("")`, which `Plugin.Present` treats as falsy. In the older variant, `LegacyPlugin.StoredLyrics.subtitleBody` is `None` only when `subtitle_body` is missing or null: an empty body is `Some("")` and gives two empty texts, because that code never tests the body's truthiness.

## Findings

| source | as written | input that shows it | evidently intended | confidence | as-written member | corrected member |
|---|---|---|---|---|---|---|
| interface.py:134-135 | at the end of the token list, `set_next_user_token` resets the index to 0 but does not give the client `user_tokens[0]` | tokens `["a", "b"]`, index 1, client token `"b"`: afterwards the index is 0 and the client still sends `"b"`, the token that just hit the captcha | the wrap selects the first token, as the step before it does | not executed; high | Plugin.ModuleInterface.SetNextUserToken, Plugin.WrapKeepsStaleToken | Plugin.ModuleInterface.SetNextUserTokenFixed, Plugin.NextKeepsSynced |
