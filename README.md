# Discord music bot: song queue and helpers

This project models the core of a Discord music bot in Dafny. Users queue YouTube videos with
`!play` and `!add`. The bot downloads or streams each song with yt-dlp and plays it in a voice
channel. Buttons and commands skip, shuffle, stop, repeat, loop, seek, remove, move and change
the volume and the equalizer.

The repository keeps four revisions of the bot. Each is modelled as its own state machine:

| module | revision | what distinguishes it |
|---|---|---|
| `OriginalBot` | index.js | bare URLs, `exec` download, float volume, no duplicate check |
| `BeforeFixBot` | index_optimized_backup_before_fix.js | metadata lookup, duplicate check, 4-hour cap, streaming flag |
| `BackupBot` | index_backup.js | download only, 1-hour cap, the download spawned inside `playNextInQueue` |
| `OptimizedBot` | index_optimized.js | `addingSongs` guard, repeat/loop, `originalPlaylist`, seek, volume, skip N, remove, move |

Each bot module follows the same pattern:

- a `datatype State` holds the bot's globals (`queue`, `currentSong`, `isProcessing`, the voice connection, the set of live yt-dlp children, and so on);
- a pure transition function describes each handler, and its `ensures` and the lemmas beside it state what the handler promises;
- a `class Bot` has the same globals as fields. Its methods update those fields step by step, as the JavaScript does, and each one is proved to end in `Snapshot() == Transition(old(Snapshot()), inputs)`;
- `Event`, `Step` and `Run` replay any sequence of handlers, and run lemmas show which invariants survive every sequence.

The pure helpers each get their own module:

- `Durations`: `parseDurationToSeconds`, `parseTimeToSeconds`, `formatSecondsToTime` and the `!seek` argument;
- `YouTubeUrls`: three variants of `cleanYouTubeUrl`, and `isValidYouTubeUrl`;
- `Mojibake`: `normalizeUTF8`;
- `Equalizer`: the equalizer settings and `generateAudioFilter`;
- `Favorites`: the per-user favorites store;
- `VideoInfo`: the metadata record built from yt-dlp's output, and the 30-minute cache;
- `VideoProbe`: the record of test_video_info.js;
- `PlaylistLines`: the JSON-lines filter of test_playlist.js;
- `RetryDelays`: the retry delays of test_retry_delays.js;
- `TempCleanup`: cleanup_temp.js.

`JsText` models the JavaScript string and number primitives these helpers rely on: `trim`, `split`, `padStart`, `Number()`, `parseInt` and `parseFloat`. The number readers accept decimal numerals with a fraction and an exponent, and `Infinity` with or without a sign. `Number()` also reads the `0x`, `0o` and `0b` forms, and `parseInt` reads `0x`. A numeric separator `_` makes `Number()` give `NaN`, as in JavaScript. A `JsNumber` is a finite real or a signed infinity, and `None` stands for `NaN`. `Sequences`, `Songs` and `Shuffle` hold the queue operations the revisions share.

Some things are parameters of the model:

- Asynchronous outcomes: whether joining the voice channel succeeds, a download's exit code, file size and timeout, the yt-dlp output text, the child's pid.
- The random numbers of the shuffle, given as the `picks` sequence.
- The clock.
- `decodeURIComponent` and `new URL`, as functions returning `Option`.

Each callback of a child process or of the audio player (`close`, `error`, `Idle`) is a separate event.

Where the prose design and the code disagree, the model follows the code. For example, test_playlist.js drops every line whose `JSON.parse` yields `null`, including the literal line `null`, not only the lines that fail to parse (`PlaylistLines.KeepItems`).

## Model

| member | source | states |
|---|---|---|
| `JsText.PadDigits` | index_optimized.js:305-314 | `padStart(2, '0')` on a numeral keeps it a numeral of the same value |
| `JsText.SplitJoin` | index_optimized.js:691-702 | `split` undoes `join` when no part holds the separator |
| `JsText.NumberOfNumeral` | index_optimized.js:694 | `Number` of a decimal numeral is its value |
| `JsText.ParseIntNumeral` | index_optimized.js:296-299 | `parseInt` of a decimal numeral is its value |
| `JsText.NumberOf` | index_optimized.js:287 | `Number(s)`, the coercion behind `isNaN`; its readings are stated by `NumberOfNumeral`, `ExponentLiteral`, `InfinityIsNumber`, `HexIsNumber`, `OctalIsNumber`, `BinaryIsNumber`, `SeparatorIsNaN` and `ClockTextIsNaN` |
| `JsText.ParseFloatOf` | index_optimized.js:2309 | `parseFloat(s)`; its readings are stated by `ExponentLiteral` and `InfinityIsNumber` |
| `JsText.ParseIntOf` | index_optimized.js:288 | `parseInt(s)` without a radix; its readings are stated by `ParseIntNumeral`, `ParseIntStopsAfterNumeral`, `ParseIntWithoutDigits` and `ParseIntHex` |
| `JsText.OctalIsNumber` | index_optimized.js:287 | `Number("0o17")` is 15 |
| `JsText.BinaryIsNumber` | index_optimized.js:287 | `Number("0b101")` is 5 |
| `JsText.SeparatorIsNaN` | index_optimized.js:287 | `Number("1_000")` is `NaN`: a separator is no part of a string numeral |
| `JsText.RejectedStays` | index_optimized.js:287 | once a prefix is not a number, no continuation makes the text one |
| `JsText.ExponentLiteral` | index_optimized.js:2309 | `Number` and `parseFloat` read `d e k` (k signed or not) as d scaled by 10 to the power k |
| `JsText.InfinityIsNumber` | index_optimized.js:287-288 | `Number` and `parseFloat` read `Infinity` as positive infinity, not `NaN` |
| `JsText.HexIsNumber` | index_optimized.js:287-288 | `Number("0x10")` is 16 |
| `JsText.ParseIntStopsAfterNumeral` | index_optimized.js:288 | `parseInt` stops at the first character that is not a digit and returns the numeral before it |
| `JsText.ParseIntWithoutDigits` | index_optimized.js:288 | `parseInt` of text starting with neither a space, a sign nor a digit is `NaN` |
| `JsText.ParseIntHex` | index_optimized.js:288 | `parseInt("0x10")` reads base 16 and gives 16 |
| `JsText.ClockTextIsNaN` | index_optimized.js:287-289 | `Number` of clock text containing ':' is NaN, so `parseTimeToSeconds` takes the split path |
| `JsText.TrimStart` | index_optimized.js:524 | drops exactly the leading JavaScript white space |
| `JsText.TrimEnd` | index_optimized.js:524 | drops exactly the trailing JavaScript white space |
| `Durations.ParseDurationToSeconds` | index_optimized.js:690-700 | `parseDurationToSeconds`; stated by `ParseHms`, `ParseMs`, `ParseOtherShapes` and `FormatThenParseDuration` |
| `Durations.FormatSecondsToTime` | index_optimized.js:305-314 | `formatSecondsToTime`; stated by `FormatThenParseTime` and `FormatThenParseDuration`, which read it back |
| `Durations.ParseTimeToSeconds` | index_optimized.js:283-302 | `parseTimeToSeconds`; stated by `FormatThenParseTime`, `SeekTimeWithExponent`, `SeekTimeHex` and `SeekTimeInfinity` |
| `Durations.SeekTarget` | index_optimized.js:2259-2274 | the `!seek` target; stated by `SeekWith`, `SeekForms` and `SeekTargetNonNegative` |
| `Durations.ParseHms` | index_optimized.js:691-702 | an `H:M:S` duration parses to `H*3600+M*60+S` seconds |
| `Durations.ParseMs` | index_optimized.js:691-702 | an `M:S` duration parses to `M*60+S` seconds |
| `Durations.ParseOtherShapes` | index_optimized.js:692-701 | empty text, `N/A` and any other number of fields give 0 |
| `Durations.FormatThenParseTime` | index_optimized.js:283-314 | `parseTimeToSeconds(formatSecondsToTime(n)) == n` for every n |
| `Durations.FormatThenParseDuration` | index_optimized.js:305-314 | `parseDurationToSeconds(formatSecondsToTime(n)) == n` for every n |
| `Durations.SeekWith` | index_optimized.js:2259-2274 | `+t` adds to the position, `-t` subtracts down to 0, a bare `t` is absolute |
| `Durations.SeekTimeWithExponent` | index_optimized.js:283-289 | `!seek 1e2` passes the `isNaN` test but `parseInt` stops at `e`, so the time is the digits before it |
| `Durations.SeekTimeHex` | index_optimized.js:283-289 | `!seek 0x10` is 16 seconds |
| `Durations.SeekTimeInfinity` | index_optimized.js:283-289 | `!seek Infinity` passes the `isNaN` test and `parseInt` gives `NaN` |
| `Durations.SeekForms` | index_optimized.js:2259-2274 | the three seek forms applied to a formatted time |
| `Durations.SeekTargetNonNegative` | index_optimized.js:2259-2274 | a seek target, when defined, is never negative |
| `Sequences.Shift` | index_optimized.js:886-889 | `queue.shift()`: the head is removed and the rest is kept, and an empty queue stays empty |
| `Sequences.RemoveAt` | index_optimized.js:2100-2127 | `splice(i, 1)` keeps the songs before i and moves the later ones down by one |
| `Sequences.InsertAt` | index_optimized.js:2128-2155 | `splice(i, 0, x)` places x at i and moves the later songs up by one |
| `Sequences.RemoveInserted` | index_optimized.js:2128-2155 | removing an inserted song restores the queue |
| `Sequences.InsertRemoved` | index_optimized.js:2128-2155 | reinserting a removed song at its index restores the queue |
| `Sequences.RemoveAtMultiset` | index_optimized.js:2100-2127 | removal takes exactly one copy of the song out |
| `Sequences.InsertAtMultiset` | index_optimized.js:2128-2155 | insertion adds exactly one copy |
| `Sequences.MoveLands` | index_optimized.js:2128-2155 | `!move a b` puts song a at position b |
| `Sequences.MoveKeepsOthers` | index_optimized.js:2128-2155 | the other songs keep their relative order |
| `Sequences.MovePermutes` | index_optimized.js:2128-2155 | moving is a permutation of the queue |
| `Sequences.MoveUndone` | index_optimized.js:2128-2155 | `!move b a` undoes `!move a b` |
| `Songs.FindUrl` | index_optimized.js:2119-2122 | the first index whose song has the URL, or none when no song does |
| `Songs.AppendIfAbsentUnique` | index_optimized.js:771-773 | adding to `originalPlaylist` only when absent keeps its URLs distinct |
| `Songs.RemoveAtUnique` | index_optimized.js:2100-2127 | removal keeps URLs distinct |
| `Songs.RemoveFirstWithUrlUnique` | index_optimized.js:2119-2122 | removing a URL from a queue with distinct URLs removes it entirely |
| `Songs.PermutationUnique` | index_optimized.js:2507-2512 | a permutation of a queue with distinct URLs has distinct URLs |
| `Songs.OccursOnce` | index_optimized.js:744-748 | in a queue with distinct URLs every song occurs once |
| `Shuffle.FisherYates` | index_optimized.js:2507-2512 | `shuffleQueue` for given random picks; stated by `FisherYatesPermutes` and carried out in place by `ShuffleQueue` |
| `Shuffle.Swap` | index_optimized.js:2510 | the destructuring swap exchanges two cells and nothing else |
| `Shuffle.SwapPermutes` | index_optimized.js:2510 | a swap is a permutation |
| `Shuffle.FisherYatesFromPermutes` | index_optimized.js:2507-2512 | the Fisher-Yates loop from any index yields a permutation of the same length |
| `Shuffle.FisherYatesPermutes` | index_optimized.js:2507-2512 | `shuffleQueue` yields a permutation of the queue |
| `Shuffle.ShuffleQueue` | index_optimized.js:2507-2512 | the in-place loop over the array leaves exactly the Fisher-Yates result for the given random picks |
| `Shuffle.ShuffleUpcomingKeepsHead` | index_optimized.js:1700-1706 | shuffling only the songs after the head keeps the head and permutes the queue |
| `Mojibake.NormalizeUtf8` | index_optimized.js:2592-2607 | `normalizeUTF8`; stated by `NormalizeIsRepairPass`, `NormalizeWithoutLead` and `NormalizeRepairsPair` |
| `Mojibake.Lookup` | index_optimized.js:2595-2604 | the table lookup finds a repair exactly when some entry's second character matches |
| `Mojibake.CharMapWellFormed` | index_optimized.js:2595-2599 | the replacement table's pairs all start with the lead character and are distinct |
| `Mojibake.LookupFinds` | index_optimized.js:2595-2599 | each broken pair is looked up to its own repaired character |
| `Mojibake.ReplaceEachIsPass` | index_optimized.js:2601-2604 | the sequence of `replace` calls equals one left-to-right repair pass |
| `Mojibake.NormalizeIsRepairPass` | index_optimized.js:2592-2607 | `normalizeUTF8` is one repair pass with its table |
| `Mojibake.NormalizeWithoutLead` | index_optimized.js:2592-2607 | text without the lead character is returned unchanged |
| `Mojibake.NormalizeRepairsPair` | index_optimized.js:2592-2607 | each broken pair in the text is replaced by its repaired character |
| `Mojibake.PairRepaired` | index_optimized.js:2601-2604 | a broken pair at the front becomes its repaired character, and the pass goes on after it |
| `YouTubeUrls.IsValidYouTubeUrl` | index_optimized.js:2587-2590 | `isValidYouTubeUrl`; stated by `ValidIffSomePrefix`, `WatchLinkValid` and `PlaylistLinkValid` |
| `YouTubeUrls.CleanBotUrl` | index_optimized.js:2550-2585 | the bot's `cleanYouTubeUrl`; stated by `BotTarget`, `BotVideoLinksValid`, `BotPlaylistLinkValid`, the three idempotence lemmas, `BotShortLink` and `BotLeavesOtherText` |
| `YouTubeUrls.CleanProbeUrl` | test_video_info.js:3-24 | the probe's `cleanYouTubeUrl`; stated by `ProbeTarget`, `ProbeKeepsOnlyVideo` and `ProbeShortLinkSettles` |
| `YouTubeUrls.CleanListProbeUrl` | test_playlist.js:10-38 | the playlist test's `cleanYouTubeUrl`; stated by `ListProbeTarget` and `ListProbeAgreesWithBot` |
| `YouTubeUrls.SearchParam` | index_optimized.js:2557-2558 | `searchParams.get` gives the first value of the name, or none when the name is absent |
| `YouTubeUrls.WatchLinkValid` | index_optimized.js:2587-2590 | a watch link is valid iff its id starts with an id character |
| `YouTubeUrls.PlaylistLinkValid` | index_optimized.js:2587-2590 | a playlist link is valid iff its list id starts with an id character |
| `YouTubeUrls.ValidIffSomePrefix` | index_optimized.js:2587-2590 | the validity regex holds iff the URL is a scheme, optional `www.`, a known path and an id character |
| `YouTubeUrls.StripBrackets` | index_optimized.js:2553 | the result has no square brackets and is no longer than the input |
| `YouTubeUrls.FindShortLink` | index_optimized.js:2573-2578 | the first `youtu.be/` followed by an 11-character id, or none |
| `YouTubeUrls.BotTarget` | index_optimized.js:2550-2585 | a decoding failure leaves the URL alone; canonical links carry an 11-character video id or a non-empty list |
| `YouTubeUrls.BotVideoLinksValid` | index_optimized.js:2550-2590 | every watch link the cleaner builds passes `isValidYouTubeUrl` |
| `YouTubeUrls.BotPlaylistLinkValid` | index_optimized.js:2550-2590 | a playlist link it builds is valid iff the list id starts with an id character |
| `YouTubeUrls.BotWatchIdempotent` | index_optimized.js:2550-2585 | cleaning a clean watch link changes nothing |
| `YouTubeUrls.BotWatchInListIdempotent` | index_optimized.js:2550-2585 | cleaning a clean watch-in-playlist link changes nothing |
| `YouTubeUrls.BotPlaylistIdempotent` | index_optimized.js:2550-2585 | cleaning a clean playlist link changes nothing |
| `YouTubeUrls.BotShortLink` | index_optimized.js:2573-2578 | a `youtu.be` link becomes the watch link of its first short id |
| `YouTubeUrls.BotLeavesOtherText` | index_optimized.js:2551-2580 | text naming neither a watch, playlist nor short link is returned as given |
| `YouTubeUrls.ProbeTarget` | test_video_info.js:3-24 | the probe cleaner keeps at most the video id, from the `youtu.be` path or the `v` parameter |
| `YouTubeUrls.ProbeKeepsOnlyVideo` | test_video_info.js:12-17 | a YouTube URL with a `v` parameter becomes the bare watch link |
| `YouTubeUrls.ProbeShortLinkSettles` | test_video_info.js:7-10 | a short link becomes a watch link, and cleaning that again changes nothing |
| `YouTubeUrls.ListProbeTarget` | test_playlist.js:10-38 | the playlist-test cleaner keeps `list` and `v` exactly when they are set and the host is YouTube's |
| `YouTubeUrls.ListProbeAgreesWithBot` | test_playlist.js:10-38 | on YouTube hosts with valid video ids it gives the bot cleaner's canonical form |
| `Equalizer.PresetOf` | index_optimized.js:478-488 | a preset exists exactly for the nine named presets |
| `Equalizer.PresetsInRange` | index_optimized.js:478-488 | every preset's gains lie in -10..10 and its speed in 0.5..2.0 |
| `Equalizer.BassCommand` | index_optimized.js:2284-2294 | `!bass n` sets the bass gain iff n is an integer in -10..10, clears the preset, and keeps the rest |
| `Equalizer.TrebleCommand` | index_optimized.js:2296-2306 | `!treble n` does the same for the treble gain |
| `Equalizer.SpeedCommand` | index_optimized.js:2308-2318 | `!speed v` sets the speed iff `parseFloat(v)` is a finite number in 0.5..2.0 |
| `Equalizer.SpeedWithExponent` | index_optimized.js:2308-2318 | `!speed 5e-1` sets the speed to 0.5 |
| `Equalizer.SpeedInfinityRefused` | index_optimized.js:2308-2318 | `!speed Infinity` is a number above the range and changes nothing |
| `Equalizer.ToLowerCase` | index_optimized.js:2321 | each upper-case ASCII letter and the Kelvin sign become lower case, and the result has the input's length |
| `Equalizer.KelvinSignMatchesRock` | index_optimized.js:2321 | `ROC` followed by the Kelvin sign lower-cases to `rock` and loads that preset |
| `Equalizer.NonAsciiNameRefused` | index_optimized.js:2320-2341 | a name with any other non-ASCII character matches no preset and changes nothing |
| `Equalizer.PresetCommand` | index_optimized.js:2320-2341 | a known preset name in any case loads its settings; any other name changes nothing |
| `Equalizer.InitialConsistent` | index_optimized.js:121-126 | the initial settings are in range |
| `Equalizer.CommandsKeepConsistent` | index_optimized.js:2284-2341 | every command keeps the settings in range |
| `Equalizer.PresetAnyCase` | index_optimized.js:2320-2341 | a preset name is recognised in any letter case |
| `Equalizer.FilterParts` | index_optimized.js:456-475 | at most three filters, and none exactly when all settings are neutral |
| `Equalizer.GenerateAudioFilter` | index_optimized.js:456-475 | `null` exactly when bass and treble are 0 and the speed is 1.0 |
| `Equalizer.PartsHaveNoComma` | index_optimized.js:456-475 | no filter contains the separating comma |
| `Equalizer.PartsPresent` | index_optimized.js:459-472 | each filter is present iff its setting is not neutral |
| `Equalizer.FilterChainReadsBack` | index_optimized.js:456-475 | splitting the joined chain on ',' gives back the individual filters |
| `Equalizer.NeutralPresetsGiveNoFilter` | index_optimized.js:478-488 | `classical` and `clear` give no filter at all |
| `Equalizer.PresetLookupAsWritten` | index_optimized.js:2320-2341 | the object lookup finds every named preset (and more; see Findings) |
| `Equalizer.PresetCommandAsWritten` | index_optimized.js:2320-2341 | the command as written copies whatever the lookup returned |
| `Equalizer.InheritedNameAccepted` | index_optimized.js:2320-2341 | `!preset constructor` is accepted as written and rejected by the corrected command |
| `Equalizer.AudioFilters.constructor` | index_optimized.js:121-126 | starts with the initial settings |
| `Equalizer.AudioFilters.SetBass` | index_optimized.js:2284-2294 | updates the fields as `BassCommand` and reports acceptance |
| `Equalizer.AudioFilters.SetTreble` | index_optimized.js:2296-2306 | updates the fields as `TrebleCommand` and reports acceptance |
| `Equalizer.AudioFilters.SetSpeed` | index_optimized.js:2308-2318 | updates the fields as `SpeedCommand` and reports acceptance |
| `Equalizer.AudioFilters.ApplyPreset` | index_optimized.js:2320-2341 | updates the fields as `PresetCommand`, accepted iff the name is a preset |
| `Favorites.AddTo` | index_optimized.js:240-262 | refused iff the URL is already a favorite, otherwise appended at the end |
| `Favorites.RemoveFrom` | index_optimized.js:265-274 | refused iff the position is outside 1..n, otherwise removes exactly that favorite |
| `Favorites.AddKeepsDistinct` | index_optimized.js:240-262 | favorites stay free of duplicate URLs and the added one is listed |
| `Favorites.AddTwiceRefused` | index_optimized.js:246-250 | adding the same song twice is refused the second time |
| `Favorites.RemoveKeepsDistinct` | index_optimized.js:265-274 | removal keeps URLs distinct and removes the URL entirely |
| `Favorites.AddThenRemoveLast` | index_optimized.js:240-274 | removing the last position after an add restores the list |
| `Favorites.PlayTarget` | index_optimized.js:2194-2210 | `!fav play n` picks favorite n iff n is within 1..count |
| `Favorites.Store.constructor` | index_optimized.js:216-227 | starts empty |
| `Favorites.Store.AddFavorite` | index_optimized.js:240-262 | adds to the user's list as `AddTo`, and leaves everything else alone |
| `Favorites.Store.AddCommand` | index_optimized.js:1810-1821 | with nothing playing nothing changes; otherwise adds the current song |
| `Favorites.Store.RemoveFavorite` | index_optimized.js:265-274 | removes as `RemoveFrom`, refusing an unknown user |
| `Favorites.Store.RemoveCommand` | index_optimized.js:2212-2224 | a non-number position is refused; otherwise removes as `RemoveFavorite` |
| `Favorites.Store.Clear` | index_optimized.js:2226-2237 | reports the count and empties the user's list when it had any |
| `VideoInfo.LineOr` | index_optimized.js:525-526 | `lines[i] \|\| fallback` |
| `VideoInfo.InfoFromLines` | index_optimized.js:524-540 | duration is line 1; long and streamed iff the duration parses above the limits |
| `VideoInfo.OptimizedInfo` | index_optimized.js:501-552 | a failed lookup gives the fallback record |
| `VideoInfo.BackupInfo` | index_backup.js:67-97 | a failed lookup gives the fallback record, and nothing is ever streamed |
| `VideoInfo.LongIsStreamed` | index_optimized.js:528-532 | a video too long to download is also flagged to stream |
| `VideoInfo.BackupCapIsStricter` | index_backup.js:87 | whatever the later revision calls long, the one-hour revision calls long too |
| `VideoInfo.FallbackTitleKept` | index_optimized.js:525 | normalising the fallback title leaves it as it is |
| `VideoInfo.BlankOutput` | index_optimized.js:524-526 | blank output gives the fallback record |
| `VideoInfo.DurationVerdict` | index_optimized.js:528-532 | long iff over four hours, streamed iff over fifteen minutes |
| `VideoInfo.ClockLine` | index_optimized.js:528-532 | the verdicts for an `H:M:S` duration line |
| `VideoInfo.MinutesLine` | index_optimized.js:528-532 | the verdicts for an `M:S` duration line |
| `VideoInfo.CacheLookup` | index_optimized.js:506-512 | a hit iff the key is present and younger than 30 minutes, and the hit is the stored data |
| `VideoInfo.Prune` | index_optimized.js:139-146 | keeps exactly the entries not older than 30 minutes, unchanged |
| `VideoInfo.PruneKeepsHits` | index_optimized.js:139-146 | pruning never changes a cache lookup |
| `VideoInfo.PruneIdempotent` | index_optimized.js:139-146 | pruning twice is pruning once |
| `VideoInfo.MetadataCache.constructor` | index_optimized.js:131 | starts empty |
| `VideoInfo.MetadataCache.CleanupExpired` | index_optimized.js:139-146 | the loop deletes exactly the expired entries |
| `VideoInfo.MetadataCache.GetVideoInfo` | index_optimized.js:501-552 | a fresh hit is returned as stored; otherwise the record from the lookup is stored under the cleaned URL |
| `VideoProbe.SecondsOf` | test_video_info.js:37 | `parseInt(line) \|\| 0` |
| `VideoProbe.Decorated` | test_video_info.js:45-52 | the title gets a suffix iff a formatted duration exists, with the warning iff long |
| `VideoProbe.ProbeFromLines` | test_video_info.js:35-60 | seconds from line 0, long iff over 3600, title and duration text from lines 1 and 2 |
| `VideoProbe.ProbeOf` | test_video_info.js:30-33 | a failed lookup gives the fallback record |
| `VideoProbe.FailedIsShort` | test_video_info.js:33 | the fallback record is never long |
| `VideoProbe.NumeralFirstLine` | test_video_info.js:35-60 | a numeric first line gives those seconds and the decorated title |
| `VideoProbe.NonNumericFirstLine` | test_video_info.js:37 | a non-numeric first line gives 0 seconds and no warning |
| `VideoProbe.OneLine` | test_video_info.js:38-39 | with one line only, the title falls back and the duration text is empty |
| `PlaylistLines.KeepItems` | test_playlist.js:65-72 | every item kept came from some line, and every line that parses to an item is kept |
| `PlaylistLines.PlaylistEntries` | test_playlist.js:62-72 | no more entries than lines |
| `PlaylistLines.KeepItemsAppend` | test_playlist.js:65-72 | the filter works line by line |
| `PlaylistLines.KeepItemsCount` | test_playlist.js:65-72 | the count of entries is the count of lines that parse to an item |
| `PlaylistLines.AllLinesKept` | test_playlist.js:65-72 | all lines are kept iff every line parses to an item |
| `PlaylistLines.BlankListsNothing` | test_playlist.js:62-72 | blank output lists nothing |
| `RetryDelays.DelaySeconds` | test_retry_delays.js:6 | the delay is a multiple of 5 and not negative from attempt 1 on |
| `RetryDelays.Wait` | test_retry_delays.js:9-19 | a wait happens iff the delay is positive, and lasts the delay in milliseconds |
| `RetryDelays.AttemptForDelay` | test_retry_delays.js:6 | the attempt is recovered from its delay |
| `RetryDelays.DelayGrows` | test_retry_delays.js:6 | later attempts wait strictly longer |
| `RetryDelays.ImmediateOnlyFirst` | test_retry_delays.js:6-19 | only the first attempt starts without waiting |
| `RetryDelays.TestRetryDelays` | test_retry_delays.js:23-36 | visits attempts 1, 2, 3, waiting none, 5000 ms and 10000 ms |
| `TempCleanup.Selected` | cleanup_temp.js:9-13 | the selected names are exactly the listed temporary files |
| `TempCleanup.SelectedDistinct` | cleanup_temp.js:9-13 | the selection lists no file twice |
| `TempCleanup.DownloadFilesSelected` | cleanup_temp.js:10-13 | the bot's download files and their `.part` files are selected |
| `TempCleanup.OtherNamesKept` | cleanup_temp.js:10-13 | files without the `temp_audio_` prefix are never selected |
| `TempCleanup.Directory.constructor` | cleanup_temp.js:9 | the directory holds the given names |
| `TempCleanup.CleanupAllPartFiles` | cleanup_temp.js:4-51 | deletes exactly the selected files whose unlink succeeds, and counts cleaned plus failed as the selection |
| `OptimizedBot.PlayNext` | index_optimized.js:807-872 | busy changes nothing; an empty queue refills from the original only with repeat; a start plays the head; both invariants are kept |
| `OptimizedBot.PlayNextOnEmpty` | index_optimized.js:846-867 | an empty queue without repeat disconnects and clears the current song |
| `OptimizedBot.PlayNextStartsHead` | index_optimized.js:870-872 | a non-empty queue starts its head and marks the bot busy |
| `OptimizedBot.BeginAdd` | index_optimized.js:731-748 | an add goes ahead iff the URL is neither being added nor queued nor playing, and then it is marked |
| `OptimizedBot.FinishAddAsWritten` | index_optimized.js:750-773 | the mark is cleared; a long video is refused; otherwise the song is appended and `originalPlaylist` gains it once |
| `OptimizedBot.FinishAdd` | index_optimized.js:744-773 | as written, but a URL that became present while the lookup ran is refused; no duplicate URL enters the queue or `originalPlaylist` |
| `OptimizedBot.RefillDuringAddQueuesTwice` | index_optimized.js:744-773 | with repeat on, the last song ending during a pending add refills the queue with the URL, and the add as written queues it twice |
| `OptimizedBot.AddOfPresentUrlChangesNothing` | index_optimized.js:733-748 | re-adding a queued or pending URL changes nothing |
| `OptimizedBot.ConcurrentAddIgnored` | index_optimized.js:733-736 | a second add of the same URL while the first is pending is ignored |
| `OptimizedBot.AddAppendsOnce` | index_optimized.js:731-804 | a completed add appends exactly one entry for the URL |
| `OptimizedBot.DropHead` | index_optimized.js:886-889 | shifts the queue, and with a next song and a connection starts it |
| `OptimizedBot.DownloadDone` | index_optimized.js:1010-1143 | timeout, spawn error, bad exit and small file drop the head; a good file only forgets the child |
| `OptimizedBot.DownloadSpawned` | index_optimized.js:1145 | the child is registered and nothing else changes |
| `OptimizedBot.PlaybackEnded` | index_optimized.js:1104-1125 | the end of a song during a seek is ignored, and both invariants are kept |
| `OptimizedBot.LoopReplaysHead` | index_optimized.js:1114-1118 | with loop on, the same song plays again |
| `OptimizedBot.EndShiftsHead` | index_optimized.js:1119-1124 | without loop, the next song starts |
| `OptimizedBot.EndOfLastSong` | index_optimized.js:1119-1124 | after the last song without repeat the bot goes idle |
| `OptimizedBot.PositionArg` | index_optimized.js:2101-2105 | `parseInt(arg)` when it gives a non-zero number |
| `OptimizedBot.SkipCount` | index_optimized.js:2068 | `parseInt(args[0]) \|\| 1` |
| `OptimizedBot.DropFront` | index_optimized.js:2090-2093 | the shift loop drops the first k songs, or all of them |
| `OptimizedBot.SkipLimit` | index_optimized.js:2078-2080 | with the head playing, the corrected bound is the queue length |
| `OptimizedBot.SkipWith` | index_optimized.js:2067-2099 | accepted iff something plays and the count is in 1..20 and within the bound; then drops count-1 songs |
| `OptimizedBot.Skip` | index_optimized.js:2067-2099 | an accepted skip never exceeds the queue |
| `OptimizedBot.SkipThenEnd` | index_optimized.js:2067-2099 | `!skip n` followed by the player's end plays song n+1 |
| `OptimizedBot.SkipLimitAsWritten` | index_optimized.js:2078-2080 | with the head playing, the bound as written is one more than the queue length, since the head is counted twice |
| `OptimizedBot.SkipAsWritten` | index_optimized.js:2067-2099 | `!skip n` as written; stated by `SkipAsWrittenOvercounts` |
| `OptimizedBot.SkipWithinQueue` | index_optimized.js:2078-2080 | the accepted count lies within the queue |
| `OptimizedBot.SkipAsWrittenOvercounts` | index_optimized.js:2078-2080 | as written, `!skip 2` on a lone song is accepted and the bound counts it twice |
| `OptimizedBot.Remove` | index_optimized.js:2100-2127 | removes position n iff n is in range, from the queue and from `originalPlaylist` |
| `OptimizedBot.RemoveForgetsUrl` | index_optimized.js:2119-2122 | the removed URL is gone from `originalPlaylist` |
| `OptimizedBot.RemoveBehindHead` | index_optimized.js:2100-2127 | removing a later song keeps the playing head |
| `OptimizedBot.RemovePlayingSkipsNext` | index_optimized.js:2100-2127 | removing position 1 while it plays makes the end skip the next song |
| `OptimizedBot.MoveSong` | index_optimized.js:2128-2155 | moves iff both positions are in range |
| `OptimizedBot.MovePlacesSong` | index_optimized.js:2128-2155 | the moved song lands at the target and the queue is a permutation |
| `OptimizedBot.MoveBehindHead` | index_optimized.js:2128-2155 | a move among later songs keeps the playing head |
| `OptimizedBot.Stop` | index_optimized.js:1708-1736 | the queue, original, repeat, loop, current, children and connection are reset |
| `OptimizedBot.StopForgetsHistory` | index_optimized.js:1708-1736 | after stop the state no longer depends on the queue that was playing |
| `OptimizedBot.ShuffleAsWritten` | index_optimized.js:1700-1706 | shuffles the whole queue iff it has two songs or more |
| `OptimizedBot.ShuffleAsWrittenLosesSong` | index_optimized.js:1700-1706 | as written, a two-song shuffle can drop the unplayed song |
| `OptimizedBot.ShuffleSongs` | index_optimized.js:1700-1706 | the corrected shuffle keeps the head and permutes the queue |
| `OptimizedBot.ShuffleKeepsUpcoming` | index_optimized.js:1700-1706 | after the corrected shuffle, the end plays one of the upcoming songs |
| `OptimizedBot.ToggleRepeat` | index_optimized.js:1747-1756 | flips repeat and nothing else |
| `OptimizedBot.ToggleLoop` | index_optimized.js:1757-1766 | flips loop and nothing else |
| `OptimizedBot.SetVolume` | index_optimized.js:2040-2066 | accepted iff an integer in 1..100 and a resource is playing; sets that volume |
| `OptimizedBot.SeekArg` | index_optimized.js:2259-2274 | the target from the position; never negative |
| `OptimizedBot.Seek` | index_optimized.js:2244-2282 | accepted iff a downloaded song plays, the argument is given and the bot is in voice with a player |
| `OptimizedBot.SeekHoldsQueue` | index_optimized.js:1109-1112 | the player's stop during a seek leaves the queue and song alone |
| `OptimizedBot.SeekResumed` | index_optimized.js:341-344 | clears the seeking flag and nothing else |
| `OptimizedBot.SeekSettled` | index_optimized.js:355-452 | the bot is idle again and the position is the one `Seek` stored; a failed seek also clears the seeking flag |
| `OptimizedBot.SeekRecordsTarget` | index_optimized.js:317-452 | a seek that plays ends at the target `!seek` computed, queue and song untouched |
| `OptimizedBot.StepKeepsSnapshotUnique` | index_optimized.js:731-1146 | every handler keeps `originalPlaylist` free of duplicate URLs |
| `OptimizedBot.RunKeepsSnapshotUnique` | index_optimized.js:731-1146 | so does every sequence of handlers |
| `OptimizedBot.StepKeepsNoDuplicates` | index_optimized.js:731-2155 | with the corrected add, every modelled handler keeps both the queue and `originalPlaylist` free of duplicate URLs (the playlist load is not modelled) |
| `OptimizedBot.RunKeepsNoDuplicates` | index_optimized.js:731-2155 | so does every sequence of modelled handlers |
| `OptimizedBot.SkipKeepsNoDuplicates` | index_optimized.js:2090-2093 | dropping songs from the front repeats no URL |
| `OptimizedBot.RemoveKeepsNoDuplicates` | index_optimized.js:2100-2127 | removing a song repeats no URL |
| `OptimizedBot.MoveKeepsNoDuplicates` | index_optimized.js:2128-2155 | moving a song repeats no URL |
| `OptimizedBot.ShuffleKeepsNoDuplicates` | index_optimized.js:1700-1706 | shuffling repeats no URL |
| `OptimizedBot.StepKeepsHead` | index_optimized.js:807-1146 | the playing song stays at the queue head through every handler that does not touch the head |
| `OptimizedBot.RunKeepsHead` | index_optimized.js:807-1146 | and through every such sequence |
| `OptimizedBot.Bot.constructor` | index_optimized.js:109-129 | the globals start at the initial state |
| `OptimizedBot.Bot.PlayNextInQueue` | index_optimized.js:807-908 | updates the globals as `PlayNext` |
| `OptimizedBot.Bot.AddSongToQueue` | index_optimized.js:731-748 | updates the globals as `BeginAdd` |
| `OptimizedBot.Bot.AddSongResolved` | index_optimized.js:744-804 | checks again for a duplicate and updates the globals as the corrected `FinishAdd` |
| `OptimizedBot.Bot.PushResolved` | index_optimized.js:761-799 | pushes the song, adds it to `originalPlaylist` when absent and starts playback when idle, as `FinishAddAsWritten` |
| `OptimizedBot.Bot.ShiftAndAdvance` | index_optimized.js:886-889 | updates the globals as `DropHead` |
| `OptimizedBot.Bot.OnProbedTooLong` | index_optimized.js:875-897 | a probe that finds the song too long drops it |
| `OptimizedBot.Bot.OnDownloadSpawned` | index_optimized.js:1145 | registers the child |
| `OptimizedBot.Bot.OnDownloadFinished` | index_optimized.js:1010-1143 | updates the globals as `DownloadDone` |
| `OptimizedBot.Bot.OnIdle` | index_optimized.js:1104-1125 | updates the globals as `PlaybackEnded` |
| `OptimizedBot.Bot.OnPlayerError` | index_optimized.js:1127-1133 | drops the head |
| `OptimizedBot.Bot.SkipCommand` | index_optimized.js:2067-2099 | the shift loop ends as the corrected `Skip`; the player stops iff accepted with a song playing |
| `OptimizedBot.Bot.RemoveCommand` | index_optimized.js:2100-2127 | updates the globals as `Remove` |
| `OptimizedBot.Bot.MoveCommand` | index_optimized.js:2128-2155 | updates the globals as `MoveSong` |
| `OptimizedBot.Bot.StopButton` | index_optimized.js:1708-1736 | updates the globals as `Stop` |
| `OptimizedBot.Bot.ShuffleButton` | index_optimized.js:1700-1706 | shuffles the upcoming songs in place, as `ShuffleSongs` |
| `OptimizedBot.Bot.RepeatButton` | index_optimized.js:1747-1756 | flips repeat |
| `OptimizedBot.Bot.LoopButton` | index_optimized.js:1757-1766 | flips loop |
| `OptimizedBot.Bot.VolumeCommand` | index_optimized.js:2040-2066 | updates the globals as `SetVolume` |
| `OptimizedBot.Bot.SeekCommand` | index_optimized.js:2244-2282 | updates the globals as `Seek` |
| `OptimizedBot.Bot.OnSeekResumed` | index_optimized.js:341-344 | clears the seeking flag |
| `OptimizedBot.Bot.OnSeekSettled` | index_optimized.js:355-452 | updates the globals as `SeekSettled` |
| `BeforeFixBot.PlayNext` | index_optimized_backup_before_fix.js:327-379 | busy changes nothing; otherwise an empty queue disconnects and a non-empty one starts its head |
| `BeforeFixBot.AddChecked` | index_optimized_backup_before_fix.js:279-282 | the duplicate check passes iff the URL is neither queued nor playing |
| `BeforeFixBot.FinishAdd` | index_optimized_backup_before_fix.js:287-317 | a long video is refused; otherwise the song is appended |
| `BeforeFixBot.Add` | index_optimized_backup_before_fix.js:274-324 | a present URL changes nothing; otherwise the song is appended |
| `BeforeFixBot.ConcurrentAddsQueueTwice` | index_optimized_backup_before_fix.js:279-299 | two adds of the same URL that both pass the check before either finishes queue it twice |
| `BeforeFixBot.DropHead` | index_optimized_backup_before_fix.js:1108-1114 | shifts and starts the next song |
| `BeforeFixBot.DownloadDone` | index_optimized_backup_before_fix.js:1052-1135 | failures drop the head; any close forgets the child |
| `BeforeFixBot.EndShiftsHead` | index_optimized_backup_before_fix.js:1108-1114 | the end of a song starts the next one |
| `BeforeFixBot.SkipStops` | index_optimized_backup_before_fix.js:638-645 | the skip button stops the player iff another song is queued |
| `BeforeFixBot.Shuffled` | index_optimized_backup_before_fix.js:661-666 | shuffles the whole queue iff two songs or more, as a permutation |
| `BeforeFixBot.Stop` | index_optimized_backup_before_fix.js:669-680 | the stop button resets everything |
| `BeforeFixBot.StepKeepsHead` | index_optimized_backup_before_fix.js:327-1138 | every handler but shuffle keeps the playing song at the head, a completion arriving after other events included |
| `BeforeFixBot.RunKeepsHead` | index_optimized_backup_before_fix.js:327-1138 | and every sequence without a shuffle |
| `BeforeFixBot.Bot.constructor` | index_optimized_backup_before_fix.js:66-72 | the globals start at the initial state |
| `BeforeFixBot.Bot.PlayNextInQueue` | index_optimized_backup_before_fix.js:327-416 | updates the globals as `PlayNext` |
| `BeforeFixBot.Bot.CheckDuplicate` | index_optimized_backup_before_fix.js:279-282 | reports whether the URL passes the duplicate check |
| `BeforeFixBot.Bot.AddSongResolved` | index_optimized_backup_before_fix.js:287-324 | updates the globals as `FinishAdd` |
| `BeforeFixBot.Bot.AddSongToQueue` | index_optimized_backup_before_fix.js:274-324 | reports the check and updates the globals as `Add` |
| `BeforeFixBot.Bot.ShiftAndAdvance` | index_optimized_backup_before_fix.js:1108-1114 | updates the globals as `DropHead` |
| `BeforeFixBot.Bot.OnDownloadSpawned` | index_optimized_backup_before_fix.js:1138 | registers the child |
| `BeforeFixBot.Bot.OnDownloadFinished` | index_optimized_backup_before_fix.js:1052-1135 | updates the globals as `DownloadDone` |
| `BeforeFixBot.Bot.SkipButton` | index_optimized_backup_before_fix.js:638-645 | stops the player iff another song is queued and a player exists |
| `BeforeFixBot.Bot.ShuffleButton` | index_optimized_backup_before_fix.js:661-666 | shuffles the queue in place, as `Shuffled` |
| `BeforeFixBot.Bot.StopButton` | index_optimized_backup_before_fix.js:669-680 | updates the globals as `Stop` |
| `BackupBot.PlayNextSpawning` | index_backup.js:164-217 | as `PlayNext`, and a started song registers its child |
| `BackupBot.DropHeadSpawning` | index_backup.js:302-308 | shifts, starts the next song and registers its child |
| `BackupBot.FinishCapped` | index_backup.js:123-155 | after the lookup, a long video changes nothing; otherwise the song is appended, never to stream |
| `BackupBot.AddCapped` | index_backup.js:113-161 | a present or long video changes nothing; otherwise the song is appended, never to stream |
| `BackupBot.CappedAddsQueueTwice` | index_backup.js:118-131 | two adds of the same URL that both pass the check before either lookup ends queue it twice |
| `BackupBot.HourCap` | index_backup.js:87-128 | a video whose duration is over one hour is never queued |
| `BackupBot.BackupLongOverAnHour` | index_backup.js:87 | the long flag holds iff the duration text is present and parses above 3600 seconds |
| `BackupBot.DownloadDoneSpawning` | index_backup.js:242-325 | failures drop the head; a good file only forgets the child |
| `BackupBot.StepKeepsDownloaded` | index_backup.js:113-423 | every handler keeps the queue free of streamed songs; this holds by construction, since every record the revision builds has streaming off |
| `BackupBot.RunKeepsDownloaded` | index_backup.js:113-423 | and every sequence of handlers |
| `BackupBot.Bot.constructor` | index_backup.js:48-54 | the globals start at the initial state |
| `BackupBot.Bot.PlayNextInQueue` | index_backup.js:164-329 | updates the globals as `PlayNextSpawning` |
| `BackupBot.Bot.CheckDuplicate` | index_backup.js:118-121 | reports whether the URL passes the duplicate check |
| `BackupBot.Bot.AddSongResolved` | index_backup.js:123-155 | updates the globals as `FinishCapped` |
| `BackupBot.Bot.AddSongToQueue` | index_backup.js:113-161 | updates the globals as `AddCapped` |
| `BackupBot.Bot.ShiftAndAdvance` | index_backup.js:302-308 | updates the globals as `DropHeadSpawning` |
| `BackupBot.Bot.OnDownloadFinished` | index_backup.js:242-325 | updates the globals as `DownloadDoneSpawning` |
| `BackupBot.Bot.SkipButton` | index_backup.js:386-393 | stops the player iff another song is queued and a player exists |
| `BackupBot.Bot.ShuffleButton` | index_backup.js:408-414 | shuffles the queue in place |
| `BackupBot.Bot.StopButton` | index_backup.js:417-423 | resets everything |
| `OriginalBot.UrlOnly` | index.js:181-188 | the queued entry carries the URL and is downloaded |
| `OriginalBot.PlayNext` | index.js:25-69 | a failed join clears the busy flag; an empty queue disconnects; a busy bot changes nothing; otherwise the head starts |
| `OriginalBot.DropHead` | index.js:119-133 | shifts and starts the next song |
| `OriginalBot.DownloadDone` | index.js:75-111 | an exec error or a small file drops the head; a file not yet ready clears the busy flag |
| `OriginalBot.NotReadyRetriesHead` | index.js:104-111 | a file not yet ready leaves the head to be tried again |
| `OriginalBot.Play` | index.js:143-191 | `!play` appends the URL |
| `OriginalBot.PlayQueuesDuplicates` | index.js:181-188 | with no duplicate check, a queued URL is queued again |
| `OriginalBot.SkipStops` | index.js:193-200 | stops the player iff another song is queued |
| `OriginalBot.Stop` | index.js:214-220 | with a player, clears queue and song but keeps the busy flag |
| `OriginalBot.StopThenIdleSettles` | index.js:119-125 | the player's end after a stop leaves the bot idle |
| `OriginalBot.SetVolume` | index.js:237-250 | accepted iff `parseFloat(v)` is a finite number in 0..100; the volume becomes v/100 |
| `OriginalBot.VolumeWhileBusy` | index.js:237-250 | while a song plays, only the volume changes |
| `OriginalBot.VolumeWithExponent` | index.js:237-239 | `!volume 1e2` is accepted and sets the volume to 1 |
| `OriginalBot.Shuffled` | index.js:251-263 | the queue is permuted and nothing else changes |
| `OriginalBot.StepKeepsVolume` | index.js:25-263 | every handler keeps the volume in 0..1 |
| `OriginalBot.RunKeepsVolume` | index.js:25-263 | and every sequence of handlers |
| `OriginalBot.StepKeepsHead` | index.js:25-263 | every handler but shuffle keeps the playing song at the head |
| `OriginalBot.RunKeepsHead` | index.js:25-263 | and every sequence without a shuffle |
| `OriginalBot.Bot.constructor` | index.js:7-12 | the globals start at the initial state |
| `OriginalBot.Bot.PlayNextInQueue` | index.js:25-135 | updates the globals as `PlayNext` |
| `OriginalBot.Bot.ShiftAndAdvance` | index.js:119-133 | updates the globals as `DropHead` |
| `OriginalBot.Bot.OnDownloaded` | index.js:75-111 | updates the globals as `DownloadDone` |
| `OriginalBot.Bot.PlayCommand` | index.js:143-191 | updates the globals as `Play` |
| `OriginalBot.Bot.SkipCommand` | index.js:193-200 | stops the player iff another song is queued |
| `OriginalBot.Bot.StopCommand` | index.js:214-220 | updates the globals as `Stop` |
| `OriginalBot.Bot.VolumeCommand` | index.js:237-250 | updates the globals as `SetVolume` |
| `OriginalBot.Bot.ShuffleCommand` | index.js:251-263 | shuffles the queue in place |

## Left out

- Discord I/O: messages, embeds, the now-playing and queue displays, pagination and slash-command registration are left out. Only their effect on the bot's state is modelled.
- Audio: the voice connection, the audio player and ffmpeg are external. Joining is a boolean input, and the player's `Idle` and `error` events are separate handler calls.
- Concurrency: each handler runs atomically. The interleavings during the `await` of a voice connection are not modelled. The adds of the before-fix and backup revisions are split into a check and a completion (the `Resolved` events), and the add of the optimized revision into `BeginAdd` and `FinishAdd`, so that other events can run during the metadata lookup.
- Timers: `setTimeout` retries and the 30-second kill timers are left out. A timeout is modelled as one of a download's outcomes.
- External disconnects: voice-state events that destroy the connection are left out.
- Playlist loading: the playlist branches of `!play` and `!playlist` are left out (index_optimized.js:1413-1440 and 1948-1975, index_optimized_backup_before_fix.js:856-876, index_backup.js:515-527, index.js:160-180). They do not go through the add path. Each entry is pushed straight onto the queue, with no duplicate check against the queue or the playing song, no metadata lookup, no length cap and no `addingSongs` mark. Only the optimized revision keeps `originalPlaylist` free of duplicates there. A playlist can therefore queue a URL that is already queued or playing.
- OptimizedBot.RunKeepsNoDuplicates, OptimizedBot.RunKeepsHead, OptimizedBot.RunKeepsSnapshotUnique, BeforeFixBot.RunKeepsHead, BackupBot.RunKeepsDownloaded, OriginalBot.RunKeepsHead and OriginalBot.RunKeepsVolume range over the modelled handlers only; a playlist load is not among their events, and `RunKeepsNoDuplicates` would not survive one.
- Persistence: saving and loading the queue and the favorites file (`saveQueue`, `loadQueue`, `saveFavorites`) is left out. `Favorites.Store` keeps the favorites in memory.
- AI suggestions: `getAISuggestions` and `showAISuggestions` call a remote service and are left out.
- Pause and resume only call the player and do not change the modelled state.
- The volume buttons are left out. They add or subtract 0.1 in floating point.
- OptimizedBot.SetVolume: the volume is an integer percentage, not the float `volume / 100`.
- Per-song field updates are left out: the probe in `playNextInQueue` rewriting a song's duration and streaming flag, and the stream fallback flag. Only their effect on the queue (dropping a song found too long) is modelled.
- The bodies of `playStreamDirectly` and `playWithSeek` are reduced to their state effects: `SeekResumed`, `SeekSettled`, and the same end and error handlers.
- OptimizedBot.SeekSettled: a played seek keeps the latest position `Seek` stored. When a second `!seek` starts before the first download ends, the source records the first target when that download finishes; these overlapping seeks are not modelled.
- The spawn of a download is a separate event (`OnDownloadSpawned`) in the optimized and before-fix revisions, and part of `PlayNextSpawning` in index_backup.js.
- The before-fix revision defines `playWithDownload` and `playStreamDirectly` twice. The later definitions are the ones that take effect, and they are modelled.
- OriginalBot.Bot.SkipCommand: `player.stop()` throws when no player exists yet. The model leaves out that crash.
- OriginalBot.DownloadDone: `fs.statSync` throws on a missing file. The model takes the size as an input.
- JsText.ParseFloatOf, JsText.NumberOf and JsText.ParseIntOf: values are exact reals. Rounding to the nearest double is left out, so a numeral too long for a double, or an exponent beyond its range (overflow to `Infinity`, underflow to 0), reads as its exact value. For example, `parseInt` of a 310-digit numeral is `Infinity` in JavaScript, but the model gives `!seek` a finite target for it.
- Equalizer.ToLowerCase: characters other than `A`-`Z` and the Kelvin sign are kept as they are. Their JavaScript lower case always contains a non-ASCII character, so no preset match depends on it.
- YouTubeUrls.BotTarget: `decodeURIComponent` and `new URL` are function parameters. The model does not include the URL grammar or percent-decoding.
- Shuffle: `Math.random` is the sequence `picks` of caller-supplied indices.
- TempCleanup.CleanupAllPartFiles: the directory listing and the outcome of each `unlinkSync` are inputs.
- `cleanupAllTempFiles` and `cleanupTempFile` of the bot files do the same as cleanup_temp.js and are modelled only through `TempCleanup`.
- The file `index con titulos en la queue.js` is an older copy of the original revision with titles and is not modelled.

## Findings

| source | as written | input that shows it | evidently intended | confidence | as-written member | corrected member |
|---|---|---|---|---|---|---|
| index_optimized.js:1700-1706 | the shuffle button shuffles the whole queue, including `queue[0]`, which is the song playing | queue [a, b] with a playing and `Math.random` picks [0, 0]: the queue becomes [b, a], and when a ends `queue.shift()` drops b, so a plays again and b is never played | shuffle only the songs after the one playing | high (not executed) | `OptimizedBot.ShuffleAsWrittenLosesSong` | `OptimizedBot.ShuffleSongs` |
| index_optimized.js:2078-2080 | `!skip n` is refused only when `n > queue.length + (currentSong ? 1 : 0)`, but the current song is also `queue[0]`, so it is counted twice | queue [a] with a playing, `!skip 2`: the command is accepted and reports two skipped songs, when only one song exists | bound the count by `queue.length` | high (not executed) | `OptimizedBot.SkipAsWrittenOvercounts` | `OptimizedBot.Skip` |
| index_optimized.js:744-773 with 846-850 | the duplicate check runs before the `await getVideoInfo(url)`, and the push after it does not check again | queue [a] with a playing, repeat on, a in `originalPlaylist` and b in it too: `!add b` passes the check; while the lookup runs a ends, the queue is empty and is refilled from `originalPlaylist`, which holds b; then the add pushes b, so b is queued twice | check for a duplicate again after the lookup | medium (not executed) | `OptimizedBot.RefillDuringAddQueuesTwice` | `OptimizedBot.FinishAdd` |
| index_optimized.js:2320-2341 | `EQUALIZER_PRESETS[name]` looks the name up on a plain object, so inherited names such as `constructor` are found | `!preset constructor`: the lookup returns `Object`, and the command accepts it and writes `undefined` gains | accept only the nine preset names | high (not executed) | `Equalizer.InheritedNameAccepted` | `Equalizer.PresetCommand` |

`OptimizedBot.Bot.ShuffleButton` and `OptimizedBot.Bot.SkipCommand` use the corrected definitions. The older revisions have the same shuffle. Their classes model it as written (`BeforeFixBot.Shuffled`, `OriginalBot.Shuffled`), and the `RunKeepsHead` lemmas of those modules exclude shuffle events for that reason.
