# ProVideoPlayer core, modelled in Dafny

This project models the bookkeeping at the heart of the ProVideoPlayer Android app (Kotlin,
package `com.provideoplayer`). It covers what the player decides and what the app remembers. The
Android plumbing around that logic is abstracted away.

- **The playback screen** (`PlayerActivity`) is modelled in two modules.
  - `Player` holds the class `PlayerActivity`, with the screen's fields. The engine callbacks, the
    touch and seek-bar handlers, and the save on pause are methods of it.
  - The engine is a parameter: each handler receives what the engine reports at that moment, or
    `None` when the screen has no player.
  - The screen's calls into the engine (`pause`, `play`, `seekTo`, ...) are appended to a
    `commands` sequence. Delayed runnables are explicit "timer fires" events.
  - `PlayerRules` holds the pure rules the handlers use:
    - the session the launch intent selects, with its index clamp;
    - the clock text, and the MIME type guessed from a URI;
    - the one-shot retry of parse errors as a progressive download;
    - the seek targets, the play/pause/restart icon, the gesture fixed by a touch's first scroll,
      the double-tap thirds and the volume step;
    - what leaving the screen writes to the preference file.
- **The bounded most-recent history** (`History`) is stored in the preference file `Prefs`. The
  app copies it into seven places. It is modelled once as a function: remove every equal entry,
  append, keep the last N. Then each copy (video cap 20, audio cap 50, stream cap 10) is shown to
  be an instance of that function. The same holds for the saved-position lookup, which defaults
  to 0.
- **The media screens** group, filter, count and sort the scanned catalogue. They are
  `MainActivity`, `BrowseFragment`, `VideosFragment`, `AudioFragment`, `PlaylistFragment`,
  `NetworkStream` and `VideoAdapter`. Each is a class whose methods change the screen's state,
  next to the list functions that specify them. The shared launch intent lives in `Screens` and
  `Intents`.
- **The formatting in `VideoItem`** lives in `Media`: duration text, size text, and the quality
  badge from a "WIDTHxHEIGHT" resolution.
- **Kotlin and JVM helpers** live in `Text` and `Seqs`:
  - JVM integer division and remainder, the `Long`-to-`Int` cast, `toIntOrNull` and Java's
    `String.hashCode`;
  - `substringBeforeLast`, `trim`, `contains(ignoreCase)`;
  - `filter`, stable `sortedBy`, `distinctBy`, `reversed` and counting into a map.

The preference file is a map from key to value. A JSON text is a value that either parsed into an
array or object, or is malformed. Malformed text reads as the empty list, the empty object or 0,
as the app's `try`/`catch` blocks do. The hash key of a URI is the decimal text of Java's
`String.hashCode`, folded over the URI's UTF-16 code units (a surrogate pair for a character
above U+FFFF) with 32-bit wrap-around.

## Model

| member | source | states |
|---|---|---|
| Seqs.SortByCorrect | app/src/main/java/com/provideoplayer/MainActivity.kt:682-685 | `sortedBy` / `sortedByDescending` return a permutation of the list, ordered by the key |
| Seqs.SortByStable | app/src/main/java/com/provideoplayer/MainActivity.kt:682-685 | the sort is stable: the items with equal keys keep their relative order |
| Seqs.Reverse | app/src/main/java/com/provideoplayer/MainActivity.kt:298 | `reversed()` has the same length, with the i-th item taken from the other end |
| Seqs.DistinctByCorrect | app/src/main/java/com/provideoplayer/fragment/AudioFragment.kt:71 | `distinctBy` keeps, in order, one item per key: no two kept items share a key, and every key of the input is kept |
| Seqs.TallyCounts | app/src/main/java/com/provideoplayer/MainActivity.kt:1020-1024 | counting into a map with `(map[k] ?: 0) + 1` gives distinct keys, and each key's count is its number of occurrences; absent keys have no entry |
| Seqs.PutGet | app/src/main/java/com/provideoplayer/MainActivity.kt:1023 | a map `put` makes the key read back the new value and leaves every other key alone |
| Text.SubstringBeforeLast | app/src/main/java/com/provideoplayer/MainActivity.kt:1022 | `substringBeforeLast(c)` is the whole text without the character, else the prefix before its last occurrence |
| Text.SubstringAfterLastOr | app/src/main/java/com/provideoplayer/PlayerActivity.kt:617 | `substringAfterLast(c, missing)` is `missing` without the character, else the suffix after its last occurrence |
| Text.Lower | app/src/main/java/com/provideoplayer/PlayerActivity.kt:617 | `lowercase()` keeps the length and lowers each character |
| Text.TrimStart | app/src/main/java/com/provideoplayer/NetworkStreamActivity.kt:61 | the leading part that `trim()` drops is all whitespace, and what remains does not start with whitespace |
| Text.TrimEnd | app/src/main/java/com/provideoplayer/NetworkStreamActivity.kt:61 | the trailing part that `trim()` drops is all whitespace, and what remains does not end with whitespace |
| Text.TrimEmpty | app/src/main/java/com/provideoplayer/NetworkStreamActivity.kt:61-62 | the trimmed text is empty exactly when the text is all whitespace, in Kotlin's sense: the controls U+0009-U+000D and U+001C-U+001F and the Unicode space, line and paragraph separators |
| Text.TrimDropsSeparators | app/src/main/java/com/provideoplayer/NetworkStreamActivity.kt:61 | an already trimmed text wrapped in two information separators (U+001C-U+001F) trims back to itself: `trim()` drops them like ordinary spaces |
| Text.DigitsRoundTrip | app/src/main/java/com/provideoplayer/PlayerActivity.kt:781 | the decimal text of a natural number is all digits and reads back as the number |
| Text.TruncDiv | app/src/main/java/com/provideoplayer/model/VideoItem.kt:22-24 | the JVM's integer `/`: Euclidean division for a non-negative dividend, truncation toward zero for a negative one |
| Text.TruncRem | app/src/main/java/com/provideoplayer/model/VideoItem.kt:23-24 | the JVM's `%`: dividend = quotient × divisor + remainder, and the remainder takes the dividend's sign |
| Text.ToInt32 | app/src/main/java/com/provideoplayer/PlayerActivity.kt:1999 | the `Long`-to-`Int` cast: the result is in the 32-bit range, agrees with the input modulo 2^32, and is the input itself when it fits |
| Text.ParseInt | app/src/main/java/com/provideoplayer/model/VideoItem.kt:45-47 | `toIntOrNull` gives `null` for the empty text and otherwise a value in the 32-bit range |
| Text.ParseIntRoundTrip | app/src/main/java/com/provideoplayer/model/VideoItem.kt:45-47 | `toIntOrNull` reads back every 32-bit value that `toString` wrote |
| Text.JavaHashCode | app/src/main/java/com/provideoplayer/MainActivity.kt:791 | `String.hashCode()` always lies in the 32-bit range |
| Text.Utf16Units | app/src/main/java/com/provideoplayer/MainActivity.kt:791 | a character is one UTF-16 unit, itself, below U+10000; above, it is a high surrogate then a low surrogate that decode back to the character |
| Text.Utf16 | app/src/main/java/com/provideoplayer/MainActivity.kt:791 | the encoding is never shorter than the string, and for a string in the Basic Multilingual Plane it is the character codes themselves |
| Text.Utf16Injective | app/src/main/java/com/provideoplayer/fragment/VideosFragment.kt:491 | different strings have different UTF-16 encodings, so ordering strings by their encodings is total |
| Text.LexLessTransitive | app/src/main/java/com/provideoplayer/fragment/VideosFragment.kt:491 | `compareTo` order is transitive |
| Text.LexLessTotal | app/src/main/java/com/provideoplayer/fragment/VideosFragment.kt:491 | of two different strings, one comes first in `compareTo` order |
| Text.SurrogatesSortBeforeHighBmp | app/src/main/java/com/provideoplayer/fragment/VideosFragment.kt:491 | `compareTo` compares code units: U+1F600 (high surrogate D83D) sorts before U+FF21 |
| Text.JavaHashCodeAppend | app/src/main/java/com/provideoplayer/MainActivity.kt:791 | appending a character folds `31 * h + unit` once for a BMP character and twice, over both surrogates, above it, each step wrapped to 32 bits |
| History.SaveLoops | app/src/main/java/com/provideoplayer/MainActivity.kt:806-824 | the two copy loops yield exactly `MostRecent(history, uri, cap)`: the entries other than `uri` in order, then `uri`, cut to the last `cap` |
| History.RemoveLoop | app/src/main/java/com/provideoplayer/NetworkStreamActivity.kt:169-189 | `removeFromHistory`'s copy loop yields `Without(history, url)`, with no truncation |
| History.SaveToHistory | app/src/main/java/com/provideoplayer/MainActivity.kt:797-831 | a saver changes only its own key, to the recorded history read with the malformed-JSON-as-empty rule |
| History.SaveVideoToHistory | app/src/main/java/com/provideoplayer/MainActivity.kt:797-831 | `video_history` gets the cap-20 record, and `last_video_uri`/`last_video_title` get the URI and title; no other key changes |
| History.SaveAudioToHistory | app/src/main/java/com/provideoplayer/MainActivity.kt:833-865 | only `audio_history` changes, to the cap-50 record |
| History.WithoutMembers | app/src/main/java/com/provideoplayer/MainActivity.kt:806-813 | the first loop keeps exactly the entries different from the URI |
| History.WithoutOrder | app/src/main/java/com/provideoplayer/MainActivity.kt:806-813 | the first loop's result is a subsequence of the history, shorter by the number of copies of the URI |
| History.WithoutAbsent | app/src/main/java/com/provideoplayer/MainActivity.kt:806-813 | a history without the URI passes through the first loop unchanged |
| History.WithoutNoDuplicates | app/src/main/java/com/provideoplayer/MainActivity.kt:806-813 | the first loop keeps a duplicate-free history duplicate-free |
| History.MostRecentLast | app/src/main/java/com/provideoplayer/MainActivity.kt:806-824 | after recording, the URI is the last entry and occurs nowhere else |
| History.MostRecentBounded | app/src/main/java/com/provideoplayer/MainActivity.kt:819-824 | the recorded history is at most `cap` long and grows by at most one |
| History.MostRecentOrder | app/src/main/java/com/provideoplayer/MainActivity.kt:806-824 | the entries before the URI are a subsequence of the old history, so relative order is kept |
| History.MostRecentReplay | app/src/main/java/com/provideoplayer/MainActivity.kt:806-824 | replaying a URI that occurs once in a history within its cap leaves the length unchanged |
| History.MostRecentDropsOldest | app/src/main/java/com/provideoplayer/MainActivity.kt:819-824 | a new URI on a full history drops exactly the oldest entry |
| History.MostRecentAppends | app/src/main/java/com/provideoplayer/MainActivity.kt:815-824 | a new URI on a history below its cap is simply appended |
| History.MostRecentNoDuplicates | app/src/main/java/com/provideoplayer/MainActivity.kt:806-824 | recording keeps a duplicate-free history duplicate-free |
| History.MostRecentIdempotent | app/src/main/java/com/provideoplayer/MainActivity.kt:806-824 | recording the same URI twice gives the same history as recording it once |
| History.RemoveMeaning | app/src/main/java/com/provideoplayer/NetworkStreamActivity.kt:169-189 | removing a URL removes every copy, keeps every other entry in order, and truncates nothing |
| Prefs.PrefStore.constructor | app/src/main/java/com/provideoplayer/MainActivity.kt:785 | the preference file starts with the given values |
| Prefs.ReadArray | app/src/main/java/com/provideoplayer/MainActivity.kt:799-805 | an absent key reads as `[]`; the read fails exactly when the stored value is not a JSON array |
| Prefs.ReadObject | app/src/main/java/com/provideoplayer/MainActivity.kt:785-790 | an absent key reads as `{}`; the read fails exactly when the stored value is not a JSON object |
| Prefs.SavedPlaybackPosition | app/src/main/java/com/provideoplayer/MainActivity.kt:784-795 | the stored value under the URI's hash key; 0 when the key or `video_positions` is absent or the JSON is malformed |
| Media.HistoryAudioIsAudio | app/src/main/java/com/provideoplayer/PlayerActivity.kt:2079-2084 | every URI the player's history filter skips is one it shows as audio; the two tests differ only on `.ogg` |
| Media.FormattedDuration | app/src/main/java/com/provideoplayer/model/VideoItem.kt:21-30 | the duration text is at least five characters long ("MM:SS" or longer) |
| Media.ClockRanges | app/src/main/java/com/provideoplayer/model/VideoItem.kt:22-24 | for a non-negative duration the minutes and seconds are each below 60 |
| Media.DurationParts | app/src/main/java/com/provideoplayer/model/VideoItem.kt:22-24 | the hours, minutes and seconds are a clock reading of the duration, exact to within the dropped milliseconds |
| Media.HoursRange | app/src/main/java/com/provideoplayer/model/VideoItem.kt:22-25 | below 100 hours the hour count fits two digits, and the long form is used exactly from one hour up |
| Media.ShortDurationReadsBack | app/src/main/java/com/provideoplayer/model/VideoItem.kt:21-30 | below an hour the text is "MM:SS", and its digit pairs read back as the minutes and the seconds |
| Media.LongDurationReadsBack | app/src/main/java/com/provideoplayer/model/VideoItem.kt:21-30 | from one hour up to 100 hours the text is "HH:MM:SS", and its digit pairs read back as the hours, minutes and seconds |
| Media.FormattedSize | app/src/main/java/com/provideoplayer/model/VideoItem.kt:32-39 | exactly the sizes below 1024 print as an exact byte count |
| Media.FormattedSizeMeaning | app/src/main/java/com/provideoplayer/model/VideoItem.kt:32-39 | a small size prints as its byte count followed by " B"; below 1 TiB a scaled value lies in [1, 1024) |
| Media.IndexOf | app/src/main/java/com/provideoplayer/model/VideoItem.kt:45 | the index is the first occurrence of the separator, or -1 exactly when it is absent |
| Media.BucketIsLargestThreshold | app/src/main/java/com/provideoplayer/model/VideoItem.kt:51-61 | from 144 up the badge number is the largest threshold not above the height; below 144 it is the height; it is 0 exactly for a non-positive height |
| Media.BucketMonotone | app/src/main/java/com/provideoplayer/model/VideoItem.kt:51-61 | a larger height never gets a smaller badge |
| Media.BadgeEmpty | app/src/main/java/com/provideoplayer/model/VideoItem.kt:41-61 | the badge is empty exactly when the parsed height is not positive |
| Media.HeightOfResolution | app/src/main/java/com/provideoplayer/model/VideoItem.kt:43-49 | "WIDTHxHEIGHT" yields its height and a bare number yields itself |
| Screens.VideoFilesMeaning | app/src/main/java/com/provideoplayer/fragment/VideosFragment.kt:286-293 | the video-only list is a subsequence of the catalogue, keeps every non-audio item as often as it was scanned, and drops every audio item |
| Screens.SortVideosCorrect | app/src/main/java/com/provideoplayer/fragment/VideosFragment.kt:486-496 | every sort is a permutation: 0 is ascending by lower-cased title in `compareTo` order (by UTF-16 code unit); 1, 2 and 3 are descending by date, size and duration; equal keys keep their order; any other value leaves the list as it is |
| Screens.IndexOfId | app/src/main/java/com/provideoplayer/MainActivity.kt:756 | `indexOfFirst { it.id == id }`: the first index with that id, or -1 exactly when no item has it |
| Screens.Uris | app/src/main/java/com/provideoplayer/MainActivity.kt:768-771 | the playlist extra holds each item's URI, position by position |
| Screens.Titles | app/src/main/java/com/provideoplayer/MainActivity.kt:772-775 | the titles extra holds each item's title, position by position |
| Screens.LaunchIntent | app/src/main/java/com/provideoplayer/MainActivity.kt:755-777 | the intent carries the clicked URI and title. Its index is the clicked item's id position in the list, or the clicked position when the id is absent. The resume position is present exactly when the saved value is positive. The playlist and titles extras match the list |
| Screens.LaunchStartsAtClicked | app/src/main/java/com/provideoplayer/MainActivity.kt:755-777 | in a list with distinct ids that holds the clicked item, the player starts at exactly that item |
| VideosFragment.SearchMeaning | app/src/main/java/com/provideoplayer/fragment/VideosFragment.kt:463-474 | the search keeps exactly the items that are not "audio" by MIME type, do not end in ".mp3", and (for a non-empty query) contain the query in their title, ignoring case; order is kept and the empty query shows every item of the initial list |
| VideosFragment.SearchShowsWhatLoadHides | app/src/main/java/com/provideoplayer/fragment/VideosFragment.kt:286-293 | the two audio tests disagree: an ".m4a" file with a video MIME type is hidden by the initial list but shown by the empty search (lines 466-467) |
| VideosFragment.VideosFragment.constructor | app/src/main/java/com/provideoplayer/fragment/VideosFragment.kt:30-44 | the tab starts with an empty catalogue, an empty list and nothing started |
| VideosFragment.VideosFragment.LoadVideos | app/src/main/java/com/provideoplayer/fragment/VideosFragment.kt:273-315 | a scan sets the catalogue and the "N videos" subtitle. It submits the video-only list when it is not empty; otherwise the old list stays behind "No videos found". A failed scan keeps the catalogue, the list and the subtitle and shows "Error loading videos" |
| VideosFragment.VideosFragment.FilterBySearch | app/src/main/java/com/provideoplayer/fragment/VideosFragment.kt:463-484 | the shown list becomes the search result over the whole catalogue. When it is empty the empty view reads "No videos found" for an empty query and "No results for \"<query>\"" otherwise; when it is not, the empty view is hidden |
| VideosFragment.VideosFragment.SortBy | app/src/main/java/com/provideoplayer/fragment/VideosFragment.kt:486-507 | the shown list becomes its sorted form, a permutation of itself |
| VideosFragment.VideosFragment.SaveVideoToHistory | app/src/main/java/com/provideoplayer/fragment/VideosFragment.kt:347-377 | this copy of the saver is the shared video saver: cap-20 history plus the "continue" entries |
| VideosFragment.VideosFragment.GetSavedPlaybackPosition | app/src/main/java/com/provideoplayer/fragment/VideosFragment.kt:379-390 | this copy returns the shared saved position, so it is 0 on a missing key or malformed JSON |
| VideosFragment.VideosFragment.OpenPlayer | app/src/main/java/com/provideoplayer/fragment/VideosFragment.kt:317-345 | the video is recorded, and the player is started within the displayed list with the saved position when it is positive |
| AudioFragment.AlbumsMeaning | app/src/main/java/com/provideoplayer/fragment/AudioFragment.kt:64-72 | "songs" is the catalogue unchanged. "albums" shows the first file of every folder name, exactly one per folder name, ordered by folder name in `compareTo` order (by UTF-16 code unit) |
| AudioFragment.ArtistsMeaning | app/src/main/java/com/provideoplayer/fragment/AudioFragment.kt:73-78 | "artists" shows the first file of every grandparent path, exactly one per path, ordered by title in `compareTo` order (by UTF-16 code unit) |
| AudioFragment.ArtistOfAlbumFile | app/src/main/java/com/provideoplayer/fragment/AudioFragment.kt:74-76 | the artist key of ".../Artist/Album/song" is ".../Artist" |
| AudioFragment.AudioFragment.constructor | app/src/main/java/com/provideoplayer/fragment/AudioFragment.kt:30-45 | the tab starts on "songs" with nothing loaded or started |
| AudioFragment.AudioFragment.LoadAudioFiles | app/src/main/java/com/provideoplayer/fragment/AudioFragment.kt:314-345 | a scan sets the catalogue and the "N audio files" subtitle. It submits the list when it is not empty; otherwise the old list stays behind "No audio files found". A failed scan keeps the catalogue, the list and the subtitle and shows "Error loading audio files" |
| AudioFragment.AudioFragment.ApplyFilter | app/src/main/java/com/provideoplayer/fragment/AudioFragment.kt:64-91 | with an empty catalogue nothing changes; otherwise the shown list is the filter's list and the subtitle its size and noun |
| AudioFragment.AudioFragment.SelectFilter | app/src/main/java/com/provideoplayer/fragment/AudioFragment.kt:47-62 | a chip selects its filter and applies it |
| AudioFragment.AudioFragment.SaveAudioToHistory | app/src/main/java/com/provideoplayer/fragment/AudioFragment.kt:373-401 | this copy of the saver is the shared audio saver with cap 50 |
| AudioFragment.AudioFragment.OpenPlayer | app/src/main/java/com/provideoplayer/fragment/AudioFragment.kt:347-371 | the file is recorded in the audio history and started within the displayed list, with no resume position |
| PlaylistFragment.FindByUri | app/src/main/java/com/provideoplayer/fragment/PlaylistFragment.kt:110 | `find { it.uri.toString() == uri }`: `null` exactly when no item has the URI, otherwise the first item that has it |
| PlaylistFragment.HistoryVideosMeaning | app/src/main/java/com/provideoplayer/fragment/PlaylistFragment.kt:108-111 | every collected item is the catalogue's first match for a history URI, and there is one item per history URI that has a match |
| PlaylistFragment.HistoryVideosInOrder | app/src/main/java/com/provideoplayer/fragment/PlaylistFragment.kt:108-111 | the collected items' URIs are exactly the history's URIs that have a catalogue match, in history order |
| PlaylistFragment.PlaylistShowsLastPlayedFirst | app/src/main/java/com/provideoplayer/fragment/PlaylistFragment.kt:120 | after a catalogue item is played, the reversed list starts with the catalogue's first item with that URI |
| PlaylistFragment.CollectHistoryVideos | app/src/main/java/com/provideoplayer/fragment/PlaylistFragment.kt:106-111 | the loop collects exactly `HistoryVideos(history, catalogue)` |
| PlaylistFragment.PlaylistFragment.constructor | app/src/main/java/com/provideoplayer/fragment/PlaylistFragment.kt:29-43 | the tab starts with nothing loaded, shown or started |
| PlaylistFragment.PlaylistFragment.LoadPlaylist | app/src/main/java/com/provideoplayer/fragment/PlaylistFragment.kt:86-130 | the catalogue is scanned only while empty. A failed scan, a malformed history, or no match shows the empty state and keeps the list. Otherwise the matches are shown most recent first |
| PlaylistFragment.PlaylistFragment.SaveVideoToHistory | app/src/main/java/com/provideoplayer/fragment/PlaylistFragment.kt:161-191 | this copy of the saver is the shared video saver |
| PlaylistFragment.PlaylistFragment.GetSavedPlaybackPosition | app/src/main/java/com/provideoplayer/fragment/PlaylistFragment.kt:193-204 | this copy returns the shared saved position |
| PlaylistFragment.PlaylistFragment.OpenPlayer | app/src/main/java/com/provideoplayer/fragment/PlaylistFragment.kt:132-159 | the video is recorded, then started within the displayed list with its saved position when it is positive |
| VideoAdapter.IsUriInHistory | app/src/main/java/com/provideoplayer/adapter/VideoAdapter.kt:139-151 | the indexed scan answers true exactly when the parsed array holds the URI, and false when parsing failed |
| VideoAdapter.NewTagMeaning | app/src/main/java/com/provideoplayer/adapter/VideoAdapter.kt:49-88 | audio items consult `audio_history` and the rest `video_history`; "● NEW" shows exactly when the URI is absent there or that history is malformed |
| VideoAdapter.SavingClearsNewTag | app/src/main/java/com/provideoplayer/adapter/VideoAdapter.kt:59-88 | once an item is recorded in its own history, it no longer shows "● NEW" |
| VideoAdapter.AreItemsTheSame | app/src/main/java/com/provideoplayer/adapter/VideoAdapter.kt:125-127 | two items are the same item exactly when their ids agree |
| VideoAdapter.AreContentsTheSame | app/src/main/java/com/provideoplayer/adapter/VideoAdapter.kt:129-132 | contents never compare equal, so every item is re-bound and its NEW tag re-read |
| Media.Scheme | app/src/main/java/com/provideoplayer/NetworkStreamActivity.kt:220-221 | a URI has a scheme exactly when it contains ':', and the scheme is the colon-free text before the first ':' (the same parse serves `getMimeType` in the player) |
| NetworkStream.ValidUrlMeaning | app/src/main/java/com/provideoplayer/NetworkStreamActivity.kt:218-226 | a URL is valid exactly when its scheme, lower-cased, is one of the seven streaming schemes; a URL without a scheme is invalid |
| NetworkStream.ChipText | app/src/main/java/com/provideoplayer/NetworkStreamActivity.kt:88-114 | a chip keeps text that already starts with its scheme name and otherwise replaces it with "scheme://" |
| NetworkStream.HttpChipKeepsHttps | app/src/main/java/com/provideoplayer/NetworkStreamActivity.kt:88-93 | the "http" chip leaves an "https://" URL alone, because the test is a bare prefix test |
| NetworkStream.ChipPrefixIsValid | app/src/main/java/com/provideoplayer/NetworkStreamActivity.kt:88-114 | what any chip writes is accepted by the URL check once a host follows it |
| NetworkStream.LowerCaseScheme | app/src/main/java/com/provideoplayer/NetworkStreamActivity.kt:222 | every accepted scheme is already lower case and has no ':' |
| NetworkStream.StreamIntent | app/src/main/java/com/provideoplayer/NetworkStreamActivity.kt:208-214 | a stream starts as a one-item playlist with its title, flagged as a network stream |
| NetworkStream.ShownMostRecentFirst | app/src/main/java/com/provideoplayer/NetworkStreamActivity.kt:127-128 | after a save, the shown list starts with the saved URL and holds at most 10 entries |
| NetworkStream.Launched | app/src/main/java/com/provideoplayer/NetworkStreamActivity.kt:201-216 | the play button starts a stream exactly when the URL is valid, with the title "Network Stream" |
| NetworkStream.NetworkStreamActivity.constructor | app/src/main/java/com/provideoplayer/NetworkStreamActivity.kt:24-32 | the screen starts with an empty list and an empty field, with nothing started |
| NetworkStream.NetworkStreamActivity.LoadStreamHistory | app/src/main/java/com/provideoplayer/NetworkStreamActivity.kt:117-134 | the shown list becomes the stored list reversed; a parse failure keeps what is shown |
| NetworkStream.NetworkStreamActivity.SaveToStreamHistory | app/src/main/java/com/provideoplayer/NetworkStreamActivity.kt:136-167 | only `stream_history` changes, to the cap-10 record, and the shown list is that record reversed |
| NetworkStream.NetworkStreamActivity.RemoveFromHistory | app/src/main/java/com/provideoplayer/NetworkStreamActivity.kt:169-189 | `stream_history` loses every copy of the URL, without truncation, and the shown list is reloaded |
| NetworkStream.NetworkStreamActivity.PlayNetworkStream | app/src/main/java/com/provideoplayer/NetworkStreamActivity.kt:201-216 | a valid URL starts the stream; an invalid one only shows "Invalid URL format" |
| NetworkStream.NetworkStreamActivity.OnPlayClicked | app/src/main/java/com/provideoplayer/NetworkStreamActivity.kt:60-68 | empty trimmed text only shows "Please enter a URL". Otherwise the URL is recorded first, even an invalid one: the stored history gains it at the front (capped at 10) and the shown list is that history reversed. Then a valid URL is launched, and an invalid one gets the toast "Invalid URL format" |
| NetworkStream.NetworkStreamActivity.OnChipClicked | app/src/main/java/com/provideoplayer/NetworkStreamActivity.kt:88-114 | the field becomes the chip's text and nothing else changes |
| BrowseFragment.VideoTablesDistinct | app/src/main/java/com/provideoplayer/fragment/BrowseFragment.kt:433-443 | the video pass enters no folder id twice in either map |
| BrowseFragment.VideoTablesMeaning | app/src/main/java/com/provideoplayer/fragment/BrowseFragment.kt:436-443 | after the video pass a folder id has an entry exactly when a known folder has that id and holds at least one video. The entry's count is that number of videos, and the entry has a path |
| BrowseFragment.ParentPaths | app/src/main/java/com/provideoplayer/fragment/BrowseFragment.kt:447-449 | each audio file's directory is its path before the last '/' |
| BrowseFragment.FindByPath | app/src/main/java/com/provideoplayer/fragment/BrowseFragment.kt:454 | `allFolders.find { it.path == path }`: `null` exactly when no folder has the path, otherwise the first that has it |
| BrowseFragment.AudioFolderNameMeaning | app/src/main/java/com/provideoplayer/fragment/BrowseFragment.kt:466 | an audio-only folder is named by its last path segment, or "Audio" when that segment is empty |
| BrowseFragment.MergeAudioShape | app/src/main/java/com/provideoplayer/fragment/BrowseFragment.kt:453-470 | every merge step is one `put` on the count map and, unless it adds to an existing entry, one on the path map |
| BrowseFragment.MergeAudioMeaning | app/src/main/java/com/provideoplayer/fragment/BrowseFragment.kt:453-470 | a merge step adds the audio count to a known folder's existing entry. A known folder without an entry gets its own name, its path and the audio count. An unknown directory gets the entry under its hash code, with its last segment as name. No other entry changes |
| BrowseFragment.MergeAudioKeeps | app/src/main/java/com/provideoplayer/fragment/BrowseFragment.kt:453-470 | a merge step keeps the keys unique and keeps a path for every entry |
| BrowseFragment.MergeAllKeeps | app/src/main/java/com/provideoplayer/fragment/BrowseFragment.kt:453-470 | the whole merge keeps the keys unique and keeps a path for every entry, so no listed folder gets the `""` path fallback |
| BrowseFragment.MergeAllMeaning | app/src/main/java/com/provideoplayer/fragment/BrowseFragment.kt:453-470 | after the merge, the ids with an entry are those before plus exactly the folders the tally's directories are merged into |
| BrowseFragment.FolderItems | app/src/main/java/com/provideoplayer/fragment/BrowseFragment.kt:473-480 | every map entry becomes one `FolderItem` with its id, name, path and count, in map order |
| BrowseFragment.TallyTargets | app/src/main/java/com/provideoplayer/fragment/BrowseFragment.kt:446-470 | a folder receives a merge exactly when some audio file's directory maps to it |
| BrowseFragment.ShownFoldersMeaning | app/src/main/java/com/provideoplayer/fragment/BrowseFragment.kt:415-492 | the folder list is sorted by count, largest first, and lists no id twice. It lists exactly the known folders holding videos plus the folders that audio directories map to |
| BrowseFragment.ShownFoldersVideoOnly | app/src/main/java/com/provideoplayer/fragment/BrowseFragment.kt:436-443 | without audio files, every listed folder is a known folder showing its own positive number of videos |
| BrowseFragment.CountVideos | app/src/main/java/com/provideoplayer/fragment/BrowseFragment.kt:436-443 | the video loop builds exactly the tables of the video pass |
| BrowseFragment.CountAudio | app/src/main/java/com/provideoplayer/fragment/BrowseFragment.kt:446-450 | the audio loop builds the per-directory tally of the audio files, in first-seen order |
| BrowseFragment.MergeAudioFolders | app/src/main/java/com/provideoplayer/fragment/BrowseFragment.kt:453-470 | the merge loop, with its three branches, builds exactly `MergeAll` of the tally |
| BrowseFragment.CollectFolders | app/src/main/java/com/provideoplayer/fragment/BrowseFragment.kt:433-480 | the three passes yield the items whose sorted form is the shown folder list; they are empty exactly when that list is |
| BrowseFragment.FolderMediaMeaning | app/src/main/java/com/provideoplayer/fragment/BrowseFragment.kt:516-528 | a folder's media holds each of its videos (by folder id) and each audio file in its directory, as often as scanned; the video part counts what the folder list showed |
| BrowseFragment.InFolderListMeaning | app/src/main/java/com/provideoplayer/fragment/BrowseFragment.kt:534-552 | inside a folder, the list keeps in order exactly the items of the right type whose title contains the query. The Video and Audio filters split the All list between them |
| BrowseFragment.TypeFiltersSplit | app/src/main/java/com/provideoplayer/fragment/BrowseFragment.kt:541-545 | the Video and Audio lists together are the All list, item for item |
| BrowseFragment.BrowseFragment.constructor | app/src/main/java/com/provideoplayer/fragment/BrowseFragment.kt:37-49 | the tab starts at the folder level, with no folder, the All filter, no search and nothing started |
| BrowseFragment.BrowseFragment.ShowAllFolders | app/src/main/java/com/provideoplayer/fragment/BrowseFragment.kt:415-492 | the screen returns to the folder level and resets the folder, filter and search. It lists the shown folders; an empty result keeps the old list behind "No media folders found" |
| BrowseFragment.BrowseFragment.LeaveFolder | app/src/main/java/com/provideoplayer/fragment/BrowseFragment.kt:416-425 | the folder fields become null, the filter 0 and the search empty, and the search bar is hidden |
| BrowseFragment.BrowseFragment.LoadData | app/src/main/java/com/provideoplayer/fragment/BrowseFragment.kt:388-410 | the three scans run in order and the first failure stops the load with "Error loading data", keeping what was already assigned and leaving the place, the filter, the query, the search bar and the folder list as they were. A complete scan has `showAllFolders`' effect: no open folder, filter 0, no query, the search bar hidden, and the folders with media listed by count, or "No media folders found" over the old list when there are none |
| BrowseFragment.BrowseFragment.ApplyInFolderFilter | app/src/main/java/com/provideoplayer/fragment/BrowseFragment.kt:534-567 | nothing happens at the folder level. Inside a folder the filtered list is submitted, even when empty, with the empty view's text for its case |
| BrowseFragment.BrowseFragment.LoadFolderMedia | app/src/main/java/com/provideoplayer/fragment/BrowseFragment.kt:516-532 | the screen enters the folder, whose media are its videos then its directory's audio files, and shows them through the current filter |
| BrowseFragment.BrowseFragment.OpenFolder | app/src/main/java/com/provideoplayer/fragment/BrowseFragment.kt:494-514 | opening a folder records it, starts on the All filter with no search, and shows all of its media |
| BrowseFragment.BrowseFragment.SelectFolder | app/src/main/java/com/provideoplayer/fragment/BrowseFragment.kt:495-499 | the folder's id, path and name are recorded, the filter becomes 0 and the search is cleared |
| BrowseFragment.BrowseFragment.OnFilterButton | app/src/main/java/com/provideoplayer/fragment/BrowseFragment.kt:284-305 | pressing the active filter button changes nothing. Another button selects its filter and, inside a folder, filters the folder's media again, with the empty-view text for that filter and query when nothing matches. At the folder list the shown list and the empty text stay |
| BrowseFragment.BrowseFragment.ShowSearchBar | app/src/main/java/com/provideoplayer/fragment/BrowseFragment.kt:346-351 | the search bar becomes visible and nothing else changes |
| BrowseFragment.BrowseFragment.OnSearchTextChanged | app/src/main/java/com/provideoplayer/fragment/BrowseFragment.kt:328-332 | the query becomes the text. Inside a folder, the folder's media are filtered again, with the empty-view text for that query and filter when nothing matches; at the folder list the shown list and the empty text stay |
| BrowseFragment.BrowseFragment.HideSearchBar | app/src/main/java/com/provideoplayer/fragment/BrowseFragment.kt:353-360 | the query is cleared and the bar hidden. Inside a folder, the folder's media are filtered again with the empty query, with the matching empty-view text; at the folder list nothing else changes |
| BrowseFragment.BrowseFragment.OnBackPressed | app/src/main/java/com/provideoplayer/fragment/BrowseFragment.kt:744-760 | an open search bar is closed first and, inside a folder, the list is filtered again without a query. Otherwise, inside a folder, the folder list comes back with no open folder, filter 0, no query and the bar hidden, listing the folders with media or "No media folders found". At the folder list the press is not consumed and nothing changes |
| BrowseFragment.BrowseFragment.FilterBySearch | app/src/main/java/com/provideoplayer/fragment/BrowseFragment.kt:804-826 | inside a folder the shown list is the folder's media whose titles contain the query, ignoring the type filter, with its own empty texts |
| BrowseFragment.BrowseFragment.SortBy | app/src/main/java/com/provideoplayer/fragment/BrowseFragment.kt:828-852 | inside a folder the shown list is sorted as `sortBy` says; at the folder level nothing changes; always a permutation |
| BrowseFragment.BrowseFragment.SaveVideoToHistory | app/src/main/java/com/provideoplayer/fragment/BrowseFragment.kt:635-665 | this copy of the saver is the shared video saver |
| BrowseFragment.BrowseFragment.SaveAudioToHistory | app/src/main/java/com/provideoplayer/fragment/BrowseFragment.kt:667-695 | this copy of the saver is the shared audio saver |
| BrowseFragment.BrowseFragment.OpenPlayer | app/src/main/java/com/provideoplayer/fragment/BrowseFragment.kt:605-633 | audio goes to the audio history and anything else to the video history; the player starts in the displayed list without a resume position |
| MainActivity.VideoFoldersMeaning | app/src/main/java/com/provideoplayer/MainActivity.kt:1003-1017 | the Video filter lists one copy of each folder holding videos, in folder order, and nothing else. Each copy carries the folder's number of non-audio items |
| MainActivity.AudioFolders | app/src/main/java/com/provideoplayer/MainActivity.kt:1027-1035 | every tally entry becomes one folder item, in map order |
| MainActivity.ParentPathsCount | app/src/main/java/com/provideoplayer/MainActivity.kt:1020-1024 | the tally's count for a directory equals the number of audio files directly inside it |
| MainActivity.AudioFoldersMeaning | app/src/main/java/com/provideoplayer/MainActivity.kt:1018-1036 | the Audio filter lists each directory holding audio files exactly once, and every audio file's directory is listed. Each entry's count is its number of audio files, its id is the path's hash code, and its name is the last segment ("Audio" when empty) |
| MainActivity.AudioFileListed | app/src/main/java/com/provideoplayer/MainActivity.kt:1021-1035 | every audio file's directory appears in the Audio filter's list |
| MainActivity.SortedByCount | app/src/main/java/com/provideoplayer/MainActivity.kt:1053 | `sortedByDescending { it.videoCount }` is a permutation whose counts never increase |
| MainActivity.FilterFolders | app/src/main/java/com/provideoplayer/MainActivity.kt:1002-1038 | the map-building loop yields exactly the filtered folder list of the Browse filter |
| MainActivity.FolderContentsMeaning | app/src/main/java/com/provideoplayer/MainActivity.kt:620-639 | a folder's list keeps the folder's items in order. In the Browse tab the Video filter keeps exactly the non-audio items and the Audio filter exactly the audio items |
| MainActivity.VideoCountMatchesContents | app/src/main/java/com/provideoplayer/MainActivity.kt:1003-1017 | a folder of the Video list opens, under the Video filter, onto exactly as many items as its shown count |
| MainActivity.AudioCountMatchesContents | app/src/main/java/com/provideoplayer/MainActivity.kt:1018-1036 | a directory of the Audio list opens onto exactly as many audio files as its shown count, when the rescan finds the same files |
| MainActivity.SearchResultsMeaning | app/src/main/java/com/provideoplayer/MainActivity.kt:660-663 | the search keeps, in order, exactly the items whose title or folder name contains the query, ignoring case; the empty query keeps everything |
| MainActivity.ContinueIntent | app/src/main/java/com/provideoplayer/MainActivity.kt:964-987 | no intent without a stored non-empty last URI. Otherwise the intent carries that URI alone as the playlist, its title, the stored position and the network flag |
| MainActivity.ContinueAfterSave | app/src/main/java/com/provideoplayer/MainActivity.kt:964-987 | after the video saver records a video, "continue" starts exactly that video and title from the stored position; the audio saver changes nothing "continue" reads |
| MainActivity.MainActivity.constructor | app/src/main/java/com/provideoplayer/MainActivity.kt:35-42 | the screen starts on the Videos tab, with the Browse filter on Video (set by `setupFilterButtons`), no folder, no search and an empty catalogue |
| MainActivity.MainActivity.ShowAllVideos | app/src/main/java/com/provideoplayer/MainActivity.kt:515-542 | the list is the catalogue's video files, with their number in the subtitle; an empty result keeps the old list behind "No videos found" |
| MainActivity.MainActivity.ShowFolders | app/src/main/java/com/provideoplayer/MainActivity.kt:544-558 | the folder list is the scanned folders; none shows "No folders found" |
| MainActivity.MainActivity.ShowAudioFiles | app/src/main/java/com/provideoplayer/MainActivity.kt:237-269 | the list is the scanned audio files, with their number in the subtitle. An empty scan shows "No audio files found" and a failed scan "Error loading audio files" |
| MainActivity.MainActivity.ShowPlaylists | app/src/main/java/com/provideoplayer/MainActivity.kt:271-305 | the list is the catalogue items found for the history's URIs, most recent first. No history or no match shows the playlist's empty text |
| MainActivity.MainActivity.ShowBrowseMedia | app/src/main/java/com/provideoplayer/MainActivity.kt:989-1055 | the folder list is the Browse filter's folders sorted by count, descending; an empty result shows the filter's own empty text |
| MainActivity.MainActivity.ShowVideosInFolder | app/src/main/java/com/provideoplayer/MainActivity.kt:615-653 | the list is the folder's items under the Browse filter, submitted even when empty, with the filter's empty text |
| MainActivity.MainActivity.ShowAudioInFolder | app/src/main/java/com/provideoplayer/MainActivity.kt:583-613 | the list is the rescan's audio files directly inside the directory; a failed rescan shows "Error loading audio files" |
| MainActivity.MainActivity.SearchVideos | app/src/main/java/com/provideoplayer/MainActivity.kt:655-672 | the list is the search result; an empty one shows "No videos found for" the quoted query |
| MainActivity.MainActivity.LoadVideos | app/src/main/java/com/provideoplayer/MainActivity.kt:486-513 | the empty view is hidden first, then the three scans run in order. A failing scan stops the load with the toast "Error loading videos: <message>", keeps what was already assigned and leaves the rest of the display as it was. A complete load shows the current tab's view |
| MainActivity.MainActivity.SelectVideosTab | app/src/main/java/com/provideoplayer/MainActivity.kt:185-194 | the Videos tab leaves any folder and reloads the catalogue. A complete load shows all videos; a failing scan gives the load's toast, the partly assigned catalogue and a display with the empty view hidden |
| MainActivity.MainActivity.SelectAudioTab | app/src/main/java/com/provideoplayer/MainActivity.kt:195-204 | the Audio tab leaves any folder and shows the audio files |
| MainActivity.MainActivity.SelectBrowseTab | app/src/main/java/com/provideoplayer/MainActivity.kt:205-214 | the Browse tab leaves any folder, clears the subtitle and shows the Browse folders |
| MainActivity.MainActivity.SelectPlaylistTab | app/src/main/java/com/provideoplayer/MainActivity.kt:215-225 | the Playlist tab leaves any folder, clears the subtitle and shows the playlist |
| MainActivity.MainActivity.SelectNetworkTab | app/src/main/java/com/provideoplayer/MainActivity.kt:226-231 | the Network item only sets the tab and clears the subtitle; the folder and the lists stay |
| MainActivity.MainActivity.OnFilterButton | app/src/main/java/com/provideoplayer/MainActivity.kt:130-152 | a filter button selects Video (1) or Audio (2), leaves any folder and shows the Browse folders |
| MainActivity.MainActivity.OpenFolder | app/src/main/java/com/provideoplayer/MainActivity.kt:562-581 | the folder is recorded. The Audio tab, and the Browse tab under the Audio filter, show its directory's audio files; everything else shows its items by folder id |
| MainActivity.MainActivity.OnQueryTextSubmit | app/src/main/java/com/provideoplayer/MainActivity.kt:316-319 | submitting runs the search |
| MainActivity.MainActivity.OnQueryTextChange | app/src/main/java/com/provideoplayer/MainActivity.kt:321-333 | the query becomes the text. A non-empty text searches; an empty one shows the open folder's items, or the folder list |
| MainActivity.MainActivity.OnBackPressed | app/src/main/java/com/provideoplayer/MainActivity.kt:387-427 | a search is cleared first. Then an open folder is left for the current tab's view. Otherwise the press is not consumed and nothing changes |
| MainActivity.MainActivity.SortVideos | app/src/main/java/com/provideoplayer/MainActivity.kt:674-690 | nothing while folders are shown. Otherwise the displayed list is sorted by the chosen order and the toast names it; always a permutation |
| MainActivity.MainActivity.SaveVideoToHistory | app/src/main/java/com/provideoplayer/MainActivity.kt:797-831 | this copy of the saver is the shared video saver |
| MainActivity.MainActivity.SaveAudioToHistory | app/src/main/java/com/provideoplayer/MainActivity.kt:833-865 | this copy of the saver is the shared audio saver |
| MainActivity.MainActivity.GetSavedPlaybackPosition | app/src/main/java/com/provideoplayer/MainActivity.kt:784-795 | this copy reads the shared saved position |
| MainActivity.MainActivity.OpenPlayer | app/src/main/java/com/provideoplayer/MainActivity.kt:732-778 | an audio item goes to the audio history and anything else to the video history. The player starts in the displayed list (the catalogue while folders show), with the saved position |
| MainActivity.MainActivity.ContinueLastVideo | app/src/main/java/com/provideoplayer/MainActivity.kt:964-987 | without a last video the toast "No video to continue. Start watching!" is shown; otherwise the continue intent is started |
| PlayerRules.GetOrNull | app/src/main/java/com/provideoplayer/PlayerActivity.kt:303 | `getOrNull` yields an element exactly for an index inside the list, and then the element at that index |
| PlayerRules.CoerceIn | app/src/main/java/com/provideoplayer/PlayerActivity.kt:300 | `coerceIn` keeps a value inside the bounds unchanged and moves one outside to the nearer bound |
| PlayerRules.TruncateToInt | app/src/main/java/com/provideoplayer/PlayerActivity.kt:1530 | `Float.toInt()` truncates toward zero: the result is within 1 of the value, on the value's side of 0 |
| PlayerRules.SessionAt | app/src/main/java/com/provideoplayer/PlayerActivity.kt:300-313 | the shown title is the title at the index, or "Video" when there is none; no item means no audio flag |
| PlayerRules.PlaylistIndex | app/src/main/java/com/provideoplayer/PlayerActivity.kt:300 | the requested index is clamped into a non-empty playlist (below 0 to 0, past the end to the last item) and is 0 for an empty one |
| PlayerRules.ParseIntent | app/src/main/java/com/provideoplayer/PlayerActivity.kt:262-313 | the parsed index lies inside a non-empty playlist, is 0 for an empty one, and the network flag is the extra's value (false when absent) |
| PlayerRules.ParseIntentSources | app/src/main/java/com/provideoplayer/PlayerActivity.kt:274-297 | a non-empty playlist extra wins, keeping its non-empty entries in order (titles "Video" when absent). Next comes a non-empty single URI with its title. Next comes the data URI titled by its last path segment. Otherwise the playlist is empty |
| PlayerRules.FormatTime | app/src/main/java/com/provideoplayer/PlayerActivity.kt:2019-2034 | a negative or unknown time reads "00:00"; every text has at least five characters |
| PlayerRules.FormatTimeReadsBack | app/src/main/java/com/provideoplayer/PlayerActivity.kt:2025-2033 | below 100 hours, the text is "MM:SS" under an hour and "HH:MM:SS" otherwise. Each two-digit field reads back as the time's hours, minutes and seconds |
| PlayerRules.VideoMimeType | app/src/main/java/com/provideoplayer/PlayerActivity.kt:642-657 | the result is "video/x-unknown" exactly for an extension outside the recognised set; every result is a video or application type |
| PlayerRules.GetMimeType | app/src/main/java/com/provideoplayer/PlayerActivity.kt:607-637 | content URIs take the resolver's type, file URIs always get a type from the extension. For http(s) the HLS type is chosen exactly when ".m3u8" appears, and none exactly when no stream pattern matches. Other schemes get none |
| PlayerRules.StreamMimeType | app/src/main/java/com/provideoplayer/PlayerActivity.kt:620-629 | a network URL gets the HLS type exactly when it contains ".m3u8" in any case, and no type exactly when it contains none of the five stream patterns |
| PlayerRules.MarkerAfterError | app/src/main/java/com/provideoplayer/PlayerActivity.kt:845-875 | the retry mark becomes 1 exactly when a parse error on an http(s) URI finds no mark, and 0 otherwise |
| PlayerRules.Retries | app/src/main/java/com/provideoplayer/PlayerActivity.kt:859-875 | a run of errors yields one retried-or-not answer per error |
| PlayerRules.NoTwoRetriesInARow | app/src/main/java/com/provideoplayer/PlayerActivity.kt:859-875 | whatever the errors, two consecutive errors are never both retried: the progressive retry happens once |
| PlayerRules.SeekBarTargetInRange | app/src/main/java/com/provideoplayer/PlayerActivity.kt:1299-1301 | with a known duration, a progress in [0, 100] targets a position inside the media; 0 targets the start and 100 the end |
| PlayerRules.SeekForwardUnknownDuration | app/src/main/java/com/provideoplayer/PlayerActivity.kt:1435 | as written, seeking forward from 5000 with an unknown duration targets the TIME_UNSET marker, a negative value, instead of 15000 |
| PlayerRules.SeekForwardTargetAsWritten | app/src/main/java/com/provideoplayer/PlayerActivity.kt:1435 | the program's forward target: ten seconds ahead or the reported duration, whichever is smaller |
| PlayerRules.SeekForwardTarget | app/src/main/java/com/provideoplayer/PlayerActivity.kt:1435 | the forward target never passes a known positive duration |
| PlayerRules.SeekForwardMovesForward | app/src/main/java/com/provideoplayer/PlayerActivity.kt:1433-1438 | from a valid position, the forward target lies between the position and ten seconds later; a known duration caps it exactly |
| PlayerRules.SeekBackwardTarget | app/src/main/java/com/provideoplayer/PlayerActivity.kt:1442 | the backward target is ten seconds earlier, or 0 when that would be negative |
| PlayerRules.PlayPauseIcon | app/src/main/java/com/provideoplayer/PlayerActivity.kt:1415-1428 | the icon is restart exactly when ended and not playing, pause exactly when playing, play otherwise |
| PlayerRules.ClassifyGesture | app/src/main/java/com/provideoplayer/PlayerActivity.kt:1039-1043 | a mostly horizontal first scroll is a seek. Otherwise the left half (integer half of the width) is brightness and the right half volume |
| PlayerRules.ActiveGestureSticks | app/src/main/java/com/provideoplayer/PlayerActivity.kt:1037-1044 | once a touch has a gesture type, later scrolls never change it |
| PlayerRules.FirstScrollDecides | app/src/main/java/com/provideoplayer/PlayerActivity.kt:1037-1044 | a whole touch has the type its first scroll chose |
| PlayerRules.TapZoneOf | app/src/main/java/com/provideoplayer/PlayerActivity.kt:1008-1019 | a double tap left of the integer third rewinds; right of two thirds skips ahead; anything else is the middle |
| PlayerRules.AdjustedVolume | app/src/main/java/com/provideoplayer/PlayerActivity.kt:1527-1532 | the new volume always lies in [0, max] |
| PlayerRules.VolumeFollowsSwipe | app/src/main/java/com/provideoplayer/PlayerActivity.kt:1527-1532 | a swipe up never lowers the volume, a swipe down never raises it, and no movement keeps it |
| PlayerRules.PositionToSave | app/src/main/java/com/provideoplayer/PlayerActivity.kt:2129-2134 | a position within a second of a known end is saved as 0; any other position is saved as it is |
| PlayerRules.Pruned | app/src/main/java/com/provideoplayer/PlayerActivity.kt:2137-2142 | the pruned positions are exactly the entries whose key is kept, with their values |
| PlayerRules.SavedSessionMeaning | app/src/main/java/com/provideoplayer/PlayerActivity.kt:2071-2150 | after a save the history ends with the URI once, holds at most 20 entries, and keeps the position to save under the URI's key. Every stored position belongs to a history URI. The "continue" entries hold the URI, title and raw position |
| PlayerRules.SavedSessionKeepsOthers | app/src/main/java/com/provideoplayer/PlayerActivity.kt:2117-2142 | the stored position of another URI still in the history survives a save unchanged |
| PlayerRules.ClearedPositionMeaning | app/src/main/java/com/provideoplayer/PlayerActivity.kt:770-786 | after the end of a video its saved position reads back as 0. Ending it again changes nothing, and no other preference changes |
| Player.ReleaseTarget | app/src/main/java/com/provideoplayer/PlayerActivity.kt:1324-1375 | releasing the bar targets a fraction of a known duration, inside the media. Otherwise it targets a fraction of a known content duration. Otherwise, for a non-zero progress, a fraction of the buffered position. Otherwise no seek |
| Player.ValidKeys | app/src/main/java/com/provideoplayer/PlayerActivity.kt:2138-2140 | the loop collects exactly the hash keys of the history's URIs |
| Player.RemoveStaleKeys | app/src/main/java/com/provideoplayer/PlayerActivity.kt:2141-2142 | removing the keys outside the valid set leaves exactly the valid entries, with their values |
| Player.PlayerActivity.constructor | app/src/main/java/com/provideoplayer/PlayerActivity.kt:105-202 | the screen starts with an empty playlist, no seek, controls shown, unlocked, no gesture and an empty log, with the screen size and volume read at creation |
| Player.PlayerActivity.LoadIntent | app/src/main/java/com/provideoplayer/PlayerActivity.kt:262-313 | the screen's playlist, index, title, audio flag and network flag become the parsed session |
| Player.PlayerActivity.SetSession | app/src/main/java/com/provideoplayer/PlayerActivity.kt:277-313 | the screen adopts a parsed session, keeping its invariant |
| Player.PlayerActivity.AddLog | app/src/main/java/com/provideoplayer/PlayerActivity.kt:152-162 | the entry "[timestamp] message" is appended and only the last 200 entries are kept |
| Player.PlayerActivity.ShowControls | app/src/main/java/com/provideoplayer/PlayerActivity.kt:1491-1497 | the controls are visible and the auto-hide is armed |
| Player.PlayerActivity.HideControls | app/src/main/java/com/provideoplayer/PlayerActivity.kt:1499-1504 | the controls are hidden |
| Player.PlayerActivity.ToggleControls | app/src/main/java/com/provideoplayer/PlayerActivity.kt:1483-1489 | the visibility flips; showing arms the auto-hide |
| Player.PlayerActivity.HideTimerFires | app/src/main/java/com/provideoplayer/PlayerActivity.kt:1506-1513 | the auto-hide hides the controls only while playing and unlocked |
| Player.PlayerActivity.ToggleLock | app/src/main/java/com/provideoplayer/PlayerActivity.kt:1470-1481 | the lock flips; locking leaves the controls flag alone, unlocking shows the controls |
| Player.PlayerActivity.OnSingleTap | app/src/main/java/com/provideoplayer/PlayerActivity.kt:998-1003 | a single tap toggles the controls unless the screen is locked. Showing them arms the auto-hide, hiding them leaves it as it was; locked, nothing changes |
| Player.PlayerActivity.OnEnded | app/src/main/java/com/provideoplayer/PlayerActivity.kt:754-796 | the ended flag is set. With a player, playback pauses, a non-empty URI's saved position is cleared to 0, and the restart icon and the controls are shown |
| Player.PlayerActivity.StopAtEnd | app/src/main/java/com/provideoplayer/PlayerActivity.kt:762-793 | with a player at the end: playback pauses, the current non-empty URI's saved position is cleared to 0 (an empty one leaves the preferences alone), and the restart icon and the controls with their auto-hide are shown |
| Player.PlayerActivity.ClearSavedPosition | app/src/main/java/com/provideoplayer/PlayerActivity.kt:771-786 | the preference file afterwards is `ClearedPosition` of the one before: 0 under the URI's hash key and as the last position |
| Player.PlayerActivity.OnPlaybackStateChanged | app/src/main/java/com/provideoplayer/PlayerActivity.kt:732-804 | STATE_ENDED has `OnEnded`'s whole effect: the ended flag, and with a player the pause, the cleared position of a non-empty URI, the restart icon and the controls with the auto-hide. Without a player only the flag changes. STATE_READY runs `updateDuration`: a known, positive duration is shown as the total time, and nothing else changes. Every other state changes nothing the model keeps |
| Player.PlayerActivity.UpdateDuration | app/src/main/java/com/provideoplayer/PlayerActivity.kt:2010-2017 | with a player whose duration is known and positive, the total-time text becomes `formatTime(duration)`; otherwise it is unchanged |
| Player.PlayerActivity.UpdatePlayPauseButton | app/src/main/java/com/provideoplayer/PlayerActivity.kt:1409-1431 | with a player the icon follows the ended flag or state and the playing flag; without one it stays |
| Player.PlayerActivity.OnIsPlayingChanged | app/src/main/java/com/provideoplayer/PlayerActivity.kt:806-839 | after the end, a stop never touches the icon. Playing starts progress updates and the auto-hide; stopping stops them and shows the controls |
| Player.PlayerActivity.OnPlayerError | app/src/main/java/com/provideoplayer/PlayerActivity.kt:841-885 | the retry mark follows the one-shot rule; a retry reloads the URI as a progressive download, anything else shows "Unable to play this video" |
| Player.PlayerActivity.CountermandAutoAdvance | app/src/main/java/com/provideoplayer/PlayerActivity.kt:916-938 | an automatic advance is undone: ended flag, pause, seek to the start of the clamped current item, restart icon and controls shown |
| Player.PlayerActivity.OnMediaItemTransition | app/src/main/java/com/provideoplayer/PlayerActivity.kt:905-960 | an automatic advance keeps the current item. With a player it is countermanded: pause, seek to the start of the clamped current index, the ended flag, the restart icon, and the controls with the auto-hide. Without a player nothing else changes. Any other transition follows the engine's index (0 without a player) and changes nothing else |
| Player.PlayerActivity.MoveTo | app/src/main/java/com/provideoplayer/PlayerActivity.kt:941-954 | the current item becomes the index, with its title or "Video" and its audio flag |
| Player.PlayerActivity.OnPositionDiscontinuity | app/src/main/java/com/provideoplayer/PlayerActivity.kt:962-993 | a completed or adjusted seek ends the seek in progress and resumes progress updates; other reasons change nothing |
| Player.PlayerActivity.OnStartTrackingTouch | app/src/main/java/com/provideoplayer/PlayerActivity.kt:1307-1313 | a seek begins; progress updates, the auto-hide and pending seek runnables are cancelled |
| Player.PlayerActivity.OnStopTrackingTouch | app/src/main/java/com/provideoplayer/PlayerActivity.kt:1315-1384 | without a player the seek ends at once. Otherwise the release target is sought and remembered, and a 2000 ms timeout (known duration) or a 500 ms reset is posted |
| Player.PlayerActivity.SeekTimerFires | app/src/main/java/com/provideoplayer/PlayerActivity.kt:1347-1382 | the timeout ends a seek still in progress, the reset ends it unconditionally |
| Player.PlayerActivity.OnProgressChanged | app/src/main/java/com/provideoplayer/PlayerActivity.kt:1295-1305 | dragging previews the time under the thumb when the duration is known |
| Player.PlayerActivity.UpdateProgress | app/src/main/java/com/provideoplayer/PlayerActivity.kt:1984-2008 | nothing while seeking. Otherwise the position text, and with a known duration the total and the bar's percentage (truncated to Int). Otherwise the buffered position as total when positive |
| Player.PlayerActivity.TogglePlayPause | app/src/main/java/com/provideoplayer/PlayerActivity.kt:1390-1407 | playing pauses. Otherwise it plays, first seeking to 0 and clearing the ended flag when ended or within 1.5 s of the end |
| Player.PlayerActivity.SeekForward | app/src/main/java/com/provideoplayer/PlayerActivity.kt:1433-1438 | with a player, issues one seek to the program's forward target, `(position + 10000).coerceAtMost(duration)`; without one, nothing |
| Player.PlayerActivity.SeekBackward | app/src/main/java/com/provideoplayer/PlayerActivity.kt:1440-1445 | seeks to the backward target |
| Player.PlayerActivity.PlayNext | app/src/main/java/com/provideoplayer/PlayerActivity.kt:1447-1453 | advances only when the engine has a next item |
| Player.PlayerActivity.PlayPrevious | app/src/main/java/com/provideoplayer/PlayerActivity.kt:1455-1463 | goes to the previous item, or to the start of the only one |
| Player.PlayerActivity.OnDoubleTap | app/src/main/java/com/provideoplayer/PlayerActivity.kt:1005-1022 | unless locked, the left third seeks backward and the right third seeks to the program's forward target. The middle pauses a playing video; a paused one plays, seeking to 0 first (and clearing the ended flag) when it is at its end. Locked or without a player, no command is issued |
| Player.PlayerActivity.AdjustVolume | app/src/main/java/com/provideoplayer/PlayerActivity.kt:1527-1536 | the volume becomes the adjusted volume |
| Player.PlayerActivity.OnScroll | app/src/main/java/com/provideoplayer/PlayerActivity.kt:1024-1064 | a scroll is ignored while locked or without a first event. The first scroll of a touch fixes the gesture type, later ones keep it, and a volume gesture moves the volume by the frame's share of the height |
| Player.PlayerActivity.OnTouchEnd | app/src/main/java/com/provideoplayer/PlayerActivity.kt:1187-1192 | the touch ends and its gesture type is cleared |
| Player.PlayerActivity.SaveToHistory | app/src/main/java/com/provideoplayer/PlayerActivity.kt:2071-2150 | nothing for a missing item or an audio URI; otherwise the preferences become the saved session |
| Player.PlayerActivity.OnPause | app/src/main/java/com/provideoplayer/PlayerActivity.kt:2061-2069 | in picture-in-picture nothing happens; otherwise the session is saved and playback stops when ready |

## Left out

- ExoPlayer and OkHttp construction, and the media-source factories, are foreign libraries. This covers `initializePlayer`, `loadNetworkStreams`, `loadLocalVideos` and the body of `retryWithMimeType`. The model keeps only the commands the screen issues.
- The catalogue scans (`VideoScanner`, the content resolver) are foreign I/O: their results, or the exception they throw, are parameters.
- Views, RecyclerView adapters, Glide, dialogs, toasts' durations, layout and grid preferences, animations, file deletion and sharing, settings, the permission flow and picture-in-picture entry are platform rendering and lifecycle. The model keeps the lists submitted, the empty-view texts, the subtitle and the toast texts.
- Brightness, zoom and pan are float arithmetic on window and view state and are not modelled.
- The per-handler debug log messages are not modelled; `AddLog` models the log itself.
- Times, screen sizes and the platform's `Uri.lastPathSegment` are parameters.
- `Float` arithmetic (the volume step) is modelled over `real` with truncation toward zero. `Float` rounding and the saturation of `Float.toInt()` at the `Int` range are not modelled.
- `Long` overflow in `duration * progress` is not modelled. The seek bar's `toInt()` cast is modelled by `Text.ToInt32`.
- `Text.Pad2`: `String.format("%02d")` writes the default locale's digits. The model writes ASCII digits, which is what the app shows under a locale with Latin digits. The same holds for `Media.FormattedDuration` and `PlayerRules.FormatTime`, which use it.
- `Text.ParseInt`: Kotlin's `toIntOrNull()` accepts any Unicode decimal digit. The model accepts the ASCII digits '0'-'9' only.
- Kotlin's `lowercase()` and `ignoreCase` comparisons are Unicode-aware. The model folds ASCII letters only.
- Android's `Uri.parse(...)` is modelled only through its scheme, the text before the first ':'. The rest of its parsing (authority, path, encoding) is not modelled.
- Non-string elements of a JSON history array are not modelled: the app only ever writes strings there.
- The gesture indicator's percentage (`currentVolume * 100 / maxVolume`) is not modelled.
- `Player.PlayerActivity.OnMediaItemTransition`: requires a non-empty playlist for an automatic advance with a player, because Kotlin's `coerceIn(0, size - 1)` throws there.
- `Media.FormattedSize`: the two-decimal rendering of the KB/MB/GB branches is left abstract; only the byte branch and the scaled value's range are stated.
- `getFormattedDate` and `VideoItem`'s other display helpers are not modelled.
- `PermissionManager.kt` and `SettingsActivity.kt` are not part of this model. They hold only platform permission calls and preference toggles.

## Findings

| source | as written | input that shows it | evidently intended | confidence | as-written member | corrected member |
|---|---|---|---|---|---|---|
| app/src/main/java/com/provideoplayer/PlayerActivity.kt:1435 | `seekForward` seeks to `(currentPosition + 10000).coerceAtMost(duration)`. While the engine does not know the duration, `duration` is `C.TIME_UNSET` (`Long.MIN_VALUE + 1`) | a live stream at position 5000 with an unknown duration: the target is `TIME_UNSET`, not 15000. The engine takes a `TIME_UNSET` seek as a seek to the default position, so the skip jumps to the start or the live edge | cap the target by the duration only when the duration is known and positive, as the seek bar and `updateProgress` do | medium, not executed | PlayerRules.SeekForwardUnknownDuration | PlayerRules.SeekForwardMovesForward |

The screen's `SeekForward` and `OnDoubleTap` issue the target as written, since that is what the program does. `PlayerRules.SeekForwardTarget` is the corrected target, and `PlayerRules.SeekForwardMovesForward` proves the intended property about it.
