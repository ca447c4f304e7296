/**
 * The playback screen's decisions that depend only on their inputs: the session the
 * intent selects, the clock text, the MIME type guessed from a URI, the retry rule
 * for parse errors, the seek targets, the play/pause icon, the gesture chosen by a
 * scroll, the volume step, and what leaving the screen writes to the preference file.
 */
module PlayerRules {
  import opened Text
  import opened Seqs
  import opened Media
  import opened Prefs
  import opened History
  import opened Intents

  /** `C.TIME_UNSET` (`Long.MIN_VALUE + 1`): the engine does not know the value. */
  const TIME_UNSET := -9223372036854775807
  const SEEK_INCREMENT := 10000
  const HIDE_CONTROLS_DELAY := 4000
  /** How long a seek may wait for the engine's confirmation. */
  const SEEK_TIMEOUT := 2000
  /** When the duration is unknown, the seek state is reset after this long regardless. */
  const SEEK_RESET_DELAY := 500
  /** `togglePlayPause` restarts from 0 this close to the end. */
  const END_WINDOW := 1500
  /** `saveToHistory` stores 0 for a video this close to its end. */
  const COMPLETE_WINDOW := 1000
  const MAX_LOG_ENTRIES := 200
  const DEFAULT_TITLE := "Video"

  // ---------------------------------------------------------------- Kotlin helpers

  /** `list.getOrNull(i)`. */
  function GetOrNull(s: seq<string>, i: int): (r: Option<string>)
    ensures r.Some? <==> 0 <= i < |s|
    ensures r.Some? ==> r.value == s[i]
  {
    if 0 <= i < |s| then Some(s[i]) else None
  }

  /** The elvis operator `o ?: d`. */
  function OrElse(o: Option<string>, d: string): string
  {
    match o case Some(v) => v case None => d
  }

  /** `v.coerceIn(lo, hi)`; Kotlin throws when `hi < lo`. */
  function CoerceIn(v: int, lo: int, hi: int): (r: int)
    requires lo <= hi
    ensures lo <= r <= hi
    ensures lo <= v <= hi ==> r == v
    ensures v < lo ==> r == lo
    ensures v > hi ==> r == hi
  {
    if v < lo then lo else if v > hi then hi else v
  }

  /** `Float.toInt()`: truncation toward zero (the saturation at the `Int` range is not modelled). */
  function TruncateToInt(x: real): (r: int)
    ensures x >= 0.0 ==> 0 <= r && r as real <= x < r as real + 1.0
    ensures x < 0.0 ==> r <= 0 && r as real - 1.0 < x <= r as real
  {
    if x >= 0.0 then x.Floor else -((-x).Floor)
  }

  // ---------------------------------------------------------------- the session chosen by the intent

  /** The playlist fields, the title shown and the audio flag of the item being played. */
  datatype Session = Session(
    playlist: seq<string>,
    titles: seq<string>,
    index: int,
    isNetworkStream: bool,
    title: string,
    isAudioFile: bool)

  /** The title shown and the audio flag follow from the playlist and the index. */
  function SessionAt(playlist: seq<string>, titles: seq<string>, index: int, isNetworkStream: bool): (r: Session)
    ensures r.playlist == playlist && r.titles == titles && r.index == index
    ensures r.isNetworkStream == isNetworkStream
    ensures 0 <= index < |titles| ==> r.title == titles[index]
    ensures !(0 <= index < |titles|) ==> r.title == DEFAULT_TITLE
    ensures !(0 <= index < |playlist|) ==> !r.isAudioFile
  {
    var uri := OrElse(GetOrNull(playlist, index), []);
    Session(playlist, titles, index, isNetworkStream, OrElse(GetOrNull(titles, index), DEFAULT_TITLE), IsAudioUri(uri))
  }

  /** `currentIndex.coerceIn(0, (playlist.size - 1).coerceAtLeast(0))`. */
  function PlaylistIndex(requested: int, size: nat): (r: int)
    ensures size == 0 ==> r == 0
    ensures size > 0 ==> 0 <= r < size
    ensures 0 <= requested < size ==> r == requested
    ensures requested < 0 ==> r == 0
    ensures requested >= size > 0 ==> r == size - 1
  {
    CoerceIn(requested, 0, if size - 1 < 0 then 0 else size - 1)
  }

  predicate NonEmpty(u: string) { u != [] }

  /**
   * The playlist, titles and requested index before the clamp: the playlist extra when it is
   * non-empty (empty entries dropped, titles defaulting to "Video" each), else the single
   * URI extra, else the intent's data URI titled by its last path segment, else nothing.
   */
  function Sources(intent: PlayerIntent, lastPathSegment: Option<string>): (seq<string>, seq<string>, int)
  {
    var requested := match intent.index case Some(i) => i case None => 0;
    if intent.playlist.Some? && intent.playlist.value != [] then
      var playlist := Filter(intent.playlist.value, NonEmpty);
      (playlist, match intent.titles case Some(t) => t case None => seq(|playlist|, _ => DEFAULT_TITLE), requested)
    else if intent.uri.Some? && intent.uri.value != [] then
      ([intent.uri.value], [OrElse(intent.title, DEFAULT_TITLE)], 0)
    else if intent.data.Some? then
      ([intent.data.value], [OrElse(lastPathSegment, DEFAULT_TITLE)], 0)
    else
      ([], [], requested)
  }

  /**
   * `parseIntent()`. `lastPathSegment` is the platform's `Uri.lastPathSegment` of the data
   * URI. The index always lands inside a non-empty playlist, and is 0 for an empty one.
   */
  function ParseIntent(intent: PlayerIntent, lastPathSegment: Option<string>): (r: Session)
    ensures r.playlist == [] ==> r.index == 0 && !r.isAudioFile
    ensures r.playlist != [] ==> 0 <= r.index < |r.playlist|
    ensures r.isNetworkStream == (intent.isNetworkStream == Some(true))
  {
    var (playlist, titles, requested) := Sources(intent, lastPathSegment);
    SessionAt(playlist, titles, PlaylistIndex(requested, |playlist|),
      match intent.isNetworkStream case Some(b) => b case None => false)
  }

  /** Where the playlist of `parseIntent` comes from, case by case. */
  lemma ParseIntentSources(intent: PlayerIntent, lastPathSegment: Option<string>)
    ensures var r := ParseIntent(intent, lastPathSegment);
      var requested := match intent.index case Some(i) => i case None => 0;
      if intent.playlist.Some? && intent.playlist.value != [] then
        Subsequence(r.playlist, intent.playlist.value)
        && (forall u :: u in intent.playlist.value && u != [] <==> u in r.playlist)
        && (intent.titles.None? ==> |r.titles| == |r.playlist| && forall t :: t in r.titles ==> t == DEFAULT_TITLE)
        && (0 <= requested < |r.playlist| ==> r.index == requested)
      else if intent.uri.Some? && intent.uri.value != [] then
        r.playlist == [intent.uri.value] && r.index == 0 && r.title == OrElse(intent.title, DEFAULT_TITLE)
      else if intent.data.Some? then
        r.playlist == [intent.data.value] && r.index == 0 && r.title == OrElse(lastPathSegment, DEFAULT_TITLE)
      else
        r.playlist == [] && r.index == 0
  {
    if intent.playlist.Some? && intent.playlist.value != [] {
      FilterSubsequence(intent.playlist.value, NonEmpty);
    }
  }

  // ---------------------------------------------------------------- clock text

  /** `formatTime(millis)`: "00:00" for a negative or unknown time, else the item's clock format. */
  function FormatTime(millis: int): (r: string)
    ensures millis < 0 ==> r == "00:00"
    ensures |r| >= 5
  {
    if millis < 0 || millis == TIME_UNSET then "00:00" else FormattedDuration(millis)
  }

  /** Below 100 hours the text reads back as the hours, minutes and seconds of the time. */
  lemma FormatTimeReadsBack(millis: int)
    requires 0 <= millis < 100 * 3600000
    ensures var r := FormatTime(millis);
      (millis < 3600000 ==>
        |r| == 5 && r[2] == ':' && AllDigits(r[..2]) && AllDigits(r[3..])
        && DigitsValue(r[..2]) == Minutes(millis) && DigitsValue(r[3..]) == Seconds(millis))
      && (millis >= 3600000 ==>
        |r| == 8 && r[2] == ':' && r[5] == ':'
        && AllDigits(r[..2]) && AllDigits(r[3..5]) && AllDigits(r[6..])
        && DigitsValue(r[..2]) == Hours(millis) && DigitsValue(r[3..5]) == Minutes(millis)
        && DigitsValue(r[6..]) == Seconds(millis))
  {
    if millis < 3600000 {
      ShortDurationReadsBack(millis);
    } else {
      LongDurationReadsBack(millis);
    }
  }

  // ---------------------------------------------------------------- MIME type of a URI

  const VIDEO_MP4 := "video/mp4"
  const VIDEO_MATROSKA := "video/x-matroska"
  const VIDEO_WEBM := "video/webm"
  const VIDEO_H263 := "video/3gpp"
  const VIDEO_MP2T := "video/mp2t"
  const VIDEO_UNKNOWN := "video/x-unknown"
  const APPLICATION_M3U8 := "application/x-mpegURL"
  const APPLICATION_MPD := "application/dash+xml"

  /** The extensions `getVideoMimeTypeFromExtension` recognises. */
  const KNOWN_EXTENSIONS: set<string> :=
    {"mp4", "m4v", "mkv", "webm", "3gp", "3gpp", "avi", "mov", "flv", "wmv", "ts", "m3u8", "mpd"}

  /** `getVideoMimeTypeFromExtension(extension)`: never null, "video/x-unknown" for anything unknown. */
  function VideoMimeType(extension: string): (r: string)
    ensures r == VIDEO_UNKNOWN <==> extension !in KNOWN_EXTENSIONS
    ensures StartsWith(r, "video/") || StartsWith(r, "application/")
  {
    if extension == "mp4" || extension == "m4v" then VIDEO_MP4
    else if extension == "mkv" then VIDEO_MATROSKA
    else if extension == "webm" then VIDEO_WEBM
    else if extension == "3gp" || extension == "3gpp" then VIDEO_H263
    else if extension == "avi" then "video/avi"
    else if extension == "mov" then VIDEO_MP4
    else if extension == "flv" then "video/x-flv"
    else if extension == "wmv" then "video/x-ms-wmv"
    else if extension == "ts" then VIDEO_MP2T
    else if extension == "m3u8" then APPLICATION_M3U8
    else if extension == "mpd" then APPLICATION_MPD
    else VIDEO_UNKNOWN
  }

  predicate IsHttpScheme(scheme: Option<string>)
  {
    scheme == Some("http") || scheme == Some("https")
  }

  /** The streaming patterns a network URL is tested for, in order. */
  predicate HasStreamPattern(uri: string)
  {
    ContainsIgnoreCase(uri, ".m3u8") || ContainsIgnoreCase(uri, ".mpd") || ContainsIgnoreCase(uri, ".mp4")
    || ContainsIgnoreCase(uri, ".mkv") || ContainsIgnoreCase(uri, ".webm")
  }

  /**
   * `getMimeType(uriString)`. `resolverType` is what the content resolver reports for a
   * content URI. `None` lets the engine detect the type itself.
   */
  function GetMimeType(uri: string, resolverType: Option<string>): (r: Option<string>)
    ensures Scheme(uri) == Some("content") ==> r == resolverType
    ensures Scheme(uri) == Some("file") ==> r.Some?
    ensures IsHttpScheme(Scheme(uri)) ==> (r == Some(APPLICATION_M3U8) <==> ContainsIgnoreCase(uri, ".m3u8"))
    ensures IsHttpScheme(Scheme(uri)) ==> (r.None? <==> !HasStreamPattern(uri))
    ensures Scheme(uri) != Some("content") && Scheme(uri) != Some("file") && !IsHttpScheme(Scheme(uri)) ==> r.None?
  {
    match Scheme(uri)
    case Some(scheme) =>
      if scheme == "content" then resolverType
      else if scheme == "file" then Some(VideoMimeType(Lower(SubstringAfterLastOr(uri, '.', []))))
      else if scheme == "http" || scheme == "https" then StreamMimeType(uri)
      else None
    case None => None
  }

  /** The http(s) branch of `getMimeType`: the first stream pattern the URL contains picks the type. */
  function StreamMimeType(uri: string): (r: Option<string>)
    ensures r == Some(APPLICATION_M3U8) <==> ContainsIgnoreCase(uri, ".m3u8")
    ensures r.None? <==> !HasStreamPattern(uri)
  {
    if ContainsIgnoreCase(uri, ".m3u8") then Some(APPLICATION_M3U8)
    else if ContainsIgnoreCase(uri, ".mpd") then Some(APPLICATION_MPD)
    else if ContainsIgnoreCase(uri, ".mp4") then Some(VIDEO_MP4)
    else if ContainsIgnoreCase(uri, ".mkv") then Some(VIDEO_MATROSKA)
    else if ContainsIgnoreCase(uri, ".webm") then Some(VIDEO_WEBM)
    else None
  }

  // ---------------------------------------------------------------- parse errors and the one-shot retry

  /** `onPlayerError`'s stream test on the current URI. */
  predicate IsNetworkUri(uri: string)
  {
    StartsWith(uri, "http://") || StartsWith(uri, "https://")
  }

  /** A parse error on a network stream is retried as a progressive download, once. */
  predicate RetriesAsProgressive(uri: string, parsingError: bool, marker: int)
  {
    IsNetworkUri(uri) && parsingError && marker == 0
  }

  /** `currentMimeTypeIndex` after an error: 1 after a retry, 0 after any other error. */
  function MarkerAfterError(uri: string, parsingError: bool, marker: int): (r: int)
    ensures r == 1 <==> RetriesAsProgressive(uri, parsingError, marker)
    ensures r == 0 <==> !RetriesAsProgressive(uri, parsingError, marker)
  {
    if RetriesAsProgressive(uri, parsingError, marker) then 1 else 0
  }

  /** One `onPlayerError` call: the URI being played and whether the error is parse-related. */
  datatype PlayerError = PlayerError(uri: string, parsingError: bool)

  /** For a run of errors starting from `marker`, whether each one was retried. */
  function Retries(marker: int, errors: seq<PlayerError>): (r: seq<bool>)
    ensures |r| == |errors|
    decreases |errors|
  {
    if errors == [] then []
    else
      var e := errors[0];
      [RetriesAsProgressive(e.uri, e.parsingError, marker)]
        + Retries(MarkerAfterError(e.uri, e.parsingError, marker), errors[1..])
  }

  /** Whatever the errors are, two consecutive errors are never both retried. */
  lemma {:induction false} NoTwoRetriesInARow(marker: int, errors: seq<PlayerError>)
    ensures forall i :: 0 <= i < |errors| - 1 ==> !(Retries(marker, errors)[i] && Retries(marker, errors)[i + 1])
    decreases |errors|
  {
    if errors != [] {
      var e := errors[0];
      var next := MarkerAfterError(e.uri, e.parsingError, marker);
      var r := Retries(marker, errors);
      var tail := Retries(next, errors[1..]);
      assert r == [RetriesAsProgressive(e.uri, e.parsingError, marker)] + tail;
      NoTwoRetriesInARow(next, errors[1..]);
      forall i | 0 <= i < |errors| - 1
        ensures !(r[i] && r[i + 1])
      {
        if i == 0 {
          if r[0] {
            assert next == 1;
            assert errors[1..] == [errors[1]] + errors[2..];
            assert !tail[0];
          }
        } else {
          assert r[i] == tail[i - 1] && r[i + 1] == tail[i];
        }
      }
    }
  }

  // ---------------------------------------------------------------- seeking

  /** The seek bar's target: `length * progress / 100` in `Long` arithmetic. */
  function SeekBarTarget(length: int, progress: int): int
  {
    TruncDiv(length * progress, 100)
  }

  /** With a known duration and progress in [0, 100], the target lies inside the media. */
  lemma SeekBarTargetInRange(duration: int, progress: int)
    requires duration > 0
    ensures 0 <= progress <= 100 ==> 0 <= SeekBarTarget(duration, progress) <= duration
    ensures progress == 0 ==> SeekBarTarget(duration, progress) == 0
    ensures progress == 100 ==> SeekBarTarget(duration, progress) == duration
  {
    if 0 <= progress <= 100 {
      assert 0 <= duration * progress <= duration * 100;
    }
  }

  /** `seekForward`'s target as written: `(position + 10000).coerceAtMost(duration)`. */
  function SeekForwardTargetAsWritten(position: int, duration: int): (r: int)
    ensures r <= duration && r <= position + SEEK_INCREMENT
    ensures r == duration || r == position + SEEK_INCREMENT
  {
    if position + SEEK_INCREMENT > duration then duration else position + SEEK_INCREMENT
  }

  /** With an unknown duration the target written is the `TIME_UNSET` marker itself. */
  lemma SeekForwardUnknownDuration()
    ensures SeekForwardTargetAsWritten(5000, TIME_UNSET) == TIME_UNSET
    ensures SeekForwardTargetAsWritten(5000, TIME_UNSET) < 0
  {
  }

  /** `seekForward`'s target, capped by the duration only when the duration is known. */
  function SeekForwardTarget(position: int, duration: int): (r: int)
    ensures duration != TIME_UNSET && duration > 0 ==> r <= duration
  {
    if duration != TIME_UNSET && duration > 0 && position + SEEK_INCREMENT > duration then duration
    else position + SEEK_INCREMENT
  }

  /** Seeking forward from a valid position never moves backwards nor below 0. */
  lemma SeekForwardMovesForward(position: int, duration: int)
    requires 0 <= position
    requires duration == TIME_UNSET || duration <= 0 || position <= duration
    ensures position <= SeekForwardTarget(position, duration) <= position + SEEK_INCREMENT
    ensures duration != TIME_UNSET && duration > 0 ==>
      SeekForwardTarget(position, duration) == SeekForwardTargetAsWritten(position, duration)
  {
  }

  /** `seekBackward`'s target: `(position - 10000).coerceAtLeast(0)`. */
  function SeekBackwardTarget(position: int): (r: int)
    ensures r >= 0
    ensures position >= SEEK_INCREMENT ==> r == position - SEEK_INCREMENT
    ensures position < SEEK_INCREMENT ==> r == 0
  {
    if position - SEEK_INCREMENT < 0 then 0 else position - SEEK_INCREMENT
  }

  // ---------------------------------------------------------------- the play/pause icon

  datatype Icon = PlayIcon | PauseIcon | RestartIcon

  /** `updatePlayPauseButton`'s choice. */
  function PlayPauseIcon(isEnded: bool, isPlaying: bool): (r: Icon)
    ensures r == RestartIcon <==> isEnded && !isPlaying
    ensures r == PauseIcon <==> isPlaying
    ensures r == PlayIcon <==> !isEnded && !isPlaying
  {
    if isEnded && !isPlaying then RestartIcon else if isPlaying then PauseIcon else PlayIcon
  }

  /** `togglePlayPause`'s "start again from the beginning" test. */
  predicate AtEnd(videoHasEnded: bool, duration: int, position: int)
  {
    videoHasEnded || (duration > 0 && position >= duration - END_WINDOW)
  }

  // ---------------------------------------------------------------- gestures

  datatype GestureType = NoGesture | Brightness | Volume | SeekGesture

  function Abs(x: real): real { if x < 0.0 then -x else x }

  /**
   * The type fixed on the first scroll of a touch: mostly horizontal is a seek, else the
   * left half of the screen (integer half of its width) is brightness and the right half volume.
   */
  function ClassifyGesture(dx: real, dy: real, x: real, screenWidth: int): (r: GestureType)
    ensures r != NoGesture
    ensures r == SeekGesture <==> Abs(dx) > Abs(dy)
    ensures r == Brightness <==> Abs(dx) <= Abs(dy) && x < TruncDiv(screenWidth, 2) as real
    ensures r == Volume <==> Abs(dx) <= Abs(dy) && x >= TruncDiv(screenWidth, 2) as real
  {
    if Abs(dx) > Abs(dy) then SeekGesture
    else if x < TruncDiv(screenWidth, 2) as real then Brightness
    else Volume
  }

  /** One scroll callback of a touch: the deltas from the touch's first point, and that point's x. */
  datatype Scroll = Scroll(dx: real, dy: real, x: real)

  /** The gesture type after a run of scroll callbacks, from `(active, g)`. */
  function GestureAfter(active: bool, g: GestureType, scrolls: seq<Scroll>, screenWidth: int): GestureType
    decreases |scrolls|
  {
    if scrolls == [] then g
    else
      var s := scrolls[0];
      GestureAfter(true, if active then g else ClassifyGesture(s.dx, s.dy, s.x, screenWidth), scrolls[1..], screenWidth)
  }

  /** Once a touch has a gesture type, later scrolls of that touch never change it. */
  lemma {:induction false} ActiveGestureSticks(g: GestureType, scrolls: seq<Scroll>, screenWidth: int)
    ensures GestureAfter(true, g, scrolls, screenWidth) == g
    decreases |scrolls|
  {
    if scrolls != [] {
      ActiveGestureSticks(g, scrolls[1..], screenWidth);
    }
  }

  /** A whole touch has the type its first scroll chose. */
  lemma FirstScrollDecides(scrolls: seq<Scroll>, screenWidth: int)
    requires scrolls != []
    ensures GestureAfter(false, NoGesture, scrolls, screenWidth)
      == ClassifyGesture(scrolls[0].dx, scrolls[0].dy, scrolls[0].x, screenWidth)
  {
    ActiveGestureSticks(ClassifyGesture(scrolls[0].dx, scrolls[0].dy, scrolls[0].x, screenWidth), scrolls[1..], screenWidth);
  }

  /** Which part of the screen a double tap hits: integer thirds of the width. */
  datatype TapZone = LeftThird | MiddleThird | RightThird

  function TapZoneOf(x: real, screenWidth: int): (r: TapZone)
    ensures r == LeftThird <==> x < TruncDiv(screenWidth, 3) as real
    ensures r == RightThird <==> x >= TruncDiv(screenWidth, 3) as real && x > TruncDiv(screenWidth * 2, 3) as real
  {
    if x < TruncDiv(screenWidth, 3) as real then LeftThird
    else if x > TruncDiv(screenWidth * 2, 3) as real then RightThird
    else MiddleThird
  }

  // ---------------------------------------------------------------- volume

  /** `adjustVolume(delta)`: the new volume, `(current + (delta * max * 1.5).toInt()).coerceIn(0, max)`. */
  function AdjustedVolume(current: int, maxVolume: int, delta: real): (r: int)
    requires maxVolume >= 0
    ensures 0 <= r <= maxVolume
  {
    CoerceIn(current + TruncateToInt(delta * maxVolume as real * 1.5), 0, maxVolume)
  }

  /** A swipe up never lowers the volume and a swipe down never raises it. */
  lemma VolumeFollowsSwipe(current: int, maxVolume: int, delta: real)
    requires 0 <= current <= maxVolume
    ensures delta >= 0.0 ==> current <= AdjustedVolume(current, maxVolume, delta)
    ensures delta <= 0.0 ==> AdjustedVolume(current, maxVolume, delta) <= current
    ensures delta == 0.0 ==> AdjustedVolume(current, maxVolume, delta) == current
  {
    var x := delta * maxVolume as real * 1.5;
    if delta >= 0.0 {
      assert x >= 0.0 by { MulNonNegative(delta, maxVolume as real); }
    } else {
      assert x <= 0.0 by { MulNonNegative(-delta, maxVolume as real); }
    }
  }

  lemma MulNonNegative(a: real, b: real)
    requires a >= 0.0 && b >= 0.0
    ensures a * b * 1.5 >= 0.0
    ensures (-a) * b * 1.5 <= 0.0
  {
  }

  // ---------------------------------------------------------------- what the player remembers

  /** The keys of `video_positions` that belong to the URIs of `history`. */
  function HashKeys(history: seq<string>): set<string>
  {
    set u | u in history :: HashKey(u)
  }

  /** A video within a second of its end is stored as finished (0). */
  function PositionToSave(position: int, duration: int): (r: int)
    ensures duration > 0 && position >= duration - COMPLETE_WINDOW ==> r == 0
    ensures !(duration > 0 && position >= duration - COMPLETE_WINDOW) ==> r == position
  {
    if duration > 0 && position >= duration - COMPLETE_WINDOW then 0 else position
  }

  /** The position entries whose key is kept. */
  function Pruned(positions: map<string, int>, keep: set<string>): (r: map<string, int>)
    ensures r.Keys == positions.Keys * keep
    ensures forall k :: k in r ==> r[k] == positions[k]
  {
    map k | k in positions && k in keep :: positions[k]
  }

  /**
   * The preference file after `saveToHistory` records `uri`: the history (cap 20), the
   * position under the URI's key with every key outside the history dropped, and the
   * "continue" entries, of which `last_video_position` is the raw position.
   */
  function SavedSession(values: map<string, Pref>, uri: string, title: string, position: int, duration: int): map<string, Pref>
  {
    var history := MostRecent(ArrayOrEmpty(values, VIDEO_HISTORY), uri, VIDEO_CAP);
    var positions := ObjectOrEmpty(values, VIDEO_POSITIONS)[HashKey(uri) := PositionToSave(position, duration)];
    values[VIDEO_HISTORY := JsonArray(history)]
      [VIDEO_POSITIONS := JsonObject(Pruned(positions, HashKeys(history)))]
      [LAST_VIDEO_URI := StringValue(uri)]
      [LAST_VIDEO_TITLE := StringValue(title)]
      [LAST_VIDEO_POSITION := LongValue(position)]
  }

  /** What `saveToHistory` leaves behind. */
  lemma SavedSessionMeaning(values: map<string, Pref>, uri: string, title: string, position: int, duration: int)
    ensures var v := SavedSession(values, uri, title, position, duration);
      VIDEO_HISTORY in v && v[VIDEO_HISTORY].JsonArray? && VIDEO_POSITIONS in v && v[VIDEO_POSITIONS].JsonObject?
      && var h := v[VIDEO_HISTORY].items;
      var p := v[VIDEO_POSITIONS].entries;
      |h| <= VIDEO_CAP && h != [] && h[|h| - 1] == uri && uri !in h[..|h| - 1]
      && HashKey(uri) in p && p[HashKey(uri)] == PositionToSave(position, duration)
      && (forall k :: k in p ==> k in HashKeys(h))
      && v[LAST_VIDEO_URI] == StringValue(uri) && v[LAST_VIDEO_TITLE] == StringValue(title)
      && v[LAST_VIDEO_POSITION] == LongValue(position)
  {
    var h := MostRecent(ArrayOrEmpty(values, VIDEO_HISTORY), uri, VIDEO_CAP);
    var p := Pruned(ObjectOrEmpty(values, VIDEO_POSITIONS)[HashKey(uri) := PositionToSave(position, duration)], HashKeys(h));
    SavedSessionLayout(values, uri, title, position, duration, h, p);
    MostRecentLast(ArrayOrEmpty(values, VIDEO_HISTORY), uri, VIDEO_CAP);
    MostRecentBounded(ArrayOrEmpty(values, VIDEO_HISTORY), uri, VIDEO_CAP);
    assert h[|h| - 1] in h;
    assert HashKey(uri) in HashKeys(h);
  }

  /** Where `SavedSession` puts each of its five entries. */
  lemma SavedSessionLayout(values: map<string, Pref>, uri: string, title: string, position: int, duration: int,
                           h: seq<string>, p: map<string, int>)
    requires h == MostRecent(ArrayOrEmpty(values, VIDEO_HISTORY), uri, VIDEO_CAP)
    requires p == Pruned(ObjectOrEmpty(values, VIDEO_POSITIONS)[HashKey(uri) := PositionToSave(position, duration)], HashKeys(h))
    ensures var v := SavedSession(values, uri, title, position, duration);
      VIDEO_HISTORY in v && v[VIDEO_HISTORY] == JsonArray(h)
      && VIDEO_POSITIONS in v && v[VIDEO_POSITIONS] == JsonObject(p)
      && v[LAST_VIDEO_URI] == StringValue(uri) && v[LAST_VIDEO_TITLE] == StringValue(title)
      && v[LAST_VIDEO_POSITION] == LongValue(position)
  {
  }

  /** Position entries already stored for URIs still in the history survive a save unchanged. */
  lemma SavedSessionKeepsOthers(values: map<string, Pref>, uri: string, title: string, position: int, duration: int, other: string)
    requires VIDEO_POSITIONS in values && values[VIDEO_POSITIONS].JsonObject?
    requires HashKey(other) in values[VIDEO_POSITIONS].entries && HashKey(other) != HashKey(uri)
    requires other in MostRecent(ArrayOrEmpty(values, VIDEO_HISTORY), uri, VIDEO_CAP)
    ensures var v := SavedSession(values, uri, title, position, duration);
      v[VIDEO_POSITIONS].JsonObject?
      && HashKey(other) in v[VIDEO_POSITIONS].entries
      && v[VIDEO_POSITIONS].entries[HashKey(other)] == values[VIDEO_POSITIONS].entries[HashKey(other)]
  {
    assert HashKey(other) in HashKeys(MostRecent(ArrayOrEmpty(values, VIDEO_HISTORY), uri, VIDEO_CAP));
  }

  /** What STATE_ENDED writes: 0 under the URI's key and as `last_video_position`. */
  function ClearedPosition(values: map<string, Pref>, uri: string): map<string, Pref>
  {
    values[VIDEO_POSITIONS := JsonObject(ObjectOrEmpty(values, VIDEO_POSITIONS)[HashKey(uri) := 0])]
      [LAST_VIDEO_POSITION := LongValue(0)]
  }

  /** After the end of a video its saved position reads back as 0, and ending it again changes nothing. */
  lemma ClearedPositionMeaning(values: map<string, Pref>, uri: string)
    ensures SavedPlaybackPosition(ClearedPosition(values, uri), uri) == 0
    ensures ClearedPosition(ClearedPosition(values, uri), uri) == ClearedPosition(values, uri)
    ensures forall k :: k != VIDEO_POSITIONS && k != LAST_VIDEO_POSITION && k in values ==>
      k in ClearedPosition(values, uri) && ClearedPosition(values, uri)[k] == values[k]
  {
    var once := ClearedPosition(values, uri);
    var positions := ObjectOrEmpty(values, VIDEO_POSITIONS)[HashKey(uri) := 0];
    assert ObjectOrEmpty(once, VIDEO_POSITIONS) == positions;
    assert positions[HashKey(uri) := 0] == positions;
  }
}
