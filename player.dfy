/**
 * The playback screen (`PlayerActivity`) as a state machine: its fields, the engine
 * callbacks, the touch and seek-bar handlers, and what it saves when it is left.
 * The engine is outside the model: every handler receives what the engine reports at
 * that moment (`None` where the screen finds no player), and the screen's calls into the
 * engine are appended to `commands`. Delayed runnables are explicit "timer fires" events.
 */
module Player {
  import opened Text
  import opened Media
  import opened Prefs
  import opened History
  import opened Intents
  import opened PlayerRules

  /** The engine's playback states. */
  datatype PlaybackState = StateIdle | StateBuffering | StateReady | StateEnded

  /** Why the engine moved to another media item. */
  datatype TransitionReason = AutoTransition | SeekTransition | RepeatTransition | PlaylistChanged

  /** Why the playback position jumped. */
  datatype DiscontinuityReason = SeekDiscontinuity | SeekAdjustment | AutoDiscontinuity | OtherDiscontinuity

  /** The screen's calls into the engine, in the order issued. */
  datatype Command =
    | Pause
    | Play
    | SeekTo(position: int)                  // `seekTo(positionMs)` within the current item
    | SeekToItem(index: int, position: int)  // `seekTo(mediaItemIndex, positionMs)`
    | SeekToNextItem
    | SeekToPreviousItem
    | RetryProgressive(uri: string)          // `retryWithMimeType(uri, null)`
    | StopWhenReady                          // `playWhenReady = false`

  /** What a handler reads from the engine. */
  datatype Engine = Engine(
    isPlaying: bool,
    state: PlaybackState,
    position: int,
    duration: int,
    contentDuration: int,
    bufferedPosition: int,
    mediaItemIndex: int,
    hasNext: bool,
    hasPrevious: bool)

  /** The runnables the seek bar posts: the 2000 ms confirmation timeout and the 500 ms reset. */
  datatype SeekTimer = SeekTimeout | SeekReset

  const TRYING_ANOTHER_FORMAT := "Trying another format..."
  const UNABLE_TO_PLAY := "Unable to play this video"

  /** `player?.currentPosition ?: 0` and `player?.duration ?: 0`. */
  function PositionOf(player: Option<Engine>): int
  {
    match player case Some(p) => p.position case None => 0
  }

  function DurationOf(player: Option<Engine>): int
  {
    match player case Some(p) => p.duration case None => 0
  }

  /** A duration the screen trusts: known and positive. */
  predicate KnownDuration(d: int)
  {
    d != TIME_UNSET && d > 0
  }

  /**
   * Where releasing the seek bar seeks: a fraction of the duration when it is known, else of
   * the content duration, else (for a non-zero progress) of the buffered position; none otherwise.
   */
  function ReleaseTarget(progress: int, p: Engine): (r: Option<int>)
    ensures KnownDuration(p.duration) && 0 <= progress <= 100 ==> r.Some? && 0 <= r.value <= p.duration
    ensures !KnownDuration(p.duration) && KnownDuration(p.contentDuration) && 0 <= progress <= 100
      ==> r.Some? && 0 <= r.value <= p.contentDuration
    ensures r.None? <==>
      (!KnownDuration(p.duration) && !KnownDuration(p.contentDuration) && !(p.bufferedPosition > 0 && progress > 0))
  {
    if KnownDuration(p.duration) then
      SeekBarTargetInRange(p.duration, progress);
      Some(SeekBarTarget(p.duration, progress))
    else if KnownDuration(p.contentDuration) then
      SeekBarTargetInRange(p.contentDuration, progress);
      Some(SeekBarTarget(p.contentDuration, progress))
    else if p.bufferedPosition > 0 && progress > 0 then Some(SeekBarTarget(p.bufferedPosition, progress))
    else None
  }

  /** The set of `video_positions` keys of a history, built entry by entry. */
  method ValidKeys(history: seq<string>) returns (keys: set<string>)
    ensures keys == HashKeys(history)
    ensures forall u :: u in history ==> HashKey(u) in keys
  {
    keys := {};
    for i := 0 to |history|
      invariant keys == HashKeys(history[..i])
    {
      assert history[..i + 1] == history[..i] + [history[i]];
      assert HashKeys(history[..i + 1]) == HashKeys(history[..i]) + {HashKey(history[i])};
      keys := keys + {HashKey(history[i])};
    }
    assert history[..|history|] == history;
  }

  /** Collects the keys outside `validKeys`, then removes them one by one. */
  method RemoveStaleKeys(positions: map<string, int>, validKeys: set<string>) returns (r: map<string, int>)
    ensures r == Pruned(positions, validKeys)
    ensures forall k :: k in r ==> k in validKeys
    ensures forall k :: k in positions && k in validKeys ==> k in r && r[k] == positions[k]
  {
    var keysToRemove := set k | k in positions && k !in validKeys;
    r := positions;
    var rest := keysToRemove;
    while rest != {}
      invariant rest <= keysToRemove
      invariant r == map k | k in positions && (k in validKeys || k in rest) :: positions[k]
      decreases rest
    {
      var k :| k in rest;
      r := r - {k};
      rest := rest - {k};
    }
  }

  class PlayerActivity {
    const prefs: PrefStore
    const screenWidth: int
    const screenHeight: int
    const maxVolume: int

    // the playlist and the item being played
    var playlist: seq<string>
    var playlistTitles: seq<string>
    var currentIndex: int
    var isNetworkStream: bool
    var title: string
    var isAudioFile: bool

    // end of media, the play/pause icon and the one-shot retry marker
    var videoHasEnded: bool
    var icon: Icon
    var currentMimeTypeIndex: int

    // the seek-bar protocol and the progress display
    var isSeeking: bool
    var pendingSeekPosition: int
    var seekTimers: seq<SeekTimer>
    var progressUpdates: bool
    var currentTimeText: string
    var totalTimeText: string
    var seekBarProgress: int

    // the controls overlay and its auto-hide runnable
    var controlsVisible: bool
    var isLocked: bool
    var hideScheduled: bool

    // the touch being tracked and the volume it adjusts
    var isGestureActive: bool
    var gestureType: GestureType
    var currentVolume: int

    // what the screen leaves behind: its debug log, engine calls and toasts
    var debugLogs: seq<string>
    var commands: seq<Command>
    var toasts: seq<string>

    function Current(): Session
      reads this
    {
      Session(playlist, playlistTitles, currentIndex, isNetworkStream, title, isAudioFile)
    }

    /**
     * The screen's invariant: the volume stays within the stream's range, a touch has a
     * gesture type exactly while it is being tracked, and the log holds at most 200 entries.
     */
    predicate Valid()
      reads this
    {
      0 <= currentVolume <= maxVolume
      && screenHeight > 0
      && (isGestureActive <==> gestureType != NoGesture)
      && |debugLogs| <= MAX_LOG_ENTRIES
    }

    /** The field initialisers plus `onCreate`'s screen size and volume readings. */
    constructor (prefs: PrefStore, screenWidth: int, screenHeight: int, maxVolume: int, volume: int)
      requires screenHeight > 0 && 0 <= volume <= maxVolume
      ensures Valid()
      ensures this.prefs == prefs && this.screenWidth == screenWidth && this.screenHeight == screenHeight
      ensures this.maxVolume == maxVolume && currentVolume == volume
      ensures playlist == [] && currentIndex == 0 && !isNetworkStream
      ensures !videoHasEnded && currentMimeTypeIndex == 0
      ensures !isSeeking && pendingSeekPosition == -1 && seekTimers == []
      ensures controlsVisible && !isLocked && !isGestureActive && gestureType == NoGesture
      ensures debugLogs == [] && commands == [] && toasts == []
    {
      this.prefs := prefs;
      this.screenWidth := screenWidth;
      this.screenHeight := screenHeight;
      this.maxVolume := maxVolume;
      playlist, playlistTitles, currentIndex, isNetworkStream, title, isAudioFile := [], [], 0, false, [], false;
      videoHasEnded, icon, currentMimeTypeIndex := false, PlayIcon, 0;
      isSeeking, pendingSeekPosition, seekTimers, progressUpdates := false, -1, [], false;
      currentTimeText, totalTimeText, seekBarProgress := [], [], 0;
      controlsVisible, isLocked, hideScheduled := true, false, false;
      isGestureActive, gestureType, currentVolume := false, NoGesture, volume;
      debugLogs, commands, toasts := [], [], [];
    }

    // ---------------------------------------------------------------- intent and log

    /** `parseIntent()`: the playlist, index, title and audio flag the intent selects. */
    method LoadIntent(intent: PlayerIntent, lastPathSegment: Option<string>)
      requires Valid()
      modifies this`playlist, this`playlistTitles, this`currentIndex, this`isNetworkStream, this`title, this`isAudioFile
      ensures Valid()
      ensures Current() == ParseIntent(intent, lastPathSegment)
    {
      SetSession(ParseIntent(intent, lastPathSegment));
    }

    /** Adopt a parsed session as the screen's playlist state. */
    method SetSession(s: Session)
      requires Valid()
      modifies this`playlist, this`playlistTitles, this`currentIndex, this`isNetworkStream, this`title, this`isAudioFile
      ensures Valid()
      ensures Current() == s
    {
      playlist, playlistTitles, currentIndex, isNetworkStream, title, isAudioFile :=
        s.playlist, s.titles, s.index, s.isNetworkStream, s.title, s.isAudioFile;
    }

    /** `addLog(message)`: append "[timestamp] message", then drop the oldest entries beyond 200. */
    method AddLog(timestamp: string, message: string)
      requires Valid()
      modifies this`debugLogs
      ensures Valid()
      ensures debugLogs == KeepLast(old(debugLogs) + ["[" + timestamp + "] " + message], MAX_LOG_ENTRIES)
    {
      var all := debugLogs + ["[" + timestamp + "] " + message];
      var logs := all;
      while |logs| > MAX_LOG_ENTRIES
        invariant |logs| <= |all|
        invariant logs == all[|all| - |logs|..]
        invariant |logs| == |all| || |logs| >= MAX_LOG_ENTRIES
        decreases |logs|
      {
        logs := logs[1..];
      }
      debugLogs := logs;
    }

    // ---------------------------------------------------------------- controls overlay

    /** `showControls()`: show the overlay and (re)arm the auto-hide runnable. */
    method ShowControls()
      requires Valid()
      modifies this`controlsVisible, this`hideScheduled
      ensures Valid()
      ensures controlsVisible && hideScheduled
    {
      controlsVisible := true;
      hideScheduled := true;
    }

    /** `hideControls()`. */
    method HideControls()
      requires Valid()
      modifies this`controlsVisible
      ensures Valid()
      ensures !controlsVisible
    {
      controlsVisible := false;
    }

    /** `toggleControls()`. */
    method ToggleControls()
      requires Valid()
      modifies this`controlsVisible, this`hideScheduled
      ensures Valid()
      ensures controlsVisible == !old(controlsVisible)
      ensures hideScheduled == (old(hideScheduled) || !old(controlsVisible))
    {
      if controlsVisible {
        HideControls();
      } else {
        ShowControls();
      }
    }

    /** The auto-hide runnable fires: it hides the overlay only while playing and unlocked. */
    method HideTimerFires(player: Option<Engine>)
      requires Valid()
      modifies this`controlsVisible, this`hideScheduled
      ensures Valid()
      ensures !hideScheduled
      ensures controlsVisible ==
        (old(controlsVisible) && !(old(hideScheduled) && player.Some? && player.value.isPlaying && !isLocked))
    {
      if hideScheduled {
        hideScheduled := false;
        if player.Some? && player.value.isPlaying && !isLocked {
          controlsVisible := false;
        }
      }
    }

    /** `toggleLock()`: locking only hides the views; unlocking shows the controls again. */
    method ToggleLock()
      requires Valid()
      modifies this`isLocked, this`controlsVisible, this`hideScheduled
      ensures Valid()
      ensures isLocked == !old(isLocked)
      ensures isLocked ==> controlsVisible == old(controlsVisible) && hideScheduled == old(hideScheduled)
      ensures !isLocked ==> controlsVisible && hideScheduled
    {
      isLocked := !isLocked;
      if !isLocked {
        ShowControls();
      }
    }

    /** A confirmed single tap toggles the overlay unless the screen is locked. */
    method OnSingleTap()
      requires Valid()
      modifies this`controlsVisible, this`hideScheduled
      ensures Valid()
      ensures isLocked ==> controlsVisible == old(controlsVisible) && hideScheduled == old(hideScheduled)
      ensures !isLocked ==>
        controlsVisible == !old(controlsVisible) && hideScheduled == (old(hideScheduled) || !old(controlsVisible))
    {
      if !isLocked {
        ToggleControls();
      }
    }

    // ---------------------------------------------------------------- engine callbacks

    /**
     * `onPlaybackStateChanged(STATE_ENDED)`: set the sticky flag; with a player, pause,
     * clear the saved position of the current URI, show the restart icon and the controls.
     */
    method OnEnded(player: Option<Engine>)
      requires Valid()
      modifies this`videoHasEnded, this`commands, this`icon, this`controlsVisible, this`hideScheduled, prefs
      ensures Valid()
      ensures videoHasEnded
      ensures player.Some? ==> icon == RestartIcon && commands == old(commands) + [Pause] && controlsVisible && hideScheduled
      ensures player.None? ==>
        icon == old(icon) && commands == old(commands)
        && controlsVisible == old(controlsVisible) && hideScheduled == old(hideScheduled)
      ensures var uri := OrElse(GetOrNull(playlist, currentIndex), []);
        prefs.values == if player.Some? && uri != [] then ClearedPosition(old(prefs.values), uri) else old(prefs.values)
    {
      videoHasEnded := true;
      if player.Some? {
        StopAtEnd();
      }
    }

    /** The `player?.let` block of STATE_ENDED: pause, clear the saved position, show the restart icon and the controls. */
    method StopAtEnd()
      requires Valid()
      modifies this`commands, this`icon, this`controlsVisible, this`hideScheduled, prefs
      ensures Valid()
      ensures icon == RestartIcon && commands == old(commands) + [Pause] && controlsVisible && hideScheduled
      ensures var uri := OrElse(GetOrNull(playlist, currentIndex), []);
        prefs.values == if uri != [] then ClearedPosition(old(prefs.values), uri) else old(prefs.values)
    {
      commands := commands + [Pause];
      var currentUri := OrElse(GetOrNull(playlist, currentIndex), []);
      if currentUri != [] {
        ClearSavedPosition(currentUri);
      }
      icon := RestartIcon;
      ShowControls();
    }

    /** The position-clearing step of STATE_ENDED: the stored position of `uri` becomes 0. */
    method ClearSavedPosition(uri: string)
      modifies prefs
      ensures prefs.values == ClearedPosition(old(prefs.values), uri)
    {
      prefs.values := ClearedPosition(prefs.values, uri);
    }

    /** `onPlaybackStateChanged(state)`: only STATE_ENDED changes anything the model keeps. */
    method OnPlaybackStateChanged(state: PlaybackState, player: Option<Engine>)
      requires Valid()
      modifies this`videoHasEnded, this`commands, this`icon, this`controlsVisible, this`hideScheduled, prefs
      modifies this`totalTimeText
      ensures Valid()
      ensures state == StateReady && player.Some? && KnownDuration(player.value.duration) ==>
        totalTimeText == FormatTime(player.value.duration)
      ensures !(state == StateReady && player.Some? && KnownDuration(player.value.duration)) ==>
        totalTimeText == old(totalTimeText)
      ensures state == StateEnded ==> videoHasEnded
      ensures state == StateEnded && player.Some? ==>
        icon == RestartIcon && commands == old(commands) + [Pause] && controlsVisible && hideScheduled
      ensures state == StateEnded && player.None? ==>
        icon == old(icon) && commands == old(commands)
        && controlsVisible == old(controlsVisible) && hideScheduled == old(hideScheduled)
      ensures state == StateEnded ==> var uri := OrElse(GetOrNull(playlist, currentIndex), []);
        prefs.values == if player.Some? && uri != [] then ClearedPosition(old(prefs.values), uri) else old(prefs.values)
      ensures state != StateEnded ==>
        prefs.values == old(prefs.values) && videoHasEnded == old(videoHasEnded) && icon == old(icon)
        && commands == old(commands) && controlsVisible == old(controlsVisible) && hideScheduled == old(hideScheduled)
    {
      if state == StateReady {
        UpdateDuration(player);
      } else if state == StateEnded {
        OnEnded(player);
      }
    }

    /** `updateDuration()`: the total-time text shows a known, positive duration. */
    method UpdateDuration(player: Option<Engine>)
      requires Valid()
      modifies this`totalTimeText
      ensures Valid()
      ensures player.Some? && KnownDuration(player.value.duration) ==> totalTimeText == FormatTime(player.value.duration)
      ensures !(player.Some? && KnownDuration(player.value.duration)) ==> totalTimeText == old(totalTimeText)
    {
      if player.Some? && KnownDuration(player.value.duration) {
        totalTimeText := FormatTime(player.value.duration);
      }
    }

    /** `updatePlayPauseButton()`. */
    method UpdatePlayPauseButton(player: Option<Engine>)
      requires Valid()
      modifies this`icon
      ensures Valid()
      ensures player.Some? ==> icon == PlayPauseIcon(videoHasEnded || player.value.state == StateEnded, player.value.isPlaying)
      ensures player.None? ==> icon == old(icon)
    {
      if player.Some? {
        icon := PlayPauseIcon(videoHasEnded || player.value.state == StateEnded, player.value.isPlaying);
      }
    }

    /**
     * `onIsPlayingChanged(isPlaying)`: once the video has ended, a stop never touches the
     * icon; playing arms the auto-hide and the progress updates, stopping shows the controls.
     */
    method OnIsPlayingChanged(isPlaying: bool, player: Option<Engine>)
      requires Valid()
      modifies this`icon, this`progressUpdates, this`controlsVisible, this`hideScheduled
      ensures Valid()
      ensures videoHasEnded && !isPlaying ==> icon == old(icon)
      ensures !(videoHasEnded && !isPlaying) && player.Some? ==>
        icon == PlayPauseIcon(videoHasEnded || player.value.state == StateEnded, player.value.isPlaying)
      ensures player.None? ==> icon == old(icon)
      ensures progressUpdates == isPlaying && hideScheduled
      ensures isPlaying ==> controlsVisible == old(controlsVisible)
      ensures !isPlaying ==> controlsVisible
    {
      if !(videoHasEnded && !isPlaying) {
        UpdatePlayPauseButton(player);
      }
      progressUpdates := isPlaying;
      if isPlaying {
        hideScheduled := true;
      } else {
        ShowControls();
      }
    }

    /**
     * `onPlayerError(error)`: a parse error on an http(s) URI is retried as a progressive
     * download when no retry is marked; every other error clears the mark.
     */
    method OnPlayerError(parsingError: bool)
      requires Valid()
      modifies this`currentMimeTypeIndex, this`toasts, this`commands
      ensures Valid()
      ensures var uri := OrElse(GetOrNull(playlist, currentIndex), []);
        currentMimeTypeIndex == MarkerAfterError(uri, parsingError, old(currentMimeTypeIndex))
        && (RetriesAsProgressive(uri, parsingError, old(currentMimeTypeIndex)) ==>
              commands == old(commands) + [RetryProgressive(uri)] && toasts == old(toasts) + [TRYING_ANOTHER_FORMAT])
        && (!RetriesAsProgressive(uri, parsingError, old(currentMimeTypeIndex)) ==>
              commands == old(commands) && toasts == old(toasts) + [UNABLE_TO_PLAY])
    {
      var currentUri := OrElse(GetOrNull(playlist, currentIndex), []);
      if RetriesAsProgressive(currentUri, parsingError, currentMimeTypeIndex) {
        currentMimeTypeIndex := 1;
        toasts := toasts + [TRYING_ANOTHER_FORMAT];
        commands := commands + [RetryProgressive(currentUri)];
        return;
      }
      currentMimeTypeIndex := 0;
      toasts := toasts + [UNABLE_TO_PLAY];
    }

    /**
     * The AUTO branch of `onMediaItemTransition`: undo the engine's advance by pausing and
     * seeking back to the start of the current item, clamped to the playlist.
     */
    method CountermandAutoAdvance()
      requires Valid() && playlist != []
      modifies this`videoHasEnded, this`commands, this`icon, this`controlsVisible, this`hideScheduled
      ensures Valid()
      ensures videoHasEnded && icon == RestartIcon && controlsVisible && hideScheduled
      ensures commands == old(commands) + [Pause, SeekToItem(CoerceIn(currentIndex, 0, |playlist| - 1), 0)]
    {
      videoHasEnded := true;
      var targetIndex := CoerceIn(currentIndex, 0, |playlist| - 1);
      commands := commands + [Pause, SeekToItem(targetIndex, 0)];
      icon := RestartIcon;
      ShowControls();
    }

    /**
     * `onMediaItemTransition(item, reason)`. An automatic advance is countermanded and the
     * current item, title and audio flag stay; any other transition follows the engine's index.
     * Kotlin's `coerceIn(0, size - 1)` throws on an empty playlist, hence the precondition.
     */
    method OnMediaItemTransition(reason: TransitionReason, player: Option<Engine>)
      requires Valid()
      requires reason == AutoTransition && player.Some? ==> playlist != []
      modifies this`videoHasEnded, this`commands, this`icon, this`controlsVisible, this`hideScheduled
      modifies this`currentIndex, this`title, this`isAudioFile
      ensures Valid()
      ensures reason == AutoTransition ==> Current() == old(Current())
      ensures reason == AutoTransition && player.Some? ==>
        videoHasEnded && icon == RestartIcon && controlsVisible && hideScheduled
        && commands == old(commands) + [Pause, SeekToItem(CoerceIn(currentIndex, 0, |playlist| - 1), 0)]
      ensures reason == AutoTransition && player.None? ==>
        videoHasEnded == old(videoHasEnded) && icon == old(icon) && commands == old(commands)
        && controlsVisible == old(controlsVisible) && hideScheduled == old(hideScheduled)
      ensures reason != AutoTransition ==>
        Current() == SessionAt(playlist, playlistTitles, match player case Some(p) => p.mediaItemIndex case None => 0,
                               isNetworkStream)
        && videoHasEnded == old(videoHasEnded) && icon == old(icon) && commands == old(commands)
        && controlsVisible == old(controlsVisible) && hideScheduled == old(hideScheduled)
    {
      if reason == AutoTransition {
        if player.Some? {
          CountermandAutoAdvance();
        }
        return;
      }
      MoveTo(match player case Some(p) => p.mediaItemIndex case None => 0);
    }

    /** Follow the engine to item `index`: its title (or the default) and its audio flag. */
    method MoveTo(index: int)
      requires Valid()
      modifies this`currentIndex, this`title, this`isAudioFile
      ensures Valid()
      ensures Current() == SessionAt(playlist, playlistTitles, index, isNetworkStream)
    {
      currentIndex := index;
      title := OrElse(GetOrNull(playlistTitles, index), DEFAULT_TITLE);
      isAudioFile := IsAudioUri(OrElse(GetOrNull(playlist, index), []));
    }

    /** `onPositionDiscontinuity`: a completed or adjusted seek ends the seek in progress. */
    method OnPositionDiscontinuity(reason: DiscontinuityReason)
      requires Valid()
      modifies this`isSeeking, this`pendingSeekPosition, this`progressUpdates
      ensures Valid()
      ensures (reason == SeekDiscontinuity || reason == SeekAdjustment) && old(isSeeking) ==>
        !isSeeking && pendingSeekPosition == -1 && progressUpdates
      ensures !((reason == SeekDiscontinuity || reason == SeekAdjustment) && old(isSeeking)) ==>
        isSeeking == old(isSeeking) && pendingSeekPosition == old(pendingSeekPosition)
        && progressUpdates == old(progressUpdates)
    {
      if (reason == SeekDiscontinuity || reason == SeekAdjustment) && isSeeking {
        isSeeking := false;
        pendingSeekPosition := -1;
        progressUpdates := true;
      }
    }

    // ---------------------------------------------------------------- seek bar

    /** `onStartTrackingTouch`: a seek begins; progress updates, auto-hide and seek runnables are cancelled. */
    method OnStartTrackingTouch()
      requires Valid()
      modifies this`isSeeking, this`progressUpdates, this`hideScheduled, this`seekTimers
      ensures Valid()
      ensures isSeeking && !progressUpdates && !hideScheduled && seekTimers == []
    {
      isSeeking := true;
      progressUpdates := false;
      hideScheduled := false;
      seekTimers := [];
    }

    /**
     * `onStopTrackingTouch`: without a player the seek ends at once. Otherwise the seek to
     * the released fraction is issued and remembered as pending; with a known duration
     * a 2000 ms confirmation timeout is posted, else an unconditional 500 ms reset.
     */
    method OnStopTrackingTouch(progress: int, player: Option<Engine>)
      requires Valid()
      modifies this`isSeeking, this`pendingSeekPosition, this`progressUpdates, this`commands
      modifies this`currentTimeText, this`seekTimers
      ensures Valid()
      ensures player.None? ==>
        !isSeeking && pendingSeekPosition == -1 && progressUpdates && seekTimers == old(seekTimers)
        && commands == old(commands) && currentTimeText == old(currentTimeText)
      ensures player.Some? ==>
        var p := player.value;
        var target := ReleaseTarget(progress, p);
        isSeeking == old(isSeeking) && progressUpdates == old(progressUpdates)
        && pendingSeekPosition == (if target.Some? then target.value else old(pendingSeekPosition))
        && commands == old(commands) + (if target.Some? then [SeekToItem(p.mediaItemIndex, target.value)] else [])
        && seekTimers == old(seekTimers) + [if KnownDuration(p.duration) then SeekTimeout else SeekReset]
        && currentTimeText ==
          (if KnownDuration(p.duration) || KnownDuration(p.contentDuration) then FormatTime(target.value)
           else old(currentTimeText))
    {
      if player.None? {
        isSeeking := false;
        pendingSeekPosition := -1;
        progressUpdates := true;
        return;
      }
      var p := player.value;
      var target := ReleaseTarget(progress, p);
      if target.Some? {
        pendingSeekPosition := target.value;
        commands := commands + [SeekToItem(p.mediaItemIndex, target.value)];
        if KnownDuration(p.duration) || KnownDuration(p.contentDuration) {
          currentTimeText := FormatTime(target.value);
        }
      }
      seekTimers := seekTimers + [if KnownDuration(p.duration) then SeekTimeout else SeekReset];
    }

    /**
     * The `i`-th posted seek runnable fires (a cancelled one never does): the timeout ends
     * a seek still in progress, the reset ends it unconditionally.
     */
    method SeekTimerFires(i: int)
      requires Valid()
      modifies this`isSeeking, this`pendingSeekPosition, this`progressUpdates, this`seekTimers
      ensures Valid()
      ensures !(0 <= i < |old(seekTimers)|) ==>
        seekTimers == old(seekTimers) && isSeeking == old(isSeeking)
        && pendingSeekPosition == old(pendingSeekPosition) && progressUpdates == old(progressUpdates)
      ensures 0 <= i < |old(seekTimers)| ==>
        seekTimers == old(seekTimers)[..i] + old(seekTimers)[i + 1..] && !isSeeking
        && (old(seekTimers)[i] == SeekReset || old(isSeeking) ==> pendingSeekPosition == -1 && progressUpdates)
        && (old(seekTimers)[i] == SeekTimeout && !old(isSeeking) ==>
              pendingSeekPosition == old(pendingSeekPosition) && progressUpdates == old(progressUpdates))
    {
      if 0 <= i < |seekTimers| {
        var t := seekTimers[i];
        seekTimers := seekTimers[..i] + seekTimers[i + 1..];
        if t == SeekReset || isSeeking {
          isSeeking := false;
          pendingSeekPosition := -1;
          progressUpdates := true;
        }
      }
    }

    /** `onProgressChanged` from the user: preview the time under the thumb when the duration is known. */
    method OnProgressChanged(progress: int, fromUser: bool, player: Option<Engine>)
      requires Valid()
      modifies this`currentTimeText
      ensures Valid()
      ensures currentTimeText ==
        (if fromUser && player.Some? && KnownDuration(player.value.duration)
         then FormatTime(SeekBarTarget(player.value.duration, progress)) else old(currentTimeText))
    {
      if fromUser && player.Some? && KnownDuration(player.value.duration) {
        currentTimeText := FormatTime(SeekBarTarget(player.value.duration, progress));
      }
    }

    /**
     * `updateProgress()`: a no-op while the user seeks; otherwise the position text, and the
     * total and the bar from the duration when it is known, else the buffered position as total.
     */
    method UpdateProgress(player: Option<Engine>)
      requires Valid()
      modifies this`currentTimeText, this`totalTimeText, this`seekBarProgress
      ensures Valid()
      ensures isSeeking || player.None? ==>
        currentTimeText == old(currentTimeText) && totalTimeText == old(totalTimeText)
        && seekBarProgress == old(seekBarProgress)
      ensures !isSeeking && player.Some? ==>
        var p := player.value;
        currentTimeText == FormatTime(p.position)
        && (KnownDuration(p.duration) ==>
              totalTimeText == FormatTime(p.duration) && seekBarProgress == ToInt32(TruncDiv(p.position * 100, p.duration)))
        && (!KnownDuration(p.duration) ==>
              seekBarProgress == old(seekBarProgress)
              && totalTimeText == (if p.bufferedPosition > 0 then FormatTime(p.bufferedPosition) else old(totalTimeText)))
    {
      if isSeeking {
        return;
      }
      if player.Some? {
        var p := player.value;
        currentTimeText := FormatTime(p.position);
        if KnownDuration(p.duration) {
          totalTimeText := FormatTime(p.duration);
          seekBarProgress := ToInt32(TruncDiv(p.position * 100, p.duration));
        } else if p.bufferedPosition > 0 {
          totalTimeText := FormatTime(p.bufferedPosition);
        }
      }
    }

    // ---------------------------------------------------------------- transport buttons

    /**
     * `togglePlayPause()`: pause when playing; otherwise play, first seeking to 0 and
     * clearing the end flag when the video has ended or is within 1.5 s of its end.
     */
    method TogglePlayPause(player: Option<Engine>)
      requires Valid()
      modifies this`commands, this`videoHasEnded
      ensures Valid()
      ensures player.None? ==> commands == old(commands) && videoHasEnded == old(videoHasEnded)
      ensures player.Some? && player.value.isPlaying ==>
        commands == old(commands) + [Pause] && videoHasEnded == old(videoHasEnded)
      ensures player.Some? && !player.value.isPlaying ==>
        var atEnd := AtEnd(old(videoHasEnded), player.value.duration, player.value.position);
        commands == old(commands) + (if atEnd then [SeekTo(0), Play] else [Play])
        && videoHasEnded == (old(videoHasEnded) && !atEnd)
    {
      if player.Some? {
        var p := player.value;
        if p.isPlaying {
          commands := commands + [Pause];
        } else {
          var isAtEnd := videoHasEnded || (p.duration > 0 && p.position >= p.duration - END_WINDOW);
          if isAtEnd {
            commands := commands + [SeekTo(0)];
            videoHasEnded := false;
          }
          commands := commands + [Play];
        }
      }
    }

    /** `seekForward()`: ten seconds ahead, capped by the duration the engine reports. */
    method SeekForward(player: Option<Engine>)
      requires Valid()
      modifies this`commands
      ensures Valid()
      ensures commands == old(commands) +
        (match player case Some(p) => [SeekTo(SeekForwardTargetAsWritten(p.position, p.duration))] case None => [])
    {
      if player.Some? {
        commands := commands + [SeekTo(SeekForwardTargetAsWritten(player.value.position, player.value.duration))];
      }
    }

    /** `seekBackward()`: ten seconds back, never before 0. */
    method SeekBackward(player: Option<Engine>)
      requires Valid()
      modifies this`commands
      ensures Valid()
      ensures commands == old(commands) +
        (match player case Some(p) => [SeekTo(SeekBackwardTarget(p.position))] case None => [])
    {
      if player.Some? {
        commands := commands + [SeekTo(SeekBackwardTarget(player.value.position))];
      }
    }

    /** `playNext()`: advance only when the engine has a next item. */
    method PlayNext(player: Option<Engine>)
      requires Valid()
      modifies this`commands
      ensures Valid()
      ensures commands == old(commands) + (if player.Some? && player.value.hasNext then [SeekToNextItem] else [])
    {
      if player.Some? && player.value.hasNext {
        commands := commands + [SeekToNextItem];
      }
    }

    /** `playPrevious()`: the previous item, or the start of the only one. */
    method PlayPrevious(player: Option<Engine>)
      requires Valid()
      modifies this`commands
      ensures Valid()
      ensures commands == old(commands) +
        (match player case Some(p) => [if p.hasPrevious then SeekToPreviousItem else SeekTo(0)] case None => [])
    {
      if player.Some? {
        commands := commands + [if player.value.hasPrevious then SeekToPreviousItem else SeekTo(0)];
      }
    }

    // ---------------------------------------------------------------- touch gestures

    /** `onDoubleTap`: unless locked, the left third rewinds, the right third skips ahead, the middle toggles play. */
    method OnDoubleTap(x: real, player: Option<Engine>)
      requires Valid()
      modifies this`commands, this`videoHasEnded
      ensures Valid()
      ensures isLocked ==> commands == old(commands) && videoHasEnded == old(videoHasEnded)
      ensures !isLocked && player.Some? && TapZoneOf(x, screenWidth) == LeftThird ==>
        commands == old(commands) + [SeekTo(SeekBackwardTarget(player.value.position))]
      ensures !isLocked && player.Some? && TapZoneOf(x, screenWidth) == RightThird ==>
        commands == old(commands) + [SeekTo(SeekForwardTargetAsWritten(player.value.position, player.value.duration))]
      ensures !isLocked && player.Some? && TapZoneOf(x, screenWidth) == MiddleThird && player.value.isPlaying ==>
        commands == old(commands) + [Pause]
      ensures !isLocked && player.Some? && TapZoneOf(x, screenWidth) == MiddleThird && !player.value.isPlaying ==>
        var atEnd := AtEnd(old(videoHasEnded), player.value.duration, player.value.position);
        commands == old(commands) + (if atEnd then [SeekTo(0), Play] else [Play])
        && videoHasEnded == (old(videoHasEnded) && !atEnd)
      ensures player.None? ==> commands == old(commands) && videoHasEnded == old(videoHasEnded)
      ensures TapZoneOf(x, screenWidth) != MiddleThird ==> videoHasEnded == old(videoHasEnded)
    {
      if !isLocked {
        var zone := TapZoneOf(x, screenWidth);
        if zone == LeftThird {
          SeekBackward(player);
        } else if zone == RightThird {
          SeekForward(player);
        } else {
          TogglePlayPause(player);
        }
      }
    }

    /**
     * `adjustVolume(delta)`: the stream volume moves by `delta * max * 1.5` truncated,
     * clamped to [0, max].
     */
    method AdjustVolume(delta: real)
      requires Valid()
      modifies this`currentVolume
      ensures Valid()
      ensures currentVolume == AdjustedVolume(old(currentVolume), maxVolume, delta)
    {
      currentVolume := AdjustedVolume(currentVolume, maxVolume, delta);
    }

    /**
     * `onScroll(e1, e2, distanceX, distanceY)`: ignored while locked or without a first
     * event; the first scroll of a touch fixes the gesture type from the cumulative deltas,
     * later scrolls keep it. A volume gesture moves the volume by `-distanceY / height`.
     * `first` and `last` are the touch's first and current points.
     */
    method OnScroll(first: Option<(real, real)>, last: (real, real), distanceY: real) returns (handled: bool)
      requires Valid()
      modifies this`isGestureActive, this`gestureType, this`currentVolume
      ensures Valid()
      ensures handled == (!isLocked && first.Some?)
      ensures !handled ==>
        isGestureActive == old(isGestureActive) && gestureType == old(gestureType) && currentVolume == old(currentVolume)
      ensures handled && old(isGestureActive) ==> isGestureActive && gestureType == old(gestureType)
      ensures handled && !old(isGestureActive) ==>
        isGestureActive
        && gestureType == ClassifyGesture(first.value.0 - last.0, first.value.1 - last.1, first.value.0, screenWidth)
      ensures handled && gestureType == Volume ==>
        currentVolume == AdjustedVolume(old(currentVolume), maxVolume, -distanceY / screenHeight as real)
      ensures gestureType != Volume ==> currentVolume == old(currentVolume)
    {
      if isLocked || first.None? {
        return false;
      }
      var e1 := first.value;
      if !isGestureActive {
        isGestureActive := true;
        gestureType := ClassifyGesture(e1.0 - last.0, e1.1 - last.1, e1.0, screenWidth);
      }
      var frameDelta := -distanceY / screenHeight as real;
      if gestureType == Volume {
        AdjustVolume(frameDelta);
      }
      return true;
    }

    /** ACTION_UP or ACTION_CANCEL: the touch is over and its gesture type is cleared. */
    method OnTouchEnd()
      requires Valid()
      modifies this`isGestureActive, this`gestureType
      ensures Valid()
      ensures !isGestureActive && gestureType == NoGesture
    {
      isGestureActive := false;
      gestureType := NoGesture;
    }

    // ---------------------------------------------------------------- leaving the screen

    /**
     * `saveToHistory()`: nothing for an empty playlist, an index outside it or an audio URI;
     * otherwise the history, the pruned positions and the "continue" entries.
     */
    method SaveToHistory(player: Option<Engine>)
      modifies prefs
      ensures var current := GetOrNull(playlist, currentIndex);
        if current.None? || IsAudioForHistory(current.value) then prefs.values == old(prefs.values)
        else prefs.values == SavedSession(old(prefs.values), current.value,
          OrElse(GetOrNull(playlistTitles, currentIndex), DEFAULT_TITLE), PositionOf(player), DurationOf(player))
    {
      if playlist == [] {
        return;
      }
      var current := GetOrNull(playlist, currentIndex);
      if current.None? {
        return;
      }
      var currentUri := current.value;
      var currentTitle := OrElse(GetOrNull(playlistTitles, currentIndex), DEFAULT_TITLE);
      var position := PositionOf(player);
      if IsAudioForHistory(currentUri) {
        return;
      }
      var historyArray := ArrayOrEmpty(prefs.values, VIDEO_HISTORY);
      var finalArray := SaveLoops(historyArray, currentUri, VIDEO_CAP);
      var positionsObj := ObjectOrEmpty(prefs.values, VIDEO_POSITIONS);
      var duration := DurationOf(player);
      positionsObj := positionsObj[HashKey(currentUri) := PositionToSave(position, duration)];
      var validKeys := ValidKeys(finalArray);
      positionsObj := RemoveStaleKeys(positionsObj, validKeys);
      prefs.values := prefs.values
        [VIDEO_HISTORY := JsonArray(finalArray)]
        [VIDEO_POSITIONS := JsonObject(positionsObj)]
        [LAST_VIDEO_URI := StringValue(currentUri)]
        [LAST_VIDEO_TITLE := StringValue(currentTitle)]
        [LAST_VIDEO_POSITION := LongValue(position)];
    }

    /** `onPause()`: outside picture-in-picture, save and stop playing when ready. */
    method OnPause(inPip: bool, player: Option<Engine>)
      requires Valid()
      modifies this`commands, prefs
      ensures Valid()
      ensures inPip ==> prefs.values == old(prefs.values) && commands == old(commands)
      ensures !inPip ==>
        var current := GetOrNull(playlist, currentIndex);
        (if current.None? || IsAudioForHistory(current.value) then prefs.values == old(prefs.values)
         else prefs.values == SavedSession(old(prefs.values), current.value,
           OrElse(GetOrNull(playlistTitles, currentIndex), DEFAULT_TITLE), PositionOf(player), DurationOf(player)))
        && commands == old(commands) + (if player.Some? then [StopWhenReady] else [])
    {
      if !inPip {
        SaveToHistory(player);
        if player.Some? {
          commands := commands + [StopWhenReady];
        }
      }
    }
  }
}
