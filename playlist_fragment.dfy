/**
 * The Playlist tab: the video history turned back into catalogue items, most recent first.
 */
module PlaylistFragment {
  import opened Text
  import opened Seqs
  import opened Media
  import opened Prefs
  import opened Intents
  import opened Screens
  import History

  /** `allVideos.find { it.uri.toString() == uri }`. */
  function FindByUri(all: seq<VideoItem>, uri: string): (r: Option<VideoItem>)
    ensures r.None? <==> forall k :: 0 <= k < |all| ==> all[k].uri != uri
    ensures r.Some? ==> r.value in all && r.value.uri == uri
    ensures r.Some? ==> exists j :: 0 <= j < |all| && all[j] == r.value && forall k :: 0 <= k < j ==> all[k].uri != uri
  {
    if all == [] then None
    else if all[0].uri == uri then Some(all[0])
    else
      FindByUri(all[1..], uri)
  }

  /** The items the loop collects from the history, in history order; unmatched URIs are skipped. */
  function HistoryVideos(history: seq<string>, all: seq<VideoItem>): seq<VideoItem>
  {
    if history == [] then []
    else
      var init := HistoryVideos(history[..|history| - 1], all);
      match FindByUri(all, history[|history| - 1])
      case Some(v) => init + [v]
      case None => init
  }

  lemma UrisSnoc(items: seq<VideoItem>, v: VideoItem)
    ensures Uris(items + [v]) == Uris(items) + [v.uri]
  {
    var ur, up := Uris(items + [v]), Uris(items);
    assert forall i :: 0 <= i < |ur| ==> ur[i] == (up + [v.uri])[i];
  }

  /** The collected items' URIs are exactly the history's matched URIs, in history order. */
  lemma {:induction false} HistoryVideosInOrder(history: seq<string>, all: seq<VideoItem>)
    ensures Uris(HistoryVideos(history, all)) == Filter(history, (u: string) => FindByUri(all, u).Some?)
  {
    if history != [] {
      var init, last := history[..|history| - 1], history[|history| - 1];
      var matched := (u: string) => FindByUri(all, u).Some?;
      var prefix := HistoryVideos(init, all);
      HistoryVideosInOrder(init, all);
      assert Uris(prefix) == Filter(init, matched);
      assert history == init + [last];
      FilterAppend(init, [last], matched);
      var found := FindByUri(all, last);
      if found.Some? {
        assert Filter([last], matched) == [last];
        assert HistoryVideos(history, all) == prefix + [found.value];
        UrisSnoc(prefix, found.value);
      } else {
        assert Filter([last], matched) == [];
        assert HistoryVideos(history, all) == prefix;
      }
    }
  }

  /**
   * Every collected item is the first catalogue item with a URI from the history, and
   * there is one item per history URI that has a match.
   */
  lemma {:induction false} HistoryVideosMeaning(history: seq<string>, all: seq<VideoItem>)
    ensures var r := HistoryVideos(history, all);
      (forall i :: 0 <= i < |r| ==> r[i].uri in history && FindByUri(all, r[i].uri) == Some(r[i]))
      && |r| == |Filter(Reverse(history), (u: string) => FindByUri(all, u).Some?)|
  {
    if history != [] {
      var init, last := history[..|history| - 1], history[|history| - 1];
      HistoryVideosMeaning(init, all);
      assert history == init + [last];
      assert Reverse(history) == [last] + Reverse(init);
    }
  }

  /** The first item shown after playing `v` from the catalogue is the catalogue's first item with its URI. */
  lemma PlaylistShowsLastPlayedFirst(history: seq<string>, all: seq<VideoItem>, v: VideoItem)
    requires v in all
    ensures var r := Reverse(HistoryVideos(History.MostRecent(history, v.uri, History.VIDEO_CAP), all));
      r != [] && r[0] == FindByUri(all, v.uri).value && r[0].uri == v.uri
  {
    var h := History.MostRecent(history, v.uri, History.VIDEO_CAP);
    History.MostRecentLast(history, v.uri, History.VIDEO_CAP);
    assert h[|h| - 1] == v.uri;
  }

  /** The loop of `loadPlaylist()` (and of the main screen's `showPlaylists()`). */
  method CollectHistoryVideos(historyUris: seq<string>, all: seq<VideoItem>) returns (historyVideos: seq<VideoItem>)
    ensures historyVideos == HistoryVideos(historyUris, all)
  {
    historyVideos := [];
    for i := 0 to |historyUris|
      invariant historyVideos == HistoryVideos(historyUris[..i], all)
    {
      assert historyUris[..i + 1][..i] == historyUris[..i];
      var match_ := FindByUri(all, historyUris[i]);
      if match_.Some? {
        historyVideos := historyVideos + [match_.value];
      }
    }
    assert historyUris[..|historyUris|] == historyUris;
  }

  class PlaylistFragment {
    const prefs: PrefStore
    var allVideos: seq<VideoItem>
    /** The adapter's current list. */
    var shown: seq<VideoItem>
    /** Whether the "Watch some videos" empty state is displayed. */
    var emptyState: bool
    var started: seq<PlayerIntent>

    constructor (prefs: PrefStore)
      ensures this.prefs == prefs && allVideos == [] && shown == [] && !emptyState && started == []
    {
      this.prefs := prefs;
      allVideos := [];
      shown := [];
      emptyState := false;
      started := [];
    }

    /**
     * `loadPlaylist()`. The catalogue is scanned only while it is empty (`scan` is that
     * scan's outcome, `None` when it throws). A scan failure, a malformed history, or a
     * history without any catalogue match shows the empty state and leaves the list.
     */
    method LoadPlaylist(scan: Option<seq<VideoItem>>)
      modifies this
      ensures old(allVideos) != [] ==> allVideos == old(allVideos)
      ensures old(allVideos) == [] && scan.Some? ==> allVideos == scan.value
      ensures old(allVideos) == [] && scan.None? ==>
        allVideos == old(allVideos) && emptyState && shown == old(shown)
      ensures (old(allVideos) != [] || scan.Some?) && ReadArray(prefs.values, VIDEO_HISTORY).None? ==>
        emptyState && shown == old(shown)
      ensures (old(allVideos) != [] || scan.Some?) && ReadArray(prefs.values, VIDEO_HISTORY).Some? ==>
        var found := HistoryVideos(ReadArray(prefs.values, VIDEO_HISTORY).value, allVideos);
        (found == [] ==> emptyState && shown == old(shown))
        && (found != [] ==> !emptyState && shown == Reverse(found))
      ensures started == old(started)
    {
      if allVideos == [] {
        if scan.None? {
          emptyState := true;
          return;
        }
        allVideos := scan.value;
      }
      var parsed := ReadArray(prefs.values, VIDEO_HISTORY);
      if parsed.None? {
        emptyState := true;
        return;
      }
      var historyVideos := CollectHistoryVideos(parsed.value, allVideos);
      if historyVideos == [] {
        emptyState := true;
      } else {
        emptyState := false;
        shown := Reverse(historyVideos);
      }
    }

    /** `saveVideoToHistory(uri, title)`, this screen's copy of the video saver. */
    method SaveVideoToHistory(uri: string, title: string)
      modifies prefs
      ensures prefs.values == old(prefs.values)
        [VIDEO_HISTORY := JsonArray(History.MostRecent(ArrayOrEmpty(old(prefs.values), VIDEO_HISTORY), uri, History.VIDEO_CAP))]
        [LAST_VIDEO_URI := StringValue(uri)][LAST_VIDEO_TITLE := StringValue(title)]
    {
      History.SaveVideoToHistory(prefs, uri, title);
    }

    /** `getSavedPlaybackPosition(uri)`, this screen's copy. */
    method GetSavedPlaybackPosition(uri: string) returns (position: int)
      ensures position == SavedPlaybackPosition(prefs.values, uri)
    {
      position := SavedPlaybackPosition(prefs.values, uri);
    }

    /** `openPlayer(video, position)`: record the video, then start it in the displayed list. */
    method OpenPlayer(video: VideoItem, position: int)
      modifies this, prefs
      ensures prefs.values == old(prefs.values)
        [VIDEO_HISTORY := JsonArray(History.MostRecent(ArrayOrEmpty(old(prefs.values), VIDEO_HISTORY), video.uri, History.VIDEO_CAP))]
        [LAST_VIDEO_URI := StringValue(video.uri)][LAST_VIDEO_TITLE := StringValue(video.title)]
      ensures started == old(started) +
        [LaunchIntent(video, old(shown), position, SavedPlaybackPosition(old(prefs.values), video.uri))]
      ensures allVideos == old(allVideos) && shown == old(shown) && emptyState == old(emptyState)
    {
      SaveVideoToHistory(video.uri, video.title);
      var savedPosition := GetSavedPlaybackPosition(video.uri);
      started := started + [LaunchIntent(video, shown, position, savedPosition)];
    }
  }
}
