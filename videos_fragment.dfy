/**
 * The Videos tab: the scanned catalogue without audio, a title search, the four sort
 * orders, and playback with the resume position.
 */
module VideosFragment {
  import opened Text
  import opened Seqs
  import opened Media
  import opened Prefs
  import opened Intents
  import opened Screens
  import History

  /**
   * `filterBySearch`'s own audio test, narrower than the catalogue's: only an "audio"
   * MIME prefix or a ".mp3" extension is excluded.
   */
  predicate SearchKeeps(v: VideoItem, query: string)
  {
    !StartsWith(v.mimeType, "audio") && !EndsWithIgnoreCase(v.path, ".mp3")
    && (query == [] || TitleMatches(v, query))
  }

  function SearchResults(all: seq<VideoItem>, query: string): seq<VideoItem>
  {
    Filter(all, (v: VideoItem) => SearchKeeps(v, query))
  }

  /**
   * The search results are the catalogue's items that pass the narrower audio test and,
   * for a non-empty query, contain it in their title; every item of the initial video
   * list is among the results of the empty query.
   */
  lemma SearchMeaning(all: seq<VideoItem>, query: string)
    ensures Subsequence(SearchResults(all, query), all)
    ensures forall v :: (multiset(SearchResults(all, query))[v] ==
      if !StartsWith(v.mimeType, "audio") && !EndsWithIgnoreCase(v.path, ".mp3")
         && (query == [] || ContainsIgnoreCase(v.title, query))
      then multiset(all)[v] else 0)
    ensures Subsequence(VideoFiles(all), SearchResults(all, ""))
  {
    FilterSubsequence(all, (v: VideoItem) => SearchKeeps(v, query));
    FilterCounts(all, (v: VideoItem) => SearchKeeps(v, query));
    forall v: VideoItem ensures !IsAudioItem(v) ==> SearchKeeps(v, "") {
      assert ".mp3" in AUDIO_EXTENSIONS;
    }
    FilterImplies(all, (v: VideoItem) => !IsAudioItem(v), (v: VideoItem) => SearchKeeps(v, ""));
  }

  /**
   * The narrower test lets through what the initial list hides: an ".m4a" file with a
   * non-audio MIME type is not in the first list but is in the results of the empty search.
   */
  lemma SearchShowsWhatLoadHides(v: VideoItem)
    requires v.path == "a.m4a" && v.mimeType == "video/mp4"
    ensures IsAudioItem(v) && SearchKeeps(v, "")
    ensures v !in VideoFiles([v]) && v in SearchResults([v], "")
  {
    assert EndsWithIgnoreCase(v.path, ".m4a");
    assert !StartsWith(v.mimeType, "audio") by {
      assert v.mimeType[0] != "audio"[0];
    }
    assert !EndsWithIgnoreCase(v.path, ".mp3") by {
      assert Lower(v.path)[3] == '4';
    }
    assert [v][0] == v;
  }

  class VideosFragment {
    const prefs: PrefStore
    var allVideos: seq<VideoItem>
    /** The adapter's current list. */
    var shown: seq<VideoItem>
    var subtitle: string
    /** The empty view's text while it is visible. */
    var emptyMessage: Option<string>
    var started: seq<PlayerIntent>

    constructor (prefs: PrefStore)
      ensures this.prefs == prefs && allVideos == [] && shown == [] && subtitle == [] && started == []
      ensures emptyMessage.None?
    {
      this.prefs := prefs;
      allVideos := [];
      shown := [];
      subtitle := [];
      emptyMessage := None;
      started := [];
    }

    /**
     * `loadVideos()` with the scan's outcome as input (`None` when it throws): the list
     * is submitted only when it is not empty, so an empty result leaves the old list behind
     * the empty view.
     */
    method LoadVideos(scan: Option<seq<VideoItem>>)
      modifies this
      ensures scan.None? ==>
        allVideos == old(allVideos) && shown == old(shown) && subtitle == old(subtitle)
        && emptyMessage == Some("Error loading videos")
      ensures scan.Some? ==>
        (allVideos == scan.value
         && subtitle == IntToString(|VideoFiles(scan.value)|) + " videos"
         && shown == (if VideoFiles(scan.value) == [] then old(shown) else VideoFiles(scan.value))
         && emptyMessage == (if VideoFiles(scan.value) == [] then Some("No videos found") else None))
      ensures started == old(started)
    {
      emptyMessage := None;
      if scan.None? {
        emptyMessage := Some("Error loading videos");
        return;
      }
      allVideos := scan.value;
      var videoFiles := VideoFiles(allVideos);
      subtitle := IntToString(|videoFiles|) + " videos";
      if videoFiles == [] {
        emptyMessage := Some("No videos found");
      } else {
        emptyMessage := None;
        shown := videoFiles;
      }
    }

    /** `filterBySearch(query)` over the whole catalogue. */
    method FilterBySearch(query: string)
      modifies this
      ensures shown == SearchResults(allVideos, query)
      ensures emptyMessage == (if shown != [] then None
                               else if query == [] then Some("No videos found")
                               else Some("No results for \"" + query + "\""))
      ensures allVideos == old(allVideos) && subtitle == old(subtitle) && started == old(started)
    {
      var filtered := SearchResults(allVideos, query);
      shown := filtered;
      if filtered == [] {
        emptyMessage := Some(if query == [] then "No videos found" else "No results for \"" + query + "\"");
      } else {
        emptyMessage := None;
      }
    }

    /** `sortBy(sortType)` on the displayed list. */
    method SortBy(sortType: int)
      modifies this
      ensures shown == SortVideos(old(shown), sortType)
      ensures multiset(shown) == multiset(old(shown))
      ensures allVideos == old(allVideos) && subtitle == old(subtitle) && started == old(started)
      ensures emptyMessage == old(emptyMessage)
    {
      SortVideosCorrect(shown, sortType);
      shown := SortVideos(shown, sortType);
    }

    /** `saveVideoToHistory(uri, title)`, this screen's copy of the video saver. */
    method SaveVideoToHistory(uri: string, title: string)
      modifies prefs
      ensures prefs.values == old(prefs.values)
        [VIDEO_HISTORY := JsonArray(History.MostRecent(ArrayOrEmpty(old(prefs.values), VIDEO_HISTORY), uri, History.VIDEO_CAP))]
        [LAST_VIDEO_URI := StringValue(uri)][LAST_VIDEO_TITLE := StringValue(title)]
    {
      History.SaveVideoToHistory(prefs, uri, title);
    }

    /** `getSavedPlaybackPosition(uri)`, this screen's copy. */
    method GetSavedPlaybackPosition(uri: string) returns (position: int)
      ensures position == SavedPlaybackPosition(prefs.values, uri)
    {
      position := SavedPlaybackPosition(prefs.values, uri);
    }

    /** `openPlayer(video, position)`: record the video, then start it within the displayed list. */
    method OpenPlayer(video: VideoItem, position: int)
      modifies this, prefs
      ensures prefs.values == old(prefs.values)
        [VIDEO_HISTORY := JsonArray(History.MostRecent(ArrayOrEmpty(old(prefs.values), VIDEO_HISTORY), video.uri, History.VIDEO_CAP))]
        [LAST_VIDEO_URI := StringValue(video.uri)][LAST_VIDEO_TITLE := StringValue(video.title)]
      ensures started == old(started) +
        [LaunchIntent(video, old(shown), position, SavedPlaybackPosition(old(prefs.values), video.uri))]
      ensures allVideos == old(allVideos) && shown == old(shown) && subtitle == old(subtitle)
      ensures emptyMessage == old(emptyMessage)
    {
      SaveVideoToHistory(video.uri, video.title);
      var savedPosition := GetSavedPlaybackPosition(video.uri);
      started := started + [LaunchIntent(video, shown, position, savedPosition)];
    }
  }
}
