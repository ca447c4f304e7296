/**
 * The main screen: the Videos, Audio, Browse and Playlist tabs over one scanned catalogue,
 * the folder drill-down, the toolbar search and sort, the player launch, and the
 * "continue watching" button.
 */
module MainActivity {
  import opened Text
  import opened Seqs
  import opened Media
  import opened Prefs
  import opened Intents
  import opened Screens
  import History
  import BrowseFragment
  import PlaylistFragment

  /** The outcome of one catalogue scan: its items, or the message of the exception it threw. */
  datatype Scan<T> = Scanned(items: T) | Threw(message: string)

  // ---------------------------------------------------------------- the Browse tab's folder list

  /** The Video filter's count for a folder: its items that the audio test rejects. */
  function FolderVideoCount(videos: seq<VideoItem>, id: int): nat
  {
    |Filter(videos, (v: VideoItem) => v.folderId == id && !IsAudioItem(v))|
  }

  /** The Video filter's `mapNotNull`: every folder holding videos, copied with their number. */
  function VideoFolders(folders: seq<FolderItem>, videos: seq<VideoItem>): seq<FolderItem>
  {
    if folders == [] then []
    else
      var c := FolderVideoCount(videos, folders[0].id);
      (if c > 0 then [folders[0].(videoCount := c)] else []) + VideoFolders(folders[1..], videos)
  }

  /**
   * The Video filter lists one copy of each folder that holds videos, in folder order, and
   * nothing else; each listed count is the folder's number of videos.
   */
  lemma {:induction false} VideoFoldersMeaning(folders: seq<FolderItem>, videos: seq<VideoItem>)
    ensures |VideoFolders(folders, videos)| == |Filter(folders, (g: FolderItem) => FolderVideoCount(videos, g.id) > 0)|
    ensures forall f :: f in VideoFolders(folders, videos) ==>
      (f.videoCount == FolderVideoCount(videos, f.id) > 0
       && exists g :: g in folders && f == g.(videoCount := f.videoCount))
    ensures forall g :: g in folders && FolderVideoCount(videos, g.id) > 0 ==>
      g.(videoCount := FolderVideoCount(videos, g.id)) in VideoFolders(folders, videos)
  {
    if folders != [] {
      VideoFoldersMeaning(folders[1..], videos);
      assert forall g :: g in folders <==> g == folders[0] || g in folders[1..];
    }
  }

  /** The Audio filter's count for a directory: the audio files directly inside it. */
  function AudioCount(audio: seq<VideoItem>, dir: string): nat
  {
    |AudioInFolder(audio, dir)|
  }

  /** `showAudioInFolder(path)`'s list: the audio files directly inside the directory. */
  function AudioInFolder(audio: seq<VideoItem>, dir: string): seq<VideoItem>
  {
    Filter(audio, (a: VideoItem) => BrowseFragment.ParentPath(a) == dir)
  }

  /** The folder item of an audio directory: id `path.hashCode()`, named by its last segment. */
  function AudioFolder(entry: (string, int)): FolderItem
  {
    FolderItem(JavaHashCode(entry.0), BrowseFragment.AudioFolderName(entry.0), entry.0, entry.1)
  }

  /** `audioFolderMap.map { (path, count) -> FolderItem(...) }` */
  function AudioFolders(m: Entries<string, int>): (r: seq<FolderItem>)
    ensures |r| == |m| && forall i :: 0 <= i < |m| ==> r[i] == AudioFolder(m[i])
  {
    if m == [] then [] else [AudioFolder(m[0])] + AudioFolders(m[1..])
  }

  function FolderPath(f: FolderItem): string { f.path }

  /** Counting parent paths and filtering the files by directory agree. */
  lemma {:induction false} ParentPathsCount(audio: seq<VideoItem>, dir: string)
    ensures multiset(BrowseFragment.ParentPaths(audio))[dir] == AudioCount(audio, dir)
  {
    if audio != [] {
      ParentPathsCount(audio[..|audio| - 1], dir);
      CountStep(audio, dir);
    }
  }

  /** Both counts grow by one exactly when the last file lies in `dir`. */
  lemma CountStep(audio: seq<VideoItem>, dir: string)
    requires audio != []
    ensures var init, last := audio[..|audio| - 1], audio[|audio| - 1];
      AudioCount(audio, dir) == AudioCount(init, dir) + (if BrowseFragment.ParentPath(last) == dir then 1 else 0)
      && multiset(BrowseFragment.ParentPaths(audio))[dir]
         == multiset(BrowseFragment.ParentPaths(init))[dir] + (if BrowseFragment.ParentPath(last) == dir then 1 else 0)
  {
    var init, last := audio[..|audio| - 1], audio[|audio| - 1];
    var p := (a: VideoItem) => BrowseFragment.ParentPath(a) == dir;
    assert audio == init + [last];
    FilterAppend(init, [last], p);
    assert Filter([last], p) == if p(last) then [last] else [];
  }

  /**
   * The Audio filter lists each directory holding audio files exactly once: every audio file
   * adds 1 to its own directory's entry, the entry is named by the directory's last segment
   * ("Audio" when that is empty) and its id is the path's hash code.
   */
  lemma AudioFoldersMeaning(audio: seq<VideoItem>)
    ensures UniqueBy(AudioFolders(Tally(BrowseFragment.ParentPaths(audio))), FolderPath)
    ensures var r := AudioFolders(Tally(BrowseFragment.ParentPaths(audio)));
      forall i :: 0 <= i < |r| ==>
        r[i].videoCount == AudioCount(audio, r[i].path) > 0
        && r[i].id == JavaHashCode(r[i].path) && r[i].name == BrowseFragment.AudioFolderName(r[i].path)
    ensures forall a :: a in audio ==>
      HasPath(AudioFolders(Tally(BrowseFragment.ParentPaths(audio))), BrowseFragment.ParentPath(a))
  {
    var ks := BrowseFragment.ParentPaths(audio);
    var m := Tally(ks);
    var r := AudioFolders(m);
    TallyCounts(ks);
    forall i, j | 0 <= i < j < |r| ensures FolderPath(r[i]) != FolderPath(r[j]) {
      assert m[i].0 != m[j].0;
    }
    forall i | 0 <= i < |r| ensures r[i].videoCount == AudioCount(audio, r[i].path) > 0 {
      AudioEntryCount(audio, i);
    }
    forall a | a in audio ensures HasPath(r, BrowseFragment.ParentPath(a)) {
      AudioFileListed(audio, a);
    }
  }

  lemma AudioEntryCount(audio: seq<VideoItem>, i: int)
    requires 0 <= i < |Tally(BrowseFragment.ParentPaths(audio))|
    ensures var r := AudioFolders(Tally(BrowseFragment.ParentPaths(audio)));
      r[i].videoCount == AudioCount(audio, r[i].path) > 0
  {
    var m := Tally(BrowseFragment.ParentPaths(audio));
    TallyEntry(BrowseFragment.ParentPaths(audio), i);
    ParentPathsCount(audio, m[i].0);
  }

  /** Some listed folder has the path `dir`. */
  predicate HasPath(r: seq<FolderItem>, dir: string)
  {
    exists i :: 0 <= i < |r| && r[i].path == dir
  }

  lemma AudioFileListed(audio: seq<VideoItem>, a: VideoItem)
    requires a in audio
    ensures HasPath(AudioFolders(Tally(BrowseFragment.ParentPaths(audio))), BrowseFragment.ParentPath(a))
  {
    var ks := BrowseFragment.ParentPaths(audio);
    var k :| 0 <= k < |audio| && audio[k] == a;
    assert ks[k] == BrowseFragment.ParentPath(a);
    var i := TallyFinds(ks, ks[k]);
    AudioFolderAt(Tally(ks), i);
  }

  lemma AudioFolderAt(m: Entries<string, int>, i: int)
    requires 0 <= i < |m|
    ensures 0 <= i < |AudioFolders(m)| && AudioFolders(m)[i].path == m[i].0
  {
  }

  /** `showBrowseMedia()`'s list before sorting: 1 = video folders, 2 = audio directories, else every folder. */
  function BrowseFolders(browseFilter: int, folders: seq<FolderItem>, videos: seq<VideoItem>, audio: seq<VideoItem>)
    : seq<FolderItem>
  {
    if browseFilter == 1 then VideoFolders(folders, videos)
    else if browseFilter == 2 then AudioFolders(Tally(BrowseFragment.ParentPaths(audio)))
    else folders
  }

  /** `sortedByDescending { it.videoCount }` is a permutation with the counts in descending order. */
  lemma SortedByCount(list: seq<FolderItem>)
    ensures multiset(SortBy(list, BrowseFragment.ByCountDescending)) == multiset(list)
    ensures var r := SortBy(list, BrowseFragment.ByCountDescending);
      forall i, j :: 0 <= i < j < |r| ==> r[i].videoCount >= r[j].videoCount
  {
    var r := SortBy(list, BrowseFragment.ByCountDescending);
    SortByCorrect(list, BrowseFragment.ByCountDescending);
    forall i, j | 0 <= i < j < |r| ensures r[i].videoCount >= r[j].videoCount {
      assert !KeyLess(BrowseFragment.ByCountDescending(r[j]), BrowseFragment.ByCountDescending(r[i]));
    }
  }

  /** The empty view's text of the Browse folder list. */
  function BrowseEmptyText(browseFilter: int): string
  {
    if browseFilter == 1 then "No video folders found"
    else if browseFilter == 2 then "No audio folders found"
    else "No media folders found"
  }

  /** The loop-and-map of `showBrowseMedia()`: the counting map for audio, the copies for video. */
  method FilterFolders(browseFilter: int, folders: seq<FolderItem>, videos: seq<VideoItem>, audio: seq<VideoItem>)
    returns (filteredFolders: seq<FolderItem>)
    ensures filteredFolders == BrowseFolders(browseFilter, folders, videos, audio)
  {
    if browseFilter == 1 {
      filteredFolders := VideoFolders(folders, videos);
    } else if browseFilter == 2 {
      var audioFolderMap := BrowseFragment.CountAudio(audio);
      filteredFolders := AudioFolders(audioFolderMap);
    } else {
      filteredFolders := folders;
    }
  }

  // ---------------------------------------------------------------- inside a folder

  /**
   * `showVideosInFolder(folderId)`'s list: the items with that folder id, narrowed in the
   * Browse tab to the videos (filter 1) or the audio files (filter 2); any other filter value
   * keeps them all.
   */
  function FolderContents(videos: seq<VideoItem>, folderId: int, tab: int, browseFilter: int): seq<VideoItem>
  {
    var folderVideos := Filter(videos, (v: VideoItem) => v.folderId == folderId);
    if tab == 2 && browseFilter == 1 then Filter(folderVideos, (v: VideoItem) => !IsAudioItem(v))
    else if tab == 2 && browseFilter == 2 then Filter(folderVideos, (v: VideoItem) => IsAudioItem(v))
    else folderVideos
  }

  /** Whether the Browse filter lets an item through, outside the Browse tab always. */
  predicate BrowseKeeps(tab: int, browseFilter: int, v: VideoItem)
  {
    (tab == 2 && browseFilter == 1 ==> !IsAudioItem(v)) && (tab == 2 && browseFilter == 2 ==> IsAudioItem(v))
  }

  /**
   * The folder's list is a subsequence of the folder's items; in the Browse tab the Video
   * filter keeps exactly its non-audio items and the Audio filter exactly its audio items.
   */
  lemma FolderContentsMeaning(videos: seq<VideoItem>, folderId: int, tab: int, browseFilter: int)
    ensures Subsequence(FolderContents(videos, folderId, tab, browseFilter),
                        Filter(videos, (v: VideoItem) => v.folderId == folderId))
    ensures forall v :: (multiset(FolderContents(videos, folderId, tab, browseFilter))[v] ==
      if v.folderId == folderId && BrowseKeeps(tab, browseFilter, v) then multiset(videos)[v] else 0)
  {
    var folderVideos := Filter(videos, (v: VideoItem) => v.folderId == folderId);
    FilterCounts(videos, (v: VideoItem) => v.folderId == folderId);
    if tab == 2 && browseFilter == 1 {
      FilterSubsequence(folderVideos, (v: VideoItem) => !IsAudioItem(v));
      FilterCounts(folderVideos, (v: VideoItem) => !IsAudioItem(v));
    } else if tab == 2 && browseFilter == 2 {
      FilterSubsequence(folderVideos, (v: VideoItem) => IsAudioItem(v));
      FilterCounts(folderVideos, (v: VideoItem) => IsAudioItem(v));
    } else {
      SubsequenceRefl(folderVideos);
    }
  }

  /** Filtering by folder, then dropping audio, is counting the folder's videos. */
  lemma {:induction false} FolderThenVideo(videos: seq<VideoItem>, id: int)
    ensures Filter(Filter(videos, (v: VideoItem) => v.folderId == id), (v: VideoItem) => !IsAudioItem(v))
      == Filter(videos, (v: VideoItem) => v.folderId == id && !IsAudioItem(v))
  {
    if videos != [] {
      FolderThenVideo(videos[1..], id);
      var head := if videos[0].folderId == id then [videos[0]] else [];
      FilterAppend(head, Filter(videos[1..], (v: VideoItem) => v.folderId == id), (v: VideoItem) => !IsAudioItem(v));
      if videos[0].folderId == id {
        assert Filter(head, (v: VideoItem) => !IsAudioItem(v))
          == (if !IsAudioItem(videos[0]) then [videos[0]] else []) + Filter([], (v: VideoItem) => !IsAudioItem(v));
      }
    }
  }

  /**
   * A folder of the Video list opens, in the Browse tab with the Video filter, onto exactly as
   * many items as its count.
   */
  lemma VideoCountMatchesContents(folders: seq<FolderItem>, videos: seq<VideoItem>, f: FolderItem)
    requires f in VideoFolders(folders, videos)
    ensures |FolderContents(videos, f.id, 2, 1)| == f.videoCount > 0
  {
    VideoFoldersMeaning(folders, videos);
    FolderThenVideo(videos, f.id);
  }

  /**
   * A directory of the Audio list opens onto exactly as many audio files as its count, when the
   * rescan finds the same audio files.
   */
  lemma AudioCountMatchesContents(audio: seq<VideoItem>, f: FolderItem)
    requires f in AudioFolders(Tally(BrowseFragment.ParentPaths(audio)))
    ensures |AudioInFolder(audio, f.path)| == f.videoCount > 0
  {
    AudioFoldersMeaning(audio);
  }

  /** The empty view's text inside a folder, by Browse filter. */
  function FolderEmptyText(browseFilter: int): string
  {
    if browseFilter == 1 then "No videos in this folder"
    else if browseFilter == 2 then "No audio files in this folder"
    else "No media files found"
  }

  // ---------------------------------------------------------------- search, sort, continue

  /** `searchVideos(query)`'s test: the title or the folder name contains the query, ignoring case. */
  predicate SearchMatches(v: VideoItem, query: string)
  {
    ContainsIgnoreCase(v.title, query) || ContainsIgnoreCase(v.folderName, query)
  }

  function SearchResults(all: seq<VideoItem>, query: string): seq<VideoItem>
  {
    Filter(all, (v: VideoItem) => SearchMatches(v, query))
  }

  /**
   * The search keeps, in order, exactly the catalogue items whose title or folder name contains
   * the query, audio included; the empty query keeps the whole catalogue.
   */
  lemma SearchResultsMeaning(all: seq<VideoItem>, query: string)
    ensures Subsequence(SearchResults(all, query), all)
    ensures forall v :: (multiset(SearchResults(all, query))[v] ==
      if ContainsIgnoreCase(v.title, query) || ContainsIgnoreCase(v.folderName, query) then multiset(all)[v] else 0)
    ensures SearchResults(all, "") == all
  {
    FilterSubsequence(all, (v: VideoItem) => SearchMatches(v, query));
    FilterCounts(all, (v: VideoItem) => SearchMatches(v, query));
    forall v: VideoItem ensures SearchMatches(v, "") {
      ContainsEmpty(Lower(v.title));
    }
    FilterAll(all, (v: VideoItem) => SearchMatches(v, ""));
  }

  /** The toolbar's sort orders. */
  datatype SortType = NAME | DATE | SIZE | DURATION

  /** The sort order's number in `Screens.SortVideos`. */
  function SortCode(sortType: SortType): int
  {
    match sortType
    case NAME => 0
    case DATE => 1
    case SIZE => 2
    case DURATION => 3
  }

  /** `sortType.name.lowercase()` */
  function SortName(sortType: SortType): string
  {
    match sortType
    case NAME => "name"
    case DATE => "date"
    case SIZE => "size"
    case DURATION => "duration"
  }

  /** `prefs.getString(key, null)`: the stored string, if any. */
  function StoredString(values: map<string, Pref>, key: string): Option<string>
  {
    if key in values && values[key].StringValue? then Some(values[key].s) else None
  }

  /** `prefs.getLong(key, 0)` */
  function StoredLong(values: map<string, Pref>, key: string): int
  {
    if key in values && values[key].LongValue? then values[key].n else 0
  }

  predicate IsNetworkUri(uri: string)
  {
    StartsWith(uri, "http://") || StartsWith(uri, "https://")
  }

  /**
   * The intent of `continueLastVideo()`: nothing without a stored non-empty last URI;
   * otherwise that URI alone as the playlist, its stored title ("Video" when absent), the
   * stored last position (0 when absent) and the network flag.
   */
  function ContinueIntent(values: map<string, Pref>): (r: Option<PlayerIntent>)
    ensures r.None? <==> StoredString(values, LAST_VIDEO_URI) in {None, Some("")}
    ensures r.Some? ==> (r.value.uri.Some? && r.value.title.Some? && r.value.index.None?
      && r.value.playbackPosition.Some? && r.value.isNetworkStream == Some(IsNetworkUri(r.value.uri.value))
      && r.value.playlist == Some([r.value.uri.value]) && r.value.titles == Some([r.value.title.value]))
  {
    match StoredString(values, LAST_VIDEO_URI)
    case None => None
    case Some(lastUri) =>
      if lastUri == [] then None
      else
        var lastTitle := match StoredString(values, LAST_VIDEO_TITLE) case Some(t) => t case None => "Video";
        Some(NO_EXTRAS.(uri := Some(lastUri), title := Some(lastTitle),
                        playbackPosition := Some(StoredLong(values, LAST_VIDEO_POSITION)),
                        isNetworkStream := Some(IsNetworkUri(lastUri)),
                        playlist := Some([lastUri]), titles := Some([lastTitle])))
  }

  /**
   * After a video is recorded by the video saver, "continue" starts exactly that video with
   * its title, from the last stored position; recording an audio file changes nothing that
   * "continue" reads.
   */
  lemma ContinueAfterSave(values: map<string, Pref>, uri: string, title: string, h: Pref)
    requires uri != []
    ensures var saved := values[VIDEO_HISTORY := h][LAST_VIDEO_URI := StringValue(uri)][LAST_VIDEO_TITLE := StringValue(title)];
      var r := ContinueIntent(saved);
      r.Some? && r.value.uri == Some(uri) && r.value.title == Some(title)
      && r.value.playlist == Some([uri]) && r.value.titles == Some([title])
      && r.value.playbackPosition == Some(StoredLong(values, LAST_VIDEO_POSITION))
      && r.value.isNetworkStream == Some(StartsWith(uri, "http://") || StartsWith(uri, "https://"))
    ensures ContinueIntent(values[AUDIO_HISTORY := h]) == ContinueIntent(values)
  {
    var saved := values[VIDEO_HISTORY := h][LAST_VIDEO_URI := StringValue(uri)][LAST_VIDEO_TITLE := StringValue(title)];
    assert StoredString(saved, LAST_VIDEO_URI) == Some(uri);
    assert StoredString(saved, LAST_VIDEO_TITLE) == Some(title);
    assert StoredLong(saved, LAST_VIDEO_POSITION) == StoredLong(values, LAST_VIDEO_POSITION);
    var a := values[AUDIO_HISTORY := h];
    assert StoredString(a, LAST_VIDEO_URI) == StoredString(values, LAST_VIDEO_URI);
    assert StoredString(a, LAST_VIDEO_TITLE) == StoredString(values, LAST_VIDEO_TITLE);
    assert StoredLong(a, LAST_VIDEO_POSITION) == StoredLong(values, LAST_VIDEO_POSITION);
  }

  const PLAYLIST_EMPTY := "Watch some videos to build your playlist!"

  // ---------------------------------------------------------------- the screen

  class MainActivity {
    const prefs: PrefStore
    var allVideos: seq<VideoItem>
    var allFolders: seq<FolderItem>
    var allAudioFiles: seq<VideoItem>
    /** 0 = Videos, 1 = Audio, 2 = Browse, 3 = Playlist, 4 = Network. */
    var currentTab: int
    /** The Browse filter: 1 = videos, 2 = audio, 0 = none (before the buttons are set up). */
    var browseFilter: int
    /** Whether the folder adapter (rather than the video adapter) is displayed. */
    var isShowingFolders: bool
    var currentFolderId: Option<int>
    var currentFolderPath: Option<string>
    var searchQuery: string
    /** The video adapter's list and the folder adapter's list. */
    var shown: seq<VideoItem>
    var folderList: seq<FolderItem>
    /** The empty view's text while the empty view is visible. */
    var emptyMessage: Option<string>
    /** The toolbar's subtitle. */
    var subtitle: Option<string>
    var toasts: seq<string>
    var started: seq<PlayerIntent>

    /** The scanned catalogue. */
    function Catalogue(): (seq<VideoItem>, seq<FolderItem>, seq<VideoItem>)
      reads this
    {
      (allVideos, allFolders, allAudioFiles)
    }

    /** Where the user is: tab, Browse filter, open folder, search query. */
    function Place(): (int, int, Option<int>, Option<string>, string)
      reads this
    {
      (currentTab, browseFilter, currentFolderId, currentFolderPath, searchQuery)
    }

    /** What the screen displays. */
    function Display(): (bool, seq<VideoItem>, seq<FolderItem>, Option<string>, Option<string>)
      reads this
    {
      (isShowingFolders, shown, folderList, emptyMessage, subtitle)
    }

    /** A failed scan leaves the display as it was, with the empty view hidden before the scan. */
    static function FailedLoadDisplay(d: (bool, seq<VideoItem>, seq<FolderItem>, Option<string>, Option<string>))
      : (r: (bool, seq<VideoItem>, seq<FolderItem>, Option<string>, Option<string>))
      ensures r.3.None? && r.0 == d.0 && r.1 == d.1 && r.2 == d.2 && r.4 == d.4
    {
      (d.0, d.1, d.2, None, d.4)
    }

    /** What the screen has sent out: toasts and player launches. */
    function Output(): (seq<string>, seq<PlayerIntent>)
      reads this
    {
      (toasts, started)
    }

    // -------------------------------------------------------------- what each view displays

    /** `showAllVideos()` has run (`prevShown` is the list before it). */
    predicate AllVideosShown(prevShown: seq<VideoItem>)
      reads this
    {
      var videoFiles := VideoFiles(allVideos);
      !isShowingFolders && subtitle == Some(IntToString(|videoFiles|) + " videos")
      && (videoFiles == [] ==> shown == prevShown && emptyMessage == Some("No videos found"))
      && (videoFiles != [] ==> shown == videoFiles && emptyMessage.None?)
    }

    /** `showFolders()` has run. */
    predicate FoldersShown(prevFolders: seq<FolderItem>)
      reads this
    {
      isShowingFolders
      && (allFolders == [] ==> folderList == prevFolders && emptyMessage == Some("No folders found"))
      && (allFolders != [] ==> folderList == allFolders && emptyMessage.None?)
    }

    /** `showAudioFiles()` has run with the scan's outcome (`None` when it threw). */
    predicate AudioFilesShown(scan: Option<seq<VideoItem>>, prevShown: seq<VideoItem>, prevSubtitle: Option<string>)
      reads this
    {
      !isShowingFolders
      && (scan.None? ==> shown == prevShown && subtitle == prevSubtitle && emptyMessage == Some("Error loading audio files"))
      && (scan.Some? ==> subtitle == Some(IntToString(|scan.value|) + " audio files"))
      && (scan.Some? && scan.value == [] ==> shown == prevShown && emptyMessage == Some("No audio files found"))
      && (scan.Some? && scan.value != [] ==> shown == scan.value && emptyMessage.None?)
    }

    /** `showPlaylists()` has run: the history's catalogue items, most recent first. */
    predicate PlaylistShown(history: Option<seq<string>>, prevShown: seq<VideoItem>)
      reads this
    {
      !isShowingFolders
      && (history.None? ==> shown == prevShown && emptyMessage == Some(PLAYLIST_EMPTY))
      && (history.Some? ==>
            var found := PlaylistFragment.HistoryVideos(history.value, allVideos);
            (found == [] ==> shown == prevShown && emptyMessage == Some(PLAYLIST_EMPTY))
            && (found != [] ==> shown == Reverse(found) && emptyMessage.None?))
    }

    /** `showBrowseMedia()` has run: the filtered folders by count, descending. */
    predicate BrowseShown(prevFolders: seq<FolderItem>)
      reads this
    {
      var r := BrowseFolders(browseFilter, allFolders, allVideos, allAudioFiles);
      isShowingFolders
      && (r == [] ==> folderList == prevFolders && emptyMessage == Some(BrowseEmptyText(browseFilter)))
      && (r != [] ==> folderList == SortBy(r, BrowseFragment.ByCountDescending) && emptyMessage.None?)
    }

    /** `showVideosInFolder(folderId)` has run: the list is submitted even when empty. */
    predicate FolderVideosShown(folderId: int)
      reads this
    {
      !isShowingFolders && shown == FolderContents(allVideos, folderId, currentTab, browseFilter)
      && emptyMessage == (if shown == [] then Some(FolderEmptyText(browseFilter)) else None)
    }

    /** `showAudioInFolder(path)` has run with the rescan's outcome. */
    predicate AudioFolderShown(folderPath: string, scan: Option<seq<VideoItem>>, prevShown: seq<VideoItem>)
      reads this
    {
      !isShowingFolders
      && (scan.None? ==> shown == prevShown && emptyMessage == Some("Error loading audio files"))
      && (scan.Some? ==>
            shown == AudioInFolder(scan.value, folderPath)
            && emptyMessage == (if shown == [] then Some("No audio files in this folder") else None))
    }

    /** `searchVideos(query)` has run. */
    predicate SearchShown(query: string)
      reads this
    {
      !isShowingFolders && shown == SearchResults(allVideos, query)
      && emptyMessage == (if shown == [] then Some("No videos found for \"" + query + "\"") else None)
    }

    /** The state after `onCreate`, before the first load: the Videos tab, the Video filter selected. */
    constructor (prefs: PrefStore)
      ensures this.prefs == prefs && Catalogue() == ([], [], [])
      ensures Place() == (0, 1, None, None, [])
      ensures Display() == (true, [], [], None, None) && Output() == ([], [])
    {
      this.prefs := prefs;
      allVideos, allFolders, allAudioFiles := [], [], [];
      currentTab, browseFilter := 0, 1;
      currentFolderId, currentFolderPath := None, None;
      searchQuery := [];
      isShowingFolders := true;
      shown, folderList := [], [];
      emptyMessage, subtitle := None, None;
      toasts, started := [], [];
    }

    // -------------------------------------------------------------- the views

    method ShowAllVideos()
      modifies this
      ensures AllVideosShown(old(shown))
      ensures folderList == old(folderList)
      ensures Catalogue() == old(Catalogue()) && Place() == old(Place()) && Output() == old(Output())
    {
      isShowingFolders := false;
      var videoFiles := VideoFiles(allVideos);
      subtitle := Some(IntToString(|videoFiles|) + " videos");
      if videoFiles == [] {
        emptyMessage := Some("No videos found");
      } else {
        emptyMessage := None;
        shown := videoFiles;
      }
    }

    method ShowFolders()
      modifies this
      ensures FoldersShown(old(folderList))
      ensures shown == old(shown) && subtitle == old(subtitle)
      ensures Catalogue() == old(Catalogue()) && Place() == old(Place()) && Output() == old(Output())
    {
      isShowingFolders := true;
      if allFolders == [] {
        emptyMessage := Some("No folders found");
      } else {
        emptyMessage := None;
        folderList := allFolders;
      }
    }

    /** `showAudioFiles()`; the asynchronous scan is the input `scan` (`None` when it throws). */
    method ShowAudioFiles(scan: Option<seq<VideoItem>>)
      modifies this
      ensures AudioFilesShown(scan, old(shown), old(subtitle))
      ensures folderList == old(folderList)
      ensures Catalogue() == old(Catalogue()) && Place() == old(Place()) && Output() == old(Output())
    {
      isShowingFolders := false;
      if scan.None? {
        emptyMessage := Some("Error loading audio files");
        return;
      }
      var audioFiles := scan.value;
      subtitle := Some(IntToString(|audioFiles|) + " audio files");
      if audioFiles == [] {
        emptyMessage := Some("No audio files found");
      } else {
        emptyMessage := None;
        shown := audioFiles;
      }
    }

    /** `showPlaylists()`: the video history matched against the catalogue, most recent first. */
    method ShowPlaylists()
      modifies this
      ensures PlaylistShown(ReadArray(prefs.values, VIDEO_HISTORY), old(shown))
      ensures folderList == old(folderList) && subtitle == old(subtitle)
      ensures Catalogue() == old(Catalogue()) && Place() == old(Place()) && Output() == old(Output())
    {
      isShowingFolders := false;
      var parsed := ReadArray(prefs.values, VIDEO_HISTORY);
      if parsed.None? {
        emptyMessage := Some(PLAYLIST_EMPTY);
        return;
      }
      var historyVideos := PlaylistFragment.CollectHistoryVideos(parsed.value, allVideos);
      if historyVideos == [] {
        emptyMessage := Some(PLAYLIST_EMPTY);
      } else {
        emptyMessage := None;
        shown := Reverse(historyVideos);
      }
    }

    /** `showBrowseMedia()`: the folder list under the current Browse filter. */
    method ShowBrowseMedia()
      modifies this
      ensures BrowseShown(old(folderList))
      ensures shown == old(shown) && subtitle == old(subtitle)
      ensures Catalogue() == old(Catalogue()) && Place() == old(Place()) && Output() == old(Output())
    {
      isShowingFolders := true;
      var filteredFolders := FilterFolders(browseFilter, allFolders, allVideos, allAudioFiles);
      if filteredFolders == [] {
        emptyMessage := Some(BrowseEmptyText(browseFilter));
      } else {
        emptyMessage := None;
        folderList := SortBy(filteredFolders, BrowseFragment.ByCountDescending);
      }
    }

    method ShowVideosInFolder(folderId: int)
      modifies this
      ensures FolderVideosShown(folderId)
      ensures folderList == old(folderList) && subtitle == old(subtitle)
      ensures Catalogue() == old(Catalogue()) && Place() == old(Place()) && Output() == old(Output())
    {
      isShowingFolders := false;
      var folderVideos := FolderContents(allVideos, folderId, currentTab, browseFilter);
      shown := folderVideos;
      if folderVideos == [] {
        emptyMessage := Some(FolderEmptyText(browseFilter));
      } else {
        emptyMessage := None;
      }
    }

    /** `showAudioInFolder(path)`; the asynchronous rescan is the input `scan`. */
    method ShowAudioInFolder(folderPath: string, scan: Option<seq<VideoItem>>)
      modifies this
      ensures AudioFolderShown(folderPath, scan, old(shown))
      ensures folderList == old(folderList) && subtitle == old(subtitle)
      ensures Catalogue() == old(Catalogue()) && Place() == old(Place()) && Output() == old(Output())
    {
      isShowingFolders := false;
      if scan.None? {
        emptyMessage := Some("Error loading audio files");
        return;
      }
      var folderAudio := AudioInFolder(scan.value, folderPath);
      shown := folderAudio;
      if folderAudio == [] {
        emptyMessage := Some("No audio files in this folder");
      } else {
        emptyMessage := None;
      }
    }

    method SearchVideos(query: string)
      modifies this
      ensures SearchShown(query)
      ensures folderList == old(folderList) && subtitle == old(subtitle)
      ensures Catalogue() == old(Catalogue()) && Place() == old(Place()) && Output() == old(Output())
    {
      isShowingFolders := false;
      var results := SearchResults(allVideos, query);
      shown := results;
      if results == [] {
        emptyMessage := Some("No videos found for \"" + query + "\"");
      } else {
        emptyMessage := None;
      }
    }

    // -------------------------------------------------------------- loading and navigation

    /**
     * `loadVideos()`: the three scans in order (a scan that throws stops the load with a
     * toast and keeps what was already assigned), then the current tab's view. `audioTabScan`
     * is the Audio tab's own scan.
     */
    method LoadVideos(videoScan: Scan<seq<VideoItem>>, folderScan: Scan<seq<FolderItem>>,
                      audioScan: Scan<seq<VideoItem>>, audioTabScan: Option<seq<VideoItem>>)
      modifies this
      ensures videoScan.Threw? ==>
        Catalogue() == old(Catalogue()) && Display() == FailedLoadDisplay(old(Display()))
        && toasts == old(toasts) + ["Error loading videos: " + videoScan.message]
      ensures videoScan.Scanned? && folderScan.Threw? ==>
        Catalogue() == (videoScan.items, old(allFolders), old(allAudioFiles))
        && Display() == FailedLoadDisplay(old(Display()))
        && toasts == old(toasts) + ["Error loading videos: " + folderScan.message]
      ensures videoScan.Scanned? && folderScan.Scanned? && audioScan.Threw? ==>
        Catalogue() == (videoScan.items, folderScan.items, old(allAudioFiles))
        && Display() == FailedLoadDisplay(old(Display()))
        && toasts == old(toasts) + ["Error loading videos: " + audioScan.message]
      ensures videoScan.Scanned? && folderScan.Scanned? && audioScan.Scanned? ==>
        Catalogue() == (videoScan.items, folderScan.items, audioScan.items) && toasts == old(toasts)
        && (currentTab == 1 ==> AudioFilesShown(audioTabScan, old(shown), old(subtitle)))
        && (currentTab == 2 ==> FoldersShown(old(folderList)))
        && (currentTab == 3 ==> PlaylistShown(ReadArray(prefs.values, VIDEO_HISTORY), old(shown)))
        && (currentTab !in {1, 2, 3} ==> AllVideosShown(old(shown)))
      ensures Place() == old(Place()) && started == old(started)
    {
      emptyMessage := None;
      if videoScan.Threw? {
        toasts := toasts + ["Error loading videos: " + videoScan.message];
        return;
      }
      allVideos := videoScan.items;
      if folderScan.Threw? {
        toasts := toasts + ["Error loading videos: " + folderScan.message];
        return;
      }
      allFolders := folderScan.items;
      if audioScan.Threw? {
        toasts := toasts + ["Error loading videos: " + audioScan.message];
        return;
      }
      allAudioFiles := audioScan.items;
      if currentTab == 1 {
        ShowAudioFiles(audioTabScan);
      } else if currentTab == 2 {
        ShowFolders();
      } else if currentTab == 3 {
        ShowPlaylists();
      } else {
        ShowAllVideos();
      }
    }

    /** The Videos item of the bottom bar: leave any folder and reload. */
    method SelectVideosTab(videoScan: Scan<seq<VideoItem>>, folderScan: Scan<seq<FolderItem>>,
                           audioScan: Scan<seq<VideoItem>>)
      modifies this
      ensures currentTab == 0 && currentFolderId.None? && currentFolderPath.None?
      ensures browseFilter == old(browseFilter) && searchQuery == old(searchQuery) && started == old(started)
      ensures videoScan.Threw? ==>
        Catalogue() == old(Catalogue()) && Display() == FailedLoadDisplay(old(Display()))
        && toasts == old(toasts) + ["Error loading videos: " + videoScan.message]
      ensures videoScan.Scanned? && folderScan.Threw? ==>
        Catalogue() == (videoScan.items, old(allFolders), old(allAudioFiles))
        && Display() == FailedLoadDisplay(old(Display()))
        && toasts == old(toasts) + ["Error loading videos: " + folderScan.message]
      ensures videoScan.Scanned? && folderScan.Scanned? && audioScan.Threw? ==>
        Catalogue() == (videoScan.items, folderScan.items, old(allAudioFiles))
        && Display() == FailedLoadDisplay(old(Display()))
        && toasts == old(toasts) + ["Error loading videos: " + audioScan.message]
      ensures videoScan.Scanned? && folderScan.Scanned? && audioScan.Scanned? ==>
        Catalogue() == (videoScan.items, folderScan.items, audioScan.items) && AllVideosShown(old(shown))
        && toasts == old(toasts)
    {
      currentTab := 0;
      currentFolderId, currentFolderPath := None, None;
      LoadVideos(videoScan, folderScan, audioScan, None);
    }

    /** The Audio item of the bottom bar. */
    method SelectAudioTab(scan: Option<seq<VideoItem>>)
      modifies this
      ensures currentTab == 1 && currentFolderId.None? && currentFolderPath.None?
      ensures AudioFilesShown(scan, old(shown), old(subtitle)) && folderList == old(folderList)
      ensures browseFilter == old(browseFilter) && searchQuery == old(searchQuery)
      ensures Catalogue() == old(Catalogue()) && Output() == old(Output())
    {
      currentTab := 1;
      currentFolderId, currentFolderPath := None, None;
      ShowAudioFiles(scan);
    }

    /** The Browse item of the bottom bar: the folder list under the Browse filter, no subtitle. */
    method SelectBrowseTab()
      modifies this
      ensures currentTab == 2 && currentFolderId.None? && currentFolderPath.None? && subtitle.None?
      ensures BrowseShown(old(folderList)) && shown == old(shown)
      ensures browseFilter == old(browseFilter) && searchQuery == old(searchQuery)
      ensures Catalogue() == old(Catalogue()) && Output() == old(Output())
    {
      currentTab := 2;
      subtitle := None;
      currentFolderId, currentFolderPath := None, None;
      ShowBrowseMedia();
    }

    /** The Playlist item of the bottom bar. */
    method SelectPlaylistTab()
      modifies this
      ensures currentTab == 3 && currentFolderId.None? && currentFolderPath.None? && subtitle.None?
      ensures PlaylistShown(ReadArray(prefs.values, VIDEO_HISTORY), old(shown)) && folderList == old(folderList)
      ensures browseFilter == old(browseFilter) && searchQuery == old(searchQuery)
      ensures Catalogue() == old(Catalogue()) && Output() == old(Output())
    {
      currentTab := 3;
      subtitle := None;
      currentFolderId, currentFolderPath := None, None;
      ShowPlaylists();
    }

    /** The Network item of the bottom bar: the stream screen opens over this one, which keeps its folder. */
    method SelectNetworkTab()
      modifies this
      ensures currentTab == 4 && subtitle.None?
      ensures currentFolderId == old(currentFolderId) && currentFolderPath == old(currentFolderPath)
      ensures browseFilter == old(browseFilter) && searchQuery == old(searchQuery)
      ensures isShowingFolders == old(isShowingFolders) && shown == old(shown) && folderList == old(folderList)
      ensures emptyMessage == old(emptyMessage) && Catalogue() == old(Catalogue()) && Output() == old(Output())
    {
      currentTab := 4;
      subtitle := None;
    }

    /** The Video (`audio` false) and Audio (`audio` true) buttons of the Browse filter bar. */
    method OnFilterButton(audio: bool)
      modifies this
      ensures browseFilter == (if audio then 2 else 1) && currentFolderId.None? && currentFolderPath.None?
      ensures BrowseShown(old(folderList)) && shown == old(shown) && subtitle == old(subtitle)
      ensures currentTab == old(currentTab) && searchQuery == old(searchQuery)
      ensures Catalogue() == old(Catalogue()) && Output() == old(Output())
    {
      browseFilter := if audio then 2 else 1;
      currentFolderId, currentFolderPath := None, None;
      ShowBrowseMedia();
    }

    /**
     * `openFolder(folder)`: remember the folder, then list its audio files by path (Audio tab,
     * or Browse tab with the Audio filter; `audioScan` is the rescan) or its items by id.
     */
    method OpenFolder(folder: FolderItem, audioScan: Option<seq<VideoItem>>)
      modifies this
      ensures currentFolderId == Some(folder.id) && currentFolderPath == Some(folder.path)
      ensures currentTab == 1 || (currentTab == 2 && browseFilter == 2) ==>
        AudioFolderShown(folder.path, audioScan, old(shown))
      ensures !(currentTab == 1 || (currentTab == 2 && browseFilter == 2)) ==> FolderVideosShown(folder.id)
      ensures currentTab == old(currentTab) && browseFilter == old(browseFilter) && searchQuery == old(searchQuery)
      ensures folderList == old(folderList) && subtitle == old(subtitle)
      ensures Catalogue() == old(Catalogue()) && Output() == old(Output())
    {
      currentFolderId := Some(folder.id);
      currentFolderPath := Some(folder.path);
      if currentTab == 1 {
        ShowAudioInFolder(folder.path, audioScan);
      } else if currentTab == 2 && browseFilter == 2 {
        ShowAudioInFolder(folder.path, audioScan);
      } else {
        ShowVideosInFolder(folder.id);
      }
    }

    /** The search field's submit button. */
    method OnQueryTextSubmit(query: string)
      modifies this
      ensures SearchShown(query) && Place() == old(Place())
      ensures folderList == old(folderList) && subtitle == old(subtitle)
      ensures Catalogue() == old(Catalogue()) && Output() == old(Output())
    {
      SearchVideos(query);
    }

    /**
     * The search field's text changed: a non-empty query searches the catalogue; clearing it
     * returns to the open folder's items, or to the plain folder list.
     */
    method OnQueryTextChange(text: string)
      modifies this
      ensures searchQuery == text
      ensures text != [] ==> SearchShown(text)
      ensures text == [] && currentFolderId.Some? ==> FolderVideosShown(currentFolderId.value)
      ensures text == [] && currentFolderId.None? ==> FoldersShown(old(folderList))
      ensures currentTab == old(currentTab) && browseFilter == old(browseFilter)
      ensures currentFolderId == old(currentFolderId) && currentFolderPath == old(currentFolderPath)
      ensures Catalogue() == old(Catalogue()) && Output() == old(Output())
    {
      searchQuery := text;
      if searchQuery == [] {
        if currentFolderId.Some? {
          ShowVideosInFolder(currentFolderId.value);
        } else {
          ShowFolders();
        }
      } else {
        SearchVideos(searchQuery);
      }
    }

    /**
     * `onBackPressed()`: a search is cleared first; then an open folder is left for the
     * current tab's view (`audioScan` feeds the Audio tab's rescan); otherwise the press is not
     * consumed and nothing changes.
     */
    method OnBackPressed(audioScan: Option<seq<VideoItem>>) returns (handled: bool)
      modifies this
      ensures handled <==> old(searchQuery) != [] || old(currentFolderId).Some? || old(currentFolderPath).Some?
      ensures old(searchQuery) != [] ==>
        searchQuery == [] && currentFolderId == old(currentFolderId) && currentFolderPath == old(currentFolderPath)
        && (currentFolderId.Some? ==> FolderVideosShown(currentFolderId.value))
        && (currentFolderId.None? ==> FoldersShown(old(folderList)))
      ensures old(searchQuery) == [] && handled ==>
        currentFolderId.None? && currentFolderPath.None? && searchQuery == []
        && (currentTab == 0 ==> AllVideosShown(old(shown)))
        && (currentTab == 1 ==> AudioFilesShown(audioScan, old(shown), old(subtitle)))
        && (currentTab == 2 ==> BrowseShown(old(folderList)))
        && (currentTab == 3 ==> PlaylistShown(ReadArray(prefs.values, VIDEO_HISTORY), old(shown)))
        && (currentTab !in {0, 1, 2, 3} ==> FoldersShown(old(folderList)))
      ensures !handled ==> Place() == old(Place()) && Display() == old(Display())
      ensures currentTab == old(currentTab) && browseFilter == old(browseFilter)
      ensures Catalogue() == old(Catalogue()) && Output() == old(Output())
    {
      if searchQuery != [] {
        searchQuery := [];
        if currentFolderId.Some? {
          ShowVideosInFolder(currentFolderId.value);
        } else {
          ShowFolders();
        }
        return true;
      }
      if currentFolderId.Some? || currentFolderPath.Some? {
        currentFolderId, currentFolderPath := None, None;
        if currentTab == 0 {
          ShowAllVideos();
        } else if currentTab == 1 {
          ShowAudioFiles(audioScan);
        } else if currentTab == 2 {
          ShowBrowseMedia();
        } else if currentTab == 3 {
          ShowPlaylists();
        } else {
          ShowFolders();
        }
        return true;
      }
      return false;
    }

    /** `sortVideos(sortType)`: nothing while folders are shown; otherwise sort the displayed list. */
    method SortVideos(sortType: SortType)
      modifies this
      ensures old(isShowingFolders) ==> shown == old(shown) && toasts == old(toasts)
      ensures !old(isShowingFolders) ==>
        shown == Screens.SortVideos(old(shown), SortCode(sortType))
        && toasts == old(toasts) + ["Sorted by " + SortName(sortType)]
      ensures multiset(shown) == multiset(old(shown))
      ensures isShowingFolders == old(isShowingFolders) && folderList == old(folderList)
      ensures emptyMessage == old(emptyMessage) && subtitle == old(subtitle)
      ensures Catalogue() == old(Catalogue()) && Place() == old(Place()) && started == old(started)
    {
      if isShowingFolders {
        return;
      }
      SortVideosCorrect(shown, SortCode(sortType));
      shown := Screens.SortVideos(shown, SortCode(sortType));
      toasts := toasts + ["Sorted by " + SortName(sortType)];
    }

    // -------------------------------------------------------------- history and the player

    /** `saveVideoToHistory(uri, title)`, this screen's copy of the video saver. */
    method SaveVideoToHistory(uri: string, title: string)
      modifies prefs
      ensures prefs.values == old(prefs.values)
        [VIDEO_HISTORY := JsonArray(History.MostRecent(ArrayOrEmpty(old(prefs.values), VIDEO_HISTORY), uri, History.VIDEO_CAP))]
        [LAST_VIDEO_URI := StringValue(uri)][LAST_VIDEO_TITLE := StringValue(title)]
    {
      History.SaveVideoToHistory(prefs, uri, title);
    }

    /** `saveAudioToHistory(uri)`, this screen's copy of the audio saver: only "audio_history" changes. */
    method SaveAudioToHistory(uri: string)
      modifies prefs
      ensures prefs.values == old(prefs.values)
        [AUDIO_HISTORY := JsonArray(History.MostRecent(ArrayOrEmpty(old(prefs.values), AUDIO_HISTORY), uri, History.AUDIO_CAP))]
    {
      History.SaveAudioToHistory(prefs, uri);
    }

    /** `getSavedPlaybackPosition(uri)`, this screen's copy. */
    method GetSavedPlaybackPosition(uri: string) returns (position: int)
      ensures position == SavedPlaybackPosition(prefs.values, uri)
    {
      position := SavedPlaybackPosition(prefs.values, uri);
    }

    /**
     * `openPlayer(video, position)`: record the item in its history, then start it within the
     * displayed list (the whole catalogue while folders are shown), with its resume position.
     */
    method OpenPlayer(video: VideoItem, position: int)
      modifies this, prefs
      ensures IsAudioItem(video) ==> prefs.values == old(prefs.values)
        [AUDIO_HISTORY := JsonArray(History.MostRecent(ArrayOrEmpty(old(prefs.values), AUDIO_HISTORY), video.uri, History.AUDIO_CAP))]
      ensures !IsAudioItem(video) ==> prefs.values == old(prefs.values)
        [VIDEO_HISTORY := JsonArray(History.MostRecent(ArrayOrEmpty(old(prefs.values), VIDEO_HISTORY), video.uri, History.VIDEO_CAP))]
        [LAST_VIDEO_URI := StringValue(video.uri)][LAST_VIDEO_TITLE := StringValue(video.title)]
      ensures started == old(started) +
        [LaunchIntent(video, if old(isShowingFolders) then old(allVideos) else old(shown), position,
                      SavedPlaybackPosition(old(prefs.values), video.uri))]
      ensures Catalogue() == old(Catalogue()) && Place() == old(Place()) && Display() == old(Display())
      ensures toasts == old(toasts)
    {
      ghost var before := prefs.values;
      if IsAudioItem(video) {
        SaveAudioToHistory(video.uri);
      } else {
        SaveVideoToHistory(video.uri, video.title);
      }
      assert ReadObject(prefs.values, VIDEO_POSITIONS) == ReadObject(before, VIDEO_POSITIONS);
      var playlist := if isShowingFolders then allVideos else shown;
      var savedPosition := GetSavedPlaybackPosition(video.uri);
      started := started + [LaunchIntent(video, playlist, position, savedPosition)];
    }

    /** `continueLastVideo()`: resume the last video played, or say there is none. */
    method ContinueLastVideo()
      modifies this
      ensures ContinueIntent(prefs.values).None? ==>
        toasts == old(toasts) + ["No video to continue. Start watching!"] && started == old(started)
      ensures ContinueIntent(prefs.values).Some? ==>
        started == old(started) + [ContinueIntent(prefs.values).value] && toasts == old(toasts)
      ensures Catalogue() == old(Catalogue()) && Place() == old(Place()) && Display() == old(Display())
    {
      var intent := ContinueIntent(prefs.values);
      if intent.None? {
        toasts := toasts + ["No video to continue. Start watching!"];
        return;
      }
      started := started + [intent.value];
    }
  }
}
