/**
 * The Audio tab: the scanned audio files shown as songs, as one entry per album (folder
 * name) or as one entry per artist (the folder above the album folder).
 */
module AudioFragment {
  import opened Text
  import opened Seqs
  import opened Media
  import opened Prefs
  import opened Intents
  import opened Screens
  import History

  /** The album of an audio file: its folder name. */
  function AlbumKey(v: VideoItem): string { v.folderName }

  /** The artist of an audio file: its path with the last two segments removed. */
  function ArtistKey(v: VideoItem): string
  {
    SubstringBeforeLast(SubstringBeforeLast(v.path, '/'), '/')
  }

  function ByFolderName(v: VideoItem): Key { Str(v.folderName) }
  function ByTitle(v: VideoItem): Key { Str(v.title) }

  /** The list `applyFilter` submits for a non-empty catalogue. */
  function FilteredList(all: seq<VideoItem>, filter: string): seq<VideoItem>
  {
    if filter == "albums" then SortBy(DistinctBy(all, AlbumKey), ByFolderName)
    else if filter == "artists" then SortBy(DistinctBy(all, ArtistKey), ByTitle)
    else all
  }

  /** The subtitle: the filtered list's size and the filter's noun. */
  function Label(filter: string, n: nat): string
  {
    IntToString(n) + (if filter == "songs" then " songs"
                      else if filter == "albums" then " albums"
                      else if filter == "artists" then " artists"
                      else " items")
  }

  /**
   * "songs" and any unknown filter show the catalogue as it is. "albums" shows a
   * permutation of the first file of every folder name, ordered by folder name.
   */
  lemma AlbumsMeaning(all: seq<VideoItem>)
    ensures FilteredList(all, "songs") == all
    ensures var d := DistinctBy(all, AlbumKey);
      Subsequence(d, all)
      && (forall i, j :: 0 <= i < j < |d| ==> d[i].folderName != d[j].folderName)
      && (forall k :: HasKey(d, AlbumKey, k) <==> HasKey(all, AlbumKey, k))
      && (forall i :: 0 <= i < |d| ==> FirstOfKey(all, AlbumKey, d[i]))
    ensures var r := FilteredList(all, "albums");
      multiset(r) == multiset(DistinctBy(all, AlbumKey))
      && forall i, j :: 0 <= i < j < |r| ==> !LexLess(r[j].folderName, r[i].folderName)
  {
    DistinctByCorrect(all, AlbumKey);
    DistinctByFirst(all, AlbumKey);
    SortByCorrect(DistinctBy(all, AlbumKey), ByFolderName);
  }

  /** "artists" shows a permutation of the first file of every artist path, ordered by title. */
  lemma ArtistsMeaning(all: seq<VideoItem>)
    ensures var d := DistinctBy(all, ArtistKey);
      Subsequence(d, all)
      && (forall i, j :: 0 <= i < j < |d| ==> ArtistKey(d[i]) != ArtistKey(d[j]))
      && (forall k :: HasKey(d, ArtistKey, k) <==> HasKey(all, ArtistKey, k))
      && (forall i :: 0 <= i < |d| ==> FirstOfKey(all, ArtistKey, d[i]))
    ensures var r := FilteredList(all, "artists");
      multiset(r) == multiset(DistinctBy(all, ArtistKey))
      && forall i, j :: 0 <= i < j < |r| ==> !LexLess(r[j].title, r[i].title)
  {
    DistinctByCorrect(all, ArtistKey);
    DistinctByFirst(all, ArtistKey);
    SortByCorrect(DistinctBy(all, ArtistKey), ByTitle);
  }

  /** The artist of "/music/Artist/Album/song.mp3" is "/music/Artist". */
  lemma ArtistOfAlbumFile(root: string, artist: string, album: string, file: string)
    requires '/' !in album && '/' !in file
    ensures ArtistKey(VideoItem(0, "", root + "/" + artist + "/" + album + "/" + file, "", 0, 0, "", 0, "", 0, ""))
      == root + "/" + artist
  {
    var dir := root + "/" + artist + "/" + album;
    var p := dir + "/" + file;
    SplitAtLast(p, '/');
    assert p[|dir|] == '/';
    assert LastIndexOf(p, '/') == |dir|;
    assert SubstringBeforeLast(p, '/') == dir;
    var a := root + "/" + artist;
    assert dir[|a|] == '/';
    assert LastIndexOf(dir, '/') == |a|;
  }

  class AudioFragment {
    const prefs: PrefStore
    var allAudioFiles: seq<VideoItem>
    /** "songs", "albums" or "artists". */
    var currentFilter: string
    /** The adapter's current list. */
    var shown: seq<VideoItem>
    var subtitle: string
    /** The empty view's text while it is visible. */
    var emptyMessage: Option<string>
    var started: seq<PlayerIntent>

    constructor (prefs: PrefStore)
      ensures this.prefs == prefs && allAudioFiles == [] && currentFilter == "songs"
      ensures shown == [] && subtitle == [] && started == [] && emptyMessage.None?
    {
      this.prefs := prefs;
      allAudioFiles := [];
      currentFilter := "songs";
      shown := [];
      subtitle := [];
      emptyMessage := None;
      started := [];
    }

    /**
     * `loadAudioFiles()` with the scan's outcome as input (`None` when it throws): an empty
     * result leaves the old list behind the empty view.
     */
    method LoadAudioFiles(scan: Option<seq<VideoItem>>)
      modifies this
      ensures scan.None? ==>
        allAudioFiles == old(allAudioFiles) && shown == old(shown) && subtitle == old(subtitle)
        && emptyMessage == Some("Error loading audio files")
      ensures scan.Some? ==>
        (allAudioFiles == scan.value
         && subtitle == IntToString(|scan.value|) + " audio files"
         && shown == (if scan.value == [] then old(shown) else scan.value)
         && emptyMessage == (if scan.value == [] then Some("No audio files found") else None))
      ensures currentFilter == old(currentFilter) && started == old(started)
    {
      emptyMessage := None;
      if scan.None? {
        emptyMessage := Some("Error loading audio files");
        return;
      }
      allAudioFiles := scan.value;
      subtitle := IntToString(|allAudioFiles|) + " audio files";
      if allAudioFiles == [] {
        emptyMessage := Some("No audio files found");
      } else {
        emptyMessage := None;
        shown := allAudioFiles;
      }
    }

    /** `applyFilter()`: nothing at all happens while the catalogue is empty. */
    method ApplyFilter()
      modifies this
      ensures old(allAudioFiles) == [] ==> shown == old(shown) && subtitle == old(subtitle)
      ensures old(allAudioFiles) != [] ==>
        (shown == FilteredList(allAudioFiles, currentFilter)
         && subtitle == Label(currentFilter, |shown|))
      ensures allAudioFiles == old(allAudioFiles) && currentFilter == old(currentFilter) && started == old(started)
      ensures emptyMessage == old(emptyMessage)
    {
      if allAudioFiles == [] {
        return;
      }
      shown := FilteredList(allAudioFiles, currentFilter);
      subtitle := Label(currentFilter, |shown|);
    }

    /** The songs, albums and artists chips: select the filter and apply it. */
    method SelectFilter(filter: string)
      modifies this
      ensures currentFilter == filter
      ensures old(allAudioFiles) == [] ==> shown == old(shown) && subtitle == old(subtitle)
      ensures old(allAudioFiles) != [] ==>
        (shown == FilteredList(allAudioFiles, filter) && subtitle == Label(filter, |shown|))
      ensures allAudioFiles == old(allAudioFiles) && started == old(started) && emptyMessage == old(emptyMessage)
    {
      currentFilter := filter;
      ApplyFilter();
    }

    /** `saveAudioToHistory(uri)`, this screen's copy of the audio saver. */
    method SaveAudioToHistory(uri: string)
      modifies prefs
      ensures prefs.values == old(prefs.values)
        [AUDIO_HISTORY := JsonArray(History.MostRecent(ArrayOrEmpty(old(prefs.values), AUDIO_HISTORY), uri, History.AUDIO_CAP))]
    {
      History.SaveAudioToHistory(prefs, uri);
    }

    /** `openPlayer(audio, position)`: record the file, start it in the displayed list, no resume position. */
    method OpenPlayer(audio: VideoItem, position: int)
      modifies this, prefs
      ensures prefs.values == old(prefs.values)
        [AUDIO_HISTORY := JsonArray(History.MostRecent(ArrayOrEmpty(old(prefs.values), AUDIO_HISTORY), audio.uri, History.AUDIO_CAP))]
      ensures started == old(started) + [LaunchIntent(audio, old(shown), position, 0)]
      ensures started[|started| - 1].playbackPosition.None?
      ensures allAudioFiles == old(allAudioFiles) && shown == old(shown) && currentFilter == old(currentFilter)
      ensures emptyMessage == old(emptyMessage)
    {
      SaveAudioToHistory(audio.uri);
      started := started + [LaunchIntent(audio, shown, position, 0)];
    }
  }
}
