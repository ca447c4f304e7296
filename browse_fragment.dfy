/**
 * The Browse tab: a list of every folder that holds media (videos counted by folder id,
 * audio files counted by their parent directory), and inside a folder its videos and
 * audio files with an All / Video / Audio filter and a title search.
 */
module BrowseFragment {
  import opened Text
  import opened Seqs
  import opened Media
  import opened Prefs
  import opened Intents
  import opened Screens
  import History

  // ---------------------------------------------------------------- the folder list

  /** A value of `folderMediaCount`: the folder's display name and its number of media files. */
  datatype NameCount = NameCount(name: string, count: int)

  /** The two insertion-ordered maps of `showAllFolders`: id to (name, count) and id to path. */
  datatype FolderTables = FolderTables(counts: Entries<int, NameCount>, paths: Entries<int, string>)

  /** `allVideos.count { it.folderId == id }` */
  function VideoCount(videos: seq<VideoItem>, id: int): nat
  {
    |Filter(videos, (v: VideoItem) => v.folderId == id)|
  }

  predicate HasFolderId(folders: seq<FolderItem>, id: int)
  {
    exists i :: 0 <= i < |folders| && folders[i].id == id
  }

  /** The maps after the video pass: every folder with at least one video, in folder order. */
  function VideoTables(folders: seq<FolderItem>, videos: seq<VideoItem>): FolderTables
  {
    if folders == [] then FolderTables([], [])
    else
      var t := VideoTables(folders[..|folders| - 1], videos);
      var f := folders[|folders| - 1];
      var c := VideoCount(videos, f.id);
      if c > 0 then FolderTables(Put(t.counts, f.id, NameCount(f.name, c)), Put(t.paths, f.id, f.path))
      else t
  }

  lemma HasFolderIdLast(folders: seq<FolderItem>, id: int)
    requires folders != []
    ensures HasFolderId(folders, id) <==> HasFolderId(folders[..|folders| - 1], id) || id == folders[|folders| - 1].id
  {
    var init := folders[..|folders| - 1];
    if HasFolderId(folders, id) && id != folders[|folders| - 1].id {
      var i :| 0 <= i < |folders| && folders[i].id == id;
      assert init[i].id == id;
    }
    if HasFolderId(init, id) {
      var i :| 0 <= i < |init| && init[i].id == id;
      assert folders[i].id == id;
    }
  }

  /** The video pass enters no id twice in either map. */
  lemma {:induction false} VideoTablesDistinct(folders: seq<FolderItem>, videos: seq<VideoItem>)
    ensures DistinctKeys(VideoTables(folders, videos).counts) && DistinctKeys(VideoTables(folders, videos).paths)
  {
    if folders != [] {
      var init, f := folders[..|folders| - 1], folders[|folders| - 1];
      VideoTablesDistinct(init, videos);
      var t := VideoTables(init, videos);
      var c := VideoCount(videos, f.id);
      if c > 0 {
        PutDistinct(t.counts, f.id, NameCount(f.name, c));
        PutDistinct(t.paths, f.id, f.path);
      }
    }
  }

  /**
   * After the video pass a folder id has an entry exactly when some folder has that id and
   * holds videos; the entry counts those videos and has a path, and no id is entered twice.
   */
  lemma VideoTablesMeaning(folders: seq<FolderItem>, videos: seq<VideoItem>)
    ensures var t := VideoTables(folders, videos);
      DistinctKeys(t.counts) && DistinctKeys(t.paths)
      && (forall id :: Get(t.counts, id).Some? <==> HasFolderId(folders, id) && VideoCount(videos, id) > 0)
      && (forall id :: Get(t.counts, id).Some? ==>
            Get(t.counts, id).value.count == VideoCount(videos, id) && Get(t.paths, id).Some?)
  {
    VideoTablesDistinct(folders, videos);
    var t := VideoTables(folders, videos);
    forall id ensures Get(t.counts, id).Some? <==> HasFolderId(folders, id) && VideoCount(videos, id) > 0 {
      VideoTablesKey(folders, videos, id);
    }
    forall id | Get(t.counts, id).Some?
      ensures Get(t.counts, id).value.count == VideoCount(videos, id) && Get(t.paths, id).Some?
    {
      VideoTablesKey(folders, videos, id);
    }
  }

  /** What the video pass leaves under one folder id. */
  predicate VideoTableEntry(t: FolderTables, folders: seq<FolderItem>, videos: seq<VideoItem>, id: int)
  {
    (Get(t.counts, id).Some? <==> HasFolderId(folders, id) && VideoCount(videos, id) > 0)
    && (Get(t.counts, id).Some? ==> Get(t.counts, id).value.count == VideoCount(videos, id) && Get(t.paths, id).Some?)
  }

  lemma {:induction false} VideoTablesKey(folders: seq<FolderItem>, videos: seq<VideoItem>, id: int)
    ensures VideoTableEntry(VideoTables(folders, videos), folders, videos, id)
  {
    if folders != [] {
      var init, f := folders[..|folders| - 1], folders[|folders| - 1];
      VideoTablesKey(init, videos, id);
      HasFolderIdLast(folders, id);
      var t := VideoTables(init, videos);
      var c := VideoCount(videos, f.id);
      if c > 0 {
        assert VideoTables(folders, videos) == FolderTables(Put(t.counts, f.id, NameCount(f.name, c)), Put(t.paths, f.id, f.path));
        PutGet(t.counts, f.id, NameCount(f.name, c));
        PutGet(t.paths, f.id, f.path);
      } else {
        assert VideoTables(folders, videos) == t;
      }
    }
  }

  /** `path.substringBeforeLast("/")`: the directory an audio file is counted in. */
  function ParentPath(v: VideoItem): string
  {
    SubstringBeforeLast(v.path, '/')
  }

  function ParentPaths(audio: seq<VideoItem>): (r: seq<string>)
    ensures |r| == |audio| && forall i :: 0 <= i < |audio| ==> r[i] == ParentPath(audio[i])
  {
    if audio == [] then [] else ParentPaths(audio[..|audio| - 1]) + [ParentPath(audio[|audio| - 1])]
  }

  /** `allFolders.find { it.path == path }` */
  function FindByPath(folders: seq<FolderItem>, path: string): (r: Option<FolderItem>)
    ensures r.None? <==> forall k :: 0 <= k < |folders| ==> folders[k].path != path
    ensures r.Some? ==> r.value.path == path && exists j :: (0 <= j < |folders| && folders[j] == r.value
      && forall k :: 0 <= k < j ==> folders[k].path != path)
  {
    if folders == [] then None
    else if folders[0].path == path then Some(folders[0])
    else
      var r := FindByPath(folders[1..], path);
      if r.Some? then
        var j :| 0 <= j < |folders[1..]| && folders[1..][j] == r.value
          && forall k :: 0 <= k < j ==> folders[1..][k].path != path;
        assert folders[j + 1] == r.value;
        r
      else r
  }

  /** The name of an audio-only folder: the last path segment, "Audio" when that is empty. */
  function AudioFolderName(path: string): string
  {
    var n := SubstringAfterLast(path, '/');
    if n == [] then "Audio" else n
  }

  /** A directory's own name is its last segment; a path ending in '/' is named "Audio". */
  lemma AudioFolderNameMeaning(dir: string, name: string)
    requires '/' !in name
    ensures name != [] ==> AudioFolderName(dir + "/" + name) == name
    ensures AudioFolderName(dir + "/") == "Audio"
    ensures AudioFolderName(name) == if name == [] then "Audio" else name
  {
    var p := dir + "/" + name;
    assert p[|dir|] == '/';
    assert LastIndexOf(p, '/') == |dir|;
    assert p[|dir| + 1..] == name;
    var q := dir + "/";
    assert q[|dir|] == '/';
    assert LastIndexOf(q, '/') == |dir|;
  }

  /** Every entry of the count map has a path, so no listed folder falls back to the empty path. */
  ghost predicate PathsCovered(t: FolderTables)
  {
    forall k :: Get(t.counts, k).Some? ==> Get(t.paths, k).Some?
  }

  /** One step of the merge: the audio files counted in directory `path` join the folder list. */
  function MergeAudio(t: FolderTables, folders: seq<FolderItem>, path: string, audioCount: int): FolderTables
  {
    match FindByPath(folders, path)
    case Some(f) =>
      (match Get(t.counts, f.id)
       case Some(e) => FolderTables(Put(t.counts, f.id, NameCount(e.name, e.count + audioCount)), t.paths)
       case None => FolderTables(Put(t.counts, f.id, NameCount(f.name, audioCount)), Put(t.paths, f.id, f.path)))
    case None =>
      var id := JavaHashCode(path);
      FolderTables(Put(t.counts, id, NameCount(AudioFolderName(path), audioCount)), Put(t.paths, id, path))
  }

  /** The folder a merge step writes to: the known folder with that path, or the path's hash code. */
  function MergeTarget(folders: seq<FolderItem>, path: string): int
  {
    match FindByPath(folders, path)
    case Some(f) => f.id
    case None => JavaHashCode(path)
  }

  /** The merge step adds to an entry that a known folder already has. */
  predicate AddsToEntry(t: FolderTables, folders: seq<FolderItem>, path: string)
  {
    var f := FindByPath(folders, path);
    f.Some? && Get(t.counts, f.value.id).Some?
  }

  /** The (name, count) a merge step writes for its target. */
  function MergedValue(t: FolderTables, folders: seq<FolderItem>, path: string, audioCount: int): NameCount
  {
    var f := FindByPath(folders, path);
    if f.Some? && Get(t.counts, f.value.id).Some? then
      NameCount(Get(t.counts, f.value.id).value.name, Get(t.counts, f.value.id).value.count + audioCount)
    else if f.Some? then NameCount(f.value.name, audioCount)
    else NameCount(AudioFolderName(path), audioCount)
  }

  /** Every merge step is one `put` on the count map and, unless it adds to an entry, one on the path map. */
  lemma MergeAudioShape(t: FolderTables, folders: seq<FolderItem>, path: string, audioCount: int)
    ensures var r := MergeAudio(t, folders, path, audioCount);
      r.counts == Put(t.counts, MergeTarget(folders, path), MergedValue(t, folders, path, audioCount))
      && r.paths == if AddsToEntry(t, folders, path) then t.paths else Put(t.paths, MergeTarget(folders, path), path)
  {
  }

  /**
   * A merge step adds the audio count to a known folder that already has an entry, gives a
   * known folder without one its own name, path and the audio count, and enters an unknown
   * directory under its hash code with its last segment as name; no other entry changes.
   */
  lemma MergeAudioMeaning(t: FolderTables, folders: seq<FolderItem>, path: string, audioCount: int)
    ensures var r := MergeAudio(t, folders, path, audioCount);
      var id := MergeTarget(folders, path);
      (forall k :: k != id ==> Get(r.counts, k) == Get(t.counts, k) && Get(r.paths, k) == Get(t.paths, k))
      && Get(r.counts, id) == Some(MergedValue(t, folders, path, audioCount))
    ensures var r := MergeAudio(t, folders, path, audioCount);
      var f := FindByPath(folders, path);
      f.Some? && Get(t.counts, f.value.id).Some? ==>
        (Get(r.counts, f.value.id).value
           == NameCount(Get(t.counts, f.value.id).value.name, Get(t.counts, f.value.id).value.count + audioCount)
         && r.paths == t.paths)
    ensures var r := MergeAudio(t, folders, path, audioCount);
      var f := FindByPath(folders, path);
      f.Some? && Get(t.counts, f.value.id).None? ==>
        Get(r.counts, f.value.id) == Some(NameCount(f.value.name, audioCount))
        && Get(r.paths, f.value.id) == Some(path)
    ensures var r := MergeAudio(t, folders, path, audioCount);
      FindByPath(folders, path).None? ==>
        Get(r.counts, JavaHashCode(path)) == Some(NameCount(AudioFolderName(path), audioCount))
        && Get(r.paths, JavaHashCode(path)) == Some(path)
  {
    var id := MergeTarget(folders, path);
    MergeAudioShape(t, folders, path, audioCount);
    PutGet(t.counts, id, MergedValue(t, folders, path, audioCount));
    PutGet(t.paths, id, path);
  }

  /** A merge step keeps keys unique and keeps a path for every entry. */
  lemma MergeAudioKeeps(t: FolderTables, folders: seq<FolderItem>, path: string, audioCount: int)
    ensures var r := MergeAudio(t, folders, path, audioCount);
      (DistinctKeys(t.counts) && DistinctKeys(t.paths) ==> DistinctKeys(r.counts) && DistinctKeys(r.paths))
      && (PathsCovered(t) ==> PathsCovered(r))
  {
    var id := MergeTarget(folders, path);
    var v := MergedValue(t, folders, path, audioCount);
    var r := MergeAudio(t, folders, path, audioCount);
    MergeAudioShape(t, folders, path, audioCount);
    if DistinctKeys(t.counts) { PutDistinct(t.counts, id, v); }
    if DistinctKeys(t.paths) { PutDistinct(t.paths, id, path); }
    if PathsCovered(t) {
      MergeAudioMeaning(t, folders, path, audioCount);
      forall k | Get(r.counts, k).Some? ensures Get(r.paths, k).Some? {
        if k == id {
          if AddsToEntry(t, folders, path) {
            assert Get(t.counts, id).Some?;
          } else {
            PutGet(t.paths, id, path);
          }
        }
      }
    }
  }

  /** The maps after merging every entry of the audio tally, in the tally's order. */
  function MergeAll(t: FolderTables, folders: seq<FolderItem>, tally: Entries<string, int>): FolderTables
  {
    if tally == [] then t
    else
      var e := tally[|tally| - 1];
      MergeAudio(MergeAll(t, folders, tally[..|tally| - 1]), folders, e.0, e.1)
  }

  /** Some tally entry is merged into folder id `k`. */
  predicate Targeted(folders: seq<FolderItem>, tally: Entries<string, int>, k: int)
  {
    exists i :: 0 <= i < |tally| && MergeTarget(folders, tally[i].0) == k
  }

  /** Merging keeps keys unique and keeps a path for every entry. */
  lemma {:induction false} MergeAllKeeps(t: FolderTables, folders: seq<FolderItem>, tally: Entries<string, int>)
    ensures var r := MergeAll(t, folders, tally);
      (DistinctKeys(t.counts) && DistinctKeys(t.paths) ==> DistinctKeys(r.counts) && DistinctKeys(r.paths))
      && (PathsCovered(t) ==> PathsCovered(r))
  {
    if tally != [] {
      var init, e := tally[..|tally| - 1], tally[|tally| - 1];
      MergeAllKeeps(t, folders, init);
      MergeAudioKeeps(MergeAll(t, folders, init), folders, e.0, e.1);
    }
  }

  /**
   * The ids with an entry after merging are those before plus exactly the folders the
   * tally's directories are merged into.
   */
  lemma MergeAllMeaning(t: FolderTables, folders: seq<FolderItem>, tally: Entries<string, int>)
    ensures var r := MergeAll(t, folders, tally);
      forall k :: Get(r.counts, k).Some? <==> Get(t.counts, k).Some? || Targeted(folders, tally, k)
  {
    forall k ensures Get(MergeAll(t, folders, tally).counts, k).Some? <==> Get(t.counts, k).Some? || Targeted(folders, tally, k) {
      MergeAllKey(t, folders, tally, k);
    }
  }

  lemma {:induction false} MergeAllKey(t: FolderTables, folders: seq<FolderItem>, tally: Entries<string, int>, k: int)
    ensures Get(MergeAll(t, folders, tally).counts, k).Some? <==> Get(t.counts, k).Some? || Targeted(folders, tally, k)
  {
    if tally != [] {
      var init, e := tally[..|tally| - 1], tally[|tally| - 1];
      var before := MergeAll(t, folders, init);
      assert MergeAll(t, folders, tally) == MergeAudio(before, folders, e.0, e.1);
      MergeAllKey(t, folders, init, k);
      MergeAudioKey(before, folders, e.0, e.1, k);
      TargetedLast(folders, tally, k);
    }
  }

  /** One merge step, one id: it has an entry afterwards when it had one or is the step's target. */
  lemma MergeAudioKey(t: FolderTables, folders: seq<FolderItem>, path: string, audioCount: int, k: int)
    ensures Get(MergeAudio(t, folders, path, audioCount).counts, k).Some? <==> Get(t.counts, k).Some? || k == MergeTarget(folders, path)
  {
    MergeAudioShape(t, folders, path, audioCount);
    PutGet(t.counts, MergeTarget(folders, path), MergedValue(t, folders, path, audioCount));
  }

  lemma TargetedLast(folders: seq<FolderItem>, tally: Entries<string, int>, k: int)
    requires tally != []
    ensures Targeted(folders, tally, k)
      <==> Targeted(folders, tally[..|tally| - 1], k) || MergeTarget(folders, tally[|tally| - 1].0) == k
  {
    var init, e := tally[..|tally| - 1], tally[|tally| - 1];
    if Targeted(folders, tally, k) && MergeTarget(folders, e.0) != k {
      var i :| 0 <= i < |tally| && MergeTarget(folders, tally[i].0) == k;
      assert init[i] == tally[i];
    }
    if Targeted(folders, init, k) {
      var i :| 0 <= i < |init| && MergeTarget(folders, init[i].0) == k;
      assert tally[i] == init[i];
    }
  }

  /** `folderPaths[id] ?: ""` */
  function PathOf(t: FolderTables, id: int): string
  {
    match Get(t.paths, id)
    case Some(p) => p
    case None => ""
  }

  /** `folderMediaCount.map { (id, nameCount) -> FolderItem(...) }`, in the map's order. */
  function FolderItems(t: FolderTables): (r: seq<FolderItem>)
    ensures |r| == |t.counts|
    ensures forall i :: 0 <= i < |r| ==>
      r[i] == FolderItem(t.counts[i].0, t.counts[i].1.name, PathOf(t, t.counts[i].0), t.counts[i].1.count)
    decreases |t.counts|
  {
    if t.counts == [] then []
    else
      var e := t.counts[0];
      [FolderItem(e.0, e.1.name, PathOf(t, e.0), e.1.count)] + FolderItems(FolderTables(t.counts[1..], t.paths))
  }

  function ById(f: FolderItem): int { f.id }
  function ByCountDescending(f: FolderItem): Key { Num(-f.videoCount) }

  /** The folder list `showAllFolders` submits: the merged maps as items, by count descending. */
  function ShownFolders(folders: seq<FolderItem>, videos: seq<VideoItem>, audio: seq<VideoItem>): seq<FolderItem>
  {
    SortBy(FolderItems(MergeAll(VideoTables(folders, videos), folders, Tally(ParentPaths(audio)))), ByCountDescending)
  }

  /** A folder id is a merge target exactly when some audio file's directory is merged into it. */
  predicate AudioTarget(folders: seq<FolderItem>, audio: seq<VideoItem>, k: int)
  {
    exists i :: 0 <= i < |audio| && MergeTarget(folders, ParentPath(audio[i])) == k
  }

  lemma TallyTargets(folders: seq<FolderItem>, audio: seq<VideoItem>, k: int)
    ensures Targeted(folders, Tally(ParentPaths(audio)), k) <==> AudioTarget(folders, audio, k)
  {
    var dirs := ParentPaths(audio);
    var tally := Tally(dirs);
    TallyCounts(dirs);
    if Targeted(folders, tally, k) {
      var i :| 0 <= i < |tally| && MergeTarget(folders, tally[i].0) == k;
      assert Get(tally, tally[i].0).Some?;
      assert tally[i].0 in dirs;
      var j :| 0 <= j < |dirs| && dirs[j] == tally[i].0;
      assert MergeTarget(folders, ParentPath(audio[j])) == k;
    }
    if AudioTarget(folders, audio, k) {
      var j :| 0 <= j < |audio| && MergeTarget(folders, ParentPath(audio[j])) == k;
      assert dirs[j] in dirs;
      assert Get(tally, dirs[j]).Some?;
      var i :| 0 <= i < |tally| && tally[i] == (dirs[j], Get(tally, dirs[j]).value);
      assert MergeTarget(folders, tally[i].0) == k;
    }
  }

  /** Listed means the map has an entry for the id. */
  lemma ListedIds(t: FolderTables, r: seq<FolderItem>, k: int)
    requires DistinctKeys(t.counts) && multiset(r) == multiset(FolderItems(t))
    ensures (exists i :: 0 <= i < |r| && r[i].id == k) <==> Get(t.counts, k).Some?
  {
    var items := FolderItems(t);
    if exists i :: 0 <= i < |r| && r[i].id == k {
      var i :| 0 <= i < |r| && r[i].id == k;
      assert r[i] in multiset(items);
      var a :| 0 <= a < |items| && items[a] == r[i];
      GetAt(t.counts, a);
    }
    if Get(t.counts, k).Some? {
      var a :| 0 <= a < |t.counts| && t.counts[a] == (k, Get(t.counts, k).value);
      assert items[a] in multiset(r);
      var i :| 0 <= i < |r| && r[i] == items[a];
    }
  }

  /**
   * The folder list is ordered by count, largest first, lists no folder id twice, and lists
   * exactly the folders holding videos and the folders the audio files' directories map to.
   */
  lemma ShownFoldersMeaning(folders: seq<FolderItem>, videos: seq<VideoItem>, audio: seq<VideoItem>)
    ensures var r := ShownFolders(folders, videos, audio);
      forall i, j :: 0 <= i < j < |r| ==> r[i].videoCount >= r[j].videoCount
    ensures UniqueBy(ShownFolders(folders, videos, audio), ById)
    ensures var r := ShownFolders(folders, videos, audio);
      forall k :: (exists i :: 0 <= i < |r| && r[i].id == k) <==>
        (HasFolderId(folders, k) && VideoCount(videos, k) > 0) || AudioTarget(folders, audio, k)
  {
    var t0 := VideoTables(folders, videos);
    var t := MergeAll(t0, folders, Tally(ParentPaths(audio)));
    var items := FolderItems(t);
    var r := ShownFolders(folders, videos, audio);
    VideoTablesMeaning(folders, videos);
    MergeAllMeaning(t0, folders, Tally(ParentPaths(audio)));
    MergeAllKeeps(t0, folders, Tally(ParentPaths(audio)));
    SortByCorrect(items, ByCountDescending);
    forall i, j | 0 <= i < j < |r| ensures r[i].videoCount >= r[j].videoCount {
      assert !KeyLess(ByCountDescending(r[j]), ByCountDescending(r[i]));
    }
    forall i, j | 0 <= i < j < |items| ensures ById(items[i]) != ById(items[j]) {
      assert t.counts[i].0 != t.counts[j].0;
    }
    UniqueByPermutation(items, r, ById);
    forall k ensures (exists i :: 0 <= i < |r| && r[i].id == k) <==>
        (HasFolderId(folders, k) && VideoCount(videos, k) > 0) || AudioTarget(folders, audio, k) {
      ListedIds(t, r, k);
      TallyTargets(folders, audio, k);
    }
  }

  /** Without audio files, every listed folder shows its own number of videos. */
  lemma ShownFoldersVideoOnly(folders: seq<FolderItem>, videos: seq<VideoItem>)
    ensures var r := ShownFolders(folders, videos, []);
      forall i :: 0 <= i < |r| ==>
        HasFolderId(folders, r[i].id) && r[i].videoCount == VideoCount(videos, r[i].id) > 0
  {
    var t := VideoTables(folders, videos);
    assert ParentPaths([]) == [];
    assert MergeAll(t, folders, Tally(ParentPaths([]))) == t;
    var items := FolderItems(t);
    var r := ShownFolders(folders, videos, []);
    VideoTablesMeaning(folders, videos);
    SortByCorrect(items, ByCountDescending);
    forall i | 0 <= i < |r| ensures HasFolderId(folders, r[i].id) && r[i].videoCount == VideoCount(videos, r[i].id) > 0 {
      assert r[i] in multiset(items);
      var a :| 0 <= a < |items| && items[a] == r[i];
      GetAt(t.counts, a);
    }
  }

  /** The video pass of `showAllFolders`: each folder with videos enters both maps. */
  method CountVideos(folders: seq<FolderItem>, videos: seq<VideoItem>) returns (t: FolderTables)
    ensures t == VideoTables(folders, videos)
  {
    var folderMediaCount: Entries<int, NameCount> := [];
    var folderPaths: Entries<int, string> := [];
    for i := 0 to |folders|
      invariant FolderTables(folderMediaCount, folderPaths) == VideoTables(folders[..i], videos)
    {
      assert folders[..i + 1][..i] == folders[..i];
      var folder := folders[i];
      var videoCount := VideoCount(videos, folder.id);
      if videoCount > 0 {
        folderMediaCount := Put(folderMediaCount, folder.id, NameCount(folder.name, videoCount));
        folderPaths := Put(folderPaths, folder.id, folder.path);
      }
    }
    assert folders[..|folders|] == folders;
    t := FolderTables(folderMediaCount, folderPaths);
  }

  /** The audio pass: the number of audio files per parent directory, in first-seen order. */
  method CountAudio(audio: seq<VideoItem>) returns (audioFolderMap: Entries<string, int>)
    ensures audioFolderMap == Tally(ParentPaths(audio))
  {
    audioFolderMap := [];
    for i := 0 to |audio|
      invariant audioFolderMap == Tally(ParentPaths(audio[..i]))
    {
      var folderPath := ParentPath(audio[i]);
      TallyParentPathsStep(audio, i);
      audioFolderMap := Increment(audioFolderMap, folderPath);
    }
    assert audio[..|audio|] == audio;
  }

  lemma TallyParentPathsStep(audio: seq<VideoItem>, i: int)
    requires 0 <= i < |audio|
    ensures Tally(ParentPaths(audio[..i + 1])) == Increment(Tally(ParentPaths(audio[..i])), ParentPath(audio[i]))
  {
    var after := ParentPaths(audio[..i + 1]);
    assert audio[..i + 1][..i] == audio[..i];
    assert after[..|after| - 1] == ParentPaths(audio[..i]);
  }

  /** The merge pass: each directory's count joins its known folder or a new audio-only entry. */
  method MergeAudioFolders(t0: FolderTables, folders: seq<FolderItem>, audioFolderMap: Entries<string, int>)
    returns (t: FolderTables)
    ensures t == MergeAll(t0, folders, audioFolderMap)
  {
    var folderMediaCount, folderPaths := t0.counts, t0.paths;
    for i := 0 to |audioFolderMap|
      invariant FolderTables(folderMediaCount, folderPaths) == MergeAll(t0, folders, audioFolderMap[..i])
    {
      assert audioFolderMap[..i + 1][..i] == audioFolderMap[..i];
      var (path, audioCount) := audioFolderMap[i];
      var existingFolder := FindByPath(folders, path);
      if existingFolder.Some? {
        var folder := existingFolder.value;
        var existing := Get(folderMediaCount, folder.id);
        if existing.Some? {
          folderMediaCount := Put(folderMediaCount, folder.id, NameCount(existing.value.name, existing.value.count + audioCount));
        } else {
          folderMediaCount := Put(folderMediaCount, folder.id, NameCount(folder.name, audioCount));
          folderPaths := Put(folderPaths, folder.id, folder.path);
        }
      } else {
        var folderId := JavaHashCode(path);
        var folderName := SubstringAfterLast(path, '/');
        if folderName == [] {
          folderName := "Audio";
        }
        folderMediaCount := Put(folderMediaCount, folderId, NameCount(folderName, audioCount));
        folderPaths := Put(folderPaths, folderId, path);
      }
    }
    assert audioFolderMap[..|audioFolderMap|] == audioFolderMap;
    t := FolderTables(folderMediaCount, folderPaths);
  }

  /** The three passes of `showAllFolders`, before the list is sorted. */
  method CollectFolders(folders: seq<FolderItem>, videos: seq<VideoItem>, audio: seq<VideoItem>)
    returns (allMediaFolders: seq<FolderItem>)
    ensures Seqs.SortBy(allMediaFolders, ByCountDescending) == ShownFolders(folders, videos, audio)
    ensures allMediaFolders == [] <==> ShownFolders(folders, videos, audio) == []
  {
    var videoPass := CountVideos(folders, videos);
    var audioFolderMap := CountAudio(audio);
    var merged := MergeAudioFolders(videoPass, folders, audioFolderMap);
    allMediaFolders := FolderItems(merged);
  }

  // ---------------------------------------------------------------- inside a folder

  /** `loadFolderMedia(folder)`: the folder's videos by id, then the audio files in its directory. */
  function FolderMedia(videos: seq<VideoItem>, audio: seq<VideoItem>, folder: FolderItem): seq<VideoItem>
  {
    Filter(videos, (v: VideoItem) => v.folderId == folder.id) + Filter(audio, (a: VideoItem) => ParentPath(a) == folder.path)
  }

  /** An item opened from a folder is one of its videos or an audio file from its directory. */
  lemma FolderMediaMeaning(videos: seq<VideoItem>, audio: seq<VideoItem>, folder: FolderItem)
    ensures forall v :: (multiset(FolderMedia(videos, audio, folder))[v] ==
      (if v.folderId == folder.id then multiset(videos)[v] else 0)
      + (if ParentPath(v) == folder.path then multiset(audio)[v] else 0))
    ensures |Filter(videos, (v: VideoItem) => v.folderId == folder.id)| == VideoCount(videos, folder.id)
  {
    FilterCounts(videos, (v: VideoItem) => v.folderId == folder.id);
    FilterCounts(audio, (a: VideoItem) => ParentPath(a) == folder.path);
  }

  /** The type test of the inline filter: 1 keeps videos, 2 keeps audio, anything else keeps all. */
  predicate TypeMatches(filter: int, v: VideoItem)
  {
    (filter == 1 ==> !IsAudioItem(v)) && (filter == 2 ==> IsAudioItem(v))
  }

  /** The type filter inside a folder: All keeps the list, Video drops audio, Audio keeps only audio. */
  function TypedList(media: seq<VideoItem>, filter: int): seq<VideoItem>
  {
    if filter == 1 then Filter(media, (v: VideoItem) => !IsAudioItem(v))
    else if filter == 2 then Filter(media, (v: VideoItem) => IsAudioItem(v))
    else media
  }

  /** `applyInFolderFilter()`'s list: the type filter, then the title search when the query is not empty. */
  function InFolderList(media: seq<VideoItem>, filter: int, query: string): seq<VideoItem>
  {
    var typed := TypedList(media, filter);
    if query != [] then Filter(typed, (v: VideoItem) => TitleMatches(v, query)) else typed
  }

  lemma TypedListCounts(media: seq<VideoItem>, filter: int)
    ensures Subsequence(TypedList(media, filter), media)
    ensures forall v :: multiset(TypedList(media, filter))[v] == if TypeMatches(filter, v) then multiset(media)[v] else 0
  {
    if filter == 1 {
      FilterSubsequence(media, (v: VideoItem) => !IsAudioItem(v));
      FilterCounts(media, (v: VideoItem) => !IsAudioItem(v));
    } else if filter == 2 {
      FilterSubsequence(media, (v: VideoItem) => IsAudioItem(v));
      FilterCounts(media, (v: VideoItem) => IsAudioItem(v));
    } else {
      SubsequenceRefl(media);
    }
  }

  lemma InFolderListCounts(media: seq<VideoItem>, filter: int, query: string)
    ensures Subsequence(InFolderList(media, filter, query), media)
    ensures forall v :: (multiset(InFolderList(media, filter, query))[v] ==
      if TypeMatches(filter, v) && (query == [] || TitleMatches(v, query)) then multiset(media)[v] else 0)
  {
    var typed := TypedList(media, filter);
    TypedListCounts(media, filter);
    if query != [] {
      FilterSubsequence(typed, (v: VideoItem) => TitleMatches(v, query));
      FilterCounts(typed, (v: VideoItem) => TitleMatches(v, query));
      SubsequenceTrans(InFolderList(media, filter, query), typed, media);
    }
  }

  /**
   * The list inside a folder keeps, in order, exactly the items of the right type whose title
   * contains the query; the Video and Audio filters split the All list between them.
   */
  lemma InFolderListMeaning(media: seq<VideoItem>, filter: int, query: string)
    ensures Subsequence(InFolderList(media, filter, query), media)
    ensures forall v :: (multiset(InFolderList(media, filter, query))[v] ==
      if TypeMatches(filter, v) && (query == [] || TitleMatches(v, query)) then multiset(media)[v] else 0)
    ensures multiset(InFolderList(media, 1, query)) + multiset(InFolderList(media, 2, query))
      == multiset(InFolderList(media, 0, query))
  {
    InFolderListCounts(media, filter, query);
    TypeFiltersSplit(media, query);
  }

  lemma TypeFiltersSplit(media: seq<VideoItem>, query: string)
    ensures multiset(InFolderList(media, 1, query)) + multiset(InFolderList(media, 2, query))
      == multiset(InFolderList(media, 0, query))
  {
    var a, b, c := InFolderList(media, 1, query), InFolderList(media, 2, query), InFolderList(media, 0, query);
    forall v ensures (multiset(a) + multiset(b))[v] == multiset(c)[v] {
      InFolderListCounts(media, 0, query);
      InFolderListCounts(media, 1, query);
      InFolderListCounts(media, 2, query);
      assert TypeMatches(1, v) <==> !IsAudioItem(v);
      assert TypeMatches(2, v) <==> IsAudioItem(v);
      assert TypeMatches(0, v);
    }
    assert multiset(a) + multiset(b) == multiset(c);
  }

  /** The empty view's text inside a folder. */
  const NO_MEDIA_IN_FOLDER := "No media files in this folder"

  function InFolderEmptyText(query: string, filter: int): string
  {
    if query != [] then "No results for \"" + query + "\""
    else if filter == 1 then "No videos in this folder"
    else if filter == 2 then "No audio files in this folder"
    else NO_MEDIA_IN_FOLDER
  }

  // ---------------------------------------------------------------- the screen

  class BrowseFragment {
    const prefs: PrefStore
    var allVideos: seq<VideoItem>
    var allAudioFiles: seq<VideoItem>
    var allFolders: seq<FolderItem>
    /** The inline filter: 0 = all, 1 = videos, 2 = audio. */
    var inFolderFilter: int
    var isShowingFolders: bool
    var currentFolderId: Option<int>
    var currentFolderPath: Option<string>
    var currentFolderName: Option<string>
    var currentFolderMedia: seq<VideoItem>
    var searchQuery: string
    var searchBarVisible: bool
    /** The video adapter's list (inside a folder) and the folder adapter's list. */
    var shown: seq<VideoItem>
    var folderList: seq<FolderItem>
    /** The empty view's text while the empty view is visible. */
    var emptyMessage: Option<string>
    var started: seq<PlayerIntent>

    /** The scanned catalogue. */
    function Catalogue(): (seq<VideoItem>, seq<VideoItem>, seq<FolderItem>)
      reads this
    {
      (allVideos, allAudioFiles, allFolders)
    }

    /** Where the screen is: the folder list, or a folder and its media. */
    function Place(): (bool, Option<int>, Option<string>, Option<string>, seq<VideoItem>)
      reads this
    {
      (isShowingFolders, currentFolderId, currentFolderPath, currentFolderName, currentFolderMedia)
    }

    constructor (prefs: PrefStore)
      ensures this.prefs == prefs && Catalogue() == ([], [], [])
      ensures isShowingFolders && currentFolderId.None? && currentFolderPath.None? && currentFolderName.None?
      ensures currentFolderMedia == [] && inFolderFilter == 0 && searchQuery == [] && !searchBarVisible
      ensures shown == [] && folderList == [] && emptyMessage.None? && started == []
    {
      this.prefs := prefs;
      allVideos, allAudioFiles, allFolders := [], [], [];
      inFolderFilter := 0;
      isShowingFolders := true;
      currentFolderId, currentFolderPath, currentFolderName := None, None, None;
      currentFolderMedia := [];
      searchQuery := [];
      searchBarVisible := false;
      shown, folderList := [], [];
      emptyMessage := None;
      started := [];
    }

    /**
     * `showAllFolders()`: leave any folder, reset the filter and the search, and list every
     * folder with media; an empty result keeps the old list behind the empty view.
     */
    method ShowAllFolders()
      modifies this
      ensures isShowingFolders && currentFolderId.None? && currentFolderPath.None? && currentFolderName.None?
      ensures inFolderFilter == 0 && searchQuery == [] && !searchBarVisible
      ensures var r := ShownFolders(allFolders, allVideos, allAudioFiles);
        (r == [] ==> folderList == old(folderList) && emptyMessage == Some("No media folders found"))
        && (r != [] ==> folderList == r && emptyMessage.None?)
      ensures Catalogue() == old(Catalogue()) && currentFolderMedia == old(currentFolderMedia)
      ensures shown == old(shown) && started == old(started)
    {
      LeaveFolder();
      var allMediaFolders := CollectFolders(allFolders, allVideos, allAudioFiles);
      if allMediaFolders == [] {
        emptyMessage := Some("No media folders found");
      } else {
        emptyMessage := None;
        folderList := Seqs.SortBy(allMediaFolders, ByCountDescending);
      }
    }

    /** The first half of `showAllFolders()`: back at the folder level, with the filter and the search reset. */
    method LeaveFolder()
      modifies this
      ensures isShowingFolders && currentFolderId.None? && currentFolderPath.None? && currentFolderName.None?
      ensures inFolderFilter == 0 && searchQuery == [] && !searchBarVisible
      ensures Catalogue() == old(Catalogue()) && currentFolderMedia == old(currentFolderMedia)
      ensures shown == old(shown) && started == old(started) && folderList == old(folderList)
      ensures emptyMessage == old(emptyMessage)
    {
      isShowingFolders := true;
      currentFolderId, currentFolderPath, currentFolderName := None, None, None;
      inFolderFilter := 0;
      searchQuery := [];
      searchBarVisible := false;
    }

    /** `loadData()`: the three scans in order; the first that fails stops the load. */
    method LoadData(videoScan: Option<seq<VideoItem>>, audioScan: Option<seq<VideoItem>>,
                    folderScan: Option<seq<FolderItem>>)
      modifies this
      ensures videoScan.None? ==>
        Catalogue() == old(Catalogue()) && Place() == old(Place()) && folderList == old(folderList)
        && emptyMessage == Some("Error loading data")
        && inFolderFilter == old(inFolderFilter) && searchQuery == old(searchQuery)
        && searchBarVisible == old(searchBarVisible)
      ensures videoScan.Some? && audioScan.None? ==>
        Catalogue() == (videoScan.value, old(allAudioFiles), old(allFolders)) && Place() == old(Place())
        && folderList == old(folderList) && emptyMessage == Some("Error loading data")
        && inFolderFilter == old(inFolderFilter) && searchQuery == old(searchQuery)
        && searchBarVisible == old(searchBarVisible)
      ensures videoScan.Some? && audioScan.Some? && folderScan.None? ==>
        Catalogue() == (videoScan.value, audioScan.value, old(allFolders)) && Place() == old(Place())
        && folderList == old(folderList) && emptyMessage == Some("Error loading data")
        && inFolderFilter == old(inFolderFilter) && searchQuery == old(searchQuery)
        && searchBarVisible == old(searchBarVisible)
      ensures videoScan.Some? && audioScan.Some? && folderScan.Some? ==>
        Catalogue() == (videoScan.value, audioScan.value, folderScan.value) && isShowingFolders
        && currentFolderId.None? && currentFolderPath.None? && currentFolderName.None?
        && inFolderFilter == 0 && searchQuery == [] && !searchBarVisible
        && var r := ShownFolders(folderScan.value, videoScan.value, audioScan.value);
        (r != [] ==> folderList == r && emptyMessage.None?)
        && (r == [] ==> folderList == old(folderList) && emptyMessage == Some("No media folders found"))
      ensures shown == old(shown) && started == old(started)
    {
      if videoScan.None? {
        emptyMessage := Some("Error loading data");
        return;
      }
      allVideos := videoScan.value;
      if audioScan.None? {
        emptyMessage := Some("Error loading data");
        return;
      }
      allAudioFiles := audioScan.value;
      if folderScan.None? {
        emptyMessage := Some("Error loading data");
        return;
      }
      allFolders := folderScan.value;
      ShowAllFolders();
    }

    /**
     * `applyInFolderFilter()`: nothing while the folder list is shown; inside a folder, the
     * filtered list is submitted even when empty, with the empty view's text for the case.
     */
    method ApplyInFolderFilter()
      modifies this
      ensures old(isShowingFolders) ==> shown == old(shown) && emptyMessage == old(emptyMessage)
      ensures !old(isShowingFolders) ==>
        shown == InFolderList(currentFolderMedia, inFolderFilter, searchQuery)
        && emptyMessage == (if shown == [] then Some(InFolderEmptyText(searchQuery, inFolderFilter)) else None)
      ensures Catalogue() == old(Catalogue()) && Place() == old(Place())
      ensures inFolderFilter == old(inFolderFilter) && searchQuery == old(searchQuery)
      ensures searchBarVisible == old(searchBarVisible) && folderList == old(folderList) && started == old(started)
    {
      if isShowingFolders {
        return;
      }
      var filteredMedia := InFolderList(currentFolderMedia, inFolderFilter, searchQuery);
      shown := filteredMedia;
      if filteredMedia == [] {
        emptyMessage := Some(InFolderEmptyText(searchQuery, inFolderFilter));
      } else {
        emptyMessage := None;
      }
    }

    /** `loadFolderMedia(folder)`: enter the folder and show its media through the current filter. */
    method LoadFolderMedia(folder: FolderItem)
      modifies this
      ensures !isShowingFolders && currentFolderMedia == FolderMedia(allVideos, allAudioFiles, folder)
      ensures shown == InFolderList(currentFolderMedia, inFolderFilter, searchQuery)
      ensures emptyMessage == (if shown == [] then Some(InFolderEmptyText(searchQuery, inFolderFilter)) else None)
      ensures Catalogue() == old(Catalogue()) && inFolderFilter == old(inFolderFilter) && searchQuery == old(searchQuery)
      ensures currentFolderId == old(currentFolderId) && currentFolderPath == old(currentFolderPath)
      ensures currentFolderName == old(currentFolderName) && searchBarVisible == old(searchBarVisible)
      ensures folderList == old(folderList) && started == old(started)
    {
      isShowingFolders := false;
      currentFolderMedia := FolderMedia(allVideos, allAudioFiles, folder);
      ApplyInFolderFilter();
    }

    /** `openFolder(folder)`: enter the folder with the All filter and no search. */
    method OpenFolder(folder: FolderItem)
      modifies this
      ensures currentFolderId == Some(folder.id) && currentFolderPath == Some(folder.path)
      ensures currentFolderName == Some(folder.name)
      ensures inFolderFilter == 0 && searchQuery == [] && !searchBarVisible && !isShowingFolders
      ensures currentFolderMedia == FolderMedia(allVideos, allAudioFiles, folder) && shown == currentFolderMedia
      ensures Catalogue() == old(Catalogue()) && folderList == old(folderList) && started == old(started)
      ensures emptyMessage == (if shown == [] then Some(NO_MEDIA_IN_FOLDER) else None)
    {
      SelectFolder(folder);
      LoadFolderMedia(folder);
    }

    /** The first half of `openFolder`: remember the folder, reset the filter and close the search bar. */
    method SelectFolder(folder: FolderItem)
      modifies this
      ensures Place() == (old(isShowingFolders), Some(folder.id), Some(folder.path), Some(folder.name), old(currentFolderMedia))
      ensures inFolderFilter == 0 && searchQuery == [] && !searchBarVisible
      ensures Catalogue() == old(Catalogue()) && shown == old(shown) && folderList == old(folderList)
      ensures started == old(started) && emptyMessage == old(emptyMessage)
    {
      currentFolderId := Some(folder.id);
      currentFolderPath := Some(folder.path);
      currentFolderName := Some(folder.name);
      inFolderFilter := 0;
      searchQuery := [];
      searchBarVisible := false;
    }

    /** The All (0), Video (1) and Audio (2) buttons: selecting the active filter does nothing. */
    method OnFilterButton(filter: int)
      modifies this
      ensures inFolderFilter == filter
      ensures old(inFolderFilter) == filter ==> shown == old(shown) && emptyMessage == old(emptyMessage)
      ensures old(inFolderFilter) != filter && !isShowingFolders ==>
        shown == InFolderList(currentFolderMedia, filter, searchQuery)
        && emptyMessage == (if shown == [] then Some(InFolderEmptyText(searchQuery, filter)) else None)
      ensures isShowingFolders ==> shown == old(shown) && emptyMessage == old(emptyMessage)
      ensures Catalogue() == old(Catalogue()) && Place() == old(Place()) && searchQuery == old(searchQuery)
      ensures searchBarVisible == old(searchBarVisible) && folderList == old(folderList) && started == old(started)
    {
      if inFolderFilter == filter {
        return;
      }
      inFolderFilter := filter;
      ApplyInFolderFilter();
    }

    /** `showSearchBar()`. */
    method ShowSearchBar()
      modifies this
      ensures searchBarVisible
      ensures Catalogue() == old(Catalogue()) && Place() == old(Place()) && inFolderFilter == old(inFolderFilter)
      ensures searchQuery == old(searchQuery) && shown == old(shown) && emptyMessage == old(emptyMessage)
      ensures folderList == old(folderList) && started == old(started)
    {
      searchBarVisible := true;
    }

    /** The search field's text changed (clearing it passes ""): filter again with the new query. */
    method OnSearchTextChanged(text: string)
      modifies this
      ensures searchQuery == text
      ensures !isShowingFolders ==>
        shown == InFolderList(currentFolderMedia, inFolderFilter, text)
        && emptyMessage == (if shown == [] then Some(InFolderEmptyText(text, inFolderFilter)) else None)
      ensures isShowingFolders ==> shown == old(shown) && emptyMessage == old(emptyMessage)
      ensures Catalogue() == old(Catalogue()) && Place() == old(Place()) && inFolderFilter == old(inFolderFilter)
      ensures searchBarVisible == old(searchBarVisible) && folderList == old(folderList) && started == old(started)
    {
      searchQuery := text;
      ApplyInFolderFilter();
    }

    /** `hideSearchBar()`: clear the query, hide the bar, and filter again. */
    method HideSearchBar()
      modifies this
      ensures searchQuery == [] && !searchBarVisible
      ensures !isShowingFolders ==>
        shown == InFolderList(currentFolderMedia, inFolderFilter, "")
        && emptyMessage == (if shown == [] then Some(InFolderEmptyText("", inFolderFilter)) else None)
      ensures isShowingFolders ==> shown == old(shown) && emptyMessage == old(emptyMessage)
      ensures Catalogue() == old(Catalogue()) && Place() == old(Place()) && inFolderFilter == old(inFolderFilter)
      ensures folderList == old(folderList) && started == old(started)
    {
      searchQuery := [];
      searchBarVisible := false;
      ApplyInFolderFilter();
    }

    /**
     * `onBackPressed()`: an open search bar is closed first; inside a folder the folder list
     * comes back; at the folder list the press is not consumed and nothing changes.
     */
    method OnBackPressed() returns (handled: bool)
      modifies this
      ensures handled <==> old(searchBarVisible) || !old(isShowingFolders)
      ensures old(searchBarVisible) ==>
        !searchBarVisible && searchQuery == [] && Place() == old(Place()) && inFolderFilter == old(inFolderFilter)
        && folderList == old(folderList)
      ensures old(searchBarVisible) && !old(isShowingFolders) ==>
        shown == InFolderList(currentFolderMedia, inFolderFilter, "")
        && emptyMessage == (if shown == [] then Some(InFolderEmptyText("", inFolderFilter)) else None)
      ensures old(searchBarVisible) && old(isShowingFolders) ==> shown == old(shown) && emptyMessage == old(emptyMessage)
      ensures !old(searchBarVisible) && !old(isShowingFolders) ==>
        isShowingFolders && currentFolderId.None? && currentFolderPath.None? && currentFolderName.None?
        && inFolderFilter == 0 && searchQuery == [] && !searchBarVisible
        && shown == old(shown) && currentFolderMedia == old(currentFolderMedia)
        && var r := ShownFolders(allFolders, allVideos, allAudioFiles);
        (r != [] ==> folderList == r && emptyMessage.None?)
        && (r == [] ==> folderList == old(folderList) && emptyMessage == Some("No media folders found"))
      ensures !handled ==>
        Place() == old(Place()) && inFolderFilter == old(inFolderFilter) && searchQuery == old(searchQuery)
        && shown == old(shown) && folderList == old(folderList) && emptyMessage == old(emptyMessage)
      ensures Catalogue() == old(Catalogue()) && started == old(started)
    {
      if searchBarVisible {
        HideSearchBar();
        return true;
      }
      if !isShowingFolders {
        ShowAllFolders();
        return true;
      }
      return false;
    }

    /**
     * `filterBySearch(query)` from the toolbar: inside a folder, the folder's media whose title
     * contains the query, whatever the inline type filter is.
     */
    method FilterBySearch(query: string)
      modifies this
      ensures old(isShowingFolders) ==> shown == old(shown) && emptyMessage == old(emptyMessage)
      ensures !old(isShowingFolders) ==>
        shown == InFolderList(currentFolderMedia, 0, query)
        && emptyMessage == (if shown != [] then None
                            else if query == [] then Some("No files found")
                            else Some("No results for \"" + query + "\""))
      ensures Catalogue() == old(Catalogue()) && Place() == old(Place()) && inFolderFilter == old(inFolderFilter)
      ensures searchQuery == old(searchQuery) && folderList == old(folderList) && started == old(started)
    {
      if !isShowingFolders {
        var filtered :=
          if query == [] then currentFolderMedia
          else Filter(currentFolderMedia, (v: VideoItem) => TitleMatches(v, query));
        shown := filtered;
        if filtered == [] {
          emptyMessage := Some(if query == [] then "No files found" else "No results for \"" + query + "\"");
        } else {
          emptyMessage := None;
        }
      }
    }

    /** `sortBy(sortType)`: only inside a folder, on the displayed list. */
    method SortBy(sortType: int)
      modifies this
      ensures old(isShowingFolders) ==> shown == old(shown)
      ensures !old(isShowingFolders) ==> shown == SortVideos(old(shown), sortType)
      ensures multiset(shown) == multiset(old(shown))
      ensures Catalogue() == old(Catalogue()) && Place() == old(Place()) && inFolderFilter == old(inFolderFilter)
      ensures searchQuery == old(searchQuery) && folderList == old(folderList) && started == old(started)
    {
      if !isShowingFolders {
        SortVideosCorrect(shown, sortType);
        shown := SortVideos(shown, sortType);
      }
    }

    /** `saveVideoToHistory(uri, title)`, this screen's copy of the video saver. */
    method SaveVideoToHistory(uri: string, title: string)
      modifies prefs
      ensures prefs.values == old(prefs.values)
        [VIDEO_HISTORY := JsonArray(History.MostRecent(ArrayOrEmpty(old(prefs.values), VIDEO_HISTORY), uri, History.VIDEO_CAP))]
        [LAST_VIDEO_URI := StringValue(uri)][LAST_VIDEO_TITLE := StringValue(title)]
    {
      History.SaveVideoToHistory(prefs, uri, title);
    }

    /** `saveAudioToHistory(uri)`, this screen's copy of the audio saver. */
    method SaveAudioToHistory(uri: string)
      modifies prefs
      ensures prefs.values == old(prefs.values)
        [AUDIO_HISTORY := JsonArray(History.MostRecent(ArrayOrEmpty(old(prefs.values), AUDIO_HISTORY), uri, History.AUDIO_CAP))]
    {
      History.SaveAudioToHistory(prefs, uri);
    }

    /**
     * `openPlayer(video, position)`: audio goes to the audio history, anything else to the
     * video history; the player starts in the displayed list, without a resume position.
     */
    method OpenPlayer(video: VideoItem, position: int)
      modifies this, prefs
      ensures IsAudioItem(video) ==> prefs.values == old(prefs.values)
        [AUDIO_HISTORY := JsonArray(History.MostRecent(ArrayOrEmpty(old(prefs.values), AUDIO_HISTORY), video.uri, History.AUDIO_CAP))]
      ensures !IsAudioItem(video) ==> prefs.values == old(prefs.values)
        [VIDEO_HISTORY := JsonArray(History.MostRecent(ArrayOrEmpty(old(prefs.values), VIDEO_HISTORY), video.uri, History.VIDEO_CAP))]
        [LAST_VIDEO_URI := StringValue(video.uri)][LAST_VIDEO_TITLE := StringValue(video.title)]
      ensures started == old(started) + [LaunchIntent(video, old(shown), position, 0)]
      ensures Catalogue() == old(Catalogue()) && Place() == old(Place()) && shown == old(shown)
      ensures folderList == old(folderList) && inFolderFilter == old(inFolderFilter) && searchQuery == old(searchQuery)
    {
      if IsAudioItem(video) {
        SaveAudioToHistory(video.uri);
      } else {
        SaveVideoToHistory(video.uri, video.title);
      }
      started := started + [LaunchIntent(video, shown, position, 0)];
    }
  }
}
