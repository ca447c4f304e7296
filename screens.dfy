/**
 * What the list screens share: the video-only filter, the four sort orders, and the
 * player launch every `openPlayer` builds from the clicked item and the displayed list.
 */
module Screens {
  import opened Text
  import opened Seqs
  import opened Media
  import opened Intents

  // ---------------------------------------------------------------- the video-only list

  /** The initial list of the video screens: everything the audio test rejects, in scan order. */
  function VideoFiles(all: seq<VideoItem>): seq<VideoItem>
  {
    Filter(all, (v: VideoItem) => !IsAudioItem(v))
  }

  /** The video list keeps every non-audio item as often as it was scanned, in order, and nothing else. */
  lemma VideoFilesMeaning(all: seq<VideoItem>)
    ensures Subsequence(VideoFiles(all), all)
    ensures forall v :: multiset(VideoFiles(all))[v] == if IsAudioItem(v) then 0 else multiset(all)[v]
  {
    FilterSubsequence(all, (v: VideoItem) => !IsAudioItem(v));
    FilterCounts(all, (v: VideoItem) => !IsAudioItem(v));
  }

  /** `title.contains(query, ignoreCase = true)`. */
  predicate TitleMatches(v: VideoItem, query: string)
  {
    ContainsIgnoreCase(v.title, query)
  }

  // ---------------------------------------------------------------- the sort orders

  /** 0 = name, 1 = date, 2 = size, 3 = duration; the numeric orders are descending. */
  function SortKey(sortType: int, v: VideoItem): Key
    requires 0 <= sortType <= 3
  {
    if sortType == 0 then Str(Lower(v.title))
    else if sortType == 1 then Num(-v.dateAdded)
    else if sortType == 2 then Num(-v.size)
    else Num(-v.duration)
  }

  function KeyOf(sortType: int): VideoItem -> Key
    requires 0 <= sortType <= 3
  {
    (v: VideoItem) => SortKey(sortType, v)
  }

  /**
   * `sortBy(sortType)` on the displayed list: Kotlin's stable `sortedBy` /
   * `sortedByDescending`, any other sort type keeping the list as it is.
   */
  function SortVideos(list: seq<VideoItem>, sortType: int): seq<VideoItem>
  {
    if 0 <= sortType <= 3 then SortBy(list, KeyOf(sortType)) else list
  }

  /**
   * Sorting is a permutation; name order is ascending on the lower-cased title, the others
   * descending on their field; ties keep their order; other sort types change nothing.
   */
  lemma SortVideosCorrect(list: seq<VideoItem>, sortType: int)
    ensures multiset(SortVideos(list, sortType)) == multiset(list)
    ensures var r := SortVideos(list, sortType);
      sortType == 0 ==> forall i, j :: 0 <= i < j < |r| ==> !LexLess(Lower(r[j].title), Lower(r[i].title))
    ensures var r := SortVideos(list, sortType);
      sortType == 1 ==> forall i, j :: 0 <= i < j < |r| ==> r[i].dateAdded >= r[j].dateAdded
    ensures var r := SortVideos(list, sortType);
      sortType == 2 ==> forall i, j :: 0 <= i < j < |r| ==> r[i].size >= r[j].size
    ensures var r := SortVideos(list, sortType);
      sortType == 3 ==> forall i, j :: 0 <= i < j < |r| ==> r[i].duration >= r[j].duration
    ensures 0 <= sortType <= 3 ==>
      forall k :: WithKey(SortVideos(list, sortType), KeyOf(sortType), k) == WithKey(list, KeyOf(sortType), k)
    ensures !(0 <= sortType <= 3) ==> SortVideos(list, sortType) == list
  {
    if 0 <= sortType <= 3 {
      var key := KeyOf(sortType);
      SortByCorrect(list, key);
      forall k ensures WithKey(SortBy(list, key), key, k) == WithKey(list, key, k) {
        SortByStable(list, key, k);
      }
    }
  }

  // ---------------------------------------------------------------- launching the player

  /** `indexOfFirst { it.id == id }`. */
  function IndexOfId(playlist: seq<VideoItem>, id: int): (r: int)
    ensures -1 <= r < |playlist|
    ensures r >= 0 ==> playlist[r].id == id && forall k :: 0 <= k < r ==> playlist[k].id != id
    ensures r == -1 <==> forall k :: 0 <= k < |playlist| ==> playlist[k].id != id
  {
    if playlist == [] then -1
    else if playlist[0].id == id then 0
    else
      var i := IndexOfId(playlist[1..], id);
      if i < 0 then -1 else i + 1
  }

  function Uris(playlist: seq<VideoItem>): (r: seq<string>)
    ensures |r| == |playlist| && forall i :: 0 <= i < |r| ==> r[i] == playlist[i].uri
  {
    if playlist == [] then [] else [playlist[0].uri] + Uris(playlist[1..])
  }

  function Titles(playlist: seq<VideoItem>): (r: seq<string>)
    ensures |r| == |playlist| && forall i :: 0 <= i < |r| ==> r[i] == playlist[i].title
  {
    if playlist == [] then [] else [playlist[0].title] + Titles(playlist[1..])
  }

  /**
   * The intent of `openPlayer(video, position)`: the clicked item, its index found by id in
   * the playlist (the clicked position when absent), the saved position only when positive,
   * and the playlist's URIs and titles. Screens that pass no resume position use `saved = 0`.
   */
  function LaunchIntent(video: VideoItem, playlist: seq<VideoItem>, position: int, saved: int): (r: PlayerIntent)
    ensures r.uri == Some(video.uri) && r.title == Some(video.title)
    ensures r.index.Some?
    ensures IndexOfId(playlist, video.id) >= 0 ==>
      0 <= r.index.value < |playlist| && playlist[r.index.value].id == video.id
    ensures IndexOfId(playlist, video.id) < 0 ==> r.index.value == position
    ensures r.playbackPosition.Some? <==> saved > 0
    ensures r.playbackPosition.Some? ==> r.playbackPosition.value == saved
    ensures r.playlist.Some? && r.titles.Some? && |r.playlist.value| == |r.titles.value| == |playlist|
    ensures forall i :: 0 <= i < |playlist| ==>
      r.playlist.value[i] == playlist[i].uri && r.titles.value[i] == playlist[i].title
    ensures r.isNetworkStream.None?
  {
    var i := IndexOfId(playlist, video.id);
    NO_EXTRAS.(uri := Some(video.uri), title := Some(video.title),
               index := Some(if i >= 0 then i else position),
               playbackPosition := if saved > 0 then Some(saved) else None,
               playlist := Some(Uris(playlist)), titles := Some(Titles(playlist)))
  }

  predicate DistinctIds(s: seq<VideoItem>)
  {
    forall i, j :: 0 <= i < j < |s| ==> s[i].id != s[j].id
  }

  /** When the clicked item is in a list whose ids are distinct, the player starts at that very item. */
  lemma LaunchStartsAtClicked(video: VideoItem, playlist: seq<VideoItem>, position: int, saved: int)
    requires video in playlist && DistinctIds(playlist)
    ensures var r := LaunchIntent(video, playlist, position, saved);
      0 <= r.index.value < |playlist| && playlist[r.index.value] == video
      && r.playlist.value[r.index.value] == video.uri
  {
    var k :| 0 <= k < |playlist| && playlist[k] == video;
    var i := IndexOfId(playlist, video.id);
    assert i >= 0;
  }
}
