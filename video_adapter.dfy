/**
 * The media list adapter: the "● NEW" tag shown on items not yet in the matching
 * history, the history lookup behind it, and the list differ's identity rules.
 */
module VideoAdapter {
  import opened Text
  import opened Media
  import opened Prefs
  import History

  /** Membership in a parsed history array; a history that failed to parse contains nothing. */
  predicate InHistory(parsed: Option<seq<string>>, uri: string)
  {
    parsed.Some? && uri in parsed.value
  }

  /**
   * `isUriInHistory(historyJson, uri)`: the indexed scan with early return; `parsed` is
   * the JSON text after parsing, `None` when parsing threw.
   */
  method IsUriInHistory(parsed: Option<seq<string>>, uri: string) returns (found: bool)
    ensures found <==> parsed.Some? && exists i :: 0 <= i < |parsed.value| && parsed.value[i] == uri
    ensures parsed.None? ==> !found
  {
    if parsed.None? {
      return false;
    }
    var jsonArray := parsed.value;
    for i := 0 to |jsonArray|
      invariant forall k :: 0 <= k < i ==> jsonArray[k] != uri
    {
      if jsonArray[i] == uri {
        return true;
      }
    }
    return false;
  }

  /** The history key an item's NEW tag is decided by. */
  function HistoryKeyFor(v: VideoItem): string
  {
    if IsAudioItem(v) then AUDIO_HISTORY else VIDEO_HISTORY
  }

  /** `bind`: the item shows "● NEW" instead of its size when its URI is not in its history. */
  predicate ShowsNewTag(values: map<string, Pref>, v: VideoItem)
  {
    !InHistory(ReadArray(values, HistoryKeyFor(v)), v.uri)
  }

  /**
   * The NEW tag reads the audio history for audio items and the video history for the
   * rest, and is shown exactly when the URI is absent there (or that history is malformed).
   */
  lemma NewTagMeaning(values: map<string, Pref>, v: VideoItem)
    ensures IsAudioItem(v) ==>
      (ShowsNewTag(values, v) <==> !(AUDIO_HISTORY in values && values[AUDIO_HISTORY].JsonArray?
                                     && v.uri in values[AUDIO_HISTORY].items))
    ensures !IsAudioItem(v) ==>
      (ShowsNewTag(values, v) <==> !(VIDEO_HISTORY in values && values[VIDEO_HISTORY].JsonArray?
                                     && v.uri in values[VIDEO_HISTORY].items))
  {
  }

  /** Recording an item in its own history (what every `openPlayer` does first) removes its NEW tag. */
  lemma SavingClearsNewTag(values: map<string, Pref>, v: VideoItem, cap: nat)
    requires cap >= 1
    ensures !ShowsNewTag(values[HistoryKeyFor(v) :=
      JsonArray(History.MostRecent(ArrayOrEmpty(values, HistoryKeyFor(v)), v.uri, cap))], v)
  {
    var h := ArrayOrEmpty(values, HistoryKeyFor(v));
    History.MostRecentLast(h, v.uri, cap);
    var r := History.MostRecent(h, v.uri, cap);
    assert r[|r| - 1] == v.uri;
  }

  /** `VideoDiffCallback.areItemsTheSame`: the same item exactly when the ids agree. */
  function AreItemsTheSame(oldItem: VideoItem, newItem: VideoItem): (same: bool)
    ensures same <==> oldItem.id == newItem.id
  {
    oldItem.id == newItem.id
  }

  /** `VideoDiffCallback.areContentsTheSame`: never, so every item is re-bound and its NEW tag re-read. */
  function AreContentsTheSame(oldItem: VideoItem, newItem: VideoItem): (same: bool)
    ensures !same
  {
    false
  }
}
