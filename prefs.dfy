/**
 * The app's preference file ("pro_video_player_prefs"). Values that the app stores as
 * JSON text are kept here already parsed; text that does not parse as JSON is the
 * `Malformed` value, so every reader's error path is an ordinary input.
 */
module Prefs {
  import opened Text

  datatype Pref =
    | JsonArray(items: seq<string>)          // a JSON array of strings
    | JsonObject(entries: map<string, int>)  // a JSON object of numbers
    | Malformed                              // text that is not valid JSON of the expected kind
    | StringValue(s: string)
    | LongValue(n: int)

  const VIDEO_HISTORY := "video_history"
  const AUDIO_HISTORY := "audio_history"
  const STREAM_HISTORY := "stream_history"
  const VIDEO_POSITIONS := "video_positions"
  const LAST_VIDEO_URI := "last_video_uri"
  const LAST_VIDEO_TITLE := "last_video_title"
  const LAST_VIDEO_POSITION := "last_video_position"

  /** The shared preference file, updated in place by the screens. */
  class PrefStore {
    var values: map<string, Pref>

    constructor (initial: map<string, Pref>)
      ensures values == initial
    {
      values := initial;
    }
  }

  /**
   * `JSONArray(prefs.getString(key, "[]"))`: an absent key reads as the empty array;
   * `None` is the parse exception.
   */
  function ReadArray(values: map<string, Pref>, key: string): (r: Option<seq<string>>)
    ensures key !in values ==> r == Some([])
    ensures r.Some? && key in values ==> values[key] == JsonArray(r.value)
    ensures r.None? <==> key in values && !values[key].JsonArray?
  {
    if key !in values then Some([])
    else match values[key]
      case JsonArray(items) => Some(items)
      case _ => None
  }

  /** `JSONObject(prefs.getString(key, "{}"))`, `None` being the parse exception. */
  function ReadObject(values: map<string, Pref>, key: string): (r: Option<map<string, int>>)
    ensures key !in values ==> r == Some(map[])
    ensures r.Some? && key in values ==> values[key] == JsonObject(r.value)
    ensures r.None? <==> key in values && !values[key].JsonObject?
  {
    if key !in values then Some(map[])
    else match values[key]
      case JsonObject(entries) => Some(entries)
      case _ => None
  }

  /** The savers' `try { JSONArray(json) } catch { JSONArray() }`. */
  function ArrayOrEmpty(values: map<string, Pref>, key: string): seq<string>
  {
    match ReadArray(values, key) case Some(a) => a case None => []
  }

  /** `try { JSONObject(json) } catch { JSONObject() }`. */
  function ObjectOrEmpty(values: map<string, Pref>, key: string): map<string, int>
  {
    match ReadObject(values, key) case Some(o) => o case None => map[]
  }

  /**
   * `getSavedPlaybackPosition(uri)`: the value stored under the URI's hash key in
   * "video_positions" (`optLong(key, 0)`), and 0 when the key is absent or the JSON
   * is malformed.
   */
  function SavedPlaybackPosition(values: map<string, Pref>, uri: string): (r: int)
    ensures (VIDEO_POSITIONS in values && values[VIDEO_POSITIONS].JsonObject?
             && HashKey(uri) in values[VIDEO_POSITIONS].entries)
            ==> r == values[VIDEO_POSITIONS].entries[HashKey(uri)]
    ensures VIDEO_POSITIONS !in values ==> r == 0
    ensures VIDEO_POSITIONS in values && values[VIDEO_POSITIONS].Malformed? ==> r == 0
    ensures (VIDEO_POSITIONS in values && values[VIDEO_POSITIONS].JsonObject?
             && HashKey(uri) !in values[VIDEO_POSITIONS].entries) ==> r == 0
  {
    match ReadObject(values, VIDEO_POSITIONS)
    case None => 0
    case Some(obj) => if HashKey(uri) in obj then obj[HashKey(uri)] else 0
  }
}
