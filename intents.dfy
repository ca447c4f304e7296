/**
 * The extras a screen puts on the intent that starts the player, each absent unless
 * the screen sets it.
 */
module Intents {
  import opened Text

  datatype PlayerIntent = PlayerIntent(
    uri: Option<string>,              // "video_uri"
    title: Option<string>,            // "video_title"
    index: Option<int>,               // "video_position": the playlist index
    playbackPosition: Option<int>,    // "playback_position": where to resume, in ms
    playlist: Option<seq<string>>,    // "playlist"
    titles: Option<seq<string>>,      // "playlist_titles"
    isNetworkStream: Option<bool>,    // "is_network_stream"
    data: Option<string>)             // the intent's data URI (an external "open with")

  const NO_EXTRAS := PlayerIntent(None, None, None, None, None, None, None, None)
}
