/**
 * The network-stream screen: a URL field, protocol chips that pre-fill it, a play
 * button, and the list of recently played stream URLs (most recent first) kept in
 * "stream_history".
 */
module NetworkStream {
  import opened Text
  import opened Seqs
  import opened Prefs
  import opened Intents
  import History
  import Media

  const VALID_SCHEMES: seq<string> := ["http", "https", "rtsp", "rtmp", "mms", "mmsh", "mmst"]

  /** `isValidUrl(url)`: the lower-cased scheme is one of the streaming schemes. */
  predicate IsValidUrl(url: string)
  {
    match Media.Scheme(url)
    case None => false
    case Some(s) => Lower(s) in VALID_SCHEMES
  }

  /** A URL with any of the accepted schemes, in any letter case, is valid; one without a scheme is not. */
  lemma ValidUrlMeaning(scheme: string, rest: string, url: string)
    requires ':' !in scheme
    ensures IsValidUrl(scheme + ":" + rest) <==> Lower(scheme) in VALID_SCHEMES
    ensures ':' !in url ==> !IsValidUrl(url)
  {
    var u := scheme + ":" + rest;
    assert u[|scheme|] == ':' && u[..|scheme|] == scheme;
    assert ':' in u;
    var s := Media.Scheme(u).value;
    assert s == scheme;
  }

  /** A protocol chip: replace the text by "<scheme>://" unless it already starts with the scheme name. */
  function ChipText(text: string, scheme: string): (r: string)
    ensures StartsWith(r, scheme)
    ensures StartsWith(text, scheme) ==> r == text
    ensures !StartsWith(text, scheme) ==> r == scheme + "://"
  {
    if StartsWith(text, scheme) then text else scheme + "://"
  }

  /** The "http" chip leaves an https URL alone, since "https..." starts with "http". */
  lemma HttpChipKeepsHttps(rest: string)
    ensures ChipText("https://" + rest, "http") == "https://" + rest
  {
    assert ("https://" + rest)[..4] == "http";
  }

  /** What a chip writes is accepted as soon as a host follows it. */
  lemma ChipPrefixIsValid(scheme: string, host: string)
    requires scheme in ["http", "https", "rtsp", "rtmp"]
    ensures IsValidUrl(scheme + "://" + host)
  {
    assert scheme == VALID_SCHEMES[0] || scheme == VALID_SCHEMES[1] || scheme == VALID_SCHEMES[2] || scheme == VALID_SCHEMES[3];
    LowerCaseScheme(scheme);
    SchemeSeparator(scheme, host);
    ValidUrlMeaning(scheme, "//" + host, scheme + "://" + host);
  }

  lemma SchemeSeparator(scheme: string, host: string)
    ensures scheme + ":" + ("//" + host) == scheme + "://" + host
  {
    assert ":" + "//" == "://";
  }

  /** Every accepted scheme is written in lower-case letters, so it is its own lower-case form. */
  lemma LowerCaseScheme(scheme: string)
    requires scheme in VALID_SCHEMES
    ensures ':' !in scheme && Lower(scheme) == scheme
  {
    assert forall i :: 0 <= i < |scheme| ==> 'a' <= scheme[i] <= 'z';
  }

  /** The intent `playNetworkStream` starts for a valid URL: a one-item playlist flagged as a stream. */
  function StreamIntent(url: string, title: string): (i: PlayerIntent)
    ensures i.playlist == Some([url]) && i.titles == Some([title]) && i.isNetworkStream == Some(true)
  {
    NO_EXTRAS.(uri := Some(url), title := Some(title), isNetworkStream := Some(true),
               playlist := Some([url]), titles := Some([title]))
  }

  /** The displayed list shows the most recently saved URL first. */
  lemma ShownMostRecentFirst(h: seq<string>, url: string)
    ensures Reverse(History.MostRecent(h, url, History.STREAM_CAP))[0] == url
    ensures |Reverse(History.MostRecent(h, url, History.STREAM_CAP))| <= History.STREAM_CAP
  {
    History.MostRecentLast(h, url, History.STREAM_CAP);
    History.MostRecentBounded(h, url, History.STREAM_CAP);
  }

  /** What the play button starts for a non-empty URL: a stream intent when the URL is valid. */
  function Launched(url: string): (r: seq<PlayerIntent>)
    ensures IsValidUrl(url) <==> r != []
    ensures r != [] ==> r == [StreamIntent(url, "Network Stream")]
  {
    if IsValidUrl(url) then [StreamIntent(url, "Network Stream")] else []
  }

  class NetworkStreamActivity {
    const prefs: PrefStore
    /** The displayed history, most recent first. */
    var streamHistory: seq<string>
    /** The text of the URL field. */
    var urlInput: string
    /** The players started from this screen, in order. */
    var started: seq<PlayerIntent>
    /** The toasts shown, in order. */
    var toasts: seq<string>

    constructor (prefs: PrefStore)
      ensures this.prefs == prefs && streamHistory == [] && urlInput == [] && started == [] && toasts == []
    {
      this.prefs := prefs;
      streamHistory := [];
      urlInput := [];
      started := [];
      toasts := [];
    }

    /** `loadStreamHistory()`: show the stored list reversed; on a parse failure keep what is shown. */
    method LoadStreamHistory()
      modifies this
      ensures ReadArray(prefs.values, STREAM_HISTORY).Some? ==>
        streamHistory == Reverse(ReadArray(prefs.values, STREAM_HISTORY).value)
      ensures ReadArray(prefs.values, STREAM_HISTORY).None? ==> streamHistory == old(streamHistory)
      ensures urlInput == old(urlInput) && started == old(started) && toasts == old(toasts)
    {
      var parsed := ReadArray(prefs.values, STREAM_HISTORY);
      if parsed.Some? {
        var jsonArray := parsed.value;
        streamHistory := [];
        for i := 0 to |jsonArray|
          invariant streamHistory == jsonArray[..i]
          invariant urlInput == old(urlInput) && started == old(started) && toasts == old(toasts)
        {
          streamHistory := streamHistory + [jsonArray[i]];
        }
        assert jsonArray[..|jsonArray|] == jsonArray;
        streamHistory := Reverse(streamHistory);
      }
    }

    /** `saveToStreamHistory(url)`: record the URL (cap 10), write it, and reload the list. */
    method SaveToStreamHistory(url: string)
      modifies this, prefs
      ensures prefs.values == old(prefs.values)[STREAM_HISTORY :=
        JsonArray(History.MostRecent(ArrayOrEmpty(old(prefs.values), STREAM_HISTORY), url, History.STREAM_CAP))]
      ensures streamHistory == Reverse(History.MostRecent(ArrayOrEmpty(old(prefs.values), STREAM_HISTORY), url, History.STREAM_CAP))
      ensures urlInput == old(urlInput) && started == old(started) && toasts == old(toasts)
    {
      History.SaveToHistory(prefs, STREAM_HISTORY, url, History.STREAM_CAP);
      LoadStreamHistory();
    }

    /** `removeFromHistory(url)`: drop every copy of the URL (no truncation), write, reload. */
    method RemoveFromHistory(url: string)
      modifies this, prefs
      ensures prefs.values == old(prefs.values)[STREAM_HISTORY :=
        JsonArray(History.Without(ArrayOrEmpty(old(prefs.values), STREAM_HISTORY), url))]
      ensures streamHistory == Reverse(History.Without(ArrayOrEmpty(old(prefs.values), STREAM_HISTORY), url))
      ensures urlInput == old(urlInput) && started == old(started) && toasts == old(toasts)
    {
      var historyArray := ArrayOrEmpty(prefs.values, STREAM_HISTORY);
      var newArray := History.RemoveLoop(historyArray, url);
      prefs.values := prefs.values[STREAM_HISTORY := JsonArray(newArray)];
      LoadStreamHistory();
    }

    /** `playNetworkStream(url, title)`: an invalid URL only raises a toast. */
    method PlayNetworkStream(url: string, title: string)
      modifies this
      ensures IsValidUrl(url) ==> started == old(started) + [StreamIntent(url, title)] && toasts == old(toasts)
      ensures !IsValidUrl(url) ==> started == old(started) && toasts == old(toasts) + ["Invalid URL format"]
      ensures streamHistory == old(streamHistory) && urlInput == old(urlInput)
    {
      if !IsValidUrl(url) {
        toasts := toasts + ["Invalid URL format"];
        return;
      }
      started := started + [StreamIntent(url, title)];
    }

    /**
     * The play button: the trimmed text, if not empty, is saved to the history first and
     * then played (so an invalid URL is still recorded); empty text only raises a toast.
     */
    method OnPlayClicked()
      modifies this, prefs
      ensures var url := Trim(old(urlInput));
        url == [] ==>
          (prefs.values == old(prefs.values) && started == old(started)
           && streamHistory == old(streamHistory) && toasts == old(toasts) + ["Please enter a URL"])
      ensures var url := Trim(old(urlInput));
        url != [] ==>
          (prefs.values == old(prefs.values)[STREAM_HISTORY :=
             JsonArray(History.MostRecent(ArrayOrEmpty(old(prefs.values), STREAM_HISTORY), url, History.STREAM_CAP))]
           && started == old(started) + Launched(url)
           && toasts == old(toasts) + (if IsValidUrl(url) then [] else ["Invalid URL format"])
           && streamHistory == Reverse(History.MostRecent(ArrayOrEmpty(old(prefs.values), STREAM_HISTORY), url, History.STREAM_CAP)))
      ensures urlInput == old(urlInput)
    {
      var url := Trim(urlInput);
      if url != [] {
        ghost var recorded := History.MostRecent(ArrayOrEmpty(prefs.values, STREAM_HISTORY), url, History.STREAM_CAP);
        SaveToStreamHistory(url);
        assert streamHistory == Reverse(recorded);
        ghost var saved := prefs.values;
        ghost var before, said, shown := started, toasts, streamHistory;
        PlayNetworkStream(url, "Network Stream");
        assert prefs.values == saved && streamHistory == shown;
        assert started == before + Launched(url);
        assert toasts == said + (if IsValidUrl(url) then [] else ["Invalid URL format"]);
      } else {
        toasts := toasts + ["Please enter a URL"];
      }
    }

    /** A protocol chip ("http", "https", "rtsp" or "rtmp"). */
    method OnChipClicked(scheme: string)
      modifies this
      ensures urlInput == ChipText(old(urlInput), scheme)
      ensures streamHistory == old(streamHistory) && started == old(started) && toasts == old(toasts)
    {
      if !StartsWith(urlInput, scheme) {
        urlInput := scheme + "://";
      }
    }
  }
}
