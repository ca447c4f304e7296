/**
 * The bounded most-recent history every screen keeps in the preference file
 * ("video_history" capped at 20, "audio_history" at 50, "stream_history" at 10): remove
 * every entry equal to the new URI, append it, keep the last `cap` entries.
 * Each screen's saver is a copy of `SaveLoops` below applied to its own key and cap.
 */
module History {
  import opened Text
  import opened Seqs
  import opened Prefs

  const VIDEO_CAP := 20
  const AUDIO_CAP := 50
  const STREAM_CAP := 10

  /** The entries of `h` other than `uri`, in order (the first loop of every saver). */
  function Without(h: seq<string>, uri: string): seq<string>
  {
    if h == [] then []
    else if h[|h| - 1] != uri then Without(h[..|h| - 1], uri) + [h[|h| - 1]]
    else Without(h[..|h| - 1], uri)
  }

  /** The last `cap` entries (the second loop). */
  function KeepLast(s: seq<string>, cap: nat): seq<string>
  {
    if |s| > cap then s[|s| - cap..] else s
  }

  /** The history after recording `uri`. */
  function MostRecent(h: seq<string>, uri: string, cap: nat): seq<string>
  {
    KeepLast(Without(h, uri) + [uri], cap)
  }

  predicate NoDuplicates(s: seq<string>)
  {
    forall i, j :: 0 <= i < j < |s| ==> s[i] != s[j]
  }

  // ---------------------------------------------------------------- the copied loops

  /**
   * The body every saver repeats: copy the entries not equal to `uri` into a new array,
   * append `uri`, then copy the entries from `startIndex` on.
   */
  method SaveLoops(history: seq<string>, uri: string, cap: nat) returns (final: seq<string>)
    ensures final == MostRecent(history, uri, cap)
  {
    var newArray: seq<string> := [];
    for i := 0 to |history|
      invariant newArray == Without(history[..i], uri)
    {
      assert history[..i + 1][..i] == history[..i];
      if history[i] != uri {
        newArray := newArray + [history[i]];
      }
    }
    assert history[..|history|] == history;
    newArray := newArray + [uri];
    var startIndex := if |newArray| > cap then |newArray| - cap else 0;
    final := [];
    for i := startIndex to |newArray|
      invariant final == newArray[startIndex..i]
    {
      final := final + [newArray[i]];
    }
  }

  /** `removeFromHistory`'s loop: copy every entry not equal to `url`; nothing is truncated. */
  method RemoveLoop(history: seq<string>, url: string) returns (newArray: seq<string>)
    ensures newArray == Without(history, url)
  {
    newArray := [];
    for i := 0 to |history|
      invariant newArray == Without(history[..i], url)
    {
      assert history[..i + 1][..i] == history[..i];
      if history[i] != url {
        newArray := newArray + [history[i]];
      }
    }
    assert history[..|history|] == history;
  }

  /**
   * The whole saver on the preference file: read `key` (malformed JSON reads as empty),
   * record `uri`, write `key` back. Nothing else in the file changes.
   */
  method SaveToHistory(prefs: PrefStore, key: string, uri: string, cap: nat)
    modifies prefs
    ensures prefs.values == old(prefs.values)[key := JsonArray(MostRecent(ArrayOrEmpty(old(prefs.values), key), uri, cap))]
  {
    var historyArray := ArrayOrEmpty(prefs.values, key);
    var finalArray := SaveLoops(historyArray, uri, cap);
    prefs.values := prefs.values[key := JsonArray(finalArray)];
  }

  /**
   * `saveVideoToHistory(uri, title)`, identical in the main screen and every fragment: the
   * video history with cap 20, plus the "continue" entries `last_video_uri` and
   * `last_video_title`.
   */
  method SaveVideoToHistory(prefs: PrefStore, uri: string, title: string)
    modifies prefs
    ensures prefs.values == old(prefs.values)
      [VIDEO_HISTORY := JsonArray(MostRecent(ArrayOrEmpty(old(prefs.values), VIDEO_HISTORY), uri, VIDEO_CAP))]
      [LAST_VIDEO_URI := StringValue(uri)][LAST_VIDEO_TITLE := StringValue(title)]
  {
    SaveToHistory(prefs, VIDEO_HISTORY, uri, VIDEO_CAP);
    prefs.values := prefs.values[LAST_VIDEO_URI := StringValue(uri)][LAST_VIDEO_TITLE := StringValue(title)];
  }

  /** `saveAudioToHistory(uri)`: the audio history with cap 50 and nothing else. */
  method SaveAudioToHistory(prefs: PrefStore, uri: string)
    modifies prefs
    ensures prefs.values == old(prefs.values)
      [AUDIO_HISTORY := JsonArray(MostRecent(ArrayOrEmpty(old(prefs.values), AUDIO_HISTORY), uri, AUDIO_CAP))]
  {
    SaveToHistory(prefs, AUDIO_HISTORY, uri, AUDIO_CAP);
  }

  // ---------------------------------------------------------------- properties of Without

  /** `Without` keeps exactly the entries different from `uri`. */
  lemma {:induction false} WithoutMembers(h: seq<string>, uri: string)
    ensures forall x :: x in Without(h, uri) <==> x in h && x != uri
  {
    if h != [] {
      WithoutMembers(h[..|h| - 1], uri);
      assert h == h[..|h| - 1] + [h[|h| - 1]];
    }
  }

  /** `Without` keeps the others in their order, each as often as before. */
  lemma {:induction false} WithoutOrder(h: seq<string>, uri: string)
    ensures Subsequence(Without(h, uri), h)
    ensures |Without(h, uri)| == |h| - multiset(h)[uri]
  {
    if h == [] {
    } else {
      var init, last := h[..|h| - 1], h[|h| - 1];
      WithoutOrder(init, uri);
      assert h == init + [last];
      if last != uri {
        SubsequenceRefl([last]);
        SubsequenceAppend(Without(init, uri), init, [last], [last]);
      } else {
        SubsequenceAppend(Without(init, uri), init, [], [last]);
        assert Without(init, uri) + [] == Without(init, uri);
      }
    }
  }

  lemma {:induction false} WithoutAbsent(h: seq<string>, uri: string)
    requires uri !in h
    ensures Without(h, uri) == h
  {
    if h != [] {
      WithoutAbsent(h[..|h| - 1], uri);
      assert h == h[..|h| - 1] + [h[|h| - 1]];
    }
  }

  lemma {:induction false} WithoutNoDuplicates(h: seq<string>, uri: string)
    requires NoDuplicates(h)
    ensures NoDuplicates(Without(h, uri))
  {
    if h != [] {
      var init := h[..|h| - 1];
      WithoutNoDuplicates(init, uri);
      WithoutMembers(init, uri);
      var w := Without(init, uri);
      if h[|h| - 1] != uri {
        var w2 := w + [h[|h| - 1]];
        forall i, j | 0 <= i < j < |w2| ensures w2[i] != w2[j] {
          if j == |w| {
            assert w[i] in init;
          }
        }
      }
    }
  }

  // ---------------------------------------------------------------- properties of MostRecent

  /** After recording, `uri` is the last entry and occurs nowhere else. */
  lemma MostRecentLast(h: seq<string>, uri: string, cap: nat)
    requires cap >= 1
    ensures var r := MostRecent(h, uri, cap);
      r != [] && r[|r| - 1] == uri && uri !in r[..|r| - 1]
  {
    WithoutMembers(h, uri);
    var w := Without(h, uri);
    var s := w + [uri];
    var r := MostRecent(h, uri, cap);
    var k := |s| - |r|;
    assert forall i :: 0 <= i < |r| - 1 ==> r[i] == w[k + i] && w[k + i] in w;
  }

  /** The history never grows beyond its cap. */
  lemma MostRecentBounded(h: seq<string>, uri: string, cap: nat)
    ensures |MostRecent(h, uri, cap)| <= cap
    ensures |MostRecent(h, uri, cap)| <= |h| + 1
  {
    WithoutOrder(h, uri);
  }

  /** Apart from `uri`, the recorded history is the old one with entries dropped, order kept. */
  lemma MostRecentOrder(h: seq<string>, uri: string, cap: nat)
    requires cap >= 1
    ensures var r := MostRecent(h, uri, cap);
      Subsequence(r[..|r| - 1], h)
  {
    WithoutOrder(h, uri);
    var w := Without(h, uri);
    var s := w + [uri];
    var r := MostRecent(h, uri, cap);
    var k := |s| - |r|;
    assert r[..|r| - 1] == w[k..];
    SuffixSubsequence(w, k);
    SubsequenceTrans(w[k..], w, h);
  }

  lemma SuffixSubsequence(w: seq<string>, k: nat)
    requires k <= |w|
    ensures Subsequence(w[k..], w)
  {
    SubsequenceRefl(w[k..]);
    SubsequenceSuffix(w[k..], w[..k], w[k..]);
    assert w[..k] + w[k..] == w;
  }

  /** Playing again something already recorded once does not change the length of a history within its cap. */
  lemma MostRecentReplay(h: seq<string>, uri: string, cap: nat)
    requires multiset(h)[uri] == 1 && |h| <= cap
    ensures |MostRecent(h, uri, cap)| == |h|
  {
    WithoutOrder(h, uri);
  }

  /** A new entry on a full history drops exactly the oldest entry. */
  lemma MostRecentDropsOldest(h: seq<string>, uri: string, cap: nat)
    requires cap >= 1 && uri !in h && |h| == cap
    ensures MostRecent(h, uri, cap) == h[1..] + [uri]
  {
    WithoutAbsent(h, uri);
    assert (h + [uri])[1..] == h[1..] + [uri];
  }

  /** A new entry on a history below its cap is simply appended. */
  lemma MostRecentAppends(h: seq<string>, uri: string, cap: nat)
    requires uri !in h && |h| < cap
    ensures MostRecent(h, uri, cap) == h + [uri]
  {
    WithoutAbsent(h, uri);
  }

  /** A history without duplicates stays without duplicates. */
  lemma MostRecentNoDuplicates(h: seq<string>, uri: string, cap: nat)
    requires NoDuplicates(h)
    ensures NoDuplicates(MostRecent(h, uri, cap))
  {
    WithoutNoDuplicates(h, uri);
    WithoutMembers(h, uri);
    var w := Without(h, uri);
    var s := w + [uri];
    assert NoDuplicates(s) by {
      forall i, j | 0 <= i < j < |s| ensures s[i] != s[j] {
        if j == |w| { assert w[i] in w; }
      }
    }
    var r := MostRecent(h, uri, cap);
    var k := |s| - |r|;
    assert forall i :: 0 <= i < |r| ==> r[i] == s[k + i];
  }

  /** Recording is idempotent: recording the same URI twice equals recording it once. */
  lemma MostRecentIdempotent(h: seq<string>, uri: string, cap: nat)
    requires cap >= 1
    ensures MostRecent(MostRecent(h, uri, cap), uri, cap) == MostRecent(h, uri, cap)
  {
    var r := MostRecent(h, uri, cap);
    MostRecentLast(h, uri, cap);
    var init := r[..|r| - 1];
    assert r == init + [uri];
    WithoutAbsent(init, uri);
    assert Without(r, uri) == init;
  }

  /** Removing a URL removes every copy, keeps the rest in order and truncates nothing. */
  lemma RemoveMeaning(h: seq<string>, url: string)
    ensures url !in Without(h, url)
    ensures forall x :: x != url ==> (x in Without(h, url) <==> x in h)
    ensures Subsequence(Without(h, url), h)
    ensures |Without(h, url)| == |h| - multiset(h)[url]
  {
    WithoutMembers(h, url);
    WithoutOrder(h, url);
  }
}
