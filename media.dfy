/**
 * The media catalogue entities (`VideoItem`, `FolderItem`), the "is this audio?"
 * tests the screens use to split the catalogue, and the item's own formatting of
 * duration, size and quality badge.
 */
module Media {
  import opened Text

  /** One scanned media file. `uri` is the URI's string form. */
  datatype VideoItem = VideoItem(
    id: int,
    title: string,
    path: string,
    uri: string,
    duration: int,
    size: int,
    resolution: string,
    dateAdded: int,
    folderName: string,
    folderId: int,
    mimeType: string)

  /** A folder of the browse screens; `videoCount` is whatever media count the screen shows. */
  datatype FolderItem = FolderItem(id: int, name: string, path: string, videoCount: int)

  // ---------------------------------------------------------------- audio tests

  /** Extensions the list screens treat as audio (matched case-insensitively). */
  const AUDIO_EXTENSIONS: seq<string> := [".mp3", ".m4a", ".flac", ".wav", ".aac"]

  predicate HasAudioExtension(path: string)
  {
    exists e :: e in AUDIO_EXTENSIONS && EndsWithIgnoreCase(path, e)
  }

  /**
   * The catalogue's audio test, shared by the list adapter, the browse screen, the
   * videos screen's initial list and the main screen: an "audio" MIME prefix or an
   * audio extension.
   */
  predicate IsAudioItem(v: VideoItem)
  {
    StartsWith(v.mimeType, "audio") || HasAudioExtension(v.path)
  }

  /**
   * The player's audio test on a URI (chooses the CD visual): the list extensions plus
   * ".ogg", or an "/audio/" path segment.
   */
  predicate IsAudioUri(uri: string)
  {
    HasAudioExtension(uri) || EndsWithIgnoreCase(uri, ".ogg") || Contains(uri, "/audio/")
  }

  /** The player's history filter: the list extensions or "/audio/", but not ".ogg". */
  predicate IsAudioForHistory(uri: string)
  {
    Contains(uri, "/audio/") || HasAudioExtension(uri)
  }

  /** Every URI the history filter skips is one the player also shows as audio. */
  lemma HistoryAudioIsAudio(uri: string)
    ensures IsAudioForHistory(uri) ==> IsAudioUri(uri)
    ensures IsAudioUri(uri) && !IsAudioForHistory(uri) ==> EndsWithIgnoreCase(uri, ".ogg")
  {
  }

  // ---------------------------------------------------------------- duration

  /** Hours, minutes, seconds of a millisecond count, with the JVM's truncating `/` and `%`. */
  function Hours(d: int): int { TruncDiv(d, 3600000) }
  function Minutes(d: int): int { TruncDiv(TruncRem(d, 3600000), 60000) }
  function Seconds(d: int): int { TruncDiv(TruncRem(d, 60000), 1000) }

  /** `getFormattedDuration()`: "HH:MM:SS" when there is at least an hour, else "MM:SS". */
  function FormattedDuration(d: int): (r: string)
    ensures |r| >= 5
  {
    if Hours(d) > 0 then Pad2(Hours(d)) + ":" + Pad2(Minutes(d)) + ":" + Pad2(Seconds(d))
    else Pad2(Minutes(d)) + ":" + Pad2(Seconds(d))
  }

  lemma ClockRanges(d: int)
    requires d >= 0
    ensures 0 <= Minutes(d) < 60 && 0 <= Seconds(d) < 60
  {
  }

  /** For a non-negative duration the parts are a clock reading of it. */
  lemma DurationParts(d: int)
    requires d >= 0
    ensures 0 <= Minutes(d) < 60 && 0 <= Seconds(d) < 60
    ensures Hours(d) * 3600000 + Minutes(d) * 60000 + Seconds(d) * 1000 <= d
      < Hours(d) * 3600000 + Minutes(d) * 60000 + Seconds(d) * 1000 + 1000
  {
    var r := d % 3600000;
    assert TruncRem(d, 3600000) == r;
    assert TruncRem(d, 60000) == r % 60000 by {
      assert d == (d / 3600000) * 3600000 + r;
      assert (d / 3600000) * 3600000 == (d / 3600000 * 60) * 60000;
    }
  }

  lemma HoursRange(d: int)
    requires 0 <= d < 100 * 3600000
    ensures 0 <= Hours(d) < 100
    ensures Hours(d) > 0 <==> d >= 3600000
  {
    assert Hours(d) == d / 3600000;
  }

  lemma Pad2Digits(n: int)
    requires 0 <= n < 100
    ensures |Pad2(n)| == 2 && AllDigits(Pad2(n)) && DigitsValue(Pad2(n)) == n
  {
    DigitsRoundTrip(n);
    if n < 10 {
      var s := Pad2(n);
      assert s == "0" + [DigitChar(n)];
      assert s[..1] == "0";
    } else {
      assert NatToString(n) == NatToString(n / 10) + [DigitChar(n % 10)];
    }
  }

  lemma ClockText(hh: string, mm: string, ss: string)
    requires |hh| == 2 && |mm| == 2 && |ss| == 2
    ensures var r := mm + ":" + ss;
      |r| == 5 && r[2] == ':' && r[3..] == ss && r[..2] == mm
    ensures var r := hh + ":" + mm + ":" + ss;
      |r| == 8 && r[2] == ':' && r[5] == ':' && r[6..] == ss && r[3..5] == mm && r[..2] == hh
  {
  }

  /**
   * Reading the rendered duration back below an hour: "MM:SS", whose digit pairs are the
   * minutes and the seconds.
   */
  lemma ShortDurationReadsBack(d: int)
    requires 0 <= d < 3600000
    ensures var r := FormattedDuration(d);
      |r| == 5 && r[2] == ':' && AllDigits(r[..2]) && AllDigits(r[3..])
      && DigitsValue(r[..2]) == Minutes(d) && DigitsValue(r[3..]) == Seconds(d)
  {
    ClockRanges(d);
    HoursRange(d);
    var m, sec := Minutes(d), Seconds(d);
    Pad2Digits(m);
    Pad2Digits(sec);
    var r := FormattedDuration(d);
    assert r == Pad2(m) + ":" + Pad2(sec);
    ClockText("00", Pad2(m), Pad2(sec));
  }

  /**
   * Reading the rendered duration back from one hour up to 100 hours: "HH:MM:SS", whose
   * digit pairs are the hours, the minutes and the seconds.
   */
  lemma LongDurationReadsBack(d: int)
    requires 3600000 <= d < 100 * 3600000
    ensures var r := FormattedDuration(d);
      |r| == 8 && r[2] == ':' && r[5] == ':' && AllDigits(r[..2]) && AllDigits(r[3..5]) && AllDigits(r[6..])
      && DigitsValue(r[..2]) == Hours(d)
      && DigitsValue(r[3..5]) == Minutes(d) && DigitsValue(r[6..]) == Seconds(d)
  {
    ClockRanges(d);
    HoursRange(d);
    var h, m, sec := Hours(d), Minutes(d), Seconds(d);
    Pad2Digits(h);
    Pad2Digits(m);
    Pad2Digits(sec);
    var r := FormattedDuration(d);
    assert r == Pad2(h) + ":" + Pad2(m) + ":" + Pad2(sec);
    ClockText(Pad2(h), Pad2(m), Pad2(sec));
  }

  // ---------------------------------------------------------------- size

  /** The size label: exact bytes below 1 KiB, otherwise a scaled value and its unit. */
  datatype SizeLabel = Exact(text: string) | Scaled(value: real, unit: string)

  /** `getFormattedSize()`, with the two-decimal rendering of the scaled value left abstract. */
  function FormattedSize(size: int): (r: SizeLabel)
    ensures size < 1024 <==> r.Exact?
  {
    if size >= 1073741824 then Scaled(size as real / 1073741824.0, "GB")
    else if size >= 1048576 then Scaled(size as real / 1048576.0, "MB")
    else if size >= 1024 then Scaled(size as real / 1024.0, "KB")
    else Exact(IntToString(size) + " B")
  }

  /** Small sizes print as their byte count followed by " B"; scaled ones lie in [1, 1024) below 1 TiB. */
  lemma FormattedSizeMeaning(size: int)
    ensures 0 <= size < 1024 ==>
      var t := FormattedSize(size).text;
      EndsWith(t, " B") && ParseInt(t[..|t| - 2]) == Some(size)
    ensures 1024 <= size < 1099511627776 ==>
      1.0 <= FormattedSize(size).value < 1024.0
  {
    if 0 <= size < 1024 {
      var t := FormattedSize(size).text;
      assert t[..|t| - 2] == IntToString(size);
      ParseIntRoundTrip(size);
    }
  }

  // ---------------------------------------------------------------- quality badge

  /** Index of the first `c` in `s`, or -1. */
  function IndexOf(s: string, c: char): (r: int)
    ensures -1 <= r < |s|
    ensures r >= 0 ==> s[r] == c && c !in s[..r]
    ensures r == -1 <==> c !in s
  {
    if s == [] then -1
    else if s[0] == c then 0
    else var i := IndexOf(s[1..], c); if i < 0 then -1 else i + 1
  }

  /** Android's `Uri.parse(s).scheme`: the text before the first ':', none without one. */
  function Scheme(s: string): (r: Option<string>)
    ensures r.None? <==> ':' !in s
    ensures r.Some? ==> ':' !in r.value && |r.value| < |s| && s[..|r.value|] == r.value && s[|r.value|] == ':'
  {
    var i := IndexOf(s, ':');
    if i < 0 then None else Some(s[..i])
  }

  /** `split(c).getOrNull(1)`: the text between the first and the second `c`. */
  function SecondField(s: string, c: char): Option<string>
  {
    var i := IndexOf(s, c);
    if i < 0 then None
    else
      var rest := s[i + 1..];
      var j := IndexOf(rest, c);
      Some(if j < 0 then rest else rest[..j])
  }

  /** The height the badge is computed from: after the first "x" if any; 0 when unparsable. */
  function Height(resolution: string): int
  {
    var field := if 'x' in resolution then SecondField(resolution, 'x') else Some(resolution);
    match field
    case None => 0
    case Some(f) => match ParseInt(f) case Some(h) => h case None => 0
  }

  const THRESHOLDS: seq<int> := [2160, 1080, 720, 480, 360, 240, 144]

  /** The number the badge shows: the largest threshold reached, the height below 144, 0 for none. */
  function Bucket(h: int): int
  {
    if h >= 2160 then 2160
    else if h >= 1080 then 1080
    else if h >= 720 then 720
    else if h >= 480 then 480
    else if h >= 360 then 360
    else if h >= 240 then 240
    else if h >= 144 then 144
    else if h > 0 then h
    else 0
  }

  /** `getQualityBadge()` */
  function QualityBadge(resolution: string): string
  {
    var b := Bucket(Height(resolution));
    if b > 0 then IntToString(b) + "p" else ""
  }

  /** The bucket is the largest threshold not above the height; below 144 it is the height itself. */
  lemma BucketIsLargestThreshold(h: int)
    ensures h >= 144 ==>
      (Bucket(h) in THRESHOLDS && Bucket(h) <= h && forall t :: t in THRESHOLDS && t <= h ==> t <= Bucket(h))
    ensures 0 < h < 144 ==> Bucket(h) == h
    ensures h <= 0 <==> Bucket(h) == 0
  {
  }

  /** A larger height never gets a smaller badge. */
  lemma BucketMonotone(h1: int, h2: int)
    requires h1 <= h2
    ensures Bucket(h1) <= Bucket(h2)
  {
  }

  /** The badge is empty exactly when the parsed height is not positive. */
  lemma BadgeEmpty(resolution: string)
    ensures QualityBadge(resolution) == "" <==> Height(resolution) <= 0
  {
  }

  lemma NatToStringNoX(n: nat)
    ensures 'x' !in NatToString(n)
  {
  }

  /** A "WIDTHxHEIGHT" resolution yields its height; a bare number yields itself. */
  lemma HeightOfResolution(w: nat, h: int)
    requires -0x8000_0000 <= h < 0x8000_0000
    ensures Height(NatToString(w) + "x" + IntToString(h)) == h
    ensures Height(IntToString(h)) == h
  {
    var ws, hs := NatToString(w), IntToString(h);
    NatToStringNoX(w);
    NatToStringNoX(if h < 0 then -h else h);
    assert 'x' !in hs by {
      if h < 0 { assert hs == "-" + NatToString(-h); }
    }
    var s := ws + "x" + hs;
    assert s[|ws|] == 'x';
    assert s[..|ws|] == ws;
    assert IndexOf(s, 'x') == |ws|;
    assert s[|ws| + 1..] == hs;
    ParseIntRoundTrip(h);
  }
}
