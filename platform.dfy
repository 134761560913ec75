/**
 * `PlatformUtils` (video_downloader.py:200-243): platform detection by
 * case-insensitive substring, and identifier extraction by an ordered list
 * of patterns whose first hit wins.
 */
module Platform {
  import opened Wrappers
  import opened Strings
  import opened Patterns

  datatype Platform = YouTube | Bilibili | Unknown

  /** The name `detect_platform` returns, also the prefix of the `<platform>_cookie_file` setting. */
  function Name(p: Platform): string {
    match p
    case YouTube => "youtube"
    case Bilibili => "bilibili"
    case Unknown => "unknown"
  }

  predicate HasYoutubeMarker(u: string) {
    Contains(u, "youtube.com") || Contains(u, "youtu.be")
  }

  predicate HasBilibiliMarker(u: string) {
    Contains(u, "bilibili.com") || Contains(u, "b23.tv")
  }

  /** `detect_platform`: markers are looked for in the lower-cased URL, YouTube first. */
  function DetectPlatform(url: string): Platform {
    var low := Lower(url);
    if HasYoutubeMarker(low) then YouTube
    else if HasBilibiliMarker(low) then Bilibili
    else Unknown
  }

  /** Detection does not depend on letter case. */
  lemma {:induction false} DetectPlatformIgnoresCase(url: string)
    ensures DetectPlatform(Lower(url)) == DetectPlatform(url)
  {
    LowerIdempotent(url);
  }

  /** The YouTube markers take precedence: a URL naming both platforms is YouTube. */
  lemma DetectPlatformYoutubeFirst(url: string)
    ensures DetectPlatform(url) == YouTube <==> HasYoutubeMarker(Lower(url))
    ensures DetectPlatform(url) == Bilibili <==> !HasYoutubeMarker(Lower(url)) && HasBilibiliMarker(Lower(url))
  {
  }

  const YoutubePatterns: seq<Pattern> :=
    [YoutubeVideoId, YoutubeShortUrl, YoutubeShorts, YoutubeEmbed, YoutubeLive, YoutubePlaylist]

  const BilibiliPatterns: seq<Pattern> := [BilibiliBv, BilibiliAv, BilibiliVideo]

  /** The capture of the first pattern in `ps` whose search succeeds. */
  function FirstCapture(ps: seq<Pattern>, s: string): Option<string>
    decreases |ps|
  {
    if ps == [] then None
    else match SearchCapture(ps[0], s)
      case Some(c) => Some(c)
      case None => FirstCapture(ps[1..], s)
  }

  /** The first pattern to hit decides the capture; when none hits there is none. */
  lemma {:induction false} FirstCaptureIsFirstHit(ps: seq<Pattern>, s: string, k: nat)
    requires k < |ps| && SearchCapture(ps[k], s).Some?
    requires forall j | 0 <= j < k :: SearchCapture(ps[j], s).None?
    ensures FirstCapture(ps, s) == SearchCapture(ps[k], s)
    decreases k
  {
    if k > 0 {
      FirstCaptureIsFirstHit(ps[1..], s, k - 1);
    }
  }

  lemma {:induction false} FirstCaptureNone(ps: seq<Pattern>, s: string)
    ensures FirstCapture(ps, s).None? <==> forall j | 0 <= j < |ps| :: SearchCapture(ps[j], s).None?
    decreases |ps|
  {
    if ps != [] {
      FirstCaptureNone(ps[1..], s);
      assert forall j | 1 <= j < |ps| :: ps[j] == ps[1..][j - 1];
    }
  }

  /** A capture of `FirstCapture` is a match of one of the patterns at some position. */
  lemma {:induction false} FirstCaptureWitness(ps: seq<Pattern>, s: string)
    requires FirstCapture(ps, s).Some?
    ensures exists k, i | 0 <= k < |ps| && 0 <= i <= |s| :: MatchAt(ps[k], s, i) == FirstCapture(ps, s)
    decreases |ps|
  {
    match SearchCapture(ps[0], s)
    case Some(c) =>
      var i := Find(ps[0], s, 0).value;
      assert MatchAt(ps[0], s, i) == Some(c);
    case None =>
      FirstCaptureWitness(ps[1..], s);
      var k, i :| 0 <= k < |ps| - 1 && 0 <= i <= |s| && MatchAt(ps[1..][k], s, i) == FirstCapture(ps[1..], s);
      assert MatchAt(ps[k + 1], s, i) == FirstCapture(ps, s);
  }

  /** `extract_video_id`: the first pattern's capture, `bili_`-prefixed on Bilibili, else the stripped URL. */
  function ExtractVideoId(url: string): string {
    match DetectPlatform(url)
    case YouTube => FirstCapture(YoutubePatterns, url).GetOr(Strip(url))
    case Bilibili =>
      (match FirstCapture(BilibiliPatterns, url)
       case Some(c) => "bili_" + c
       case None => Strip(url))
    case Unknown => Strip(url)
  }

  /** `extract_playlist_id`: the `list=` parameter, else the stripped URL. */
  function ExtractPlaylistId(url: string): (r: string)
    ensures SearchCapture(YoutubePlaylist, url).None? ==> r == Strip(url)
    ensures SearchCapture(YoutubePlaylist, url).Some? ==> |r| >= 1 && AllIn(r, IdChar)
  {
    match SearchCapture(YoutubePlaylist, url)
    case Some(c) =>
      var i := Find(YoutubePlaylist, url, 0).value;
      IdCaptureShape(YoutubePlaylist, url, i);
      c
    case None => Strip(url)
  }

  /** The Bilibili identifier forms: `BV` and ten alphanumerics, `av` and digits, or a word token. */
  predicate IsBilibiliToken(c: string) {
    || (|c| == 12 && c[..2] == "BV" && AllIn(c[2..], Alnum))
    || (|c| >= 3 && c[..2] == "av" && AllIn(c[2..], Digit))
    || (|c| >= 1 && AllIn(c, Word))
  }

  /** An unknown URL is its own identifier, stripped. */
  lemma ExtractVideoIdUnknown(url: string)
    requires DetectPlatform(url) == Unknown
    ensures ExtractVideoId(url) == Strip(url)
  {
    assert !HasYoutubeMarker(Lower(url)) && !HasBilibiliMarker(Lower(url));
  }

  /**
   * A YouTube URL yields the capture of the first of the six patterns that
   * hits, at least one `[A-Za-z0-9_-]` character long, or the stripped URL
   * when none hits.
   */
  lemma ExtractVideoIdYoutube(url: string)
    requires DetectPlatform(url) == YouTube
    ensures FirstCapture(YoutubePatterns, url).None? ==> ExtractVideoId(url) == Strip(url)
    ensures FirstCapture(YoutubePatterns, url).Some? ==>
      var r := ExtractVideoId(url);
      r == FirstCapture(YoutubePatterns, url).value && |r| >= 1 && AllIn(r, IdChar)
  {
    IdCapturesOnly(YoutubePatterns, url);
  }

  /** When every pattern of `ps` captures identifiers, so does `FirstCapture`. */
  lemma {:induction false} IdCapturesOnly(ps: seq<Pattern>, s: string)
    requires forall k | 0 <= k < |ps| :: IsIdPattern(ps[k])
    ensures FirstCapture(ps, s).Some? ==> |FirstCapture(ps, s).value| >= 1 && AllIn(FirstCapture(ps, s).value, IdChar)
    decreases |ps|
  {
    if ps != [] {
      match SearchCapture(ps[0], s)
      case Some(c) =>
        IdCaptureShape(ps[0], s, Find(ps[0], s, 0).value);
      case None =>
        IdCapturesOnly(ps[1..], s);
    }
  }

  /** A Bilibili URL yields `bili_` and a Bilibili token, or the stripped URL when no pattern hits. */
  lemma {:induction false} ExtractVideoIdBilibili(url: string)
    requires DetectPlatform(url) == Bilibili
    ensures FirstCapture(BilibiliPatterns, url).None? ==> ExtractVideoId(url) == Strip(url)
    ensures FirstCapture(BilibiliPatterns, url).Some? ==>
      var c := FirstCapture(BilibiliPatterns, url).value;
      ExtractVideoId(url) == "bili_" + c && IsBilibiliToken(c)
  {
    if FirstCapture(BilibiliPatterns, url).Some? {
      FirstCaptureWitness(BilibiliPatterns, url);
      var k, i :| 0 <= k < 3 && 0 <= i <= |url| && MatchAt(BilibiliPatterns[k], url, i) == FirstCapture(BilibiliPatterns, url);
      BilibiliCaptureShape(BilibiliPatterns[k], url, i);
    }
  }

  /** A run of class `k` characters of length `n` at `i`, not followed by another one, is the greedy run. */
  lemma {:induction false} RunEndOver(s: string, i: nat, k: CharClass, n: nat)
    requires i + n <= |s| && AllIn(s[i..i + n], k)
    requires i + n == |s| || !InClass(s[i + n], k)
    ensures RunEnd(s, i, k) == i + n
    decreases n
  {
    if n > 0 {
      assert InClass(s[i..i + n][0], k);
      assert s[i + 1..i + n] == s[i..i + n][1..];
      RunEndOver(s, i + 1, k, n - 1);
    }
  }

  const WatchPrefix := "https://www.youtube.com/watch?v="

  lemma WatchUrlIsYoutube(tail: string)
    ensures DetectPlatform(WatchPrefix + tail) == YouTube
  {
    var url := WatchPrefix + tail;
    assert forall j | 0 <= j < |WatchPrefix| :: !('A' <= WatchPrefix[j] <= 'Z');
    assert Lower(WatchPrefix) == WatchPrefix;
    LowerAppend(WatchPrefix, tail);
    assert Lower(url)[12..23] == WatchPrefix[12..23] == "youtube.com";
    ContainsAt(Lower(url), 12, "youtube.com");
  }

  lemma WatchUrlMatch(id: string, rest: string)
    requires |id| >= 6 && AllIn(id, IdChar)
    requires rest == [] || !InClass(rest[0], IdChar)
    ensures MatchAt(YoutubeVideoId, WatchPrefix + id + rest, 29) == Some(id)
  {
    var url := WatchPrefix + id + rest;
    assert QueryMark(url, 29);
    assert url[30..32] == "v=";
    assert url[32..32 + |id|] == id;
    RunEndOver(url, 32, IdChar, |id|);
  }

  lemma WatchUrlFind(id: string, rest: string)
    requires |id| >= 6 && AllIn(id, IdChar)
    requires rest == [] || !InClass(rest[0], IdChar)
    ensures Find(YoutubeVideoId, WatchPrefix + id + rest, 0) == Some(29)
  {
    var url := WatchPrefix + id + rest;
    assert forall j | 0 <= j < 29 :: url[j] == WatchPrefix[j];
    assert forall j | 0 <= j < 29 :: !QueryMark(url, j);
    WatchUrlMatch(id, rest);
    FindExactly(YoutubeVideoId, url, 0, 29);
  }

  /** `https://www.youtube.com/watch?v=<id>` followed by a non-identifier character or nothing yields `<id>`. */
  lemma WatchUrlId(id: string, rest: string)
    requires |id| >= 6 && AllIn(id, IdChar)
    requires rest == [] || !InClass(rest[0], IdChar)
    ensures ExtractVideoId(WatchPrefix + id + rest) == id
  {
    var url := WatchPrefix + id + rest;
    WatchUrlIsYoutube(id + rest);
    assert url == WatchPrefix + (id + rest);
    WatchUrlMatch(id, rest);
    WatchUrlFind(id, rest);
    FirstCaptureIsFirstHit(YoutubePatterns, url, 0);
  }
}
