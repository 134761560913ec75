/**
 * The precompiled regular expressions of `CompiledPatterns`
 * (video_downloader.py:122-139), written as hand matchers over strings.
 *
 * `MatchAt(p, s, i)` is what `p.match(s, i)` yields for group 1; `Find`
 * and `SearchCapture` give `p.search(s)`: the leftmost position with a
 * match. Every quantifier in these patterns is greedy and is followed by a
 * character its class excludes, so backtracking never changes the match at
 * a given start and each matcher is deterministic.
 */
module Patterns {
  import opened Wrappers
  import opened Strings

  /** The character classes the patterns use (ASCII readings of `\d`, `\w`, `\s`). */
  datatype CharClass =
    | IdChar      // [A-Za-z0-9_-]
    | Alnum       // [0-9A-Za-z]
    | Digit       // \d
    | Word        // \w
    | Space       // \s
    | DigitOrDot  // [\d.]

  predicate IsAsciiLetter(c: char) { 'a' <= c <= 'z' || 'A' <= c <= 'Z' }
  predicate IsDigit(c: char) { '0' <= c <= '9' }

  predicate InClass(c: char, k: CharClass) {
    match k
    case IdChar => IsAsciiLetter(c) || IsDigit(c) || c == '_' || c == '-'
    case Alnum => IsAsciiLetter(c) || IsDigit(c)
    case Digit => IsDigit(c)
    case Word => IsAsciiLetter(c) || IsDigit(c) || c == '_'
    case Space => IsSpace(c)
    case DigitOrDot => IsDigit(c) || c == '.'
  }

  predicate AllIn(s: string, k: CharClass) {
    forall i | 0 <= i < |s| :: InClass(s[i], k)
  }

  /** End of the longest run of `k` characters starting at `i` (a greedy `k*`). */
  function RunEnd(s: string, i: nat, k: CharClass): (j: nat)
    requires i <= |s|
    ensures i <= j <= |s|
    ensures forall m | i <= m < j :: InClass(s[m], k)
    ensures j == |s| || !InClass(s[j], k)
    decreases |s| - i
  {
    if i < |s| && InClass(s[i], k) then RunEnd(s, i + 1, k) else i
  }

  /** `lit` at `i`, then a greedy run of at least `min` characters of `k`, captured. */
  function LitRun(s: string, i: nat, lit: string, k: CharClass, min: nat): Option<string> {
    if StartsAt(s, i, lit) then
      var a := i + |lit|;
      var e := RunEnd(s, a, k);
      if e - a >= min then Some(s[a..e]) else None
    else None
  }

  /** `[?&]` at `i`. */
  predicate QueryMark(s: string, i: nat) {
    i < |s| && (s[i] == '?' || s[i] == '&')
  }

  /** The size group shared by PROGRESS_SIZE and PROGRESS_SPEED: `[\d.]+\s*[KMGT]?i?`, the end of it, before `B`. */
  function SizeBodyEnd(s: string, b: nat): Option<nat>
    requires b <= |s|
  {
    var c := RunEnd(s, b, DigitOrDot);
    if c == b then None
    else
      var d := RunEnd(s, c, Space);
      var e := if d < |s| && s[d] in "KMGT" then d + 1 else d;
      var f := if e < |s| && s[e] == 'i' then e + 1 else e;
      Some(f)
  }

  datatype Pattern =
    | YoutubeVideoId   // [?&]v=([A-Za-z0-9_-]{6,})
    | YoutubeShortUrl  // youtu\.be/([A-Za-z0-9_-]{6,})
    | YoutubeShorts    // /shorts/([A-Za-z0-9_-]{6,})
    | YoutubeEmbed     // /embed/([A-Za-z0-9_-]{6,})
    | YoutubeLive      // /live/([A-Za-z0-9_-]{6,})
    | YoutubePlaylist  // [?&]list=([A-Za-z0-9_-]+)
    | BilibiliBv       // /video/(BV[0-9A-Za-z]{10})
    | BilibiliAv       // /video/(av\d+)
    | BilibiliVideo    // bilibili\.com/video/(\w+)
    | ProgressPercent  // (\d+\.\d+)%
    | ProgressSize     // of\s+([\d.]+\s*[KMGT]?i?B)
    | ProgressSpeed    // at\s+([\d.]+\s*[KMGT]?i?B/s)
    | ProgressEta      // ETA\s+(\d+:\d+)
    | BracketId        // \[([A-Za-z0-9_-]{8,})\]

  /** Group 1 of a match of `p` starting exactly at `i`, if there is one. */
  function MatchAt(p: Pattern, s: string, i: nat): Option<string> {
    match p
    case YoutubeVideoId => if QueryMark(s, i) then LitRun(s, i + 1, "v=", IdChar, 6) else None
    case YoutubeShortUrl => LitRun(s, i, "youtu.be/", IdChar, 6)
    case YoutubeShorts => LitRun(s, i, "/shorts/", IdChar, 6)
    case YoutubeEmbed => LitRun(s, i, "/embed/", IdChar, 6)
    case YoutubeLive => LitRun(s, i, "/live/", IdChar, 6)
    case YoutubePlaylist => if QueryMark(s, i) then LitRun(s, i + 1, "list=", IdChar, 1) else None
    case BilibiliBv => MatchBv(s, i)
    case BilibiliAv => MatchAv(s, i)
    case BilibiliVideo => LitRun(s, i, "bilibili.com/video/", Word, 1)
    case ProgressPercent => MatchPercent(s, i)
    case ProgressSize => MatchSize(s, i, "of", "B")
    case ProgressSpeed => MatchSize(s, i, "at", "B/s")
    case ProgressEta => MatchEta(s, i)
    case BracketId => MatchBracketId(s, i)
  }

  /** `/video/(BV[0-9A-Za-z]{10})` */
  function MatchBv(s: string, i: nat): Option<string> {
    if StartsAt(s, i, "/video/BV") && i + 19 <= |s| && AllIn(s[i + 9..i + 19], Alnum)
    then Some(s[i + 7..i + 19]) else None
  }

  /** `/video/(av\d+)` */
  function MatchAv(s: string, i: nat): Option<string> {
    if StartsAt(s, i, "/video/av") then
      var e := RunEnd(s, i + 9, Digit);
      if e > i + 9 then Some(s[i + 7..e]) else None
    else None
  }

  /** `(\d+\.\d+)%` */
  function MatchPercent(s: string, i: nat): Option<string> {
    if i < |s| then
      var e1 := RunEnd(s, i, Digit);
      if e1 > i && e1 < |s| && s[e1] == '.' then
        var e2 := RunEnd(s, e1 + 1, Digit);
        if e2 > e1 + 1 && e2 < |s| && s[e2] == '%' then Some(s[i..e2]) else None
      else None
    else None
  }

  /** `<lead>\s+([\d.]+\s*[KMGT]?i?<unit>)`: PROGRESS_SIZE with `of`/`B`, PROGRESS_SPEED with `at`/`B/s`. */
  function MatchSize(s: string, i: nat, lead: string, unit: string): Option<string> {
    if StartsAt(s, i, lead) then
      var b := RunEnd(s, i + |lead|, Space);
      if b == i + |lead| then None
      else match SizeBodyEnd(s, b)
        case Some(f) => if StartsAt(s, f, unit) then Some(s[b..f + |unit|]) else None
        case None => None
    else None
  }

  /** `ETA\s+(\d+:\d+)` */
  function MatchEta(s: string, i: nat): Option<string> {
    if StartsAt(s, i, "ETA") then
      var b := RunEnd(s, i + 3, Space);
      var c := RunEnd(s, b, Digit);
      if b > i + 3 && c > b && c < |s| && s[c] == ':' then
        var d := RunEnd(s, c + 1, Digit);
        if d > c + 1 then Some(s[b..d]) else None
      else None
    else None
  }

  /** `\[([A-Za-z0-9_-]{8,})\]` */
  function MatchBracketId(s: string, i: nat): Option<string> {
    if i < |s| && s[i] == '[' then
      var e := RunEnd(s, i + 1, IdChar);
      if e - (i + 1) >= 8 && e < |s| && s[e] == ']' then Some(s[i + 1..e]) else None
    else None
  }

  /** The first position from `from` to `end` where `hit` holds. */
  function FirstHit(hit: nat -> bool, from: nat, end: nat): (r: Option<nat>)
    ensures r.Some? ==> from <= r.value <= end && hit(r.value)
    decreases end + 1 - from
  {
    if from > end then None
    else if hit(from) then Some(from)
    else FirstHit(hit, from + 1, end)
  }

  /** `FirstHit` finds no position before the one it reports, and reports none only when there is none. */
  lemma {:induction false} FirstHitIsFirst(hit: nat -> bool, from: nat, end: nat)
    ensures var r := FirstHit(hit, from, end);
      && (r.Some? ==> forall j | from <= j < r.value :: !hit(j))
      && (r.None? ==> forall j | from <= j <= end :: !hit(j))
    decreases end + 1 - from
  {
    if from <= end && !hit(from) {
      FirstHitIsFirst(hit, from + 1, end);
    }
  }

  lemma {:induction false} FirstHitExactly(hit: nat -> bool, from: nat, i: nat, end: nat)
    requires from <= i <= end && hit(i)
    requires forall j | from <= j < i :: !hit(j)
    ensures FirstHit(hit, from, end) == Some(i)
    decreases i - from
  {
    if from < i {
      FirstHitExactly(hit, from + 1, i, end);
    }
  }

  /** The leftmost start at or after `from` where `p` matches: the position `p.search` reports. */
  function Find(p: Pattern, s: string, from: nat): (r: Option<nat>)
    ensures r.Some? ==> from <= r.value <= |s| && MatchAt(p, s, r.value).Some?
  {
    FirstHit((j: nat) => MatchAt(p, s, j).Some?, from, |s|)
  }

  /** `Find` reports a start where `p` matches with no match before it, and None only when `p` matches nowhere. */
  lemma FindIsLeftmost(p: Pattern, s: string, from: nat)
    ensures var r := Find(p, s, from);
      && (r.Some? ==> MatchAt(p, s, r.value).Some? && forall j | from <= j < r.value :: MatchAt(p, s, j).None?)
      && (r.None? ==> forall j | from <= j <= |s| :: MatchAt(p, s, j).None?)
  {
    var hit := (j: nat) => MatchAt(p, s, j).Some?;
    FirstHitIsFirst(hit, from, |s|);
    var r := Find(p, s, from);
    if r.Some? {
      forall j | from <= j < r.value ensures MatchAt(p, s, j).None? {
        assert !hit(j);
      }
    } else {
      forall j | from <= j <= |s| ensures MatchAt(p, s, j).None? {
        assert !hit(j);
      }
    }
  }

  /** `p.search(s).group(1)`, or None when `p.search(s)` is None. */
  function SearchCapture(p: Pattern, s: string): Option<string> {
    match Find(p, s, 0)
    case Some(i) => MatchAt(p, s, i)
    case None => None
  }

  /** A match anywhere makes the search succeed, and an earlier match is the one reported. */
  lemma SearchFindsLeftmost(p: Pattern, s: string, i: nat)
    requires i <= |s| && MatchAt(p, s, i).Some?
    ensures Find(p, s, 0).Some? && Find(p, s, 0).value <= i
    ensures SearchCapture(p, s).Some?
  {
    FindIsLeftmost(p, s, 0);
  }

  /** A match at `i` with none between `from` and `i` is exactly what `Find` reports. */
  lemma FindExactly(p: Pattern, s: string, from: nat, i: nat)
    requires from <= i <= |s| && MatchAt(p, s, i).Some?
    requires forall j | from <= j < i :: MatchAt(p, s, j).None?
    ensures Find(p, s, from) == Some(i)
  {
    var hit := (j: nat) => MatchAt(p, s, j).Some?;
    forall j | from <= j < i ensures !hit(j) {
    }
    FirstHitExactly(hit, from, i, |s|);
  }

  /** Minimal length of an identifier capture: the `{6,}`, `+` or `{8,}` of the pattern. */
  function MinIdLength(p: Pattern): nat {
    match p
    case YoutubePlaylist => 1
    case BracketId => 8
    case _ => 6
  }

  /** Patterns whose capture is a run of `[A-Za-z0-9_-]`. */
  predicate IsIdPattern(p: Pattern) {
    p.YoutubeVideoId? || p.YoutubeShortUrl? || p.YoutubeShorts? || p.YoutubeEmbed? ||
    p.YoutubeLive? || p.YoutubePlaylist? || p.BracketId?
  }

  /** An identifier capture is at least `MinIdLength(p)` characters of `[A-Za-z0-9_-]`. */
  lemma IdCaptureShape(p: Pattern, s: string, i: nat)
    requires IsIdPattern(p) && MatchAt(p, s, i).Some?
    ensures |MatchAt(p, s, i).value| >= MinIdLength(p)
    ensures AllIn(MatchAt(p, s, i).value, IdChar)
  {
    match p
    case YoutubeVideoId => LitRunShape(s, i + 1, "v=", IdChar, 6);
    case YoutubeShortUrl => LitRunShape(s, i, "youtu.be/", IdChar, 6);
    case YoutubeShorts => LitRunShape(s, i, "/shorts/", IdChar, 6);
    case YoutubeEmbed => LitRunShape(s, i, "/embed/", IdChar, 6);
    case YoutubeLive => LitRunShape(s, i, "/live/", IdChar, 6);
    case YoutubePlaylist => LitRunShape(s, i + 1, "list=", IdChar, 1);
    case BracketId => assert MatchBracketId(s, i).Some?;
  }

  lemma LitRunShape(s: string, i: nat, lit: string, k: CharClass, min: nat)
    requires LitRun(s, i, lit, k, min).Some?
    ensures |LitRun(s, i, lit, k, min).value| >= min && AllIn(LitRun(s, i, lit, k, min).value, k)
  {
  }

  /** A Bilibili capture: `BV` and ten alphanumerics, `av` and digits, or word characters. */
  lemma BilibiliCaptureShape(p: Pattern, s: string, i: nat)
    requires (p.BilibiliBv? || p.BilibiliAv? || p.BilibiliVideo?) && MatchAt(p, s, i).Some?
    ensures var c := MatchAt(p, s, i).value;
      && (p.BilibiliBv? ==> |c| == 12 && c[..2] == "BV" && AllIn(c[2..], Alnum))
      && (p.BilibiliAv? ==> |c| >= 3 && c[..2] == "av" && AllIn(c[2..], Digit))
      && (p.BilibiliVideo? ==> |c| >= 1 && AllIn(c, Word))
  {
    var c := MatchAt(p, s, i).value;
    if p.BilibiliBv? {
      assert s[i..i + 9] == "/video/BV";
      assert c[..2] == s[i + 7..i + 9];
      assert c[2..] == s[i + 9..i + 19];
    } else if p.BilibiliAv? {
      assert s[i..i + 9] == "/video/av";
      assert c[..2] == s[i + 7..i + 9];
    }
  }
}
