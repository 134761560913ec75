// DownloadWorker: one URL, downloaded with retries, cancellable, and the
// yt-dlp command line it runs for each attempt.

module Worker {
  import opened Wrappers
  import opened Strings
  import opened Platform
  import opened CommandLine

  const DefaultRetryCount: nat := 3
  const RetryDelay: nat := 2
  const DefaultSubLangs := "en,zh-TW,zh-Hant"
  const DefaultFormat := "bestvideo[ext=mp4]+bestaudio[ext=m4a]/best[ext=mp4]/best"
  const OutputName := "%(title)s.%(ext)s"
  const BilibiliSite := "https://www.bilibili.com"
  const BilibiliOrigin := "Origin:https://www.bilibili.com"
  const CancelledMessage := "已取消"

  /** What one `_download_once` call reports. */
  datatype Outcome = Outcome(success: bool, message: string)

  /** One `download_finished` signal. */
  datatype Finish = Finish(videoId: string, success: bool, message: string)

  /** The message after the last attempt failed. */
  function ExhaustedMessage(maxRetries: nat, last: string): string {
    "下載失敗（已重試 " + NatToString(maxRetries) + " 次）: " + last
  }

  /** The sleeps before attempts 1 .. n-1 (none before the first): `RETRY_DELAY * attempt` each. */
  function Backoff(n: nat): (r: seq<int>)
    ensures |r| == if n == 0 then 0 else n - 1
  {
    if n <= 1 then [] else Backoff(n - 1) + [RetryDelay * (n - 1)]
  }

  /** The wait before attempt i+1 is `RETRY_DELAY * (i+1)`. */
  lemma {:induction false} BackoffValues(n: nat)
    ensures forall i | 0 <= i < |Backoff(n)| :: Backoff(n)[i] == RetryDelay * (i + 1)
  {
    if n > 1 {
      BackoffValues(n - 1);
    }
  }

  /** Every wait is longer than the one before it, and none exceeds the one before the last allowed attempt. */
  lemma BackoffIncreasing(n: nat, maxRetries: nat)
    requires n <= maxRetries
    ensures forall i, j | 0 <= i < j < |Backoff(n)| :: 0 < Backoff(n)[i] < Backoff(n)[j]
    ensures forall i | 0 <= i < |Backoff(n)| :: Backoff(n)[i] <= RetryDelay * (maxRetries - 1)
  {
    var r := Backoff(n);
    BackoffValues(n);
    forall i, j | 0 <= i < j < |r|
      ensures 0 < r[i] < r[j]
    {
      assert r[i] == RetryDelay * (i + 1) && r[j] == RetryDelay * (j + 1);
    }
  }

  /** How a run ends: attempts made, the finished signal's payload, and the cancel flag afterwards. */
  datatype RetryTrace = RetryTrace(attempts: nat, success: bool, message: string, cancelled: bool)

  /**
   * The retry loop from attempt `a` on. The cancel flag is observed at two checkpoints per attempt, the
   * check before it (number 2a) and the check after it (number 2a+1); `cancelArrives[c]` says that a
   * `cancel()` call has landed by checkpoint c, `download[a]` is what attempt a reports.
   */
  function RetryFrom(a: nat, maxRetries: nat, cancelled: bool, download: seq<Outcome>,
                     cancelArrives: seq<bool>, last: string): (t: RetryTrace)
    requires |download| >= maxRetries && |cancelArrives| >= 2 * maxRetries
    requires a <= maxRetries
    ensures a <= t.attempts <= maxRetries
    ensures t.success ==> a < t.attempts && download[t.attempts - 1].success
    ensures t.success || t.cancelled || t.attempts == maxRetries
    decreases maxRetries - a
  {
    if a == maxRetries then RetryTrace(a, false, ExhaustedMessage(maxRetries, last), cancelled)
    else
      var c := cancelled || cancelArrives[2 * a];
      if c then RetryTrace(a, false, CancelledMessage, true)
      else
        var o := download[a];
        var c2 := cancelArrives[2 * a + 1];
        if o.success || c2 then RetryTrace(a + 1, o.success, o.message, c2)
        else RetryFrom(a + 1, maxRetries, false, download, cancelArrives, o.message)
  }

  /** A whole run, from the first attempt. */
  function Retry(maxRetries: nat, cancelled: bool, download: seq<Outcome>, cancelArrives: seq<bool>): RetryTrace
    requires |download| >= maxRetries && |cancelArrives| >= 2 * maxRetries
  {
    RetryFrom(0, maxRetries, cancelled, download, cancelArrives, "")
  }

  /** Every attempt but the last one failed: the loop stops at the first success. */
  lemma {:induction false} RetryStopsAtFirstSuccess(a: nat, maxRetries: nat, cancelled: bool,
                                                  download: seq<Outcome>, cancelArrives: seq<bool>, last: string)
    requires |download| >= maxRetries && |cancelArrives| >= 2 * maxRetries
    requires a <= maxRetries
    ensures var t := RetryFrom(a, maxRetries, cancelled, download, cancelArrives, last);
      forall j | a <= j < t.attempts - 1 :: !download[j].success
    decreases maxRetries - a
  {
    if a < maxRetries && !(cancelled || cancelArrives[2 * a]) {
      var o := download[a];
      if !(o.success || cancelArrives[2 * a + 1]) {
        RetryStopsAtFirstSuccess(a + 1, maxRetries, false, download, cancelArrives, o.message);
      }
    }
  }

  /** With no cancellation, the first successful attempt ends the run with success. */
  lemma {:induction false} RetrySucceedsAt(a: nat, k: nat, maxRetries: nat, download: seq<Outcome>,
                                          cancelArrives: seq<bool>, last: string)
    requires |download| >= maxRetries && |cancelArrives| >= 2 * maxRetries
    requires a <= k < maxRetries && download[k].success
    requires forall c | 2 * a <= c < 2 * maxRetries :: !cancelArrives[c]
    ensures var t := RetryFrom(a, maxRetries, false, download, cancelArrives, last);
      t.success && t.attempts <= k + 1 && !t.cancelled
    decreases maxRetries - a
  {
    assert !cancelArrives[2 * a] && !cancelArrives[2 * a + 1];
    if !download[a].success {
      RetrySucceedsAt(a + 1, k, maxRetries, download, cancelArrives, download[a].message);
    }
  }

  /** With no cancellation and every attempt failing, all attempts are made and the last message is reported. */
  lemma {:induction false} RetryExhausts(a: nat, maxRetries: nat, download: seq<Outcome>,
                                        cancelArrives: seq<bool>, last: string)
    requires |download| >= maxRetries && |cancelArrives| >= 2 * maxRetries
    requires a < maxRetries
    requires forall j | a <= j < maxRetries :: !download[j].success
    requires forall c | 2 * a <= c < 2 * maxRetries :: !cancelArrives[c]
    ensures RetryFrom(a, maxRetries, false, download, cancelArrives, last)
         == RetryTrace(maxRetries, false, ExhaustedMessage(maxRetries, download[maxRetries - 1].message), false)
    decreases maxRetries - a
  {
    assert !cancelArrives[2 * a] && !cancelArrives[2 * a + 1];
    if a + 1 < maxRetries {
      RetryExhausts(a + 1, maxRetries, download, cancelArrives, download[a].message);
    }
  }

  /** A cancellation before the first check makes no attempt at all. */
  lemma RetryCancelledFirst(maxRetries: nat, download: seq<Outcome>, cancelArrives: seq<bool>)
    requires |download| >= maxRetries && |cancelArrives| >= 2 * maxRetries
    requires maxRetries >= 1
    ensures Retry(maxRetries, true, download, cancelArrives) == RetryTrace(0, false, CancelledMessage, true)
  {
  }

  /**
   * A run that neither succeeds nor is cancelled made every attempt and reports the last one's message; a
   * cancelled one reports "已取消" or, when the flag rose during an attempt, that attempt's own message.
   */
  lemma {:induction false} RetryEarlyExit(a: nat, maxRetries: nat, cancelled: bool, download: seq<Outcome>,
                                         cancelArrives: seq<bool>, last: string)
    requires |download| >= maxRetries && |cancelArrives| >= 2 * maxRetries
    requires a < maxRetries
    ensures var t := RetryFrom(a, maxRetries, cancelled, download, cancelArrives, last);
      !t.success && !t.cancelled ==>
        t.attempts == maxRetries && t.message == ExhaustedMessage(maxRetries, download[maxRetries - 1].message)
    ensures var t := RetryFrom(a, maxRetries, cancelled, download, cancelArrives, last);
      t.cancelled && !t.success ==>
        t.message == CancelledMessage || (t.attempts > a && t.message == download[t.attempts - 1].message)
    decreases maxRetries - a
  {
    if !(cancelled || cancelArrives[2 * a]) {
      var o := download[a];
      if !(o.success || cancelArrives[2 * a + 1]) && a + 1 < maxRetries {
        RetryEarlyExit(a + 1, maxRetries, false, download, cancelArrives, o.message);
      }
    }
  }

  /**
   * A cancellation seen at checkpoint c ends the run there: no attempt starts after it, and the run ends either
   * cancelled or with the success of the attempt the checkpoint followed.
   */
  lemma {:induction false} RetryStopsAtCancel(a: nat, maxRetries: nat, download: seq<Outcome>,
                                             cancelArrives: seq<bool>, last: string, c: nat)
    requires |download| >= maxRetries && |cancelArrives| >= 2 * maxRetries
    requires 2 * a <= c < 2 * maxRetries && cancelArrives[c]
    ensures var t := RetryFrom(a, maxRetries, false, download, cancelArrives, last);
      t.attempts <= (c + 1) / 2 && (t.success || t.cancelled)
    decreases maxRetries - a
  {
    if c >= 2 * a + 2 && !cancelArrives[2 * a] && !download[a].success && !cancelArrives[2 * a + 1] {
      RetryStopsAtCancel(a + 1, maxRetries, download, cancelArrives, download[a].message, c);
    }
  }

  /** One step of the retry loop. */
  lemma RetryUnfold(a: nat, maxRetries: nat, cancelled: bool, download: seq<Outcome>,
                    cancelArrives: seq<bool>, last: string)
    requires |download| >= maxRetries && |cancelArrives| >= 2 * maxRetries
    requires a < maxRetries
    ensures RetryFrom(a, maxRetries, cancelled, download, cancelArrives, last)
         == if cancelled || cancelArrives[2 * a] then RetryTrace(a, false, CancelledMessage, true)
            else if download[a].success || cancelArrives[2 * a + 1]
            then RetryTrace(a + 1, download[a].success, download[a].message, cancelArrives[2 * a + 1])
            else RetryFrom(a + 1, maxRetries, false, download, cancelArrives, download[a].message)
  {
  }

  lemma BackoffStep(n: nat)
    ensures Backoff(n + 1) == Backoff(n) + if n > 0 then [RetryDelay * n] else []
  {
  }

  class DownloadWorker {
    const url: string
    const outputDir: string
    /** `""` stands for no format. */
    const formatId: string
    const includeSubs: bool
    const subLangs: string
    /** `""` stands for no cookie file. */
    const cookieFile: string
    const videoId: string
    const maxRetries: nat
    /** `""` stands for no limit. */
    const rateLimit: string

    var cancelled: bool
    /** The `download_finished` signals emitted. */
    var finished: seq<Finish>
    /** The sleeps taken between attempts, in seconds. */
    ghost var delays: seq<int>

    /** `max_retries` of 0 or None becomes the default 3; an empty `video_id` is extracted from the URL. */
    constructor (url: string, outputDir: string, formatId: string, includeSubs: bool, subLangs: string,
                 cookieFile: string, videoId: string, maxRetries: nat, rateLimit: string)
      ensures this.url == url && this.outputDir == outputDir && this.formatId == formatId
      ensures this.includeSubs == includeSubs && this.subLangs == subLangs && this.cookieFile == cookieFile
      ensures this.videoId == if videoId == "" then ExtractVideoId(url) else videoId
      ensures this.maxRetries == if maxRetries == 0 then DefaultRetryCount else maxRetries
      ensures this.rateLimit == rateLimit
      ensures !cancelled && finished == [] && delays == []
    {
      this.url := url;
      this.outputDir := outputDir;
      this.formatId := formatId;
      this.includeSubs := includeSubs;
      this.subLangs := subLangs;
      this.cookieFile := cookieFile;
      this.videoId := if videoId == "" then ExtractVideoId(url) else videoId;
      this.maxRetries := if maxRetries == 0 then DefaultRetryCount else maxRetries;
      this.rateLimit := rateLimit;
      cancelled := false;
      finished := [];
      delays := [];
    }

    /** `cancel`: raises the flag; the running process is terminated (not modelled). */
    method Cancel()
      modifies this
      ensures cancelled
      ensures finished == old(finished) && delays == old(delays)
    {
      cancelled := true;
    }

    /** Before every attempt after the first, the wait of `RETRY_DELAY * attempt` seconds. */
    method WaitBeforeRetry(attempt: nat, ghost delays0: seq<int>)
      requires delays == delays0 + Backoff(attempt)
      modifies this
      ensures delays == delays0 + Backoff(attempt + 1)
      ensures finished == old(finished) && cancelled == old(cancelled)
    {
      BackoffStep(attempt);
      if attempt > 0 {
        delays := delays + [RetryDelay * attempt];
      }
    }

    /**
     * `run`: the retry loop. Emits exactly one finished signal, whose payload is the one `Retry` specifies,
     * and sleeps `Backoff`: once before every attempt after the first.
     */
    method Run(download: seq<Outcome>, cancelArrives: seq<bool>)
      requires |download| >= maxRetries && |cancelArrives| >= 2 * maxRetries
      modifies this
      ensures var t := Retry(maxRetries, old(cancelled), download, cancelArrives);
        && finished == old(finished) + [Finish(videoId, t.success, t.message)]
        && delays == old(delays) + Backoff(t.attempts)
        && cancelled == t.cancelled
    {
      ghost var t := Retry(maxRetries, cancelled, download, cancelArrives);
      var attempt: nat := 0;
      var message := "";
      while attempt < maxRetries
        invariant attempt <= maxRetries
        invariant RetryFrom(attempt, maxRetries, cancelled, download, cancelArrives, message) == t
        invariant attempt > 0 ==> !cancelled
        invariant finished == old(finished)
        invariant delays == old(delays) + Backoff(attempt)
        decreases maxRetries - attempt
      {
        RetryUnfold(attempt, maxRetries, cancelled, download, cancelArrives, message);
        if cancelArrives[2 * attempt] {
          cancelled := true;
        }
        if cancelled {
          finished := finished + [Finish(videoId, false, CancelledMessage)];
          return;
        }
        WaitBeforeRetry(attempt, old(delays));
        var o := download[attempt];
        if cancelArrives[2 * attempt + 1] {
          cancelled := true;
        }
        if o.success || cancelled {
          finished := finished + [Finish(videoId, o.success, o.message)];
          return;
        }
        message := o.message;
        attempt := attempt + 1;
      }
      finished := finished + [Finish(videoId, false, ExhaustedMessage(maxRetries, message))];
    }

    /**
     * `_build_command`: the fixed prefix, the URL last, and in between exactly the options the settings call
     * for, as yt-dlp reads them back.
     */
    method BuildCommand(platform: Platform, cookieExists: bool) returns (cmd: seq<string>)
      ensures SingleCommandLine(cmd, url, outputDir, rateLimit, cookieFile != "" && cookieExists, cookieFile,
                                platform == Bilibili, if formatId != "" then formatId else DefaultFormat, includeSubs, subLangs)
      ensures Parse(cmd) == Some(Invocation(SingleArgs(outputDir, rateLimit, cookieFile != "" && cookieExists, cookieFile,
                                                       platform == Bilibili, if formatId != "" then formatId else DefaultFormat,
                                                       includeSubs, subLangs), url))
    {
      var cookieOk := cookieFile != "" && cookieExists;
      ghost var bilibili, format := platform == Bilibili, if formatId != "" then formatId else DefaultFormat;
      cmd := ["yt-dlp", "-o", PathJoin(outputDir, OutputName), "--no-playlist", "--progress", "--newline"];
      ghost var before := cmd;
      if rateLimit != "" {
        cmd := cmd + ["--limit-rate", rateLimit];
      }
      assert cmd == before + LimitTokens(rateLimit);
      before := cmd;
      if cookieOk {
        cmd := cmd + ["--cookies", cookieFile];
      }
      assert cmd == before + CookieTokens(cookieOk, cookieFile);
      before := cmd;
      if platform == Bilibili {
        cmd := cmd + ["--referer", BilibiliSite, "--add-header", BilibiliOrigin];
      }
      assert cmd == before + SiteTokens(bilibili);
      before := cmd;
      if formatId != "" {
        cmd := cmd + ["-f", formatId];
      } else {
        cmd := cmd + ["-f", DefaultFormat];
      }
      assert cmd == before + ["-f", format];
      before := cmd;
      if includeSubs {
        cmd := cmd + ["--write-subs", "--write-auto-subs", "--sub-langs", subLangs, "--embed-subs", "--convert-subs", "srt"];
      }
      assert cmd == before + SubsTokens(includeSubs, subLangs);
      cmd := cmd + [url];
      assert cmd == SingleLineTokens(outputDir, rateLimit, cookieOk, cookieFile, bilibili, format, includeSubs, subLangs) + [url];
      SingleLine(outputDir, rateLimit, cookieOk, cookieFile, bilibili, format, includeSubs, subLangs, url);
    }
  }

  function LimitTokens(rateLimit: string): seq<string> {
    if rateLimit != "" then ["--limit-rate", rateLimit] else []
  }

  function CookieTokens(cookieOk: bool, cookieFile: string): seq<string> {
    if cookieOk then ["--cookies", cookieFile] else []
  }

  function SiteTokens(bilibili: bool): seq<string> {
    if bilibili then ["--referer", BilibiliSite, "--add-header", BilibiliOrigin] else []
  }

  function SubsTokens(includeSubs: bool, subLangs: string): seq<string> {
    if includeSubs then ["--write-subs", "--write-auto-subs", "--sub-langs", subLangs, "--embed-subs", "--convert-subs", "srt"] else []
  }

  /** The single-download command line before the URL, part by part. */
  function SingleLineTokens(outputDir: string, rateLimit: string, cookieOk: bool, cookieFile: string,
                            bilibili: bool, format: string, includeSubs: bool, subLangs: string): seq<string> {
    ["yt-dlp", "-o", PathJoin(outputDir, OutputName), "--no-playlist", "--progress", "--newline"]
    + LimitTokens(rateLimit) + CookieTokens(cookieOk, cookieFile) + SiteTokens(bilibili)
    + ["-f", format] + SubsTokens(includeSubs, subLangs)
  }

  /**
   * `_build_command`'s promise: `yt-dlp`, the output option and the three fixed switches first, the URL last, and
   * yt-dlp reads from it exactly the options the settings call for.
   */
  ghost predicate SingleCommandLine(cmd: seq<string>, url: string, outputDir: string, rateLimit: string, cookieOk: bool,
                                    cookieFile: string, bilibili: bool, format: string, includeSubs: bool, subLangs: string) {
    && |cmd| >= 7
    && cmd[..6] == ["yt-dlp", "-o", PathJoin(outputDir, OutputName), "--no-playlist", "--progress", "--newline"]
    && cmd[|cmd| - 1] == url
    && Parse(cmd).Some? && Parse(cmd).value.url == url
    && CommandReads(Parse(cmd).value.args, outputDir, rateLimit, cookieOk, cookieFile, bilibili, format, includeSubs, subLangs)
  }

  /** The single-download line reads back as the options built from the settings, and those say what the settings call for. */
  lemma SingleLine(outputDir: string, rateLimit: string, cookieOk: bool, cookieFile: string,
                   bilibili: bool, format: string, includeSubs: bool, subLangs: string, url: string)
    ensures var cmd := SingleLineTokens(outputDir, rateLimit, cookieOk, cookieFile, bilibili, format, includeSubs, subLangs) + [url];
      && SingleCommandLine(cmd, url, outputDir, rateLimit, cookieOk, cookieFile, bilibili, format, includeSubs, subLangs)
      && Parse(cmd) == Some(Invocation(SingleArgs(outputDir, rateLimit, cookieOk, cookieFile, bilibili, format, includeSubs, subLangs), url))
  {
    var parts := SingleParts(outputDir, rateLimit, cookieOk, cookieFile, bilibili, format, includeSubs, subLangs);
    SingleTokensParts(outputDir, rateLimit, cookieOk, cookieFile, bilibili, format, includeSubs, subLangs);
    ParseParts(parts, url);
    SingleReads(outputDir, rateLimit, cookieOk, cookieFile, bilibili, format, includeSubs, subLangs);
    SinglePrefix(outputDir, rateLimit, cookieOk, cookieFile, bilibili, format, includeSubs, subLangs, url);
  }

  lemma SinglePrefix(outputDir: string, rateLimit: string, cookieOk: bool, cookieFile: string,
                     bilibili: bool, format: string, includeSubs: bool, subLangs: string, url: string)
    ensures var cmd := SingleLineTokens(outputDir, rateLimit, cookieOk, cookieFile, bilibili, format, includeSubs, subLangs) + [url];
      && |cmd| >= 7 && cmd[|cmd| - 1] == url
      && cmd[..6] == ["yt-dlp", "-o", PathJoin(outputDir, OutputName), "--no-playlist", "--progress", "--newline"]
  {
    HeadAndLast(["yt-dlp", "-o", PathJoin(outputDir, OutputName), "--no-playlist", "--progress", "--newline"],
                LimitTokens(rateLimit), CookieTokens(cookieOk, cookieFile), SiteTokens(bilibili),
                ["-f", format], SubsTokens(includeSubs, subLangs), url);
  }

  lemma HeadAndLast<T>(h: seq<T>, a: seq<T>, b: seq<T>, c: seq<T>, d: seq<T>, e: seq<T>, x: T)
    ensures var r := h + a + b + c + d + e + [x];
      |r| > |h| && r[..|h|] == h && r[|r| - 1] == x
  {
    var r := h + a + b + c + d + e + [x];
    assert r == h + (a + b + c + d + e + [x]);
  }

  /**
   * What yt-dlp reads from the single-download command line: the output template, the limit, the cookie file,
   * the bilibili referer and Origin header, the format, and the subtitle options, each exactly when its setting calls for it.
   */
  ghost predicate CommandReads(args: seq<Arg>, outputDir: string, rateLimit: string, cookieOk: bool, cookieFile: string,
                               bilibili: bool, format: string, includeSubs: bool, subLangs: string) {
    && ValueOf(args, Output) == Some(PathJoin(outputDir, OutputName))
    && Has(args, NoPlaylist) && Has(args, Progress) && Has(args, Newline)
    && ValueOf(args, LimitRate) == (if rateLimit != "" then Some(rateLimit) else None)
    && ValueOf(args, Cookies) == (if cookieOk then Some(cookieFile) else None)
    && ValueOf(args, Referer) == (if bilibili then Some(BilibiliSite) else None)
    && Values(args, AddHeader) == (if bilibili then [BilibiliOrigin] else [])
    && ValueOf(args, Format) == Some(format)
    && (Has(args, WriteSubs) <==> includeSubs)
    && (Has(args, WriteAutoSubs) <==> includeSubs)
    && (Has(args, EmbedSubs) <==> includeSubs)
    && ValueOf(args, SubLangs) == (if includeSubs then Some(subLangs) else None)
    && ValueOf(args, ConvertSubs) == (if includeSubs then Some("srt") else None)
    && NoBatchOnly(args)
  }

  // The command in six parts, in the order the settings are applied.

  function OutputArgs(outputDir: string): seq<Arg> {
    [Valued(Output, PathJoin(outputDir, OutputName)), Switch(NoPlaylist), Switch(Progress), Switch(Newline)]
  }

  function LimitArgs(rateLimit: string): seq<Arg> {
    if rateLimit != "" then [Valued(LimitRate, rateLimit)] else []
  }

  function CookieArgs(cookieOk: bool, cookieFile: string): seq<Arg> {
    if cookieOk then [Valued(Cookies, cookieFile)] else []
  }

  function SiteArgs(bilibili: bool): seq<Arg> {
    if bilibili then [Valued(Referer, BilibiliSite), Valued(AddHeader, BilibiliOrigin)] else []
  }

  function FormatArgs(format: string): seq<Arg> {
    [Valued(Format, format)]
  }

  function SubsArgs(includeSubs: bool, subLangs: string): seq<Arg> {
    if includeSubs then
      [Switch(WriteSubs), Switch(WriteAutoSubs), Valued(SubLangs, subLangs), Switch(EmbedSubs), Valued(ConvertSubs, "srt")]
    else []
  }

  function SingleParts(outputDir: string, rateLimit: string, cookieOk: bool, cookieFile: string,
                       bilibili: bool, format: string, includeSubs: bool, subLangs: string): seq<seq<Arg>> {
    [OutputArgs(outputDir), LimitArgs(rateLimit), CookieArgs(cookieOk, cookieFile),
     SiteArgs(bilibili), FormatArgs(format), SubsArgs(includeSubs, subLangs)]
  }

  /** The options of the single-download command, part after part. */
  function SingleArgs(outputDir: string, rateLimit: string, cookieOk: bool, cookieFile: string,
                      bilibili: bool, format: string, includeSubs: bool, subLangs: string): seq<Arg> {
    Concat(SingleParts(outputDir, rateLimit, cookieOk, cookieFile, bilibili, format, includeSubs, subLangs))
  }

  /** Which of the six parts gives option `f` (6: none of them). */
  function SingleGroup(f: Flag): nat {
    match f
    case Output | NoPlaylist | Progress | Newline => 0
    case LimitRate => 1
    case Cookies => 2
    case Referer | AddHeader => 3
    case Format => 4
    case WriteSubs | WriteAutoSubs | SubLangs | EmbedSubs | ConvertSubs => 5
    case _ => 6
  }

  /** `p` is well formed and all its options belong to part `i`. */
  ghost predicate PartOf(p: seq<Arg>, i: nat) {
    WellFormed(p) && InGroup(p, SingleGroup, i)
  }

  lemma OutputPart(outputDir: string)
    ensures PartOf(OutputArgs(outputDir), 0)
    ensures Render(OutputArgs(outputDir)) == ["-o", PathJoin(outputDir, OutputName), "--no-playlist", "--progress", "--newline"]
  {
    OutputPartAt(PathJoin(outputDir, OutputName));
  }

  lemma OutputPartAt(template: string)
    ensures var o := [Valued(Output, template), Switch(NoPlaylist), Switch(Progress), Switch(Newline)];
      PartOf(o, 0) && Render(o) == ["-o", template, "--no-playlist", "--progress", "--newline"]
  {
    var o := [Valued(Output, template), Switch(NoPlaylist), Switch(Progress), Switch(Newline)];
    assert Render(o[3..]) == ["--newline"];
    assert Render(o[2..]) == ["--progress", "--newline"];
    assert Render(o[1..]) == ["--no-playlist", "--progress", "--newline"];
  }

  lemma LimitPart(rateLimit: string)
    ensures PartOf(LimitArgs(rateLimit), 1) && Render(LimitArgs(rateLimit)) == LimitTokens(rateLimit)
  {
  }

  lemma CookiePart(cookieOk: bool, cookieFile: string)
    ensures PartOf(CookieArgs(cookieOk, cookieFile), 2) && Render(CookieArgs(cookieOk, cookieFile)) == CookieTokens(cookieOk, cookieFile)
  {
  }

  lemma SitePart(bilibili: bool)
    ensures PartOf(SiteArgs(bilibili), 3) && Render(SiteArgs(bilibili)) == SiteTokens(bilibili)
  {
    var s := SiteArgs(bilibili);
    if bilibili {
      assert Render(s[1..]) == ["--add-header", BilibiliOrigin];
    }
  }

  lemma FormatPart(format: string)
    ensures PartOf(FormatArgs(format), 4) && Render(FormatArgs(format)) == ["-f", format]
  {
  }

  lemma SubsPart(includeSubs: bool, subLangs: string)
    ensures PartOf(SubsArgs(includeSubs, subLangs), 5) && Render(SubsArgs(includeSubs, subLangs)) == SubsTokens(includeSubs, subLangs)
  {
    var u := SubsArgs(includeSubs, subLangs);
    if includeSubs {
      assert Render(u[4..]) == ["--convert-subs", "srt"];
      assert Render(u[3..]) == ["--embed-subs", "--convert-subs", "srt"];
      assert Render(u[2..]) == ["--sub-langs", subLangs, "--embed-subs", "--convert-subs", "srt"];
      assert Render(u[1..]) == ["--write-auto-subs", "--sub-langs", subLangs, "--embed-subs", "--convert-subs", "srt"];
    }
  }

  /** The tokens are those of the six parts, which are well formed. */
  lemma SingleTokensParts(outputDir: string, rateLimit: string, cookieOk: bool, cookieFile: string,
                          bilibili: bool, format: string, includeSubs: bool, subLangs: string)
    ensures var parts := SingleParts(outputDir, rateLimit, cookieOk, cookieFile, bilibili, format, includeSubs, subLangs);
      && SingleLineTokens(outputDir, rateLimit, cookieOk, cookieFile, bilibili, format, includeSubs, subLangs)
         == ["yt-dlp"] + RenderParts(parts)
      && AllWellFormed(parts)
  {
    AllParts(outputDir, rateLimit, cookieOk, cookieFile, bilibili, format, includeSubs, subLangs);
    SixGrouped(OutputArgs(outputDir), LimitArgs(rateLimit), CookieArgs(cookieOk, cookieFile),
               SiteArgs(bilibili), FormatArgs(format), SubsArgs(includeSubs, subLangs));
    assert ["yt-dlp", "-o", PathJoin(outputDir, OutputName), "--no-playlist", "--progress", "--newline"]
        == ["yt-dlp"] + Render(OutputArgs(outputDir));
  }

  /** The options of the six parts say what the settings call for. */
  lemma SingleReads(outputDir: string, rateLimit: string, cookieOk: bool, cookieFile: string,
                    bilibili: bool, format: string, includeSubs: bool, subLangs: string)
    ensures CommandReads(SingleArgs(outputDir, rateLimit, cookieOk, cookieFile, bilibili, format, includeSubs, subLangs),
                         outputDir, rateLimit, cookieOk, cookieFile, bilibili, format, includeSubs, subLangs)
  {
    AllParts(outputDir, rateLimit, cookieOk, cookieFile, bilibili, format, includeSubs, subLangs);
    SixReads(OutputArgs(outputDir), LimitArgs(rateLimit), CookieArgs(cookieOk, cookieFile),
             SiteArgs(bilibili), FormatArgs(format), SubsArgs(includeSubs, subLangs));
    OutputRead(outputDir);
    LimitRead(rateLimit, cookieOk, cookieFile, format);
    SiteRead(bilibili);
    SubsRead(includeSubs, subLangs);
  }

  /** Each part is of its own group and renders to its tokens. */
  lemma AllParts(outputDir: string, rateLimit: string, cookieOk: bool, cookieFile: string,
                 bilibili: bool, format: string, includeSubs: bool, subLangs: string)
    ensures PartOf(OutputArgs(outputDir), 0) && PartOf(LimitArgs(rateLimit), 1) && PartOf(CookieArgs(cookieOk, cookieFile), 2)
    ensures PartOf(SiteArgs(bilibili), 3) && PartOf(FormatArgs(format), 4) && PartOf(SubsArgs(includeSubs, subLangs), 5)
    ensures Render(OutputArgs(outputDir)) == ["-o", PathJoin(outputDir, OutputName), "--no-playlist", "--progress", "--newline"]
    ensures Render(LimitArgs(rateLimit)) == LimitTokens(rateLimit)
    ensures Render(CookieArgs(cookieOk, cookieFile)) == CookieTokens(cookieOk, cookieFile)
    ensures Render(SiteArgs(bilibili)) == SiteTokens(bilibili)
    ensures Render(FormatArgs(format)) == ["-f", format]
    ensures Render(SubsArgs(includeSubs, subLangs)) == SubsTokens(includeSubs, subLangs)
  {
    OutputPart(outputDir);
    LimitPart(rateLimit);
    CookiePart(cookieOk, cookieFile);
    SitePart(bilibili);
    FormatPart(format);
    SubsPart(includeSubs, subLangs);
  }

  /** In six parts, part `i` of group `i`, each option is read from its own part. */
  lemma SixReads(p0: seq<Arg>, p1: seq<Arg>, p2: seq<Arg>, p3: seq<Arg>, p4: seq<Arg>, p5: seq<Arg>)
    requires PartOf(p0, 0) && PartOf(p1, 1) && PartOf(p2, 2) && PartOf(p3, 3) && PartOf(p4, 4) && PartOf(p5, 5)
    ensures ReadsFromParts(Concat([p0, p1, p2, p3, p4, p5]), p0, p1, p2, p3, p4, p5)
  {
    SixGrouped(p0, p1, p2, p3, p4, p5);
    var parts := [p0, p1, p2, p3, p4, p5];
    ReadEarly(parts);
    ReadLate(parts);
  }

  lemma SixGrouped(p0: seq<Arg>, p1: seq<Arg>, p2: seq<Arg>, p3: seq<Arg>, p4: seq<Arg>, p5: seq<Arg>)
    requires PartOf(p0, 0) && PartOf(p1, 1) && PartOf(p2, 2) && PartOf(p3, 3) && PartOf(p4, 4) && PartOf(p5, 5)
    ensures var parts := [p0, p1, p2, p3, p4, p5];
      && ["yt-dlp"] + Render(p0) + Render(p1) + Render(p2) + Render(p3) + Render(p4) + Render(p5)
         == ["yt-dlp"] + RenderParts(parts)
      && Grouped(parts, SingleGroup) && AllWellFormed(parts)
  {
    Build6(p0, p1, p2, p3, p4, p5, SingleGroup);
  }

  /** Each option the single-download command may carry, read from the part it belongs to. */
  ghost predicate ReadsFromParts(args: seq<Arg>, p0: seq<Arg>, p1: seq<Arg>, p2: seq<Arg>, p3: seq<Arg>, p4: seq<Arg>, p5: seq<Arg>) {
    && ValueOf(args, Output) == ValueOf(p0, Output)
    && (Has(args, NoPlaylist) <==> Has(p0, NoPlaylist))
    && (Has(args, Progress) <==> Has(p0, Progress))
    && (Has(args, Newline) <==> Has(p0, Newline))
    && ValueOf(args, LimitRate) == ValueOf(p1, LimitRate)
    && ValueOf(args, Cookies) == ValueOf(p2, Cookies)
    && ValueOf(args, Referer) == ValueOf(p3, Referer)
    && Values(args, AddHeader) == Values(p3, AddHeader)
    && ValueOf(args, Format) == ValueOf(p4, Format)
    && (Has(args, WriteSubs) <==> Has(p5, WriteSubs))
    && (Has(args, WriteAutoSubs) <==> Has(p5, WriteAutoSubs))
    && (Has(args, EmbedSubs) <==> Has(p5, EmbedSubs))
    && ValueOf(args, SubLangs) == ValueOf(p5, SubLangs)
    && ValueOf(args, ConvertSubs) == ValueOf(p5, ConvertSubs)
    && NoBatchOnly(args)
  }

  lemma ReadEarly(parts: seq<seq<Arg>>)
    requires Grouped(parts, SingleGroup) && |parts| == 6
    ensures var args := Concat(parts);
      && ValueOf(args, Output) == ValueOf(parts[0], Output)
      && (Has(args, NoPlaylist) <==> Has(parts[0], NoPlaylist))
      && (Has(args, Progress) <==> Has(parts[0], Progress))
      && (Has(args, Newline) <==> Has(parts[0], Newline))
      && ValueOf(args, LimitRate) == ValueOf(parts[1], LimitRate)
      && ValueOf(args, Cookies) == ValueOf(parts[2], Cookies)
      && ValueOf(args, Referer) == ValueOf(parts[3], Referer)
      && Values(args, AddHeader) == Values(parts[3], AddHeader)
      && ValueOf(args, Format) == ValueOf(parts[4], Format)
  {
    ReadFixed(parts);
    ReadSettings(parts);
  }

  lemma ReadFixed(parts: seq<seq<Arg>>)
    requires Grouped(parts, SingleGroup) && |parts| == 6
    ensures ValueOf(Concat(parts), Output) == ValueOf(parts[0], Output)
    ensures Has(Concat(parts), NoPlaylist) <==> Has(parts[0], NoPlaylist)
    ensures Has(Concat(parts), Progress) <==> Has(parts[0], Progress)
    ensures Has(Concat(parts), Newline) <==> Has(parts[0], Newline)
  {
    ValueFrom(parts, SingleGroup, Output, 0);
    ReadSwitches(parts);
  }

  lemma ReadSwitches(parts: seq<seq<Arg>>)
    requires Grouped(parts, SingleGroup) && |parts| == 6
    ensures Has(Concat(parts), NoPlaylist) <==> Has(parts[0], NoPlaylist)
    ensures Has(Concat(parts), Progress) <==> Has(parts[0], Progress)
    ensures Has(Concat(parts), Newline) <==> Has(parts[0], Newline)
  {
    HasFrom(parts, SingleGroup, NoPlaylist, 0);
    HasFrom(parts, SingleGroup, Progress, 0);
    HasFrom(parts, SingleGroup, Newline, 0);
  }

  lemma ReadSettings(parts: seq<seq<Arg>>)
    requires Grouped(parts, SingleGroup) && |parts| == 6
    ensures ValueOf(Concat(parts), LimitRate) == ValueOf(parts[1], LimitRate)
    ensures ValueOf(Concat(parts), Cookies) == ValueOf(parts[2], Cookies)
    ensures ValueOf(Concat(parts), Referer) == ValueOf(parts[3], Referer)
    ensures Values(Concat(parts), AddHeader) == Values(parts[3], AddHeader)
    ensures ValueOf(Concat(parts), Format) == ValueOf(parts[4], Format)
  {
    ValueFrom(parts, SingleGroup, LimitRate, 1);
    ValueFrom(parts, SingleGroup, Cookies, 2);
    ValueFrom(parts, SingleGroup, Referer, 3);
    ValuesFrom(parts, AddHeader);
    ValueFrom(parts, SingleGroup, Format, 4);
  }

  lemma ValuesFrom(parts: seq<seq<Arg>>, f: Flag)
    requires Grouped(parts, SingleGroup) && SingleGroup(f) < |parts|
    ensures Values(Concat(parts), f) == Values(parts[SingleGroup(f)], f)
  {
    ReadGroupedValues(parts, SingleGroup, f);
  }

  lemma ReadLate(parts: seq<seq<Arg>>)
    requires Grouped(parts, SingleGroup) && |parts| == 6
    ensures var args := Concat(parts);
      && (Has(args, WriteSubs) <==> Has(parts[5], WriteSubs))
      && (Has(args, WriteAutoSubs) <==> Has(parts[5], WriteAutoSubs))
      && (Has(args, EmbedSubs) <==> Has(parts[5], EmbedSubs))
      && ValueOf(args, SubLangs) == ValueOf(parts[5], SubLangs)
      && ValueOf(args, ConvertSubs) == ValueOf(parts[5], ConvertSubs)
      && NoBatchOnly(args)
  {
    ReadSubs(parts);
    ReadAbsent(parts);
  }

  /**
   * None of the batch-only options: the browser user agent, skipping the download, trimming file names, the
   * retry counts and the two error-tolerance switches.
   */
  ghost predicate NoBatchOnly(args: seq<Arg>) {
    && !Has(args, UserAgent) && !Has(args, SkipDownload) && !Has(args, TrimFilenames)
    && !Has(args, Retries) && !Has(args, FragmentRetries) && !Has(args, NoWarnings) && !Has(args, IgnoreErrors)
  }

  lemma ReadAbsent(parts: seq<seq<Arg>>)
    requires Grouped(parts, SingleGroup) && |parts| == 6
    ensures NoBatchOnly(Concat(parts))
  {
    BatchOnlyFlags();
    NowhereIn(parts, SingleGroup, UserAgent);
    NowhereIn(parts, SingleGroup, SkipDownload);
    NowhereIn(parts, SingleGroup, TrimFilenames);
    NowhereIn(parts, SingleGroup, Retries);
    NowhereIn(parts, SingleGroup, FragmentRetries);
    NowhereIn(parts, SingleGroup, NoWarnings);
    NowhereIn(parts, SingleGroup, IgnoreErrors);
  }

  lemma BatchOnlyFlags()
    ensures SingleGroup(UserAgent) == 6 && SingleGroup(SkipDownload) == 6 && SingleGroup(TrimFilenames) == 6
    ensures SingleGroup(Retries) == 6 && SingleGroup(FragmentRetries) == 6
    ensures SingleGroup(NoWarnings) == 6 && SingleGroup(IgnoreErrors) == 6
  {
  }

  lemma ReadSubs(parts: seq<seq<Arg>>)
    requires Grouped(parts, SingleGroup) && |parts| == 6
    ensures Has(Concat(parts), WriteSubs) <==> Has(parts[5], WriteSubs)
    ensures Has(Concat(parts), WriteAutoSubs) <==> Has(parts[5], WriteAutoSubs)
    ensures Has(Concat(parts), EmbedSubs) <==> Has(parts[5], EmbedSubs)
    ensures ValueOf(Concat(parts), SubLangs) == ValueOf(parts[5], SubLangs)
    ensures ValueOf(Concat(parts), ConvertSubs) == ValueOf(parts[5], ConvertSubs)
  {
    HasFrom(parts, SingleGroup, WriteSubs, 5);
    HasFrom(parts, SingleGroup, WriteAutoSubs, 5);
    HasFrom(parts, SingleGroup, EmbedSubs, 5);
    ValueFrom(parts, SingleGroup, SubLangs, 5);
    ValueFrom(parts, SingleGroup, ConvertSubs, 5);
  }

  /** The output part on its own. */
  lemma OutputRead(outputDir: string)
    ensures var o := OutputArgs(outputDir);
      ValueOf(o, Output) == Some(PathJoin(outputDir, OutputName)) && Has(o, NoPlaylist) && Has(o, Progress) && Has(o, Newline)
  {
    var o := OutputArgs(outputDir);
    var head, tail := [Valued(Output, PathJoin(outputDir, OutputName))], [Switch(NoPlaylist), Switch(Progress), Switch(Newline)];
    assert o == head + tail;
    ValueFromInit(head, tail, Output);
    assert o[1].flag == NoPlaylist && o[2].flag == Progress && o[3].flag == Newline;
  }

  /** The one-option parts on their own. */
  lemma LimitRead(rateLimit: string, cookieOk: bool, cookieFile: string, format: string)
    ensures ValueOf(LimitArgs(rateLimit), LimitRate) == (if rateLimit != "" then Some(rateLimit) else None)
    ensures ValueOf(CookieArgs(cookieOk, cookieFile), Cookies) == (if cookieOk then Some(cookieFile) else None)
    ensures ValueOf(FormatArgs(format), Format) == Some(format)
  {
  }

  /** The Bilibili part on its own. */
  lemma SiteRead(bilibili: bool)
    ensures ValueOf(SiteArgs(bilibili), Referer) == (if bilibili then Some(BilibiliSite) else None)
    ensures Values(SiteArgs(bilibili), AddHeader) == (if bilibili then [BilibiliOrigin] else [])
  {
    var s := SiteArgs(bilibili);
    if bilibili {
      assert s[1..] == [Valued(AddHeader, BilibiliOrigin)];
      assert s[..1] == [Valued(Referer, BilibiliSite)];
    }
  }

  /** The subtitle part on its own. */
  lemma SubsRead(includeSubs: bool, subLangs: string)
    ensures var u := SubsArgs(includeSubs, subLangs);
      && (Has(u, WriteSubs) <==> includeSubs)
      && (Has(u, WriteAutoSubs) <==> includeSubs)
      && (Has(u, EmbedSubs) <==> includeSubs)
      && ValueOf(u, SubLangs) == (if includeSubs then Some(subLangs) else None)
      && ValueOf(u, ConvertSubs) == (if includeSubs then Some("srt") else None)
  {
    var u := SubsArgs(includeSubs, subLangs);
    if includeSubs {
      assert u[0].flag == WriteSubs && u[1].flag == WriteAutoSubs && u[3].flag == EmbedSubs;
      assert u == u[..3] + u[3..];
      ValueOfAppend(u[..3], u[3..], SubLangs);
      AbsentValues(u[3..], SubLangs);
    }
  }
}
