// BatchDownloadWorker: a batch's URLs downloaded one after the other, with the
// stop/pause/resume switches and the success/failed/skipped counters.

module Batch {
  import opened Wrappers
  import opened Strings
  import opened Platform
  import opened CommandLine
  import opened BatchCommand
  import opened Progress

  /** The batch's counters (`self.stats`). */
  datatype Tally = Tally(success: nat, failed: nat, skipped: nat)

  function Plus(a: Tally, b: Tally): Tally {
    Tally(a.success + b.success, a.failed + b.failed, a.skipped + b.skipped)
  }

  lemma PlusAssoc(a: Tally, b: Tally, c: Tally)
    ensures Plus(Plus(a, b), c) == Plus(a, Plus(b, c))
  {
  }

  /** What became of one visited URL. */
  datatype ItemResult = Skipped | Succeeded | Failed

  /** A history entry the batch records: download directory, video ID and URL. */
  datatype HistoryAdd = HistoryAdd(path: string, videoId: string, url: string)

  /** Whether the batch consults and updates the download history: it has a main window and a download directory. */
  predicate UsesHistory(s: Settings, hasMainWindow: bool) {
    hasMainWindow && s.downloadPath != ""
  }

  /** `subtitle_lang`, defaulting when the key is missing. */
  function SubtitleLang(s: Settings): string {
    s.subtitleLang.GetOr(DefaultSubtitleLang)
  }

  /** `trim_filename_length`, defaulting when the key is missing. */
  function TrimLength(s: Settings): int {
    s.trimFilenameLength.GetOr(DefaultTrimLength)
  }

  /** `os.path.exists` of the cookie file for `url`'s platform, given the set of files that exist. */
  predicate CookieExists(s: Settings, existing: set<string>, url: string) {
    CookieFileFor(s, DetectPlatform(url)) in existing
  }

  /** The first half of `_build_ytdlp_command`: the program, then the cookie, output, format and subtitle blocks. */
  function LeadTokens(s: Settings, p: Platform, cookieExists: bool): seq<string> {
    ["yt-dlp"] + CookieTokens(CookieOk(s, p, cookieExists), CookieFileFor(s, p)) + OutputTokens(s.downloadPath, OutputTemplate(s))
    + ["-f", QualityFormat(s.quality)] + SubsTokens(s.downloadSubtitle, s.autoSubtitle, SubtitleLang(s), s.subtitleOnly)
  }

  /** The command `_build_ytdlp_command` builds for `url` on platform `p`, `cookieExists` saying whether the cookie file exists. */
  function BatchCommandFor(s: Settings, url: string, p: Platform, cookieExists: bool): seq<string> {
    LeadTokens(s, p, cookieExists) + SkipTokens(s.subtitleOnly) + TrimTokens(s.autoTrimFilename, TrimLength(s))
    + FixedTokens + SiteTokens(p == Bilibili) + [url]
  }

  /** The blocks before the URL are the batch tokens the settings call for. */
  lemma BlocksAreTokens(s: Settings, url: string, p: Platform, cookieExists: bool)
    ensures BatchCommandFor(s, url, p, cookieExists)
         == BatchTokens(CookieOk(s, p, cookieExists), CookieFileFor(s, p), s.downloadPath, OutputTemplate(s),
                        QualityFormat(s.quality), s.downloadSubtitle, s.autoSubtitle, SubtitleLang(s), s.subtitleOnly,
                        s.autoTrimFilename, TrimLength(s), p == Bilibili) + [url]
  {
  }

  /** The command built for `url` on its detected platform. */
  function BatchCommandOf(s: Settings, existing: set<string>, url: string): seq<string> {
    BatchCommandFor(s, url, DetectPlatform(url), CookieExists(s, existing, url))
  }

  /** `_build_ytdlp_command`'s promise, for every platform and cookie state. */
  lemma BatchCommandForKeepsPromise(s: Settings, url: string, p: Platform, cookieExists: bool)
    ensures BatchCommandLine(BatchCommandFor(s, url, p, cookieExists), url, CookieOk(s, p, cookieExists), CookieFileFor(s, p),
                             s.downloadPath, OutputTemplate(s), QualityFormat(s.quality), s.downloadSubtitle, s.autoSubtitle,
                             SubtitleLang(s), s.subtitleOnly, s.autoTrimFilename, TrimLength(s), p == Bilibili)
  {
    BlocksAreTokens(s, url, p, cookieExists);
    BatchLineTokens(CookieOk(s, p, cookieExists), CookieFileFor(s, p), s.downloadPath, OutputTemplate(s),
                    QualityFormat(s.quality), s.downloadSubtitle, s.autoSubtitle, SubtitleLang(s), s.subtitleOnly,
                    s.autoTrimFilename, TrimLength(s), p == Bilibili, url);
  }

  /** What `_build_ytdlp_command` promises for `url` under settings `s`. */
  ghost predicate CommandFor(cmd: seq<string>, s: Settings, existing: set<string>, url: string) {
    var p := DetectPlatform(url);
    BatchCommandLine(cmd, url, CookieOk(s, p, CookieExists(s, existing, url)), CookieFileFor(s, p), s.downloadPath,
                     OutputTemplate(s), QualityFormat(s.quality), s.downloadSubtitle, s.autoSubtitle, SubtitleLang(s),
                     s.subtitleOnly, s.autoTrimFilename, TrimLength(s), p == Bilibili)
  }

  /** Every command built for a URL keeps the builder's promise. */
  lemma BatchCommandKeepsPromise(s: Settings, existing: set<string>, url: string)
    ensures CommandFor(BatchCommandOf(s, existing, url), s, existing, url)
  {
    BatchCommandForKeepsPromise(s, url, DetectPlatform(url), CookieExists(s, existing, url));
  }

  /** A URL already in the history is skipped; otherwise the download's own rule decides. */
  function ItemOutcome(s: Settings, hasMainWindow: bool, alreadyDownloaded: bool, run: ProcessRun): ItemResult {
    if UsesHistory(s, hasMainWindow) && alreadyDownloaded then Skipped
    else if RunSucceeds(run) then Succeeded
    else Failed
  }

  /** The outcomes of the first `n` URLs. */
  function Outcomes(s: Settings, hasMainWindow: bool, already: seq<bool>, runs: seq<ProcessRun>, n: nat): (os: seq<ItemResult>)
    requires n <= |already| && n <= |runs|
    ensures |os| == n
  {
    if n == 0 then [] else Outcomes(s, hasMainWindow, already, runs, n - 1) + [ItemOutcome(s, hasMainWindow, already[n - 1], runs[n - 1])]
  }

  function Count(r: ItemResult): Tally {
    match r
    case Succeeded => Tally(1, 0, 0)
    case Failed => Tally(0, 1, 0)
    case Skipped => Tally(0, 0, 1)
  }

  /** The counters a run of outcomes adds up to. */
  function TallyOf(os: seq<ItemResult>): Tally
    decreases |os|
  {
    if os == [] then Tally(0, 0, 0) else Plus(TallyOf(os[..|os| - 1]), Count(os[|os| - 1]))
  }

  /** Each visited URL raises exactly one counter by one. */
  lemma {:induction false} TallyCountsEachOnce(os: seq<ItemResult>)
    ensures TallyOf(os).success + TallyOf(os).failed + TallyOf(os).skipped == |os|
    decreases |os|
  {
    if os != [] {
      TallyCountsEachOnce(os[..|os| - 1]);
    }
  }

  /** The history entry, if any, that visiting `url` with outcome `o` adds. */
  function HistoryStep(s: Settings, hasMainWindow: bool, url: string, o: ItemResult): seq<HistoryAdd> {
    if o == Succeeded && UsesHistory(s, hasMainWindow) then [HistoryAdd(s.downloadPath, ExtractVideoId(url), url)] else []
  }

  /** The history entries for the successful ones among the first `|os|` URLs. */
  function HistoryOf(s: Settings, hasMainWindow: bool, urls: seq<string>, os: seq<ItemResult>): (h: seq<HistoryAdd>)
    requires |os| <= |urls|
    decreases |os|
  {
    if os == [] then []
    else
      var n := |os| - 1;
      HistoryOf(s, hasMainWindow, urls, os[..n]) + HistoryStep(s, hasMainWindow, urls[n], os[n])
  }

  /** `e` records the successful download of one of the first `|os|` URLs, in a batch that keeps a history. */
  ghost predicate RecordsSuccess(e: HistoryAdd, s: Settings, hasMainWindow: bool, urls: seq<string>, os: seq<ItemResult>)
    requires |os| <= |urls|
  {
    && UsesHistory(s, hasMainWindow) && e.path == s.downloadPath
    && exists k | 0 <= k < |os| :: os[k] == Succeeded && e.url == urls[k] && e.videoId == ExtractVideoId(urls[k])
  }

  /** A history entry is recorded only for a URL that was downloaded successfully, and only with a history to record in. */
  lemma {:induction false} HistoryOnlyAfterSuccess(s: Settings, hasMainWindow: bool, urls: seq<string>, os: seq<ItemResult>)
    requires |os| <= |urls|
    ensures forall e | e in HistoryOf(s, hasMainWindow, urls, os) :: RecordsSuccess(e, s, hasMainWindow, urls, os)
    decreases |os|
  {
    if os != [] {
      var n := |os| - 1;
      var init := os[..n];
      HistoryOnlyAfterSuccess(s, hasMainWindow, urls, init);
      var h0 := HistoryOf(s, hasMainWindow, urls, init);
      forall e | e in HistoryOf(s, hasMainWindow, urls, os)
        ensures RecordsSuccess(e, s, hasMainWindow, urls, os)
      {
        if e in h0 {
          assert RecordsSuccess(e, s, hasMainWindow, urls, init);
          var k :| 0 <= k < n && init[k] == Succeeded && e.url == urls[k] && e.videoId == ExtractVideoId(urls[k]);
          assert os[k] == init[k];
        } else {
          assert os[n] == Succeeded && e.url == urls[n];
        }
      }
    }
  }

  /** Without a history nothing is recorded; with one, one entry per successful URL. */
  lemma {:induction false} HistoryCountsSuccesses(s: Settings, hasMainWindow: bool, urls: seq<string>, os: seq<ItemResult>)
    requires |os| <= |urls|
    ensures |HistoryOf(s, hasMainWindow, urls, os)| == if UsesHistory(s, hasMainWindow) then TallyOf(os).success else 0
    decreases |os|
  {
    if os != [] {
      HistoryCountsSuccesses(s, hasMainWindow, urls, os[..|os| - 1]);
    }
  }

  /** The URLs handed to yt-dlp among the first `|os|`: the visited ones not skipped. */
  function DownloadedOf(urls: seq<string>, os: seq<ItemResult>): (d: seq<string>)
    requires |os| <= |urls|
    ensures |d| <= |os|
    decreases |os|
  {
    if os == [] then []
    else
      var n := |os| - 1;
      DownloadedOf(urls, os[..n]) + (if os[n] != Skipped then [urls[n]] else [])
  }

  /** The command builder for settings `s`, given the set of files that exist. */
  function Builder(s: Settings, existing: set<string>): string -> seq<string> {
    url => BatchCommandOf(s, existing, url)
  }

  /** `build` agrees with the command builder wherever the builder is consulted. */
  ghost predicate Builds(build: string -> seq<string>, s: Settings, existing: set<string>) {
    forall url {:trigger BatchCommandOf(s, existing, url)} :: build(url) == BatchCommandOf(s, existing, url)
  }

  lemma BuilderBuilds(s: Settings, existing: set<string>)
    ensures Builds(Builder(s, existing), s, existing)
  {
  }

  /** The commands `build` makes for the first `|os|` URLs: one for each URL not skipped. */
  function CommandsWith(build: string -> seq<string>, urls: seq<string>, os: seq<ItemResult>): seq<seq<string>>
    requires |os| <= |urls|
    decreases |os|
  {
    if os == [] then []
    else
      var n := |os| - 1;
      CommandsWith(build, urls, os[..n]) + (if os[n] != Skipped then [build(urls[n])] else [])
  }

  /** The `k`-th command is `build` applied to the `k`-th URL handed to yt-dlp. */
  lemma {:induction false} CommandsWithMatch(build: string -> seq<string>, urls: seq<string>, os: seq<ItemResult>)
    requires |os| <= |urls|
    ensures var cs, d := CommandsWith(build, urls, os), DownloadedOf(urls, os);
      && |cs| == |d|
      && forall k | 0 <= k < |d| :: cs[k] == build(d[k])
    decreases |os|
  {
    if os != [] {
      var n := |os| - 1;
      CommandsWithMatch(build, urls, os[..n]);
      var cs0, d0 := CommandsWith(build, urls, os[..n]), DownloadedOf(urls, os[..n]);
      if os[n] != Skipped {
        var cs, d := cs0 + [build(urls[n])], d0 + [urls[n]];
        assert CommandsWith(build, urls, os) == cs && DownloadedOf(urls, os) == d;
        assert forall k | 0 <= k < |d0| :: cs[k] == cs0[k] && d[k] == d0[k];
      } else {
        assert CommandsWith(build, urls, os) == cs0 && DownloadedOf(urls, os) == d0;
      }
    }
  }

  /** The `k`-th command is the one built for the `k`-th URL handed to yt-dlp. */
  lemma CommandsMatchDownloads(s: Settings, existing: set<string>, urls: seq<string>, os: seq<ItemResult>)
    requires |os| <= |urls|
    ensures var cs, d := CommandsWith(Builder(s, existing), urls, os), DownloadedOf(urls, os);
      && |cs| == |d|
      && forall k | 0 <= k < |d| :: cs[k] == BatchCommandOf(s, existing, d[k])
  {
    CommandsWithMatch(Builder(s, existing), urls, os);
  }

  /** A download that reads the worker as stopped before its output ends. */
  predicate Interrupted(r: ProcessRun) {
    !r.exit.StartFailed? && r.stopAt < |r.lines|
  }

  /** Whether visiting a URL runs yt-dlp, which can see a stop while it reads the output. */
  predicate Stopping(s: Settings, hasMainWindow: bool, alreadyDownloaded: bool, r: ProcessRun) {
    !(UsesHistory(s, hasMainWindow) && alreadyDownloaded) && Interrupted(r)
  }

  /**
   * How many URLs a run visits, from URL `i` on, when the worker is `alive` there: it stops at the first URL where
   * `stops` says a stop request came before its check, or after a download that saw a stop.
   */
  function VisitsFrom(s: Settings, hasMainWindow: bool, stops: seq<bool>, already: seq<bool>, runs: seq<ProcessRun>,
                      alive: bool, i: nat): (n: nat)
    requires |already| == |stops| && |runs| == |stops| && i <= |stops|
    ensures i <= n <= |stops|
    decreases |stops| - i
  {
    if i == |stops| || !alive || stops[i] then i
    else VisitsFrom(s, hasMainWindow, stops, already, runs, !Stopping(s, hasMainWindow, already[i], runs[i]), i + 1)
  }

  function Visits(s: Settings, hasMainWindow: bool, running: bool, stops: seq<bool>, already: seq<bool>,
                  runs: seq<ProcessRun>): nat
    requires |already| == |stops| && |runs| == |stops|
  {
    VisitsFrom(s, hasMainWindow, stops, already, runs, running, 0)
  }

  /** URL `j` is begun exactly when the worker was running, no stop came up to its check and no earlier download saw one. */
  lemma {:induction false} VisitsFromExactly(s: Settings, hasMainWindow: bool, stops: seq<bool>, already: seq<bool>,
                                             runs: seq<ProcessRun>, alive: bool, i: nat, j: nat)
    requires |already| == |stops| && |runs| == |stops| && i <= j < |stops|
    ensures j < VisitsFrom(s, hasMainWindow, stops, already, runs, alive, i)
      <==> alive && (forall k | i <= k <= j :: !stops[k])
           && forall k | i <= k < j :: !Stopping(s, hasMainWindow, already[k], runs[k])
    decreases |stops| - i
  {
    if alive && !stops[i] && i < j {
      VisitsFromExactly(s, hasMainWindow, stops, already, runs, !Stopping(s, hasMainWindow, already[i], runs[i]), i + 1, j);
    }
  }

  lemma VisitsExactly(s: Settings, hasMainWindow: bool, running: bool, stops: seq<bool>, already: seq<bool>,
                      runs: seq<ProcessRun>, j: nat)
    requires |already| == |stops| && |runs| == |stops| && j < |stops|
    ensures j < Visits(s, hasMainWindow, running, stops, already, runs)
      <==> running && (forall k | 0 <= k <= j :: !stops[k])
           && forall k | 0 <= k < j :: !Stopping(s, hasMainWindow, already[k], runs[k])
  {
    VisitsFromExactly(s, hasMainWindow, stops, already, runs, running, 0, j);
  }

  /** `1, 2, …, n`: the indices `enumerate(urls, 1)` reports. */
  function Ordinals(n: nat): (r: seq<nat>)
    ensures |r| == n && forall k | 0 <= k < n :: r[k] == k + 1
  {
    if n == 0 then [] else Ordinals(n - 1) + [n]
  }

  /** One more outcome extends every record of the run by that URL's contribution. */
  lemma OutcomeStep(s: Settings, hasMainWindow: bool, build: string -> seq<string>, urls: seq<string>, os: seq<ItemResult>,
                    o: ItemResult)
    requires |os| < |urls|
    ensures TallyOf(os + [o]) == Plus(TallyOf(os), Count(o))
    ensures HistoryOf(s, hasMainWindow, urls, os + [o]) == HistoryOf(s, hasMainWindow, urls, os) + HistoryStep(s, hasMainWindow, urls[|os|], o)
    ensures CommandsWith(build, urls, os + [o]) == CommandsWith(build, urls, os) + (if o != Skipped then [build(urls[|os|])] else [])
  {
    assert (os + [o])[..|os|] == os;
  }

  class BatchDownloadWorker {
    const taskId: int
    const urls: seq<string>
    const settings: Settings
    const hasMainWindow: bool
    var running: bool
    var paused: bool
    var stats: Tally
    /** The `progress_update` signal: the 1-based index of each URL begun. */
    var progressUpdates: seq<nat>
    /** The command lines handed to yt-dlp. */
    var commands: seq<seq<string>>
    /** The `add_to_download_history` calls made on the main window. */
    var historyAdds: seq<HistoryAdd>
    /** The `task_finished` signal, with the counters it carries. */
    var finished: seq<Tally>

    constructor (taskId: int, urls: seq<string>, settings: Settings, hasMainWindow: bool)
      ensures this.taskId == taskId && this.urls == urls && this.settings == settings && this.hasMainWindow == hasMainWindow
      ensures running && !paused && stats == Tally(0, 0, 0)
      ensures progressUpdates == [] && commands == [] && historyAdds == [] && finished == []
    {
      this.taskId := taskId;
      this.urls := urls;
      this.settings := settings;
      this.hasMainWindow := hasMainWindow;
      running := true;
      paused := false;
      stats := Tally(0, 0, 0);
      progressUpdates := [];
      commands := [];
      historyAdds := [];
      finished := [];
    }

    method Stop()
      modifies this
      ensures !running
      ensures paused == old(paused) && stats == old(stats) && progressUpdates == old(progressUpdates)
      ensures commands == old(commands) && historyAdds == old(historyAdds) && finished == old(finished)
    {
      running := false;
    }

    method Pause()
      modifies this
      ensures paused
      ensures running == old(running) && stats == old(stats) && progressUpdates == old(progressUpdates)
      ensures commands == old(commands) && historyAdds == old(historyAdds) && finished == old(finished)
    {
      paused := true;
    }

    method Resume()
      modifies this
      ensures !paused
      ensures running == old(running) && stats == old(stats) && progressUpdates == old(progressUpdates)
      ensures commands == old(commands) && historyAdds == old(historyAdds) && finished == old(finished)
    {
      paused := false;
    }

    /**
     * `run`: the URLs in order, each begun only while the worker is running; `stops[i]` says a stop request came
     * before URL `i`'s check, `already[i]` is `is_downloaded`'s answer for it, `runs[i]` is what its yt-dlp process
     * does, and `existing` the files that exist. `task_finished` is emitted however the loop ends.
     */
    method Run(stops: seq<bool>, already: seq<bool>, runs: seq<ProcessRun>, existing: set<string>)
      requires |stops| == |urls| && |already| == |urls| && |runs| == |urls|
      modifies this
      ensures var n := Visits(settings, hasMainWindow, old(running), stops, already, runs);
        && Reached(n, already, runs, old(progressUpdates), old(stats), old(historyAdds), old(commands), Builder(settings, existing))
        && finished == old(finished) + [stats]
        && paused == old(paused)
        && (n < |urls| ==> !running)
    {
      BuilderBuilds(settings, existing);
      VisitAll(stops, already, runs, existing, Builder(settings, existing));
      finished := finished + [stats];
    }

    /** The loop of `run`, up to the `task_finished` signal. */
    method VisitAll(stops: seq<bool>, already: seq<bool>, runs: seq<ProcessRun>, existing: set<string>,
                    ghost build: string -> seq<string>)
      requires |stops| == |urls| && |already| == |urls| && |runs| == |urls|
      requires Builds(build, settings, existing)
      modifies this
      ensures var n := Visits(settings, hasMainWindow, old(running), stops, already, runs);
        && Reached(n, already, runs, old(progressUpdates), old(stats), old(historyAdds), old(commands), build)
        && finished == old(finished)
        && paused == old(paused)
        && (n < |urls| ==> !running)
    {
      ghost var n := Visits(settings, hasMainWindow, running, stops, already, runs);
      var i := 0;
      while i < |urls|
        invariant i <= |urls|
        invariant VisitsFrom(settings, hasMainWindow, stops, already, runs, running, i) == n
        invariant Reached(i, already, runs, old(progressUpdates), old(stats), old(historyAdds), old(commands), build)
        invariant finished == old(finished) && paused == old(paused)
      {
        var go := Visit(i, stops, already, runs, existing, n, old(progressUpdates), old(stats), old(historyAdds), old(commands), build);
        if !go {
          return;
        }
        i := i + 1;
      }
    }

    /** One turn of `run`'s loop: the stop check for URL `i`, then, while running, its visit. */
    method Visit(i: nat, stops: seq<bool>, already: seq<bool>, runs: seq<ProcessRun>, existing: set<string>, ghost n: nat,
                 ghost p0: seq<nat>, ghost t0: Tally, ghost h0: seq<HistoryAdd>, ghost c0: seq<seq<string>>,
                 ghost build: string -> seq<string>)
      returns (go: bool)
      requires i < |urls| && |stops| == |urls| && |already| == |urls| && |runs| == |urls|
      requires VisitsFrom(settings, hasMainWindow, stops, already, runs, running, i) == n
      requires Reached(i, already, runs, p0, t0, h0, c0, build) && Builds(build, settings, existing)
      modifies this
      ensures go ==> (VisitsFrom(settings, hasMainWindow, stops, already, runs, running, i + 1) == n
                      && Reached(i + 1, already, runs, p0, t0, h0, c0, build))
      ensures !go ==> n == i && !running && Reached(i, already, runs, p0, t0, h0, c0, build)
      ensures finished == old(finished) && paused == old(paused)
    {
      if stops[i] {
        Stop();
      }
      if !running {
        return false;
      }
      Advance(i, already, runs, existing, p0, t0, h0, c0, build);
      return true;
    }

    /** What `run` has done after visiting the first `i` URLs, starting from the logs `p0`, `h0`, `c0` and counters `t0`, `build` making the commands. */
    ghost predicate Reached(i: nat, already: seq<bool>, runs: seq<ProcessRun>,
                            p0: seq<nat>, t0: Tally, h0: seq<HistoryAdd>, c0: seq<seq<string>>, build: string -> seq<string>)
      requires i <= |urls| && |already| == |urls| && |runs| == |urls|
      reads this`progressUpdates, this`stats, this`historyAdds, this`commands
    {
      var os := Outcomes(settings, hasMainWindow, already, runs, i);
      && progressUpdates == p0 + Ordinals(i)
      && stats == Plus(t0, TallyOf(os))
      && historyAdds == h0 + HistoryOf(settings, hasMainWindow, urls, os)
      && commands == c0 + CommandsWith(build, urls, os)
    }

    /** Visiting URL `i` takes `run` one URL further. */
    method Advance(i: nat, already: seq<bool>, runs: seq<ProcessRun>, existing: set<string>,
                   ghost p0: seq<nat>, ghost t0: Tally, ghost h0: seq<HistoryAdd>, ghost c0: seq<seq<string>>,
                   ghost build: string -> seq<string>)
      requires i < |urls| && |already| == |urls| && |runs| == |urls|
      requires Reached(i, already, runs, p0, t0, h0, c0, build) && Builds(build, settings, existing)
      modifies this
      ensures Reached(i + 1, already, runs, p0, t0, h0, c0, build)
      ensures running == (old(running) && !Stopping(settings, hasMainWindow, already[i], runs[i]))
      ensures finished == old(finished) && paused == old(paused)
    {
      ghost var o := ItemOutcome(settings, hasMainWindow, already[i], runs[i]);
      ghost var os := Outcomes(settings, hasMainWindow, already, runs, i);
      OutcomeStep(settings, hasMainWindow, build, urls, os, o);
      VisitItem(i, already[i], runs[i], existing);
      PlusAssoc(t0, TallyOf(os), Count(o));
      AppendAssoc(p0, Ordinals(i), [i + 1]);
      AppendAssoc(h0, HistoryOf(settings, hasMainWindow, urls, os), HistoryStep(settings, hasMainWindow, urls[i], o));
      AppendAssoc(c0, CommandsWith(build, urls, os), if o != Skipped then [build(urls[i])] else []);
    }

    /** `_download_single` once the command is built; what it shows and logs is not recorded here. */
    static method Download(run: ProcessRun) returns (success: bool)
      ensures success == RunSucceeds(run)
    {
      var shown, logged;
      success, shown, logged := DownloadSingle(run.lines, run.stopAt, run.exit);
    }

    /** One pass of `run`'s loop body, for URL `i`, once the worker has been found running. */
    method VisitItem(i: nat, alreadyDownloaded: bool, run: ProcessRun, existing: set<string>)
      requires i < |urls|
      modifies this
      ensures var o := ItemOutcome(settings, hasMainWindow, alreadyDownloaded, run);
        && progressUpdates == old(progressUpdates) + [i + 1]
        && stats == Plus(old(stats), Count(o))
        && historyAdds == old(historyAdds) + HistoryStep(settings, hasMainWindow, urls[i], o)
        && commands == old(commands) + (if o != Skipped then [BatchCommandOf(settings, existing, urls[i])] else [])
        && running == (old(running) && !Stopping(settings, hasMainWindow, alreadyDownloaded, run))
        && finished == old(finished) && paused == old(paused)
    {
      progressUpdates := progressUpdates + [i + 1];
      if hasMainWindow && settings.downloadPath != "" && alreadyDownloaded {
        stats := Plus(stats, Tally(0, 0, 1));
        assert ItemOutcome(settings, hasMainWindow, alreadyDownloaded, run) == Skipped;
        return;
      }
      var success := Download(run);
      ghost var o := if success then Succeeded else Failed;
      assert o == ItemOutcome(settings, hasMainWindow, alreadyDownloaded, run);
      DownloadItem(urls[i], success, Interrupted(run), existing);
    }

    /** The download half of the loop body: build the command, run it, count the outcome, record a success. */
    method DownloadItem(url: string, success: bool, interrupted: bool, existing: set<string>)
      modifies this
      ensures stats == Plus(old(stats), if success then Tally(1, 0, 0) else Tally(0, 1, 0))
      ensures historyAdds == old(historyAdds) + HistoryStep(settings, hasMainWindow, url, if success then Succeeded else Failed)
      ensures commands == old(commands) + [BatchCommandOf(settings, existing, url)]
      ensures running == (old(running) && !interrupted)
      ensures progressUpdates == old(progressUpdates) && finished == old(finished) && paused == old(paused)
    {
      IssueItemCommand(url, existing);
      if interrupted {
        running := false;
      }
      RecordResult(url, success);
    }

    /** The command built for `url` on its detected platform, handed to yt-dlp. */
    method IssueItemCommand(url: string, existing: set<string>)
      modifies this
      ensures commands == old(commands) + [BatchCommandOf(settings, existing, url)]
      ensures stats == old(stats) && historyAdds == old(historyAdds) && running == old(running)
      ensures progressUpdates == old(progressUpdates) && finished == old(finished) && paused == old(paused)
    {
      var platform := DetectPlatform(url);
      var cmd := BuildYtdlpCommand(url, platform, CookieExists(settings, existing, url));
      Issue(cmd);
    }

    /** Hands a command line to yt-dlp. */
    method Issue(cmd: seq<string>)
      modifies this
      ensures commands == old(commands) + [cmd]
      ensures stats == old(stats) && historyAdds == old(historyAdds) && running == old(running)
      ensures progressUpdates == old(progressUpdates) && finished == old(finished) && paused == old(paused)
    {
      commands := commands + [cmd];
    }

    method RecordResult(url: string, success: bool)
      modifies this
      ensures stats == Plus(old(stats), if success then Tally(1, 0, 0) else Tally(0, 1, 0))
      ensures historyAdds == old(historyAdds) + HistoryStep(settings, hasMainWindow, url, if success then Succeeded else Failed)
      ensures running == old(running) && commands == old(commands)
      ensures progressUpdates == old(progressUpdates) && finished == old(finished) && paused == old(paused)
    {
      if success {
        stats := Plus(stats, Tally(1, 0, 0));
        if hasMainWindow && settings.downloadPath != "" {
          historyAdds := historyAdds + [HistoryAdd(settings.downloadPath, ExtractVideoId(url), url)];
        }
      } else {
        stats := Plus(stats, Tally(0, 1, 0));
      }
    }

    /** `_build_ytdlp_command`: `cookieExists` stands for `os.path.exists` of the platform's cookie file. */
    method BuildYtdlpCommand(url: string, platform: Platform, cookieExists: bool) returns (cmd: seq<string>)
      ensures cmd == BatchCommandFor(settings, url, platform, cookieExists)
    {
      cmd := BuildLeadingOptions(platform, cookieExists);
      cmd := AddSkipOption(cmd);
      cmd := AddTrimOption(cmd);
      cmd := cmd + FixedTokens;
      cmd := AddSiteOptions(cmd, platform);
      cmd := cmd + [url];
    }

    /** `--skip-download` when only subtitles are wanted. */
    method AddSkipOption(prefix: seq<string>) returns (cmd: seq<string>)
      ensures cmd == prefix + SkipTokens(settings.subtitleOnly)
    {
      cmd := prefix;
      if settings.subtitleOnly {
        cmd := cmd + ["--skip-download"];
      }
    }

    /** `--trim-filenames` with the configured length when trimming is on. */
    method AddTrimOption(prefix: seq<string>) returns (cmd: seq<string>)
      ensures cmd == prefix + TrimTokens(settings.autoTrimFilename, TrimLength(settings))
    {
      cmd := prefix;
      if settings.autoTrimFilename {
        var trimLength := TrimLength(settings);
        cmd := cmd + ["--trim-filenames", IntToString(trimLength)];
      }
    }

    /** The first half of `_build_ytdlp_command`: the program, cookies, output template, format and subtitles. */
    method BuildLeadingOptions(platform: Platform, cookieExists: bool) returns (cmd: seq<string>)
      ensures cmd == LeadTokens(settings, platform, cookieExists)
    {
      cmd := ["yt-dlp"];
      cmd := AddCookieOption(cmd, platform, cookieExists);
      cmd := AddOutputOption(cmd);
      cmd := cmd + ["-f", QualityFormat(settings.quality)];
      cmd := AddSubtitleOptions(cmd);
    }

    /** The subtitle block of `_build_ytdlp_command`. */
    method AddSubtitleOptions(prefix: seq<string>) returns (cmd: seq<string>)
      ensures cmd == prefix + SubsTokens(settings.downloadSubtitle, settings.autoSubtitle, SubtitleLang(settings), settings.subtitleOnly)
    {
      cmd := prefix;
      if settings.downloadSubtitle {
        cmd := cmd + ["--write-subs"];
        ghost var auto: seq<string> := if settings.autoSubtitle then ["--write-auto-subs"] else [];
        if settings.autoSubtitle {
          cmd := cmd + ["--write-auto-subs"];
        }
        assert cmd == prefix + ["--write-subs"] + auto;
        var lang := SubtitleLang(settings);
        cmd := cmd + ["--sub-langs", lang];
        ghost var embed: seq<string> := if !settings.subtitleOnly then ["--embed-subs"] else [];
        if !settings.subtitleOnly {
          cmd := cmd + ["--embed-subs"];
        }
        assert cmd == prefix + ["--write-subs"] + auto + ["--sub-langs", lang] + embed;
      }
    }

    /** The output-template block of `_build_ytdlp_command`. */
    method AddOutputOption(prefix: seq<string>) returns (cmd: seq<string>)
      ensures cmd == prefix + OutputTokens(settings.downloadPath, OutputTemplate(settings))
    {
      cmd := prefix;
      if settings.downloadPath != "" {
        var customTemplate := "";
        if settings.useCustomFilename {
          var templateText := Strip(settings.customFilenameTemplate);
          if templateText != "" {
            customTemplate := templateText;
          }
        }
        var baseTemplate := if customTemplate != "" then customTemplate else DefaultTemplate;
        if !Contains(baseTemplate, "%(ext") {
          baseTemplate := baseTemplate + ExtSuffix;
        }
        assert baseTemplate == OutputTemplate(settings);
        var outputTemplate := PathJoin(settings.downloadPath, baseTemplate);
        cmd := cmd + ["-o", outputTemplate];
      }
    }

    /** The cookie block of `_build_ytdlp_command`. */
    method AddCookieOption(prefix: seq<string>, platform: Platform, cookieExists: bool) returns (cmd: seq<string>)
      ensures cmd == prefix + CookieTokens(CookieOk(settings, platform, cookieExists), CookieFileFor(settings, platform))
    {
      cmd := prefix;
      if settings.useCookies {
        var file := CookieFileFor(settings, platform);
        if file != "" && cookieExists {
          cmd := cmd + ["--cookies", file];
        }
      }
    }

    /** The Bilibili block of `_build_ytdlp_command`. */
    static method AddSiteOptions(prefix: seq<string>, platform: Platform) returns (cmd: seq<string>)
      ensures cmd == prefix + SiteTokens(platform == Bilibili)
    {
      cmd := prefix;
      if platform == Bilibili {
        cmd := cmd + ["--referer", BilibiliSite, "--user-agent", BrowserAgent];
      }
    }
  }
}
