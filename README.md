# Video list downloader: a verified model of the download core

This project models the core of `video_downloader.py`, a PyQt front end to yt-dlp that downloads YouTube and Bilibili
videos and playlists. The model covers these parts:

- **`PlatformUtils`.** Platform detection by case-insensitive markers, and video and playlist IDs extracted by an
  ordered list of regular expressions in which the first hit wins. The regular expressions are written out as matchers
  with a leftmost search, in `patterns.dfy`.
- **`DownloadStats`.** The dictionary round trip, the hours and minutes of the summary, and the unit loop of
  `format_bytes`.
- **`DownloadWorker`.** The single-video worker as a class:
  - its constructor defaults;
  - `cancel`;
  - the retry loop of `run`, with its growing back-off;
  - `_build_command`.
- **`BatchDownloadWorker`.** The batch worker as a class:
  - `run` over the URL list, with skip, success and failure counting and the history updates;
  - `stop`, `pause` and `resume`;
  - `_build_ytdlp_command`;
  - the output-line classification of `_download_single`;
  - its `_parse_progress`.
- **The `MainWindow` ledger.**
  - `download_history`, with `add_to_download_history`, `is_downloaded`, `_has_local_file_for_video` and
    `_normalize_download_history_keys`.
  - `playlist_states`, with `update_playlist_state`, `collect_known_playlists` and the snapshot diff and response of
    `detect_playlist_updates`.
- **`validate_bilibili_cookies`.** The reading of a Netscape cookie file and the check for the three key cookies.

Both command builders are related to an independent reference, `CommandLine.Parse`. It reads an argument list the way
yt-dlp reads it: one option token, then its value when the option takes one, with the URL last. The proved property is
that each built command reads back as exactly the options the settings call for, each with the right value.

Interactions with the outside world are parameters of the model:

- **The file system.** `os.path.exists`, `os.path.isdir` and `os.listdir` become a set of existing files and a map
  from each directory to its listing.
- **The yt-dlp process.** Its output lines, the point where a stop cuts them off, and how it ended.
- **The user.** The answers to the two questions of `detect_playlist_updates`.
- **The clock.** `datetime.now()` is passed in as `now`.
- **Opaque helpers.** `normalize_path` is a function `norm`; the property the OS calls give it is stated as
  `Ledger.Normaliser`. `difflib.SequenceMatcher(...).ratio() >= 0.75` is a predicate `similar`.
- **Cancellation.** The moments at which the cancel or stop flag is seen are a sequence of booleans, one for each
  check of the flag.

Modules, by file:

| file | module | models |
|---|---|---|
| wrappers.dfy, strings.dfy, lists.dfy | Wrappers, Strings, Lists | `Option`, the `str` methods used, and filtering |
| patterns.dfy | Patterns | the compiled patterns of `PATTERNS` and `re.search` |
| platform.dfy | Platform | `PlatformUtils` |
| stats.dfy | Stats | `DownloadStats` |
| commandline.dfy | CommandLine | how yt-dlp reads its command line |
| worker.dfy | Worker | `DownloadWorker` |
| batchcommand.dfy | BatchCommand | the blocks of `_build_ytdlp_command` |
| progress.dfy | Progress | `_parse_progress` and the line loop of `_download_single` |
| batch.dfy | Batch | `BatchDownloadWorker` |
| localfiles.dfy | LocalFiles | the file-name test of `_has_local_file_for_video` |
| playlist.dfy | Playlist | the snapshot diff of `detect_playlist_updates` |
| ledger.dfy | Ledger | the history and playlist-state methods of `MainWindow` |
| cookies.dfy | Cookies | `validate_bilibili_cookies` |

Two behaviours of the code are worth stating plainly:

- **Snapshot on a declined prompt.** When the user declines the update prompt, `detect_playlist_updates` returns
  `cancel` before it calls `update_playlist_state`, so a declined prompt changes nothing. See
  `Ledger.MainWindow.Respond`.
- **What `is_downloaded` checks.** `is_downloaded` decides by the directory scan alone, whatever the ledger holds, and
  evicts a ledger entry whose file is gone. See `Ledger.MainWindow.IsDownloaded`.

## Model

| member | source | states |
|---|---|---|
| Platform.DetectPlatformIgnoresCase | video_downloader.py:204-212 | The detected platform is the same for a URL and its lower-cased form. |
| Platform.DetectPlatformYoutubeFirst | video_downloader.py:204-212 | YouTube exactly when a YouTube marker occurs in the lower-cased URL. Bilibili exactly when no YouTube marker occurs and a Bilibili marker does. Otherwise unknown. |
| Platform.FirstCaptureIsFirstHit | video_downloader.py:219-233 | The first pattern in list order whose search succeeds supplies the capture. |
| Platform.FirstCaptureNone | video_downloader.py:219-233 | There is no capture exactly when no pattern's search succeeds. |
| Platform.ExtractVideoIdUnknown | video_downloader.py:215-235 | On an unknown platform the ID is the stripped URL. |
| Platform.ExtractVideoIdYoutube | video_downloader.py:218-228 | On YouTube the ID is the first hit's capture: at least one character, all from `[A-Za-z0-9_-]`. With no hit it is the stripped URL. |
| Platform.ExtractVideoIdBilibili | video_downloader.py:229-235 | On Bilibili the ID is `bili_` plus a `BV…`, `av…` or word token. With no hit it is the stripped URL. |
| Platform.WatchUrlId | video_downloader.py:122 | A `watch?v=<id>` URL, where the ID is followed by nothing or by a non-ID character, yields `<id>`. |
| Platform.ExtractPlaylistId | video_downloader.py:238-243 | The `list=` capture, made only of ID characters, or the stripped URL when there is none. |
| Patterns.FindIsLeftmost | video_downloader.py:227 | The search reports a position where the pattern matches, with no match before it. It reports none only when the pattern matches nowhere. |
| Patterns.SearchFindsLeftmost | video_downloader.py:227 | A match anywhere makes the search succeed, at that position or an earlier one. |
| Patterns.IdCaptureShape | video_downloader.py:122-127 | An ID capture has at least the pattern's minimum length (6, or 1 for `list=`). It is made only of `[A-Za-z0-9_-]`. |
| Stats.ToDict | video_downloader.py:156-164 | The dictionary holds exactly the six counter keys. |
| Stats.FromDictToDict | video_downloader.py:156-175 | `from_dict(to_dict(s)) == s`. |
| Stats.ToDictFromDict | video_downloader.py:156-175 | A dictionary with exactly the six keys is the encoding of what it decodes to. |
| Stats.FromDictDefaults | video_downloader.py:166-175 | Each absent key reads as 0. Keys outside the six are ignored. A dictionary with none of them decodes to all zeros. |
| Stats.SummaryDuration | video_downloader.py:186-187 | Minutes are below 60. Hours and minutes account for the total seconds, less at most 59 seconds. |
| Stats.SummaryDurationUnique | video_downloader.py:186-187 | Hours and minutes are the only pair with that property. |
| Stats.FormatBytes | video_downloader.py:177-182 | The unit is the k-th of B…PB and the value is bytes/1024^k. The count is at least 1024^k when k > 0, and below 1024^(k+1) unless the unit is PB. |
| Worker.DownloadWorker.constructor | video_downloader.py:443-468 | The fields hold the arguments. An empty video ID is extracted from the URL. `max_retries` of 0 becomes 3. The worker starts not cancelled. |
| Worker.DownloadWorker.Cancel | video_downloader.py:470-472 | The cancel flag is raised and nothing else changes. |
| Worker.DownloadWorker.Run | video_downloader.py:483-497 | Exactly one `download_finished` signal, with the payload `Retry` specifies. The sleeps taken are `Backoff(attempts)`. |
| Worker.BackoffValues | video_downloader.py:490-492 | The wait before attempt i+1 is `RETRY_DELAY * (i+1)`. There is no wait before the first attempt. |
| Worker.BackoffIncreasing | video_downloader.py:490-492 | The waits are positive and strictly increasing, and none exceeds `RETRY_DELAY * (max_retries-1)`. |
| Worker.RetryStopsAtFirstSuccess | video_downloader.py:486-496 | The run stops at the first successful attempt: every earlier attempt failed. |
| Worker.RetrySucceedsAt | video_downloader.py:486-496 | Without cancellation, the first successful attempt ends the run with success and its message. |
| Worker.RetryExhausts | video_downloader.py:486-497 | Without cancellation, when every attempt fails, all `max_retries` attempts are made. The message reports the count and the last failure. |
| Worker.RetryCancelledFirst | video_downloader.py:487-489 | A worker cancelled before it starts makes no attempt and reports "已取消". |
| Worker.RetryStopsAtCancel | video_downloader.py:486-496 | A cancellation seen at any checkpoint ends the run there: no attempt starts after it, and the run ends cancelled or with the success of the attempt just made. |
| Worker.RetryEarlyExit | video_downloader.py:486-497 | A run that neither succeeds nor is cancelled made every attempt. A cancelled run reports "已取消" or the interrupted attempt's message. |
| Worker.DownloadWorker.BuildCommand | video_downloader.py:533-566 | `yt-dlp`, the output option and the three fixed switches come first and the URL comes last. The line parses back to exactly the option list built from the settings: limit, cookies, Bilibili headers, format or its default, subtitles. None of the batch-only options is present. |
| Worker.SingleLine | video_downloader.py:533-566 | The single-download token list reads back as the options built from the settings. |
| CommandLine.ParseBuilt | video_downloader.py:533-566 | A command assembled from well-formed options reads back as exactly those options and that URL. |
| BatchCommand.WithExtNamesExt | video_downloader.py:767-769 | The template always names `%(ext`. It keeps the base as its prefix, and appends `.%(ext)s` exactly when the base lacks `%(ext`. |
| BatchCommand.DefaultTemplateGetsExt | video_downloader.py:767-769 | The default template gets `.%(ext)s` appended. |
| BatchCommand.QualityFormatChoice | video_downloader.py:774-783 | `best` and `worst` select their fixed formats. A height N from the caps table selects exactly `bestvideo[height<=N]+bestaudio/best[height<=N]`. Any other value is passed through normalised. |
| BatchCommand.QualityDefaultIsBest | video_downloader.py:774-776 | An unset quality selects the best format. |
| BatchCommand.NormalQualityIdempotent | video_downloader.py:774 | Normalising a quality (`strip().lower()`) a second time changes nothing. |
| BatchCommand.BatchLine | video_downloader.py:751-814 | A batch command built from the blocks reads back as: each setting's option exactly when the setting calls for it, with its value; the four fixed options; the Bilibili referer and user agent; and none of the single downloader's own options. |
| Batch.BatchCommandKeepsPromise | video_downloader.py:751-814 | The command built for any URL, on its detected platform, keeps that promise. |
| Batch.BatchDownloadWorker.BuildYtdlpCommand | video_downloader.py:751-814 | The method builds the command the promise is proved about. |
| Batch.BatchDownloadWorker.constructor | video_downloader.py:600-608 | The worker starts running, not paused, with zero counters and empty logs. |
| Batch.BatchDownloadWorker.Stop | video_downloader.py:816-817 | The worker is no longer running and nothing else changes. |
| Batch.BatchDownloadWorker.Pause | video_downloader.py:819-820 | The worker is paused and nothing else changes. |
| Batch.BatchDownloadWorker.Resume | video_downloader.py:822-823 | The worker is not paused and nothing else changes. |
| Batch.BatchDownloadWorker.Run | video_downloader.py:610-663 | The URLs are visited in order, as many as `Visits` says. The progress indices, counters, history entries and commands are those of the visited URLs. `task_finished` is emitted once. The worker ends stopped if it stopped early. |
| Batch.BatchDownloadWorker.DownloadItem | video_downloader.py:640-650 | The method issues the built command and counts a success or a failure. It records a history entry only after a success, and only with a history. It stops when the download saw a stop. |
| Batch.VisitsExactly | video_downloader.py:616-653 | URL j is begun exactly when the worker was running and no stop came up to its check. No earlier download may have seen a stop either. |
| Batch.TallyCountsEachOnce | video_downloader.py:633-650 | Each visited URL raises exactly one of success, failed and skipped by one. |
| Batch.HistoryOnlyAfterSuccess | video_downloader.py:641-647 | Every history entry recorded is for a URL downloaded successfully, in a batch that has a main window and a download path. |
| Batch.HistoryCountsSuccesses | video_downloader.py:641-647 | One entry is recorded per success when the batch keeps a history, none otherwise. |
| Batch.CommandsMatchDownloads | video_downloader.py:633-641 | The k-th command issued is the one built for the k-th URL not skipped. |
| Progress.ParseProgress | video_downloader.py:726-749 | The text is non-empty exactly when the line has `%` and one of the four fields matches. It then starts with a space. |
| Progress.ParseProgressPercentFirst | video_downloader.py:729-746 | When the percentage matches, the text starts with it and its `%`. |
| Progress.ProgressFieldsBarFree | video_downloader.py:731-743 | No captured field contains the bar character. |
| Progress.ParseProgressFieldCount | video_downloader.py:745-746 | Splitting the text at the bar character gives one field per piece found. |
| Progress.Classify | video_downloader.py:694-708 | A line classified as a problem is a stripped ERROR or WARNING line that is not a `[download]` line. |
| Progress.SignalsSuccessClassified | video_downloader.py:697-708 | Exactly the finished `[download]` lines and the merge or cleanup lines set `has_successful_download`. |
| Progress.ProgressOnlyForDownloadLines | video_downloader.py:697-701 | A line classified as a download line contains `[download]`, and only such a line offers a non-empty progress text. |
| Progress.EmittedDistinct | video_downloader.py:698-701 | No emitted progress text is empty. None equals the one emitted before it, and the first differs from the last one shown. |
| Progress.LoggedProblems | video_downloader.py:705-706 | At most one entry is logged per line, and each is an ERROR or WARNING line. |
| Progress.AnySuccessSome | video_downloader.py:688-708 | The flag is set after the loop exactly when some line read signals success. |
| Progress.ScanLine | video_downloader.py:694-708 | One line adds its progress text, its log entry and its success signal. |
| Progress.ScanOutput | video_downloader.py:688-708 | The loop reads the lines up to the stop. It shows the emitted progress texts, logs the problem lines, and reports whether any line signalled success. |
| Progress.DownloadSingle | video_downloader.py:669-724 | The result is success exactly when the process exited with code 0 or some line read signalled success. A timeout or a start failure is a failure. |
| LocalFiles.VideoNameNeverIgnored | video_downloader.py:90-91 | A name with a video extension never ends in an ignored suffix, in any letter case. |
| LocalFiles.NonVideoNeverMatches | video_downloader.py:2077-2078 | A name without a video extension never counts as a copy. |
| LocalFiles.NameWithIdMatches | video_downloader.py:2077-2082 | A video file whose name contains the ID counts as a copy. |
| Playlist.CurrentIdsMembers | video_downloader.py:1590-1595 | An ID is current exactly when some available entry carries it, as its `id` or else its `url`. |
| Playlist.CurrentIdsCount | video_downloader.py:1590-1595 | No current ID is empty. Each comes from an entry not titled deleted or private. |
| Playlist.DiffMembers | video_downloader.py:1597-1606 | Added: current and not stored. Removed: stored and not current. Missing: current and stored, with no local file. |
| Playlist.NoChangeExactly | video_downloader.py:1608 | There is no change exactly when the stored and current IDs are the same set and every current ID has its file. |
| Ledger.NormalizePathIdempotent | video_downloader.py:862-865 | Normalising a path twice gives the same result. The normalised path is empty exactly when the path is. |
| Ledger.RecordSetsOne | video_downloader.py:2044-2054 | Recording sets the one entry and keeps every other entry. |
| Ledger.EvictRemovesOne | video_downloader.py:2060-2065 | Eviction removes exactly the one entry and keeps every other entry. It leaves no empty directory where it removed one. |
| Ledger.ForgetRemovesListed | video_downloader.py:1637-1645 | None of the missing IDs keeps an entry under the directory, and every other entry is kept. The directory does not remain as an empty map. |
| Ledger.MergedKeys | video_downloader.py:1999-2005 | The merged directories are exactly the non-empty normalised forms of the original ones. |
| Ledger.MergedEntries | video_downloader.py:1999-2005 | A merged entry exists exactly when some directory normalising to its key recorded that video. |
| Ledger.MergedLastWins | video_downloader.py:1999-2005 | Where directories collide, the entry of the last one in iteration order wins. |
| Ledger.MergeIdempotent | video_downloader.py:1999-2005 | Normalising the keys a second time changes nothing. |
| Ledger.StoreSnapshotReplaces | video_downloader.py:2031-2042 | The snapshot is replaced wholesale, unless the path or playlist ID is empty. No other snapshot changes. |
| Ledger.MainWindow.HasLocalFileForVideo | video_downloader.py:2070-2092 | The answer is true exactly when the normalised directory exists and one of its entries is a copy of the stripped ID. |
| Ledger.MainWindow.AddToDownloadHistory | video_downloader.py:2044-2054 | The ledger becomes `Record` under the normalised path, and the snapshots are unchanged. |
| Ledger.MainWindow.IsDownloaded | video_downloader.py:2056-2068 | The answer is the file scan. On false the stale ledger entry is evicted; on true the ledger is unchanged. |
| Ledger.MainWindow.NormalizeDownloadHistoryKeys | video_downloader.py:1999-2005 | The ledger becomes the merge of its directories in iteration order. |
| Ledger.MainWindow.UpdatePlaylistState | video_downloader.py:2031-2042 | The snapshots become `StoreSnapshot` of the old ones, and the ledger is unchanged. |
| Ledger.MainWindow.CollectKnownPlaylists | video_downloader.py:1679-1688 | A job is listed exactly when a stored snapshot has that directory, ID and a non-empty playlist URL. No (directory, ID) pair is listed twice. |
| Ledger.MainWindow.MissingVideos | video_downloader.py:1603-1606 | The missing list is the current IDs, in order, that were stored before and have no local file. |
| Ledger.MainWindow.ForgetVideos | video_downloader.py:1637-1645 | The ledger becomes `Forget` of the missing IDs. |
| Ledger.MainWindow.DetectPlaylistUpdates | video_downloader.py:1569-1663 | Empty inputs, a failed fetch and an empty playlist each give their error and change nothing. Otherwise the method responds to the diff of the current IDs against the stored ones. |
| Ledger.MainWindow.Respond | video_downloader.py:1610-1663 | See the list after this table. |
| Cookies.JarNames | video_downloader.py:408-414 | A cookie is in the jar exactly when some non-comment line with at least seven fields names it. |
| Cookies.JarLastWins | video_downloader.py:408-414 | A cookie's value is the one on the last line that defines it. |
| Cookies.ValidExactly | video_downloader.py:403-419 | The file is accepted exactly when each of the three key cookies is defined. |
| Cookies.MissingExactly | video_downloader.py:415-417 | The missing list names exactly the key cookies that no line defines. |
| Cookies.GatherCookies | video_downloader.py:408-414 | The loop builds the jar of the lines. |
| Cookies.ValidateBilibiliCookies | video_downloader.py:403-420 | The verdict is: no file, read error, the missing key cookies, or valid. |

`Ledger.MainWindow.Respond` covers three cases:

- **No change.** It stores the snapshot.
- **A declined prompt.** It cancels and changes nothing.
- **Otherwise.** It stores the snapshot and forgets the missing IDs. It queues the playlist only when download was
  offered, there is something to download and the user agrees. It returns `proceed` or `manual`.

## Left out

- **The GUI.** The Qt interface, settings dialogs, tray, timers and all `QMessageBox` texts are left out. The answers
  to the two questions are parameters, and the informational "no new videos" box is not modelled.
- **Log messages.** The strings emitted through `log_message` are not modelled. These include the retry notices of
  `DownloadWorker.run`, the batch start and finish summaries, and the error message texts of
  `validate_bilibili_cookies`. The ERROR/WARNING lines that `_download_single` logs are modelled.
- **Processes and time.** Starting yt-dlp, reading its pipe, `terminate`/`kill`/`wait`, timeouts and
  `time.sleep`/`msleep` are out. A run is given as data: its output lines, where a stop cuts them off, and how it
  ended. The sleeps of the retry loop are recorded as a ghost sequence. The two-second pause between batch items is
  not modelled.
- **`_download_once`.** It is not modelled line by line. Each attempt's outcome is a parameter of `Run`.
- **`DownloadWorker._parse_progress`.** It is left out because it computes only a float percentage and a Qt signal.
- **Pausing.** Threads, locks and the pause busy-wait are out: pausing only sets the flag. Concurrency between
  `stop()` and the loop is modelled as the point at which each flag check sees the stop.
- **Persistence.** Reading and writing the JSON files (`save_download_history`, `save_playlist_states`) is out. So are
  history values that are not dictionaries: every loaded value is a map of entries.
- **Dictionary iteration order.** `Ledger.MainWindow.CollectKnownPlaylists` is specified as a set with no repeats, not
  as a sequence in insertion order. `Ledger.MainWindow.NormalizeDownloadHistoryKeys` takes the iteration order as a
  parameter.
- **Directory listing errors.** An `OSError` from `os.listdir` after `os.path.isdir` succeeded is not modelled: a
  directory in the file map always lists.
- Ledger.MainWindow.DetectPlaylistUpdates: `added_videos` and `missing_videos` are reported as ID lists, without their
  empty titles. The metadata is `None` when fetching fails or returns an empty dictionary. A missing `id`, `url` or
  `title` field is the empty string.
- **Unicode.** Python's Unicode-aware `lower()`, `strip()`, `\w`, `\s` and `\d` are modelled on ASCII. Whitespace
  is the ASCII set `str.isspace()` accepts, including U+001C to U+001F; non-ASCII whitespace is not stripped.
- **Opaque path and similarity functions.** `os.path.normcase`/`abspath`/`normpath` and `SequenceMatcher` are opaque
  parameters (`norm`, `similar`). The only property assumed about `norm` is the one `Ledger.Normaliser` states.
- Worker.DownloadWorker.constructor: `max_retries` is a natural number. A negative value, which makes Python's `run`
  end with an unbound `message`, is not modelled.
- Progress.Classify: the `Download` case carries the stripped line. The properties of the logged lines are stated by
  `Progress.LoggedProblems`, not by `Classify`.
- Batch.BatchDownloadWorker.Run: the `OSError`/`SubprocessError` handler around the whole loop is not modelled. The
  duration summary is not modelled either.
- Stats.FormatBytes: the `:.2f` string formatting is not modelled. The method returns the real value and the unit.
