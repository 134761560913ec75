/**
 * The download ledger and playlist snapshots of `MainWindow` (video_downloader.py:1569-1688, 1999-2092):
 * `download_history` maps a normalized download directory to the videos recorded there, `playlist_states`
 * maps it to the last snapshot of each playlist downloaded into it.
 *
 * The file system is a parameter `fs`: a map from each directory (`os.path.isdir`) to its listing
 * (`os.listdir`). `normalize_path` is the `norm` function, `SequenceMatcher` the `similar` predicate,
 * and clock readings are passed in as `now`.
 */
module Ledger {
  import opened Wrappers
  import opened Strings
  import opened Lists
  import opened LocalFiles
  import opened Playlist

  /** One `download_history` entry. */
  datatype HistoryEntry = HistoryEntry(url: string, title: string, timestamp: string)

  /** One `playlist_states` entry: the playlist's URL, its video IDs at the last check, and when that was. */
  datatype Snapshot = Snapshot(playlistUrl: string, videoIds: seq<string>, lastChecked: string)

  /** A playlist to re-check: what `collect_known_playlists` lists. */
  datatype Job = Job(downloadPath: string, playlistId: string, playlistUrl: string)

  type History = map<string, map<string, HistoryEntry>>

  type States = map<string, map<string, Snapshot>>

  /** Each directory's listing; a path that is not a key is not a directory. */
  type Files = map<string, seq<string>>

  /** `normalize_path`: the empty path stays empty, any other goes through `norm`. */
  function NormalizePath(norm: string -> string, path: string): string {
    if path == "" then "" else norm(path)
  }

  /** What `os.path.normcase(os.path.abspath(os.path.normpath(p)))` guarantees: a non-empty, stable result. */
  ghost predicate Normaliser(norm: string -> string) {
    forall p | p != "" :: norm(p) != "" && norm(norm(p)) == norm(p)
  }

  lemma NormalizePathIdempotent(norm: string -> string, path: string)
    requires Normaliser(norm)
    ensures NormalizePath(norm, NormalizePath(norm, path)) == NormalizePath(norm, path)
    ensures NormalizePath(norm, path) == "" <==> path == ""
  {
  }

  // ---------------------------------------------------------------- download history

  /** The videos recorded under directory `p`, none when `p` has no entry. */
  function Videos(h: History, p: string): map<string, HistoryEntry> {
    if p in h then h[p] else map[]
  }

  predicate HasEntry(h: History, p: string, id: string) {
    p in h && id in h[p]
  }

  /** The ledger with entry `e` for video `id` under directory `p`, the directory created if needed. */
  function Record(h: History, p: string, id: string, e: HistoryEntry): History {
    h[p := Videos(h, p)[id := e]]
  }

  /** Recording sets exactly the one entry: every other entry is kept as it was. */
  lemma RecordSetsOne(h: History, p: string, id: string, e: HistoryEntry)
    ensures var r := Record(h, p, id, e);
      && HasEntry(r, p, id) && r[p][id] == e
      && forall q, v | q != p || v != id :: HasEntry(r, q, v) == HasEntry(h, q, v) && (HasEntry(h, q, v) ==> r[q][v] == h[q][v])
  {
  }

  /** `is_downloaded`'s eviction: drop the entry for `id` under `p`, and the directory once it has no entries. */
  function Evict(h: History, p: string, id: string): History {
    if HasEntry(h, p, id) then
      var rest := h[p] - {id};
      if rest == map[] then h - {p} else h[p := rest]
    else h
  }

  /** Eviction removes exactly the one entry and leaves no empty directory behind where it removed one. */
  lemma EvictRemovesOne(h: History, p: string, id: string)
    ensures var r := Evict(h, p, id);
      && !HasEntry(r, p, id)
      && (HasEntry(h, p, id) && p in r ==> r[p] != map[])
      && forall q, v | q != p || v != id :: HasEntry(r, q, v) == HasEntry(h, q, v) && (HasEntry(h, q, v) ==> r[q][v] == h[q][v])
  {
    if HasEntry(h, p, id) {
      if h[p] - {id} == map[] {
        forall v | v != id ensures v !in h[p] {
          assert v !in h[p] - {id};
        }
      } else {
        var v :| v in h[p] - {id};
      }
    }
  }

  /** The ledger with the entries for `ids` under `p` removed, an emptied or empty directory dropped. */
  function Forget(h: History, p: string, ids: seq<string>): History {
    var removed := Without(h, p, ids);
    if p in removed && removed[p] == map[] then removed - {p} else removed
  }

  /** The entries for `ids` under `p` removed, the directory kept. */
  function Without(h: History, p: string, ids: seq<string>): History {
    if p in h then h[p := h[p] - (set v | v in ids)] else h
  }

  lemma WithoutNothing(h: History, p: string, ids: seq<string>)
    requires ids == []
    ensures Without(h, p, ids) == h
  {
    if p in h {
      assert (set v | v in ids) == {};
      assert h[p] - {} == h[p];
    }
  }

  /** Removing one more ID is one deletion, made only where the entry exists. */
  lemma WithoutOneMore(h: History, p: string, ids: seq<string>, id: string)
    ensures var w := Without(h, p, ids);
      Without(h, p, ids + [id]) == if p in w && id in w[p] then w[p := w[p] - {id}] else w
  {
    var more := ids + [id];
    var gone := set v | v in ids;
    assert (set v | v in more) == gone + {id};
    if p in h {
      if id in h[p] - gone {
        assert h[p] - (gone + {id}) == (h[p] - gone) - {id};
      } else {
        assert h[p] - (gone + {id}) == h[p] - gone;
      }
    }
  }

  /** After `Forget` none of `ids` has an entry under `p`, every other entry is kept, and `p` holds no empty map. */
  lemma ForgetRemovesListed(h: History, p: string, ids: seq<string>)
    ensures var r := Forget(h, p, ids);
      && (forall v | v in ids :: !HasEntry(r, p, v))
      && (p in r ==> r[p] != map[])
      && forall q, v | q != p || v !in ids :: HasEntry(r, q, v) == HasEntry(h, q, v) && (HasEntry(h, q, v) ==> r[q][v] == h[q][v])
  {
    var w := Without(h, p, ids);
    if p in w && w[p] != map[] {
      var v :| v in w[p];
    }
  }

  // ---------------------------------------------------------------- key normalization

  /**
   * `_normalize_download_history_keys` over the directories in `order`: each directory's videos are merged
   * into those already gathered under its normalized path, later ones overwriting; an empty path is dropped.
   */
  function MergeKeys(norm: string -> string, h: History, order: seq<string>): History
    decreases |order|
  {
    if order == [] then map[]
    else
      var n := |order| - 1;
      var merged := MergeKeys(norm, h, order[..n]);
      var key := NormalizePath(norm, order[n]);
      if key == "" then merged else merged[key := Videos(merged, key) + Videos(h, order[n])]
  }

  /** Some directory of `order` normalizes to `k`. */
  predicate NormalizesTo(norm: string -> string, order: seq<string>, k: string) {
    exists j | 0 <= j < |order| :: NormalizePath(norm, order[j]) == k
  }

  /** Some directory of `order` that normalizes to `k` records video `v`. */
  predicate Supplies(norm: string -> string, h: History, order: seq<string>, k: string, v: string) {
    exists j | 0 <= j < |order| :: NormalizePath(norm, order[j]) == k && v in Videos(h, order[j])
  }

  lemma NormalizesToSnoc(norm: string -> string, order: seq<string>, k: string)
    requires order != []
    ensures NormalizesTo(norm, order, k)
        <==> NormalizesTo(norm, order[..|order| - 1], k) || NormalizePath(norm, order[|order| - 1]) == k
  {
    var n := |order| - 1;
    if NormalizesTo(norm, order, k) {
      var j :| 0 <= j < |order| && NormalizePath(norm, order[j]) == k;
      if j < n {
        assert order[..n][j] == order[j];
      }
    }
    if NormalizesTo(norm, order[..n], k) {
      var j :| 0 <= j < n && NormalizePath(norm, order[..n][j]) == k;
      assert order[j] == order[..n][j];
    }
  }

  lemma SuppliesSnoc(norm: string -> string, h: History, order: seq<string>, k: string, v: string)
    requires order != []
    ensures Supplies(norm, h, order, k, v)
        <==> || Supplies(norm, h, order[..|order| - 1], k, v)
             || (NormalizePath(norm, order[|order| - 1]) == k && v in Videos(h, order[|order| - 1]))
  {
    var n := |order| - 1;
    if Supplies(norm, h, order, k, v) {
      var j :| 0 <= j < |order| && NormalizePath(norm, order[j]) == k && v in Videos(h, order[j]);
      if j < n {
        assert order[..n][j] == order[j];
      }
    }
    if Supplies(norm, h, order[..n], k, v) {
      var j :| 0 <= j < n && NormalizePath(norm, order[..n][j]) == k && v in Videos(h, order[..n][j]);
      assert order[j] == order[..n][j];
    }
  }

  /** The merged directories are exactly the non-empty normalized forms of the listed ones. */
  lemma {:induction false} MergedKeys(norm: string -> string, h: History, order: seq<string>, k: string)
    ensures k in MergeKeys(norm, h, order) <==> k != "" && NormalizesTo(norm, order, k)
    decreases |order|
  {
    if order != [] {
      MergedKeys(norm, h, order[..|order| - 1], k);
      NormalizesToSnoc(norm, order, k);
    }
  }

  /** No entry is lost or invented: a merged entry comes from a directory that normalizes to its key. */
  lemma {:induction false} MergedEntries(norm: string -> string, h: History, order: seq<string>, k: string, v: string)
    ensures HasEntry(MergeKeys(norm, h, order), k, v) <==> k != "" && Supplies(norm, h, order, k, v)
    decreases |order|
  {
    if order != [] {
      MergedEntries(norm, h, order[..|order| - 1], k, v);
      SuppliesSnoc(norm, h, order, k, v);
    }
  }

  /** Where directories collide, the entry of the last one in `order` to record the video wins. */
  lemma {:induction false} MergedLastWins(norm: string -> string, h: History, order: seq<string>, k: string, v: string, j: nat)
    requires j < |order| && k != "" && NormalizePath(norm, order[j]) == k && v in Videos(h, order[j])
    requires forall i | j < i < |order| :: !(NormalizePath(norm, order[i]) == k && v in Videos(h, order[i]))
    ensures HasEntry(MergeKeys(norm, h, order), k, v) && MergeKeys(norm, h, order)[k][v] == Videos(h, order[j])[v]
    decreases |order|
  {
    var n := |order| - 1;
    if j < n {
      forall i | j < i < n ensures !(NormalizePath(norm, order[..n][i]) == k && v in Videos(h, order[..n][i])) {
        assert order[..n][i] == order[i];
      }
      MergedLastWins(norm, h, order[..n], k, v, j);
    }
  }

  /** `order` lists the keys of `h`, each once: the iteration order of the dictionary. */
  ghost predicate KeyOrder<V>(h: map<string, V>, order: seq<string>) {
    && (forall i, j | 0 <= i < j < |order| :: order[i] != order[j])
    && (forall p :: p in h <==> p in order)
  }

  /** The part of `g` under the directories listed in `order`. */
  function Restrict(g: History, order: seq<string>): History {
    map p | p in g && p in order :: g[p]
  }

  /** Restricting to one more, new, directory adds its videos as a merge would. */
  lemma RestrictSnoc(g: History, prefix: seq<string>, key: string)
    requires key in g && key !in prefix
    ensures Restrict(g, prefix + [key]) == Restrict(g, prefix)[key := Videos(Restrict(g, prefix), key) + Videos(g, key)]
  {
    assert Videos(Restrict(g, prefix), key) + Videos(g, key) == g[key];
  }

  /** Merging a ledger whose keys are already normalized and non-empty gives back the ledger. */
  lemma {:induction false} MergeNormalizedPrefix(norm: string -> string, g: History, order: seq<string>)
    requires forall i, j | 0 <= i < j < |order| :: order[i] != order[j]
    requires forall i | 0 <= i < |order| :: order[i] in g && order[i] != "" && NormalizePath(norm, order[i]) == order[i]
    ensures MergeKeys(norm, g, order) == Restrict(g, order)
    decreases |order|
  {
    if order != [] {
      var n := |order| - 1;
      var key := order[n];
      var prefix := order[..n];
      assert order == prefix + [key];
      MergeNormalizedPrefix(norm, g, prefix);
      RestrictSnoc(g, prefix, key);
    }
  }

  /** Normalizing the keys a second time changes nothing. */
  lemma MergeIdempotent(norm: string -> string, h: History, order: seq<string>, order2: seq<string>)
    requires Normaliser(norm)
    requires KeyOrder(MergeKeys(norm, h, order), order2)
    ensures MergeKeys(norm, MergeKeys(norm, h, order), order2) == MergeKeys(norm, h, order)
  {
    var m := MergeKeys(norm, h, order);
    forall i | 0 <= i < |order2| ensures order2[i] in m && order2[i] != "" && NormalizePath(norm, order2[i]) == order2[i] {
      MergedKeys(norm, h, order, order2[i]);
      assert NormalizesTo(norm, order, order2[i]);
      var j :| 0 <= j < |order| && NormalizePath(norm, order[j]) == order2[i];
      NormalizePathIdempotent(norm, order[j]);
    }
    MergeNormalizedPrefix(norm, m, order2);
    assert Restrict(m, order2) == m;
  }

  // ---------------------------------------------------------------- playlist snapshots

  /** The stored snapshot for playlist `pid` under directory `p`, if any. */
  function Stored(s: States, p: string, pid: string): Option<Snapshot> {
    if p in s && pid in s[p] then Some(s[p][pid]) else None
  }

  /** `update_playlist_state`: store the snapshot under the normalized directory, unless it or the playlist ID is empty. */
  function StoreSnapshot(s: States, norm: string -> string, path: string, pid: string, url: string, ids: seq<string>,
                         now: string): States
  {
    var key := NormalizePath(norm, path);
    if key == "" || pid == "" then s
    else s[key := (if key in s then s[key] else map[])[pid := Snapshot(url, ids, now)]]
  }

  /** The snapshot is replaced wholesale and no other playlist's snapshot changes. */
  lemma StoreSnapshotReplaces(s: States, norm: string -> string, path: string, pid: string, url: string,
                              ids: seq<string>, now: string)
    ensures var r := StoreSnapshot(s, norm, path, pid, url, ids, now);
      var key := NormalizePath(norm, path);
      && (key != "" && pid != "" ==> Stored(r, key, pid) == Some(Snapshot(url, ids, now)))
      && (key == "" || pid == "" ==> r == s)
      && forall q, id | q != key || id != pid :: Stored(r, q, id) == Stored(s, q, id)
  {
  }

  /** `set(prev_state.get("video_ids", []))` */
  function StoredIds(s: States, p: string, pid: string): set<string> {
    match Stored(s, p, pid)
    case Some(snap) => set v | v in snap.videoIds
    case None => {}
  }

  /** A snapshot `collect_known_playlists` reports: it has a playlist URL. */
  predicate Known(s: States, job: Job) {
    Stored(s, job.downloadPath, job.playlistId).Some?
    && job.playlistUrl == s[job.downloadPath][job.playlistId].playlistUrl
    && job.playlistUrl != ""
  }

  // ---------------------------------------------------------------- detection results

  datatype Failure =
    | InvalidInput  // no playlist URL or no download directory
    | FetchFailed   // the metadata could not be fetched
    | NoEntries     // the playlist has no entries

  datatype Detection =
    | Failed(reason: Failure)
    | NoChange
    | Cancel
    | Proceed(added: seq<string>, missing: seq<string>)
    | Manual(added: seq<string>, missing: seq<string>)

  class MainWindow {
    /** `normalize_path` on a non-empty path. */
    const norm: string -> string
    /** `SequenceMatcher(None, a, b).ratio() >= 0.75` */
    const similar: (string, string) -> bool

    var downloadHistory: History
    var playlistStates: States
    /** The `auto_download_playlist` calls made: playlist URL and normalized download directory. */
    var autoDownloads: seq<(string, string)>

    /** A window over a loaded ledger and loaded snapshots. */
    constructor (norm: string -> string, similar: (string, string) -> bool, history: History, states: States)
      ensures this.norm == norm && this.similar == similar
      ensures downloadHistory == history && playlistStates == states && autoDownloads == []
    {
      this.norm := norm;
      this.similar := similar;
      downloadHistory := history;
      playlistStates := states;
      autoDownloads := [];
    }

    /** `_has_local_file_for_video`'s answer: a directory entry under the normalized path is a copy of the video. */
    function LocalCopy(fs: Files, downloadPath: string, videoId: string): bool {
      var path := NormalizePath(norm, downloadPath);
      path != "" && path in fs && AnyNameMatches(fs[path], Strip(videoId), similar)
    }

    function HasCopy(fs: Files, downloadPath: string): string -> bool {
      videoId => LocalCopy(fs, downloadPath, videoId)
    }

    /** `_has_local_file_for_video`: scan the directory listing, stopping at the first name that matches. */
    method HasLocalFileForVideo(fs: Files, downloadPath: string, videoId: string) returns (found: bool)
      ensures found == LocalCopy(fs, downloadPath, videoId)
    {
      var path := NormalizePath(norm, downloadPath);
      if path == "" || path !in fs {
        return false;
      }
      var id := Strip(videoId);
      var names := fs[path];
      for i := 0 to |names|
        invariant forall k | 0 <= k < i :: !NameMatches(names[k], id, similar)
      {
        var matches := MatchName(names[i], id, similar);
        if matches {
          return true;
        }
        NoMatchSoFar(names, i, id, similar);
      }
      return false;
    }

    /** `add_to_download_history`: record the video under the normalized directory, replacing an older entry. */
    method AddToDownloadHistory(downloadPath: string, videoId: string, url: string, title: string, now: string)
      modifies this
      ensures downloadHistory == Record(old(downloadHistory), NormalizePath(norm, downloadPath), videoId, HistoryEntry(url, title, now))
      ensures playlistStates == old(playlistStates) && autoDownloads == old(autoDownloads)
    {
      var path := NormalizePath(norm, downloadPath);
      if path !in downloadHistory {
        downloadHistory := downloadHistory[path := map[]];
      }
      downloadHistory := downloadHistory[path := downloadHistory[path][videoId := HistoryEntry(url, title, now)]];
    }

    /**
     * `is_downloaded`: true exactly when a local copy is found; otherwise a stale ledger entry for the video is
     * evicted so that it can be downloaded again.
     */
    method IsDownloaded(fs: Files, downloadPath: string, videoId: string) returns (r: bool)
      modifies this
      ensures r == LocalCopy(fs, NormalizePath(norm, downloadPath), videoId)
      ensures downloadHistory == if r then old(downloadHistory) else Evict(old(downloadHistory), NormalizePath(norm, downloadPath), videoId)
      ensures playlistStates == old(playlistStates) && autoDownloads == old(autoDownloads)
    {
      var path := NormalizePath(norm, downloadPath);
      var found := HasLocalFileForVideo(fs, path, videoId);
      if found {
        return true;
      }
      if path in downloadHistory && videoId in downloadHistory[path] {
        downloadHistory := downloadHistory[path := downloadHistory[path] - {videoId}];
        if downloadHistory[path] == map[] {
          downloadHistory := downloadHistory - {path};
        }
        return false;
      }
      return false;
    }

    /** `_normalize_download_history_keys`, `order` being the ledger's iteration order. */
    method NormalizeDownloadHistoryKeys(order: seq<string>)
      requires KeyOrder(downloadHistory, order)
      modifies this
      ensures downloadHistory == MergeKeys(norm, old(downloadHistory), order)
      ensures playlistStates == old(playlistStates) && autoDownloads == old(autoDownloads)
    {
      var normalized: History := map[];
      for i := 0 to |order|
        invariant normalized == MergeKeys(norm, downloadHistory, order[..i])
      {
        var path := order[i];
        assert path in downloadHistory;
        var normPath := NormalizePath(norm, path);
        if normPath != "" {
          var gathered := if normPath in normalized then normalized[normPath] else map[];
          normalized := normalized[normPath := gathered + downloadHistory[path]];
        }
        assert order[..i + 1][..i] == order[..i];
      }
      assert order[..|order|] == order;
      downloadHistory := normalized;
    }

    /** `update_playlist_state` */
    method UpdatePlaylistState(downloadPath: string, playlistId: string, playlistUrl: string, videoIds: seq<string>,
                               now: string)
      modifies this
      ensures playlistStates == StoreSnapshot(old(playlistStates), norm, downloadPath, playlistId, playlistUrl, videoIds, now)
      ensures downloadHistory == old(downloadHistory) && autoDownloads == old(autoDownloads)
    {
      var path := NormalizePath(norm, downloadPath);
      if path == "" || playlistId == "" {
        return;
      }
      if path !in playlistStates {
        playlistStates := playlistStates[path := map[]];
      }
      playlistStates := playlistStates[path := playlistStates[path][playlistId := Snapshot(playlistUrl, videoIds, now)]];
    }

    /** `collect_known_playlists`: every stored snapshot with a playlist URL, each once. */
    method CollectKnownPlaylists() returns (jobs: seq<Job>)
      ensures forall job :: job in jobs <==> Known(playlistStates, job)
      ensures forall a, b | 0 <= a < b < |jobs| :: (jobs[a].downloadPath, jobs[a].playlistId) != (jobs[b].downloadPath, jobs[b].playlistId)
    {
      jobs := [];
      var paths := playlistStates.Keys;
      while paths != {}
        invariant paths <= playlistStates.Keys
        invariant forall job :: job in jobs <==> Known(playlistStates, job) && job.downloadPath !in paths
        invariant forall a, b | 0 <= a < b < |jobs| :: (jobs[a].downloadPath, jobs[a].playlistId) != (jobs[b].downloadPath, jobs[b].playlistId)
        decreases paths
      {
        var path :| path in paths;
        jobs := CollectUnder(path, jobs, paths);
        paths := paths - {path};
      }
    }

    /** The inner loop of `collect_known_playlists`: the snapshots under one directory. */
    method CollectUnder(path: string, before: seq<Job>, ghost pending: set<string>) returns (jobs: seq<Job>)
      requires path in pending && pending <= playlistStates.Keys
      requires forall job :: job in before <==> Known(playlistStates, job) && job.downloadPath !in pending
      requires forall a, b | 0 <= a < b < |before| :: (before[a].downloadPath, before[a].playlistId) != (before[b].downloadPath, before[b].playlistId)
      ensures forall job :: job in jobs <==> Known(playlistStates, job) && job.downloadPath !in pending - {path}
      ensures forall a, b | 0 <= a < b < |jobs| :: (jobs[a].downloadPath, jobs[a].playlistId) != (jobs[b].downloadPath, jobs[b].playlistId)
    {
      jobs := before;
      var playlists := playlistStates[path];
      var ids := playlists.Keys;
      while ids != {}
        invariant ids <= playlists.Keys
        invariant forall job :: job in jobs <==>
          Known(playlistStates, job) && (job.downloadPath !in pending || (job.downloadPath == path && job.playlistId !in ids))
        invariant forall a, b | 0 <= a < b < |jobs| :: (jobs[a].downloadPath, jobs[a].playlistId) != (jobs[b].downloadPath, jobs[b].playlistId)
        invariant forall job | job in jobs :: job.downloadPath != path || job.playlistId !in ids
        decreases ids
      {
        var playlistId :| playlistId in ids;
        var url := playlists[playlistId].playlistUrl;
        if url != "" {
          jobs := jobs + [Job(path, playlistId, url)];
        }
        ids := ids - {playlistId};
      }
    }

    /** The loop of `detect_playlist_updates` that gathers `missing_videos`. */
    method MissingVideos(fs: Files, path: string, current: seq<string>, prev: set<string>) returns (missing: seq<string>)
      ensures missing == MissingOf(current, prev, HasCopy(fs, path))
    {
      missing := [];
      for i := 0 to |current|
        invariant missing == MissingOf(current[..i], prev, HasCopy(fs, path))
      {
        var vid := current[i];
        if vid in prev {
          var found := HasLocalFileForVideo(fs, path, vid);
          if !found {
            missing := missing + [vid];
          }
        }
        assert current[..i + 1][..i] == current[..i];
      }
      assert current[..|current|] == current;
    }

    /** The eviction in `detect_playlist_updates`: drop the ledger entries of `missing` under `path`. */
    method ForgetVideos(path: string, missing: seq<string>)
      modifies this
      ensures downloadHistory == Forget(old(downloadHistory), path, missing)
      ensures playlistStates == old(playlistStates) && autoDownloads == old(autoDownloads)
    {
      WithoutNothing(downloadHistory, path, missing[..0]);
      for i := 0 to |missing|
        invariant downloadHistory == Without(old(downloadHistory), path, missing[..i])
        invariant playlistStates == old(playlistStates) && autoDownloads == old(autoDownloads)
      {
        var vid := missing[i];
        WithoutOneMore(old(downloadHistory), path, missing[..i], vid);
        assert missing[..i + 1] == missing[..i] + [vid];
        if path in downloadHistory && vid in downloadHistory[path] {
          downloadHistory := downloadHistory[path := downloadHistory[path] - {vid}];
        }
      }
      assert missing[..|missing|] == missing;
      if path in downloadHistory && downloadHistory[path] == map[] {
        downloadHistory := downloadHistory - {path};
      }
    }

    /**
     * `detect_playlist_updates`. The fetched metadata is a parameter (`None` when fetching failed), and so are the
     * answers to the two questions: `confirmUpdate` to "continue?", asked when `promptUser`, and `confirmDownload`
     * to "download now?", asked when `offerAutoDownload` and something is to be downloaded.
     */
    method DetectPlaylistUpdates(fs: Files, playlistUrl: string, downloadPath: string, metadata: Option<Metadata>,
                                 promptUser: bool, manualTrigger: bool, offerAutoDownload: bool,
                                 confirmUpdate: bool, confirmDownload: bool, now: string)
      returns (r: Detection)
      modifies this
      ensures playlistUrl == "" || downloadPath == "" ==> r == Failed(InvalidInput)
      ensures playlistUrl != "" && downloadPath != "" && metadata.None? ==> r == Failed(FetchFailed)
      ensures playlistUrl != "" && downloadPath != "" && metadata.Some? && metadata.value.entries == [] ==> r == Failed(NoEntries)
      ensures r.Failed? ==> unchanged(this)
      ensures playlistUrl != "" && downloadPath != "" && metadata.Some? && metadata.value.entries != [] ==>
        var path := NormalizePath(norm, downloadPath);
        var pid := PlaylistIdOf(metadata.value, playlistUrl);
        var current := CurrentIds(metadata.value.entries);
        Responded(r, DiffOf(current, StoredIds(old(playlistStates), path, pid), HasCopy(fs, path)), path, pid,
                  playlistUrl, current, promptUser, manualTrigger, offerAutoDownload, confirmUpdate, confirmDownload,
                  now, old(downloadHistory), old(playlistStates), old(autoDownloads))
    {
      if playlistUrl == "" || downloadPath == "" {
        return Failed(InvalidInput);
      }
      var path := NormalizePath(norm, downloadPath);
      if metadata.None? {
        return Failed(FetchFailed);
      }
      var entries := metadata.value.entries;
      if entries == [] {
        return Failed(NoEntries);
      }
      var pid := PlaylistIdOf(metadata.value, playlistUrl);
      var current := CurrentIds(entries);
      var prev := StoredIds(playlistStates, path, pid);
      var added := Added(current, prev);
      var removed := set v | v in prev && v !in current;
      var missing := MissingVideos(fs, path, current, prev);
      r := Respond(Diff(added, removed, missing), path, pid, playlistUrl, current, promptUser, manualTrigger,
                   offerAutoDownload, confirmUpdate, confirmDownload, now);
    }

    /**
     * What `detect_playlist_updates` does once the diff `d` is known: on no change it stores the snapshot; when the
     * user declines it cancels with nothing changed; otherwise it stores the snapshot, evicts the missing videos
     * from the ledger and queues the playlist for download if the user agrees.
     */
    ghost predicate Responded(r: Detection, d: Diff, path: string, pid: string, playlistUrl: string, current: seq<string>,
                              promptUser: bool, manualTrigger: bool, offerAutoDownload: bool, confirmUpdate: bool,
                              confirmDownload: bool, now: string, h0: History, s0: States, a0: seq<(string, string)>)
      reads this
    {
      if !HasChanges(d) then
        && r == NoChange
        && playlistStates == StoreSnapshot(s0, norm, path, pid, playlistUrl, current, now)
        && downloadHistory == h0 && autoDownloads == a0
      else if promptUser && !confirmUpdate then
        && r == Cancel
        && playlistStates == s0 && downloadHistory == h0 && autoDownloads == a0
      else
        && r == (if manualTrigger then Manual(d.added, d.missing) else Proceed(d.added, d.missing))
        && playlistStates == StoreSnapshot(s0, norm, path, pid, playlistUrl, current, now)
        && downloadHistory == (if d.missing == [] then h0 else Forget(h0, path, d.missing))
        && autoDownloads == a0 + (if offerAutoDownload && d.added + d.missing != [] && confirmDownload then [(playlistUrl, path)] else [])
    }

    /** The part of `detect_playlist_updates` after the diff: the prompts, the snapshot and the eviction. */
    method Respond(d: Diff, path: string, pid: string, playlistUrl: string, current: seq<string>, promptUser: bool,
                   manualTrigger: bool, offerAutoDownload: bool, confirmUpdate: bool, confirmDownload: bool, now: string)
      returns (r: Detection)
      modifies this
      ensures Responded(r, d, path, pid, playlistUrl, current, promptUser, manualTrigger, offerAutoDownload, confirmUpdate,
                        confirmDownload, now, old(downloadHistory), old(playlistStates), old(autoDownloads))
    {
      if d.added == [] && d.removed == {} && d.missing == [] {
        UpdatePlaylistState(path, pid, playlistUrl, current, now);
        return NoChange;
      }
      if promptUser && !confirmUpdate {
        return Cancel;
      }
      UpdatePlaylistState(path, pid, playlistUrl, current, now);
      if d.missing != [] {
        ForgetVideos(path, d.missing);
      }
      if offerAutoDownload && d.added + d.missing != [] && confirmDownload {
        autoDownloads := autoDownloads + [(playlistUrl, path)];
      }
      r := if manualTrigger then Manual(d.added, d.missing) else Proceed(d.added, d.missing);
    }
  }
}
