/**
 * The snapshot diff of `detect_playlist_updates` (video_downloader.py:1586-1616): which fetched entries count,
 * which IDs they stand for, and what was added, removed or lost locally since the stored snapshot.
 */
module Playlist {
  import opened Strings
  import opened Lists
  import opened Platform

  /** One entry of the fetched metadata; "" stands for a missing or null `id`, `url` or `title`. */
  datatype Entry = Entry(id: string, url: string, title: string)

  /** The fetched playlist metadata: its `id` ("" when missing) and its `entries`. */
  datatype Metadata = Metadata(id: string, entries: seq<Entry>)

  /** Titles yt-dlp reports for videos deleted by their author or made private. */
  const UnavailableTitles: set<string> := {"[deleted video]", "[private video]"}

  /** The entry's stripped, lower-cased title is not one of the unavailable markers. */
  predicate Available(e: Entry) {
    Lower(Strip(e.title)) !in UnavailableTitles
  }

  /** `e.get("id") or e.get("url")` */
  function EntryId(e: Entry): string {
    if e.id != "" then e.id else e.url
  }

  /** An entry contributes to `current_ids`: it is available and has an ID or URL. */
  predicate Counts(e: Entry) {
    Available(e) && EntryId(e) != ""
  }

  /** `current_ids`: the ID, else URL, of every available entry that has one, in playlist order. */
  function CurrentIds(entries: seq<Entry>): seq<string> {
    Select(entries, Counts, EntryId)
  }

  /** Some available entry of `entries` carries the ID `v`. */
  predicate Carries(entries: seq<Entry>, v: string) {
    exists k | 0 <= k < |entries| :: Counts(entries[k]) && EntryId(entries[k]) == v
  }

  /** An ID is current exactly when some available entry carries it. */
  lemma CurrentIdsMembers(entries: seq<Entry>, v: string)
    ensures v in CurrentIds(entries) <==> Carries(entries, v)
  {
    SelectMembers(entries, Counts, EntryId, v);
  }

  /** No current ID is empty, and a deleted or private video never contributes one. */
  lemma CurrentIdsCount(entries: seq<Entry>, v: string)
    requires v in CurrentIds(entries)
    ensures v != ""
    ensures exists k | 0 <= k < |entries| :: Available(entries[k]) && EntryId(entries[k]) == v
  {
    CurrentIdsMembers(entries, v);
  }

  /** `metadata.get("id") or extract_playlist_id(playlist_url)` */
  function PlaylistIdOf(m: Metadata, playlistUrl: string): string {
    if m.id != "" then m.id else ExtractPlaylistId(playlistUrl)
  }

  /** The three lists the prompt is about; `removed` only decides whether anything changed. */
  datatype Diff = Diff(added: seq<string>, removed: set<string>, missing: seq<string>)

  /**
   * The diff of the current IDs against the stored ones: IDs not stored before in playlist order, stored IDs no
   * longer listed, and listed IDs stored before whose file `hasFile` does not find.
   */
  function DiffOf(current: seq<string>, prev: set<string>, hasFile: string -> bool): Diff {
    Diff(Added(current, prev), (set v | v in prev && v !in current), MissingOf(current, prev, hasFile))
  }

  /** `added_videos`: the current IDs not stored before, in playlist order. */
  function Added(current: seq<string>, prev: set<string>): seq<string> {
    Filter(current, v => v !in prev)
  }

  /** `missing_videos`: the current IDs stored before whose file `hasFile` does not find, in playlist order. */
  function MissingOf(current: seq<string>, prev: set<string>, hasFile: string -> bool): seq<string> {
    Filter(current, v => v in prev && !hasFile(v))
  }

  predicate HasChanges(d: Diff) {
    d.added != [] || d.removed != {} || d.missing != []
  }

  /** Membership in each part of the diff, and `missing` lies in both the stored and the current IDs. */
  lemma DiffMembers(current: seq<string>, prev: set<string>, hasFile: string -> bool)
    ensures var d := DiffOf(current, prev, hasFile);
      && (forall v :: v in d.added <==> v in current && v !in prev)
      && (forall v :: v in d.removed <==> v in prev && v !in current)
      && (forall v :: v in d.missing <==> v in current && v in prev && !hasFile(v))
  {
    FilterMembers(current, v => v !in prev);
    FilterMembers(current, v => v in prev && !hasFile(v));
  }

  /** Nothing changed exactly when the stored and current IDs are the same set and every one has its file. */
  lemma NoChangeExactly(current: seq<string>, prev: set<string>, hasFile: string -> bool)
    ensures !HasChanges(DiffOf(current, prev, hasFile))
        <==> (forall v :: v in current <==> v in prev) && (forall v | v in current :: hasFile(v))
  {
    DiffMembers(current, prev, hasFile);
    var d := DiffOf(current, prev, hasFile);
    if d.added != [] {
      assert d.added[0] in d.added;
    }
    if d.missing != [] {
      assert d.missing[0] in d.missing;
    }
    if d.removed != {} {
      var v :| v in d.removed;
    }
  }
}
