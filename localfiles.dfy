/**
 * The file test behind `_has_local_file_for_video` (video_downloader.py:2070-2092):
 * which names of a download directory count as a local copy of a video.
 * `difflib.SequenceMatcher(...).ratio() >= 0.75` is the `similar` parameter.
 */
module LocalFiles {
  import opened Wrappers
  import opened Strings
  import opened Patterns

  /** `VIDEO_EXTENSIONS`, compared against the lower-cased name. */
  const VideoExtensions: seq<string> := [".mp4", ".webm", ".mkv", ".flv", ".avi", ".mov", ".m4a"]

  /** `IGNORE_SUFFIXES`: partial or temporary downloads, compared case-sensitively. */
  const IgnoreSuffixes: seq<string> := [".part", ".ytdl", ".temp", ".aria2"]

  /** `any(name.lower().endswith(ext) for ext in VIDEO_EXTENSIONS)` */
  predicate IsVideoName(name: string) {
    exists ext | ext in VideoExtensions :: EndsWith(Lower(name), ext)
  }

  /** `name.endswith(IGNORE_SUFFIXES)` */
  predicate IsIgnoredName(name: string) {
    exists suffix | suffix in IgnoreSuffixes :: EndsWith(name, suffix)
  }

  /** The last character of every video extension. */
  lemma VideoExtensionEnds(ext: string)
    requires ext in VideoExtensions
    ensures |ext| >= 4 && ext[|ext| - 1] in "4mvia"
  {
  }

  /** The last character of every ignored suffix. */
  lemma IgnoreSuffixEnds(suffix: string)
    requires suffix in IgnoreSuffixes
    ensures |suffix| >= 5 && suffix[|suffix| - 1] in "tlp2"
  {
  }

  /** A name that passes the extension test never ends in an ignored suffix, whatever its letter case. */
  lemma VideoNameNeverIgnored(name: string)
    ensures IsVideoName(name) ==> !IsIgnoredName(name)
  {
    if IsVideoName(name) && IsIgnoredName(name) {
      var ext :| ext in VideoExtensions && EndsWith(Lower(name), ext);
      var suffix :| suffix in IgnoreSuffixes && EndsWith(name, suffix);
      VideoExtensionEnds(ext);
      IgnoreSuffixEnds(suffix);
      EndsWithLast(Lower(name), ext);
      EndsWithLast(name, suffix);
      LowerKeepsSuffixEnd(name[|name| - 1]);
    }
  }

  lemma EndsWithLast(s: string, p: string)
    requires EndsWith(s, p) && p != []
    ensures s[|s| - 1] == p[|p| - 1]
  {
    assert s[|s| - |p|..][|p| - 1] == s[|s| - 1];
  }

  /** Lower-casing leaves the last character of an ignored suffix alone, and it ends no video extension. */
  lemma LowerKeepsSuffixEnd(c: char)
    ensures c in "tlp2" ==> LowerChar(c) == c && c !in "4mvia"
  {
  }

  /** The `[id]` capture of the first bracketed run of at least eight ID characters in `name`. */
  function BracketedId(name: string): Option<string> {
    SearchCapture(BracketId, name)
  }

  /** The tests the scan's loop body applies to the ID in `[…]`: either contains the other, or they are similar. */
  predicate BracketMatches(fileId: string, id: string, similar: (string, string) -> bool) {
    Contains(id, fileId) || Contains(fileId, id) || similar(fileId, id)
  }

  /**
   * Whether directory entry `name` is a local copy of the video whose stripped ID is `id`: a video name, not a
   * partial download, that holds `[id]` or `id`, or whose bracketed ID matches `id`.
   */
  predicate NameMatches(name: string, id: string, similar: (string, string) -> bool) {
    && IsVideoName(name)
    && !IsIgnoredName(name)
    && (|| Contains(name, "[" + id + "]")
        || Contains(name, id)
        || (BracketedId(name).Some? && BracketMatches(BracketedId(name).value, id, similar)))
  }

  /** The body of the directory scan: the tests applied to one entry, in the order they are made. */
  method MatchName(name: string, id: string, similar: (string, string) -> bool) returns (matches: bool)
    ensures matches == NameMatches(name, id, similar)
  {
    if !IsVideoName(name) || IsIgnoredName(name) {
      return false;
    }
    if Contains(name, "[" + id + "]") || Contains(name, id) {
      return true;
    }
    var bracket := BracketedId(name);
    if bracket.Some? {
      var fileId := bracket.value;
      if Contains(id, fileId) || Contains(fileId, id) {
        return true;
      }
      if similar(fileId, id) {
        return true;
      }
    }
    return false;
  }

  /** Some entry of `listing` is a local copy of video `id`. */
  predicate AnyNameMatches(listing: seq<string>, id: string, similar: (string, string) -> bool) {
    exists k | 0 <= k < |listing| :: NameMatches(listing[k], id, similar)
  }

  /** One more entry that is not a copy extends the prefix of entries that are not. */
  lemma NoMatchSoFar(listing: seq<string>, i: nat, id: string, similar: (string, string) -> bool)
    requires i < |listing| && !NameMatches(listing[i], id, similar)
    requires forall k | 0 <= k < i :: !NameMatches(listing[k], id, similar)
    ensures forall k | 0 <= k < i + 1 :: !NameMatches(listing[k], id, similar)
  {
  }

  /** A name without a video extension never counts, whatever it contains. */
  lemma NonVideoNeverMatches(name: string, id: string, similar: (string, string) -> bool)
    ensures !IsVideoName(name) ==> !NameMatches(name, id, similar)
  {
  }

  /** A video file whose name holds the ID verbatim counts, bracketed or not. */
  lemma NameWithIdMatches(name: string, id: string, similar: (string, string) -> bool)
    requires IsVideoName(name) && Contains(name, id)
    ensures NameMatches(name, id, similar)
  {
    VideoNameNeverIgnored(name);
  }
}
