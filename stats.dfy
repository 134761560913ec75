// DownloadStats: the cumulative counters, their flat-map encoding and the
// integer parts of the summary text.

module Stats {

  /** The six counters, all defaulting to 0. */
  datatype DownloadStats = DownloadStats(
    totalDownloads: int,
    successfulDownloads: int,
    failedDownloads: int,
    skippedDownloads: int,
    totalBytesDownloaded: int,
    totalTimeSeconds: int)

  const Zero := DownloadStats(0, 0, 0, 0, 0, 0)

  const TotalKey := "total_downloads"
  const SuccessKey := "successful_downloads"
  const FailedKey := "failed_downloads"
  const SkippedKey := "skipped_downloads"
  const BytesKey := "total_bytes_downloaded"
  const TimeKey := "total_time_seconds"

  const StatKeys: set<string> := {TotalKey, SuccessKey, FailedKey, SkippedKey, BytesKey, TimeKey}

  /** `to_dict`: one entry per counter, under its field name. */
  function ToDict(s: DownloadStats): (m: map<string, int>)
    ensures m.Keys == StatKeys
  {
    map[TotalKey := s.totalDownloads, SuccessKey := s.successfulDownloads,
        FailedKey := s.failedDownloads, SkippedKey := s.skippedDownloads,
        BytesKey := s.totalBytesDownloaded, TimeKey := s.totalTimeSeconds]
  }

  /** `data.get(key, 0)`. */
  function Get(m: map<string, int>, key: string): int {
    if key in m then m[key] else 0
  }

  /** `from_dict`: each counter read from its key, an absent key read as 0. */
  function FromDict(m: map<string, int>): DownloadStats {
    DownloadStats(Get(m, TotalKey), Get(m, SuccessKey), Get(m, FailedKey),
                  Get(m, SkippedKey), Get(m, BytesKey), Get(m, TimeKey))
  }

  /** Decoding an encoding gives back the record field for field. */
  lemma FromDictToDict(s: DownloadStats)
    ensures FromDict(ToDict(s)) == s
  {
  }

  /** A map holding exactly the six keys is the encoding of what it decodes to. */
  lemma ToDictFromDict(m: map<string, int>)
    requires m.Keys == StatKeys
    ensures ToDict(FromDict(m)) == m
  {
    var r := ToDict(FromDict(m));
    assert r.Keys == m.Keys;
    forall k | k in m
      ensures r[k] == m[k]
    {
    }
  }

  /** Every key the decoder does not find reads as 0, and keys outside the six are ignored. */
  lemma FromDictDefaults(m: map<string, int>)
    ensures TotalKey !in m ==> FromDict(m).totalDownloads == 0
    ensures SuccessKey !in m ==> FromDict(m).successfulDownloads == 0
    ensures FailedKey !in m ==> FromDict(m).failedDownloads == 0
    ensures SkippedKey !in m ==> FromDict(m).skippedDownloads == 0
    ensures BytesKey !in m ==> FromDict(m).totalBytesDownloaded == 0
    ensures TimeKey !in m ==> FromDict(m).totalTimeSeconds == 0
    ensures FromDict(m) == FromDict(map k | k in m && k in StatKeys :: m[k])
    ensures m.Keys !! StatKeys ==> FromDict(m) == Zero
  {
  }

  /** Hours and minutes of the "總耗時" line: `t // 3600` and `(t % 3600) // 60`. */
  function SummaryDuration(t: int): (r: (int, int))
    ensures 0 <= r.1 < 60
    ensures r.0 * 3600 + r.1 * 60 <= t < r.0 * 3600 + r.1 * 60 + 60
  {
    (t / 3600, (t % 3600) / 60)
  }

  /** Hours and minutes are the only pair with that property: the split loses only the seconds. */
  lemma SummaryDurationUnique(t: int, h: int, m: int)
    requires 0 <= m < 60
    requires h * 3600 + m * 60 <= t < h * 3600 + m * 60 + 60
    ensures SummaryDuration(t) == (h, m)
  {
    var r := SummaryDuration(t);
    var a := h * 60 + m;
    var b := r.0 * 60 + r.1;
    assert a * 60 <= t < a * 60 + 60;
    assert b * 60 <= t < b * 60 + 60;
    assert a == b;
  }

  const Units: seq<string> := ["B", "KB", "MB", "GB", "TB", "PB"]

  function Pow1024(k: nat): (r: nat)
    ensures r >= 1
  {
    if k == 0 then 1 else 1024 * Pow1024(k - 1)
  }

  /** One more division by 1024, and the comparison with 1024 it follows. */
  lemma ScaleStep(n: int, p: nat)
    requires p >= 1
    ensures n as real / p as real < 1024.0 <==> n < 1024 * p
    ensures (n as real / p as real) / 1024.0 == n as real / (1024 * p) as real
  {
    RealScale(n as real, p as real);
    assert (1024 * p) as real == 1024.0 * p as real;
  }

  lemma RealScale(n: real, p: real)
    requires p >= 1.0
    ensures n / p < 1024.0 <==> n < 1024.0 * p
    ensures (n / p) / 1024.0 == n / (1024.0 * p)
  {
    var x := n / p;
    assert x * p == n;
    if x < 1024.0 {
      assert (1024.0 - x) * p > 0.0;
    } else {
      assert (x - 1024.0) * p >= 0.0;
    }
  }

  /**
   * The unit `format_bytes` prints and the value it divides down to: dividing by 1024 until the value is below
   * 1024, at most five times, so the unit is the largest one not exceeding the count (PB caps it).
   */
  method FormatBytes(bytesCount: int) returns (value: real, unit: string)
    ensures exists k: nat | k < |Units| ::
      && unit == Units[k]
      && value == bytesCount as real / Pow1024(k) as real
      && (k > 0 ==> bytesCount >= Pow1024(k))
      && (k < |Units| - 1 ==> bytesCount < Pow1024(k + 1))
  {
    value := bytesCount as real;
    var i := 0;
    while i < 5
      invariant 0 <= i <= 5
      invariant value == bytesCount as real / Pow1024(i) as real
      invariant i > 0 ==> bytesCount >= Pow1024(i)
    {
      ScaleStep(bytesCount, Pow1024(i));
      if value < 1024.0 {
        unit := Units[i];
        assert bytesCount < Pow1024(i + 1);
        return;
      }
      value := value / 1024.0;
      i := i + 1;
    }
    unit := Units[5];
  }
}
