// The batch worker's reading of yt-dlp's output: the progress text shown for a
// `[download]` line (`_parse_progress`), the lines that count as a finished
// download, and the line loop of `_download_single`.

module Progress {
  import opened Wrappers
  import opened Strings
  import opened Patterns

  /** One piece of the progress text: a space, the capture and its suffix, when the pattern matched. */
  function Piece(c: Option<string>, suffix: string): (r: seq<string>)
    ensures |r| == if c.Some? then 1 else 0
    ensures forall k | 0 <= k < |r| :: |r[k]| >= 1 && r[k][0] == ' '
  {
    match c
    case Some(v) => [" " + v + suffix]
    case None => []
  }

  /** The pieces `_parse_progress` collects: percentage, size, speed and ETA, each only if found. */
  function ProgressParts(line: string): (parts: seq<string>)
    ensures |parts| <= 4
    ensures forall k | 0 <= k < |parts| :: |parts[k]| >= 1 && parts[k][0] == ' '
  {
    Piece(SearchCapture(ProgressPercent, line), "%") + Piece(SearchCapture(ProgressSize, line), "")
    + Piece(SearchCapture(ProgressSpeed, line), "") + Piece(SearchCapture(ProgressEta, line), "")
  }

  /** Whether any of the four progress patterns matches the line. */
  predicate AnyProgressField(line: string) {
    || SearchCapture(ProgressPercent, line).Some? || SearchCapture(ProgressSize, line).Some?
    || SearchCapture(ProgressSpeed, line).Some? || SearchCapture(ProgressEta, line).Some?
  }

  /** `_parse_progress`: the pieces joined with " | " when the line has a `%`, otherwise "". */
  function ParseProgress(line: string): (r: string)
    ensures r != "" <==> Contains(line, "%") && AnyProgressField(line)
    ensures r != "" ==> r[0] == ' '
  {
    var parts := ProgressParts(line);
    PartsFoundExactly(line);
    if Contains(line, "%") && parts != [] then
      JoinLeadsWithSpace(parts);
      Join(parts, " | ")
    else ""
  }

  /** Some piece is produced exactly when some field pattern matches. */
  lemma PartsFoundExactly(line: string)
    ensures ProgressParts(line) != [] <==> AnyProgressField(line)
  {
    var p, z, v, e := SearchCapture(ProgressPercent, line), SearchCapture(ProgressSize, line),
                      SearchCapture(ProgressSpeed, line), SearchCapture(ProgressEta, line);
    assert |ProgressParts(line)| == |Piece(p, "%")| + |Piece(z, "")| + |Piece(v, "")| + |Piece(e, "")|;
  }

  lemma JoinLeadsWithSpace(parts: seq<string>)
    requires |parts| >= 1 && |parts[0]| >= 1 && parts[0][0] == ' '
    ensures Join(parts, " | ") != "" && Join(parts, " | ")[0] == ' '
  {
    JoinStartsWithFirst(parts, " | ");
    assert Join(parts, " | ")[0] == Join(parts, " | ")[..|parts[0]|][0];
  }

  lemma {:induction false} JoinStartsWithFirst(parts: seq<string>, sep: string)
    requires |parts| >= 1
    ensures |Join(parts, sep)| >= |parts[0]| && Join(parts, sep)[..|parts[0]|] == parts[0]
  {
    if |parts| > 1 {
      assert Join(parts, sep) == parts[0] + (sep + Join(parts[1..], sep));
    }
  }

  /** The progress text starts with the percentage whenever the percentage pattern is found. */
  lemma ParseProgressPercentFirst(line: string, p: string)
    requires SearchCapture(ProgressPercent, line) == Some(p)
    ensures StartsWith(ParseProgress(line), " " + p + "%")
  {
    PercentHasSign(line);
    var parts := ProgressParts(line);
    assert parts[0] == " " + p + "%";
    JoinStartsWithFirst(parts, " | ");
  }

  /** A percentage capture is always followed by `%`, so a line it matches passes the `%` test. */
  lemma PercentHasSign(line: string)
    requires SearchCapture(ProgressPercent, line).Some?
    ensures Contains(line, "%")
  {
    var i := Find(ProgressPercent, line, 0).value;
    var e1 := RunEnd(line, i, Digit);
    var e2 := RunEnd(line, e1 + 1, Digit);
    assert line[e2..e2 + 1] == "%";
    ContainsAt(line, e2, "%");
  }

  /** The bars of the progress text are exactly its separators: no captured field contains `|`. */
  lemma ProgressFieldsBarFree(line: string)
    ensures forall k | 0 <= k < |ProgressParts(line)| :: '|' !in ProgressParts(line)[k]
  {
    var a := PieceBarFree(ProgressPercent, line, "%");
    var b := PieceBarFree(ProgressSize, line, "");
    var c := PieceBarFree(ProgressSpeed, line, "");
    var d := PieceBarFree(ProgressEta, line, "");
    BarFreeAppend(a, b);
    BarFreeAppend(a + b, c);
    BarFreeAppend(a + b + c, d);
  }

  predicate BarFree(parts: seq<string>) {
    forall k | 0 <= k < |parts| :: '|' !in parts[k]
  }

  lemma BarFreeAppend(a: seq<string>, b: seq<string>)
    requires BarFree(a) && BarFree(b)
    ensures BarFree(a + b)
  {
    assert forall k | |a| <= k < |a + b| :: (a + b)[k] == b[k - |a|];
  }

  /** The piece a progress pattern contributes has no `|`. */
  lemma PieceBarFree(p: Pattern, line: string, suffix: string) returns (piece: seq<string>)
    requires p.ProgressPercent? || p.ProgressSize? || p.ProgressSpeed? || p.ProgressEta?
    requires '|' !in suffix
    ensures piece == Piece(SearchCapture(p, line), suffix) && BarFree(piece)
  {
    CaptureBarFree(p, line);
    piece := Piece(SearchCapture(p, line), suffix);
    if SearchCapture(p, line).Some? {
      var v := SearchCapture(p, line).value;
      assert piece == [" " + v + suffix];
      assert forall i | 0 <= i < |" " + v + suffix| :: (" " + v + suffix)[i] == ' ' || (" " + v + suffix)[i] in v || (" " + v + suffix)[i] in suffix;
    }
  }

  lemma CaptureBarFree(p: Pattern, line: string)
    requires p.ProgressPercent? || p.ProgressSize? || p.ProgressSpeed? || p.ProgressEta?
    ensures SearchCapture(p, line).Some? ==> '|' !in SearchCapture(p, line).value
  {
    if SearchCapture(p, line).Some? {
      var i := Find(p, line, 0).value;
      match p
      case ProgressPercent => PercentShape(line, i);
      case ProgressSize => SizeShape(line, i, "of", "B");
      case ProgressSpeed => SizeShape(line, i, "at", "B/s");
      case ProgressEta => EtaShape(line, i);
    }
  }

  /** Characters that appear in a progress capture. */
  predicate FieldChar(c: char) {
    IsDigit(c) || IsSpace(c) || c in ".:KMGTiB/s"
  }

  lemma RunFieldChars(s: string, a: nat, b: nat, k: CharClass)
    requires a <= b <= |s| && (k.Digit? || k.Space? || k.DigitOrDot?)
    requires forall m | a <= m < b :: InClass(s[m], k)
    ensures forall m | a <= m < b :: FieldChar(s[m])
  {
  }

  lemma PercentShape(s: string, i: nat)
    requires MatchPercent(s, i).Some?
    ensures '|' !in MatchPercent(s, i).value
  {
    var e1 := RunEnd(s, i, Digit);
    var e2 := RunEnd(s, e1 + 1, Digit);
    var c := s[i..e2];
    forall m | 0 <= m < |c| ensures c[m] != '|' {
      assert c[m] == s[i + m];
    }
  }

  lemma SizeShape(s: string, i: nat, lead: string, unit: string)
    requires unit == "B" || unit == "B/s"
    requires MatchSize(s, i, lead, unit).Some?
    ensures '|' !in MatchSize(s, i, lead, unit).value
  {
    var b := RunEnd(s, i + |lead|, Space);
    var c := RunEnd(s, b, DigitOrDot);
    var d := RunEnd(s, c, Space);
    var e := if d < |s| && s[d] in "KMGT" then d + 1 else d;
    var f := if e < |s| && s[e] == 'i' then e + 1 else e;
    assert SizeBodyEnd(s, b) == Some(f);
    NoBarInSize(s, b, c, d, e, f, unit);
  }

  /** The characters of a size: digits and dots, spaces, a unit letter, an `i`, then the unit; none of them is `|`. */
  lemma NoBarInSize(s: string, b: nat, c: nat, d: nat, e: nat, f: nat, unit: string)
    requires b <= c <= d <= e <= f && StartsAt(s, f, unit) && '|' !in unit
    requires forall k | b <= k < c :: InClass(s[k], DigitOrDot)
    requires forall k | c <= k < d :: InClass(s[k], Space)
    requires d < e ==> e == d + 1 && s[d] in "KMGT"
    requires e < f ==> f == e + 1 && s[e] == 'i'
    ensures '|' !in s[b..f + |unit|]
  {
    var v := s[b..f + |unit|];
    forall m | 0 <= m < |v| ensures v[m] != '|' {
      var k := b + m;
      assert v[m] == s[k];
      if k < c {
        assert InClass(s[k], DigitOrDot);
      } else if k < d {
        assert InClass(s[k], Space);
      } else if k >= f {
        assert s[k] == s[f..f + |unit|][k - f];
      }
    }
  }

  lemma EtaShape(s: string, i: nat)
    requires MatchEta(s, i).Some?
    ensures '|' !in MatchEta(s, i).value
  {
    var b := RunEnd(s, i + 3, Space);
    var c := RunEnd(s, b, Digit);
    var d := RunEnd(s, c + 1, Digit);
    var v := s[b..d];
    forall m | 0 <= m < |v| ensures v[m] != '|' {
      assert v[m] == s[b + m];
    }
  }

  /** Splitting a join at `|`, when only the separators hold one, gives one field per part. */
  lemma {:induction false} SplitJoinCount(parts: seq<string>)
    requires |parts| >= 1
    requires forall k | 0 <= k < |parts| :: '|' !in parts[k]
    ensures |Split(Join(parts, " | "), '|')| == |parts|
    decreases |parts|
  {
    if |parts| > 1 {
      var rest := Join(parts[1..], " | ");
      var a := parts[0] + " ";
      assert Join(parts, " | ") == a + "|" + (" " + rest);
      SplitJoinCount(parts[1..]);
      var r := Join(parts[1..], " | ");
      SplitAfterBar(a, " " + rest);
      SplitLeadingSpace(rest);
    } else {
      SplitNoBar(parts[0]);
    }
  }

  lemma SplitNoBar(s: string)
    requires '|' !in s
    ensures Split(s, '|') == [s]
  {
    var k := IndexOf(s, '|', 0);
    assert k == |s|;
  }

  lemma SplitAfterBar(a: string, b: string)
    requires '|' !in a
    ensures Split(a + "|" + b, '|') == [a] + Split(b, '|')
  {
    var s := a + "|" + b;
    IndexOfFirst(s, a);
    assert s[..|a|] == a;
    assert s[|a| + 1..] == b;
  }

  lemma {:induction false} IndexOfFirst(s: string, a: string)
    requires '|' !in a && |a| < |s| && s[..|a|] == a && s[|a|] == '|'
    ensures IndexOf(s, '|', 0) == |a|
  {
    IndexOfFrom(s, 0, |a|);
  }

  lemma {:induction false} IndexOfFrom(s: string, from: nat, k: nat)
    requires from <= k < |s| && s[k] == '|'
    requires forall j | from <= j < k :: s[j] != '|'
    ensures IndexOf(s, '|', from) == k
    decreases k - from
  {
    if from < k {
      IndexOfFrom(s, from + 1, k);
    }
  }

  /** A leading space does not change how many fields a split gives. */
  lemma SplitLeadingSpace(s: string)
    ensures |Split(" " + s, '|')| == |Split(s, '|')|
  {
    var t := " " + s;
    var k := IndexOf(s, '|', 0);
    IndexOfShift(s, 0, k);
    assert IndexOf(t, '|', 0) == k + 1 by {
      assert t[0] != '|';
    }
    if k < |s| {
      assert t[k + 2..] == s[k + 1..];
      assert |Split(t, '|')| == 1 + |Split(s[k + 1..], '|')|;
    } else {
      assert |Split(t, '|')| == 1;
    }
  }

  lemma {:induction false} IndexOfShift(s: string, from: nat, k: nat)
    requires from <= |s| && k == IndexOf(s, '|', from)
    ensures IndexOf(" " + s, '|', from + 1) == k + 1
    decreases |s| - from
  {
    var t := " " + s;
    assert forall j | 0 <= j < |s| :: t[j + 1] == s[j];
    if from < |s| && s[from] != '|' {
      IndexOfShift(s, from + 1, k);
    }
  }

  /** The progress text shows one `|`-separated field per piece found. */
  lemma ParseProgressFieldCount(line: string)
    requires ParseProgress(line) != ""
    ensures |Split(ParseProgress(line), '|')| == |ProgressParts(line)|
  {
    ProgressFieldsBarFree(line);
    SplitJoinCount(ProgressParts(line));
  }

  // ---------------------------------------------------------------- line classification

  /**
   * One line of output after `strip()`, as `_download_single` treats it: skipped when blank, a `[download]`
   * line (the stripped line, and whether it marks a finished file), an ERROR/WARNING line that
   * is logged, a merge/cleanup line that marks a finished file, or anything else.
   */
  datatype LineKind =
    | Blank
    | Download(line: string, complete: bool)
    | Problem(text: string)
    | Merged
    | Other

  function Classify(raw: string): (k: LineKind)
    ensures k.Problem? ==> LogLine(k.text)
  {
    var line := Strip(raw);
    if line == "" then Blank
    else if Contains(line, "[download]") then
      Download(line, Contains(line, "has already been downloaded") || Contains(line, "100%"))
    else if Contains(line, "ERROR") || Contains(line, "WARNING") then Problem(line)
    else if Contains(line, "[Merger]") || Contains(line, "Deleting original file") then Merged
    else Other
  }

  /**
   * Whether a line sets `has_successful_download`: after `strip()`, a `[download]` line with "has already been
   * downloaded" or "100%", or a line without `[download]`, ERROR or WARNING that has `[Merger]` or
   * "Deleting original file".
   */
  predicate SignalsSuccess(raw: string) {
    var line := Strip(raw);
    if Contains(line, "[download]") then Contains(line, "has already been downloaded") || Contains(line, "100%")
    else
      && !Contains(line, "ERROR") && !Contains(line, "WARNING")
      && (Contains(line, "[Merger]") || Contains(line, "Deleting original file"))
  }

  /** The lines that set the flag are the finished `[download]` lines and the merge/cleanup lines of the classification. */
  lemma SignalsSuccessClassified(raw: string)
    ensures SignalsSuccess(raw) <==> (Classify(raw).Download? && Classify(raw).complete) || Classify(raw).Merged?
  {
    var line := Strip(raw);
    if line == "" {
      EmptyContainsNothing("[download]");
      EmptyContainsNothing("[Merger]");
      EmptyContainsNothing("Deleting original file");
    }
  }

  lemma EmptyContainsNothing(p: string)
    requires |p| > 0
    ensures !Contains("", p)
  {
  }

  /** A progress text is only ever offered, and so shown, for a `[download]` line. */
  lemma ProgressOnlyForDownloadLines(raw: string)
    ensures Classify(raw).Download? ==> Contains(Strip(raw), "[download]")
    ensures Offered(raw) != "" ==> Classify(raw).Download? && Contains(Strip(raw), "[download]")
  {
  }

  // ---------------------------------------------------------------- the line loop

  /** The progress text a line offers for display: the parsed progress of a `[download]` line, "" otherwise. */
  function Offered(raw: string): string {
    match Classify(raw)
    case Download(line, _) => ParseProgress(line)
    case _ => ""
  }

  /** The progress texts emitted for `lines`, given the last one emitted before them. */
  function Emitted(lines: seq<string>, last: string): seq<string> {
    Shown(lines, last, Offered)
  }

  /** The last progress text after `lines`. */
  function LastShown(lines: seq<string>, last: string): string {
    LastOf(lines, last, Offered)
  }

  /** The offered texts that are shown: each non-empty one that differs from the one shown before it. */
  function Shown(lines: seq<string>, last: string, offer: string -> string): seq<string>
    decreases |lines|
  {
    if lines == [] then []
    else
      var p := offer(lines[0]);
      if p != "" && p != last then [p] + Shown(lines[1..], p, offer) else Shown(lines[1..], last, offer)
  }

  /** The last text shown once `lines` are through. */
  function LastOf(lines: seq<string>, last: string, offer: string -> string): string
    decreases |lines|
  {
    if lines == [] then last
    else
      var p := offer(lines[0]);
      LastOf(lines[1..], if p != "" && p != last then p else last, offer)
  }

  /** No emitted progress text is empty, none repeats the one before it, and the first differs from `last`. */
  lemma EmittedDistinct(lines: seq<string>, last: string)
    ensures forall k | 0 <= k < |Emitted(lines, last)| :: Emitted(lines, last)[k] != ""
    ensures forall k | 0 < k < |Emitted(lines, last)| :: Emitted(lines, last)[k] != Emitted(lines, last)[k - 1]
    ensures |Emitted(lines, last)| > 0 ==> Emitted(lines, last)[0] != last
  {
    ShownDistinct(lines, last, Offered);
  }

  lemma {:induction false} ShownDistinct(lines: seq<string>, last: string, offer: string -> string)
    ensures forall k | 0 <= k < |Shown(lines, last, offer)| :: Shown(lines, last, offer)[k] != ""
    ensures forall k | 0 < k < |Shown(lines, last, offer)| :: Shown(lines, last, offer)[k] != Shown(lines, last, offer)[k - 1]
    ensures |Shown(lines, last, offer)| > 0 ==> Shown(lines, last, offer)[0] != last
    decreases |lines|
  {
    if lines != [] {
      var p := offer(lines[0]);
      if p != "" && p != last {
        ShownDistinct(lines[1..], p, offer);
        var e := Shown(lines[1..], p, offer);
        assert Shown(lines, last, offer) == [p] + e;
      } else {
        ShownDistinct(lines[1..], last, offer);
      }
    }
  }

  lemma EmittedAppend(lines: seq<string>, line: string, last: string)
    ensures Emitted(lines + [line], last) == Emitted(lines, last) + Emitted([line], LastShown(lines, last))
    ensures LastShown(lines + [line], last) == LastShown([line], LastShown(lines, last))
  {
    ShownAppend(lines, line, last, Offered);
  }

  lemma {:induction false} ShownAppend(lines: seq<string>, line: string, last: string, offer: string -> string)
    ensures Shown(lines + [line], last, offer) == Shown(lines, last, offer) + Shown([line], LastOf(lines, last, offer), offer)
    ensures LastOf(lines + [line], last, offer) == LastOf([line], LastOf(lines, last, offer), offer)
    decreases |lines|
  {
    if lines == [] {
      assert lines + [line] == [line];
    } else {
      assert (lines + [line])[1..] == lines[1..] + [line];
      var p := offer(lines[0]);
      ShownAppend(lines[1..], line, if p != "" && p != last then p else last, offer);
    }
  }

  /** A line the worker logs: it has ERROR or WARNING and is not a `[download]` line. */
  predicate LogLine(t: string) {
    (Contains(t, "ERROR") || Contains(t, "WARNING")) && !Contains(t, "[download]")
  }

  /** What one line adds to the log: the stripped line when it is an ERROR/WARNING line. */
  function ProblemOf(raw: string): (r: seq<string>)
    ensures |r| <= 1
  {
    match Classify(raw)
    case Problem(t) => [t]
    case _ => []
  }

  /** What `pick` takes from each line, in order. */
  function Gather(lines: seq<string>, pick: string -> seq<string>): seq<string>
    decreases |lines|
  {
    if lines == [] then [] else pick(lines[0]) + Gather(lines[1..], pick)
  }

  /** The stripped ERROR/WARNING lines, which are logged. */
  function Logged(lines: seq<string>): seq<string> {
    Gather(lines, ProblemOf)
  }

  /** At most one entry per line is logged, and each is a stripped ERROR/WARNING line that is not a `[download]` line. */
  lemma {:induction false} LoggedProblems(lines: seq<string>)
    ensures |Logged(lines)| <= |lines|
    ensures forall k | 0 <= k < |Logged(lines)| :: LogLine(Logged(lines)[k])
    decreases |lines|
  {
    if lines != [] {
      LoggedProblems(lines[1..]);
      var a := ProblemOf(lines[0]);
      assert forall k | 0 <= k < |a| :: LogLine(a[k]) by {
        if a != [] { assert a[0] == Classify(lines[0]).text; }
      }
      AllLogLines(a, Logged(lines[1..]));
    }
  }

  lemma AllLogLines(a: seq<string>, b: seq<string>)
    requires forall k | 0 <= k < |a| :: LogLine(a[k])
    requires forall k | 0 <= k < |b| :: LogLine(b[k])
    ensures forall k | 0 <= k < |a + b| :: LogLine((a + b)[k])
  {
    forall k | 0 <= k < |a + b| ensures LogLine((a + b)[k]) {
      if k < |a| { assert (a + b)[k] == a[k]; } else { assert (a + b)[k] == b[k - |a|]; }
    }
  }

  lemma LoggedAppend(lines: seq<string>, line: string)
    ensures Logged(lines + [line]) == Logged(lines) + Logged([line])
  {
    GatherAppend(lines, line, ProblemOf);
  }

  lemma {:induction false} GatherAppend(lines: seq<string>, line: string, pick: string -> seq<string>)
    ensures Gather(lines + [line], pick) == Gather(lines, pick) + Gather([line], pick)
    decreases |lines|
  {
    if lines == [] {
      assert lines + [line] == [line];
    } else {
      assert (lines + [line])[1..] == lines[1..] + [line];
      GatherAppend(lines[1..], line, pick);
    }
  }

  /** Whether some line sets `has_successful_download`. */
  predicate AnySuccess(lines: seq<string>) {
    AnyLine(lines, SignalsSuccess)
  }

  /** Whether some line satisfies `f`, checked from the last line back. */
  predicate AnyLine(lines: seq<string>, f: string -> bool)
    decreases |lines|
  {
    lines != [] && (AnyLine(lines[..|lines| - 1], f) || f(lines[|lines| - 1]))
  }

  /** `AnySuccess` holds exactly when one of the lines signals success. */
  lemma AnySuccessSome(lines: seq<string>)
    ensures AnySuccess(lines) <==> exists k | 0 <= k < |lines| :: SignalsSuccess(lines[k])
  {
    AnyLineSome(lines, SignalsSuccess);
  }

  lemma {:induction false} AnyLineSome(lines: seq<string>, f: string -> bool)
    ensures AnyLine(lines, f) <==> exists k | 0 <= k < |lines| :: f(lines[k])
    decreases |lines|
  {
    if lines != [] {
      var init := lines[..|lines| - 1];
      AnyLineSome(init, f);
      assert forall k | 0 <= k < |init| :: init[k] == lines[k];
    }
  }

  /** What one line adds to the progress texts shown, given the last one shown. */
  lemma EmittedOne(line: string, last: string)
    ensures var p := Offered(line);
      && Emitted([line], last) == (if p != "" && p != last then [p] else [])
      && LastShown([line], last) == (if p != "" && p != last then p else last)
  {
    ShownOne(line, last, Offered);
  }

  lemma ShownOne(line: string, last: string, offer: string -> string)
    ensures var p := offer(line);
      && Shown([line], last, offer) == (if p != "" && p != last then [p] else [])
      && LastOf([line], last, offer) == (if p != "" && p != last then p else last)
  {
    assert [line][1..] == [];
  }

  /** What one line adds to the logged lines. */
  lemma LoggedOne(line: string)
    ensures Logged([line]) == ProblemOf(line)
    ensures Classify(line).Problem? ==> Logged([line]) == [Classify(line).text]
    ensures !Classify(line).Problem? ==> Logged([line]) == []
  {
    assert [line][1..] == [];
    assert Gather([line], ProblemOf) == ProblemOf(line) + Gather([], ProblemOf);
  }

  /**
   * The line loop of `_download_single`. `stopAt` is the first line before which the worker finds itself
   * stopped (nothing restarts it within the loop); the process is then terminated and the loop ends.
   * Returns the progress texts shown and `has_successful_download`.
   */
  method ScanOutput(lines: seq<string>, stopAt: nat) returns (shown: seq<string>, logged: seq<string>, sawSuccess: bool)
    ensures var n := if stopAt < |lines| then stopAt else |lines|;
      && shown == Emitted(lines[..n], "")
      && logged == Logged(lines[..n])
      && (sawSuccess <==> AnySuccess(lines[..n]))
  {
    var lastProgress := "";
    shown, logged, sawSuccess := [], [], false;
    var i := 0;
    while i < |lines| && i != stopAt
      invariant 0 <= i <= |lines| && i <= stopAt
      invariant shown == Emitted(lines[..i], "") && lastProgress == LastShown(lines[..i], "")
      invariant logged == Logged(lines[..i])
      invariant sawSuccess <==> AnySuccess(lines[..i])
    {
      ScanStep(lines, i, shown, lastProgress, sawSuccess);
      shown, lastProgress, logged, sawSuccess := ScanLine(lines[i], shown, lastProgress, logged, sawSuccess);
      i := i + 1;
    }
    assert lines[..(if stopAt < |lines| then stopAt else |lines|)] == lines[..i];
  }

  /**
   * The body of the line loop: one line of output read, stripped and acted on as `Classify` sorts it (the
   * branches of `Classify` are the loop body's if-chain, in the same order).
   */
  method ScanLine(raw: string, shown: seq<string>, lastProgress: string, logged: seq<string>, sawSuccess: bool)
    returns (shown': seq<string>, lastProgress': string, logged': seq<string>, sawSuccess': bool)
    ensures shown' == shown + Emitted([raw], lastProgress) && lastProgress' == LastShown([raw], lastProgress)
    ensures logged' == logged + Logged([raw])
    ensures sawSuccess' == (sawSuccess || SignalsSuccess(raw))
  {
    LineEffect(raw, lastProgress);
    shown', lastProgress', logged', sawSuccess' := shown, lastProgress, logged, sawSuccess;
    var kind := Classify(raw);
    if !kind.Problem? {
      assert logged + Logged([raw]) == logged;
    }
    match kind
    case Download(line, complete) =>
      var progressInfo := ParseProgress(line);
      if progressInfo != "" && progressInfo != lastProgress {
        shown' := shown + [progressInfo];
        lastProgress' := progressInfo;
      }
      if complete {
        sawSuccess' := true;
      }
    case Problem(line) =>
      logged' := logged + [line];
    case Merged =>
      sawSuccess' := true;
    case _ =>
  }

  /** What one line contributes, case by case of its classification. */
  lemma LineEffect(raw: string, last: string)
    ensures var k := Classify(raw);
      var p := if k.Download? then ParseProgress(k.line) else "";
      && Emitted([raw], last) == (if p != "" && p != last then [p] else [])
      && LastShown([raw], last) == (if p != "" && p != last then p else last)
      && Logged([raw]) == (if k.Problem? then [k.text] else [])
      && (SignalsSuccess(raw) <==> (k.Download? && k.complete) || k.Merged?)
  {
    EmittedOne(raw, last);
    LoggedOne(raw);
    SignalsSuccessClassified(raw);
  }

  /** The loop invariant carried over one line. */
  lemma ScanStep(lines: seq<string>, i: nat, shown: seq<string>, last: string, saw: bool)
    requires i < |lines|
    requires shown == Emitted(lines[..i], "") && last == LastShown(lines[..i], "")
    requires saw <==> AnySuccess(lines[..i])
    ensures shown + Emitted([lines[i]], last) == Emitted(lines[..i + 1], "")
    ensures LastShown([lines[i]], last) == LastShown(lines[..i + 1], "")
    ensures (saw || SignalsSuccess(lines[i])) <==> AnySuccess(lines[..i + 1])
    ensures Logged(lines[..i]) + Logged([lines[i]]) == Logged(lines[..i + 1])
  {
    SliceStep(lines, i);
    EmittedAppend(lines[..i], lines[i], "");
    LoggedAppend(lines[..i], lines[i]);
    SuccessStep(lines[..i], lines[i]);
  }

  lemma SliceStep<T>(s: seq<T>, i: nat)
    requires i < |s|
    ensures s[..i + 1] == s[..i] + [s[i]]
  {
  }

  lemma SuccessStep(lines: seq<string>, line: string)
    ensures AnySuccess(lines + [line]) <==> AnySuccess(lines) || SignalsSuccess(line)
  {
    AnyLineStep(lines, line, SignalsSuccess);
  }

  lemma AnyLineStep(lines: seq<string>, line: string, f: string -> bool)
    ensures AnyLine(lines + [line], f) <==> AnyLine(lines, f) || f(line)
  {
    assert (lines + [line])[..|lines|] == lines;
  }

  /** How the yt-dlp process ended: its exit code, a timeout, or a failure to start it. */
  datatype Exit = Exited(code: int) | TimedOut | StartFailed

  /**
   * `_download_single` after the command is built: the output lines are scanned until the worker is found
   * stopped, then the outcome is exit code 0 or a line that marks a finished file. A timeout, or a process
   * that could not be started, is a failure.
   */
  method DownloadSingle(lines: seq<string>, stopAt: nat, exit: Exit)
    returns (ok: bool, shown: seq<string>, logged: seq<string>)
    ensures var n := if exit.StartFailed? then 0 else if stopAt < |lines| then stopAt else |lines|;
      && shown == Emitted(lines[..n], "") && logged == Logged(lines[..n])
      && (ok <==> exit.Exited? && (exit.code == 0 || AnySuccess(lines[..n])))
  {
    if exit.StartFailed? {
      return false, [], [];
    }
    var sawSuccess;
    shown, logged, sawSuccess := ScanOutput(lines, stopAt);
    match exit
    case Exited(code) => ok := code == 0 || sawSuccess;
    case TimedOut => ok := false;
  }

  /** One yt-dlp run as the worker sees it: its output lines, where a stop cuts them off, and how it ended. */
  datatype ProcessRun = ProcessRun(lines: seq<string>, stopAt: nat, exit: Exit)

  /** How many output lines are read. */
  function ScanEnd(r: ProcessRun): (n: nat)
    ensures n <= |r.lines|
  {
    if r.exit.StartFailed? then 0 else if r.stopAt < |r.lines| then r.stopAt else |r.lines|
  }

  /** The rule `_download_single` returns by. */
  predicate RunSucceeds(r: ProcessRun) {
    r.exit.Exited? && (r.exit.code == 0 || AnySuccess(r.lines[..ScanEnd(r)]))
  }
}
