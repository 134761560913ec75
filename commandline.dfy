// The yt-dlp command line both command builders produce: the program name,
// option tokens and the URL last. This module reads such a line back into the
// options yt-dlp would see; the builders are proved against this reading.

module CommandLine {
  import opened Wrappers

  /** The yt-dlp options the two command builders use. */
  datatype Flag =
    | Output | Format | Cookies | LimitRate | Referer | AddHeader | UserAgent
    | SubLangs | ConvertSubs | TrimFilenames | Retries | FragmentRetries
    | NoPlaylist | Progress | Newline | WriteSubs | WriteAutoSubs | EmbedSubs
    | SkipDownload | NoWarnings | IgnoreErrors

  /** Whether the option takes the following token as its value. */
  predicate TakesValue(f: Flag) {
    match f
    case NoPlaylist | Progress | Newline | WriteSubs | WriteAutoSubs | EmbedSubs
       | SkipDownload | NoWarnings | IgnoreErrors => false
    case _ => true
  }

  /** The token yt-dlp knows the option by. */
  function Token(f: Flag): string {
    match f
    case Output => "-o"
    case Format => "-f"
    case Cookies => "--cookies"
    case LimitRate => "--limit-rate"
    case Referer => "--referer"
    case AddHeader => "--add-header"
    case UserAgent => "--user-agent"
    case SubLangs => "--sub-langs"
    case ConvertSubs => "--convert-subs"
    case TrimFilenames => "--trim-filenames"
    case Retries => "--retries"
    case FragmentRetries => "--fragment-retries"
    case NoPlaylist => "--no-playlist"
    case Progress => "--progress"
    case Newline => "--newline"
    case WriteSubs => "--write-subs"
    case WriteAutoSubs => "--write-auto-subs"
    case EmbedSubs => "--embed-subs"
    case SkipDownload => "--skip-download"
    case NoWarnings => "--no-warnings"
    case IgnoreErrors => "--ignore-errors"
  }

  /** The option a token names, if any. */
  function FlagOf(t: string): (r: Option<Flag>)
    ensures r.Some? ==> Token(r.value) == t
  {
    if t == "-o" then Some(Output)
    else if t == "-f" then Some(Format)
    else if t == "--cookies" then Some(Cookies)
    else if t == "--limit-rate" then Some(LimitRate)
    else if t == "--referer" then Some(Referer)
    else if t == "--add-header" then Some(AddHeader)
    else if t == "--user-agent" then Some(UserAgent)
    else if t == "--sub-langs" then Some(SubLangs)
    else if t == "--convert-subs" then Some(ConvertSubs)
    else if t == "--trim-filenames" then Some(TrimFilenames)
    else if t == "--retries" then Some(Retries)
    else if t == "--fragment-retries" then Some(FragmentRetries)
    else if t == "--no-playlist" then Some(NoPlaylist)
    else if t == "--progress" then Some(Progress)
    else if t == "--newline" then Some(Newline)
    else if t == "--write-subs" then Some(WriteSubs)
    else if t == "--write-auto-subs" then Some(WriteAutoSubs)
    else if t == "--embed-subs" then Some(EmbedSubs)
    else if t == "--skip-download" then Some(SkipDownload)
    else if t == "--no-warnings" then Some(NoWarnings)
    else if t == "--ignore-errors" then Some(IgnoreErrors)
    else None
  }

  /** Every option's token names that option and no other. */
  lemma FlagOfToken(f: Flag)
    ensures FlagOf(Token(f)) == Some(f)
  {
    if TakesValue(f) {
      ValueFlagOfToken(f);
    } else {
      SwitchFlagOfToken(f);
    }
  }

  lemma ValueFlagOfToken(f: Flag)
    requires TakesValue(f)
    ensures FlagOf(Token(f)) == Some(f)
  {
    match f
    case Output =>
    case Format =>
    case Cookies =>
    case LimitRate =>
    case Referer =>
    case AddHeader =>
    case UserAgent =>
    case SubLangs =>
    case ConvertSubs =>
    case TrimFilenames =>
    case Retries =>
    case FragmentRetries =>
  }

  lemma SwitchFlagOfToken(f: Flag)
    requires !TakesValue(f)
    ensures FlagOf(Token(f)) == Some(f)
  {
    match f
    case NoPlaylist =>
    case Progress =>
    case Newline =>
    case WriteSubs =>
    case WriteAutoSubs =>
    case EmbedSubs =>
    case SkipDownload =>
    case NoWarnings =>
    case IgnoreErrors =>
  }

  /** No two options share a token. */
  lemma TokenInjective(f: Flag, g: Flag)
    ensures Token(f) == Token(g) <==> f == g
  {
    FlagOfToken(f);
    FlagOfToken(g);
  }

  datatype Arg = Switch(flag: Flag) | Valued(flag: Flag, value: string)

  /** Value options carry a value and switches do not. */
  predicate WellFormed(args: seq<Arg>) {
    forall k | 0 <= k < |args| :: args[k].Valued? <==> TakesValue(args[k].flag)
  }

  /** The tokens of a list of options. */
  function Render(args: seq<Arg>): (ts: seq<string>)
    ensures |ts| >= |args|
  {
    if args == [] then []
    else
      (match args[0]
       case Switch(f) => [Token(f)]
       case Valued(f, v) => [Token(f), v]) + Render(args[1..])
  }

  lemma {:induction false} RenderAppend(a: seq<Arg>, b: seq<Arg>)
    ensures Render(a + b) == Render(a) + Render(b)
    decreases |a|
  {
    if a != [] {
      assert (a + b)[1..] == a[1..] + b;
      RenderAppend(a[1..], b);
    } else {
      assert a + b == b;
    }
  }

  /** Reads option tokens; an unknown token or a value option without its value is rejected. */
  function ParseArgs(ts: seq<string>): (r: Option<seq<Arg>>)
    ensures r.Some? ==> WellFormed(r.value)
    decreases |ts|
  {
    if ts == [] then Some([])
    else
      match FlagOf(ts[0])
      case None => None
      case Some(f) =>
        if !TakesValue(f) then
          match ParseArgs(ts[1..])
          case Some(rest) => Some([Switch(f)] + rest)
          case None => None
        else if |ts| >= 2 then
          match ParseArgs(ts[2..])
          case Some(rest) => Some([Valued(f, ts[1])] + rest)
          case None => None
        else None
  }

  /** Reading back rendered options gives the same options. */
  lemma {:induction false} ParseRender(args: seq<Arg>)
    requires WellFormed(args)
    ensures ParseArgs(Render(args)) == Some(args)
    decreases |args|
  {
    if args != [] {
      assert WellFormed(args[1..]) by {
        forall k | 0 <= k < |args[1..]|
          ensures args[1..][k].Valued? <==> TakesValue(args[1..][k].flag)
        {
          assert args[1..][k] == args[k + 1];
        }
      }
      ParseRender(args[1..]);
      assert args == [args[0]] + args[1..];
      ParseOne(args[0], args[1..]);
    }
  }

  /** One option in front of options that read back. */
  lemma ParseOne(a: Arg, rest: seq<Arg>)
    requires a.Valued? <==> TakesValue(a.flag)
    requires ParseArgs(Render(rest)) == Some(rest)
    ensures ParseArgs(Render([a] + rest)) == Some([a] + rest)
  {
    var args := [a] + rest;
    assert args[0] == a && args[1..] == rest;
    var ts := Render(args);
    FlagOfToken(a.flag);
    match a
    case Switch(f) =>
      assert ts == [Token(f)] + Render(rest);
      assert ts[1..] == Render(rest);
    case Valued(f, v) =>
      assert ts == [Token(f), v] + Render(rest);
      assert ts[2..] == Render(rest);
  }

  /** A command line: the options given to yt-dlp and the URL it downloads. */
  datatype Invocation = Invocation(args: seq<Arg>, url: string)

  /** `yt-dlp`, well-formed options, then the URL as the last token. */
  function Parse(cmd: seq<string>): (r: Option<Invocation>)
    ensures r.Some? ==> |cmd| >= 2 && cmd[0] == "yt-dlp" && r.value.url == cmd[|cmd| - 1]
    ensures r.Some? ==> WellFormed(r.value.args)
  {
    if |cmd| >= 2 && cmd[0] == "yt-dlp" then
      match ParseArgs(cmd[1..|cmd| - 1])
      case Some(args) => Some(Invocation(args, cmd[|cmd| - 1]))
      case None => None
    else None
  }

  /** A line built from well-formed options is read back as exactly those options and that URL. */
  lemma ParseBuilt(args: seq<Arg>, url: string)
    requires WellFormed(args)
    ensures Parse(["yt-dlp"] + Render(args) + [url]) == Some(Invocation(args, url))
  {
    var cmd := ["yt-dlp"] + Render(args) + [url];
    assert cmd[1..|cmd| - 1] == Render(args);
    ParseRender(args);
  }

  /** Whether option `f` is given. */
  predicate Has(args: seq<Arg>, f: Flag) {
    exists k | 0 <= k < |args| :: args[k].flag == f
  }

  /** The value of the last occurrence of option `f`, the one yt-dlp uses. */
  function ValueOf(args: seq<Arg>, f: Flag): (r: Option<string>)
    ensures r.Some? <==> exists k | 0 <= k < |args| :: args[k].Valued? && args[k].flag == f
    decreases |args|
  {
    if args == [] then None
    else
      var last := args[|args| - 1];
      if last.Valued? && last.flag == f then Some(last.value)
      else ValueOf(args[..|args| - 1], f)
  }

  /** Every value given for option `f`, in order (repeatable options such as `--add-header`). */
  function Values(args: seq<Arg>, f: Flag): (r: seq<string>)
    ensures |r| <= |args|
    decreases |args|
  {
    if args == [] then []
    else
      (if args[0].Valued? && args[0].flag == f then [args[0].value] else []) + Values(args[1..], f)
  }

  lemma HasAppend(a: seq<Arg>, b: seq<Arg>, f: Flag)
    ensures Has(a + b, f) <==> Has(a, f) || Has(b, f)
  {
    if Has(a + b, f) {
      var k :| 0 <= k < |a + b| && (a + b)[k].flag == f;
      if k >= |a| { assert b[k - |a|].flag == f; }
    }
    if Has(b, f) {
      var k :| 0 <= k < |b| && b[k].flag == f;
      assert (a + b)[k + |a|].flag == f;
    }
    if Has(a, f) {
      var k :| 0 <= k < |a| && a[k].flag == f;
      assert (a + b)[k].flag == f;
    }
  }

  /** A later option overrides an earlier one of the same name. */
  lemma {:induction false} ValueOfAppend(a: seq<Arg>, b: seq<Arg>, f: Flag)
    ensures ValueOf(a + b, f) == if ValueOf(b, f).Some? then ValueOf(b, f) else ValueOf(a, f)
    decreases |b|
  {
    if b == [] {
      assert a + b == a;
    } else {
      assert (a + b)[..|a + b| - 1] == a + b[..|b| - 1];
      ValueOfAppend(a, b[..|b| - 1], f);
    }
  }

  lemma {:induction false} ValuesAppend(a: seq<Arg>, b: seq<Arg>, f: Flag)
    ensures Values(a + b, f) == Values(a, f) + Values(b, f)
    decreases |a|
  {
    if a == [] {
      assert a + b == b;
    } else {
      assert (a + b)[1..] == a[1..] + b;
      ValuesAppend(a[1..], b, f);
    }
  }

  /** No option in `args` is `f`. */
  predicate Absent(args: seq<Arg>, f: Flag) {
    forall k | 0 <= k < |args| :: args[k].flag != f
  }

  lemma WellFormedAppend(a: seq<Arg>, b: seq<Arg>)
    requires WellFormed(a) && WellFormed(b)
    ensures WellFormed(a + b)
  {
    assert forall k | 0 <= k < |a + b| :: (a + b)[k] == if k < |a| then a[k] else b[k - |a|];
  }

  /** An option given only in the middle part is read from the middle part alone. */
  lemma OnlyIn(before: seq<Arg>, p: seq<Arg>, after: seq<Arg>, f: Flag)
    requires Absent(before, f) && Absent(after, f)
    ensures ValueOf(before + p + after, f) == ValueOf(p, f)
    ensures Values(before + p + after, f) == Values(p, f)
    ensures Has(before + p + after, f) <==> Has(p, f)
  {
    ValueOfAppend(before + p, after, f);
    ValueOfAppend(before, p, f);
    ValuesAppend(before + p, after, f);
    ValuesAppend(before, p, f);
    AbsentValues(before, f);
    AbsentValues(after, f);
    HasAppend(before + p, after, f);
    HasAppend(before, p, f);
  }

  lemma {:induction false} AbsentValues(args: seq<Arg>, f: Flag)
    requires Absent(args, f)
    ensures Values(args, f) == [] && ValueOf(args, f) == None && !Has(args, f)
    decreases |args|
  {
    if args != [] {
      AbsentValues(args[1..], f);
    }
  }

  // A command assembled from parts, one part per setting, where each option comes from one part only.

  /** The parts one after the other. */
  function Concat(parts: seq<seq<Arg>>): (r: seq<Arg>)
    decreases |parts|
  {
    if parts == [] then [] else Concat(parts[..|parts| - 1]) + parts[|parts| - 1]
  }

  /** The tokens of the parts one after the other. */
  function RenderParts(parts: seq<seq<Arg>>): (r: seq<string>)
    decreases |parts|
  {
    if parts == [] then [] else RenderParts(parts[..|parts| - 1]) + Render(parts[|parts| - 1])
  }

  lemma {:induction false} RenderConcat(parts: seq<seq<Arg>>)
    ensures Render(Concat(parts)) == RenderParts(parts)
    decreases |parts|
  {
    if parts != [] {
      var init := parts[..|parts| - 1];
      RenderConcat(init);
      RenderAppend(Concat(init), parts[|parts| - 1]);
    }
  }

  /** Every option of `p` belongs to group `i`. */
  ghost predicate InGroup(p: seq<Arg>, group: Flag -> nat, i: nat) {
    forall k | 0 <= k < |p| :: group(p[k].flag) == i
  }

  /** Every option of part `i` belongs to group `i`. */
  ghost predicate Grouped(parts: seq<seq<Arg>>, group: Flag -> nat)
    decreases |parts|
  {
    parts == [] || (Grouped(parts[..|parts| - 1], group) && InGroup(parts[|parts| - 1], group, |parts| - 1))
  }

  /** Every part is well formed. */
  ghost predicate AllWellFormed(parts: seq<seq<Arg>>)
    decreases |parts|
  {
    parts == [] || (AllWellFormed(parts[..|parts| - 1]) && WellFormed(parts[|parts| - 1]))
  }

  /** One more part, whose options all belong to the next group. */
  lemma AddPart(parts: seq<seq<Arg>>, p: seq<Arg>, group: Flag -> nat)
    requires Grouped(parts, group) && AllWellFormed(parts) && WellFormed(p) && InGroup(p, group, |parts|)
    ensures Grouped(parts + [p], group) && AllWellFormed(parts + [p])
    ensures RenderParts(parts + [p]) == RenderParts(parts) + Render(p)
    ensures Concat(parts + [p]) == Concat(parts) + p
  {
    var q := parts + [p];
    assert q[..|q| - 1] == parts;
  }

  /** The part an option of group `j` comes from; none when there is no such part. */
  function Part(parts: seq<seq<Arg>>, j: nat): seq<Arg> {
    if j < |parts| then parts[j] else []
  }

  lemma {:induction false} ConcatBelow(parts: seq<seq<Arg>>, group: Flag -> nat, f: Flag)
    requires Grouped(parts, group) && group(f) >= |parts|
    ensures Absent(Concat(parts), f)
    decreases |parts|
  {
    if parts != [] {
      var init := parts[..|parts| - 1];
      var last := parts[|parts| - 1];
      ConcatBelow(init, group, f);
      assert InGroup(last, group, |parts| - 1);
      assert forall k | 0 <= k < |Concat(init) + last| ::
        (Concat(init) + last)[k] == if k < |Concat(init)| then Concat(init)[k] else last[k - |Concat(init)|];
    }
  }

  lemma GroupedInit(parts: seq<seq<Arg>>, group: Flag -> nat)
    requires Grouped(parts, group) && parts != []
    ensures Grouped(parts[..|parts| - 1], group)
    ensures var last := parts[|parts| - 1]; forall k | 0 <= k < |last| :: group(last[k].flag) == |parts| - 1
  {
    assert InGroup(parts[|parts| - 1], group, |parts| - 1);
  }

  /** Each option is read from the one part of its group. */
  lemma ReadGrouped(parts: seq<seq<Arg>>, group: Flag -> nat, f: Flag)
    requires Grouped(parts, group)
    ensures ValueOf(Concat(parts), f) == ValueOf(Part(parts, group(f)), f)
    ensures Values(Concat(parts), f) == Values(Part(parts, group(f)), f)
    ensures Has(Concat(parts), f) <==> Has(Part(parts, group(f)), f)
  {
    ReadGroupedValue(parts, group, f);
    ReadGroupedValues(parts, group, f);
    ReadGroupedHas(parts, group, f);
  }

  lemma {:induction false} ReadGroupedValue(parts: seq<seq<Arg>>, group: Flag -> nat, f: Flag)
    requires Grouped(parts, group)
    ensures ValueOf(Concat(parts), f) == ValueOf(Part(parts, group(f)), f)
    decreases |parts|
  {
    if parts != [] {
      var n := |parts|;
      var init, last := parts[..n - 1], parts[n - 1];
      GroupedInit(parts, group);
      if group(f) == n - 1 {
        ConcatBelow(init, group, f);
        ValueFromLast(Concat(init), last, f);
      } else {
        ReadGroupedValue(init, group, f);
        ValueFromInit(Concat(init), last, f);
        assert Part(init, group(f)) == Part(parts, group(f));
      }
    }
  }

  lemma ValueFromLast(a: seq<Arg>, b: seq<Arg>, f: Flag)
    requires Absent(a, f)
    ensures ValueOf(a + b, f) == ValueOf(b, f)
  {
    ValueOfAppend(a, b, f);
    AbsentValues(a, f);
  }

  lemma ValueFromInit(a: seq<Arg>, b: seq<Arg>, f: Flag)
    requires Absent(b, f)
    ensures ValueOf(a + b, f) == ValueOf(a, f)
  {
    ValueOfAppend(a, b, f);
    AbsentValues(b, f);
  }

  lemma {:induction false} ReadGroupedValues(parts: seq<seq<Arg>>, group: Flag -> nat, f: Flag)
    requires Grouped(parts, group)
    ensures Values(Concat(parts), f) == Values(Part(parts, group(f)), f)
    decreases |parts|
  {
    if parts != [] {
      var n := |parts|;
      var init, last := parts[..n - 1], parts[n - 1];
      GroupedInit(parts, group);
      ValuesAppend(Concat(init), last, f);
      if group(f) == n - 1 {
        ConcatBelow(init, group, f);
        AbsentValues(Concat(init), f);
      } else {
        AbsentValues(last, f);
        ReadGroupedValues(init, group, f);
        assert Part(init, group(f)) == Part(parts, group(f));
      }
    }
  }

  lemma {:induction false} ReadGroupedHas(parts: seq<seq<Arg>>, group: Flag -> nat, f: Flag)
    requires Grouped(parts, group)
    ensures Has(Concat(parts), f) <==> Has(Part(parts, group(f)), f)
    decreases |parts|
  {
    if parts == [] {
      AbsentValues([], f);
    } else {
      var n := |parts|;
      var init, last := parts[..n - 1], parts[n - 1];
      GroupedInit(parts, group);
      HasAppend(Concat(init), last, f);
      if group(f) == n - 1 {
        ConcatBelow(init, group, f);
        AbsentValues(Concat(init), f);
      } else {
        AbsentValues(last, f);
        ReadGroupedHas(init, group, f);
        assert Part(init, group(f)) == Part(parts, group(f));
      }
    }
  }

  lemma {:induction false} ConcatWellFormed(parts: seq<seq<Arg>>)
    requires AllWellFormed(parts)
    ensures WellFormed(Concat(parts))
    decreases |parts|
  {
    if parts != [] {
      var init := parts[..|parts| - 1];
      ConcatWellFormed(init);
      WellFormedAppend(Concat(init), parts[|parts| - 1]);
    }
  }

  /** A command line grown by the tokens of one more part. */
  lemma ExtendCommand(cmd: seq<string>, parts: seq<seq<Arg>>, p: seq<Arg>, group: Flag -> nat)
    requires cmd == ["yt-dlp"] + RenderParts(parts)
    requires Grouped(parts, group) && AllWellFormed(parts) && WellFormed(p) && InGroup(p, group, |parts|)
    ensures cmd + Render(p) == ["yt-dlp"] + RenderParts(parts + [p])
    ensures Grouped(parts + [p], group) && AllWellFormed(parts + [p])
  {
    AddPart(parts, p, group);
    AppendAssoc(["yt-dlp"], RenderParts(parts), Render(p));
  }

  /** `p` is well formed and its options all belong to group `i`. */
  ghost predicate PartIn(p: seq<Arg>, group: Flag -> nat, i: nat) {
    WellFormed(p) && InGroup(p, group, i)
  }

  /** `cmd` is `yt-dlp` followed by the tokens of `parts`, which are grouped and well formed. */
  ghost predicate Built(cmd: seq<string>, parts: seq<seq<Arg>>, group: Flag -> nat) {
    cmd == ["yt-dlp"] + RenderParts(parts) && Grouped(parts, group) && AllWellFormed(parts)
  }

  lemma Extend(cmd: seq<string>, parts: seq<seq<Arg>>, p: seq<Arg>, group: Flag -> nat)
    requires Built(cmd, parts, group) && PartIn(p, group, |parts|)
    ensures Built(cmd + Render(p), parts + [p], group)
  {
    ExtendCommand(cmd, parts, p, group);
  }

  lemma Build1(p0: seq<Arg>, group: Flag -> nat)
    requires PartIn(p0, group, 0)
    ensures Built(["yt-dlp"] + Render(p0), [p0], group)
  {
    var e: seq<seq<Arg>> := [];
    assert Built(["yt-dlp"], e, group);
    Extend(["yt-dlp"], e, p0, group);
    assert e + [p0] == [p0];
  }

  lemma Build2(p0: seq<Arg>, p1: seq<Arg>, group: Flag -> nat)
    requires PartIn(p0, group, 0) && PartIn(p1, group, 1)
    ensures Built(["yt-dlp"] + Render(p0) + Render(p1), [p0, p1], group)
  {
    Build1(p0, group);
    Extend(["yt-dlp"] + Render(p0), [p0], p1, group);
    assert [p0] + [p1] == [p0, p1];
  }

  lemma Build3(p0: seq<Arg>, p1: seq<Arg>, p2: seq<Arg>, group: Flag -> nat)
    requires PartIn(p0, group, 0) && PartIn(p1, group, 1) && PartIn(p2, group, 2)
    ensures Built(["yt-dlp"] + Render(p0) + Render(p1) + Render(p2), [p0, p1, p2], group)
  {
    Build2(p0, p1, group);
    Extend(["yt-dlp"] + Render(p0) + Render(p1), [p0, p1], p2, group);
    assert [p0, p1] + [p2] == [p0, p1, p2];
  }

  lemma Build4(p0: seq<Arg>, p1: seq<Arg>, p2: seq<Arg>, p3: seq<Arg>, group: Flag -> nat)
    requires PartIn(p0, group, 0) && PartIn(p1, group, 1) && PartIn(p2, group, 2) && PartIn(p3, group, 3)
    ensures Built(["yt-dlp"] + Render(p0) + Render(p1) + Render(p2) + Render(p3), [p0, p1, p2, p3], group)
  {
    Build3(p0, p1, p2, group);
    Extend(["yt-dlp"] + Render(p0) + Render(p1) + Render(p2), [p0, p1, p2], p3, group);
    assert [p0, p1, p2] + [p3] == [p0, p1, p2, p3];
  }

  lemma Build5(p0: seq<Arg>, p1: seq<Arg>, p2: seq<Arg>, p3: seq<Arg>, p4: seq<Arg>, group: Flag -> nat)
    requires PartIn(p0, group, 0) && PartIn(p1, group, 1) && PartIn(p2, group, 2) && PartIn(p3, group, 3)
    requires PartIn(p4, group, 4)
    ensures Built(["yt-dlp"] + Render(p0) + Render(p1) + Render(p2) + Render(p3) + Render(p4), [p0, p1, p2, p3, p4], group)
  {
    Build4(p0, p1, p2, p3, group);
    Extend(["yt-dlp"] + Render(p0) + Render(p1) + Render(p2) + Render(p3), [p0, p1, p2, p3], p4, group);
    assert [p0, p1, p2, p3] + [p4] == [p0, p1, p2, p3, p4];
  }

  lemma Build6(p0: seq<Arg>, p1: seq<Arg>, p2: seq<Arg>, p3: seq<Arg>, p4: seq<Arg>, p5: seq<Arg>, group: Flag -> nat)
    requires PartIn(p0, group, 0) && PartIn(p1, group, 1) && PartIn(p2, group, 2) && PartIn(p3, group, 3)
    requires PartIn(p4, group, 4) && PartIn(p5, group, 5)
    ensures Built(["yt-dlp"] + Render(p0) + Render(p1) + Render(p2) + Render(p3) + Render(p4) + Render(p5),
                  [p0, p1, p2, p3, p4, p5], group)
  {
    Build5(p0, p1, p2, p3, p4, group);
    Extend(["yt-dlp"] + Render(p0) + Render(p1) + Render(p2) + Render(p3) + Render(p4), [p0, p1, p2, p3, p4], p5, group);
    assert [p0, p1, p2, p3, p4] + [p5] == [p0, p1, p2, p3, p4, p5];
  }

  lemma Build7(p0: seq<Arg>, p1: seq<Arg>, p2: seq<Arg>, p3: seq<Arg>, p4: seq<Arg>, p5: seq<Arg>, p6: seq<Arg>,
               group: Flag -> nat)
    requires PartIn(p0, group, 0) && PartIn(p1, group, 1) && PartIn(p2, group, 2) && PartIn(p3, group, 3)
    requires PartIn(p4, group, 4) && PartIn(p5, group, 5) && PartIn(p6, group, 6)
    ensures Built(["yt-dlp"] + Render(p0) + Render(p1) + Render(p2) + Render(p3) + Render(p4) + Render(p5) + Render(p6),
                  [p0, p1, p2, p3, p4, p5, p6], group)
  {
    Build6(p0, p1, p2, p3, p4, p5, group);
    Extend(["yt-dlp"] + Render(p0) + Render(p1) + Render(p2) + Render(p3) + Render(p4) + Render(p5),
           [p0, p1, p2, p3, p4, p5], p6, group);
    assert [p0, p1, p2, p3, p4, p5] + [p6] == [p0, p1, p2, p3, p4, p5, p6];
  }

  lemma Build8(p0: seq<Arg>, p1: seq<Arg>, p2: seq<Arg>, p3: seq<Arg>, p4: seq<Arg>, p5: seq<Arg>, p6: seq<Arg>,
               p7: seq<Arg>, group: Flag -> nat)
    requires PartIn(p0, group, 0) && PartIn(p1, group, 1) && PartIn(p2, group, 2) && PartIn(p3, group, 3)
    requires PartIn(p4, group, 4) && PartIn(p5, group, 5) && PartIn(p6, group, 6) && PartIn(p7, group, 7)
    ensures Built(["yt-dlp"] + Render(p0) + Render(p1) + Render(p2) + Render(p3) + Render(p4) + Render(p5) + Render(p6)
                  + Render(p7), [p0, p1, p2, p3, p4, p5, p6, p7], group)
  {
    Build7(p0, p1, p2, p3, p4, p5, p6, group);
    Extend(["yt-dlp"] + Render(p0) + Render(p1) + Render(p2) + Render(p3) + Render(p4) + Render(p5) + Render(p6),
           [p0, p1, p2, p3, p4, p5, p6], p7, group);
    assert [p0, p1, p2, p3, p4, p5, p6] + [p7] == [p0, p1, p2, p3, p4, p5, p6, p7];
  }

  lemma AppendAssoc<T>(x: seq<T>, y: seq<T>, z: seq<T>)
    ensures x + y + z == x + (y + z)
  {
  }

  /** A command line built part by part reads back as its parts' options and its URL. */
  lemma ParseParts(parts: seq<seq<Arg>>, url: string)
    requires AllWellFormed(parts)
    ensures Parse(["yt-dlp"] + RenderParts(parts) + [url]) == Some(Invocation(Concat(parts), url))
  {
    ConcatWellFormed(parts);
    RenderConcat(parts);
    ParseBuilt(Concat(parts), url);
  }

  /** The value of an option is the one its part gives. */
  lemma ValueFrom(parts: seq<seq<Arg>>, group: Flag -> nat, f: Flag, j: nat)
    requires Grouped(parts, group) && j < |parts| && group(f) == j
    ensures ValueOf(Concat(parts), f) == ValueOf(parts[j], f)
  {
    ReadGroupedValue(parts, group, f);
  }

  /** An option is given exactly when its part gives it. */
  lemma HasFrom(parts: seq<seq<Arg>>, group: Flag -> nat, f: Flag, j: nat)
    requires Grouped(parts, group) && j < |parts| && group(f) == j
    ensures Has(Concat(parts), f) <==> Has(parts[j], f)
  {
    ReadGroupedHas(parts, group, f);
  }

  /** An option no part is for is not given. */
  lemma NowhereIn(parts: seq<seq<Arg>>, group: Flag -> nat, f: Flag)
    requires Grouped(parts, group) && group(f) >= |parts|
    ensures !Has(Concat(parts), f)
  {
    ConcatBelow(parts, group, f);
    AbsentValues(Concat(parts), f);
  }
}
