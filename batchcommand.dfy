// The settings of a batch task and what `_build_ytdlp_command` makes of them:
// the cookie file, the output template, the quality, the subtitle options,
// filename trimming and the bilibili headers, each read back from the line.

module BatchCommand {
  import opened Wrappers
  import opened Strings
  import opened Platform
  import opened CommandLine

  /**
   * The settings a batch task reads. A setting that is missing, `None` or empty is `""` (text) or `false`
   * (switches); `subtitle_lang` and `trim_filename_length` keep the difference between missing and given,
   * because only a missing key takes the default.
   */
  datatype Settings = Settings(
    useCookies: bool,
    cookieFiles: map<Platform, string>,
    downloadPath: string,
    useCustomFilename: bool,
    customFilenameTemplate: string,
    quality: string,
    downloadSubtitle: bool,
    autoSubtitle: bool,
    subtitleLang: Option<string>,
    subtitleOnly: bool,
    autoTrimFilename: bool,
    trimFilenameLength: Option<int>)

  const DefaultTemplate := "%(uploader)s - %(title)s [%(id)s]"
  const ExtSuffix := ".%(ext)s"
  const DefaultSubtitleLang := "zh-TW,zh,en"
  const DefaultTrimLength := 120
  const BestFormat := "bestvideo+bestaudio/best"
  const WorstFormat := "worstvideo+worstaudio/worst"
  const BilibiliSite := "https://www.bilibili.com"
  const BrowserAgent := "Mozilla/5.0 (Windows NT 10.0; Win64; x64) AppleWebKit/537.36"

  /** The height caps a quality name may select. */
  const QualityCaps: map<string, nat> := map[
    "4320p" := 4320, "2160p" := 2160, "1440p" := 1440, "1080p" := 1080,
    "720p" := 720, "480p" := 480, "360p" := 360, "240p" := 240]

  /** `settings.get(f"{platform}_cookie_file")`, `""` when unset. */
  function CookieFileFor(s: Settings, p: Platform): string {
    if p in s.cookieFiles then s.cookieFiles[p] else ""
  }

  /** Whether `--cookies` is passed: cookies are enabled and the platform's file is set and exists. */
  predicate CookieOk(s: Settings, p: Platform, cookieExists: bool) {
    s.useCookies && CookieFileFor(s, p) != "" && cookieExists
  }

  /** The template the user gave, when custom names are enabled and it is not blank; otherwise the default. */
  function BaseTemplate(s: Settings): (r: string)
    ensures r == DefaultTemplate || (s.useCustomFilename && r == Strip(s.customFilenameTemplate) && r != "")
  {
    var custom := if s.useCustomFilename then Strip(s.customFilenameTemplate) else "";
    if custom != "" then custom else DefaultTemplate
  }

  /** A template that names the extension: `.%(ext)s` appended exactly when `%(ext` is missing. */
  function WithExt(base: string): string {
    if Contains(base, "%(ext") then base else base + ExtSuffix
  }

  /** The template always names the extension, keeps `base` as its prefix, and changes it only when `%(ext` is missing. */
  lemma WithExtNamesExt(base: string)
    ensures var r := WithExt(base);
      && Contains(r, "%(ext")
      && StartsWith(r, base)
      && (r == base <==> Contains(base, "%(ext"))
      && (r != base ==> r == base + ExtSuffix)
  {
    if !Contains(base, "%(ext") {
      var r := base + ExtSuffix;
      assert r[|base| + 1..|base| + 6] == "%(ext";
      ContainsAt(r, |base| + 1, "%(ext");
      assert r[..|base|] == base;
    }
  }

  /** The output template placed under the download directory. */
  function OutputTemplate(s: Settings): string {
    WithExt(BaseTemplate(s))
  }

  /** The default template lacks `%(ext`, so it is used with `.%(ext)s` appended. */
  lemma DefaultTemplateGetsExt()
    ensures WithExt(DefaultTemplate) == DefaultTemplate + ExtSuffix
  {
    var d := DefaultTemplate;
    forall i | 0 <= i <= |d| - 5 ensures !StartsAt(d, i, "%(ext") {
      if StartsAt(d, i, "%(ext") {
        ExtMarkChars(d, i);
      }
    }
  }

  lemma ExtMarkChars(s: string, i: nat)
    requires StartsAt(s, i, "%(ext")
    ensures s[i] == '%' && s[i + 2] == 'e'
  {
    assert s[i] == s[i..i + 5][0];
    assert s[i + 2] == s[i..i + 5][2];
  }

  /** `(quality or "best").strip().lower()`. */
  function NormalQuality(q: string): string {
    Lower(Strip(if q == "" then "best" else q))
  }

  /** The format for a height cap. */
  function CapFormat(height: nat): string {
    var cap := "[height<=" + NatToString(height) + "]";
    "bestvideo" + cap + "+bestaudio/best" + cap
  }

  /** A capped format names its height limit. */
  lemma CapFormatNamesCap(height: nat)
    ensures Contains(CapFormat(height), "[height<=" + NatToString(height) + "]")
  {
    var cap := "[height<=" + NatToString(height) + "]";
    var r := CapFormat(height);
    assert r[9..9 + |cap|] == cap;
    ContainsAt(r, 9, cap);
  }

  /** The `-f` value for a quality setting. */
  function QualityFormat(q: string): string {
    FormatFor(NormalQuality(q))
  }

  /** The `-f` value for a normalised quality. */
  function FormatFor(quality: string): string {
    if quality == "best" then BestFormat
    else if quality == "worst" then WorstFormat
    else if quality in QualityCaps then CapFormat(QualityCaps[quality])
    else quality
  }

  /**
   * `best` and `worst` pick the fixed formats, a height from the table picks a format capped at that height, and any
   * other value is passed on normalised.
   */
  lemma QualityFormatChoice(q: string)
    ensures var n := NormalQuality(q);
      && (n == "best" ==> QualityFormat(q) == BestFormat)
      && (n == "worst" ==> QualityFormat(q) == WorstFormat)
      && (n in QualityCaps ==> QualityFormat(q) == CapFormat(QualityCaps[n]))
      && (n in QualityCaps ==> Contains(QualityFormat(q), "[height<=" + NatToString(QualityCaps[n]) + "]"))
      && (n != "best" && n != "worst" && n !in QualityCaps ==> QualityFormat(q) == n)
  {
    FormatForChoice(NormalQuality(q));
  }

  lemma FormatForChoice(n: string)
    ensures n == "best" ==> FormatFor(n) == BestFormat
    ensures n == "worst" ==> FormatFor(n) == WorstFormat
    ensures n in QualityCaps ==> FormatFor(n) == CapFormat(QualityCaps[n])
    ensures n in QualityCaps ==> Contains(FormatFor(n), "[height<=" + NatToString(QualityCaps[n]) + "]")
    ensures n != "best" && n != "worst" && n !in QualityCaps ==> FormatFor(n) == n
  {
    if n in QualityCaps {
      CapFormatNamesCap(QualityCaps[n]);
    }
  }

  /** An unset quality means the best one. */
  lemma QualityDefaultIsBest()
    ensures QualityFormat("") == BestFormat
  {
    StripNoSurroundingSpace("best");
    assert Lower("best") == "best";
    assert NormalQuality("") == "best";
  }

  /** `strip().lower()` is idempotent, so normalising a quality again changes nothing. */
  lemma {:induction false} NormalQualityIdempotent(q: string)
    requires NormalQuality(q) != ""
    ensures NormalQuality(NormalQuality(q)) == NormalQuality(q)
  {
    var t := Strip(if q == "" then "best" else q);
    var n := Lower(t);
    LowerKeepsSpaces(t);
    StripNoSurroundingSpace(n);
    LowerIdempotent(t);
  }

  lemma LowerKeepsSpaces(t: string)
    requires t == [] || (!IsSpace(t[0]) && !IsSpace(t[|t| - 1]))
    ensures Lower(t) == [] || (!IsSpace(Lower(t)[0]) && !IsSpace(Lower(t)[|t| - 1]))
  {
  }

  lemma StripNoSurroundingSpace(t: string)
    requires t == [] || (!IsSpace(t[0]) && !IsSpace(t[|t| - 1]))
    ensures Strip(t) == t
  {
    assert TrimLeft(t) == t;
    assert TrimRight(t) == t;
  }

  // ---------------------------------------------------------------- the command in parts

  /** Which part of the batch command gives option `f` (8: none). */
  function BatchGroup(f: Flag): nat {
    match f
    case Cookies => 0
    case Output => 1
    case Format => 2
    case WriteSubs | WriteAutoSubs | SubLangs | EmbedSubs => 3
    case SkipDownload => 4
    case TrimFilenames => 5
    case NoWarnings | IgnoreErrors | Retries | FragmentRetries => 6
    case Referer | UserAgent => 7
    case _ => 8
  }

  function CookieArgs(ok: bool, file: string): seq<Arg> {
    if ok then [Valued(Cookies, file)] else []
  }

  function OutputArgs(path: string, template: string): seq<Arg> {
    if path != "" then [Valued(Output, PathJoin(path, template))] else []
  }

  function FormatArgs(format: string): seq<Arg> {
    [Valued(Format, format)]
  }

  function SubsArgs(subs: bool, auto: bool, lang: string, only: bool): seq<Arg> {
    if subs then
      [Switch(WriteSubs)] + (if auto then [Switch(WriteAutoSubs)] else []) + [Valued(SubLangs, lang)]
      + (if !only then [Switch(EmbedSubs)] else [])
    else []
  }

  function SkipArgs(only: bool): seq<Arg> {
    if only then [Switch(SkipDownload)] else []
  }

  function TrimArgs(trim: bool, length: int): seq<Arg> {
    if trim then [Valued(TrimFilenames, IntToString(length))] else []
  }

  function FixedArgs(): seq<Arg> {
    [Switch(NoWarnings), Switch(IgnoreErrors), Valued(Retries, "3"), Valued(FragmentRetries, "10")]
  }

  function SiteArgs(bilibili: bool): seq<Arg> {
    if bilibili then [Valued(Referer, BilibiliSite), Valued(UserAgent, BrowserAgent)] else []
  }

  /** A part whose options all belong to group `i` and are well formed. */
  ghost predicate PartOf(p: seq<Arg>, i: nat) {
    WellFormed(p) && InGroup(p, BatchGroup, i)
  }

  lemma CookiePart(ok: bool, file: string)
    ensures PartOf(CookieArgs(ok, file), 0)
    ensures Render(CookieArgs(ok, file)) == if ok then ["--cookies", file] else []
  {
  }

  lemma OutputPart(path: string, template: string)
    ensures PartOf(OutputArgs(path, template), 1)
    ensures Render(OutputArgs(path, template)) == if path != "" then ["-o", PathJoin(path, template)] else []
  {
  }

  lemma FormatPart(format: string)
    ensures PartOf(FormatArgs(format), 2)
    ensures Render(FormatArgs(format)) == ["-f", format]
  {
  }

  lemma SubsPart(subs: bool, auto: bool, lang: string, only: bool)
    ensures PartOf(SubsArgs(subs, auto, lang, only), 3)
    ensures Render(SubsArgs(subs, auto, lang, only)) == SubsTokens(subs, auto, lang, only)
  {
    SubsInGroup(subs, auto, lang, only);
    SubsRender(subs, auto, lang, only);
  }

  lemma SubsInGroup(subs: bool, auto: bool, lang: string, only: bool)
    ensures PartOf(SubsArgs(subs, auto, lang, only), 3)
  {
    var u := SubsArgs(subs, auto, lang, only);
    assert forall k | 0 <= k < |u| :: u[k].flag in {WriteSubs, WriteAutoSubs, SubLangs, EmbedSubs};
  }

  lemma SubsRender(subs: bool, auto: bool, lang: string, only: bool)
    ensures Render(SubsArgs(subs, auto, lang, only)) == SubsTokens(subs, auto, lang, only)
  {
    if subs {
      var a := [Switch(WriteSubs)];
      var b := if auto then [Switch(WriteAutoSubs)] else [];
      var c := [Valued(SubLangs, lang)];
      var d := if !only then [Switch(EmbedSubs)] else [];
      RenderAppend(a, b);
      RenderAppend(a + b, c);
      RenderAppend(a + b + c, d);
      assert Render(b) == if auto then ["--write-auto-subs"] else [];
      assert Render(d) == if !only then ["--embed-subs"] else [];
    }
  }

  /** The subtitle tokens in the order they are appended. */
  function SubsTokens(subs: bool, auto: bool, lang: string, only: bool): seq<string> {
    if subs then
      ["--write-subs"] + (if auto then ["--write-auto-subs"] else []) + ["--sub-langs", lang]
      + (if !only then ["--embed-subs"] else [])
    else []
  }

  lemma SkipPart(only: bool)
    ensures PartOf(SkipArgs(only), 4)
    ensures Render(SkipArgs(only)) == if only then ["--skip-download"] else []
  {
  }

  lemma TrimPart(trim: bool, length: int)
    ensures PartOf(TrimArgs(trim, length), 5)
    ensures Render(TrimArgs(trim, length)) == if trim then ["--trim-filenames", IntToString(length)] else []
  {
  }

  lemma FixedPart()
    ensures PartOf(FixedArgs(), 6)
    ensures Render(FixedArgs()) == ["--no-warnings", "--ignore-errors", "--retries", "3", "--fragment-retries", "10"]
  {
    var x := FixedArgs();
    assert Render(x[3..]) == ["--fragment-retries", "10"];
    assert Render(x[2..]) == ["--retries", "3", "--fragment-retries", "10"];
    assert Render(x[1..]) == ["--ignore-errors", "--retries", "3", "--fragment-retries", "10"];
  }

  lemma SitePart(bilibili: bool)
    ensures PartOf(SiteArgs(bilibili), 7)
    ensures Render(SiteArgs(bilibili)) == if bilibili then ["--referer", BilibiliSite, "--user-agent", BrowserAgent] else []
  {
    var s := SiteArgs(bilibili);
    if bilibili {
      assert Render(s[1..]) == ["--user-agent", BrowserAgent];
    }
  }

  /** The eight parts in the order `_build_ytdlp_command` appends them. */
  function BatchParts(cookieOk: bool, cookieFile: string, path: string, template: string, format: string,
                      subs: bool, auto: bool, lang: string, only: bool, trim: bool, length: int, bilibili: bool)
    : seq<seq<Arg>>
  {
    [CookieArgs(cookieOk, cookieFile), OutputArgs(path, template), FormatArgs(format), SubsArgs(subs, auto, lang, only),
     SkipArgs(only), TrimArgs(trim, length), FixedArgs(), SiteArgs(bilibili)]
  }

  /**
   * What yt-dlp reads from a batch command line: each option exactly when its setting calls for it, with the value
   * the setting gives, the four fixed options always, and none of the options only the single downloader uses.
   */
  ghost predicate BatchReads(args: seq<Arg>, cookieOk: bool, cookieFile: string, path: string, template: string,
                             format: string, subs: bool, auto: bool, lang: string, only: bool, trim: bool, length: int,
                             bilibili: bool) {
    SettingsRead(args, cookieOk, cookieFile, path, template, format, subs, auto, lang, only, trim, length)
    && FixedOptionsRead(args, bilibili)
  }

  /** The options the settings switch on and off, with the values the settings give. */
  ghost predicate SettingsRead(args: seq<Arg>, cookieOk: bool, cookieFile: string, path: string, template: string,
                               format: string, subs: bool, auto: bool, lang: string, only: bool, trim: bool, length: int) {
    && ValueOf(args, Cookies) == (if cookieOk then Some(cookieFile) else None)
    && ValueOf(args, Output) == (if path != "" then Some(PathJoin(path, template)) else None)
    && ValueOf(args, Format) == Some(format)
    && (Has(args, WriteSubs) <==> subs)
    && (Has(args, WriteAutoSubs) <==> subs && auto)
    && ValueOf(args, SubLangs) == (if subs then Some(lang) else None)
    && (Has(args, EmbedSubs) <==> subs && !only)
    && (Has(args, SkipDownload) <==> only)
    && ValueOf(args, TrimFilenames) == (if trim then Some(IntToString(length)) else None)
  }

  /** The fixed options, the Bilibili headers, and none of the options only the single downloader uses. */
  ghost predicate FixedOptionsRead(args: seq<Arg>, bilibili: bool) {
    && Has(args, NoWarnings) && Has(args, IgnoreErrors)
    && ValueOf(args, Retries) == Some("3") && ValueOf(args, FragmentRetries) == Some("10")
    && ValueOf(args, Referer) == (if bilibili then Some(BilibiliSite) else None)
    && ValueOf(args, UserAgent) == (if bilibili then Some(BrowserAgent) else None)
    && !Has(args, NoPlaylist) && !Has(args, Progress) && !Has(args, Newline)
    && !Has(args, LimitRate) && !Has(args, AddHeader) && !Has(args, ConvertSubs)
  }

  /** `_build_ytdlp_command`'s promise: `yt-dlp` first, the URL last, and the options the settings call for. */
  ghost predicate BatchCommandLine(cmd: seq<string>, url: string, cookieOk: bool, cookieFile: string, path: string,
                                   template: string, format: string, subs: bool, auto: bool, lang: string, only: bool,
                                   trim: bool, length: int, bilibili: bool) {
    && |cmd| >= 2 && cmd[0] == "yt-dlp" && cmd[|cmd| - 1] == url
    && Parse(cmd).Some? && Parse(cmd).value.url == url
    && BatchReads(Parse(cmd).value.args, cookieOk, cookieFile, path, template, format, subs, auto, lang, only, trim,
                  length, bilibili)
  }

  /** The options of the eight parts say what the settings call for. */
  lemma BatchPartsRead(cookieOk: bool, cookieFile: string, path: string, template: string, format: string,
                       subs: bool, auto: bool, lang: string, only: bool, trim: bool, length: int, bilibili: bool)
    requires Grouped(BatchParts(cookieOk, cookieFile, path, template, format, subs, auto, lang, only, trim, length, bilibili), BatchGroup)
    ensures BatchReads(Concat(BatchParts(cookieOk, cookieFile, path, template, format, subs, auto, lang, only, trim, length, bilibili)),
                       cookieOk, cookieFile, path, template, format, subs, auto, lang, only, trim, length, bilibili)
  {
    var parts := BatchParts(cookieOk, cookieFile, path, template, format, subs, auto, lang, only, trim, length, bilibili);
    SettingsPartsRead(parts, cookieOk, cookieFile, path, template, format, subs, auto, lang, only, trim, length);
    FixedPartsRead(parts, bilibili);
  }

  lemma SettingsPartsRead(parts: seq<seq<Arg>>, cookieOk: bool, cookieFile: string, path: string, template: string,
                          format: string, subs: bool, auto: bool, lang: string, only: bool, trim: bool, length: int)
    requires Grouped(parts, BatchGroup) && |parts| == 8
    requires parts[0] == CookieArgs(cookieOk, cookieFile) && parts[1] == OutputArgs(path, template) && parts[2] == FormatArgs(format)
    requires parts[3] == SubsArgs(subs, auto, lang, only) && parts[4] == SkipArgs(only) && parts[5] == TrimArgs(trim, length)
    ensures SettingsRead(Concat(parts), cookieOk, cookieFile, path, template, format, subs, auto, lang, only, trim, length)
  {
    ReadLeading(parts, cookieOk, cookieFile, path, template, format);
    ReadSubs(parts, subs, auto, lang, only);
    ReadSkipTrim(parts, only, trim, length);
  }

  lemma FixedPartsRead(parts: seq<seq<Arg>>, bilibili: bool)
    requires Grouped(parts, BatchGroup) && |parts| == 8 && parts[6] == FixedArgs() && parts[7] == SiteArgs(bilibili)
    ensures FixedOptionsRead(Concat(parts), bilibili)
  {
    ReadFixed(parts);
    ReadSite(parts, bilibili);
    ReadNone(parts);
  }

  lemma ReadLeading(parts: seq<seq<Arg>>, cookieOk: bool, cookieFile: string, path: string, template: string, format: string)
    requires Grouped(parts, BatchGroup) && |parts| == 8
    requires parts[0] == CookieArgs(cookieOk, cookieFile) && parts[1] == OutputArgs(path, template) && parts[2] == FormatArgs(format)
    ensures ValueOf(Concat(parts), Cookies) == (if cookieOk then Some(cookieFile) else None)
    ensures ValueOf(Concat(parts), Output) == (if path != "" then Some(PathJoin(path, template)) else None)
    ensures ValueOf(Concat(parts), Format) == Some(format)
  {
    ValueFrom(parts, BatchGroup, Cookies, 0);
    ValueFrom(parts, BatchGroup, Output, 1);
    ValueFrom(parts, BatchGroup, Format, 2);
  }

  lemma ReadSubs(parts: seq<seq<Arg>>, subs: bool, auto: bool, lang: string, only: bool)
    requires Grouped(parts, BatchGroup) && |parts| == 8 && parts[3] == SubsArgs(subs, auto, lang, only)
    ensures Has(Concat(parts), WriteSubs) <==> subs
    ensures Has(Concat(parts), WriteAutoSubs) <==> subs && auto
    ensures ValueOf(Concat(parts), SubLangs) == (if subs then Some(lang) else None)
    ensures Has(Concat(parts), EmbedSubs) <==> subs && !only
  {
    HasFrom(parts, BatchGroup, WriteSubs, 3);
    HasFrom(parts, BatchGroup, WriteAutoSubs, 3);
    ValueFrom(parts, BatchGroup, SubLangs, 3);
    HasFrom(parts, BatchGroup, EmbedSubs, 3);
    SubsRead(subs, auto, lang, only);
  }

  /** The subtitle part on its own. */
  lemma SubsRead(subs: bool, auto: bool, lang: string, only: bool)
    ensures var u := SubsArgs(subs, auto, lang, only);
      && (Has(u, WriteSubs) <==> subs)
      && (Has(u, WriteAutoSubs) <==> subs && auto)
      && ValueOf(u, SubLangs) == (if subs then Some(lang) else None)
      && (Has(u, EmbedSubs) <==> subs && !only)
  {
    var u := SubsArgs(subs, auto, lang, only);
    if subs {
      var a := [Switch(WriteSubs)];
      var b := if auto then [Switch(WriteAutoSubs)] else [];
      var c := [Valued(SubLangs, lang)];
      var d := if !only then [Switch(EmbedSubs)] else [];
      assert u == a + b + c + d;
      assert u[0].flag == WriteSubs;
      if auto { assert u[1].flag == WriteAutoSubs; }
      if !only { assert u[|u| - 1].flag == EmbedSubs; }
      assert forall k | 0 <= k < |u| :: u[k].flag == WriteAutoSubs ==> auto;
      assert forall k | 0 <= k < |u| :: u[k].flag == EmbedSubs ==> !only;
      ValueOfAppend(a + b + c, d, SubLangs);
      AbsentValues(d, SubLangs);
    }
  }

  lemma ReadSkipTrim(parts: seq<seq<Arg>>, only: bool, trim: bool, length: int)
    requires Grouped(parts, BatchGroup) && |parts| == 8 && parts[4] == SkipArgs(only) && parts[5] == TrimArgs(trim, length)
    ensures Has(Concat(parts), SkipDownload) <==> only
    ensures ValueOf(Concat(parts), TrimFilenames) == (if trim then Some(IntToString(length)) else None)
  {
    HasFrom(parts, BatchGroup, SkipDownload, 4);
    ValueFrom(parts, BatchGroup, TrimFilenames, 5);
    if only {
      assert SkipArgs(only)[0].flag == SkipDownload;
    }
  }

  lemma ReadFixed(parts: seq<seq<Arg>>)
    requires Grouped(parts, BatchGroup) && |parts| == 8 && parts[6] == FixedArgs()
    ensures Has(Concat(parts), NoWarnings) && Has(Concat(parts), IgnoreErrors)
    ensures ValueOf(Concat(parts), Retries) == Some("3") && ValueOf(Concat(parts), FragmentRetries) == Some("10")
  {
    HasFrom(parts, BatchGroup, NoWarnings, 6);
    HasFrom(parts, BatchGroup, IgnoreErrors, 6);
    ValueFrom(parts, BatchGroup, Retries, 6);
    ValueFrom(parts, BatchGroup, FragmentRetries, 6);
    FixedRead();
  }

  lemma FixedRead()
    ensures var x := FixedArgs();
      Has(x, NoWarnings) && Has(x, IgnoreErrors) && ValueOf(x, Retries) == Some("3") && ValueOf(x, FragmentRetries) == Some("10")
  {
    var x := FixedArgs();
    assert x[0].flag == NoWarnings && x[1].flag == IgnoreErrors;
    assert x[..3][..2] == x[..2];
  }

  lemma ReadSite(parts: seq<seq<Arg>>, bilibili: bool)
    requires Grouped(parts, BatchGroup) && |parts| == 8 && parts[7] == SiteArgs(bilibili)
    ensures ValueOf(Concat(parts), Referer) == (if bilibili then Some(BilibiliSite) else None)
    ensures ValueOf(Concat(parts), UserAgent) == (if bilibili then Some(BrowserAgent) else None)
  {
    ValueFrom(parts, BatchGroup, Referer, 7);
    ValueFrom(parts, BatchGroup, UserAgent, 7);
    SiteRead(bilibili);
  }

  lemma SiteRead(bilibili: bool)
    ensures ValueOf(SiteArgs(bilibili), Referer) == (if bilibili then Some(BilibiliSite) else None)
    ensures ValueOf(SiteArgs(bilibili), UserAgent) == (if bilibili then Some(BrowserAgent) else None)
  {
    var s := SiteArgs(bilibili);
    if bilibili {
      assert s[..1] == [Valued(Referer, BilibiliSite)];
    }
  }

  lemma ReadNone(parts: seq<seq<Arg>>)
    requires Grouped(parts, BatchGroup) && |parts| == 8
    ensures !Has(Concat(parts), NoPlaylist) && !Has(Concat(parts), Progress) && !Has(Concat(parts), Newline)
    ensures !Has(Concat(parts), LimitRate) && !Has(Concat(parts), AddHeader) && !Has(Concat(parts), ConvertSubs)
  {
    NowhereIn(parts, BatchGroup, NoPlaylist);
    NowhereIn(parts, BatchGroup, Progress);
    NowhereIn(parts, BatchGroup, Newline);
    NowhereIn(parts, BatchGroup, LimitRate);
    NowhereIn(parts, BatchGroup, AddHeader);
    NowhereIn(parts, BatchGroup, ConvertSubs);
  }

  // The tokens each part adds, as `_build_ytdlp_command` appends them.

  function CookieTokens(ok: bool, file: string): seq<string> {
    if ok then ["--cookies", file] else []
  }

  function OutputTokens(path: string, template: string): seq<string> {
    if path != "" then ["-o", PathJoin(path, template)] else []
  }

  function SkipTokens(only: bool): seq<string> {
    if only then ["--skip-download"] else []
  }

  function TrimTokens(trim: bool, length: int): seq<string> {
    if trim then ["--trim-filenames", IntToString(length)] else []
  }

  const FixedTokens: seq<string> := ["--no-warnings", "--ignore-errors", "--retries", "3", "--fragment-retries", "10"]

  function SiteTokens(bilibili: bool): seq<string> {
    if bilibili then ["--referer", BilibiliSite, "--user-agent", BrowserAgent] else []
  }

  /** The batch command line before the URL. */
  function BatchTokens(cookieOk: bool, cookieFile: string, path: string, template: string, format: string,
                       subs: bool, auto: bool, lang: string, only: bool, trim: bool, length: int, bilibili: bool)
    : seq<string>
  {
    ["yt-dlp"] + CookieTokens(cookieOk, cookieFile) + OutputTokens(path, template) + ["-f", format]
    + SubsTokens(subs, auto, lang, only) + SkipTokens(only) + TrimTokens(trim, length) + FixedTokens + SiteTokens(bilibili)
  }

  /** The tokens are those of the eight parts, which are grouped and well formed. */
  lemma BatchTokensParts(cookieOk: bool, cookieFile: string, path: string, template: string, format: string,
                         subs: bool, auto: bool, lang: string, only: bool, trim: bool, length: int, bilibili: bool)
    ensures var parts := BatchParts(cookieOk, cookieFile, path, template, format, subs, auto, lang, only, trim, length, bilibili);
      && BatchTokens(cookieOk, cookieFile, path, template, format, subs, auto, lang, only, trim, length, bilibili)
         == ["yt-dlp"] + RenderParts(parts)
      && Grouped(parts, BatchGroup) && AllWellFormed(parts)
  {
    CookiePart(cookieOk, cookieFile);
    OutputPart(path, template);
    FormatPart(format);
    SubsPart(subs, auto, lang, only);
    SkipPart(only);
    TrimPart(trim, length);
    FixedPart();
    SitePart(bilibili);
    Build8(CookieArgs(cookieOk, cookieFile), OutputArgs(path, template), FormatArgs(format),
           SubsArgs(subs, auto, lang, only), SkipArgs(only), TrimArgs(trim, length), FixedArgs(), SiteArgs(bilibili), BatchGroup);
  }

  /** Every batch command line keeps `_build_ytdlp_command`'s promise. */
  lemma BatchLineTokens(cookieOk: bool, cookieFile: string, path: string, template: string, format: string,
                        subs: bool, auto: bool, lang: string, only: bool, trim: bool, length: int, bilibili: bool, url: string)
    ensures BatchCommandLine(BatchTokens(cookieOk, cookieFile, path, template, format, subs, auto, lang, only, trim, length, bilibili) + [url],
                             url, cookieOk, cookieFile, path, template, format, subs, auto, lang, only, trim, length, bilibili)
  {
    BatchTokensParts(cookieOk, cookieFile, path, template, format, subs, auto, lang, only, trim, length, bilibili);
    BatchLine(cookieOk, cookieFile, path, template, format, subs, auto, lang, only, trim, length, bilibili, url);
  }

  /** A batch command built from the eight parts keeps its promise. */
  lemma BatchLine(cookieOk: bool, cookieFile: string, path: string, template: string, format: string,
                  subs: bool, auto: bool, lang: string, only: bool, trim: bool, length: int, bilibili: bool, url: string)
    requires var parts := BatchParts(cookieOk, cookieFile, path, template, format, subs, auto, lang, only, trim, length, bilibili);
      Grouped(parts, BatchGroup) && AllWellFormed(parts)
    ensures var parts := BatchParts(cookieOk, cookieFile, path, template, format, subs, auto, lang, only, trim, length, bilibili);
      BatchCommandLine(["yt-dlp"] + RenderParts(parts) + [url], url, cookieOk, cookieFile, path, template, format, subs,
                       auto, lang, only, trim, length, bilibili)
  {
    var parts := BatchParts(cookieOk, cookieFile, path, template, format, subs, auto, lang, only, trim, length, bilibili);
    ParseParts(parts, url);
    BatchPartsRead(cookieOk, cookieFile, path, template, format, subs, auto, lang, only, trim, length, bilibili);
  }
}
