/**
 * `validate_bilibili_cookies` (video_downloader.py:408-419): read a Netscape-format cookie file and report whether
 * the cookies a logged-in Bilibili session needs are all present. The file is given as its lines, each as Python's
 * line iteration yields it.
 */
module Cookies {
  import opened Wrappers
  import opened Strings
  import opened Lists

  /** `BILIBILI_KEY_COOKIES` */
  const BilibiliKeyCookies: seq<string> := ["SESSDATA", "bili_jct", "DedeUserID"]

  /** What opening the file gives: it does not exist, reading it fails, or its lines. */
  datatype CookieFile = Absent | Unreadable | Lines(lines: seq<string>)

  datatype CookieCheck =
    | NoFile                            // "Cookie 檔案不存在"
    | ReadError                         // an `OSError` or `ValueError` while reading
    | MissingKeys(names: seq<string>)   // the key cookies not found, in `BILIBILI_KEY_COOKIES` order
    | Valid

  /** A comment line or a blank one. */
  predicate Skipped(line: string) {
    StartsWith(line, "#") || Strip(line) == ""
  }

  /** The cookie a line defines: the sixth and seventh tab-separated fields of a line with at least seven. */
  function CookieOf(line: string): Option<(string, string)> {
    if Skipped(line) then None
    else
      var parts := Split(Strip(line), '\t');
      if |parts| >= 7 then Some((parts[5], parts[6])) else None
  }

  /** The cookies `parse` finds in the lines, a later line overriding an earlier one with the same name. */
  function Collect(lines: seq<string>, parse: string -> Option<(string, string)>): map<string, string>
    decreases |lines|
  {
    if lines == [] then map[]
    else
      var jar := Collect(lines[..|lines| - 1], parse);
      match parse(lines[|lines| - 1])
      case Some((name, value)) => jar[name := value]
      case None => jar
  }

  /** The cookies the lines of a cookie file define. */
  function Jar(lines: seq<string>): map<string, string> {
    Collect(lines, CookieOf)
  }

  /** Some line of `lines` defines, by `parse`, a cookie named `name`. */
  predicate Names(lines: seq<string>, parse: string -> Option<(string, string)>, name: string) {
    exists k | 0 <= k < |lines| :: parse(lines[k]).Some? && parse(lines[k]).value.0 == name
  }

  /** Some line of `lines` defines a cookie named `name`. */
  predicate Defines(lines: seq<string>, name: string) {
    Names(lines, CookieOf, name)
  }

  /** The key cookies missing from `jar`, in their listed order. */
  function Missing(jar: map<string, string>): seq<string> {
    Filter(BilibiliKeyCookies, name => name !in jar)
  }

  /** The verdict on a cookie file. */
  function Verdict(file: CookieFile): CookieCheck {
    match file
    case Absent => NoFile
    case Unreadable => ReadError
    case Lines(lines) =>
      var missing := Missing(Jar(lines));
      if missing != [] then MissingKeys(missing) else Valid
  }

  /** A comment or blank line defines no cookie, and a defined cookie's name and value hold no tab. */
  lemma CookieOfFields(line: string)
    ensures Skipped(line) ==> CookieOf(line).None?
    ensures CookieOf(line).Some? ==> '\t' !in CookieOf(line).value.0 && '\t' !in CookieOf(line).value.1
  {
  }

  lemma {:induction false} CollectNames(lines: seq<string>, parse: string -> Option<(string, string)>, name: string)
    ensures name in Collect(lines, parse) <==> Names(lines, parse, name)
    decreases |lines|
  {
    if lines != [] {
      var n := |lines| - 1;
      CollectNames(lines[..n], parse, name);
      if Names(lines, parse, name) {
        var k :| 0 <= k < |lines| && parse(lines[k]).Some? && parse(lines[k]).value.0 == name;
        if k < n {
          assert lines[..n][k] == lines[k];
        }
      }
      if Names(lines[..n], parse, name) {
        var k :| 0 <= k < n && parse(lines[..n][k]).Some? && parse(lines[..n][k]).value.0 == name;
        assert lines[k] == lines[..n][k];
      }
    }
  }

  lemma {:induction false} CollectLastWins(lines: seq<string>, parse: string -> Option<(string, string)>, k: nat,
                                           name: string, value: string)
    requires k < |lines| && parse(lines[k]) == Some((name, value))
    requires forall j | k < j < |lines| :: parse(lines[j]).None? || parse(lines[j]).value.0 != name
    ensures name in Collect(lines, parse) && Collect(lines, parse)[name] == value
    decreases |lines|
  {
    var n := |lines| - 1;
    if k < n {
      forall j | k < j < n ensures parse(lines[..n][j]).None? || parse(lines[..n][j]).value.0 != name {
        assert lines[..n][j] == lines[j];
      }
      CollectLastWins(lines[..n], parse, k, name, value);
    }
  }

  /** The jar holds exactly the names some line defines. */
  lemma JarNames(lines: seq<string>, name: string)
    ensures name in Jar(lines) <==> Defines(lines, name)
  {
    CollectNames(lines, CookieOf, name);
  }

  /** A cookie's value is the one on the last line that defines it. */
  lemma JarLastWins(lines: seq<string>, k: nat, name: string, value: string)
    requires k < |lines| && CookieOf(lines[k]) == Some((name, value))
    requires forall j | k < j < |lines| :: CookieOf(lines[j]).None? || CookieOf(lines[j]).value.0 != name
    ensures name in Jar(lines) && Jar(lines)[name] == value
  {
    CollectLastWins(lines, CookieOf, k, name, value);
  }

  /** The file is accepted exactly when every key cookie is defined by some line. */
  lemma ValidExactly(lines: seq<string>)
    ensures Verdict(Lines(lines)) == Valid <==> forall name | name in BilibiliKeyCookies :: Defines(lines, name)
  {
    var jar := Jar(lines);
    FilterMembers(BilibiliKeyCookies, name => name !in jar);
    forall name | name in BilibiliKeyCookies ensures name in jar <==> Defines(lines, name) {
      JarNames(lines, name);
    }
    if Missing(jar) != [] {
      assert Missing(jar)[0] in Missing(jar);
    }
  }

  /** A reported name is a key cookie no line defines, and every such cookie is reported. */
  lemma MissingExactly(lines: seq<string>, name: string)
    requires Verdict(Lines(lines)).MissingKeys?
    ensures name in Verdict(Lines(lines)).names <==> name in BilibiliKeyCookies && !Defines(lines, name)
  {
    var jar := Jar(lines);
    FilterMembers(BilibiliKeyCookies, name => name !in jar);
    JarNames(lines, name);
  }

  /** One more line changes the jar only by the cookie that line defines. */
  lemma JarStep(lines: seq<string>, i: nat)
    requires i < |lines|
    ensures Jar(lines[..i + 1]) == match CookieOf(lines[i])
      case Some((name, value)) => Jar(lines[..i])[name := value]
      case None => Jar(lines[..i])
  {
    assert lines[..i + 1][..i] == lines[..i];
  }

  /** The loop of `validate_bilibili_cookies`: the cookie lines, read in order into a dictionary. */
  method GatherCookies(lines: seq<string>) returns (cookies: map<string, string>)
    ensures cookies == Jar(lines)
  {
    cookies := map[];
    for i := 0 to |lines|
      invariant cookies == Jar(lines[..i])
    {
      var line := lines[i];
      JarStep(lines, i);
      if StartsWith(line, "#") || Strip(line) == "" {
        continue;
      }
      var parts := Split(Strip(line), '\t');
      if |parts| >= 7 {
        cookies := cookies[parts[5] := parts[6]];
      }
    }
    assert lines[..|lines|] == lines;
  }

  /** `validate_bilibili_cookies`: gather the cookies, then report the missing key cookies. */
  method ValidateBilibiliCookies(file: CookieFile) returns (r: CookieCheck)
    ensures r == Verdict(file)
  {
    if file.Absent? {
      return NoFile;
    }
    if file.Unreadable? {
      return ReadError;
    }
    var cookies := GatherCookies(file.lines);
    var missing := Missing(cookies);
    if missing != [] {
      return MissingKeys(missing);
    }
    return Valid;
  }
}
