/**
 * File names and paths: the `.md` test on entry names and the repository-relative
 * path that every index record carries.
 */
module Paths {

  /** The platform Node runs on decides the separator `path.join` inserts. */
  datatype Host = Posix | Windows {
    function Separator(): char {
      if Posix? then '/' else '\\'
    }
  }

  /** The fixed first part of every record path. */
  const ChartsDir: string := "content/iceberg-charts"

  /** The per-chart directory that holds the entry files. */
  const EntriesDir: string := "entries"

  /** JavaScript's `s.endsWith(suffix)`. */
  predicate EndsWith(s: string, suffix: string) {
    |suffix| <= |s| && s[|s| - |suffix|..] == suffix
  }

  /** An entry file is one whose name ends in `.md`. */
  predicate IsMarkdown(name: string) {
    EndsWith(name, ".md")
  }

  /** `path.join` of the parts, as plain concatenation with the host separator. */
  function Join(sep: char, parts: seq<string>): string
  {
    if |parts| == 0 then ""
    else if |parts| == 1 then parts[0]
    else parts[0] + [sep] + Join(sep, parts[1..])
  }

  predicate IsSeparator(c: char) {
    c == '/' || c == '\\'
  }

  /** `s.replace(/\\/g, '/')`: every backslash becomes a forward slash, every other character stays. */
  function ReplaceBackslashes(s: string): (r: string)
    ensures |r| == |s|
    ensures forall i :: 0 <= i < |s| ==> r[i] == (if s[i] == '\\' then '/' else s[i])
    ensures '\\' !in r
  {
    if s == [] then []
    else [if s[0] == '\\' then '/' else s[0]] + ReplaceBackslashes(s[1..])
  }

  /** A string without backslashes is left as it is. */
  lemma ReplaceKeepsPlainString(s: string)
    requires '\\' !in s
    ensures ReplaceBackslashes(s) == s
  {
  }

  lemma ReplaceDistributes(a: string, b: string)
    ensures ReplaceBackslashes(a + b) == ReplaceBackslashes(a) + ReplaceBackslashes(b)
  {
  }

  /** Which separator `path.join` inserts makes no difference once backslashes are replaced. */
  lemma {:induction false} ReplacedJoinIgnoresSeparator(sep: char, parts: seq<string>)
    requires IsSeparator(sep)
    ensures ReplaceBackslashes(Join(sep, parts)) == ReplaceBackslashes(Join('/', parts))
  {
    if |parts| >= 2 {
      ReplacedJoinIgnoresSeparator(sep, parts[1..]);
      ReplaceDistributes(parts[0] + [sep], Join(sep, parts[1..]));
      ReplaceDistributes(parts[0], [sep]);
      ReplaceDistributes(parts[0] + ['/'], Join('/', parts[1..]));
      ReplaceDistributes(parts[0], ['/']);
    }
  }

  /** The string `path.join` yields on a POSIX host for the four parts of a record path. */
  function SlashPath(chartId: string, file: string): string {
    ChartsDir + "/" + chartId + "/" + EntriesDir + "/" + file
  }

  /**
   * The record path: `path.join('content/iceberg-charts', chartId, 'entries', file)`
   * with every backslash then replaced by `/`. Whatever the host, the result has no
   * backslash and is the same string; for names without backslashes it is the plain
   * slash-separated path `content/iceberg-charts/<chartId>/entries/<file>`.
   */
  function GithubPath(host: Host, chartId: string, file: string): (r: string)
    ensures '\\' !in r
    ensures r == ReplaceBackslashes(SlashPath(chartId, file))
    ensures '\\' !in chartId && '\\' !in file ==> r == SlashPath(chartId, file)
  {
    ReplacedJoinIgnoresSeparator(host.Separator(), [ChartsDir, chartId, EntriesDir, file]);
    JoinFourParts(chartId, file);
    SlashPathKeepsPlainNames(chartId, file);
    ReplaceBackslashes(Join(host.Separator(), [ChartsDir, chartId, EntriesDir, file]))
  }

  lemma SlashPathSpelledOut(chartId: string, file: string)
    ensures SlashPath(chartId, file) == "content/iceberg-charts/" + chartId + "/entries/" + file
  {
    assert ChartsDir + "/" == "content/iceberg-charts/";
    assert "/" + EntriesDir + "/" == "/entries/";
  }

  /** The fixed parts of a record path contain no backslash, so plain names give a plain path. */
  lemma SlashPathKeepsPlainNames(chartId: string, file: string)
    ensures '\\' !in chartId && '\\' !in file ==>
              ReplaceBackslashes(SlashPath(chartId, file)) == SlashPath(chartId, file)
  {
    if '\\' !in chartId && '\\' !in file {
      assert forall i :: 0 <= i < |ChartsDir| ==> ChartsDir[i] != '\\';
      assert '\\' !in EntriesDir;
      var s := SlashPath(chartId, file);
      assert '\\' !in s;
      ReplaceKeepsPlainString(s);
    }
  }

  /** On a POSIX host the four parts are joined with `/` and nothing else. */
  lemma JoinFourParts(chartId: string, file: string)
    ensures Join('/', [ChartsDir, chartId, EntriesDir, file]) == SlashPath(chartId, file)
  {
    var parts := [ChartsDir, chartId, EntriesDir, file];
    assert parts[1..] == [chartId, EntriesDir, file];
    assert parts[1..][1..] == [EntriesDir, file];
    assert parts[1..][1..][1..] == [file];
    assert Join('/', [EntriesDir, file]) == EntriesDir + "/" + file;
    assert Join('/', [chartId, EntriesDir, file]) == chartId + "/" + (EntriesDir + "/" + file);
  }
}
