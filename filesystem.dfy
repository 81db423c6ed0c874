/**
 * The part of the filesystem the index builder reads: the listing of the charts
 * root, each chart's `entries` directory, and the parsed front-matter of each file.
 */
module FileSystem {
  import opened Wrappers
  import opened Json
  import opened Paths

  /** The file type a directory listing reports for an entry (it does not follow symbolic links). */
  datatype EntryKind = RegularFile | Directory | SymbolicLink | OtherKind

  /** One element of `readdirSync(chartsPath, { withFileTypes: true })`. */
  datatype Dirent = Dirent(name: string, kind: EntryKind)

  /** What `<chart>/entries` is, when something by that name exists. */
  datatype EntriesDir =
    | Listing(names: seq<string>)   // a directory; its names in listing order
    | NotListable                   // exists, but listing it throws (a plain file, no permission)

  /**
   * The input of one run.
   * `root` is the listing of the charts root, `None` when listing it throws.
   * `entries` maps a chart name to its `entries` directory; a chart absent from it has none.
   * `parsed` maps (chart, file name) to the front-matter of that file; a pair absent from
   * it is a file that could not be read or whose front-matter could not be parsed.
   */
  datatype ContentTree = ContentTree(
    root: Option<seq<Dirent>>,
    entries: map<string, EntriesDir>,
    parsed: map<(string, string), Metadata>)

  /** The errors that end a run; the top-level handler only logs them. */
  datatype Failure =
    | ChartsRootUnreadable
    | EntriesUnreadable(chartId: string)
    | EntryUnreadable(chartId: string, file: string)
    | IndexWriteFailed(chartId: string)

  /** The chart ids: the names of the listing's directories, in listing order. */
  function ChartDirs(listing: seq<Dirent>): (r: seq<string>)
    ensures |r| <= |listing|
    ensures forall d :: d in listing && d.kind == Directory ==> d.name in r
    ensures forall n :: n in r ==> exists d :: d in listing && d.kind == Directory && d.name == n
  {
    if listing == [] then []
    else (if listing[0].kind == Directory then [listing[0].name] else []) + ChartDirs(listing[1..])
  }

  /** Filtering a listing piece by piece gives the same ids in the same order. */
  lemma {:induction false} ChartDirsAppend(a: seq<Dirent>, b: seq<Dirent>)
    ensures ChartDirs(a + b) == ChartDirs(a) + ChartDirs(b)
  {
    if a == [] {
      assert a + b == b;
    } else {
      assert (a + b)[1..] == a[1..] + b;
      ChartDirsAppend(a[1..], b);
    }
  }

  /** The entry files: the names ending in `.md`, in listing order. */
  function MarkdownFiles(names: seq<string>): (r: seq<string>)
    ensures |r| <= |names|
    ensures forall n :: n in r <==> n in names && IsMarkdown(n)
  {
    if names == [] then []
    else (if IsMarkdown(names[0]) then [names[0]] else []) + MarkdownFiles(names[1..])
  }

  /** Filtering names piece by piece gives the same files in the same order. */
  lemma {:induction false} MarkdownFilesAppend(a: seq<string>, b: seq<string>)
    ensures MarkdownFiles(a + b) == MarkdownFiles(a) + MarkdownFiles(b)
  {
    if a == [] {
      assert a + b == b;
    } else {
      assert (a + b)[1..] == a[1..] + b;
      MarkdownFilesAppend(a[1..], b);
    }
  }
}
