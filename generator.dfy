/**
 * The index generator: for every chart directory, in listing order, the records of its
 * `.md` entry files are collected and written to the chart's `entries-index.json`.
 * The first failure ends the run; index files written before it stay as written.
 */
module Generator {
  import opened Wrappers
  import opened Json
  import opened Paths
  import opened Records
  import opened FileSystem

  /** The index files a run has written so far, by chart id, and the failure that ended it, if any. */
  datatype Progress = Progress(written: map<string, seq<IndexRecord>>, failure: Option<Failure>)

  /**
   * The records of one chart, file by file in the given order; the first file that cannot
   * be read or parsed ends the chart with an error.
   */
  function ChartIndex(host: Host, parsed: map<(string, string), Metadata>, chartId: string, files: seq<string>)
    : Result<seq<IndexRecord>, Failure>
    decreases |files|
  {
    if files == [] then Ok([])
    else
      var file := files[|files| - 1];
      match ChartIndex(host, parsed, chartId, files[..|files| - 1])
      case Err(e) => Err(e)
      case Ok(records) =>
        if (chartId, file) in parsed
        then Ok(records + [BuildRecord(host, parsed[(chartId, file)], chartId, file)])
        else Err(EntryUnreadable(chartId, file))
  }

  /**
   * One turn of the chart loop, after the index files in `done` were written: skip a chart
   * without `entries`, otherwise build its records and write them, or fail.
   */
  function Step(host: Host, tree: ContentTree, unwritable: set<string>,
                done: map<string, seq<IndexRecord>>, chartId: string): Progress
  {
    if chartId !in tree.entries then Progress(done, None)
    else
      match tree.entries[chartId]
      case NotListable => Progress(done, Some(EntriesUnreadable(chartId)))
      case Listing(names) =>
        match ChartIndex(host, tree.parsed, chartId, MarkdownFiles(names))
        case Err(e) => Progress(done, Some(e))
        case Ok(records) =>
          if chartId in unwritable then Progress(done, Some(IndexWriteFailed(chartId)))
          else Progress(done[chartId := records], None)
  }

  /** The chart loop over `charts`, stopping at the first failure. */
  function RunCharts(host: Host, tree: ContentTree, unwritable: set<string>, charts: seq<string>): Progress
    decreases |charts|
  {
    if charts == [] then Progress(map[], None)
    else
      var before := RunCharts(host, tree, unwritable, charts[..|charts| - 1]);
      if before.failure.Some? then before
      else Step(host, tree, unwritable, before.written, charts[|charts| - 1])
  }

  /** A whole run: list the charts root, then the chart loop over its directories. */
  function Run(host: Host, tree: ContentTree, unwritable: set<string>): Progress
  {
    match tree.root
    case None => Progress(map[], Some(ChartsRootUnreadable))
    case Some(listing) => RunCharts(host, tree, unwritable, ChartDirs(listing))
  }

  // ---------------------------------------------------------------------------
  // Properties of one chart's records

  /**
   * A chart's records are built exactly when every entry file could be read and parsed;
   * then there is one record per file, in the files' order, each built from that file's
   * front-matter.
   */
  lemma {:induction false} ChartIndexOk(host: Host, parsed: map<(string, string), Metadata>,
                                        chartId: string, files: seq<string>)
    ensures ChartIndex(host, parsed, chartId, files).Ok? <==> forall f :: f in files ==> (chartId, f) in parsed
    ensures ChartIndex(host, parsed, chartId, files).Ok? ==>
      var records := ChartIndex(host, parsed, chartId, files).value;
      && |records| == |files|
      && forall k :: 0 <= k < |files| ==>
           records[k] == BuildRecord(host, parsed[(chartId, files[k])], chartId, files[k])
    decreases |files|
  {
    if files != [] {
      var init := files[..|files| - 1];
      ChartIndexOk(host, parsed, chartId, init);
      assert files == init + [files[|files| - 1]];
      assert forall f :: f in files ==> f in init || f == files[|files| - 1];
    }
  }

  /** When a chart fails, the error names its first entry file that could not be read or parsed. */
  lemma {:induction false} ChartIndexErr(host: Host, parsed: map<(string, string), Metadata>,
                                         chartId: string, files: seq<string>)
    ensures ChartIndex(host, parsed, chartId, files).Err? ==>
      exists j :: 0 <= j < |files| && (chartId, files[j]) !in parsed
        && (forall i :: 0 <= i < j ==> (chartId, files[i]) in parsed)
        && ChartIndex(host, parsed, chartId, files).error == EntryUnreadable(chartId, files[j])
    decreases |files|
  {
    if files != [] {
      var init := files[..|files| - 1];
      var n := |files| - 1;
      match ChartIndex(host, parsed, chartId, init)
      case Err(e) =>
        ChartIndexErr(host, parsed, chartId, init);
        var j :| 0 <= j < |init| && (chartId, init[j]) !in parsed
          && (forall i :: 0 <= i < j ==> (chartId, init[i]) in parsed)
          && e == EntryUnreadable(chartId, init[j]);
        assert files[j] == init[j];
        assert forall i :: 0 <= i < j ==> files[i] == init[i];
      case Ok(_) =>
        ChartIndexOk(host, parsed, chartId, init);
        assert forall i :: 0 <= i < n ==> init[i] in init && files[i] == init[i];
    }
  }

  /** Once a prefix of the files fails, later files change nothing: the chart fails with that error. */
  lemma {:induction false} ChartIndexErrPersists(host: Host, parsed: map<(string, string), Metadata>,
                                                 chartId: string, files: seq<string>, i: nat)
    requires i <= |files|
    requires ChartIndex(host, parsed, chartId, files[..i]).Err?
    ensures ChartIndex(host, parsed, chartId, files) == ChartIndex(host, parsed, chartId, files[..i])
    decreases |files|
  {
    if i == |files| {
      assert files[..i] == files;
    } else {
      var init := files[..|files| - 1];
      assert init[..i] == files[..i];
      ChartIndexErrPersists(host, parsed, chartId, init, i);
    }
  }

  // ---------------------------------------------------------------------------
  // Properties of a run

  /** The loop over one more chart is one more step. */
  lemma RunChartsNext(host: Host, tree: ContentTree, unwritable: set<string>, charts: seq<string>, i: nat)
    requires i < |charts|
    requires RunCharts(host, tree, unwritable, charts[..i]).failure.None?
    ensures RunCharts(host, tree, unwritable, charts[..i + 1])
         == Step(host, tree, unwritable, RunCharts(host, tree, unwritable, charts[..i]).written, charts[i])
  {
    assert charts[..i + 1][..i] == charts[..i];
  }

  /** A step's writes land on top of whatever index files existed before the run. */
  lemma StepOnTopOf(host: Host, tree: ContentTree, unwritable: set<string>,
                    existing: map<string, seq<IndexRecord>>, done: map<string, seq<IndexRecord>>, chartId: string)
    ensures Step(host, tree, unwritable, existing + done, chartId)
         == Progress(existing + Step(host, tree, unwritable, done, chartId).written,
                     Step(host, tree, unwritable, done, chartId).failure)
  {
  }

  /** Once the chart loop has failed, later charts change nothing. */
  lemma {:induction false} RunFailurePersists(host: Host, tree: ContentTree, unwritable: set<string>,
                                              charts: seq<string>, i: nat)
    requires i <= |charts|
    requires RunCharts(host, tree, unwritable, charts[..i]).failure.Some?
    ensures RunCharts(host, tree, unwritable, charts) == RunCharts(host, tree, unwritable, charts[..i])
    decreases |charts|
  {
    if i == |charts| {
      assert charts[..i] == charts;
    } else {
      var init := charts[..|charts| - 1];
      assert init[..i] == charts[..i];
      RunFailurePersists(host, tree, unwritable, init, i);
    }
  }

  /** `records` is what the chart loop writes for chart `c`: it has a listable `entries` and a writable index. */
  predicate IndexedChart(host: Host, tree: ContentTree, unwritable: set<string>, c: string, records: seq<IndexRecord>) {
    && c in tree.entries
    && tree.entries[c].Listing?
    && c !in unwritable
    && ChartIndex(host, tree.parsed, c, MarkdownFiles(tree.entries[c].names)) == Ok(records)
  }

  /** A step keeps what was written and writes at most the index of its own chart. */
  lemma StepWritesOwnChart(host: Host, tree: ContentTree, unwritable: set<string>,
                           done: map<string, seq<IndexRecord>>, chartId: string)
    ensures done.Keys <= Step(host, tree, unwritable, done, chartId).written.Keys
    ensures var written := Step(host, tree, unwritable, done, chartId).written;
      forall c :: c in written ==>
        (c == chartId && IndexedChart(host, tree, unwritable, c, written[c])) || (c in done && written[c] == done[c])
  {
    if chartId in tree.entries && tree.entries[chartId].Listing? && chartId !in unwritable {
      var result := ChartIndex(host, tree.parsed, chartId, MarkdownFiles(tree.entries[chartId].names));
      if result.Ok? {
        assert Step(host, tree, unwritable, done, chartId).written == done[chartId := result.value];
      }
    }
  }

  /**
   * Chart `c` gets through its turn of the loop: it has no `entries` (and is skipped), or
   * its `entries` can be listed, every entry file can be read and parsed, and its index
   * file can be written.
   */
  predicate ChartFine(tree: ContentTree, unwritable: set<string>, c: string) {
    c !in tree.entries ||
    (&& tree.entries[c].Listing?
     && c !in unwritable
     && forall f :: f in MarkdownFiles(tree.entries[c].names) ==> (c, f) in tree.parsed)
  }

  /** `files[j]` is the first of `files` that cannot be read or parsed. */
  predicate FirstUnreadable(parsed: map<(string, string), Metadata>, chartId: string, files: seq<string>, j: int) {
    && 0 <= j < |files|
    && (chartId, files[j]) !in parsed
    && forall i :: 0 <= i < j ==> (chartId, files[i]) in parsed
  }

  /**
   * What one turn of the chart loop does. It succeeds exactly for a fine chart: a chart
   * without `entries` is skipped and nothing changes; otherwise the chart's records are
   * written on top of the files written so far. A failing turn writes nothing and reports
   * an `entries` that cannot be listed, else the first entry file that cannot be read or
   * parsed, else the index file that cannot be written.
   */
  lemma StepOutcome(host: Host, tree: ContentTree, unwritable: set<string>,
                    done: map<string, seq<IndexRecord>>, chartId: string)
    ensures var p := Step(host, tree, unwritable, done, chartId);
      && (p.failure.None? <==> ChartFine(tree, unwritable, chartId))
      && (chartId !in tree.entries ==> p == Progress(done, None))
      && (chartId in tree.entries && ChartFine(tree, unwritable, chartId) ==>
            var records := ChartIndex(host, tree.parsed, chartId, MarkdownFiles(tree.entries[chartId].names));
            records.Ok? && p.written == done[chartId := records.value])
      && (p.failure.Some? ==> p.written == done && p.failure != Some(ChartsRootUnreadable))
      && (chartId in tree.entries && tree.entries[chartId].NotListable? ==>
            p.failure == Some(EntriesUnreadable(chartId)))
      && (chartId in tree.entries && tree.entries[chartId].Listing? ==>
            var files := MarkdownFiles(tree.entries[chartId].names);
            && (forall j :: FirstUnreadable(tree.parsed, chartId, files, j) ==>
                  p.failure == Some(EntryUnreadable(chartId, files[j])))
            && ((forall f :: f in files ==> (chartId, f) in tree.parsed) && chartId in unwritable ==>
                  p.failure == Some(IndexWriteFailed(chartId))))
  {
    if chartId in tree.entries && tree.entries[chartId].Listing? {
      var files := MarkdownFiles(tree.entries[chartId].names);
      ChartIndexOk(host, tree.parsed, chartId, files);
      ChartIndexErr(host, tree.parsed, chartId, files);
      forall j | FirstUnreadable(tree.parsed, chartId, files, j)
        ensures Step(host, tree, unwritable, done, chartId).failure == Some(EntryUnreadable(chartId, files[j]))
      {
        assert files[j] in files;
        var e := ChartIndex(host, tree.parsed, chartId, files);
        var k :| 0 <= k < |files| && (chartId, files[k]) !in tree.parsed
          && (forall i :: 0 <= i < k ==> (chartId, files[i]) in tree.parsed)
          && e.error == EntryUnreadable(chartId, files[k]);
        assert !(j < k) && !(k < j);
      }
    }
  }

  /** The chart loop completes exactly when every visited chart is fine. */
  lemma {:induction false} RunChartsCompletes(host: Host, tree: ContentTree, unwritable: set<string>,
                                              charts: seq<string>)
    ensures RunCharts(host, tree, unwritable, charts).failure.None? <==>
              forall c :: c in charts ==> ChartFine(tree, unwritable, c)
    decreases |charts|
  {
    if charts != [] {
      var last := charts[|charts| - 1];
      var init := charts[..|charts| - 1];
      assert charts == init + [last];
      RunChartsCompletes(host, tree, unwritable, init);
      var before := RunCharts(host, tree, unwritable, init);
      if before.failure.None? {
        StepOutcome(host, tree, unwritable, before.written, last);
      } else {
        var c :| c in init && !ChartFine(tree, unwritable, c);
        assert c in charts;
      }
    }
  }

  /**
   * A failed chart loop failed at its first chart that is not fine, with the failure of
   * that chart's turn (which `StepOutcome` names).
   */
  lemma RunChartsFailsAtFirstBadChart(host: Host, tree: ContentTree, unwritable: set<string>,
                                      charts: seq<string>)
    requires RunCharts(host, tree, unwritable, charts).failure.Some?
    ensures exists j :: (0 <= j < |charts|
      && (forall i :: 0 <= i < j ==> ChartFine(tree, unwritable, charts[i]))
      && !ChartFine(tree, unwritable, charts[j])
      && RunCharts(host, tree, unwritable, charts).failure
           == Step(host, tree, unwritable, RunCharts(host, tree, unwritable, charts[..j]).written, charts[j]).failure)
  {
    FailedRunStopsAtOneChart(host, tree, unwritable, charts);
    var j :| 0 <= j < |charts|
      && RunCharts(host, tree, unwritable, charts[..j]).failure.None?
      && RunCharts(host, tree, unwritable, charts[..j + 1]) == RunCharts(host, tree, unwritable, charts)
      && RunCharts(host, tree, unwritable, charts).written == RunCharts(host, tree, unwritable, charts[..j]).written;
    RunChartsCompletes(host, tree, unwritable, charts[..j]);
    RunChartsNext(host, tree, unwritable, charts, j);
    var done := RunCharts(host, tree, unwritable, charts[..j]).written;
    StepOutcome(host, tree, unwritable, done, charts[j]);
    assert forall i :: 0 <= i < j ==> charts[..j][i] == charts[i] && charts[..j][i] in charts[..j];
  }

  /**
   * How a whole run ends: with `ChartsRootUnreadable` exactly when the charts root cannot
   * be listed; without failure exactly when every chart directory is fine; otherwise with
   * the failure of the first chart directory that is not fine.
   */
  lemma RunOutcome(host: Host, tree: ContentTree, unwritable: set<string>)
    ensures Run(host, tree, unwritable).failure == Some(ChartsRootUnreadable) <==> tree.root.None?
    ensures Run(host, tree, unwritable).failure.None? <==>
              tree.root.Some? && forall c :: c in ChartDirs(tree.root.value) ==> ChartFine(tree, unwritable, c)
    ensures tree.root.Some? && Run(host, tree, unwritable).failure.Some? ==>
      var charts := ChartDirs(tree.root.value);
      exists j :: (0 <= j < |charts|
        && (forall i :: 0 <= i < j ==> ChartFine(tree, unwritable, charts[i]))
        && !ChartFine(tree, unwritable, charts[j])
        && Run(host, tree, unwritable).failure
             == Step(host, tree, unwritable, RunCharts(host, tree, unwritable, charts[..j]).written, charts[j]).failure)
  {
    if tree.root.Some? {
      var charts := ChartDirs(tree.root.value);
      RunChartsCompletes(host, tree, unwritable, charts);
      if RunCharts(host, tree, unwritable, charts).failure.Some? {
        RunChartsFailsAtFirstBadChart(host, tree, unwritable, charts);
        var j :| 0 <= j < |charts|
          && (forall i :: 0 <= i < j ==> ChartFine(tree, unwritable, charts[i]))
          && !ChartFine(tree, unwritable, charts[j])
          && RunCharts(host, tree, unwritable, charts).failure
               == Step(host, tree, unwritable, RunCharts(host, tree, unwritable, charts[..j]).written, charts[j]).failure;
        StepOutcome(host, tree, unwritable, RunCharts(host, tree, unwritable, charts[..j]).written, charts[j]);
      }
    }
  }

  /**
   * Every index file the loop writes belongs to one of the visited charts that has a
   * listable `entries` directory and a writable index file, and holds exactly that
   * chart's records.
   */
  lemma {:induction false} WrittenChartsAreIndexed(host: Host, tree: ContentTree, unwritable: set<string>,
                                                   charts: seq<string>)
    ensures var written := RunCharts(host, tree, unwritable, charts).written;
      forall c :: c in written ==> c in charts && IndexedChart(host, tree, unwritable, c, written[c])
    decreases |charts|
  {
    if charts != [] {
      var last := charts[|charts| - 1];
      var init := charts[..|charts| - 1];
      assert charts == init + [last];
      WrittenChartsAreIndexed(host, tree, unwritable, init);
      var before := RunCharts(host, tree, unwritable, init);
      var written := RunCharts(host, tree, unwritable, charts).written;
      if before.failure.None? {
        assert written == Step(host, tree, unwritable, before.written, last).written;
        StepWritesOwnChart(host, tree, unwritable, before.written, last);
        forall c | c in written
          ensures c in charts && IndexedChart(host, tree, unwritable, c, written[c])
        {
          if c in before.written && written[c] == before.written[c] {
            assert c in init && IndexedChart(host, tree, unwritable, c, before.written[c]);
          } else {
            assert c == last;
          }
        }
      } else {
        assert written == before.written;
        assert forall c :: c in init ==> c in charts;
      }
    }
  }

  /** A loop that did not fail wrote an index file for every visited chart that has `entries`. */
  lemma {:induction false} CompletedRunCoversCharts(host: Host, tree: ContentTree, unwritable: set<string>,
                                                    charts: seq<string>)
    ensures var p := RunCharts(host, tree, unwritable, charts);
      p.failure.None? ==> forall c :: c in charts && c in tree.entries ==> c in p.written
    decreases |charts|
  {
    if charts != [] {
      var init := charts[..|charts| - 1];
      CompletedRunCoversCharts(host, tree, unwritable, init);
      assert charts == init + [charts[|charts| - 1]];
    }
  }

  /**
   * A failed loop stopped at one chart: every chart before it was handled without failure,
   * the failing chart wrote nothing, and no chart after it was visited.
   */
  lemma {:induction false} FailedRunStopsAtOneChart(host: Host, tree: ContentTree, unwritable: set<string>,
                                                    charts: seq<string>)
    requires RunCharts(host, tree, unwritable, charts).failure.Some?
    ensures exists j :: (0 <= j < |charts|
      && RunCharts(host, tree, unwritable, charts[..j]).failure.None?
      && RunCharts(host, tree, unwritable, charts[..j + 1]) == RunCharts(host, tree, unwritable, charts)
      && RunCharts(host, tree, unwritable, charts).written == RunCharts(host, tree, unwritable, charts[..j]).written)
    decreases |charts|
  {
    var n := |charts| - 1;
    var init := charts[..n];
    if RunCharts(host, tree, unwritable, init).failure.Some? {
      FailedRunStopsAtOneChart(host, tree, unwritable, init);
      var j :| 0 <= j < |init|
        && RunCharts(host, tree, unwritable, init[..j]).failure.None?
        && RunCharts(host, tree, unwritable, init[..j + 1]) == RunCharts(host, tree, unwritable, init)
        && RunCharts(host, tree, unwritable, init).written == RunCharts(host, tree, unwritable, init[..j]).written;
      assert init[..j] == charts[..j];
      assert init[..j + 1] == charts[..j + 1];
    } else {
      assert charts[..n + 1] == charts;
    }
  }

  /**
   * What a run writes: only for names of directories in the charts root that have a
   * listable `entries` directory and a writable index file, and then exactly that chart's
   * records. In particular a chart without `entries` and a non-directory get no index file.
   */
  lemma RunWritesOnlyChartIndexes(host: Host, tree: ContentTree, unwritable: set<string>)
    ensures var written := Run(host, tree, unwritable).written;
      forall c :: c in written ==>
        && tree.root.Some?
        && (exists d :: d in tree.root.value && d.kind == Directory && d.name == c)
        && IndexedChart(host, tree, unwritable, c, written[c])
  {
    if tree.root.Some? {
      var charts := ChartDirs(tree.root.value);
      WrittenChartsAreIndexed(host, tree, unwritable, charts);
      var written := RunCharts(host, tree, unwritable, charts).written;
      forall c | c in written
        ensures exists d :: d in tree.root.value && d.kind == Directory && d.name == c
      {
        assert c in charts;
      }
    }
  }

  /**
   * A run that ends without failure wrote an index file for every directory of the charts
   * root that has `entries`, with one record per `.md` name of that directory.
   */
  lemma CompletedRunIndexesEveryChart(host: Host, tree: ContentTree, unwritable: set<string>)
    requires Run(host, tree, unwritable).failure.None?
    ensures tree.root.Some?
    ensures var written := Run(host, tree, unwritable).written;
      forall d :: d in tree.root.value && d.kind == Directory && d.name in tree.entries ==>
        && d.name in written
        && tree.entries[d.name].Listing?
        && |written[d.name]| == |MarkdownFiles(tree.entries[d.name].names)|
  {
    var charts := ChartDirs(tree.root.value);
    var written := Run(host, tree, unwritable).written;
    CompletedRunCoversCharts(host, tree, unwritable, charts);
    WrittenChartsAreIndexed(host, tree, unwritable, charts);
    forall d | d in tree.root.value && d.kind == Directory && d.name in tree.entries
      ensures |written[d.name]| == |MarkdownFiles(tree.entries[d.name].names)|
    {
      ChartIndexOk(host, tree.parsed, d.name, MarkdownFiles(tree.entries[d.name].names));
    }
  }

  // ---------------------------------------------------------------------------
  // The generator itself

  /** The index files on disk, by chart id; writing the ones in `unwritable` throws. */
  class IndexStore {
    var files: map<string, seq<IndexRecord>>
    const unwritable: set<string>

    constructor (existing: map<string, seq<IndexRecord>>, unwritable: set<string>)
      ensures files == existing && this.unwritable == unwritable
    {
      files := existing;
      this.unwritable := unwritable;
    }

    /** `writeFileSync` of a chart's index file: the whole file is replaced, or the call fails. */
    method Write(chartId: string, records: seq<IndexRecord>) returns (ok: bool)
      modifies this
      ensures ok == (chartId !in unwritable)
      ensures files == if ok then old(files)[chartId := records] else old(files)
    {
      ok := chartId !in unwritable;
      if ok {
        files := files[chartId := records];
      }
    }
  }

  /** The inner loop: one record per entry file pushed onto `indexData`, or the first read/parse error. */
  method BuildChartIndex(host: Host, parsed: map<(string, string), Metadata>, chartId: string,
                         entryFiles: seq<string>)
    returns (r: Result<seq<IndexRecord>, Failure>)
    ensures r == ChartIndex(host, parsed, chartId, entryFiles)
  {
    var indexData: seq<IndexRecord> := [];
    for i := 0 to |entryFiles|
      invariant ChartIndex(host, parsed, chartId, entryFiles[..i]) == Ok(indexData)
    {
      var file := entryFiles[i];
      assert entryFiles[..i + 1][..i] == entryFiles[..i];
      if (chartId, file) !in parsed {
        ChartIndexErrPersists(host, parsed, chartId, entryFiles, i + 1);
        return Err(EntryUnreadable(chartId, file));
      }
      indexData := indexData + [BuildRecord(host, parsed[(chartId, file)], chartId, file)];
    }
    assert entryFiles[..|entryFiles|] == entryFiles;
    return Ok(indexData);
  }

  /**
   * The whole script: list the chart directories, then for each one in order skip it,
   * or build and write its index; the first failure is returned to the top-level handler
   * and the remaining charts are not visited.
   */
  method GenerateIndex(host: Host, tree: ContentTree, store: IndexStore) returns (failure: Option<Failure>)
    modifies store
    ensures failure == Run(host, tree, store.unwritable).failure
    ensures store.files == old(store.files) + Run(host, tree, store.unwritable).written
  {
    if tree.root.None? {
      return Some(ChartsRootUnreadable);
    }
    var chartDirs := ChartDirs(tree.root.value);
    ghost var initial := store.files;
    for i := 0 to |chartDirs|
      invariant RunCharts(host, tree, store.unwritable, chartDirs[..i]).failure == None
      invariant store.files == initial + RunCharts(host, tree, store.unwritable, chartDirs[..i]).written
    {
      ghost var before := store.files;
      failure := IndexChart(host, tree, store, chartDirs[i]);
      ChartLoopStep(host, tree, store.unwritable, chartDirs, i, initial, before, store.files, failure);
      if failure.Some? {
        return;
      }
    }
    assert chartDirs[..|chartDirs|] == chartDirs;
    return None;
  }

  /** What one turn of the chart loop does to the run so far, and that a failing turn ends it. */
  lemma ChartLoopStep(host: Host, tree: ContentTree, unwritable: set<string>, charts: seq<string>, i: nat,
                      initial: map<string, seq<IndexRecord>>, before: map<string, seq<IndexRecord>>,
                      after: map<string, seq<IndexRecord>>, failure: Option<Failure>)
    requires i < |charts|
    requires RunCharts(host, tree, unwritable, charts[..i]).failure == None
    requires before == initial + RunCharts(host, tree, unwritable, charts[..i]).written
    requires failure == Step(host, tree, unwritable, before, charts[i]).failure
    requires after == Step(host, tree, unwritable, before, charts[i]).written
    ensures after == initial + RunCharts(host, tree, unwritable, charts[..i + 1]).written
    ensures failure == RunCharts(host, tree, unwritable, charts[..i + 1]).failure
    ensures failure.Some? ==> RunCharts(host, tree, unwritable, charts) == RunCharts(host, tree, unwritable, charts[..i + 1])
  {
    var done := RunCharts(host, tree, unwritable, charts[..i]).written;
    RunChartsNext(host, tree, unwritable, charts, i);
    StepOnTopOf(host, tree, unwritable, initial, done, charts[i]);
    if failure.Some? {
      RunFailurePersists(host, tree, unwritable, charts, i + 1);
    }
  }

  /**
   * One turn of the chart loop: skip a chart without `entries`, otherwise build its
   * records and write its index file; a failure is passed on to the caller.
   */
  method IndexChart(host: Host, tree: ContentTree, store: IndexStore, chartId: string)
    returns (failure: Option<Failure>)
    modifies store
    ensures failure == Step(host, tree, store.unwritable, old(store.files), chartId).failure
    ensures store.files == Step(host, tree, store.unwritable, old(store.files), chartId).written
  {
    if chartId !in tree.entries {
      return None;
    }
    match tree.entries[chartId] {
      case NotListable =>
        return Some(EntriesUnreadable(chartId));
      case Listing(names) =>
        var entryFiles := MarkdownFiles(names);
        var indexData := BuildChartIndex(host, tree.parsed, chartId, entryFiles);
        if indexData.Err? {
          return Some(indexData.error);
        }
        var ok := store.Write(chartId, indexData.value);
        if !ok {
          return Some(IndexWriteFailed(chartId));
        }
        return None;
    }
  }
}
