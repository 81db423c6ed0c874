# Iceberg chart entry index generator — verified model

The content repository keeps its entries under `content/iceberg-charts/<chart>/entries/*.md`. Each entry is a Markdown file with a front-matter block. A one-shot build script, `generate-index.js`, walks that tree. It lists the chart directories in listing order. It skips a chart that has no `entries` directory. It keeps the `.md` names of each chart's `entries` directory, in listing order, and reads each file's front-matter. It builds one index record per file: `path`, `id`, `name`, `layer`, `categoryId` and `tagIds`. Then it writes the records of each chart to `<chart>/entries-index.json`. The whole loop sits in one `try`. The first error ends the run, and the `catch` only logs it.

This project models that loop in Dafny and proves what it writes.

- `wrappers.dfy` (`Wrappers`): `Option` (`None` stands for `undefined`) and `Result`.
- `json.dfy` (`Json`): the JavaScript values that front-matter parsing produces. `Truthy` is JavaScript's ToBoolean. `Or` is the `||` operator used for defaulting.
- `paths.dfy` (`Paths`): the `.md` test (`endsWith`). `path.join` is modelled as concatenation with the host separator (`Host = Posix | Windows`). The backslash replacement gives the repository-relative `path`.
- `records.dfy` (`Records`): the index record and `BuildRecord`, the record literal with its `||` defaults.
- `filesystem.dfy` (`FileSystem`): the input of a run as a value. It holds the listing of the charts root, each chart's `entries` directory, and the parsed front-matter of each file. It also defines the two filters (`ChartDirs`, `MarkdownFiles`) and the errors that end a run.
- `generator.dfy` (`Generator`): the specification functions and the proofs about them.
  - `ChartIndex` gives one chart's records. `Step` is one turn of the chart loop. `RunCharts` and `Run` give a whole run.
  - The class `IndexStore` holds the index files on disk. Its `Write` is `writeFileSync`.
  - The imperative loops are proved equal to those functions: `BuildChartIndex` is the inner loop over files. `IndexChart` is one turn of the chart loop. `GenerateIndex` is the script.

Inputs are modelled as follows:
- Reading a file and parsing its front-matter is the map `ContentTree.parsed`. A (chart, file) pair missing from the map is a file whose read or parse throws.
- Listing the charts root yields `None` when it throws.
- An `entries` that exists but cannot be listed is `NotListable`. Example: a plain file named `entries`. The script's `existsSync` is true for it and `readdirSync` then throws.
- Writing an index file throws for the charts in `IndexStore.unwritable`.

## Model

| member | source | states |
|---|---|---|
| `Json.Or` | generate-index.js:46-50 | The `or` operator returns `a` when `a` is defined and truthy, otherwise `b`. The result is truthy exactly when one of the operands is. |
| `Paths.ReplaceBackslashes` | generate-index.js:42 | `.replace(/\\/g, '/')` keeps the length. It turns every backslash into `/` and leaves every other character alone. No backslash remains. |
| `Paths.ReplacedJoinIgnoresSeparator` | generate-index.js:42 | After the replacement, joining with `\` (Windows) or `/` (POSIX) gives the same string. |
| `Paths.GithubPath` | generate-index.js:42 | The record path never contains a backslash. It is the same on every host. For chart and file names without backslashes it is exactly the slash-joined path. |
| `Paths.SlashPathSpelledOut` | generate-index.js:42 | The slash-joined path is `"content/iceberg-charts/" + chartId + "/entries/" + file`. |
| `Records.BuildRecord` | generate-index.js:44-51 | `id`, `layer` and `categoryId` are non-null exactly when the metadata value is present and truthy, and then equal it unchanged. Otherwise they are `null`. `name` is the truthy metadata name, otherwise the file name, so it is truthy (never null or empty) for a non-empty file name. `tagIds` is the truthy metadata value unchanged (of any type), otherwise `[]`, so it is always truthy. `path` has no backslash. |
| `Records.NullableFieldsAreNullOrTruthy` | generate-index.js:46-49 | A falsy `0`, `""`, `false` or `NaN` in `id`, `layer` or `categoryId` never reaches the record: each field is `null` or truthy. |
| `Records.RecordIsHostIndependent` | generate-index.js:42-51 | The same front-matter gives the same record on POSIX and on Windows. |
| `FileSystem.ChartDirs` | generate-index.js:17-19 | Only the names of `Directory` entries become charts. Every directory of the listing becomes one. |
| `FileSystem.ChartDirsAppend` | generate-index.js:17-19 | Filtering respects concatenation, so charts keep the listing's relative order. |
| `FileSystem.MarkdownFiles` | generate-index.js:32 | A name is an entry file exactly when it is in the listing and ends in `.md`. |
| `FileSystem.MarkdownFilesAppend` | generate-index.js:32 | Filtering respects concatenation, so entry files keep the listing's relative order. |
| `Generator.ChartIndexOk` | generate-index.js:37-52 | A chart's records exist exactly when every entry file can be read and parsed. Then there is one record per `.md` name, in the same order, and record k is built from file k's front-matter. |
| `Generator.ChartIndexErr` | generate-index.js:37-40 | A failing chart reports its first entry file that cannot be read or parsed. Every earlier file was fine. |
| `Generator.ChartIndexErrPersists` | generate-index.js:37-40 | Once a file has failed, later files of the chart change nothing. |
| `Generator.BuildChartIndex` | generate-index.js:33-52 | The inner loop, which pushes one record per file onto `indexData`, returns exactly `ChartIndex`: the records, or the first read/parse error. |
| `Generator.StepWritesOwnChart` | generate-index.js:24-55 | One turn of the chart loop keeps every earlier index file: none disappears and none changes. It writes at most its own chart's index, with that chart's records. |
| `Generator.StepOutcome` | generate-index.js:24-55 | One turn succeeds exactly when its chart is fine. A chart is fine when it has no `entries`, or when its `entries` can be listed, every entry file can be read and parsed, and its index can be written. A chart without `entries` changes nothing. A fine chart adds its records. A failing turn writes nothing. It fails with `EntriesUnreadable` when `entries` cannot be listed. Otherwise it fails with `EntryUnreadable` for the first entry file that cannot be read or parsed. Otherwise it fails with `IndexWriteFailed`. It never fails with `ChartsRootUnreadable`. |
| `Generator.StepOnTopOf` | generate-index.js:54 | A turn's write replaces the chart's whole index file, whatever file existed before the run. |
| `Generator.RunFailurePersists` | generate-index.js:15-62 | After the first failure the loop visits no further chart. The `catch` ends the run and does not retry. |
| `Generator.WrittenChartsAreIndexed` | generate-index.js:23-56 | Every index file the loop writes belongs to a visited chart. That chart has a listable `entries` directory and a writable index. The file holds exactly the chart's records. |
| `Generator.CompletedRunCoversCharts` | generate-index.js:23-30 | A loop that does not fail writes an index for every visited chart that has `entries`, including the charts that come after a skipped chart without `entries`. |
| `Generator.RunChartsCompletes` | generate-index.js:15-62 | The chart loop ends without failure exactly when every visited chart is fine. A chart without `entries` is skipped and the loop goes on. |
| `Generator.RunChartsFailsAtFirstBadChart` | generate-index.js:15-62 | A failed chart loop failed at its first chart that is not fine. Every earlier chart was fine. The failure is that chart's own turn failure, as `StepOutcome` names it. |
| `Generator.FailedRunStopsAtOneChart` | generate-index.js:15-62 | A failed loop stopped at one chart. All charts before it were handled, and the index files they wrote stay as written. The failing chart wrote nothing. No later chart was visited. |
| `Generator.RunWritesOnlyChartIndexes` | generate-index.js:17-30 | A run writes only for names of directories of the charts root that have listable `entries`, and writes those charts' records. A non-directory or a chart without `entries` gets no index file. |
| `Generator.CompletedRunIndexesEveryChart` | generate-index.js:17-56 | A run that does not fail writes an index for every chart directory that has `entries`. That index holds one record per `.md` name. |
| `Generator.RunOutcome` | generate-index.js:15-62 | A run fails with `ChartsRootUnreadable` exactly when the charts root cannot be listed. It ends without failure exactly when the root can be listed and every chart directory is fine. Otherwise it fails with the turn failure of the first chart directory that is not fine. |
| `Generator.ChartLoopStep` | generate-index.js:23-56 | One turn of the chart loop takes the run from the first i charts to the first i+1. A failing turn is the end of the run. |
| `Generator.IndexStore.Write` | generate-index.js:54 | Writing replaces the chart's index file with the records, or throws for an unwritable chart. Other index files are unchanged. |
| `Generator.IndexChart` | generate-index.js:24-55 | One turn of the chart loop does exactly what `Step` specifies. It skips, fails, or builds the records and writes them. |
| `Generator.GenerateIndex` | generate-index.js:15-62 | The script returns exactly the failure of `Run`. The index files afterwards are the old files overwritten by what `Run` wrote. No other file changes. |

## Left out

- Front-matter parsing (the `gray-matter` call) and file reading are not modelled. Their results are the input map `ContentTree.parsed`, and any read or parse error is one abstract failure. A parser that returned `null` data would make the property reads throw; this is not modelled.
- The `fs` calls `readdirSync`, `existsSync`, `readFileSync` and `writeFileSync` are reads of the input value and updates of `IndexStore.files`. No I/O is modelled.
- `path.join` is modelled as concatenation with the host separator. Its normalisation (`.`, `..`, repeated separators, and turning `/` into `\` on Windows) is library behaviour and is not modelled. For single-segment names it does not change the record path after the backslash replacement.
- `JSON.stringify` formatting is not modelled. An index file is the record sequence, not its text.
- The environment variable and its fallback path, which decide where the charts root is, are not modelled. The charts root is whatever `ContentTree.root` lists.
- Console logging, including the error message printed by the `catch`, is not modelled. `GenerateIndex` returns the failure instead. The script itself sets no failing exit status.
- Generator.IndexStore.Write: only a write failure that happens before the file is opened is modelled, and then the chart's old index file is unchanged. `writeFileSync` truncates the file when it opens it. A failure after that (a full disk, say) would leave an empty or partial index file behind. The model does not capture that state.
- JavaScript numbers are modelled as reals plus `NaN`. Infinities and YAML timestamps (which the parser turns into `Date` objects) have no constructors of their own. Both are truthy, like `Obj`.
- Fields beyond the six the script emits (`lastUpdated`, `hasContent`, `hasTitledLinks`, a full-record dump) are not part of this script and are not modelled.
