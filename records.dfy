/** The index record written for one entry file. */
module Records {
  import opened Wrappers
  import opened Json
  import opened Paths

  /** One element of `entries-index.json`. */
  datatype IndexRecord = IndexRecord(
    path: string,
    id: Json,
    name: Json,
    layer: Json,
    categoryId: Json,
    tagIds: Json)

  /**
   * The record literal built for `file` of chart `chartId` from its front-matter `meta`.
   * `id`, `layer` and `categoryId` keep a truthy value and are `null` otherwise; `name`
   * falls back to the file name and `tagIds` to `[]`. No type is checked: any truthy
   * value passes through unchanged.
   */
  function BuildRecord(host: Host, meta: Metadata, chartId: string, file: string): (r: IndexRecord)
    ensures '\\' !in r.path
    ensures r.path == ReplaceBackslashes(SlashPath(chartId, file))
    ensures r.id != Null <==> TruthyAt(meta, "id")
    ensures r.id != Null ==> r.id == meta["id"]
    ensures r.layer != Null <==> TruthyAt(meta, "layer")
    ensures r.layer != Null ==> r.layer == meta["layer"]
    ensures r.categoryId != Null <==> TruthyAt(meta, "categoryId")
    ensures r.categoryId != Null ==> r.categoryId == meta["categoryId"]
    ensures TruthyAt(meta, "name") ==> r.name == meta["name"]
    ensures !TruthyAt(meta, "name") ==> r.name == Str(file)
    ensures file != "" ==> Truthy(r.name)
    ensures TruthyAt(meta, "tagIds") ==> r.tagIds == meta["tagIds"]
    ensures !TruthyAt(meta, "tagIds") ==> r.tagIds == Arr([])
    ensures Truthy(r.tagIds)
  {
    IndexRecord(
      path := GithubPath(host, chartId, file),
      id := Or(Lookup(meta, "id"), Null),
      name := Or(Lookup(meta, "name"), Str(file)),
      layer := Or(Lookup(meta, "layer"), Null),
      categoryId := Or(Lookup(meta, "categoryId"), Null),
      tagIds := Or(Lookup(meta, "tagIds"), Arr([])))
  }

  /**
   * A nullable field never holds a falsy value other than `null`: `0`, `""`, `false`
   * and `NaN` in the front-matter all come out as `null`.
   */
  lemma NullableFieldsAreNullOrTruthy(host: Host, meta: Metadata, chartId: string, file: string)
    ensures var r := BuildRecord(host, meta, chartId, file);
      && (r.id == Null || Truthy(r.id))
      && (r.layer == Null || Truthy(r.layer))
      && (r.categoryId == Null || Truthy(r.categoryId))
  {
  }

  /** The platform Node runs on does not change the record. */
  lemma RecordIsHostIndependent(meta: Metadata, chartId: string, file: string)
    ensures BuildRecord(Posix, meta, chartId, file) == BuildRecord(Windows, meta, chartId, file)
  {
  }
}
