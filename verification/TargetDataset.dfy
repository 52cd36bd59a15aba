/**
 The dataset that the reading queries build from the rows of the target, field by field, and that it is the
 exported one when the rows are.
*/
module TargetDataset {
  import opened Wrappers
  import opened Relational
  import opened RowOrder
  import D = Dataset
  import IR = ImportRows
  import J = JsonValues

  // ---------- A value of a row ----------

  function TextAt(cs: seq<Column>, i: nat): string {
    if i < |cs| && (cs[i].Text? || cs[i].LongText? || cs[i].Digest? || cs[i].NullableText? || cs[i].NullableLong?) then cs[i].text else ""
  }

  function NumberAt(cs: seq<Column>, i: nat): int {
    if i < |cs| && (cs[i].Integer? || cs[i].Big?) then cs[i].number else 0
  }

  function JsonAt(cs: seq<Column>, i: nat): J.Json {
    if i < |cs| && cs[i].Json? then cs[i].value else J.JSON_NULL
  }

  function OptionalJsonAt(cs: seq<Column>, i: nat): Option<J.Json> {
    if i < |cs| && (cs[i].RequiredJson? || cs[i].NullableJson?) then cs[i].json else None
  }

  function OptionalTimeAt(cs: seq<Column>, i: nat): Option<D.Time> {
    if i < |cs| && cs[i].Time? then cs[i].at else None
  }

  function TimeAt(cs: seq<Column>, i: nat): D.Time {
    OptionalTimeAt(cs, i).GetOr(0)
  }

  function SpanAt(cs: seq<Column>, i: nat): Option<int> {
    if i < |cs| && cs[i].Span? then cs[i].span else None
  }

  function RefAt(item: Item, i: nat): string {
    if i < |item.refs| then item.refs[i] else ""
  }

  function SecondOf(item: Item): seq<Column> {
    item.second.GetOr([])
  }

  // ---------- A row of each table ----------

  function ReadProject(item: Item): D.Project {
    var b := item.body;
    D.Project(TextAt(item.key, 0), NumberAt(b, 0), TextAt(b, 1), JsonAt(b, 2), NumberAt(b, 3), RefAt(item, 0),
              TimeAt(b, 4), TimeAt(b, 5), OptionalTimeAt(b, 6))
  }

  /** The parents are read by a query of their own. */
  function ReadAsset(item: Item, parents: seq<string>): D.Asset {
    var b := item.body;
    D.Asset(TextAt(item.key, 0), NumberAt(b, 0), RefAt(item, 0), TextAt(b, 1), TextAt(b, 2), TextAt(SecondOf(item), 0),
            TextAt(b, 3), TextAt(b, 4), TextAt(b, 5), NumberAt(b, 6), NumberAt(b, 7), SpanAt(b, 10),
            NumberAt(b, 8), TextAt(b, 9), parents, TimeAt(b, 11), OptionalTimeAt(b, 12))
  }

  function ReadProjectRef(item: Item): D.ProjectRef {
    D.ProjectRef(RefAt(item, 0), RefAt(item, 1), TextAt(item.key, 0), TimeAt(item.body, 0))
  }

  function ReadLibraryItem(item: Item): D.LibraryItem {
    var b := item.body;
    D.LibraryItem(TextAt(item.key, 0), TextAt(SecondOf(item), 1), NumberAt(SecondOf(item), 0), TextAt(b, 0), RefAt(item, 0),
                  TextAt(b, 1), TextAt(b, 2), JsonAt(b, 3), TextAt(b, 4), TextAt(b, 5), JsonAt(b, 6), NumberAt(b, 7),
                  TimeAt(b, 8), TimeAt(b, 9), OptionalTimeAt(b, 10))
  }

  function ReadDocument(item: Item): D.Document {
    var b := item.body;
    D.Document(TextAt(item.key, 0), RefAt(item, 0), TextAt(b, 0), RefAt(item, 1), RefAt(item, 2), JsonAt(b, 1), NumberAt(b, 2),
               TimeAt(b, 3), TimeAt(b, 4), OptionalTimeAt(b, 5))
  }

  function ReadEditorRef(item: Item): D.EditorRef {
    D.EditorRef(RefAt(item, 0), RefAt(item, 1), TextAt(item.key, 0), TextAt(item.key, 1), TimeAt(item.body, 0))
  }

  function ReadRevision(item: Item): D.Revision {
    D.Revision(TextAt(item.key, 0), RefAt(item, 0), NumberAt(SecondOf(item), 0), RefAt(item, 1), TextAt(item.body, 0),
               OptionalJsonAt(item.body, 1), TimeAt(item.body, 2))
  }

  function ReadJob(item: Item): D.Job {
    var b := item.body;
    D.Job(TextAt(item.key, 0), NumberAt(SecondOf(item), 0), RefAt(item, 0), TextAt(b, 0), TextAt(b, 1), TextAt(b, 2),
          TextAt(b, 3), NumberAt(b, 4), TextAt(b, 5), TextAt(b, 6), NumberAt(b, 7), NumberAt(b, 8),
          JsonAt(b, 9), TextAt(b, 10), TextAt(SecondOf(item), 1), JsonAt(b, 11), NumberAt(b, 12),
          OptionalTimeAt(b, 13), TextAt(b, 14), TextAt(b, 15), TextAt(b, 16), NumberAt(b, 17) == 1,
          TimeAt(b, 18), TimeAt(b, 19), OptionalTimeAt(b, 20))
  }

  function ReadJobInput(item: Item): D.JobInput {
    D.JobInput(RefAt(item, 0), NumberAt(item.key, 1), TextAt(item.key, 0), RefAt(item, 1), TextAt(item.body, 0), TimeAt(item.body, 1))
  }

  function ReadJobResult(item: Item): D.JobResult {
    D.JobResult(RefAt(item, 0), NumberAt(item.key, 0), TextAt(item.body, 0), RefAt(item, 1), TextAt(item.body, 1),
                TextAt(item.body, 2), TimeAt(item.body, 3))
  }

  function ReadMediaTask(item: Item): D.MediaTask {
    var b := item.body;
    D.MediaTask(TextAt(item.key, 0), TextAt(b, 0), TextAt(b, 1), TextAt(b, 2), NumberAt(b, 3), RefAt(item, 0), TextAt(b, 4),
                TextAt(b, 5), TextAt(b, 6), JsonAt(b, 8), TextAt(b, 9), RefAt(item, 1), OptionalJsonAt(b, 7),
                TimeAt(b, 10), TimeAt(b, 11), OptionalTimeAt(b, 12))
  }

  // ---------- Every table ----------

  function ReadAll<T>(items: seq<Item>, read: Item -> T): seq<T> {
    seq(|items|, i requires 0 <= i < |items| => read(items[i]))
  }

  /** The parents that the rows name for an asset. */
  function ParentsOf(rows: seq<Item>, asset: string): seq<string> {
    if rows == [] then []
    else (if RefAt(rows[0], 0) == asset then [RefAt(rows[0], 1)] else []) + ParentsOf(rows[1..], asset)
  }

  function ReadAssets(items: seq<Item>, parents: seq<Item>): seq<D.Asset> {
    ReadAll(items, (item: Item) => ReadAsset(item, ParentsOf(parents, TextAt(item.key, 0))))
  }

  function Listed(db: Db, le: (string, string) -> bool, t: Table): seq<Item> {
    Ordered(le, t, Read(db, t))
  }

  /** What the reading queries make of a target; it has no stored objects. */
  function ReadTarget(db: Db, le: (string, string) -> bool): D.Export {
    D.Export(
      ReadAll(Listed(db, le, Projects), ReadProject),
      ReadAssets(Listed(db, le, Assets), Listed(db, le, AssetParents)),
      ReadAll(Listed(db, le, ProjectRefs), ReadProjectRef),
      ReadAll(Listed(db, le, LibraryItems), ReadLibraryItem),
      ReadAll(Listed(db, le, EditorDocuments), ReadDocument),
      ReadAll(Listed(db, le, EditorRefs), ReadEditorRef),
      ReadAll(Listed(db, le, EditorRevisions), ReadRevision),
      ReadAll(Listed(db, le, Jobs), ReadJob),
      ReadAll(Listed(db, le, JobInputs), ReadJobInput),
      ReadAll(Listed(db, le, JobResults), ReadJobResult),
      ReadAll(Listed(db, le, MediaTasks), ReadMediaTask),
      [])
  }

  /** The same asset, with its parents in any order. */
  predicate SameAsset(a: D.Asset, b: D.Asset) {
    a == b.(parents := a.parents) && multiset(a.parents) == multiset(b.parents)
  }

  /** Two datasets agree in every field of the twelve tables. */
  predicate SameContent(a: D.Export, b: D.Export) {
    && a.projects == b.projects
    && |a.assets| == |b.assets| && (forall i :: 0 <= i < |a.assets| ==> SameAsset(a.assets[i], b.assets[i]))
    && a.projectRefs == b.projectRefs && a.libraryItems == b.libraryItems
    && a.documents == b.documents && a.editorRefs == b.editorRefs && a.revisions == b.revisions
    && a.jobs == b.jobs && a.jobInputs == b.jobInputs && a.jobResults == b.jobResults && a.mediaTasks == b.mediaTasks
  }

  // ---------- Rows and back ----------

  lemma MappedBack<T>(xs: seq<T>, write: T -> Item, read: Item -> T)
    requires forall x :: read(write(x)) == x
    ensures ReadAll(IR.Mapped(xs, write), read) == xs
  {
  }

  lemma ProjectBack(p: D.Project)
    ensures ReadProject(IR.ProjectItem(p)) == p
  {
  }

  lemma AssetBack(a: D.Asset, parents: seq<string>)
    ensures ReadAsset(IR.AssetItem(a), parents) == a.(parents := parents)
  {
    var media, measures := IR.AssetMedia(a), IR.AssetMeasures(a);
    assert |media| == 6;
    assert forall i :: 0 <= i < |measures| ==> (media + measures)[6 + i] == measures[i];
  }

  lemma LibraryItemBack(x: D.LibraryItem)
    ensures ReadLibraryItem(IR.LibraryRow(x)) == x
  {
    var texts, times := IR.LibraryTexts(x), IR.LibraryTimes(x);
    assert |texts| == 7;
    assert forall i :: 0 <= i < |times| ==> (texts + times)[7 + i] == times[i];
  }

  lemma JobParts(j: D.Job)
    ensures var a, b, c, body := IR.JobRequest(j), IR.JobProgress(j), IR.JobOutcome(j), IR.JobItem(j).body;
      && |a| == |b| == |c| == 7 && |body| == 21 && body[..7] == a && body[7..14] == b && body[14..] == c
  {
  }

  lemma RequestBack(j: D.Job)
    ensures var b, job := IR.JobItem(j).body, ReadJob(IR.JobItem(j));
      && job.clientNode == j.clientNode && job.operation == j.operation && job.selectedModel == j.selectedModel
      && job.successfulModel == j.successfulModel && job.policyVersion == j.policyVersion && job.status == j.status && job.phase == j.phase
  {
    hide IR.JobProgress, IR.JobOutcome;
    JobParts(j);
    var b := IR.JobItem(j).body;
    assert forall i :: 0 <= i < 7 ==> b[i] == b[..7][i];
  }

  lemma ProgressBack(j: D.Job)
    ensures var job := ReadJob(IR.JobItem(j));
      && job.requested == j.requested && job.completed == j.completed && job.request == j.request && job.requestDigest == j.requestDigest
      && job.attemptPlan == j.attemptPlan && job.attemptPosition == j.attemptPosition && job.cancelRequestedAt == j.cancelRequestedAt
  {
    hide IR.JobRequest, IR.JobOutcome;
    JobParts(j);
    var b := IR.JobItem(j).body;
    assert forall i :: 0 <= i < 7 ==> b[7 + i] == b[7..14][i];
    assert b[7] == b[7..14][0] && b[8] == b[7..14][1] && b[9] == b[7..14][2] && b[10] == b[7..14][3];
    assert b[11] == b[7..14][4] && b[12] == b[7..14][5] && b[13] == b[7..14][6];
  }

  lemma OutcomeBack(j: D.Job)
    ensures var job := ReadJob(IR.JobItem(j));
      && job.errorType == j.errorType && job.errorCode == j.errorCode && job.errorMessage == j.errorMessage
      && job.errorRetryable == j.errorRetryable && job.createdAt == j.createdAt && job.updatedAt == j.updatedAt && job.finishedAt == j.finishedAt
  {
    hide IR.JobRequest, IR.JobProgress;
    JobParts(j);
    var b := IR.JobItem(j).body;
    assert b[14] == b[14..][0] && b[15] == b[14..][1] && b[16] == b[14..][2] && b[17] == b[14..][3];
    assert b[18] == b[14..][4] && b[19] == b[14..][5] && b[20] == b[14..][6];
  }

  lemma JobBack(j: D.Job)
    ensures ReadJob(IR.JobItem(j)) == j
  {
    hide IR.JobRequest, IR.JobProgress, IR.JobOutcome;
    RequestBack(j);
    ProgressBack(j);
    OutcomeBack(j);
    var job := ReadJob(IR.JobItem(j));
    assert job.publicId == j.publicId && job.owner == j.owner && job.project == j.project && job.keyHash == j.keyHash;
  }

  lemma MediaTaskBack(x: D.MediaTask)
    ensures ReadMediaTask(IR.MediaTaskItem(x)) == x
  {
    var a, b := IR.TaskRequest(x), IR.TaskOutcome(x);
    assert |a| == 7;
    assert forall i :: 0 <= i < |b| ==> (a + b)[7 + i] == b[i];
  }

  // ---------- Parents ----------

  lemma {:induction false} ParentCount(rows: seq<Item>, asset: string, p: string)
    requires forall r :: r in rows ==> r == IR.ParentItem(RefAt(r, 0), RefAt(r, 1))
    ensures multiset(ParentsOf(rows, asset))[p] == multiset(rows)[IR.ParentItem(asset, p)]
  {
    if rows != [] {
      var first, rest := rows[0], rows[1..];
      assert rows == [first] + rest;
      ParentCount(rest, asset, p);
      assert first in rows;
      var mine := if RefAt(first, 0) == asset then [RefAt(first, 1)] else [];
      assert first == IR.ParentItem(asset, p) <==> mine == [p];
      assert multiset(ParentsOf(rows, asset)) == multiset(mine) + multiset(ParentsOf(rest, asset));
    }
  }

  function ItemsOfParents(asset: string, parents: seq<string>): seq<Item> {
    seq(|parents|, i requires 0 <= i < |parents| => IR.ParentItem(asset, parents[i]))
  }

  lemma {:induction false} OwnCount(asset: string, parents: seq<string>, id: string, p: string)
    ensures multiset(ItemsOfParents(asset, parents))[IR.ParentItem(id, p)] == if asset == id then multiset(parents)[p] else 0
  {
    if parents != [] {
      var rest, last := parents[..|parents| - 1], parents[|parents| - 1];
      OwnCount(asset, rest, id, p);
      assert parents == rest + [last];
      assert ItemsOfParents(asset, parents) == ItemsOfParents(asset, rest) + [IR.ParentItem(asset, last)];
      assert IR.ParentItem(asset, last) == IR.ParentItem(id, p) <==> asset == id && last == p by {
        assert IR.ParentItem(asset, last).refs[0] == asset && IR.ParentItem(asset, last).refs[1] == last;
        assert IR.ParentItem(id, p).refs[0] == id && IR.ParentItem(id, p).refs[1] == p;
      }
    }
  }

  predicate IdsDistinct(assets: seq<D.Asset>) {
    forall i, j :: 0 <= i < j < |assets| ==> assets[i].publicId != assets[j].publicId
  }

  lemma {:induction false} ParentItemsCount(assets: seq<D.Asset>, id: string, p: string)
    requires IdsDistinct(assets)
    ensures (forall a :: a in assets ==> a.publicId != id) ==> multiset(IR.ParentItems(assets))[IR.ParentItem(id, p)] == 0
    ensures forall a :: a in assets && a.publicId == id ==> multiset(IR.ParentItems(assets))[IR.ParentItem(id, p)] == multiset(a.parents)[p]
  {
    if assets != [] {
      var rest, last := assets[..|assets| - 1], assets[|assets| - 1];
      assert assets == rest + [last];
      ParentItemsCount(rest, id, p);
      OwnCount(last.publicId, last.parents, id, p);
      assert IR.ParentItems(assets) == IR.ParentItems(rest) + ItemsOfParents(last.publicId, last.parents);
      forall a | a in rest ensures a.publicId != last.publicId {
        var i :| 0 <= i < |rest| && rest[i] == a;
        assert assets[i] == a && assets[|rest|] == last;
      }
    }
  }

  lemma {:induction false} ParentItemsShaped(assets: seq<D.Asset>)
    ensures forall r :: r in IR.ParentItems(assets) ==> r == IR.ParentItem(RefAt(r, 0), RefAt(r, 1))
  {
    if assets != [] {
      ParentItemsShaped(assets[..|assets| - 1]);
    }
  }

  /** Whatever order the rows have: an asset reads with its own parents. */
  lemma ParentsBack(assets: seq<D.Asset>, rows: seq<Item>, a: D.Asset)
    requires IdsDistinct(assets) && multiset(rows) == multiset(IR.ParentItems(assets)) && a in assets
    ensures multiset(ParentsOf(rows, a.publicId)) == multiset(a.parents)
  {
    ParentItemsShaped(assets);
    forall r | r in rows ensures r == IR.ParentItem(RefAt(r, 0), RefAt(r, 1)) {
      assert r in multiset(rows);
      assert r in IR.ParentItems(assets);
    }
    forall p: string ensures multiset(ParentsOf(rows, a.publicId))[p] == multiset(a.parents)[p] {
      ParentCount(rows, a.publicId, p);
      ParentItemsCount(assets, a.publicId, p);
    }
  }

  lemma AssetsBack(assets: seq<D.Asset>, parents: seq<Item>)
    requires IdsDistinct(assets) && multiset(parents) == multiset(IR.ParentItems(assets))
    ensures var read := ReadAssets(IR.Mapped(assets, IR.AssetItem), parents);
      |read| == |assets| && forall i :: 0 <= i < |assets| ==> SameAsset(read[i], assets[i])
  {
    var items := IR.Mapped(assets, IR.AssetItem);
    var read := ReadAssets(items, parents);
    forall i | 0 <= i < |assets| ensures SameAsset(read[i], assets[i]) {
      var a := assets[i];
      assert items[i] == IR.AssetItem(a) && TextAt(items[i].key, 0) == a.publicId;
      AssetBack(a, ParentsOf(parents, a.publicId));
      ParentsBack(assets, parents, a);
    }
  }

  lemma EntitiesBack(d: D.Export)
    ensures ReadAll(IR.Items(d, Projects), ReadProject) == d.projects
    ensures ReadAll(IR.Items(d, LibraryItems), ReadLibraryItem) == d.libraryItems
    ensures ReadAll(IR.Items(d, ProjectRefs), ReadProjectRef) == d.projectRefs
  {
    forall x ensures ReadLibraryItem(IR.LibraryRow(x)) == x { LibraryItemBack(x); }
    MappedBack(d.projects, IR.ProjectItem, ReadProject);
    MappedBack(d.projectRefs, IR.ProjectRefItem, ReadProjectRef);
    MappedBack(d.libraryItems, IR.LibraryRow, ReadLibraryItem);
  }

  lemma EditorBack(d: D.Export)
    ensures ReadAll(IR.Items(d, EditorDocuments), ReadDocument) == d.documents
    ensures ReadAll(IR.Items(d, EditorRefs), ReadEditorRef) == d.editorRefs
    ensures ReadAll(IR.Items(d, EditorRevisions), ReadRevision) == d.revisions
  {
    MappedBack(d.documents, IR.DocumentItem, ReadDocument);
    MappedBack(d.editorRefs, IR.EditorRefItem, ReadEditorRef);
    MappedBack(d.revisions, IR.RevisionItem, ReadRevision);
  }

  lemma JobsBack(d: D.Export)
    ensures ReadAll(IR.Items(d, Jobs), ReadJob) == d.jobs
    ensures ReadAll(IR.Items(d, JobInputs), ReadJobInput) == d.jobInputs
    ensures ReadAll(IR.Items(d, JobResults), ReadJobResult) == d.jobResults
  {
    hide ReadJob, IR.JobItem;
    forall x ensures ReadJob(IR.JobItem(x)) == x { JobBack(x); }
    MappedBack(d.jobs, IR.JobItem, ReadJob);
    MappedBack(d.jobInputs, IR.JobInputItem, ReadJobInput);
    MappedBack(d.jobResults, IR.JobResultItem, ReadJobResult);
  }

  lemma TasksBack(d: D.Export)
    ensures ReadAll(IR.Items(d, MediaTasks), ReadMediaTask) == d.mediaTasks
  {
    hide ReadMediaTask, IR.MediaTaskItem;
    forall x ensures ReadMediaTask(IR.MediaTaskItem(x)) == x { MediaTaskBack(x); }
    MappedBack(d.mediaTasks, IR.MediaTaskItem, ReadMediaTask);
  }

  lemma {:induction false} ListedPermutes(le: (string, string) -> bool, t: Table, rows: seq<Item>)
    ensures multiset(Ordered(le, t, rows)) == multiset(rows)
  {
    if rows != [] {
      assert rows == [rows[0]] + rows[1..];
      ListedPermutes(le, t, rows[1..]);
      PlacedPermutes(le, t, rows[0], Ordered(le, t, rows[1..]));
    }
  }

  /** A target whose lists are the rows of an export reads as that export, in every field of every table. */
  lemma ReadsAsExport(db: Db, le: (string, string) -> bool, d: D.Export)
    requires IdsDistinct(d.assets) && multiset(Read(db, AssetParents)) == multiset(IR.Items(d, AssetParents))
    requires forall t: Table :: t != AssetParents ==> Listed(db, le, t) == IR.Items(d, t)
    ensures SameContent(ReadTarget(db, le), d)
  {
    hide ReadAll, ReadAssets, SameAsset, Ordered;
    ListedPermutes(le, AssetParents, Read(db, AssetParents));
    EntitiesBack(d);
    AssetsBack(d.assets, Listed(db, le, AssetParents));
    EditorBack(d);
    JobsBack(d);
    TasksBack(d);
  }
}
