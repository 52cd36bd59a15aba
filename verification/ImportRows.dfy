/**
 The rows of an export as the import statements send them, table by table, and what the columns of the
 target can hold: some are narrower than what the validator lets through.
*/
module ImportRows {
  import opened Wrappers
  import opened Dataset
  import R = Relational
  import J = JsonValues

  // ---------- One row of each table ----------

  function Id(name: string): R.Column { R.PublicId(name) }

  function At(t: Time): R.Column { R.Time(Some(t)) }

  function ProjectItem(p: Project): R.Item {
    R.Item([p.thumbnail], [Id(p.publicId)], None,
           [R.Big(p.owner), R.Text(p.name, 160), R.Json(p.document), R.Big(p.version),
            At(p.createdAt), At(p.updatedAt), R.Time(p.deletedAt)])
  }

  /** A project as it first goes in, without its thumbnail. */
  function Unillustrated(p: Project): R.Item {
    ProjectItem(p.(thumbnail := ""))
  }

  function AssetMedia(a: Asset): seq<R.Column> {
    [R.Big(a.owner), R.Text(a.sourceType, 20), R.Text(a.mediaKind, 16), R.NullableLong(a.thumbnailKey),
     R.Text(a.fileName, 512), R.Text(a.mimeType, 100)]
  }

  function AssetMeasures(a: Asset): seq<R.Column> {
    [R.Integer(a.width), R.Integer(a.height), R.Big(a.byteSize), R.Digest(a.sha256), R.Span(a.durationMs),
     At(a.createdAt), R.Time(a.deletedAt)]
  }

  function AssetItem(a: Asset): R.Item {
    R.Item([a.project], [Id(a.publicId)], Some([R.LongText(a.objectKey)]), AssetMedia(a) + AssetMeasures(a))
  }

  function ParentItem(asset: string, parent: string): R.Item {
    R.Item([asset, parent], [], None, [])
  }

  function ParentItems(assets: seq<Asset>): seq<R.Item> {
    if assets == [] then []
    else
      var last := assets[|assets| - 1];
      ParentItems(assets[..|assets| - 1]) + seq(|last.parents|, i requires 0 <= i < |last.parents| => ParentItem(last.publicId, last.parents[i]))
  }

  function ProjectRefItem(r: ProjectRef): R.Item {
    R.Item([r.project, r.asset], [R.Text(r.node, 128)], None, [At(r.createdAt)])
  }

  function LibraryTexts(x: LibraryItem): seq<R.Column> {
    [R.Text(x.kind, 16), R.Text(x.title, 240), R.LongText(x.content), R.Json(x.tags), R.Text(x.source, 240),
     R.LongText(x.note), R.Json(x.metadata)]
  }

  function LibraryTimes(x: LibraryItem): seq<R.Column> {
    [R.Big(x.version), At(x.createdAt), At(x.updatedAt), R.Time(x.deletedAt)]
  }

  function LibraryRow(x: LibraryItem): R.Item {
    R.Item([x.asset], [Id(x.publicId)], Some([R.Big(x.owner), R.Text(x.client, 128)]), LibraryTexts(x) + LibraryTimes(x))
  }

  /** The index on (project, node) covers the documents that are not deleted. */
  function DocumentItem(x: Document): R.Item {
    R.Item([x.project, x.base, x.current], [Id(x.publicId)], if x.deletedAt.None? then Some([R.Text(x.node, 128)]) else None,
           [R.Text(x.node, 128), R.Json(x.document), R.Big(x.version), At(x.createdAt), At(x.updatedAt), R.Time(x.deletedAt)])
  }

  function EditorRefItem(r: EditorRef): R.Item {
    R.Item([r.document, r.asset], [R.Text(r.role, 16), R.Text(r.element, 128)], None, [At(r.createdAt)])
  }

  function RevisionItem(r: Revision): R.Item {
    R.Item([r.document, r.asset], [Id(r.publicId)], Some([R.Big(r.version)]),
           [R.Text(r.operation, 32), R.RequiredJson(r.parameters), At(r.createdAt)])
  }

  function JobRequest(j: Job): seq<R.Column> {
    [R.Text(j.clientNode, 128), R.Text(j.operation, 16), R.Text(j.selectedModel, 128), R.NullableText(j.successfulModel, 128),
     R.Big(j.policyVersion), R.Text(j.status, 24), R.Text(j.phase, 24)]
  }

  function JobProgress(j: Job): seq<R.Column> {
    [R.Integer(j.requested), R.Integer(j.completed), R.Json(j.request), R.Digest(j.requestDigest),
     R.Json(j.attemptPlan), R.Integer(j.attemptPosition), R.Time(j.cancelRequestedAt)]
  }

  function JobOutcome(j: Job): seq<R.Column> {
    [R.NullableText(j.errorType, 64), R.NullableText(j.errorCode, 64), R.NullableText(j.errorMessage, 512),
     R.Integer(if j.errorRetryable then 1 else 0), At(j.createdAt), At(j.updatedAt), R.Time(j.finishedAt)]
  }

  function JobItem(j: Job): R.Item {
    R.Item([j.project], [Id(j.publicId)], Some([R.Big(j.owner), R.Digest(j.keyHash)]),
           JobRequest(j) + JobProgress(j) + JobOutcome(j))
  }

  function JobInputItem(x: JobInput): R.Item {
    R.Item([x.job, x.asset], [R.Text(x.kind, 16), R.Integer(x.position)], None, [R.Digest(x.sha256), At(x.createdAt)])
  }

  function JobResultItem(x: JobResult): R.Item {
    R.Item([x.job, x.asset], [R.Integer(x.position)], None,
           [R.Text(x.status, 24), R.NullableText(x.mimeType, 100), R.NullableText(x.size, 64), At(x.createdAt)])
  }

  function TaskRequest(x: MediaTask): seq<R.Column> {
    [R.Text(x.mediaKind, 16), R.Text(x.status, 24), R.Text(x.phase, 32), R.Big(x.owner), R.Text(x.clientNode, 128),
     R.Text(x.selectedModel, 128), R.NullableText(x.successfulModel, 128)]
  }

  function TaskOutcome(x: MediaTask): seq<R.Column> {
    [R.NullableJson(x.error), R.Json(x.request), R.Digest(x.requestDigest), At(x.createdAt), At(x.updatedAt), R.Time(x.finishedAt)]
  }

  function MediaTaskItem(x: MediaTask): R.Item {
    R.Item([x.project, x.asset], [Id(x.publicId)], None, TaskRequest(x) + TaskOutcome(x))
  }

  // ---------- Tables ----------

  function Mapped<T>(xs: seq<T>, f: T -> R.Item): seq<R.Item> {
    seq(|xs|, i requires 0 <= i < |xs| => f(xs[i]))
  }

  /** The rows of an export in the terms of a table. */
  function Items(d: Export, t: R.Table): seq<R.Item> {
    match t
    case Projects => Mapped(d.projects, ProjectItem)
    case Assets => Mapped(d.assets, AssetItem)
    case AssetParents => ParentItems(d.assets)
    case ProjectRefs => Mapped(d.projectRefs, ProjectRefItem)
    case LibraryItems => Mapped(d.libraryItems, LibraryRow)
    case EditorDocuments => Mapped(d.documents, DocumentItem)
    case EditorRefs => Mapped(d.editorRefs, EditorRefItem)
    case EditorRevisions => Mapped(d.revisions, RevisionItem)
    case Jobs => Mapped(d.jobs, JobItem)
    case JobInputs => Mapped(d.jobInputs, JobInputItem)
    case JobResults => Mapped(d.jobResults, JobResultItem)
    case MediaTasks => Mapped(d.mediaTasks, MediaTaskItem)
  }

  /** The same rows as the INSERT statements send them. */
  function Sent(d: Export, t: R.Table): seq<R.Item> {
    if t == R.Projects then Mapped(d.projects, Unillustrated) else Items(d, t)
  }

  // ---------- What the columns hold ----------

  predicate ProjectFits(p: Project) {
    R.FitsIn(p.name, 160) && J.JsonHolds(p.document)
  }

  predicate AssetFits(a: Asset) {
    && R.FitsIn(a.fileName, 512) && R.FitsIn(a.mimeType, 100) && a.width <= 2_147_483_647 && a.height <= 2_147_483_647
    && (a.durationMs.Some? ==> a.durationMs.value >= 0)
  }

  predicate LibraryItemFits(x: LibraryItem) {
    && R.FitsIn(x.client, 128) && R.FitsIn(x.title, 240) && R.FitsIn(x.source, 240) && R.Clean(x.content) && R.Clean(x.note)
    && J.JsonHolds(x.tags) && J.JsonHolds(x.metadata)
  }

  predicate DocumentFits(x: Document) {
    R.FitsIn(x.node, 128) && J.JsonHolds(x.document)
  }

  predicate RevisionFits(r: Revision) {
    R.FitsIn(r.operation, 32) && (r.parameters.Some? ==> J.JsonHolds(r.parameters.value))
  }

  predicate JobFits(j: Job) {
    && R.FitsIn(j.clientNode, 128) && R.FitsIn(j.selectedModel, 128) && R.FitsIn(j.successfulModel, 128) && j.attemptPosition <= 2_147_483_647
    && R.FitsIn(j.errorType, 64) && R.FitsIn(j.errorCode, 64) && R.FitsIn(j.errorMessage, 512)
    && J.JsonHolds(j.request) && J.JsonHolds(j.attemptPlan)
  }

  predicate JobResultFits(x: JobResult) {
    x.position <= 2_147_483_647 && R.FitsIn(x.status, 24) && R.FitsIn(x.mimeType, 100) && R.FitsIn(x.size, 64)
  }

  predicate MediaTaskFits(x: MediaTask) {
    && R.FitsIn(x.phase, 32) && R.FitsIn(x.clientNode, 128) && R.FitsIn(x.selectedModel, 128) && R.FitsIn(x.successfulModel, 128)
    && J.JsonHolds(x.request) && (x.error.Some? ==> J.JsonHolds(x.error.value))
  }

  /** Every value of a table that the validator does not already bound is within its column. */
  predicate TableFits(d: Export, t: R.Table) {
    match t
    case Projects => forall p :: p in d.projects ==> ProjectFits(p)
    case Assets => forall a :: a in d.assets ==> AssetFits(a)
    case AssetParents => true
    case ProjectRefs => forall r :: r in d.projectRefs ==> R.FitsIn(r.node, 128)
    case LibraryItems => forall x :: x in d.libraryItems ==> LibraryItemFits(x)
    case EditorDocuments => forall x :: x in d.documents ==> DocumentFits(x)
    case EditorRefs => forall r :: r in d.editorRefs ==> R.FitsIn(r.element, 128)
    case EditorRevisions => forall r :: r in d.revisions ==> RevisionFits(r)
    case Jobs => forall j :: j in d.jobs ==> JobFits(j)
    case JobInputs => forall x :: x in d.jobInputs ==> x.position <= 2_147_483_647
    case JobResults => forall x :: x in d.jobResults ==> JobResultFits(x)
    case MediaTasks => forall x :: x in d.mediaTasks ==> MediaTaskFits(x)
  }

  predicate Fits(d: Export) {
    forall t: R.Table :: TableFits(d, t)
  }

  /** Every editor revision has its parameters. */
  predicate ParametersPresent(d: Export) {
    forall r :: r in d.revisions ==> r.parameters.Some?
  }

  /** And no column that requires a value is sent none. */
  predicate TableHolds(d: Export, t: R.Table) {
    TableFits(d, t) && (t == R.EditorRevisions ==> ParametersPresent(d))
  }

  /** No asset lists a parent twice. */
  predicate ParentsDistinct(d: Export) {
    forall a :: a in d.assets ==> NoDuplicates(a.parents)
  }

  // ---------- What comes back as it was ----------

  /** Every media task has an error value. */
  predicate ErrorsPresent(d: Export) {
    forall x :: x in d.mediaTasks ==> x.error.Some?
  }

  predicate PlainColumn(c: R.Column) {
    && (c.Json? ==> J.NumbersPlain(c.value))
    && ((c.NullableJson? || c.RequiredJson?) && c.json.Some? ==> J.NumbersPlain(c.json.value))
  }

  /** Every number within a JSON value is plain. */
  predicate NumbersPlain(d: Export) {
    forall t: R.Table, item | item in Items(d, t) :: forall c :: c in item.body ==> PlainColumn(c)
  }

  predicate PlainTime(c: R.Column) {
    c.Time? && c.at.Some? ==> 0 <= c.at.value < 315_537_897_600_000_000_000 && c.at.value % 1000 == 0
  }

  /** Every time is within the years 1 to 9999, in UTC, and has no parts of a microsecond. */
  predicate TimesPlain(d: Export) {
    forall t: R.Table, item | item in Items(d, t) :: forall c :: c in item.body ==> PlainTime(c)
  }
}
