/**
 What an export contains and what its validator accepts, one predicate per check of the source.

 Checks that look only inside a JSON value, and scans for secrets, are not modelled, so more is accepted
 here than there.
*/
module Dataset {
  import opened Wrappers
  import opened Texts
  import J = JsonValues

  /** Nanoseconds from the zero time, the first instant of the year 1 in UTC. */
  type Time = int

  datatype Project = Project(
    publicId: string, owner: int, name: string, document: J.Json, version: int, thumbnail: string,
    createdAt: Time, updatedAt: Time, deletedAt: Option<Time>)

  datatype Asset = Asset(
    publicId: string, owner: int, project: string, sourceType: string, mediaKind: string, objectKey: string,
    thumbnailKey: string, fileName: string, mimeType: string, width: int, height: int, durationMs: Option<int>,
    byteSize: int, sha256: string, parents: seq<string>, createdAt: Time, deletedAt: Option<Time>)

  datatype ProjectRef = ProjectRef(project: string, asset: string, node: string, createdAt: Time)

  datatype LibraryItem = LibraryItem(
    publicId: string, client: string, owner: int, kind: string, asset: string, title: string, content: string,
    tags: J.Json, source: string, note: string, metadata: J.Json, version: int,
    createdAt: Time, updatedAt: Time, deletedAt: Option<Time>)

  datatype Document = Document(
    publicId: string, project: string, node: string, base: string, current: string, document: J.Json, version: int,
    createdAt: Time, updatedAt: Time, deletedAt: Option<Time>)

  datatype EditorRef = EditorRef(document: string, asset: string, role: string, element: string, createdAt: Time)

  datatype Revision = Revision(
    publicId: string, document: string, version: int, asset: string, operation: string, parameters: Option<J.Json>, createdAt: Time)

  datatype Job = Job(
    publicId: string, owner: int, project: string, clientNode: string, operation: string, selectedModel: string,
    successfulModel: string, policyVersion: int, status: string, phase: string, requested: int, completed: int,
    request: J.Json, requestDigest: string, keyHash: string, attemptPlan: J.Json, attemptPosition: int,
    cancelRequestedAt: Option<Time>, errorType: string, errorCode: string, errorMessage: string, errorRetryable: bool,
    createdAt: Time, updatedAt: Time, finishedAt: Option<Time>)

  datatype JobInput = JobInput(job: string, position: int, kind: string, asset: string, sha256: string, createdAt: Time)

  datatype JobResult = JobResult(
    job: string, position: int, status: string, asset: string, mimeType: string, size: string, createdAt: Time)

  datatype MediaTask = MediaTask(
    publicId: string, mediaKind: string, status: string, phase: string, owner: int, project: string, clientNode: string,
    selectedModel: string, successfulModel: string, request: J.Json, requestDigest: string, asset: string, error: Option<J.Json>,
    createdAt: Time, updatedAt: Time, finishedAt: Option<Time>)

  datatype StoredObject = StoredObject(
    asset: string, kind: string, sourceKey: string, targetKey: string, mimeType: string, size: int, sha256: string)

  datatype Export = Export(
    projects: seq<Project>, assets: seq<Asset>, projectRefs: seq<ProjectRef>, libraryItems: seq<LibraryItem>,
    documents: seq<Document>, editorRefs: seq<EditorRef>, revisions: seq<Revision>,
    jobs: seq<Job>, jobInputs: seq<JobInput>, jobResults: seq<JobResult>, mediaTasks: seq<MediaTask>,
    objects: seq<StoredObject>)

  // ---------- Texts ----------

  /** len of a Go string: its bytes in UTF-8. */
  function Bytes(s: string): nat {
    if s == [] then 0
    else
      var n := s[0] as int;
      (if n < 0x80 then 1 else if n < 0x800 then 2 else if n < 0x10000 then 3 else 4) + Bytes(s[1..])
  }

  predicate Alphanumeric(c: char) {
    'a' <= c <= 'z' || 'A' <= c <= 'Z' || '0' <= c <= '9'
  }

  predicate ValidId(s: string) {
    && 1 <= |s| <= 64 && Alphanumeric(s[0])
    && forall c :: c in s ==> Alphanumeric(c) || c == '_' || c == '-'
  }

  predicate ValidDigest(s: string) {
    |s| == 64 && forall c :: c in s ==> '0' <= c <= '9' || 'a' <= c <= 'f'
  }

  /** The text between two slashes, or before the first, or after the last. */
  predicate Segment(s: string, from: nat, to: nat) {
    from <= to <= |s| && (from == 0 || s[from - 1] == '/') && (to == |s| || s[to] == '/') && '/' !in s[from..to]
  }

  /** A relative path that cleaning leaves alone and that stays below its root. */
  predicate ValidKey(s: string) {
    && s != "" && (forall c :: c in s ==> c !in ['\\', '\r', '\n', '\t', '\0'])
    && forall from, to | 0 <= from <= to <= |s| && Segment(s, from, to) :: s[from..to] !in ["", ".", ".."]
  }

  // ---------- Claims ----------

  /** What a row takes for itself; no two rows of a list, and no row twice, may take the same. */
  datatype Claim =
    | ById(id: string)
    | ByObject(key: string)
    | ByProjectRef(project: string, asset: string, node: string)
    | ByClient(owner: int, client: string)
    | ByNode(project: string, node: string)
    | ByEditorRef(document: string, asset: string, role: string, element: string)
    | ByVersion(document: string, version: int)
    | ByHash(owner: int, hash: string)
    | ByInput(job: string, kind: string, position: int)
    | ByPosition(job: string, position: int)

  predicate NoDuplicates<T(==)>(xs: seq<T>) {
    forall i, j :: 0 <= i < j < |xs| ==> xs[i] != xs[j]
  }

  function Claims<T>(xs: seq<T>, claims: T -> seq<Claim>): seq<Claim> {
    if xs == [] then [] else Claims(xs[..|xs| - 1], claims) + claims(xs[|xs| - 1])
  }

  ghost predicate RowsAccepted<T>(xs: seq<T>, valid: T -> bool, claims: T -> seq<Claim>) {
    (forall x :: x in xs ==> valid(x)) && NoDuplicates(Claims(xs, claims))
  }

  function IndexBy<T>(xs: seq<T>, name: T -> string): map<string, T> {
    if xs == [] then map[] else IndexBy(xs[..|xs| - 1], name)[name(xs[|xs| - 1]) := xs[|xs| - 1]]
  }

  function ProjectsOf(d: Export): map<string, Project> { IndexBy(d.projects, (p: Project) => p.publicId) }
  function AssetsOf(d: Export): map<string, Asset> { IndexBy(d.assets, (a: Asset) => a.publicId) }
  function DocumentsOf(d: Export): map<string, Document> { IndexBy(d.documents, (x: Document) => x.publicId) }
  function JobsOf(d: Export): map<string, Job> { IndexBy(d.jobs, (j: Job) => j.publicId) }

  // ---------- The checks ----------

  predicate ProjectValid(p: Project) {
    ValidId(p.publicId) && p.owner > 0 && !Blank(p.name) && Bytes(p.name) <= 640 && p.version > 0 && p.createdAt != 0 && p.updatedAt != 0
  }

  function ProjectClaims(p: Project): seq<Claim> { [ById(p.publicId)] }

  predicate AssetValid(projects: map<string, Project>, a: Asset) {
    && ValidId(a.publicId) && a.owner > 0 && a.sourceType in ["upload", "generated", "derived", "legacy"]
    && a.mediaKind in ["image", "video", "audio"] && ValidKey(a.objectKey) && ValidDigest(a.sha256)
    && a.byteSize > 0 && a.width >= 0 && a.height >= 0 && a.createdAt != 0 && !Blank(a.mimeType)
    && (a.thumbnailKey != "" ==> ValidKey(a.thumbnailKey))
    && (if a.mediaKind == "audio" then a.width == 0 && a.height == 0 else a.width > 0 && a.height > 0)
    && (a.project != "" ==> a.project in projects && projects[a.project].owner == a.owner)
  }

  function AssetClaims(a: Asset): seq<Claim> {
    [ById(a.publicId), ByObject(a.objectKey)] + if a.thumbnailKey != "" then [ByObject(a.thumbnailKey)] else []
  }

  predicate ThumbnailValid(assets: map<string, Asset>, p: Project) {
    p.thumbnail != "" ==> p.thumbnail in assets && assets[p.thumbnail].owner == p.owner
  }

  predicate ParentsValid(assets: map<string, Asset>, a: Asset) {
    forall id :: id in a.parents ==> id in assets && assets[id].owner == a.owner && id != a.publicId
  }

  predicate ProjectRefValid(projects: map<string, Project>, assets: map<string, Asset>, r: ProjectRef) {
    && r.project in projects && r.asset in assets && projects[r.project].owner == assets[r.asset].owner
    && !Blank(r.node) && Bytes(r.node) <= 512 && r.createdAt != 0
  }

  function ProjectRefClaims(r: ProjectRef): seq<Claim> { [ByProjectRef(r.project, r.asset, r.node)] }

  predicate LibraryItemValid(assets: map<string, Asset>, x: LibraryItem) {
    && ValidId(x.publicId) && x.owner > 0 && !Blank(x.client) && !Blank(x.title)
    && x.kind in ["text", "image", "video", "audio"] && x.version > 0 && x.createdAt != 0 && x.updatedAt != 0
    && (x.kind == "text" <==> x.asset == "")
    && (x.asset != "" ==> x.asset in assets && assets[x.asset].owner == x.owner && assets[x.asset].mediaKind == x.kind)
  }

  function LibraryItemClaims(x: LibraryItem): seq<Claim> { [ById(x.publicId), ByClient(x.owner, x.client)] }

  predicate DocumentValid(projects: map<string, Project>, assets: map<string, Asset>, x: Document) {
    && ValidId(x.publicId) && x.project in projects && x.base in assets && x.current in assets
    && assets[x.base].mediaKind == "image" && assets[x.current].mediaKind == "image"
    && projects[x.project].owner == assets[x.base].owner == assets[x.current].owner
    && !Blank(x.node) && Bytes(x.node) <= 512 && x.version > 0 && x.createdAt != 0 && x.updatedAt != 0
  }

  function DocumentClaims(x: Document): seq<Claim> {
    [ById(x.publicId)] + if x.deletedAt.None? then [ByNode(x.project, x.node)] else []
  }

  /** The owner of the project of a document; 0, which owns nothing, when the project is unknown. */
  function DocumentOwner(projects: map<string, Project>, documents: map<string, Document>, id: string): int {
    if id in documents && documents[id].project in projects then projects[documents[id].project].owner else 0
  }

  predicate EditorRefValid(projects: map<string, Project>, assets: map<string, Asset>, documents: map<string, Document>, r: EditorRef) {
    && r.document in documents && r.asset in assets && DocumentOwner(projects, documents, r.document) == assets[r.asset].owner
    && r.role in ["source", "layer", "mask", "result"] && !Blank(r.element) && r.createdAt != 0
  }

  function EditorRefClaims(r: EditorRef): seq<Claim> { [ByEditorRef(r.document, r.asset, r.role, r.element)] }

  predicate RevisionValid(projects: map<string, Project>, assets: map<string, Asset>, documents: map<string, Document>, r: Revision) {
    && ValidId(r.publicId) && r.document in documents && r.asset in assets
    && DocumentOwner(projects, documents, r.document) == assets[r.asset].owner
    && r.version > 0 && !Blank(r.operation) && r.createdAt != 0
  }

  function RevisionClaims(r: Revision): seq<Claim> { [ById(r.publicId), ByVersion(r.document, r.version)] }

  predicate TerminalStatus(s: string) {
    s in ["completed", "partial", "failed", "canceled", "indeterminate", "expired"]
  }

  predicate JobValid(projects: map<string, Project>, j: Job) {
    && ValidId(j.publicId) && j.project in projects && projects[j.project].owner == j.owner && !Blank(j.clientNode)
    && j.operation in ["generation", "edit"] && !Blank(j.selectedModel) && j.policyVersion > 0
    && TerminalStatus(j.status) && j.phase in ["preflight", "leased", "validating", "upstream", "saving"]
    && 0 < j.requested <= 10 && 0 <= j.completed <= j.requested && ValidDigest(j.requestDigest) && ValidDigest(j.keyHash)
    && j.attemptPosition >= 0 && j.createdAt != 0 && j.updatedAt != 0
  }

  function JobClaims(j: Job): seq<Claim> { [ById(j.publicId), ByHash(j.owner, j.keyHash)] }

  predicate JobInputValid(jobs: map<string, Job>, assets: map<string, Asset>, x: JobInput) {
    && x.job in jobs && x.asset in assets && jobs[x.job].owner == assets[x.asset].owner && x.position >= 0
    && x.kind in ["image", "mask"] && ValidDigest(x.sha256) && x.sha256 == assets[x.asset].sha256 && x.createdAt != 0
  }

  function JobInputClaims(x: JobInput): seq<Claim> { [ByInput(x.job, x.kind, x.position)] }

  predicate JobResultValid(jobs: map<string, Job>, assets: map<string, Asset>, x: JobResult) {
    && x.job in jobs && x.position >= 0 && !Blank(x.status) && x.createdAt != 0
    && (x.asset != "" ==> x.asset in assets && jobs[x.job].owner == assets[x.asset].owner)
  }

  function JobResultClaims(x: JobResult): seq<Claim> { [ByPosition(x.job, x.position)] }

  predicate MediaTaskValid(projects: map<string, Project>, assets: map<string, Asset>, x: MediaTask) {
    && ValidId(x.publicId) && x.project in projects && projects[x.project].owner == x.owner && x.mediaKind in ["video", "audio"]
    && TerminalStatus(x.status) && !Blank(x.phase) && !Blank(x.clientNode) && !Blank(x.selectedModel)
    && ValidDigest(x.requestDigest) && x.createdAt != 0 && x.updatedAt != 0
    && (x.asset != "" ==> x.asset in assets && assets[x.asset].owner == x.owner)
  }

  function MediaTaskClaims(x: MediaTask): seq<Claim> { [ById(x.publicId)] }

  // ---------- Objects ----------

  predicate ObjectValid(assets: map<string, Asset>, o: StoredObject) {
    && o.asset in assets && o.kind in ["original", "thumbnail"] && ValidKey(o.sourceKey) && ValidKey(o.targetKey)
    && o.size > 0 && ValidDigest(o.sha256) && !Blank(o.mimeType)
    && var a := assets[o.asset];
    if o.kind == "original" then o.targetKey == a.objectKey && o.size == a.byteSize && o.sha256 == a.sha256 && o.mimeType == a.mimeType
    else o.targetKey == a.thumbnailKey
  }

  function ObjectClaims(o: StoredObject): seq<Claim> { [ByObject(o.targetKey)] }

  /** originals[id]++ and thumbnails[id]++ over the list. */
  function CountOf(objects: seq<StoredObject>, kind: string, id: string): nat {
    if objects == [] then 0
    else
      var last := objects[|objects| - 1];
      CountOf(objects[..|objects| - 1], kind, id) + if last.kind == kind && last.asset == id then 1 else 0
  }

  predicate CountsMatch(objects: seq<StoredObject>, a: Asset) {
    && CountOf(objects, "original", a.publicId) == 1
    && CountOf(objects, "thumbnail", a.publicId) == if a.thumbnailKey != "" then 1 else 0
  }

  // ---------- What is accepted ----------

  ghost predicate EntitiesAccepted(d: Export) {
    var projects, assets := ProjectsOf(d), AssetsOf(d);
    && RowsAccepted(d.projects, ProjectValid, ProjectClaims)
    && RowsAccepted(d.assets, (a: Asset) => AssetValid(projects, a), AssetClaims)
    && (forall p :: p in d.projects ==> ThumbnailValid(assets, p))
    && (forall a :: a in d.assets ==> ParentsValid(assets, a))
    && RowsAccepted(d.projectRefs, (r: ProjectRef) => ProjectRefValid(projects, assets, r), ProjectRefClaims)
    && RowsAccepted(d.libraryItems, (x: LibraryItem) => LibraryItemValid(assets, x), LibraryItemClaims)
  }

  ghost predicate EditorAccepted(d: Export) {
    var projects, assets, documents := ProjectsOf(d), AssetsOf(d), DocumentsOf(d);
    && RowsAccepted(d.documents, (x: Document) => DocumentValid(projects, assets, x), DocumentClaims)
    && RowsAccepted(d.editorRefs, (r: EditorRef) => EditorRefValid(projects, assets, documents, r), EditorRefClaims)
    && RowsAccepted(d.revisions, (r: Revision) => RevisionValid(projects, assets, documents, r), RevisionClaims)
  }

  ghost predicate JobsAccepted(d: Export) {
    var projects, assets, jobs := ProjectsOf(d), AssetsOf(d), JobsOf(d);
    && RowsAccepted(d.jobs, (j: Job) => JobValid(projects, j), JobClaims)
    && RowsAccepted(d.jobInputs, (x: JobInput) => JobInputValid(jobs, assets, x), JobInputClaims)
    && RowsAccepted(d.jobResults, (x: JobResult) => JobResultValid(jobs, assets, x), JobResultClaims)
    && RowsAccepted(d.mediaTasks, (x: MediaTask) => MediaTaskValid(projects, assets, x), MediaTaskClaims)
  }

  ghost predicate ObjectsAccepted(d: Export) {
    var assets := AssetsOf(d);
    && RowsAccepted(d.objects, (o: StoredObject) => ObjectValid(assets, o), ObjectClaims)
    && forall a :: a in d.assets ==> CountsMatch(d.objects, a)
  }

  ghost predicate Accepted(d: Export) {
    EntitiesAccepted(d) && EditorAccepted(d) && JobsAccepted(d) && ObjectsAccepted(d)
  }
}
