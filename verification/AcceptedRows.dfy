/** What acceptance by the validator says about the rows the import sends. */
module AcceptedRows {
  import opened Wrappers
  import opened Dataset
  import opened ImportRows
  import R = Relational
  import J = JsonValues
  import V = Validator

  ghost predicate KeysDistinct(t: R.Table, items: seq<R.Item>) {
    forall i, j :: 0 <= i < j < |items| ==> !R.SameItemKey(t, items[i], items[j])
  }

  ghost predicate SecondsDistinct(t: R.Table, items: seq<R.Item>) {
    forall i, j :: 0 <= i < j < |items| ==> !R.SameItemSecond(t, items[i], items[j])
  }

  // ---------- Keys ----------

  lemma KeysByClaim<T(!new)>(t: R.Table, xs: seq<T>, f: T -> R.Item, claims: T -> seq<Claim>, own: T -> Claim)
    requires NoDuplicates(Claims(xs, claims))
    requires forall x :: x in xs ==> own(x) in claims(x)
    requires forall a, b :: R.SameItemKey(t, f(a), f(b)) ==> own(a) == own(b)
    ensures KeysDistinct(t, Mapped(xs, f))
  {
    forall i, j | 0 <= i < j < |xs|
      ensures !R.SameItemKey(t, f(xs[i]), f(xs[j]))
    {
      if R.SameItemKey(t, f(xs[i]), f(xs[j])) {
        V.OneClaimEach(xs, claims, i, j, own(xs[i]));
      }
    }
  }

  lemma SecondsByClaim<T(!new)>(t: R.Table, xs: seq<T>, f: T -> R.Item, claims: T -> seq<Claim>, own: T -> Claim)
    requires NoDuplicates(Claims(xs, claims))
    requires forall x :: x in xs && f(x).second.Some? ==> own(x) in claims(x)
    requires forall a, b :: R.SameItemSecond(t, f(a), f(b)) ==> own(a) == own(b)
    ensures SecondsDistinct(t, Mapped(xs, f))
  {
    forall i, j | 0 <= i < j < |xs|
      ensures !R.SameItemSecond(t, f(xs[i]), f(xs[j]))
    {
      if R.SameItemSecond(t, f(xs[i]), f(xs[j])) {
        V.OneClaimEach(xs, claims, i, j, own(xs[i]));
      }
    }
  }

  lemma ProjectKeys(d: Export)
    requires Accepted(d)
    ensures KeysDistinct(R.Projects, Sent(d, R.Projects)) && KeysDistinct(R.Projects, Items(d, R.Projects))
  {
    KeysByClaim(R.Projects, d.projects, ProjectItem, ProjectClaims, (p: Project) => ById(p.publicId));
    KeysByClaim(R.Projects, d.projects, Unillustrated, ProjectClaims, (p: Project) => ById(p.publicId));
  }

  lemma AssetKeys(d: Export)
    requires Accepted(d)
    ensures KeysDistinct(R.Assets, Items(d, R.Assets)) && SecondsDistinct(R.Assets, Items(d, R.Assets))
  {
    KeysByClaim(R.Assets, d.assets, AssetItem, AssetClaims, (a: Asset) => ById(a.publicId));
    SecondsByClaim(R.Assets, d.assets, AssetItem, AssetClaims, (a: Asset) => ByObject(a.objectKey));
  }

  lemma LibraryKeys(d: Export)
    requires Accepted(d)
    ensures KeysDistinct(R.LibraryItems, Items(d, R.LibraryItems)) && SecondsDistinct(R.LibraryItems, Items(d, R.LibraryItems))
  {
    KeysByClaim(R.LibraryItems, d.libraryItems, LibraryRow, LibraryItemClaims, (x: LibraryItem) => ById(x.publicId));
    SecondsByClaim(R.LibraryItems, d.libraryItems, LibraryRow, LibraryItemClaims, (x: LibraryItem) => ByClient(x.owner, x.client));
  }

  lemma DocumentKeys(d: Export)
    requires Accepted(d)
    ensures KeysDistinct(R.EditorDocuments, Items(d, R.EditorDocuments)) && SecondsDistinct(R.EditorDocuments, Items(d, R.EditorDocuments))
  {
    KeysByClaim(R.EditorDocuments, d.documents, DocumentItem, DocumentClaims, (x: Document) => ById(x.publicId));
    forall a, b | R.SameItemSecond(R.EditorDocuments, DocumentItem(a), DocumentItem(b))
      ensures ByNode(a.project, a.node) == ByNode(b.project, b.node)
    {
      assert DocumentItem(a).refs[..1][0] == DocumentItem(b).refs[..1][0];
    }
    SecondsByClaim(R.EditorDocuments, d.documents, DocumentItem, DocumentClaims, (x: Document) => ByNode(x.project, x.node));
  }

  lemma RevisionKeys(d: Export)
    requires Accepted(d)
    ensures KeysDistinct(R.EditorRevisions, Items(d, R.EditorRevisions)) && SecondsDistinct(R.EditorRevisions, Items(d, R.EditorRevisions))
  {
    KeysByClaim(R.EditorRevisions, d.revisions, RevisionItem, RevisionClaims, (r: Revision) => ById(r.publicId));
    forall a, b | R.SameItemSecond(R.EditorRevisions, RevisionItem(a), RevisionItem(b))
      ensures ByVersion(a.document, a.version) == ByVersion(b.document, b.version)
    {
      assert RevisionItem(a).refs[..1][0] == RevisionItem(b).refs[..1][0];
    }
    SecondsByClaim(R.EditorRevisions, d.revisions, RevisionItem, RevisionClaims, (r: Revision) => ByVersion(r.document, r.version));
  }

  lemma JobKeys(d: Export)
    requires Accepted(d)
    ensures KeysDistinct(R.Jobs, Items(d, R.Jobs)) && SecondsDistinct(R.Jobs, Items(d, R.Jobs))
  {
    KeysByClaim(R.Jobs, d.jobs, JobItem, JobClaims, (j: Job) => ById(j.publicId));
    SecondsByClaim(R.Jobs, d.jobs, JobItem, JobClaims, (j: Job) => ByHash(j.owner, j.keyHash));
  }

  lemma MediaTaskKeys(d: Export)
    requires Accepted(d)
    ensures KeysDistinct(R.MediaTasks, Items(d, R.MediaTasks))
  {
    KeysByClaim(R.MediaTasks, d.mediaTasks, MediaTaskItem, MediaTaskClaims, (x: MediaTask) => ById(x.publicId));
  }

  lemma ProjectRefKeys(d: Export)
    requires Accepted(d)
    ensures KeysDistinct(R.ProjectRefs, Items(d, R.ProjectRefs))
  {
    forall a, b | R.SameItemKey(R.ProjectRefs, ProjectRefItem(a), ProjectRefItem(b))
      ensures ByProjectRef(a.project, a.asset, a.node) == ByProjectRef(b.project, b.asset, b.node)
    {
      var x, y := ProjectRefItem(a).refs[..2], ProjectRefItem(b).refs[..2];
      assert x[0] == y[0] && x[1] == y[1];
    }
    KeysByClaim(R.ProjectRefs, d.projectRefs, ProjectRefItem, ProjectRefClaims,
                (r: ProjectRef) => ByProjectRef(r.project, r.asset, r.node));
  }

  lemma EditorRefKeys(d: Export)
    requires Accepted(d)
    ensures KeysDistinct(R.EditorRefs, Items(d, R.EditorRefs))
  {
    forall a, b | R.SameItemKey(R.EditorRefs, EditorRefItem(a), EditorRefItem(b))
      ensures ByEditorRef(a.document, a.asset, a.role, a.element) == ByEditorRef(b.document, b.asset, b.role, b.element)
    {
      var x, y := EditorRefItem(a).refs[..2], EditorRefItem(b).refs[..2];
      assert x[0] == y[0] && x[1] == y[1];
    }
    KeysByClaim(R.EditorRefs, d.editorRefs, EditorRefItem, EditorRefClaims,
                (r: EditorRef) => ByEditorRef(r.document, r.asset, r.role, r.element));
  }

  lemma JobInputKeys(d: Export)
    requires Accepted(d)
    ensures KeysDistinct(R.JobInputs, Items(d, R.JobInputs))
  {
    forall a, b | R.SameItemKey(R.JobInputs, JobInputItem(a), JobInputItem(b))
      ensures ByInput(a.job, a.kind, a.position) == ByInput(b.job, b.kind, b.position)
    {
      assert JobInputItem(a).refs[..1][0] == JobInputItem(b).refs[..1][0];
    }
    KeysByClaim(R.JobInputs, d.jobInputs, JobInputItem, JobInputClaims, (x: JobInput) => ByInput(x.job, x.kind, x.position));
  }

  lemma JobResultKeys(d: Export)
    requires Accepted(d)
    ensures KeysDistinct(R.JobResults, Items(d, R.JobResults))
  {
    forall a, b | R.SameItemKey(R.JobResults, JobResultItem(a), JobResultItem(b))
      ensures ByPosition(a.job, a.position) == ByPosition(b.job, b.position)
    {
      assert JobResultItem(a).refs[..1][0] == JobResultItem(b).refs[..1][0];
    }
    KeysByClaim(R.JobResults, d.jobResults, JobResultItem, JobResultClaims, (x: JobResult) => ByPosition(x.job, x.position));
  }

  /** In every table but one, no two rows of an accepted export have the same key. */
  lemma AcceptedKeys(d: Export, t: R.Table)
    requires Accepted(d) && t != R.AssetParents
    ensures KeysDistinct(t, Sent(d, t)) && KeysDistinct(t, Items(d, t))
  {
    match t
    case Projects => ProjectKeys(d);
    case Assets => AssetKeys(d);
    case ProjectRefs => ProjectRefKeys(d);
    case LibraryItems => LibraryKeys(d);
    case EditorDocuments => DocumentKeys(d);
    case EditorRefs => EditorRefKeys(d);
    case EditorRevisions => RevisionKeys(d);
    case Jobs => JobKeys(d);
    case JobInputs => JobInputKeys(d);
    case JobResults => JobResultKeys(d);
    case MediaTasks => MediaTaskKeys(d);
  }

  lemma {:induction false} ParentsHaveNoSecond(assets: seq<Asset>)
    ensures forall i :: 0 <= i < |ParentItems(assets)| ==> ParentItems(assets)[i].second.None? && |ParentItems(assets)[i].refs| == 2
  {
    if assets != [] {
      ParentsHaveNoSecond(assets[..|assets| - 1]);
    }
  }

  lemma NoSeconds<T(!new)>(t: R.Table, xs: seq<T>, f: T -> R.Item)
    requires forall x :: f(x).second.None?
    ensures SecondsDistinct(t, Mapped(xs, f))
  {
  }

  /** Neither does one clash in another unique index. */
  lemma AcceptedSeconds(d: Export, t: R.Table)
    requires Accepted(d)
    ensures SecondsDistinct(t, Sent(d, t))
  {
    match t
    case Assets => AssetKeys(d);
    case LibraryItems => LibraryKeys(d);
    case EditorDocuments => DocumentKeys(d);
    case EditorRevisions => RevisionKeys(d);
    case Jobs => JobKeys(d);
    case AssetParents => ParentsHaveNoSecond(d.assets);
    case Projects => NoSeconds(t, d.projects, Unillustrated);
    case ProjectRefs => NoSeconds(t, d.projectRefs, ProjectRefItem);
    case EditorRefs => NoSeconds(t, d.editorRefs, EditorRefItem);
    case JobInputs => NoSeconds(t, d.jobInputs, JobInputItem);
    case JobResults => NoSeconds(t, d.jobResults, JobResultItem);
    case MediaTasks => NoSeconds(t, d.mediaTasks, MediaTaskItem);
  }

  // ---------- Referents ----------

  /** The public ids an export gives to the rows of a table that others refer to. */
  function Ids(d: Export, t: R.Table): set<string> {
    match t
    case Projects => ProjectsOf(d).Keys
    case Assets => AssetsOf(d).Keys
    case EditorDocuments => DocumentsOf(d).Keys
    case Jobs => JobsOf(d).Keys
    case _ => {}
  }

  ghost predicate RefKnown(d: Export, link: R.Link, name: string) {
    if name == "" then !link.required else name in Ids(d, link.table)
  }

  /** Every reference of the row is to a row of the export, and only optional ones are absent. */
  ghost predicate Referring(d: Export, t: R.Table, item: R.Item) {
    && R.Shaped(t, item) && R.WellNamed(t, item)
    && forall i :: 0 <= i < |item.refs| ==> RefKnown(d, R.Links(t)[i], item.refs[i])
  }

  lemma ProjectIds(d: Export)
    requires Accepted(d)
    ensures "" !in ProjectsOf(d)
    ensures forall id :: id in ProjectsOf(d) ==> exists p :: p in d.projects && p.publicId == id
  {
    V.Indexed(d.projects, (p: Project) => p.publicId);
    assert forall p :: p in d.projects ==> ProjectValid(p);
  }

  lemma AssetIds(d: Export)
    requires Accepted(d)
    ensures "" !in AssetsOf(d)
    ensures forall id :: id in AssetsOf(d) ==> exists a :: a in d.assets && a.publicId == id
    ensures forall a :: a in d.assets ==> a.publicId in AssetsOf(d) && AssetValid(ProjectsOf(d), a)
  {
    V.Indexed(d.assets, (a: Asset) => a.publicId);
    assert forall a :: a in d.assets ==> ((x: Asset) => AssetValid(ProjectsOf(d), x))(a);
  }

  lemma DocumentIds(d: Export)
    requires Accepted(d)
    ensures "" !in DocumentsOf(d)
    ensures forall id :: id in DocumentsOf(d) ==> exists x :: x in d.documents && x.publicId == id
    ensures forall x :: x in d.documents ==> DocumentValid(ProjectsOf(d), AssetsOf(d), x)
  {
    V.Indexed(d.documents, (x: Document) => x.publicId);
    assert forall a :: a in d.documents ==> ((x: Document) => DocumentValid(ProjectsOf(d), AssetsOf(d), x))(a);
  }

  lemma JobIds(d: Export)
    requires Accepted(d)
    ensures "" !in JobsOf(d)
    ensures forall id :: id in JobsOf(d) ==> exists j :: j in d.jobs && j.publicId == id
    ensures forall j :: j in d.jobs ==> JobValid(ProjectsOf(d), j)
  {
    V.Indexed(d.jobs, (j: Job) => j.publicId);
    assert forall a :: a in d.jobs ==> ((j: Job) => JobValid(ProjectsOf(d), j))(a);
  }

  lemma {:induction false} ParentItemsAre(assets: seq<Asset>, item: R.Item)
    ensures item in ParentItems(assets) <==> exists a, p :: a in assets && p in a.parents && item == ParentItem(a.publicId, p)
  {
    if assets != [] {
      var rest, last := assets[..|assets| - 1], assets[|assets| - 1];
      ParentItemsAre(rest, item);
      assert assets == rest + [last];
      var own := seq(|last.parents|, i requires 0 <= i < |last.parents| => ParentItem(last.publicId, last.parents[i]));
      assert item in ParentItems(assets) <==> item in ParentItems(rest) || item in own;
      if a, p :| a in assets && p in a.parents && item == ParentItem(a.publicId, p) {
        if a == last {
          var i :| 0 <= i < |last.parents| && last.parents[i] == p;
          assert own[i] == item;
        }
      }
    }
  }

  lemma NoEmptyIds(d: Export)
    requires Accepted(d)
    ensures "" !in ProjectsOf(d) && "" !in AssetsOf(d) && "" !in DocumentsOf(d) && "" !in JobsOf(d)
  {
    ProjectIds(d);
    AssetIds(d);
    DocumentIds(d);
    JobIds(d);
  }

  lemma ProjectReferring(d: Export, p: Project)
    requires Accepted(d) && p in d.projects
    ensures Referring(d, R.Projects, ProjectItem(p)) && Referring(d, R.Projects, Unillustrated(p))
  {
    assert ProjectValid(p) && ThumbnailValid(AssetsOf(d), p);
  }

  lemma AssetReferring(d: Export, a: Asset)
    requires Accepted(d) && a in d.assets
    ensures Referring(d, R.Assets, AssetItem(a))
  {
    assert ((a: Asset) => AssetValid(ProjectsOf(d), a))(a);
  }

  lemma ParentReferring(d: Export, item: R.Item)
    requires Accepted(d) && item in ParentItems(d.assets)
    ensures Referring(d, R.AssetParents, item)
  {
    ParentItemsAre(d.assets, item);
    var a, p :| a in d.assets && p in a.parents && item == ParentItem(a.publicId, p);
    assert ParentsValid(AssetsOf(d), a);
    V.UniqueAssets(d, a);
    NoEmptyIds(d);
    Both(d, R.AssetParents, item);
  }

  /** A row of a relation between two others. */
  lemma Both(d: Export, t: R.Table, item: R.Item)
    requires |R.Links(t)| == 2 == |item.refs| && R.WellNamed(t, item)
    requires "" !in Ids(d, R.Links(t)[0].table) && "" !in Ids(d, R.Links(t)[1].table)
    requires item.refs[0] in Ids(d, R.Links(t)[0].table) && item.refs[1] in Ids(d, R.Links(t)[1].table)
    ensures Referring(d, t, item)
  {
  }

  lemma ProjectRefReferring(d: Export, r: ProjectRef)
    requires Accepted(d) && r in d.projectRefs
    ensures Referring(d, R.ProjectRefs, ProjectRefItem(r))
  {
    assert ((r: ProjectRef) => ProjectRefValid(ProjectsOf(d), AssetsOf(d), r))(r);
    NoEmptyIds(d);
    Both(d, R.ProjectRefs, ProjectRefItem(r));
  }

  lemma LibraryReferring(d: Export, x: LibraryItem)
    requires Accepted(d) && x in d.libraryItems
    ensures Referring(d, R.LibraryItems, LibraryRow(x))
  {
    assert ((x: LibraryItem) => LibraryItemValid(AssetsOf(d), x))(x);
  }

  lemma DocumentReferring(d: Export, x: Document)
    requires Accepted(d) && x in d.documents
    ensures Referring(d, R.EditorDocuments, DocumentItem(x))
  {
    assert ((x: Document) => DocumentValid(ProjectsOf(d), AssetsOf(d), x))(x);
    NoEmptyIds(d);
  }

  lemma EditorRefReferring(d: Export, r: EditorRef)
    requires Accepted(d) && r in d.editorRefs
    ensures Referring(d, R.EditorRefs, EditorRefItem(r))
  {
    assert ((r: EditorRef) => EditorRefValid(ProjectsOf(d), AssetsOf(d), DocumentsOf(d), r))(r);
    NoEmptyIds(d);
    Both(d, R.EditorRefs, EditorRefItem(r));
  }

  lemma RevisionReferring(d: Export, r: Revision)
    requires Accepted(d) && r in d.revisions
    ensures Referring(d, R.EditorRevisions, RevisionItem(r))
  {
    assert ((r: Revision) => RevisionValid(ProjectsOf(d), AssetsOf(d), DocumentsOf(d), r))(r);
    NoEmptyIds(d);
    Both(d, R.EditorRevisions, RevisionItem(r));
  }

  lemma JobReferring(d: Export, j: Job)
    requires Accepted(d) && j in d.jobs
    ensures Referring(d, R.Jobs, JobItem(j))
  {
    assert ((j: Job) => JobValid(ProjectsOf(d), j))(j);
    NoEmptyIds(d);
  }

  lemma JobInputReferring(d: Export, x: JobInput)
    requires Accepted(d) && x in d.jobInputs
    ensures Referring(d, R.JobInputs, JobInputItem(x))
  {
    assert ((x: JobInput) => JobInputValid(JobsOf(d), AssetsOf(d), x))(x);
    NoEmptyIds(d);
    Both(d, R.JobInputs, JobInputItem(x));
  }

  lemma JobResultReferring(d: Export, x: JobResult)
    requires Accepted(d) && x in d.jobResults
    ensures Referring(d, R.JobResults, JobResultItem(x))
  {
    assert ((x: JobResult) => JobResultValid(JobsOf(d), AssetsOf(d), x))(x);
    NoEmptyIds(d);
  }

  lemma MediaTaskReferring(d: Export, x: MediaTask)
    requires Accepted(d) && x in d.mediaTasks
    ensures Referring(d, R.MediaTasks, MediaTaskItem(x))
  {
    assert ((x: MediaTask) => MediaTaskValid(ProjectsOf(d), AssetsOf(d), x))(x);
    NoEmptyIds(d);
  }

  lemma MappedFrom<T>(xs: seq<T>, f: T -> R.Item, item: R.Item) returns (x: T)
    requires item in Mapped(xs, f)
    ensures x in xs && f(x) == item
  {
    var i :| 0 <= i < |xs| && Mapped(xs, f)[i] == item;
    x := xs[i];
  }

  /** No INSERT ... SELECT of an accepted export names a row that the export does not have. */
  lemma AcceptedRefs(d: Export, t: R.Table, item: R.Item)
    requires Accepted(d) && item in Sent(d, t)
    ensures Referring(d, t, item)
  {
    match t
    case Projects => var x := MappedFrom(d.projects, Unillustrated, item); ProjectReferring(d, x);
    case Assets => var x := MappedFrom(d.assets, AssetItem, item); AssetReferring(d, x);
    case AssetParents => ParentReferring(d, item);
    case ProjectRefs => var x := MappedFrom(d.projectRefs, ProjectRefItem, item); ProjectRefReferring(d, x);
    case LibraryItems => var x := MappedFrom(d.libraryItems, LibraryRow, item); LibraryReferring(d, x);
    case EditorDocuments => var x := MappedFrom(d.documents, DocumentItem, item); DocumentReferring(d, x);
    case EditorRefs => var x := MappedFrom(d.editorRefs, EditorRefItem, item); EditorRefReferring(d, x);
    case EditorRevisions => var x := MappedFrom(d.revisions, RevisionItem, item); RevisionReferring(d, x);
    case Jobs => var x := MappedFrom(d.jobs, JobItem, item); JobReferring(d, x);
    case JobInputs => var x := MappedFrom(d.jobInputs, JobInputItem, item); JobInputReferring(d, x);
    case JobResults => var x := MappedFrom(d.jobResults, JobResultItem, item); JobResultReferring(d, x);
    case MediaTasks => var x := MappedFrom(d.mediaTasks, MediaTaskItem, item); MediaTaskReferring(d, x);
  }

  lemma NamedBy<T>(xs: seq<T>, f: T -> R.Item, x: T, name: string)
    requires x in xs && f(x).key == [R.PublicId(name)]
    ensures R.Named(Mapped(xs, f), name)
  {
    var i :| 0 <= i < |xs| && xs[i] == x;
    assert Mapped(xs, f)[i].key == [R.PublicId(name)];
  }

  /** The statements for a table send a row for each of its public ids. */
  lemma IdsAreSent(d: Export, t: R.Table, id: string)
    requires Accepted(d) && id in Ids(d, t)
    ensures R.Named(Sent(d, t), id)
  {
    if t == R.Projects {
      ProjectIds(d);
      var p :| p in d.projects && p.publicId == id;
      NamedBy(d.projects, Unillustrated, p, id);
    } else if t == R.Assets {
      AssetIds(d);
      var a :| a in d.assets && a.publicId == id;
      NamedBy(d.assets, AssetItem, a, id);
    } else if t == R.EditorDocuments {
      DocumentIds(d);
      var x :| x in d.documents && x.publicId == id;
      NamedBy(d.documents, DocumentItem, x, id);
    } else {
      JobIds(d);
      var j :| j in d.jobs && j.publicId == id;
      NamedBy(d.jobs, JobItem, j, id);
    }
  }

  // ---------- Owners ----------

  /** What a job was given belongs to the owner of its project. */
  lemma InputsStayWithTheOwner(d: Export, x: JobInput)
    requires Accepted(d) && x in d.jobInputs
    ensures x.job in JobsOf(d) && JobsOf(d)[x.job].project in ProjectsOf(d) && x.asset in AssetsOf(d)
    ensures AssetsOf(d)[x.asset].owner == ProjectsOf(d)[JobsOf(d)[x.job].project].owner
  {
    assert ((x: JobInput) => JobInputValid(JobsOf(d), AssetsOf(d), x))(x);
    V.Indexed(d.jobs, (j: Job) => j.publicId);
    var j := JobsOf(d)[x.job];
    assert ((j: Job) => JobValid(ProjectsOf(d), j))(j);
  }

  /** The assets of an editor document belong to the owner of its project. */
  lemma DocumentsStayWithTheOwner(d: Export, x: Document)
    requires Accepted(d) && x in d.documents
    ensures x.project in ProjectsOf(d) && x.base in AssetsOf(d) && x.current in AssetsOf(d)
    ensures AssetsOf(d)[x.base].owner == AssetsOf(d)[x.current].owner == ProjectsOf(d)[x.project].owner
  {
    assert ((x: Document) => DocumentValid(ProjectsOf(d), AssetsOf(d), x))(x);
  }

  /** So does what an asset reference or a revision of the document names. */
  lemma EditorAssetsStayWithTheOwner(d: Export, x: Document, r: EditorRef, v: Revision)
    requires Accepted(d) && x in d.documents
    ensures r in d.editorRefs && r.document == x.publicId ==>
              r.asset in AssetsOf(d) && AssetsOf(d)[r.asset].owner == AssetsOf(d)[x.base].owner
    ensures v in d.revisions && v.document == x.publicId ==>
              v.asset in AssetsOf(d) && AssetsOf(d)[v.asset].owner == AssetsOf(d)[x.base].owner
  {
    DocumentsStayWithTheOwner(d, x);
    UniqueDocuments(d, x);
    if r in d.editorRefs {
      assert ((r: EditorRef) => EditorRefValid(ProjectsOf(d), AssetsOf(d), DocumentsOf(d), r))(r);
    }
    if v in d.revisions {
      assert ((r: Revision) => RevisionValid(ProjectsOf(d), AssetsOf(d), DocumentsOf(d), r))(v);
    }
  }

  lemma UniqueDocuments(d: Export, x: Document)
    requires Accepted(d) && x in d.documents
    ensures x.publicId in DocumentsOf(d) && DocumentsOf(d)[x.publicId] == x
  {
    V.Indexed(d.documents, (y: Document) => y.publicId);
    var other := DocumentsOf(d)[x.publicId];
    var i :| 0 <= i < |d.documents| && d.documents[i] == x;
    var j :| 0 <= j < |d.documents| && d.documents[j] == other;
    if i != j {
      var low, high := if i < j then i else j, if i < j then j else i;
      V.OneClaimEach(d.documents, DocumentClaims, low, high, ById(x.publicId));
    }
  }

  // ---------- Columns ----------

  lemma StoredColumnHolds(c: R.Column)
    ensures R.ColumnHolds(R.Load(R.Store(c))) <==> R.ColumnHolds(c)
  {
    if c.Json? {
      J.JsonbHolds(c.value);
    } else if (c.NullableJson? || c.RequiredJson?) && c.json.Some? {
      J.JsonbHolds(c.json.value);
    } else if c == R.NullableJson(None) {
      NullHolds();
    }
  }

  lemma NullHolds()
    ensures J.JsonHolds(J.JSON_NULL)
  {
    assert "null"[1..] == "ull" && "ull"[1..] == "ll" && "ll"[1..] == "l" && "l"[1..] == "";
  }

  lemma StoredHolds(cs: seq<R.Column>)
    ensures R.ColumnsHold(R.LoadAll(R.StoreAll(cs))) <==> R.ColumnsHold(cs)
  {
    var back := R.LoadAll(R.StoreAll(cs));
    forall i | 0 <= i < |cs| ensures R.ColumnHolds(back[i]) <==> R.ColumnHolds(cs[i]) { StoredColumnHolds(cs[i]); }
    if R.ColumnsHold(back) {
      forall i | 0 <= i < |cs| ensures R.ColumnHolds(cs[i]) { assert back[i] in back; }
    }
  }

  lemma HoldsAppend(a: seq<R.Column>, b: seq<R.Column>)
    ensures R.ColumnsHold(a + b) <==> R.ColumnsHold(a) && R.ColumnsHold(b)
  {
    assert forall c :: c in a + b <==> c in a || c in b;
  }

  lemma AssetHolds(a: Asset)
    requires R.FitsIn(a.publicId, 64) && R.FitsIn(a.sourceType, 20) && R.FitsIn(a.mediaKind, 16) && a.width >= 0 && a.height >= 0
    requires R.Clean(a.objectKey) && R.Clean(a.thumbnailKey)
    ensures R.HoldsItem(R.Assets, AssetItem(a)) <==> AssetFits(a)
  {
    hide J.JsonHolds, R.FitsIn;
    var media, measures := AssetMedia(a), AssetMeasures(a);
    StoredHolds(media + measures);
    HoldsAppend(media, measures);
    assert R.ColumnsHold(media) ==> R.FitsIn(a.fileName, 512) && R.FitsIn(a.mimeType, 100) by { assert media[4] in media && media[5] in media; }
    AssetMeasuresHold(a);
  }

  lemma AssetMeasuresHold(a: Asset)
    requires a.width >= 0 && a.height >= 0
    ensures R.ColumnsHold(AssetMeasures(a)) <==>
      a.width <= R.INT_MAX && a.height <= R.INT_MAX && (a.durationMs.Some? ==> a.durationMs.value >= 0)
  {
    var cs := AssetMeasures(a);
    assert cs[0] in cs && cs[1] in cs && cs[4] in cs;
  }

  lemma LibraryHolds(x: LibraryItem)
    requires R.FitsIn(x.publicId, 64) && R.FitsIn(x.kind, 16) && (x.kind == "text" <==> x.asset == "")
    ensures R.HoldsItem(R.LibraryItems, LibraryRow(x)) <==> LibraryItemFits(x)
  {
    hide J.JsonHolds, R.FitsIn;
    var texts, times := LibraryTexts(x), LibraryTimes(x);
    StoredHolds(texts + times);
    HoldsAppend(texts, times);
    LibraryTextsHold(x);
    var second := LibraryRow(x).second.value;
    assert second[1] in second;
    assert LibraryRow(x).body[0] == R.Text(x.kind, 16);
  }

  lemma LibraryTextsHold(x: LibraryItem)
    requires R.FitsIn(x.kind, 16)
    ensures R.ColumnsHold(LibraryTexts(x)) <==>
      && R.FitsIn(x.title, 240) && R.FitsIn(x.source, 240) && R.Clean(x.content) && R.Clean(x.note)
      && J.JsonHolds(x.tags) && J.JsonHolds(x.metadata)
  {
    hide J.JsonHolds, R.FitsIn;
    var cs := LibraryTexts(x);
    assert cs[1] in cs && cs[2] in cs && cs[3] in cs && cs[4] in cs && cs[5] in cs && cs[6] in cs;
  }

  lemma JobHolds(j: Job)
    requires R.FitsIn(j.publicId, 64) && R.FitsIn(j.operation, 16) && R.FitsIn(j.status, 24) && R.FitsIn(j.phase, 24)
    requires 0 <= j.completed <= j.requested <= 10 && j.attemptPosition >= 0
    ensures R.HoldsItem(R.Jobs, JobItem(j)) <==> JobFits(j)
  {
    hide J.JsonHolds, R.FitsIn;
    var a, b, c := JobRequest(j), JobProgress(j), JobOutcome(j);
    StoredHolds(a + b + c);
    HoldsAppend(a, b);
    HoldsAppend(a + b, c);
    JobRequestHolds(j);
    JobProgressHolds(j);
    JobOutcomeHolds(j);
  }

  lemma JobRequestHolds(j: Job)
    requires R.FitsIn(j.operation, 16) && R.FitsIn(j.status, 24) && R.FitsIn(j.phase, 24)
    ensures R.ColumnsHold(JobRequest(j)) <==> R.FitsIn(j.clientNode, 128) && R.FitsIn(j.selectedModel, 128) && R.FitsIn(j.successfulModel, 128)
  {
    hide J.JsonHolds, R.FitsIn;
    var cs := JobRequest(j);
    assert cs[0] in cs && cs[2] in cs && cs[3] in cs;
  }

  lemma JobProgressHolds(j: Job)
    requires 0 <= j.completed <= j.requested <= 10 && j.attemptPosition >= 0
    ensures R.ColumnsHold(JobProgress(j)) <==> j.attemptPosition <= R.INT_MAX && J.JsonHolds(j.request) && J.JsonHolds(j.attemptPlan)
  {
    hide J.JsonHolds, R.FitsIn;
    var cs := JobProgress(j);
    assert cs[2] in cs && cs[4] in cs && cs[5] in cs;
  }

  lemma JobOutcomeHolds(j: Job)
    ensures R.ColumnsHold(JobOutcome(j)) <==> R.FitsIn(j.errorType, 64) && R.FitsIn(j.errorCode, 64) && R.FitsIn(j.errorMessage, 512)
  {
    hide J.JsonHolds, R.FitsIn;
    var cs := JobOutcome(j);
    assert cs[0] in cs && cs[1] in cs && cs[2] in cs;
  }

  lemma MediaTaskHolds(x: MediaTask)
    requires R.FitsIn(x.publicId, 64) && R.FitsIn(x.mediaKind, 16) && R.FitsIn(x.status, 24)
    ensures R.HoldsItem(R.MediaTasks, MediaTaskItem(x)) <==> MediaTaskFits(x)
  {
    hide J.JsonHolds, R.FitsIn;
    StoredHolds(TaskRequest(x) + TaskOutcome(x));
    HoldsAppend(TaskRequest(x), TaskOutcome(x));
    TaskRequestHolds(x);
    TaskOutcomeHolds(x);
  }

  lemma TaskRequestHolds(x: MediaTask)
    requires R.FitsIn(x.mediaKind, 16) && R.FitsIn(x.status, 24)
    ensures R.ColumnsHold(TaskRequest(x)) <==>
      R.FitsIn(x.phase, 32) && R.FitsIn(x.clientNode, 128) && R.FitsIn(x.selectedModel, 128) && R.FitsIn(x.successfulModel, 128)
  {
    hide J.JsonHolds, R.FitsIn;
    var cs := TaskRequest(x);
    assert cs[2] in cs && cs[4] in cs && cs[5] in cs && cs[6] in cs;
  }

  lemma TaskOutcomeHolds(x: MediaTask)
    ensures R.ColumnsHold(TaskOutcome(x)) <==> J.JsonHolds(x.request) && (x.error.Some? ==> J.JsonHolds(x.error.value))
  {
    hide J.JsonHolds, R.FitsIn;
    var cs := TaskOutcome(x);
    assert cs[0] in cs && cs[1] in cs;
  }

  lemma ProjectHolds(p: Project)
    requires R.FitsIn(p.publicId, 64)
    ensures R.HoldsItem(R.Projects, ProjectItem(p)) <==> ProjectFits(p)
  {
    hide J.JsonHolds, R.FitsIn;
    var cs := ProjectItem(p).body;
    StoredHolds(cs);
    assert cs[1] in cs && cs[2] in cs;
  }

  lemma DocumentHolds(x: Document)
    requires R.FitsIn(x.publicId, 64)
    ensures R.HoldsItem(R.EditorDocuments, DocumentItem(x)) <==> DocumentFits(x)
  {
    hide J.JsonHolds, R.FitsIn;
    var cs := DocumentItem(x).body;
    StoredHolds(cs);
    assert cs[0] in cs && cs[1] in cs;
  }

  lemma RevisionHolds(r: Revision)
    requires R.FitsIn(r.publicId, 64)
    ensures R.HoldsItem(R.EditorRevisions, RevisionItem(r)) <==> RevisionFits(r) && r.parameters.Some?
  {
    hide J.JsonHolds, R.FitsIn;
    var cs := RevisionItem(r).body;
    StoredHolds(cs);
    assert cs[0] in cs && cs[1] in cs;
  }

  lemma JobResultHolds(x: JobResult)
    requires x.position >= 0
    ensures R.HoldsItem(R.JobResults, JobResultItem(x)) <==>
      x.position <= R.INT_MAX && R.FitsIn(x.status, 24) && R.FitsIn(x.mimeType, 100) && R.FitsIn(x.size, 64)
  {
    hide J.JsonHolds, R.FitsIn;
    var cs, key := JobResultItem(x).body, JobResultItem(x).key;
    StoredHolds(cs);
    assert cs[0] in cs && cs[1] in cs && cs[2] in cs && key[0] in key;
  }

  lemma ProjectRefHolds(r: ProjectRef)
    ensures R.HoldsItem(R.ProjectRefs, ProjectRefItem(r)) <==> R.FitsIn(r.node, 128)
  {
    hide J.JsonHolds, R.FitsIn;
    var key := ProjectRefItem(r).key;
    StoredHolds(ProjectRefItem(r).body);
    assert key[0] in key;
  }

  lemma EditorRefHolds(r: EditorRef)
    requires R.FitsIn(r.role, 16)
    ensures R.HoldsItem(R.EditorRefs, EditorRefItem(r)) <==> R.FitsIn(r.element, 128)
  {
    hide J.JsonHolds, R.FitsIn;
    var key := EditorRefItem(r).key;
    StoredHolds(EditorRefItem(r).body);
    assert key[1] in key;
  }

  lemma JobInputHolds(x: JobInput)
    requires x.position >= 0 && R.FitsIn(x.kind, 16)
    ensures R.HoldsItem(R.JobInputs, JobInputItem(x)) <==> x.position <= R.INT_MAX
  {
    var key := JobInputItem(x).key;
    StoredHolds(JobInputItem(x).body);
    assert key[1] in key;
  }

  ghost predicate AllHoldIn(t: R.Table, items: seq<R.Item>) {
    forall item :: item in items ==> R.HoldsItem(t, item)
  }

  lemma AllHold<T(!new)>(t: R.Table, xs: seq<T>, f: T -> R.Item, fits: T -> bool)
    requires forall x :: x in xs ==> (R.HoldsItem(t, f(x)) <==> fits(x))
    ensures AllHoldIn(t, Mapped(xs, f)) <==> (forall x :: x in xs ==> fits(x))
  {
    if AllHoldIn(t, Mapped(xs, f)) {
      forall i | 0 <= i < |xs| ensures fits(xs[i]) { assert Mapped(xs, f)[i] in Mapped(xs, f); }
    }
  }

  lemma ProjectFit(d: Export, x: Project)
    requires Accepted(d) && x in d.projects
    ensures R.HoldsItem(R.Projects, Unillustrated(x)) <==> ProjectFits(x)
  {
    assert ProjectValid(x);
    ProjectHolds(x.(thumbnail := ""));
  }

  lemma AssetFit(d: Export, x: Asset)
    requires Accepted(d) && x in d.assets
    ensures R.HoldsItem(R.Assets, AssetItem(x)) <==> AssetFits(x)
  {
    assert ((x: Asset) => AssetValid(ProjectsOf(d), x))(x);
    AssetHolds(x);
  }

  lemma ProjectRefFit(d: Export, x: ProjectRef)
    requires Accepted(d) && x in d.projectRefs
    ensures R.HoldsItem(R.ProjectRefs, ProjectRefItem(x)) <==> R.FitsIn(x.node, 128)
  {
    assert ((x: ProjectRef) => ProjectRefValid(ProjectsOf(d), AssetsOf(d), x))(x);
    ProjectRefHolds(x);
  }

  lemma LibraryItemFit(d: Export, x: LibraryItem)
    requires Accepted(d) && x in d.libraryItems
    ensures R.HoldsItem(R.LibraryItems, LibraryRow(x)) <==> LibraryItemFits(x)
  {
    assert ((x: LibraryItem) => LibraryItemValid(AssetsOf(d), x))(x);
    LibraryHolds(x);
  }

  lemma DocumentFit(d: Export, x: Document)
    requires Accepted(d) && x in d.documents
    ensures R.HoldsItem(R.EditorDocuments, DocumentItem(x)) <==> DocumentFits(x)
  {
    assert ((x: Document) => DocumentValid(ProjectsOf(d), AssetsOf(d), x))(x);
    DocumentHolds(x);
  }

  lemma EditorRefFit(d: Export, x: EditorRef)
    requires Accepted(d) && x in d.editorRefs
    ensures R.HoldsItem(R.EditorRefs, EditorRefItem(x)) <==> R.FitsIn(x.element, 128)
  {
    assert ((x: EditorRef) => EditorRefValid(ProjectsOf(d), AssetsOf(d), DocumentsOf(d), x))(x);
    EditorRefHolds(x);
  }

  lemma RevisionFit(d: Export, x: Revision)
    requires Accepted(d) && x in d.revisions
    ensures R.HoldsItem(R.EditorRevisions, RevisionItem(x)) <==> RevisionFits(x) && x.parameters.Some?
  {
    assert ((x: Revision) => RevisionValid(ProjectsOf(d), AssetsOf(d), DocumentsOf(d), x))(x);
    RevisionHolds(x);
  }

  lemma IdFits(id: string)
    requires ValidId(id)
    ensures R.FitsIn(id, 64)
  {
  }

  lemma ValidJob(d: Export, j: Job)
    requires Accepted(d) && j in d.jobs
    ensures JobValid(ProjectsOf(d), j)
  {
    assert ((j: Job) => JobValid(ProjectsOf(d), j))(j);
  }

  lemma StatusFits(status: string)
    requires TerminalStatus(status)
    ensures R.FitsIn(status, 24)
  {
  }

  lemma PhaseFits(phase: string)
    requires phase in ["preflight", "leased", "validating", "upstream", "saving"]
    ensures R.FitsIn(phase, 24)
  {
  }

  lemma JobFit(d: Export, x: Job)
    requires Accepted(d) && x in d.jobs
    ensures R.HoldsItem(R.Jobs, JobItem(x)) <==> JobFits(x)
  {
    ValidJob(d, x);
    IdFits(x.publicId);
    StatusFits(x.status);
    PhaseFits(x.phase);
    JobHolds(x);
  }

  lemma JobInputFit(d: Export, x: JobInput)
    requires Accepted(d) && x in d.jobInputs
    ensures R.HoldsItem(R.JobInputs, JobInputItem(x)) <==> x.position <= R.INT_MAX
  {
    assert ((x: JobInput) => JobInputValid(JobsOf(d), AssetsOf(d), x))(x);
    JobInputHolds(x);
  }

  lemma JobResultFit(d: Export, x: JobResult)
    requires Accepted(d) && x in d.jobResults
    ensures R.HoldsItem(R.JobResults, JobResultItem(x)) <==> JobResultFits(x)
  {
    assert ((x: JobResult) => JobResultValid(JobsOf(d), AssetsOf(d), x))(x);
    JobResultHolds(x);
  }

  lemma MediaTaskFit(d: Export, x: MediaTask)
    requires Accepted(d) && x in d.mediaTasks
    ensures R.HoldsItem(R.MediaTasks, MediaTaskItem(x)) <==> MediaTaskFits(x)
  {
    assert ((x: MediaTask) => MediaTaskValid(ProjectsOf(d), AssetsOf(d), x))(x);
    IdFits(x.publicId);
    StatusFits(x.status);
    MediaTaskHolds(x);
  }

  lemma ParentsHold(d: Export, item: R.Item)
    requires Accepted(d) && item in ParentItems(d.assets)
    ensures R.HoldsItem(R.AssetParents, item)
  {
    ParentItemsAre(d.assets, item);
    var a, p :| a in d.assets && p in a.parents && item == ParentItem(a.publicId, p);
    assert ParentsValid(AssetsOf(d), a);
  }

  lemma ParentsAllHold(d: Export)
    requires Accepted(d)
    ensures AllHoldIn(R.AssetParents, ParentItems(d.assets))
  {
    forall item | item in ParentItems(d.assets) ensures R.HoldsItem(R.AssetParents, item) { ParentsHold(d, item); }
  }

  /** The columns of a table hold what the statements send exactly when the bounds of TableFits are kept and no required value is absent. */
  lemma AcceptedFit(d: Export, t: R.Table)
    requires Accepted(d)
    ensures AllHoldIn(t, Sent(d, t)) <==> TableHolds(d, t)
  {
    hide Accepted, R.HoldsItem, AllHoldIn, R.FitsIn, AssetFits, LibraryItemFits, JobFits, JobResultFits, MediaTaskFits;
    match t
    case AssetParents =>
      ParentsAllHold(d);
    case Projects =>
      forall x | x in d.projects ensures R.HoldsItem(t, Unillustrated(x)) <==> ProjectFits(x) { ProjectFit(d, x); }
      AllHold(t, d.projects, Unillustrated, ProjectFits);
    case Assets =>
      forall x | x in d.assets ensures R.HoldsItem(t, AssetItem(x)) <==> AssetFits(x) { AssetFit(d, x); }
      AllHold(t, d.assets, AssetItem, AssetFits);
    case ProjectRefs =>
      forall x | x in d.projectRefs ensures R.HoldsItem(t, ProjectRefItem(x)) <==> R.FitsIn(x.node, 128) { ProjectRefFit(d, x); }
      AllHold(t, d.projectRefs, ProjectRefItem, (x: ProjectRef) => R.FitsIn(x.node, 128));
    case LibraryItems =>
      forall x | x in d.libraryItems ensures R.HoldsItem(t, LibraryRow(x)) <==> LibraryItemFits(x) { LibraryItemFit(d, x); }
      AllHold(t, d.libraryItems, LibraryRow, LibraryItemFits);
    case EditorDocuments =>
      forall x | x in d.documents ensures R.HoldsItem(t, DocumentItem(x)) <==> DocumentFits(x) { DocumentFit(d, x); }
      AllHold(t, d.documents, DocumentItem, DocumentFits);
    case EditorRefs =>
      forall x | x in d.editorRefs ensures R.HoldsItem(t, EditorRefItem(x)) <==> R.FitsIn(x.element, 128) { EditorRefFit(d, x); }
      AllHold(t, d.editorRefs, EditorRefItem, (x: EditorRef) => R.FitsIn(x.element, 128));
    case EditorRevisions =>
      forall x | x in d.revisions ensures R.HoldsItem(t, RevisionItem(x)) <==> RevisionFits(x) && x.parameters.Some? { RevisionFit(d, x); }
      AllHold(t, d.revisions, RevisionItem, (x: Revision) => RevisionFits(x) && x.parameters.Some?);
    case Jobs =>
      forall x | x in d.jobs ensures R.HoldsItem(t, JobItem(x)) <==> JobFits(x) { JobFit(d, x); }
      AllHold(t, d.jobs, JobItem, JobFits);
    case JobInputs =>
      forall x | x in d.jobInputs ensures R.HoldsItem(t, JobInputItem(x)) <==> x.position <= R.INT_MAX { JobInputFit(d, x); }
      AllHold(t, d.jobInputs, JobInputItem, (x: JobInput) => x.position <= R.INT_MAX);
    case JobResults =>
      forall x | x in d.jobResults ensures R.HoldsItem(t, JobResultItem(x)) <==> JobResultFits(x) { JobResultFit(d, x); }
      AllHold(t, d.jobResults, JobResultItem, JobResultFits);
    case MediaTasks =>
      forall x | x in d.mediaTasks ensures R.HoldsItem(t, MediaTaskItem(x)) <==> MediaTaskFits(x) { MediaTaskFit(d, x); }
      AllHold(t, d.mediaTasks, MediaTaskItem, MediaTaskFits);
  }

  /** The checks between columns pass for whatever is accepted. */
  lemma ChecksPass(d: Export, t: R.Table, item: R.Item)
    requires Accepted(d) && item in Sent(d, t)
    ensures R.ChecksItem(t, item)
  {
    if t == R.AssetParents {
      ParentsHold(d, item);
    } else if t == R.LibraryItems {
      var x := MappedFrom(d.libraryItems, LibraryRow, item);
      assert ((x: LibraryItem) => LibraryItemValid(AssetsOf(d), x))(x);
      assert LibraryRow(x).body[0] == R.Text(x.kind, 16);
    }
  }

  // ---------- What is read back ----------

  /** A value that a column gives back as it was. */
  predicate Kept(c: R.Column) {
    PlainColumn(c) && PlainTime(c) && (c.NullableJson? ==> c.json.Some?)
  }

  ghost predicate AllKept(cs: seq<R.Column>) {
    forall c :: c in cs ==> Kept(c)
  }

  lemma ColumnReadsBack(c: R.Column)
    ensures R.Load(R.Store(c)) == c && R.Printable(c) <==> Kept(c)
  {
    hide J.Jsonb, J.NumbersPlain;
    if c.Json? {
      J.JsonStays(c.value);
    } else if (c.NullableJson? || c.RequiredJson?) && c.json.Some? {
      J.JsonStays(c.json.value);
    }
  }

  /** A row that comes back as it was, and can be printed. */
  predicate ReadsBack(item: R.Item) {
    R.AsRead(item) == item && forall c :: c in item.body ==> R.Printable(c)
  }

  /** It does exactly when every value of it does. */
  lemma RowReadsBack(item: R.Item)
    ensures ReadsBack(item) <==> AllKept(item.body)
  {
    var cs, back := item.body, R.LoadAll(R.StoreAll(item.body));
    forall i | 0 <= i < |cs| ensures back[i] == cs[i] && R.Printable(cs[i]) <==> Kept(cs[i]) { ColumnReadsBack(cs[i]); }
    if ReadsBack(item) {
      forall i | 0 <= i < |cs| ensures Kept(cs[i]) { assert back[i] == cs[i] && cs[i] in cs; }
    }
  }

  ghost predicate NoNullable(cs: seq<R.Column>) {
    forall c :: c in cs ==> !c.NullableJson?
  }

  lemma NoNullableAppend(a: seq<R.Column>, b: seq<R.Column>)
    requires NoNullable(a) && NoNullable(b)
    ensures NoNullable(a + b)
  {
  }

  /** Only a media task has a JSON value that may be absent. */
  lemma OnlyTasksHaveErrors(d: Export, t: R.Table, item: R.Item)
    requires t != R.MediaTasks && item in Items(d, t)
    ensures NoNullable(item.body)
  {
    match t
    case Projects => var x := MappedFrom(d.projects, ProjectItem, item);
    case Assets => var x := MappedFrom(d.assets, AssetItem, item); NoNullableAppend(AssetMedia(x), AssetMeasures(x));
    case AssetParents => ParentItemsAre(d.assets, item);
    case ProjectRefs => var x := MappedFrom(d.projectRefs, ProjectRefItem, item);
    case LibraryItems => var x := MappedFrom(d.libraryItems, LibraryRow, item); NoNullableAppend(LibraryTexts(x), LibraryTimes(x));
    case EditorDocuments => var x := MappedFrom(d.documents, DocumentItem, item);
    case EditorRefs => var x := MappedFrom(d.editorRefs, EditorRefItem, item);
    case EditorRevisions => var x := MappedFrom(d.revisions, RevisionItem, item);
    case Jobs => var x := MappedFrom(d.jobs, JobItem, item); JobNoNullable(x);
    case JobInputs => var x := MappedFrom(d.jobInputs, JobInputItem, item);
    case JobResults => var x := MappedFrom(d.jobResults, JobResultItem, item);
  }

  lemma JobNoNullable(j: Job)
    ensures NoNullable(JobItem(j).body)
  {
    NoNullableAppend(JobRequest(j), JobProgress(j));
    NoNullableAppend(JobRequest(j) + JobProgress(j), JobOutcome(j));
  }

  lemma TaskError(x: MediaTask)
    ensures (forall c :: c in MediaTaskItem(x).body && c.NullableJson? ==> c.json.Some?) <==> x.error.Some?
  {
    var request, outcome := TaskRequest(x), TaskOutcome(x);
    assert NoNullable(request);
    assert outcome[0] in outcome && outcome[0] == R.NullableJson(x.error);
    assert outcome[0] in request + outcome;
  }

  ghost predicate AllReadBack(d: Export, t: R.Table) {
    forall item :: item in Items(d, t) ==> ReadsBack(item)
  }

  lemma TasksReadBack(d: Export)
    requires AllReadBack(d, R.MediaTasks)
    ensures ErrorsPresent(d)
  {
    forall x | x in d.mediaTasks ensures x.error.Some? {
      var i :| 0 <= i < |d.mediaTasks| && d.mediaTasks[i] == x;
      assert Items(d, R.MediaTasks)[i] == MediaTaskItem(x);
      RowReadsBack(MediaTaskItem(x));
      TaskError(x);
    }
  }

  lemma ItemReadsBack(d: Export, t: R.Table, item: R.Item)
    requires ErrorsPresent(d) && item in Items(d, t)
    ensures ReadsBack(item) <==> forall c :: c in item.body ==> PlainColumn(c) && PlainTime(c)
  {
    RowReadsBack(item);
    if t == R.MediaTasks {
      var x := MappedFrom(d.mediaTasks, MediaTaskItem, item);
      TaskError(x);
    } else {
      OnlyTasksHaveErrors(d, t, item);
    }
  }

  /** Every row of an export comes back as it was exactly when these conditions hold. */
  lemma EverythingReadsBack(d: Export)
    ensures (forall t: R.Table :: AllReadBack(d, t)) <==> ErrorsPresent(d) && NumbersPlain(d) && TimesPlain(d)
  {
    if forall t: R.Table :: AllReadBack(d, t) {
      TasksReadBack(d);
      forall t: R.Table, item | item in Items(d, t)
        ensures forall c :: c in item.body ==> PlainColumn(c) && PlainTime(c)
      {
        assert AllReadBack(d, t);
        ItemReadsBack(d, t, item);
      }
    }
    if ErrorsPresent(d) && NumbersPlain(d) && TimesPlain(d) {
      forall t: R.Table, item | item in Items(d, t) ensures ReadsBack(item) { ItemReadsBack(d, t, item); }
    }
  }

  // ---------- Parents ----------

  function Own(a: Asset): seq<R.Item> {
    seq(|a.parents|, i requires 0 <= i < |a.parents| => ParentItem(a.publicId, a.parents[i]))
  }

  predicate SameParent(x: R.Item, y: R.Item) {
    R.SameItemKey(R.AssetParents, x, y)
  }

  lemma SameParentIs(x: R.Item, y: R.Item)
    requires |x.refs| == |y.refs| == 2 && x.key == y.key == []
    ensures SameParent(x, y) <==> x.refs[0] == y.refs[0] && x.refs[1] == y.refs[1]
  {
    assert x.refs[..2] == x.refs && y.refs[..2] == y.refs;
    assert x.refs == y.refs <==> x.refs[0] == y.refs[0] && x.refs[1] == y.refs[1];
  }

  lemma OwnDistinct(a: Asset)
    ensures KeysDistinct(R.AssetParents, Own(a)) <==> NoDuplicates(a.parents)
  {
    forall i, j | 0 <= i < j < |a.parents|
      ensures R.SameItemKey(R.AssetParents, Own(a)[i], Own(a)[j]) <==> a.parents[i] == a.parents[j]
    {
      SameParentIs(Own(a)[i], Own(a)[j]);
    }
  }

  lemma DistinctAppend(t: R.Table, xs: seq<R.Item>, ys: seq<R.Item>)
    requires forall x, y :: x in xs && y in ys ==> !R.SameItemKey(t, x, y)
    ensures KeysDistinct(t, xs + ys) <==> KeysDistinct(t, xs) && KeysDistinct(t, ys)
  {
    if KeysDistinct(t, xs + ys) {
      forall i, j | 0 <= i < j < |xs| ensures !R.SameItemKey(t, xs[i], xs[j]) {
        assert !R.SameItemKey(t, (xs + ys)[i], (xs + ys)[j]);
      }
      forall i, j | 0 <= i < j < |ys| ensures !R.SameItemKey(t, ys[i], ys[j]) {
        assert !R.SameItemKey(t, (xs + ys)[|xs| + i], (xs + ys)[|xs| + j]);
      }
    }
  }

  /** The parent statements send no row twice exactly when no asset lists a parent twice. */
  lemma {:induction false} ParentKeys(assets: seq<Asset>)
    requires forall i, j :: 0 <= i < j < |assets| ==> assets[i].publicId != assets[j].publicId
    ensures KeysDistinct(R.AssetParents, ParentItems(assets)) <==> forall a :: a in assets ==> NoDuplicates(a.parents)
  {
    if assets != [] {
      var rest, last := assets[..|assets| - 1], assets[|assets| - 1];
      ParentKeys(rest);
      OwnDistinct(last);
      assert ParentItems(assets) == ParentItems(rest) + Own(last);
      forall x, y | x in ParentItems(rest) && y in Own(last) ensures !R.SameItemKey(R.AssetParents, x, y) {
        ParentItemsAre(rest, x);
        SameParentIs(x, y);
      }
      DistinctAppend(R.AssetParents, ParentItems(rest), Own(last));
      assert assets == rest + [last];
    }
  }

  lemma AcceptedParents(d: Export)
    requires Accepted(d)
    ensures KeysDistinct(R.AssetParents, Items(d, R.AssetParents)) <==> ParentsDistinct(d)
  {
    forall i, j | 0 <= i < j < |d.assets| ensures d.assets[i].publicId != d.assets[j].publicId {
      if d.assets[i].publicId == d.assets[j].publicId {
        V.OneClaimEach(d.assets, AssetClaims, i, j, ById(d.assets[i].publicId));
      }
    }
    ParentKeys(d.assets);
  }

  // ---------- Shapes ----------

  lemma SentShaped(d: Export, t: R.Table)
    ensures forall i :: 0 <= i < |Sent(d, t)| ==> R.Shaped(t, Sent(d, t)[i])
  {
    match t
    case AssetParents => ParentsHaveNoSecond(d.assets); assert Sent(d, t) == ParentItems(d.assets);
    case Projects => MappedShaped(t, d.projects, Unillustrated);
    case Assets => MappedShaped(t, d.assets, AssetItem);
    case ProjectRefs => MappedShaped(t, d.projectRefs, ProjectRefItem);
    case LibraryItems => MappedShaped(t, d.libraryItems, LibraryRow);
    case EditorDocuments => MappedShaped(t, d.documents, DocumentItem);
    case EditorRefs => MappedShaped(t, d.editorRefs, EditorRefItem);
    case EditorRevisions => MappedShaped(t, d.revisions, RevisionItem);
    case Jobs => MappedShaped(t, d.jobs, JobItem);
    case JobInputs => MappedShaped(t, d.jobInputs, JobInputItem);
    case JobResults => MappedShaped(t, d.jobResults, JobResultItem);
    case MediaTasks => MappedShaped(t, d.mediaTasks, MediaTaskItem);
  }

  lemma MappedShaped<T(!new)>(t: R.Table, xs: seq<T>, f: T -> R.Item)
    requires forall x :: R.Shaped(t, f(x))
    ensures forall i :: 0 <= i < |Mapped(xs, f)| ==> R.Shaped(t, Mapped(xs, f)[i])
  {
  }
}
