/**
 What an accepted export guarantees, in the terms of its rows: every reference stays with one owner, every row
 passes the checks of the target's schema, and every stored object is what its asset says.
*/
module AcceptedExports {
  import opened Wrappers
  import opened Texts
  import opened Dataset
  import V = Validator

  // ---------- One owner ----------

  ghost predicate ProjectOf(d: Export, id: string, owner: int) {
    exists p :: p in d.projects && p.publicId == id && p.owner == owner
  }

  ghost predicate AssetOf(d: Export, id: string, owner: int) {
    exists a :: a in d.assets && a.publicId == id && a.owner == owner
  }

  ghost predicate KindOf(d: Export, id: string, kind: string) {
    exists a :: a in d.assets && a.publicId == id && a.mediaKind == kind
  }

  lemma ProjectFound(d: Export, id: string)
    requires Accepted(d) && id in ProjectsOf(d)
    ensures ProjectOf(d, id, ProjectsOf(d)[id].owner)
  {
    V.Indexed(d.projects, (p: Project) => p.publicId);
  }

  lemma AssetFound(d: Export, id: string)
    requires Accepted(d) && id in AssetsOf(d)
    ensures AssetOf(d, id, AssetsOf(d)[id].owner) && KindOf(d, id, AssetsOf(d)[id].mediaKind)
  {
    V.Indexed(d.assets, (a: Asset) => a.publicId);
  }

  ghost predicate ProjectStays(d: Export, p: Project) {
    p.thumbnail != "" ==> AssetOf(d, p.thumbnail, p.owner)
  }

  ghost predicate AssetStays(d: Export, a: Asset) {
    && (a.project != "" ==> ProjectOf(d, a.project, a.owner))
    && forall id :: id in a.parents ==> AssetOf(d, id, a.owner) && id != a.publicId
  }

  ghost predicate RefStays(d: Export, r: ProjectRef) {
    exists owner :: ProjectOf(d, r.project, owner) && AssetOf(d, r.asset, owner)
  }

  ghost predicate LibraryItemStays(d: Export, x: LibraryItem) {
    if x.kind == "text" then x.asset == "" else AssetOf(d, x.asset, x.owner) && KindOf(d, x.asset, x.kind)
  }

  ghost predicate DocumentStays(d: Export, x: Document) {
    && (exists owner :: ProjectOf(d, x.project, owner) && AssetOf(d, x.base, owner) && AssetOf(d, x.current, owner))
    && KindOf(d, x.base, "image") && KindOf(d, x.current, "image")
  }

  /** Through the document, to the owner of its project. */
  ghost predicate EditorAssetStays(d: Export, document: string, asset: string) {
    exists x, owner :: x in d.documents && x.publicId == document && ProjectOf(d, x.project, owner) && AssetOf(d, asset, owner)
  }

  ghost predicate JobStays(d: Export, j: Job) {
    ProjectOf(d, j.project, j.owner)
  }

  /** The asset is the owner's of the job, and has the content that the job was given. */
  ghost predicate InputStays(d: Export, x: JobInput) {
    exists j, a :: j in d.jobs && j.publicId == x.job && a in d.assets && a.publicId == x.asset && a.owner == j.owner && a.sha256 == x.sha256
  }

  ghost predicate ResultStays(d: Export, x: JobResult) {
    exists j :: j in d.jobs && j.publicId == x.job && (x.asset != "" ==> AssetOf(d, x.asset, j.owner))
  }

  ghost predicate TaskStays(d: Export, x: MediaTask) {
    ProjectOf(d, x.project, x.owner) && (x.asset != "" ==> AssetOf(d, x.asset, x.owner))
  }

  lemma EntitiesStay(d: Export)
    requires Accepted(d)
    ensures forall p :: p in d.projects ==> ProjectStays(d, p)
    ensures forall a :: a in d.assets ==> AssetStays(d, a)
  {
    hide ProjectOf, AssetOf;
    forall p | p in d.projects ensures ProjectStays(d, p) {
      assert ThumbnailValid(AssetsOf(d), p);
      if p.thumbnail != "" {
        AssetFound(d, p.thumbnail);
      }
    }
    forall a | a in d.assets ensures AssetStays(d, a) {
      assert ((x: Asset) => AssetValid(ProjectsOf(d), x))(a) && ParentsValid(AssetsOf(d), a);
      if a.project != "" {
        ProjectFound(d, a.project);
      }
      forall id | id in a.parents ensures AssetOf(d, id, a.owner) { AssetFound(d, id); }
    }
  }

  lemma RefsStay(d: Export)
    requires Accepted(d)
    ensures forall r :: r in d.projectRefs ==> RefStays(d, r)
    ensures forall x :: x in d.libraryItems ==> LibraryItemStays(d, x)
  {
    hide ProjectOf, AssetOf, KindOf;
    forall r | r in d.projectRefs ensures RefStays(d, r) {
      assert ((x: ProjectRef) => ProjectRefValid(ProjectsOf(d), AssetsOf(d), x))(r);
      ProjectFound(d, r.project);
      AssetFound(d, r.asset);
    }
    forall x | x in d.libraryItems ensures LibraryItemStays(d, x) {
      assert ((y: LibraryItem) => LibraryItemValid(AssetsOf(d), y))(x);
      if x.asset != "" {
        AssetFound(d, x.asset);
      }
    }
  }

  lemma DocumentsStay(d: Export)
    requires Accepted(d)
    ensures forall x :: x in d.documents ==> DocumentStays(d, x)
  {
    hide ProjectOf, AssetOf, KindOf;
    forall x | x in d.documents ensures DocumentStays(d, x) {
      assert ((y: Document) => DocumentValid(ProjectsOf(d), AssetsOf(d), y))(x);
      ProjectFound(d, x.project);
      AssetFound(d, x.base);
      AssetFound(d, x.current);
    }
  }

  lemma EditorAssetFound(d: Export, document: string, asset: string)
    requires Accepted(d) && document in DocumentsOf(d) && asset in AssetsOf(d)
    requires DocumentOwner(ProjectsOf(d), DocumentsOf(d), document) == AssetsOf(d)[asset].owner
    ensures EditorAssetStays(d, document, asset)
  {
    hide ProjectOf, AssetOf, KindOf;
    V.Indexed(d.documents, (x: Document) => x.publicId);
    var x := DocumentsOf(d)[document];
    assert ((y: Document) => DocumentValid(ProjectsOf(d), AssetsOf(d), y))(x);
    ProjectFound(d, x.project);
    AssetFound(d, asset);
  }

  lemma EditorStays(d: Export)
    requires Accepted(d)
    ensures forall r :: r in d.editorRefs ==> EditorAssetStays(d, r.document, r.asset)
    ensures forall v :: v in d.revisions ==> EditorAssetStays(d, v.document, v.asset)
  {
    hide EditorAssetStays;
    forall r | r in d.editorRefs ensures EditorAssetStays(d, r.document, r.asset) {
      assert ((x: EditorRef) => EditorRefValid(ProjectsOf(d), AssetsOf(d), DocumentsOf(d), x))(r);
      EditorAssetFound(d, r.document, r.asset);
    }
    forall v | v in d.revisions ensures EditorAssetStays(d, v.document, v.asset) {
      assert ((x: Revision) => RevisionValid(ProjectsOf(d), AssetsOf(d), DocumentsOf(d), x))(v);
      EditorAssetFound(d, v.document, v.asset);
    }
  }

  lemma JobsStay(d: Export)
    requires Accepted(d)
    ensures forall j :: j in d.jobs ==> JobStays(d, j)
    ensures forall x :: x in d.mediaTasks ==> TaskStays(d, x)
  {
    hide ProjectOf, AssetOf;
    forall j | j in d.jobs ensures JobStays(d, j) {
      assert ((x: Job) => JobValid(ProjectsOf(d), x))(j);
      ProjectFound(d, j.project);
    }
    forall x | x in d.mediaTasks ensures TaskStays(d, x) {
      assert ((y: MediaTask) => MediaTaskValid(ProjectsOf(d), AssetsOf(d), y))(x);
      ProjectFound(d, x.project);
      if x.asset != "" {
        AssetFound(d, x.asset);
      }
    }
  }

  lemma InputsStay(d: Export)
    requires Accepted(d)
    ensures forall x :: x in d.jobInputs ==> InputStays(d, x)
    ensures forall x :: x in d.jobResults ==> ResultStays(d, x)
  {
    V.Indexed(d.jobs, (j: Job) => j.publicId);
    V.Indexed(d.assets, (a: Asset) => a.publicId);
    forall x | x in d.jobInputs ensures InputStays(d, x) {
      assert ((y: JobInput) => JobInputValid(JobsOf(d), AssetsOf(d), y))(x);
      var j, a := JobsOf(d)[x.job], AssetsOf(d)[x.asset];
      assert j in d.jobs && a in d.assets;
    }
    forall x | x in d.jobResults ensures ResultStays(d, x) {
      assert ((y: JobResult) => JobResultValid(JobsOf(d), AssetsOf(d), y))(x);
      assert JobsOf(d)[x.job] in d.jobs;
      if x.asset != "" {
        AssetFound(d, x.asset);
      }
    }
  }

  /** No reference of an accepted export leads to what belongs to somebody else, in any of its tables. */
  lemma ReferencesStayWithTheOwner(d: Export)
    requires Accepted(d)
    ensures forall p :: p in d.projects ==> ProjectStays(d, p)
    ensures forall a :: a in d.assets ==> AssetStays(d, a)
    ensures forall r :: r in d.projectRefs ==> RefStays(d, r)
    ensures forall x :: x in d.libraryItems ==> LibraryItemStays(d, x)
    ensures forall x :: x in d.documents ==> DocumentStays(d, x)
    ensures forall r :: r in d.editorRefs ==> EditorAssetStays(d, r.document, r.asset)
    ensures forall v :: v in d.revisions ==> EditorAssetStays(d, v.document, v.asset)
    ensures forall j :: j in d.jobs ==> JobStays(d, j)
    ensures forall x :: x in d.jobInputs ==> InputStays(d, x)
    ensures forall x :: x in d.jobResults ==> ResultStays(d, x)
    ensures forall x :: x in d.mediaTasks ==> TaskStays(d, x)
  {
    hide Accepted, ProjectStays, AssetStays, RefStays, LibraryItemStays, DocumentStays, EditorAssetStays, JobStays, InputStays, ResultStays, TaskStays;
    EntitiesStay(d);
    RefsStay(d);
    DocumentsStay(d);
    EditorStays(d);
    JobsStay(d);
    InputsStay(d);
  }

  // ---------- The checks of the schema ----------

  /** BTRIM(s) <> '' */
  predicate NotOnlySpaces(s: string) {
    exists c :: c in s && c != ' '
  }

  ghost predicate ProjectChecks(p: Project) {
    p.owner > 0 && NotOnlySpaces(p.name) && p.version > 0
  }

  ghost predicate AssetChecks(a: Asset) {
    && a.owner > 0 && a.sourceType in ["upload", "generated", "derived", "legacy"] && a.mediaKind in ["image", "video", "audio"]
    && a.width >= 0 && a.height >= 0 && a.byteSize > 0 && a.publicId !in a.parents
  }

  ghost predicate LibraryItemChecks(x: LibraryItem) {
    && NotOnlySpaces(x.client) && x.owner > 0 && x.kind in ["text", "image", "video", "audio"] && NotOnlySpaces(x.title) && x.version > 0
    && ((x.kind == "text" && x.asset == "") || (x.kind in ["image", "video", "audio"] && x.asset != ""))
  }

  ghost predicate DocumentChecks(x: Document) {
    NotOnlySpaces(x.node) && x.version > 0
  }

  ghost predicate EditorRefChecks(r: EditorRef) {
    r.role in ["source", "layer", "mask", "result"] && NotOnlySpaces(r.element)
  }

  ghost predicate RevisionChecks(r: Revision) {
    r.version > 0 && NotOnlySpaces(r.operation)
  }

  /** A job of an import has no credential, which the check for live jobs allows. */
  ghost predicate JobChecks(j: Job) {
    && j.owner > 0 && j.operation in ["generation", "edit"]
    && j.status in ["queued", "running", "partial", "completed", "failed", "canceled", "indeterminate", "expired"]
    && j.phase in ["preflight", "leased", "validating", "upstream", "saving"]
    && 1 <= j.requested <= 10 && j.completed >= 0 && j.attemptPosition >= 0
  }

  ghost predicate MediaTaskChecks(x: MediaTask) {
    x.mediaKind in ["video", "audio"] && x.owner > 0
  }

  lemma NotBlank(s: string)
    requires !Texts.Blank(s)
    ensures NotOnlySpaces(s)
  {
  }

  lemma EntitiesPass(d: Export)
    requires Accepted(d)
    ensures forall p :: p in d.projects ==> ProjectChecks(p)
    ensures forall a :: a in d.assets ==> AssetChecks(a)
  {
    forall p | p in d.projects ensures ProjectChecks(p) {
      assert ProjectValid(p);
      NotBlank(p.name);
    }
    forall a | a in d.assets ensures AssetChecks(a) {
      assert ((x: Asset) => AssetValid(ProjectsOf(d), x))(a) && ParentsValid(AssetsOf(d), a);
    }
  }

  lemma LibraryPasses(d: Export)
    requires Accepted(d)
    ensures forall x :: x in d.libraryItems ==> LibraryItemChecks(x)
  {
    forall x | x in d.libraryItems ensures LibraryItemChecks(x) {
      assert ((y: LibraryItem) => LibraryItemValid(AssetsOf(d), y))(x);
      NotBlank(x.client);
      NotBlank(x.title);
    }
  }

  lemma EditorPasses(d: Export)
    requires Accepted(d)
    ensures forall x :: x in d.documents ==> DocumentChecks(x)
    ensures forall r :: r in d.editorRefs ==> EditorRefChecks(r)
    ensures forall v :: v in d.revisions ==> RevisionChecks(v)
  {
    forall x | x in d.documents ensures DocumentChecks(x) {
      assert ((y: Document) => DocumentValid(ProjectsOf(d), AssetsOf(d), y))(x);
      NotBlank(x.node);
    }
    forall r | r in d.editorRefs ensures EditorRefChecks(r) {
      assert ((x: EditorRef) => EditorRefValid(ProjectsOf(d), AssetsOf(d), DocumentsOf(d), x))(r);
      NotBlank(r.element);
    }
    forall v | v in d.revisions ensures RevisionChecks(v) {
      assert ((x: Revision) => RevisionValid(ProjectsOf(d), AssetsOf(d), DocumentsOf(d), x))(v);
      NotBlank(v.operation);
    }
  }

  lemma OwnerIsSomebody(d: Export, id: string, owner: int)
    requires Accepted(d) && ProjectOf(d, id, owner)
    ensures owner > 0
  {
    assert forall p :: p in d.projects ==> ProjectValid(p);
  }

  lemma JobsPass(d: Export)
    requires Accepted(d)
    ensures forall j :: j in d.jobs ==> JobChecks(j)
    ensures forall x :: x in d.jobInputs ==> x.kind in ["image", "mask"]
    ensures forall x :: x in d.mediaTasks ==> MediaTaskChecks(x)
  {
    JobsStay(d);
    forall j | j in d.jobs ensures JobChecks(j) {
      assert ((x: Job) => JobValid(ProjectsOf(d), x))(j) && JobStays(d, j);
      OwnerIsSomebody(d, j.project, j.owner);
    }
    forall x | x in d.jobInputs ensures x.kind in ["image", "mask"] {
      assert ((y: JobInput) => JobInputValid(JobsOf(d), AssetsOf(d), y))(x);
    }
    forall x | x in d.mediaTasks ensures MediaTaskChecks(x) {
      assert ((y: MediaTask) => MediaTaskValid(ProjectsOf(d), AssetsOf(d), y))(x) && TaskStays(d, x);
      OwnerIsSomebody(d, x.project, x.owner);
    }
  }

  /** Every row of an accepted export passes every check that the schema of the target puts on its table. */
  lemma AcceptedPassesChecks(d: Export)
    requires Accepted(d)
    ensures forall p :: p in d.projects ==> ProjectChecks(p)
    ensures forall a :: a in d.assets ==> AssetChecks(a)
    ensures forall x :: x in d.libraryItems ==> LibraryItemChecks(x)
    ensures forall x :: x in d.documents ==> DocumentChecks(x)
    ensures forall r :: r in d.editorRefs ==> EditorRefChecks(r)
    ensures forall v :: v in d.revisions ==> RevisionChecks(v)
    ensures forall j :: j in d.jobs ==> JobChecks(j)
    ensures forall x :: x in d.jobInputs ==> x.kind in ["image", "mask"]
    ensures forall x :: x in d.mediaTasks ==> MediaTaskChecks(x)
  {
    hide Accepted, ProjectChecks, AssetChecks, LibraryItemChecks, DocumentChecks, EditorRefChecks, RevisionChecks, JobChecks, MediaTaskChecks;
    EntitiesPass(d);
    LibraryPasses(d);
    EditorPasses(d);
    JobsPass(d);
  }

  // ---------- Stored objects ----------

  /** The object is the original or the thumbnail of the asset, as the asset describes it. */
  predicate Depicts(o: StoredObject, a: Asset) {
    && o.asset == a.publicId && o.size > 0
    && ((o.kind == "original" && o.targetKey == a.objectKey && o.size == a.byteSize && o.sha256 == a.sha256 && o.mimeType == a.mimeType)
        || (o.kind == "thumbnail" && o.targetKey == a.thumbnailKey))
  }

  lemma {:induction false} Counted(objects: seq<StoredObject>, kind: string, id: string)
    ensures CountOf(objects, kind, id) > 0 ==> exists o :: o in objects && o.kind == kind && o.asset == id
    ensures CountOf(objects, kind, id) == 1 ==>
      forall o, q :: o in objects && q in objects && o.kind == q.kind == kind && o.asset == q.asset == id ==> o == q
    ensures CountOf(objects, kind, id) == 0 ==> forall o :: o in objects ==> o.kind != kind || o.asset != id
  {
    if objects != [] {
      var rest, last := objects[..|objects| - 1], objects[|objects| - 1];
      Counted(rest, kind, id);
      assert objects == rest + [last];
    }
  }

  /** Every asset has its original and, if it names one, its thumbnail among the objects, each once, and there is no other object. */
  lemma ObjectsDepictAssets(d: Export)
    requires Accepted(d)
    ensures forall o :: o in d.objects ==> exists a :: a in d.assets && Depicts(o, a)
    ensures forall a :: a in d.assets ==> exists o :: o in d.objects && o.kind == "original" && Depicts(o, a)
    ensures forall a :: a in d.assets && a.thumbnailKey != "" ==> exists o :: o in d.objects && o.kind == "thumbnail" && Depicts(o, a)
    ensures forall o, q :: o in d.objects && q in d.objects && o.kind == q.kind && o.asset == q.asset ==> o == q
  {
    hide Accepted, Depicts;
    ObjectsOnce(d);
    forall o | o in d.objects ensures exists a :: a in d.assets && Depicts(o, a) { var a := AssetOfObject(d, o); }
    forall a | a in d.assets
      ensures exists o :: o in d.objects && o.kind == "original" && Depicts(o, a)
      ensures a.thumbnailKey != "" ==> exists o :: o in d.objects && o.kind == "thumbnail" && Depicts(o, a)
    {
      var o := ObjectOfAsset(d, a, "original");
      if a.thumbnailKey != "" {
        o := ObjectOfAsset(d, a, "thumbnail");
      }
    }
  }

  lemma AssetOfObject(d: Export, o: StoredObject) returns (a: Asset)
    requires Accepted(d) && o in d.objects
    ensures a in d.assets && Depicts(o, a) && o.asset in AssetsOf(d) && a == AssetsOf(d)[o.asset]
  {
    V.Indexed(d.assets, (x: Asset) => x.publicId);
    assert ((x: StoredObject) => ObjectValid(AssetsOf(d), x))(o);
    a := AssetsOf(d)[o.asset];
  }

  lemma ObjectOfAsset(d: Export, a: Asset, kind: string) returns (o: StoredObject)
    requires Accepted(d) && a in d.assets && (kind == "original" || (kind == "thumbnail" && a.thumbnailKey != ""))
    ensures o in d.objects && o.kind == kind && Depicts(o, a)
  {
    assert CountsMatch(d.objects, a);
    IsIndexed(d, a);
    Counted(d.objects, kind, a.publicId);
    o :| o in d.objects && o.kind == kind && o.asset == a.publicId;
    var same := AssetOfObject(d, o);
  }

  lemma ObjectsOnce(d: Export)
    requires Accepted(d)
    ensures forall o, q :: o in d.objects && q in d.objects && o.kind == q.kind && o.asset == q.asset ==> o == q
  {
    V.Indexed(d.assets, (a: Asset) => a.publicId);
    forall o, q | o in d.objects && q in d.objects && o.kind == q.kind && o.asset == q.asset ensures o == q {
      assert ((x: StoredObject) => ObjectValid(AssetsOf(d), x))(o);
      var a := AssetsOf(d)[o.asset];
      assert CountsMatch(d.objects, a);
      Counted(d.objects, o.kind, o.asset);
    }
  }

  lemma IsIndexed(d: Export, a: Asset)
    requires Accepted(d) && a in d.assets
    ensures a.publicId in AssetsOf(d) && AssetsOf(d)[a.publicId] == a
  {
    V.Indexed(d.assets, (x: Asset) => x.publicId);
    var other := AssetsOf(d)[a.publicId];
    var i :| 0 <= i < |d.assets| && d.assets[i] == a;
    var j :| 0 <= j < |d.assets| && d.assets[j] == other;
    if i != j {
      var low, high := if i < j then i else j, if i < j then j else i;
      V.OneClaimEach(d.assets, AssetClaims, low, high, ById(a.publicId));
    }
  }
}
