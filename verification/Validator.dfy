/** The validator of an export: its loops accept exactly what Dataset.Accepted says. */
module Validator {
  import opened Wrappers
  import opened Texts
  import opened Dataset

  // ---------- The loop all tables share ----------

  lemma {:induction false} ClaimsOfFirst<T>(xs: seq<T>, claims: T -> seq<Claim>, n: nat)
    requires n < |xs|
    ensures Claims(xs[..n + 1], claims) == Claims(xs[..n], claims) + claims(xs[n])
  {
    assert xs[..n + 1][..n] == xs[..n];
  }

  lemma {:induction false} ClaimsGrow<T>(xs: seq<T>, claims: T -> seq<Claim>, n: nat)
    requires n <= |xs|
    ensures Claims(xs[..n], claims) <= Claims(xs, claims)
    decreases |xs|
  {
    if n == |xs| {
      assert xs[..n] == xs;
    } else {
      var rest := xs[..|xs| - 1];
      ClaimsGrow(rest, claims, n);
      assert rest[..n] == xs[..n];
    }
  }

  lemma RepeatedClaim(taken: seq<Claim>, all: seq<Claim>, own: seq<Claim>, k: nat)
    requires k < |own| && taken + own <= all
    requires own[k] in taken || own[k] in own[..k]
    ensures !NoDuplicates(all)
  {
    assert own[k] in taken + own[..k];
    var i :| 0 <= i < |taken + own[..k]| && (taken + own[..k])[i] == own[k];
    assert all[i] == (taken + own)[i] && all[|taken| + k] == (taken + own)[|taken| + k];
  }

  lemma NewClaim(taken: seq<Claim>, c: Claim)
    requires NoDuplicates(taken) && c !in taken
    ensures NoDuplicates(taken + [c])
  {
  }

  /** Every row is checked, and what it claims must not be in the set of earlier claims. */
  method ValidateRows<T>(xs: seq<T>, valid: T -> bool, claims: T -> seq<Claim>) returns (ok: bool)
    ensures ok <==> RowsAccepted(xs, valid, claims)
  {
    var seen: set<Claim> := {};
    for i := 0 to |xs|
      invariant forall x :: x in xs[..i] ==> valid(x)
      invariant NoDuplicates(Claims(xs[..i], claims))
      invariant forall c :: c in seen <==> c in Claims(xs[..i], claims)
    {
      if !valid(xs[i]) {
        return false;
      }
      var own := claims(xs[i]);
      ghost var taken := Claims(xs[..i], claims);
      ClaimsOfFirst(xs, claims, i);
      ClaimsGrow(xs, claims, i + 1);
      for k := 0 to |own|
        invariant NoDuplicates(taken + own[..k])
        invariant forall c :: c in seen <==> c in taken || c in own[..k]
      {
        if own[k] in seen {
          RepeatedClaim(taken, Claims(xs, claims), own, k);
          return false;
        }
        NewClaim(taken + own[..k], own[k]);
        assert taken + own[..k + 1] == taken + own[..k] + [own[k]];
        seen := seen + {own[k]};
      }
      assert own[..|own|] == own;
    }
    assert xs[..|xs|] == xs;
    return true;
  }

  method ForEach<T>(xs: seq<T>, valid: T -> bool) returns (ok: bool)
    ensures ok <==> forall x :: x in xs ==> valid(x)
  {
    for i := 0 to |xs|
      invariant forall x :: x in xs[..i] ==> valid(x)
    {
      if !valid(xs[i]) {
        return false;
      }
    }
    return true;
  }

  // ---------- Objects ----------

  function Get(counts: map<string, nat>, id: string): nat {
    if id in counts then counts[id] else 0
  }

  method CountObjects(objects: seq<StoredObject>, kind: string) returns (counts: map<string, nat>)
    ensures forall id :: Get(counts, id) == CountOf(objects, kind, id)
  {
    counts := map[];
    for i := 0 to |objects|
      invariant forall id :: Get(counts, id) == CountOf(objects[..i], kind, id)
    {
      assert objects[..i + 1][..i] == objects[..i];
      if objects[i].kind == kind {
        counts := counts[objects[i].asset := Get(counts, objects[i].asset) + 1];
      }
    }
    assert objects[..|objects|] == objects;
  }

  method ValidateObjects(d: Export) returns (ok: bool)
    ensures ok <==> ObjectsAccepted(d)
  {
    var assets := AssetsOf(d);
    ok := ValidateRows(d.objects, (o: StoredObject) => ObjectValid(assets, o), ObjectClaims);
    if !ok { return; }
    var originals := CountObjects(d.objects, "original");
    var thumbnails := CountObjects(d.objects, "thumbnail");
    ok := ForEach(d.assets, (a: Asset) => Get(originals, a.publicId) == 1
                                          && Get(thumbnails, a.publicId) == if a.thumbnailKey != "" then 1 else 0);
    assert ok <==> forall a :: a in d.assets ==> CountsMatch(d.objects, a);
  }

  // ---------- The whole export ----------

  method ValidateEntities(d: Export) returns (ok: bool)
    ensures ok <==> EntitiesAccepted(d)
  {
    ok := ValidateRows(d.projects, ProjectValid, ProjectClaims);
    if !ok { return; }
    var projects, assets := ProjectsOf(d), AssetsOf(d);
    ok := ValidateRows(d.assets, (a: Asset) => AssetValid(projects, a), AssetClaims);
    if !ok { return; }
    ok := ForEach(d.projects, (p: Project) => ThumbnailValid(assets, p));
    if !ok { return; }
    ok := ForEach(d.assets, (a: Asset) => ParentsValid(assets, a));
    if !ok { return; }
    ok := ValidateRows(d.projectRefs, (r: ProjectRef) => ProjectRefValid(projects, assets, r), ProjectRefClaims);
    if !ok { return; }
    ok := ValidateRows(d.libraryItems, (x: LibraryItem) => LibraryItemValid(assets, x), LibraryItemClaims);
  }

  method ValidateEditor(d: Export) returns (ok: bool)
    ensures ok <==> EditorAccepted(d)
  {
    var projects, assets, documents := ProjectsOf(d), AssetsOf(d), DocumentsOf(d);
    ok := ValidateRows(d.documents, (x: Document) => DocumentValid(projects, assets, x), DocumentClaims);
    if !ok { return; }
    ok := ValidateRows(d.editorRefs, (r: EditorRef) => EditorRefValid(projects, assets, documents, r), EditorRefClaims);
    if !ok { return; }
    ok := ValidateRows(d.revisions, (r: Revision) => RevisionValid(projects, assets, documents, r), RevisionClaims);
  }

  method ValidateJobs(d: Export) returns (ok: bool)
    ensures ok <==> JobsAccepted(d)
  {
    var projects, assets, jobs := ProjectsOf(d), AssetsOf(d), JobsOf(d);
    ok := ValidateRows(d.jobs, (j: Job) => JobValid(projects, j), JobClaims);
    if !ok { return; }
    ok := ValidateRows(d.jobInputs, (x: JobInput) => JobInputValid(jobs, assets, x), JobInputClaims);
    if !ok { return; }
    ok := ValidateRows(d.jobResults, (x: JobResult) => JobResultValid(jobs, assets, x), JobResultClaims);
    if !ok { return; }
    ok := ValidateRows(d.mediaTasks, (x: MediaTask) => MediaTaskValid(projects, assets, x), MediaTaskClaims);
  }

  method ValidateDataset(d: Export) returns (ok: bool)
    ensures ok <==> Accepted(d)
  {
    ok := ValidateEntities(d);
    if !ok { return; }
    ok := ValidateEditor(d);
    if !ok { return; }
    ok := ValidateJobs(d);
    if !ok { return; }
    ok := ValidateObjects(d);
  }

  // ---------- Resolutions ----------

  datatype Unresolved = Unresolved(kind: string, publicId: string, status: string, phase: string)

  datatype Decision = Decision(kind: string, publicId: string, action: string, reason: string)

  type Key = (string, string)

  predicate UnresolvedValid(u: Unresolved) {
    u.kind in ["image_job", "legacy_media_task"] && ValidId(u.publicId) && !Blank(u.status) && !Blank(u.phase)
  }

  predicate DecisionValid(x: Decision) {
    x.action == "import_as_indeterminate_history" && !Blank(x.reason)
  }

  function KeyOf(u: Unresolved): Key { (u.kind, u.publicId) }

  function KeyOfDecision(x: Decision): Key { (x.kind, x.publicId) }

  ghost predicate DistinctKeys(us: seq<Unresolved>) {
    forall i, j :: 0 <= i < j < |us| ==> KeyOf(us[i]) != KeyOf(us[j])
  }

  ghost predicate DistinctDecisions(xs: seq<Decision>) {
    forall i, j :: 0 <= i < j < |xs| ==> KeyOfDecision(xs[i]) != KeyOfDecision(xs[j])
  }

  /** Every unresolved item has a decision, one only, and no decision is about anything else. */
  ghost predicate OneToOne(us: seq<Unresolved>, xs: seq<Decision>) {
    && DistinctDecisions(xs)
    && (forall u :: u in us ==> exists x :: x in xs && KeyOfDecision(x) == KeyOf(u))
    && (forall x :: x in xs ==> exists u :: u in us && KeyOfDecision(x) == KeyOf(u))
  }

  function Needed(us: seq<Unresolved>): set<Key> { set u | u in us :: KeyOf(u) }

  function Decided(xs: seq<Decision>): set<Key> { set x | x in xs :: KeyOfDecision(x) }

  method NeededKeys(us: seq<Unresolved>) returns (ok: bool, needed: set<Key>)
    ensures ok <==> (forall u :: u in us ==> UnresolvedValid(u)) && DistinctKeys(us)
    ensures ok ==> needed == Needed(us)
  {
    needed := {};
    for i := 0 to |us|
      invariant forall u :: u in us[..i] ==> UnresolvedValid(u)
      invariant DistinctKeys(us[..i]) && needed == Needed(us[..i])
    {
      if !UnresolvedValid(us[i]) {
        return false, needed;
      }
      if KeyOf(us[i]) in needed {
        var u :| u in us[..i] && KeyOf(u) == KeyOf(us[i]);
        return false, needed;
      }
      needed := needed + {KeyOf(us[i])};
      assert us[..i + 1] == us[..i] + [us[i]];
    }
    assert us[..|us|] == us;
    return true, needed;
  }

  method SeenKeys(xs: seq<Decision>, needed: set<Key>) returns (ok: bool, seen: set<Key>)
    ensures ok <==> (forall x :: x in xs ==> DecisionValid(x) && KeyOfDecision(x) in needed) && DistinctDecisions(xs)
    ensures ok ==> seen == Decided(xs)
  {
    seen := {};
    for i := 0 to |xs|
      invariant forall x :: x in xs[..i] ==> DecisionValid(x) && KeyOfDecision(x) in needed
      invariant DistinctDecisions(xs[..i]) && seen == Decided(xs[..i])
    {
      var key := KeyOfDecision(xs[i]);
      if key !in needed || !DecisionValid(xs[i]) {
        return false, seen;
      }
      if key in seen {
        var x :| x in xs[..i] && KeyOfDecision(x) == key;
        return false, seen;
      }
      seen := seen + {key};
      assert xs[..i + 1] == xs[..i] + [xs[i]];
    }
    assert xs[..|xs|] == xs;
    return true, seen;
  }

  lemma SameSize(small: set<Key>, large: set<Key>)
    requires small <= large
    ensures |small| == |large| <==> small == large
  {
    assert large == small + (large - small);
  }

  lemma DecidedIsNeeded(us: seq<Unresolved>, xs: seq<Decision>)
    requires DistinctDecisions(xs)
    ensures OneToOne(us, xs) <==> Decided(xs) == Needed(us)
  {
    if Decided(xs) == Needed(us) {
      assert forall x :: x in xs ==> KeyOfDecision(x) in Needed(us);
      assert forall u :: u in us ==> KeyOf(u) in Decided(xs);
    }
  }

  /** It compares only two sizes in the end; that is enough. */
  method ValidateResolutions(us: seq<Unresolved>, xs: seq<Decision>) returns (ok: bool)
    ensures ok <==>
      && (forall u :: u in us ==> u.kind in ["image_job", "legacy_media_task"] && ValidId(u.publicId) && !Blank(u.status) && !Blank(u.phase))
      && (forall i, j :: 0 <= i < j < |us| ==> (us[i].kind, us[i].publicId) != (us[j].kind, us[j].publicId))
      && (forall x :: x in xs ==> x.action == "import_as_indeterminate_history" && !Blank(x.reason))
      && (forall i, j :: 0 <= i < j < |xs| ==> (xs[i].kind, xs[i].publicId) != (xs[j].kind, xs[j].publicId))
      && (forall u :: u in us ==> exists x :: x in xs && (x.kind, x.publicId) == (u.kind, u.publicId))
      && (forall x :: x in xs ==> exists u :: u in us && (x.kind, x.publicId) == (u.kind, u.publicId))
  {
    var needed, seen;
    ok, needed := NeededKeys(us);
    if !ok { return; }
    ok, seen := SeenKeys(xs, needed);
    if ok {
      assert seen <= needed;
      SameSize(seen, needed);
      DecidedIsNeeded(us, xs);
      ok := |seen| == |needed|;
    } else if OneToOne(us, xs) {
      assert forall x :: x in xs ==> KeyOfDecision(x) in needed;
    }
  }

  // ---------- The object manifest ----------

  /** The target keys of the objects, and the keys that the assets name. */
  function TargetKeys(objects: seq<StoredObject>): set<string> {
    set o | o in objects :: o.targetKey
  }

  function KeysOf(a: Asset): set<string> {
    {a.objectKey} + if a.thumbnailKey != "" then {a.thumbnailKey} else {}
  }

  lemma {:induction false} CountedIsThere(objects: seq<StoredObject>, kind: string, id: string)
    ensures CountOf(objects, kind, id) > 0 <==> exists o :: o in objects && o.kind == kind && o.asset == id
  {
    if objects != [] {
      var rest, last := objects[..|objects| - 1], objects[|objects| - 1];
      CountedIsThere(rest, kind, id);
      assert objects == rest + [last];
    }
  }

  lemma {:induction false} Indexed<T>(xs: seq<T>, name: T -> string)
    ensures forall k :: k in IndexBy(xs, name) <==> exists x :: x in xs && name(x) == k
    ensures forall k :: k in IndexBy(xs, name) ==> IndexBy(xs, name)[k] in xs && name(IndexBy(xs, name)[k]) == k
  {
    if xs != [] {
      var rest, last := xs[..|xs| - 1], xs[|xs| - 1];
      Indexed(rest, name);
      assert xs == rest + [last];
    }
  }

  lemma {:induction false} ObjectClaimsAt(objects: seq<StoredObject>)
    ensures |Claims(objects, ObjectClaims)| == |objects|
    ensures forall i :: 0 <= i < |objects| ==> Claims(objects, ObjectClaims)[i] == ByObject(objects[i].targetKey)
  {
    if objects != [] {
      ObjectClaimsAt(objects[..|objects| - 1]);
    }
  }

  ghost predicate AllObjectsValid(d: Export) {
    forall o :: o in d.objects ==> ObjectValid(AssetsOf(d), o)
  }

  ghost predicate DistinctTargets(objects: seq<StoredObject>) {
    forall i, j :: 0 <= i < j < |objects| ==> objects[i].targetKey != objects[j].targetKey
  }

  ghost predicate Bijection(d: Export) {
    DistinctTargets(d.objects) && TargetKeys(d.objects) == set a, key | a in d.assets && key in KeysOf(a) :: key
  }

  /**
   The validator counts the objects of each asset and compares keys. That accepts valid objects exactly when
   they are the originals and thumbnails of the assets, each once: every key an asset names is the key of one
   object, and there are no other objects.
  */
  lemma ManifestIsBijection(d: Export)
    requires EntitiesAccepted(d) && AllObjectsValid(d)
    ensures ObjectsAccepted(d) <==> Bijection(d)
  {
    ObjectClaimsAt(d.objects);
    if ObjectsAccepted(d) {
      forall i, j | 0 <= i < j < |d.objects| ensures d.objects[i].targetKey != d.objects[j].targetKey {
        assert Claims(d.objects, ObjectClaims)[i] != Claims(d.objects, ObjectClaims)[j];
      }
      SameKeys(d);
    }
    if Bijection(d) {
      forall a | a in d.assets ensures CountsMatch(d.objects, a) {
        CountedOnce(d, a);
      }
      ClaimsDistinct(d.objects);
    }
  }

  lemma ClaimsDistinct(objects: seq<StoredObject>)
    requires DistinctTargets(objects)
    ensures NoDuplicates(Claims(objects, ObjectClaims))
  {
    ObjectClaimsAt(objects);
  }

  lemma SameKeys(d: Export)
    requires EntitiesAccepted(d) && AllObjectsValid(d) && forall a :: a in d.assets ==> CountsMatch(d.objects, a)
    ensures TargetKeys(d.objects) == set a, key | a in d.assets && key in KeysOf(a) :: key
  {
    forall key
      ensures key in TargetKeys(d.objects) <==> exists a :: a in d.assets && key in KeysOf(a)
    {
      if key in TargetKeys(d.objects) {
        var o :| o in d.objects && o.targetKey == key;
        var a := CarriesItsKey(d, o);
      }
      if a :| a in d.assets && key in KeysOf(a) {
        var o := KeyIsCarried(d, a, key);
      }
    }
  }

  lemma CarriesItsKey(d: Export, o: StoredObject) returns (a: Asset)
    requires AllObjectsValid(d) && o in d.objects
    ensures a in d.assets && a.publicId == o.asset && o.targetKey in KeysOf(a) && o.targetKey != ""
    ensures o.targetKey == if o.kind == "original" then a.objectKey else a.thumbnailKey
  {
    Indexed(d.assets, (a: Asset) => a.publicId);
    assert ObjectValid(AssetsOf(d), o);
    a := AssetsOf(d)[o.asset];
  }

  lemma KeyIsCarried(d: Export, a: Asset, key: string) returns (o: StoredObject)
    requires EntitiesAccepted(d) && AllObjectsValid(d) && a in d.assets && CountsMatch(d.objects, a) && key in KeysOf(a)
    ensures o in d.objects && o.targetKey == key
  {
    var kind := if key == a.objectKey then "original" else "thumbnail";
    CountedIsThere(d.objects, kind, a.publicId);
    o :| o in d.objects && o.kind == kind && o.asset == a.publicId;
    assert ObjectValid(AssetsOf(d), o);
    UniqueAssets(d, a);
  }

  lemma UniqueAssets(d: Export, a: Asset)
    requires EntitiesAccepted(d) && a in d.assets
    ensures a.publicId in AssetsOf(d) && AssetsOf(d)[a.publicId] == a
  {
    Indexed(d.assets, (x: Asset) => x.publicId);
    SharedClaim(d, a, AssetsOf(d)[a.publicId], ById(a.publicId));
  }

  /** Assets that claim the same are the same. */
  lemma SharedClaim(d: Export, a: Asset, b: Asset, c: Claim)
    requires EntitiesAccepted(d) && a in d.assets && b in d.assets && c in AssetClaims(a) && c in AssetClaims(b)
    ensures a == b
  {
    var i :| 0 <= i < |d.assets| && d.assets[i] == a;
    var j :| 0 <= j < |d.assets| && d.assets[j] == b;
    if i != j {
      var low, high := if i < j then i else j, if i < j then j else i;
      OneClaimEach(d.assets, AssetClaims, low, high, c);
    }
  }

  lemma TwoKeys(d: Export, a: Asset)
    requires EntitiesAccepted(d) && a in d.assets
    ensures a.objectKey != a.thumbnailKey && a.objectKey != ""
  {
    var i :| 0 <= i < |d.assets| && d.assets[i] == a;
    assert ((x: Asset) => AssetValid(ProjectsOf(d), x))(a);
    if a.objectKey == a.thumbnailKey {
      ClaimsOfFirst(d.assets, AssetClaims, i);
      ClaimsGrow(d.assets, AssetClaims, i + 1);
      RepeatedClaim(Claims(d.assets[..i], AssetClaims), Claims(d.assets, AssetClaims), AssetClaims(a), 2);
    }
  }

  lemma {:induction false} CountsAtMostOne(objects: seq<StoredObject>, kind: string, id: string)
    requires forall i, j :: (0 <= i < j < |objects| && objects[i].kind == objects[j].kind == kind) ==>
                              objects[i].asset != id || objects[j].asset != id
    ensures CountOf(objects, kind, id) <= 1
  {
    if objects != [] {
      var rest, last := objects[..|objects| - 1], objects[|objects| - 1];
      CountsAtMostOne(rest, kind, id);
      if last.kind == kind && last.asset == id {
        CountedIsThere(rest, kind, id);
      }
    }
  }

  /** In a bijection an asset has one object for each key it names. */
  lemma CountedOnce(d: Export, a: Asset)
    requires EntitiesAccepted(d) && AllObjectsValid(d) && Bijection(d) && a in d.assets
    ensures CountsMatch(d.objects, a)
  {
    OfItsKind(d, a, "original");
    OfItsKind(d, a, "thumbnail");
    TwoKeys(d, a);
  }

  lemma OfItsKind(d: Export, a: Asset, kind: string)
    requires EntitiesAccepted(d) && AllObjectsValid(d) && Bijection(d) && a in d.assets && kind in ["original", "thumbnail"]
    ensures CountOf(d.objects, kind, a.publicId) ==
            if (if kind == "original" then a.objectKey else a.thumbnailKey) != "" then 1 else 0
  {
    var key := if kind == "original" then a.objectKey else a.thumbnailKey;
    forall o | o in d.objects && o.kind == kind && o.asset == a.publicId ensures o.targetKey == key != "" {
      var b := CarriesItsKey(d, o);
      SharedClaim(d, a, b, ById(a.publicId));
    }
    CountsAtMostOne(d.objects, kind, a.publicId);
    CountedIsThere(d.objects, kind, a.publicId);
    if key != "" {
      var o := CarrierOf(d, a, kind, key);
    }
  }

  lemma CarrierOf(d: Export, a: Asset, kind: string, key: string) returns (o: StoredObject)
    requires EntitiesAccepted(d) && AllObjectsValid(d) && Bijection(d) && a in d.assets && kind in ["original", "thumbnail"]
    requires key != "" && key == if kind == "original" then a.objectKey else a.thumbnailKey
    ensures o in d.objects && o.kind == kind && o.asset == a.publicId
  {
    assert key in KeysOf(a);
    assert key in TargetKeys(d.objects);
    o :| o in d.objects && o.targetKey == key;
    var b := CarriesItsKey(d, o);
    SharedClaim(d, a, b, ByObject(key));
    TwoKeys(d, a);
    assert ObjectValid(AssetsOf(d), o);
  }

  /** No two rows of an accepted list claim the same. */
  lemma {:induction false} OneClaimEach<T>(xs: seq<T>, claims: T -> seq<Claim>, i: nat, j: nat, c: Claim)
    requires i < j < |xs| && c in claims(xs[i]) && c in claims(xs[j])
    ensures !NoDuplicates(Claims(xs, claims))
  {
    var first := Claims(xs[..j], claims);
    ClaimsOfFirst(xs, claims, i);
    ClaimsGrow(xs[..j], claims, i + 1);
    assert xs[..j][..i + 1] == xs[..i + 1];
    var k :| 0 <= k < |claims(xs[i])| && claims(xs[i])[k] == c;
    assert first[|Claims(xs[..i], claims)| + k] == (Claims(xs[..i], claims) + claims(xs[i]))[|Claims(xs[..i], claims)| + k];
    ClaimsOfFirst(xs, claims, j);
    ClaimsGrow(xs, claims, j + 1);
    var p :| 0 <= p < |first| && first[p] == c;
    var q :| 0 <= q < |claims(xs[j])| && claims(xs[j])[q] == c;
    var all := Claims(xs, claims);
    assert all[p] == (first + claims(xs[j]))[p] && all[|first| + q] == (first + claims(xs[j]))[|first| + q];
  }
}
