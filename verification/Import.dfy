/**
 The import: the loops of INSERT statements in their order, with thumbnails set after the assets they
 name, then the comparison with what the target reads as. Proved on the rows as they are read, through
 the refinement in Relational.
*/
module Import {
  import opened Wrappers
  import opened Relational
  import opened RowOrder
  import opened TargetDataset
  import D = Dataset
  import V = Validator
  import IR = ImportRows
  import A = AcceptedRows

  // ---------- A loop of statements ----------

  function InsertFirst(db: Db, t: Table, items: seq<Item>, n: nat): Option<Db>
    requires n <= |items| && forall i :: 0 <= i < |items| ==> Shaped(t, items[i])
  {
    if n == 0 then Some(db)
    else
      match InsertFirst(db, t, items, n - 1)
      case None => None
      case Some(before) => Insert(before, t, items[n - 1])
  }

  function MergeFirst(t: Table, view: seq<Item>, items: seq<Item>, n: nat): Option<seq<Item>>
    requires n <= |items|
  {
    if n == 0 then Some(view)
    else
      match MergeFirst(t, view, items, n - 1)
      case None => None
      case Some(before) => Merge(t, before, items[n - 1])
  }

  function MergeAll(t: Table, view: seq<Item>, items: seq<Item>): Option<seq<Item>> {
    MergeFirst(t, view, items, |items|)
  }

  lemma {:induction false} MergeGrows(t: Table, view: seq<Item>, items: seq<Item>, n: nat)
    requires n <= |items| && MergeFirst(t, view, items, n).Some?
    ensures view <= MergeFirst(t, view, items, n).value
    ensures forall i :: 0 <= i < n ==> Shaped(t, items[i]) ==> KnownKey(t, MergeFirst(t, view, items, n).value, items[i])
  {
    if n > 0 {
      MergeGrows(t, view, items, n - 1);
      var before, after := MergeFirst(t, view, items, n - 1).value, MergeFirst(t, view, items, n).value;
      assert before <= after;
      forall i | 0 <= i < n && Shaped(t, items[i])
        ensures KnownKey(t, after, items[i])
      {
        if i < n - 1 {
          var k :| 0 <= k < |before| && SameItemKey(t, before[k], items[i]);
          assert SameItemKey(t, after[k], items[i]);
        } else if !KnownKey(t, before, items[i]) {
          assert SameItemKey(t, after[|before|], items[i]);
        }
      }
    }
  }

  lemma StaysResolvable(db: Db, db': Db, t: Table, view: seq<Item>, u: Table, item: Item)
    requires Resolvable(db, u, item) && Changed(db, db', t, view) && Read(db, t) <= view
    ensures Resolvable(db', u, item)
  {
    forall i | 0 <= i < |item.refs|
      ensures RefResolves(db', Links(u)[i], item.refs[i])
    {
      var v, name := Links(u)[i].table, item.refs[i];
      assert RefResolves(db, Links(u)[i], name);
      if name != "" {
        StaysNamed(Read(db, v), Read(db', v), name);
      }
    }
  }

  lemma StaysNamed(view: seq<Item>, view': seq<Item>, name: string)
    requires Named(view, name) && view <= view'
    ensures Named(view', name)
  {
    var k :| 0 <= k < |view| && view[k].key == [PublicId(name)];
    assert view'[k].key == [PublicId(name)];
  }

  ghost predicate Ready(db: Db, t: Table, items: seq<Item>) {
    forall i :: 0 <= i < |items| ==> Resolvable(db, t, items[i]) && WellNamed(t, items[i])
  }

  lemma OneStatement(db: Db, before: Db, t: Table, view: seq<Item>, item: Item)
    requires DbOk(before) && Changed(db, before, t, view) && Read(db, t) <= view
    requires Resolvable(db, t, item) && WellNamed(t, item)
    ensures var db', view' := Insert(before, t, item), Merge(t, view, item);
            && (db'.None? <==> view'.None?)
            && (db'.Some? ==> DbOk(db'.value) && Changed(db, db'.value, t, view'.value))
  {
    StaysResolvable(db, before, t, view, t, item);
    InsertRefines(before, t, item);
  }

  /** What a number of statements leave. */
  ghost predicate Loops(db: Db, t: Table, db': Option<Db>, view': Option<seq<Item>>) {
    match view'
    case None => db'.None?
    case Some(view) => db'.Some? && DbOk(db'.value) && Changed(db, db'.value, t, view)
  }

  lemma NothingDone(db: Db, t: Table)
    requires DbOk(db)
    ensures Loops(db, t, Some(db), Some(Read(db, t)))
  {
  }

  lemma LoopGoesOn(db: Db, t: Table, before: Db, view: seq<Item>, item: Item)
    requires Loops(db, t, Some(before), Some(view)) && Read(db, t) <= view
    requires Resolvable(db, t, item) && WellNamed(t, item)
    ensures Loops(db, t, Insert(before, t, item), Merge(t, view, item))
    ensures Insert(before, t, item).None? <==> Merge(t, view, item).None?
  {
    OneStatement(db, before, t, view, item);
  }

  lemma ReadyAt(db: Db, t: Table, items: seq<Item>, i: nat)
    requires Ready(db, t, items) && i < |items|
    ensures Resolvable(db, t, items[i]) && WellNamed(t, items[i])
  {
  }

  /** A loop of statements does what the merges do. */
  lemma {:induction false} LoopRefines(db: Db, t: Table, items: seq<Item>, n: nat) returns (db': Option<Db>, view': Option<seq<Item>>)
    requires DbOk(db) && Ready(db, t, items) && n <= |items|
    ensures db' == InsertFirst(db, t, items, n) && view' == MergeFirst(t, Read(db, t), items, n)
    ensures Loops(db, t, db', view') && (db'.None? <==> view'.None?)
  {
    hide DbOk, Loops, Insert, Merge, Ready, Resolvable, WellNamed;
    if n == 0 {
      NothingDone(db, t);
      db', view' := Some(db), Some(Read(db, t));
    } else {
      var before, view := LoopRefines(db, t, items, n - 1);
      if view.None? {
        db', view' := None, None;
      } else {
        MergeGrows(t, Read(db, t), items, n - 1);
        ReadyAt(db, t, items, n - 1);
        LoopGoesOn(db, t, before.value, view.value, items[n - 1]);
        db', view' := Insert(before.value, t, items[n - 1]), Merge(t, view.value, items[n - 1]);
      }
    }
  }

  // ---------- Merging into nothing, and again ----------

  function ReadItems(items: seq<Item>): seq<Item> {
    seq(|items|, i requires 0 <= i < |items| => AsRead(items[i]))
  }

  /** Into an empty table everything goes in its order; the only error is a value that does not fit. */
  lemma {:induction false} MergeIntoEmpty(t: Table, items: seq<Item>, n: nat)
    requires n <= |items| && A.SecondsDistinct(t, items)
    ensures MergeFirst(t, [], items, n).None? <==> exists i :: 0 <= i < n && !HoldsItem(t, items[i])
    ensures MergeFirst(t, [], items, n).Some? ==>
      var view := MergeFirst(t, [], items, n).value;
      && |view| <= n && (|view| == n <==> A.KeysDistinct(t, items[..n])) && (|view| == n ==> view == ReadItems(items[..n]))
      && forall v :: v in view ==> exists k :: 0 <= k < n && v == AsRead(items[k])
  {
    if n > 0 {
      MergeIntoEmpty(t, items, n - 1);
      assert items[..n] == items[..n - 1] + [items[n - 1]];
      if MergeFirst(t, [], items, n - 1).Some? {
        MergeNext(t, MergeFirst(t, [], items, n - 1).value, items, n);
      }
    }
  }

  lemma NoSecondClash(t: Table, view: seq<Item>, items: seq<Item>, n: nat)
    requires 0 < n <= |items| && A.SecondsDistinct(t, items)
    requires forall v :: v in view ==> exists k :: 0 <= k < n - 1 && v == AsRead(items[k])
    ensures !KnownSecond(t, view, items[n - 1])
  {
    forall j | 0 <= j < |view|
      ensures !SameItemSecond(t, view[j], items[n - 1])
    {
      assert view[j] in view;
      var k :| 0 <= k < n - 1 && view[j] == AsRead(items[k]);
      assert !SameItemSecond(t, items[k], items[n - 1]);
    }
  }

  lemma ReadKeys(t: Table, items: seq<Item>, item: Item)
    ensures KnownKey(t, ReadItems(items), item) <==> KnownKey(t, items, item)
  {
    forall k | 0 <= k < |items|
      ensures SameItemKey(t, ReadItems(items)[k], item) <==> SameItemKey(t, items[k], item)
    {
    }
  }

  lemma MergeNext(t: Table, view: seq<Item>, items: seq<Item>, n: nat)
    requires 0 < n <= |items| && A.SecondsDistinct(t, items)
    requires |view| <= n - 1 && (|view| == n - 1 <==> A.KeysDistinct(t, items[..n - 1]))
    requires |view| == n - 1 ==> view == ReadItems(items[..n - 1])
    requires forall v :: v in view ==> exists k :: 0 <= k < n - 1 && v == AsRead(items[k])
    ensures Merge(t, view, items[n - 1]).None? <==> !HoldsItem(t, items[n - 1])
    ensures Merge(t, view, items[n - 1]).Some? ==>
      var view' := Merge(t, view, items[n - 1]).value;
      && |view'| <= n && (|view'| == n <==> A.KeysDistinct(t, items[..n])) && (|view'| == n ==> view' == ReadItems(items[..n]))
      && forall v :: v in view' ==> exists k :: 0 <= k < n && v == AsRead(items[k])
  {
    var item, first := items[n - 1], items[..n - 1];
    NoSecondClash(t, view, items, n);
    assert items[..n] == first + [item];
    FewerKeys(t, first, item);
    if |view| == n - 1 {
      ReadKeys(t, first, item);
      OneMoreKey(t, first, item);
      assert ReadItems(first + [item]) == ReadItems(first) + [AsRead(item)];
    }
  }

  lemma OneMoreKey(t: Table, items: seq<Item>, item: Item)
    requires A.KeysDistinct(t, items)
    ensures A.KeysDistinct(t, items + [item]) <==> !KnownKey(t, items, item)
  {
    var more := items + [item];
    if KnownKey(t, items, item) {
      var k :| 0 <= k < |items| && SameItemKey(t, items[k], item);
      assert SameItemKey(t, more[k], more[|items|]);
    } else {
      forall i, j | 0 <= i < j < |more| ensures !SameItemKey(t, more[i], more[j]) {
        if j < |items| {
          assert !SameItemKey(t, items[i], items[j]);
        } else {
          assert !SameItemKey(t, items[i], item);
        }
      }
    }
  }

  lemma FewerKeys(t: Table, items: seq<Item>, item: Item)
    ensures A.KeysDistinct(t, items + [item]) ==> A.KeysDistinct(t, items)
  {
    if A.KeysDistinct(t, items + [item]) {
      forall i, j | 0 <= i < j < |items| ensures !SameItemKey(t, items[i], items[j]) {
        assert !SameItemKey(t, (items + [item])[i], (items + [item])[j]);
      }
    }
  }

  /** Into a table that has every key nothing goes. */
  lemma {:induction false} MergeAgain(t: Table, view: seq<Item>, items: seq<Item>, n: nat)
    requires n <= |items| && forall i :: 0 <= i < |items| ==> HoldsItem(t, items[i]) && KnownKey(t, view, items[i])
    ensures MergeFirst(t, view, items, n) == Some(view)
  {
    if n > 0 {
      MergeAgain(t, view, items, n - 1);
    }
  }

  // ---------- Thumbnails ----------

  /** The UPDATE loop: projects without a thumbnail are skipped. */
  function Illustrate(db: Db, ps: seq<D.Project>, n: nat): Db
    requires n <= |ps|
  {
    if n == 0 then db
    else
      var before := Illustrate(db, ps, n - 1);
      if ps[n - 1].thumbnail == "" then before else SetThumbnail(before, ps[n - 1].publicId, ps[n - 1].thumbnail)
  }

  function MergeThumbnails(view: seq<Item>, ps: seq<D.Project>, n: nat): (r: seq<Item>)
    requires n <= |ps|
    ensures |r| == |view| && forall i :: 0 <= i < |view| ==> r[i].key == view[i].key
  {
    if n == 0 then view
    else
      var before := MergeThumbnails(view, ps, n - 1);
      if ps[n - 1].thumbnail == "" then before else MergeThumbnail(before, ps[n - 1].publicId, ps[n - 1].thumbnail)
  }

  lemma OneThumbnail(db: Db, before: Db, view: seq<Item>, project: string, asset: string)
    requires DbOk(before) && Changed(db, before, Projects, view) && asset != "" && Named(Read(db, Assets), asset)
    ensures DbOk(SetThumbnail(before, project, asset))
    ensures Changed(db, SetThumbnail(before, project, asset), Projects, MergeThumbnail(view, project, asset))
  {
    ThumbnailRefines(before, project, asset);
  }

  predicate HasThumbnail(db: Db, p: D.Project) {
    p.thumbnail != "" ==> Named(Read(db, Assets), p.thumbnail)
  }

  /** The target after some of the updates. */
  ghost predicate Illustrated(db: Db, ps: seq<D.Project>, n: nat, db': Db)
    requires n <= |ps|
  {
    Loops(db, Projects, Some(db'), Some(MergeThumbnails(Read(db, Projects), ps, n)))
  }

  lemma NextThumbnail(db: Db, ps: seq<D.Project>, n: nat, before: Db)
    requires n < |ps| && Illustrated(db, ps, n, before) && HasThumbnail(db, ps[n])
    ensures Illustrated(db, ps, n + 1, if ps[n].thumbnail == "" then before else SetThumbnail(before, ps[n].publicId, ps[n].thumbnail))
  {
    if ps[n].thumbnail != "" {
      OneThumbnail(db, before, MergeThumbnails(Read(db, Projects), ps, n), ps[n].publicId, ps[n].thumbnail);
    }
  }

  ghost predicate AllHave(db: Db, ps: seq<D.Project>) {
    forall p :: p in ps ==> HasThumbnail(db, p)
  }

  lemma ThisHas(db: Db, ps: seq<D.Project>, n: nat)
    requires AllHave(db, ps) && n < |ps|
    ensures HasThumbnail(db, ps[n])
  {
  }

  lemma {:induction false} ThumbnailsRefine(db: Db, ps: seq<D.Project>, n: nat) returns (db': Db)
    requires DbOk(db) && n <= |ps| && AllHave(db, ps)
    ensures db' == Illustrate(db, ps, n) && Illustrated(db, ps, n, db')
  {
    hide DbOk, Loops, SetThumbnail, MergeThumbnail, HasThumbnail;
    if n == 0 {
      NothingDone(db, Projects);
      db' := db;
    } else {
      ThisHas(db, ps, n - 1);
      var before := ThumbnailsRefine(db, ps, n - 1);
      NextThumbnail(db, ps, n - 1, before);
      db' := if ps[n - 1].thumbnail == "" then before else SetThumbnail(before, ps[n - 1].publicId, ps[n - 1].thumbnail);
    }
  }

  // ---------- The order of the import ----------

  datatype Stage = Rows(table: Table) | Thumbnails

  const STAGES: seq<Stage> := [
    Rows(Projects), Rows(Assets), Rows(AssetParents), Thumbnails, Rows(ProjectRefs), Rows(LibraryItems),
    Rows(EditorDocuments), Rows(EditorRefs), Rows(EditorRevisions), Rows(Jobs), Rows(JobInputs), Rows(JobResults), Rows(MediaTasks)]

  function Position(t: Table): (k: nat)
    ensures k < |STAGES| && STAGES[k] == Rows(t)
  {
    match t
    case Projects => 0
    case Assets => 1
    case AssetParents => 2
    case ProjectRefs => 4
    case LibraryItems => 5
    case EditorDocuments => 6
    case EditorRefs => 7
    case EditorRevisions => 8
    case Jobs => 9
    case JobInputs => 10
    case JobResults => 11
    case MediaTasks => 12
  }

  const THUMBNAIL_STAGE: nat := 3

  function RunStage(db: Db, d: D.Export, stage: Stage): Option<Db> {
    match stage
    case Rows(t) =>
      A.SentShaped(d, t);
      InsertFirst(db, t, IR.Sent(d, t), |IR.Sent(d, t)|)
    case Thumbnails => Some(Illustrate(db, d.projects, |d.projects|))
  }

  function RunStages(db: Db, d: D.Export, k: nat): Option<Db>
    requires k <= |STAGES|
  {
    if k == 0 then Some(db)
    else
      match RunStages(db, d, k - 1)
      case None => None
      case Some(before) => RunStage(before, d, STAGES[k - 1])
  }

  /** How a table reads after some stages, from how it read before. */
  function ViewAt(view: seq<Item>, d: D.Export, t: Table, k: nat): seq<Item> {
    var merged := MergeAll(t, view, IR.Sent(d, t));
    if k <= Position(t) || merged.None? then view
    else if t == Projects && k > THUMBNAIL_STAGE then MergeThumbnails(merged.value, d.projects, |d.projects|)
    else merged.value
  }

  predicate Clashes(db: Db, d: D.Export, t: Table) {
    MergeAll(t, Read(db, t), IR.Sent(d, t)).None?
  }

  ghost predicate SomeClash(db: Db, d: D.Export, k: nat) {
    exists t: Table :: Position(t) < k && Clashes(db, d, t)
  }

  ghost predicate ReadsAs(db: Db, d: D.Export, k: nat, db': Db) {
    DbOk(db') && forall t: Table :: Read(db', t) == ViewAt(Read(db, t), d, t, k)
  }

  /** Every table that others refer to comes before them; only thumbnails point forward. */
  lemma ReferentsFirst(t: Table, i: nat)
    requires i < |Links(t)| && t != Projects
    ensures Position(Links(t)[i].table) < Position(t)
  {
  }

  /** What the statements rely on: every row refers to rows of the export, and these are sent before it. */
  ghost predicate Consistent(d: D.Export) {
    && (forall t: Table, item :: item in IR.Sent(d, t) ==> A.Referring(d, t, item))
    && (forall t: Table, id :: id in A.Ids(d, t) ==> Named(IR.Sent(d, t), id))
    && forall p :: p in d.projects && p.thumbnail != "" ==> p.thumbnail in A.Ids(d, Assets)
  }

  lemma AcceptedIsConsistent(d: D.Export)
    requires D.Accepted(d)
    ensures Consistent(d)
  {
    forall t: Table, item | item in IR.Sent(d, t) ensures A.Referring(d, t, item) { A.AcceptedRefs(d, t, item); }
    forall t: Table, id | id in A.Ids(d, t) ensures Named(IR.Sent(d, t), id) { A.IdsAreSent(d, t, id); }
    forall p | p in d.projects && p.thumbnail != "" ensures p.thumbnail in A.Ids(d, Assets) {
      assert D.ThumbnailValid(D.AssetsOf(d), p);
    }
  }

  /** What was sent can be read. */
  lemma NamedWhenMerged(t: Table, view: seq<Item>, sent: seq<Item>, name: string)
    requires Named(sent, name) && MergeAll(t, view, sent).Some? && forall i :: 0 <= i < |sent| ==> Shaped(t, sent[i])
    ensures Named(MergeAll(t, view, sent).value, name)
  {
    MergeGrows(t, view, sent, |sent|);
    var i :| 0 <= i < |sent| && sent[i].key == [PublicId(name)];
    var merged := MergeAll(t, view, sent).value;
    assert KnownKey(t, merged, sent[i]);
    var j :| 0 <= j < |merged| && SameItemKey(t, merged[j], sent[i]);
    assert merged[j].key == [PublicId(name)];
  }

  /** A public id of the export can be read once its table is done. */
  lemma NamedAfter(view: seq<Item>, d: D.Export, u: Table, id: string, k: nat)
    requires Consistent(d) && id in A.Ids(d, u) && Position(u) < k && MergeAll(u, view, IR.Sent(d, u)).Some?
    ensures Named(ViewAt(view, d, u, k), id)
  {
    A.SentShaped(d, u);
    NamedWhenMerged(u, view, IR.Sent(d, u), id);
    var merged := MergeAll(u, view, IR.Sent(d, u)).value;
    var j :| 0 <= j < |merged| && merged[j].key == [PublicId(id)];
    assert ViewAt(view, d, u, k)[j].key == [PublicId(id)];
  }

  /** When its turn comes, every row of a table finds its referents. */
  lemma ReadyInTurn(db: Db, d: D.Export, db': Db, t: Table)
    requires Consistent(d) && ReadsAs(db, d, Position(t), db') && !SomeClash(db, d, Position(t))
    ensures Ready(db', t, IR.Sent(d, t))
  {
    var sent := IR.Sent(d, t);
    forall i | 0 <= i < |sent|
      ensures Resolvable(db', t, sent[i]) && WellNamed(t, sent[i])
    {
      assert sent[i] in sent && A.Referring(d, t, sent[i]);
      if t == Projects {
        var p := A.MappedFrom(d.projects, IR.Unillustrated, sent[i]);
      }
      FindsReferents(db, d, db', t, sent[i]);
    }
  }

  lemma FindsReferents(db: Db, d: D.Export, db': Db, t: Table, item: Item)
    requires Consistent(d) && ReadsAs(db, d, Position(t), db') && !SomeClash(db, d, Position(t))
    requires A.Referring(d, t, item) && (t == Projects ==> item.refs == [""])
    ensures Resolvable(db', t, item)
  {
    forall i | 0 <= i < |item.refs|
      ensures RefResolves(db', Links(t)[i], item.refs[i])
    {
      var u, name := Links(t)[i].table, item.refs[i];
      assert A.RefKnown(d, Links(t)[i], name);
      if name != "" {
        ReferentsFirst(t, i);
        assert !Clashes(db, d, u);
        NamedAfter(Read(db, u), d, u, name, Position(t));
      }
    }
  }

  // ---------- Every stage ----------

  lemma RowsStage(db: Db, d: D.Export, db': Db, t: Table)
    requires Consistent(d) && ReadsAs(db, d, Position(t), db') && !SomeClash(db, d, Position(t))
    ensures var after := RunStage(db', d, Rows(t));
            && (after.None? <==> Clashes(db, d, t))
            && (after.Some? ==> ReadsAs(db, d, Position(t) + 1, after.value))
  {
    hide DbOk, Read, Consistent, Ready;
    ReadyInTurn(db, d, db', t);
    var after, view := LoopRefines(db', t, IR.Sent(d, t), |IR.Sent(d, t)|);
    if after.Some? {
      forall u: Table
        ensures Read(after.value, u) == ViewAt(Read(db, u), d, u, Position(t) + 1)
      {
        if u != t {
          OtherPosition(Read(db, u), d, u, t);
        }
      }
    }
  }

  lemma OnlyPosition(k: nat, t: Table)
    requires k < |STAGES| && STAGES[k] == Rows(t)
    ensures Position(t) == k
  {
  }

  lemma OtherPosition(view: seq<Item>, d: D.Export, u: Table, t: Table)
    requires u != t
    ensures ViewAt(view, d, u, Position(t) + 1) == ViewAt(view, d, u, Position(t))
  {
    assert STAGES[Position(t)] == Rows(t);
  }

  lemma ThumbnailsAreThere(db: Db, d: D.Export, db': Db)
    requires Consistent(d) && ReadsAs(db, d, THUMBNAIL_STAGE, db') && !SomeClash(db, d, THUMBNAIL_STAGE)
    ensures AllHave(db', d.projects)
  {
    forall p | p in d.projects
      ensures HasThumbnail(db', p)
    {
      assert !Clashes(db, d, Assets);
      if p.thumbnail != "" {
        NamedAfter(Read(db, Assets), d, Assets, p.thumbnail, THUMBNAIL_STAGE);
      }
    }
  }

  lemma ThumbnailStage(db: Db, d: D.Export, db': Db)
    requires Consistent(d) && ReadsAs(db, d, THUMBNAIL_STAGE, db') && !SomeClash(db, d, THUMBNAIL_STAGE)
    ensures ReadsAs(db, d, THUMBNAIL_STAGE + 1, Illustrate(db', d.projects, |d.projects|))
  {
    hide DbOk, Read, Consistent, HasThumbnail, AllHave, Illustrate;
    ThumbnailsAreThere(db, d, db');
    assert !Clashes(db, d, Projects);
    var after := ThumbnailsRefine(db', d.projects, |d.projects|);
  }

  ghost predicate Refined(db: Db, d: D.Export, k: nat)
    requires k <= |STAGES|
  {
    && (RunStages(db, d, k).None? <==> SomeClash(db, d, k))
    && (RunStages(db, d, k).Some? ==> ReadsAs(db, d, k, RunStages(db, d, k).value))
  }

  /** The statements, run in their order on any sound target, do what the merges do. */
  lemma {:induction false} StagesRefine(db: Db, d: D.Export, k: nat)
    requires DbOk(db) && Consistent(d) && k <= |STAGES|
    ensures Refined(db, d, k)
  {
    if k > 0 {
      StagesRefine(db, d, k - 1);
      OneMoreStage(db, d, k - 1);
    }
  }

  lemma OneMoreStage(db: Db, d: D.Export, k: nat)
    requires Consistent(d) && k < |STAGES| && Refined(db, d, k)
    ensures Refined(db, d, k + 1)
  {
    if RunStages(db, d, k).Some? {
      var before := RunStages(db, d, k).value;
      NextStage(db, d, k, before);
      StageRefines(db, d, k, before);
    } else {
      OnceFailed(db, d, k, k + 1);
      MoreClashes(db, d, k);
    }
  }

  lemma MoreClashes(db: Db, d: D.Export, k: nat)
    requires SomeClash(db, d, k)
    ensures SomeClash(db, d, k + 1)
  {
  }

  lemma StageRefines(db: Db, d: D.Export, k: nat, db': Db)
    requires Consistent(d) && k < |STAGES| && ReadsAs(db, d, k, db') && !SomeClash(db, d, k)
    ensures var after := RunStage(db', d, STAGES[k]);
            && (after.None? <==> SomeClash(db, d, k + 1))
            && (after.Some? ==> ReadsAs(db, d, k + 1, after.value))
  {
    hide DbOk, Clashes, ViewAt, Consistent, ReadsAs, SomeClash;
    NextClash(db, d, k);
    if STAGES[k] == Thumbnails {
      ThumbnailStage(db, d, db');
    } else {
      OnlyPosition(k, STAGES[k].table);
      RowsStage(db, d, db', STAGES[k].table);
    }
  }

  lemma NextClash(db: Db, d: D.Export, k: nat)
    requires k < |STAGES| && !SomeClash(db, d, k)
    ensures SomeClash(db, d, k + 1) <==> STAGES[k].Rows? && Clashes(db, d, STAGES[k].table)
  {
    if STAGES[k].Rows? {
      OnlyPosition(k, STAGES[k].table);
    }
    if u: Table :| Position(u) < k + 1 && Clashes(db, d, u) {
      assert STAGES[Position(u)] == Rows(u);
    }
  }

  // ---------- The import as it runs ----------

  /**
   The comparison of a table with the export: the rows in the order the target lists them, against the
   rows in the order of the export. The parents of an asset are sorted on both sides. A time that cannot be
   printed is an error.
  */
  predicate TableVerified(db: Db, d: D.Export, le: (string, string) -> bool, t: Table) {
    && AllPrintable(Read(db, t))
    && if t == AssetParents then multiset(Read(db, t)) == multiset(IR.Items(d, t))
       else Ordered(le, t, Read(db, t)) == IR.Items(d, t)
  }

  predicate Verified(db: Db, d: D.Export, le: (string, string) -> bool) {
    forall t: Table :: TableVerified(db, d, le, t)
  }

  lemma SameRows(db: Db, d: D.Export, le: (string, string) -> bool, t: Table)
    requires IsOrder(le) && Verified(db, d, le)
    ensures multiset(Read(db, t)) == multiset(IR.Items(d, t))
  {
    assert TableVerified(db, d, le, t);
    OrderedAscends(le, t, Read(db, t));
  }

  /** A target that passes the comparison reads as the export, in every field of all tables. */
  lemma VerifiedContent(db: Db, d: D.Export, le: (string, string) -> bool)
    requires IdsDistinct(d.assets) && Verified(db, d, le)
    ensures SameContent(ReadTarget(db, le), d)
  {
    forall t: Table | t != AssetParents ensures Listed(db, le, t) == IR.Items(d, t) { assert TableVerified(db, d, le, t); }
    assert TableVerified(db, d, le, AssetParents);
    ReadsAsExport(db, le, d);
  }

  lemma AcceptedIds(d: D.Export)
    requires D.Accepted(d)
    ensures IdsDistinct(d.assets)
  {
    forall i, j | 0 <= i < j < |d.assets| ensures d.assets[i].publicId != d.assets[j].publicId {
      if d.assets[i].publicId == d.assets[j].publicId {
        V.OneClaimEach(d.assets, D.AssetClaims, i, j, D.ById(d.assets[i].publicId));
      }
    }
  }

  /** The import commits; le is the collation of the target. */
  ghost predicate Imports(db: Db, d: D.Export, le: (string, string) -> bool) {
    D.Accepted(d) && RunStages(db, d, |STAGES|).Some? && Verified(RunStages(db, d, |STAGES|).value, d, le)
  }

  lemma {:induction false} OnceFailed(db: Db, d: D.Export, k: nat, n: nat)
    requires k <= n <= |STAGES| && RunStages(db, d, k).None?
    ensures RunStages(db, d, n).None?
    decreases n
  {
    if k < n {
      OnceFailed(db, d, k, n - 1);
    }
  }

  lemma NextStage(before: Db, d: D.Export, k: nat, db: Db)
    requires k < |STAGES| && RunStages(before, d, k) == Some(db)
    ensures RunStages(before, d, k + 1) == RunStage(db, d, STAGES[k])
  {
  }

  class TargetDatabase {
    const collation: (string, string) -> bool
    var db: Db

    constructor (le: (string, string) -> bool)
      ensures db == EmptyDb() && collation == le
    {
      collation := le;
      db := EmptyDb();
    }

    method InsertRow(t: Table, item: Item) returns (ok: bool)
      requires Shaped(t, item)
      modifies this
      ensures ok <==> Insert(old(db), t, item).Some?
      ensures ok ==> Insert(old(db), t, item) == Some(db)
    {
      var after := Insert(db, t, item);
      if after.None? {
        return false;
      }
      db := after.value;
      return true;
    }

    /** One round of the loop over items. */
    method InsertNext(ghost before: Db, t: Table, items: seq<Item>, i: nat) returns (ok: bool)
      requires i < |items| && (forall j :: 0 <= j < |items| ==> Shaped(t, items[j])) && InsertFirst(before, t, items, i) == Some(db)
      modifies this
      ensures InsertFirst(before, t, items, i + 1) == if ok then Some(db) else None
    {
      NextInsert(before, t, items, i, db);
      ok := InsertRow(t, items[i]);
    }

    method InsertRows(t: Table, items: seq<Item>) returns (ok: bool)
      requires forall i :: 0 <= i < |items| ==> Shaped(t, items[i])
      modifies this
      ensures ok <==> InsertFirst(old(db), t, items, |items|).Some?
      ensures ok ==> InsertFirst(old(db), t, items, |items|) == Some(db)
    {
      hide Insert;
      ghost var before := db;
      for i := 0 to |items|
        invariant InsertFirst(before, t, items, i) == Some(db)
      {
        ok := InsertNext(before, t, items, i);
        if !ok {
          FailsLater(before, t, items, i + 1);
          return;
        }
      }
      return true;
    }

    method UpdateThumbnails(ps: seq<D.Project>)
      modifies this
      ensures db == Illustrate(old(db), ps, |ps|)
    {
      for i := 0 to |ps|
        invariant db == Illustrate(old(db), ps, i)
      {
        if ps[i].thumbnail != "" {
          db := SetThumbnail(db, ps[i].publicId, ps[i].thumbnail);
        }
      }
    }

    method InsertStage(d: D.Export, stage: Stage) returns (ok: bool)
      modifies this
      ensures ok <==> RunStage(old(db), d, stage).Some?
      ensures ok ==> RunStage(old(db), d, stage) == Some(db)
    {
      match stage
      case Rows(t) =>
        A.SentShaped(d, t);
        ok := InsertRows(t, IR.Sent(d, t));
      case Thumbnails =>
        UpdateThumbnails(d.projects);
        ok := true;
    }

    /** The loops of the import, one for each stage. */
    method InsertTargetRows(d: D.Export) returns (ok: bool)
      modifies this
      ensures ok <==> RunStages(old(db), d, |STAGES|).Some?
      ensures ok ==> RunStages(old(db), d, |STAGES|) == Some(db)
    {
      for k := 0 to |STAGES|
        invariant RunStages(old(db), d, k) == Some(db)
      {
        NextStage(old(db), d, k, db);
        ok := InsertStage(d, STAGES[k]);
        if !ok {
          OnceFailed(old(db), d, k + 1, |STAGES|);
          return;
        }
      }
      return true;
    }

    method VerifyTarget(d: D.Export) returns (ok: bool)
      ensures ok <==> Verified(db, d, collation)
      ensures ok && IdsDistinct(d.assets) ==> SameContent(ReadTarget(db, collation), d)
    {
      hide TableVerified, SameContent, IdsDistinct;
      var tables := [Projects, Assets, AssetParents, ProjectRefs, LibraryItems, EditorDocuments, EditorRefs,
                     EditorRevisions, Jobs, JobInputs, JobResults, MediaTasks];
      for i := 0 to |tables|
        invariant forall k :: 0 <= k < i ==> TableVerified(db, d, collation, tables[k])
      {
        if !TableVerified(db, d, collation, tables[i]) {
          return false;
        }
      }
      ok := true;
      forall t: Table
        ensures TableVerified(db, d, collation, t)
      {
        var k := if t == Projects then 0 else if t == Assets then 1 else if t == AssetParents then 2 else Position(t) - 1;
        assert tables[k] == t;
      }
      if IdsDistinct(d.assets) {
        VerifiedContent(db, d, collation);
      }
    }

    /** One transaction: whatever goes wrong leaves the target as it was. */
    method Import(d: D.Export) returns (ok: bool)
      modifies this
      ensures ok <==> Imports(old(db), d, collation)
      ensures db == if ok then RunStages(old(db), d, |STAGES|).value else old(db)
      ensures ok ==> SameContent(ReadTarget(db, collation), d)
    {
      hide SameContent, IdsDistinct;
      var before := db;
      ok := V.ValidateDataset(d);
      if !ok { return; }
      AcceptedIds(d);
      ok := InsertTargetRows(d);
      if ok {
        ok := VerifyTarget(d);
      }
      if !ok {
        db := before;
      }
    }
  }

  lemma NextInsert(before: Db, t: Table, items: seq<Item>, i: nat, db: Db)
    requires i < |items| && (forall j :: 0 <= j < |items| ==> Shaped(t, items[j])) && InsertFirst(before, t, items, i) == Some(db)
    ensures InsertFirst(before, t, items, i + 1) == Insert(db, t, items[i])
  {
  }

  lemma {:induction false} FailsLater(db: Db, t: Table, items: seq<Item>, i: nat)
    requires i <= |items| && (forall j :: 0 <= j < |items| ==> Shaped(t, items[j])) && InsertFirst(db, t, items, i).None?
    ensures InsertFirst(db, t, items, |items|).None?
    decreases |items| - i
  {
    if i < |items| {
      FailsLater(db, t, items, i + 1);
    }
  }

  // ---------- Into an empty target ----------

  /** How a table reads after the whole import into an empty target. */
  function Imported(d: D.Export, t: Table): seq<Item> {
    ViewAt([], d, t, |STAGES|)
  }

  lemma NothingThere(t: Table)
    ensures Read(EmptyDb(), t) == []
  {
    assert EmptyDb()[t] == NoRows(t);
  }

  lemma EmptyOk()
    ensures DbOk(EmptyDb())
  {
    forall t: Table ensures EmptyDb()[t] == [] { assert EmptyDb()[t] == NoRows(t); }
  }

  lemma ClashIsMisfit(d: D.Export, t: Table)
    requires D.Accepted(d)
    ensures Clashes(EmptyDb(), d, t) <==> !IR.TableHolds(d, t)
  {
    NothingThere(t);
    A.AcceptedSeconds(d, t);
    A.AcceptedFit(d, t);
    MergeIntoEmpty(t, IR.Sent(d, t), |IR.Sent(d, t)|);
    var sent := IR.Sent(d, t);
    assert A.AllHoldIn(t, sent) <==> forall i :: 0 <= i < |sent| ==> HoldsItem(t, sent[i]);
  }

  /** For a table whose keys are distinct: it reads as what was sent. */
  lemma SentIsMerged(d: D.Export, t: Table)
    requires D.Accepted(d) && IR.TableHolds(d, t) && A.KeysDistinct(t, IR.Sent(d, t))
    ensures MergeAll(t, [], IR.Sent(d, t)) == Some(ReadItems(IR.Sent(d, t)))
  {
    var sent := IR.Sent(d, t);
    A.AcceptedSeconds(d, t);
    A.AcceptedFit(d, t);
    MergeIntoEmpty(t, sent, |sent|);
    assert sent[..|sent|] == sent;
  }

  // ---------- Projects ----------

  /** Projects as they read when they have their thumbnails up to the n-th, and not yet after it. */
  function Half(ps: seq<D.Project>, n: nat): seq<Item> {
    seq(|ps|, i requires 0 <= i < |ps| => AsRead(if i < n then IR.ProjectItem(ps[i]) else IR.Unillustrated(ps[i])))
  }

  lemma {:induction false} ThumbnailsComplete(ps: seq<D.Project>, n: nat)
    requires n <= |ps| && forall i, j :: 0 <= i < j < |ps| ==> ps[i].publicId != ps[j].publicId
    ensures MergeThumbnails(ReadItems(IR.Mapped(ps, IR.Unillustrated)), ps, n) == Half(ps, n)
  {
    if n == 0 {
      assert Half(ps, 0) == ReadItems(IR.Mapped(ps, IR.Unillustrated));
    } else {
      ThumbnailsComplete(ps, n - 1);
      var p, before, after := ps[n - 1], Half(ps, n - 1), Half(ps, n);
      forall i | 0 <= i < |ps|
        ensures after[i] == if p.thumbnail != "" && before[i].key == [PublicId(p.publicId)] then before[i].(refs := [p.thumbnail]) else before[i]
      {
        assert before[i].key == [PublicId(ps[i].publicId)];
      }
      if p.thumbnail == "" {
        assert after == before;
      } else {
        assert after == MergeThumbnail(before, p.publicId, p.thumbnail);
      }
    }
  }

  lemma ProjectsDistinct(d: D.Export)
    requires D.Accepted(d)
    ensures forall i, j :: 0 <= i < j < |d.projects| ==> d.projects[i].publicId != d.projects[j].publicId
  {
    forall i, j | 0 <= i < j < |d.projects|
      ensures d.projects[i].publicId != d.projects[j].publicId
    {
      if d.projects[i].publicId == d.projects[j].publicId {
        V.OneClaimEach(d.projects, D.ProjectClaims, i, j, D.ById(d.projects[i].publicId));
      }
    }
  }

  // ---------- Every table ----------

  lemma TableIsImported(d: D.Export, t: Table)
    requires D.Accepted(d) && IR.TableHolds(d, t) && t != AssetParents
    ensures Imported(d, t) == ReadItems(IR.Items(d, t))
  {
    A.AcceptedKeys(d, t);
    SentIsMerged(d, t);
    if t == Projects {
      ProjectsDistinct(d);
      ThumbnailsComplete(d.projects, |d.projects|);
      assert Half(d.projects, |d.projects|) == ReadItems(IR.Items(d, Projects));
    }
  }

  lemma ParentsAreImported(d: D.Export)
    requires D.Accepted(d)
    ensures IR.ParentsDistinct(d) ==> Imported(d, AssetParents) == IR.Items(d, AssetParents)
    ensures !IR.ParentsDistinct(d) ==> |Imported(d, AssetParents)| < |IR.Items(d, AssetParents)|
  {
    A.AcceptedParents(d);
    var sent := IR.Sent(d, AssetParents);
    A.AcceptedSeconds(d, AssetParents);
    A.AcceptedFit(d, AssetParents);
    MergeIntoEmpty(AssetParents, sent, |sent|);
    assert sent[..|sent|] == sent;
    ParentsReadBack(d);
    ReadBack(d, AssetParents);
  }

  lemma ParentsReadBack(d: D.Export)
    ensures A.AllReadBack(d, AssetParents)
  {
    forall item | item in IR.Items(d, AssetParents) ensures A.ReadsBack(item) {
      A.ParentItemsAre(d.assets, item);
      A.RowReadsBack(item);
    }
  }

  lemma ReadBack(d: D.Export, t: Table)
    ensures ReadItems(IR.Items(d, t)) == IR.Items(d, t) && AllPrintable(IR.Items(d, t)) <==> A.AllReadBack(d, t)
  {
    hide IR.Items, AsRead, Printable;
    var items := IR.Items(d, t);
    if ReadItems(items) == items && AllPrintable(items) {
      forall i | 0 <= i < |items| ensures A.ReadsBack(items[i]) { assert ReadItems(items)[i] == items[i] && items[i] in items; }
    }
    if A.AllReadBack(d, t) {
      forall i | 0 <= i < |items| ensures ReadItems(items)[i] == items[i] { assert A.ReadsBack(items[i]); }
      assert forall item :: item in items ==> A.ReadsBack(item);
    }
  }

  // ---------- The main results ----------

  /** The export lists every table in the order of its key. */
  predicate RowsInKeyOrder(d: D.Export, le: (string, string) -> bool) {
    forall t: Table :: t != AssetParents ==> Ascending(le, t, IR.Items(d, t))
  }

  /**
   An accepted export is imported into an empty target exactly when every value fits its column, every editor
   revision has parameters, no asset lists a parent twice, every media task has an error value, numbers and
   times are as the target gives them back, and the rows are in the order of the target's collation.
  */
  lemma ImportIntoEmpty(d: D.Export, le: (string, string) -> bool)
    requires D.Accepted(d) && IsOrder(le)
    ensures Imports(EmptyDb(), d, le) <==>
      && IR.Fits(d) && IR.ParametersPresent(d) && IR.ParentsDistinct(d) && IR.ErrorsPresent(d) && IR.NumbersPlain(d) && IR.TimesPlain(d)
      && RowsInKeyOrder(d, le)
  {
    hide DbOk, Consistent, SomeClash, Verified, D.Accepted, RunStages;
    EmptyOk();
    AcceptedIsConsistent(d);
    StagesRefine(EmptyDb(), d, |STAGES|);
    ClashesAreMisfits(d);
    if RunStages(EmptyDb(), d, |STAGES|).Some? {
      EmptyReads(d, RunStages(EmptyDb(), d, |STAGES|).value);
      VerifiedWhen(d, le, RunStages(EmptyDb(), d, |STAGES|).value);
    }
  }

  lemma ClashesAreMisfits(d: D.Export)
    requires D.Accepted(d)
    ensures SomeClash(EmptyDb(), d, |STAGES|) <==> !(IR.Fits(d) && IR.ParametersPresent(d))
  {
    hide D.Accepted, Clashes, IR.ParametersPresent, IR.TableFits;
    forall t: Table ensures Clashes(EmptyDb(), d, t) <==> !IR.TableHolds(d, t) { ClashIsMisfit(d, t); }
    if !IR.ParametersPresent(d) {
      assert !IR.TableHolds(d, EditorRevisions);
    }
    if t: Table :| !IR.TableFits(d, t) {
      assert !IR.TableHolds(d, t);
    }
  }

  lemma EmptyReads(d: D.Export, db': Db)
    requires ReadsAs(EmptyDb(), d, |STAGES|, db')
    ensures forall t: Table :: Read(db', t) == Imported(d, t)
  {
    forall t: Table ensures Read(db', t) == Imported(d, t) { NothingThere(t); }
  }

  /** When the comparison of one table succeeds. */
  lemma TableVerifiedWhen(d: D.Export, le: (string, string) -> bool, db': Db, t: Table)
    requires D.Accepted(d) && IsOrder(le) && IR.TableHolds(d, t) && Read(db', t) == Imported(d, t)
    ensures t != AssetParents ==> (TableVerified(db', d, le, t) <==> A.AllReadBack(d, t) && Ascending(le, t, IR.Items(d, t)))
    ensures t == AssetParents ==> (TableVerified(db', d, le, t) <==> IR.ParentsDistinct(d))
    ensures TableVerified(db', d, le, t) ==> Read(db', t) == IR.Items(d, t)
  {
    hide D.Accepted, IR.TableHolds, IR.Items, Imported, Read, A.AllReadBack, AllPrintable, IsOrder, Ascending, Ordered, IR.ParentsDistinct;
    ReadBack(d, t);
    if t == AssetParents {
      ParentsAreImported(d);
      ParentsReadBack(d);
      SameSize(Read(db', t), IR.Items(d, t));
    } else {
      TableIsImported(d, t);
      SameKeys(t, IR.Items(d, t));
      ListedAs(le, t, Read(db', t), IR.Items(d, t));
    }
  }

  lemma SameSize<T>(a: seq<T>, b: seq<T>)
    ensures multiset(a) == multiset(b) ==> |a| == |b|
  {
    assert |a| == |multiset(a)| && |b| == |multiset(b)|;
  }

  lemma SameKeys(t: Table, items: seq<Item>)
    ensures |ReadItems(items)| == |items|
    ensures forall i :: 0 <= i < |items| ==> SortKey(t, ReadItems(items)[i]) == SortKey(t, items[i])
  {
    forall i | 0 <= i < |items| ensures SortKey(t, ReadItems(items)[i]) == SortKey(t, items[i]) {
      assert ReadItems(items)[i] == AsRead(items[i]);
    }
  }

  lemma VerifiedWhen(d: D.Export, le: (string, string) -> bool, db': Db)
    requires D.Accepted(d) && IsOrder(le) && IR.Fits(d) && IR.ParametersPresent(d) && forall t: Table :: Read(db', t) == Imported(d, t)
    ensures Verified(db', d, le) <==>
      && IR.ParentsDistinct(d) && IR.ErrorsPresent(d) && IR.NumbersPlain(d) && IR.TimesPlain(d) && RowsInKeyOrder(d, le)
    ensures Verified(db', d, le) ==> forall t: Table :: Read(db', t) == IR.Items(d, t)
  {
    hide TableVerified, Ascending, A.AllReadBack, IR.ParentsDistinct, IR.ErrorsPresent, IR.NumbersPlain, IR.TimesPlain, IR.Items, Read, Imported;
    forall t: Table
      ensures t != AssetParents ==> (TableVerified(db', d, le, t) <==> A.AllReadBack(d, t) && Ascending(le, t, IR.Items(d, t)))
      ensures t == AssetParents ==> (TableVerified(db', d, le, t) <==> IR.ParentsDistinct(d))
      ensures TableVerified(db', d, le, t) ==> Read(db', t) == IR.Items(d, t)
    {
      assert IR.TableHolds(d, t);
      TableVerifiedWhen(d, le, db', t);
    }
    ParentsReadBack(d);
    A.EverythingReadsBack(d);
    if Verified(db', d, le) {
      assert TableVerified(db', d, le, AssetParents);
    }
  }

  /**
   Whenever an import commits, whatever the target had before, the dataset read from it is the exported one: every
   field of every project, asset, reference, library item, editor document, revision, job, input, result and task.
  */
  lemma CommittedContent(db: Db, d: D.Export, le: (string, string) -> bool)
    requires Imports(db, d, le)
    ensures SameContent(ReadTarget(RunStages(db, d, |STAGES|).value, le), d)
  {
    hide RunStages, SameContent;
    AcceptedIds(d);
    VerifiedContent(RunStages(db, d, |STAGES|).value, d, le);
  }

  /** And into an empty target it loses nothing: every table reads back as the rows of the export, in their order. */
  lemma ImportLosesNothing(d: D.Export, le: (string, string) -> bool)
    requires IsOrder(le) && Imports(EmptyDb(), d, le)
    ensures var db := RunStages(EmptyDb(), d, |STAGES|).value;
      SameContent(ReadTarget(db, le), d) && forall t: Table :: Read(db, t) == IR.Items(d, t)
  {
    hide SameContent, RunStages, Consistent;
    ImportIntoEmpty(d, le);
    EmptyOk();
    AcceptedIsConsistent(d);
    StagesRefine(EmptyDb(), d, |STAGES|);
    EmptyReads(d, RunStages(EmptyDb(), d, |STAGES|).value);
    VerifiedWhen(d, le, RunStages(EmptyDb(), d, |STAGES|).value);
    CommittedContent(EmptyDb(), d, le);
  }

  // ---------- A second import ----------

  lemma InView(view: seq<Item>, items: seq<Item>, i: nat) returns (k: nat)
    requires i < |items| && multiset(view) == multiset(items)
    ensures k < |view| && view[k] == items[i]
  {
    assert items[i] in multiset(items);
    assert items[i] in view;
    k :| 0 <= k < |view| && view[k] == items[i];
  }

  lemma SentKeys(d: D.Export, t: Table, i: nat)
    requires i < |IR.Sent(d, t)| && |IR.Items(d, t)| == |IR.Sent(d, t)|
    ensures SameItemKey(t, IR.Items(d, t)[i], IR.Sent(d, t)[i])
  {
    A.SentShaped(d, t);
    if t == Projects {
      assert IR.Items(d, t)[i] == IR.ProjectItem(d.projects[i]) && IR.Sent(d, t)[i] == IR.Unillustrated(d.projects[i]);
      assert IR.ProjectItem(d.projects[i]).refs[..0] == IR.Unillustrated(d.projects[i]).refs[..0];
    }
  }

  /** What was imported is there already, so every statement of a second import finds its key taken. */
  lemma NothingNew(d: D.Export, t: Table, view: seq<Item>)
    requires D.Accepted(d) && IR.TableHolds(d, t) && multiset(view) == multiset(IR.Items(d, t))
    ensures MergeAll(t, view, IR.Sent(d, t)) == Some(view)
  {
    var sent, items := IR.Sent(d, t), IR.Items(d, t);
    A.AcceptedFit(d, t);
    A.SentShaped(d, t);
    assert |sent| == |items|;
    forall i | 0 <= i < |sent|
      ensures HoldsItem(t, sent[i]) && KnownKey(t, view, sent[i])
    {
      var k := InView(view, items, i);
      SentKeys(d, t, i);
      assert SameItemKey(t, view[k], sent[i]);
    }
    MergeAgain(t, view, sent, |sent|);
  }

  lemma SameThumbnail(d: D.Export, view: seq<Item>, p: D.Project)
    requires D.Accepted(d) && multiset(view) == multiset(IR.Items(d, Projects)) && p in d.projects
    ensures MergeThumbnail(view, p.publicId, p.thumbnail) == view
  {
    forall i | 0 <= i < |view| && view[i].key == [PublicId(p.publicId)]
      ensures view[i].refs == [p.thumbnail]
    {
      var k := InView(IR.Items(d, Projects), view, i);
      ProjectsDistinct(d);
      var j :| 0 <= j < |d.projects| && d.projects[j] == p;
      assert view[i] == IR.ProjectItem(d.projects[k]);
      assert view[i].key[0] == PublicId(d.projects[k].publicId);
      assert d.projects[k].publicId == d.projects[j].publicId;
    }
  }

  lemma {:induction false} SameThumbnails(d: D.Export, view: seq<Item>, n: nat)
    requires D.Accepted(d) && multiset(view) == multiset(IR.Items(d, Projects)) && n <= |d.projects|
    ensures MergeThumbnails(view, d.projects, n) == view
  {
    if n > 0 {
      SameThumbnails(d, view, n - 1);
      SameThumbnail(d, view, d.projects[n - 1]);
    }
  }

  /** What a target has, it can hold again. */
  lemma HeldAlready(db: Db, d: D.Export, t: Table)
    requires ColumnsOk(db) && D.Accepted(d) && multiset(Read(db, t)) == multiset(IR.Items(d, t))
    ensures IR.TableHolds(d, t)
  {
    hide D.Accepted, IR.TableHolds, ColumnsOfHold;
    var sent, items, view := IR.Sent(d, t), IR.Items(d, t), Read(db, t);
    SameSize(view, items);
    A.SentShaped(d, t);
    forall i | 0 <= i < |sent| ensures HoldsItem(t, sent[i]) {
      A.ChecksPass(d, t, sent[i]);
      SentAsItem(d, t, i);
      var k := InView(view, items, i);
      StoredItemHolds(db, t, db[t][k], sent[i]);
    }
    A.AcceptedFit(d, t);
  }

  lemma SentAsItem(d: D.Export, t: Table, i: nat)
    requires i < |IR.Sent(d, t)|
    ensures |IR.Items(d, t)| == |IR.Sent(d, t)|
    ensures var sent, item := IR.Sent(d, t)[i], IR.Items(d, t)[i]; sent.key == item.key && sent.second == item.second && sent.body == item.body
  {
    if t == Projects {
      assert IR.Items(d, t)[i] == IR.ProjectItem(d.projects[i]) && IR.Sent(d, t)[i] == IR.Unillustrated(d.projects[i]);
    }
  }

  lemma StoredItemHolds(db: Db, t: Table, row: Row, item: Item)
    requires ColumnsOfHold(row) && ChecksItem(t, item)
    requires var read := ReadRow(db, t, row); item.key == read.key && item.second == read.second && item.body == read.body
    ensures HoldsItem(t, item)
  {
    A.StoredHolds(item.body);
  }

  lemma TableStays(db: Db, d: D.Export, le: (string, string) -> bool, t: Table)
    requires ColumnsOk(db) && D.Accepted(d) && IsOrder(le) && Verified(db, d, le)
    ensures !Clashes(db, d, t) && ViewAt(Read(db, t), d, t, |STAGES|) == Read(db, t)
  {
    hide D.Accepted, IR.TableHolds, ColumnsOk;
    SameRows(db, d, le, t);
    HeldAlready(db, d, t);
    NothingNew(d, t, Read(db, t));
    if t == Projects {
      SameThumbnails(d, Read(db, t), |d.projects|);
    }
  }

  /** An export whose rows a target already has is imported again, and the target reads as before. */
  lemma ImportAgain(db: Db, d: D.Export, le: (string, string) -> bool)
    requires DbOk(db) && ColumnsOk(db) && D.Accepted(d) && IsOrder(le) && Verified(db, d, le)
    ensures Imports(db, d, le) && forall t: Table :: Read(RunStages(db, d, |STAGES|).value, t) == Read(db, t)
  {
    hide DbOk, ColumnsOk, Consistent, D.Accepted, Clashes, ViewAt, RunStages, Read;
    AcceptedIsConsistent(d);
    StagesRefine(db, d, |STAGES|);
    forall t: Table
      ensures !Clashes(db, d, t) && ViewAt(Read(db, t), d, t, |STAGES|) == Read(db, t)
    {
      TableStays(db, d, le, t);
    }
    assert RunStages(db, d, |STAGES|).Some?;
    var db' := RunStages(db, d, |STAGES|).value;
    forall t: Table ensures TableVerified(db', d, le, t) { assert TableVerified(db, d, le, t); }
  }
}
