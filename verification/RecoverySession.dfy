/**
 The recovery records of a project over a session: tasks are started, finish and are dropped, the document
 with its records is saved, and a page that starts again loads a saved document and the open tasks.
*/
module RecoverySession {
  import opened Wrappers
  import opened Recovery
  import opened RecoveryTargets

  /** A document as it was saved, by the server or as a draft. */
  datatype Document = Document(project: Project, records: seq<Binding>)

  datatype Session = Session(now: Document, saves: seq<Document>)

  datatype Event =
    | Save
    | Load(save: nat, opens: seq<Open>)          // a saved document, with the jobs and then the media tasks of the server
    | Register(open: Open)                        // a task has just been started
    | Finish(binding: Binding, snapshot: Snapshot)
    | Drop(task: string)                          // a task is given up
    | Edit(nodes: seq<Node>, connections: seq<Connection>)

  // ---------- Records of a document ----------

  const MAX_RECORDS: nat := 100
  const MAX_ID: nat := 128

  predicate IdOk(id: string) {
    0 < |id| <= MAX_ID
  }

  predicate Recorded(b: Binding) {
    IdOk(b.task) && b.kind in {"image", "video", "audio"} && IdOk(b.source) && IdOk(b.target) && |b.image| <= MAX_ID
  }

  /** Records that make sense, the first one of each task. */
  function Readable(records: seq<Binding>, seen: set<string>): seq<Binding> {
    if records == [] then []
    else
      var b := records[0];
      if Recorded(b) && b.task !in seen then [b] + Readable(records[1..], seen + {b.task}) else Readable(records[1..], seen)
  }

  function Filter(records: seq<Binding>, keep: Binding -> bool): seq<Binding> {
    if records == [] then []
    else if keep(records[0]) then [records[0]] + Filter(records[1..], keep)
    else Filter(records[1..], keep)
  }

  /** The target is still in the document, and its image too. */
  predicate StillThere(p: Project, b: Binding) {
    var target := Find(p.nodes, b.target);
    target.Some? && (b.image == "" || exists i :: 0 <= i < |target.value.images| && target.value.images[i].id == b.image)
  }

  function Persisted(d: Document): seq<Binding> {
    var first := if |d.records| <= MAX_RECORDS then d.records else d.records[..MAX_RECORDS];
    Filter(Readable(first, {}), b => StillThere(d.project, b))
  }

  // ---------- Loading ----------

  predicate Terminal(s: Snapshot) {
    s.status in {"completed", "partial", "failed", "canceled", "indeterminate", "expired"}
  }

  function SnapshotOf(opens: seq<Open>, task: string): Option<Snapshot> {
    if opens == [] then None
    else
      var last := opens[|opens| - 1].snapshot;
      if last.id == task then Some(last) else SnapshotOf(opens[..|opens| - 1], task)
  }

  predicate Over(opens: seq<Open>, b: Binding) {
    var snapshot := SnapshotOf(opens, b.task);
    snapshot.Some? && Terminal(snapshot.value)
  }

  predicate Known(records: seq<Binding>, task: string) {
    exists b :: b in records && b.task == task
  }

  function Unknown(opens: seq<Open>, records: seq<Binding>): seq<Open> {
    if opens == [] then []
    else if Known(records, opens[0].snapshot.id) then Unknown(opens[1..], records)
    else [opens[0]] + Unknown(opens[1..], records)
  }

  function Bound(p: Project, opens: seq<Open>, records: seq<Binding>): seq<Binding> {
    BindFirst(p, SortByTime(opens), ClaimedBy(records), |SortByTime(opens)|).bindings
  }

  /** The records of the document, and for the other open tasks what is free beside them. */
  function Rebound(d: Document, opens: seq<Open>): seq<Binding> {
    var persisted := Persisted(d);
    persisted + Bound(d.project, Unknown(opens, persisted), persisted)
  }

  /** Tasks that ended meanwhile leave what they did. */
  function CaughtUp(p: Project, opens: seq<Open>, bindings: seq<Binding>): Project {
    if bindings == [] then p
    else
      var last := bindings[|bindings| - 1];
      var before := CaughtUp(p, opens, bindings[..|bindings| - 1]);
      if Over(opens, last) then ApplyCanvasRecoverySnapshot(before, last, SnapshotOf(opens, last.task).value) else before
  }

  function Loaded(d: Document, opens: seq<Open>): Document {
    var bindings := Rebound(d, opens);
    var active := Filter(bindings, b => !Over(opens, b));
    var sources := set b | b in bindings :: b.source;
    Document(SettleCanvasRecoverySources(CaughtUp(d.project, opens, bindings), sources, active), active)
  }

  function Registered(d: Document, open: Open): Document {
    var bindings := Bound(d.project, [open], d.records);
    if open.snapshot.id == "" || Known(d.records, open.snapshot.id) || bindings == [] then d
    else d.(records := d.records + [bindings[0]])
  }

  function Finished(d: Document, b: Binding, snapshot: Snapshot): Document {
    var remaining := Without(d.records, b.task);
    Document(SettleCanvasRecoverySources(ApplyCanvasRecoverySnapshot(d.project, b, snapshot), {b.source}, remaining), remaining)
  }

  function Step(s: Session, e: Event): Session {
    match e
    case Save => s.(saves := s.saves + [s.now])
    case Load(save, opens) => if save < |s.saves| then s.(now := Loaded(s.saves[save], opens)) else s
    case Register(open) => s.(now := Registered(s.now, open))
    case Finish(binding, snapshot) => s.(now := Finished(s.now, binding, snapshot))
    case Drop(task) => s.(now := s.now.(records := Without(s.now.records, task)))
    case Edit(nodes, connections) => s.(now := s.now.(project := Project(nodes, connections)))
  }

  function Run(s: Session, es: seq<Event>): Session
    decreases |es|
  {
    if es == [] then s else Run(Step(s, es[0]), es[1..])
  }

  // ---------- No slot twice ----------

  lemma DistinctFirst(b: Binding, rest: seq<Binding>)
    requires SlotsDistinct(rest) && forall r :: r in rest && r.image != "" && b.image != "" ==> Slot(r.target, r.image) != Slot(b.target, b.image)
    ensures SlotsDistinct([b] + rest)
  {
  }

  lemma DistinctTail(records: seq<Binding>)
    requires SlotsDistinct(records) && records != []
    ensures SlotsDistinct(records[1..])
    ensures forall r :: r in records[1..] && r.image != "" && records[0].image != "" ==> Slot(r.target, r.image) != Slot(records[0].target, records[0].image)
  {
  }

  lemma {:induction false} FilterKeeps(records: seq<Binding>, keep: Binding -> bool)
    requires SlotsDistinct(records)
    ensures SlotsDistinct(Filter(records, keep)) && forall b :: b in Filter(records, keep) ==> b in records
  {
    if records != [] {
      DistinctTail(records);
      FilterKeeps(records[1..], keep);
      if keep(records[0]) {
        DistinctFirst(records[0], Filter(records[1..], keep));
      }
    }
  }

  lemma {:induction false} ReadableKeeps(records: seq<Binding>, seen: set<string>)
    requires SlotsDistinct(records)
    ensures SlotsDistinct(Readable(records, seen)) && forall b :: b in Readable(records, seen) ==> b in records
  {
    if records != [] {
      DistinctTail(records);
      ReadableKeeps(records[1..], seen);
      ReadableKeeps(records[1..], seen + {records[0].task});
      DistinctFirst(records[0], Readable(records[1..], seen + {records[0].task}));
    }
  }

  lemma {:induction false} WithoutKeeps(records: seq<Binding>, task: string)
    requires SlotsDistinct(records)
    ensures SlotsDistinct(Without(records, task)) && forall b :: b in Without(records, task) ==> b in records
  {
    if records != [] {
      var rest, last := records[..|records| - 1], records[|records| - 1];
      WithoutKeeps(rest, task);
      assert records == rest + [last];
      if last.task != task {
        forall b | b in rest && b.image != "" && last.image != ""
          ensures Slot(b.target, b.image) != Slot(last.target, last.image)
        {
          var i :| 0 <= i < |rest| && rest[i] == b;
          assert records[i] == b && records[|rest|] == last;
        }
        assert last.image != "" ==> Slot(last.target, last.image) !in ClaimedBy(Without(rest, task));
        DistinctWithOne(Without(rest, task), last);
      }
    }
  }

  lemma PersistedKeeps(d: Document)
    requires SlotsDistinct(d.records)
    ensures SlotsDistinct(Persisted(d))
  {
    var first := if |d.records| <= MAX_RECORDS then d.records else d.records[..MAX_RECORDS];
    ReadableKeeps(first, {});
    FilterKeeps(Readable(first, {}), b => StillThere(d.project, b));
  }

  lemma LoadedKeeps(d: Document, opens: seq<Open>)
    requires SlotsDistinct(d.records)
    ensures SlotsDistinct(Loaded(d, opens).records)
  {
    PersistedKeeps(d);
    var persisted := Persisted(d);
    var sorted := SortByTime(Unknown(opens, persisted));
    NoSlotTwice(d.project, sorted, persisted, |sorted|);
    FilterKeeps(Rebound(d, opens), b => !Over(opens, b));
  }

  lemma RegisteredKeeps(d: Document, open: Open)
    requires SlotsDistinct(d.records)
    ensures SlotsDistinct(Registered(d, open).records)
  {
    var sorted, bindings := SortByTime([open]), Bound(d.project, [open], d.records);
    NoSlotTwice(d.project, sorted, d.records, |sorted|);
    if bindings != [] {
      var all := d.records + bindings;
      assert d.records + [bindings[0]] == all[..|d.records| + 1];
    }
  }

  /** No image slot is bound to two tasks, in the editor and in every saved document. */
  ghost predicate AllDistinct(s: Session) {
    SlotsDistinct(s.now.records) && forall i :: 0 <= i < |s.saves| ==> SlotsDistinct(s.saves[i].records)
  }

  lemma StepKeepsSlots(s: Session, e: Event)
    requires AllDistinct(s)
    ensures AllDistinct(Step(s, e))
  {
    match e
    case Load(save, opens) =>
      if save < |s.saves| {
        LoadedKeeps(s.saves[save], opens);
      }
    case Register(open) => RegisteredKeeps(s.now, open);
    case Finish(binding, _) => WithoutKeeps(s.now.records, binding.task);
    case Drop(task) => WithoutKeeps(s.now.records, task);
    case _ =>
  }

  /** Whatever is saved, loaded, started, finished, dropped and edited, no two records have the same image slot. */
  lemma {:induction false} NeverBoundTwice(s: Session, es: seq<Event>)
    requires AllDistinct(s)
    ensures AllDistinct(Run(s, es))
    decreases |es|
  {
    if es != [] {
      StepKeepsSlots(s, es[0]);
      NeverBoundTwice(Step(s, es[0]), es[1..]);
    }
  }

  // ---------- One record per task ----------

  ghost predicate TasksDistinct(bs: seq<Binding>) {
    forall i, j :: 0 <= i < j < |bs| ==> bs[i].task != bs[j].task
  }

  ghost predicate IdsDistinct(opens: seq<Open>) {
    forall i, j :: 0 <= i < j < |opens| ==> opens[i].snapshot.id != opens[j].snapshot.id
  }

  lemma {:induction false} ReadableOnce(records: seq<Binding>, seen: set<string>)
    ensures TasksDistinct(Readable(records, seen))
    ensures forall b :: b in Readable(records, seen) ==> b in records && b.task !in seen && Recorded(b)
  {
    if records != [] {
      var b := records[0];
      ReadableOnce(records[1..], seen);
      ReadableOnce(records[1..], seen + {b.task});
      if Recorded(b) && b.task !in seen {
        var rest := Readable(records[1..], seen + {b.task});
        assert forall i :: 0 <= i < |rest| ==> rest[i] in rest;
      }
    }
  }

  lemma {:induction false} FilterOnce(records: seq<Binding>, keep: Binding -> bool)
    requires TasksDistinct(records)
    ensures TasksDistinct(Filter(records, keep)) && forall b :: b in Filter(records, keep) <==> b in records && keep(b)
  {
    if records != [] {
      var rest := Filter(records[1..], keep);
      assert forall i :: 0 <= i < |records[1..]| ==> records[1..][i] == records[i + 1];
      FilterOnce(records[1..], keep);
      forall b | b in rest ensures b.task != records[0].task {
        var i :| 0 <= i < |records[1..]| && records[1..][i] == b;
        assert records[i + 1] == b;
      }
      assert forall i :: 0 <= i < |rest| ==> rest[i] in rest;
    }
  }

  lemma {:induction false} WithoutOnce(records: seq<Binding>, task: string)
    requires TasksDistinct(records)
    ensures TasksDistinct(Without(records, task))
  {
    if records != [] {
      var rest, last := records[..|records| - 1], records[|records| - 1];
      WithoutOnce(rest, task);
      var left := Without(rest, task);
      forall i | 0 <= i < |left| ensures left[i].task != last.task {
        assert left[i] in left;
        StillOpen(rest, task, left[i]);
        var j :| 0 <= j < |rest| && rest[j] == left[i];
        assert records[j] == left[i];
      }
    }
  }

  lemma {:induction false} UnknownAre(opens: seq<Open>, records: seq<Binding>)
    ensures forall o :: o in Unknown(opens, records) <==> o in opens && !Known(records, o.snapshot.id)
  {
    hide Known;
    if opens != [] {
      UnknownAre(opens[1..], records);
      assert opens == [opens[0]] + opens[1..];
    }
  }

  lemma {:induction false} UnknownOnce(opens: seq<Open>, records: seq<Binding>)
    requires IdsDistinct(opens)
    ensures IdsDistinct(Unknown(opens, records))
  {
    hide Known;
    if opens != [] {
      var tail, rest := opens[1..], Unknown(opens[1..], records);
      assert forall i :: 0 <= i < |tail| ==> tail[i] == opens[i + 1];
      UnknownOnce(tail, records);
      UnknownAre(tail, records);
      forall i | 0 <= i < |rest| ensures rest[i].snapshot.id != opens[0].snapshot.id {
        assert rest[i] in rest;
        var j :| 0 <= j < |tail| && tail[j] == rest[i];
      }
    }
  }

  lemma {:induction false} InsertOnce(x: Open, xs: seq<Open>)
    requires IdsDistinct(xs) && forall o :: o in xs ==> o.snapshot.id != x.snapshot.id
    ensures IdsDistinct(InsertByTime(x, xs)) && forall o :: o in InsertByTime(x, xs) <==> o in xs || o == x
  {
    assert forall i :: 0 <= i < |xs| ==> xs[i] in xs;
    if xs != [] && x.snapshot.createdAt >= xs[0].snapshot.createdAt {
      assert forall i :: 0 <= i < |xs[1..]| ==> xs[1..][i] == xs[i + 1];
      InsertOnce(x, xs[1..]);
      var rest := InsertByTime(x, xs[1..]);
      assert forall i :: 0 <= i < |rest| ==> rest[i] in rest;
      forall o | o in rest ensures o.snapshot.id != xs[0].snapshot.id {
        if o != x {
          var i :| 0 <= i < |xs[1..]| && xs[1..][i] == o;
          assert xs[i + 1] == o;
        }
      }
    }
  }

  lemma {:induction false} SortOnce(xs: seq<Open>)
    requires IdsDistinct(xs)
    ensures IdsDistinct(SortByTime(xs)) && forall o :: o in SortByTime(xs) <==> o in xs
  {
    if xs != [] {
      var rest, last := xs[..|xs| - 1], xs[|xs| - 1];
      SortOnce(rest);
      assert xs == rest + [last];
      forall o | o in SortByTime(rest) ensures o.snapshot.id != last.snapshot.id {
        var i :| 0 <= i < |rest| && rest[i] == o;
        assert xs[i] == o && xs[|rest|] == last;
      }
      InsertOnce(last, SortByTime(rest));
    }
  }

  lemma {:induction false} BoundOnce(p: Project, opens: seq<Open>, claimed: set<string>, n: nat)
    requires n <= |opens| && IdsDistinct(opens)
    ensures var bs := BindFirst(p, opens, claimed, n).bindings;
      TasksDistinct(bs) && forall b :: b in bs ==> exists i :: 0 <= i < n && opens[i].snapshot.id == b.task
  {
    if n > 0 {
      BoundOnce(p, opens, claimed, n - 1);
      var before := BindFirst(p, opens, claimed, n - 1);
      assert forall i :: 0 <= i < |before.bindings| ==> before.bindings[i] in before.bindings;
      TookTheFirst(p, opens[n - 1], before);
    }
  }

  lemma BoundAre(p: Project, opens: seq<Open>, records: seq<Binding>)
    requires IdsDistinct(opens)
    ensures TasksDistinct(Bound(p, opens, records))
    ensures forall b :: b in Bound(p, opens, records) ==> exists o :: o in opens && o.snapshot.id == b.task
  {
    SortOnce(opens);
    var sorted := SortByTime(opens);
    BoundOnce(p, sorted, ClaimedBy(records), |sorted|);
    forall b | b in Bound(p, opens, records) ensures exists o :: o in opens && o.snapshot.id == b.task {
      var i :| 0 <= i < |sorted| && sorted[i].snapshot.id == b.task;
      assert sorted[i] in opens;
    }
  }

  lemma PersistedOnce(d: Document)
    ensures TasksDistinct(Persisted(d))
  {
    var first := if |d.records| <= MAX_RECORDS then d.records else d.records[..MAX_RECORDS];
    ReadableOnce(first, {});
    FilterOnce(Readable(first, {}), b => StillThere(d.project, b));
  }

  lemma ReboundOnce(d: Document, opens: seq<Open>)
    requires IdsDistinct(opens)
    ensures TasksDistinct(Rebound(d, opens))
  {
    var persisted := Persisted(d);
    var bound := Bound(d.project, Unknown(opens, persisted), persisted);
    PersistedOnce(d);
    UnknownOnce(opens, persisted);
    UnknownAre(opens, persisted);
    BoundAre(d.project, Unknown(opens, persisted), persisted);
    forall a, b | a in persisted && b in bound ensures a.task != b.task {
      var o :| o in Unknown(opens, persisted) && o.snapshot.id == b.task;
      assert !Known(persisted, o.snapshot.id);
    }
    assert forall i :: 0 <= i < |persisted| ==> persisted[i] in persisted;
    assert forall i :: 0 <= i < |bound| ==> bound[i] in bound;
  }

  ghost predicate AllOnce(s: Session) {
    TasksDistinct(s.now.records) && forall i :: 0 <= i < |s.saves| ==> TasksDistinct(s.saves[i].records)
  }

  /** The server lists no task twice. */
  ghost predicate ServerOnce(e: Event) {
    e.Load? ==> IdsDistinct(e.opens)
  }

  lemma RegisteredOnce(d: Document, open: Open)
    requires TasksDistinct(d.records)
    ensures TasksDistinct(Registered(d, open).records)
  {
    BoundAre(d.project, [open], d.records);
    var bindings := Bound(d.project, [open], d.records);
    if open.snapshot.id != "" && !Known(d.records, open.snapshot.id) && bindings != [] {
      assert bindings[0] in bindings;
      assert forall i :: 0 <= i < |d.records| ==> d.records[i] in d.records;
    }
  }

  lemma StepKeepsOnce(s: Session, e: Event)
    requires AllOnce(s) && ServerOnce(e)
    ensures AllOnce(Step(s, e))
  {
    match e
    case Load(save, opens) =>
      if save < |s.saves| {
        ReboundOnce(s.saves[save], opens);
        FilterOnce(Rebound(s.saves[save], opens), b => !Over(opens, b));
      }
    case Register(open) => RegisteredOnce(s.now, open);
    case Finish(binding, _) => WithoutOnce(s.now.records, binding.task);
    case Drop(task) => WithoutOnce(s.now.records, task);
    case _ =>
  }

  /** Over every session a task has at most one record, and none that was loaded is bound a second time. */
  lemma {:induction false} OneRecordPerTask(s: Session, es: seq<Event>)
    requires AllOnce(s) && forall i :: 0 <= i < |es| ==> ServerOnce(es[i])
    ensures AllOnce(Run(s, es))
    decreases |es|
  {
    if es != [] {
      StepKeepsOnce(s, es[0]);
      OneRecordPerTask(Step(s, es[0]), es[1..]);
    }
  }

  // ---------- What a start and an end do to the records ----------

  /** A task that was started gets one record, for the target it is bound to, unless it has one or finds none. */
  lemma RegisterBinds(d: Document, open: Open)
    ensures var before := Progress([], ClaimedBy(d.records));
      exists after: Progress :: BindsInOrder(d.project, open, before, after)
        && Registered(d, open) == d.(records := d.records +
             if open.snapshot.id == "" || (exists b :: b in d.records && b.task == open.snapshot.id) then [] else after.bindings)
  {
    hide BindsInOrder;
    var before := Progress([], ClaimedBy(d.records));
    var after := BindOne(d.project, open, before);
    OneBinds(d.project, open, before);
    assert SortByTime([open]) == [open] by { assert [open][..0] == []; }
    assert Bound(d.project, [open], d.records) == after.bindings by {
      assert BindFirst(d.project, [open], ClaimedBy(d.records), 0) == before;
    }
    if after.bindings != [] {
      assert after.bindings == [after.bindings[0]];
    }
    assert d.records + [] == d.records;
    assert Known(d.records, open.snapshot.id) <==> exists b :: b in d.records && b.task == open.snapshot.id;
  }

  /** A task that ended has no record any more, those of other tasks stay, and its source is settled by what is left. */
  lemma FinishForgets(d: Document, b: Binding, snapshot: Snapshot)
    ensures var after := Finished(d, b, snapshot);
      && (forall r :: r in after.records <==> r in d.records && r.task != b.task)
      && after.project == SettleCanvasRecoverySources(ApplyCanvasRecoverySnapshot(d.project, b, snapshot), {b.source}, after.records)
  {
    forall r ensures r in Without(d.records, b.task) <==> r in d.records && r.task != b.task { StillOpen(d.records, b.task, r); }
  }

  // ---------- What a load catches up with ----------

  /** The tasks that are over, with what they left. */
  function Ended(opens: seq<Open>, bindings: seq<Binding>): seq<Update> {
    if bindings == [] then []
    else
      var last := bindings[|bindings| - 1];
      var before := Ended(opens, bindings[..|bindings| - 1]);
      if Over(opens, last) then before + [Update(last, OutcomeOf(last, SnapshotOf(opens, last.task).value))] else before
  }

  lemma {:induction false} CaughtUpIsApplied(p: Project, opens: seq<Open>, bindings: seq<Binding>)
    ensures CaughtUp(p, opens, bindings) == AllApplied(p, Ended(opens, bindings))
  {
    if bindings != [] {
      var last, before := bindings[|bindings| - 1], Ended(opens, bindings[..|bindings| - 1]);
      CaughtUpIsApplied(p, opens, bindings[..|bindings| - 1]);
      if Over(opens, last) {
        var u := Update(last, OutcomeOf(last, SnapshotOf(opens, last.task).value));
        assert (before + [u])[..|before + [u]| - 1] == before;
      }
    }
  }

  lemma {:induction false} EndedAre(opens: seq<Open>, bindings: seq<Binding>)
    ensures forall u :: u in Ended(opens, bindings) <==>
      u.binding in bindings && Over(opens, u.binding) && u.outcome == OutcomeOf(u.binding, SnapshotOf(opens, u.binding.task).value)
  {
    if bindings != [] {
      var rest, last := bindings[..|bindings| - 1], bindings[|bindings| - 1];
      EndedAre(opens, rest);
      assert bindings == rest + [last];
    }
  }

  lemma {:induction false} SnapshotIsOpen(opens: seq<Open>, task: string)
    requires IdsDistinct(opens)
    ensures forall o :: o in opens && o.snapshot.id == task ==> SnapshotOf(opens, task) == Some(o.snapshot)
    ensures (forall o :: o in opens ==> o.snapshot.id != task) ==> SnapshotOf(opens, task).None?
  {
    if opens != [] {
      var rest, last := opens[..|opens| - 1], opens[|opens| - 1];
      SnapshotIsOpen(rest, task);
      assert opens == rest + [last];
      forall o | o in rest ensures o.snapshot.id != last.snapshot.id {
        var i :| 0 <= i < |rest| && rest[i] == o;
        assert opens[i] == o && opens[|rest|] == last;
      }
    }
  }

  /** An open task of the server whose final snapshot the load got. */
  predicate Concluded(opens: seq<Open>, task: string) {
    exists o :: o in opens && o.snapshot.id == task
      && o.snapshot.status in ["completed", "partial", "failed", "canceled", "indeterminate", "expired"]
  }

  lemma OverIsConcluded(opens: seq<Open>, task: string)
    requires IdsDistinct(opens)
    ensures (SnapshotOf(opens, task).Some? && Terminal(SnapshotOf(opens, task).value)) <==> Concluded(opens, task)
  {
    SnapshotIsOpen(opens, task);
    if SnapshotOf(opens, task).Some? {
      var o :| o in opens && o.snapshot.id == task;
    }
  }

  /** The records that a load leaves are those bound before it whose tasks are not over. */
  lemma {:induction false} LoadKeepsOpen(d: Document, opens: seq<Open>)
    requires IdsDistinct(opens)
    ensures forall b :: b in Loaded(d, opens).records <==> b in Rebound(d, opens) && !Concluded(opens, b.task)
  {
    ReboundOnce(d, opens);
    FilterOnce(Rebound(d, opens), b => !Over(opens, b));
    forall b: Binding ensures Over(opens, b) <==> Concluded(opens, b.task) { OverIsConcluded(opens, b.task); }
  }

  /** What the tasks that are over left: for each of them, what its final snapshot says. */
  ghost predicate LeftBehind(opens: seq<Open>, bound: seq<Binding>, us: seq<Update>) {
    forall u: Update :: u in us <==>
      && u.binding in bound && Concluded(opens, u.binding.task)
      && exists o :: o in opens && o.snapshot.id == u.binding.task && u.outcome == OutcomeOf(u.binding, o.snapshot)
  }

  lemma EndedAreLeft(opens: seq<Open>, bound: seq<Binding>)
    requires IdsDistinct(opens)
    ensures LeftBehind(opens, bound, Ended(opens, bound))
  {
    EndedAre(opens, bound);
    forall u: Update
      ensures u in Ended(opens, bound) <==>
        && u.binding in bound && Concluded(opens, u.binding.task)
        && exists o :: o in opens && o.snapshot.id == u.binding.task && u.outcome == OutcomeOf(u.binding, o.snapshot)
    {
      OverIsConcluded(opens, u.binding.task);
      SnapshotIsOpen(opens, u.binding.task);
    }
  }

  /**
   Of the tasks that are over every one has left its outcome in its slot, in whatever order they are caught up with,
   and all other slots are as they were saved. The status of a node follows from its images, except that nodes
   which tasks were started from are settled besides.
  */
  lemma {:induction false} LoadCatchesUp(d: Document, opens: seq<Open>, us: seq<Update>, i: nat)
    requires IdsDistinct(opens) && i < |d.project.nodes| && us == Ended(opens, Rebound(d, opens)) && OnSlots(us)
    ensures LeftBehind(opens, Rebound(d, opens), us)
    ensures |Loaded(d, opens).project.nodes| == |d.project.nodes|
    ensures var n, after := d.project.nodes[i], Loaded(d, opens).project.nodes[i];
      && |after.images| == |n.images| && (forall j :: 0 <= j < |n.images| ==> ImageSettled(us, n.id, n.images[j], after.images[j]))
      && ((forall b :: b in Rebound(d, opens) ==> b.source != n.id) ==> NodeSettled(us, n, after))
  {
    hide SettleNode, ImageSettled, Rebound;
    EndedAreLeft(opens, Rebound(d, opens));
    CaughtUpIsApplied(d.project, opens, Rebound(d, opens));
    AllSettled(d.project, us, i);
    SettledImages(CaughtUp(d.project, opens, Rebound(d, opens)), d, opens, i);
  }

  lemma SettledImages(p: Project, d: Document, opens: seq<Open>, i: nat)
    requires p == CaughtUp(d.project, opens, Rebound(d, opens)) && i < |p.nodes|
    ensures var after := Loaded(d, opens).project.nodes;
      && |after| == |p.nodes| && after[i].images == p.nodes[i].images
      && ((forall b :: b in Rebound(d, opens) ==> b.source != p.nodes[i].id) ==> after[i] == p.nodes[i])
  {
  }

  /** A record that makes sense stays bound to its target; its task is not bound anew, nor is any slot of it. */
  lemma {:induction false} LoadKeepsRecords(d: Document, opens: seq<Open>, b: Binding, k: nat)
    requires IdsDistinct(opens) && k < |d.records| && k < 100 && b == d.records[k] && Recorded(b) && StillThere(d.project, b)
    requires forall j :: 0 <= j < k ==> d.records[j].task != b.task
    ensures b in Rebound(d, opens) && forall other :: other in Rebound(d, opens) && other.task == b.task ==> other == b
  {
    hide TasksDistinct, Rebound, Recorded;
    PersistedHas(d, b, k);
    assert b in Rebound(d, opens) by { InRebound(d, opens, b); }
    ReboundOnce(d, opens);
    forall other | other in Rebound(d, opens) && other.task == b.task ensures other == b {
      SameTask(Rebound(d, opens), b, other);
    }
  }

  lemma InRebound(d: Document, opens: seq<Open>, b: Binding)
    requires b in Persisted(d)
    ensures b in Rebound(d, opens)
  {
  }

  lemma SameTask(bs: seq<Binding>, a: Binding, b: Binding)
    requires TasksDistinct(bs) && a in bs && b in bs && a.task == b.task
    ensures a == b
  {
    var i :| 0 <= i < |bs| && bs[i] == a;
    var j :| 0 <= j < |bs| && bs[j] == b;
    assert i == j;
  }

  lemma PersistedHas(d: Document, b: Binding, k: nat)
    requires k < |d.records| && k < 100 && b == d.records[k] && Recorded(b) && StillThere(d.project, b)
    requires forall j :: 0 <= j < k ==> d.records[j].task != b.task
    ensures b in Persisted(d)
  {
    hide Recorded, StillThere;
    var first := if |d.records| <= MAX_RECORDS then d.records else d.records[..MAX_RECORDS];
    assert first[k] == b && forall j :: 0 <= j < k ==> first[j] == d.records[j];
    ReadableHas(first, {}, k);
    ReadableOnce(first, {});
    FilterOnce(Readable(first, {}), r => StillThere(d.project, r));
  }

  lemma {:induction false} ReadableHas(records: seq<Binding>, seen: set<string>, k: nat)
    requires k < |records| && Recorded(records[k]) && records[k].task !in seen
    requires forall j :: 0 <= j < k ==> records[j].task != records[k].task
    ensures records[k] in Readable(records, seen)
  {
    if k > 0 {
      assert records[1..][k - 1] == records[k] && forall j :: 0 <= j < k - 1 ==> records[1..][j] == records[j + 1];
      ReadableHas(records[1..], seen, k - 1);
      ReadableHas(records[1..], seen + {records[0].task}, k - 1);
    }
  }
}
