/**
 Every step of the job queue keeps the invariant.

 The proof goes by one relation between a row before and after a statement, relative to the worker
 that ran it: what the statement may do to rows of others (Interferes). A step that only relates
 rows this way keeps everything said about the other workers, so each step has to be looked at
 only for its own row and its own worker.
*/
module JobInvariant {
  import opened Wrappers
  import opened JobTable
  import opened JobProtocol

  /** What identifies a row for ever. */
  predicate SameIdentity(r: Row, r': Row) {
    && r'.owner == r.owner && r'.keyHash == r.keyHash && r'.request == r.request
    && r'.requested == r.requested && r'.createdAt == r.createdAt && r'.imported == r.imported
  }

  /** The row still belongs to the same worker at the same place of its work. */
  predicate SameLease(r: Row, r': Row) {
    && r.status == r'.status == Running
    && r.leaseOwner == r'.leaseOwner && r.phase == r'.phase && r.upstreamStarted == r'.upstreamStarted
  }

  /** What a statement may do to a row when it is run by actor (None: by a user or an import). */
  predicate Interferes(r: Row, r': Row, actor: Option<WorkerId>) {
    && SameIdentity(r, r')
    && (Terminal(r.status) ==> r' == r)
    && (r.upstreamStarted.Some? ==> r'.upstreamStarted.Some?)
    && (r.cancelRequested.Some? ==> r'.cancelRequested.Some?)
    && (r'.status == Running && (actor.None? || r'.leaseOwner != actor) ==> SameLease(r, r'))
    && (r.status == Running && r.upstreamStarted.Some? && (actor.None? || r.leaseOwner != actor) ==>
        SameLease(r, r') || r'.status == Indeterminate)
  }

  ghost predicate RowsInterfere(rows: Rows, rows': Rows, actor: Option<WorkerId>) {
    rows.Keys == rows'.Keys && forall id :: id in rows ==> Interferes(rows[id], rows'[id], actor)
  }

  /** Only the actor moved. */
  ghost predicate OnlyMoves(s: State, s': State, actor: Option<WorkerId>) {
    && (actor.Some? ==> actor.value in s'.workers)
    && (forall v :: v in s.workers && actor != Some(v) ==> v in s'.workers && s'.workers[v] == s.workers[v])
    && (forall v :: v in s'.workers && actor != Some(v) ==> v in s.workers)
  }

  lemma HolderIsThere(s: State, id: JobId, w: WorkerId)
    requires OwnersOk(s) && Holds(s.rows, id, w)
    ensures w in s.workers && OnJob(s.workers[w], id)
  {
    assert s.rows[id].leaseOwner.value == w;
  }

  lemma FrameKeys(s: State, s': State, actor: Option<WorkerId>)
    requires KeysUnique(s) && RowsInterfere(s.rows, s'.rows, actor)
    ensures KeysUnique(s')
  {
    forall a, b | a in s'.rows && b in s'.rows && SameKey(s'.rows[a], s'.rows[b].owner, s'.rows[b].keyHash)
      ensures a == b
    {
      assert SameKey(s.rows[a], s.rows[b].owner, s.rows[b].keyHash);
    }
  }

  lemma FrameResults(s: State, s': State, actor: Option<WorkerId>)
    requires ResultsOk(s) && RowsInterfere(s.rows, s'.rows, actor) && s'.results == s.results
    requires forall id :: id in s.rows ==> s'.rows[id].completedCount == s.rows[id].completedCount
    ensures ResultsOk(s')
  {
  }

  lemma FrameCalls(s: State, s': State, actor: Option<WorkerId>)
    requires CallsOk(s) && RowsInterfere(s.rows, s'.rows, actor) && s'.calls == s.calls
    requires forall id :: id in s.rows && !s.rows[id].imported && s'.rows[id].status == Completed ==>
                            s.rows[id].status == Completed || Called(s, id)
    ensures CallsOk(s')
  {
    forall id | id in s'.rows && !s'.rows[id].imported && s'.rows[id].status == Completed
      ensures Called(s', id)
    {
      assert Called(s, id);
      var i :| 0 <= i < |s.calls| && s.calls[i].job == id;
    }
  }

  lemma FrameOwners(s: State, s': State, actor: Option<WorkerId>)
    requires OwnersOk(s) && RowsInterfere(s.rows, s'.rows, actor) && OnlyMoves(s, s', actor)
    requires actor.Some? ==> forall id :: Holds(s'.rows, id, actor.value) ==> OnJob(s'.workers[actor.value], id)
    ensures OwnersOk(s')
  {
    forall id | id in s'.rows && s'.rows[id].status == Running && s'.rows[id].leaseOwner.Some?
      ensures s'.rows[id].leaseOwner.value in s'.workers && OnJob(s'.workers[s'.rows[id].leaseOwner.value], id)
    {
      var r, r' := s.rows[id], s'.rows[id];
      assert Interferes(r, r', actor);
      if r'.leaseOwner == actor {
        assert Holds(s'.rows, id, actor.value);
      } else {
        assert SameLease(r, r');
      }
    }
  }

  lemma FrameOnePc(s: State, s': State, actor: Option<WorkerId>, v: WorkerId, pc: Pc)
    requires PcOk(s, v, pc) && RowsInterfere(s.rows, s'.rows, actor) && s.calls <= s'.calls
    requires actor != Some(v)
    requires pc.Dispatching? ==> !Called(s', pc.t.job)
    ensures PcOk(s', v, pc)
  {
    if !pc.Idle? && !pc.Stopped? {
      var id := pc.t.job;
      var r, r' := s.rows[id], s'.rows[id];
      assert Interferes(r, r', actor);
      if Called(s, id) {
        var i :| 0 <= i < |s.calls| && s.calls[i].job == id;
        assert s'.calls[i].job == id;
      }
      if Holds(s'.rows, id, v) {
        assert SameLease(r, r') && Holds(s.rows, id, v);
      }
    }
  }

  lemma FrameWorkers(s: State, s': State, actor: Option<WorkerId>)
    requires WorkersOk(s) && RowsInterfere(s.rows, s'.rows, actor) && OnlyMoves(s, s', actor) && s.calls <= s'.calls
    requires forall v :: v in s.workers && actor != Some(v) && s.workers[v].Dispatching? ==> !Called(s', s.workers[v].t.job)
    requires actor.Some? ==> PcOk(s', actor.value, s'.workers[actor.value])
    ensures WorkersOk(s')
  {
    forall v | v in s'.workers
      ensures PcOk(s', v, s'.workers[v])
    {
      if actor != Some(v) {
        FrameOnePc(s, s', actor, v, s.workers[v]);
      }
    }
  }

  lemma FrameDispatchers(s: State, s': State, actor: Option<WorkerId>)
    requires OneDispatcher(s) && OnlyMoves(s, s', actor)
    requires actor.Some? ==> !s'.workers[actor.value].Dispatching?
    ensures OneDispatcher(s')
  {
  }

  lemma SameCalls(s: State, s': State)
    requires s'.calls == s.calls
    ensures forall id :: Called(s', id) <==> Called(s, id)
  {
    forall id
      ensures Called(s', id) <==> Called(s, id)
    {
      if Called(s, id) {
        var i :| 0 <= i < |s.calls| && s.calls[i].job == id;
        assert s'.calls[i].job == id;
      }
      if Called(s', id) {
        var i :| 0 <= i < |s'.calls| && s'.calls[i].job == id;
        assert s.calls[i].job == id;
      }
    }
  }

  /** Rows after a statement that completes nothing. */
  ghost predicate QuietRows(rows: Rows, rows': Rows, actor: Option<WorkerId>) {
    && RowsInterfere(rows, rows', actor)
    && forall id :: id in rows ==>
         && RowOk(rows'[id]) && rows'[id].completedCount == rows[id].completedCount
         && (rows'[id].status == Completed ==> rows[id].status == Completed)
  }

  /** A step that makes no call, completes nothing and takes no new row only has its own worker to answer for. */
  lemma QuietStep(s: State, s': State, actor: Option<WorkerId>)
    requires Inv(s) && QuietRows(s.rows, s'.rows, actor) && OnlyMoves(s, s', actor)
    requires s'.calls == s.calls && s'.results == s.results && s'.next == s.next
    requires actor.Some? ==>
      && !s'.workers[actor.value].Dispatching?
      && PcOk(s', actor.value, s'.workers[actor.value])
      && forall id :: Holds(s'.rows, id, actor.value) ==> OnJob(s'.workers[actor.value], id)
    ensures Inv(s')
  {
    QuietTable(s, s', actor);
    FrameOwners(s, s', actor);
    QuietWorkers(s, s', actor);
    FrameDispatchers(s, s', actor);
  }

  lemma QuietTable(s: State, s': State, actor: Option<WorkerId>)
    requires RowsOk(s) && KeysUnique(s) && ResultsOk(s) && CallsOk(s) && QuietRows(s.rows, s'.rows, actor)
    requires s'.calls == s.calls && s'.results == s.results && s'.next == s.next
    ensures RowsOk(s') && KeysUnique(s') && ResultsOk(s') && CallsOk(s')
  {
    FrameKeys(s, s', actor);
    FrameResults(s, s', actor);
    FrameCalls(s, s', actor);
  }

  lemma QuietWorkers(s: State, s': State, actor: Option<WorkerId>)
    requires WorkersOk(s) && RowsInterfere(s.rows, s'.rows, actor) && OnlyMoves(s, s', actor) && s'.calls == s.calls
    requires actor.Some? ==> PcOk(s', actor.value, s'.workers[actor.value])
    ensures WorkersOk(s')
  {
    SameCalls(s, s');
    assert forall v :: v in s.workers && actor != Some(v) && s.workers[v].Dispatching? ==> PcOk(s, v, s.workers[v]);
    FrameWorkers(s, s', actor);
  }

  // ---------- Users and imports ----------

  /** A new row at the next id, with its results if it is imported. */
  lemma NewRowKeeps(s: State, row: Row, assets: map<nat, AssetId>)
    requires Inv(s) && RowOk(row) && row.status != Running
    requires !row.imported ==> assets == map[] && row.status != Completed && row.completedCount == 0
    requires !KeyTaken(s.rows, row.owner, row.keyHash)
    ensures Inv(ImportStep(s, row, assets))
  {
    var s' := ImportStep(s, row, assets);
    NewRowKeys(s, row, assets);
    NewRowResults(s, row, assets);
    NewRowCalls(s, row, assets);
    NewRowWorkers(s, row, assets);
    assert OwnersOk(s');
  }

  lemma NewRowCalls(s: State, row: Row, assets: map<nat, AssetId>)
    requires RowsOk(s) && CallsOk(s) && (!row.imported ==> row.status != Completed)
    ensures CallsOk(ImportStep(s, row, assets))
  {
    SameCalls(s, ImportStep(s, row, assets));
  }

  lemma NewRowWorkers(s: State, row: Row, assets: map<nat, AssetId>)
    requires RowsOk(s) && WorkersOk(s)
    ensures WorkersOk(ImportStep(s, row, assets))
  {
    var s' := ImportStep(s, row, assets);
    SameCalls(s, s');
    forall v | v in s'.workers
      ensures PcOk(s', v, s'.workers[v])
    {
      assert PcOk(s, v, s.workers[v]);
    }
  }

  lemma NewRowKeys(s: State, row: Row, assets: map<nat, AssetId>)
    requires RowsOk(s) && KeysUnique(s) && !KeyTaken(s.rows, row.owner, row.keyHash)
    ensures KeysUnique(ImportStep(s, row, assets))
  {
    var s' := ImportStep(s, row, assets);
    forall a, b | a in s'.rows && b in s'.rows && SameKey(s'.rows[a], s'.rows[b].owner, s'.rows[b].keyHash)
      ensures a == b
    {
      if a != b && a == s.next {
        assert SameKey(s.rows[b], row.owner, row.keyHash);
      }
    }
  }

  lemma NewRowResults(s: State, row: Row, assets: map<nat, AssetId>)
    requires RowsOk(s) && ResultsOk(s)
    requires !row.imported ==> assets == map[] && row.completedCount == 0
    ensures ResultsOk(ImportStep(s, row, assets))
  {
    var s' := ImportStep(s, row, assets);
    var added := ImportedResults(s.next, assets);
    assert s.next !in s.rows;
    forall id, p: nat | id in s'.rows && !s'.rows[id].imported
      ensures (id, p) in s'.results <==> p < s'.rows[id].completedCount
    {
      if id == s.next {
        assert (id, p) !in s.results;
        assert (id, p) !in added;
      } else {
        assert (id, p) !in added;
      }
    }
  }

  lemma CreateKeeps(s: State, owner: int, keyHash: string, request: string, requested: nat, at: Time)
    requires Inv(s) && requested >= 1
    ensures Inv(CreateStep(s, owner, keyHash, request, requested, at))
  {
    if !KeyTaken(s.rows, owner, keyHash) {
      NewRowKeeps(s, NewRow(owner, keyHash, request, requested, at), map[]);
      CreateIsNewRow(s, owner, keyHash, request, requested, at);
    }
  }

  lemma CreateIsNewRow(s: State, owner: int, keyHash: string, request: string, requested: nat, at: Time)
    requires !KeyTaken(s.rows, owner, keyHash)
    ensures CreateStep(s, owner, keyHash, request, requested, at) ==
            ImportStep(s, NewRow(owner, keyHash, request, requested, at), map[])
  {
    assert s.results + ImportedResults(s.next, map[]) == s.results;
  }

  lemma CancelInterferes(r: Row, now: Time)
    requires RowOk(r)
    ensures Interferes(r, r, None) && Interferes(r, CancelRow(r, now), None) && RowOk(CancelRow(r, now))
  {
  }

  lemma CancelKeeps(s: State, owner: int, job: JobId, at: Time)
    requires Inv(s)
    ensures Inv(s.(rows := CancelRows(s.rows, owner, job, at)))
  {
    hide KeysUnique, ResultsOk, CallsOk, OwnersOk, WorkersOk, OneDispatcher;
    var s' := s.(rows := CancelRows(s.rows, owner, job, at));
    forall id | id in s.rows
      ensures Interferes(s.rows[id], s'.rows[id], None) && RowOk(s'.rows[id])
    {
      CancelInterferes(s.rows[id], at);
    }
    QuietStep(s, s', None);
  }

  // ---------- Starting, stopping, claiming ----------

  lemma StartKeeps(s: State, w: WorkerId)
    requires Inv(s) && w !in s.workers
    ensures Inv(Put(s, w, Effect(s.rows, Idle)))
  {
    var s' := Put(s, w, Effect(s.rows, Idle));
    forall id
      ensures !Holds(s.rows, id, w)
    {
      if Holds(s.rows, id, w) {
        HolderIsThere(s, id, w);
      }
    }
    QuietStep(s, s', Some(w));
  }

  lemma StopKeeps(s: State, w: WorkerId)
    requires Inv(s) && w in s.workers
    ensures Inv(Put(s, w, Effect(s.rows, Stopped)))
  {
    QuietStep(s, Put(s, w, Effect(s.rows, Stopped)), Some(w));
  }

  lemma SweepInterferes(r: Row, now: Time)
    requires RowOk(r)
    ensures Interferes(r, SweepRow(r, now), None) && RowOk(SweepRow(r, now))
  {
  }

  lemma SweepKeeps(s: State, now: Time)
    requires Inv(s)
    ensures Inv(s.(rows := Sweep(s.rows, now)))
  {
    SweepQuiet(s.rows, now);
    QuietStep(s, s.(rows := Sweep(s.rows, now)), None);
  }

  lemma SweepQuiet(rows: Rows, now: Time)
    requires forall id :: id in rows ==> RowOk(rows[id])
    ensures QuietRows(rows, Sweep(rows, now), None)
  {
    forall id | id in rows
      ensures Interferes(rows[id], Sweep(rows, now)[id], None) && RowOk(Sweep(rows, now)[id])
    {
      SweepInterferes(rows[id], now);
    }
  }

  lemma LeaseInterferes(r: Row, w: WorkerId, at: Time, lease: int)
    requires RowOk(r) && Claimable(r)
    ensures Interferes(r, LeaseRow(r, w, at, lease), Some(w)) && RowOk(LeaseRow(r, w, at, lease))
  {
  }

  /** Leasing a claimable row to a worker that holds nothing. */
  lemma LeaseKeeps(s: State, w: WorkerId, id: JobId, at: Time, lease: int, pc: Pc)
    requires Inv(s) && id in s.rows && Claimable(s.rows[id])
    requires w in s.workers && s.workers[w].Idle?
    requires pc == Stopped || pc == Preparing(Ticket(id, s.rows[id].requested))
    ensures Inv(Put(s, w, Effect(s.rows[id := LeaseRow(s.rows[id], w, at, lease)], pc)))
  {
    var s' := Put(s, w, Effect(s.rows[id := LeaseRow(s.rows[id], w, at, lease)], pc));
    LeaseInterferes(s.rows[id], w, at, lease);
    forall other | Holds(s'.rows, other, w)
      ensures other == id
    {
      if other != id {
        HolderIsThere(s, other, w);
      }
    }
    QuietStep(s, s', Some(w));
  }

  lemma ClaimKeeps(s: State, w: WorkerId, at: Time, lease: int, picked: Option<JobId>, db: Db)
    requires Inv(s) && w in s.workers && s.workers[w].Idle? && ClaimChoice(s.rows, at, picked)
    ensures Inv(Put(s, w, ClaimEffect(s.rows, w, at, lease, picked, db)))
  {
    SweepKeeps(s, at);
    var swept := s.(rows := Sweep(s.rows, at));
    if db == LostBefore {
      StopKeeps(s, w);
    } else if picked.None? {
      if db == LostAfter {
        StopKeeps(swept, w);
        assert Put(s, w, ClaimEffect(s.rows, w, at, lease, picked, db)) == Put(swept, w, Effect(swept.rows, Stopped));
      } else {
        assert Put(s, w, ClaimEffect(s.rows, w, at, lease, picked, db)) == swept;
      }
    } else {
      var id := picked.value;
      assert IsOldest(swept.rows, id);
      var pc := if db == LostAfter then Stopped else Preparing(Ticket(id, swept.rows[id].requested));
      LeaseKeeps(swept, w, id, at, lease, pc);
      assert Put(s, w, ClaimEffect(s.rows, w, at, lease, picked, db)) ==
             Put(swept, w, Effect(swept.rows[id := LeaseRow(swept.rows[id], w, at, lease)], pc));
    }
  }

  // ---------- The worker's own row ----------

  predicate Working(pc: Pc) {
    !pc.Idle? && !pc.Stopped?
  }

  /** A worker that changes nothing but its own row and its own place, and neither dispatches nor completes. */
  lemma OwnRowKeeps(s: State, w: WorkerId, r': Row, pc: Pc)
    requires Inv(s) && w in s.workers && Working(s.workers[w]) && s.workers[w].t.job in s.rows
    requires r' == s.rows[s.workers[w].t.job] ||
             (&& Holds(s.rows, s.workers[w].t.job, w) && Interferes(s.rows[s.workers[w].t.job], r', Some(w)) && RowOk(r')
              && r'.completedCount == s.rows[s.workers[w].t.job].completedCount && r'.status != Completed)
    requires pc.Idle? ==> !(r'.status == Running && r'.leaseOwner == Some(w))
    requires Working(pc) ==> pc.t == s.workers[w].t
    requires !pc.Dispatching? && PcOk(s.(rows := s.rows[s.workers[w].t.job := r']), w, pc)
    ensures Inv(Put(s, w, Effect(s.rows[s.workers[w].t.job := r'], pc)))
  {
    var id := s.workers[w].t.job;
    var s' := Put(s, w, Effect(s.rows[id := r'], pc));
    forall other | Holds(s'.rows, other, w)
      ensures OnJob(pc, other)
    {
      HolderIsThere(s, other, w);
    }
    SameCalls(s.(rows := s.rows[id := r']), s');
    SameRowInterferes(s, w);
    QuietStep(s, s', Some(w));
  }

  lemma SameRowInterferes(s: State, w: WorkerId)
    requires RowsOk(s)
    ensures forall id :: id in s.rows ==> Interferes(s.rows[id], s.rows[id], Some(w)) && RowOk(s.rows[id])
  {
  }

  /** Moving on without touching the table. */
  lemma PlaceKeeps(s: State, w: WorkerId, pc: Pc)
    requires Inv(s) && w in s.workers && Working(s.workers[w])
    requires Working(pc) && !pc.Dispatching? && pc.t == s.workers[w].t
    requires PcOk(s, w, s.workers[w]) ==> PcOk(s, w, pc)
    ensures Inv(Put(s, w, Effect(s.rows, pc)))
  {
    assert PcOk(s, w, s.workers[w]);
    assert s.rows[pc.t.job := s.rows[pc.t.job]] == s.rows;
    assert s.(rows := s.rows) == s;
    OwnRowKeeps(s, w, s.rows[pc.t.job], pc);
  }

  lemma MarkKeeps(s: State, w: WorkerId, at: Time, lease: int, db: Db)
    requires Inv(s) && w in s.workers && s.workers[w].Answered?
    ensures var pc := s.workers[w]; Inv(Put(s, w, MarkEffect(s.rows, w, pc.t, pc.officialId, pc.body, at, lease, db)))
  {
    var pc := s.workers[w];
    var id := pc.t.job;
    assert PcOk(s, w, pc);
    if db == LostBefore || !Holds(s.rows, id, w) {
      StopKeeps(s, w);
    } else {
      var r' := SavingRows(s.rows, id, w, pc.officialId, at, lease)[id];
      assert RowOk(s.rows[id]);
      var pc' := if db == LostAfter then Stopped else Storing(pc.t, pc.body);
      SameCalls(s, s.(rows := s.rows[id := r']));
      OwnRowKeeps(s, w, r', pc');
    }
  }

  lemma FailKeeps(s: State, w: WorkerId, at: Time, db: Db)
    requires Inv(s) && w in s.workers && s.workers[w].Failing?
    ensures var pc := s.workers[w];
            Inv(Put(s, w, LastEffect(s.rows, FailRows(s.rows, pc.t.job, w, pc.asked, pc.error, at), w, pc.t, db)))
  {
    var pc := s.workers[w];
    var id := pc.t.job;
    assert PcOk(s, w, pc);
    if db == LostBefore || !Holds(s.rows, id, w) {
      StopKeeps(s, w);
    } else {
      var r' := FailRows(s.rows, id, w, pc.asked, pc.error, at)[id];
      assert RowOk(s.rows[id]);
      OwnRowKeeps(s, w, r', if db == LostAfter then Stopped else Idle);
    }
  }

  // ---------- BeginUpstream ----------

  lemma BeginKeeps(s: State, w: WorkerId, at: Time, lease: int, db: Db)
    requires Inv(s) && w in s.workers && s.workers[w].Preparing?
    ensures Inv(Put(s, w, BeginEffect(s.rows, w, s.workers[w].t, at, lease, db)))
  {
    var t := s.workers[w].t;
    var error := JobError("canceled_before_dispatch", false);
    assert PcOk(s, w, s.workers[w]);
    assert RowOk(s.rows[t.job]);
    if db != LostBefore && MayBegin(s.rows, t.job, w) {
      BegunKeeps(s, w, at, lease, Failing(t, Failed, error));
      if db == Ok {
        BegunKeeps(s, w, at, lease, Stopped);
        DispatchKeeps(s, w, at, lease);
      }
    } else {
      PlaceKeeps(s, w, Failing(t, if db == Ok then Canceled else Failed, error));
    }
  }

  /** BeginUpstream took effect, and its worker does not know or is dead. */
  lemma BegunKeeps(s: State, w: WorkerId, at: Time, lease: int, pc: Pc)
    requires Inv(s) && w in s.workers && s.workers[w].Preparing? && MayBegin(s.rows, s.workers[w].t.job, w)
    requires pc == Stopped || (pc.Failing? && pc.t == s.workers[w].t && pc.asked == Failed)
    ensures Inv(Put(s, w, Effect(BeginRows(s.rows, s.workers[w].t.job, w, at, lease), pc)))
  {
    var id := s.workers[w].t.job;
    var r' := BeginRows(s.rows, id, w, at, lease)[id];
    assert PcOk(s, w, s.workers[w]);
    assert RowOk(s.rows[id]);
    OwnRowKeeps(s, w, r', pc);
  }

  lemma NotCalledYet(s: State, id: JobId)
    requires CallsOk(s) && id in s.rows && Undispatched(s.rows[id])
    ensures !Called(s, id)
  {
  }

  /** BeginUpstream took effect and its worker knows: no other worker can be dispatching a row that was undispatched. */
  lemma DispatchKeeps(s: State, w: WorkerId, at: Time, lease: int)
    requires Inv(s) && w in s.workers && s.workers[w].Preparing? && MayBegin(s.rows, s.workers[w].t.job, w)
    requires Inv(Put(s, w, Effect(BeginRows(s.rows, s.workers[w].t.job, w, at, lease), Stopped)))
    ensures Inv(Put(s, w, Effect(BeginRows(s.rows, s.workers[w].t.job, w, at, lease), Dispatching(s.workers[w].t))))
  {
    hide KeysUnique, ResultsOk, OwnersOk, CallsOk, WorkersOk, OneDispatcher;
    var t := s.workers[w].t;
    var mid := Put(s, w, Effect(BeginRows(s.rows, t.job, w, at, lease), Stopped));
    assert PcOk(s, w, s.workers[w]) by { OwnPlace(s, w); }
    assert RowOk(s.rows[t.job]);
    NotCalledYet(s, t.job);
    DispatchOwners(s, mid, w, t);
    DispatchWorkers(s, mid, w, t);
    DispatchRest(mid, w, t);
    assert Put(mid, w, Effect(mid.rows, Dispatching(t))) == Put(s, w, Effect(BeginRows(s.rows, t.job, w, at, lease), Dispatching(t)));
  }

  lemma OwnPlace(s: State, w: WorkerId)
    requires WorkersOk(s) && w in s.workers
    ensures PcOk(s, w, s.workers[w])
  {
  }

  lemma DispatchRest(mid: State, w: WorkerId, t: Ticket)
    requires Inv(mid)
    requires OwnersOk(Put(mid, w, Effect(mid.rows, Dispatching(t)))) && WorkersOk(Put(mid, w, Effect(mid.rows, Dispatching(t))))
    requires OneDispatcher(Put(mid, w, Effect(mid.rows, Dispatching(t))))
    ensures Inv(Put(mid, w, Effect(mid.rows, Dispatching(t))))
  {
    hide KeysUnique, ResultsOk, OwnersOk, WorkersOk, OneDispatcher;
    SameCalls(mid, Put(mid, w, Effect(mid.rows, Dispatching(t))));
    SameTable(mid, Put(mid, w, Effect(mid.rows, Dispatching(t))));
  }

  lemma SameTable(s: State, s': State)
    requires KeysUnique(s) && ResultsOk(s) && s'.rows == s.rows && s'.results == s.results
    ensures KeysUnique(s') && ResultsOk(s')
  {
  }

  lemma DispatchOwners(s: State, mid: State, w: WorkerId, t: Ticket)
    requires OwnersOk(s) && OwnersOk(mid) && w in s.workers && s.workers[w] == Preparing(t)
    requires mid.rows.Keys == s.rows.Keys && forall id :: id in s.rows && id != t.job ==> mid.rows[id] == s.rows[id]
    ensures OwnersOk(Put(mid, w, Effect(mid.rows, Dispatching(t))))
  {
    var s' := Put(mid, w, Effect(mid.rows, Dispatching(t)));
    forall id | id in s'.rows && s'.rows[id].status == Running && s'.rows[id].leaseOwner.Some?
      ensures s'.rows[id].leaseOwner.value in s'.workers && OnJob(s'.workers[s'.rows[id].leaseOwner.value], id)
    {
      if s'.rows[id].leaseOwner.value == w && id != t.job {
        HolderIsThere(s, id, w);
      }
    }
  }

  lemma DispatchWorkers(s: State, mid: State, w: WorkerId, t: Ticket)
    requires WorkersOk(s) && WorkersOk(mid) && OneDispatcher(mid) && w in s.workers && s.workers[w] == Preparing(t)
    requires mid.calls == s.calls && mid.workers == s.workers[w := Stopped]
    requires t.job in s.rows && Undispatched(s.rows[t.job]) && !Called(s, t.job)
    requires t.job in mid.rows && !mid.rows[t.job].imported && mid.rows[t.job].requested == t.requested
    requires Holds(mid.rows, t.job, w) && mid.rows[t.job].phase == Upstream && !Undispatched(mid.rows[t.job])
    ensures WorkersOk(Put(mid, w, Effect(mid.rows, Dispatching(t))))
    ensures OneDispatcher(Put(mid, w, Effect(mid.rows, Dispatching(t))))
  {
    var s' := Put(mid, w, Effect(mid.rows, Dispatching(t)));
    SameCalls(s, s');
    SameCalls(mid, s');
    forall v | v in s'.workers
      ensures PcOk(s', v, s'.workers[v])
    {
      assert PcOk(mid, v, mid.workers[v]);
    }
    forall v | v in s'.workers && v != w && s'.workers[v].Dispatching?
      ensures s'.workers[v].t.job != t.job
    {
      assert PcOk(s, v, s.workers[v]);
    }
  }

  // ---------- The call and the completion ----------

  lemma EnterKeeps(s: State, w: WorkerId)
    requires Inv(s) && w in s.workers && s.workers[w].Dispatching?
    ensures Inv(Put(s, w, Effect(s.rows, InFlight(s.workers[w].t))).(calls := s.calls + [Call(w, s.workers[w].t.job)]))
  {
    var t := s.workers[w].t;
    var s' := Put(s, w, Effect(s.rows, InFlight(t))).(calls := s.calls + [Call(w, t.job)]);
    assert PcOk(s, w, s.workers[w]);
    SameRowInterferes(s, w);
    EnterCalls(s, s', w, t.job);
    EnterOwners(s, s', w);
    forall v | v in s.workers && v != w && s.workers[v].Dispatching?
      ensures !Called(s', s.workers[v].t.job)
    {
      assert PcOk(s, v, s.workers[v]);
    }
    FrameWorkers(s, s', Some(w));
  }

  lemma EnterOwners(s: State, s': State, w: WorkerId)
    requires OwnersOk(s) && w in s.workers && Working(s.workers[w]) && s'.rows == s.rows
    requires w in s'.workers && s'.workers == s.workers[w := s'.workers[w]]
    requires Working(s'.workers[w]) && s'.workers[w].t == s.workers[w].t
    ensures OwnersOk(s')
  {
  }

  lemma EnterCalls(s: State, s': State, w: WorkerId, job: JobId)
    requires CallsOk(s) && !Called(s, job) && job in s.rows && !s.rows[job].imported && !Undispatched(s.rows[job])
    requires s'.calls == s.calls + [Call(w, job)] && s'.rows == s.rows
    ensures CallsOk(s') && s.calls <= s'.calls
    ensures forall id :: Called(s', id) <==> Called(s, id) || id == job
  {
    forall id
      ensures Called(s', id) <==> Called(s, id) || id == job
    {
      if Called(s, id) {
        var i :| 0 <= i < |s.calls| && s.calls[i].job == id;
        assert s'.calls[i].job == id;
      }
      assert s'.calls[|s.calls|].job == job;
    }
  }

  lemma CompleteKeeps(s: State, w: WorkerId, at: Time, db: Db)
    requires Inv(s) && w in s.workers && s.workers[w].Finishing?
    ensures Inv(ActStep(s, w, Complete(at, db)))
  {
    var pc := s.workers[w];
    if db == LostBefore || !Holds(s.rows, pc.t.job, w) {
      StopKeeps(s, w);
      assert ActStep(s, w, Complete(at, db)) == Put(s, w, Effect(s.rows, Stopped));
    } else {
      var s' := ActStep(s, w, Complete(at, db));
      assert PcOk(s, w, pc);
      CompletedTable(s, s', w, pc, at);
      CompletedOwners(s, s', w, pc.t.job);
      CompletedWorkers(s, s', w);
    }
  }

  lemma CompletedTable(s: State, s': State, w: WorkerId, pc: Pc, at: Time)
    requires RowsOk(s) && KeysUnique(s) && ResultsOk(s) && CallsOk(s)
    requires pc.Finishing? && PcOk(s, w, pc) && Holds(s.rows, pc.t.job, w)
    requires s'.rows == CompleteRows(s.rows, pc.t.job, w, |pc.assets|, at) && s'.next == s.next && s'.calls == s.calls
    requires s'.results == CompleteResults(s.rows, s.results, pc.t.job, w, pc.assets)
    ensures RowsInterfere(s.rows, s'.rows, Some(w)) && !Holds(s'.rows, pc.t.job, w)
    ensures RowsOk(s') && KeysUnique(s') && ResultsOk(s') && CallsOk(s')
  {
    CompletedRow(s.rows[pc.t.job], s'.rows[pc.t.job], w);
    SameRowInterferes(s, w);
    FrameKeys(s, s', Some(w));
    FrameCalls(s, s', Some(w));
    CompletedResults(s, s', pc.t.job, pc.assets);
  }

  lemma CompletedRow(r: Row, r': Row, w: WorkerId)
    requires RowOk(r) && r.status == Running && r.leaseOwner == Some(w)
    requires r'.finishedAt.Some? && 1 <= r'.completedCount <= r.requested
    requires r' == r.(status := Completed, phase := Saving, completedCount := r'.completedCount,
                      finishedAt := r'.finishedAt, updatedAt := r'.updatedAt, leaseOwner := None, leaseExpires := None)
    ensures RowOk(r') && Interferes(r, r', Some(w))
  {
  }

  lemma CompletedOwners(s: State, s': State, w: WorkerId, id: JobId)
    requires OwnersOk(s) && w in s.workers && RowsInterfere(s.rows, s'.rows, Some(w))
    requires w in s'.workers && s'.workers == s.workers[w := s'.workers[w]]
    requires Working(s.workers[w]) && s.workers[w].t.job == id && !Holds(s'.rows, id, w)
    requires forall other :: other in s.rows && other != id ==> s'.rows[other] == s.rows[other]
    ensures OwnersOk(s')
  {
    forall other
      ensures Holds(s'.rows, other, w) ==> OnJob(s'.workers[w], other)
    {
      if Holds(s.rows, other, w) {
        HolderIsThere(s, other, w);
      }
    }
    FrameOwners(s, s', Some(w));
  }

  lemma CompletedWorkers(s: State, s': State, w: WorkerId)
    requires WorkersOk(s) && OneDispatcher(s) && w in s.workers
    requires RowsInterfere(s.rows, s'.rows, Some(w)) && s'.calls == s.calls
    requires w in s'.workers && s'.workers == s.workers[w := s'.workers[w]] && !Working(s'.workers[w])
    ensures WorkersOk(s') && OneDispatcher(s')
  {
    SameCalls(s, s');
    assert forall v :: v in s.workers && s.workers[v].Dispatching? ==> PcOk(s, v, s.workers[v]);
    FrameWorkers(s, s', Some(w));
    FrameDispatchers(s, s', Some(w));
  }

  lemma CompletedResults(s: State, s': State, id: JobId, assets: seq<AssetId>)
    requires ResultsOk(s) && id in s.rows && !s.rows[id].imported && s.rows[id].completedCount == 0
    requires s'.rows.Keys == s.rows.Keys && s'.results == s.results + ResultsOf(id, assets)
    requires !s'.rows[id].imported && s'.rows[id].completedCount == |assets|
    requires forall other :: other in s.rows && other != id ==> s'.rows[other] == s.rows[other]
    ensures ResultsOk(s')
  {
    forall other, p: nat | other in s'.rows && !s'.rows[other].imported
      ensures (other, p) in s'.results <==> p < s'.rows[other].completedCount
    {
      assert (other, p) in ResultsOf(id, assets) <==> other == id && p < |assets|;
    }
  }

  // ---------- Every step ----------

  lemma ActKeeps(s: State, w: WorkerId, action: Action)
    requires Inv(s) && MayAct(s, w, action)
    ensures Inv(ActStep(s, w, action))
  {
    hide RowOk, KeysUnique, ResultsOk, CallsOk, OwnersOk, OneDispatcher;
    match action
    case Start => StartKeeps(s, w);
    case Die => StopKeeps(s, w);
    case Claim(at, lease, picked, db) => ClaimKeeps(s, w, at, lease, picked, db);
    case GiveUp(code) => PlaceKeeps(s, w, Failing(s.workers[w].t, Failed, JobError(code, false)));
    case Begin(at, lease, db) => BeginKeeps(s, w, at, lease, db);
    case Enter => EnterKeeps(s, w);
    case Return(answer) => PlaceKeeps(s, w, ReturnPlace(s.workers[w].t, answer));
    case Mark(at, lease, db) => MarkKeeps(s, w, at, lease, db);
    case Store(stored) => PlaceKeeps(s, w, StorePlace(s.workers[w].t, s.workers[w].body, stored));
    case Complete(at, db) => CompleteKeeps(s, w, at, db);
    case Fail(at, db) => FailKeeps(s, w, at, db);
  }

  /** Every step keeps the invariant. */
  lemma StepKeeps(s: State, e: Event)
    requires Inv(s) && Enabled(s, e)
    ensures Inv(Step(s, e))
  {
    match e
    case Create(owner, keyHash, request, requested, at) => CreateKeeps(s, owner, keyHash, request, requested, at);
    case Cancel(owner, job, at) => CancelKeeps(s, owner, job, at);
    case Import(row, assets) => NewRowKeeps(s, row, assets);
    case Act(w, action) => ActKeeps(s, w, action);
  }
}
