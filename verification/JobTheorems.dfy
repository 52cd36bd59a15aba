/** What holds of every run of the job queue. */
module JobTheorems {
  import opened Wrappers
  import opened JobTable
  import opened JobProtocol
  import opened JobInvariant

  // ---------- Runs ----------

  lemma {:induction false} RunKeeps(s: State, es: seq<Event>)
    requires Inv(s) && Run(s, es)
    ensures Inv(After(s, es))
    decreases |es|
  {
    if es != [] {
      StepKeeps(s, es[0]);
      RunKeeps(Step(s, es[0]), es[1..]);
    }
  }

  lemma InitInv()
    ensures Inv(Init())
  {
  }

  // ---------- At most one call per job ----------

  ghost function CallsOf(calls: seq<Call>, job: JobId): nat {
    if calls == [] then 0
    else CallsOf(calls[..|calls| - 1], job) + if calls[|calls| - 1].job == job then 1 else 0
  }

  lemma {:induction false} CallsOfNone(calls: seq<Call>, job: JobId)
    requires forall i :: 0 <= i < |calls| ==> calls[i].job != job
    ensures CallsOf(calls, job) == 0
  {
    if calls != [] {
      CallsOfNone(calls[..|calls| - 1], job);
    }
  }

  lemma {:induction false} CallsOfDistinct(calls: seq<Call>, job: JobId)
    requires forall i, j :: 0 <= i < j < |calls| ==> calls[i].job != calls[j].job
    ensures CallsOf(calls, job) <= 1
    ensures CallsOf(calls, job) == 1 <==> exists i :: 0 <= i < |calls| && calls[i].job == job
  {
    if calls != [] {
      var last := |calls| - 1;
      if calls[last].job == job {
        CallsOfNone(calls[..last], job);
      } else {
        CallsOfDistinct(calls[..last], job);
        if i :| 0 <= i < |calls| && calls[i].job == job {
          assert calls[..last][i].job == job;
        }
        if i :| 0 <= i < |calls[..last]| && calls[..last][i].job == job {
          assert calls[i].job == job;
        }
      }
    }
  }

  /** The provider is called at most once for a job, whatever workers, users and clocks do. */
  lemma AtMostOneCall(es: seq<Event>, job: JobId)
    requires Run(Init(), es)
    ensures CallsOf(After(Init(), es).calls, job) <= 1
  {
    InitInv();
    RunKeeps(Init(), es);
    CallsOfDistinct(After(Init(), es).calls, job);
  }

  /**
   The status of a job of ours tells whether it was sent: a completed one exactly once; a canceled one
   never, and only on request; a queued one not yet.
  */
  lemma StatusTellsCalls(es: seq<Event>, job: JobId)
    requires Run(Init(), es) && job in After(Init(), es).rows && !After(Init(), es).rows[job].imported
    ensures var s := After(Init(), es);
            && (s.rows[job].status == Completed ==> CallsOf(s.calls, job) == 1)
            && (s.rows[job].status == Canceled ==> CallsOf(s.calls, job) == 0 && s.rows[job].cancelRequested.Some?)
            && (s.rows[job].status == Queued ==> CallsOf(s.calls, job) == 0)
  {
    InitInv();
    RunKeeps(Init(), es);
    var s := After(Init(), es);
    CallsOfDistinct(s.calls, job);
    assert RowOk(s.rows[job]);
    if s.rows[job].status == Completed {
      assert Called(s, job);
    }
    if s.rows[job].status == Canceled || s.rows[job].status == Queued {
      NotCalledYet(s, job);
    }
  }

  // ---------- What one step does to one row ----------

  function Actor(e: Event): Option<WorkerId> {
    if e.Act? then Some(e.w) else None
  }

  lemma StepRow(s: State, e: Event, id: JobId)
    requires RowsOk(s) && id in s.rows && Enabled(s, e)
    ensures id in Step(s, e).rows && Interferes(s.rows[id], Step(s, e).rows[id], Actor(e))
  {
    assert id < s.next;
    CancelInterferes(s.rows[id], 0);
    match e
    case Create(_, _, _, _, _) =>
    case Import(_, _) =>
    case Cancel(_, _, at) => CancelInterferes(s.rows[id], at);
    case Act(w, action) => ActRow(s, w, action, id);
  }

  lemma ActRow(s: State, w: WorkerId, action: Action, id: JobId)
    requires RowsOk(s) && id in s.rows && MayAct(s, w, action)
    ensures id in ActStep(s, w, action).rows && Interferes(s.rows[id], ActStep(s, w, action).rows[id], Some(w))
  {
    SameRowInterferes(s, w);
    match action
    case Claim(at, lease, picked, db) => ClaimEffectInterferes(s.rows, w, at, lease, picked, db, id);
    case Begin(at, lease, db) => BeginEffectInterferes(s.rows, w, s.workers[w].t, at, lease, db, id);
    case Mark(at, lease, db) => MarkInterferes(s.rows, w, s.workers[w], at, lease, id);
    case Complete(at, db) => CompleteInterferes(s.rows, w, s.workers[w], at, id);
    case Fail(at, db) => FailInterferes(s.rows, w, s.workers[w], at, id);
    case _ =>
  }

  lemma ClaimEffectInterferes(rows: Rows, w: WorkerId, at: Time, lease: int, picked: Option<JobId>, db: Db, id: JobId)
    requires id in rows && RowOk(rows[id]) && ClaimChoice(rows, at, picked)
    ensures var rows' := ClaimEffect(rows, w, at, lease, picked, db).rows;
            id in rows' && Interferes(rows[id], rows'[id], Some(w))
  {
    var swept := Sweep(rows, at);
    assert id in swept;
    SweptOrLeased(rows[id], swept[id], w, at, lease);
  }

  lemma SweptOrLeased(r: Row, swept: Row, w: WorkerId, now: Time, lease: int)
    requires RowOk(r) && swept == SweepRow(r, now)
    ensures Interferes(r, r, Some(w)) && Interferes(r, swept, Some(w))
    ensures Claimable(swept) ==> Interferes(r, LeaseRow(swept, w, now, lease), Some(w))
  {
    SweepInterferes(r, now);
  }

  lemma BeginEffectInterferes(rows: Rows, w: WorkerId, t: Ticket, at: Time, lease: int, db: Db, id: JobId)
    requires id in rows
    ensures var rows' := BeginEffect(rows, w, t, at, lease, db).rows;
            id in rows' && Interferes(rows[id], rows'[id], Some(w))
  {
  }

  lemma MarkInterferes(rows: Rows, w: WorkerId, pc: Pc, at: Time, lease: int, id: JobId)
    requires id in rows && pc.Answered?
    ensures var rows' := SavingRows(rows, pc.t.job, w, pc.officialId, at, lease);
            id in rows' && Interferes(rows[id], rows'[id], Some(w))
  {
  }

  lemma CompleteInterferes(rows: Rows, w: WorkerId, pc: Pc, at: Time, id: JobId)
    requires id in rows && pc.Finishing?
    ensures var rows' := CompleteRows(rows, pc.t.job, w, |pc.assets|, at);
            id in rows' && Interferes(rows[id], rows'[id], Some(w))
  {
  }

  lemma FailInterferes(rows: Rows, w: WorkerId, pc: Pc, at: Time, id: JobId)
    requires id in rows && pc.Failing?
    ensures var rows' := FailRows(rows, pc.t.job, w, pc.asked, pc.error, at);
            id in rows' && Interferes(rows[id], rows'[id], Some(w))
  {
  }

  /** A step in the terms of the rows it relates, the worker it moves and the call it makes. */
  ghost predicate Frame(s: State, s': State, actor: Option<WorkerId>) {
    && OnlyMoves(s, s', actor)
    && (forall id :: id in s.rows ==> id in s'.rows && Interferes(s.rows[id], s'.rows[id], actor))
    && (s'.calls == s.calls ||
        (&& actor.Some? && actor.value in s.workers && s.workers[actor.value].Dispatching?
         && s'.calls == s.calls + [Call(actor.value, s.workers[actor.value].t.job)]))
  }

  lemma StepFrame(s: State, e: Event)
    requires RowsOk(s) && Enabled(s, e)
    ensures Frame(s, Step(s, e), Actor(e))
  {
    forall id | id in s.rows
      ensures id in Step(s, e).rows && Interferes(s.rows[id], Step(s, e).rows[id], Actor(e))
    {
      StepRow(s, e, id);
    }
    StepMoves(s, e);
  }

  lemma StepMoves(s: State, e: Event)
    requires Enabled(s, e)
    ensures OnlyMoves(s, Step(s, e), Actor(e))
    ensures Step(s, e).calls == if e.Act? then CallsAfter(s, e.w, e.action) else s.calls
    ensures e.Act? && e.action.Enter? ==> e.w in s.workers && s.workers[e.w].Dispatching?
  {
  }

  lemma {:induction false} RunRow(s: State, es: seq<Event>, id: JobId)
    requires Inv(s) && Run(s, es) && id in s.rows
    ensures id in After(s, es).rows && SameIdentity(s.rows[id], After(s, es).rows[id])
    ensures s.rows[id].cancelRequested.Some? ==> After(s, es).rows[id].cancelRequested.Some?
    decreases |es|
  {
    if es != [] {
      StepKeeps(s, es[0]);
      StepRow(s, es[0], id);
      RunRow(Step(s, es[0]), es[1..], id);
    }
  }

  lemma StepResults(s: State, e: Event, k: (JobId, nat))
    requires RowsOk(s) && Enabled(s, e) && k.0 in s.rows && Terminal(s.rows[k.0].status)
    ensures k in s.results <==> k in Step(s, e).results
    ensures k in s.results ==> Step(s, e).results[k] == s.results[k]
  {
    assert k.0 < s.next;
    if e.Import? {
      assert k !in ImportedResults(s.next, e.assets);
    }
  }

  /** Nothing changes a finished job or its results any more, not even a worker that comes back late. */
  lemma {:induction false} FinishedForEver(s: State, es: seq<Event>, k: (JobId, nat))
    requires Inv(s) && Run(s, es) && k.0 in s.rows && Terminal(s.rows[k.0].status)
    ensures k.0 in After(s, es).rows && After(s, es).rows[k.0] == s.rows[k.0]
    ensures k in s.results <==> k in After(s, es).results
    ensures k in s.results ==> After(s, es).results[k] == s.results[k]
    decreases |es|
  {
    if es != [] {
      StepKeeps(s, es[0]);
      StepRow(s, es[0], k.0);
      StepResults(s, es[0], k);
      FinishedForEver(Step(s, es[0]), es[1..], k);
    }
  }

  /** Results appear only with completion, all at once, at the positions below a count within the request. */
  lemma ResultsAreAtomic(es: seq<Event>, id: JobId)
    requires Run(Init(), es) && id in After(Init(), es).rows && !After(Init(), es).rows[id].imported
    ensures var s := After(Init(), es);
            var r := s.rows[id];
            && (forall p: nat :: (id, p) in s.results <==> r.status == Completed && p < r.completedCount)
            && (r.status == Completed ==> 1 <= r.completedCount <= r.requested)
  {
    InitInv();
    RunKeeps(Init(), es);
    assert RowOk(After(Init(), es).rows[id]);
  }

  // ---------- Who may still call ----------

  ghost function CallsBy(calls: seq<Call>, w: WorkerId): nat {
    if calls == [] then 0
    else CallsBy(calls[..|calls| - 1], w) + if calls[|calls| - 1].worker == w then 1 else 0
  }

  /** A worker that has lost its job outside the window between BeginUpstream and the call. */
  ghost predicate Doomed(s: State, w: WorkerId) {
    && w in s.workers && !s.workers[w].Idle? && !s.workers[w].Dispatching?
    && (s.workers[w].Stopped? || !Holds(s.rows, s.workers[w].t.job, w))
  }

  lemma DoomedByOthers(s: State, s': State, actor: Option<WorkerId>, w: WorkerId)
    requires WorkersOk(s) && Doomed(s, w) && actor != Some(w) && Frame(s, s', actor)
    ensures Doomed(s', w) && CallsBy(s'.calls, w) == CallsBy(s.calls, w)
  {
    assert w in s'.workers && s'.workers[w] == s.workers[w];
    assert PcOk(s, w, s.workers[w]);
    if s'.calls != s.calls {
      assert s'.calls[..|s'.calls| - 1] == s.calls;
    }
  }

  lemma DoomedByItself(s: State, w: WorkerId, action: Action)
    requires Doomed(s, w) && MayAct(s, w, action)
    ensures Doomed(ActStep(s, w, action), w) && ActStep(s, w, action).calls == s.calls
  {
  }

  lemma {:induction false} DoomedNeverCalls(s: State, es: seq<Event>, w: WorkerId)
    requires Inv(s) && Doomed(s, w) && Run(s, es)
    ensures CallsBy(After(s, es).calls, w) == CallsBy(s.calls, w)
    decreases |es|
  {
    if es != [] {
      StepKeeps(s, es[0]);
      if Actor(es[0]) == Some(w) {
        DoomedByItself(s, w, es[0].action);
      } else {
        StepFrame(s, es[0]);
        DoomedByOthers(s, Step(s, es[0]), Actor(es[0]), w);
      }
      DoomedNeverCalls(Step(s, es[0]), es[1..], w);
    }
  }

  ghost predicate MayStillCall(s: State, w: WorkerId) {
    exists es :: Run(s, es) && CallsBy(After(s, es).calls, w) > CallsBy(s.calls, w)
  }

  /**
   A worker whose lease was taken away may still enter the provider call exactly when BeginUpstream had
   already succeeded for it. Everywhere else in RunOnce the lost lease stops it, although no guard looks
   at the expiry.
  */
  lemma LostLeaseMayCall(s: State, w: WorkerId)
    requires Inv(s) && w in s.workers && !s.workers[w].Idle? && !s.workers[w].Stopped?
    requires !Holds(s.rows, s.workers[w].t.job, w)
    ensures MayStillCall(s, w) <==> s.workers[w].Dispatching?
  {
    if s.workers[w].Dispatching? {
      var es := [Act(w, Enter)];
      var s' := Step(s, es[0]);
      assert es[1..] == [] && Run(s', es[1..]);
      assert s'.calls[..|s'.calls| - 1] == s.calls;
      assert Run(s, es) && After(s, es) == s';
    } else {
      forall es | Run(s, es)
        ensures CallsBy(After(s, es).calls, w) == CallsBy(s.calls, w)
      {
        DoomedNeverCalls(s, es, w);
      }
    }
  }

  lemma {:induction false} RunOneMore(s: State, es: seq<Event>, e: Event)
    requires Run(s, es) && Enabled(After(s, es), e)
    ensures Run(s, es + [e]) && After(s, es + [e]) == Step(After(s, es), e)
    decreases |es|
  {
    if es == [] {
      assert (es + [e])[1..] == [];
    } else {
      RunOneMore(Step(s, es[0]), es[1..], e);
      assert (es + [e])[1..] == es[1..] + [e];
    }
  }

  lemma TwoWorkersAndAJob() returns (es: seq<Event>)
    ensures Run(Init(), es)
    ensures After(Init(), es) ==
            State(map[0 := NewRow(1, "key", "request", 1, 0)], map[], 1, map["a" := Idle, "b" := Idle], [])
  {
    es := [];
    RunOneMore(Init(), es, Create(1, "key", "request", 1, 0));
    es := es + [Create(1, "key", "request", 1, 0)];
    RunOneMore(Init(), es, Act("a", Start));
    es := es + [Act("a", Start)];
    RunOneMore(Init(), es, Act("b", Start));
    es := es + [Act("b", Start)];
  }

  lemma OneBegins() returns (es: seq<Event>)
    ensures Run(Init(), es)
    ensures var s := After(Init(), es);
            && s.workers == map["a" := Dispatching(Ticket(0, 1)), "b" := Idle]
            && s.rows.Keys == {0} && s.rows[0].owner == 1 && s.rows[0].status == Running && !s.rows[0].imported && s.calls == []
            && s.rows[0].leaseExpires == Some(MIN_LEASE) && s.rows[0].upstreamStarted.Some?
  {
    es := TwoWorkersAndAJob();
    var claim := Act("a", Claim(0, MIN_LEASE, Some(0), Ok));
    assert Sweep(After(Init(), es).rows, 0) == After(Init(), es).rows;
    RunOneMore(Init(), es, claim);
    es := es + [claim];
    var begin := Act("a", Begin(0, MIN_LEASE, Ok));
    RunOneMore(Init(), es, begin);
    es := es + [begin];
  }

  /** The window is real: worker b sweeps the lease of worker a between its BeginUpstream and its call. */
  lemma TheWindowIsReal() returns (es: seq<Event>)
    ensures Run(Init(), es)
    ensures var s := After(Init(), es);
            && "a" in s.workers && s.workers["a"] == Dispatching(Ticket(0, 1))
            && 0 in s.rows && s.rows[0].status == Indeterminate && !Holds(s.rows, 0, "a")
  {
    es := OneBegins();
    var sweep := Act("b", Claim(1 + MIN_LEASE, MIN_LEASE, None, Ok));
    assert Sweep(After(Init(), es).rows, 1 + MIN_LEASE)[0].status == Indeterminate;
    RunOneMore(Init(), es, sweep);
    es := es + [sweep];
  }

  /** In every run: who enters the call does so for a job on record as dispatched, which can end only as indeterminate if it is not held. */
  lemma CallsAreOnRecord(es: seq<Event>, w: WorkerId)
    requires Run(Init(), es) && MayAct(After(Init(), es), w, Enter)
    ensures var s := After(Init(), es);
            var id := s.workers[w].t.job;
            && id in s.rows && s.rows[id].upstreamStarted.Some? && !Called(s, id)
            && (Holds(s.rows, id, w) || s.rows[id].status == Indeterminate)
  {
    InitInv();
    RunKeeps(Init(), es);
    var s := After(Init(), es);
    assert PcOk(s, w, s.workers[w]);
  }

  // ---------- Cancel ----------

  /** A cancel is on record, and nobody stands between BeginUpstream and the call. */
  ghost predicate Withheld(s: State, id: JobId) {
    && id in s.rows && s.rows[id].cancelRequested.Some? && !Called(s, id)
    && forall w :: w in s.workers && s.workers[w].Dispatching? ==> s.workers[w].t.job != id
  }

  lemma WithheldStep(s: State, s': State, actor: Option<WorkerId>, id: JobId)
    requires Withheld(s, id) && Frame(s, s', actor)
    requires actor.Some? && s'.workers[actor.value].Dispatching? ==> s'.workers[actor.value].t.job != id
    ensures Withheld(s', id)
  {
    forall i | 0 <= i < |s'.calls|
      ensures s'.calls[i].job != id
    {
      if i < |s.calls| {
        assert s'.calls[i] == s.calls[i];
      }
    }
  }

  /** BeginUpstream refuses a job with a cancel on record. */
  lemma WithheldFromActor(s: State, w: WorkerId, action: Action, id: JobId)
    requires Withheld(s, id) && MayAct(s, w, action)
    ensures var pc := ActStep(s, w, action).workers[w]; pc.Dispatching? ==> pc.t.job != id
  {
    if action.Begin? {
      assert s.workers[w].t.job == id ==> !MayBegin(s.rows, id, w);
    }
  }

  lemma {:induction false} WithheldForEver(s: State, es: seq<Event>, id: JobId)
    requires Inv(s) && Withheld(s, id) && Run(s, es)
    ensures !Called(After(s, es), id)
    decreases |es|
  {
    if es != [] {
      StepKeeps(s, es[0]);
      StepFrame(s, es[0]);
      if es[0].Act? {
        WithheldFromActor(s, es[0].w, es[0].action, id);
      }
      WithheldStep(s, Step(s, es[0]), Actor(es[0]), id);
      WithheldForEver(Step(s, es[0]), es[1..], id);
    }
  }

  ghost predicate MayBeSent(s: State, id: JobId) {
    exists es :: Run(s, es) && Called(After(s, es), id)
  }

  /**
   Once a cancel is recorded for a job that was not sent yet, it can still be sent exactly when a worker
   already has its BeginUpstream behind it. A cancel that comes before BeginUpstream is always in time.
  */
  lemma CancelInTime(s: State, id: JobId)
    requires Inv(s) && id in s.rows && s.rows[id].cancelRequested.Some? && !Called(s, id)
    ensures MayBeSent(s, id) <==> exists w :: w in s.workers && s.workers[w].Dispatching? && s.workers[w].t.job == id
  {
    if w :| w in s.workers && s.workers[w].Dispatching? && s.workers[w].t.job == id {
      var es := [Act(w, Enter)];
      var s' := Step(s, es[0]);
      assert es[1..] == [] && Run(s', es[1..]);
      assert s'.calls[|s.calls|].job == id;
      assert Run(s, es) && After(s, es) == s';
    } else {
      forall es | Run(s, es)
        ensures !Called(After(s, es), id)
      {
        WithheldForEver(s, es, id);
      }
    }
  }

  /** Too late is real: the user cancels between the BeginUpstream of worker a and its call. */
  lemma ACancelTooLate() returns (es: seq<Event>)
    ensures Run(Init(), es)
    ensures var s := After(Init(), es);
            && 0 in s.rows && s.rows[0].cancelRequested.Some? && !Called(s, 0)
            && Run(s, [Act("a", Enter)]) && Called(After(s, [Act("a", Enter)]), 0)
  {
    es := OneBegins();
    RunOneMore(Init(), es, Cancel(1, 0, 1));
    es := es + [Cancel(1, 0, 1)];
    var s := After(Init(), es);
    var call := [Act("a", Enter)];
    assert MayAct(s, "a", Enter) && call[1..] == [];
    assert Run(Step(s, call[0]), call[1..]);
    assert Step(s, call[0]).calls[0].job == 0;
  }

  // ---------- No job is left behind ----------

  /** A queued job of ours is ready to be claimed; a running one has an owner and an expiry that will free it. */
  lemma NothingIsStranded(es: seq<Event>, id: JobId)
    requires Run(Init(), es) && id in After(Init(), es).rows && !After(Init(), es).rows[id].imported
    ensures var r := After(Init(), es).rows[id];
            && (r.status == Queued ==> Claimable(r) && r.leaseOwner.None? && r.leaseExpires.None? && r.upstreamStarted.None?)
            && (r.status == Running ==> r.leaseOwner.Some? && r.leaseExpires.Some?)
            && (Terminal(r.status) ==> r.leaseOwner.None? && r.leaseExpires.None? && r.finishedAt.Some?)
  {
    InitInv();
    RunKeeps(Init(), es);
    assert RowOk(After(Init(), es).rows[id]);
  }

  /**
   In every run: after a claim at a time no lease is older than that time, and the claimed job comes before
   every job that is still queued; nothing is claimed only when nothing is queued.
  */
  lemma ClaimClears(es: seq<Event>, w: WorkerId, at: Time, lease: int, picked: Option<JobId>, id: JobId)
    requires Run(Init(), es) && MayAct(After(Init(), es), w, Claim(at, lease, picked, Ok))
    requires id in ActStep(After(Init(), es), w, Claim(at, lease, picked, Ok)).rows
    ensures var rows := ActStep(After(Init(), es), w, Claim(at, lease, picked, Ok)).rows;
            && (rows[id].status == Running ==> rows[id].leaseExpires.Some? && rows[id].leaseExpires.value >= at)
            && (rows[id].status == Queued ==>
                picked.Some? && picked.value in rows && Holds(rows, picked.value, w) && Before(rows, picked.value, id))
  {
    InitInv();
    RunKeeps(Init(), es);
    ClaimLeaves(After(Init(), es), w, at, lease, picked, id);
  }

  lemma ClaimLeaves(s: State, w: WorkerId, at: Time, lease: int, picked: Option<JobId>, id: JobId)
    requires Inv(s) && MayAct(s, w, Claim(at, lease, picked, Ok))
    requires id in ActStep(s, w, Claim(at, lease, picked, Ok)).rows
    ensures var rows := ActStep(s, w, Claim(at, lease, picked, Ok)).rows;
            && (rows[id].status == Running ==> rows[id].leaseExpires.Some? && rows[id].leaseExpires.value >= at)
            && (rows[id].status == Queued ==>
                picked.Some? && picked.value in rows && Holds(rows, picked.value, w) && Before(rows, picked.value, id))
  {
    var swept := Sweep(s.rows, at);
    var rows := ActStep(s, w, Claim(at, lease, picked, Ok)).rows;
    assert id in s.rows && RowOk(s.rows[id]);
    SweepInterferes(s.rows[id], at);
    if rows[id].status == Queued {
      assert Claimable(swept[id]);
    }
  }

  /** How far a job still is from its end. */
  function Rank(r: Row): nat {
    match r.status
    case Queued => 4
    case Running => if r.phase == Saving then 1 else if r.phase == Upstream then 2 else 3
    case _ => 0
  }

  predicate Moved(r: Row, r': Row) {
    r.status != r'.status || r.phase != r'.phase
  }

  /** The one way back: a claim finds the lease over before dispatch, with no cancel. */
  predicate Requeues(r: Row, e: Event) {
    && e.Act? && e.action.Claim? && e.action.db != LostBefore
    && LeaseOver(r, e.action.at) && r.upstreamStarted.None? && r.cancelRequested.None?
  }

  predicate Descends(r: Row, r': Row) {
    Moved(r, r') ==> Rank(r') < Rank(r)
  }

  lemma StepDescends(s: State, e: Event, id: JobId)
    requires Inv(s) && Enabled(s, e) && id in s.rows && id in Step(s, e).rows
    ensures if Requeues(s.rows[id], e) then Rank(Step(s, e).rows[id]) <= Rank(s.rows[id]) + 1
            else Descends(s.rows[id], Step(s, e).rows[id])
  {
    assert RowOk(s.rows[id]);
    match e
    case Create(_, _, _, _, _) => assert id < s.next;
    case Import(_, _) => assert id < s.next;
    case Cancel(_, _, _) =>
    case Act(w, action) => ActDescends(s, w, action, id);
  }

  lemma ActDescends(s: State, w: WorkerId, action: Action, id: JobId)
    requires RowsOk(s) && WorkersOk(s) && MayAct(s, w, action) && id in s.rows && id in ActStep(s, w, action).rows
    ensures if Requeues(s.rows[id], Act(w, action)) then Rank(ActStep(s, w, action).rows[id]) <= Rank(s.rows[id]) + 1
            else Descends(s.rows[id], ActStep(s, w, action).rows[id])
  {
    assert RowOk(s.rows[id]);
    if w in s.workers {
      assert PcOk(s, w, s.workers[w]);
    }
    match action
    case Claim(at, lease, picked, db) => ClaimDescends(s.rows, w, at, lease, picked, db, id);
    case Begin(at, lease, db) => BeginDescends(s, w, at, lease, db, id);
    case Mark(at, lease, db) => MarkDescends(s, w, at, lease, db, id);
    case _ =>
  }

  lemma ClaimDescends(rows: Rows, w: WorkerId, at: Time, lease: int, picked: Option<JobId>, db: Db, id: JobId)
    requires id in rows && RowOk(rows[id]) && ClaimChoice(rows, at, picked)
    ensures var r, rows' := rows[id], ClaimEffect(rows, w, at, lease, picked, db).rows;
            id in rows' &&
            if Requeues(r, Act(w, Claim(at, lease, picked, db))) then Rank(rows'[id]) <= Rank(r) + 1
            else Descends(r, rows'[id])
  {
    var swept := Sweep(rows, at);
    assert id in swept && swept[id] == SweepRow(rows[id], at);
  }

  lemma BeginDescends(s: State, w: WorkerId, at: Time, lease: int, db: Db, id: JobId)
    requires w in s.workers && s.workers[w].Preparing? && PcOk(s, w, s.workers[w]) && id in s.rows
    ensures var rows' := BeginEffect(s.rows, w, s.workers[w].t, at, lease, db).rows;
            id in rows' && Descends(s.rows[id], rows'[id])
  {
  }

  lemma MarkDescends(s: State, w: WorkerId, at: Time, lease: int, db: Db, id: JobId)
    requires w in s.workers && s.workers[w].Answered? && PcOk(s, w, s.workers[w]) && id in s.rows
    ensures var pc := s.workers[w];
            var rows' := MarkEffect(s.rows, w, pc.t, pc.officialId, pc.body, at, lease, db).rows;
            id in rows' && Descends(s.rows[id], rows'[id])
  {
  }

  /** How often a run moves a job on, and how often it requeues it. */
  ghost function Moves(s: State, es: seq<Event>, id: JobId): nat
    requires Run(s, es)
    decreases |es|
  {
    if es == [] then 0 else
    var s' := Step(s, es[0]);
    Moves(s', es[1..], id) +
    if id in s.rows && id in s'.rows && Moved(s.rows[id], s'.rows[id]) && !Requeues(s.rows[id], es[0]) then 1 else 0
  }

  ghost function Requeued(s: State, es: seq<Event>, id: JobId): nat
    requires Run(s, es)
    decreases |es|
  {
    if es == [] then 0 else
    Requeued(Step(s, es[0]), es[1..], id) + if id in s.rows && Requeues(s.rows[id], es[0]) then 1 else 0
  }

  /** Apart from requeues a job changes its place at most four times, however long the run. */
  lemma {:induction false} JobsEnd(s: State, es: seq<Event>, id: JobId)
    requires Inv(s) && Run(s, es) && id in s.rows
    ensures id in After(s, es).rows
    ensures Moves(s, es, id) + Rank(After(s, es).rows[id]) <= Rank(s.rows[id]) + Requeued(s, es, id)
    decreases |es|
  {
    if es != [] {
      StepKeeps(s, es[0]);
      StepRow(s, es[0], id);
      StepDescends(s, es[0], id);
      JobsEnd(Step(s, es[0]), es[1..], id);
    }
  }

  // ---------- How a job ends ----------

  /** The steps of one worker, one after the other. */
  function Acts(w: WorkerId, actions: seq<Action>): seq<Event> {
    seq(|actions|, i requires 0 <= i < |actions| => Act(w, actions[i]))
  }

  lemma ActsMore(s: State, w: WorkerId, actions: seq<Action>, action: Action)
    requires Run(s, Acts(w, actions)) && MayAct(After(s, Acts(w, actions)), w, action)
    ensures Run(s, Acts(w, actions + [action]))
    ensures After(s, Acts(w, actions + [action])) == ActStep(After(s, Acts(w, actions)), w, action)
  {
    assert Acts(w, actions + [action]) == Acts(w, actions) + [Act(w, action)];
    RunOneMore(s, Acts(w, actions), Act(w, action));
  }

  /** A worker that nobody disturbs sends the job once and completes it with the stored assets in their order. */
  lemma UndisturbedCompletes(s: State, w: WorkerId, at: Time, lease: int, officialId: string, body: Body, assets: seq<AssetId>)
    requires Inv(s) && w in s.workers && s.workers[w].Preparing? && MayBegin(s.rows, s.workers[w].t.job, w)
    requires Storable(body, s.workers[w].t.requested) && |assets| == |body.items|
    ensures var t := s.workers[w].t;
            var es := Acts(w, [Begin(at, lease, Ok), Enter, Return(Response(officialId, body)),
                               Mark(at, lease, Ok), Store(Some(assets)), Complete(at, Ok)]);
            && Run(s, es)
            && var s' := After(s, es);
            && t.job in s'.rows && s'.rows[t.job].status == Completed && s'.rows[t.job].completedCount == |assets|
            && s'.rows[t.job].officialRequest == Some(officialId) && s'.rows[t.job].finishedAt == Some(at)
            && (forall p: nat :: p < |assets| ==> (t.job, p) in s'.results && s'.results[(t.job, p)] == assets[p])
            && s'.calls == s.calls + [Call(w, t.job)] && w in s'.workers && s'.workers[w] == Idle
  {
    var sent := [Begin(at, lease, Ok), Enter];
    IsSent(s, w, at, lease);
    AnswerCompletes(s, After(s, Acts(w, sent)), w, sent, at, lease, officialId, body, assets);
    assert sent + [Return(Response(officialId, body)), Mark(at, lease, Ok), Store(Some(assets)), Complete(at, Ok)]
        == [Begin(at, lease, Ok), Enter, Return(Response(officialId, body)), Mark(at, lease, Ok), Store(Some(assets)), Complete(at, Ok)];
  }

  lemma IsSent(s: State, w: WorkerId, at: Time, lease: int)
    requires w in s.workers && s.workers[w].Preparing? && MayBegin(s.rows, s.workers[w].t.job, w)
    ensures var t, es := s.workers[w].t, Acts(w, [Begin(at, lease, Ok), Enter]);
            && Run(s, es)
            && var s' := After(s, es);
            && w in s'.workers && s'.workers[w] == InFlight(t) && Holds(s'.rows, t.job, w) && s'.calls == s.calls + [Call(w, t.job)]
  {
    ActsMore(s, w, [], Begin(at, lease, Ok));
    assert [] + [Begin(at, lease, Ok)] == [Begin(at, lease, Ok)];
    ActsMore(s, w, [Begin(at, lease, Ok)], Enter);
    assert [Begin(at, lease, Ok)] + [Enter] == [Begin(at, lease, Ok), Enter];
  }

  lemma IsStored(s: State, s2: State, w: WorkerId, sent: seq<Action>, at: Time, lease: int,
                 officialId: string, body: Body, assets: seq<AssetId>)
    requires Run(s, Acts(w, sent)) && s2 == After(s, Acts(w, sent))
    requires w in s2.workers && s2.workers[w].InFlight? && Holds(s2.rows, s2.workers[w].t.job, w)
    requires Storable(body, s2.workers[w].t.requested) && |assets| == |body.items|
    ensures var t := s2.workers[w].t;
            var es := Acts(w, sent + [Return(Response(officialId, body)), Mark(at, lease, Ok), Store(Some(assets))]);
            && Run(s, es)
            && var s' := After(s, es);
            && w in s'.workers && s'.workers[w] == Finishing(t, assets) && Holds(s'.rows, t.job, w) && s'.calls == s2.calls
            && s'.rows[t.job].officialRequest == Some(officialId)
  {
    var answered, marked := sent + [Return(Response(officialId, body))], sent + [Return(Response(officialId, body)), Mark(at, lease, Ok)];
    ActsMore(s, w, sent, Return(Response(officialId, body)));
    assert marked == answered + [Mark(at, lease, Ok)];
    ActsMore(s, w, answered, Mark(at, lease, Ok));
    ActsMore(s, w, marked, Store(Some(assets)));
    assert marked + [Store(Some(assets))] == sent + [Return(Response(officialId, body)), Mark(at, lease, Ok), Store(Some(assets))];
  }

  lemma AnswerCompletes(s: State, s2: State, w: WorkerId, sent: seq<Action>, at: Time, lease: int,
                        officialId: string, body: Body, assets: seq<AssetId>)
    requires Run(s, Acts(w, sent)) && s2 == After(s, Acts(w, sent))
    requires w in s2.workers && s2.workers[w].InFlight? && Holds(s2.rows, s2.workers[w].t.job, w)
    requires Storable(body, s2.workers[w].t.requested) && |assets| == |body.items|
    ensures var t := s2.workers[w].t;
            var es := Acts(w, sent + [Return(Response(officialId, body)), Mark(at, lease, Ok), Store(Some(assets)), Complete(at, Ok)]);
            && Run(s, es)
            && var s' := After(s, es);
            && t.job in s'.rows && s'.rows[t.job].status == Completed && s'.rows[t.job].completedCount == |assets|
            && s'.rows[t.job].officialRequest == Some(officialId) && s'.rows[t.job].finishedAt == Some(at)
            && (forall p: nat :: p < |assets| ==> (t.job, p) in s'.results && s'.results[(t.job, p)] == assets[p])
            && s'.calls == s2.calls && w in s'.workers && s'.workers[w] == Idle
  {
    var stored := sent + [Return(Response(officialId, body)), Mark(at, lease, Ok), Store(Some(assets))];
    IsStored(s, s2, w, sent, at, lease, officialId, body, assets);
    ActsMore(s, w, stored, Complete(at, Ok));
    assert stored + [Complete(at, Ok)]
        == sent + [Return(Response(officialId, body)), Mark(at, lease, Ok), Store(Some(assets)), Complete(at, Ok)];
    forall p: nat | p < |assets|
      ensures (s2.workers[w].t.job, p) in ResultsOf(s2.workers[w].t.job, assets)
    {
    }
  }

  /** A cancel that comes before the dispatch ends the job as canceled, without a call. */
  lemma CancelEndsCanceled(s: State, w: WorkerId, at: Time, lease: int)
    requires Inv(s) && w in s.workers && s.workers[w].Preparing? && Holds(s.rows, s.workers[w].t.job, w)
    requires s.rows[s.workers[w].t.job].cancelRequested.Some?
    ensures var id := s.workers[w].t.job;
            var es := Acts(w, [Begin(at, lease, Ok), Fail(at, Ok)]);
            && Run(s, es) && id in After(s, es).rows && After(s, es).rows[id].status == Canceled
            && After(s, es).calls == s.calls && w in After(s, es).workers && After(s, es).workers[w] == Idle
  {
    ActsMore(s, w, [], Begin(at, lease, Ok));
    assert [] + [Begin(at, lease, Ok)] == [Begin(at, lease, Ok)];
    ActsMore(s, w, [Begin(at, lease, Ok)], Fail(at, Ok));
    assert [Begin(at, lease, Ok)] + [Fail(at, Ok)] == [Begin(at, lease, Ok), Fail(at, Ok)];
  }

  /** The code under which the end of a job is recorded. */
  ghost predicate EndsAs(s: State, id: JobId, status: Status, code: string, retryable: bool, at: Time) {
    && id in s.rows && s.rows[id].status == status && s.rows[id].error == Some(JobError(code, retryable))
    && s.rows[id].finishedAt == Some(at) && s.rows[id].leaseOwner.None? && s.rows[id].completedCount == 0
  }

  lemma FailEnds(s: State, w: WorkerId, first: Action, at: Time)
    requires Inv(s) && MayAct(s, w, first) && !first.Complete?
    requires var s' := ActStep(s, w, first); s'.workers[w].Failing? && Holds(s'.rows, s'.workers[w].t.job, w)
    ensures var pc := ActStep(s, w, first).workers[w];
            Run(s, Acts(w, [first, Fail(at, Ok)]))
            && EndsAs(After(s, Acts(w, [first, Fail(at, Ok)])), pc.t.job, FinalStatus(pc.asked), pc.error.code, pc.error.retryable, at)
  {
    var s' := ActStep(s, w, first);
    StepKeeps(s, Act(w, first));
    assert RowOk(s'.rows[s'.workers[w].t.job]);
    ActsMore(s, w, [], first);
    assert [] + [first] == [first];
    ActsMore(s, w, [first], Fail(at, Ok));
    assert [first] + [Fail(at, Ok)] == [first, Fail(at, Ok)];
  }

  /** A refused call ends the job: as indeterminate when nobody knows what the provider did, else as failed with its reason. */
  lemma RefusalEndsJob(s: State, w: WorkerId, kind: ErrorKind, at: Time)
    requires Inv(s) && w in s.workers && s.workers[w].InFlight? && Holds(s.rows, s.workers[w].t.job, w)
    ensures var id := s.workers[w].t.job;
            var es := Acts(w, [Return(Refused(kind)), Fail(at, Ok)]);
            && Run(s, es)
            && match kind
               case OutcomeUnknown => EndsAs(After(s, es), id, Indeterminate, "official_outcome_unknown", false, at)
               case InvalidResponse => EndsAs(After(s, es), id, Indeterminate, "official_outcome_unknown", false, at)
               case RateLimited => EndsAs(After(s, es), id, Failed, "rate_limited", true, at)
               case UpstreamUnavailable => EndsAs(After(s, es), id, Failed, "upstream_unavailable", true, at)
               case Unauthenticated => EndsAs(After(s, es), id, Failed, "unauthenticated", false, at)
               case Forbidden => EndsAs(After(s, es), id, Failed, "forbidden", false, at)
               case NotFound => EndsAs(After(s, es), id, Failed, "not_found", false, at)
               case InvalidRequest => EndsAs(After(s, es), id, Failed, "invalid_request", false, at)
  {
    RefusalPlace(s, w, kind);
    hide Inv, EndsAs, ActStep, After, Run;
    FailEnds(s, w, Return(Refused(kind)), at);
  }

  lemma RefusalPlace(s: State, w: WorkerId, kind: ErrorKind)
    requires w in s.workers && s.workers[w].InFlight? && Holds(s.rows, s.workers[w].t.job, w)
    ensures MayAct(s, w, Return(Refused(kind)))
    ensures var s', t := ActStep(s, w, Return(Refused(kind))), s.workers[w].t;
      && s'.workers[w] == (if kind == OutcomeUnknown || kind == InvalidResponse then Failing(t, Indeterminate, JobError("official_outcome_unknown", false))
                           else Failing(t, Failed, JobError(KindCode(kind), kind == RateLimited || kind == UpstreamUnavailable)))
      && Holds(s'.rows, t.job, w)
  {
  }

  /** A result that cannot be read or stored ends the job as indeterminate, because the call was made. */
  lemma UnstoredEndsJob(s: State, w: WorkerId, at: Time)
    requires Inv(s) && w in s.workers && s.workers[w].Storing? && Holds(s.rows, s.workers[w].t.job, w)
    ensures var pc := s.workers[w];
            var es := Acts(w, [Store(None), Fail(at, Ok)]);
            && Run(s, es)
            && EndsAs(After(s, es), pc.t.job, Indeterminate,
                      if Storable(pc.body, pc.t.requested) then "result_storage_failed" else "invalid_official_result", false, at)
  {
    FailEnds(s, w, Store(None), at);
  }

  /** A claim whose request cannot be prepared, and a BeginUpstream that is lost, end the job as failed, without a call. */
  lemma UnsentEndsFailed(s: State, w: WorkerId, code: string, begin: Action, at: Time)
    requires Inv(s) && w in s.workers && s.workers[w].Preparing? && Holds(s.rows, s.workers[w].t.job, w)
    requires begin.Begin? && begin.db != Ok
    ensures var id := s.workers[w].t.job;
            var gaveUp, lost := Acts(w, [GiveUp(code), Fail(at, Ok)]), Acts(w, [begin, Fail(at, Ok)]);
            && Run(s, gaveUp) && EndsAs(After(s, gaveUp), id, Failed, code, false, at) && After(s, gaveUp).calls == s.calls
            && Run(s, lost) && EndsAs(After(s, lost), id, Failed, "canceled_before_dispatch", false, at) && After(s, lost).calls == s.calls
  {
    FailEnds(s, w, GiveUp(code), at);
    FailEnds(s, w, begin, at);
    NoCallIn(s, w, GiveUp(code), at);
    NoCallIn(s, w, begin, at);
  }

  lemma NoCallIn(s: State, w: WorkerId, first: Action, at: Time)
    requires Run(s, Acts(w, [first, Fail(at, Ok)])) && !first.Enter?
    ensures After(s, Acts(w, [first, Fail(at, Ok)])).calls == s.calls
  {
    var es := Acts(w, [first, Fail(at, Ok)]);
    assert es[0] == Act(w, first) && es[1..][0] == Act(w, Fail(at, Ok)) && es[1..][1..] == [];
    var s1 := Step(s, es[0]);
    assert Run(s1, es[1..]) && After(s1, es[1..]) == Step(s1, es[1..][0]);
  }

  // ---------- Idempotent creation ----------

  /** In every run, an owner and a key have at most one job. */
  lemma OneJobPerKey(es: seq<Event>, a: JobId, b: JobId)
    requires Run(Init(), es) && a in After(Init(), es).rows && b in After(Init(), es).rows
    requires After(Init(), es).rows[a].owner == After(Init(), es).rows[b].owner
    requires After(Init(), es).rows[a].keyHash == After(Init(), es).rows[b].keyHash
    ensures a == b
  {
    InitInv();
    RunKeeps(Init(), es);
    var s := After(Init(), es);
    assert SameKey(s.rows[a], s.rows[b].owner, s.rows[b].keyHash);
  }

  /**
   Whatever happens between two creates with one key, the second changes nothing, and it is answered with
   the job that the key had after the first when its request is the stored one, else with a conflict.
  */
  lemma RepeatedCreate(s: State, first: Event, es: seq<Event>, again: Event, reply: CreateReply) returns (id: JobId)
    requires Inv(s) && first.Create? && Enabled(s, first) && Run(Step(s, first), es)
    requires again.Create? && again.owner == first.owner && again.keyHash == first.keyHash
    requires Enabled(After(Step(s, first), es), again)
    requires var now := After(Step(s, first), es); Answers(now.rows, now.next, again.owner, again.keyHash, again.request, reply)
    ensures Step(After(Step(s, first), es), again) == After(Step(s, first), es)
    ensures id in Step(s, first).rows && SameKey(Step(s, first).rows[id], first.owner, first.keyHash)
    ensures !KeyTaken(s.rows, first.owner, first.keyHash) ==> id == s.next && Step(s, first).rows[id].request == first.request
    ensures id in After(Step(s, first), es).rows && SameIdentity(Step(s, first).rows[id], After(Step(s, first), es).rows[id])
    ensures reply == if again.request == Step(s, first).rows[id].request then Repeated(id) else IdempotencyConflict
  {
    var s1 := Step(s, first);
    StepKeeps(s, first);
    id := CreatedKey(s, first);
    RunRow(s1, es, id);
    RunKeeps(s1, es);
    var s2 := After(s1, es);
    assert SameKey(s2.rows[id], again.owner, again.keyHash);
    assert KeyTaken(s2.rows, again.owner, again.keyHash);
    forall other | other in s2.rows && SameKey(s2.rows[other], again.owner, again.keyHash)
      ensures other == id
    {
      assert SameKey(s2.rows[other], s2.rows[id].owner, s2.rows[id].keyHash);
    }
  }

  lemma CreatedKey(s: State, e: Event) returns (id: JobId)
    requires e.Create? && Enabled(s, e)
    ensures id in Step(s, e).rows && SameKey(Step(s, e).rows[id], e.owner, e.keyHash)
    ensures !KeyTaken(s.rows, e.owner, e.keyHash) ==> id == s.next && Step(s, e).rows[id].request == e.request
  {
    if KeyTaken(s.rows, e.owner, e.keyHash) {
      id :| id in s.rows && SameKey(s.rows[id], e.owner, e.keyHash);
    } else {
      id := s.next;
    }
  }
}
