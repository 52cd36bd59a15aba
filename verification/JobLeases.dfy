/** What a lease is worth: until it is over nobody takes the job away, and the first claim after that does. */
module JobLeases {
  import opened Wrappers
  import opened JobTable
  import opened JobProtocol
  import opened JobInvariant
  import opened JobTheorems

  /** The job runs for the worker, and its lease ends at a time. */
  predicate LeasedUntil(rows: Rows, id: JobId, w: WorkerId, until: Time) {
    id in rows && rows[id].status == Running && rows[id].leaseOwner == Some(w) && rows[id].leaseExpires == Some(until)
  }

  /** The action leases the job to its worker: a claim that picked it, or a successful BeginUpstream or MarkSaving. */
  ghost predicate Leases(s: State, w: WorkerId, action: Action, id: JobId) {
    MayAct(s, w, action) &&
    match action
    case Claim(_, _, picked, db) => picked == Some(id) && db == Ok
    case Begin(_, _, db) => db == Ok && ActStep(s, w, action).workers[w] == Dispatching(s.workers[w].t) && s.workers[w].t.job == id
    case Mark(_, _, db) => db == Ok && ActStep(s, w, action).workers[w].Storing? && s.workers[w].t.job == id
    case _ => false
  }

  /** The time and the length of a lease. */
  function EndOf(action: Action): Time {
    match action
    case Claim(at, lease, _, _) => at + lease
    case Begin(at, lease, _) => at + lease
    case Mark(at, lease, _) => at + lease
    case _ => 0
  }

  lemma ClaimLeases(s: State, w: WorkerId, at: Time, lease: int, id: JobId)
    requires MayAct(s, w, Claim(at, lease, Some(id), Ok))
    ensures LeasedUntil(ActStep(s, w, Claim(at, lease, Some(id), Ok)).rows, id, w, at + lease)
  {
  }

  lemma BeginLeases(s: State, w: WorkerId, at: Time, lease: int)
    requires MayAct(s, w, Begin(at, lease, Ok)) && ActStep(s, w, Begin(at, lease, Ok)).workers[w].Dispatching?
    ensures LeasedUntil(ActStep(s, w, Begin(at, lease, Ok)).rows, s.workers[w].t.job, w, at + lease)
  {
  }

  lemma MarkLeases(s: State, w: WorkerId, at: Time, lease: int)
    requires MayAct(s, w, Mark(at, lease, Ok)) && ActStep(s, w, Mark(at, lease, Ok)).workers[w].Storing?
    ensures LeasedUntil(ActStep(s, w, Mark(at, lease, Ok)).rows, s.workers[w].t.job, w, at + lease)
  {
  }

  lemma LeaseIsGiven(s: State, w: WorkerId, action: Action, id: JobId)
    requires Leases(s, w, action, id)
    ensures LeasedUntil(ActStep(s, w, action).rows, id, w, EndOf(action))
  {
    hide ActStep, LeasedUntil, MayAct;
    match action
    case Claim(at, lease, _, _) => ClaimLeases(s, w, at, lease, id);
    case Begin(at, lease, _) => BeginLeases(s, w, at, lease);
    case Mark(at, lease, _) => MarkLeases(s, w, at, lease);
    case _ =>
  }

  /** Another worker or a user does something, and claims only while the lease lasts. */
  predicate Elsewhere(e: Event, w: WorkerId, until: Time) {
    e.Act? ==> e.w != w && (e.action.Claim? ==> e.action.at <= until)
  }

  lemma LeaseStaysInClaim(rows: Rows, v: WorkerId, at: Time, lease: int, picked: Option<JobId>, db: Db, id: JobId, w: WorkerId, until: Time)
    requires LeasedUntil(rows, id, w, until) && at <= until && ClaimChoice(rows, at, picked)
    ensures LeasedUntil(ClaimEffect(rows, v, at, lease, picked, db).rows, id, w, until)
  {
    assert Sweep(rows, at)[id] == rows[id];
  }

  lemma LeaseStaysInAct(s: State, v: WorkerId, action: Action, id: JobId, w: WorkerId, until: Time)
    requires LeasedUntil(s.rows, id, w, until) && MayAct(s, v, action) && Elsewhere(Act(v, action), w, until)
    ensures LeasedUntil(ActStep(s, v, action).rows, id, w, until)
  {
    match action
    case Claim(at, lease, picked, db) => LeaseStaysInClaim(s.rows, v, at, lease, picked, db, id, w, until);
    case _ =>
  }

  lemma LeaseStays(s: State, e: Event, id: JobId, w: WorkerId, until: Time)
    requires RowsOk(s) && LeasedUntil(s.rows, id, w, until) && Enabled(s, e) && Elsewhere(e, w, until)
    ensures LeasedUntil(Step(s, e).rows, id, w, until)
  {
    if e.Act? {
      LeaseStaysInAct(s, e.w, e.action, id, w, until);
    }
  }

  lemma {:induction false} LeaseLasts(s: State, es: seq<Event>, id: JobId, w: WorkerId, until: Time)
    requires Inv(s) && LeasedUntil(s.rows, id, w, until) && Run(s, es)
    requires forall i :: 0 <= i < |es| ==> Elsewhere(es[i], w, until)
    ensures LeasedUntil(After(s, es).rows, id, w, until)
    decreases |es|
  {
    if es != [] {
      StepKeeps(s, es[0]);
      LeaseStays(s, es[0], id, w, until);
      LeaseLasts(Step(s, es[0]), es[1..], id, w, until);
    }
  }

  /** The run from a lease on, in which its worker does nothing and every claim comes before its end. */
  ghost predicate LeaseRun(s: State, w: WorkerId, action: Action, id: JobId, es: seq<Event>) {
    && Inv(s) && Leases(s, w, action, id) && Run(ActStep(s, w, action), es)
    && forall i :: 0 <= i < |es| ==> Elsewhere(es[i], w, EndOf(action))
  }

  /**
   A worker that claims, begins or marks at a time with a lease keeps the job for the length of the lease:
   whatever users and other workers do meanwhile, it is running and the worker's. A claim takes it away
   exactly when it comes later than that.
  */
  lemma {:induction false} LeaseHolds(s: State, w: WorkerId, action: Action, id: JobId, es: seq<Event>)
    requires LeaseRun(s, w, action, id, es)
    ensures var now := After(ActStep(s, w, action), es);
      && id in now.rows && now.rows[id].status == Running && now.rows[id].leaseOwner == Some(w)
      && forall v, at, lease, picked :: v != w && MayAct(now, v, Claim(at, lease, picked, Ok)) ==>
           (Holds(ActStep(now, v, Claim(at, lease, picked, Ok)).rows, id, w) <==> at <= EndOf(action))
  {
    hide Inv, RowOk;
    var s1 := ActStep(s, w, action);
    LeaseIsGiven(s, w, action, id);
    LeasingKeeps(s, w, action);
    LeaseLasts(s1, es, id, w, EndOf(action));
    var now := After(s1, es);
    forall v, at, lease, picked | v != w && MayAct(now, v, Claim(at, lease, picked, Ok))
      ensures Holds(ActStep(now, v, Claim(at, lease, picked, Ok)).rows, id, w) <==> at <= EndOf(action)
    {
      ClaimDecides(now, v, at, lease, picked, id, w, EndOf(action));
    }
  }

  lemma LeasingKeeps(s: State, w: WorkerId, action: Action)
    requires Inv(s) && MayAct(s, w, action)
    ensures Inv(ActStep(s, w, action))
  {
    StepKeeps(s, Act(w, action));
  }

  lemma ClaimDecides(s: State, v: WorkerId, at: Time, lease: int, picked: Option<JobId>, id: JobId, w: WorkerId, until: Time)
    requires v != w && LeasedUntil(s.rows, id, w, until) && MayAct(s, v, Claim(at, lease, picked, Ok))
    ensures Holds(ActStep(s, v, Claim(at, lease, picked, Ok)).rows, id, w) <==> at <= until
  {
    if at <= until {
      LeaseStaysInClaim(s.rows, v, at, lease, picked, Ok, id, w, until);
    } else {
      var swept := Sweep(s.rows, at);
      assert swept[id].status != Running;
    }
  }

  /** What a claim makes of a row whose lease is over: claimed by it or waiting, if neither sent nor canceled. */
  predicate Freed(r: Row, r': Row, v: WorkerId, at: Time, lease: int, claimed: bool) {
    if r.upstreamStarted.Some? then
      r'.status == Indeterminate && r'.error == Some(JobError("lease_lost_after_dispatch", false)) && r'.finishedAt == Some(at)
    else if r.cancelRequested.Some? then r'.status == Canceled && r'.finishedAt == Some(at)
    else if claimed then r'.status == Running && r'.leaseOwner == Some(v) && r'.leaseExpires == Some(at + lease)
    else r'.status == Queued && r'.leaseOwner.None? && r'.leaseExpires.None?
  }

  /** After a lease is over, the first claim settles what becomes of the job. */
  lemma {:induction false} LeaseEnds(s: State, w: WorkerId, action: Action, id: JobId, es: seq<Event>, v: WorkerId, at: Time, lease: int, picked: Option<JobId>)
    requires LeaseRun(s, w, action, id, es) && v != w && at > EndOf(action)
    requires MayAct(After(ActStep(s, w, action), es), v, Claim(at, lease, picked, Ok))
    ensures var now := After(ActStep(s, w, action), es);
      var rows' := ActStep(now, v, Claim(at, lease, picked, Ok)).rows;
      id in now.rows && id in rows' && Freed(now.rows[id], rows'[id], v, at, lease, picked == Some(id))
  {
    hide Inv, RowOk;
    var s1 := ActStep(s, w, action);
    LeaseIsGiven(s, w, action, id);
    LeasingKeeps(s, w, action);
    LeaseLasts(s1, es, id, w, EndOf(action));
    ClaimFrees(After(s1, es), v, at, lease, picked, id, w, EndOf(action));
  }

  lemma ClaimFrees(s: State, v: WorkerId, at: Time, lease: int, picked: Option<JobId>, id: JobId, w: WorkerId, until: Time)
    requires LeasedUntil(s.rows, id, w, until) && at > until && MayAct(s, v, Claim(at, lease, picked, Ok))
    ensures var rows' := ActStep(s, v, Claim(at, lease, picked, Ok)).rows;
      id in rows' && Freed(s.rows[id], rows'[id], v, at, lease, picked == Some(id))
  {
    assert id in Sweep(s.rows, at);
  }
}
