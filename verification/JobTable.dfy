/**
 The table canvas_jobs and its result rows, with every SQL statement of the job service as a
 function on them, and the service itself as a class whose methods run those statements.

 A timestamp is an integer; NOW() is an argument. A digest stands for the text it is taken of.
*/
module JobTable {
  import opened Wrappers

  type JobId = nat
  type AssetId = nat
  type Time = int
  type WorkerId = string

  datatype Status = Queued | Running | Partial | Completed | Failed | Canceled | Indeterminate | Expired

  datatype Phase = Preflight | Leased | Validating | Upstream | Saving

  datatype JobError = JobError(code: string, retryable: bool)

  datatype Row = Row(
    owner: int, keyHash: string, request: string, requested: nat, createdAt: Time,
    status: Status, phase: Phase,
    leaseOwner: Option<WorkerId>, leaseExpires: Option<Time>,
    upstreamStarted: Option<Time>, officialRequest: Option<string>, cancelRequested: Option<Time>,
    completedCount: nat, error: Option<JobError>, imported: bool,
    finishedAt: Option<Time>, updatedAt: Time)

  type Rows = map<JobId, Row>

  /** canvas_job_results: the asset stored for a job at a position. */
  type Results = map<(JobId, nat), AssetId>

  const MIN_LEASE: int := 10_000  // milliseconds

  predicate Terminal(s: Status) {
    s != Queued && s != Running
  }

  // ---------- Create ----------

  function NewRow(owner: int, keyHash: string, request: string, requested: nat, now: Time): Row {
    Row(owner, keyHash, request, requested, now, Queued, Preflight, None, None, None, None, None, 0, None, false, None, now)
  }

  predicate SameKey(r: Row, owner: int, keyHash: string) {
    r.owner == owner && r.keyHash == keyHash
  }

  predicate KeyTaken(rows: Rows, owner: int, keyHash: string) {
    exists id :: id in rows && SameKey(rows[id], owner, keyHash)
  }

  function CreateRows(rows: Rows, next: JobId, owner: int, keyHash: string, request: string, requested: nat, now: Time): Rows {
    if KeyTaken(rows, owner, keyHash) then rows
    else rows[next := NewRow(owner, keyHash, request, requested, now)]
  }

  datatype CreateReply = Created(id: JobId) | Repeated(id: JobId) | IdempotencyConflict

  /** What a create may answer: the job of the key, new or with an equal request, or a conflict. */
  predicate Answers(rows: Rows, next: JobId, owner: int, keyHash: string, request: string, reply: CreateReply) {
    match reply
    case Created(id) => !KeyTaken(rows, owner, keyHash) && id == next
    case Repeated(id) => id in rows && SameKey(rows[id], owner, keyHash) && rows[id].request == request
    case IdempotencyConflict => exists id :: id in rows && SameKey(rows[id], owner, keyHash) && rows[id].request != request
  }

  // ---------- Cancel ----------

  function CancelRow(r: Row, now: Time): Row {
    match r.status
    case Queued => r.(status := Canceled, cancelRequested := Some(now), finishedAt := Some(now), updatedAt := now)
    case Running => r.(cancelRequested := Some(now), updatedAt := now)
    case _ => r
  }

  function CancelRows(rows: Rows, owner: int, id: JobId, now: Time): Rows {
    if id in rows && rows[id].owner == owner then rows[id := CancelRow(rows[id], now)] else rows
  }

  // ---------- Claim ----------

  predicate LeaseOver(r: Row, now: Time) {
    r.status == Running && r.leaseExpires.Some? && r.leaseExpires.value < now
  }

  /** UPDATE ... SET status = 'indeterminate' WHERE the lease is over AND upstream_started_at IS NOT NULL */
  function LoseDispatched(r: Row, now: Time): Row {
    if LeaseOver(r, now) && r.upstreamStarted.Some? then
      r.(status := Indeterminate, error := Some(JobError("lease_lost_after_dispatch", false)),
         finishedAt := Some(now), updatedAt := now, leaseOwner := None, leaseExpires := None)
    else r
  }

  /** UPDATE ... SET status = 'queued' WHERE the lease is over AND neither dispatched nor canceled */
  function RequeueUndispatched(r: Row, now: Time): Row {
    if LeaseOver(r, now) && r.upstreamStarted.None? && r.cancelRequested.None? then
      r.(status := Queued, phase := Preflight, leaseOwner := None, leaseExpires := None, updatedAt := now)
    else r
  }

  /** UPDATE ... SET status = 'canceled' WHERE the lease is over AND canceled before dispatch */
  function CancelUndispatched(r: Row, now: Time): Row {
    if LeaseOver(r, now) && r.upstreamStarted.None? && r.cancelRequested.Some? then
      r.(status := Canceled, finishedAt := Some(now), updatedAt := now, leaseOwner := None, leaseExpires := None)
    else r
  }

  /** What the three statements together make of one row: exactly one of them applies to an expired lease. */
  function SweepRow(r: Row, now: Time): Row {
    if !LeaseOver(r, now) then r
    else if r.upstreamStarted.Some? then
      r.(status := Indeterminate, error := Some(JobError("lease_lost_after_dispatch", false)),
         finishedAt := Some(now), updatedAt := now, leaseOwner := None, leaseExpires := None)
    else if r.cancelRequested.None? then
      r.(status := Queued, phase := Preflight, updatedAt := now, leaseOwner := None, leaseExpires := None)
    else
      r.(status := Canceled, finishedAt := Some(now), updatedAt := now, leaseOwner := None, leaseExpires := None)
  }

  function Sweep(rows: Rows, now: Time): Rows {
    map id | id in rows :: SweepRow(rows[id], now)
  }

  /** One clean-up statement over the whole table. */
  function LoseAll(rows: Rows, now: Time): Rows { map id | id in rows :: LoseDispatched(rows[id], now) }

  function RequeueAll(rows: Rows, now: Time): Rows { map id | id in rows :: RequeueUndispatched(rows[id], now) }

  function CancelAll(rows: Rows, now: Time): Rows { map id | id in rows :: CancelUndispatched(rows[id], now) }

  /** No statement sees a row that an earlier one changed, so the order of the three does not matter to any row. */
  lemma ThreeStatementsSweep(rows: Rows, now: Time)
    ensures CancelAll(RequeueAll(LoseAll(rows, now), now), now) == Sweep(rows, now)
  {
    var lost := LoseAll(rows, now);
    var requeued := RequeueAll(lost, now);
    var swept := CancelAll(requeued, now);
    forall id | id in rows
      ensures swept[id] == SweepRow(rows[id], now)
    {
      var r := rows[id];
      assert swept[id] == CancelUndispatched(RequeueUndispatched(LoseDispatched(r, now), now), now);
    }
  }

  predicate Claimable(r: Row) {
    r.status == Queued && !r.imported && r.cancelRequested.None?
  }

  /** ORDER BY created_at, id */
  predicate Before(rows: Rows, a: JobId, b: JobId)
    requires a in rows && b in rows
  {
    rows[a].createdAt < rows[b].createdAt || (rows[a].createdAt == rows[b].createdAt && a <= b)
  }

  ghost predicate IsOldest(rows: Rows, id: JobId) {
    && id in rows && Claimable(rows[id])
    && forall other :: other in rows && Claimable(rows[other]) ==> Before(rows, id, other)
  }

  ghost predicate SomeClaimable(rows: Rows) {
    exists id :: id in rows && Claimable(rows[id])
  }

  function LeaseRow(r: Row, worker: WorkerId, now: Time, lease: int): Row {
    r.(status := Running, phase := Validating, leaseOwner := Some(worker), leaseExpires := Some(now + lease), updatedAt := now)
  }

  /** The table after a claim that chose picked. */
  function ClaimRows(rows: Rows, worker: WorkerId, now: Time, lease: int, picked: Option<JobId>): Rows {
    var swept := Sweep(rows, now);
    if picked.Some? && picked.value in swept then
      swept[picked.value := LeaseRow(swept[picked.value], worker, now, lease)]
    else swept
  }

  /** The only choices a claim may make: the oldest claimable row, or none when there is none. */
  ghost predicate ClaimChoice(rows: Rows, now: Time, picked: Option<JobId>) {
    match picked
    case Some(id) => IsOldest(Sweep(rows, now), id)
    case None => !SomeClaimable(Sweep(rows, now))
  }

  // ---------- BeginUpstream, MarkSaving, Complete, Fail ----------

  predicate Holds(rows: Rows, id: JobId, worker: WorkerId) {
    id in rows && rows[id].status == Running && rows[id].leaseOwner == Some(worker)
  }

  predicate MayBegin(rows: Rows, id: JobId, worker: WorkerId) {
    Holds(rows, id, worker) && rows[id].cancelRequested.None?
  }

  function BeginRows(rows: Rows, id: JobId, worker: WorkerId, now: Time, lease: int): Rows {
    if MayBegin(rows, id, worker) then
      rows[id := rows[id].(phase := Upstream, upstreamStarted := Some(now), leaseExpires := Some(now + lease), updatedAt := now)]
    else rows
  }

  function SavingRows(rows: Rows, id: JobId, worker: WorkerId, official: string, now: Time, lease: int): Rows {
    if Holds(rows, id, worker) then
      rows[id := rows[id].(phase := Saving, officialRequest := Some(official), leaseExpires := Some(now + lease), updatedAt := now)]
    else rows
  }

  function CompleteRows(rows: Rows, id: JobId, worker: WorkerId, count: nat, now: Time): Rows {
    if Holds(rows, id, worker) then
      rows[id := rows[id].(status := Completed, phase := Saving, completedCount := count,
                           finishedAt := Some(now), updatedAt := now, leaseOwner := None, leaseExpires := None)]
    else rows
  }

  function ResultsOf(id: JobId, assets: seq<AssetId>): Results {
    map i: nat | i < |assets| :: (id, i) := assets[i]
  }

  /** The upserts of a completion, one position after the other. */
  function Upserted(results: Results, id: JobId, assets: seq<AssetId>, n: nat): Results
    requires n <= |assets|
  {
    if n == 0 then results else Upserted(results, id, assets, n - 1)[(id, n - 1) := assets[n - 1]]
  }

  lemma OneMoreResult(id: JobId, assets: seq<AssetId>, n: nat)
    requires n < |assets|
    ensures ResultsOf(id, assets[..n + 1]) == ResultsOf(id, assets[..n])[(id, n) := assets[n]]
  {
    var more, fewer := ResultsOf(id, assets[..n + 1]), ResultsOf(id, assets[..n]);
    forall k: (JobId, nat)
      ensures k in more <==> k in fewer || k == (id, n)
    {
    }
  }

  lemma {:induction false} UpsertsMakeResults(results: Results, id: JobId, assets: seq<AssetId>, n: nat)
    requires n <= |assets|
    ensures Upserted(results, id, assets, n) == results + ResultsOf(id, assets[..n])
  {
    if n == 0 {
      assert ResultsOf(id, assets[..0]) == map[];
    } else {
      UpsertsMakeResults(results, id, assets, n - 1);
      OneMoreResult(id, assets, n - 1);
      UpdateLast(results, ResultsOf(id, assets[..n - 1]), (id, n - 1), assets[n - 1]);
    }
  }

  lemma UpdateLast(a: Results, b: Results, k: (JobId, nat), v: AssetId)
    ensures (a + b)[k := v] == a + b[k := v]
  {
  }

  function CompleteResults(rows: Rows, results: Results, id: JobId, worker: WorkerId, assets: seq<AssetId>): Results {
    if Holds(rows, id, worker) then results + ResultsOf(id, assets) else results
  }

  /** A caller may ask for three final statuses; any other one is recorded as failed. */
  function FinalStatus(asked: Status): Status {
    if asked == Failed || asked == Indeterminate || asked == Canceled then asked else Failed
  }

  function FailRows(rows: Rows, id: JobId, worker: WorkerId, asked: Status, error: JobError, now: Time): Rows {
    if Holds(rows, id, worker) then
      rows[id := rows[id].(status := FinalStatus(asked), error := Some(error),
                           finishedAt := Some(now), updatedAt := now, leaseOwner := None, leaseExpires := None)]
    else rows
  }

  // ---------- The service ----------

  datatype ClaimReply = Invalid | NothingToDo | Claimed(id: JobId, requested: nat)

  datatype Outcome = Done | ErrCanceled | ErrNotFound

  class JobService {
    var rows: Rows
    var results: Results
    var next: JobId

    constructor ()
      ensures rows == map[] && results == map[] && next == 0
    {
      rows, results, next := map[], map[], 0;
    }

    method Create(owner: int, keyHash: string, request: string, requested: nat, now: Time) returns (reply: CreateReply)
      requires next !in rows
      modifies this
      ensures rows == CreateRows(old(rows), old(next), owner, keyHash, request, requested, now)
      ensures results == old(results)
      ensures Answers(old(rows), old(next), owner, keyHash, request, reply)
      ensures next == if reply.Created? then old(next) + 1 else old(next)
    {
      var ids := rows.Keys;
      while ids != {}
        invariant ids <= rows.Keys && rows == old(rows) && results == old(results) && next == old(next)
        invariant forall id :: id in rows.Keys - ids ==> !SameKey(rows[id], owner, keyHash)
        decreases |ids|
      {
        var id :| id in ids;
        if SameKey(rows[id], owner, keyHash) {
          return if rows[id].request == request then Repeated(id) else IdempotencyConflict;
        }
        ids := ids - {id};
      }
      rows := rows[next := NewRow(owner, keyHash, request, requested, now)];
      next := next + 1;
      return Created(next - 1);
    }

    method Cancel(owner: int, id: JobId, now: Time)
      modifies this`rows
      ensures rows == CancelRows(old(rows), owner, id, now)
    {
      if id in rows && rows[id].owner == owner {
        var r := rows[id];
        if r.status == Queued || r.status == Running {
          r := r.(cancelRequested := Some(now), updatedAt := now);
          if r.status == Queued {
            r := r.(status := Canceled, finishedAt := Some(now));
          }
          rows := rows[id := r];
        }
      }
      assert rows == CancelRows(old(rows), owner, id, now);
    }

    /** The three statements that open a claim, one after the other. */
    method CleanUp(now: Time)
      modifies this`rows
      ensures rows == Sweep(old(rows), now)
    {
      ThreeStatementsSweep(rows, now);
      rows := LoseAll(rows, now);
      rows := RequeueAll(rows, now);
      rows := CancelAll(rows, now);
    }

    /** The first row of the claimable ones in creation order. */
    method OldestClaimable() returns (picked: Option<JobId>)
      ensures picked.Some? ==> IsOldest(rows, picked.value)
      ensures picked.None? ==> !SomeClaimable(rows)
    {
      picked := None;
      var ids := rows.Keys;
      while ids != {}
        invariant ids <= rows.Keys
        invariant picked.Some? ==> picked.value in rows && Claimable(rows[picked.value])
        invariant picked.Some? ==> forall id :: id in rows.Keys - ids && Claimable(rows[id]) ==> Before(rows, picked.value, id)
        invariant picked.None? ==> forall id :: id in rows.Keys - ids ==> !Claimable(rows[id])
        decreases |ids|
      {
        var id :| id in ids;
        if Claimable(rows[id]) && (picked.None? || Before(rows, id, picked.value)) {
          picked := Some(id);
        }
        ids := ids - {id};
      }
    }

    method Claim(worker: WorkerId, lease: int, now: Time) returns (reply: ClaimReply)
      modifies this`rows
      ensures reply.Invalid? <==> worker == "" || lease < 10_000
      ensures reply.Invalid? ==> rows == old(rows)
      ensures reply.NothingToDo? ==> ClaimChoice(old(rows), now, None) && rows == ClaimRows(old(rows), worker, now, lease, None)
      ensures reply.Claimed? ==>
        && ClaimChoice(old(rows), now, Some(reply.id))
        && rows == ClaimRows(old(rows), worker, now, lease, Some(reply.id))
        && reply.requested == rows[reply.id].requested
    {
      if worker == "" || lease < MIN_LEASE {
        return Invalid;
      }
      CleanUp(now);
      var picked := OldestClaimable();
      if picked.None? {
        return NothingToDo;
      }
      var id := picked.value;
      rows := rows[id := rows[id].(status := Running, phase := Validating, leaseOwner := Some(worker),
                                   leaseExpires := Some(now + lease), updatedAt := now)];
      return Claimed(id, rows[id].requested);
    }

    method BeginUpstream(id: JobId, worker: WorkerId, lease: int, now: Time) returns (outcome: Outcome)
      modifies this`rows
      ensures rows == BeginRows(old(rows), id, worker, now, lease)
      ensures outcome == if MayBegin(old(rows), id, worker) then Done else ErrCanceled
    {
      if id in rows && rows[id].status == Running && rows[id].leaseOwner == Some(worker) && rows[id].cancelRequested.None? {
        rows := rows[id := rows[id].(phase := Upstream, upstreamStarted := Some(now),
                                     leaseExpires := Some(now + lease), updatedAt := now)];
        return Done;
      }
      return ErrCanceled;
    }

    method MarkSaving(id: JobId, worker: WorkerId, official: string, lease: int, now: Time) returns (outcome: Outcome)
      modifies this`rows
      ensures rows == SavingRows(old(rows), id, worker, official, now, lease)
      ensures outcome == if Holds(old(rows), id, worker) then Done else ErrNotFound
    {
      if id in rows && rows[id].status == Running && rows[id].leaseOwner == Some(worker) {
        rows := rows[id := rows[id].(phase := Saving, officialRequest := Some(official),
                                     leaseExpires := Some(now + lease), updatedAt := now)];
        return Done;
      }
      return ErrNotFound;
    }

    /** One transaction: upsert a result per asset, then the guarded update; no row updated rolls both back. */
    method Complete(id: JobId, worker: WorkerId, assets: seq<AssetId>, now: Time) returns (outcome: Outcome)
      modifies this`rows, this`results
      ensures rows == CompleteRows(old(rows), id, worker, |assets|, now)
      ensures results == CompleteResults(old(rows), old(results), id, worker, assets)
      ensures outcome == if Holds(old(rows), id, worker) then Done else ErrNotFound
    {
      var before := results;
      for index := 0 to |assets|
        invariant results == Upserted(before, id, assets, index)
        invariant rows == old(rows)
      {
        results := results[(id, index) := assets[index]];
      }
      UpsertsMakeResults(before, id, assets, |assets|);
      assert assets[..|assets|] == assets;
      if id in rows && rows[id].status == Running && rows[id].leaseOwner == Some(worker) {
        rows := rows[id := rows[id].(status := Completed, phase := Saving, completedCount := |assets|,
                                     finishedAt := Some(now), updatedAt := now, leaseOwner := None, leaseExpires := None)];
        return Done;
      }
      results := before;
      return ErrNotFound;
    }

    method Fail(id: JobId, worker: WorkerId, asked: Status, error: JobError, now: Time) returns (outcome: Outcome)
      modifies this`rows
      ensures rows == FailRows(old(rows), id, worker, asked, error, now)
      ensures outcome == if Holds(old(rows), id, worker) then Done else ErrNotFound
    {
      var status := asked;
      if status != Failed && status != Indeterminate && status != Canceled {
        status := Failed;
      }
      if id in rows && rows[id].status == Running && rows[id].leaseOwner == Some(worker) {
        rows := rows[id := rows[id].(status := status, error := Some(error),
                                     finishedAt := Some(now), updatedAt := now, leaseOwner := None, leaseExpires := None)];
        return Done;
      }
      return ErrNotFound;
    }
  }
}
