/**
 Every run of the job queue: any number of workers going through the steps of RunOnce, users who
 create and cancel at any moment, imports of finished jobs, and workers that stall or die between
 any two steps. A step is one SQL statement, one transaction, or one side of the provider call.

 The log of calls is history: one entry for each time DoImageRequest is entered.
*/
module JobProtocol {
  import opened Wrappers
  import opened JobTable

  // ---------- The provider ----------

  datatype ErrorKind =
    | Unauthenticated | Forbidden | NotFound | RateLimited | InvalidRequest
    | UpstreamUnavailable | InvalidResponse | OutcomeUnknown

  /** One element of the response: the text of b64_json and what strict base64 makes of it. */
  datatype Item = Item(base64: string, payload: Option<string>)

  datatype Body = Undecodable | Data(items: seq<Item>)

  const MAX_UPLOAD_BYTES: nat := 32 * 1024 * 1024

  predicate ItemOk(item: Item) {
    && item.base64 != ""
    && |item.base64| / 4 * 3 <= MAX_UPLOAD_BYTES
    && item.payload.Some?
    && 0 < |item.payload.value| <= MAX_UPLOAD_BYTES
  }

  /** A body that can be stored: between one and max items, every one of them inline and bounded. */
  predicate Storable(body: Body, max: nat) {
    body.Data? && 1 <= |body.items| <= max && forall i :: 0 <= i < |body.items| ==> ItemOk(body.items[i])
  }

  method ParseOutputs(body: Body, max: nat) returns (outputs: Option<seq<string>>)
    ensures outputs.Some? <==> Storable(body, max)
    ensures outputs.Some? <==>
      && body.Data? && 1 <= |body.items| <= max
      && forall i :: 0 <= i < |body.items| ==>
           && 0 < |body.items[i].base64| && |body.items[i].base64| / 4 * 3 <= 33_554_432
           && body.items[i].payload.Some? && 0 < |body.items[i].payload.value| <= 33_554_432
    ensures outputs.Some? ==> |outputs.value| == |body.items|
    ensures outputs.Some? ==> forall i :: 0 <= i < |body.items| ==> body.items[i].payload == Some(outputs.value[i])
  {
    if body.Undecodable? || |body.items| == 0 || |body.items| > max {
      return None;
    }
    var result: seq<string> := [];
    for index := 0 to |body.items|
      invariant |result| == index
      invariant forall i :: 0 <= i < index ==> ItemOk(body.items[i]) && body.items[i].payload == Some(result[i])
    {
      var item := body.items[index];
      if item.base64 == "" || |item.base64| / 4 * 3 > MAX_UPLOAD_BYTES {
        return None;
      }
      if item.payload.None? || |item.payload.value| == 0 || |item.payload.value| > MAX_UPLOAD_BYTES {
        return None;
      }
      result := result + [item.payload.value];
    }
    return Some(result);
  }

  datatype Answer = Response(officialId: string, body: Body) | Refused(kind: ErrorKind)

  function KindCode(kind: ErrorKind): string {
    match kind
    case Unauthenticated => "unauthenticated"
    case Forbidden => "forbidden"
    case NotFound => "not_found"
    case RateLimited => "rate_limited"
    case InvalidRequest => "invalid_request"
    case UpstreamUnavailable => "upstream_unavailable"
    case InvalidResponse => "invalid_response"
    case OutcomeUnknown => "indeterminate"
  }

  predicate OutcomeIsUnknown(kind: ErrorKind) {
    kind == OutcomeUnknown || kind == InvalidResponse
  }

  // ---------- States ----------

  /** What a claim hands to its worker. */
  datatype Ticket = Ticket(job: JobId, requested: nat)

  /** Where a worker stands in RunOnce. */
  datatype Pc =
    | Idle
    | Preparing(t: Ticket)                        // claimed, building the request
    | Dispatching(t: Ticket)                      // BeginUpstream succeeded
    | InFlight(t: Ticket)                         // inside DoImageRequest
    | Answered(t: Ticket, officialId: string, body: Body)
    | Storing(t: Ticket, body: Body)              // MarkSaving succeeded
    | Finishing(t: Ticket, assets: seq<AssetId>)  // about to call Complete
    | Failing(t: Ticket, asked: Status, error: JobError)  // about to call Fail
    | Stopped                                     // RunOnce returned an error, or the process died

  datatype Call = Call(worker: WorkerId, job: JobId)

  datatype State = State(
    rows: Rows, results: Results, next: JobId, workers: map<WorkerId, Pc>, calls: seq<Call>)

  function Init(): State {
    State(map[], map[], 0, map[], [])
  }

  // ---------- Steps ----------

  /** What the caller of a statement sees: success, or an error with the statement committed or not. */
  datatype Db = Ok | LostBefore | LostAfter

  /** One step of a worker. */
  datatype Action =
    | Start
    | Die
    | Claim(at: Time, lease: int, picked: Option<JobId>, db: Db)
    | GiveUp(code: string)               // credential, key or request could not be prepared
    | Begin(at: Time, lease: int, db: Db)
    | Enter                              // DoImageRequest starts
    | Return(answer: Answer)
    | Mark(at: Time, lease: int, db: Db)
    | Store(stored: Option<seq<AssetId>>)
    | Complete(at: Time, db: Db)
    | Fail(at: Time, db: Db)

  datatype Event =
    | Create(owner: int, keyHash: string, request: string, requested: nat, at: Time)
    | Cancel(owner: int, job: JobId, at: Time)
    | Import(row: Row, assets: map<nat, AssetId>)
    | Act(w: WorkerId, action: Action)

  /** An imported job is finished, unleased and without dispatch. */
  predicate ImportedRow(r: Row) {
    r.imported && Terminal(r.status) && r.leaseOwner.None? && r.leaseExpires.None? && r.upstreamStarted.None?
  }

  /** Where a worker has to stand for an action; a worker id is used by one process only. */
  ghost predicate MayAct(s: State, w: WorkerId, action: Action) {
    if action.Start? then w != "" && w !in s.workers
    else
      w in s.workers &&
      var pc := s.workers[w];
      match action
      case Die => true
      case Claim(at, lease, picked, _) => pc.Idle? && lease >= MIN_LEASE && ClaimChoice(s.rows, at, picked)
      case GiveUp(_) => pc.Preparing?
      case Begin(_, _, _) => pc.Preparing?
      case Enter => pc.Dispatching?
      case Return(_) => pc.InFlight?
      case Mark(_, _, _) => pc.Answered?
      case Store(stored) =>
        pc.Storing? && (stored.Some? ==> Storable(pc.body, pc.t.requested) && |stored.value| == |pc.body.items|)
      case Complete(_, _) => pc.Finishing?
      case Fail(_, _) => pc.Failing?
  }

  ghost predicate Enabled(s: State, e: Event) {
    match e
    case Create(_, _, _, requested, _) => 1 <= requested <= 10
    case Cancel(_, _, _) => true
    case Import(row, _) => ImportedRow(row) && !KeyTaken(s.rows, row.owner, row.keyHash)
    case Act(w, action) => MayAct(s, w, action)
  }

  function ImportedResults(id: JobId, assets: map<nat, AssetId>): Results {
    map p: nat | p in assets :: (id, p) := assets[p]
  }

  function CreateStep(s: State, owner: int, keyHash: string, request: string, requested: nat, at: Time): State {
    s.(rows := CreateRows(s.rows, s.next, owner, keyHash, request, requested, at),
       next := if KeyTaken(s.rows, owner, keyHash) then s.next else s.next + 1)
  }

  function ImportStep(s: State, row: Row, assets: map<nat, AssetId>): State {
    s.(rows := s.rows[s.next := row], next := s.next + 1, results := s.results + ImportedResults(s.next, assets))
  }

  /** What an action leaves of the table, and where it puts its worker. */
  datatype Effect = Effect(rows: Rows, pc: Pc)

  function ClaimEffect(rows: Rows, w: WorkerId, at: Time, lease: int, picked: Option<JobId>, db: Db): Effect {
    var rows' := ClaimRows(rows, w, at, lease, picked);
    if db == LostBefore then Effect(rows, Stopped)
    else if db == LostAfter then Effect(rows', Stopped)
    else if picked.Some? && picked.value in rows' then
      Effect(rows', Preparing(Ticket(picked.value, rows'[picked.value].requested)))
    else Effect(rows', Idle)
  }

  /** RunOnce turns ErrCanceled into "canceled" and any other error of BeginUpstream into "failed". */
  function BeginEffect(rows: Rows, w: WorkerId, t: Ticket, at: Time, lease: int, db: Db): Effect {
    var rows' := BeginRows(rows, t.job, w, at, lease);
    var error := JobError("canceled_before_dispatch", false);
    if db == LostBefore then Effect(rows, Failing(t, Failed, error))
    else if db == LostAfter then Effect(rows', Failing(t, Failed, error))
    else if MayBegin(rows, t.job, w) then Effect(rows', Dispatching(t))
    else Effect(rows', Failing(t, Canceled, error))
  }

  function ReturnPlace(t: Ticket, answer: Answer): Pc {
    match answer
    case Response(officialId, body) => Answered(t, officialId, body)
    case Refused(kind) =>
      if OutcomeIsUnknown(kind) then Failing(t, Indeterminate, JobError("official_outcome_unknown", false))
      else Failing(t, Failed, JobError(KindCode(kind), kind == RateLimited || kind == UpstreamUnavailable))
  }

  function MarkEffect(rows: Rows, w: WorkerId, t: Ticket, officialId: string, body: Body, at: Time, lease: int, db: Db): Effect {
    if db == LostBefore then Effect(rows, Stopped)
    else Effect(SavingRows(rows, t.job, w, officialId, at, lease),
                if db == LostAfter || !Holds(rows, t.job, w) then Stopped else Storing(t, body))
  }

  function StorePlace(t: Ticket, body: Body, stored: Option<seq<AssetId>>): Pc {
    if stored.Some? then Finishing(t, stored.value)
    else if Storable(body, t.requested) then Failing(t, Indeterminate, JobError("result_storage_failed", false))
    else Failing(t, Indeterminate, JobError("invalid_official_result", false))
  }

  /** Complete and Fail: RunOnce returns their error, and the worker stops on it. */
  function LastEffect(rows: Rows, rows': Rows, w: WorkerId, t: Ticket, db: Db): Effect {
    if db == LostBefore then Effect(rows, Stopped)
    else Effect(rows', if db == LostAfter || !Holds(rows, t.job, w) then Stopped else Idle)
  }

  ghost function Perform(s: State, w: WorkerId, action: Action): Effect
    requires MayAct(s, w, action)
  {
    if action.Start? then Effect(s.rows, Idle) else
    var pc := s.workers[w];
    match action
    case Die => Effect(s.rows, Stopped)
    case Claim(at, lease, picked, db) => ClaimEffect(s.rows, w, at, lease, picked, db)
    case GiveUp(code) => Effect(s.rows, Failing(pc.t, Failed, JobError(code, false)))
    case Begin(at, lease, db) => BeginEffect(s.rows, w, pc.t, at, lease, db)
    case Enter => Effect(s.rows, InFlight(pc.t))
    case Return(answer) => Effect(s.rows, ReturnPlace(pc.t, answer))
    case Mark(at, lease, db) => MarkEffect(s.rows, w, pc.t, pc.officialId, pc.body, at, lease, db)
    case Store(stored) => Effect(s.rows, StorePlace(pc.t, pc.body, stored))
    case Complete(at, db) => LastEffect(s.rows, CompleteRows(s.rows, pc.t.job, w, |pc.assets|, at), w, pc.t, db)
    case Fail(at, db) => LastEffect(s.rows, FailRows(s.rows, pc.t.job, w, pc.asked, pc.error, at), w, pc.t, db)
  }

  function CallsAfter(s: State, w: WorkerId, action: Action): seq<Call> {
    if action.Enter? && w in s.workers && s.workers[w].Dispatching? then s.calls + [Call(w, s.workers[w].t.job)] else s.calls
  }

  /** The state with an action's effect in place. */
  function Put(s: State, w: WorkerId, effect: Effect): State {
    s.(rows := effect.rows, workers := s.workers[w := effect.pc])
  }

  function ResultsAfter(s: State, w: WorkerId, action: Action): Results {
    if action.Complete? && action.db != LostBefore && w in s.workers && s.workers[w].Finishing? then
      CompleteResults(s.rows, s.results, s.workers[w].t.job, w, s.workers[w].assets)
    else s.results
  }

  ghost function ActStep(s: State, w: WorkerId, action: Action): State
    requires MayAct(s, w, action)
  {
    Put(s, w, Perform(s, w, action)).(results := ResultsAfter(s, w, action), calls := CallsAfter(s, w, action))
  }

  ghost function Step(s: State, e: Event): State
    requires Enabled(s, e)
  {
    match e
    case Create(owner, keyHash, request, requested, at) => CreateStep(s, owner, keyHash, request, requested, at)
    case Cancel(owner, job, at) => s.(rows := CancelRows(s.rows, owner, job, at))
    case Import(row, assets) => ImportStep(s, row, assets)
    case Act(w, action) => ActStep(s, w, action)
  }

  ghost predicate Run(s: State, es: seq<Event>)
    decreases |es|
  {
    es == [] || (Enabled(s, es[0]) && Run(Step(s, es[0]), es[1..]))
  }

  ghost function After(s: State, es: seq<Event>): State
    requires Run(s, es)
    decreases |es|
  {
    if es == [] then s else After(Step(s, es[0]), es[1..])
  }

  // ---------- The invariant ----------

  predicate Undispatched(r: Row) {
    r.upstreamStarted.None?
  }

  /** What one row always satisfies. */
  predicate RowOk(r: Row) {
    && (r.status == Queued ==>
        !r.imported && r.phase == Preflight && r.leaseOwner.None? && r.leaseExpires.None? && Undispatched(r) && r.cancelRequested.None?)
    && (r.status == Running ==>
        && !r.imported && r.leaseOwner.Some? && r.leaseExpires.Some?
        && (r.phase == Validating || r.phase == Upstream || r.phase == Saving)
        && (r.phase == Validating <==> Undispatched(r)))
    && (r.imported ==> ImportedRow(r))
    && (!r.imported && Terminal(r.status) ==> r.leaseOwner.None? && r.leaseExpires.None? && r.finishedAt.Some?)
    && (!r.imported && r.status == Canceled ==> r.cancelRequested.Some? && Undispatched(r))
    && (!r.imported ==> r.status != Partial && r.status != Expired && 1 <= r.requested)
    && (!r.imported && r.status == Completed ==> 1 <= r.completedCount <= r.requested)
    && (!r.imported && r.status != Completed ==> r.completedCount == 0)
  }

  ghost predicate RowsOk(s: State) {
    forall id :: id in s.rows ==> id < s.next && RowOk(s.rows[id])
  }

  ghost predicate KeysUnique(s: State) {
    forall a, b :: a in s.rows && b in s.rows && SameKey(s.rows[a], s.rows[b].owner, s.rows[b].keyHash) ==> a == b
  }

  /** The positions of a job that completed here are 0..completedCount-1; any other job of ours has none. */
  ghost predicate ResultsOk(s: State) {
    && (forall k :: k in s.results ==> k.0 in s.rows)
    && (forall id, p: nat :: id in s.rows && !s.rows[id].imported ==>
          ((id, p) in s.results <==> p < s.rows[id].completedCount))
  }

  ghost predicate Called(s: State, id: JobId) {
    exists i :: 0 <= i < |s.calls| && s.calls[i].job == id
  }

  ghost predicate CallsOk(s: State) {
    && (forall i :: 0 <= i < |s.calls| ==>
          s.calls[i].job in s.rows && !s.rows[s.calls[i].job].imported && !Undispatched(s.rows[s.calls[i].job]))
    && (forall i, j :: 0 <= i < j < |s.calls| ==> s.calls[i].job != s.calls[j].job)
    && (forall id :: id in s.rows && !s.rows[id].imported && s.rows[id].status == Completed ==> Called(s, id))
  }

  predicate OnJob(pc: Pc, id: JobId) {
    !pc.Idle? && (pc.Stopped? || pc.t.job == id)
  }

  /** The owner of a running row is a worker that is at this row, or has stopped. */
  ghost predicate OwnersOk(s: State) {
    forall id :: id in s.rows && s.rows[id].status == Running && s.rows[id].leaseOwner.Some? ==>
      s.rows[id].leaseOwner.value in s.workers && OnJob(s.workers[s.rows[id].leaseOwner.value], id)
  }

  predicate HoldsAt(s: State, id: JobId, w: WorkerId, phase: Phase) {
    Holds(s.rows, id, w) ==> s.rows[id].phase == phase
  }

  /** What the place of one worker says about the row it works on. */
  ghost predicate PcOk(s: State, w: WorkerId, pc: Pc) {
    pc.Idle? || pc.Stopped? ||
    (&& pc.t.job in s.rows && !s.rows[pc.t.job].imported && pc.t.requested == s.rows[pc.t.job].requested
     && match pc
        case Preparing(t) => HoldsAt(s, t.job, w, Validating)
        case Dispatching(t) =>
          && !Undispatched(s.rows[t.job]) && !Called(s, t.job)
          && (Holds(s.rows, t.job, w) || s.rows[t.job].status == Indeterminate)
          && HoldsAt(s, t.job, w, Upstream)
        case InFlight(t) => Called(s, t.job) && HoldsAt(s, t.job, w, Upstream)
        case Answered(t, _, _) => Called(s, t.job) && HoldsAt(s, t.job, w, Upstream)
        case Storing(t, _) => Called(s, t.job) && HoldsAt(s, t.job, w, Saving)
        case Finishing(t, assets) => Called(s, t.job) && HoldsAt(s, t.job, w, Saving) && 1 <= |assets| <= t.requested
        case Failing(t, asked, _) =>
          && (asked == Failed || asked == Indeterminate || asked == Canceled)
          && (asked == Canceled && Holds(s.rows, t.job, w) ==>
              s.rows[t.job].cancelRequested.Some? && Undispatched(s.rows[t.job])))
  }

  ghost predicate WorkersOk(s: State) {
    forall w :: w in s.workers ==> PcOk(s, w, s.workers[w])
  }

  ghost predicate OneDispatcher(s: State) {
    forall v, w :: (v in s.workers && w in s.workers && s.workers[v].Dispatching? && s.workers[w].Dispatching? &&
                    s.workers[v].t.job == s.workers[w].t.job) ==> v == w
  }

  ghost predicate Inv(s: State) {
    RowsOk(s) && KeysUnique(s) && ResultsOk(s) && CallsOk(s) && OwnersOk(s) && WorkersOk(s) && OneDispatcher(s)
  }
}
