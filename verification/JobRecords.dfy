/** What the rows of the queue record over a run: who created and canceled a job, in which order, and when it changed. */
module JobRecords {
  import opened Wrappers
  import opened JobTable
  import opened JobProtocol
  import opened JobInvariant
  import opened JobTheorems

  // ---------- What a create leaves ----------

  /** A new job is the owner's, as requested, and waits; nothing else changes. */
  lemma CreateAdds(s: State, e: Event)
    requires Inv(s) && e.Create? && Enabled(s, e)
    ensures var taken := exists id :: id in s.rows && s.rows[id].owner == e.owner && s.rows[id].keyHash == e.keyHash;
      && (taken ==> Step(s, e) == s)
      && (!taken ==>
            var r := Step(s, e).rows;
            && s.next !in s.rows && r.Keys == s.rows.Keys + {s.next} && (forall id :: id in s.rows ==> r[id] == s.rows[id])
            && r[s.next].owner == e.owner && r[s.next].keyHash == e.keyHash && r[s.next].request == e.request
            && r[s.next].requested == e.requested && r[s.next].createdAt == e.at == r[s.next].updatedAt
            && r[s.next].status == Queued && !r[s.next].imported && r[s.next].cancelRequested.None?
            && r[s.next].error.None? && r[s.next].finishedAt.None?)
  {
    assert KeyTaken(s.rows, e.owner, e.keyHash) <==> exists id :: id in s.rows && s.rows[id].owner == e.owner && s.rows[id].keyHash == e.keyHash by {
      assert forall id :: id in s.rows ==> (SameKey(s.rows[id], e.owner, e.keyHash) <==> s.rows[id].owner == e.owner && s.rows[id].keyHash == e.keyHash);
    }
    assert s.next !in s.rows;
  }

  // ---------- What a cancel leaves ----------

  /** A cancel by the owner ends a queued job, is noted on a running one, and otherwise nothing changes. */
  lemma CancelNotes(s: State, e: Event, id: JobId)
    requires e.Cancel? && id in s.rows
    ensures var r, r' := s.rows[id], Step(s, e).rows[id];
      && Step(s, e) == s.(rows := Step(s, e).rows) && Step(s, e).rows.Keys == s.rows.Keys
      && if e.job != id || e.owner != r.owner then r' == r
         else match r.status
              case Queued => r' == r.(status := Canceled, cancelRequested := Some(e.at), finishedAt := Some(e.at), updatedAt := e.at)
              case Running => r' == r.(cancelRequested := Some(e.at), updatedAt := e.at)
              case _ => r' == r
  {
  }

  // ---------- Only the owner cancels ----------

  predicate CancelsOwn(e: Event, owner: int, id: JobId) {
    e.Cancel? && e.owner == owner && e.job == id
  }

  lemma StepCancels(s: State, e: Event, id: JobId)
    requires Inv(s) && Enabled(s, e) && id in Step(s, e).rows && !Step(s, e).rows[id].imported
    requires Step(s, e).rows[id].cancelRequested.Some? && !CancelsOwn(e, Step(s, e).rows[id].owner, id)
    ensures id in s.rows && s.rows[id].cancelRequested.Some? && s.rows[id].owner == Step(s, e).rows[id].owner && !s.rows[id].imported
  {
    match e
    case Act(w, action) =>
      assert id in s.rows;
      ActCancels(s, w, action, id);
    case _ =>
  }

  lemma ActCancels(s: State, w: WorkerId, action: Action, id: JobId)
    requires Inv(s) && MayAct(s, w, action) && id in s.rows
    ensures id in ActStep(s, w, action).rows && SameIdentity(s.rows[id], ActStep(s, w, action).rows[id])
    ensures ActStep(s, w, action).rows[id].cancelRequested == s.rows[id].cancelRequested
  {
    ActRow(s, w, action, id);
    SameCancel(s, w, action, id);
  }

  lemma SameCancel(s: State, w: WorkerId, action: Action, id: JobId)
    requires MayAct(s, w, action) && id in s.rows && id in ActStep(s, w, action).rows
    ensures ActStep(s, w, action).rows[id].cancelRequested == s.rows[id].cancelRequested
  {
    match action
    case Claim(at, lease, picked, db) =>
      var swept := Sweep(s.rows, at);
      assert id in swept && swept[id].cancelRequested == s.rows[id].cancelRequested;
    case _ =>
  }

  /** In every run a job with a cancel on record was canceled by its owner, or came with an import. */
  lemma {:induction false} OnlyTheOwnerCancels(s: State, es: seq<Event>, id: JobId)
    requires Inv(s) && Run(s, es) && id in After(s, es).rows && !After(s, es).rows[id].imported
    requires After(s, es).rows[id].cancelRequested.Some?
    ensures (id in s.rows && s.rows[id].cancelRequested.Some? && s.rows[id].owner == After(s, es).rows[id].owner && !s.rows[id].imported)
            || exists i :: 0 <= i < |es| && CancelsOwn(es[i], After(s, es).rows[id].owner, id)
    decreases |es|
  {
    if es != [] {
      StepKeeps(s, es[0]);
      OnlyTheOwnerCancels(Step(s, es[0]), es[1..], id);
      var owner := After(s, es).rows[id].owner;
      if i :| 0 <= i < |es[1..]| && CancelsOwn(es[1..][i], owner, id) {
        assert CancelsOwn(es[i + 1], owner, id);
      } else if !CancelsOwn(es[0], owner, id) {
        StepCancels(s, es[0], id);
      }
    }
  }

  // ---------- The order of creation ----------

  /**
   Of two jobs created one after the other by clocks that do not go back, the second is claimed only when the
   first does not wait any more, whatever happened between.
  */
  lemma {:induction false} ClaimedInOrder(s: State, first: Event, es: seq<Event>, second: Event, more: seq<Event>, w: WorkerId, at: Time, lease: int)
    requires Inv(s) && first.Create? && Enabled(s, first) && !KeyTaken(s.rows, first.owner, first.keyHash)
    requires Run(Step(s, first), es)
    requires var s2 := After(Step(s, first), es);
      && second.Create? && Enabled(s2, second) && !KeyTaken(s2.rows, second.owner, second.keyHash) && first.at <= second.at
      && Run(Step(s2, second), more)
      && MayAct(After(Step(s2, second), more), w, Claim(at, lease, Some(s2.next), Ok))
    ensures var s2 := After(Step(s, first), es);
      var s3 := ActStep(After(Step(s2, second), more), w, Claim(at, lease, Some(s2.next), Ok));
      s.next in s3.rows && s3.rows[s.next].status != Queued
  {
    var s1 := Step(s, first);
    StepKeeps(s, first);
    CreateAdds(s, first);
    RunRow(s1, es, s.next);
    RunKeeps(s1, es);
    var s2 := After(s1, es);
    CreateAdds(s2, second);
    StepKeeps(s2, second);
    RunRow(Step(s2, second), more, s.next);
    RunRow(Step(s2, second), more, s2.next);
    RunKeeps(Step(s2, second), more);
    assert s.next < s2.next;
    ClaimSkipsNone(After(Step(s2, second), more), w, at, lease, s.next, s2.next);
  }

  lemma ClaimSkipsNone(s: State, w: WorkerId, at: Time, lease: int, a: JobId, b: JobId)
    requires Inv(s) && a in s.rows && b in s.rows && a < b && s.rows[a].createdAt <= s.rows[b].createdAt
    requires MayAct(s, w, Claim(at, lease, Some(b), Ok))
    ensures var rows := ActStep(s, w, Claim(at, lease, Some(b), Ok)).rows; a in rows && rows[a].status != Queued
  {
    var swept := Sweep(s.rows, at);
    SweepInterferes(s.rows[a], at);
    SweepInterferes(s.rows[b], at);
    assert RowOk(s.rows[a]) && a in swept && b in swept;
    assert Claimable(swept[a]) ==> Before(swept, b, a);
    assert !Before(swept, b, a);
  }

  // ---------- Every change is stamped ----------

  /** The time of the statement of an event; a step without a statement changes no row. */
  function TimeOf(e: Event): Time {
    match e
    case Create(_, _, _, _, at) => at
    case Cancel(_, _, at) => at
    case Import(row, _) => row.updatedAt
    case Act(_, action) =>
      match action
      case Claim(at, _, _, _) => at
      case Begin(at, _, _) => at
      case Mark(at, _, _) => at
      case Complete(at, _) => at
      case Fail(at, _) => at
      case _ => 0
  }

  lemma StepStamps(s: State, e: Event, id: JobId)
    requires Inv(s) && Enabled(s, e) && id in s.rows
    ensures id in Step(s, e).rows && (Step(s, e).rows[id] != s.rows[id] ==> Step(s, e).rows[id].updatedAt == TimeOf(e))
  {
    assert id < s.next;
    match e
    case Act(w, action) => ActStamps(s, w, action, id);
    case _ =>
  }

  lemma ActStamps(s: State, w: WorkerId, action: Action, id: JobId)
    requires MayAct(s, w, action) && id in s.rows
    ensures id in ActStep(s, w, action).rows
    ensures ActStep(s, w, action).rows[id] != s.rows[id] ==> ActStep(s, w, action).rows[id].updatedAt == TimeOf(Act(w, action))
  {
    match action
    case Claim(at, lease, picked, db) =>
      var swept := Sweep(s.rows, at);
      assert id in swept && (swept[id] != s.rows[id] ==> swept[id].updatedAt == at);
    case _ =>
  }

  /**
   Over any run: a job that is not as it was bears the time of one of the statements since. So who compares time
   stamps misses nothing but changes within one of them.
  */
  lemma {:induction false} ChangesAreStamped(s: State, es: seq<Event>, id: JobId)
    requires Inv(s) && Run(s, es) && id in s.rows
    ensures id in After(s, es).rows
    ensures After(s, es).rows[id] != s.rows[id] ==> exists i :: 0 <= i < |es| && After(s, es).rows[id].updatedAt == TimeOf(es[i])
    decreases |es|
  {
    if es != [] {
      StepKeeps(s, es[0]);
      StepStamps(s, es[0], id);
      ChangesAreStamped(Step(s, es[0]), es[1..], id);
      var now := After(s, es).rows[id];
      if now != Step(s, es[0]).rows[id] {
        var i :| 0 <= i < |es[1..]| && now.updatedAt == TimeOf(es[1..][i]);
        assert now.updatedAt == TimeOf(es[i + 1]);
      }
    }
  }
}
