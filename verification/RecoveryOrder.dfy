/**
 When the status of a source depends on the order in which tasks finish: a source is settled when the last of
 its own tasks finishes, by what its targets are then, and tasks of other sources may change these targets
 before or after.
*/
module RecoveryOrder {
  import opened Wrappers
  import opened Recovery
  import opened RecoveryTargets

  // ---------- Orders ----------

  lemma {:induction false} TwoOfIt(us: seq<Update>, x: Update)
    requires multiset(us)[x] >= 2
    ensures exists i, j :: 0 <= i < j < |us| && us[i] == x && us[j] == x
  {
    var rest, last := us[..|us| - 1], us[|us| - 1];
    assert us == rest + [last];
    if last == x {
      assert multiset(rest)[x] >= 1;
      assert x in multiset(rest);
      var i :| 0 <= i < |rest| && rest[i] == x;
      assert us[i] == x && us[|rest|] == x;
    } else {
      TwoOfIt(rest, x);
      var i, j :| 0 <= i < j < |rest| && rest[i] == x && rest[j] == x;
      assert us[i] == x && us[j] == x;
    }
  }

  lemma Elsewhere(us: seq<Update>, vs: seq<Update>, a: nat, b: nat) returns (i: nat, j: nat)
    requires multiset(us) == multiset(vs) && a < b < |vs|
    ensures i < |us| && j < |us| && i != j && us[i] == vs[a] && us[j] == vs[b]
  {
    assert vs[a] in multiset(vs) && vs[b] in multiset(vs);
    assert vs[a] in us && vs[b] in us;
    if vs[a] == vs[b] {
      Twice(vs, a, b);
      TwoOfIt(us, vs[a]);
      i, j :| 0 <= i < j < |us| && us[i] == vs[a] && us[j] == vs[a];
    } else {
      i :| 0 <= i < |us| && us[i] == vs[a];
      j :| 0 <= j < |us| && us[j] == vs[b];
    }
  }

  lemma Twice(vs: seq<Update>, a: nat, b: nat)
    requires a < b < |vs| && vs[a] == vs[b]
    ensures multiset(vs)[vs[a]] >= 2
  {
    assert vs == vs[..b] + [vs[b]] + vs[b + 1..];
    assert vs[a] in vs[..b];
    assert vs[a] in multiset(vs[..b]);
  }

  /** What does not depend on the order of the updates. */
  lemma AnotherOrder(us: seq<Update>, vs: seq<Update>, records: seq<Binding>)
    requires multiset(us) == multiset(vs) && OnSlots(us) && OpenTasks(us, records)
    ensures OnSlots(vs) && OpenTasks(vs, records) && Sources(us) == Sources(vs) && Tasks(us) == Tasks(vs)
    ensures forall u :: u in us <==> u in vs
  {
    assert forall u :: u in us <==> u in multiset(us);
    assert forall u :: u in vs <==> u in multiset(vs);
    forall a, b | 0 <= a < b < |vs|
      ensures !Hits(vs[b], vs[a].binding.target, vs[a].binding.image) && vs[a].binding.task != vs[b].binding.task
    {
      var i, j := Elsewhere(us, vs, a, b);
      if i < j {
        assert !Hits(us[j], us[i].binding.target, us[i].binding.image);
      } else {
        assert !Hits(us[i], us[j].binding.target, us[j].binding.image);
      }
    }
  }

  // ---------- What a source sees ----------

  predicate SeesSuccess(p: Project, source: string) {
    Succeeded(TargetsOf(p.nodes, p.connections, source))
  }

  predicate Good(n: Node) {
    n.status == Success || Any(n.images, Success)
  }

  /** The k-th node is what a connection of the source leads to: the first with its id. */
  predicate LeadsToAt(p: Project, source: string, k: nat) {
    k < |p.nodes| && Connection(source, p.nodes[k].id) in p.connections && forall j :: 0 <= j < k ==> p.nodes[j].id != p.nodes[k].id
  }

  /** A source succeeds exactly when a node that it leads to is good. */
  lemma SucceedsBy(p: Project, source: string)
    ensures SeesSuccess(p, source) <==> exists k: nat :: LeadsToAt(p, source, k) && Good(p.nodes[k])
  {
    var targets := TargetsOf(p.nodes, p.connections, source);
    if SeesSuccess(p, source) {
      var i :| 0 <= i < |targets| && (targets[i].status == Success || Any(targets[i].images, Success));
      TargetsAre(p.nodes, p.connections, source, targets[i]);
      FindsFirst(p.nodes, targets[i].id);
      var k: nat :| k < |p.nodes| && p.nodes[k] == targets[i] && forall j :: 0 <= j < k ==> p.nodes[j].id != targets[i].id;
      assert LeadsToAt(p, source, k) && Good(p.nodes[k]);
    }
    if k: nat :| LeadsToAt(p, source, k) && Good(p.nodes[k]) {
      FindsAt(p.nodes, k, p.nodes[k].id);
      TargetsAre(p.nodes, p.connections, source, p.nodes[k]);
      var i :| 0 <= i < |targets| && targets[i] == p.nodes[k];
    }
  }

  /** What the tasks are bound to is still waiting. */
  ghost predicate StillWaiting(p: Project, us: seq<Update>) {
    forall u, k :: u in us && 0 <= k < |p.nodes| && p.nodes[k].id == u.binding.target ==>
      && p.nodes[k].status == Loading
      && forall i :: 0 <= i < |p.nodes[k].images| && p.nodes[k].images[i].id == u.binding.image ==> p.nodes[k].images[i].status == Loading
  }

  lemma HitIsWaiting(p: Project, us: seq<Update>, u: Update, k: nat, i: nat)
    requires StillWaiting(p, us) && u in us && k < |p.nodes| && i < |p.nodes[k].images| && Hits(u, p.nodes[k].id, p.nodes[k].images[i].id)
    ensures p.nodes[k].images[i].status == Loading
  {
  }

  /** After some updates a node is good when it was, or when one of them stored something in it. */
  lemma GoodAfter(p: Project, us: seq<Update>, k: nat)
    requires OnSlots(us) && StillWaiting(p, us) && k < |p.nodes|
    ensures Good(AllApplied(p, us).nodes[k]) <==> Good(p.nodes[k]) || exists u :: u in us && Recovers(u, p.nodes[k])
  {
    hide OnSlots, AllApplied, StillWaiting, Recovers, Good, NodeSettled;
    var n, after := p.nodes[k], AllApplied(p, us).nodes[k];
    AllSettled(p, us, k);
    if Good(after) {
      WasGood(p, us, k, after);
    }
    if Good(n) {
      StaysGood(p, us, k, after);
    }
    if u :| u in us && Recovers(u, n) {
      BecomesGood(us, u, n, after);
    }
  }

  lemma BecomesGood(us: seq<Update>, u: Update, n: Node, after: Node)
    requires u in us && Recovers(u, n) && NodeSettled(us, n, after)
    ensures Good(after)
  {
    var i :| 0 <= i < |n.images| && n.images[i].id == u.binding.image;
    assert ImageSettled(us, n.id, n.images[i], after.images[i]) && Hits(u, n.id, n.images[i].id);
    assert after.images[i].status == Success;
  }

  lemma WasGood(p: Project, us: seq<Update>, k: nat, after: Node)
    requires k < |p.nodes| && NodeSettled(us, p.nodes[k], after) && Good(after)
    ensures Good(p.nodes[k]) || exists u :: u in us && Recovers(u, p.nodes[k])
  {
    var n := p.nodes[k];
    if Any(after.images, Success) {
      var i :| 0 <= i < |after.images| && after.images[i].status == Success;
      assert ImageSettled(us, n.id, n.images[i], after.images[i]);
      if u :| u in us && Hits(u, n.id, n.images[i].id) {
        assert after.images[i] == ImageAfter(n.images[i], u.outcome);
        assert Recovers(u, n);
      } else {
        assert n.images[i].status == Success;
      }
    }
  }

  lemma StaysGood(p: Project, us: seq<Update>, k: nat, after: Node)
    requires StillWaiting(p, us) && k < |p.nodes| && NodeSettled(us, p.nodes[k], after) && Good(p.nodes[k])
    ensures Good(after)
  {
    var n := p.nodes[k];
    if Any(n.images, Success) {
      var i :| 0 <= i < |n.images| && n.images[i].status == Success;
      assert ImageSettled(us, n.id, n.images[i], after.images[i]);
      forall u | u in us ensures !Hits(u, n.id, n.images[i].id) {
        if Hits(u, n.id, n.images[i].id) {
          HitIsWaiting(p, us, u, k, i);
        }
      }
      assert after.images[i] == n.images[i];
    } else {
      assert !Touches(us, n.id);
    }
  }

  lemma {:induction false} SameIds(p: Project, us: seq<Update>)
    ensures forall k :: 0 <= k < |p.nodes| ==> AllApplied(p, us).nodes[k].id == p.nodes[k].id
  {
    if us != [] {
      SameIds(p, us[..|us| - 1]);
    }
  }

  lemma SameLead(p: Project, us: seq<Update>, source: string, k: nat)
    ensures LeadsToAt(AllApplied(p, us), source, k) <==> LeadsToAt(p, source, k)
  {
    SameIds(p, us);
  }

  /** The update stores something that the source sees. */
  ghost predicate Gives(p: Project, u: Update, source: string) {
    exists k: nat :: LeadsToAt(p, source, k) && Recovers(u, p.nodes[k])
  }

  lemma SeesAfter(p: Project, us: seq<Update>, source: string)
    requires OnSlots(us) && StillWaiting(p, us)
    ensures SeesSuccess(AllApplied(p, us), source) <==> SeesSuccess(p, source) || exists u :: u in us && Gives(p, u, source)
  {
    hide Good, Recovers, OnSlots, StillWaiting, AllApplied, SeesSuccess;
    var q := AllApplied(p, us);
    SucceedsBy(p, source);
    SucceedsBy(q, source);
    if k: nat :| LeadsToAt(q, source, k) && Good(q.nodes[k]) {
      SameLead(p, us, source, k);
      GoodAfter(p, us, k);
    }
    if k: nat :| LeadsToAt(p, source, k) && Good(p.nodes[k]) {
      SameLead(p, us, source, k);
      GoodAfter(p, us, k);
    }
    if u :| u in us && Gives(p, u, source) {
      var k: nat :| LeadsToAt(p, source, k) && Recovers(u, p.nodes[k]);
      SameLead(p, us, source, k);
      GoodAfter(p, us, k);
    }
  }

  // ---------- When a source is settled ----------

  /** Nothing is written into the source, and it leads to no source. */
  ghost predicate Apart(connections: seq<Connection>, us: seq<Update>, source: string) {
    && (forall u :: u in us ==> u.binding.target != source)
    && forall t :: t in Sources(us) ==> !LeadsTo(connections, source, t)
  }

  lemma {:induction false} OnlyApplied(p: Project, records: seq<Binding>, us: seq<Update>, k: nat)
    requires k < |p.nodes| && p.nodes[k].id !in Sources(us)
    ensures AllFinished(p, records, us).nodes[k] == AllApplied(p, us).nodes[k]
  {
    if us != [] {
      var rest, last := us[..|us| - 1], us[|us| - 1];
      assert us == rest + [last] && last in us;
      assert forall u :: u in rest ==> u in us;
      OnlyApplied(p, records, rest, k);
      SameIds(p, us);
    }
  }

  /** While a task of it is open a source stays as it is. */
  lemma {:induction false} StaysOpen(p: Project, records: seq<Binding>, us: seq<Update>, i: nat)
    requires i < |p.nodes| && (forall u :: u in us ==> u.binding.target != p.nodes[i].id)
    requires Active(Remaining(records, us), p.nodes[i].id)
    ensures AllFinished(p, records, us).nodes[i] == p.nodes[i]
  {
    if us != [] {
      var rest, last := us[..|us| - 1], us[|us| - 1];
      assert us == rest + [last] && last in us;
      assert forall u :: u in rest ==> u in us;
      var b :| b in Remaining(records, us) && b.source == p.nodes[i].id;
      StillOpen(Remaining(records, rest), last.binding.task, b);
      StaysOpen(p, records, rest, i);
    }
  }

  /** The updates up to the last task of the source. */
  function UpToOwn(us: seq<Update>, source: string): (r: seq<Update>)
    ensures r <= us
  {
    if us == [] || us[|us| - 1].binding.source == source then us else UpToOwn(us[..|us| - 1], source)
  }

  lemma {:induction false} OwnAreIn(us: seq<Update>, source: string, u: Update)
    requires u in us && u.binding.source == source
    ensures u in UpToOwn(us, source)
  {
    if us[|us| - 1].binding.source != source {
      assert us == us[..|us| - 1] + [us[|us| - 1]];
      OwnAreIn(us[..|us| - 1], source, u);
    }
  }

  lemma {:induction false} OthersAtTheEnd(us: seq<Update>, vs: seq<Update>, source: string)
    requires forall v :: v in vs ==> v.binding.source != source
    ensures UpToOwn(us + vs, source) == UpToOwn(us, source)
  {
    if vs == [] {
      assert us + vs == us;
    } else {
      assert (us + vs)[..|us + vs| - 1] == us + vs[..|vs| - 1];
      OthersAtTheEnd(us, vs[..|vs| - 1], source);
    }
  }

  lemma {:induction false} SameIdsFinished(p: Project, records: seq<Binding>, us: seq<Update>)
    ensures forall k :: 0 <= k < |p.nodes| ==> AllFinished(p, records, us).nodes[k].id == p.nodes[k].id
  {
    if us != [] {
      SameIdsFinished(p, records, us[..|us| - 1]);
    }
  }

  /** The tasks of other sources that finish later leave a source as it is. */
  lemma {:induction false} OthersAsIs(p: Project, records: seq<Binding>, us: seq<Update>, i: nat)
    requires i < |p.nodes| && forall u :: u in us ==> u.binding.target != p.nodes[i].id
    ensures AllFinished(p, records, us).nodes[i] == AllFinished(p, records, UpToOwn(us, p.nodes[i].id)).nodes[i]
  {
    if us != [] && us[|us| - 1].binding.source != p.nodes[i].id {
      var rest, last := us[..|us| - 1], us[|us| - 1];
      assert us == rest + [last] && last in us;
      assert forall u :: u in rest ==> u in us;
      OthersAsIs(p, records, rest, i);
      SameIdsFinished(p, records, rest);
      SameIdsFinished(p, records, us);
    }
  }

  /** The source with its last task done: settled by what it sees then. */
  lemma LastOwn(p: Project, records: seq<Binding>, us: seq<Update>, i: nat)
    requires i < |p.nodes| && p.nodes[i].status == Loading && OpenTasks(us, records) && Apart(p.connections, us, p.nodes[i].id)
    requires us != [] && us[|us| - 1].binding.source == p.nodes[i].id && !Active(Remaining(records, us), p.nodes[i].id)
    ensures AllFinished(p, records, us).nodes[i].status == if SeesSuccess(AllApplied(p, us), p.nodes[i].id) then Success else Error
  {
    hide OpenTasks, Remaining, Succeeded, Active, Apart, AllApplied;
    var rest, last, source := us[..|us| - 1], us[|us| - 1], p.nodes[i].id;
    BeforeLast(p, records, us, i);
    var q := Applied(AllFinished(p, records, rest), last.binding, last.outcome);
    assert q.nodes[i] == p.nodes[i];
    SeenAlike(p, records, us, source);
    assert SettleNode(q, q.nodes[i], {source}, Remaining(records, us)).status == if SeesSuccess(q, source) then Success else Error;
  }

  lemma BeforeLast(p: Project, records: seq<Binding>, us: seq<Update>, i: nat)
    requires i < |p.nodes| && OpenTasks(us, records) && Apart(p.connections, us, p.nodes[i].id)
    requires us != [] && us[|us| - 1].binding.source == p.nodes[i].id
    ensures AllFinished(p, records, us[..|us| - 1]).nodes[i] == p.nodes[i] && us[|us| - 1].binding.target != p.nodes[i].id
  {
    var rest, last := us[..|us| - 1], us[|us| - 1];
    assert us == rest + [last] && last in us;
    assert forall u :: u in rest ==> u in us;
    LastIsOpen(us, records, last.binding.source);
    assert p.nodes[i].id in Sources(us);
    StaysOpen(p, records, rest, i);
  }

  lemma SeenAlike(p: Project, records: seq<Binding>, us: seq<Update>, source: string)
    requires us != [] && us[|us| - 1].binding.source == source && Apart(p.connections, us, source)
    ensures var last := us[|us| - 1];
      SeesSuccess(Applied(AllFinished(p, records, us[..|us| - 1]), last.binding, last.outcome), source)
      == SeesSuccess(AllApplied(p, us), source)
  {
    var rest, last := us[..|us| - 1], us[|us| - 1];
    var q, all := Applied(AllFinished(p, records, rest), last.binding, last.outcome), AllApplied(p, us);
    assert us == rest + [last] && last in us;
    assert forall u :: u in rest ==> u in us;
    SameIds(p, us);
    SameIdsFinished(p, records, rest);
    assert source in Sources(us);
    forall k | 0 <= k < |p.nodes| && LeadsTo(p.connections, source, q.nodes[k].id) ensures q.nodes[k] == all.nodes[k] {
      assert p.nodes[k].id !in Sources(us);
      OnlyApplied(p, records, rest, k);
    }
    SameTargets(q.nodes, all.nodes, p.connections, source);
  }

  /** A source is settled by what it sees once the last of its own tasks is done. */
  lemma SettledByThen(p: Project, records: seq<Binding>, us: seq<Update>, i: nat)
    requires i < |p.nodes| && p.nodes[i].status == Loading && p.nodes[i].id in Sources(us)
    requires OpenTasks(us, records) && Apart(p.connections, us, p.nodes[i].id) && !Active(Remaining(records, us), p.nodes[i].id)
    ensures var pre := UpToOwn(us, p.nodes[i].id);
      AllFinished(p, records, us).nodes[i].status == if SeesSuccess(AllApplied(p, pre), p.nodes[i].id) then Success else Error
  {
    hide AllFinished, AllApplied, Remaining, SeesSuccess, UpToOwn, Active, OpenTasks;
    var source := p.nodes[i].id;
    var pre := UpToOwn(us, source);
    OthersAsIs(p, records, us, i);
    var own :| own in us && own.binding.source == source;
    OwnAreIn(us, source, own);
    OwnIsLast(us, source);
    OpenFirst(records, us, pre);
    assert Apart(p.connections, pre, source);
    DoneByThen(records, us, source);
    LastOwn(p, records, pre, i);
  }

  lemma OpenFirst(records: seq<Binding>, us: seq<Update>, pre: seq<Update>)
    requires OpenTasks(us, records) && pre <= us
    ensures OpenTasks(pre, records) && forall u :: u in pre ==> u in us
  {
  }

  lemma {:induction false} OwnIsLast(us: seq<Update>, source: string)
    ensures var pre := UpToOwn(us, source); pre != [] ==> pre[|pre| - 1].binding.source == source
  {
    if us != [] && us[|us| - 1].binding.source != source {
      OwnIsLast(us[..|us| - 1], source);
    }
  }

  lemma DoneByThen(records: seq<Binding>, us: seq<Update>, source: string)
    requires OpenTasks(us, records) && !Active(Remaining(records, us), source)
    ensures !Active(Remaining(records, UpToOwn(us, source)), source)
  {
    var pre := UpToOwn(us, source);
    if b :| b in Remaining(records, pre) && b.source == source {
      OpenWhileUnfinished(records, pre, b);
      OpenWhileUnfinished(records, us, b);
      var u :| u in us && u.binding.task == b.task;
      OwnAreIn(us, source, u);
    }
  }

  lemma StatusThen(p: Project, records: seq<Binding>, us: seq<Update>, i: nat)
    requires i < |p.nodes| && p.nodes[i].status == Loading && p.nodes[i].id in Sources(us) && OpenTasks(us, records)
    requires Apart(p.connections, us, p.nodes[i].id) && !Active(Remaining(records, us), p.nodes[i].id)
    requires OnSlots(us) && StillWaiting(p, us)
    ensures var source := p.nodes[i].id;
      AllFinished(p, records, us).nodes[i].status ==
        if SeesSuccess(p, source) || exists u :: u in UpToOwn(us, source) && Gives(p, u, source) then Success else Error
  {
    hide AllFinished, AllApplied, Remaining, SeesSuccess, Gives;
    var pre := UpToOwn(us, p.nodes[i].id);
    SettledByThen(p, records, us, i);
    assert forall u :: u in pre ==> u in us;
    SeesAfter(p, pre, p.nodes[i].id);
  }

  // ---------- Every order ----------

  function Own(us: seq<Update>, source: string, own: bool): (r: seq<Update>)
    ensures forall u :: u in r <==> u in us && (own <==> u.binding.source == source)
  {
    if us == [] then []
    else if own == (us[0].binding.source == source) then [us[0]] + Own(us[1..], source, own)
    else Own(us[1..], source, own)
  }

  lemma {:induction false} BothParts(us: seq<Update>, source: string)
    ensures multiset(Own(us, source, true)) + multiset(Own(us, source, false)) == multiset(us)
  {
    if us != [] {
      BothParts(us[1..], source);
      assert us == [us[0]] + us[1..];
    }
  }

  /** What is no source ends as in any other order, whatever the sources look at. */
  lemma {:induction false} OthersInAnyOrder(p: Project, records: seq<Binding>, us: seq<Update>, vs: seq<Update>, k: nat)
    requires multiset(vs) == multiset(us) && OnSlots(us) && OpenTasks(us, records)
    requires k < |p.nodes| && p.nodes[k].id !in Sources(us)
    ensures var a, b := AllFinished(p, records, us).nodes[k], AllFinished(p, records, vs).nodes[k];
            a.id == b.id && a.kind == b.kind && a.status == b.status && a.images == b.images
  {
    AnotherOrder(us, vs, records);
    OnlyApplied(p, records, us, k);
    OnlyApplied(p, records, vs, k);
    AnyOrder(p, us, vs);
  }

  /** A source that waits for some of the open tasks. */
  ghost predicate Waits(p: Project, records: seq<Binding>, us: seq<Update>, i: int) {
    && OnSlots(us) && OpenTasks(us, records) && StillWaiting(p, us)
    && 0 <= i < |p.nodes| && p.nodes[i].status == Loading
    && p.nodes[i].id in Sources(us) && Apart(p.connections, us, p.nodes[i].id)
  }

  ghost predicate SameInEveryOrder(p: Project, records: seq<Binding>, us: seq<Update>, i: nat)
    requires i < |p.nodes|
  {
    forall vs :: multiset(vs) == multiset(us) ==> AllFinished(p, records, vs).nodes[i].status == AllFinished(p, records, us).nodes[i].status
  }

  /** It waits for them in another order as well. */
  lemma OtherOrder(p: Project, records: seq<Binding>, us: seq<Update>, vs: seq<Update>, i: nat)
    requires multiset(vs) == multiset(us) && Waits(p, records, us, i)
    ensures Waits(p, records, vs, i) && (forall u :: u in vs <==> u in us)
    ensures Active(Remaining(records, vs), p.nodes[i].id) <==> Active(Remaining(records, us), p.nodes[i].id)
  {
    hide Remaining, OnSlots, OpenTasks;
    AnotherOrder(us, vs, records);
    SameActive(records, us, vs);
  }

  lemma StatusInOrder(p: Project, records: seq<Binding>, us: seq<Update>, vs: seq<Update>, i: nat)
    requires multiset(vs) == multiset(us) && Waits(p, records, us, i) && !Active(Remaining(records, us), p.nodes[i].id)
    ensures var source := p.nodes[i].id;
      AllFinished(p, records, vs).nodes[i].status ==
        if SeesSuccess(p, source) || exists u :: u in UpToOwn(vs, source) && Gives(p, u, source) then Success else Error
  {
    hide AllFinished, UpToOwn, Gives, SeesSuccess, Remaining;
    OtherOrder(p, records, us, vs, i);
    StatusThen(p, records, vs, i);
  }

  /** Its own tasks first: the others come too late. */
  lemma OwnFirst(us: seq<Update>, source: string)
    ensures var vs := Own(us, source, true) + Own(us, source, false);
      multiset(vs) == multiset(us) && forall u :: u in UpToOwn(vs, source) ==> u in us && u.binding.source == source
  {
    BothParts(us, source);
    OthersAtTheEnd(Own(us, source, true), Own(us, source, false), source);
  }

  /** Its own tasks last: the others are all in time. */
  lemma OwnLast(us: seq<Update>, source: string)
    requires source in Sources(us)
    ensures var vs := Own(us, source, false) + Own(us, source, true);
      multiset(vs) == multiset(us) && forall u :: u in us ==> u in UpToOwn(vs, source)
  {
    BothParts(us, source);
    var own, others := Own(us, source, true), Own(us, source, false);
    var u :| u in us && u.binding.source == source;
    assert u in own;
    assert own[|own| - 1] in own;
    assert (others + own)[|others + own| - 1] == own[|own| - 1];
    assert UpToOwn(others + own, source) == others + own;
  }

  lemma StaysInOrder(p: Project, records: seq<Binding>, us: seq<Update>, vs: seq<Update>, i: nat)
    requires multiset(vs) == multiset(us) && Waits(p, records, us, i) && Active(Remaining(records, us), p.nodes[i].id)
    ensures AllFinished(p, records, vs).nodes[i] == p.nodes[i]
  {
    hide AllFinished, Remaining;
    OtherOrder(p, records, us, vs, i);
    StaysOpen(p, records, vs, i);
  }

  lemma SameStatus(p: Project, records: seq<Binding>, us: seq<Update>, vs: seq<Update>, i: nat)
    requires multiset(vs) == multiset(us) && Waits(p, records, us, i) && !Active(Remaining(records, us), p.nodes[i].id)
    requires var source := p.nodes[i].id;
      || SeesSuccess(p, source)
      || (exists u :: u in us && u.binding.source == source && Gives(p, u, source))
      || (forall u :: u in us ==> !Gives(p, u, source))
    ensures AllFinished(p, records, vs).nodes[i].status == AllFinished(p, records, us).nodes[i].status
  {
    hide AllFinished, Remaining, SeesSuccess, Gives, Active, OnSlots, OpenTasks, Apart, StillWaiting;
    var source := p.nodes[i].id;
    OtherOrder(p, records, us, vs, i);
    StatusInOrder(p, records, us, us, i);
    StatusInOrder(p, records, us, vs, i);
    if u :| u in us && u.binding.source == source && Gives(p, u, source) {
      OwnAreIn(us, source, u);
      OwnAreIn(vs, source, u);
    } else {
      assert forall u :: u in UpToOwn(us, source) ==> u in us;
      assert forall u :: u in UpToOwn(vs, source) ==> u in vs;
    }
  }

  /** With its own tasks first it fails, and with its own tasks last it succeeds. */
  lemma TwoOrders(p: Project, records: seq<Binding>, us: seq<Update>, i: nat, u: Update)
    requires Waits(p, records, us, i) && !Active(Remaining(records, us), p.nodes[i].id) && !SeesSuccess(p, p.nodes[i].id)
    requires forall own :: own in us && own.binding.source == p.nodes[i].id ==> !Gives(p, own, p.nodes[i].id)
    requires u in us && Gives(p, u, p.nodes[i].id)
    ensures !SameInEveryOrder(p, records, us, i)
  {
    hide AllFinished, Remaining, SeesSuccess, Gives, OnSlots, OpenTasks, Apart, StillWaiting, Active, UpToOwn;
    var source := p.nodes[i].id;
    var first, last := Own(us, source, true) + Own(us, source, false), Own(us, source, false) + Own(us, source, true);
    OwnFirst(us, source);
    OwnLast(us, source);
    StatusInOrder(p, records, us, first, i);
    StatusInOrder(p, records, us, last, i);
    assert AllFinished(p, records, first).nodes[i].status == Error;
    assert AllFinished(p, records, last).nodes[i].status == Success;
  }

  /**
   The status of a waiting source is the same in every order of the tasks if and only if one of its tasks stays
   open, it sees a success already, one of its own tasks stores something that it sees, or no task does.
  */
  lemma {:induction false} StatusInEveryOrder(p: Project, records: seq<Binding>, us: seq<Update>, i: nat)
    requires Waits(p, records, us, i)
    ensures var source := p.nodes[i].id;
      SameInEveryOrder(p, records, us, i) <==>
        || Active(Remaining(records, us), source)
        || SeesSuccess(p, source)
        || (exists u :: u in us && u.binding.source == source && Gives(p, u, source))
        || (forall u :: u in us ==> !Gives(p, u, source))
  {
    hide AllFinished, Remaining, SeesSuccess, Gives, Active, OnSlots, OpenTasks, Apart, StillWaiting;
    var source := p.nodes[i].id;
    if Active(Remaining(records, us), source) {
      forall vs | multiset(vs) == multiset(us)
        ensures AllFinished(p, records, vs).nodes[i].status == AllFinished(p, records, us).nodes[i].status
      {
        StaysInOrder(p, records, us, vs, i);
        StaysInOrder(p, records, us, us, i);
      }
    } else if SeesSuccess(p, source) || (exists u :: u in us && u.binding.source == source && Gives(p, u, source))
              || (forall u :: u in us ==> !Gives(p, u, source)) {
      forall vs | multiset(vs) == multiset(us)
        ensures AllFinished(p, records, vs).nodes[i].status == AllFinished(p, records, us).nodes[i].status
      {
        SameStatus(p, records, us, vs, i);
      }
    } else {
      var u :| u in us && Gives(p, u, source);
      TwoOrders(p, records, us, i, u);
    }
  }
}
