/** Which target a task takes, in the terms of the nodes and connections of the canvas, and what a snapshot leaves in it. */
module RecoveryTargets {
  import opened Wrappers
  import opened Recovery

  // ---------- Finding nodes ----------

  /** The k-th node is the first with the id. */
  predicate FirstWith(nodes: seq<Node>, k: int, id: string) {
    0 <= k < |nodes| && nodes[k].id == id && forall j :: 0 <= j < k ==> nodes[j].id != id
  }

  lemma {:induction false} FindsFirst(nodes: seq<Node>, id: string)
    ensures Find(nodes, id).None? ==> forall n :: n in nodes ==> n.id != id
    ensures Find(nodes, id).Some? ==> exists k :: FirstWith(nodes, k, id) && nodes[k] == Find(nodes, id).value
  {
    if nodes != [] {
      if nodes[0].id == id {
        assert FirstWith(nodes, 0, id);
      } else {
        FindsFirst(nodes[1..], id);
        if Find(nodes, id).Some? {
          var k :| FirstWith(nodes[1..], k, id) && nodes[1..][k] == Find(nodes, id).value;
          assert forall j :: 0 < j < k + 1 ==> nodes[j] == nodes[1..][j - 1];
          assert FirstWith(nodes, k + 1, id) && nodes[k + 1] == nodes[1..][k];
        }
      }
    }
  }

  lemma FindsAt(nodes: seq<Node>, k: int, id: string)
    requires FirstWith(nodes, k, id)
    ensures Find(nodes, id) == Some(nodes[k])
  {
    FindsFirst(nodes, id);
  }

  // ---------- Slots ----------

  lemma {:induction false} SlotTells(a: string, b: string, c: string, d: string)
    requires '\0' !in a && '\0' !in c
    ensures Slot(a, b) == Slot(c, d) <==> a == c && b == d
  {
    var x, y := Slot(a, b), Slot(c, d);
    assert x[|a|] == '\0' && y[|c|] == '\0';
    assert x[..|a|] == a && x[|a| + 1..] == b && y[..|c|] == c && y[|c| + 1..] == d;
    assert |a| < |c| ==> y[|a|] == c[|a|];
    assert |c| < |a| ==> x[|c|] == a[|c|];
  }

  /** A slot is claimed exactly when a record has the node and the image, for nodes whose ids have no U+0000. */
  lemma ClaimedMeans(records: seq<Binding>, node: string, image: string)
    requires '\0' !in node && forall b :: b in records ==> '\0' !in b.target
    ensures Slot(node, image) in ClaimedBy(records) <==> exists b :: b in records && b.image != "" && b.target == node && b.image == image
  {
    hide Slot;
    forall b | b in records ensures Slot(b.target, b.image) == Slot(node, image) <==> b.target == node && b.image == image {
      SlotTells(b.target, b.image, node, image);
    }
  }

  // ---------- Who takes a task ----------

  /** A waiting node of the kind with a free target. */
  ghost predicate Takes(n: Node, kind: string, claimed: set<string>) {
    n.kind == kind && n.status == Loading && exists t :: Free(n, kind, claimed, t)
  }

  /** The connection leads from the source to a node that takes the task. */
  ghost predicate LeadsToTaker(nodes: seq<Node>, c: Connection, source: string, kind: string, claimed: set<string>) {
    c.from == source && exists m :: FirstWith(nodes, m, c.to) && Takes(nodes[m], kind, claimed)
  }

  function Chosen(nodes: seq<Node>, kind: string, claimed: set<string>): Option<Target> {
    FirstFree(Waiting(nodes, kind), kind, claimed)
  }

  lemma HeadTakes(nodes: seq<Node>, kind: string, claimed: set<string>)
    requires nodes != [] && Takes(nodes[0], kind, claimed)
    ensures Chosen(nodes, kind, claimed).Some? && Foremost(nodes[0], kind, claimed, Chosen(nodes, kind, claimed).value)
  {
    var waiting := Waiting(nodes, kind);
    assert waiting[0] == nodes[0];
    var t :| Free(nodes[0], kind, claimed, t);
    assert !NoneFree(waiting[0], kind, claimed);
    assert waiting[0] in waiting;
  }

  lemma HeadPasses(nodes: seq<Node>, kind: string, claimed: set<string>)
    requires nodes != [] && !Takes(nodes[0], kind, claimed)
    ensures Chosen(nodes, kind, claimed) == Chosen(nodes[1..], kind, claimed)
  {
    var n, waiting := nodes[0], Waiting(nodes, kind);
    if n.kind == kind && n.status == Loading {
      assert waiting == [n] + Waiting(nodes[1..], kind) && waiting[1..] == Waiting(nodes[1..], kind);
      if kind != "image" || n.images == [] {
        assert Free(n, kind, claimed, Target(n.id, ""));
      } else {
        var image := FreeImage(n.id, n.images, claimed);
        if image.Some? {
          assert Free(n, kind, claimed, Target(n.id, n.images[image.value].id));
        }
      }
    }
  }

  lemma TargetsHead(nodes: seq<Node>, cs: seq<Connection>, source: string)
    requires cs != []
    ensures var found := Find(nodes, cs[0].to);
      TargetsOf(nodes, cs, source) ==
        (if cs[0].from == source && found.Some? then [found.value] else []) + TargetsOf(nodes, cs[1..], source)
  {
  }

  /** The first connection to a taker decides. */
  lemma {:induction false} FirstConnection(nodes: seq<Node>, cs: seq<Connection>, source: string, kind: string, claimed: set<string>, c: nat)
    requires c < |cs| && LeadsToTaker(nodes, cs[c], source, kind, claimed)
    requires forall j :: 0 <= j < c ==> !LeadsToTaker(nodes, cs[j], source, kind, claimed)
    ensures var r := Chosen(TargetsOf(nodes, cs, source), kind, claimed);
      r.Some? && forall m :: FirstWith(nodes, m, cs[c].to) ==> Foremost(nodes[m], kind, claimed, r.value)
  {
    hide Foremost, Takes;
    var targets := TargetsOf(nodes, cs, source);
    TargetsHead(nodes, cs, source);
    if c == 0 {
      var m :| FirstWith(nodes, m, cs[0].to) && Takes(nodes[m], kind, claimed);
      FindsAt(nodes, m, cs[0].to);
      HeadTakes(targets, kind, claimed);
    } else {
      PassedOver(nodes, cs, source, kind, claimed);
      FirstConnection(nodes, cs[1..], source, kind, claimed, c - 1);
    }
  }

  lemma PassedOver(nodes: seq<Node>, cs: seq<Connection>, source: string, kind: string, claimed: set<string>)
    requires cs != [] && !LeadsToTaker(nodes, cs[0], source, kind, claimed)
    ensures Chosen(TargetsOf(nodes, cs, source), kind, claimed) == Chosen(TargetsOf(nodes, cs[1..], source), kind, claimed)
  {
    hide Takes;
    var targets := TargetsOf(nodes, cs, source);
    TargetsHead(nodes, cs, source);
    FindsFirst(nodes, cs[0].to);
    if cs[0].from == source && Find(nodes, cs[0].to).Some? {
      var k :| FirstWith(nodes, k, cs[0].to) && nodes[k] == Find(nodes, cs[0].to).value;
      assert !Takes(targets[0], kind, claimed);
      HeadPasses(targets, kind, claimed);
      assert targets[1..] == TargetsOf(nodes, cs[1..], source);
    }
  }

  lemma {:induction false} NoConnection(nodes: seq<Node>, cs: seq<Connection>, source: string, kind: string, claimed: set<string>)
    requires forall c :: c in cs ==> !LeadsToTaker(nodes, c, source, kind, claimed)
    ensures Chosen(TargetsOf(nodes, cs, source), kind, claimed).None?
  {
    if cs != [] {
      PassedOver(nodes, cs, source, kind, claimed);
      NoConnection(nodes, cs[1..], source, kind, claimed);
    }
  }

  // ---------- The target of a task ----------

  ghost predicate SourceTakes(p: Project, source: string, kind: string, claimed: set<string>) {
    exists k :: FirstWith(p.nodes, k, source) && Takes(p.nodes[k], kind, claimed)
  }

  lemma SourceFirst(p: Project, source: string, kind: string, claimed: set<string>, k: nat)
    requires FirstWith(p.nodes, k, source) && Takes(p.nodes[k], kind, claimed)
    ensures var r := FindRecoveryTarget(p, source, kind, claimed); r.Some? && Foremost(p.nodes[k], kind, claimed, r.value)
  {
    hide Foremost, Takes, FirstFree;
    FindsAt(p.nodes, k, source);
    var targets := TargetsOf(p.nodes, p.connections, source);
    assert [p.nodes[k]] + targets != [] && ([p.nodes[k]] + targets)[0] == p.nodes[k];
    HeadTakes([p.nodes[k]] + targets, kind, claimed);
  }

  lemma SourcePasses(p: Project, source: string, kind: string, claimed: set<string>)
    requires !SourceTakes(p, source, kind, claimed)
    ensures FindRecoveryTarget(p, source, kind, claimed) == Chosen(TargetsOf(p.nodes, p.connections, source), kind, claimed)
  {
    hide Takes, FirstFree;
    var targets := TargetsOf(p.nodes, p.connections, source);
    FindsFirst(p.nodes, source);
    if Find(p.nodes, source).Some? {
      var k :| FirstWith(p.nodes, k, source) && p.nodes[k] == Find(p.nodes, source).value;
      var all := [p.nodes[k]] + targets;
      assert all[0] == p.nodes[k] && all[1..] == targets;
      HeadPasses(all, kind, claimed);
    } else {
      assert [] + targets == targets;
    }
  }

  /** The task gets one more binding, to the first free target of the node. */
  ghost predicate BoundTo(open: Open, before: Progress, after: Progress, n: Node) {
    exists t :: Foremost(n, open.kind, before.claimed, t)
      && after.bindings == before.bindings + [Binding(open.snapshot.id, open.kind, open.snapshot.source, t.node, t.image)]
      && after.claimed == before.claimed + if t.image != "" then {Slot(t.node, t.image)} else {}
  }

  lemma BoundSo(p: Project, open: Open, before: Progress, n: Node)
    requires open.snapshot.source != ""
    requires var r := FindRecoveryTarget(p, open.snapshot.source, open.kind, before.claimed);
      r.Some? && Foremost(n, open.kind, before.claimed, r.value)
    ensures BoundTo(open, before, BindOne(p, open, before), n) && BindOne(p, open, before) != before
  {
    hide FindRecoveryTarget;
    var t := FindRecoveryTarget(p, open.snapshot.source, open.kind, before.claimed).value;
    assert Foremost(n, open.kind, before.claimed, t);
    assert |BindOne(p, open, before).bindings| == |before.bindings| + 1;
    assert before.claimed + {} == before.claimed;
  }

  lemma AtTheSource(p: Project, open: Open, before: Progress)
    requires open.snapshot.source != "" && SourceTakes(p, open.snapshot.source, open.kind, before.claimed)
    ensures forall k :: FirstWith(p.nodes, k, open.snapshot.source) && Takes(p.nodes[k], open.kind, before.claimed) ==>
      BoundTo(open, before, BindOne(p, open, before), p.nodes[k])
    ensures BindOne(p, open, before) != before
  {
    hide Foremost, Takes, BoundTo, BindOne;
    forall k | FirstWith(p.nodes, k, open.snapshot.source) && Takes(p.nodes[k], open.kind, before.claimed)
      ensures BoundTo(open, before, BindOne(p, open, before), p.nodes[k]) && BindOne(p, open, before) != before
    {
      SourceFirst(p, open.snapshot.source, open.kind, before.claimed, k);
      BoundSo(p, open, before, p.nodes[k]);
    }
  }

  /** The first connection of the source that leads to a taker. */
  ghost predicate FirstTaker(p: Project, c: int, source: string, kind: string, claimed: set<string>) {
    && 0 <= c < |p.connections| && LeadsToTaker(p.nodes, p.connections[c], source, kind, claimed)
    && forall j :: 0 <= j < c ==> !LeadsToTaker(p.nodes, p.connections[j], source, kind, claimed)
  }

  lemma OneIsFirst(p: Project, c: nat, source: string, kind: string, claimed: set<string>)
    requires c < |p.connections| && LeadsToTaker(p.nodes, p.connections[c], source, kind, claimed)
    ensures exists first :: FirstTaker(p, first, source, kind, claimed)
  {
    if j :| 0 <= j < c && LeadsToTaker(p.nodes, p.connections[j], source, kind, claimed) {
      OneIsFirst(p, j, source, kind, claimed);
    } else {
      assert FirstTaker(p, c, source, kind, claimed);
    }
  }

  lemma ByConnection(p: Project, open: Open, before: Progress, c: nat)
    requires open.snapshot.source != "" && !SourceTakes(p, open.snapshot.source, open.kind, before.claimed)
    requires FirstTaker(p, c, open.snapshot.source, open.kind, before.claimed)
    ensures forall m :: FirstWith(p.nodes, m, p.connections[c].to) ==> BoundTo(open, before, BindOne(p, open, before), p.nodes[m])
    ensures BindOne(p, open, before) != before
  {
    hide Foremost, Takes, FindRecoveryTarget, BoundTo, BindOne;
    var source, kind, claimed := open.snapshot.source, open.kind, before.claimed;
    SourcePasses(p, source, kind, claimed);
    FirstConnection(p.nodes, p.connections, source, kind, claimed, c);
    var some :| FirstWith(p.nodes, some, p.connections[c].to);
    forall m | FirstWith(p.nodes, m, p.connections[c].to)
      ensures BoundTo(open, before, BindOne(p, open, before), p.nodes[m]) && BindOne(p, open, before) != before
    {
      BoundSo(p, open, before, p.nodes[m]);
    }
  }

  lemma LeftOut(p: Project, open: Open, before: Progress)
    requires !SourceTakes(p, open.snapshot.source, open.kind, before.claimed)
    requires forall c :: c in p.connections ==> !LeadsToTaker(p.nodes, c, open.snapshot.source, open.kind, before.claimed)
    ensures BindOne(p, open, before) == before
  {
    hide LeadsToTaker, SourceTakes;
    SourcePasses(p, open.snapshot.source, open.kind, before.claimed);
    NoConnection(p.nodes, p.connections, open.snapshot.source, open.kind, before.claimed);
  }

  /**
   A task is bound to the node it was started from when that one takes it; else to the node of the first
   connection from there that leads to one that takes it; and it is left out exactly when there is none.
  */
  ghost predicate BindsInOrder(p: Project, open: Open, before: Progress, after: Progress) {
    var source, kind, claimed := open.snapshot.source, open.kind, before.claimed;
    && (source != "" ==>
          forall k :: FirstWith(p.nodes, k, source) && Takes(p.nodes[k], kind, claimed) ==> BoundTo(open, before, after, p.nodes[k]))
    && (source != "" && !SourceTakes(p, source, kind, claimed) ==>
          forall c, m :: FirstTaker(p, c, source, kind, claimed) && FirstWith(p.nodes, m, p.connections[c].to) ==>
            BoundTo(open, before, after, p.nodes[m]))
    && (after == before <==>
          || source == ""
          || (!SourceTakes(p, source, kind, claimed)
              && forall c :: c in p.connections ==> !LeadsToTaker(p.nodes, c, source, kind, claimed)))
  }

  lemma OneBinds(p: Project, open: Open, before: Progress)
    ensures BindsInOrder(p, open, before, BindOne(p, open, before))
  {
    hide Foremost, Takes, LeadsToTaker, BoundTo;
    var source, kind, claimed := open.snapshot.source, open.kind, before.claimed;
    if source == "" {
    } else if SourceTakes(p, source, kind, claimed) {
      AtTheSource(p, open, before);
    } else {
      if c :| c in p.connections && LeadsToTaker(p.nodes, c, source, kind, claimed) {
        var i :| 0 <= i < |p.connections| && p.connections[i] == c;
        OneIsFirst(p, i, source, kind, claimed);
        var first :| FirstTaker(p, first, source, kind, claimed);
        ByConnection(p, open, before, first);
      } else {
        LeftOut(p, open, before);
      }
      forall c, m | FirstTaker(p, c, source, kind, claimed) && FirstWith(p.nodes, m, p.connections[c].to)
        ensures BoundTo(open, before, BindOne(p, open, before), p.nodes[m])
      {
        ByConnection(p, open, before, c);
      }
    }
  }

  /** The tasks are bound one after the other in the order of their list, each beside what was bound before it. */
  lemma {:induction false} TasksInTurn(p: Project, opens: seq<Open>, claimed: set<string>, n: nat)
    requires n < |opens|
    ensures BindFirst(p, opens, claimed, 0) == Progress([], claimed)
    ensures BindsInOrder(p, opens[n], BindFirst(p, opens, claimed, n), BindFirst(p, opens, claimed, n + 1))
  {
    hide BindsInOrder;
    OneBinds(p, opens[n], BindFirst(p, opens, claimed, n));
  }

  // ---------- What becomes of a source ----------

  lemma {:induction false} TargetsAre(nodes: seq<Node>, connections: seq<Connection>, source: string, n: Node)
    ensures n in TargetsOf(nodes, connections, source) <==> Connection(source, n.id) in connections && Find(nodes, n.id) == Some(n)
  {
    if connections != [] {
      var c := connections[0];
      TargetsAre(nodes, connections[1..], source, n);
      assert forall d :: d in connections <==> d == c || d in connections[1..];
    }
  }

  /** A connection of the source leads to the m-th node. */
  predicate ConnectsTo(p: Project, c: int, source: string, m: int) {
    0 <= c < |p.connections| && p.connections[c].from == source && FirstWith(p.nodes, m, p.connections[c].to)
  }

  predicate ShowsSuccess(n: Node) {
    n.status == Success || exists i :: 0 <= i < |n.images| && n.images[i].status == Success
  }

  lemma SuccessIsSeen(p: Project, source: string)
    ensures Succeeded(TargetsOf(p.nodes, p.connections, source)) <==> exists c, m :: ConnectsTo(p, c, source, m) && ShowsSuccess(p.nodes[m])
  {
    var targets := TargetsOf(p.nodes, p.connections, source);
    if Succeeded(targets) {
      var i :| 0 <= i < |targets| && (targets[i].status == Success || Any(targets[i].images, Success));
      TargetsAre(p.nodes, p.connections, source, targets[i]);
      FindsFirst(p.nodes, targets[i].id);
      var m :| FirstWith(p.nodes, m, targets[i].id) && p.nodes[m] == targets[i];
      var c :| 0 <= c < |p.connections| && p.connections[c] == Connection(source, targets[i].id);
      assert ConnectsTo(p, c, source, m) && ShowsSuccess(p.nodes[m]);
    }
    if c, m :| ConnectsTo(p, c, source, m) && ShowsSuccess(p.nodes[m]) {
      FindsAt(p.nodes, m, p.connections[c].to);
      assert p.connections[c] == Connection(source, p.nodes[m].id);
      TargetsAre(p.nodes, p.connections, source, p.nodes[m]);
      var i :| 0 <= i < |targets| && targets[i] == p.nodes[m];
      assert Any(targets[i].images, Success) || targets[i].status == Success;
    }
  }

  /** The node that the connection leads to shows an error. */
  ghost predicate LeadsToError(nodes: seq<Node>, c: Connection, source: string) {
    c.from == source && exists m :: FirstWith(nodes, m, c.to) && nodes[m].error != ""
  }

  ghost predicate FirstToError(nodes: seq<Node>, cs: seq<Connection>, c: int, source: string) {
    0 <= c < |cs| && LeadsToError(nodes, cs[c], source) && forall j :: 0 <= j < c ==> !LeadsToError(nodes, cs[j], source)
  }

  /** The error is that of the first connection to a node that shows one, or none when there is no such. */
  lemma {:induction false} ErrorIsSeen(nodes: seq<Node>, cs: seq<Connection>, source: string)
    ensures var error := FirstError(TargetsOf(nodes, cs, source));
      && ((forall c :: c in cs ==> !LeadsToError(nodes, c, source)) ==> error == "")
      && forall c, m :: FirstToError(nodes, cs, c, source) && FirstWith(nodes, m, cs[c].to) ==> error == nodes[m].error
  {
    if cs != [] {
      ErrorIsSeen(nodes, cs[1..], source);
      TargetsHead(nodes, cs, source);
      FindsFirst(nodes, cs[0].to);
      var targets := TargetsOf(nodes, cs, source);
      if LeadsToError(nodes, cs[0], source) {
        var m :| FirstWith(nodes, m, cs[0].to) && nodes[m].error != "";
        FindsAt(nodes, m, cs[0].to);
        assert targets[0] == nodes[m];
      } else {
        ErrorPasses(nodes, cs, source);
        forall c, m | FirstToError(nodes, cs, c, source) && FirstWith(nodes, m, cs[c].to)
          ensures FirstError(targets) == nodes[m].error
        {
          assert c > 0 && cs[1..][c - 1] == cs[c];
          assert forall j :: 0 <= j < c - 1 ==> cs[1..][j] == cs[j + 1];
          assert FirstToError(nodes, cs[1..], c - 1, source);
        }
      }
    }
  }

  lemma ErrorPasses(nodes: seq<Node>, cs: seq<Connection>, source: string)
    requires cs != [] && !LeadsToError(nodes, cs[0], source)
    ensures FirstError(TargetsOf(nodes, cs, source)) == FirstError(TargetsOf(nodes, cs[1..], source))
  {
    var targets, rest := TargetsOf(nodes, cs, source), TargetsOf(nodes, cs[1..], source);
    TargetsHead(nodes, cs, source);
    FindsFirst(nodes, cs[0].to);
    if cs[0].from == source && Find(nodes, cs[0].to).Some? {
      var k :| FirstWith(nodes, k, cs[0].to) && nodes[k] == Find(nodes, cs[0].to).value;
      assert nodes[k].error == "";
      assert targets[0] == nodes[k] && targets[1..] == rest;
    }
  }

  /** The first connection to a node that shows an error. */
  ghost predicate FirstWithError(p: Project, c: int, source: string, m: int) {
    && ConnectsTo(p, c, source, m) && p.nodes[m].error != ""
    && forall j, k :: 0 <= j < c && ConnectsTo(p, j, source, k) ==> p.nodes[k].error == ""
  }

  /**
   A source that waits, is among those to settle and has no task left becomes a success when a node that it leads
   to shows one; else an error, with what the first such node with an error says. Any other node stays as it is.
  */
  lemma {:induction false} SourceSettles(p: Project, sources: set<string>, active: seq<Binding>, i: nat)
    requires i < |p.nodes|
    ensures var n, after := p.nodes[i], SettleCanvasRecoverySources(p, sources, active).nodes[i];
      if n.id !in sources || n.status != Loading || (exists b :: b in active && b.source == n.id) then after == n
      else if exists c, m :: ConnectsTo(p, c, n.id, m) && ShowsSuccess(p.nodes[m]) then after == n.(status := Success, error := "")
      else
        && after == n.(status := Error, error := after.error)
        && (forall c, m :: FirstWithError(p, c, n.id, m) ==> after.error == p.nodes[m].error)
        && ((forall c, m :: ConnectsTo(p, c, n.id, m) ==> p.nodes[m].error == "") ==> after.error == "Generation could not be recovered")
  {
    var n := p.nodes[i];
    SuccessIsSeen(p, n.id);
    ErrorOfSource(p, n.id);
  }

  lemma ErrorOfSource(p: Project, source: string)
    ensures var error := FirstError(TargetsOf(p.nodes, p.connections, source));
      && (forall c, m :: FirstWithError(p, c, source, m) ==> error == p.nodes[m].error)
      && ((forall c, m :: ConnectsTo(p, c, source, m) ==> p.nodes[m].error == "") ==> error == "")
  {
    ErrorIsSeen(p.nodes, p.connections, source);
    forall c | 0 <= c < |p.connections|
      ensures LeadsToError(p.nodes, p.connections[c], source) <==> exists m :: ConnectsTo(p, c, source, m) && p.nodes[m].error != ""
    {
      if LeadsToError(p.nodes, p.connections[c], source) {
        var m :| FirstWith(p.nodes, m, p.connections[c].to) && p.nodes[m].error != "";
        assert ConnectsTo(p, c, source, m);
      }
    }
    forall c, m | FirstWithError(p, c, source, m) ensures FirstToError(p.nodes, p.connections, c, source) {
      assert LeadsToError(p.nodes, p.connections[c], source);
    }
  }

  // ---------- What a snapshot leaves ----------

  /** The k-th result is the first with an asset. */
  predicate FirstAsset(results: seq<Result>, k: int) {
    0 <= k < |results| && results[k].asset != "" && forall j :: 0 <= j < k ==> results[j].asset == ""
  }

  lemma {:induction false} FindsAsset(results: seq<Result>)
    ensures FirstResult(results).None? ==> forall r :: r in results ==> r.asset == ""
    ensures FirstResult(results).Some? ==> exists k :: FirstAsset(results, k) && results[k] == FirstResult(results).value
  {
    if results != [] {
      if results[0].asset != "" {
        assert FirstAsset(results, 0);
      } else {
        FindsAsset(results[1..]);
        if FirstResult(results).Some? {
          var k :| FirstAsset(results[1..], k) && results[1..][k] == FirstResult(results).value;
          assert forall j :: 0 < j < k + 1 ==> results[j] == results[1..][j - 1];
          assert FirstAsset(results, k + 1) && results[k + 1] == results[1..][k];
        }
      }
    }
  }

  /** The type of a result, or the usual one of the kind. */
  predicate TypedAs(mimeType: string, given: string, kind: string) {
    && (given != "" ==> mimeType == given)
    && (given == "" ==> (kind == "video" ==> mimeType == "video/mp4") && (kind == "audio" ==> mimeType == "audio/mpeg")
                        && (kind == "image" ==> mimeType == "image/png"))
  }

  /** The task has something to show, its k-th result; or it has nothing, for the reason given. */
  predicate Shows(s: Snapshot, k: int) {
    s.status in ["completed", "partial"] && FirstAsset(s.results, k)
  }

  predicate ShowsNothing(s: Snapshot) {
    s.status !in ["completed", "partial"] || forall r :: r in s.results ==> r.asset == ""
  }

  function Reason(b: Binding, s: Snapshot): string {
    if s.message != "" then s.message else b.kind + " generation " + s.status
  }

  ghost predicate ImageStores(image: Image, after: Image, b: Binding, s: Snapshot) {
    && (forall k :: Shows(s, k) ==>
          && after == Image(image.id, Success, "", "asset:" + s.results[k].asset, after.mimeType, "")
          && TypedAs(after.mimeType, s.results[k].mimeType, b.kind))
    && (ShowsNothing(s) ==> after == image.(status := Error, error := Reason(b, s)))
  }

  ghost predicate NodeStores(n: Node, after: Node, b: Binding, s: Snapshot) {
    && (forall k :: Shows(s, k) ==>
          && after == n.(status := Success, content := "", storageKey := "asset:" + s.results[k].asset, mimeType := after.mimeType, error := "")
          && TypedAs(after.mimeType, s.results[k].mimeType, b.kind))
    && (ShowsNothing(s) ==> after == n.(status := Error, error := Reason(b, s)))
  }

  lemma OutcomeShows(b: Binding, s: Snapshot)
    requires b.kind in ["image", "video", "audio"]
    ensures var o := OutcomeOf(b, s);
      && (forall k :: Shows(s, k) ==>
            o.result.Some? && o.result.value.asset == s.results[k].asset && TypedAs(o.result.value.mimeType, s.results[k].mimeType, b.kind))
      && (ShowsNothing(s) ==> o.result.None?) && o.error == Reason(b, s) && (o.result.Some? ==> exists k :: Shows(s, k))
  {
    FindsAsset(s.results);
    if Successful(s) && FirstResult(s.results).Some? {
      var k :| FirstAsset(s.results, k) && s.results[k] == FirstResult(s.results).value;
      assert Shows(s, k);
      OnlyFirst(s.results);
    }
  }

  lemma OnlyFirst(results: seq<Result>)
    ensures forall j, k :: FirstAsset(results, j) && FirstAsset(results, k) ==> j == k
  {
  }

  /** The images of a slot node: those of the slot take what the task left, and the others stay. */
  ghost predicate SlotsStore(images: seq<Image>, after: seq<Image>, b: Binding, s: Snapshot) {
    && |after| == |images|
    && forall j :: 0 <= j < |images| ==>
         if images[j].id == b.image then ImageStores(images[j], after[j], b, s) else after[j] == images[j]
  }

  predicate OneIs(images: seq<Image>, status: Status) {
    exists j :: 0 <= j < |images| && images[j].status == status
  }

  /** The status of a slot node: loading while an image is, else a success if an image is, else the error of the task. */
  predicate StatusOf(images: seq<Image>, status: Status, error: string, reason: string) {
    if OneIs(images, Loading) then status == Loading && error == ""
    else if OneIs(images, Success) then status == Success && error == ""
    else status == Error && error == reason
  }

  /** A node that shows nothing yet shows the image of the slot. */
  ghost predicate Fronts(n: Node, after: Node, b: Binding, s: Snapshot) {
    && (forall k :: Shows(s, k) && n.storageKey == "" && (exists j :: 0 <= j < |n.images| && n.images[j].id == b.image) ==>
          after.content == "" && after.storageKey == "asset:" + s.results[k].asset && after.primary == b.image
          && TypedAs(after.mimeType, s.results[k].mimeType, b.kind))
    && (ShowsNothing(s) || n.storageKey != "" ==>
          after.content == n.content && after.storageKey == n.storageKey && after.primary == n.primary && after.mimeType == n.mimeType)
  }

  lemma SlotStores(n: Node, b: Binding, s: Snapshot)
    requires b.kind == "image"
    ensures var o := OutcomeOf(b, s); SlotsStore(n.images, ImagesAfter(n.images, b.image, o), b, s)
  {
    OutcomeShows(b, s);
  }

  lemma SlotFronts(n: Node, b: Binding, s: Snapshot)
    requires b.kind == "image"
    ensures Fronts(n, SlotAfter(n, b.image, OutcomeOf(b, s)), b, s)
  {
    var o := OutcomeOf(b, s);
    OutcomeShows(b, s);
    RecoversOne(n, b.image, o);
  }

  /**
   What a snapshot does to the canvas: in the bound node the images of the bound slot, or the node itself when it
   has no slot, take the first asset of a completed or partial task, and anything else leaves the message. Other
   images keep what they have, and so do other nodes.
  */
  lemma {:induction false} SnapshotStores(p: Project, b: Binding, s: Snapshot, i: nat)
    requires i < |p.nodes| && b.kind in ["image", "video", "audio"]
    ensures var n, after := p.nodes[i], ApplyCanvasRecoverySnapshot(p, b, s).nodes[i];
      if n.id != b.target then after == n
      else if b.kind == "image" && b.image != "" then
        && after.id == n.id && after.kind == n.kind && SlotsStore(n.images, after.images, b, s)
        && StatusOf(after.images, after.status, after.error, Reason(b, s)) && Fronts(n, after, b, s)
      else NodeStores(n, after, b, s)
  {
    OutcomeShows(b, s);
    if b.kind == "image" {
      SlotStores(p.nodes[i], b, s);
      SlotFronts(p.nodes[i], b, s);
    }
  }
}
