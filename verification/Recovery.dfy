/**
 Recovery of generation tasks after a reload: which open task is bound to which loading node or image
 slot, and what its terminal snapshot does to them.

 An empty string stands for an absent id, asset, key or message, as it does in the tests of the source.
*/
module Recovery {
  import opened Wrappers

  datatype Status = Idle | Loading | Success | Error

  datatype Image = Image(id: string, status: Status, content: string, storageKey: string, mimeType: string, error: string)

  datatype Node = Node(
    id: string, kind: string, status: Status, images: seq<Image>,
    content: string, storageKey: string, mimeType: string, primary: string, error: string)

  datatype Connection = Connection(from: string, to: string)

  datatype Project = Project(nodes: seq<Node>, connections: seq<Connection>)

  datatype Result = Result(asset: string, mimeType: string)

  datatype Snapshot = Snapshot(id: string, source: string, createdAt: int, status: string, results: seq<Result>, message: string)

  datatype Open = Open(kind: string, snapshot: Snapshot)

  datatype Binding = Binding(task: string, kind: string, source: string, target: string, image: string)

  // ---------- Finding a target ----------

  function Find(nodes: seq<Node>, id: string): (r: Option<Node>)
    ensures r.Some? ==> r.value in nodes && r.value.id == id
  {
    if nodes == [] then None else if nodes[0].id == id then Some(nodes[0]) else Find(nodes[1..], id)
  }

  /** The nodes that the connections of a source lead to, those that exist. */
  function TargetsOf(nodes: seq<Node>, connections: seq<Connection>, source: string): (r: seq<Node>)
    ensures forall n :: n in r ==> n in nodes
  {
    if connections == [] then []
    else
      var rest := TargetsOf(nodes, connections[1..], source);
      if connections[0].from == source && Find(nodes, connections[0].to).Some?
      then [Find(nodes, connections[0].to).value] + rest else rest
  }

  function Waiting(nodes: seq<Node>, kind: string): (r: seq<Node>)
    ensures forall n :: n in r <==> n in nodes && n.kind == kind && n.status == Loading
  {
    if nodes == [] then []
    else if nodes[0].kind == kind && nodes[0].status == Loading then [nodes[0]] + Waiting(nodes[1..], kind)
    else Waiting(nodes[1..], kind)
  }

  /** The source itself first, then what it is connected to. */
  function Candidates(p: Project, source: string, kind: string): (r: seq<Node>)
    ensures forall n :: n in r ==> n in p.nodes && n.kind == kind && n.status == Loading
  {
    var direct := Find(p.nodes, source);
    Waiting((if direct.Some? then [direct.value] else []) + TargetsOf(p.nodes, p.connections, source), kind)
  }

  function Slot(node: string, image: string): string {
    node + "\0" + image
  }

  predicate FreeSlot(node: string, image: Image, claimed: set<string>) {
    image.status == Loading && Slot(node, image.id) !in claimed
  }

  /** The first free image. */
  function FreeImage(node: string, images: seq<Image>, claimed: set<string>): (r: Option<nat>)
    ensures r.Some? ==> r.value < |images| && FreeSlot(node, images[r.value], claimed)
    ensures forall i :: 0 <= i < |images| && (r.Some? ==> i < r.value) ==> !FreeSlot(node, images[i], claimed)
  {
    if images == [] then None
    else if FreeSlot(node, images[0], claimed) then Some(0)
    else
      var rest := FreeImage(node, images[1..], claimed);
      assert forall i :: 0 < i < |images| ==> images[i] == images[1..][i - 1];
      if rest.Some? then Some(rest.value + 1) else None
  }

  datatype Target = Target(node: string, image: string)

  /** A target that a task of a kind may take: a whole node, or a loading image of it that nobody has claimed. */
  predicate Free(n: Node, kind: string, claimed: set<string>, t: Target) {
    && t.node == n.id
    && if kind != "image" || n.images == [] then t.image == ""
       else exists i :: 0 <= i < |n.images| && n.images[i].id == t.image && FreeSlot(n.id, n.images[i], claimed)
  }

  /** The first of a node: the node, or the first of its free images. */
  predicate Foremost(n: Node, kind: string, claimed: set<string>, t: Target) {
    && t.node == n.id
    && if kind != "image" || n.images == [] then t.image == ""
       else exists i :: 0 <= i < |n.images| && n.images[i].id == t.image && FreeSlot(n.id, n.images[i], claimed)
                        && forall j :: 0 <= j < i ==> !FreeSlot(n.id, n.images[j], claimed)
  }

  ghost predicate NoneFree(n: Node, kind: string, claimed: set<string>) {
    forall t :: !Free(n, kind, claimed, t)
  }

  /** The first target of the first node that has one, or none when no node has one. */
  function FirstFree(nodes: seq<Node>, kind: string, claimed: set<string>): (r: Option<Target>)
    ensures r.Some? ==> exists k :: 0 <= k < |nodes| && Foremost(nodes[k], kind, claimed, r.value)
                                    && forall j :: 0 <= j < k ==> NoneFree(nodes[j], kind, claimed)
    ensures r.None? ==> forall n :: n in nodes ==> NoneFree(n, kind, claimed)
  {
    if nodes == [] then None
    else
      var n := nodes[0];
      if kind != "image" || n.images == [] then
        assert Foremost(n, kind, claimed, Target(n.id, ""));
        Some(Target(n.id, ""))
      else
        var image := FreeImage(n.id, n.images, claimed);
        if image.Some? then
          assert Foremost(n, kind, claimed, Target(n.id, n.images[image.value].id));
          Some(Target(n.id, n.images[image.value].id))
        else
          var rest := FirstFree(nodes[1..], kind, claimed);
          assert NoneFree(n, kind, claimed);
          Later(nodes, kind, claimed, rest);
          rest
  }

  lemma Later(nodes: seq<Node>, kind: string, claimed: set<string>, r: Option<Target>)
    requires nodes != [] && NoneFree(nodes[0], kind, claimed)
    ensures r.Some? && (exists k :: 0 <= k < |nodes[1..]| && Foremost(nodes[1..][k], kind, claimed, r.value)
                                   && forall j :: 0 <= j < k ==> NoneFree(nodes[1..][j], kind, claimed)) ==>
            exists k :: 0 <= k < |nodes| && Foremost(nodes[k], kind, claimed, r.value)
                        && forall j :: 0 <= j < k ==> NoneFree(nodes[j], kind, claimed)
  {
    hide Foremost, NoneFree;
    if r.Some? {
      if k :| 0 <= k < |nodes[1..]| && Foremost(nodes[1..][k], kind, claimed, r.value)
              && forall j :: 0 <= j < k ==> NoneFree(nodes[1..][j], kind, claimed) {
        assert nodes[k + 1] == nodes[1..][k];
        forall j | 0 <= j < k + 1 ensures NoneFree(nodes[j], kind, claimed) {
          if j > 0 {
            assert nodes[j] == nodes[1..][j - 1];
          }
        }
      }
    }
  }

  lemma ForemostIsFree(n: Node, kind: string, claimed: set<string>, t: Target)
    requires Foremost(n, kind, claimed, t)
    ensures Free(n, kind, claimed, t)
  {
  }

  function FindRecoveryTarget(p: Project, source: string, kind: string, claimed: set<string>): Option<Target> {
    FirstFree(Candidates(p, source, kind), kind, claimed)
  }

  // ---------- Binding every task ----------

  /** sort by created_at: equal times keep their order. */
  function InsertByTime(x: Open, xs: seq<Open>): seq<Open> {
    if xs == [] || x.snapshot.createdAt < xs[0].snapshot.createdAt then [x] + xs else [xs[0]] + InsertByTime(x, xs[1..])
  }

  function SortByTime(xs: seq<Open>): seq<Open> {
    if xs == [] then [] else InsertByTime(xs[|xs| - 1], SortByTime(xs[..|xs| - 1]))
  }

  ghost predicate InTime(xs: seq<Open>) {
    forall i, j :: 0 <= i < j < |xs| ==> xs[i].snapshot.createdAt <= xs[j].snapshot.createdAt
  }

  function At(xs: seq<Open>, time: int): seq<Open> {
    if xs == [] then [] else if xs[0].snapshot.createdAt == time then [xs[0]] + At(xs[1..], time) else At(xs[1..], time)
  }

  lemma {:induction false} AtAppend(xs: seq<Open>, ys: seq<Open>, time: int)
    ensures At(xs + ys, time) == At(xs, time) + At(ys, time)
  {
    if xs == [] {
      assert xs + ys == ys;
    } else {
      AtAppend(xs[1..], ys, time);
      assert (xs + ys)[1..] == xs[1..] + ys;
    }
  }

  lemma {:induction false} InsertedOnce(x: Open, xs: seq<Open>)
    ensures multiset(InsertByTime(x, xs)) == multiset(xs) + multiset{x}
  {
    if xs != [] && x.snapshot.createdAt >= xs[0].snapshot.createdAt {
      InsertedOnce(x, xs[1..]);
      assert xs == [xs[0]] + xs[1..];
    }
  }

  lemma {:induction false} InsertedInTime(x: Open, xs: seq<Open>)
    requires InTime(xs)
    ensures InTime(InsertByTime(x, xs))
  {
    if xs != [] && x.snapshot.createdAt >= xs[0].snapshot.createdAt {
      InsertedInTime(x, xs[1..]);
      InsertedOnce(x, xs[1..]);
      var rest := InsertByTime(x, xs[1..]);
      forall i | 0 <= i < |rest| ensures xs[0].snapshot.createdAt <= rest[i].snapshot.createdAt {
        assert rest[i] in multiset(rest);
        assert rest[i] == x || rest[i] in xs[1..];
      }
    }
  }

  lemma {:induction false} InsertedLast(x: Open, xs: seq<Open>, time: int)
    requires InTime(xs)
    ensures At(InsertByTime(x, xs), time) == At(xs, time) + At([x], time)
  {
    if xs == [] || x.snapshot.createdAt < xs[0].snapshot.createdAt {
      AtAppend([x], xs, time);
      if time == x.snapshot.createdAt {
        NoneAt(xs, time);
      }
    } else {
      InsertedLast(x, xs[1..], time);
    }
  }

  lemma {:induction false} NoneAt(xs: seq<Open>, time: int)
    requires forall i :: 0 <= i < |xs| ==> time < xs[i].snapshot.createdAt
    ensures At(xs, time) == []
  {
    if xs != [] {
      NoneAt(xs[1..], time);
    }
  }

  /** It sorts, loses nothing, and keeps the order of what was created at the same time. */
  lemma {:induction false} SortsStably(xs: seq<Open>)
    ensures InTime(SortByTime(xs)) && multiset(SortByTime(xs)) == multiset(xs)
    ensures forall time :: At(SortByTime(xs), time) == At(xs, time)
  {
    if xs != [] {
      var rest, last := xs[..|xs| - 1], xs[|xs| - 1];
      SortsStably(rest);
      InsertedInTime(last, SortByTime(rest));
      InsertedOnce(last, SortByTime(rest));
      assert xs == rest + [last];
      forall time ensures At(SortByTime(xs), time) == At(xs, time) {
        InsertedLast(last, SortByTime(rest), time);
        AtAppend(rest, [last], time);
      }
    }
  }

  datatype Progress = Progress(bindings: seq<Binding>, claimed: set<string>)

  function BindOne(p: Project, open: Open, before: Progress): Progress {
    var snapshot := open.snapshot;
    var target := FindRecoveryTarget(p, snapshot.source, open.kind, before.claimed);
    if snapshot.source == "" || target.None? then before
    else Progress(
      before.bindings + [Binding(snapshot.id, open.kind, snapshot.source, target.value.node, target.value.image)],
      if target.value.image != "" then before.claimed + {Slot(target.value.node, target.value.image)} else before.claimed)
  }

  function BindFirst(p: Project, opens: seq<Open>, claimed: set<string>, n: nat): Progress
    requires n <= |opens|
  {
    if n == 0 then Progress([], claimed) else BindOne(p, opens[n - 1], BindFirst(p, opens, claimed, n - 1))
  }

  function ClaimedBy(records: seq<Binding>): set<string> {
    set b | b in records && b.image != "" :: Slot(b.target, b.image)
  }

  method BuildCanvasRecoveryBindings(p: Project, opens: seq<Open>, records: seq<Binding>) returns (bindings: seq<Binding>)
    ensures bindings == BindFirst(p, SortByTime(opens), ClaimedBy(records), |SortByTime(opens)|).bindings
  {
    var claimed := ClaimedBy(records);
    var sorted := SortByTime(opens);
    bindings := [];
    for i := 0 to |sorted|
      invariant Progress(bindings, claimed) == BindFirst(p, sorted, ClaimedBy(records), i)
    {
      bindings, claimed := BindNext(p, sorted[i], bindings, claimed);
    }
  }

  /** One round of the loop. */
  method BindNext(p: Project, open: Open, before: seq<Binding>, taken: set<string>) returns (bindings: seq<Binding>, claimed: set<string>)
    ensures Progress(bindings, claimed) == BindOne(p, open, Progress(before, taken))
  {
    bindings, claimed := before, taken;
    var source := open.snapshot.source;
    if source != "" {
      var target := FindRecoveryTarget(p, source, open.kind, claimed);
      if target.Some? {
        if target.value.image != "" {
          claimed := claimed + {Slot(target.value.node, target.value.image)};
        }
        bindings := bindings + [Binding(open.snapshot.id, open.kind, source, target.value.node, target.value.image)];
      }
    }
  }

  // ---------- No slot is bound twice ----------

  ghost predicate SlotsDistinct(bs: seq<Binding>) {
    forall i, j :: 0 <= i < j < |bs| && bs[i].image != "" && bs[j].image != "" ==>
      Slot(bs[i].target, bs[i].image) != Slot(bs[j].target, bs[j].image)
  }

  lemma AddsOneSlot(records: seq<Binding>, b: Binding)
    ensures ClaimedBy(records + [b]) == ClaimedBy(records) + if b.image != "" then {Slot(b.target, b.image)} else {}
  {
    assert forall r :: r in records + [b] <==> r in records || r == b;
  }

  lemma DistinctWithOne(records: seq<Binding>, b: Binding)
    requires SlotsDistinct(records) && (b.image != "" ==> Slot(b.target, b.image) !in ClaimedBy(records))
    ensures SlotsDistinct(records + [b])
  {
    forall i | 0 <= i < |records| && records[i].image != "" && b.image != ""
      ensures Slot(records[i].target, records[i].image) != Slot(b.target, b.image)
    {
      assert records[i] in records;
    }
  }

  ghost predicate NothingFree(p: Project, open: Open, claimed: set<string>) {
    forall n :: n in Candidates(p, open.snapshot.source, open.kind) ==> NoneFree(n, open.kind, claimed)
  }

  /** The binding is to the first target of the first candidate that has one. */
  ghost predicate TakesFirst(p: Project, open: Open, claimed: set<string>, b: Binding) {
    && b.task == open.snapshot.id && b.source == open.snapshot.source && b.kind == open.kind
    && var nodes := Candidates(p, b.source, b.kind);
       exists k :: 0 <= k < |nodes| && Foremost(nodes[k], b.kind, claimed, Target(b.target, b.image))
                   && forall j :: 0 <= j < k ==> NoneFree(nodes[j], b.kind, claimed)
  }

  /** A task is left out exactly when it has no source or nothing is free for it; otherwise it takes what comes first. */
  lemma TookTheFirst(p: Project, open: Open, before: Progress)
    ensures BindOne(p, open, before) == before <==> open.snapshot.source == "" || NothingFree(p, open, before.claimed)
    ensures var after := BindOne(p, open, before).bindings;
            after != before.bindings ==>
              |after| == |before.bindings| + 1 && after[..|before.bindings|] == before.bindings
              && TakesFirst(p, open, before.claimed, after[|before.bindings|])
  {
    hide Foremost, NoneFree;
    var target := FindRecoveryTarget(p, open.snapshot.source, open.kind, before.claimed);
    if open.snapshot.source != "" && target.Some? {
      assert |BindOne(p, open, before).bindings| == |before.bindings| + 1;
      var nodes := Candidates(p, open.snapshot.source, open.kind);
      var k :| 0 <= k < |nodes| && Foremost(nodes[k], open.kind, before.claimed, target.value);
      NotNone(nodes[k], open.kind, before.claimed, target.value);
      assert nodes[k] in nodes;
    }
  }

  lemma NotNone(n: Node, kind: string, claimed: set<string>, t: Target)
    requires Foremost(n, kind, claimed, t)
    ensures !NoneFree(n, kind, claimed)
  {
    ForemostIsFree(n, kind, claimed, t);
  }

  lemma TookUnclaimed(p: Project, open: Open, before: Progress, b: Binding)
    requires BindOne(p, open, before).bindings == before.bindings + [b] && b.image != ""
    ensures Slot(b.target, b.image) !in before.claimed
  {
    var t := FindRecoveryTarget(p, open.snapshot.source, open.kind, before.claimed);
    assert (before.bindings + [b])[|before.bindings|] == b;
    assert t.Some? && t.value == Target(b.target, b.image);
    var nodes := Candidates(p, open.snapshot.source, open.kind);
    var k :| 0 <= k < |nodes| && Foremost(nodes[k], open.kind, before.claimed, t.value);
  }

  lemma OneMoreBound(p: Project, open: Open, before: Progress, records: seq<Binding>)
    requires SlotsDistinct(records + before.bindings) && before.claimed == ClaimedBy(records + before.bindings)
    ensures var after := BindOne(p, open, before);
      SlotsDistinct(records + after.bindings) && after.claimed == ClaimedBy(records + after.bindings)
  {
    hide SlotsDistinct, FindRecoveryTarget, ClaimedBy;
    var target := FindRecoveryTarget(p, open.snapshot.source, open.kind, before.claimed);
    if open.snapshot.source != "" && target.Some? {
      var b := Binding(open.snapshot.id, open.kind, open.snapshot.source, target.value.node, target.value.image);
      if b.image != "" {
        TookUnclaimed(p, open, before, b);
      }
      assert records + (before.bindings + [b]) == (records + before.bindings) + [b];
      AddsOneSlot(records + before.bindings, b);
      DistinctWithOne(records + before.bindings, b);
    }
  }

  /** With what was claimed before, the slots of all bindings differ. */
  lemma {:induction false} NoSlotTwice(p: Project, opens: seq<Open>, records: seq<Binding>, n: nat)
    requires n <= |opens| && SlotsDistinct(records)
    ensures var made := BindFirst(p, opens, ClaimedBy(records), n);
      SlotsDistinct(records + made.bindings) && made.claimed == ClaimedBy(records + made.bindings)
  {
    if n == 0 {
      assert records + [] == records;
    } else {
      NoSlotTwice(p, opens, records, n - 1);
      OneMoreBound(p, opens[n - 1], BindFirst(p, opens, ClaimedBy(records), n - 1), records);
    }
  }

  // ---------- What a terminal snapshot does ----------

  function Successful(s: Snapshot): bool {
    s.status == "completed" || s.status == "partial"
  }

  function FirstResult(results: seq<Result>): Option<Result> {
    if results == [] then None else if results[0].asset != "" then Some(results[0]) else FirstResult(results[1..])
  }

  /** What a task left behind: a result if it has one, and the error text to show without one. */
  datatype Outcome = Outcome(result: Option<Result>, error: string)

  function OutcomeOf(b: Binding, s: Snapshot): Outcome {
    var result := FirstResult(s.results);
    var mimeType := if b.kind == "video" then "video/mp4" else if b.kind == "audio" then "audio/mpeg" else "image/png";
    Outcome(
      if Successful(s) && result.Some? then
        Some(if result.value.mimeType != "" then result.value else result.value.(mimeType := mimeType))
      else None,
      if s.message != "" then s.message else b.kind + " generation " + s.status)
  }

  function Key(asset: string): string {
    "asset:" + asset
  }

  function ImageAfter(image: Image, o: Outcome): (r: Image)
    ensures r.id == image.id
  {
    match o.result
    case Some(result) => image.(status := Success, error := "", content := "", storageKey := Key(result.asset), mimeType := result.mimeType)
    case None => image.(status := Error, error := o.error)
  }

  function ImagesAfter(images: seq<Image>, id: string, o: Outcome): seq<Image> {
    seq(|images|, i requires 0 <= i < |images| => if images[i].id == id then ImageAfter(images[i], o) else images[i])
  }

  predicate Any(images: seq<Image>, status: Status) {
    exists i :: 0 <= i < |images| && images[i].status == status
  }

  function Combined(images: seq<Image>): Status {
    if Any(images, Loading) then Loading else if Any(images, Success) then Success else Error
  }

  function Recovered(images: seq<Image>, id: string): (r: Option<Image>)
    ensures r.Some? ==> r.value in images && r.value.id == id && r.value.status == Success
    ensures r.None? ==> forall i :: i in images && i.id == id ==> i.status != Success
  {
    if images == [] then None
    else if images[0].id == id && images[0].status == Success then Some(images[0]) else Recovered(images[1..], id)
  }

  /** reconcileImageNode with an image id. */
  function SlotAfter(n: Node, id: string, o: Outcome): Node {
    var images := ImagesAfter(n.images, id, o);
    var recovered := Recovered(images, id);
    var m := n.(images := images, status := Combined(images),
                error := if Any(images, Loading) || Any(images, Success) then "" else o.error);
    if recovered.Some? && n.storageKey == "" then
      m.(content := "", storageKey := recovered.value.storageKey, mimeType := recovered.value.mimeType, primary := recovered.value.id)
    else m
  }

  /** A node without image slots takes the outcome itself. */
  function WholeAfter(n: Node, o: Outcome): Node {
    match o.result
    case Some(result) => n.(content := "", storageKey := Key(result.asset), mimeType := result.mimeType, status := Success, error := "")
    case None => n.(status := Error, error := o.error)
  }

  function NodeAfter(n: Node, b: Binding, o: Outcome): (r: Node)
    ensures r.id == n.id && r.kind == n.kind
  {
    if n.id != b.target then n
    else if b.kind == "image" && b.image != "" then SlotAfter(n, b.image, o)
    else WholeAfter(n, o)
  }

  function Applied(p: Project, b: Binding, o: Outcome): Project {
    p.(nodes := seq(|p.nodes|, i requires 0 <= i < |p.nodes| => NodeAfter(p.nodes[i], b, o)))
  }

  function ApplyCanvasRecoverySnapshot(p: Project, b: Binding, s: Snapshot): Project {
    Applied(p, b, OutcomeOf(b, s))
  }

  // ---------- Twice is once ----------

  lemma SlotTwice(n: Node, id: string, o: Outcome)
    ensures SlotAfter(SlotAfter(n, id, o), id, o) == SlotAfter(n, id, o)
  {
    var once := SlotAfter(n, id, o);
    assert ImagesAfter(once.images, id, o) == once.images;
    var recovered := Recovered(once.images, id);
    if recovered.Some? {
      assert o.result.Some? && recovered.value.storageKey == Key(o.result.value.asset);
      assert once.storageKey != "";
    }
  }

  /** A snapshot applied again changes nothing at all. */
  lemma AppliedTwice(p: Project, b: Binding, s: Snapshot)
    ensures var once := ApplyCanvasRecoverySnapshot(p, b, s); ApplyCanvasRecoverySnapshot(once, b, s) == once
  {
    var o := OutcomeOf(b, s);
    forall i | 0 <= i < |p.nodes|
      ensures NodeAfter(NodeAfter(p.nodes[i], b, o), b, o) == NodeAfter(p.nodes[i], b, o)
    {
      SlotTwice(p.nodes[i], b.image, o);
    }
  }

  // ---------- The order does not matter ----------

  datatype Update = Update(binding: Binding, outcome: Outcome)

  /** The updates one after the other. */
  function AllApplied(p: Project, us: seq<Update>): (r: Project)
    ensures |r.nodes| == |p.nodes| && r.connections == p.connections
  {
    if us == [] then p
    else
      var last := us[|us| - 1];
      Applied(AllApplied(p, us[..|us| - 1]), last.binding, last.outcome)
  }

  predicate Hits(u: Update, node: string, image: string) {
    u.binding.target == node && u.binding.image == image
  }

  predicate Touches(us: seq<Update>, node: string) {
    exists u :: u in us && u.binding.target == node
  }

  /** Image slots, and no slot twice. */
  ghost predicate OnSlots(us: seq<Update>) {
    && (forall u :: u in us ==> u.binding.kind == "image" && u.binding.image != "")
    && forall i, j :: 0 <= i < j < |us| ==> !Hits(us[j], us[i].binding.target, us[i].binding.image)
  }

  /** An image after all of them: it takes the outcome for its slot, if there is one. */
  ghost predicate ImageSettled(us: seq<Update>, node: string, before: Image, after: Image) {
    && (forall u :: u in us && Hits(u, node, before.id) ==> after == ImageAfter(before, u.outcome))
    && ((forall u :: u in us ==> !Hits(u, node, before.id)) ==> after == before)
  }

  /** A node after all of them. */
  ghost predicate NodeSettled(us: seq<Update>, before: Node, after: Node) {
    && after.id == before.id && after.kind == before.kind && |after.images| == |before.images|
    && (forall i :: 0 <= i < |before.images| ==> ImageSettled(us, before.id, before.images[i], after.images[i]))
    && after.status == if Touches(us, before.id) then Combined(after.images) else before.status
  }

  lemma OneMoreImage(us: seq<Update>, u: Update, node: string, before: Image, after: Image)
    requires OnSlots(us + [u]) && ImageSettled(us, node, before, after) && after.id == before.id
    ensures ImageSettled(us + [u], node, before, if Hits(u, node, before.id) then ImageAfter(after, u.outcome) else after)
  {
    assert forall v :: v in us + [u] <==> v in us || v == u;
    if Hits(u, node, before.id) {
      forall v | v in us ensures !Hits(v, node, before.id) {
        var i :| 0 <= i < |us| && us[i] == v;
        assert !Hits((us + [u])[|us|], (us + [u])[i].binding.target, (us + [u])[i].binding.image);
      }
    }
  }

  lemma SettledId(us: seq<Update>, node: string, before: Image, after: Image)
    requires ImageSettled(us, node, before, after)
    ensures after.id == before.id
  {
  }

  lemma OneMoreNode(us: seq<Update>, u: Update, before: Node, after: Node)
    requires OnSlots(us + [u]) && NodeSettled(us, before, after)
    ensures NodeSettled(us + [u], before, NodeAfter(after, u.binding, u.outcome))
  {
    var next := NodeAfter(after, u.binding, u.outcome);
    assert u in us + [u];
    forall i | 0 <= i < |before.images|
      ensures ImageSettled(us + [u], before.id, before.images[i], next.images[i])
    {
      SettledId(us, before.id, before.images[i], after.images[i]);
      OneMoreImage(us, u, before.id, before.images[i], after.images[i]);
    }
    assert Touches(us + [u], before.id) <==> Touches(us, before.id) || u.binding.target == before.id by {
      assert forall v :: v in us + [u] <==> v in us || v == u;
    }
  }

  /** For distinct slots: what the images and the status of every node come to. */
  lemma {:induction false} AllSettled(p: Project, us: seq<Update>, i: nat)
    requires OnSlots(us) && i < |p.nodes|
    ensures NodeSettled(us, p.nodes[i], AllApplied(p, us).nodes[i])
  {
    if us != [] {
      var rest, last := us[..|us| - 1], us[|us| - 1];
      assert us == rest + [last];
      assert OnSlots(rest);
      AllSettled(p, rest, i);
      OneMoreNode(rest, last, p.nodes[i], AllApplied(p, rest).nodes[i]);
    }
  }

  /** What is compared: everything but the top-level content of a node and its error text. */
  ghost predicate SameView(p: Project, q: Project) {
    && p.connections == q.connections && |p.nodes| == |q.nodes|
    && forall i :: 0 <= i < |p.nodes| ==>
         && p.nodes[i].id == q.nodes[i].id && p.nodes[i].kind == q.nodes[i].kind
         && p.nodes[i].status == q.nodes[i].status && p.nodes[i].images == q.nodes[i].images
  }

  lemma SameSettled(us: seq<Update>, vs: seq<Update>, n: Node, a: Node, b: Node)
    requires forall u :: u in us <==> u in vs
    requires NodeSettled(us, n, a) && NodeSettled(vs, n, b)
    ensures a.images == b.images && a.status == b.status
  {
    forall i | 0 <= i < |n.images|
      ensures a.images[i] == b.images[i]
    {
      assert ImageSettled(us, n.id, n.images[i], a.images[i]) && ImageSettled(vs, n.id, n.images[i], b.images[i]);
      if u :| u in us && Hits(u, n.id, n.images[i].id) {
        assert u in vs;
      }
    }
    assert a.images == b.images;
    assert Touches(us, n.id) <==> Touches(vs, n.id);
  }

  /** Snapshots for distinct image slots may be applied in any order. */
  lemma AnyOrder(p: Project, us: seq<Update>, vs: seq<Update>)
    requires OnSlots(us) && OnSlots(vs) && multiset(us) == multiset(vs)
    ensures SameView(AllApplied(p, us), AllApplied(p, vs))
  {
    assert forall u :: u in us <==> u in multiset(us);
    forall i | 0 <= i < |p.nodes|
      ensures var a, b := AllApplied(p, us).nodes[i], AllApplied(p, vs).nodes[i];
              a.id == b.id && a.kind == b.kind && a.status == b.status && a.images == b.images
    {
      AllSettled(p, us, i);
      AllSettled(p, vs, i);
      SameSettled(us, vs, p.nodes[i], AllApplied(p, us).nodes[i], AllApplied(p, vs).nodes[i]);
    }
  }

  // ---------- The primary image ----------

  predicate Recovers(u: Update, n: Node) {
    u.binding.target == n.id && u.outcome.result.Some? && exists i :: 0 <= i < |n.images| && n.images[i].id == u.binding.image
  }

  /** The first update that stores a result in an image of the node. */
  function FirstRecovering(us: seq<Update>, n: Node): Option<Update> {
    if us == [] then None
    else
      var before := FirstRecovering(us[..|us| - 1], n);
      if before.Some? then before else if Recovers(us[|us| - 1], n) then Some(us[|us| - 1]) else None
  }

  lemma RecoversOne(n: Node, id: string, o: Outcome)
    ensures Recovered(ImagesAfter(n.images, id, o), id).Some? <==> o.result.Some? && exists i :: 0 <= i < |n.images| && n.images[i].id == id
  {
    var images := ImagesAfter(n.images, id, o);
    if i :| 0 <= i < |n.images| && n.images[i].id == id {
      assert images[i] in images && images[i].id == id;
    }
  }

  /**
   Which image becomes the primary one does depend on the order: exactly when a node has nothing stored yet,
   it is the image of the first update that stores something.
  */
  lemma {:induction false} PrimaryIsFirst(p: Project, us: seq<Update>, i: nat)
    requires OnSlots(us) && i < |p.nodes|
    ensures var n, after, first := p.nodes[i], AllApplied(p, us).nodes[i], FirstRecovering(us, p.nodes[i]);
            && after.primary == (if n.storageKey == "" && first.Some? then first.value.binding.image else n.primary)
            && (after.storageKey != "" <==> n.storageKey != "" || first.Some?)
  {
    if us != [] {
      var rest, last := us[..|us| - 1], us[|us| - 1];
      assert us == rest + [last];
      assert OnSlots(rest);
      PrimaryIsFirst(p, rest, i);
      AllSettled(p, rest, i);
      var n, before := p.nodes[i], AllApplied(p, rest).nodes[i];
      SameImageIds(rest, n, before);
      RecoversOne(before, last.binding.image, last.outcome);
      assert last in us;
      RecoveredKey(before, last.binding.image, last.outcome);
    }
  }

  lemma SameImageIds(us: seq<Update>, n: Node, after: Node)
    requires NodeSettled(us, n, after)
    ensures forall i :: 0 <= i < |n.images| ==> after.images[i].id == n.images[i].id
  {
    forall i | 0 <= i < |n.images| ensures after.images[i].id == n.images[i].id {
      SettledId(us, n.id, n.images[i], after.images[i]);
    }
  }

  lemma RecoveredKey(n: Node, id: string, o: Outcome)
    ensures var r := Recovered(ImagesAfter(n.images, id, o), id); r.Some? && o.result.Some? ==> r.value.storageKey == Key(o.result.value.asset)
  {
  }

  // ---------- Sources ----------

  predicate Succeeded(targets: seq<Node>) {
    exists i :: 0 <= i < |targets| && (targets[i].status == Success || Any(targets[i].images, Success))
  }

  function FirstError(targets: seq<Node>): string {
    if targets == [] then "" else if targets[0].error != "" then targets[0].error else FirstError(targets[1..])
  }

  predicate Active(records: seq<Binding>, source: string) {
    exists b :: b in records && b.source == source
  }

  function SettleNode(p: Project, n: Node, sources: set<string>, active: seq<Binding>): Node {
    if n.id !in sources || Active(active, n.id) || n.status != Loading then n
    else
      var targets := TargetsOf(p.nodes, p.connections, n.id);
      if Succeeded(targets) then n.(status := Success, error := "")
      else n.(status := Error, error := if FirstError(targets) != "" then FirstError(targets) else "Generation could not be recovered")
  }

  function SettleCanvasRecoverySources(p: Project, sources: set<string>, active: seq<Binding>): Project {
    p.(nodes := seq(|p.nodes|, i requires 0 <= i < |p.nodes| => SettleNode(p, p.nodes[i], sources, active)))
  }

  /** Afterwards a source waits only for tasks that are still open, and it succeeded exactly when a target did. */
  lemma SourcesAreSettled(p: Project, sources: set<string>, active: seq<Binding>, i: nat)
    requires i < |p.nodes|
    ensures var n, after := p.nodes[i], SettleCanvasRecoverySources(p, sources, active).nodes[i];
            && (after.status == Loading && n.id in sources ==> Active(active, n.id))
            && (n.status == Loading && n.id in sources && !Active(active, n.id) ==>
                  (after.status == Success <==> Succeeded(TargetsOf(p.nodes, p.connections, n.id))))
            && (n.status != Loading || n.id !in sources ==> after == n) && after.images == n.images
  {
  }

  lemma {:induction false} FindsSame(p: seq<Node>, q: seq<Node>, id: string)
    requires |p| == |q|
    requires forall i :: 0 <= i < |p| ==> p[i].id == q[i].id && p[i].status == q[i].status && p[i].images == q[i].images
    ensures Find(p, id).Some? <==> Find(q, id).Some?
    ensures Find(p, id).Some? ==> Find(p, id).value.status == Find(q, id).value.status && Find(p, id).value.images == Find(q, id).value.images
  {
    if p != [] && p[0].id != id {
      FindsSame(p[1..], q[1..], id);
    }
  }

  lemma {:induction false} TargetsSame(p: Project, q: Project, connections: seq<Connection>, source: string)
    requires SameView(p, q)
    ensures var a, b := TargetsOf(p.nodes, connections, source), TargetsOf(q.nodes, connections, source);
            |a| == |b| && forall i :: 0 <= i < |a| ==> a[i].status == b[i].status && a[i].images == b[i].images
  {
    if connections != [] {
      TargetsSame(p, q, connections[1..], source);
      FindsSame(p.nodes, q.nodes, connections[0].to);
    }
  }

  lemma SettlesSame(p: Project, q: Project, sources: set<string>, active: seq<Binding>)
    requires SameView(p, q)
    ensures SameView(SettleCanvasRecoverySources(p, sources, active), SettleCanvasRecoverySources(q, sources, active))
  {
    forall i | 0 <= i < |p.nodes|
      ensures SettleNode(p, p.nodes[i], sources, active).status == SettleNode(q, q.nodes[i], sources, active).status
    {
      TargetsSame(p, q, p.connections, p.nodes[i].id);
    }
  }

  // ---------- Tasks finish ----------

  function Without(records: seq<Binding>, task: string): seq<Binding> {
    if records == [] then []
    else
      var rest := Without(records[..|records| - 1], task);
      if records[|records| - 1].task == task then rest else rest + [records[|records| - 1]]
  }

  function Tasks(us: seq<Update>): set<string> {
    set u | u in us :: u.binding.task
  }

  function Sources(us: seq<Update>): set<string> {
    set u | u in us :: u.binding.source
  }

  /** What is still open once the tasks of some updates are gone. */
  function Remaining(records: seq<Binding>, us: seq<Update>): seq<Binding> {
    if us == [] then records else Without(Remaining(records, us[..|us| - 1]), us[|us| - 1].binding.task)
  }

  /** finishCanvasRecovery for each: apply, forget the task, settle its source. */
  function AllFinished(p: Project, records: seq<Binding>, us: seq<Update>): (r: Project)
    ensures |r.nodes| == |p.nodes| && r.connections == p.connections
  {
    if us == [] then p
    else
      var last := us[|us| - 1];
      SettleCanvasRecoverySources(
        Applied(AllFinished(p, records, us[..|us| - 1]), last.binding, last.outcome),
        {last.binding.source}, Remaining(records, us))
  }

  lemma {:induction false} StillOpen(records: seq<Binding>, task: string, b: Binding)
    ensures b in Without(records, task) <==> b in records && b.task != task
  {
    if records != [] {
      var rest, last := records[..|records| - 1], records[|records| - 1];
      StillOpen(rest, task, b);
      assert records == rest + [last];
    }
  }

  lemma {:induction false} OpenWhileUnfinished(records: seq<Binding>, us: seq<Update>, b: Binding)
    ensures b in Remaining(records, us) <==> b in records && b.task !in Tasks(us)
  {
    if us != [] {
      var rest, last := us[..|us| - 1], us[|us| - 1];
      OpenWhileUnfinished(records, rest, b);
      StillOpen(Remaining(records, rest), last.binding.task, b);
      assert us == rest + [last];
    }
  }

  predicate LeadsTo(connections: seq<Connection>, source: string, node: string) {
    Connection(source, node) in connections
  }

  /** Open tasks, each once. */
  ghost predicate OpenTasks(us: seq<Update>, records: seq<Binding>) {
    && (forall u :: u in us ==> u.binding in records)
    && (forall i, j :: 0 <= i < j < |us| ==> us[i].binding.task != us[j].binding.task)
    && forall a, b :: a in records && b in records && a.task == b.task ==> a == b
  }

  /** No source looks at the nodes that tasks of another one change, the other source included. */
  ghost predicate Independent(connections: seq<Connection>, us: seq<Update>) {
    forall u, source :: u in us && source in Sources(us) && source != u.binding.source ==>
      && u.binding.target != source && !LeadsTo(connections, source, u.binding.target)
      && !LeadsTo(connections, source, u.binding.source)
  }

  lemma {:induction false} SameTargets(p: seq<Node>, q: seq<Node>, connections: seq<Connection>, source: string)
    requires |p| == |q| && forall i :: 0 <= i < |p| ==> p[i].id == q[i].id
    requires forall i :: 0 <= i < |p| && LeadsTo(connections, source, p[i].id) ==> p[i] == q[i]
    ensures TargetsOf(p, connections, source) == TargetsOf(q, connections, source)
  {
    if connections != [] {
      var c := connections[0];
      assert forall d :: d in connections[1..] ==> d in connections;
      SameTargets(p, q, connections[1..], source);
      FindsOne(p, q, c.to, c.from == source);
    }
  }

  lemma {:induction false} FindsOne(p: seq<Node>, q: seq<Node>, id: string, same: bool)
    requires |p| == |q| && forall i :: 0 <= i < |p| ==> p[i].id == q[i].id
    requires same ==> forall i :: 0 <= i < |p| && p[i].id == id ==> p[i] == q[i]
    ensures Find(p, id).Some? <==> Find(q, id).Some?
    ensures same ==> Find(p, id) == Find(q, id)
  {
    if p != [] && p[0].id != id {
      FindsOne(p[1..], q[1..], id, same);
    }
  }

  lemma FirstOnes(us: seq<Update>, records: seq<Binding>, connections: seq<Connection>)
    requires us != [] && OpenTasks(us, records) && Independent(connections, us)
    ensures var rest := us[..|us| - 1];
      OpenTasks(rest, records) && Independent(connections, rest) && Sources(us) == Sources(rest) + {us[|us| - 1].binding.source}
  {
    var rest, last := us[..|us| - 1], us[|us| - 1];
    assert us == rest + [last];
    assert forall u :: u in us <==> u in rest || u == last;
    assert Sources(us) == Sources(rest) + {last.binding.source};
  }

  /** The last task is open before it finishes, and its end leaves the tasks of other sources as they are. */
  lemma LastIsOpen(us: seq<Update>, records: seq<Binding>, source: string)
    requires us != [] && OpenTasks(us, records)
    ensures var rest, last := us[..|us| - 1], us[|us| - 1].binding;
      && Active(Remaining(records, rest), last.source)
      && (source != last.source ==> (Active(Remaining(records, us), source) <==> Active(Remaining(records, rest), source)))
  {
    var rest, last := us[..|us| - 1], us[|us| - 1].binding;
    assert us == rest + [us[|us| - 1]] && us[|us| - 1] in us;
    forall u | u in rest ensures u.binding.task != last.task {
      var i :| 0 <= i < |rest| && rest[i] == u;
      assert us[i] == u && us[|rest|].binding == last;
    }
    OpenWhileUnfinished(records, rest, last);
    forall b | b in records && b.source == source && source != last.source
      ensures b in Remaining(records, us) <==> b in Remaining(records, rest)
    {
      OpenWhileUnfinished(records, rest, b);
      OpenWhileUnfinished(records, us, b);
    }
    forall b | b in Remaining(records, us) || b in Remaining(records, rest) ensures b in records {
      OpenWhileUnfinished(records, rest, b);
      OpenWhileUnfinished(records, us, b);
    }
  }

  lemma SameChoice(p: Project, q: Project, n: Node, sources: set<string>, others: set<string>, some: seq<Binding>, more: seq<Binding>)
    requires TargetsOf(p.nodes, p.connections, n.id) == TargetsOf(q.nodes, q.connections, n.id)
    requires (n.id in sources <==> n.id in others) && (Active(some, n.id) <==> Active(more, n.id))
    ensures SettleNode(p, n, sources, some) == SettleNode(q, n, others, more)
  {
  }

  /** Settling some sources leaves what another source leads to, if these sources are not among it. */
  lemma OtherTargets(p: Project, sources: set<string>, active: seq<Binding>, source: string)
    requires forall other :: other in sources && other != source ==> !LeadsTo(p.connections, source, other)
    requires source in sources ==> Active(active, source)
    ensures var q := SettleCanvasRecoverySources(p, sources, active);
      forall i :: 0 <= i < |p.nodes| && LeadsTo(p.connections, source, p.nodes[i].id) ==> q.nodes[i] == p.nodes[i]
  {
  }

  /** The last task of some finishes, after the others did. */
  function InTurn(plain: Project, sources: set<string>, active: seq<Binding>, last: Update, remaining: seq<Binding>): Project {
    SettleCanvasRecoverySources(
      Applied(SettleCanvasRecoverySources(plain, sources, active), last.binding, last.outcome), {last.binding.source}, remaining)
  }

  /** All are applied, and then everything is settled. */
  function AtTheEnd(plain: Project, sources: set<string>, last: Update, remaining: seq<Binding>): Project {
    SettleCanvasRecoverySources(Applied(plain, last.binding, last.outcome), sources + {last.binding.source}, remaining)
  }

  lemma OwnSource(plain: Project, sources: set<string>, active: seq<Binding>, last: Update, remaining: seq<Binding>, i: nat)
    requires i < |plain.nodes| && plain.nodes[i].id == last.binding.source && Active(active, last.binding.source)
    requires forall other :: other in sources && other != last.binding.source ==> !LeadsTo(plain.connections, last.binding.source, other)
    ensures InTurn(plain, sources, active, last, remaining).nodes[i] == AtTheEnd(plain, sources, last, remaining).nodes[i]
  {
    var source := last.binding.source;
    var before := SettleCanvasRecoverySources(plain, sources, active);
    var applied, all := Applied(before, last.binding, last.outcome), Applied(plain, last.binding, last.outcome);
    OtherTargets(plain, sources, active, source);
    SameTargets(applied.nodes, all.nodes, plain.connections, source);
    SameChoice(applied, all, all.nodes[i], {source}, sources + {source}, remaining, remaining);
  }

  lemma OtherSource(plain: Project, sources: set<string>, active: seq<Binding>, last: Update, remaining: seq<Binding>, i: nat)
    requires i < |plain.nodes| && plain.nodes[i].id != last.binding.source && plain.nodes[i].id in sources
    requires plain.nodes[i].id != last.binding.target && !LeadsTo(plain.connections, plain.nodes[i].id, last.binding.target)
    requires Active(remaining, plain.nodes[i].id) <==> Active(active, plain.nodes[i].id)
    ensures InTurn(plain, sources, active, last, remaining).nodes[i] == AtTheEnd(plain, sources, last, remaining).nodes[i]
  {
    var n, all := plain.nodes[i], Applied(plain, last.binding, last.outcome);
    SameTargets(plain.nodes, all.nodes, plain.connections, n.id);
    SameChoice(plain, all, n, sources, sources + {last.binding.source}, active, remaining);
  }

  lemma NoSource(plain: Project, sources: set<string>, active: seq<Binding>, last: Update, remaining: seq<Binding>, i: nat)
    requires i < |plain.nodes| && plain.nodes[i].id != last.binding.source && plain.nodes[i].id !in sources
    ensures InTurn(plain, sources, active, last, remaining).nodes[i] == AtTheEnd(plain, sources, last, remaining).nodes[i]
  {
  }

  lemma LastNode(p: Project, records: seq<Binding>, us: seq<Update>, i: nat)
    requires us != [] && i < |p.nodes| && OpenTasks(us, records) && Independent(p.connections, us)
    ensures var rest, last := us[..|us| - 1], us[|us| - 1];
      InTurn(AllApplied(p, rest), Sources(rest), Remaining(records, rest), last, Remaining(records, us)).nodes[i]
      == AtTheEnd(AllApplied(p, rest), Sources(rest), last, Remaining(records, us)).nodes[i]
  {
    hide InTurn, AtTheEnd, AllApplied, Remaining;
    var rest, last := us[..|us| - 1], us[|us| - 1];
    FirstOnes(us, records, p.connections);
    assert last in us && (forall u :: u in rest ==> u in us);
    var plain := AllApplied(p, rest);
    LastIsOpen(us, records, plain.nodes[i].id);
    if plain.nodes[i].id == last.binding.source {
      OwnSource(plain, Sources(rest), Remaining(records, rest), last, Remaining(records, us), i);
    } else if plain.nodes[i].id in Sources(rest) {
      OtherSource(plain, Sources(rest), Remaining(records, rest), last, Remaining(records, us), i);
    } else {
      NoSource(plain, Sources(rest), Remaining(records, rest), last, Remaining(records, us), i);
    }
  }

  /** Tasks of independent sources that finish one by one settle their sources as if all were settled at the end. */
  lemma {:induction false} SettledAtTheEnd(p: Project, records: seq<Binding>, us: seq<Update>)
    requires OpenTasks(us, records) && Independent(p.connections, us)
    ensures AllFinished(p, records, us) == SettleCanvasRecoverySources(AllApplied(p, us), Sources(us), Remaining(records, us))
  {
    if us == [] {
      assert SettleCanvasRecoverySources(p, {}, records).nodes == p.nodes;
    } else {
      var rest, last := us[..|us| - 1], us[|us| - 1];
      FirstOnes(us, records, p.connections);
      SettledAtTheEnd(p, records, rest);
      var turn := InTurn(AllApplied(p, rest), Sources(rest), Remaining(records, rest), last, Remaining(records, us));
      var end := AtTheEnd(AllApplied(p, rest), Sources(rest), last, Remaining(records, us));
      forall i | 0 <= i < |p.nodes| ensures turn.nodes[i] == end.nodes[i] {
        LastNode(p, records, us, i);
      }
    }
  }

  lemma SameActive(records: seq<Binding>, us: seq<Update>, vs: seq<Update>)
    requires multiset(us) == multiset(vs)
    ensures Sources(us) == Sources(vs) && forall b :: b in Remaining(records, us) <==> b in Remaining(records, vs)
  {
    assert forall u :: u in us <==> u in multiset(us);
    assert Tasks(us) == Tasks(vs);
    forall b ensures b in Remaining(records, us) <==> b in Remaining(records, vs) {
      OpenWhileUnfinished(records, us, b);
      OpenWhileUnfinished(records, vs, b);
    }
  }

  lemma SettlesAlike(p: Project, sources: set<string>, some: seq<Binding>, others: seq<Binding>)
    requires forall b :: b in some <==> b in others
    ensures SettleCanvasRecoverySources(p, sources, some) == SettleCanvasRecoverySources(p, sources, others)
  {
    forall i | 0 <= i < |p.nodes|
      ensures SettleNode(p, p.nodes[i], sources, some) == SettleNode(p, p.nodes[i], sources, others)
    {
      assert Active(some, p.nodes[i].id) <==> Active(others, p.nodes[i].id);
    }
  }

  /**
   When tasks of independent sources finish, the order in which they do leaves no trace in images and statuses,
   those of the sources included. Tasks of one source are independent.
  */
  lemma FinishedInAnyOrder(p: Project, records: seq<Binding>, us: seq<Update>, vs: seq<Update>)
    requires OnSlots(us) && OnSlots(vs) && multiset(us) == multiset(vs)
    requires OpenTasks(us, records) && OpenTasks(vs, records) && Independent(p.connections, us)
    ensures SameView(AllFinished(p, records, us), AllFinished(p, records, vs))
  {
    SameActive(records, us, vs);
    assert forall u :: u in vs ==> u in multiset(us);
    SettledAtTheEnd(p, records, us);
    SettledAtTheEnd(p, records, vs);
    AnyOrder(p, us, vs);
    SettlesSame(AllApplied(p, us), AllApplied(p, vs), Sources(us), Remaining(records, us));
    SettlesAlike(AllApplied(p, vs), Sources(us), Remaining(records, us), Remaining(records, vs));
  }

  // ---------- Where the order shows ----------

  function Waiter(id: string, images: seq<Image>): Node {
    Node(id, "image", Loading, images, "", "", "", "", "")
  }

  function Blank(id: string): Image {
    Image(id, Loading, "", "", "", "")
  }

  function Stored(task: string, source: string, image: string): Update {
    Update(Binding(task, "image", source, "t", image), Outcome(Some(Result(image, "image/png")), ""))
  }

  function Failed(task: string, source: string, image: string): Update {
    Update(Binding(task, "image", source, "t", image), Outcome(None, "failed"))
  }

  /** Two images of one node, stored in either order: the first becomes the primary one. */
  lemma PrimaryDependsOnOrder()
    ensures var p, u, v := Project([Waiter("t", [Blank("a"), Blank("b")])], []), Stored("1", "s", "a"), Stored("2", "s", "b");
            && AllApplied(p, [u, v]).nodes[0].primary == "a" && AllApplied(p, [v, u]).nodes[0].primary == "b"
            && SameView(AllApplied(p, [u, v]), AllApplied(p, [v, u]))
  {
    hide AllApplied, Recovers, FirstRecovering;
    var p, u, v := Project([Waiter("t", [Blank("a"), Blank("b")])], []), Stored("1", "s", "a"), Stored("2", "s", "b");
    OnlyImage(p.nodes[0], u, 0);
    OnlyImage(p.nodes[0], v, 1);
    FirstOfTwo(u, v, p.nodes[0]);
    FirstOfTwo(v, u, p.nodes[0]);
    PrimaryIsFirst(p, [u, v], 0);
    PrimaryIsFirst(p, [v, u], 0);
    assert multiset([u, v]) == multiset([v, u]);
    AnyOrder(p, [u, v], [v, u]);
  }

  lemma FirstOfTwo(u: Update, v: Update, n: Node)
    requires Recovers(u, n)
    ensures FirstRecovering([u, v], n) == Some(u)
  {
    assert [u, v][..1] == [u] && [u][..0] == [];
    assert FirstRecovering([u], n) == Some(u);
  }

  lemma OnlyImage(n: Node, u: Update, i: nat)
    requires i < |n.images| && n.images[i].id == u.binding.image && u.binding.target == n.id && u.outcome.result.Some?
    ensures Recovers(u, n)
  {
  }

  lemma TwoFinished(p: Project, records: seq<Binding>, u: Update, v: Update)
    ensures var left := Without(records, u.binding.task);
      var q := SettleCanvasRecoverySources(Applied(p, u.binding, u.outcome), {u.binding.source}, left);
      AllFinished(p, records, [u, v]) ==
        SettleCanvasRecoverySources(Applied(q, v.binding, v.outcome), {v.binding.source}, Without(left, v.binding.task))
  {
    var left := Without(records, u.binding.task);
    var one := [u];
    assert one[..|one| - 1] == [] && [u, v][..|[u, v]| - 1] == one;
    assert Remaining(records, []) == records && AllFinished(p, records, []) == p;
    assert Remaining(records, one) == left;
    assert AllFinished(p, records, one) == SettleCanvasRecoverySources(Applied(p, u.binding, u.outcome), {u.binding.source}, left);
    assert Remaining(records, [u, v]) == Without(left, v.binding.task);
  }

  function TwoSources(): Project {
    Project([Node("s1", "config", Loading, [], "", "", "", "", ""), Node("s2", "config", Loading, [], "", "", "", "", ""),
             Waiter("t", [Blank("a"), Blank("b")])],
            [Connection("s1", "t"), Connection("s2", "t")])
  }

  /**
   Two sources that share a node: the one whose task failed first is shown as failed, although the node has an
   image in the end; in the other order it is shown as successful.
  */
  lemma SharedTargetsDepend()
    ensures var u, v := Failed("1", "s1", "a"), Stored("2", "s2", "b");
      var records := [u.binding, v.binding];
      && OpenTasks([u, v], records) && OnSlots([u, v]) && !Independent(TwoSources().connections, [u, v])
      && AllFinished(TwoSources(), records, [u, v]).nodes[0].status == Error
      && AllFinished(TwoSources(), records, [v, u]).nodes[0].status == Success
  {
    hide AllFinished;
    var u, v := Failed("1", "s1", "a"), Stored("2", "s2", "b");
    SharedNotIndependent(u, v);
    FailsFirst(u, v);
    FailsLast(u, v);
  }

  lemma SharedNotIndependent(u: Update, v: Update)
    requires u.binding.source == "s1" && v.binding.source == "s2" && u.binding.target == v.binding.target == "t"
    ensures !Independent(TwoSources().connections, [u, v])
  {
    assert v in [u, v] && u in [u, v] && "s1" in Sources([u, v]);
    assert TwoSources().connections[0] == Connection("s1", "t");
  }

  lemma LeftAfter(a: Binding, b: Binding)
    requires a.task != b.task
    ensures Without([a, b], a.task) == [b] && Without([a, b], b.task) == [a]
    ensures Without([a], a.task) == []
  {
    var one, two := [a], [a, b];
    assert one[..|one| - 1] == [] && two[..|two| - 1] == one;
    assert one[|one| - 1] == a && two[|two| - 1] == b && Without([], b.task) == [] == Without([], a.task);
    assert Without(one, a.task) == [];
    assert Without(one, b.task) == [] + [a];
  }

  lemma TargetsOfTwo(nodes: seq<Node>)
    requires |nodes| == 3 && nodes[0].id == "s1" && nodes[1].id == "s2" && nodes[2].id == "t"
    ensures TargetsOf(nodes, TwoSources().connections, "s1") == [nodes[2]]
  {
    var cs := TwoSources().connections;
    var fewer, one := nodes[1..], nodes[1..][1..];
    assert one[0] == nodes[2] && Find(one, "t") == Some(nodes[2]);
    assert fewer[0] == nodes[1] && Find(fewer, "t") == Some(nodes[2]);
    assert Find(nodes, "t") == Some(nodes[2]);
    assert cs[1..] == [Connection("s2", "t")];
    assert TargetsOf(nodes, cs[1..], "s1") == [];
  }

  /** The source of two nodes is settled by what its target is. */
  lemma FirstSettled(p: Project, active: seq<Binding>)
    requires |p.nodes| == 3 && p.nodes[0].id == "s1" && p.nodes[1].id == "s2" && p.nodes[2].id == "t"
    requires p.connections == TwoSources().connections && p.nodes[0].status == Loading && !Active(active, "s1")
    ensures SettleCanvasRecoverySources(p, {"s1"}, active).nodes[0].status == if Succeeded([p.nodes[2]]) then Success else Error
  {
    TargetsOfTwo(p.nodes);
  }

  lemma FailsFirst(u: Update, v: Update)
    requires u == Failed("1", "s1", "a") && v == Stored("2", "s2", "b")
    ensures AllFinished(TwoSources(), [u.binding, v.binding], [u, v]).nodes[0].status == Error
  {
    var p := TwoSources();
    TwoFinished(p, [u.binding, v.binding], u, v);
    LeftAfter(u.binding, v.binding);
    var applied := Applied(p, u.binding, u.outcome);
    StillWaiting();
    FirstSettled(applied, [v.binding]);
    StaysAsIs(SettleCanvasRecoverySources(applied, {"s1"}, [v.binding]), v, []);
  }

  lemma StillWaiting()
    ensures !Succeeded([SlotAfter(Waiter("t", [Blank("a"), Blank("b")]), "a", Outcome(None, "failed"))])
  {
    var images := ImagesAfter([Blank("a"), Blank("b")], "a", Outcome(None, "failed"));
    assert images[0].status == Error && images[1].status == Loading;
  }

  lemma StaysAsIs(p: Project, v: Update, active: seq<Binding>)
    requires p.nodes != [] && p.nodes[0].id == "s1" && v.binding.target == "t" && v.binding.source == "s2"
    ensures SettleCanvasRecoverySources(Applied(p, v.binding, v.outcome), {"s2"}, active).nodes[0] == p.nodes[0]
  {
  }

  lemma FailsLast(u: Update, v: Update)
    requires u == Failed("1", "s1", "a") && v == Stored("2", "s2", "b")
    ensures AllFinished(TwoSources(), [u.binding, v.binding], [v, u]).nodes[0].status == Success
  {
    hide AllFinished, Without, TargetsOf, Succeeded;
    var p := TwoSources();
    TwoFinished(p, [u.binding, v.binding], v, u);
    LeftAfter(u.binding, v.binding);
    StaysAsIs(p, v, [u.binding]);
    var q := SettleCanvasRecoverySources(Applied(p, v.binding, v.outcome), {"s2"}, [u.binding]);
    StoredInOne(u, v);
    assert q.nodes[2] == NodeAfter(p.nodes[2], v.binding, v.outcome);
    FirstSettled(Applied(q, u.binding, u.outcome), []);
  }

  lemma StoredInOne(u: Update, v: Update)
    requires u == Failed("1", "s1", "a") && v == Stored("2", "s2", "b")
    ensures Succeeded([NodeAfter(NodeAfter(Waiter("t", [Blank("a"), Blank("b")]), v.binding, v.outcome), u.binding, u.outcome)])
  {
    var stored := ImagesAfter([Blank("a"), Blank("b")], "b", v.outcome);
    var both := ImagesAfter(stored, "a", u.outcome);
    assert both[1].status == Success;
    SomeImage(NodeAfter(NodeAfter(Waiter("t", [Blank("a"), Blank("b")]), v.binding, v.outcome), u.binding, u.outcome), 1);
  }

  lemma SomeImage(n: Node, i: nat)
    requires i < |n.images| && n.images[i].status == Success
    ensures Succeeded([n])
  {
    assert Any([n][0].images, Success);
  }
}
