/** Two pieces of the export: the parents of assets, and the statuses of jobs that were still open. */
module SourceExport {
  import opened Wrappers
  import opened Dataset
  import V = Validator

  // ---------- Sorted and unique ----------

  /** The order of sort.Strings. */
  predicate Le(a: string, b: string) {
    a == "" || (b != "" && (a[0] < b[0] || (a[0] == b[0] && Le(a[1..], b[1..]))))
  }

  lemma {:induction false} LeTotal(a: string, b: string)
    ensures Le(a, b) || Le(b, a)
    ensures Le(a, b) && Le(b, a) ==> a == b
  {
    if a != "" && b != "" && a[0] == b[0] {
      LeTotal(a[1..], b[1..]);
      assert a == [a[0]] + a[1..] && b == [b[0]] + b[1..];
    }
  }

  lemma {:induction false} LeTransitive(a: string, b: string, c: string)
    requires Le(a, b) && Le(b, c)
    ensures Le(a, c)
  {
    if a != "" && a[0] == b[0] && b[0] == c[0] {
      LeTransitive(a[1..], b[1..], c[1..]);
    }
  }

  ghost predicate Sorted(xs: seq<string>) {
    forall i, j :: 0 <= i < j < |xs| ==> Le(xs[i], xs[j])
  }

  function InsertSorted(x: string, xs: seq<string>): seq<string> {
    if xs == [] || Le(x, xs[0]) then [x] + xs else [xs[0]] + InsertSorted(x, xs[1..])
  }

  function SortStrings(xs: seq<string>): seq<string> {
    if xs == [] then [] else InsertSorted(xs[0], SortStrings(xs[1..]))
  }

  lemma {:induction false} InsertedOnce(x: string, xs: seq<string>)
    ensures multiset(InsertSorted(x, xs)) == multiset(xs) + multiset{x}
  {
    if xs != [] && !Le(x, xs[0]) {
      InsertedOnce(x, xs[1..]);
      assert xs == [xs[0]] + xs[1..];
    }
  }

  lemma {:induction false} InsertKeepsSorted(x: string, xs: seq<string>)
    requires Sorted(xs)
    ensures Sorted(InsertSorted(x, xs))
  {
    if xs == [] || Le(x, xs[0]) {
      forall i | 0 <= i < |xs| ensures Le(x, xs[i]) {
        if i > 0 {
          LeTransitive(x, xs[0], xs[i]);
        }
      }
    } else {
      LeTotal(x, xs[0]);
      var rest := InsertSorted(x, xs[1..]);
      InsertKeepsSorted(x, xs[1..]);
      InsertedOnce(x, xs[1..]);
      forall i | 0 <= i < |rest| ensures Le(xs[0], rest[i]) {
        assert rest[i] in multiset(rest);
        assert rest[i] == x || rest[i] in xs[1..];
      }
    }
  }

  lemma {:induction false} Sorts(xs: seq<string>)
    ensures Sorted(SortStrings(xs)) && multiset(SortStrings(xs)) == multiset(xs)
  {
    if xs != [] {
      Sorts(xs[1..]);
      InsertKeepsSorted(xs[0], SortStrings(xs[1..]));
      InsertedOnce(xs[0], SortStrings(xs[1..]));
      assert xs == [xs[0]] + xs[1..];
    }
  }

  lemma {:induction false} DuplicatesCount(xs: seq<string>)
    ensures NoDuplicates(xs) <==> forall x :: multiset(xs)[x] <= 1
  {
    if xs == [] {
    } else {
      var rest := xs[1..];
      DuplicatesCount(rest);
      assert xs == [xs[0]] + rest;
      assert multiset(xs) == multiset{xs[0]} + multiset(rest);
      if NoDuplicates(xs) {
        assert forall i, j :: 0 <= i < j < |rest| ==> rest[i] == xs[i + 1] && rest[j] == xs[j + 1];
        assert xs[0] !in rest;
      } else if NoDuplicates(rest) {
        assert xs[0] in rest;
        assert multiset(xs)[xs[0]] >= 2;
      } else {
        var x :| multiset(rest)[x] > 1;
        assert multiset(xs)[x] > 1;
      }
    }
  }

  /** Only neighbours are compared, which in sorted order is enough. */
  method SortedUnique(values: seq<string>) returns (ok: bool, result: seq<string>)
    ensures ok <==> NoDuplicates(values)
    ensures ok ==> Sorted(result) && NoDuplicates(result) && multiset(result) == multiset(values)
  {
    result := SortStrings(values);
    Sorts(values);
    DuplicatesCount(values);
    DuplicatesCount(result);
    for index := 0 to |result|
      invariant NoDuplicates(result[..index])
    {
      if index > 0 && result[index] == result[index - 1] {
        assert !NoDuplicates(result);
        return false, result;
      }
      if index > 0 {
        NewInOrder(result, index);
      }
    }
    assert result[..|result|] == result;
    return true, result;
  }

  lemma NewInOrder(xs: seq<string>, n: nat)
    requires Sorted(xs) && 0 < n < |xs| && NoDuplicates(xs[..n]) && xs[n] != xs[n - 1]
    ensures NoDuplicates(xs[..n + 1])
  {
    forall i | 0 <= i < n ensures xs[i] != xs[n] {
      if xs[i] == xs[n] {
        assert i < n - 1;
        assert Le(xs[i], xs[n - 1]) && Le(xs[n - 1], xs[n]);
        LeTotal(xs[n - 1], xs[n]);
      }
    }
    assert xs[..n + 1] == xs[..n] + [xs[n]];
  }

  // ---------- Parents ----------

  /** An element of parent_asset_ids: a numeric id, a public id, or neither. */
  datatype ParentValue = Numeric(id: int) | Named(publicId: string) | Neither

  /** values is None when the column is not a JSON array. */
  datatype LegacyAsset = LegacyAsset(id: int, publicId: string, values: Option<seq<ParentValue>>)

  function ByNumericId(legacy: seq<LegacyAsset>): map<int, string> {
    if legacy == [] then map[]
    else ByNumericId(legacy[..|legacy| - 1])[legacy[|legacy| - 1].id := legacy[|legacy| - 1].publicId]
  }

  function PublicIds(legacy: seq<LegacyAsset>): set<string> {
    set a | a in legacy :: a.publicId
  }

  /** The public id of a parent, "" when it is unknown. */
  function ParentOf(legacy: seq<LegacyAsset>, v: ParentValue): string {
    match v
    case Numeric(id) => if id in ByNumericId(legacy) then ByNumericId(legacy)[id] else ""
    case Named(publicId) => if publicId in PublicIds(legacy) then publicId else ""
    case Neither => ""
  }

  lemma {:induction false} NumericIds(legacy: seq<LegacyAsset>, k: nat)
    requires k < |legacy| && forall j :: k < j < |legacy| ==> legacy[j].id != legacy[k].id
    ensures legacy[k].id in ByNumericId(legacy) && ByNumericId(legacy)[legacy[k].id] == legacy[k].publicId
  {
    if k < |legacy| - 1 {
      NumericIds(legacy[..|legacy| - 1], k);
    }
  }

  lemma {:induction false} NoNumericId(legacy: seq<LegacyAsset>, id: int)
    requires forall a :: a in legacy ==> a.id != id
    ensures id !in ByNumericId(legacy)
  {
    if legacy != [] {
      NoNumericId(legacy[..|legacy| - 1], id);
    }
  }

  /** A parent is found by the number of an asset, which the table has once, or by its public id; anything else is unknown. */
  lemma ParentMeans(legacy: seq<LegacyAsset>, v: ParentValue)
    requires forall i, j :: 0 <= i < j < |legacy| ==> legacy[i].id != legacy[j].id
    ensures forall a :: a in legacy && (v == Numeric(a.id) || v == Named(a.publicId)) ==> ParentOf(legacy, v) == a.publicId
    ensures (forall a :: a in legacy ==> v != Numeric(a.id) && v != Named(a.publicId)) ==> ParentOf(legacy, v) == ""
  {
    forall a | a in legacy && v == Numeric(a.id) ensures ParentOf(legacy, v) == a.publicId {
      var k :| 0 <= k < |legacy| && legacy[k] == a;
      NumericIds(legacy, k);
    }
    if v.Numeric? && forall a :: a in legacy ==> a.id != v.id {
      NoNumericId(legacy, v.id);
    }
  }

  function ParentsOf(legacy: seq<LegacyAsset>, values: seq<ParentValue>): seq<string> {
    seq(|values|, i requires 0 <= i < |values| => ParentOf(legacy, values[i]))
  }

  /** The parents of an asset can be exported: all are known, and none is named twice, not even in two ways. */
  predicate Resolves(legacy: seq<LegacyAsset>, a: LegacyAsset) {
    a.values.Some? && "" !in ParentsOf(legacy, a.values.value) && NoDuplicates(ParentsOf(legacy, a.values.value))
  }

  method ResolveOne(legacy: seq<LegacyAsset>, values: seq<ParentValue>) returns (ok: bool, parents: seq<string>)
    ensures ok <==> "" !in ParentsOf(legacy, values)
    ensures ok ==> parents == ParentsOf(legacy, values)
  {
    parents := [];
    for i := 0 to |values|
      invariant parents == ParentsOf(legacy, values[..i]) && "" !in parents
    {
      var publicId := ParentOf(legacy, values[i]);
      assert ParentsOf(legacy, values)[i] == publicId;
      if publicId == "" {
        return false, parents;
      }
      assert values[..i + 1] == values[..i] + [values[i]];
      parents := parents + [publicId];
    }
    assert values[..|values|] == values;
    return true, parents;
  }

  /** The asset has its resolved parents, sorted, and is otherwise the same. */
  ghost predicate Parented(legacy: seq<LegacyAsset>, a: LegacyAsset, before: Asset, after: Asset) {
    && Resolves(legacy, a) && after == before.(parents := after.parents)
    && multiset(after.parents) == multiset(ParentsOf(legacy, a.values.value))
    && Sorted(after.parents) && NoDuplicates(after.parents)
  }

  /** One round of the loop over the assets. */
  method ResolveNext(legacy: seq<LegacyAsset>, a: LegacyAsset, before: Asset) returns (ok: bool, after: Asset)
    ensures ok <==> Resolves(legacy, a)
    ensures ok ==> Parented(legacy, a, before, after)
  {
    after := before;
    if a.values.None? {
      return false, after;
    }
    var parents;
    ok, parents := ResolveOne(legacy, a.values.value);
    if !ok { return; }
    ok, parents := SortedUnique(parents);
    after := before.(parents := parents);
  }

  /** It succeeds exactly when every list resolves, and then no asset lists a parent twice. */
  method ResolveAssetParents(assets: array<Asset>, legacy: seq<LegacyAsset>) returns (ok: bool)
    requires assets.Length == |legacy|
    modifies assets
    ensures ok <==> forall i :: 0 <= i < |legacy| ==> Resolves(legacy, legacy[i])
    ensures ok ==> forall i :: 0 <= i < |legacy| ==> Parented(legacy, legacy[i], old(assets[i]), assets[i])
    ensures ok ==> forall i :: 0 <= i < |legacy| ==> NoDuplicates(assets[i].parents)
  {
    for index := 0 to |legacy|
      invariant forall i :: 0 <= i < index ==> Parented(legacy, legacy[i], old(assets[i]), assets[i])
      invariant forall i :: index <= i < |legacy| ==> assets[i] == old(assets[i])
    {
      var after;
      ok, after := ResolveNext(legacy, legacy[index], assets[index]);
      if !ok { return; }
      assets[index] := after;
    }
    return true;
  }

  // ---------- Open jobs ----------

  predicate IsUnresolved(status: string) {
    status in ["queued", "running", "indeterminate"]
  }

  function MapPhase(phase: string): (r: string)
    ensures r in ["preflight", "upstream", "saving"]
  {
    if phase == "upstream" || phase == "falling_back" then "upstream"
    else if phase == "saving" then "saving"
    else "preflight"
  }

  /** An open job becomes history with an unknown outcome. */
  function Closed(j: Job, snapshotTime: Time): Job {
    j.(phase := MapPhase(j.phase),
       status := if IsUnresolved(j.status) then "indeterminate" else j.status,
       finishedAt := if IsUnresolved(j.status) && j.finishedAt.None? then Some(snapshotTime) else j.finishedAt)
  }

  function OpenItem(j: Job): V.Unresolved {
    V.Unresolved("image_job", j.publicId, j.status, j.phase)
  }

  /** The items say which jobs were open, one for each of them. */
  ghost predicate Listed(rows: seq<Job>, unresolved: seq<V.Unresolved>) {
    && (forall u :: u in unresolved <==> exists j :: j in rows && IsUnresolved(j.status) && u == OpenItem(j))
    && (DistinctIds(rows) ==> V.DistinctKeys(unresolved))
  }

  ghost predicate DistinctIds(rows: seq<Job>) {
    forall i, j :: 0 <= i < j < |rows| ==> rows[i].publicId != rows[j].publicId
  }

  lemma FewerIds(rows: seq<Job>, j: Job)
    requires DistinctIds(rows + [j])
    ensures DistinctIds(rows) && forall r :: r in rows ==> r.publicId != j.publicId
  {
    forall i, k | 0 <= i < k < |rows| ensures rows[i].publicId != rows[k].publicId {
      assert (rows + [j])[i].publicId != (rows + [j])[k].publicId;
    }
    forall i | 0 <= i < |rows| ensures rows[i].publicId != j.publicId {
      assert (rows + [j])[i].publicId != (rows + [j])[|rows|].publicId;
    }
  }

  lemma ListsOneMore(rows: seq<Job>, unresolved: seq<V.Unresolved>, j: Job)
    requires Listed(rows, unresolved)
    ensures Listed(rows + [j], if IsUnresolved(j.status) then unresolved + [OpenItem(j)] else unresolved)
  {
    assert forall r :: r in rows + [j] <==> r in rows || r == j;
    if DistinctIds(rows + [j]) {
      FewerIds(rows, j);
      forall k | 0 <= k < |unresolved| ensures V.KeyOf(unresolved[k]) != V.KeyOf(OpenItem(j)) {
        assert unresolved[k] in unresolved;
      }
    }
  }

  method ReadSourceJobs(rows: seq<Job>, snapshotTime: Time) returns (jobs: seq<Job>, unresolved: seq<V.Unresolved>)
    ensures |jobs| == |rows| && forall i :: 0 <= i < |rows| ==> jobs[i] == Closed(rows[i], snapshotTime)
    ensures forall u :: u in unresolved <==>
      exists j :: j in rows && j.status in ["queued", "running", "indeterminate"] && u == V.Unresolved("image_job", j.publicId, j.status, j.phase)
    ensures DistinctIds(rows) ==> V.DistinctKeys(unresolved)
  {
    jobs, unresolved := [], [];
    for next := 0 to |rows|
      invariant |jobs| == next && forall i :: 0 <= i < next ==> jobs[i] == Closed(rows[i], snapshotTime)
      invariant Listed(rows[..next], unresolved)
    {
      var item := rows[next];
      ListsOneMore(rows[..next], unresolved, item);
      assert rows[..next + 1] == rows[..next] + [item];
      if IsUnresolved(item.status) {
        unresolved := unresolved + [OpenItem(item)];
      }
      jobs := jobs + [Closed(item, snapshotTime)];
    }
    assert rows[..|rows|] == rows;
  }

  /**
   What closing means: a job that was queued, running or indeterminate ends as indeterminate, finished at the
   snapshot if it was not before; every other one keeps its status. Phases are those of the target, and nothing
   else of the job changes. So whatever status a job has, of those there are, it is exported with a terminal one.
  */
  lemma ClosedExactly(j: Job, snapshotTime: Time)
    ensures var after, open := Closed(j, snapshotTime), j.status in ["queued", "running", "indeterminate"];
      && after == j.(status := after.status, phase := after.phase, finishedAt := after.finishedAt)
      && after.status == (if open then "indeterminate" else j.status)
      && after.finishedAt == (if open && j.finishedAt.None? then Some(snapshotTime) else j.finishedAt)
      && after.phase == (if j.phase == "falling_back" then "upstream" else if j.phase in ["upstream", "saving"] then j.phase else "preflight")
      && (j.status in ["queued", "running", "partial", "completed", "failed", "canceled", "indeterminate", "expired"] ==>
            after.status in ["completed", "partial", "failed", "canceled", "indeterminate", "expired"] && TerminalStatus(after.status))
  {
  }
}
