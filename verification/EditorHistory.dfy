/**
 One editor document under interleaved updates. An update is a transaction of two statements: it reads
 the asset it will write, and later compares the version, writes, and appends a revision. Nothing is
 locked between the two.
*/
module EditorHistory {
  import opened Wrappers

  type AssetId = nat

  datatype Revision = Revision(version: nat, asset: AssetId, operation: string)

  /** An update between its two statements: the version it was sent, and the asset it resolved. */
  datatype Pending = Pending(version: nat, asset: AssetId, operation: string)

  datatype Document = Document(base: AssetId, current: AssetId, version: nat, revisions: seq<Revision>)

  datatype State = State(document: Document, pending: map<nat, Pending>)

  function Init(base: AssetId): State {
    State(Document(base, base, 1, []), map[])
  }

  datatype UpdateReply = Updated(version: nat) | VersionConflict

  // ---------- The statements ----------

  /** The first SELECT: without a new asset it reads the current one. */
  function Resolve(d: Document, version: nat, asset: Option<AssetId>, operation: string): Pending {
    Pending(version, if asset.Some? then asset.value else d.current, operation)
  }

  /** The guarded UPDATE and the INSERT of the revision. */
  function Write(d: Document, p: Pending): Document {
    if d.version != p.version then d
    else d.(current := p.asset, version := d.version + 1,
            revisions := if p.operation == "" then d.revisions else d.revisions + [Revision(d.version + 1, p.asset, p.operation)])
  }

  /** The tables as the service changes them. */
  class EditorDocuments {
    var base: AssetId
    var current: AssetId
    var version: nat
    var revisions: seq<Revision>

    function Value(): Document
      reads this
    {
      Document(base, current, version, revisions)
    }

    constructor (base: AssetId)
      ensures Value() == Init(base).document
    {
      this.base, current, version, revisions := base, base, 1, [];
    }

    method Commit(expected: nat, asset: AssetId, operation: string) returns (reply: UpdateReply)
      modifies this
      ensures Value() == Write(old(Value()), Pending(expected, asset, operation))
      ensures reply == if old(version) == expected then Updated(expected + 1) else VersionConflict
    {
      if version != expected {
        return VersionConflict;
      }
      current := asset;
      version := version + 1;
      if operation != "" {
        revisions := revisions + [Revision(version, asset, operation)];
      }
      return Updated(version);
    }
  }

  // ---------- Runs ----------

  datatype Event =
    | Begin(tx: nat, version: nat, asset: Option<AssetId>, operation: string)
    | Commit(tx: nat)
    | Abort(tx: nat)

  /** A new current asset comes with an operation, and only then. */
  predicate Enabled(s: State, e: Event) {
    match e
    case Begin(tx, version, asset, operation) => tx !in s.pending && version >= 1 && (asset.Some? <==> operation != "")
    case Commit(tx) => tx in s.pending
    case Abort(tx) => tx in s.pending
  }

  function Step(s: State, e: Event): State
    requires Enabled(s, e)
  {
    match e
    case Begin(tx, version, asset, operation) =>
      s.(pending := s.pending[tx := Resolve(s.document, version, asset, operation)])
    case Commit(tx) => State(Write(s.document, s.pending[tx]), s.pending - {tx})
    case Abort(tx) => s.(pending := s.pending - {tx})
  }

  /** The client sends a version that it was given, so one the document has reached. */
  predicate Given(s: State, e: Event) {
    e.Begin? ==> e.version <= s.document.version
  }

  predicate Run(s: State, es: seq<Event>)
    decreases |es|
  {
    es == [] || (Enabled(s, es[0]) && Run(Step(s, es[0]), es[1..]))
  }

  function After(s: State, es: seq<Event>): State
    requires Run(s, es)
    decreases |es|
  {
    if es == [] then s else After(Step(s, es[0]), es[1..])
  }

  predicate GivenRun(s: State, es: seq<Event>)
    requires Run(s, es)
    decreases |es|
  {
    es == [] || (Given(s, es[0]) && GivenRun(Step(s, es[0]), es[1..]))
  }

  // ---------- The history ----------

  function Newest(d: Document): AssetId {
    if d.revisions == [] then d.base else d.revisions[|d.revisions| - 1].asset
  }

  /** The versions of the revisions increase and stay within the version of the document. */
  ghost predicate Ordered(d: Document) {
    && (forall i :: 0 <= i < |d.revisions| ==> 1 < d.revisions[i].version <= d.version)
    && (forall i, j :: 0 <= i < j < |d.revisions| ==> d.revisions[i].version < d.revisions[j].version)
  }

  /** An update without an operation that can still succeed carries the current asset. */
  ghost predicate PendingOk(s: State) {
    forall tx :: tx in s.pending && s.pending[tx].operation == "" && s.pending[tx].version >= s.document.version ==>
      s.pending[tx].version == s.document.version && s.pending[tx].asset == s.document.current
  }

  lemma {:induction false} AlwaysOrdered(s: State, es: seq<Event>)
    requires Ordered(s.document) && s.document.version >= 1 && Run(s, es)
    ensures Ordered(After(s, es).document) && After(s, es).document.version >= s.document.version
    ensures s.document.revisions <= After(s, es).document.revisions
    ensures After(s, es).document.base == s.document.base
    decreases |es|
  {
    if es != [] {
      AlwaysOrdered(Step(s, es[0]), es[1..]);
    }
  }

  lemma StepKeepsCurrent(s: State, e: Event)
    requires Enabled(s, e) && Given(s, e) && PendingOk(s) && s.document.current == Newest(s.document)
    ensures PendingOk(Step(s, e)) && Step(s, e).document.current == Newest(Step(s, e).document)
  {
  }

  /** Over every run of clients that send versions they were given, the current asset is the newest revision's. */
  lemma {:induction false} CurrentIsNewest(s: State, es: seq<Event>)
    requires Run(s, es) && GivenRun(s, es) && PendingOk(s) && s.document.current == Newest(s.document)
    ensures After(s, es).document.current == Newest(After(s, es).document)
    decreases |es|
  {
    if es != [] {
      StepKeepsCurrent(s, es[0]);
      CurrentIsNewest(Step(s, es[0]), es[1..]);
    }
  }

  lemma HistoryOfADocument(base: AssetId, es: seq<Event>)
    requires Run(Init(base), es) && GivenRun(Init(base), es)
    ensures var d := After(Init(base), es).document;
            && d.current == (if d.revisions == [] then base else d.revisions[|d.revisions| - 1].asset)
            && (forall i :: 0 <= i < |d.revisions| ==> 1 < d.revisions[i].version <= d.version)
            && (forall i, j :: 0 <= i < j < |d.revisions| ==> d.revisions[i].version < d.revisions[j].version)
  {
    AlwaysOrdered(Init(base), es);
    CurrentIsNewest(Init(base), es);
  }

  /**
   From the first statement of an update to its last, over any run between in which the update is not ended: it
   takes effect exactly when the version is still the one it was sent, and then the document has the asset that it
   brought, or the one that was current when it began, and the next version, and one revision more if it is one.
  */
  lemma {:induction false} UpdateTakesEffect(s: State, begin: Event, es: seq<Event>)
    requires begin.Begin? && Enabled(s, begin) && Run(Step(s, begin), es)
    requires forall i :: 0 <= i < |es| ==> es[i] != Commit(begin.tx) && es[i] != Abort(begin.tx)
    ensures var now := After(Step(s, begin), es);
      Enabled(now, Commit(begin.tx)) &&
      var before, after, asset := now.document, Step(now, Commit(begin.tx)).document, begin.asset.GetOr(s.document.current);
      if before.version != begin.version then after == before
      else after == Document(before.base, asset, before.version + 1,
                             before.revisions + if begin.operation == "" then [] else [Revision(before.version + 1, asset, begin.operation)])
  {
    StaysPending(Step(s, begin), es, begin.tx);
  }

  lemma {:induction false} StaysPending(s: State, es: seq<Event>, tx: nat)
    requires tx in s.pending && Run(s, es)
    requires forall i :: 0 <= i < |es| ==> es[i] != Commit(tx) && es[i] != Abort(tx)
    ensures tx in After(s, es).pending && After(s, es).pending[tx] == s.pending[tx]
    decreases |es|
  {
    if es != [] {
      assert forall i :: 0 <= i < |es[1..]| ==> es[1..][i] == es[i + 1];
      StaysPending(Step(s, es[0]), es[1..], tx);
    }
  }

  // ---------- Exactly that condition ----------

  /** A run after which the current asset is not the newest revision's. */
  ghost predicate CanGoWrong(s: State) {
    exists es :: Run(s, es) && After(s, es).document.current != Newest(After(s, es).document)
                 && GivenRun(s, es)
  }

  /**
   One request is enough to spoil the history exactly when it has no operation and names a version the
   document has not reached: after it, given versions alone no longer protect the current asset.
  */
  lemma GivenIsNeeded(s: State, e: Event)
    requires PendingOk(s) && s.document.current == Newest(s.document) && s.document.version >= 1
    requires e.Begin? && Enabled(s, e)
    ensures CanGoWrong(Step(s, e)) <==> e.operation == "" && e.version > s.document.version
  {
    var s1 := Step(s, e);
    if e.operation == "" && e.version > s.document.version {
      var es := Overtake(s1, e.tx, e.version);
      assert CanGoWrong(s1);
    } else {
      assert PendingOk(s1);
      forall es | Run(s1, es) && GivenRun(s1, es)
        ensures After(s1, es).document.current == Newest(After(s1, es).document)
      {
        CurrentIsNewest(s1, es);
      }
    }
  }

  /** Others bring the document to that version with another asset; then the early update overwrites it. */
  lemma {:induction false} Overtake(s: State, tx: nat, version: nat) returns (es: seq<Event>)
    requires tx in s.pending && s.pending[tx].operation == "" && s.pending[tx].version == version
    requires s.document.version < version || (s.document.version == version && Newest(s.document) != s.pending[tx].asset)
    requires s.document.version >= 1
    ensures Run(s, es) && GivenRun(s, es) && After(s, es).document.current != Newest(After(s, es).document)
    decreases version - s.document.version
  {
    if s.document.version == version {
      es := [Commit(tx)];
      assert es[1..] == [] && Run(Step(s, es[0]), es[1..]);
    } else {
      var other := Above(s.pending.Keys);
      assert other !in s.pending;
      var begin := Begin(other, s.document.version, Some(s.pending[tx].asset + 1), "adjust");
      var s1 := Step(s, begin);
      var s2 := Step(s1, Commit(other));
      assert s2.pending[tx] == s.pending[tx];
      var rest := Overtake(s2, tx, version);
      es := [begin, Commit(other)] + rest;
      assert es[1..] == [Commit(other)] + rest && es[1..][1..] == rest;
      assert Run(s1, es[1..]) && GivenRun(s1, es[1..]) && After(s1, es[1..]) == After(s2, rest);
    }
  }

  lemma {:induction false} Above(keys: set<nat>) returns (bound: nat)
    ensures forall k :: k in keys ==> k < bound
    decreases |keys|
  {
    if keys == {} {
      bound := 0;
    } else {
      var k :| k in keys;
      var others := keys - {k};
      bound := Above(others);
      assert forall j :: j in keys ==> j == k || j in others;
      if bound <= k {
        bound := k + 1;
      }
    }
  }
}
