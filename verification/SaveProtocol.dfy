/**
 Saving a project from the editor: the debounce timer, the single save in flight, the sequence of
 edits, the retry flag and the conflict block of the client, against a server that compares versions.

 Each function of the client is cut at its awaits. Between any two pieces the user may edit, flush or
 retry, other clients may write, and requests or answers may be late or lost. The project exists on
 the server, and the draft store may fail.
*/
module SaveProtocol {
  import opened Wrappers
  import PR = ProjectRepository

  type Doc = PR.Doc

  datatype Status = Dirty | Saving | Saved | Failed | Conflict

  /** Where one save operation waits. */
  datatype Stage =
    | Starting                               // for the creation of the project
    | Sent(sequence: nat, request: nat)      // for the answer to its request
    | Removing(sequence: nat)                // for the draft to be removed

  datatype Client = Client(
    doc: Doc, version: nat, sequence: nat, saving: bool, retry: bool, blocked: bool, timer: bool,
    status: Status, ops: seq<Stage>)

  // ---------- The pieces of the client ----------

  function Schedule(c: Client): Client {
    if c.blocked then c.(timer := false) else c.(timer := true, status := Dirty)
  }

  function Persist(c: Client): Client {
    if c.blocked then c
    else if c.saving then c.(retry := true)
    else c.(saving := true, status := Saving, ops := c.ops + [Starting])
  }

  function Edited(c: Client, doc: Doc): Client {
    Schedule(c.(doc := doc, sequence := c.sequence + 1))
  }

  function TimerFired(c: Client): Client {
    Persist(c.(timer := false))
  }

  function Flushed(c: Client): Client {
    if c.blocked then c
    else if c.saving || c.status == Saved then c.(timer := false)
    else Persist(c.(timer := false))
  }

  function Retried(c: Client): Client {
    if c.status == Conflict then c else Persist(c.(blocked := false, timer := false))
  }

  function Without<T>(s: seq<T>, i: nat): seq<T>
    requires i < |s|
  {
    s[..i] + s[i + 1..]
  }

  /** The finally block: the operation ends, and a retry asked for meanwhile starts at once. */
  function Finish(c: Client, i: nat): Client
    requires i < |c.ops|
  {
    var ended := c.(saving := false, ops := Without(c.ops, i));
    if ended.retry && !ended.blocked then Persist(ended.(retry := false)) else ended
  }

  function Submitted(c: Client, i: nat, request: nat): Client
    requires i < |c.ops|
  {
    c.(ops := c.ops[i := Sent(c.sequence, request)])
  }

  function Acknowledged(c: Client, i: nat, version: nat): Client
    requires i < |c.ops| && c.ops[i].Sent?
  {
    if c.sequence == c.ops[i].sequence then c.(version := version, ops := c.ops[i := Removing(c.ops[i].sequence)])
    else Finish(c.(version := version, retry := true, status := Dirty), i)
  }

  function Refused(c: Client, i: nat): Client
    requires i < |c.ops|
  {
    Finish(c.(blocked := true, status := Conflict), i)
  }

  function Broken(c: Client, i: nat): Client
    requires i < |c.ops|
  {
    Finish(c.(status := Failed), i)
  }

  function Completed(c: Client, i: nat): Client
    requires i < |c.ops|
  {
    Finish(c.(status := Saved), i)
  }

  // ---------- The client as it is written ----------

  class ProjectSync {
    var doc: Doc
    var version: nat
    var sequence: nat
    var saving: bool
    var retryAfterSave: bool
    var blocked: bool
    var timer: bool
    var status: Status
    var operations: seq<Stage>

    function Value(): Client
      reads this
    {
      Client(doc, version, sequence, saving, retryAfterSave, blocked, timer, status, operations)
    }

    constructor (doc: Doc, version: nat)
      ensures Value() == Client(doc, version, 0, false, false, false, false, Saved, [])
    {
      this.doc, this.version, this.sequence := doc, version, 0;
      saving, retryAfterSave, blocked, timer := false, false, false, false;
      status, operations := Saved, [];
    }

    method ScheduleSave()
      modifies this
      ensures Value() == Schedule(old(Value()))
    {
      timer := false;
      if blocked {
        return;
      }
      status := Dirty;
      timer := true;
    }

    method PersistProject()
      modifies this
      ensures Value() == Persist(old(Value()))
    {
      if blocked {
        return;
      }
      if saving {
        retryAfterSave := true;
        return;
      }
      saving := true;
      status := Saving;
      operations := operations + [Starting];
    }

    method UpdateProject(edited: Doc)
      modifies this
      ensures Value() == Edited(old(Value()), edited)
    {
      doc := edited;
      sequence := sequence + 1;
      ScheduleSave();
    }

    method OnTimer()
      modifies this
      ensures Value() == TimerFired(old(Value()))
    {
      timer := false;
      PersistProject();
    }

    method FlushProject()
      modifies this
      ensures Value() == Flushed(old(Value()))
    {
      if blocked {
        return;
      }
      timer := false;
      if saving {
        return;
      }
      if status != Saved {
        PersistProject();
      }
    }

    method RetryProject()
      modifies this
      ensures Value() == Retried(old(Value()))
    {
      if status == Conflict {
        return;
      }
      blocked := false;
      timer := false;
      PersistProject();
    }

    method Finally(i: nat)
      requires i < |operations|
      modifies this
      ensures Value() == Finish(old(Value()), i)
    {
      saving := false;
      operations := operations[..i] + operations[i + 1..];
      if retryAfterSave && !blocked {
        retryAfterSave := false;
        PersistProject();
      }
    }

    /** After the creation: what is sent, with the sequence it has. */
    method OnCreated(i: nat, request: nat) returns (sentVersion: nat, sentDoc: Doc)
      requires i < |operations|
      modifies this
      ensures Value() == Submitted(old(Value()), i, request)
      ensures sentVersion == version && sentDoc == doc
    {
      operations := operations[i := Sent(sequence, request)];
      return version, doc;
    }

    method OnDraftRemoved(i: nat)
      requires i < |operations|
      modifies this
      ensures Value() == Completed(old(Value()), i)
    {
      status := Saved;
      Finally(i);
    }

    method OnAnswer(i: nat, updated: nat)
      requires i < |operations| && operations[i].Sent?
      modifies this
      ensures Value() == Acknowledged(old(Value()), i, updated)
    {
      version := updated;
      if sequence == operations[i].sequence {
        operations := operations[i := Removing(operations[i].sequence)];
        return;
      }
      retryAfterSave := true;
      status := Dirty;
      Finally(i);
    }

    method OnError(i: nat, conflict: bool)
      requires i < |operations|
      modifies this
      ensures Value() == if conflict then Refused(old(Value()), i) else Broken(old(Value()), i)
    {
      if conflict {
        blocked := true;
        status := Conflict;
      } else {
        status := Failed;
      }
      Finally(i);
    }
  }

  // ---------- The world ----------

  datatype Fate = Waiting | Applied(version: nat) | Rejected | Broke

  /** A request on its way: what it asks, and what the server made of it. */
  datatype Request = Request(version: nat, doc: Doc, fate: Fate)

  /** history[v - 1] is the document of version v; savedSequence numbers the edit that sync.version holds. */
  datatype World = World(c: Client, history: seq<Doc>, requests: seq<Request>, savedSequence: nat)

  datatype Event =
    | Edit(doc: Doc)          // an edit, a new recovery or a finished one
    | Timer
    | Flush
    | Retry
    | Submit(i: nat)          // the creation is over: read the project and send
    | Serve(r: nat)           // the server handles a request, at once or long after
    | Break(r: nat)           // the server fails it without effect
    | Answer(i: nat)
    | Lose(i: nat)            // the answer is lost, whatever became of the request
    | Removed(i: nat)
    | RemoveFails(i: nat)
    | OtherClient(doc: Doc)

  predicate Enabled(w: World, e: Event) {
    match e
    case Timer => w.c.timer
    case Submit(i) => i < |w.c.ops| && w.c.ops[i].Starting?
    case Serve(r) => r < |w.requests| && w.requests[r].fate.Waiting?
    case Break(r) => r < |w.requests| && w.requests[r].fate.Waiting?
    case Answer(i) =>
      && i < |w.c.ops| && w.c.ops[i].Sent? && w.c.ops[i].request < |w.requests|
      && !w.requests[w.c.ops[i].request].fate.Waiting?
    case Lose(i) => i < |w.c.ops| && w.c.ops[i].Sent?
    case Removed(i) => i < |w.c.ops| && w.c.ops[i].Removing?
    case RemoveFails(i) => i < |w.c.ops| && w.c.ops[i].Removing?
    case _ => true
  }

  /** The repository's compare-and-swap, on the history of one project. */
  function ServeStep(w: World, r: nat): World
    requires r < |w.requests|
  {
    var q := w.requests[r];
    if q.version == |w.history| then
      w.(history := w.history + [q.doc], requests := w.requests[r := q.(fate := Applied(|w.history| + 1))])
    else w.(requests := w.requests[r := q.(fate := Rejected)])
  }

  function AnswerStep(w: World, i: nat): World
    requires Enabled(w, Answer(i))
  {
    match w.requests[w.c.ops[i].request].fate
    case Applied(version) => w.(c := Acknowledged(w.c, i, version), savedSequence := w.c.ops[i].sequence)
    case Rejected => w.(c := Refused(w.c, i))
    case Broke => w.(c := Broken(w.c, i))
    case Waiting => w
  }

  function Step(w: World, e: Event): World
    requires Enabled(w, e)
  {
    match e
    case Edit(doc) => w.(c := Edited(w.c, doc))
    case Timer => w.(c := TimerFired(w.c))
    case Flush => w.(c := Flushed(w.c))
    case Retry => w.(c := Retried(w.c))
    case Submit(i) => w.(c := Submitted(w.c, i, |w.requests|), requests := w.requests + [Request(w.c.version, w.c.doc, Waiting)])
    case Serve(r) => ServeStep(w, r)
    case Break(r) => w.(requests := w.requests[r := w.requests[r].(fate := Broke)])
    case Answer(i) => AnswerStep(w, i)
    case Lose(i) => w.(c := Broken(w.c, i))
    case Removed(i) => w.(c := Completed(w.c, i))
    case RemoveFails(i) => w.(c := Broken(w.c, i))
    case OtherClient(doc) => w.(history := w.history + [doc])
  }

  predicate Run(w: World, es: seq<Event>)
    decreases |es|
  {
    es == [] || (Enabled(w, es[0]) && Run(Step(w, es[0]), es[1..]))
  }

  function After(w: World, es: seq<Event>): World
    requires Run(w, es)
    decreases |es|
  {
    if es == [] then w else After(Step(w, es[0]), es[1..])
  }

  function Init(history: seq<Doc>): World
    requires history != []
  {
    World(Client(history[|history| - 1], |history|, 0, false, false, false, false, Saved, []), history, [], 0)
  }

  // ---------- What always holds ----------

  /** The document of version v is the one the edit of that number made, if it is still the last edit. */
  predicate IsDoc(w: World, sequence: nat, doc: Doc) {
    sequence <= w.c.sequence && (sequence == w.c.sequence ==> doc == w.c.doc)
  }

  predicate RequestOk(w: World, q: Request) {
    1 <= q.version <= |w.history| &&
    (q.fate.Applied? ==> q.fate.version == q.version + 1 <= |w.history| && w.history[q.fate.version - 1] == q.doc)
  }

  predicate StageOk(w: World, op: Stage) {
    match op
    case Starting => true
    case Sent(sequence, r) =>
      r < |w.requests| && w.requests[r].version == w.c.version && IsDoc(w, sequence, w.requests[r].doc)
    case Removing(sequence) => sequence == w.savedSequence
  }

  ghost predicate Inv(w: World) {
    && |w.c.ops| <= 1 && (w.c.saving <==> |w.c.ops| == 1)
    && 1 <= w.c.version <= |w.history|
    && IsDoc(w, w.savedSequence, w.history[w.c.version - 1])
    && (forall i :: 0 <= i < |w.c.ops| ==> StageOk(w, w.c.ops[i]))
    && (forall r :: 0 <= r < |w.requests| ==> RequestOk(w, w.requests[r]))
    && (w.c.blocked <==> w.c.status == Conflict)
    && (w.c.blocked ==> !w.c.saving)
    && (w.c.status == Saving ==> w.c.saving)
    && (w.c.retry ==> w.c.saving || w.c.blocked)
  }

  lemma ClientStepKeeps(w: World, e: Event)
    requires Inv(w) && Enabled(w, e) && (e.Edit? || e.Timer? || e.Flush? || e.Retry?)
    ensures Inv(Step(w, e))
  {
  }

  lemma NetworkStepKeeps(w: World, e: Event)
    requires Inv(w) && Enabled(w, e) && (e.Submit? || e.Serve? || e.Break? || e.OtherClient?)
    ensures Inv(Step(w, e))
  {
  }

  lemma AnswerKeeps(w: World, i: nat)
    requires Inv(w) && Enabled(w, Answer(i))
    ensures Inv(Step(w, Answer(i)))
  {
    assert StageOk(w, w.c.ops[i]);
  }

  lemma EndStepKeeps(w: World, e: Event)
    requires Inv(w) && Enabled(w, e) && (e.Lose? || e.Removed? || e.RemoveFails?)
    ensures Inv(Step(w, e))
  {
    assert StageOk(w, w.c.ops[e.i]);
  }

  lemma StepKeeps(w: World, e: Event)
    requires Inv(w) && Enabled(w, e)
    ensures Inv(Step(w, e))
  {
    match e
    case Edit(_) => ClientStepKeeps(w, e);
    case Timer => ClientStepKeeps(w, e);
    case Flush => ClientStepKeeps(w, e);
    case Retry => ClientStepKeeps(w, e);
    case Submit(_) => NetworkStepKeeps(w, e);
    case Serve(_) => NetworkStepKeeps(w, e);
    case Break(_) => NetworkStepKeeps(w, e);
    case OtherClient(_) => NetworkStepKeeps(w, e);
    case Answer(i) => AnswerKeeps(w, i);
    case _ => EndStepKeeps(w, e);
  }

  lemma {:induction false} RunKeeps(w: World, es: seq<Event>)
    requires Inv(w) && Run(w, es)
    ensures Inv(After(w, es))
    decreases |es|
  {
    if es != [] {
      StepKeeps(w, es[0]);
      RunKeeps(Step(w, es[0]), es[1..]);
    }
  }

  /**
   In every run at most one save is in flight; the version the client believes in exists, and its document
   is the one of the edit last acknowledged; a conflict is always shown, and blocks.
  */
  lemma OneSaveInFlight(history: seq<Doc>, es: seq<Event>)
    requires history != [] && Run(Init(history), es)
    ensures var w := After(Init(history), es);
            && |w.c.ops| <= 1 && (w.c.saving <==> |w.c.ops| == 1)
            && 1 <= w.c.version <= |w.history|
            && w.savedSequence <= w.c.sequence
            && (w.savedSequence == w.c.sequence ==> w.history[w.c.version - 1] == w.c.doc)
            && (w.c.blocked <==> w.c.status == Conflict)
  {
    RunKeeps(Init(history), es);
  }

  // ---------- No edit is lost ----------

  /** The last edit is not the one the server's document at our version holds. */
  predicate Unsaved(w: World) {
    w.c.sequence != w.savedSequence
  }

  /** Somebody will save the last edit, or the user sees that nobody does; and "saved" is true. */
  predicate Safe(w: World) {
    && (Unsaved(w) ==> w.c.timer || w.c.saving || w.c.status == Failed || w.c.status == Conflict)
    && (w.c.status == Saved ==> !Unsaved(w))
  }

  /** The draft was removed while nothing was edited, or a retry is already noted: what line 262 does not test again. */
  predicate Undisturbed(w: World, e: Event) {
    e.Removed? && Enabled(w, e) ==> w.c.sequence == w.c.ops[e.i].sequence || w.c.retry
  }

  predicate UndisturbedRun(w: World, es: seq<Event>)
    requires Run(w, es)
    decreases |es|
  {
    es == [] || (Undisturbed(w, es[0]) && UndisturbedRun(Step(w, es[0]), es[1..]))
  }

  lemma ClientStepSafe(w: World, e: Event)
    requires Inv(w) && Safe(w) && Enabled(w, e) && !(e.Answer? || e.Lose? || e.Removed? || e.RemoveFails?)
    ensures Safe(Step(w, e))
  {
  }

  lemma EndStepSafe(w: World, e: Event)
    requires Inv(w) && Safe(w) && Enabled(w, e) && (e.Answer? || e.Lose? || e.RemoveFails?)
    ensures Safe(Step(w, e))
  {
    assert StageOk(w, w.c.ops[e.i]);
  }

  /**
   When the draft has been removed the client says "saved" without looking again. That is right exactly
   when no edit came in between, or when one whose timer has fired noted a retry.
  */
  lemma RemovedIsSafe(w: World, i: nat)
    requires Inv(w) && Enabled(w, Removed(i))
    ensures Safe(Step(w, Removed(i))) <==> Undisturbed(w, Removed(i))
  {
    assert StageOk(w, w.c.ops[i]);
  }

  /** Over every run in which that holds, no edit is lost and "saved" is true: the server has the document. */
  lemma {:induction false} UndisturbedRunIsSafe(w: World, es: seq<Event>)
    requires Inv(w) && Safe(w) && Run(w, es) && UndisturbedRun(w, es)
    ensures Safe(After(w, es))
    ensures var v := After(w, es);
            1 <= v.c.version <= |v.history| && (v.c.status == Saved ==> v.history[v.c.version - 1] == v.c.doc)
    decreases |es|
  {
    if es != [] {
      var e := es[0];
      StepKeeps(w, e);
      if e.Removed? {
        RemovedIsSafe(w, e.i);
      } else if e.Answer? || e.Lose? || e.RemoveFails? {
        EndStepSafe(w, e);
      } else {
        ClientStepSafe(w, e);
      }
      UndisturbedRunIsSafe(Step(w, e), es[1..]);
    }
  }

  // ---------- A lost edit ----------

  /** Somebody will save the last edit, or the user sees that nobody does. */
  predicate Kept(w: World) {
    Unsaved(w) ==> w.c.timer || w.c.saving || w.c.status == Failed || w.c.status == Conflict
  }

  /** The edit has no timer left: it was flushed before the draft was removed, or it is flushed after a wrong "saved". */
  predicate Strands(w: World, e: Event)
    requires Enabled(w, e)
  {
    match e
    case Removed(i) => w.c.sequence != w.c.ops[i].sequence && !w.c.retry && !w.c.timer
    case Flush => !w.c.saving && w.c.status == Saved && Unsaved(w)
    case _ => false
  }

  lemma EndStepLoses(w: World, e: Event)
    requires Inv(w) && Enabled(w, e) && Kept(w) && (e.Answer? || e.Lose? || e.Removed? || e.RemoveFails?)
    ensures Kept(Step(w, e)) <==> !Strands(w, e)
  {
    assert StageOk(w, w.c.ops[e.i]);
  }

  /** A step loses an edit that was not lost before exactly when it is one of these two. */
  lemma LosesAnEdit(w: World, e: Event)
    requires Inv(w) && Enabled(w, e) && Kept(w)
    ensures Kept(Step(w, e)) <==> !Strands(w, e)
  {
    if e.Answer? || e.Lose? || e.Removed? || e.RemoveFails? {
      EndStepLoses(w, e);
    }
  }

  predicate StrandlessRun(w: World, es: seq<Event>)
    requires Run(w, es)
    decreases |es|
  {
    es == [] || (!Strands(w, es[0]) && StrandlessRun(Step(w, es[0]), es[1..]))
  }

  /** Over every run without them no edit is lost, though "saved" may be said too early. */
  lemma {:induction false} NoEditIsLost(w: World, es: seq<Event>)
    requires Inv(w) && Kept(w) && Run(w, es) && StrandlessRun(w, es)
    ensures Kept(After(w, es))
    decreases |es|
  {
    if es != [] {
      StepKeeps(w, es[0]);
      LosesAnEdit(w, es[0]);
      NoEditIsLost(Step(w, es[0]), es[1..]);
    }
  }

  // ---------- The server is the repository ----------

  /** The row of the project is the last document of the history. */
  predicate Shows(projects: PR.Projects, owner: int, id: string, history: seq<Doc>) {
    && PR.Visible(projects, owner, id) && history != []
    && projects[id].version == |history| && projects[id].document == history[|history| - 1]
  }

  /**
   Repository.Update on the row of the project is what Serve does to the history, and what another client
   does; when the name or a reference is refused, nothing is written, as after Break.
  */
  method Handle(repo: PR.Repository, change: PR.Change, w: World, r: nat) returns (reply: PR.Reply)
    requires Enabled(w, Serve(r)) && Shows(repo.projects, change.owner, change.id, w.history)
    requires change.expected == w.requests[r].version && change.document == w.requests[r].doc
    modifies repo`projects, repo`references
    ensures !reply.NotFound?
    ensures reply.Updated? || reply.VersionConflict? ==>
      && Shows(repo.projects, change.owner, change.id, Step(w, Serve(r)).history)
      && Step(w, Serve(r)).requests[r].fate == if reply.Updated? then Applied(reply.version) else Rejected
    ensures reply.Updated? ==> Shows(repo.projects, change.owner, change.id, Step(w, OtherClient(change.document)).history)
    ensures !reply.Updated? ==>
      repo.projects == old(repo.projects) && Shows(repo.projects, change.owner, change.id, Step(w, Break(r)).history)
  {
    reply := repo.Update(change);
  }

  lemma {:induction false} RunOneMore(w: World, es: seq<Event>, e: Event)
    requires Run(w, es) && Enabled(After(w, es), e)
    ensures Run(w, es + [e]) && After(w, es + [e]) == Step(After(w, es), e)
    decreases |es|
  {
    if es == [] {
      assert (es + [e])[1..] == [];
    } else {
      RunOneMore(Step(w, es[0]), es[1..], e);
      assert (es + [e])[1..] == es[1..] + [e];
    }
  }

  /** The first save in flight goes through: it is sent, served, answered, and the draft is removed. */
  lemma SaveGoesThrough(w: World, es: seq<Event>) returns (more: seq<Event>)
    requires Inv(w) && Run(w, es)
    requires var v := After(w, es);
      v.c.ops == [Starting] && !v.c.retry && v.c.version == |v.history|
    ensures more == es + [Submit(0), Serve(|After(w, es).requests|), Answer(0), Removed(0)] && Run(w, more)
    ensures var v, v' := After(w, es), After(w, more);
      && v'.history == v.history + [v.c.doc] && v'.c.version == |v'.history| && v'.c.doc == v.c.doc
      && v'.c.status == Saved && !v'.c.saving && !Unsaved(v')
  {
    var r := |After(w, es).requests|;
    RunKeeps(w, es);
    RunOneMore(w, es, Submit(0));
    var sent := es + [Submit(0)];
    RunOneMore(w, sent, Serve(r));
    var served := sent + [Serve(r)];
    RunOneMore(w, served, Answer(0));
    var answered := served + [Answer(0)];
    RunOneMore(w, answered, Removed(0));
    more := answered + [Removed(0)];
  }

  /** The whole run from a save that a piece of the client starts. */
  function SaveRun(first: Event, r: nat): seq<Event> {
    [first, Submit(0), Serve(r), Answer(0), Removed(0)]
  }

  ghost predicate EndsSaved(w: World, es: seq<Event>) {
    && Run(w, es)
    && var v := After(w, es);
       && v.history == w.history + [w.c.doc] && v.c.version == |v.history| && v.c.doc == w.c.doc
       && v.c.status == Saved && !Unsaved(v)
  }

  lemma OneEvent(w: World, e: Event)
    requires Enabled(w, e)
    ensures Run(w, [e]) && After(w, [e]) == Step(w, e)
  {
    assert [e][1..] == [];
    assert Run(Step(w, e), []);
  }

  lemma StartedSaves(w: World, first: Event)
    requires Inv(w) && Enabled(w, first)
    requires var v := Step(w, first);
      v.c.ops == [Starting] && !v.c.retry && v.c.version == |v.history| && v.history == w.history && v.c.doc == w.c.doc && v.requests == w.requests
    ensures EndsSaved(w, SaveRun(first, |w.requests|))
  {
    OneEvent(w, first);
    var es := SaveGoesThrough(w, [first]);
    assert es == SaveRun(first, |w.requests|);
  }

  /**
   When nobody interferes, a timer, a flush of a dirty or failed document and a retry each bring the last edit
   to the server as the next version, and the client says so.
  */
  lemma UndisturbedSaves(w: World, first: Event)
    requires Inv(w) && !w.c.saving && !w.c.blocked && w.c.version == |w.history|
    requires match first
             case Timer => w.c.timer
             case Flush => w.c.status != Saved
             case Retry => true
             case _ => false
    ensures EndsSaved(w, SaveRun(first, |w.requests|))
  {
    StartedSaves(w, first);
  }

  /**
   What a retry starts: outside a conflict a save is in flight, no timer is left, nothing blocks, and if a save
   was in flight before, another one is noted; so is everything that was noted before. In a conflict it does nothing.
  */
  lemma RetryStarts(w: World)
    requires Inv(w)
    ensures var c, c' := w.c, Step(w, Retry).c;
      && (c.status == Conflict ==> c' == c)
      && (c.status != Conflict ==>
            && !c'.blocked && !c'.timer && c'.saving && |c'.ops| == 1
            && (c.saving ==> c'.retry && c'.ops == c.ops && c'.status == c.status)
            && (!c.saving ==> !c'.retry && c'.ops == [Starting] && c'.status == Status.Saving))
      && c'.doc == c.doc && c'.version == c.version && c'.sequence == c.sequence
  {
  }

  /** What a flush starts: no timer is left, and a save is in flight unless there is a conflict or nothing to save. */
  lemma FlushStarts(w: World)
    requires Inv(w)
    ensures var c, c' := w.c, Step(w, Flush).c;
      && (c.status == Conflict ==> c' == c)
      && (c.status != Conflict ==> !c'.timer)
      && (c'.saving <==> c.saving || (c.status != Saved && c.status != Conflict))
      && (!c.saving && c'.saving ==> c'.ops == [Starting] && c'.status == Status.Saving)
      && (c.saving ==> c' == c.(timer := false))
      && c'.doc == c.doc && c'.version == c.version && c'.sequence == c.sequence
  {
  }

  /** What an edit starts: outside a conflict a new timer, and in a conflict none at all; the edit has the next number. */
  lemma EditStarts(w: World, doc: Doc)
    requires Inv(w)
    ensures var c, c' := w.c, Step(w, Edit(doc)).c;
      && c'.doc == doc && c'.sequence == c.sequence + 1 && c'.version == c.version && c'.ops == c.ops && c'.saving == c.saving
      && (if c.status == Conflict then !c'.timer && c'.status == Conflict else c'.timer && c'.status == Dirty)
  {
  }

  // ---------- A conflict ----------

  /** From a conflict on the client sends nothing any more and keeps showing it, whatever the user does. */
  lemma {:induction false} ConflictStays(w: World, es: seq<Event>)
    requires Inv(w) && w.c.status == Conflict && Run(w, es)
    ensures var v := After(w, es); v.c.status == Conflict && v.c.blocked && v.c.ops == [] && |v.requests| == |w.requests|
    decreases |es|
  {
    if es != [] {
      StepKeeps(w, es[0]);
      ConflictStays(Step(w, es[0]), es[1..]);
    }
  }

  /**
   A request that the server handles is applied exactly when nobody wrote since the version it names; the answer
   to a refused one is a conflict, and from then on nothing is sent.
  */
  lemma {:induction false} RefusedForGood(w: World, i: nat, served: World, es: seq<Event>)
    requires Inv(w) && i < |w.c.ops| && w.c.ops[i].Sent? && Enabled(w, Serve(w.c.ops[i].request))
    requires served == Step(w, Serve(w.c.ops[i].request)) && |w.history| != w.c.version
    requires Run(Step(served, Answer(i)), es)
    ensures served.history == w.history
    ensures var v := After(Step(served, Answer(i)), es);
      v.c.status == Conflict && v.c.blocked && v.c.ops == [] && |v.requests| == |w.requests|
  {
    assert StageOk(w, w.c.ops[i]);
    StepKeeps(w, Serve(w.c.ops[i].request));
    assert StageOk(served, served.c.ops[i]);
    StepKeeps(served, Answer(i));
    ConflictStays(Step(served, Answer(i)), es);
  }

  lemma SavingTheFirstEdit() returns (es: seq<Event>)
    ensures Run(Init(["one"]), es)
    ensures var w := After(Init(["one"]), es);
            && w.c == Client("two", 2, 1, true, false, false, false, Status.Saving, [Removing(1)])
            && w.history == ["one", "two"] && w.savedSequence == 1
  {
    var w := Init(["one"]);
    es := [];
    RunOneMore(w, es, Edit("two"));
    es := es + [Edit("two")];
    RunOneMore(w, es, Timer);
    es := es + [Timer];
    RunOneMore(w, es, Submit(0));
    es := es + [Submit(0)];
    RunOneMore(w, es, Serve(0));
    es := es + [Serve(0)];
    RunOneMore(w, es, Answer(0));
    es := es + [Answer(0)];
  }

  /**
   Outside that condition an edit can be stranded: made while the draft is being removed and then flushed,
   it is shown as saved, no timer runs, nothing is in flight, and the server does not have it.
  */
  lemma AStrandedEdit() returns (es: seq<Event>)
    ensures Run(Init(["one"]), es)
    ensures var w := After(Init(["one"]), es);
            && w.c.status == Saved && !w.c.timer && !w.c.saving && Unsaved(w)
            && w.c.doc == "three" && "three" !in w.history
  {
    var w := Init(["one"]);
    es := SavingTheFirstEdit();
    RunOneMore(w, es, Edit("three"));
    es := es + [Edit("three")];
    RunOneMore(w, es, Flush);
    es := es + [Flush];
    RunOneMore(w, es, Removed(0));
    es := es + [Removed(0)];
  }
}
