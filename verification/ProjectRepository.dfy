/** Versioned projects on the server: one transaction compares the version, writes, and replaces the references. */
module ProjectRepository {
  import opened Wrappers
  import opened Texts

  type Doc = string

  datatype Reference = Reference(asset: string, node: string)

  datatype Project = Project(owner: int, name: string, document: Doc, version: nat, deleted: bool)

  type Projects = map<string, Project>

  /** What an owner asks to be written, on top of a version. */
  datatype Change = Change(owner: int, id: string, expected: nat, name: string, document: Doc, references: seq<Reference>)

  /** Failed is an error of a statement, which the column of the name or the key of the references may raise. */
  datatype Reply = Updated(version: nat) | VersionConflict | NotFound | InvalidDocument | Failed

  /** VARCHAR(160) CHECK (BTRIM(name) <> '') */
  predicate NameFits(name: string) {
    0 < |TrimSpace(name)| <= 160
  }

  /** The project the owner may update. */
  predicate Visible(projects: Projects, owner: int, id: string) {
    id in projects && projects[id].owner == owner && !projects[id].deleted
  }

  predicate Owned(assets: map<string, int>, owner: int, asset: string) {
    asset in assets && assets[asset] == owner
  }

  datatype Problem = Unowned | Repeated

  /** The first reference that cannot be inserted: its asset is not the owner's, or it was inserted before. */
  function Refusal(assets: map<string, int>, owner: int, references: seq<Reference>): Option<Problem> {
    if references == [] then None
    else
      var before, last := references[..|references| - 1], references[|references| - 1];
      var refused := Refusal(assets, owner, before);
      if refused.Some? then refused
      else if !Owned(assets, owner, last.asset) then Some(Unowned)
      else if last in before then Some(Repeated)
      else None
  }

  lemma {:induction false} NoRefusal(assets: map<string, int>, owner: int, references: seq<Reference>)
    ensures Refusal(assets, owner, references).None? <==>
      && (forall r :: r in references ==> Owned(assets, owner, r.asset))
      && forall i, j :: 0 <= i < j < |references| ==> references[i] != references[j]
  {
    if references != [] {
      var before, last := references[..|references| - 1], references[|references| - 1];
      NoRefusal(assets, owner, before);
      assert references == before + [last];
      if last in before {
        var i :| 0 <= i < |before| && before[i] == last;
        assert references[i] == references[|before|];
      }
    }
  }

  lemma RefusedForGood(assets: map<string, int>, owner: int, references: seq<Reference>, n: nat)
    requires n <= |references| && Refusal(assets, owner, references[..n]).Some?
    ensures Refusal(assets, owner, references) == Refusal(assets, owner, references[..n])
    decreases |references|
  {
    if n == |references| {
      assert references[..n] == references;
    } else {
      var before := references[..|references| - 1];
      assert before[..n] == references[..n];
      RefusedForGood(assets, owner, before, n);
    }
  }

  function UpdateReply(projects: Projects, assets: map<string, int>, c: Change): Reply {
    if !Visible(projects, c.owner, c.id) then NotFound
    else if projects[c.id].version != c.expected then VersionConflict
    else if !NameFits(c.name) then Failed
    else match Refusal(assets, c.owner, c.references)
         case Some(Unowned) => InvalidDocument
         case Some(Repeated) => Failed
         case None => Updated(c.expected + 1)
  }

  function Written(projects: Projects, c: Change): Projects
    requires c.id in projects
  {
    projects[c.id := projects[c.id].(name := TrimSpace(c.name), document := c.document, version := c.expected + 1)]
  }

  /** The projects after a change: all of it, or nothing. */
  function AfterUpdate(projects: Projects, assets: map<string, int>, c: Change): Projects {
    if UpdateReply(projects, assets, c).Updated? then Written(projects, c) else projects
  }

  function AsSet(references: seq<Reference>): set<Reference> {
    set r | r in references
  }

  /**
   When an update is made: by the owner of a project that is not deleted, on top of its version, with a name of 1 to
   160 characters once trimmed, and with references to assets of the owner, none twice. Then that project has the
   trimmed name, the document and the next version, and no other project changes; otherwise none does. A missing
   project, a wrong version, a foreign asset and a statement that fails are told apart.
  */
  lemma UpdatesExactly(projects: Projects, assets: map<string, int>, c: Change)
    ensures var reply, after := UpdateReply(projects, assets, c), AfterUpdate(projects, assets, c);
      var there := c.id in projects && projects[c.id].owner == c.owner && !projects[c.id].deleted;
      && (reply == Updated(c.expected + 1) <==>
            && there && projects[c.id].version == c.expected && 1 <= |TrimSpace(c.name)| <= 160
            && (forall r :: r in c.references ==> r.asset in assets && assets[r.asset] == c.owner)
            && forall i, j :: 0 <= i < j < |c.references| ==> c.references[i] != c.references[j])
      && (reply == NotFound <==> !there)
      && (reply == VersionConflict <==> there && projects[c.id].version != c.expected)
      && (reply.Updated? ==> reply.version == c.expected + 1)
      && (if reply.Updated? then
            && after.Keys == projects.Keys
            && after[c.id] == Project(c.owner, TrimSpace(c.name), c.document, projects[c.id].version + 1, false)
            && forall id :: id in projects && id != c.id ==> after[id] == projects[id]
          else after == projects)
  {
    NoRefusal(assets, c.owner, c.references);
  }

  class Repository {
    var projects: Projects
    var references: map<string, set<Reference>>
    var assets: map<string, int>  // the owner of each asset that is not deleted

    /** The references of a project are deleted and inserted one by one; the first that cannot be ends it. */
    method ReplaceReferences(id: string, owner: int, refs: seq<Reference>) returns (refused: Option<Problem>)
      modifies this`references
      ensures refused == Refusal(assets, owner, refs)
      ensures refused.None? ==> references == old(references)[id := AsSet(refs)]
    {
      references := references[id := {}];
      assert AsSet(refs[..0]) == {};
      for index := 0 to |refs|
        invariant references == old(references)[id := AsSet(refs[..index])]
        invariant Refusal(assets, owner, refs[..index]).None?
      {
        var reference := refs[index];
        assert refs[..index + 1] == refs[..index] + [reference];
        if !Owned(assets, owner, reference.asset) || reference in references[id] {
          RefusedForGood(assets, owner, refs, index + 1);
          return Some(if Owned(assets, owner, reference.asset) then Repeated else Unowned);
        }
        assert AsSet(refs[..index + 1]) == AsSet(refs[..index]) + {reference};
        references := references[id := references[id] + {reference}];
      }
      assert refs[..|refs|] == refs;
      return None;
    }

    /**
     Either everything is written and the version goes up by one, or nothing is written at all; the reply
     says which, and a refused version is told from a missing project.
    */
    method Update(c: Change) returns (reply: Reply)
      modifies this`projects, this`references
      ensures reply == UpdateReply(old(projects), assets, c)
      ensures projects == AfterUpdate(old(projects), assets, c)
      ensures references == if reply.Updated? then old(references)[c.id := AsSet(c.references)] else old(references)
    {
      if !(c.id in projects && projects[c.id].owner == c.owner && projects[c.id].version == c.expected && !projects[c.id].deleted) {
        return if c.id in projects && projects[c.id].owner == c.owner && !projects[c.id].deleted then VersionConflict else NotFound;
      }
      var name := TrimSpace(c.name);
      if name == "" || |name| > 160 {
        return Failed;
      }
      var savedProjects, savedReferences := projects, references;
      projects := projects[c.id := projects[c.id].(name := name, document := c.document, version := projects[c.id].version + 1)];
      var refused := ReplaceReferences(c.id, c.owner, c.references);
      if refused.Some? {
        projects, references := savedProjects, savedReferences;
        return if refused.value.Unowned? then InvalidDocument else Failed;
      }
      return Updated(c.expected + 1);
    }
  }
}
