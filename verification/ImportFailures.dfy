/** Exports that the validator accepts and the import refuses, and some that it does not refuse. */
module ImportFailures {
  import opened Wrappers
  import opened Texts
  import opened Relational
  import opened RowOrder
  import opened Import
  import D = Dataset
  import J = JsonValues
  import IR = ImportRows
  import V = Validator
  import A = AcceptedRows

  const EMPTY_OBJECT := J.Json("{}", [])

  const ONE: J.Numeral := J.Number(false, "1", "", None)

  /** {"nodes":[],"schema_version":1} */
  const DOCUMENT := J.Json("{\"nodes\":[],\"schema_version\":}", [ONE])

  function Drawing(id: string, document: J.Json, at: D.Time): D.Project {
    D.Project(id, 1, "Drawing", document, 1, "", at, at, None)
  }

  const DIGEST := J.Zeros(64)

  predicate Timely(at: D.Time) {
    0 <= at < 315_537_897_600_000_000_000 && at % 1000 == 0
  }

  function Task(id: string, project: string, error: Option<J.Json>): D.MediaTask {
    D.MediaTask(id, "video", "failed", "upstream", 1, project, "node", "model", "", EMPTY_OBJECT, DIGEST, "", error, 1000, 1000, None)
  }

  function WithProjects(ps: seq<D.Project>, tasks: seq<D.MediaTask>): D.Export {
    D.Export(ps, [], [], [], [], [], [], [], [], [], tasks, [])
  }

  function WithTask(error: Option<J.Json>): D.Export {
    WithProjects([Drawing("p", DOCUMENT, 1000)], [Task("t", "p", error)])
  }

  lemma OneRow<T>(x: T, valid: T -> bool, claims: T -> seq<D.Claim>)
    requires valid(x) && D.NoDuplicates(claims(x))
    ensures D.RowsAccepted([x], valid, claims)
  {
    assert [x][..0] == [];
    assert D.Claims([x], claims) == claims(x);
  }

  lemma TwoRows<T>(x: T, y: T, valid: T -> bool, claims: T -> seq<D.Claim>)
    requires valid(x) && valid(y) && |claims(x)| == |claims(y)| == 1 && claims(x) != claims(y)
    ensures D.RowsAccepted([x, y], valid, claims)
  {
    assert [x, y][..1] == [x] && [x, y][..0] == [] && [x, y][..2] == [x, y];
    V.ClaimsOfFirst([x, y], claims, 0);
    V.ClaimsOfFirst([x, y], claims, 1);
    assert D.Claims([x, y], claims) == claims(x) + claims(y);
  }

  lemma DrawingValid(id: string, document: J.Json, at: D.Time)
    requires D.ValidId(id) && at != 0
    ensures D.ProjectValid(Drawing(id, document, at))
  {
    assert 'D' in "Drawing";
    var s := "Drawing";
    assert s[1..] == "rawing" && s[1..][1..] == "awing" && s[1..][1..][1..] == "wing";
    assert "wing"[1..] == "ing" && "ing"[1..] == "ng" && "ng"[1..] == "g";
  }

  lemma DigestValid()
    ensures D.ValidDigest(DIGEST)
  {
    forall c | c in DIGEST ensures c == '0' {
      var i :| 0 <= i < |DIGEST| && DIGEST[i] == c;
    }
  }

  lemma NamesValid()
    ensures D.ValidId("t") && !Blank("upstream") && !Blank("node") && !Blank("model")
  {
    assert 'u' in "upstream" && 'n' in "node" && 'm' in "model";
  }

  lemma TaskValid(error: Option<J.Json>, projects: map<string, D.Project>)
    requires "p" in projects && projects["p"].owner == 1
    ensures D.MediaTaskValid(projects, map[], Task("t", "p", error))
  {
    hide D.ValidId, D.ValidDigest, Blank;
    DigestValid();
    NamesValid();
  }

  lemma OnlyTasksAccepted(d: D.Export)
    requires d.jobs == [] && d.jobInputs == [] && d.jobResults == []
    requires D.RowsAccepted(d.mediaTasks, (x: D.MediaTask) => D.MediaTaskValid(D.ProjectsOf(d), D.AssetsOf(d), x), D.MediaTaskClaims)
    ensures D.JobsAccepted(d)
  {
  }

  lemma OnlyProjectsAccepted(d: D.Export)
    requires d == WithProjects(d.projects, d.mediaTasks)
    requires D.RowsAccepted(d.projects, D.ProjectValid, D.ProjectClaims) && forall p :: p in d.projects ==> p.thumbnail == ""
    ensures D.EntitiesAccepted(d) && D.EditorAccepted(d) && D.ObjectsAccepted(d)
  {
    hide D.ProjectValid, D.ProjectClaims;
  }

  lemma {:induction false} Indexed<T>(name: T -> string, x: T)
    ensures D.IndexBy([x], name) == map[name(x) := x]
  {
    assert [x][..0] == [];
  }

  lemma OneTask(error: Option<J.Json>)
    ensures D.Accepted(WithTask(error))
  {
    hide D.ProjectValid, D.MediaTaskValid, D.EntitiesAccepted, D.EditorAccepted, D.JobsAccepted, D.ObjectsAccepted;
    var p, x, d := Drawing("p", DOCUMENT, 1000), Task("t", "p", error), WithTask(error);
    DrawingValid("p", DOCUMENT, 1000);
    OneRow(p, D.ProjectValid, D.ProjectClaims);
    OnlyProjectsAccepted(d);
    Indexed((q: D.Project) => q.publicId, p);
    assert D.ProjectsOf(d) == map["p" := p];
    assert D.AssetsOf(d) == map[];
    TaskValid(error, D.ProjectsOf(d));
    OneRow(x, (y: D.MediaTask) => D.MediaTaskValid(D.ProjectsOf(d), D.AssetsOf(d), y), D.MediaTaskClaims);
    OnlyTasksAccepted(d);
  }

  // ---------- What the conditions come to ----------

  /** Drawings, and tasks as above: all that is left of the conditions. */
  predicate Small(d: D.Export) {
    && d == WithProjects(d.projects, d.mediaTasks)
    && (forall p :: p in d.projects ==> p == Drawing(p.publicId, p.document, p.createdAt) && D.ValidId(p.publicId))
    && (forall x :: x in d.mediaTasks ==> x == Task(x.publicId, x.project, x.error) && x.error in {None, Some(EMPTY_OBJECT)})
  }

  /** A text without backslashes and U+0000, and what follows it. */
  lemma {:induction false} Ordinary(text: string, rest: string)
    requires '\\' !in text && '\0' !in text
    ensures J.Storable(text + rest, false) <==> J.Storable(rest, false)
  {
    if text == "" {
      assert text + rest == rest;
    } else {
      Ordinary(text[1..], rest);
      assert (text + rest)[1..] == text[1..] + rest && (text + rest)[0] == text[0];
    }
  }

  lemma OrdinaryHolds(text: string, numbers: seq<J.Numeral>)
    requires '\\' !in text && '\0' !in text && forall n :: n in numbers ==> J.NumberHolds(n)
    ensures J.JsonHolds(J.Json(text, numbers))
  {
    Ordinary(text, "");
    assert text + "" == text;
  }

  lemma OneHolds()
    ensures J.NumberHolds(ONE) && J.Plain(ONE)
  {
    J.PlainStays(ONE);
    assert '1' in "1";
  }

  lemma EmptyObjectHolds()
    ensures J.JsonHolds(EMPTY_OBJECT) && J.NumbersPlain(EMPTY_OBJECT)
  {
    hide J.Storable;
    OrdinaryHolds("{}", []);
  }

  lemma OnlyOne(text: string)
    requires '\\' !in text && '\0' !in text
    ensures J.JsonHolds(J.Json(text, [ONE])) && J.NumbersPlain(J.Json(text, [ONE]))
  {
    hide J.JsonHolds, J.NumberHolds, J.Plain;
    OneHolds();
    OrdinaryHolds(text, [ONE]);
  }

  lemma DocumentText()
    ensures '\\' !in "{\"nodes\":[],\"schema_version\":}" && '\0' !in "{\"nodes\":[],\"schema_version\":}"
  {
  }

  lemma DocumentHolds()
    ensures J.JsonHolds(DOCUMENT) && J.NumbersPlain(DOCUMENT)
  {
    hide J.JsonHolds, J.NumbersPlain, J.Storable, J.WellFormed;
    DocumentText();
    OnlyOne("{\"nodes\":[],\"schema_version\":}");
  }

  lemma SamplesHold()
    ensures J.JsonHolds(EMPTY_OBJECT) && J.NumbersPlain(EMPTY_OBJECT) && J.JsonHolds(DOCUMENT) && J.NumbersPlain(DOCUMENT)
  {
    hide J.JsonHolds, J.NumbersPlain;
    EmptyObjectHolds();
    DocumentHolds();
  }

  lemma SmallFits(d: D.Export)
    requires Small(d)
    ensures IR.ParametersPresent(d) && (IR.Fits(d) <==> forall p :: p in d.projects ==> J.JsonHolds(p.document))
  {
    hide J.JsonHolds;
    SamplesHold();
    assert IR.TableFits(d, MediaTasks);
    if IR.Fits(d) {
      assert IR.TableFits(d, Projects);
    }
  }

  lemma TaskColumns(x: D.MediaTask)
    requires x == Task(x.publicId, x.project, x.error) && x.error in {None, Some(EMPTY_OBJECT)}
    ensures forall c :: c in IR.TaskRequest(x) ==> IR.PlainColumn(c) && IR.PlainTime(c)
    ensures forall c :: c in IR.TaskOutcome(x) ==> IR.PlainColumn(c) && IR.PlainTime(c)
  {
    hide J.JsonHolds, J.NumbersPlain;
    SamplesHold();
  }

  lemma SmallRow(d: D.Export, t: Table, item: Item)
    requires Small(d) && item in IR.Items(d, t)
    ensures t == Projects || t == MediaTasks
    ensures t == Projects ==> exists p :: p in d.projects && item == IR.ProjectItem(p)
    ensures t == MediaTasks ==> forall c :: c in item.body ==> IR.PlainColumn(c) && IR.PlainTime(c)
  {
    hide IR.TaskRequest, IR.TaskOutcome, IR.ProjectItem, IR.PlainColumn, IR.PlainTime;
    if t == Projects {
      var p := A.MappedFrom(d.projects, IR.ProjectItem, item);
    } else if t == MediaTasks {
      var x := A.MappedFrom(d.mediaTasks, IR.MediaTaskItem, item);
      assert x == Task(x.publicId, x.project, x.error);
      TaskColumns(x);
    }
  }

  lemma DrawingColumns(p: D.Project)
    requires p == Drawing(p.publicId, p.document, p.createdAt)
    ensures (forall c :: c in IR.ProjectItem(p).body ==> IR.PlainColumn(c)) <==> J.NumbersPlain(p.document)
    ensures (forall c :: c in IR.ProjectItem(p).body ==> IR.PlainTime(c)) <==> Timely(p.createdAt)
  {
    var cs := IR.ProjectItem(p).body;
    assert cs[2] in cs && cs[4] in cs;
  }

  lemma SmallKept(d: D.Export)
    requires Small(d)
    ensures IR.NumbersPlain(d) <==> forall p :: p in d.projects ==> J.NumbersPlain(p.document)
    ensures IR.TimesPlain(d) <==> forall p :: p in d.projects ==> Timely(p.createdAt)
  {
    forall p | p in d.projects
      ensures IR.ProjectItem(p) in IR.Items(d, Projects)
    {
      var i :| 0 <= i < |d.projects| && d.projects[i] == p;
      assert IR.Items(d, Projects)[i] == IR.ProjectItem(p);
    }
    forall t: Table, item | item in IR.Items(d, t)
      ensures t == Projects || forall c :: c in item.body ==> IR.PlainColumn(c) && IR.PlainTime(c)
    {
      SmallRow(d, t, item);
    }
    forall p | p in d.projects
      ensures (forall c :: c in IR.ProjectItem(p).body ==> IR.PlainColumn(c)) <==> J.NumbersPlain(p.document)
      ensures (forall c :: c in IR.ProjectItem(p).body ==> IR.PlainTime(c)) <==> Timely(p.createdAt)
    {
      DrawingColumns(p);
    }
    forall item | item in IR.Items(d, Projects)
      ensures exists p :: p in d.projects && item == IR.ProjectItem(p)
    {
      SmallRow(d, Projects, item);
    }
  }

  lemma OneDrawingAccepted(document: J.Json, at: D.Time)
    requires at != 0
    ensures D.Accepted(WithProjects([Drawing("p", document, at)], []))
  {
    hide D.ProjectValid, D.EntitiesAccepted, D.EditorAccepted, D.ObjectsAccepted;
    var d := WithProjects([Drawing("p", document, at)], []);
    DrawingValid("p", document, at);
    OneRow(Drawing("p", document, at), D.ProjectValid, D.ProjectClaims);
    OnlyProjectsAccepted(d);
  }

  lemma TwoDrawingsAccepted(a: string, b: string)
    requires D.ValidId(a) && D.ValidId(b) && a != b
    ensures D.Accepted(TwoDrawings(a, b))
  {
    hide D.ProjectValid, D.EntitiesAccepted, D.EditorAccepted, D.ObjectsAccepted;
    DrawingValid(a, DOCUMENT, 1000);
    DrawingValid(b, DOCUMENT, 1000);
    TwoRows(Drawing(a, DOCUMENT, 1000), Drawing(b, DOCUMENT, 1000), D.ProjectValid, D.ProjectClaims);
    OnlyProjectsAccepted(TwoDrawings(a, b));
  }

  function TwoDrawings(a: string, b: string): D.Export {
    WithProjects([Drawing(a, DOCUMENT, 1000), Drawing(b, DOCUMENT, 1000)], [])
  }

  lemma SmallOrder(d: D.Export, le: (string, string) -> bool)
    requires Small(d) && |d.mediaTasks| <= 1
    ensures RowsInKeyOrder(d, le) <==> Ascending(le, Projects, IR.Items(d, Projects))
  {
    forall t: Table | t != AssetParents && t != Projects
      ensures Ascending(le, t, IR.Items(d, t))
    {
      assert |IR.Items(d, t)| <= 1;
    }
  }

  lemma SmallImports(d: D.Export, le: (string, string) -> bool)
    requires Small(d) && |d.mediaTasks| <= 1 && D.Accepted(d) && IsOrder(le)
    ensures Imports(EmptyDb(), d, le) <==>
      && (forall p :: p in d.projects ==> J.JsonHolds(p.document) && J.NumbersPlain(p.document) && Timely(p.createdAt))
      && (forall x :: x in d.mediaTasks ==> x.error.Some?) && Ascending(le, Projects, IR.Items(d, Projects))
  {
    hide Imports, IR.Fits, IR.ParametersPresent, IR.NumbersPlain, IR.TimesPlain, RowsInKeyOrder, J.JsonHolds, J.NumbersPlain, D.Accepted, Ascending;
    SmallFits(d);
    SmallKept(d);
    SmallOrder(d, le);
    ImportIntoEmpty(d, le);
  }

  // ---------- Refused, or not ----------

  /** One project, with any document and any time; what the program looks for inside the document is not modelled. */
  lemma OneDrawing(document: J.Json, at: D.Time, le: (string, string) -> bool)
    requires at != 0 && IsOrder(le)
    ensures var d := WithProjects([Drawing("p", document, at)], []);
            D.Accepted(d) && (Imports(EmptyDb(), d, le) <==> J.JsonHolds(document) && J.NumbersPlain(document) && Timely(at))
  {
    hide J.JsonHolds, J.NumbersPlain, Imports, D.Accepted;
    var d := WithProjects([Drawing("p", document, at)], []);
    OneDrawingAccepted(document, at);
    SmallImports(d, le);
    assert d.projects[0] in d.projects;
  }

  /** {"nodes":[],"note":"\u0000","schema_version":1} */
  const ESCAPED_ZERO := J.Json("{\"nodes\":[],\"note\":\"" + "\\u0000\",\"schema_version\":}", [ONE])

  lemma NotStorable()
    ensures !J.JsonHolds(ESCAPED_ZERO)
  {
    hide J.Storable;
    var rest := "\\u0000\",\"schema_version\":}";
    assert rest == "\\u" + "0000" + "\",\"schema_version\":}";
    ZeroEscape(rest);
    Ordinary("{\"nodes\":[],\"note\":\"", rest);
  }

  lemma ZeroEscape(s: string)
    requires |s| >= 6 && s[..2] == "\\u" && s[2..6] == "0000"
    ensures !J.Storable(s, false)
  {
    assert s[0] == s[..2][0] && s[1] == s[..2][1];
  }

  /** The validator lets the escape through, the column does not. */
  lemma EscapedZero(le: (string, string) -> bool)
    requires IsOrder(le)
    ensures var d := WithProjects([Drawing("p", ESCAPED_ZERO, 1000)], []); D.Accepted(d) && !Imports(EmptyDb(), d, le)
  {
    hide J.JsonHolds, Imports, D.Accepted;
    NotStorable();
    OneDrawing(ESCAPED_ZERO, 1000, le);
  }

  const ONE_HUNDRED: J.Numeral := J.Number(false, "1", "", Some(2))

  /** {"nodes":[],"scale":1e2,"schema_version":1} */
  const WITH_EXPONENT := J.Json("{\"nodes\":[],\"scale\":,\"schema_version\":}", [ONE_HUNDRED, ONE])

  /** A scale of 1e2 comes back as 100. */
  lemma WithExponent(le: (string, string) -> bool)
    requires IsOrder(le)
    ensures var d := WithProjects([Drawing("p", WITH_EXPONENT, 1000)], []); D.Accepted(d) && !Imports(EmptyDb(), d, le)
  {
    hide J.JsonHolds, Imports, D.Accepted;
    assert ONE_HUNDRED in WITH_EXPONENT.numbers && !J.Plain(ONE_HUNDRED);
    OneDrawing(WITH_EXPONENT, 1000, le);
  }

  /** A time that is in the year 10000 in UTC, which an export can write with an offset from the year before. */
  lemma TooLate(le: (string, string) -> bool)
    requires IsOrder(le)
    ensures var d := WithProjects([Drawing("p", DOCUMENT, YEAR_10000)], []); D.Accepted(d) && !Imports(EmptyDb(), d, le)
    ensures var d := WithProjects([Drawing("p", DOCUMENT, YEAR_10000 - TICK)], []); D.Accepted(d) && Imports(EmptyDb(), d, le)
  {
    hide J.JsonHolds, J.NumbersPlain, Imports, D.Accepted;
    SamplesHold();
    OneDrawing(DOCUMENT, YEAR_10000, le);
    OneDrawing(DOCUMENT, YEAR_10000 - TICK, le);
  }

  /** Two projects are imported when they are listed in one order, and refused in the other. */
  lemma EitherOrder(a: string, b: string, le: (string, string) -> bool)
    requires D.ValidId(a) && D.ValidId(b) && a != b && IsOrder(le)
    ensures D.Accepted(TwoDrawings(a, b)) && (Imports(EmptyDb(), TwoDrawings(a, b), le) <==> le(a, b))
    ensures Imports(EmptyDb(), TwoDrawings(a, b), le) <==> !Imports(EmptyDb(), TwoDrawings(b, a), le)
  {
    hide Imports, D.Accepted;
    InOrderWhen(a, b, le);
    InOrderWhen(b, a, le);
  }

  lemma InOrderWhen(a: string, b: string, le: (string, string) -> bool)
    requires D.ValidId(a) && D.ValidId(b) && a != b && IsOrder(le)
    ensures D.Accepted(TwoDrawings(a, b)) && (Imports(EmptyDb(), TwoDrawings(a, b), le) <==> le(a, b))
  {
    hide J.JsonHolds, J.NumbersPlain, Imports, D.ValidId, D.Accepted, Ascending;
    TwoDrawingsAccepted(a, b);
    SamplesHold();
    SmallImports(TwoDrawings(a, b), le);
    KeysOfTwo(a, b, le);
  }

  lemma KeyOfProject(p: D.Project)
    ensures SortKey(Projects, IR.ProjectItem(p)) == [PublicId(p.publicId)]
  {
    assert KeyLinks(Projects) == 0;
  }

  lemma KeysOfTwo(a: string, b: string, le: (string, string) -> bool)
    requires IsOrder(le)
    ensures Ascending(le, Projects, IR.Items(TwoDrawings(a, b), Projects)) <==> le(a, b)
  {
    var items, p, q := IR.Items(TwoDrawings(a, b), Projects), Drawing(a, DOCUMENT, 1000), Drawing(b, DOCUMENT, 1000);
    assert items[0] == IR.ProjectItem(p) && items[1] == IR.ProjectItem(q);
    KeyOfProject(p);
    KeyOfProject(q);
    assert [PublicId(a)][1..] == [] && [PublicId(b)][1..] == [];
    assert KeyUpTo(le, [PublicId(a)], [PublicId(b)]) <==> le(a, b);
  }

  /** A task that failed without an error value is refused, the same task with one is imported. */
  lemma MissingError(error: Option<J.Json>, le: (string, string) -> bool)
    requires IsOrder(le) && error in {None, Some(EMPTY_OBJECT)}
    ensures D.Accepted(WithTask(error)) && (Imports(EmptyDb(), WithTask(error), le) <==> error.Some?)
  {
    hide J.JsonHolds, J.NumbersPlain, Imports, D.Accepted;
    OneTask(error);
    SamplesHold();
    SmallImports(WithTask(error), le);
    assert WithTask(error).mediaTasks[0].error == error;
    assert |IR.Items(WithTask(error), Projects)| == 1;
  }

  // ---------- A revision ----------

  const ZERO: J.Numeral := J.Number(false, "0", "", None)

  /** The least document of the editor: a white canvas of 1 by 1 in a viewport at the origin. */
  const CANVAS := J.Json(CANVAS_TEXT + VIEWPORT_TEXT, [ONE, ONE, ONE, ZERO, ZERO, ONE])

  const CANVAS_TEXT := "{\"canvas\":{" + "\"background\":\"white\"," + "\"height\":,\"width\":},"

  const VIEWPORT_TEXT := "\"schema_version\":," + "\"viewport\":{" + "\"x\":,\"y\":,\"zoom\":}}"

  const PICTURE := D.Asset("a", 1, "", "upload", "image", "a", "", "", "image/png", 1, 1, None, 1, DIGEST, [], 1000, None)

  const ORIGINAL := D.StoredObject("a", "original", "a", "a", "image/png", 1, DIGEST)

  const EDITED := D.Document("e", "p", "node", "a", "a", CANVAS, 1, 1000, 1000, None)

  function Crop(parameters: Option<J.Json>): D.Revision {
    D.Revision("r", "e", 1, "a", "crop", parameters, 1000)
  }

  function WithRevision(parameters: Option<J.Json>): D.Export {
    D.Export([Drawing("p", DOCUMENT, 1000)], [PICTURE], [], [], [EDITED], [], [Crop(parameters)], [], [], [], [], [ORIGINAL])
  }

  lemma CanvasHolds()
    ensures J.JsonHolds(CANVAS) && J.NumbersPlain(CANVAS)
  {
    hide J.JsonHolds, J.NumberHolds, J.Plain, J.Storable, J.WellFormed;
    OneHolds();
    ZeroHolds();
    CanvasText();
    ViewportText();
    OrdinaryHolds(CANVAS_TEXT + VIEWPORT_TEXT, [ONE, ONE, ONE, ZERO, ZERO, ONE]);
  }

  lemma ZeroHolds()
    ensures J.NumberHolds(ZERO) && J.Plain(ZERO)
  {
    J.PlainStays(ZERO);
  }

  lemma CanvasText()
    ensures '\\' !in CANVAS_TEXT && '\0' !in CANVAS_TEXT
  {
    var a, b, c := "{\"canvas\":{", "\"background\":\"white\",", "\"height\":,\"width\":},";
    assert '\\' !in a && '\0' !in a;
    assert '\\' !in b && '\0' !in b;
    assert '\\' !in c && '\0' !in c;
    assert CANVAS_TEXT == a + b + c;
  }

  lemma ViewportText()
    ensures '\\' !in VIEWPORT_TEXT && '\0' !in VIEWPORT_TEXT
  {
    var a, b, c := "\"schema_version\":,", "\"viewport\":{", "\"x\":,\"y\":,\"zoom\":}}";
    assert '\\' !in a && '\0' !in a;
    assert '\\' !in b && '\0' !in b;
    assert '\\' !in c && '\0' !in c;
    assert VIEWPORT_TEXT == a + b + c;
  }

  lemma PictureValid(projects: map<string, D.Project>)
    ensures D.AssetValid(projects, PICTURE) && D.ValidKey("a") && D.NoDuplicates(D.AssetClaims(PICTURE))
  {
    hide D.ValidDigest;
    DigestValid();
    assert 'i' in "image/png";
    forall from: nat, to: nat | from <= to <= 1 && D.Segment("a", from, to) ensures "a"[from..to] == "a" {
      assert "a"[from..to] == if from < to then "a" else "";
    }
  }

  lemma EditorNames()
    ensures D.ValidId("e") && D.ValidId("r") && !Blank("node") && !Blank("crop") && D.Bytes("node") <= 512
  {
    assert 'n' in "node" && 'c' in "crop";
    assert "node"[1..] == "ode" && "ode"[1..] == "de" && "de"[1..] == "e";
  }

  lemma RevisionValid(parameters: Option<J.Json>, projects: map<string, D.Project>, assets: map<string, D.Asset>, documents: map<string, D.Document>)
    requires "p" in projects && projects["p"].owner == 1 && "a" in assets && assets["a"] == PICTURE && "e" in documents && documents["e"] == EDITED
    ensures D.DocumentValid(projects, assets, EDITED) && D.RevisionValid(projects, assets, documents, Crop(parameters))
    ensures D.NoDuplicates(D.DocumentClaims(EDITED)) && D.NoDuplicates(D.RevisionClaims(Crop(parameters)))
  {
    hide D.ValidId, Blank, D.Bytes;
    EditorNames();
  }

  lemma RevisionMaps(parameters: Option<J.Json>)
    ensures var d := WithRevision(parameters);
      && D.ProjectsOf(d) == map["p" := Drawing("p", DOCUMENT, 1000)] && D.AssetsOf(d) == map["a" := PICTURE]
      && D.DocumentsOf(d) == map["e" := EDITED]
  {
    Indexed((p: D.Project) => p.publicId, Drawing("p", DOCUMENT, 1000));
    Indexed((a: D.Asset) => a.publicId, PICTURE);
    Indexed((x: D.Document) => x.publicId, EDITED);
  }

  lemma OneCounted(kind: string)
    ensures D.CountOf([ORIGINAL], kind, "a") == if kind == "original" then 1 else 0
  {
    var objects := [ORIGINAL];
    assert objects[..|objects| - 1] == [] && objects[|objects| - 1] == ORIGINAL;
    assert D.CountOf([], kind, "a") == 0;
  }

  lemma OneObject(parameters: Option<J.Json>)
    ensures D.ObjectsAccepted(WithRevision(parameters))
  {
    hide D.ValidKey, D.ValidDigest;
    var d := WithRevision(parameters);
    RevisionMaps(parameters);
    PictureValid(D.ProjectsOf(d));
    DigestValid();
    assert 'i' in "image/png";
    OneRow(ORIGINAL, (o: D.StoredObject) => D.ObjectValid(D.AssetsOf(d), o), D.ObjectClaims);
    OneCounted("original");
    OneCounted("thumbnail");
  }

  lemma OneRevision(parameters: Option<J.Json>)
    ensures D.Accepted(WithRevision(parameters))
  {
    hide D.ProjectValid, D.AssetValid, D.DocumentValid, D.RevisionValid, D.ObjectsAccepted, D.AssetClaims, D.DocumentClaims, D.RevisionClaims;
    var d := WithRevision(parameters);
    DrawingValid("p", DOCUMENT, 1000);
    OneRow(Drawing("p", DOCUMENT, 1000), D.ProjectValid, D.ProjectClaims);
    RevisionMaps(parameters);
    PictureValid(D.ProjectsOf(d));
    OneRow(PICTURE, (a: D.Asset) => D.AssetValid(D.ProjectsOf(d), a), D.AssetClaims);
    RevisionValid(parameters, D.ProjectsOf(d), D.AssetsOf(d), D.DocumentsOf(d));
    OneRow(EDITED, (x: D.Document) => D.DocumentValid(D.ProjectsOf(d), D.AssetsOf(d), x), D.DocumentClaims);
    OneRow(Crop(parameters), (r: D.Revision) => D.RevisionValid(D.ProjectsOf(d), D.AssetsOf(d), D.DocumentsOf(d), r), D.RevisionClaims);
    OneObject(parameters);
  }

  lemma RevisionFits(parameters: Option<J.Json>)
    requires parameters in {None, Some(EMPTY_OBJECT)}
    ensures IR.Fits(WithRevision(parameters)) && IR.ParentsDistinct(WithRevision(parameters)) && IR.ErrorsPresent(WithRevision(parameters))
    ensures IR.ParametersPresent(WithRevision(parameters)) <==> parameters.Some?
  {
    hide J.JsonHolds;
    var d := WithRevision(parameters);
    SamplesHold();
    CanvasHolds();
    assert d.revisions[0] == Crop(parameters);
    forall t: Table ensures IR.TableFits(d, t) { RevisionFitsIn(parameters, t); }
  }

  lemma RevisionFitsIn(parameters: Option<J.Json>, t: Table)
    requires parameters in {None, Some(EMPTY_OBJECT)}
    requires J.JsonHolds(DOCUMENT) && J.JsonHolds(CANVAS) && J.JsonHolds(EMPTY_OBJECT)
    ensures IR.TableFits(WithRevision(parameters), t)
  {
    hide J.JsonHolds;
  }

  predicate KeptRow(item: Item) {
    forall c :: c in item.body ==> IR.PlainColumn(c) && IR.PlainTime(c)
  }

  lemma RowsKept(parameters: Option<J.Json>)
    requires parameters in {None, Some(EMPTY_OBJECT)}
    requires J.NumbersPlain(DOCUMENT) && J.NumbersPlain(CANVAS) && J.NumbersPlain(EMPTY_OBJECT)
    ensures KeptRow(IR.ProjectItem(Drawing("p", DOCUMENT, 1000))) && KeptRow(IR.DocumentItem(EDITED)) && KeptRow(IR.RevisionItem(Crop(parameters)))
  {
    hide J.NumbersPlain;
  }

  lemma PictureKept()
    ensures KeptRow(IR.AssetItem(PICTURE))
  {
    hide IR.PlainColumn, IR.PlainTime, IR.AssetMedia, IR.AssetMeasures;
    var media, measures := IR.AssetMedia(PICTURE), IR.AssetMeasures(PICTURE);
    assert forall c :: c in media + measures <==> c in media || c in measures;
    MediaKept();
    MeasuresKept();
  }

  lemma MediaKept()
    ensures forall c :: c in IR.AssetMedia(PICTURE) ==> IR.PlainColumn(c) && IR.PlainTime(c)
  {
  }

  lemma MeasuresKept()
    ensures forall c :: c in IR.AssetMeasures(PICTURE) ==> IR.PlainColumn(c) && IR.PlainTime(c)
  {
  }

  lemma RevisionRow(parameters: Option<J.Json>, t: Table, item: Item)
    requires item in IR.Items(WithRevision(parameters), t)
    ensures item in [IR.ProjectItem(Drawing("p", DOCUMENT, 1000)), IR.AssetItem(PICTURE), IR.DocumentItem(EDITED), IR.RevisionItem(Crop(parameters))]
  {
    hide IR.ProjectItem, IR.AssetItem, IR.DocumentItem, IR.RevisionItem;
    if t == AssetParents {
      A.ParentItemsAre([PICTURE], item);
    }
  }

  lemma RevisionInOrder(parameters: Option<J.Json>, le: (string, string) -> bool)
    ensures RowsInKeyOrder(WithRevision(parameters), le)
  {
    forall t: Table | t != AssetParents
      ensures Ascending(le, t, IR.Items(WithRevision(parameters), t))
    {
      assert |IR.Items(WithRevision(parameters), t)| <= 1;
    }
  }

  /** A revision line without parameters is refused, the same revision with some is imported. */
  lemma MissingParameters(parameters: Option<J.Json>, le: (string, string) -> bool)
    requires IsOrder(le) && parameters in {None, Some(EMPTY_OBJECT)}
    ensures D.Accepted(WithRevision(parameters)) && (Imports(EmptyDb(), WithRevision(parameters), le) <==> parameters.Some?)
  {
    hide Imports, D.Accepted, IR.Fits, IR.ParametersPresent, IR.ParentsDistinct, IR.ErrorsPresent, RowsInKeyOrder, J.JsonHolds, J.NumbersPlain;
    var d := WithRevision(parameters);
    OneRevision(parameters);
    RevisionFits(parameters);
    RevisionInOrder(parameters, le);
    RevisionKept(parameters);
    ImportIntoEmpty(d, le);
  }

  lemma RevisionRowKept(parameters: Option<J.Json>, t: Table, item: Item)
    requires parameters in {None, Some(EMPTY_OBJECT)} && item in IR.Items(WithRevision(parameters), t)
    ensures KeptRow(item)
  {
    hide KeptRow, IR.Items, IR.ProjectItem, IR.AssetItem, IR.DocumentItem, IR.RevisionItem, J.JsonHolds, J.NumbersPlain, WithRevision;
    SamplesHold();
    CanvasHolds();
    RowsKept(parameters);
    PictureKept();
    RevisionRow(parameters, t, item);
  }

  lemma RevisionKept(parameters: Option<J.Json>)
    requires parameters in {None, Some(EMPTY_OBJECT)}
    ensures IR.NumbersPlain(WithRevision(parameters)) && IR.TimesPlain(WithRevision(parameters))
  {
    hide IR.Items, IR.PlainColumn, IR.PlainTime, WithRevision, J.NumbersPlain;
    forall t: Table, item | item in IR.Items(WithRevision(parameters), t)
      ensures forall c :: c in item.body ==> IR.PlainColumn(c) && IR.PlainTime(c)
    {
      RevisionRowKept(parameters, t, item);
    }
  }
}
