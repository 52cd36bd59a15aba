/**
 The tables an import writes, as PostgreSQL sees them: rows with surrogate ids and foreign keys,
 INSERT ... SELECT statements that join on public ids and insert nothing when a referent is missing,
 and the reading query that joins back.

 Beside it the same statements on the rows as they are read, which know public ids only. Import
 refines them: InsertRefines and ThumbnailRefines.
*/
module Relational {
  import opened Wrappers
  import J = JsonValues

  datatype Table =
    | Projects | Assets | AssetParents | ProjectRefs | LibraryItems | EditorDocuments | EditorRefs
    | EditorRevisions | Jobs | JobInputs | JobResults | MediaTasks

  /** A value with the limit its column sets. */
  datatype Column =
    | Text(text: string, width: nat)
    | LongText(text: string)
    | Json(value: J.Json)                     // JSONB
    | Digest(text: string)                    // CHAR(64); the validator lets nothing else through
    | Integer(number: int)                    // INTEGER; the import stores no negative ones
    | Big(number: int)                        // BIGINT
    | Span(span: Option<int>)                 // BIGINT, NULL or not negative
    | Time(at: Option<int>)                   // TIMESTAMPTZ, in nanoseconds from the first instant of the year 1
    | NullableText(text: string, width: nat)  // NULLIF on the way in, COALESCE on the way out
    | NullableLong(text: string)              // the same without a limit
    | RequiredJson(json: Option<J.Json>)      // JSONB NOT NULL, from a value that may be absent
    | NullableJson(json: Option<J.Json>)      // NULL on the way in, JSON null on the way out

  const INT_MAX: int := 0x7fff_ffff

  /** No text of the database contains U+0000. */
  predicate Clean(text: string) {
    '\0' !in text
  }

  predicate FitsIn(text: string, width: nat) {
    |text| <= width && Clean(text)
  }

  predicate ColumnHolds(c: Column) {
    match c
    case Text(text, width) => FitsIn(text, width)
    case NullableText(text, width) => FitsIn(text, width)
    case LongText(text) => Clean(text)
    case NullableLong(text) => Clean(text)
    case Integer(number) => 0 <= number <= INT_MAX
    case Json(value) => J.JsonHolds(value)
    case RequiredJson(json) => json.Some? && J.JsonHolds(json.value)
    case NullableJson(json) => json.Some? ==> J.JsonHolds(json.value)
    case Span(span) => span.Some? ==> span.value >= 0
    case _ => true
  }

  predicate ColumnsHold(cs: seq<Column>) {
    forall c :: c in cs ==> ColumnHolds(c)
  }

  // ---------- Cells ----------

  datatype Cell = Value(column: Column) | NullText(width: nat) | NullLong | NullJson

  /** The clock of the target: whole microseconds. */
  const TICK: nat := 1000

  function Store(c: Column): Cell {
    match c
    case NullableText(text, width) => if text == "" then NullText(width) else Value(c)
    case NullableLong(text) => if text == "" then NullLong else Value(c)
    case NullableJson(json) => if json.None? then NullJson else Value(NullableJson(Some(J.Jsonb(json.value))))
    case RequiredJson(json) => if json.None? then Value(c) else Value(RequiredJson(Some(J.Jsonb(json.value))))
    case Json(value) => Value(Json(J.Jsonb(value)))
    case Time(at) => if at.None? then Value(c) else Value(Time(Some(at.value - at.value % TICK)))
    case _ => Value(c)
  }

  function Load(c: Cell): Column {
    match c
    case Value(column) => column
    case NullText(width) => NullableText("", width)
    case NullLong => NullableLong("")
    case NullJson => NullableJson(Some(J.JSON_NULL))
  }

  function StoreAll(cs: seq<Column>): seq<Cell> {
    seq(|cs|, i requires 0 <= i < |cs| => Store(cs[i]))
  }

  function LoadAll(cs: seq<Cell>): seq<Column> {
    seq(|cs|, i requires 0 <= i < |cs| => Load(cs[i]))
  }

  // ---------- Items and rows ----------

  /**
   What the export says of a row. refs are public ids, "" for none; key and second are the values that,
   with some of the refs, have to be unique.
  */
  datatype Item = Item(refs: seq<string>, key: seq<Column>, second: Option<seq<Column>>, body: seq<Column>)

  /** The stored row: refs are surrogate ids, and a surrogate id is a position in a table. */
  datatype Row = Row(refs: seq<Option<nat>>, key: seq<Column>, second: Option<seq<Column>>, body: seq<Cell>)

  type Db = m: map<Table, seq<Row>> | forall t: Table :: t in m
    witness map t: Table :: []

  function NoRows(t: Table): seq<Row> { [] }

  function EmptyDb(): Db { map t: Table :: NoRows(t) }

  // ---------- The schema ----------

  datatype Link = Link(table: Table, required: bool)

  function Links(t: Table): seq<Link> {
    match t
    case Projects => [Link(Assets, false)]
    case Assets => [Link(Projects, false)]
    case AssetParents => [Link(Assets, true), Link(Assets, true)]
    case ProjectRefs => [Link(Projects, true), Link(Assets, true)]
    case LibraryItems => [Link(Assets, false)]
    case EditorDocuments => [Link(Projects, true), Link(Assets, true), Link(Assets, true)]
    case EditorRefs => [Link(EditorDocuments, true), Link(Assets, true)]
    case EditorRevisions => [Link(EditorDocuments, true), Link(Assets, true)]
    case Jobs => [Link(Projects, true)]
    case JobInputs => [Link(Jobs, true), Link(Assets, true)]
    case JobResults => [Link(Jobs, true), Link(Assets, false)]
    case MediaTasks => [Link(Projects, true), Link(Assets, false)]
  }

  /** How many of the first refs belong to the primary key of a table without a public id. */
  function KeyLinks(t: Table): (n: nat)
    ensures n <= |Links(t)|
  {
    match t
    case AssetParents => 2
    case ProjectRefs => 2
    case EditorRefs => 2
    case JobInputs => 1
    case JobResults => 1
    case _ => 0
  }

  /** How many of the first refs belong to the other unique index: (project, node) and (document, version). */
  function SecondLinks(t: Table): (n: nat)
    ensures n <= |Links(t)|
  {
    match t
    case EditorDocuments => 1
    case EditorRevisions => 1
    case _ => 0
  }

  /** The tables that others refer to. */
  predicate IsEntity(t: Table) {
    t == Projects || t == Assets || t == EditorDocuments || t == Jobs
  }

  function PublicId(name: string): Column {
    Text(name, 64)
  }

  const TEXT_KIND := Text("text", 16)

  /** CHECK (asset_id <> parent_asset_id), and CHECK (a library item has no asset exactly when its kind is text). */
  predicate Checks(t: Table, row: Row) {
    && (t == AssetParents && |row.refs| == 2 ==> row.refs[0] != row.refs[1])
    && (t == LibraryItems && |row.refs| == 1 && row.body != [] ==> (row.refs[0].None? <==> row.body[0] == Value(TEXT_KIND)))
  }

  predicate ColumnsOfHold(row: Row) {
    ColumnsHold(row.key) && (row.second.Some? ==> ColumnsHold(row.second.value)) && ColumnsHold(LoadAll(row.body))
  }

  predicate Holds(t: Table, row: Row) {
    ColumnsOfHold(row) && Checks(t, row)
  }

  predicate SameKey(t: Table, a: Row, b: Row) {
    && |a.refs| == |b.refs| == |Links(t)|
    && a.refs[..KeyLinks(t)] == b.refs[..KeyLinks(t)] && a.key == b.key
  }

  predicate SameSecond(t: Table, a: Row, b: Row) {
    && |a.refs| == |b.refs| == |Links(t)|
    && a.second.Some? && a.refs[..SecondLinks(t)] == b.refs[..SecondLinks(t)] && a.second == b.second
  }

  predicate HasKey(t: Table, rows: seq<Row>, row: Row) {
    exists i :: 0 <= i < |rows| && SameKey(t, rows[i], row)
  }

  predicate HasSecond(t: Table, rows: seq<Row>, row: Row) {
    exists i :: 0 <= i < |rows| && SameSecond(t, rows[i], row)
  }

  // ---------- Statements ----------

  /** SELECT id WHERE public_id = name */
  function Lookup(rows: seq<Row>, name: string): (r: Option<nat>)
    ensures r.Some? ==> r.value < |rows| && rows[r.value].key == [PublicId(name)]
    ensures r.None? ==> forall i :: 0 <= i < |rows| ==> rows[i].key != [PublicId(name)]
  {
    if rows == [] then None
    else
      var last := |rows| - 1;
      if rows[last].key == [PublicId(name)] then Some(last) else Lookup(rows[..last], name)
  }

  function ResolveRef(db: Db, link: Link, name: string): Option<nat> {
    if !link.required && name == "" then None else Lookup(db[link.table], name)
  }

  function Resolve(db: Db, t: Table, refs: seq<string>): seq<Option<nat>>
    requires |refs| == |Links(t)|
  {
    seq(|refs|, i requires 0 <= i < |refs| => ResolveRef(db, Links(t)[i], refs[i]))
  }

  /** The join yields a row. */
  predicate Joined(t: Table, ids: seq<Option<nat>>)
    requires |ids| == |Links(t)|
  {
    forall i :: 0 <= i < |ids| && Links(t)[i].required ==> ids[i].Some?
  }

  predicate Shaped(t: Table, item: Item) {
    |item.refs| == |Links(t)|
  }

  function RowOf(db: Db, t: Table, item: Item): Row
    requires Shaped(t, item)
  {
    Row(Resolve(db, t, item.refs), item.key, item.second, StoreAll(item.body))
  }

  /** INSERT ... SELECT ... ON CONFLICT (key) DO NOTHING; None is an error, which ends the transaction. */
  function Insert(db: Db, t: Table, item: Item): Option<Db>
    requires Shaped(t, item)
  {
    var row := RowOf(db, t, item);
    if !Joined(t, row.refs) then Some(db)
    else if !Holds(t, row) then None
    else if HasKey(t, db[t], row) then Some(db)
    else if HasSecond(t, db[t], row) then None
    else Some(db[t := db[t] + [row]])
  }

  /** UPDATE canvas_projects SET thumbnail_asset_id = (SELECT ...) WHERE public_id = project */
  function SetThumbnail(db: Db, project: string, asset: string): Db {
    var id := Lookup(db[Assets], asset);
    db[Projects := seq(|db[Projects]|, i requires 0 <= i < |db[Projects]| =>
      if db[Projects][i].key == [PublicId(project)] then db[Projects][i].(refs := [id]) else db[Projects][i])]
  }

  // ---------- Reading back ----------

  function NameOf(rows: seq<Row>, id: Option<nat>): string {
    if id.Some? && id.value < |rows| && |rows[id.value].key| == 1 && rows[id.value].key[0].Text? then rows[id.value].key[0].text
    else ""
  }

  function ReadRow(db: Db, t: Table, row: Row): Item {
    Item(seq(|row.refs|, i requires 0 <= i < |row.refs| =>
           if i < |Links(t)| then NameOf(db[Links(t)[i].table], row.refs[i]) else ""),
         row.key, row.second, LoadAll(row.body))
  }

  function Read(db: Db, t: Table): seq<Item> {
    seq(|db[t]|, i requires 0 <= i < |db[t]| => ReadRow(db, t, db[t][i]))
  }

  /** The first instant of the year 10000. */
  const YEAR_10000: int := 315_537_897_600 * 1_000_000_000

  /** A time that the reading query prints in the format of the export, in UTC, and that can be printed again. */
  predicate Printable(c: Column) {
    c.Time? && c.at.Some? ==> 0 <= c.at.value < YEAR_10000
  }

  predicate AllPrintable(items: seq<Item>) {
    forall item :: item in items ==> forall c :: c in item.body ==> Printable(c)
  }

  // ---------- What the schema guarantees ----------

  ghost predicate RowOk(db: Db, t: Table, row: Row) {
    && |row.refs| == |Links(t)|
    && (forall i :: 0 <= i < |row.refs| ==> RefOk(db, Links(t)[i], row.refs[i]))
    && (IsEntity(t) ==> exists name :: name != "" && row.key == [PublicId(name)])
  }

  ghost predicate RefOk(db: Db, link: Link, id: Option<nat>) {
    && (id.Some? ==> id.value < |db[link.table]|)
    && (link.required ==> id.Some?)
  }

  ghost predicate RowsOk(db: Db, t: Table) {
    forall i :: 0 <= i < |db[t]| ==> RowOk(db, t, db[t][i])
  }

  ghost predicate KeysOk(t: Table, rows: seq<Row>) {
    forall i, j :: 0 <= i < j < |rows| ==> !SameKey(t, rows[i], rows[j])
  }

  /** Foreign keys lead to rows, public ids are not empty, and primary keys are unique. */
  ghost predicate DbOk(db: Db) {
    forall t: Table :: RowsOk(db, t) && KeysOk(t, db[t])
  }

  /** Every value is one its column holds. */
  ghost predicate ColumnsOk(db: Db) {
    forall t: Table, i :: 0 <= i < |db[t]| ==> ColumnsOfHold(db[t][i])
  }

  lemma InsertKeepsColumns(db: Db, t: Table, item: Item)
    requires ColumnsOk(db) && Shaped(t, item) && Insert(db, t, item).Some?
    ensures ColumnsOk(Insert(db, t, item).value)
  {
  }

  // ---------- The statements on rows as they are read ----------

  /** The item as it will read once stored. */
  function AsRead(item: Item): Item {
    item.(body := LoadAll(StoreAll(item.body)))
  }

  predicate ChecksItem(t: Table, item: Item) {
    && (t == AssetParents && |item.refs| == 2 ==> item.refs[0] != item.refs[1])
    && (t == LibraryItems && |item.refs| == 1 && item.body != [] ==> (item.refs[0] == "" <==> item.body[0] == TEXT_KIND))
  }

  predicate HoldsItem(t: Table, item: Item) {
    && ColumnsHold(item.key) && (item.second.Some? ==> ColumnsHold(item.second.value)) && ColumnsHold(LoadAll(StoreAll(item.body)))
    && ChecksItem(t, item)
  }

  predicate SameItemKey(t: Table, a: Item, b: Item) {
    && |a.refs| == |b.refs| == |Links(t)|
    && a.refs[..KeyLinks(t)] == b.refs[..KeyLinks(t)] && a.key == b.key
  }

  predicate SameItemSecond(t: Table, a: Item, b: Item) {
    && |a.refs| == |b.refs| == |Links(t)|
    && a.second.Some? && a.refs[..SecondLinks(t)] == b.refs[..SecondLinks(t)] && a.second == b.second
  }

  predicate KnownKey(t: Table, view: seq<Item>, item: Item) {
    exists i :: 0 <= i < |view| && SameItemKey(t, view[i], item)
  }

  predicate KnownSecond(t: Table, view: seq<Item>, item: Item) {
    exists i :: 0 <= i < |view| && SameItemSecond(t, view[i], item)
  }

  function Merge(t: Table, view: seq<Item>, item: Item): Option<seq<Item>> {
    if !HoldsItem(t, item) then None
    else if KnownKey(t, view, item) then Some(view)
    else if KnownSecond(t, view, item) then None
    else Some(view + [AsRead(item)])
  }

  predicate Named(view: seq<Item>, name: string) {
    exists i :: 0 <= i < |view| && view[i].key == [PublicId(name)]
  }

  /** Every referent of the item can be read. */
  predicate Resolvable(db: Db, t: Table, item: Item) {
    && Shaped(t, item)
    && forall i :: 0 <= i < |item.refs| ==> RefResolves(db, Links(t)[i], item.refs[i])
  }

  predicate RefResolves(db: Db, link: Link, name: string) {
    if name == "" then !link.required else Named(Read(db, link.table), name)
  }

  predicate WellNamed(t: Table, item: Item) {
    IsEntity(t) ==> |item.key| == 1 && item.key[0].Text? && item.key[0].text != "" && item.key == [PublicId(item.key[0].text)]
  }

  function MergeThumbnail(view: seq<Item>, project: string, asset: string): seq<Item> {
    seq(|view|, i requires 0 <= i < |view| =>
      if view[i].key == [PublicId(project)] then view[i].(refs := [asset]) else view[i])
  }

  // ---------- Refinement ----------

  /** Surrogate ids stand one for one for public ids. */
  lemma SameName(db: Db, link: Link, a: Option<nat>, b: Option<nat>)
    requires DbOk(db) && IsEntity(link.table) && RefOk(db, link, a) && RefOk(db, link, b)
    ensures NameOf(db[link.table], a) == NameOf(db[link.table], b) <==> a == b
    ensures NameOf(db[link.table], a) == "" <==> a.None?
  {
    var rows := db[link.table];
    assert RowsOk(db, link.table) && KeysOk(link.table, rows);
    if a.Some? {
      assert RowOk(db, link.table, rows[a.value]);
    }
    if b.Some? {
      assert RowOk(db, link.table, rows[b.value]);
    }
    if a.Some? && b.Some? && a != b {
      EntityKey(link.table);
      DifferentKeys(link.table, rows, a.value, b.value);
    }
  }

  lemma DifferentKeys(t: Table, rows: seq<Row>, a: nat, b: nat)
    requires KeysOk(t, rows) && KeyLinks(t) == 0 && a < |rows| && b < |rows| && a != b
    requires |rows[a].refs| == |rows[b].refs| == |Links(t)|
    ensures rows[a].key != rows[b].key
  {
    assert a < b ==> !SameKey(t, rows[a], rows[b]);
    assert b < a ==> !SameKey(t, rows[b], rows[a]);
  }

  lemma EntityKey(t: Table)
    requires IsEntity(t)
    ensures KeyLinks(t) == 0
  {
  }

  lemma LinksAreEntities(t: Table)
    ensures forall i :: 0 <= i < |Links(t)| ==> IsEntity(Links(t)[i].table)
  {
  }

  lemma SamePrefix<A, B>(a: seq<A>, b: seq<A>, x: seq<B>, y: seq<B>, n: nat)
    requires |a| == |b| == |x| == |y| && n <= |a|
    requires forall i :: 0 <= i < n ==> (x[i] == y[i] <==> a[i] == b[i])
    ensures a[..n] == b[..n] <==> x[..n] == y[..n]
  {
    if a[..n] == b[..n] {
      forall i | 0 <= i < n ensures x[i] == y[i] { assert a[..n][i] == b[..n][i]; }
    }
    if x[..n] == y[..n] {
      forall i | 0 <= i < n ensures a[i] == b[i] { assert x[..n][i] == y[..n][i]; }
    }
  }

  /** The same for the first refs of two rows. */
  lemma SameNames(db: Db, t: Table, a: Row, b: Row, n: nat)
    requires DbOk(db) && RowOk(db, t, a) && RowOk(db, t, b) && n <= |Links(t)|
    ensures a.refs[..n] == b.refs[..n] <==> ReadRow(db, t, a).refs[..n] == ReadRow(db, t, b).refs[..n]
  {
    LinksAreEntities(t);
    var links, x, y := Links(t), ReadRow(db, t, a).refs, ReadRow(db, t, b).refs;
    forall i | 0 <= i < n
      ensures x[i] == y[i] <==> a.refs[i] == b.refs[i]
    {
      SameName(db, links[i], a.refs[i], b.refs[i]);
    }
    SamePrefix(a.refs, b.refs, x, y, n);
  }

  lemma SameRowKey(db: Db, t: Table, a: Row, b: Row)
    requires DbOk(db) && RowOk(db, t, a) && RowOk(db, t, b)
    ensures SameKey(t, a, b) <==> SameItemKey(t, ReadRow(db, t, a), ReadRow(db, t, b))
    ensures SameSecond(t, a, b) <==> SameItemSecond(t, ReadRow(db, t, a), ReadRow(db, t, b))
  {
    SameNames(db, t, a, b, KeyLinks(t));
    SameNames(db, t, a, b, SecondLinks(t));
  }

  lemma HasKeyIsKnown(db: Db, t: Table, row: Row)
    requires DbOk(db) && RowOk(db, t, row)
    ensures HasKey(t, db[t], row) <==> KnownKey(t, Read(db, t), ReadRow(db, t, row))
    ensures HasSecond(t, db[t], row) <==> KnownSecond(t, Read(db, t), ReadRow(db, t, row))
  {
    assert RowsOk(db, t);
    forall i | 0 <= i < |db[t]|
      ensures SameKey(t, db[t][i], row) <==> SameItemKey(t, Read(db, t)[i], ReadRow(db, t, row))
      ensures SameSecond(t, db[t][i], row) <==> SameItemSecond(t, Read(db, t)[i], ReadRow(db, t, row))
    {
      SameRowKey(db, t, db[t][i], row);
    }
  }

  /** A resolvable reference resolves to the row it names. */
  lemma ResolvesBack(db: Db, link: Link, name: string)
    requires DbOk(db) && RefResolves(db, link, name)
    ensures var id := ResolveRef(db, link, name); RefOk(db, link, id) && NameOf(db[link.table], id) == name
  {
    if name != "" {
      var i :| 0 <= i < |Read(db, link.table)| && Read(db, link.table)[i].key == [PublicId(name)];
      assert db[link.table][i].key == [PublicId(name)];
    }
  }

  lemma RowReadsBack(db: Db, t: Table, item: Item)
    requires DbOk(db) && Resolvable(db, t, item) && WellNamed(t, item)
    ensures RowOk(db, t, RowOf(db, t, item)) && Joined(t, RowOf(db, t, item).refs)
    ensures ReadRow(db, t, RowOf(db, t, item)) == AsRead(item)
  {
    var row := RowOf(db, t, item);
    forall i | 0 <= i < |item.refs|
      ensures RefOk(db, Links(t)[i], row.refs[i]) && NameOf(db[Links(t)[i].table], row.refs[i]) == item.refs[i]
    {
      ResolvesBack(db, Links(t)[i], item.refs[i]);
    }
    assert ReadRow(db, t, row).refs == item.refs;
  }

  lemma ChecksAgree(db: Db, t: Table, item: Item)
    requires DbOk(db) && Resolvable(db, t, item) && WellNamed(t, item)
    ensures Holds(t, RowOf(db, t, item)) <==> HoldsItem(t, item)
  {
    var row := RowOf(db, t, item);
    RowReadsBack(db, t, item);
    assert ReadRow(db, t, row).refs == item.refs;
    if t == AssetParents {
      SameName(db, Links(t)[0], row.refs[0], row.refs[1]);
    } else if t == LibraryItems {
      SameName(db, Links(t)[0], row.refs[0], row.refs[0]);
    }
  }

  // ---------- A longer table ----------

  /** A table with one more row at its end. */
  function Grown(db: Db, t: Table, row: Row): Db {
    db[t := db[t] + [row]]
  }

  lemma NamesStay(db: Db, t: Table, row: Row, u: Table, r: Row)
    requires RowOk(db, u, r)
    ensures ReadRow(Grown(db, t, row), u, r) == ReadRow(db, u, r) && RowOk(Grown(db, t, row), u, r)
  {
    var db' := Grown(db, t, row);
    forall i | 0 <= i < |r.refs|
      ensures NameOf(db'[Links(u)[i].table], r.refs[i]) == NameOf(db[Links(u)[i].table], r.refs[i])
      ensures RefOk(db', Links(u)[i], r.refs[i])
    {
      assert RefOk(db, Links(u)[i], r.refs[i]);
    }
  }

  lemma OthersStay(db: Db, t: Table, row: Row, u: Table)
    requires RowsOk(db, u) && u != t
    ensures Read(Grown(db, t, row), u) == Read(db, u) && RowsOk(Grown(db, t, row), u)
  {
    forall i | 0 <= i < |db[u]|
      ensures ReadRow(Grown(db, t, row), u, db[u][i]) == ReadRow(db, u, db[u][i])
      ensures RowOk(Grown(db, t, row), u, db[u][i])
    {
      NamesStay(db, t, row, u, db[u][i]);
    }
  }

  lemma OneMoreRow(db: Db, t: Table, row: Row)
    requires RowsOk(db, t) && RowOk(db, t, row)
    ensures Read(Grown(db, t, row), t) == Read(db, t) + [ReadRow(db, t, row)] && RowsOk(Grown(db, t, row), t)
  {
    var db' := Grown(db, t, row);
    forall i | 0 <= i < |db'[t]|
      ensures ReadRow(db', t, db'[t][i]) == ReadRow(db, t, db'[t][i]) && RowOk(db', t, db'[t][i])
    {
      assert RowOk(db, t, db'[t][i]);
      NamesStay(db, t, row, t, db'[t][i]);
    }
  }

  lemma KeysStayDistinct(t: Table, rows: seq<Row>, row: Row)
    requires KeysOk(t, rows) && !HasKey(t, rows, row)
    ensures KeysOk(t, rows + [row])
  {
  }

  lemma GrownTableOk(db: Db, t: Table, row: Row, u: Table)
    requires RowsOk(db, u) && KeysOk(u, db[u]) && RowOk(db, t, row) && !HasKey(t, db[t], row)
    ensures RowsOk(Grown(db, t, row), u) && KeysOk(u, Grown(db, t, row)[u])
  {
    if u == t {
      OneMoreRow(db, t, row);
      KeysStayDistinct(t, db[t], row);
      assert Grown(db, t, row)[u] == db[t] + [row];
    } else {
      OthersStay(db, t, row, u);
      assert Grown(db, t, row)[u] == db[u];
    }
  }

  lemma GrownOk(db: Db, t: Table, row: Row)
    requires DbOk(db) && RowOk(db, t, row) && !HasKey(t, db[t], row)
    ensures DbOk(Grown(db, t, row))
  {
    forall u: Table
      ensures RowsOk(Grown(db, t, row), u) && KeysOk(u, Grown(db, t, row)[u])
    {
      GrownTableOk(db, t, row, u);
    }
  }

  lemma GrownReads(db: Db, t: Table, row: Row)
    requires DbOk(db) && RowOk(db, t, row)
    ensures Changed(db, Grown(db, t, row), t, Read(db, t) + [ReadRow(db, t, row)])
  {
    assert RowsOk(db, t);
    OneMoreRow(db, t, row);
    forall u: Table | u != t
      ensures Read(Grown(db, t, row), u) == Read(db, u)
    {
      assert RowsOk(db, u);
      OthersStay(db, t, row, u);
    }
  }

  /** Only one table reads differently. */
  ghost predicate Changed(db: Db, db': Db, t: Table, view: seq<Item>) {
    Read(db', t) == view && forall u: Table :: u != t ==> Read(db', u) == Read(db, u)
  }

  // ---------- The refinement ----------

  /**
   For an item whose referents can be read, the statement does to the table what the merge does to the
   rows as they are read, down to the error, and it does nothing to any other table.
  */
  lemma InsertRefines(db: Db, t: Table, item: Item)
    requires DbOk(db) && Resolvable(db, t, item) && WellNamed(t, item)
    ensures var db', view' := Insert(db, t, item), Merge(t, Read(db, t), item);
            && (db'.None? <==> view'.None?)
            && (db'.Some? ==> DbOk(db'.value) && Changed(db, db'.value, t, view'.value))
  {
    var row := RowOf(db, t, item);
    RowReadsBack(db, t, item);
    ChecksAgree(db, t, item);
    HasKeyIsKnown(db, t, row);
    SameAsRead(t, Read(db, t), item);
    if !HasKey(t, db[t], row) {
      GrownOk(db, t, row);
      GrownReads(db, t, row);
    }
  }

  lemma SameAsRead(t: Table, view: seq<Item>, item: Item)
    ensures KnownKey(t, view, AsRead(item)) <==> KnownKey(t, view, item)
    ensures KnownSecond(t, view, AsRead(item)) <==> KnownSecond(t, view, item)
  {
    forall i | 0 <= i < |view|
      ensures SameItemKey(t, view[i], AsRead(item)) <==> SameItemKey(t, view[i], item)
      ensures SameItemSecond(t, view[i], AsRead(item)) <==> SameItemSecond(t, view[i], item)
    {
    }
  }

  /** Without a referent the statement succeeds and stores nothing. */
  lemma MissingReferentIsSilent(db: Db, t: Table, item: Item, i: nat)
    requires Shaped(t, item) && i < |item.refs| && Links(t)[i].required && !Named(Read(db, Links(t)[i].table), item.refs[i])
    ensures Insert(db, t, item) == Some(db)
  {
    var u := Links(t)[i].table;
    forall j | 0 <= j < |db[u]|
      ensures db[u][j].key != [PublicId(item.refs[i])]
    {
      assert Read(db, u)[j].key == db[u][j].key;
    }
    assert RowOf(db, t, item).refs[i].None?;
  }

  /** A row that shares its second unique index with another one, and not its key, is an error. */
  lemma TakenSecondFails(db: Db, t: Table, item: Item, i: nat)
    requires DbOk(db) && Resolvable(db, t, item) && WellNamed(t, item) && i < |db[t]|
    requires forall j :: 0 <= j < |db[t]| ==> !SameItemKey(t, Read(db, t)[j], item)
    requires item.second.Some? && Read(db, t)[i].second == item.second
    requires forall k :: 0 <= k < SecondLinks(t) && k < |Read(db, t)[i].refs| ==> Read(db, t)[i].refs[k] == item.refs[k]
    ensures Insert(db, t, item).None?
  {
    hide Insert, DbOk, Resolvable, SameItemKey, SameItemSecond, HoldsItem, WellNamed, Read;
    assert Shaped(t, item) by { ResolvableIsShaped(db, t, item); }
    InsertRefines(db, t, item);
    SharesSecond(db, t, item, i);
    assert |Read(db, t)| == |db[t]| by { SameLength(db, t); }
    assert !KnownKey(t, Read(db, t), item);
    assert KnownSecond(t, Read(db, t), item);
  }

  lemma ResolvableIsShaped(db: Db, t: Table, item: Item)
    requires Resolvable(db, t, item)
    ensures Shaped(t, item)
  {
  }

  lemma SameLength(db: Db, t: Table)
    ensures |Read(db, t)| == |db[t]|
  {
  }

  lemma SharesSecond(db: Db, t: Table, item: Item, i: nat)
    requires DbOk(db) && Shaped(t, item) && i < |db[t]| && item.second.Some? && Read(db, t)[i].second == item.second
    requires forall k :: 0 <= k < SecondLinks(t) && k < |Read(db, t)[i].refs| ==> Read(db, t)[i].refs[k] == item.refs[k]
    ensures i < |Read(db, t)| && SameItemSecond(t, Read(db, t)[i], item)
  {
    hide KeysOk;
    assert RowsOk(db, t) && RowOk(db, t, db[t][i]);
    assert Read(db, t)[i].refs[..SecondLinks(t)] == item.refs[..SecondLinks(t)];
  }

  lemma ThumbnailRefines(db: Db, project: string, asset: string)
    requires DbOk(db) && Named(Read(db, Assets), asset) && asset != ""
    ensures DbOk(SetThumbnail(db, project, asset))
    ensures Changed(db, SetThumbnail(db, project, asset), Projects, MergeThumbnail(Read(db, Projects), project, asset))
  {
    var db' := SetThumbnail(db, project, asset);
    assert RefResolves(db, Link(Assets, false), asset);
    ResolvesBack(db, Link(Assets, false), asset);
    forall u: Table
      ensures RowsOk(db', u)
      ensures Read(db', u) == if u == Projects then MergeThumbnail(Read(db, u), project, asset) else Read(db, u)
    {
      assert RowsOk(db, u);
      ThumbnailReads(db, project, asset, u);
    }
    ThumbnailKeys(db, project, asset);
  }

  lemma ThumbnailKeys(db: Db, project: string, asset: string)
    requires DbOk(db)
    ensures forall u: Table :: KeysOk(u, SetThumbnail(db, project, asset)[u])
  {
    var db' := SetThumbnail(db, project, asset);
    forall u: Table
      ensures KeysOk(u, db'[u])
    {
      assert RowsOk(db, u) && KeysOk(u, db[u]);
      if u == Projects {
        forall i | 0 <= i < |db[u]| ensures |db[u][i].refs| == 1 { assert RowOk(db, u, db[u][i]); }
        KeysStay(db[u], db'[u]);
      }
    }
  }

  lemma KeysStay(rows: seq<Row>, rows': seq<Row>)
    requires |rows| == |rows'| && KeysOk(Projects, rows)
    requires forall i :: 0 <= i < |rows| ==> rows'[i].key == rows[i].key && |rows[i].refs| == 1
    ensures KeysOk(Projects, rows')
  {
    forall i, j | 0 <= i < j < |rows'|
      ensures !SameKey(Projects, rows'[i], rows'[j])
    {
      assert !SameKey(Projects, rows[i], rows[j]);
      assert rows[i].refs[..0] == rows[j].refs[..0];
    }
  }

  lemma ThumbnailReads(db: Db, project: string, asset: string, u: Table)
    requires RowsOk(db, u)
    requires Lookup(db[Assets], asset).Some? && NameOf(db[Assets], Lookup(db[Assets], asset)) == asset
    ensures RowsOk(SetThumbnail(db, project, asset), u)
    ensures Read(SetThumbnail(db, project, asset), u)
         == if u == Projects then MergeThumbnail(Read(db, u), project, asset) else Read(db, u)
  {
    var db' := SetThumbnail(db, project, asset);
    forall i | 0 <= i < |db[u]|
      ensures RowOk(db', u, db'[u][i])
      ensures Read(db', u)[i] == if u == Projects then MergeThumbnail(Read(db, u), project, asset)[i] else Read(db, u)[i]
    {
      SameNamesAfter(db, db', u, db[u][i]);
    }
  }

  /** Changed refs of projects change no name. */
  lemma SameNamesAfter(db: Db, db': Db, u: Table, row: Row)
    requires RowOk(db, u, row)
    requires forall v: Table :: |db'[v]| == |db[v]| && forall i :: 0 <= i < |db[v]| ==> db'[v][i].key == db[v][i].key
    ensures RowOk(db', u, row) && ReadRow(db', u, row) == ReadRow(db, u, row)
  {
    forall i | 0 <= i < |row.refs|
      ensures RefOk(db', Links(u)[i], row.refs[i])
      ensures NameOf(db'[Links(u)[i].table], row.refs[i]) == NameOf(db[Links(u)[i].table], row.refs[i])
    {
      assert RefOk(db, Links(u)[i], row.refs[i]);
    }
  }
}
