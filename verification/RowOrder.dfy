/**
 ORDER BY: the rows of a table as the reading queries list them. Texts are compared in the order of the
 target's collation, which is given from outside; it is any total order.
*/
module RowOrder {
  import opened Relational

  ghost predicate IsOrder(le: (string, string) -> bool) {
    && (forall a, b :: le(a, b) || le(b, a))
    && (forall a, b :: le(a, b) && le(b, a) ==> a == b)
    && (forall a, b, c :: le(a, b) && le(b, c) ==> le(a, c))
  }

  /** What a table is sorted by: the names in its key, then the values in it. */
  function SortKey(t: Table, item: Item): seq<Column> {
    var n := if KeyLinks(t) <= |item.refs| then KeyLinks(t) else |item.refs|;
    seq(n, i requires 0 <= i < n => PublicId(item.refs[i])) + item.key
  }

  function Rank(c: Column): nat {
    if c.Text? then 0 else if c.Integer? then 1 else 2
  }

  predicate ColumnUpTo(le: (string, string) -> bool, a: Column, b: Column) {
    if a.Text? && b.Text? then le(a.text, b.text)
    else if a.Integer? && b.Integer? then a.number <= b.number
    else Rank(a) <= Rank(b)
  }

  predicate KeyUpTo(le: (string, string) -> bool, a: seq<Column>, b: seq<Column>) {
    if a == [] then true
    else if b == [] then false
    else ColumnUpTo(le, a[0], b[0]) && (ColumnUpTo(le, b[0], a[0]) ==> KeyUpTo(le, a[1..], b[1..]))
  }

  predicate UpTo(le: (string, string) -> bool, t: Table, a: Item, b: Item) {
    KeyUpTo(le, SortKey(t, a), SortKey(t, b))
  }

  predicate Ascending(le: (string, string) -> bool, t: Table, rows: seq<Item>) {
    forall i, j :: 0 <= i < j < |rows| ==> UpTo(le, t, rows[i], rows[j])
  }

  function Placed(le: (string, string) -> bool, t: Table, item: Item, rows: seq<Item>): seq<Item> {
    if rows == [] then [item]
    else if UpTo(le, t, item, rows[0]) then [item] + rows
    else [rows[0]] + Placed(le, t, item, rows[1..])
  }

  function Ordered(le: (string, string) -> bool, t: Table, rows: seq<Item>): seq<Item> {
    if rows == [] then [] else Placed(le, t, rows[0], Ordered(le, t, rows[1..]))
  }

  lemma {:induction false} KeyTotal(le: (string, string) -> bool, a: seq<Column>, b: seq<Column>)
    requires IsOrder(le)
    ensures KeyUpTo(le, a, b) || KeyUpTo(le, b, a)
  {
    if a != [] && b != [] {
      KeyTotal(le, a[1..], b[1..]);
    }
  }

  lemma {:induction false} KeyTransitive(le: (string, string) -> bool, a: seq<Column>, b: seq<Column>, c: seq<Column>)
    requires IsOrder(le) && KeyUpTo(le, a, b) && KeyUpTo(le, b, c)
    ensures KeyUpTo(le, a, c)
  {
    if a != [] {
      ColumnTransitive(le, a[0], b[0], c[0]);
      if ColumnUpTo(le, c[0], a[0]) {
        ColumnTransitive(le, c[0], a[0], b[0]);
        ColumnTransitive(le, b[0], c[0], a[0]);
        KeyTransitive(le, a[1..], b[1..], c[1..]);
      }
    }
  }

  lemma ColumnTransitive(le: (string, string) -> bool, a: Column, b: Column, c: Column)
    requires IsOrder(le) && ColumnUpTo(le, a, b) && ColumnUpTo(le, b, c)
    ensures ColumnUpTo(le, a, c)
  {
  }

  lemma {:induction false} PlacedPermutes(le: (string, string) -> bool, t: Table, item: Item, rows: seq<Item>)
    ensures multiset(Placed(le, t, item, rows)) == multiset(rows) + multiset{item}
  {
    hide UpTo;
    if rows != [] {
      assert rows == [rows[0]] + rows[1..];
      PlacedPermutes(le, t, item, rows[1..]);
    }
  }

  lemma FirstAscends(le: (string, string) -> bool, t: Table, item: Item, rows: seq<Item>)
    requires Ascending(le, t, rows) && forall r :: r in rows ==> UpTo(le, t, item, r)
    ensures Ascending(le, t, [item] + rows)
  {
    hide UpTo;
  }

  lemma BelowAll(le: (string, string) -> bool, t: Table, item: Item, rows: seq<Item>)
    requires IsOrder(le) && rows != [] && UpTo(le, t, item, rows[0]) && Ascending(le, t, rows)
    ensures forall r :: r in rows ==> UpTo(le, t, item, r)
  {
    hide KeyUpTo, IsOrder, SortKey;
    forall j | 0 <= j < |rows| ensures UpTo(le, t, item, rows[j]) {
      if j > 0 {
        assert UpTo(le, t, rows[0], rows[j]);
        KeyTransitive(le, SortKey(t, item), SortKey(t, rows[0]), SortKey(t, rows[j]));
      }
    }
  }

  lemma Either(le: (string, string) -> bool, t: Table, a: Item, b: Item)
    requires IsOrder(le)
    ensures UpTo(le, t, a, b) || UpTo(le, t, b, a)
  {
    KeyTotal(le, SortKey(t, a), SortKey(t, b));
  }

  lemma PlacedFrom(le: (string, string) -> bool, t: Table, item: Item, rows: seq<Item>, r: Item)
    requires r in Placed(le, t, item, rows)
    ensures r == item || r in rows
  {
    PlacedPermutes(le, t, item, rows);
    assert r in multiset(Placed(le, t, item, rows));
  }

  lemma {:induction false} PlacedAscends(le: (string, string) -> bool, t: Table, item: Item, rows: seq<Item>)
    requires IsOrder(le) && Ascending(le, t, rows)
    ensures Ascending(le, t, Placed(le, t, item, rows))
  {
    hide UpTo, IsOrder;
    if rows == [] {
    } else if UpTo(le, t, item, rows[0]) {
      BelowAll(le, t, item, rows);
      FirstAscends(le, t, item, rows);
    } else {
      var rest := Placed(le, t, item, rows[1..]);
      PlacedAscends(le, t, item, rows[1..]);
      Either(le, t, item, rows[0]);
      forall r | r in rest ensures UpTo(le, t, rows[0], r) {
        PlacedFrom(le, t, item, rows[1..], r);
      }
      FirstAscends(le, t, rows[0], rest);
    }
  }

  /** Sorting sorts, and neither loses nor adds a row. */
  lemma {:induction false} OrderedAscends(le: (string, string) -> bool, t: Table, rows: seq<Item>)
    requires IsOrder(le)
    ensures multiset(Ordered(le, t, rows)) == multiset(rows) && Ascending(le, t, Ordered(le, t, rows))
  {
    if rows != [] {
      OrderedAscends(le, t, rows[1..]);
      PlacedAscends(le, t, rows[0], Ordered(le, t, rows[1..]));
      PlacedPermutes(le, t, rows[0], Ordered(le, t, rows[1..]));
      assert rows == [rows[0]] + rows[1..];
    }
  }

  lemma {:induction false} AscendingStays(le: (string, string) -> bool, t: Table, rows: seq<Item>)
    requires Ascending(le, t, rows)
    ensures Ordered(le, t, rows) == rows
  {
    if rows != [] {
      AscendingStays(le, t, rows[1..]);
      assert rows == [rows[0]] + rows[1..];
    }
  }

  /** Rows with the keys of others are listed as those just when they are those, in the order of the keys. */
  lemma ListedAs(le: (string, string) -> bool, t: Table, rows: seq<Item>, items: seq<Item>)
    requires IsOrder(le) && |rows| == |items| && forall i :: 0 <= i < |rows| ==> SortKey(t, rows[i]) == SortKey(t, items[i])
    ensures Ordered(le, t, rows) == items <==> rows == items && Ascending(le, t, items)
  {
    OrderedAscends(le, t, rows);
    if Ordered(le, t, rows) == items {
      forall i, j | 0 <= i < j < |rows| ensures UpTo(le, t, rows[i], rows[j]) {
        assert UpTo(le, t, items[i], items[j]);
      }
    }
    if Ascending(le, t, rows) {
      AscendingStays(le, t, rows);
    }
  }
}
