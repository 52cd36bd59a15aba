/**
 Fitting the nodes of a canvas into the viewport, over the reals. A number that is not finite is None.
*/
module Viewport {
  import opened Wrappers

  datatype Node = Node(x: Option<real>, y: Option<real>, width: Option<real>, height: Option<real>)

  datatype Rect = Rect(minX: real, minY: real, maxX: real, maxY: real)

  /** k scales, x and y shift. */
  datatype Transform = Transform(x: real, y: real, k: real)

  function Min(a: real, b: real): real { if a < b then a else b }

  function Max(a: real, b: real): real { if a > b then a else b }

  function Clamp(value: real, min: real, max: real): real {
    Min(Max(value, min), max)
  }

  function FiniteNonNegative(value: Option<real>): real {
    if value.Some? then Max(0.0, value.value) else 0.0
  }

  function FiniteNumber(value: Option<real>, fallback: real): real {
    value.GetOr(fallback)
  }

  predicate Finite(n: Node) {
    n.x.Some? && n.y.Some? && n.width.Some? && n.height.Some?
  }

  /** The area of a node; a negative extent is one to the other side. */
  function Area(n: Node): Rect
    requires Finite(n)
  {
    var x, y, x2, y2 := n.x.value, n.y.value, n.x.value + n.width.value, n.y.value + n.height.value;
    Rect(Min(x, x2), Min(y, y2), Max(x, x2), Max(y, y2))
  }

  predicate Within(inner: Rect, outer: Rect) {
    outer.minX <= inner.minX && outer.minY <= inner.minY && inner.maxX <= outer.maxX && inner.maxY <= outer.maxY
  }

  /** Every side of the bounds is reached by some node. */
  ghost predicate Tight(nodes: seq<Node>, bounds: Rect) {
    && (exists n :: n in nodes && Finite(n) && Area(n).minX == bounds.minX)
    && (exists n :: n in nodes && Finite(n) && Area(n).minY == bounds.minY)
    && (exists n :: n in nodes && Finite(n) && Area(n).maxX == bounds.maxX)
    && (exists n :: n in nodes && Finite(n) && Area(n).maxY == bounds.maxY)
  }

  /** The least area around all finite nodes. */
  ghost predicate Bounds(nodes: seq<Node>, bounds: Option<Rect>) {
    match bounds
    case None => forall n :: n in nodes ==> !Finite(n)
    case Some(b) => Tight(nodes, b) && forall n :: n in nodes && Finite(n) ==> Within(Area(n), b)
  }

  function Union(b: Rect, a: Rect): Rect {
    Rect(Min(b.minX, a.minX), Min(b.minY, a.minY), Max(b.maxX, a.maxX), Max(b.maxY, a.maxY))
  }

  lemma TightGrows(nodes: seq<Node>, n: Node, b: Rect)
    requires Finite(n) && (Tight(nodes, b) || b == Area(n))
    ensures Tight(nodes + [n], Union(b, Area(n)))
  {
    assert forall m :: m in nodes + [n] <==> m in nodes || m == n;
  }

  lemma BoundsGrow(nodes: seq<Node>, n: Node, bounds: Option<Rect>)
    requires Bounds(nodes, bounds)
    ensures Bounds(nodes + [n], if Finite(n) then Some(Union(bounds.GetOr(Area(n)), Area(n))) else bounds)
  {
    if Finite(n) {
      TightGrows(nodes, n, bounds.GetOr(Area(n)));
    }
  }

  method CanvasNodeBounds(nodes: seq<Node>) returns (bounds: Option<Rect>)
    ensures Bounds(nodes, bounds)
  {
    bounds := None;
    for i := 0 to |nodes|
      invariant Bounds(nodes[..i], bounds)
    {
      var node := nodes[i];
      BoundsGrow(nodes[..i], node, bounds);
      assert nodes[..i + 1] == nodes[..i] + [node];
      if Finite(node) {
        var a := Area(node);
        bounds := Some(Union(bounds.GetOr(a), a));
      }
    }
    assert nodes[..|nodes|] == nodes;
  }

  // ---------- The fit ----------

  datatype Options = Options(padding: Option<real>, minScale: Option<real>, maxScale: Option<real>)

  function Padding(o: Options): real { Max(0.0, FiniteNumber(o.padding, 80.0)) }

  function MinScale(o: Options): real { Max(0.01, FiniteNumber(o.minScale, 0.15)) }

  function MaxScale(o: Options): real { Max(MinScale(o), FiniteNumber(o.maxScale, 1.2)) }

  function Available(size: real, padding: real): (r: real)
    ensures r >= 1.0
  {
    Max(1.0, size - Min(padding * 2.0, Max(0.0, size - 1.0)))
  }

  /** The scale at which the content just fits one dimension, before it is clamped. */
  function Room(size: real, padding: real, min: real, max: real): real {
    Available(size, padding) / Max(1.0, max - min)
  }

  function Unclamped(b: Rect, width: real, height: real, o: Options): real {
    Min(Room(width, Padding(o), b.minX, b.maxX), Room(height, Padding(o), b.minY, b.maxY))
  }

  /** The shift that brings the middle of the content to the middle of the view. */
  function Centered(size: real, min: real, max: real, k: real): real {
    size / 2.0 - (min + max) / 2.0 * k
  }

  function Scale(b: Rect, width: real, height: real, o: Options): real {
    Clamp(Unclamped(b, width, height, o), MinScale(o), MaxScale(o))
  }

  function CenteredAt(b: Rect, width: real, height: real, k: real): Transform {
    Transform(Centered(width, b.minX, b.maxX, k), Centered(height, b.minY, b.maxY, k), k)
  }

  function Fitted(b: Rect, width: real, height: real, o: Options): Transform {
    CenteredAt(b, width, height, Scale(b, width, height, o))
  }

  /** What the fit makes of bounds, or of none. */
  function FitOf(bounds: Option<Rect>, width: real, height: real, o: Options): Transform {
    if bounds.None? || width == 0.0 || height == 0.0 then Transform(width / 2.0, height / 2.0, 1.0)
    else Fitted(bounds.value, width, height, o)
  }

  method FitCanvasNodes(nodes: seq<Node>, viewWidth: Option<real>, viewHeight: Option<real>, o: Options) returns (t: Transform)
    ensures exists bounds :: Bounds(nodes, bounds) && t == FitOf(bounds, FiniteNonNegative(viewWidth), FiniteNonNegative(viewHeight), o)
  {
    var width, height := FiniteNonNegative(viewWidth), FiniteNonNegative(viewHeight);
    var bounds := CanvasNodeBounds(nodes);
    if bounds.None? || width == 0.0 || height == 0.0 {
      t := Transform(width / 2.0, height / 2.0, 1.0);
    } else {
      t := FitBounds(bounds.value, width, height, o);
    }
    assert Bounds(nodes, bounds) && t == FitOf(bounds, width, height, o);
  }

  method FitBounds(b: Rect, width: real, height: real, o: Options) returns (t: Transform)
    ensures t == Fitted(b, width, height, o)
  {
    var scale := FitScale(b, width, height, o);
    t := Center(b, width, height, scale);
  }

  method Center(b: Rect, width: real, height: real, scale: real) returns (t: Transform)
    ensures t == CenteredAt(b, width, height, scale)
  {
    var centerX, centerY := (b.minX + b.maxX) / 2.0, (b.minY + b.maxY) / 2.0;
    var x, y := width / 2.0 - centerX * scale, height / 2.0 - centerY * scale;
    assert x == Centered(width, b.minX, b.maxX, scale);
    assert y == Centered(height, b.minY, b.maxY, scale);
    t := Transform(x, y, scale);
  }

  method FitScale(b: Rect, width: real, height: real, o: Options) returns (scale: real)
    ensures scale == Scale(b, width, height, o)
  {
    var availableWidth, availableHeight := Available(width, Padding(o)), Available(height, Padding(o));
    var contentWidth, contentHeight := Max(1.0, b.maxX - b.minX), Max(1.0, b.maxY - b.minY);
    scale := Clamp(Min(availableWidth / contentWidth, availableHeight / contentHeight), MinScale(o), MaxScale(o));
  }

  // ---------- It is a fit ----------

  function Moved(r: Rect, t: Transform): Rect {
    Rect(r.minX * t.k + t.x, r.minY * t.k + t.y, r.maxX * t.k + t.x, r.maxY * t.k + t.y)
  }

  function Inner(width: real, height: real, padding: real): Rect {
    Rect(padding, padding, width - padding, height - padding)
  }

  /** A stretch around a center, scaled to at most the room there is, stays in the room; scaled to more, it does not. */
  lemma OneDimension(min: real, max: real, x: real, k: real, size: real, padding: real)
    requires min <= x <= max && k > 0.0
    requires k * (max - min) <= size - 2.0 * padding
    ensures padding <= x * k + Centered(size, min, max, k) <= size - padding
  {
    assert x * k - (min + max) / 2.0 * k == (x - (min + max) / 2.0) * k;
    Scaled(x - (min + max) / 2.0, (max - min) / 2.0, k);
    assert (max - min) / 2.0 * k == k * (max - min) / 2.0;
  }

  lemma Scaled(d: real, half: real, k: real)
    requires -half <= d <= half && k > 0.0
    ensures -(half * k) <= d * k <= half * k
  {
    assert (half - d) * k >= 0.0;
    assert (half + d) * k >= 0.0;
  }

  lemma TooFar(min: real, max: real, k: real, size: real, padding: real)
    requires k * (max - min) > size - 2.0 * padding
    ensures min * k + Centered(size, min, max, k) < padding
  {
    assert min * k - (min + max) / 2.0 * k == -(k * (max - min)) / 2.0;
  }

  /** Scale times content against the room, from the quotient. */
  lemma QuotientBound(room: real, content: real, k: real)
    requires content > 0.0
    ensures k <= room / content <==> k * content <= room
  {
    var q := room / content;
    assert q * content == room;
    if k <= q {
      assert (q - k) * content >= 0.0;
    } else {
      assert (k - q) * content > 0.0;
    }
  }

  lemma ScaleIsBounded(b: Rect, width: real, height: real, o: Options)
    ensures MinScale(o) <= Fitted(b, width, height, o).k <= MaxScale(o)
  {
  }

  /** The viewport leaves at least a unit between the paddings. */
  predicate Roomy(width: real, height: real, o: Options) {
    width >= 2.0 * Padding(o) + 1.0 && height >= 2.0 * Padding(o) + 1.0
  }

  /** One dimension of a fit. */
  lemma StaysInside(min: real, max: real, x: real, k: real, size: real, padding: real)
    requires padding >= 0.0 && size >= 2.0 * padding + 1.0 && min <= x <= max && 0.0 < k <= Room(size, padding, min, max)
    ensures padding <= x * k + Centered(size, min, max, k) <= size - padding
  {
    var content := Max(1.0, max - min);
    assert Available(size, padding) == size - 2.0 * padding;
    QuotientBound(Available(size, padding), content, k);
    Smaller(k, max - min, content);
    OneDimension(min, max, x, k, size, padding);
  }

  lemma Smaller(k: real, a: real, b: real)
    requires a <= b && k > 0.0
    ensures k * a <= k * b
  {
  }

  lemma CenteredFits(b: Rect, r: Rect, width: real, height: real, p: real, k: real)
    requires p >= 0.0 && width >= 2.0 * p + 1.0 && height >= 2.0 * p + 1.0
    requires 0.0 < k <= Room(width, p, b.minX, b.maxX) && k <= Room(height, p, b.minY, b.maxY)
    requires Within(r, b) && r.minX <= r.maxX && r.minY <= r.maxY
    ensures Within(Moved(r, CenteredAt(b, width, height, k)), Inner(width, height, p))
  {
    StaysInside(b.minX, b.maxX, r.minX, k, width, p);
    StaysInside(b.minX, b.maxX, r.maxX, k, width, p);
    StaysInside(b.minY, b.maxY, r.minY, k, height, p);
    StaysInside(b.minY, b.maxY, r.maxY, k, height, p);
  }

  lemma ScaleFits(b: Rect, width: real, height: real, o: Options)
    ensures var k := Scale(b, width, height, o); k > 0.0
    ensures var k := Scale(b, width, height, o);
      if Unclamped(b, width, height, o) >= MinScale(o)
      then k <= Room(width, Padding(o), b.minX, b.maxX) && k <= Room(height, Padding(o), b.minY, b.maxY)
      else k == MinScale(o) && (Room(width, Padding(o), b.minX, b.maxX) < k || Room(height, Padding(o), b.minY, b.maxY) < k)
  {
  }

  /** All finite nodes end up inside the padded viewport. */
  ghost predicate AllInside(nodes: seq<Node>, t: Transform, width: real, height: real, padding: real) {
    forall n :: n in nodes && Finite(n) ==> Within(Moved(Area(n), t), Inner(width, height, padding))
  }

  /** A fit is a fit unless the scale had to be raised to its minimum. */
  lemma FitIsAFit(nodes: seq<Node>, b: Rect, width: real, height: real, o: Options)
    requires Bounds(nodes, Some(b)) && Roomy(width, height, o) && Unclamped(b, width, height, o) >= MinScale(o)
    ensures AllInside(nodes, FitOf(Some(b), width, height, o), width, height, Padding(o))
  {
    var p, k := Padding(o), Scale(b, width, height, o);
    ScaleFits(b, width, height, o);
    forall n | n in nodes && Finite(n)
      ensures Within(Moved(Area(n), CenteredAt(b, width, height, k)), Inner(width, height, p))
    {
      CenteredFits(b, Area(n), width, height, p, k);
    }
  }

  lemma BoundsAreRegular(nodes: seq<Node>, b: Rect)
    requires Bounds(nodes, Some(b))
    ensures b.minX <= b.maxX && b.minY <= b.maxY
  {
    var n :| n in nodes && Finite(n) && Area(n).minX == b.minX;
    assert Within(Area(n), b);
  }

  lemma SticksOut(nodes: seq<Node>, n: Node, t: Transform, width: real, height: real, p: real)
    requires n in nodes && Finite(n)
    requires Moved(Area(n), t).minX < p || Moved(Area(n), t).minY < p
    ensures !AllInside(nodes, t, width, height, p)
  {
  }

  /** The content, scaled, fits between the paddings. */
  predicate RoomFor(b: Rect, k: real, width: real, height: real, padding: real) {
    k * (b.maxX - b.minX) <= width - 2.0 * padding && k * (b.maxY - b.minY) <= height - 2.0 * padding
  }

  lemma StretchInside(min: real, max: real, from: real, to: real, k: real, size: real, padding: real)
    requires min <= from <= to <= max && k > 0.0 && k * (max - min) <= size - 2.0 * padding
    ensures padding <= from * k + Centered(size, min, max, k) && to * k + Centered(size, min, max, k) <= size - padding
  {
    hide Centered;
    OneDimension(min, max, from, k, size, padding);
    OneDimension(min, max, to, k, size, padding);
  }

  lemma StaysCentered(b: Rect, r: Rect, width: real, height: real, p: real, k: real)
    requires k > 0.0 && RoomFor(b, k, width, height, p) && Within(r, b) && r.minX <= r.maxX && r.minY <= r.maxY
    ensures Within(Moved(r, CenteredAt(b, width, height, k)), Inner(width, height, p))
  {
    hide Centered;
    StretchInside(b.minX, b.maxX, r.minX, r.maxX, k, width, p);
    StretchInside(b.minY, b.maxY, r.minY, r.maxY, k, height, p);
  }

  lemma RoomIsEnough(nodes: seq<Node>, b: Rect, width: real, height: real, p: real, k: real)
    requires Bounds(nodes, Some(b)) && k > 0.0 && RoomFor(b, k, width, height, p)
    ensures AllInside(nodes, CenteredAt(b, width, height, k), width, height, p)
  {
    forall n | n in nodes && Finite(n)
      ensures Within(Moved(Area(n), CenteredAt(b, width, height, k)), Inner(width, height, p))
    {
      StaysCentered(b, Area(n), width, height, p, k);
    }
  }

  lemma RoomIsNeeded(nodes: seq<Node>, b: Rect, width: real, height: real, p: real, k: real)
    requires Tight(nodes, b) && !RoomFor(b, k, width, height, p)
    ensures !AllInside(nodes, CenteredAt(b, width, height, k), width, height, p)
  {
    var t := CenteredAt(b, width, height, k);
    if k * (b.maxX - b.minX) > width - 2.0 * p {
      var left :| left in nodes && Finite(left) && Area(left).minX == b.minX;
      TooFar(b.minX, b.maxX, k, width, p);
      SticksOut(nodes, left, t, width, height, p);
    } else {
      var top :| top in nodes && Finite(top) && Area(top).minY == b.minY;
      TooFar(b.minY, b.maxY, k, height, p);
      SticksOut(nodes, top, t, width, height, p);
    }
  }

  /** A shift brings every node inside exactly when it brings the bounds inside. */
  lemma BoundsDecide(nodes: seq<Node>, b: Rect, x: real, y: real, inner: Rect)
    requires Bounds(nodes, Some(b))
    ensures (forall n :: n in nodes && Finite(n) ==> Within(Moved(Area(n), Transform(x, y, 1.0)), inner)) <==>
            Within(Moved(b, Transform(x, y, 1.0)), inner)
  {
    var t := Transform(x, y, 1.0);
    if Within(Moved(b, t), inner) {
      forall n | n in nodes && Finite(n) ensures Within(Moved(Area(n), t), inner) { assert Within(Area(n), b); }
    } else {
      var left :| left in nodes && Finite(left) && Area(left).minX == b.minX;
      var top :| top in nodes && Finite(top) && Area(top).minY == b.minY;
      var right :| right in nodes && Finite(right) && Area(right).maxX == b.maxX;
      var bottom :| bottom in nodes && Finite(bottom) && Area(bottom).maxY == b.maxY;
      assert !(Within(Moved(Area(left), t), inner) && Within(Moved(Area(top), t), inner)
               && Within(Moved(Area(right), t), inner) && Within(Moved(Area(bottom), t), inner));
    }
  }

  /** What the default without a side leaves of the bounds: they are only shifted by half the view. */
  predicate InsideUnscaled(b: Rect, width: real, height: real, padding: real) {
    && padding <= b.minX + width / 2.0 && b.maxX + width / 2.0 <= width - padding
    && padding <= b.minY + height / 2.0 && b.maxY + height / 2.0 <= height - padding
  }

  /**
   For all options and any view: every node is inside exactly when the scaled content has room between the
   paddings; in a view without width or height, exactly when the content is inside unscaled and uncentered.
  */
  lemma FitExactly(nodes: seq<Node>, b: Rect, width: real, height: real, o: Options)
    requires Bounds(nodes, Some(b))
    ensures AllInside(nodes, FitOf(Some(b), width, height, o), width, height, Padding(o)) <==>
            if width == 0.0 || height == 0.0 then InsideUnscaled(b, width, height, Padding(o))
            else RoomFor(b, Scale(b, width, height, o), width, height, Padding(o))
  {
    if width == 0.0 || height == 0.0 {
      BoundsDecide(nodes, b, width / 2.0, height / 2.0, Inner(width, height, Padding(o)));
    } else {
      ScaledExactly(nodes, b, width, height, o);
    }
  }

  lemma ScaledExactly(nodes: seq<Node>, b: Rect, width: real, height: real, o: Options)
    requires Bounds(nodes, Some(b))
    ensures AllInside(nodes, Fitted(b, width, height, o), width, height, Padding(o)) <==>
            RoomFor(b, Scale(b, width, height, o), width, height, Padding(o))
  {
    var p, k := Padding(o), Scale(b, width, height, o);
    if RoomFor(b, k, width, height, p) {
      RoomIsEnough(nodes, b, width, height, p, k);
    } else {
      RoomIsNeeded(nodes, b, width, height, p, k);
    }
  }

  lemma Overflows(size: real, padding: real, min: real, max: real, k: real)
    requires padding >= 0.0 && size >= 2.0 * padding + 1.0 && 0.0 < k <= 1.0 && Room(size, padding, min, max) < k
    ensures k * (max - min) > size - 2.0 * padding
  {
    var content := Max(1.0, max - min);
    QuotientBound(Available(size, padding), content, k);
    Smaller(content, k, 1.0);
  }

  /** In a roomy viewport, with a minimum scale of at most one, as by default: nodes stay outside only when the scale was raised to it. */
  lemma MissesWhenRaised(nodes: seq<Node>, b: Rect, width: real, height: real, o: Options)
    requires Bounds(nodes, Some(b)) && Roomy(width, height, o) && MinScale(o) <= 1.0
    ensures AllInside(nodes, FitOf(Some(b), width, height, o), width, height, Padding(o)) <==> Unclamped(b, width, height, o) >= MinScale(o)
  {
    if Unclamped(b, width, height, o) >= MinScale(o) {
      FitIsAFit(nodes, b, width, height, o);
    } else {
      ScaleFits(b, width, height, o);
      var p, k := Padding(o), Scale(b, width, height, o);
      assert !RoomFor(b, k, width, height, p) by {
        if Room(width, p, b.minX, b.maxX) < k {
          Overflows(width, p, b.minX, b.maxX, k);
        } else {
          Overflows(height, p, b.minY, b.maxY, k);
        }
      }
      ScaledExactly(nodes, b, width, height, o);
    }
  }

  /** A node of 20000 by 10 in a view of 1000 by 1000, with the default options. */
  lemma TooWide()
    ensures var n, b, o := Node(Some(0.0), Some(0.0), Some(20000.0), Some(10.0)), Rect(0.0, 0.0, 20000.0, 10.0), Options(None, None, None);
            && Bounds([n], Some(b)) && Roomy(1000.0, 1000.0, o) && Scale(b, 1000.0, 1000.0, o) == 0.15
            && !AllInside([n], FitOf(Some(b), 1000.0, 1000.0, o), 1000.0, 1000.0, 80.0)
  {
    var n, b, o := Node(Some(0.0), Some(0.0), Some(20000.0), Some(10.0)), Rect(0.0, 0.0, 20000.0, 10.0), Options(None, None, None);
    assert n in [n] && Area(n) == b;
    FitExactly([n], b, 1000.0, 1000.0, o);
  }

  /** In a view without width even a node without width can end up outside, though there is room for it. */
  lemma NoWidth()
    ensures var n, b, o := Node(Some(5.0), Some(0.0), Some(0.0), Some(10.0)), Rect(5.0, 0.0, 5.0, 10.0), Options(Some(0.0), None, None);
            && Bounds([n], Some(b)) && RoomFor(b, Scale(b, 0.0, 100.0, o), 0.0, 100.0, 0.0)
            && !AllInside([n], FitOf(Some(b), 0.0, 100.0, o), 0.0, 100.0, 0.0)
  {
    var n, b, o := Node(Some(5.0), Some(0.0), Some(0.0), Some(10.0)), Rect(5.0, 0.0, 5.0, 10.0), Options(Some(0.0), None, None);
    assert n in [n] && Area(n) == b;
    FitExactly([n], b, 0.0, 100.0, o);
  }

  // ---------- The largest scale ----------

  /** The space between the paddings, or a unit when they leave less. */
  function Space(size: real, padding: real): real {
    if size >= 2.0 * padding + 1.0 then size - 2.0 * padding else 1.0
  }

  /** The content, scaled, fits there; content smaller than a unit counts as one. */
  predicate SpaceFor(b: Rect, k: real, width: real, height: real, padding: real) {
    && k * (if b.maxX - b.minX > 1.0 then b.maxX - b.minX else 1.0) <= Space(width, padding)
    && k * (if b.maxY - b.minY > 1.0 then b.maxY - b.minY else 1.0) <= Space(height, padding)
  }

  lemma RoomIsSpace(min: real, max: real, k: real, size: real, padding: real)
    requires padding >= 0.0 && size >= 0.0
    ensures k <= Room(size, padding, min, max) <==> k * (if max - min > 1.0 then max - min else 1.0) <= Space(size, padding)
  {
    assert Available(size, padding) == Space(size, padding);
    QuotientBound(Space(size, padding), if max - min > 1.0 then max - min else 1.0, k);
  }

  lemma UnclampedIsSpace(b: Rect, k: real, width: real, height: real, o: Options)
    requires width >= 0.0 && height >= 0.0
    ensures k <= Unclamped(b, width, height, o) <==> SpaceFor(b, k, width, height, Padding(o))
  {
    hide Room;
    RoomIsSpace(b.minX, b.maxX, k, width, Padding(o));
    RoomIsSpace(b.minY, b.maxY, k, height, Padding(o));
  }

  /**
   Content is shown as large as the limits and the space between the paddings allow, in the middle: no larger scale
   within the limits has space for it, and the scale chosen has space unless not even the least one has.
  */
  lemma FitIsLargest(b: Rect, width: real, height: real, o: Options)
    requires width > 0.0 && height > 0.0
    ensures var t, p := FitOf(Some(b), width, height, o), Padding(o);
      && MinScale(o) <= t.k <= MaxScale(o)
      && (forall k :: MinScale(o) <= k <= MaxScale(o) && SpaceFor(b, k, width, height, p) ==> k <= t.k)
      && (SpaceFor(b, MinScale(o), width, height, p) ==> SpaceFor(b, t.k, width, height, p))
      && (b.minX + b.maxX) / 2.0 * t.k + t.x == width / 2.0 && (b.minY + b.maxY) / 2.0 * t.k + t.y == height / 2.0
  {
    hide Unclamped, SpaceFor;
    forall k ensures k <= Unclamped(b, width, height, o) <==> SpaceFor(b, k, width, height, Padding(o)) {
      UnclampedIsSpace(b, k, width, height, o);
    }
  }

  /** A size that is missing, not finite or negative counts as none. */
  lemma SizesMean(size: Option<real>)
    ensures FiniteNonNegative(size) == if size.Some? && size.value > 0.0 then size.value else 0.0
  {
  }

  /** What the options mean: 80 of padding and scales from 0.15 to 1.2, unless they say otherwise within reason. */
  lemma OptionsMean(o: Options)
    ensures o.padding.None? ==> Padding(o) == 80.0
    ensures o.padding.Some? ==> Padding(o) == if o.padding.value < 0.0 then 0.0 else o.padding.value
    ensures o.minScale.None? ==> MinScale(o) == 0.15
    ensures o.minScale.Some? ==> MinScale(o) == if o.minScale.value < 0.01 then 0.01 else o.minScale.value
    ensures o.maxScale.None? ==> MaxScale(o) == if 1.2 < MinScale(o) then MinScale(o) else 1.2
    ensures o.maxScale.Some? ==> MaxScale(o) == if o.maxScale.value < MinScale(o) then MinScale(o) else o.maxScale.value
  {
  }
}
