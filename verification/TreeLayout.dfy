/**
 The tree layout of the SVG export.  All heights and gaps are even, so the halves taken by the code are
 whole numbers and coordinates are integers.
 */
module TreeLayout {
  import opened Prelude

  const NODE_WIDTH := 280
  const NODE_HEIGHT := 36
  const CHILD_NODE_WIDTH := 240
  const CHILD_NODE_HEIGHT := 30
  const H_GAP := 40
  const V_GAP := 50
  const PADDING := 40
  const HEADER := 30
  const CHILD_GAP := 8
  const LEGEND_SPACE := 120
  const LEGEND_TOP := 100
  const CHILD_X := PADDING + H_GAP + 20
  const EDGE_STRONG := "#2196f3"
  const EDGE_WEAK := "#2a3f52"

  datatype Neighbor = Neighbor(content: string, synapseType: string, icon: string, weight: real)

  datatype FiberNode = FiberNode(caption: string, neighbors: seq<Neighbor>)

  datatype Rect = Rect(x: int, y: int, width: int, height: int, caption: string, isFiber: bool, edge: Option<Neighbor>)

  datatype Line = Line(x1: int, y1: int, x2: int, y2: int, color: string)

  datatype Layout = Layout(rects: seq<Rect>, lines: seq<Line>, width: int, height: int)

  // ----- where things go -----

  function FiberRect(f: FiberNode, y: int): Rect { Rect(PADDING, y, NODE_WIDTH, NODE_HEIGHT, f.caption, true, None) }

  function ChildRect(n: Neighbor, y: int): Rect {
    Rect(CHILD_X, y, CHILD_NODE_WIDTH, CHILD_NODE_HEIGHT, n.content, false, Some(n))
  }

  function ChildLine(n: Neighbor, fiberY: int, y: int): Line {
    Line(PADDING + 10, fiberY + NODE_HEIGHT / 2, CHILD_X, y + CHILD_NODE_HEIGHT / 2,
         if n.weight > 0.5 then EDGE_STRONG else EDGE_WEAK)
  }

  /** The y of child k of a fiber whose box starts at y. */
  function ChildY(y: int, k: nat): int { y + NODE_HEIGHT + V_GAP / 2 + 38 * k }

  function ChildRects(neighbors: seq<Neighbor>, y: int): (r: seq<Rect>)
    ensures |r| == |neighbors| && forall k :: 0 <= k < |r| ==> r[k] == ChildRect(neighbors[k], ChildY(y, k))
  {
    if neighbors == [] then []
    else
      var n := |neighbors| - 1;
      ChildRects(neighbors[..n], y) + [ChildRect(neighbors[n], ChildY(y, n))]
  }

  function ChildLines(neighbors: seq<Neighbor>, y: int): (r: seq<Line>)
    ensures |r| == |neighbors| && forall k :: 0 <= k < |r| ==> r[k] == ChildLine(neighbors[k], y, ChildY(y, k))
  {
    if neighbors == [] then []
    else
      var n := |neighbors| - 1;
      ChildLines(neighbors[..n], y) + [ChildLine(neighbors[n], y, ChildY(y, n))]
  }

  /** The boxes of one fiber and its children. */
  function Block(f: FiberNode, y: int): seq<Rect> { [FiberRect(f, y)] + ChildRects(f.neighbors, y) }

  /** The y below the first i fibers, where the next one goes. */
  function Bottom(fibers: seq<FiberNode>, i: nat): int
    requires i <= |fibers|
  {
    if i == 0 then PADDING + HEADER else ChildY(Bottom(fibers, i - 1), |fibers[i - 1].neighbors|) + V_GAP / 2
  }

  /** The boxes of the first i fibers, and their lines. */
  function Rects(fibers: seq<FiberNode>, i: nat): seq<Rect>
    requires i <= |fibers|
  {
    if i == 0 then [] else Rects(fibers, i - 1) + Block(fibers[i - 1], Bottom(fibers, i - 1))
  }

  function Lines(fibers: seq<FiberNode>, i: nat): seq<Line>
    requires i <= |fibers|
  {
    if i == 0 then [] else Lines(fibers, i - 1) + ChildLines(fibers[i - 1].neighbors, Bottom(fibers, i - 1))
  }

  // ----- the nested loops -----

  method LayoutTree(fibers: seq<FiberNode>) returns (layout: Layout)
    ensures layout == Layout(Rects(fibers, |fibers|), Lines(fibers, |fibers|), 380, Bottom(fibers, |fibers|) + LEGEND_SPACE)
  {
    var rects, lines := [], [];
    var yCursor := PADDING + HEADER;
    for i := 0 to |fibers|
      invariant rects == Rects(fibers, i) && lines == Lines(fibers, i) && yCursor == Bottom(fibers, i)
    {
      var block, edges, next := LayoutFiber(fibers[i], yCursor);
      rects, lines, yCursor := rects + block, lines + edges, next;
    }
    var maxX := PADDING + H_GAP + 20 + CHILD_NODE_WIDTH + PADDING;
    var canvasWidth := if maxX >= NODE_WIDTH + 2 * PADDING then maxX else NODE_WIDTH + 2 * PADDING;
    layout := Layout(rects, lines, canvasWidth, yCursor + LEGEND_SPACE);
  }

  lemma ChildrenMore(ns: seq<Neighbor>, k: nat, y: int)
    requires k < |ns|
    ensures ChildRects(ns[..k + 1], y) == ChildRects(ns[..k], y) + [ChildRect(ns[k], ChildY(y, k))]
    ensures ChildLines(ns[..k + 1], y) == ChildLines(ns[..k], y) + [ChildLine(ns[k], y, ChildY(y, k))]
  {
    assert ns[..k + 1][..k] == ns[..k];
  }

  method LayoutFiber(fiber: FiberNode, y: int) returns (rects: seq<Rect>, lines: seq<Line>, yCursor: int)
    ensures rects == Block(fiber, y)
    ensures lines == ChildLines(fiber.neighbors, y)
    ensures yCursor == ChildY(y, |fiber.neighbors|) + V_GAP / 2
  {
    var centerY := y + NODE_HEIGHT / 2;
    rects, lines, yCursor := [], [], y + NODE_HEIGHT + V_GAP / 2;
    var ns := fiber.neighbors;
    for k := 0 to |ns|
      invariant rects == ChildRects(ns[..k], y)
      invariant lines == ChildLines(ns[..k], y)
      invariant yCursor == ChildY(y, k)
    {
      ChildrenMore(ns, k, y);
      rects := rects + [Rect(CHILD_X, yCursor, CHILD_NODE_WIDTH, CHILD_NODE_HEIGHT, ns[k].content, false, Some(ns[k]))];
      var color := if ns[k].weight > 0.5 then EDGE_STRONG else EDGE_WEAK;
      lines := lines + [Line(PADDING + 10, centerY, CHILD_X, yCursor + CHILD_NODE_HEIGHT / 2, color)];
      yCursor := yCursor + CHILD_NODE_HEIGHT + CHILD_GAP;
    }
    assert ns[..|ns|] == ns;
    rects := [Rect(PADDING, y, NODE_WIDTH, NODE_HEIGHT, fiber.caption, true, None)] + rects;
    yCursor := yCursor + V_GAP / 2;
  }

  // ----- geometry -----

  predicate Disjoint(a: Rect, b: Rect) {
    a.x + a.width <= b.x || b.x + b.width <= a.x || a.y + a.height <= b.y || b.y + b.height <= a.y
  }

  predicate Within(r: Rect, top: int, bottom: int) {
    PADDING <= r.x && r.x + r.width <= 380 - PADDING && top <= r.y && r.y + r.height <= bottom && r.width > 0 && r.height > 0
  }

  /** Each box ends strictly above where the next begins. */
  predicate Stacked(rects: seq<Rect>, top: int, bottom: int) {
    && (forall i :: 0 <= i < |rects| ==> Within(rects[i], top, bottom))
    && (forall i, j :: 0 <= i < j < |rects| ==> rects[i].y + rects[i].height < rects[j].y)
  }

  lemma BlockStacked(f: FiberNode, y: int)
    ensures Stacked(Block(f, y), y, ChildY(y, |f.neighbors|) + V_GAP / 2 - 1)
  {
    var block := Block(f, y);
    forall i | 0 < i < |block| ensures block[i] == ChildRect(f.neighbors[i - 1], ChildY(y, i - 1)) {}
  }

  lemma StackedAppend(a: seq<Rect>, b: seq<Rect>, top: int, middle: int, bottom: int)
    requires Stacked(a, top, middle - 1) && Stacked(b, middle, bottom) && top <= middle <= bottom + 1
    ensures Stacked(a + b, top, bottom)
  {
    var s := a + b;
    forall i | 0 <= i < |s| ensures Within(s[i], top, bottom) {
      if i < |a| { assert Within(a[i], top, middle - 1); } else { assert Within(b[i - |a|], middle, bottom); }
    }
    forall i, j | 0 <= i < j < |s| ensures s[i].y + s[i].height < s[j].y {
      if j < |a| { assert a[i].y + a[i].height < a[j].y; }
      else if i >= |a| { assert b[i - |a|].y + b[i - |a|].height < b[j - |a|].y; }
      else { assert Within(a[i], top, middle - 1) && Within(b[j - |a|], middle, bottom); }
    }
  }

  lemma {:induction false} RectsStacked(fibers: seq<FiberNode>, i: nat)
    requires i <= |fibers|
    ensures Stacked(Rects(fibers, i), PADDING + HEADER, Bottom(fibers, i) - 1)
    ensures Bottom(fibers, i) >= PADDING + HEADER
  {
    if i > 0 {
      var y := Bottom(fibers, i - 1);
      RectsStacked(fibers, i - 1);
      BlockStacked(fibers[i - 1], y);
      StackedAppend(Rects(fibers, i - 1), Block(fibers[i - 1], y), PADDING + HEADER, y, Bottom(fibers, i) - 1);
    }
  }

  /** How many neighbours the first i fibers have. */
  function Neighbors(fibers: seq<FiberNode>, i: nat): nat
    requires i <= |fibers|
  {
    if i == 0 then 0 else Neighbors(fibers, i - 1) + |fibers[i - 1].neighbors|
  }

  // ----- results -----

  /** Whatever the tree, no two boxes overlap, and all lie on the canvas, between the header and the legend. */
  lemma BoxesDisjoint(fibers: seq<FiberNode>)
    ensures var rects, height := Rects(fibers, |fibers|), Bottom(fibers, |fibers|) + LEGEND_SPACE;
      && (forall i, j :: 0 <= i < j < |rects| ==> Disjoint(rects[i], rects[j]))
      && (forall i :: 0 <= i < |rects| ==> Within(rects[i], PADDING + HEADER, height - LEGEND_TOP))
  {
    RectsStacked(fibers, |fibers|);
    var rects, bottom := Rects(fibers, |fibers|), Bottom(fibers, |fibers|);
    forall i | 0 <= i < |rects|
      ensures Within(rects[i], PADDING + HEADER, bottom + LEGEND_SPACE - LEGEND_TOP)
    {
      assert Within(rects[i], PADDING + HEADER, bottom - 1);
    }
  }

  /** As many boxes as fibers and neighbours, as many lines as neighbours. */
  lemma {:induction false} Counts(fibers: seq<FiberNode>, i: nat)
    requires i <= |fibers|
    ensures |Rects(fibers, i)| == i + Neighbors(fibers, i) && |Lines(fibers, i)| == Neighbors(fibers, i)
  {
    if i > 0 {
      Counts(fibers, i - 1);
      BlockSize(fibers[i - 1], Bottom(fibers, i - 1));
    }
  }

  lemma BlockSize(f: FiberNode, y: int)
    ensures |Block(f, y)| == 1 + |f.neighbors| && |ChildLines(f.neighbors, y)| == |f.neighbors|
  {
  }

  /** A line ends at the middle of the child's left edge, and starts inside the fiber's box. */
  predicate Connects(l: Line, fiber: Rect, child: Rect) {
    && fiber.x < l.x1 < fiber.x + fiber.width && fiber.y < l.y1 < fiber.y + fiber.height
    && l.x2 == child.x && 2 * l.y2 == 2 * child.y + child.height
  }

  ghost predicate Embedded<T>(whole: seq<T>, at: nat, part: seq<T>) {
    at + |part| <= |whole| && whole[at..at + |part|] == part
  }

  lemma EmbeddedAt<T>(whole: seq<T>, at: nat, part: seq<T>, j: nat)
    requires Embedded(whole, at, part) && j < |part|
    ensures at + j < |whole| && whole[at + j] == part[j]
  {
    assert whole[at..at + |part|][j] == whole[at + j];
  }

  lemma EmbedLast<T>(front: seq<T>, part: seq<T>)
    ensures Embedded(front + part, |front|, part)
  {
    assert (front + part)[|front|..|front| + |part|] == part;
  }

  lemma EmbedMore<T>(whole: seq<T>, at: nat, part: seq<T>, more: seq<T>)
    requires Embedded(whole, at, part)
    ensures Embedded(whole + more, at, part)
  {
    assert (whole + more)[at..at + |part|] == whole[at..at + |part|];
  }

  /** A fiber's box, followed by its children's, stands after the boxes of the fibers before it. */
  lemma {:induction false} BoxesKept(fibers: seq<FiberNode>, i: nat, m: nat)
    requires i < m <= |fibers|
    ensures Embedded(Rects(fibers, m), |Rects(fibers, i)|, Block(fibers[i], Bottom(fibers, i)))
  {
    var front, block := Rects(fibers, m - 1), Block(fibers[m - 1], Bottom(fibers, m - 1));
    if i < m - 1 {
      BoxesKept(fibers, i, m - 1);
      EmbedMore(front, |Rects(fibers, i)|, Block(fibers[i], Bottom(fibers, i)), block);
    } else {
      EmbedLast(front, block);
    }
  }

  /** So do its lines, one for each child in the same order. */
  lemma {:induction false} LinesKept(fibers: seq<FiberNode>, i: nat, m: nat)
    requires i < m <= |fibers|
    ensures Embedded(Lines(fibers, m), |Lines(fibers, i)|, ChildLines(fibers[i].neighbors, Bottom(fibers, i)))
  {
    var front, more := Lines(fibers, m - 1), ChildLines(fibers[m - 1].neighbors, Bottom(fibers, m - 1));
    assert Lines(fibers, m) == front + more;
    if i < m - 1 {
      LinesKept(fibers, i, m - 1);
      EmbedMore(front, |Lines(fibers, i)|, ChildLines(fibers[i].neighbors, Bottom(fibers, i)), more);
    } else {
      EmbedLast(front, more);
    }
  }

  /** Child k, its box and line, given where the fiber's boxes and lines begin. */
  predicate Placed(rects: seq<Rect>, lines: seq<Line>, box: nat, line: nat, f: FiberNode, k: nat)
    requires k < |f.neighbors|
  {
    && box + 1 + k < |rects| && line + k < |lines|
    && rects[box].isFiber && rects[box].caption == f.caption
    && !rects[box + 1 + k].isFiber && rects[box + 1 + k].edge == Some(f.neighbors[k])
    && Connects(lines[line + k], rects[box], rects[box + 1 + k])
    && lines[line + k].color == (if f.neighbors[k].weight > 0.5 then EDGE_STRONG else EDGE_WEAK)
  }

  lemma ChildPlaced(rects: seq<Rect>, lines: seq<Line>, b: nat, l: nat, f: FiberNode, y: int, k: nat)
    requires Embedded(rects, b, Block(f, y)) && Embedded(lines, l, ChildLines(f.neighbors, y)) && k < |f.neighbors|
    ensures Placed(rects, lines, b, l, f, k)
  {
    EmbeddedAt(rects, b, Block(f, y), 0);
    EmbeddedAt(rects, b, Block(f, y), 1 + k);
    EmbeddedAt(lines, l, ChildLines(f.neighbors, y), k);
  }

  /** Every child's line runs from inside its own fiber's box to the middle of the child's own left edge. */
  lemma {:induction false} EveryChildPlaced(fibers: seq<FiberNode>, i: nat, k: nat)
    requires i < |fibers| && k < |fibers[i].neighbors|
    ensures Placed(Rects(fibers, |fibers|), Lines(fibers, |fibers|), |Rects(fibers, i)|, |Lines(fibers, i)|, fibers[i], k)
  {
    BoxesKept(fibers, i, |fibers|);
    LinesKept(fibers, i, |fibers|);
    ChildPlaced(Rects(fibers, |fibers|), Lines(fibers, |fibers|), |Rects(fibers, i)|, |Lines(fibers, i)|, fibers[i], Bottom(fibers, i), k);
  }

  /** Each line ends above where the next does, and all above this. */
  predicate Descends(lines: seq<Line>, bottom: int) {
    && (forall a, b :: 0 <= a < b < |lines| ==> lines[a].y2 < lines[b].y2)
    && (forall a :: 0 <= a < |lines| ==> lines[a].y2 < bottom)
  }

  lemma ChildLineAt(neighbors: seq<Neighbor>, y: int, a: nat)
    requires a < |neighbors|
    ensures ChildLines(neighbors, y)[a].y2 == y + 76 + 38 * a
  {
    assert ChildLines(neighbors, y)[a] == ChildLine(neighbors[a], y, ChildY(y, a));
  }

  lemma EvenlyDescends(lines: seq<Line>, y: int)
    requires forall a :: 0 <= a < |lines| ==> lines[a].y2 == y + 76 + 38 * a
    ensures Descends(lines, y + 61 + 38 * |lines|) && forall a :: 0 <= a < |lines| ==> y < lines[a].y2
  {
  }

  lemma ChildLinesDescend(neighbors: seq<Neighbor>, y: int)
    ensures Descends(ChildLines(neighbors, y), ChildY(y, |neighbors|))
    ensures forall a :: 0 <= a < |ChildLines(neighbors, y)| ==> y < ChildLines(neighbors, y)[a].y2
  {
    var lines := ChildLines(neighbors, y);
    forall a | 0 <= a < |lines| ensures lines[a].y2 == y + 76 + 38 * a { ChildLineAt(neighbors, y, a); }
    EvenlyDescends(lines, y);
  }

  lemma DescendsAppend(front: seq<Line>, more: seq<Line>, y: int, bottom: int)
    requires Descends(front, y) && Descends(more, bottom) && y <= bottom
    requires forall a :: 0 <= a < |more| ==> y < more[a].y2
    ensures Descends(front + more, bottom)
  {
    var all := front + more;
    forall a | 0 <= a < |all| ensures all[a].y2 < bottom { assert all[a] == if a < |front| then front[a] else more[a - |front|]; }
    forall a, b | 0 <= a < b < |all|
      ensures all[a].y2 < all[b].y2
    {
      assert all[a] == if a < |front| then front[a] else more[a - |front|];
      assert all[b] == if b < |front| then front[b] else more[b - |front|];
    }
  }

  lemma {:induction false} LinesDescend(fibers: seq<FiberNode>, i: nat)
    requires i <= |fibers|
    ensures Descends(Lines(fibers, i), Bottom(fibers, i))
  {
    if i > 0 {
      var y, neighbors := Bottom(fibers, i - 1), fibers[i - 1].neighbors;
      LinesDescend(fibers, i - 1);
      ChildLinesDescend(neighbors, y);
      DescendsAppend(Lines(fibers, i - 1), ChildLines(neighbors, y), y, Bottom(fibers, i));
    }
  }

  /** Every line belongs to one child: no two lines end at the same point. */
  lemma LinesEndApart(fibers: seq<FiberNode>, a: nat, b: nat)
    requires a < b < |Lines(fibers, |fibers|)|
    ensures Lines(fibers, |fibers|)[a].y2 < Lines(fibers, |fibers|)[b].y2
  {
    LinesDescend(fibers, |fibers|);
  }

  lemma {:induction false} BottomFormula(fibers: seq<FiberNode>, i: nat)
    requires i <= |fibers|
    ensures Bottom(fibers, i) == 70 + 86 * i + 38 * Neighbors(fibers, i)
  {
    if i > 0 { BottomFormula(fibers, i - 1); }
  }

  /** The canvas height, from the number of boxes. */
  lemma HeightFormula(fibers: seq<FiberNode>)
    ensures Bottom(fibers, |fibers|) + LEGEND_SPACE == 190 + 86 * |fibers| + 38 * Neighbors(fibers, |fibers|)
    ensures |Rects(fibers, |fibers|)| == |fibers| + Neighbors(fibers, |fibers|)
  {
    BottomFormula(fibers, |fibers|);
    Counts(fibers, |fibers|);
  }

  /** Each fiber's box, by the numbers of fibers and neighbours before it. */
  lemma FiberAt(fibers: seq<FiberNode>, i: nat)
    requires i < |fibers|
    ensures var rects, before := Rects(fibers, |fibers|), Neighbors(fibers, i);
      && i + before < |rects|
      && rects[i + before] == Rect(40, 70 + 86 * i + 38 * before, 280, 36, fibers[i].caption, true, None)
  {
    var block := Block(fibers[i], Bottom(fibers, i));
    BoxesKept(fibers, i, |fibers|);
    Counts(fibers, i);
    BottomFormula(fibers, i);
    EmbeddedAt(Rects(fibers, |fibers|), |Rects(fibers, i)|, block, 0);
  }

  /** Each neighbour's box, likewise. */
  lemma ChildAt(fibers: seq<FiberNode>, i: nat, k: nat)
    requires i < |fibers| && k < |fibers[i].neighbors|
    ensures var rects, n, before := Rects(fibers, |fibers|), fibers[i].neighbors[k], Neighbors(fibers, i);
      && i + before + 1 + k < |rects|
      && rects[i + before + 1 + k] == Rect(100, 131 + 86 * i + 38 * (before + k), 240, 30, n.content, false, Some(n))
  {
    var y := Bottom(fibers, i);
    BoxesKept(fibers, i, |fibers|);
    Counts(fibers, i);
    BottomFormula(fibers, i);
    assert y + 61 + 38 * k == 131 + 86 * i + 38 * (Neighbors(fibers, i) + k);
    BoxOfChild(Rects(fibers, |fibers|), |Rects(fibers, i)|, fibers[i], Bottom(fibers, i), k);
  }

  lemma BoxOfChild(rects: seq<Rect>, at: nat, f: FiberNode, y: int, k: nat)
    requires Embedded(rects, at, Block(f, y)) && k < |f.neighbors|
    ensures at + 1 + k < |rects|
    ensures rects[at + 1 + k] == Rect(100, y + 61 + 38 * k, 240, 30, f.neighbors[k].content, false, Some(f.neighbors[k]))
  {
    BlockChild(f, y, k);
    EmbeddedAt(rects, at, Block(f, y), 1 + k);
  }

  lemma BlockChild(f: FiberNode, y: int, k: nat)
    requires k < |f.neighbors|
    ensures |Block(f, y)| == 1 + |f.neighbors|
    ensures Block(f, y)[1 + k] == Rect(100, y + 61 + 38 * k, 240, 30, f.neighbors[k].content, false, Some(f.neighbors[k]))
  {
    assert Block(f, y)[1 + k] == ChildRects(f.neighbors, y)[k] == ChildRect(f.neighbors[k], ChildY(y, k));
  }

  /** And its line, in the colour of its weight. */
  lemma LineAt(fibers: seq<FiberNode>, i: nat, k: nat)
    requires i < |fibers| && k < |fibers[i].neighbors|
    ensures var lines, n, before := Lines(fibers, |fibers|), fibers[i].neighbors[k], Neighbors(fibers, i);
      && before + k < |lines|
      && lines[before + k] == Line(50, 88 + 86 * i + 38 * before, 100, 146 + 86 * i + 38 * (before + k), if n.weight > 0.5 then "#2196f3" else "#2a3f52")
  {
    LinesKept(fibers, i, |fibers|);
    Counts(fibers, i);
    BottomFormula(fibers, i);
    ChildLineIs(fibers[i].neighbors, Bottom(fibers, i), k);
    EmbeddedAt(Lines(fibers, |fibers|), |Lines(fibers, i)|, ChildLines(fibers[i].neighbors, Bottom(fibers, i)), k);
  }

  lemma ChildLineIs(ns: seq<Neighbor>, y: int, k: nat)
    requires k < |ns|
    ensures |ChildLines(ns, y)| == |ns|
    ensures ChildLines(ns, y)[k] == Line(50, y + 18, 100, y + 76 + 38 * k, if ns[k].weight > 0.5 then "#2196f3" else "#2a3f52")
  {
    assert ChildLines(ns, y)[k] == ChildLine(ns[k], y, ChildY(y, k));
  }
}
