/**
 The boxes of a graph drawing (tools/GraphDoc.hpp): one column a rank, each column centred, with exact reals for the
 coordinates.
 */
module GraphPlacement {
  import opened GraphWalk
  import opened GraphRanks

  const NAME_CHAR_WIDTH: real := 7.4
  const TYPE_CHAR_WIDTH: real := 6.6
  const NODE_HEIGHT: real := 42.0
  const NODE_MIN_WIDTH: real := 84.0
  const NODE_PADDING: real := 10.0
  const NODE_GAP: real := 22.0
  const RANK_GAP: real := 74.0
  const MARGIN: real := 12.0

  // the characters of a node's two lines
  datatype Label = Label(name: nat, kind: nat)

  function Max(a: real, b: real): (m: real)
    ensures a <= m && b <= m && (m == a || m == b)
  {
    if a < b then b else a
  }

  function TextWidth(text: Label): real {
    Max(text.name as real * NAME_CHAR_WIDTH, text.kind as real * TYPE_CHAR_WIDTH)
  }

  function ColumnHeight(count: nat): real {
    if count == 0 then 0.0 else count as real * NODE_HEIGHT + (count - 1) as real * NODE_GAP
  }

  // the first k nodes of rank r, in the order of the file
  function Column(rank: seq<nat>, r: nat, k: nat): (c: seq<nat>)
    requires k <= |rank|
    ensures forall i :: 0 <= i < |c| ==> c[i] < k && rank[c[i]] == r
    ensures forall i, j :: 0 <= i < j < |c| ==> c[i] < c[j]
  {
    if k == 0 then [] else Column(rank, r, k - 1) + if rank[k - 1] == r then [k - 1] else []
  }

  lemma {:induction false} InColumn(rank: seq<nat>, k: nat, i: nat)
    requires i < k <= |rank|
    ensures i in Column(rank, rank[i], k)
  {
    if i < k - 1 {
      InColumn(rank, k - 1, i);
    }
  }

  function LeftEdge(widths: seq<real>, r: nat): real
    requires r <= |widths|
  {
    if r == 0 then MARGIN else LeftEdge(widths, r - 1) + widths[r - 1] + RANK_GAP
  }

  function TopEdge(tallest: real, count: nat, k: nat): real {
    MARGIN + (tallest - ColumnHeight(count)) / 2.0 + k as real * (NODE_HEIGHT + NODE_GAP)
  }

  // --- what a placement has to be ---------------------------------------------------------------------------------

  datatype Drawing = Drawing(x: seq<real>, y: seq<real>, width: seq<real>, canvasWidth: real, canvasHeight: real)

  ghost predicate Fits(rank: seq<nat>, labels: seq<Label>, d: Drawing) {
    && |d.x| == |d.y| == |d.width| == |rank| == |labels|
    && forall i :: 0 <= i < |rank| ==>
         && MARGIN <= d.x[i] && d.x[i] + d.width[i] <= d.canvasWidth - MARGIN
         && MARGIN <= d.y[i] && d.y[i] + NODE_HEIGHT <= d.canvasHeight - MARGIN
         && NODE_MIN_WIDTH <= d.width[i] && TextWidth(labels[i]) + 2.0 * NODE_PADDING <= d.width[i]
  }

  // a lower rank lies to the left; nodes of one rank lie below one another in the order of the file
  ghost predicate Apart(rank: seq<nat>, d: Drawing)
    requires |d.x| == |d.y| == |d.width| == |rank|
  {
    && (forall i, j :: 0 <= i < |rank| && 0 <= j < |rank| && rank[i] < rank[j] ==>
          d.x[i] + d.width[i] + RANK_GAP <= d.x[j])
    && (forall i, j :: 0 <= i < j < |rank| && rank[i] == rank[j] ==>
          d.x[i] == d.x[j] && d.width[i] == d.width[j] && d.y[i] + NODE_HEIGHT + NODE_GAP <= d.y[j])
  }

  // the node rows of a rank lie as far from the top as from the bottom
  ghost predicate Centred(rank: seq<nat>, d: Drawing)
    requires |d.x| == |d.y| == |d.width| == |rank|
  {
    forall i, j :: 0 <= i < |rank| && 0 <= j < |rank| && Spans(rank, i, j) ==>
      d.y[i] + (d.y[j] + NODE_HEIGHT) == d.canvasHeight
  }

  // the first and the last node of one rank
  ghost predicate Spans(rank: seq<nat>, i: nat, j: nat)
    requires i < |rank| && j < |rank|
  {
    rank[i] == rank[j] && forall k :: 0 <= k < |rank| && rank[k] == rank[i] ==> i <= k <= j
  }

  function Padded(text: Label): real { TextWidth(text) + 2.0 * NODE_PADDING }

  // i and j are two nodes of one rank with none of it between them
  ghost predicate NextRow(rank: seq<nat>, i: nat, j: nat) {
    && i < j < |rank| && rank[i] == rank[j]
    && forall k :: i < k < j ==> rank[k] != rank[i]
  }

  // a column as wide as its widest node asks for
  ghost predicate WidthAsked(rank: seq<nat>, labels: seq<Label>, r: nat, width: real)
    requires |labels| == |rank|
  {
    width == NODE_MIN_WIDTH || exists j :: 0 <= j < |rank| && rank[j] == r && Padded(labels[j]) == width
  }

  // no wider and no taller than that: each gap is the one given, and the tallest rank reaches the margins
  ghost predicate Tight(rank: seq<nat>, labels: seq<Label>, d: Drawing)
    requires |d.x| == |d.y| == |d.width| == |rank| == |labels|
  {
    && (forall i :: 0 <= i < |rank| ==> WidthAsked(rank, labels, rank[i], d.width[i]))
    && (forall i :: 0 <= i < |rank| && rank[i] == 0 ==> d.x[i] == MARGIN)
    && (forall i, j :: 0 <= i < |rank| && 0 <= j < |rank| && rank[j] == rank[i] + 1 ==>
          d.x[j] == d.x[i] + d.width[i] + RANK_GAP)
    && (forall i, j :: 0 <= i < |rank| && 0 <= j < |rank| && NextRow(rank, i, j) ==>
          d.y[j] == d.y[i] + NODE_HEIGHT + NODE_GAP)
    && (forall i :: 0 <= i < |rank| && (forall k :: 0 <= k < |rank| ==> rank[k] <= rank[i]) ==>
          d.canvasWidth == d.x[i] + d.width[i] + MARGIN)
    && (if |rank| == 0 then d.canvasWidth == d.canvasHeight == 2.0 * MARGIN
        else exists i :: 0 <= i < |rank| && d.y[i] == MARGIN)
  }

  predicate Overlap(d: Drawing, i: nat, j: nat)
    requires |d.x| == |d.y| == |d.width| && i < |d.x| && j < |d.x|
  {
    && d.x[i] < d.x[j] + d.width[j] && d.x[j] < d.x[i] + d.width[i]
    && d.y[i] < d.y[j] + NODE_HEIGHT && d.y[j] < d.y[i] + NODE_HEIGHT
  }

  lemma BoxesDisjoint(rank: seq<nat>, labels: seq<Label>, d: Drawing, i: nat, j: nat)
    requires Fits(rank, labels, d) && Apart(rank, d) && i < |rank| && j < |rank| && i != j
    ensures !Overlap(d, i, j)
  {
    assert rank[i] < rank[j] || rank[j] < rank[i] || rank[i] == rank[j];
  }

  // --- the coordinates --------------------------------------------------------------------------------------------

  ghost predicate Placed(rank: seq<nat>, widths: seq<real>, tallest: real, d: Drawing, upTo: nat)
    requires |d.x| == |d.y| == |d.width| == |rank| && upTo <= |widths|
  {
    forall r, k :: 0 <= r < upTo && 0 <= k < |Column(rank, r, |rank|)| ==>
      var c := Column(rank, r, |rank|);
      d.x[c[k]] == LeftEdge(widths, r) && d.y[c[k]] == TopEdge(tallest, |c|, k) && d.width[c[k]] == widths[r]
  }

  // the widths hold every node of their rank, and no column is taller than the tallest
  ghost predicate Measured(rank: seq<nat>, labels: seq<Label>, widths: seq<real>, tallest: real, upTo: nat)
    requires |labels| == |rank| && upTo <= |widths|
  {
    && (forall r :: 0 <= r < upTo ==> NODE_MIN_WIDTH <= widths[r] && ColumnHeight(|Column(rank, r, |rank|)|) <= tallest)
    && (forall i :: 0 <= i < |rank| && rank[i] < upTo ==> TextWidth(labels[i]) + 2.0 * NODE_PADDING <= widths[rank[i]])
  }

  lemma {:induction false} LeftEdges(widths: seq<real>, q: nat, r: nat)
    requires q < r <= |widths| && forall i :: 0 <= i < |widths| ==> NODE_MIN_WIDTH <= widths[i]
    ensures MARGIN <= LeftEdge(widths, q) && LeftEdge(widths, q) + widths[q] + RANK_GAP <= LeftEdge(widths, r)
  {
    if q + 1 < r {
      LeftEdges(widths, q, r - 1);
    } else if 0 < q {
      LeftEdges(widths, q - 1, q);
    }
  }

  // the row of a node in its column
  function Row(rank: seq<nat>, i: nat): (k: nat)
    requires i < |rank|
    ensures k < |Column(rank, rank[i], |rank|)| && Column(rank, rank[i], |rank|)[k] == i
  {
    InColumn(rank, |rank|, i);
    Position(Column(rank, rank[i], |rank|), i)
  }

  lemma NodePlaced(rank: seq<nat>, widths: seq<real>, tallest: real, d: Drawing, i: nat)
    requires |d.x| == |d.y| == |d.width| == |rank| && Placed(rank, widths, tallest, d, |widths|)
    requires i < |rank| && rank[i] < |widths|
    ensures d.x[i] == LeftEdge(widths, rank[i]) && d.width[i] == widths[rank[i]]
    ensures d.y[i] == TopEdge(tallest, |Column(rank, rank[i], |rank|)|, Row(rank, i))
  {
    hide Column, LeftEdge, TopEdge;
    assert Column(rank, rank[i], |rank|)[Row(rank, i)] == i;
  }

  lemma TopEdges(tallest: real, count: nat, k: nat)
    requires k < count && ColumnHeight(count) <= tallest
    ensures MARGIN <= TopEdge(tallest, count, k)
    ensures TopEdge(tallest, count, k) + NODE_HEIGHT <= tallest + MARGIN
    ensures forall m: nat :: k < m ==> TopEdge(tallest, count, k) + NODE_HEIGHT + NODE_GAP <= TopEdge(tallest, count, m)
  {
    assert (count - 1) as real == count as real - 1.0;
    assert k as real <= count as real - 1.0;
  }

  lemma PlacedFits(rank: seq<nat>, labels: seq<Label>, widths: seq<real>, tallest: real, d: Drawing)
    requires |d.x| == |d.y| == |d.width| == |rank| == |labels| && Placed(rank, widths, tallest, d, |widths|)
    requires Measured(rank, labels, widths, tallest, |widths|) && forall i :: 0 <= i < |rank| ==> rank[i] < |widths|
    requires d.canvasHeight == tallest + 2.0 * MARGIN
    requires |widths| > 0 ==> d.canvasWidth == LeftEdge(widths, |widths|) - RANK_GAP + MARGIN
    ensures Fits(rank, labels, d)
  {
    hide Placed, Column, LeftEdge, TopEdge, ColumnHeight;
    forall i | 0 <= i < |rank|
      ensures MARGIN <= d.x[i] && d.x[i] + d.width[i] <= d.canvasWidth - MARGIN
      ensures MARGIN <= d.y[i] && d.y[i] + NODE_HEIGHT <= d.canvasHeight - MARGIN
      ensures NODE_MIN_WIDTH <= d.width[i] && TextWidth(labels[i]) + 2.0 * NODE_PADDING <= d.width[i]
    {
      NodePlaced(rank, widths, tallest, d, i);
      LeftEdges(widths, rank[i], |widths|);
      TopEdges(tallest, |Column(rank, rank[i], |rank|)|, Row(rank, i));
    }
  }

  lemma PlacedApart(rank: seq<nat>, labels: seq<Label>, widths: seq<real>, tallest: real, d: Drawing)
    requires |d.x| == |d.y| == |d.width| == |rank| == |labels| && Placed(rank, widths, tallest, d, |widths|)
    requires Measured(rank, labels, widths, tallest, |widths|) && forall i :: 0 <= i < |rank| ==> rank[i] < |widths|
    ensures Apart(rank, d)
  {
    hide Placed, LeftEdge, TopEdge, ColumnHeight, Row;
    forall i, j | 0 <= i < |rank| && 0 <= j < |rank| && rank[i] < rank[j]
      ensures d.x[i] + d.width[i] + RANK_GAP <= d.x[j]
    {
      NodePlaced(rank, widths, tallest, d, i);
      NodePlaced(rank, widths, tallest, d, j);
      LeftEdges(widths, rank[i], rank[j]);
    }
    forall i, j | 0 <= i < j < |rank| && rank[i] == rank[j]
      ensures d.x[i] == d.x[j] && d.width[i] == d.width[j] && d.y[i] + NODE_HEIGHT + NODE_GAP <= d.y[j]
    {
      NodePlaced(rank, widths, tallest, d, i);
      NodePlaced(rank, widths, tallest, d, j);
      RowsAscend(rank, i, j);
      TopEdges(tallest, |Column(rank, rank[i], |rank|)|, Row(rank, i));
    }
  }

  lemma RowsAscend(rank: seq<nat>, i: nat, j: nat)
    requires i < j < |rank| && rank[i] == rank[j]
    ensures Row(rank, i) < Row(rank, j)
  {
    var c := Column(rank, rank[i], |rank|);
    var a, b := Row(rank, i), Row(rank, j);
    assert c[a] == i && c[b] == j;
  }

  lemma PlacedCentred(rank: seq<nat>, widths: seq<real>, tallest: real, d: Drawing)
    requires |d.x| == |d.y| == |d.width| == |rank| && Placed(rank, widths, tallest, d, |widths|)
    requires (forall i :: 0 <= i < |rank| ==> rank[i] < |widths|) && d.canvasHeight == tallest + 2.0 * MARGIN
    ensures Centred(rank, d)
  {
    hide Placed, LeftEdge, TopEdge, ColumnHeight;
    forall i, j | 0 <= i < |rank| && 0 <= j < |rank| && Spans(rank, i, j)
      ensures d.y[i] + (d.y[j] + NODE_HEIGHT) == d.canvasHeight
    {
      var c := Column(rank, rank[i], |rank|);
      NodePlaced(rank, widths, tallest, d, i);
      NodePlaced(rank, widths, tallest, d, j);
      assert i <= c[0] && c[|c| - 1] <= j;
      assert Row(rank, i) == 0 && Row(rank, j) == |c| - 1;
      Symmetric(tallest, |c|);
    }
  }

  lemma Symmetric(tallest: real, count: nat)
    requires 0 < count
    ensures TopEdge(tallest, count, 0) + (TopEdge(tallest, count, count - 1) + NODE_HEIGHT) == tallest + 2.0 * MARGIN
  {
  }

  // the widths and the height are no more than some node and some column ask for
  ghost predicate Asked(rank: seq<nat>, labels: seq<Label>, widths: seq<real>, tallest: real, upTo: nat)
    requires |labels| == |rank| && upTo <= |widths|
  {
    && (forall r :: 0 <= r < upTo ==> WidthAsked(rank, labels, r, widths[r]))
    && (tallest == 0.0 || exists r :: 0 <= r < upTo && ColumnHeight(|Column(rank, r, |rank|)|) == tallest)
  }

  lemma RowBetween(rank: seq<nat>, i: nat, j: nat)
    requires i < j < |rank| && rank[i] == rank[j] && Row(rank, j) != Row(rank, i) + 1
    ensures exists k :: i < k < j && rank[k] == rank[i]
  {
    var c := Column(rank, rank[i], |rank|);
    RowsAscend(rank, i, j);
    var k := c[Row(rank, i) + 1];
    assert i < k < j && rank[k] == rank[i];
  }

  lemma NextRowIs(rank: seq<nat>, i: nat, j: nat)
    requires NextRow(rank, i, j)
    ensures Row(rank, j) == Row(rank, i) + 1
  {
    hide Row;
    if Row(rank, j) != Row(rank, i) + 1 { RowBetween(rank, i, j); }
  }

  lemma TouchesMargin(rank: seq<nat>, labels: seq<Label>, widths: seq<real>, tallest: real, d: Drawing)
    requires |d.x| == |d.y| == |d.width| == |rank| == |labels| && Placed(rank, widths, tallest, d, |widths|)
    requires Measured(rank, labels, widths, tallest, |widths|) && Asked(rank, labels, widths, tallest, |widths|)
    requires 0 < |rank| && rank[0] < |widths|
    ensures exists i :: 0 <= i < |rank| && d.y[i] == MARGIN
  {
    hide WidthAsked;
    InColumn(rank, |rank|, 0);
    assert NODE_HEIGHT <= ColumnHeight(|Column(rank, rank[0], |rank|)|) <= tallest;
    var r :| 0 <= r < |widths| && ColumnHeight(|Column(rank, r, |rank|)|) == tallest;
    var c := Column(rank, r, |rank|);
    assert d.y[c[0]] == TopEdge(tallest, |c|, 0) == MARGIN;
  }

  lemma PlacedTight(rank: seq<nat>, labels: seq<Label>, widths: seq<real>, tallest: real, d: Drawing)
    requires |d.x| == |d.y| == |d.width| == |rank| == |labels| && Placed(rank, widths, tallest, d, |widths|)
    requires Measured(rank, labels, widths, tallest, |widths|) && Asked(rank, labels, widths, tallest, |widths|)
    requires forall i :: 0 <= i < |rank| ==> rank[i] < |widths|
    requires |widths| == 0 || exists i :: 0 <= i < |rank| && rank[i] == |widths| - 1
    requires d.canvasHeight == tallest + 2.0 * MARGIN
    requires d.canvasWidth == if |widths| == 0 then 2.0 * MARGIN else LeftEdge(widths, |widths|) - RANK_GAP + MARGIN
    ensures Tight(rank, labels, d)
  {
    hide Placed, Column, LeftEdge, TopEdge, ColumnHeight, Row, WidthAsked, Measured;
    forall i | 0 <= i < |rank|
      ensures d.x[i] == LeftEdge(widths, rank[i]) && d.width[i] == widths[rank[i]]
      ensures WidthAsked(rank, labels, rank[i], d.width[i])
    {
      NodePlaced(rank, widths, tallest, d, i);
    }
    forall i, j | 0 <= i < |rank| && 0 <= j < |rank| && NextRow(rank, i, j)
      ensures d.y[j] == d.y[i] + NODE_HEIGHT + NODE_GAP
    {
      RowsPlaced(rank, widths, tallest, d, i, j);
    }
    forall i | 0 <= i < |rank|
      ensures rank[i] == 0 ==> d.x[i] == MARGIN
      ensures LeftEdge(widths, rank[i] + 1) == d.x[i] + d.width[i] + RANK_GAP
    {
      EdgeBehind(widths, rank[i]);
    }
    if |rank| > 0 {
      var m :| 0 <= m < |rank| && rank[m] == |widths| - 1;
      TouchesMargin(rank, labels, widths, tallest, d);
    }
    assert |rank| == 0 ==> tallest == 0.0;
    hide NextRow, Asked;
  }

  lemma EdgeBehind(widths: seq<real>, r: nat)
    requires r < |widths|
    ensures LeftEdge(widths, 0) == MARGIN
    ensures LeftEdge(widths, r + 1) == LeftEdge(widths, r) + widths[r] + RANK_GAP
  {
  }

  lemma RowsPlaced(rank: seq<nat>, widths: seq<real>, tallest: real, d: Drawing, i: nat, j: nat)
    requires |d.x| == |d.y| == |d.width| == |rank| && Placed(rank, widths, tallest, d, |widths|)
    requires NextRow(rank, i, j) && rank[i] < |widths|
    ensures d.y[j] == d.y[i] + NODE_HEIGHT + NODE_GAP
  {
    hide Placed, Column, LeftEdge, TopEdge, ColumnHeight, Row;
    NodePlaced(rank, widths, tallest, d, i);
    NodePlaced(rank, widths, tallest, d, j);
    NextRowIs(rank, i, j);
    RowBelow(tallest, |Column(rank, rank[i], |rank|)|, Row(rank, i));
  }

  lemma RowBelow(tallest: real, count: nat, k: nat)
    ensures TopEdge(tallest, count, k + 1) == TopEdge(tallest, count, k) + NODE_HEIGHT + NODE_GAP
  {
  }

  // --- the loops --------------------------------------------------------------------------------------------------

  method CollectColumns(rank: seq<nat>) returns (column: seq<seq<nat>>)
    ensures forall i :: 0 <= i < |rank| ==> rank[i] < |column|
    ensures forall r :: 0 <= r < |column| ==> column[r] == Column(rank, r, |rank|)
    ensures |column| > 0 <==> |rank| > 0
    ensures |column| == 0 || exists i :: 0 <= i < |rank| && rank[i] == |column| - 1
  {
    var rankCount: nat := 0;
    for i := 0 to |rank|
      invariant forall j :: 0 <= j < i ==> rank[j] < rankCount
      invariant rankCount > 0 <==> i > 0
      invariant rankCount == 0 || exists j :: 0 <= j < i && rank[j] == rankCount - 1
    {
      rankCount := if rankCount < rank[i] + 1 then rank[i] + 1 else rankCount;
    }
    column := seq(rankCount, _ => []);
    for i := 0 to |rank|
      invariant |column| == rankCount && forall r :: 0 <= r < rankCount ==> column[r] == Column(rank, r, i)
    {
      column := column[rank[i] := column[rank[i]] + [i]];
    }
  }

  method Measure(rank: seq<nat>, labels: seq<Label>, column: seq<seq<nat>>) returns (widths: array<real>, tallest: real)
    requires |labels| == |rank| && forall i :: 0 <= i < |rank| ==> rank[i] < |column|
    requires forall r :: 0 <= r < |column| ==> column[r] == Column(rank, r, |rank|)
    ensures fresh(widths) && widths.Length == |column|
    ensures Measured(rank, labels, widths[..], tallest, |column|) && 0.0 <= tallest
    ensures Asked(rank, labels, widths[..], tallest, |column|)
  {
    hide Column, TextWidth, ColumnHeight, WidthAsked;
    widths := new real[|column|](_ => NODE_MIN_WIDTH);
    tallest := 0.0;
    for r := 0 to |column|
      invariant 0.0 <= tallest
      invariant forall q :: r <= q < |column| ==> widths[q] == NODE_MIN_WIDTH
      invariant Measured(rank, labels, widths[..], tallest, r) && Asked(rank, labels, widths[..], tallest, r)
    {
      var width := WidestOf(labels, column[r]);
      WidestAsked(rank, labels, column[r], r, width);
      widths[r] := width;
      forall i | 0 <= i < |rank| && rank[i] == r ensures TextWidth(labels[i]) + 2.0 * NODE_PADDING <= width {
        InColumn(rank, |rank|, i);
      }
      tallest := Max(tallest, ColumnHeight(|column[r]|));
    }
  }

  method WidestOf(labels: seq<Label>, column: seq<nat>) returns (width: real)
    requires forall k :: 0 <= k < |column| ==> column[k] < |labels|
    ensures NODE_MIN_WIDTH <= width
    ensures forall k :: 0 <= k < |column| ==> TextWidth(labels[column[k]]) + 2.0 * NODE_PADDING <= width
    ensures width == NODE_MIN_WIDTH || exists k :: 0 <= k < |column| && Padded(labels[column[k]]) == width
  {
    hide TextWidth;
    width := NODE_MIN_WIDTH;
    for k := 0 to |column|
      invariant NODE_MIN_WIDTH <= width
      invariant forall m :: 0 <= m < k ==> TextWidth(labels[column[m]]) + 2.0 * NODE_PADDING <= width
      invariant width == NODE_MIN_WIDTH || exists m :: 0 <= m < k && Padded(labels[column[m]]) == width
    {
      width := Max(width, TextWidth(labels[column[k]]) + 2.0 * NODE_PADDING);
    }
  }

  lemma WidestAsked(rank: seq<nat>, labels: seq<Label>, column: seq<nat>, r: nat, width: real)
    requires |labels| == |rank| && column == Column(rank, r, |rank|)
    requires width == NODE_MIN_WIDTH || exists k :: 0 <= k < |column| && Padded(labels[column[k]]) == width
    ensures WidthAsked(rank, labels, r, width)
  {
    if width != NODE_MIN_WIDTH {
      var k :| 0 <= k < |column| && Padded(labels[column[k]]) == width;
      assert rank[column[k]] == r;
    }
  }

  method PlaceNodes(rank: seq<nat>, labels: seq<Label>) returns (d: Drawing)
    requires |labels| == |rank|
    ensures |d.x| == |d.y| == |d.width| == |rank|
    ensures Fits(rank, labels, d) && Apart(rank, d) && Centred(rank, d) && Tight(rank, labels, d)
  {
    hide Measured, Asked, Placed, Fits, Apart, Centred, Tight;
    var column := CollectColumns(rank);
    var widths, tallest := Measure(rank, labels, column);
    var x, y, width, left := PlaceColumns(rank, column, widths[..], tallest);
    var canvasWidth := if |column| == 0 then 2.0 * MARGIN else left - RANK_GAP + MARGIN;
    d := Drawing(x, y, width, canvasWidth, tallest + 2.0 * MARGIN);
    PlacedAlike(rank, widths[..], tallest, Drawing(x, y, width, 0.0, 0.0), d);
    PlacedFits(rank, labels, widths[..], tallest, d);
    PlacedApart(rank, labels, widths[..], tallest, d);
    PlacedCentred(rank, widths[..], tallest, d);
    PlacedTight(rank, labels, widths[..], tallest, d);
  }

  lemma PlacedAlike(rank: seq<nat>, widths: seq<real>, tallest: real, d: Drawing, e: Drawing)
    requires |d.x| == |d.y| == |d.width| == |rank| && d.x == e.x && d.y == e.y && d.width == e.width
    requires Placed(rank, widths, tallest, d, |widths|)
    ensures Placed(rank, widths, tallest, e, |widths|)
  {
    hide Column, LeftEdge, TopEdge;
  }

  method PlaceColumns(rank: seq<nat>, column: seq<seq<nat>>, widths: seq<real>, tallest: real)
    returns (xs: seq<real>, ys: seq<real>, ws: seq<real>, left: real)
    requires |widths| == |column| && forall r :: 0 <= r < |column| ==> column[r] == Column(rank, r, |rank|)
    ensures |xs| == |ys| == |ws| == |rank|
    ensures Placed(rank, widths, tallest, Drawing(xs, ys, ws, 0.0, 0.0), |widths|) && left == LeftEdge(widths, |widths|)
  {
    hide Column, TopEdge, Placed;
    var x, y, width := new real[|rank|](_ => 0.0), new real[|rank|](_ => 0.0), new real[|rank|](_ => NODE_MIN_WIDTH);
    left := MARGIN;
    NonePlaced(rank, widths, tallest, Drawing(x[..], y[..], width[..], 0.0, 0.0));
    for r := 0 to |column|
      invariant left == LeftEdge(widths, r)
      invariant Placed(rank, widths, tallest, Drawing(x[..], y[..], width[..], 0.0, 0.0), r)
    {
      ghost var before := Drawing(x[..], y[..], width[..], 0.0, 0.0);
      PlaceColumn(rank, column[r], r, left, widths[r], tallest, x, y, width);
      NextPlaced(rank, widths, tallest, before, Drawing(x[..], y[..], width[..], 0.0, 0.0), r);
      left := left + widths[r] + RANK_GAP;
    }
    xs, ys, ws := x[..], y[..], width[..];
  }

  // the inner loop: the boxes of one column, from the top
  method PlaceColumn(rank: seq<nat>, column: seq<nat>, r: nat, left: real, w: real, tallest: real,
                     x: array<real>, y: array<real>, width: array<real>)
    requires column == Column(rank, r, |rank|) && x.Length == y.Length == width.Length == |rank|
    requires x != y && y != width && x != width
    modifies x, y, width
    ensures forall k :: 0 <= k < |column| ==>
      x[column[k]] == left && y[column[k]] == TopEdge(tallest, |column|, k) && width[column[k]] == w
    ensures forall i :: 0 <= i < |rank| && rank[i] != r ==>
      x[i] == old(x[i]) && y[i] == old(y[i]) && width[i] == old(width[i])
  {
    hide Column, ColumnHeight;
    var top := MARGIN + (tallest - ColumnHeight(|column|)) / 2.0;
    for k := 0 to |column|
      invariant top == TopEdge(tallest, |column|, k)
      invariant forall m :: 0 <= m < k ==>
        x[column[m]] == left && y[column[m]] == TopEdge(tallest, |column|, m) && width[column[m]] == w
      invariant forall i :: 0 <= i < |rank| && rank[i] != r ==>
        x[i] == old(x[i]) && y[i] == old(y[i]) && width[i] == old(width[i])
    {
      x[column[k]] := left;
      y[column[k]] := top;
      width[column[k]] := w;
      top := top + NODE_HEIGHT + NODE_GAP;
    }
  }

  lemma NonePlaced(rank: seq<nat>, widths: seq<real>, tallest: real, d: Drawing)
    requires |d.x| == |d.y| == |d.width| == |rank|
    ensures Placed(rank, widths, tallest, d, 0)
  {
  }

  lemma NextPlaced(rank: seq<nat>, widths: seq<real>, tallest: real, d: Drawing, e: Drawing, r: nat)
    requires |d.x| == |d.y| == |d.width| == |rank| && |e.x| == |e.y| == |e.width| == |rank| && r < |widths|
    requires Placed(rank, widths, tallest, d, r)
    requires forall i :: 0 <= i < |rank| && rank[i] != r ==>
      e.x[i] == d.x[i] && e.y[i] == d.y[i] && e.width[i] == d.width[i]
    requires var c := Column(rank, r, |rank|);
             forall k :: 0 <= k < |c| ==>
               e.x[c[k]] == LeftEdge(widths, r) && e.y[c[k]] == TopEdge(tallest, |c|, k) && e.width[c[k]] == widths[r]
    ensures Placed(rank, widths, tallest, e, r + 1)
  {
    hide LeftEdge, TopEdge, ColumnHeight, Column;
    forall q, k | 0 <= q < r + 1 && 0 <= k < |Column(rank, q, |rank|)|
      ensures var c := Column(rank, q, |rank|);
              e.x[c[k]] == LeftEdge(widths, q) && e.y[c[k]] == TopEdge(tallest, |c|, k) && e.width[c[k]] == widths[q]
    {
      var c := Column(rank, q, |rank|);
      assert q < r ==> rank[c[k]] != r && d.x[c[k]] == LeftEdge(widths, q);
    }
  }

  // The whole layout. Every edge the walk leaves unmarked runs from left to right, and the edges it marks lie on
  // cycles.
  method Layout(g: Graph, labels: seq<Label>) returns (d: Drawing, closesCycle: seq<bool>, ghost rank: seq<nat>)
    requires g.Valid() && |labels| == g.n
    ensures |rank| == g.n && |closesCycle| == |g.edges|
    ensures forall v :: 0 <= v < g.n ==> LongestTo(g, closesCycle, v, rank[v])
    ensures |d.x| == |d.y| == |d.width| == g.n && Centred(rank, d) && Tight(rank, labels, d)
    ensures MarkedOnCycles(g, closesCycle) && forall p :: Cycle(g, p) ==> !Kept(closesCycle, p)
    ensures forall e :: 0 <= e < |g.edges| && OnCycle(g, e) && Rooted(g, g.edges[e].to) ==> closesCycle[e]
    ensures forall e :: 0 <= e < |g.edges| && !closesCycle[e] ==>
      d.x[g.edges[e].from] + d.width[g.edges[e].from] + RANK_GAP <= d.x[g.edges[e].to]
    ensures forall i, j :: 0 <= i < g.n && 0 <= j < g.n && i != j ==> !Overlap(d, i, j)
    ensures forall i :: 0 <= i < g.n ==>
      && MARGIN <= d.x[i] && d.x[i] + d.width[i] <= d.canvasWidth - MARGIN
      && MARGIN <= d.y[i] && d.y[i] + NODE_HEIGHT <= d.canvasHeight - MARGIN
      && TextWidth(labels[i]) + 2.0 * NODE_PADDING <= d.width[i]
  {
    hide Cycle, Kept, OnCycle, Rooted, MarkedOnCycles, FinishOrder, MarksByOrder, RootsLast, LongestTo, TextWidth,
      Centred, Tight, Overlap;
    var marks, order := MarkClosingEdges(g);
    OrderMarks(g, marks[..], order);
    var ranks := RankNodes(g, marks[..], order);
    closesCycle := marks[..];
    forall e | 0 <= e < |g.edges| && OnCycle(g, e) && Rooted(g, g.edges[e].to) ensures closesCycle[e] {
      CycleIsCutAtRoot(g, closesCycle, order, e);
    }
    rank := ranks[..];
    d := PlaceNodes(ranks[..], labels);
    forall i, j | 0 <= i < g.n && 0 <= j < g.n && i != j ensures !Overlap(d, i, j) {
      BoxesDisjoint(rank, labels, d, i, j);
    }
    forall e | 0 <= e < |g.edges| && !closesCycle[e]
      ensures d.x[g.edges[e].from] + d.width[g.edges[e].from] + RANK_GAP <= d.x[g.edges[e].to]
    {
      assert rank[g.edges[e].from] < rank[g.edges[e].to];
    }
  }
}
