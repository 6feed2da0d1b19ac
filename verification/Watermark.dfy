/** The grid of watermarks on a page: recomputing the counts and gaps, and placing the marks. */
module Watermark {
  import opened Prelude

  /** parseInt( a / b ): truncation toward zero; None is not-a-number. */
  function ParseIntQuotient(a: int, b: int): Option<int> {
    if b == 0 then None
    else if (a >= 0) == (b > 0) then Some(Abs(a) / Abs(b))
    else Some(-(Abs(a) / Abs(b)))
  }

  function Abs(a: int): nat {
    if a >= 0 then a else -a
  }

  /** One direction of the grid: where it starts, the extent of a mark, their number, and the gap between them. */
  datatype Axis = Axis(start: int, size: int, count: int, space: Option<int>)

  /** The extent of the page up to the end of the n-th mark. */
  function Extent(a: Axis, n: int): int
    requires a.space.Some?
  {
    a.start + a.size * n + a.space.value * (n - 1)
  }

  /** The settings of the source: marks have a positive size, gaps and offsets are not negative. */
  predicate Proper(a: Axis) {
    a.start >= 0 && a.size > 0 && a.space.Some? && a.space.value >= 0 && a.count >= 0
  }

  predicate TooMany(a: Axis, page: int)
    requires a.space.Some?
  {
    a.count == 0 || Extent(a, a.count) > page
  }

  /** The recomputation of a count and a gap. */
  function Adjusted(a: Axis, page: int): Axis
    requires Proper(a)
  {
    if !TooMany(a, page) then a
    else
      var count := ParseIntQuotient(page - a.start + a.space.value, a.size + a.space.value).value;
      a.(count := count, space := ParseIntQuotient(page - a.start - a.size * count, count - 1))
  }

  // ----- the count and the gap -----

  lemma Quotient(n: int, d: int) returns (q: int)
    requires n >= 0 && d > 0
    ensures q == n / d && ParseIntQuotient(n, d) == Some(q) && q >= 0 && d * q <= n < d * (q + 1)
  {
    q := n / d;
    assert n == d * q + n % d;
    assert d * (q + 1) == d * q + d;
  }

  lemma ExtentGrows(a: Axis, m: int, n: int)
    requires Proper(a) && m < n
    ensures Extent(a, m) < Extent(a, n)
  {
    var d := n - m;
    assert a.size * n == a.size * m + a.size * d;
    assert a.space.value * (n - 1) == a.space.value * (m - 1) + a.space.value * d;
    assert a.size * d > 0 && a.space.value * d >= 0;
  }

  lemma ExtentAsMultiple(a: Axis, n: int)
    requires a.space.Some?
    ensures Extent(a, n) == a.start - a.space.value + (a.size + a.space.value) * n
  {
  }

  /** The recomputed count is the largest that fits with the gap as configured. */
  lemma CountIsLargest(a: Axis, page: int)
    requires Proper(a) && TooMany(a, page) && Extent(a, 1) <= page
    ensures var n := Adjusted(a, page).count;
      n >= 1 && Extent(a, n) <= page && forall m :: m > n ==> Extent(a, m) > page
  {
    var d := a.size + a.space.value;
    ExtentAsMultiple(a, 1);
    var n := Quotient(page - a.start + a.space.value, d);
    assert d * 1 == d;
    ExtentAsMultiple(a, n);
    ExtentAsMultiple(a, n + 1);
    forall m | m > n ensures Extent(a, m) > page {
      if m > n + 1 { ExtentGrows(a, n + 1, m); }
    }
  }

  /** With room for two marks: the gap does not shrink, and what is left over is less than one pixel per gap. */
  lemma GapFillsPage(a: Axis, page: int)
    requires Proper(a) && TooMany(a, page) && Extent(a, 2) <= page
    ensures var b := Adjusted(a, page);
      && b.count >= 2 && b.space.Some? && b.space.value >= a.space.value
      && 0 <= page - Extent(b, b.count) < b.count - 1
  {
    ExtentGrows(a, 1, 2);
    CountIsLargest(a, page);
    var n := Adjusted(a, page).count;
    assert n >= 2;
    var room := page - a.start - a.size * n;
    var q := Spread(room, n - 1, a.space.value, n);
  }

  /** Dividing the room among the gaps, in plain numbers. */
  lemma Spread(room: int, gaps: int, g: int, n: int) returns (q: int)
    requires gaps > 0 && gaps == n - 1 && g >= 0 && g * gaps <= room
    ensures ParseIntQuotient(room, gaps) == Some(q) && g <= q
    ensures 0 <= room - q * (n - 1) < n - 1
  {
    assert g * gaps >= 0 by { Scale(gaps, 0, g); }
    q := Quotient(room, gaps);
    GapAtLeast(g, q, gaps, room);
    Products(gaps, q);
  }

  lemma Products(d: int, q: int)
    ensures d * q == q * d && d * (q + 1) == q * d + d
  {
  }

  lemma GapAtLeast(g: int, q: int, d: int, room: int)
    requires d > 0 && g * d <= room < d * (q + 1)
    ensures g <= q
  {
    if g > q { assert d * g >= d * (q + 1) by { Scale(d, q + 1, g); } }
  }

  lemma Scale(d: int, x: int, y: int)
    requires d > 0 && x <= y
    ensures d * x <= d * y
  {
    assert d * y == d * x + d * (y - x);
  }

  // ----- positions -----

  function Position(a: Axis, j: int): Option<int> {
    if a.space.None? then None else Some(a.start + (a.size + a.space.value) * j)
  }

  /** The marks in this direction are on the page, one after the other, from the start on and with the gap between them. */
  ghost predicate WellPlaced(a: Axis, page: int) {
    forall j :: 0 <= j < a.count ==> Spot(a, page, j)
  }

  ghost predicate Spot(a: Axis, page: int, j: int) {
    && a.space.Some? && Position(a, j).Some?
    && (j == 0 ==> Position(a, j).value == a.start)
    && (j > 0 ==> Position(a, j - 1).Some? && Position(a, j).value == Position(a, j - 1).value + a.size + a.space.value)
    && 0 <= Position(a, j).value && Position(a, j).value + a.size <= page
    && (forall k :: 0 <= k < j ==> Position(a, k).Some? && Position(a, k).value + a.size <= Position(a, j).value)
  }

  lemma FittingIsPlaced(a: Axis, page: int)
    requires Proper(a) && (a.count > 0 ==> Extent(a, a.count) <= page)
    ensures WellPlaced(a, page)
  {
    var d := a.size + a.space.value;
    forall j | 0 <= j < a.count ensures Spot(a, page, j) {
      if j + 1 < a.count { ExtentGrows(a, j + 1, a.count); }
      ExtentAsMultiple(a, j + 1);
      assert d * (j + 1) == d * j + d && d * (j - 1) == d * j - d;
      assert d * j >= 0;
      forall k | 0 <= k < j ensures Position(a, k).value + a.size <= Position(a, j).value {
        Scale(d, k + 1, j);
        assert d * (k + 1) == d * k + d;
      }
    }
  }

  /** After the adjustment the marks are placed well if and only if it did not leave a single one, for which there is no gap to compute. */
  lemma PlacedIffNotSingle(a: Axis, page: int)
    requires Proper(a)
    ensures WellPlaced(Adjusted(a, page), page) <==> NotSingle(a, page)
  {
    var b := Adjusted(a, page);
    if !TooMany(a, page) {
      FittingIsPlaced(a, page);
    } else if Extent(a, 1) > page {
      NoRoom(a, page);
    } else if page < Extent(a, 2) {
      CountIsLargest(a, page);
      if b.count > 2 { ExtentGrows(a, 2, b.count); }
      assert b.count == 1 && b.space == None;
      assert !Spot(b, page, 0);
    } else {
      GapFillsPage(a, page);
      FittingIsPlaced(b, page);
    }
  }

  lemma PlacedIsFitting(a: Axis, page: int)
    requires Proper(a)
    ensures WellPlaced(a, page) <==> a.count == 0 || Extent(a, a.count) <= page
  {
    if a.count == 0 || Extent(a, a.count) <= page {
      FittingIsPlaced(a, page);
    } else {
      ExtentAsMultiple(a, a.count);
      var d := a.size + a.space.value;
      assert d * a.count == d * (a.count - 1) + d;
      assert !Spot(a, page, a.count - 1);
    }
  }

  /** The configured gap, with another number of marks. */
  function WithCount(a: Axis, count: int): Axis {
    a.(count := count)
  }

  function WithSpace(a: Axis, space: int): Axis {
    a.(space := Some(space))
  }

  /**
   Marks that are placed well as configured stay as they are. Otherwise there are as
   many as can be placed well with the configured gap, none if not even one can, and
   two or more of them get the widest gap with which they still can.
   */
  lemma AdjustedOutright(a: Axis, page: int)
    requires Proper(a)
    ensures var b := Adjusted(a, page);
      && b.start == a.start && b.size == a.size
      && if a.count > 0 && WellPlaced(a, page) then b == a
         else if !WellPlaced(WithCount(a, 1), page) then b.count <= 0
         else
           && b.count >= 1 && WellPlaced(WithCount(a, b.count), page) && !WellPlaced(WithCount(a, b.count + 1), page)
           && (b.count >= 2 ==> b.space.Some? && WellPlaced(b, page) && !WellPlaced(WithSpace(b, b.space.value + 1), page))
  {
    var b := Adjusted(a, page);
    hide WellPlaced;
    PlacedIsFitting(a, page);
    PlacedIsFitting(WithCount(a, 1), page);
    if !(a.count > 0 && WellPlaced(a, page)) {
      assert TooMany(a, page);
      if Extent(a, 1) > page { NoRoom(a, page); } else { RecomputedOutright(a, page); }
    }
  }

  lemma RecomputedOutright(a: Axis, page: int)
    requires Proper(a) && TooMany(a, page) && Extent(a, 1) <= page
    ensures var b := Adjusted(a, page);
      && b.count >= 1 && WellPlaced(WithCount(a, b.count), page) && !WellPlaced(WithCount(a, b.count + 1), page)
      && (b.count >= 2 ==> b.space.Some? && WellPlaced(b, page) && !WellPlaced(WithSpace(b, b.space.value + 1), page))
  {
    var b := Adjusted(a, page);
    assert b.start == a.start && b.size == a.size;
    hide WellPlaced, Adjusted, Extent;
    CountIsLargest(a, page);
    SameExtent(a, b.count);
    SameExtent(a, b.count + 1);
    PlacedIsFitting(WithCount(a, b.count), page);
    PlacedIsFitting(WithCount(a, b.count + 1), page);
    if b.count >= 2 { WidestGap(a, page); }
  }

  lemma SameExtent(a: Axis, n: int)
    requires a.space.Some?
    ensures Extent(WithCount(a, n), n) == Extent(a, n)
  {
  }

  lemma WidestGap(a: Axis, page: int)
    requires Proper(a) && TooMany(a, page) && Extent(a, 1) <= page && Adjusted(a, page).count >= 2
    ensures var b := Adjusted(a, page);
      b.space.Some? && WellPlaced(b, page) && !WellPlaced(WithSpace(b, b.space.value + 1), page)
  {
    var b := Adjusted(a, page);
    assert b.start == a.start && b.size == a.size;
    hide WellPlaced, Adjusted, Extent;
    CountIsLargest(a, page);
    if b.count > 2 { ExtentGrows(a, 2, b.count); }
    GapFillsPage(a, page);
    PlacedIsFitting(b, page);
    PlacedIsFitting(WithSpace(b, b.space.value + 1), page);
    WiderExtent(b);
  }

  lemma WiderExtent(b: Axis)
    requires b.space.Some?
    ensures Extent(WithSpace(b, b.space.value + 1), b.count) == Extent(b, b.count) + b.count - 1
  {
    var g, n := b.space.value, b.count - 1;
    assert (g + 1) * n == g * n + n;
  }

  /** Two marks of 60 with a gap of 10 on a page of 100: the count becomes 1 and the gap is not a number. */
  lemma SingleMarkIsLost()
    ensures var a := Axis(0, 60, 2, Some(10));
      && Proper(a) && Adjusted(a, 100) == Axis(0, 60, 1, None) && !WellPlaced(Adjusted(a, 100), 100)
  {
    assert !Spot(Axis(0, 60, 1, None), 100, 0);
  }

  /** No mark is placed when there is no room for one. */
  lemma NoRoom(a: Axis, page: int)
    requires Proper(a) && TooMany(a, page) && Extent(a, 1) > page
    ensures Adjusted(a, page).count <= 0
  {
    var n, d := page - a.start + a.space.value, a.size + a.space.value;
    assert n < d;
    if n >= 0 {
      var q := Quotient(n, d);
      if q >= 1 { Scale(d, 1, q); }
    }
  }

  // ----- the marks -----

  datatype Mark = Mark(x: Option<int>, y: Option<int>)

  /** The marks of one row, from column j on. */
  function Row(ax: Axis, y: Option<int>, j: int): seq<Mark>
    decreases ax.count - j
  {
    if j >= ax.count then [] else [Mark(Position(ax, j), y)] + Row(ax, y, j + 1)
  }

  /** The rows from row i on. */
  function Grid(ax: Axis, ay: Axis, i: int): seq<Mark>
    decreases ay.count - i
  {
    if i >= ay.count then [] else Row(ax, Position(ay, i), 0) + Grid(ax, ay, i + 1)
  }

  ghost predicate OnPage(m: Mark, width: int, height: int, pageWidth: int, pageHeight: int) {
    && m.x.Some? && m.y.Some? && 0 <= m.x.value && m.x.value + width <= pageWidth
    && 0 <= m.y.value && m.y.value + height <= pageHeight
  }

  /** m ends to the left of n or above it. */
  ghost predicate Before(m: Mark, n: Mark, width: int, height: int) {
    && m.x.Some? && m.y.Some? && n.x.Some? && n.y.Some?
    && (m.x.value + width <= n.x.value || m.y.value + height <= n.y.value)
  }

  ghost predicate Disjoint(marks: seq<Mark>, width: int, height: int) {
    forall p, q :: 0 <= p < q < |marks| ==> Before(marks[p], marks[q], width, height)
  }

  lemma {:induction false} RowMember(ax: Axis, y: Option<int>, j: int, m: Mark) returns (k: int)
    requires m in Row(ax, y, j)
    ensures j <= k < ax.count && m == Mark(Position(ax, k), y)
    decreases ax.count - j
  {
    if m == Mark(Position(ax, j), y) { k := j; } else { k := RowMember(ax, y, j + 1, m); }
  }

  lemma {:induction false} GridMember(ax: Axis, ay: Axis, i: int, m: Mark) returns (j: int, k: int)
    requires m in Grid(ax, ay, i)
    ensures 0 <= j < ax.count && i <= k < ay.count && m == Mark(Position(ax, j), Position(ay, k))
    decreases ay.count - i
  {
    if m in Row(ax, Position(ay, i), 0) {
      j := RowMember(ax, Position(ay, i), 0, m);
      k := i;
    } else {
      j, k := GridMember(ax, ay, i + 1, m);
    }
  }

  lemma DisjointConcat(a: seq<Mark>, b: seq<Mark>, width: int, height: int)
    requires Disjoint(a, width, height) && Disjoint(b, width, height)
    requires forall m, n :: m in a && n in b ==> Before(m, n, width, height)
    ensures Disjoint(a + b, width, height)
  {
  }

  lemma {:induction false} RowDisjoint(ax: Axis, y: Option<int>, j: int, page: int, height: int)
    requires WellPlaced(ax, page) && y.Some? && 0 <= j
    ensures Disjoint(Row(ax, y, j), ax.size, height)
    decreases ax.count - j
  {
    if j < ax.count {
      RowDisjoint(ax, y, j + 1, page, height);
      var first := Mark(Position(ax, j), y);
      forall n | n in Row(ax, y, j + 1) ensures Before(first, n, ax.size, height) {
        var k := RowMember(ax, y, j + 1, n);
        assert Spot(ax, page, k);
      }
      DisjointConcat([first], Row(ax, y, j + 1), ax.size, height);
    }
  }

  lemma {:induction false} GridDisjoint(ax: Axis, ay: Axis, i: int, pageWidth: int, pageHeight: int)
    requires WellPlaced(ax, pageWidth) && WellPlaced(ay, pageHeight) && 0 <= i
    ensures Disjoint(Grid(ax, ay, i), ax.size, ay.size)
    decreases ay.count - i
  {
    if i < ay.count {
      GridDisjoint(ax, ay, i + 1, pageWidth, pageHeight);
      assert Spot(ay, pageHeight, i);
      RowDisjoint(ax, Position(ay, i), 0, pageWidth, ay.size);
      var row, rest := Row(ax, Position(ay, i), 0), Grid(ax, ay, i + 1);
      forall m, n | m in row && n in rest ensures Before(m, n, ax.size, ay.size) {
        var j := RowMember(ax, Position(ay, i), 0, m);
        var l, k := GridMember(ax, ay, i + 1, n);
        assert Spot(ax, pageWidth, j) && Spot(ax, pageWidth, l) && Spot(ay, pageHeight, k);
      }
      DisjointConcat(row, rest, ax.size, ay.size);
    }
  }

  /** Marks that are placed well in both directions are on the page and do not overlap. */
  lemma MarksOnPage(ax: Axis, ay: Axis, pageWidth: int, pageHeight: int)
    requires WellPlaced(ax, pageWidth) && WellPlaced(ay, pageHeight)
    ensures Disjoint(Grid(ax, ay, 0), ax.size, ay.size)
    ensures forall m :: m in Grid(ax, ay, 0) ==> OnPage(m, ax.size, ay.size, pageWidth, pageHeight)
  {
    GridDisjoint(ax, ay, 0, pageWidth, pageHeight);
    forall m | m in Grid(ax, ay, 0) ensures OnPage(m, ax.size, ay.size, pageWidth, pageHeight) {
      var j, k := GridMember(ax, ay, 0, m);
      assert Spot(ax, pageWidth, j) && Spot(ay, pageHeight, k);
    }
  }

  lemma {:induction false} RowAt(ax: Axis, y: Option<int>, j: int, k: int)
    requires 0 <= j <= k < ax.count
    ensures |Row(ax, y, j)| == ax.count - j && Row(ax, y, j)[k - j] == Mark(Position(ax, k), y)
    decreases ax.count - j
  {
    if j < k { RowAt(ax, y, j + 1, k); }
    else if j + 1 < ax.count { RowAt(ax, y, j + 1, j + 1); }
    else { assert Row(ax, y, j + 1) == []; }
  }

  /** The mark at row k and column j, counting rows from i. */
  lemma {:induction false} GridAt(ax: Axis, ay: Axis, i: int, j: int, k: int)
    requires 0 <= j < ax.count && 0 <= i <= k < ay.count
    ensures |Grid(ax, ay, i)| == ax.count * (ay.count - i)
    ensures 0 <= ax.count * (k - i) + j < ax.count * (ay.count - i)
    ensures Grid(ax, ay, i)[ax.count * (k - i) + j] == Mark(Position(ax, j), Position(ay, k))
    decreases ay.count - i
  {
    RowAt(ax, Position(ay, i), 0, j);
    hide Row, Position;
    var c, n, m := ax.count, ay.count - i, k - i;
    Once(c, n);
    if i + 1 < ay.count {
      GridAt(ax, ay, i + 1, j, if i < k then k else i + 1);
      if i < k { Once(c, m); } else { Never(c, m); }
    } else {
      assert Grid(ax, ay, i + 1) == [];
      Never(c, m);
      Never(c, n - 1);
    }
  }

  lemma Once(c: int, n: int)
    ensures c * n == c + c * (n - 1)
  {
  }

  lemma Never(c: int, n: int)
    requires n == 0
    ensures c * n == 0
  {
  }

  /** There is a mark at every crossing, row by row, and no other. */
  lemma GridIsComplete(ax: Axis, ay: Axis, j: int, k: int)
    requires 0 <= j < ax.count && 0 <= k < ay.count
    ensures var marks := Grid(ax, ay, 0);
      && |marks| == ax.count * ay.count && 0 <= ax.count * k + j < |marks|
      && marks[ax.count * k + j] == Mark(Position(ax, j), Position(ay, k))
  {
    GridAt(ax, ay, 0, j, k);
  }

  // ----- the settings object -----

  class Settings {
    var x: int
    var y: int
    var cols: int
    var rows: int
    var xSpace: Option<int>
    var ySpace: Option<int>
    const width: int
    const height: int

    constructor (x: int, y: int, cols: int, rows: int, xSpace: int, ySpace: int, width: int, height: int)
      ensures Columns() == Axis(x, width, cols, Some(xSpace)) && Lines() == Axis(y, height, rows, Some(ySpace))
    {
      this.x, this.y, this.cols, this.rows := x, y, cols, rows;
      this.xSpace, this.ySpace, this.width, this.height := Some(xSpace), Some(ySpace), width, height;
    }

    function Columns(): Axis
      reads this
    {
      Axis(x, width, cols, xSpace)
    }

    function Lines(): Axis
      reads this
    {
      Axis(y, height, rows, ySpace)
    }

    /** The two recomputations, each overwriting the count first and then the gap. */
    method Recompute(pageWidth: int, pageHeight: int)
      requires Proper(Columns()) && Proper(Lines())
      modifies this
      ensures Columns() == Adjusted(old(Columns()), pageWidth) && Lines() == Adjusted(old(Lines()), pageHeight)
    {
      if cols == 0 || x + width * cols + xSpace.value * (cols - 1) > pageWidth {
        cols := ParseIntQuotient(pageWidth - x + xSpace.value, width + xSpace.value).value;
        xSpace := ParseIntQuotient(pageWidth - x - width * cols, cols - 1);
      }
      if rows == 0 || y + height * rows + ySpace.value * (rows - 1) > pageHeight {
        rows := ParseIntQuotient(ySpace.value + pageHeight - y, height + ySpace.value).value;
        ySpace := ParseIntQuotient(pageHeight - y - height * rows, rows - 1);
      }
    }

    /** The inner loop: one row of marks. */
    method PlaceRow(i: int, marks: seq<Mark>) returns (more: seq<Mark>)
      ensures more == marks + Row(Columns(), Position(Lines(), i), 0)
    {
      var top := if ySpace.None? then None else Some(y + (ySpace.value + height) * i);
      assert top == Position(Lines(), i) by { Commute(ySpace, height); }
      more := marks;
      var j := 0;
      while j < cols
        invariant 0 <= j && more + Row(Columns(), top, j) == marks + Row(Columns(), top, 0)
      {
        var left := if xSpace.None? then None else Some(x + (width + xSpace.value) * j);
        assert Row(Columns(), top, j) == [Mark(left, top)] + Row(Columns(), top, j + 1);
        more := more + [Mark(left, top)];
        j := j + 1;
      }
    }

    /** The outer loop. */
    method Place() returns (marks: seq<Mark>)
      ensures marks == Grid(Columns(), Lines(), 0)
    {
      hide Row;
      marks := [];
      var i := 0;
      while i < rows
        invariant 0 <= i && marks + Grid(Columns(), Lines(), i) == Grid(Columns(), Lines(), 0)
      {
        marks := PlaceRow(i, marks);
        i := i + 1;
      }
    }

    /** watermark, once the settings are in: unless a count is cut down to one, the marks are on the page and do not overlap. */
    method Layout(pageWidth: int, pageHeight: int) returns (marks: seq<Mark>)
      requires Proper(Columns()) && Proper(Lines())
      modifies this
      ensures marks == Grid(Adjusted(old(Columns()), pageWidth), Adjusted(old(Lines()), pageHeight), 0)
      ensures NotSingle(old(Columns()), pageWidth) && NotSingle(old(Lines()), pageHeight) ==>
        && Disjoint(marks, width, height)
        && forall m :: m in marks ==> OnPage(m, width, height, pageWidth, pageHeight)
    {
      ghost var ax, ay := Columns(), Lines();
      Recompute(pageWidth, pageHeight);
      marks := Place();
      if NotSingle(ax, pageWidth) && NotSingle(ay, pageHeight) {
        PlacedIffNotSingle(ax, pageWidth);
        PlacedIffNotSingle(ay, pageHeight);
        MarksOnPage(Adjusted(ax, pageWidth), Adjusted(ay, pageHeight), pageWidth, pageHeight);
      }
    }
  }

  /** The count is not recomputed, or there is no room for one mark, or there is room for two. */
  predicate NotSingle(a: Axis, page: int)
    requires a.space.Some?
  {
    !(TooMany(a, page) && Extent(a, 1) <= page < Extent(a, 2))
  }

  lemma Commute(space: Option<int>, size: int)
    ensures space.Some? ==> space.value + size == size + space.value
  {
  }
}
