/**
 * The index-stepping engine: for a grid shape (`size` items laid out in rows
 * of `rowLength`, pages of `pageSize` rows) each movement command maps a
 * linear index to a new one.  `next`/`prev` wrap around; every other command
 * clamps to `[0, LastIndex()]`.
 */
module Stepping {
  import opened Wrappers

  /** The twelve movement commands, the public index-returning operations of a stepper. */
  datatype MoveOp =
    | Prev | Next | First | Last | Down | Up
    | Left | Right | StartOfLine | EndOfLine | PageUp | PageDown

  /** The method name under which a command is known to callers and to key maps. */
  function OpName(op: MoveOp): string {
    match op
    case Prev => "prev"
    case Next => "next"
    case First => "first"
    case Last => "last"
    case Down => "down"
    case Up => "up"
    case Left => "left"
    case Right => "right"
    case StartOfLine => "startOfLine"
    case EndOfLine => "endOfLine"
    case PageUp => "pageUp"
    case PageDown => "pageDown"
  }

  /** The command a string names, if it names one. */
  function ParseMoveOp(s: string): (r: Option<MoveOp>)
    ensures r.Some? ==> OpName(r.value) == s
  {
    if s == "prev" then Some(Prev)
    else if s == "next" then Some(Next)
    else if s == "first" then Some(First)
    else if s == "last" then Some(Last)
    else if s == "down" then Some(Down)
    else if s == "up" then Some(Up)
    else if s == "left" then Some(Left)
    else if s == "right" then Some(Right)
    else if s == "startOfLine" then Some(StartOfLine)
    else if s == "endOfLine" then Some(EndOfLine)
    else if s == "pageUp" then Some(PageUp)
    else if s == "pageDown" then Some(PageDown)
    else None
  }

  /** Membership of a string in the fixed command set. */
  predicate IsMoveOp(s: string) {
    ParseMoveOp(s).Some?
  }

  /** Every command's name parses back to that command. */
  lemma OpNameRoundTrip(op: MoveOp)
    ensures ParseMoveOp(OpName(op)) == Some(op)
  {
  }

  /** `IsMoveOp` holds exactly of the twelve command names. */
  lemma IsMoveOpExactly(s: string)
    ensures IsMoveOp(s) <==> exists op: MoveOp :: OpName(op) == s
  {
  }

  /** The membership vectors: names of fields and other strings are not commands. */
  lemma IsMoveOpVectors()
    ensures IsMoveOp("next") && IsMoveOp("up") && IsMoveOp("down")
    ensures IsMoveOp("first") && IsMoveOp("pageDown")
    ensures !IsMoveOp("sideways")
    ensures !IsMoveOp("lastIndex") && !IsMoveOp("rowLength")
    ensures !IsMoveOp("size") && !IsMoveOp("pageSize")
  {
  }

  /** The reason a stepper cannot be built. */
  datatype ConfigError = RowLengthNotPositive | PageSizeNotPositive

  /**
   * A grid shape.  Only shapes with a positive row length and page size are
   * steppers; `size` is never checked.
   */
  datatype Shape = Shape(size: nat, rowLength: int, pageSize: int) {

    predicate Valid() {
      rowLength > 0 && pageSize > 0
    }

    /** `max(0, size - 1)`: the last valid index, 0 for an empty grid. */
    function LastIndex(): (r: nat)
      ensures size > 0 ==> r < size <= r + 1
      ensures size == 0 ==> r == 0
    {
      if size == 0 then 0 else size - 1
    }

    /** The row an index lies in. */
    function Row(i: nat): nat
      requires Valid()
    {
      i / rowLength
    }

    /** The column an index lies in. */
    function Column(i: nat): nat
      requires Valid()
    {
      i % rowLength
    }

    /** Wraps from the first index to the last; an empty grid gives 0. */
    function Prev(i: nat): (r: nat)
      requires Valid()
      ensures r <= LastIndex()
    {
      if size == 0 then 0 else (i - 1 + size) % size
    }

    /** Wraps from the last index to the first; an empty grid gives 0. */
    function Next(i: nat): (r: nat)
      requires Valid()
      ensures r <= LastIndex()
    {
      if size == 0 then 0 else (i + 1) % size
    }

    function First(): (r: nat)
      ensures r <= LastIndex()
    {
      0
    }

    function Last(): (r: nat)
      ensures r <= LastIndex() && (size > 0 ==> r + 1 == size)
    {
      LastIndex()
    }

    function Down(i: nat): (r: nat)
      requires Valid()
      ensures r <= LastIndex()
      ensures i <= LastIndex() ==> i <= r
    {
      Min(LastIndex(), i + rowLength)
    }

    function Up(i: nat): (r: nat)
      requires Valid()
      ensures r <= i
    {
      Max0(i - rowLength)
    }

    function Left(i: nat): (r: nat)
      requires Valid()
      ensures r <= i && i - r <= 1
    {
      if i % rowLength > 0 then i - 1 else i
    }

    function Right(i: nat): (r: nat)
      requires Valid()
      ensures r <= LastIndex()
      ensures i <= LastIndex() ==> i <= r <= i + 1
    {
      Min(LastIndex(), if i % rowLength != rowLength - 1 then i + 1 else i)
    }

    function StartOfLine(i: nat): (r: nat)
      requires Valid()
      ensures r <= i
    {
      i - i % rowLength
    }

    function EndOfLine(i: nat): (r: nat)
      requires Valid()
      ensures r <= LastIndex()
      ensures i <= LastIndex() ==> i <= r
    {
      Min(LastIndex(), i - i % rowLength + rowLength - 1)
    }

    function PageUp(i: nat): (r: nat)
      requires Valid()
      ensures r <= i
    {
      Max0(i - pageSize * rowLength)
    }

    function PageDown(i: nat): (r: nat)
      requires Valid()
      ensures r <= LastIndex()
      ensures i <= LastIndex() ==> i <= r
    {
      Min(LastIndex(), i + pageSize * rowLength)
    }
  }

  /** A shape that passed the constructor's checks. */
  type Stepper = s: Shape | s.Valid() witness Shape(0, 1, 1)

  function Min(a: nat, b: int): nat {
    if b < a then if b < 0 then 0 else b else a
  }

  function Max0(a: int): nat {
    if a < 0 then 0 else a
  }

  /**
   * The constructor: the row length is checked first, then the page size;
   * the size is not checked at all.
   */
  function NewStepper(size: nat, rowLength: int, pageSize: int): (r: Result<Stepper, ConfigError>)
    ensures r.Success? <==> rowLength > 0 && pageSize > 0
    ensures rowLength <= 0 ==> r == Failure(RowLengthNotPositive)
    ensures rowLength > 0 && pageSize <= 0 ==> r == Failure(PageSizeNotPositive)
    ensures r.Success? ==> r.value == Shape(size, rowLength, pageSize)
  {
    if rowLength <= 0 then Failure(RowLengthNotPositive)
    else if pageSize <= 0 then Failure(PageSizeNotPositive)
    else Success(Shape(size, rowLength, pageSize))
  }

  /** The construction vectors: `(0, 0, 3)` reports the row length, `(0, 3, 0)` the page size. */
  lemma NewStepperVectors()
    ensures NewStepper(0, 0, 3) == Failure(RowLengthNotPositive)
    ensures NewStepper(0, 3, 0) == Failure(PageSizeNotPositive)
    ensures NewStepper(0, 0, 0) == Failure(RowLengthNotPositive)
    ensures NewStepper(0, 1, 3).Success?
  {
  }

  // ---------------------------------------------------------------------
  // Division facts used by the row and column lemmas

  /** `n / d` and `n % d` are the unique quotient and remainder. */
  lemma DivModOf(n: int, d: int, q: int, m: int)
    requires d > 0 && 0 <= m < d && n == q * d + m
    ensures n / d == q && n % d == m
  {
    var q', m' := n / d, n % d;
    assert n == q' * d + m';
    if q' < q {
      MulGap(q, q', d);
      assert false;
    } else if q' > q {
      MulGap(q', q, d);
      assert false;
    }
  }

  /** Distinct multiples of `d` are at least `d` apart. */
  lemma MulGap(a: int, b: int, d: int)
    requires a > b && d > 0
    ensures a * d - b * d >= d
  {
    var k := a - b - 1;
    assert a * d - b * d == (k + 1) * d == k * d + d;
    assert k * d >= 0;
  }

  /** Moving by whole rows keeps the column and shifts the row. */
  lemma ShiftRows(s: Stepper, i: nat, k: int)
    requires i + k * s.rowLength >= 0
    ensures s.Column(i + k * s.rowLength) == s.Column(i)
    ensures s.Row(i + k * s.rowLength) == s.Row(i) + k
  {
    var rl := s.rowLength;
    assert i == (i / rl) * rl + i % rl;
    assert i + k * rl == (i / rl + k) * rl + i % rl;
    DivModOf(i + k * rl, rl, i / rl + k, i % rl);
  }

  // ---------------------------------------------------------------------
  // Wrapping commands

  /** `next` advances by one and wraps from the last index to 0. */
  lemma NextWraps(s: Stepper, i: nat)
    requires s.size >= 1 && i <= s.LastIndex()
    ensures i < s.LastIndex() ==> s.Next(i) == i + 1
    ensures i == s.LastIndex() ==> s.Next(i) == 0
  {
  }

  /** `prev` goes back by one and wraps from 0 to the last index. */
  lemma PrevWraps(s: Stepper, i: nat)
    requires s.size >= 1 && i <= s.LastIndex()
    ensures 0 < i ==> s.Prev(i) == i - 1
    ensures i == 0 ==> s.Prev(i) == s.LastIndex()
  {
  }

  /** `prev` and `next` undo each other on every valid index. */
  lemma NextPrevInverse(s: Stepper, i: nat)
    requires s.size >= 1 && i <= s.LastIndex()
    ensures s.Next(i) <= s.LastIndex() && s.Prev(s.Next(i)) == i
    ensures s.Prev(i) <= s.LastIndex() && s.Next(s.Prev(i)) == i
  {
    NextWraps(s, i);
    PrevWraps(s, i);
    PrevWraps(s, s.Next(i));
    NextWraps(s, s.Prev(i));
  }

  // ---------------------------------------------------------------------
  // Row-bound commands

  /** `left` stays in the row: it moves back one cell unless at the row's start. */
  lemma LeftStaysInRow(s: Stepper, i: nat)
    ensures s.Row(s.Left(i)) == s.Row(i)
    ensures s.Left(i) <= i <= s.Left(i) + 1
    ensures s.Left(i) == i <==> s.Column(i) == 0
  {
    if i % s.rowLength > 0 {
      DivModOf(i - 1, s.rowLength, i / s.rowLength, i % s.rowLength - 1);
    }
  }

  /** `right` stays in the row: it moves on one cell unless at the row's end or the last index. */
  lemma RightStaysInRow(s: Stepper, i: nat)
    requires i <= s.LastIndex()
    ensures s.Row(s.Right(i)) == s.Row(i)
    ensures i <= s.Right(i) <= i + 1 && s.Right(i) <= s.LastIndex()
    ensures s.Right(i) == i <==> s.Column(i) == s.rowLength - 1 || i == s.LastIndex()
  {
    if i % s.rowLength != s.rowLength - 1 {
      DivModOf(i + 1, s.rowLength, i / s.rowLength, i % s.rowLength + 1);
    }
  }

  /** `startOfLine` is the multiple of the row length that starts `i`'s row. */
  lemma StartOfLineIsRowStart(s: Stepper, i: nat)
    ensures s.Column(s.StartOfLine(i)) == 0 && s.Row(s.StartOfLine(i)) == s.Row(i)
    ensures s.StartOfLine(i) <= i < s.StartOfLine(i) + s.rowLength
  {
    var rl := s.rowLength;
    assert i - i % rl == (i / rl) * rl;
    DivModOf(i - i % rl, rl, i / rl, 0);
  }

  /** No multiple of the row length lies strictly between `startOfLine(i)` and `i`. */
  lemma StartOfLineIsLargest(s: Stepper, i: nat, m: nat)
    requires m % s.rowLength == 0 && m <= i
    ensures m <= s.StartOfLine(i)
  {
    var rl := s.rowLength;
    var a, b := m / rl, i / rl;
    assert m == a * rl;
    assert i - i % rl == b * rl;
    if a > b {
      MulGap(a, b, rl);
      assert false;
    }
    assert a * rl <= b * rl;
  }

  /**
   * `endOfLine` is the last cell of `i`'s row that exists: the row's end, or
   * the last index on a short final row.
   */
  lemma EndOfLineIsRowEnd(s: Stepper, i: nat)
    requires i <= s.LastIndex()
    ensures s.Row(s.EndOfLine(i)) == s.Row(i)
    ensures i <= s.EndOfLine(i) <= s.LastIndex()
    ensures s.EndOfLine(i) == s.LastIndex() || s.Column(s.EndOfLine(i)) == s.rowLength - 1
  {
    var rl := s.rowLength;
    var e := i - i % rl + rl - 1;
    assert e == (i / rl) * rl + (rl - 1);
    DivModOf(e, rl, i / rl, rl - 1);
    if s.LastIndex() < e {
      var c := s.LastIndex();
      assert c == (i / rl) * rl + (i % rl + (c - i));
      DivModOf(c, rl, i / rl, i % rl + (c - i));
    }
  }

  // ---------------------------------------------------------------------
  // Vertical commands: they keep the column or clamp

  /** `up` moves to the cell directly above, or to 0 from the first row. */
  lemma UpMovesOneRow(s: Stepper, i: nat)
    ensures i >= s.rowLength ==> s.Column(s.Up(i)) == s.Column(i) && s.Row(s.Up(i)) + 1 == s.Row(i)
    ensures i < s.rowLength ==> s.Up(i) == 0
  {
    if i >= s.rowLength {
      ShiftRows(s, i, -1);
    }
  }

  /** `down` moves to the cell directly below, or clamps to the last index. */
  lemma DownMovesOneRow(s: Stepper, i: nat)
    ensures i + s.rowLength <= s.LastIndex() ==>
              s.Column(s.Down(i)) == s.Column(i) && s.Row(s.Down(i)) == s.Row(i) + 1
    ensures i + s.rowLength > s.LastIndex() ==> s.Down(i) == s.LastIndex()
  {
    ShiftRows(s, i, 1);
  }

  /** `pageUp` moves `pageSize` rows up in the same column, or to 0. */
  lemma PageUpMovesPage(s: Stepper, i: nat)
    ensures i >= s.pageSize * s.rowLength ==>
              s.Column(s.PageUp(i)) == s.Column(i) && s.Row(s.PageUp(i)) + s.pageSize == s.Row(i)
    ensures i < s.pageSize * s.rowLength ==> s.PageUp(i) == 0
  {
    if i >= s.pageSize * s.rowLength {
      assert i - s.pageSize * s.rowLength == i + (-s.pageSize) * s.rowLength;
      ShiftRows(s, i, -s.pageSize);
    }
  }

  /** `pageDown` moves `pageSize` rows down in the same column, or clamps to the last index. */
  lemma PageDownMovesPage(s: Stepper, i: nat)
    ensures i + s.pageSize * s.rowLength <= s.LastIndex() ==>
              s.Column(s.PageDown(i)) == s.Column(i) && s.Row(s.PageDown(i)) == s.Row(i) + s.pageSize
    ensures i + s.pageSize * s.rowLength > s.LastIndex() ==> s.PageDown(i) == s.LastIndex()
  {
    ShiftRows(s, i, s.pageSize);
  }

  // ---------------------------------------------------------------------
  // Degenerate and concrete grids

  /** In an empty or one-item grid every command at index 0 gives 0. */
  lemma DegenerateStepper(s: Stepper)
    requires s.size <= 1
    ensures s.Prev(0) == 0 && s.Next(0) == 0 && s.First() == 0 && s.Last() == 0
    ensures s.Down(0) == 0 && s.Up(0) == 0 && s.Left(0) == 0 && s.Right(0) == 0
    ensures s.StartOfLine(0) == 0 && s.EndOfLine(0) == 0
    ensures s.PageUp(0) == 0 && s.PageDown(0) == 0
  {
  }

  /** The shape `(size 8, rowLength 3, pageSize 2)` of the stepper's tests. */
  const Regular: Stepper := Shape(8, 3, 2)

  /** The wrapping and first/last vectors for `Regular`. */
  lemma RegularWrapVectors()
    ensures Regular.Next(0) == 1 && Regular.Next(7) == 0
    ensures Regular.Prev(0) == 7 && Regular.Prev(3) == 2
    ensures Regular.First() == 0 && Regular.Last() == 7
  {
  }

  /** The vertical vectors for `Regular`. */
  lemma RegularVerticalVectors()
    ensures Regular.Up(0) == 0 && Regular.Up(4) == 1
    ensures Regular.Down(0) == 3 && Regular.Down(3) == 6 && Regular.Down(6) == 7 && Regular.Down(7) == 7
    ensures Regular.PageUp(7) == 1 && Regular.PageDown(0) == 6
  {
  }

  /** The in-row vectors for `Regular`, with `endOfLine(6) == 7` on the short last row. */
  lemma RegularRowVectors()
    ensures Regular.Left(1) == 0 && Regular.Left(0) == 0
    ensures Regular.Right(0) == 1 && Regular.Right(2) == 2 && Regular.Right(7) == 7
    ensures Regular.EndOfLine(0) == 2 && Regular.EndOfLine(6) == 7 && Regular.StartOfLine(0) == 0
  {
  }
}
