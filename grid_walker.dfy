/**
 * The walker: a stepper bound to the uniform call shape
 * `(command, index) -> index`.  Building it builds the stepper, so it fails
 * exactly when the stepper's checks fail.
 */
module Walking {
  import opened Wrappers
  import opened Stepping

  /** `walker[dir](value)`: the stepper operation a command names. */
  function Dispatch(s: Stepper, op: MoveOp, i: nat): (r: nat)
    ensures i <= s.LastIndex() ==> r <= s.LastIndex()
  {
    match op
    case Prev => s.Prev(i)
    case Next => s.Next(i)
    case First => s.First()
    case Last => s.Last()
    case Down => s.Down(i)
    case Up => s.Up(i)
    case Left => s.Left(i)
    case Right => s.Right(i)
    case StartOfLine => s.StartOfLine(i)
    case EndOfLine => s.EndOfLine(i)
    case PageUp => s.PageUp(i)
    case PageDown => s.PageDown(i)
  }

  /** The walker's call shape; it carries no position of its own. */
  type Walker = (MoveOp, nat) -> nat

  /**
   * `gridWalker({cellCount, columnCount, pageSize})`: fails exactly when the
   * stepper for that shape cannot be built, and otherwise answers every
   * command as that stepper does.
   */
  function GridWalker(cellCount: nat, columnCount: int, pageSize: int): (r: Result<Walker, ConfigError>)
    ensures r.Failure? <==> NewStepper(cellCount, columnCount, pageSize).Failure?
    ensures r.Failure? ==> r.error == NewStepper(cellCount, columnCount, pageSize).error
    ensures r.Success? ==>
              && columnCount > 0 && pageSize > 0
              && forall op: MoveOp, i: nat ::
                   r.value(op, i) == Dispatch(Shape(cellCount, columnCount, pageSize), op, i)
  {
    match NewStepper(cellCount, columnCount, pageSize)
    case Failure(e) => Failure(e)
    case Success(s) => Success((op: MoveOp, i: nat) => Dispatch(s, op, i))
  }

  /** Building a walker fails exactly for a non-positive column count or page size. */
  lemma GridWalkerFails(cellCount: nat, columnCount: int, pageSize: int)
    ensures GridWalker(cellCount, columnCount, pageSize).Failure? <==> columnCount <= 0 || pageSize <= 0
    ensures columnCount <= 0 ==> GridWalker(cellCount, columnCount, pageSize) == Failure(RowLengthNotPositive)
    ensures columnCount > 0 && pageSize <= 0 ==>
              GridWalker(cellCount, columnCount, pageSize) == Failure(PageSizeNotPositive)
  {
  }

  /** `first` and `last` ignore the index they are given. */
  lemma WalkerFirstLast(cellCount: nat, columnCount: int, pageSize: int, i: nat)
    requires GridWalker(cellCount, columnCount, pageSize).Success?
    ensures GridWalker(cellCount, columnCount, pageSize).value(First, i) == 0
    ensures GridWalker(cellCount, columnCount, pageSize).value(Last, i) ==
              if cellCount == 0 then 0 else cellCount - 1
  {
  }

  /** A walker answers every command within the grid for every index within the grid. */
  lemma WalkerInRange(cellCount: nat, columnCount: int, pageSize: int, op: MoveOp, i: nat)
    requires GridWalker(cellCount, columnCount, pageSize).Success?
    requires i < cellCount || i == 0
    ensures var r := GridWalker(cellCount, columnCount, pageSize).value(op, i);
            r < cellCount || r == 0
  {
  }

  /** The walker vectors for `(cellCount 8, columnCount 3, pageSize 5)`. */
  lemma WalkerVectors()
    ensures GridWalker(8, 3, 5).Success?
    ensures GridWalker(8, 3, 5).value(Next, 1) == 2
    ensures GridWalker(8, 3, 5).value(Next, 2) == 3
    ensures GridWalker(8, 3, 5).value(Next, 3) == 4
    ensures GridWalker(8, 3, 5).value(Down, 1) == 4
    ensures GridWalker(8, 3, 5).value(PageDown, 1) == 7
  {
  }
}
