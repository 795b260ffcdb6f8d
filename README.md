# grid-navigator in Dafny

A model of the keyboard grid-navigation engine of `grid-navigator`: items
laid out row by row in a grid, one current selection, and movement commands
(`next`, `down`, `pageUp`, ...) that compute a new position.

- `Stepping` (`stepper.dfy`) covers `src/stepper.ts`. It holds the twelve commands as `MoveOp`,
  their names and the `isMoveOp` membership test. A `Stepper` is a grid shape
  `(size, rowLength, pageSize)` that passed the constructor's checks. Each
  command is a function from an index to an index. `next`/`prev` wrap around.
  Every other command clamps to `[0, LastIndex()]`.
- `Walking` (`grid_walker.dfy`) covers `src/grid-walker.ts`. `GridWalker` builds the stepper and returns a
  pure function `(command, index) -> index`. `Dispatch` is the
  `walker[dir](value)` lookup, written as a `match`.
- `ObjectNavigation` (`object_grid_navigator.dfy`) covers `src/object-grid-navigator.ts`. It holds
  `IndexOf` (a first-match search) and the class `ObjectGridNavigator`, the closure
  returned by `objectGridNavigator`. Its field `current` is the closure's
  `prevIndex`. The ghost field `calls` records every callback invocation
  `(new, previous)`. `Current` is the call without an argument. `Navigate` is the
  call with a command name or an item.
- `GridNavigation` (`grid_navigator.dfy`) covers `src/grid-navigator.ts`. The class `GridNavigator` has
  two `Option` caches, `elements` and `navigateToFn`. It has `MarkStale`, the
  resize handler `OnResize`, `NavigateTo`, `BuildNavigateTo`, `OnKeyDown` and the
  default `ColumnCountEstimator`. The ghost field `selections` records the
  `selectCallback(item, selectNow)` calls.
- `KeyMaps` (`key_maps.dfy`) covers `src/key-maps.ts`. It has the four preset maps, and
  `ConsolidatedMap` as a right-biased `Spread` of them.

Some values are inputs instead of being read from the environment:
- what the item provider would return (`provided`);
- the rounded `offsetLeft` of each item (`offsetLeft: T -> int`);
- the key name produced from a keyboard event (`keyName`).

A caller's `columnCountCalculator` is applied to the items and to the same
`offsetLeft` input, which stands for the layout of the moment. So after a
resize it can give a different column count. `CalculatorScenario` shows a
rebuilt navigator moving on the new count.

`undefined` and `null` items are `None`.

The comment at src/grid-navigator.ts:148 says a rebuild preserves the
current item. But `navigateTo` calls `buildNavigateTo` only when the cached
navigator is `null` (src/grid-navigator.ts:127). So the preserving branch at
line 149 is never taken, and every rebuilt navigator starts at the first
item. The model follows the code.
`BuildNavigateTo` models both branches. The postcondition of `NavigateTo` says
a rebuilt navigator starts at index 0. `CacheScenario` shows that after a
resize the selection goes back to the first item.

## Model

| member | source | states |
|---|---|---|
| Stepping.ParseMoveOp | src/stepper.ts:52-56 | a string parses only to the command whose name it is |
| Stepping.OpNameRoundTrip | src/stepper.ts:52-56 | each command's name parses back to that command |
| Stepping.IsMoveOpExactly | src/stepper.ts:58-60 | `isMoveOp(s)` holds exactly when `s` is one of the twelve command names |
| Stepping.IsMoveOpVectors | src/stepper-spec.ts:76-91 | `next`, `up`, `down`, `first`, `pageDown` are commands; `sideways`, `lastIndex`, `rowLength`, `size`, `pageSize` are not |
| Stepping.OpName | src/stepper.ts:52 | the name of each command (see `OpNameRoundTrip`) |
| Stepping.IsMoveOp | src/stepper.ts:58-60 | membership in the command names (see `IsMoveOpExactly`) |
| Stepping.Shape.LastIndex | src/stepper.ts:27 | `max(0, size - 1)`: the largest index below a non-empty size, 0 for an empty grid |
| Stepping.Shape.Prev | src/stepper.ts:30 | the result is an index of the grid for every argument |
| Stepping.Shape.Next | src/stepper.ts:31 | the result is an index of the grid for every argument |
| Stepping.Shape.First | src/stepper.ts:32 | an index of the grid |
| Stepping.Shape.Last | src/stepper.ts:33 | an index of the grid, the final one when the grid is non-empty |
| Stepping.Shape.Down | src/stepper.ts:34 | an index of the grid, not before an in-grid argument |
| Stepping.Shape.Up | src/stepper.ts:35 | never after the argument |
| Stepping.Shape.Left | src/stepper.ts:36 | at most one cell before the argument |
| Stepping.Shape.Right | src/stepper.ts:37-41 | an index of the grid, at most one cell after an in-grid argument and not before it |
| Stepping.Shape.StartOfLine | src/stepper.ts:42 | never after the argument |
| Stepping.Shape.EndOfLine | src/stepper.ts:43-45 | an index of the grid, not before an in-grid argument |
| Stepping.Shape.PageUp | src/stepper.ts:46 | never after the argument |
| Stepping.Shape.PageDown | src/stepper.ts:47 | an index of the grid, not before an in-grid argument |
| Stepping.NewStepper | src/stepper.ts:22-28 | building fails exactly when rowLength <= 0 or pageSize <= 0; the row-length error takes precedence; size is never checked |
| Stepping.NewStepperVectors | src/stepper-spec.ts:21-40 | `(0,0,3)` reports the row length, `(0,3,0)` the page size, `(0,1,3)` builds |
| Stepping.NextWraps | src/stepper.ts:31 | on a non-empty grid `next` advances by one and maps the last index to 0 |
| Stepping.PrevWraps | src/stepper.ts:30 | on a non-empty grid `prev` steps back by one and maps 0 to the last index |
| Stepping.NextPrevInverse | src/stepper.ts:30-31 | `prev(next(i)) == i` and `next(prev(i)) == i` for every valid index, and both stay in range |
| Stepping.LeftStaysInRow | src/stepper.ts:36 | `left` stays in the row; it moves back exactly one cell unless at column 0, where it stays |
| Stepping.RightStaysInRow | src/stepper.ts:37-41 | `right` stays in the row and in range; it stays put exactly at the row's last column or the last index |
| Stepping.StartOfLineIsRowStart | src/stepper.ts:42 | `startOfLine(i)` is at column 0 of `i`'s row, within one row length below `i` |
| Stepping.StartOfLineIsLargest | src/stepper.ts:42 | every multiple of the row length that is <= `i` is <= `startOfLine(i)` |
| Stepping.EndOfLineIsRowEnd | src/stepper.ts:43-45 | `endOfLine(i)` is in `i`'s row, at or after `i`, in range, and is the row's last column or the last index (short last row) |
| Stepping.UpMovesOneRow | src/stepper.ts:35 | `up` moves to the same column one row up, or to 0 from the first row |
| Stepping.DownMovesOneRow | src/stepper.ts:34 | `down` moves to the same column one row down, or clamps to the last index |
| Stepping.PageUpMovesPage | src/stepper.ts:46 | `pageUp` moves `pageSize` rows up in the same column, or to 0 |
| Stepping.PageDownMovesPage | src/stepper.ts:47 | `pageDown` moves `pageSize` rows down in the same column, or clamps to the last index |
| Stepping.DegenerateStepper | src/stepper-spec.ts:6-37 | with size 0 or 1 every command at index 0 gives 0 |
| Stepping.RegularWrapVectors | src/stepper-spec.ts:47-64 | shape (8,3,2): `next(0)=1`, `next(7)=0`, `prev(0)=7`, `prev(3)=2`, `first()=0`, `last()=7` |
| Stepping.RegularVerticalVectors | src/stepper-spec.ts:52-70 | shape (8,3,2): `up`, `down`, `pageUp(7)=1`, `pageDown(0)=6` |
| Stepping.RegularRowVectors | src/stepper-spec.ts:58-67 | shape (8,3,2): `left`, `right` and `endOfLine(6)=7` on the short last row |
| Walking.Dispatch | src/grid-walker.ts:22 | the command's stepper operation, with a result in `[0, lastIndex]` for every index in it |
| Walking.GridWalker | src/grid-walker.ts:11-23 | fails exactly as the stepper construction fails, with the same error; otherwise answers every `(dir, i)` as the stepper operation `dir` at `i` |
| Walking.GridWalkerFails | src/grid-walker.ts:21 | a walker cannot be built exactly when columnCount <= 0 or pageSize <= 0 |
| Walking.WalkerFirstLast | src/grid-walker.ts:22 | `first` gives 0 and `last` gives `max(0, cellCount - 1)` whatever the index |
| Walking.WalkerInRange | src/grid-walker.ts:22 | a walker maps every index of the grid to an index of the grid |
| Walking.WalkerVectors | src/grid-walker-spec.ts:5-24 | shape (8,3,5): `next` 1→2→3→4, `down(1)=4`, `pageDown(1)=7` |
| ObjectNavigation.Find | src/object-grid-navigator.ts:23-30 | the first position holding the element, or none exactly when it does not occur |
| ObjectNavigation.Position | src/object-grid-navigator.ts:23-30 | `indexOf`'s answer: the first position of the element, else the not-found value; null is never found |
| ObjectNavigation.IndexOf | src/object-grid-navigator.ts:23-30 | the loop returns exactly `Position(a, el, notFound)` |
| ObjectNavigation.NewObjectGridNavigator | src/object-grid-navigator.ts:52-71 | fails exactly when the walker cannot be built; otherwise starts at the first position of the initial item, or 0 when it is absent or null, with no callback yet |
| ObjectNavigation.ObjectGridNavigator.constructor | src/object-grid-navigator.ts:67-71 | the navigator holds the items, the walker and the starting index |
| ObjectNavigation.ObjectGridNavigator.Current | src/object-grid-navigator.ts:76-92 | the query call returns the current item and changes nothing |
| ObjectNavigation.ObjectGridNavigator.Navigate | src/object-grid-navigator.ts:76-92 | on a valid target: one callback `(objs[new], objs[old])`, then the index moves and the new item is returned, even when new equals old; otherwise an `Invalid dirOrNode` error with no callback and no change |
| ObjectNavigation.ObjectGridNavigator.TargetInRange | src/object-grid-navigator.ts:79-84 | every target that is not an error is a valid index holding an item |
| ObjectNavigation.ObjectGridNavigator.CommandTarget | src/object-grid-navigator.ts:79-80 | a command name moves to `walker(op, current)` |
| ObjectNavigation.ObjectGridNavigator.CommandFails | src/object-grid-navigator.ts:79-84 | a name fails exactly when it is not a command |
| ObjectNavigation.ObjectGridNavigator.NodeTarget | src/object-grid-navigator.ts:81-84 | an item moves exactly when it is in the list, to its first position |
| GridNavigation.SelectCalls | src/grid-navigator.ts:155-160 | deselect the previous item, if there is one, then select the new item |
| GridNavigation.Offsets | src/grid-navigator.ts:177-180 | one offset per item, the i-th being the i-th item's rounded `offsetLeft` |
| GridNavigation.EstimatedColumns | src/grid-navigator.ts:175-182 | 1 below four items; otherwise in `[1, length-1]` and the first later item at the first item's offset, or 1 if none is |
| GridNavigation.ColumnCountEstimator | src/grid-navigator.ts:175-182 | the loop returns exactly `EstimatedColumns(offsets)` |
| GridNavigation.GridNavigator.constructor | src/grid-navigator.ts:84-103 | both caches start empty; the key map and the calculator are kept |
| GridNavigation.GridNavigator.ColumnCount | src/grid-navigator.ts:164-166 | the caller's calculator if given, else the default estimate, which is at least 1 |
| GridNavigation.GridNavigator.Elems | src/grid-navigator.ts:141-145 | the provider is called only when the item cache is empty; the cached items are returned until cleared |
| GridNavigation.GridNavigator.MarkStale | src/grid-navigator.ts:136-139 | both caches are cleared |
| GridNavigation.GridNavigator.OnResize | src/grid-navigator.ts:101-102 | only the navigator cache is cleared; the items stay cached |
| GridNavigation.GridNavigator.BuildNavigateTo | src/grid-navigator.ts:147-162 | a fresh navigator on the cached items with page size 3 and the current column count, failing exactly when that count is not positive; with no cached navigator it starts at index 0, otherwise at the previously current item |
| GridNavigation.GridNavigator.NavigateTo | src/grid-navigator.ts:126-129 | builds a navigator only when none is cached and keeps it; a rebuilt one starts at index 0; the argument gets the object navigator's query, move or error behaviour, and each move adds the deselect/select calls |
| GridNavigation.GridNavigator.OnKeyDown | src/grid-navigator.ts:110-124 | not handled, nothing suppressed and nothing moved for an empty grid or an unmapped key; otherwise suppressed and moved by the mapped command from the cached navigator's index, or from 0 on a rebuilt navigator with the current column count and page size 3; a cached navigator is kept; for a mapped key on a non-empty grid it fails exactly when a rebuild is needed and the column count is not positive, which the default estimator never gives |
| KeyMaps.NavAndArrowMap | src/key-maps.ts:8-19 | the navigation and arrow preset |
| KeyMaps.NumpadMap | src/key-maps.ts:22-33 | the numeric keypad preset |
| KeyMaps.ViMap | src/key-maps.ts:35-52 | the vi preset |
| KeyMaps.EmacsMap | src/key-maps.ts:54-67 | the Emacs preset |
| KeyMaps.Spread | src/key-maps.ts:69-74 | object spread of several maps, later maps winning (see `SpreadKeys`, `SpreadPrecedence`) |
| KeyMaps.ConsolidatedMap | src/key-maps.ts:69-74 | the spread of the four presets (see `ConsolidatedIsUnion`) |
| KeyMaps.SpreadKeys | src/key-maps.ts:69-74 | a spread has exactly the keys of its maps |
| KeyMaps.SpreadPrecedence | src/key-maps.ts:69-74 | in a spread a key takes its value from the last map that has it |
| KeyMaps.ConsolidatedIsUnion | src/key-maps.ts:69-74 | the consolidated map is `EMACS + VI + NUMPAD + NAV_AND_ARROW` with later maps winning |
| KeyMaps.ConsolidatedKeys | src/key-maps.ts:69-74 | its keys are the union of the four presets' keys |
| KeyMaps.NavAndArrowWins | src/key-maps.ts:8-19 | every navigation and arrow entry appears unchanged |
| KeyMaps.ViOverridesEmacs | src/key-maps.ts:50-64 | `Ctrl + B` pages up and `Ctrl + F` pages down, vi overriding Emacs |
| KeyMaps.EmacsEntrySurvives | src/key-maps.ts:65-74 | `Ctrl + N`, shared with no later preset, maps to `down` |
| KeyMaps.NumpadEntrySurvives | src/key-maps.ts:26 | `Numpad4` maps to `left` |
| KeyMaps.ArrowLeftIsPrev | src/key-maps.ts:9 | `ArrowLeft` maps to `prev`, not `left` |

## Left out

- The `.js` files: they are compiled or older variants of the `.ts` sources.
- Negative or fractional sizes and indices, and JavaScript's `%` on negative
  numbers: `size` and indices are natural numbers. `NaN` appears only as the
  `size == 0` case of `next`/`prev`, which gives 0.
- `isMoveOp` on values that are not strings (such as `7`): the argument is a
  `string`, and the call argument of the navigator is either a name or an item,
  so a non-string that is not an item cannot be passed.
- `ObjectNavigation.ObjectGridNavigator.Navigate`: items are opaque objects, never strings. So a
  name that is not a command is not looked up among the items, since
  `indexOf` could not find it there. An item that is itself a command name is not modelled.
- The text of the error message (`JSON.stringify` of the argument): the error carries the argument.
- The keyboard-event-to-string translator and its options: the key name is an input.
- `DEFAULT_STANDARD`, the default key map, is not exported by `src/key-maps.ts`: the key map is a constructor argument.
- Key names that a plain JavaScript object inherits (`toString`, ...): the key map is a finite map.
- `window.addEventListener` and the listener that is never removed: resize is the method `OnResize`.
- `offsetLeft` and `Math.round`, both on floating point: the rounded offsets are an input.
- `GridNavigation.GridNavigator.ColumnCount`: a caller's calculator sees the layout only through the items' rounded offsets; any other page state it might read is not modelled.
- `preventDefault`/`stopPropagation`: recorded together as the `suppressed` result of `OnKeyDown`.
- The callbacks are not run: their calls are recorded in the ghost fields
  `calls` and `selections`. What a caller's callback or calculator would do
  as a side effect is not modelled.
- The TypeScript-level helpers in `src/base-types.d.ts` and the reflection that builds `MOVE_OPS`: replaced by the `MoveOp` datatype.
