/**
 * The top-level navigator: binds an object navigator to a lazily fetched
 * item list and to key names.  Two caches, the items and the built
 * navigator, start empty; `MarkStale` clears both, a resize clears only the
 * navigator.  The item provider, the rounded horizontal offsets of the
 * items and the key name of an event are inputs of the calls that need them.
 * The offsets stand for the layout of the moment: a caller's column-count
 * calculator is given them with the items, so it can answer differently
 * after a resize.
 */
module GridNavigation {
  import opened Wrappers
  import opened Stepping
  import opened ObjectNavigation

  /** A failure surfaced by `navigateTo`: the column count built no walker, or the argument is invalid. */
  datatype GridError<T> = BadColumnCount(config: ConfigError) | BadInput(input: NavError<T>)

  /**
   * The `selectCallback(item, selectNow)` calls the navigator's callback makes
   * for one move `(new, previous)`: deselect the previous item if there is
   * one, then select the new one.
   */
  function SelectCalls<T>(newEl: Option<T>, prevEl: Option<T>): (r: seq<(Option<T>, bool)>)
    ensures |r| == if prevEl.Some? then 2 else 1
    ensures r[|r| - 1] == (newEl, true)
    ensures prevEl.Some? ==> r[0] == (prevEl, false)
  {
    (if prevEl.Some? then [(prevEl, false)] else []) + [(newEl, true)]
  }

  /** The first item, `undefined` (None) for an empty list. */
  function Head<T>(es: seq<T>): Option<T> {
    if |es| > 0 then Some(es[0]) else None
  }

  /** The rounded `offsetLeft` of each item. */
  function Offsets<T>(es: seq<T>, offsetLeft: T -> int): (r: seq<int>)
    ensures |r| == |es|
    ensures forall i :: 0 <= i < |es| ==> r[i] == offsetLeft(es[i])
  {
    seq(|es|, i requires 0 <= i < |es| => offsetLeft(es[i]))
  }

  /**
   * The default estimate of the column count: 1 for fewer than four items,
   * otherwise the position of the first later item that starts at the first
   * item's offset (where the layout wraps to the next row), or 1 if none does.
   */
  function EstimatedColumns(offsets: seq<int>): (n: nat)
    ensures |offsets| < 4 ==> n == 1
    ensures |offsets| >= 4 ==> 1 <= n < |offsets|
    ensures |offsets| >= 4 && n > 1 ==> offsets[n] == offsets[0] && offsets[0] !in offsets[1..n]
    ensures |offsets| >= 4 && n == 1 ==> offsets[1] == offsets[0] || offsets[0] !in offsets[1..]
  {
    if |offsets| < 4 then 1
    else
      match Find(offsets[1..], offsets[0])
      case Some(k) =>
        assert offsets[1..][..k] == offsets[1..k + 1];
        k + 1
      case None => 1
  }

  /** `columnCountEstimator`: a scan for the first item back at the first item's offset. */
  method ColumnCountEstimator(offsets: seq<int>) returns (n: nat)
    ensures n == EstimatedColumns(offsets)
  {
    if |offsets| < 4 {
      return 1;
    }
    var x := offsets[0];
    var i := 1;
    while i < |offsets|
      invariant 1 <= i <= |offsets|
      invariant x !in offsets[1..i]
    {
      if offsets[i] == x {
        assert offsets[1..][i - 1] == x && offsets[1..][..i - 1] == offsets[1..i];
        return i;
      }
      assert offsets[1..i + 1] == offsets[1..i] + [offsets[i]];
      i := i + 1;
    }
    assert offsets[1..i] == offsets[1..];
    return 1;
  }

  class GridNavigator<T(==)> {
    /** The cached items, None while stale. */
    var elements: Option<seq<T>>
    /** The cached navigator, None until built and after a resize or `MarkStale`. */
    var navigateToFn: Option<ObjectGridNavigator<T>>
    const keyMap: map<string, MoveOp>
    /**
     * A caller's `columnCountCalculator`, applied to the items and the layout
     * of the moment (their rounded offsets); None selects the default estimator.
     */
    const columnCountCalculator: Option<(seq<T>, T -> int) -> int>
    /** How often the item provider has been called. */
    ghost var providerCalls: nat
    /** The `selectCallback(item, selectNow)` calls made so far, oldest first. */
    ghost var selections: seq<(Option<T>, bool)>

    ghost function Repr(): set<object>
      reads this
    {
      {this} + if navigateToFn.Some? then {navigateToFn.value} else {}
    }

    /** A cached navigator was built on the cached items, with page size 3. */
    ghost predicate Valid()
      reads this, Repr()
    {
      navigateToFn.Some? ==>
        && elements.Some?
        && navigateToFn.value.Valid()
        && navigateToFn.value.objs == elements.value
        && navigateToFn.value.shape.pageSize == 3
    }

    constructor (keyMap: map<string, MoveOp>, columnCountCalculator: Option<(seq<T>, T -> int) -> int>)
      ensures Valid()
      ensures elements == None && navigateToFn == None
      ensures this.keyMap == keyMap && this.columnCountCalculator == columnCountCalculator
      ensures providerCalls == 0 && selections == []
    {
      elements := None;
      navigateToFn := None;
      this.keyMap := keyMap;
      this.columnCountCalculator := columnCountCalculator;
      providerCalls := 0;
      selections := [];
    }

    /** The column count used for a build: the caller's calculator, or the default estimate. */
    ghost function ColumnsFor(es: seq<T>, offsetLeft: T -> int): int {
      match columnCountCalculator
      case Some(f) => f(es, offsetLeft)
      case None => EstimatedColumns(Offsets(es, offsetLeft))
    }

    /** `columnCount()`. */
    method ColumnCount(es: seq<T>, offsetLeft: T -> int) returns (n: int)
      ensures n == ColumnsFor(es, offsetLeft)
      ensures columnCountCalculator.None? ==> 1 <= n
    {
      match columnCountCalculator {
        case Some(f) => n := f(es, offsetLeft);
        case None => n := ColumnCountEstimator(Offsets(es, offsetLeft));
      }
    }

    /**
     * `elems()`: the cached items; the provider, which would return
     * `provided`, is called only when the cache is empty.
     */
    method Elems(provided: seq<T>) returns (es: seq<T>)
      requires Valid()
      modifies this
      ensures Valid()
      ensures es == if old(elements).Some? then old(elements).value else provided
      ensures elements == Some(es) && navigateToFn == old(navigateToFn)
      ensures providerCalls == old(providerCalls) + if old(elements).None? then 1 else 0
      ensures selections == old(selections)
    {
      if elements.None? {
        elements := Some(provided);
        providerCalls := providerCalls + 1;
      }
      es := elements.value;
    }

    /** `markStale()`: both caches are cleared. */
    method MarkStale()
      modifies this
      ensures Valid()
      ensures elements == None && navigateToFn == None
      ensures providerCalls == old(providerCalls) && selections == old(selections)
    {
      elements := None;
      navigateToFn := None;
    }

    /** The resize listener: only the navigator cache is cleared. */
    method OnResize()
      requires Valid()
      modifies this
      ensures Valid()
      ensures navigateToFn == None && elements == old(elements)
      ensures providerCalls == old(providerCalls) && selections == old(selections)
    {
      navigateToFn := None;
    }

    /**
     * `buildNavigateTo()`: a fresh navigator on the items, page size 3, the
     * current column count, starting at the previously current item when it
     * is still present and otherwise at the first item.  With no cached
     * navigator the "previous" item is the first item itself.
     */
    method BuildNavigateTo(provided: seq<T>, offsetLeft: T -> int) returns (r: Result<ObjectGridNavigator<T>, ConfigError>)
      requires Valid()
      modifies this
      ensures Valid()
      ensures navigateToFn == old(navigateToFn) && selections == old(selections)
      ensures elements == Some(if old(elements).Some? then old(elements).value else provided)
      ensures providerCalls == old(providerCalls) + if old(elements).None? then 1 else 0
      ensures r.Failure? <==> ColumnsFor(elements.value, offsetLeft) <= 0
      ensures r.Failure? ==> r.error == RowLengthNotPositive
      ensures r.Success? ==>
                && fresh(r.value) && r.value.Valid() && r.value.calls == []
                && r.value.objs == elements.value
                && r.value.shape == Shape(|elements.value|, ColumnsFor(elements.value, offsetLeft), 3)
      ensures r.Success? && old(navigateToFn).None? ==> r.value.current == 0
      ensures r.Success? && old(navigateToFn).Some? ==>
                r.value.At(r.value.current) == old(navigateToFn.value.At(navigateToFn.value.current))
    {
      var prev: Option<T>;
      if navigateToFn.Some? {
        prev := navigateToFn.value.Current();
      } else {
        var es0 := Elems(provided);
        prev := Head(es0);
      }
      var es := Elems(provided);
      var found := IndexOf(es, prev, -1);
      var cur := if found != -1 then prev else Head(es);
      var columns := ColumnCount(es, offsetLeft);
      r := NewObjectGridNavigator(es, columns, 3, cur);
    }

    /**
     * `navigateTo(dirOrNode)`: builds the navigator only when none is cached,
     * keeps it, and hands it the argument (None is the query call).
     */
    method NavigateTo(dirOrNode: Option<Arg<T>>, provided: seq<T>, offsetLeft: T -> int)
      returns (r: Result<Option<T>, GridError<T>>)
      requires Valid()
      modifies Repr()
      ensures Valid()
      ensures elements == Some(if old(elements).Some? then old(elements).value else provided)
      ensures providerCalls == old(providerCalls) + if old(elements).None? then 1 else 0
      ensures old(navigateToFn).Some? ==> navigateToFn == old(navigateToFn)
      ensures old(navigateToFn).None? ==>
                if ColumnsFor(elements.value, offsetLeft) <= 0 then
                  && navigateToFn.None? && selections == old(selections)
                  && r == Failure(BadColumnCount(RowLengthNotPositive))
                else
                  && navigateToFn.Some? && fresh(navigateToFn.value)
                  && navigateToFn.value.shape == Shape(|elements.value|, ColumnsFor(elements.value, offsetLeft), 3)
      ensures navigateToFn.Some? ==>
                var nav := navigateToFn.value;
                var start := if old(navigateToFn).Some? then old(navigateToFn.value.current) else 0;
                match dirOrNode
                case None =>
                  r == Success(nav.At(start)) && nav.current == start && selections == old(selections)
                case Some(arg) =>
                  var t := nav.Target(arg, start);
                  if t < 0 then
                    && r == Failure(BadInput(InvalidDirOrNode(arg)))
                    && nav.current == start && selections == old(selections)
                  else
                    && r == Success(nav.At(t)) && nav.current == t
                    && selections == old(selections) + SelectCalls(nav.At(t), nav.At(start))
    {
      if navigateToFn.None? {
        var built := BuildNavigateTo(provided, offsetLeft);
        if built.Failure? {
          return Failure(BadColumnCount(built.error));
        }
        navigateToFn := Some(built.value);
      }
      var nav := navigateToFn.value;
      match dirOrNode {
        case None =>
          var o := nav.Current();
          r := Success(o);
        case Some(arg) =>
          var moved := nav.Navigate(arg);
          match moved {
            case Failure(e) =>
              r := Failure(BadInput(e));
            case Success(o) =>
              var call := nav.calls[|nav.calls| - 1];
              selections := selections + SelectCalls(call.0, call.1);
              r := Success(o);
          }
      }
    }

    /**
     * `onKeyDown`: not handled for an empty grid or an unmapped key name;
     * otherwise the event is suppressed (`preventDefault`, `stopPropagation`),
     * the mapped command is performed and the key is handled.
     */
    method OnKeyDown(keyName: string, provided: seq<T>, offsetLeft: T -> int)
      returns (r: Result<bool, GridError<T>>, suppressed: bool)
      requires Valid()
      modifies Repr()
      ensures Valid()
      ensures elements == Some(if old(elements).Some? then old(elements).value else provided)
      ensures providerCalls == old(providerCalls) + if old(elements).None? then 1 else 0
      ensures |elements.value| == 0 || keyName !in keyMap ==>
                && r == Success(false) && !suppressed
                && navigateToFn == old(navigateToFn) && selections == old(selections)
                && (navigateToFn.Some? ==> navigateToFn.value.current == old(navigateToFn.value.current))
      ensures old(navigateToFn).Some? ==> navigateToFn == old(navigateToFn)
      ensures |elements.value| > 0 && keyName in keyMap ==>
                && suppressed && (r.Success? ==> r.value)
                && (r.Failure? <==> old(navigateToFn).None? && ColumnsFor(elements.value, offsetLeft) <= 0)
                && (old(navigateToFn).None? && ColumnsFor(elements.value, offsetLeft) > 0 ==>
                      && navigateToFn.Some? && fresh(navigateToFn.value)
                      && navigateToFn.value.shape == Shape(|elements.value|, ColumnsFor(elements.value, offsetLeft), 3))
      ensures r.Failure? ==>
                && r.error == BadColumnCount(RowLengthNotPositive) && old(navigateToFn).None?
                && columnCountCalculator.Some? && navigateToFn.None? && selections == old(selections)
      ensures r == Success(true) ==>
                && navigateToFn.Some?
                && var nav := navigateToFn.value;
                   var start := if old(navigateToFn).Some? then old(navigateToFn.value.current) else 0;
                   && nav.current == nav.walker(keyMap[keyName], start)
                   && selections == old(selections) + SelectCalls(nav.At(nav.current), nav.At(start))
    {
      var es := Elems(provided);
      if |es| < 1 {
        return Success(false), false;
      }
      if keyName !in keyMap {
        return Success(false), false;
      }
      var op := keyMap[keyName];
      suppressed := true;
      ghost var start := if navigateToFn.Some? then navigateToFn.value.current else 0;
      var moved := NavigateTo(Some(Command(OpName(op))), provided, offsetLeft);
      if navigateToFn.Some? {
        navigateToFn.value.CommandTarget(op, start);
      }
      if moved.Failure? {
        return Failure(moved.error), suppressed;
      }
      return Success(true), suppressed;
    }
  }

  /** The caches: a resize keeps the items, `markStale` makes the next call fetch them again. */
  method CacheScenario() {
    var g := new GridNavigator<int>(map["ArrowRight" := Next], None);
    var offsetLeft := (x: int) => 0;
    var r := g.NavigateTo(None, [1, 2, 3], offsetLeft);
    assert r == Success(Some(1)) && g.providerCalls == 1;
    var k, s := g.OnKeyDown("ArrowRight", [7], offsetLeft);
    assert k == Success(true) && s && g.navigateToFn.value.current == 1;
    assert g.selections == [(Some(1), false), (Some(2), true)];
    g.OnResize();
    r := g.NavigateTo(None, [4, 5], offsetLeft);
    assert r == Success(Some(1)) && g.providerCalls == 1;
    g.MarkStale();
    r := g.NavigateTo(None, [4, 5], offsetLeft);
    assert r == Success(Some(4)) && g.providerCalls == 2;
    k, s := g.OnKeyDown("Escape", [9], offsetLeft);
    assert k == Success(false) && !s;
  }

  /**
   * A caller's calculator that reads the layout: a resize clears the
   * navigator, and the rebuilt one moves on the column count of the new layout.
   */
  method CalculatorScenario() {
    var perLayout := (es: seq<int>, off: int -> int) => off(0);
    var g := new GridNavigator<int>(map["ArrowDown" := Down], Some(perLayout));
    var wide := (x: int) => 3;
    var narrow := (x: int) => 2;
    var k, s := g.OnKeyDown("ArrowDown", [0, 1, 2, 3, 4, 5], wide);
    assert k == Success(true) && g.navigateToFn.value.current == 3;
    var nav0 := g.navigateToFn.value;
    k, s := g.OnKeyDown("ArrowDown", [9], narrow);
    assert g.navigateToFn == Some(nav0) && nav0.current == 5;
    g.OnResize();
    k, s := g.OnKeyDown("ArrowDown", [9], narrow);
    assert k == Success(true) && g.navigateToFn.value.current == 2;
  }
}
