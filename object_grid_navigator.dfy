/**
 * The object layer: maps items, compared by identity, to linear indices,
 * keeps the current selection, and fires a callback `(new, previous)` on
 * every successful move, before the current index changes.  Invalid input
 * fails atomically: no callback, no change.
 */
module ObjectNavigation {
  import opened Wrappers
  import opened Stepping
  import opened Walking

  /** The first position of `el` in `a`, if `el` occurs in `a`. */
  function Find<T(==)>(a: seq<T>, el: T): (r: Option<nat>)
    ensures r.Some? ==> r.value < |a| && a[r.value] == el && el !in a[..r.value]
    ensures r.None? <==> el !in a
  {
    if |a| == 0 then None
    else if a[0] == el then Some(0)
    else
      match Find(a[1..], el)
      case None => None
      case Some(k) =>
        assert a[..k + 1] == [a[0]] + a[1..][..k];
        Some(k + 1)
  }

  /**
   * What `indexOf(a, el, notFound)` returns: the first position of `el`, or
   * `notFound` when it does not occur; a `null` element (None) never occurs.
   */
  function Position<T(==)>(a: seq<T>, el: Option<T>, notFound: int): (r: int)
    ensures el.Some? && el.value in a ==> 0 <= r < |a| && a[r] == el.value && el.value !in a[..r]
    ensures el.None? || el.value !in a ==> r == notFound
  {
    match el
    case None => notFound
    case Some(x) =>
      match Find(a, x)
      case Some(k) => k
      case None => notFound
  }

  /** `indexOf`: a linear search that stops at the first match. */
  method IndexOf<T(==)>(a: seq<T>, el: Option<T>, notFound: int) returns (r: int)
    ensures r == Position(a, el, notFound)
  {
    var i := 0;
    while i < |a|
      invariant 0 <= i <= |a|
      invariant el.None? || el.value !in a[..i]
    {
      if el.Some? && a[i] == el.value {
        assert el.value in a;
        return i;
      }
      assert a[..i + 1] == a[..i] + [a[i]];
      i := i + 1;
    }
    assert a[..|a|] == a;
    return notFound;
  }

  /** The argument of a moving call: a command name or an item. */
  datatype Arg<T> = Command(name: string) | Node(node: T)

  /** `Invalid dirOrNode (...)`, carrying the offending argument. */
  datatype NavError<T> = InvalidDirOrNode(input: Arg<T>)

  /** The stateful navigator returned by `objectGridNavigator`. */
  class ObjectGridNavigator<T(==)> {
    /** The items, in grid order. */
    const objs: seq<T>
    /** The walker built for `objs`' length, the column count and the page size. */
    const walker: Walker
    /** The shape the walker is built on. */
    ghost const shape: Stepper
    /** The index of the current item (`prevIndex` in the source). */
    var current: nat
    /** The `(new, previous)` arguments of every callback invocation, oldest first. */
    ghost var calls: seq<(Option<T>, Option<T>)>

    ghost predicate Valid()
      reads this
    {
      && shape.size == |objs|
      && (forall op: MoveOp, i: nat :: walker(op, i) == Dispatch(shape, op, i))
      && current <= shape.LastIndex()
    }

    /** `objs[i]`: `undefined` (None) past the end, which only an empty list reaches. */
    function At(i: nat): Option<T> {
      if i < |objs| then Some(objs[i]) else None
    }

    constructor (objs: seq<T>, walker: Walker, ghost shape: Stepper, start: nat)
      requires shape.size == |objs| && start <= shape.LastIndex()
      requires forall op: MoveOp, i: nat :: walker(op, i) == Dispatch(shape, op, i)
      ensures Valid()
      ensures this.objs == objs && this.walker == walker && this.shape == shape
      ensures current == start && calls == []
    {
      this.objs := objs;
      this.walker := walker;
      this.shape := shape;
      current := start;
      calls := [];
    }

    /**
     * The index a moving call goes to from `from`: a command is walked, an
     * item is looked up; -1 when the argument is neither a command nor an item
     * of `objs` (items are never strings, so a name that is not a command is
     * not found among them).
     */
    ghost function Target(arg: Arg<T>, from: nat): int {
      match arg
      case Command(s) => if IsMoveOp(s) then walker(ParseMoveOp(s).value, from) else -1
      case Node(o) => Position(objs, Some(o), -1)
    }

    /** The query call: the current item; no callback, no change. */
    method Current() returns (o: Option<T>)
      requires Valid()
      ensures o == At(current)
      ensures o.Some? <==> |objs| > 0
    {
      o := At(current);
    }

    /**
     * A moving call.  On success the callback fires once with
     * `(objs[new], objs[old])`, the current index becomes the target and the
     * new item is returned; on failure nothing changes.
     */
    method Navigate(arg: Arg<T>) returns (r: Result<Option<T>, NavError<T>>)
      requires Valid()
      modifies this
      ensures Valid()
      ensures var t := Target(arg, old(current));
              if t < 0 then
                r == Failure(InvalidDirOrNode(arg)) && current == old(current) && calls == old(calls)
              else
                && r == Success(At(t)) && current == t
                && calls == old(calls) + [(At(t), At(old(current)))]
    {
      var newIndex: int;
      match arg {
        case Command(s) =>
          if IsMoveOp(s) {
            newIndex := walker(ParseMoveOp(s).value, current);
          } else {
            newIndex := -1;
          }
        case Node(o) =>
          newIndex := IndexOf(objs, Some(o), -1);
      }
      if newIndex < 0 {
        return Failure(InvalidDirOrNode(arg));
      }
      // The callback runs while the old index is still current.
      calls := calls + [(At(newIndex), At(current))];
      current := newIndex;
      return Success(At(current));
    }

    /** Every successful move lands on a valid index. */
    lemma TargetInRange(arg: Arg<T>, from: nat)
      requires Valid() && from <= shape.LastIndex()
      ensures Target(arg, from) >= 0 ==> Target(arg, from) <= shape.LastIndex()
      ensures Target(arg, from) >= 0 && |objs| > 0 ==> At(Target(arg, from)).Some?
    {
    }

    /** A command name always moves, to the index the walker gives. */
    lemma CommandTarget(op: MoveOp, from: nat)
      ensures Target(Command(OpName(op)), from) == walker(op, from)
    {
    }

    /** A name moves exactly when it is a command. */
    lemma CommandFails(s: string, from: nat)
      ensures Target(Command(s), from) < 0 <==> !IsMoveOp(s)
    {
    }

    /** An item moves exactly when it is in the list, to its first position. */
    lemma NodeTarget(o: T, from: nat)
      ensures Target(Node(o), from) >= 0 <==> o in objs
      ensures o in objs ==> objs[Target(Node(o), from)] == o && o !in objs[..Target(Node(o), from)]
    {
    }
  }

  /**
   * `objectGridNavigator(objs, columnCount, pageSize, callback, initialNode)`:
   * fails as the walker does; otherwise starts at the first position of
   * `initialNode`, or at 0 when it is absent or null.
   */
  method NewObjectGridNavigator<T(==)>(objs: seq<T>, columnCount: int, pageSize: int, initialNode: Option<T>)
    returns (r: Result<ObjectGridNavigator<T>, ConfigError>)
    ensures r.Failure? <==> columnCount <= 0 || pageSize <= 0
    ensures r.Failure? ==> r.error == (if columnCount <= 0 then RowLengthNotPositive else PageSizeNotPositive)
    ensures r.Success? ==>
              && fresh(r.value) && r.value.Valid()
              && r.value.objs == objs && r.value.shape == Shape(|objs|, columnCount, pageSize)
              && r.value.current == Position(objs, initialNode, 0) && r.value.calls == []
  {
    var prevIndex := IndexOf(objs, initialNode, 0);
    var w := GridWalker(|objs|, columnCount, pageSize);
    if w.Failure? {
      return Failure(w.error);
    }
    var nav := new ObjectGridNavigator(objs, w.value, Shape(|objs|, columnCount, pageSize), prevIndex);
    return Success(nav);
  }

  /** Five items in two columns: `next` visits 1, 2, 3, 4 and wraps to 0, one callback each. */
  method NavigatingWithDirection() {
    var a := [10, 11, 12, 13, 14];
    var built := NewObjectGridNavigator(a, 2, 3, Some(10));
    var nav := built.value;
    var first := nav.Current();
    assert first == Some(10);
    var r := nav.Navigate(Command("next"));
    assert r == Success(Some(11)) && nav.calls == [(Some(11), Some(10))];
    r := nav.Navigate(Command("next"));
    assert r == Success(Some(12));
    r := nav.Navigate(Command("next"));
    assert r == Success(Some(13));
    r := nav.Navigate(Command("next"));
    assert r == Success(Some(14));
    r := nav.Navigate(Command("next"));
    assert r == Success(Some(10)) && |nav.calls| == 5;
  }

  /** Moving to an item, and failing on an unknown item or command without a change. */
  method NavigatingToItems() {
    var a := [10, 11, 12, 13, 14];
    var built := NewObjectGridNavigator(a, 2, 3, Some(10));
    var nav := built.value;
    var r := nav.Navigate(Node(13));
    assert r == Success(Some(13)) && nav.calls == [(Some(13), Some(10))];
    r := nav.Navigate(Node(99));
    assert r.Failure? && nav.current == 3 && |nav.calls| == 1;
    r := nav.Navigate(Command("go west"));
    assert r.Failure? && nav.current == 3 && |nav.calls| == 1;
    var cur := nav.Current();
    assert cur == Some(13);
  }

  /** A move that stays put (`up` from the first row) still fires the callback; the initial item may be any item. */
  method StationaryMove() {
    var a := [10, 11, 12, 13, 14];
    var built := NewObjectGridNavigator(a, 2, 3, Some(12));
    var nav := built.value;
    var cur := nav.Current();
    assert cur == Some(12);
    var r := nav.Navigate(Command("first"));
    r := nav.Navigate(Command("up"));
    assert r == Success(Some(10)) && nav.calls == [(Some(10), Some(12)), (Some(10), Some(10))];
    var none := NewObjectGridNavigator(a, 2, 3, None);
    cur := none.value.Current();
    assert cur == Some(10);
  }
}
