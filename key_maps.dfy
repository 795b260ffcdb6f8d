/**
 * Preset maps from key names to commands, and the consolidated map that
 * spreads them in order, later presets overriding earlier ones.
 */
module KeyMaps {
  import opened Stepping

  type KeyMap = map<string, MoveOp>

  /** Arrow and navigation keys, after the WAI-ARIA data-grid keyboard interaction. */
  const NavAndArrowMap: KeyMap := map[
    "ArrowLeft" := Prev,
    "ArrowRight" := Next,
    "ArrowUp" := Up,
    "ArrowDown" := Down,
    "PageDown" := PageDown,
    "PageUp" := PageUp,
    "Home" := StartOfLine,
    "End" := EndOfLine,
    "Ctrl + Home" := First,
    "Ctrl + End" := Last
  ]

  const NumpadMap: KeyMap := map[
    "Numpad1" := EndOfLine,
    "Numpad2" := Down,
    "Numpad3" := PageDown,
    "Numpad4" := Left,
    "Numpad6" := Right,
    "Numpad7" := StartOfLine,
    "Numpad8" := Up,
    "Numpad9" := PageUp,
    "Ctrl + Numpad7" := First,
    "Ctrl + Numpad1" := Last
  ]

  const ViMap: KeyMap := map[
    "Comma" := First,
    "Digit4" := Last,
    "H" := Left,
    "J" := Down,
    "K" := Up,
    "Key$" := EndOfLine,
    "L" := Right,
    "O" := StartOfLine,
    "Shift + Comma" := First,
    "Shift + Digit4" := EndOfLine,
    "Shift + Digit6" := StartOfLine,
    "Shift + G" := Last,
    "Shift + H" := First,
    "Shift + L" := Last,
    "Ctrl + B" := PageUp,
    "Ctrl + F" := PageDown
  ]

  const EmacsMap: KeyMap := map[
    "A" := StartOfLine,
    "B" := Prev,
    "E" := EndOfLine,
    "F" := Next,
    "N" := Down,
    "P" := Up,
    "Ctrl + A" := StartOfLine,
    "Ctrl + B" := Prev,
    "Ctrl + E" := EndOfLine,
    "Ctrl + F" := Next,
    "Ctrl + N" := Down,
    "Ctrl + P" := Up
  ]

  /** `{...m0, ...m1, ...}`: a spread of maps in order, a later map winning on a shared key. */
  function Spread<K, V>(ms: seq<map<K, V>>): map<K, V>
  {
    if |ms| == 0 then map[] else Spread(ms[..|ms| - 1]) + ms[|ms| - 1]
  }

  /** A spread has exactly the keys of its maps. */
  lemma {:induction false} SpreadKeys<K, V>(ms: seq<map<K, V>>, k: K)
    ensures k in Spread(ms) <==> exists j :: 0 <= j < |ms| && k in ms[j]
  {
    if |ms| > 0 {
      var init := ms[..|ms| - 1];
      SpreadKeys(init, k);
      if k in Spread(ms) && k !in ms[|ms| - 1] {
        var j :| 0 <= j < |init| && k in init[j];
        assert k in ms[j];
      }
      if exists j :: 0 <= j < |ms| && k in ms[j] {
        var j :| 0 <= j < |ms| && k in ms[j];
        if j < |ms| - 1 {
          assert k in init[j];
        }
      }
    }
  }

  /** In a spread a key takes its value from the last map that has it. */
  lemma {:induction false} SpreadPrecedence<K, V>(ms: seq<map<K, V>>, j: nat, k: K)
    requires j < |ms| && k in ms[j]
    requires forall l :: j < l < |ms| ==> k !in ms[l]
    ensures k in Spread(ms) && Spread(ms)[k] == ms[j][k]
  {
    if j < |ms| - 1 {
      var init := ms[..|ms| - 1];
      assert k !in ms[|ms| - 1];
      SpreadPrecedence(init, j, k);
    }
  }

  /** `CONSOLIDATED_MAP`: the Emacs, vi, numeric-pad and navigation presets, spread in that order. */
  const ConsolidatedMap: KeyMap := Spread([EmacsMap, ViMap, NumpadMap, NavAndArrowMap])

  /** The consolidated map is the right-biased union `EmacsMap + ViMap + NumpadMap + NavAndArrowMap`. */
  lemma ConsolidatedIsUnion()
    ensures ConsolidatedMap == EmacsMap + ViMap + NumpadMap + NavAndArrowMap
  {
    var ms := [EmacsMap, ViMap, NumpadMap, NavAndArrowMap];
    assert ms[..3] == [EmacsMap, ViMap, NumpadMap];
    assert [EmacsMap, ViMap, NumpadMap][..2] == [EmacsMap, ViMap];
    assert [EmacsMap, ViMap][..1] == [EmacsMap];
    assert [EmacsMap][..0] == [];
    assert Spread([EmacsMap]) == EmacsMap;
    assert Spread([EmacsMap, ViMap]) == EmacsMap + ViMap;
    assert Spread([EmacsMap, ViMap, NumpadMap]) == EmacsMap + ViMap + NumpadMap;
  }

  /** The consolidated map's keys are the union of the presets' keys. */
  lemma ConsolidatedKeys()
    ensures ConsolidatedMap.Keys == EmacsMap.Keys + ViMap.Keys + NumpadMap.Keys + NavAndArrowMap.Keys
  {
    ConsolidatedIsUnion();
  }

  /** Navigation and arrow keys come last, so all of them keep their preset command. */
  lemma NavAndArrowWins(k: string)
    requires k in NavAndArrowMap
    ensures k in ConsolidatedMap && ConsolidatedMap[k] == NavAndArrowMap[k]
  {
  }

  /** vi is spread after Emacs: `Ctrl + B` pages up and `Ctrl + F` pages down. */
  lemma ViOverridesEmacs()
    ensures "Ctrl + B" in ConsolidatedMap && ConsolidatedMap["Ctrl + B"] == PageUp
    ensures "Ctrl + F" in ConsolidatedMap && ConsolidatedMap["Ctrl + F"] == PageDown
  {
    ConsolidatedIsUnion();
    assert "Ctrl + B" !in NumpadMap && "Ctrl + B" !in NavAndArrowMap;
    assert "Ctrl + F" !in NumpadMap && "Ctrl + F" !in NavAndArrowMap;
  }

  /** An Emacs entry that no later preset shares survives: `Ctrl + N` moves down. */
  lemma EmacsEntrySurvives()
    ensures "Ctrl + N" in ConsolidatedMap && ConsolidatedMap["Ctrl + N"] == Down
  {
    var ms := [EmacsMap, ViMap, NumpadMap, NavAndArrowMap];
    assert "Ctrl + N" !in ViMap;
    assert "Ctrl + N" !in NumpadMap;
    assert "Ctrl + N" !in NavAndArrowMap;
    SpreadPrecedence(ms, 0, "Ctrl + N");
  }

  /** A numeric-pad entry survives: `Numpad4` moves left, not to the previous item. */
  lemma NumpadEntrySurvives()
    ensures "Numpad4" in ConsolidatedMap && ConsolidatedMap["Numpad4"] == Left
  {
    var ms := [EmacsMap, ViMap, NumpadMap, NavAndArrowMap];
    assert "Numpad4" !in NavAndArrowMap;
    SpreadPrecedence(ms, 2, "Numpad4");
  }

  /** `ArrowLeft` keeps its navigation-preset command `prev`, not `left`. */
  lemma ArrowLeftIsPrev()
    ensures "ArrowLeft" in ConsolidatedMap && ConsolidatedMap["ArrowLeft"] == Prev
  {
  }
}
