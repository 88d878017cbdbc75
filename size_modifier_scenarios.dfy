/**
 * The layouts measured by the size-modifier tests, stated over the model.
 * Lengths are in pixels at a density of one pixel per dp.
 *
 * The measuring lemmas hold under loose bounds (a minimum of zero) whose
 * maxima are large enough, possibly `Infinity`, for every such maximum.
 */
module SizeModifierScenarios {
  import opened Lengths
  import opened SizeModifiers

  /** Loose constraints: minimum zero on both axes, maxima `w` and `h`. */
  function Loose(w: Length, h: Length): (c: Constraints)
    ensures c.Valid()
  {
    Constraints(Range(0, w), Range(0, h))
  }

  /** Width modifiers around an empty box, at 50 dp (testSize_withWidthSizeModifiers). */
  lemma WidthModifierSizes(w: Length, h: Length)
    requires Below(100, w) && Below(50, h)
    ensures Measure([MaxWidth(Finite(100)), MinWidth(50), Height(50)], Minimal, Loose(w, h)) == PxSize(50, 50)
    ensures Measure([MaxWidth(Finite(100)), Height(50)], Minimal, Loose(w, h)) == PxSize(0, 50)
    ensures Measure([MinWidth(50), Height(50)], Minimal, Loose(w, h)) == PxSize(50, 50)
    ensures Measure([MaxWidth(Finite(50)), MinWidth(100), Height(50)], Minimal, Loose(w, h)) == PxSize(50, 50)
    ensures Measure([MinWidth(100), MaxWidth(Finite(50)), Height(50)], Minimal, Loose(w, h)) == PxSize(100, 50)
    ensures Measure([Width(50), Height(50)], Minimal, Loose(w, h)) == PxSize(50, 50)
  {
  }

  /** Height modifiers around an empty box, at 10 dp (testSize_withHeightSizeModifiers). */
  lemma HeightModifierSizes(w: Length, h: Length)
    requires Below(10, w) && Below(20, h)
    ensures Measure([MaxHeight(Finite(20)), MinHeight(10), Width(10)], Minimal, Loose(w, h)) == PxSize(10, 10)
    ensures Measure([MaxHeight(Finite(20)), Width(10)], Minimal, Loose(w, h)) == PxSize(10, 0)
    ensures Measure([MinHeight(10), Width(10)], Minimal, Loose(w, h)) == PxSize(10, 10)
    ensures Measure([MaxHeight(Finite(10)), MinHeight(20), Width(10)], Minimal, Loose(w, h)) == PxSize(10, 10)
    ensures Measure([MinHeight(20), MaxHeight(Finite(10)), Width(10)], Minimal, Loose(w, h)) == PxSize(10, 20)
    ensures Measure([Height(10), Width(10)], Minimal, Loose(w, h)) == PxSize(10, 10)
  {
  }

  /** Combined-size modifiers around an empty box, at 50 dp (testSize_withSizeModifiers). */
  lemma SizeModifierSizes(w: Length, h: Length)
    requires Below(100, w) && Below(100, h)
    ensures Measure([MaxSize(Finite(100), Finite(100)), MinSize(50, 50)], Minimal, Loose(w, h)) == PxSize(50, 50)
    ensures Measure([MaxSize(Finite(50), Finite(50)), MinSize(100, 50)], Minimal, Loose(w, h)) == PxSize(50, 50)
    ensures Measure([MinSize(50, 50), MaxSize(Finite(100), Finite(100))], Minimal, Loose(w, h)) == PxSize(50, 50)
    ensures Measure([MinSize(100, 100), MaxSize(Finite(50), Finite(50))], Minimal, Loose(w, h)) == PxSize(100, 100)
    ensures Measure([Size(50, 50)], Minimal, Loose(w, h)) == PxSize(50, 50)
  {
  }

  /**
   * A 100 x 100 container around `Width(200) wraps Height(300)` around an
   * expanded box (testSizeModifiers_respectMaxConstraint): the container's
   * maximum of 100 wins over both targets, whatever its minimum.
   */
  lemma AncestorBoundsWin(lw: nat, lh: nat)
    requires lw <= 100 && lh <= 100
    ensures Measure([Width(200), Height(300)], Expanded,
                    Constraints(Range(lw, Finite(100)), Range(lh, Finite(100)))) == PxSize(100, 100)
  {
  }

  /** Infinite maxima leave a 20 x 20 box at 20 x 20 (testMaxModifiers_withInfiniteValue). */
  lemma InfiniteMaxIsNoOp(w: Length, h: Length)
    requires Below(20, w) && Below(20, h)
    ensures Measure([MaxWidth(Infinity)], Fixed(20, 20), Loose(w, h)) == PxSize(20, 20)
    ensures Measure([MaxHeight(Infinity)], Fixed(20, 20), Loose(w, h)) == PxSize(20, 20)
    ensures Measure([Width(20), Height(20), MaxWidth(Infinity), MaxHeight(Infinity)], Minimal, Loose(w, h))
         == PxSize(20, 20)
    ensures Measure([MaxSize(Infinity, Infinity)], Fixed(20, 20), Loose(w, h)) == PxSize(20, 20)
  {
  }

  /**
   * The intrinsic answers of the 1:1 aspect-ratio box the intrinsic tests
   * wrap: as large as the cross-axis input when that is finite, zero when it
   * is `Infinity`.
   */
  function SquareLeaf(q: Query): (r: nat)
    ensures Below(r, q.cross)
    ensures q.cross.Finite? ==> r == q.cross.px
    ensures q.cross.Infinity? ==> r == 0
  {
    match q.cross
    case Finite(n) => n
    case Infinity => 0
  }

  /** The intrinsic answers of `chain` around the square box at cross-axis input `x`, min and max alike. */
  predicate AnswersOnAxis(chain: seq<Modifier>, axis: Axis, x: Length, expected: nat) {
    match axis
    case Horizontal =>
      MinIntrinsicWidth(chain, SquareLeaf, x) == expected && MaxIntrinsicWidth(chain, SquareLeaf, x) == expected
    case Vertical =>
      MinIntrinsicHeight(chain, SquareLeaf, x) == expected && MaxIntrinsicHeight(chain, SquareLeaf, x) == expected
  }

  /** testMinWidthModifier_hasCorrectIntrinsicMeasurements */
  lemma MinWidthIntrinsics()
    ensures var c := [MinWidth(10)];
      AnswersOnAxis(c, Horizontal, Finite(0), 10) && AnswersOnAxis(c, Horizontal, Finite(5), 10) &&
      AnswersOnAxis(c, Horizontal, Finite(50), 50) && AnswersOnAxis(c, Horizontal, Infinity, 10) &&
      AnswersOnAxis(c, Vertical, Finite(0), 0) && AnswersOnAxis(c, Vertical, Finite(35), 35) &&
      AnswersOnAxis(c, Vertical, Finite(50), 50) && AnswersOnAxis(c, Vertical, Infinity, 0)
  {
  }

  /** testMaxWidthModifier_hasCorrectIntrinsicMeasurements */
  lemma MaxWidthIntrinsics()
    ensures var c := [MaxWidth(Finite(20))];
      AnswersOnAxis(c, Horizontal, Finite(0), 0) && AnswersOnAxis(c, Horizontal, Finite(15), 15) &&
      AnswersOnAxis(c, Horizontal, Finite(50), 20) && AnswersOnAxis(c, Horizontal, Infinity, 0) &&
      AnswersOnAxis(c, Vertical, Finite(0), 0) && AnswersOnAxis(c, Vertical, Finite(15), 15) &&
      AnswersOnAxis(c, Vertical, Finite(50), 50) && AnswersOnAxis(c, Vertical, Infinity, 0)
  {
  }

  /** testMinHeightModifier_hasCorrectIntrinsicMeasurements */
  lemma MinHeightIntrinsics()
    ensures var c := [MinHeight(30)];
      AnswersOnAxis(c, Horizontal, Finite(0), 0) && AnswersOnAxis(c, Horizontal, Finite(15), 15) &&
      AnswersOnAxis(c, Horizontal, Finite(50), 50) && AnswersOnAxis(c, Horizontal, Infinity, 0) &&
      AnswersOnAxis(c, Vertical, Finite(0), 30) && AnswersOnAxis(c, Vertical, Finite(15), 30) &&
      AnswersOnAxis(c, Vertical, Finite(50), 50) && AnswersOnAxis(c, Vertical, Infinity, 30)
  {
  }

  /** testMaxHeightModifier_hasCorrectIntrinsicMeasurements */
  lemma MaxHeightIntrinsics()
    ensures var c := [MaxHeight(Finite(40))];
      AnswersOnAxis(c, Horizontal, Finite(0), 0) && AnswersOnAxis(c, Horizontal, Finite(15), 15) &&
      AnswersOnAxis(c, Horizontal, Finite(50), 50) && AnswersOnAxis(c, Horizontal, Infinity, 0) &&
      AnswersOnAxis(c, Vertical, Finite(0), 0) && AnswersOnAxis(c, Vertical, Finite(15), 15) &&
      AnswersOnAxis(c, Vertical, Finite(50), 40) && AnswersOnAxis(c, Vertical, Infinity, 0)
  {
  }

  /** testWidthModifier_hasCorrectIntrinsicMeasurements */
  lemma WidthIntrinsics()
    ensures var c := [Width(10)];
      AnswersOnAxis(c, Horizontal, Finite(0), 10) && AnswersOnAxis(c, Horizontal, Finite(10), 10) &&
      AnswersOnAxis(c, Horizontal, Finite(15), 10) &&
      AnswersOnAxis(c, Horizontal, Finite(75), 10) && AnswersOnAxis(c, Horizontal, Infinity, 10) &&
      AnswersOnAxis(c, Vertical, Finite(0), 0) && AnswersOnAxis(c, Vertical, Finite(35), 35) &&
      AnswersOnAxis(c, Vertical, Finite(70), 70) && AnswersOnAxis(c, Vertical, Infinity, 0)
  {
  }

  /** testHeightModifier_hasCorrectIntrinsicMeasurements */
  lemma HeightIntrinsics()
    ensures var c := [Height(10)];
      AnswersOnAxis(c, Horizontal, Finite(0), 0) && AnswersOnAxis(c, Horizontal, Finite(15), 15) &&
      AnswersOnAxis(c, Horizontal, Finite(75), 75) && AnswersOnAxis(c, Horizontal, Infinity, 0) &&
      AnswersOnAxis(c, Vertical, Finite(0), 10) && AnswersOnAxis(c, Vertical, Finite(35), 10) &&
      AnswersOnAxis(c, Vertical, Finite(70), 10) && AnswersOnAxis(c, Vertical, Infinity, 10)
  {
  }

  /** testWidthHeightModifiers_hasCorrectIntrinsicMeasurements */
  lemma StackedIntrinsics()
    ensures var c := [MinWidth(10), MaxWidth(Finite(20)), MinHeight(30), MaxHeight(Finite(40))];
      AnswersOnAxis(c, Horizontal, Finite(0), 10) && AnswersOnAxis(c, Horizontal, Finite(15), 15) &&
      AnswersOnAxis(c, Horizontal, Finite(50), 20) && AnswersOnAxis(c, Horizontal, Infinity, 10) &&
      AnswersOnAxis(c, Vertical, Finite(0), 30) && AnswersOnAxis(c, Vertical, Finite(35), 35) &&
      AnswersOnAxis(c, Vertical, Finite(50), 40) && AnswersOnAxis(c, Vertical, Infinity, 30)
  {
  }

  /** testMinSizeModifier_hasCorrectIntrinsicMeasurements */
  lemma MinSizeIntrinsics()
    ensures var c := [MinSize(20, 30)];
      AnswersOnAxis(c, Horizontal, Finite(0), 20) && AnswersOnAxis(c, Horizontal, Finite(10), 20) &&
      AnswersOnAxis(c, Horizontal, Finite(50), 50) && AnswersOnAxis(c, Horizontal, Infinity, 20) &&
      AnswersOnAxis(c, Vertical, Finite(0), 30) && AnswersOnAxis(c, Vertical, Finite(10), 30) &&
      AnswersOnAxis(c, Vertical, Finite(50), 50) && AnswersOnAxis(c, Vertical, Infinity, 30)
  {
  }

  /** testMaxSizeModifier_hasCorrectIntrinsicMeasurements */
  lemma MaxSizeIntrinsics()
    ensures var c := [MaxSize(Finite(40), Finite(50))];
      AnswersOnAxis(c, Horizontal, Finite(0), 0) && AnswersOnAxis(c, Horizontal, Finite(15), 15) &&
      AnswersOnAxis(c, Horizontal, Finite(50), 40) && AnswersOnAxis(c, Horizontal, Infinity, 0) &&
      AnswersOnAxis(c, Vertical, Finite(0), 0) && AnswersOnAxis(c, Vertical, Finite(15), 15) &&
      AnswersOnAxis(c, Vertical, Finite(75), 50) && AnswersOnAxis(c, Vertical, Infinity, 0)
  {
  }

  /** testSizeModifier_hasCorrectIntrinsicMeasurements */
  lemma SizeIntrinsics()
    ensures var c := [Size(40, 50)];
      AnswersOnAxis(c, Horizontal, Finite(0), 40) && AnswersOnAxis(c, Horizontal, Finite(35), 40) &&
      AnswersOnAxis(c, Horizontal, Finite(75), 40) && AnswersOnAxis(c, Horizontal, Infinity, 40) &&
      AnswersOnAxis(c, Vertical, Finite(0), 50) && AnswersOnAxis(c, Vertical, Finite(35), 50) &&
      AnswersOnAxis(c, Vertical, Finite(70), 50) && AnswersOnAxis(c, Vertical, Infinity, 50)
  {
  }
}
