/**
 * Pixel lengths and per-axis bounds for layout.
 *
 * A length is a whole number of pixels or the `Infinity` sentinel
 * (`IntPx.Infinity` / `Dp.Infinity`), kept apart from every finite value,
 * including zero. A `Range` is the (min, max) bound pair a box receives on
 * one axis: the minimum is always finite, the maximum may be `Infinity`.
 */
module Lengths {

  datatype Length = Finite(px: nat) | Infinity

  /** `n <= l`, where `Infinity` lies above every finite length. */
  predicate Below(n: nat, l: Length) {
    l.Infinity? || n <= l.px
  }

  /** `a <= b` on lengths. */
  predicate LengthLe(a: Length, b: Length) {
    b.Infinity? || (a.Finite? && a.px <= b.px)
  }

  /** The bound pair of one axis. */
  datatype Range = Range(lo: nat, hi: Length) {

    /** The invariant of every bound pair: `min <= max`. */
    predicate Valid() {
      Below(lo, hi)
    }

    /** A size `n` obeys these bounds. */
    predicate Contains(n: nat) {
      lo <= n && Below(n, hi)
    }

    /** Minimum and maximum coincide, forcing an exact size. */
    predicate Tight() {
      hi == Finite(lo)
    }
  }

  /** The bound pair that imposes nothing: `[0, Infinity]`. */
  const Unbounded: Range := Range(0, Infinity)

  /** `inner` is a sub-range of `outer`. */
  predicate Within(inner: Range, outer: Range) {
    outer.lo <= inner.lo && LengthLe(inner.hi, outer.hi)
  }

  /** Two well-formed ranges share at least one size. */
  predicate Overlap(a: Range, b: Range) {
    Below(a.lo, b.hi) && Below(b.lo, a.hi)
  }

  /** Coerces a size into a bound pair: the nearest size the bounds allow. */
  function Clamp(n: nat, r: Range): (c: nat)
    requires r.Valid()
    ensures r.Contains(c)
    ensures r.Contains(n) ==> c == n
    ensures n < r.lo ==> c == r.lo
    ensures !Below(n, r.hi) ==> c == r.hi.px
  {
    if n < r.lo then r.lo
    else if r.hi.Finite? && r.hi.px < n then r.hi.px
    else n
  }

  /** Coerces a length into a bound pair; `Infinity` goes to the maximum. */
  function ClampLength(l: Length, r: Range): (c: Length)
    requires r.Valid()
    ensures c.Finite? ==> r.Contains(c.px)
    ensures c.Infinity? ==> r.hi.Infinity? && l.Infinity?
    ensures l.Finite? ==> c == Finite(Clamp(l.px, r))
    ensures l.Infinity? ==> c == r.hi
  {
    match l
    case Infinity => r.hi
    case Finite(n) => Finite(Clamp(n, r))
  }

  /**
   * The bounds handed to a child by a node whose own target range is
   * `target` and which was given `incoming`: each end of the target is
   * coerced into the incoming range.
   */
  function Tighten(target: Range, incoming: Range): (r: Range)
    requires target.Valid() && incoming.Valid()
    ensures r.Valid()
    ensures Within(r, incoming)
    // where the target and the incoming range agree, the child gets exactly their common part
    ensures Overlap(target, incoming) ==>
      forall n :: r.Contains(n) <==> target.Contains(n) && incoming.Contains(n)
    // a target wholly above the incoming range pins the child to the incoming maximum
    ensures !Below(target.lo, incoming.hi) ==> r == Range(incoming.hi.px, incoming.hi)
    // a target wholly below the incoming range pins the child to the incoming minimum
    ensures !Below(incoming.lo, target.hi) ==> r == Range(incoming.lo, Finite(incoming.lo))
  {
    Range(Clamp(target.lo, incoming), ClampLength(target.hi, incoming))
  }

  /** The unbounded target `[0, Infinity]` leaves every incoming range unchanged. */
  lemma TightenUnboundedTarget(incoming: Range)
    requires incoming.Valid()
    ensures Tighten(Unbounded, incoming) == incoming
  {
  }

  /**
   * Coercing into `inner` and then into `outer` is one coercion into
   * `inner` tightened by `outer`.
   */
  lemma ClampCompose(n: nat, inner: Range, outer: Range)
    requires inner.Valid() && outer.Valid()
    ensures Clamp(Clamp(n, inner), outer) == Clamp(n, Tighten(inner, outer))
  {
    var t := Tighten(inner, outer);
    if n < inner.lo {
      assert Clamp(n, t) == t.lo;
    } else if !Below(n, inner.hi) {
      assert ClampLength(inner.hi, outer) == t.hi;
      assert Clamp(n, t) == Clamp(inner.hi.px, outer);
    } else {
      assert inner.Contains(n);
    }
  }

  /** Tightening by two targets in turn is tightening by the inner one tightened by the outer one. */
  lemma TightenCompose(inner: Range, outer: Range, incoming: Range)
    requires inner.Valid() && outer.Valid() && incoming.Valid()
    ensures Tighten(inner, Tighten(outer, incoming)) == Tighten(Tighten(inner, outer), incoming)
  {
    ClampCompose(inner.lo, outer, incoming);
    match inner.hi
    case Infinity =>
    case Finite(h) => ClampCompose(h, outer, incoming);
  }
}
