/**
 * The size-modifier constraint algebra of the layout library: `Width`,
 * `Height`, `Size`, `MinWidth`, `MaxWidth`, `MinHeight`, `MaxHeight`,
 * `MinSize`, `MaxSize`, chained with `wraps` around a leaf box.
 *
 * Every modifier holds a target per axis. Measuring, it coerces both ends of
 * its target range into the bounds it was given and measures its child under
 * the result, reporting the child's size unchanged; the outermost modifier
 * therefore decides any conflict. Answering an intrinsic query on its own
 * axis, it coerces the child's answer into its target range; the cross-axis
 * input goes to the child unchanged.
 */
module SizeModifiers {
  import opened Lengths

  datatype Axis = Horizontal | Vertical

  /** What one modifier asks for on one axis. */
  datatype Target = Unset | Exact(size: nat) | AtLeast(min: nat) | AtMost(max: Length)

  /** The sizes a target accepts. */
  predicate Accepts(t: Target, n: nat) {
    match t
    case Unset => true
    case Exact(v) => n == v
    case AtLeast(v) => v <= n
    case AtMost(v) => Below(n, v)
  }

  /** A target as a bound pair: `Width(v)` is `[v, v]`, `MinWidth(v)` is `[v, Infinity]`, `MaxWidth(v)` is `[0, v]`. */
  function TargetRange(t: Target): (r: Range)
    ensures r.Valid()
    ensures forall n :: r.Contains(n) <==> Accepts(t, n)
  {
    match t
    case Unset => Unbounded
    case Exact(v) => Range(v, Finite(v))
    case AtLeast(v) => Range(v, Infinity)
    case AtMost(v) => Range(0, v)
  }

  /** A target whose range is `[0, Infinity]`: `Unset`, `AtLeast(0)`, `AtMost(Infinity)`. */
  predicate NoOp(t: Target) {
    TargetRange(t) == Unbounded
  }

  /** A size modifier: one target per axis. */
  datatype Modifier = Modifier(width: Target, height: Target) {
    function Along(axis: Axis): Target {
      match axis
      case Horizontal => width
      case Vertical => height
    }
  }

  // The modifiers. Each sets a target on the axes it names and leaves the
  // other axis untargeted, so that axis's range is `[0, Infinity]`.

  /** `Width(v)`: exactly `v` wide. */
  function Width(v: nat): (m: Modifier)
    ensures TargetRange(m.width) == Range(v, Finite(v)) && NoOp(m.height)
  {
    Modifier(Exact(v), Unset)
  }

  /** `Height(v)`: exactly `v` high. */
  function Height(v: nat): (m: Modifier)
    ensures NoOp(m.width) && TargetRange(m.height) == Range(v, Finite(v))
  {
    Modifier(Unset, Exact(v))
  }

  /** `Size(w, h)`: exactly `w` by `h`. */
  function Size(w: nat, h: nat): (m: Modifier)
    ensures TargetRange(m.width) == Range(w, Finite(w)) && TargetRange(m.height) == Range(h, Finite(h))
  {
    Modifier(Exact(w), Exact(h))
  }

  /** `MinWidth(v)`: at least `v` wide. */
  function MinWidth(v: nat): (m: Modifier)
    ensures TargetRange(m.width) == Range(v, Infinity) && NoOp(m.height)
  {
    Modifier(AtLeast(v), Unset)
  }

  /** `MaxWidth(v)`: at most `v` wide; `MaxWidth(Infinity)` targets nothing. */
  function MaxWidth(v: Length): (m: Modifier)
    ensures TargetRange(m.width) == Range(0, v) && NoOp(m.height)
  {
    Modifier(AtMost(v), Unset)
  }

  /** `MinHeight(v)`: at least `v` high. */
  function MinHeight(v: nat): (m: Modifier)
    ensures NoOp(m.width) && TargetRange(m.height) == Range(v, Infinity)
  {
    Modifier(Unset, AtLeast(v))
  }

  /** `MaxHeight(v)`: at most `v` high; `MaxHeight(Infinity)` targets nothing. */
  function MaxHeight(v: Length): (m: Modifier)
    ensures NoOp(m.width) && TargetRange(m.height) == Range(0, v)
  {
    Modifier(Unset, AtMost(v))
  }

  /** `MinSize(w, h)`: at least `w` wide and at least `h` high. */
  function MinSize(w: nat, h: nat): (m: Modifier)
    ensures TargetRange(m.width) == Range(w, Infinity) && TargetRange(m.height) == Range(h, Infinity)
  {
    Modifier(AtLeast(w), AtLeast(h))
  }

  /** `MaxSize(w, h)`: at most `w` wide and at most `h` high. */
  function MaxSize(w: Length, h: Length): (m: Modifier)
    ensures TargetRange(m.width) == Range(0, w) && TargetRange(m.height) == Range(0, h)
  {
    Modifier(AtMost(w), AtMost(h))
  }

  /** `a wraps b`: every modifier of `a` lies outside every modifier of `b`, each keeping its order. */
  function Wraps(outer: seq<Modifier>, inner: seq<Modifier>): (r: seq<Modifier>)
    ensures |r| == |outer| + |inner|
    ensures r[..|outer|] == outer && r[|outer|..] == inner
  {
    outer + inner
  }

  /** The bounds offered to a box on both axes. */
  datatype Constraints = Constraints(width: Range, height: Range) {
    predicate Valid() {
      width.Valid() && height.Valid()
    }

    function Along(axis: Axis): Range {
      match axis
      case Horizontal => width
      case Vertical => height
    }
  }

  /** Constraints that impose nothing on either axis. */
  const UnboundedConstraints: Constraints := Constraints(Unbounded, Unbounded)

  predicate WithinBoth(inner: Constraints, outer: Constraints) {
    Within(inner.width, outer.width) && Within(inner.height, outer.height)
  }

  /** A measured size; always finite. */
  datatype PxSize = PxSize(width: nat, height: nat)

  predicate Fits(s: PxSize, c: Constraints) {
    c.width.Contains(s.width) && c.height.Contains(s.height)
  }

  /**
   * The bounds a modifier hands its child on one axis, target by target: an
   * exact size coerced into the incoming bounds becomes both ends; a minimum
   * coerced into them raises the lower end; a maximum coerced into them
   * lowers the upper end, and `AtMost(Infinity)` keeps it.
   */
  function ChildRange(t: Target, incoming: Range): (r: Range)
    requires incoming.Valid()
    ensures r == Tighten(TargetRange(t), incoming)
  {
    match t
    case Unset => incoming
    case Exact(v) => var v' := Clamp(v, incoming); Range(v', Finite(v'))
    case AtLeast(v) => Range(Clamp(v, incoming), incoming.hi)
    case AtMost(v) => Range(incoming.lo, ClampLength(v, incoming))
  }

  /** The constraints a modifier hands its child. */
  function ChildConstraints(m: Modifier, c: Constraints): (r: Constraints)
    requires c.Valid()
    ensures r.Valid() && WithinBoth(r, c)
  {
    Constraints(ChildRange(m.width, c.width), ChildRange(m.height, c.height))
  }

  /** The constraints the leaf receives once every modifier of the chain has tightened them, outermost first. */
  function EffectiveBounds(chain: seq<Modifier>, c: Constraints): (r: Constraints)
    requires c.Valid()
    ensures r.Valid() && WithinBoth(r, c)
    decreases |chain|
  {
    if chain == [] then c else EffectiveBounds(chain[1..], ChildConstraints(chain[0], c))
  }

  /**
   * The box at the end of a chain: the three boxes the tests measure, or any
   * other layout, given by the size it reports under each set of constraints.
   */
  datatype Leaf =
    | Minimal            // an empty box: takes the smallest size it is allowed
    | Expanded           // `Container(expanded = true)`: takes the largest finite size it is allowed
    | Fixed(w: nat, h: nat)  // `Container(width = w, height = h)`: its own size, coerced into the bounds
    | Layout(policy: Constraints -> PxSize)  // any layout that obeys the constraints it is given
  {
    /** A layout reports a size that obeys the constraints it was given. */
    ghost predicate Valid() {
      Layout? ==> forall c: Constraints :: c.Valid() ==> Fits(policy(c), c)
    }

    function Measure(c: Constraints): (s: PxSize)
      requires Valid() && c.Valid()
      ensures Fits(s, c)
    {
      match this
      case Minimal => PxSize(c.width.lo, c.height.lo)
      case Expanded =>
        PxSize(if c.width.hi.Finite? then c.width.hi.px else c.width.lo,
             if c.height.hi.Finite? then c.height.hi.px else c.height.lo)
      case Fixed(w, h) => PxSize(Clamp(w, c.width), Clamp(h, c.height))
      case Layout(policy) => policy(c)
    }
  }

  /**
   * Measures a chain: each modifier measures its child under its child
   * constraints and reports the child's size unchanged.
   */
  function Measure(chain: seq<Modifier>, leaf: Leaf, c: Constraints): (s: PxSize)
    requires leaf.Valid() && c.Valid()
    ensures Fits(s, c)
    ensures chain != [] ==> Fits(s, ChildConstraints(chain[0], c))
    decreases |chain|
  {
    if chain == [] then leaf.Measure(c)
    else Measure(chain[1..], leaf, ChildConstraints(chain[0], c))
  }

  /** Measuring a chain is measuring its leaf under the chain's effective bounds. */
  lemma {:induction false} MeasureIsLeafUnderEffectiveBounds(chain: seq<Modifier>, leaf: Leaf, c: Constraints)
    requires leaf.Valid() && c.Valid()
    ensures Measure(chain, leaf, c) == leaf.Measure(EffectiveBounds(chain, c))
    decreases |chain|
  {
    if chain != [] {
      MeasureIsLeafUnderEffectiveBounds(chain[1..], leaf, ChildConstraints(chain[0], c));
    }
  }

  /** In `a wraps b`, the constraints pass through `a` first and then through `b`. */
  lemma {:induction false} EffectiveBoundsWraps(a: seq<Modifier>, b: seq<Modifier>, c: Constraints)
    requires c.Valid()
    ensures EffectiveBounds(Wraps(a, b), c) == EffectiveBounds(b, EffectiveBounds(a, c))
    decreases |a|
  {
    if a != [] {
      assert Wraps(a, b)[0] == a[0];
      assert Wraps(a, b)[1..] == Wraps(a[1..], b);
      EffectiveBoundsWraps(a[1..], b, ChildConstraints(a[0], c));
    } else {
      assert Wraps(a, b) == b;
    }
  }

  /** Measuring `a wraps b` is measuring `b` under what `a` lets through. */
  lemma {:induction false} MeasureWraps(a: seq<Modifier>, b: seq<Modifier>, leaf: Leaf, c: Constraints)
    requires leaf.Valid() && c.Valid()
    ensures Measure(Wraps(a, b), leaf, c) == Measure(b, leaf, EffectiveBounds(a, c))
  {
    MeasureIsLeafUnderEffectiveBounds(Wraps(a, b), leaf, c);
    EffectiveBoundsWraps(a, b, c);
    MeasureIsLeafUnderEffectiveBounds(b, leaf, EffectiveBounds(a, c));
  }

  /** `wraps` is associative. */
  lemma WrapsAssociative(a: seq<Modifier>, b: seq<Modifier>, d: seq<Modifier>)
    ensures Wraps(Wraps(a, b), d) == Wraps(a, Wraps(b, d))
  {
  }

  /**
   * An exact target that the incoming bounds allow fixes the measured size on
   * its axis, whatever lies inside the modifier.
   */
  lemma ExactTargetFixesSize(m: Modifier, rest: seq<Modifier>, leaf: Leaf, c: Constraints, axis: Axis, v: nat)
    requires leaf.Valid() && c.Valid() && m.Along(axis) == Exact(v) && c.Along(axis).Contains(v)
    ensures var s := Measure([m] + rest, leaf, c);
      (if axis == Horizontal then s.width else s.height) == v
  {
    assert ([m] + rest)[0] == m;
  }

  /** The bounds two stacked modifiers hand their child. */
  lemma EffectiveBoundsPair(m1: Modifier, m2: Modifier, c: Constraints)
    requires c.Valid()
    ensures EffectiveBounds([m1, m2], c) == ChildConstraints(m2, ChildConstraints(m1, c))
  {
    var inner := ChildConstraints(m1, c);
    assert [m1, m2][0] == m1 && [m1, m2][1..] == [m2];
    assert EffectiveBounds([m1, m2], c) == EffectiveBounds([m2], inner);
    assert [m2][1..] == [];
    assert EffectiveBounds([m2], inner) == EffectiveBounds([], ChildConstraints(m2, inner));
  }

  /** Once the outer part of a chain pins one axis to `v`, the chain measures `v` on that axis. */
  lemma PinnedAxisMeasures(outer: seq<Modifier>, rest: seq<Modifier>, leaf: Leaf, c: Constraints, axis: Axis, v: nat)
    requires leaf.Valid() && c.Valid() && EffectiveBounds(outer, c).Along(axis) == Range(v, Finite(v))
    ensures var s := Measure(outer + rest, leaf, c);
      (if axis == Horizontal then s.width else s.height) == v
  {
    MeasureWraps(outer, rest, leaf, c);
  }

  /**
   * The outer modifier wins a conflict on one axis: a maximum `a` wrapping a
   * larger minimum `b` gives `a`, and a minimum `b` wrapping a smaller maximum
   * `a` gives `b`, whatever lies inside, as long as the incoming bounds
   * allow the outer modifier's value.
   */
  lemma OuterWinsConflict(a: nat, b: nat, rest: seq<Modifier>, leaf: Leaf, c: Constraints)
    requires leaf.Valid() && c.Valid() && a < b
    ensures c.width.Contains(a) ==> Measure([MaxWidth(Finite(a)), MinWidth(b)] + rest, leaf, c).width == a
    ensures c.width.Contains(b) ==> Measure([MinWidth(b), MaxWidth(Finite(a))] + rest, leaf, c).width == b
    ensures c.height.Contains(a) ==> Measure([MaxHeight(Finite(a)), MinHeight(b)] + rest, leaf, c).height == a
    ensures c.height.Contains(b) ==> Measure([MinHeight(b), MaxHeight(Finite(a))] + rest, leaf, c).height == b
  {
    if c.width.Contains(a) {
      EffectiveBoundsPair(MaxWidth(Finite(a)), MinWidth(b), c);
      PinnedAxisMeasures([MaxWidth(Finite(a)), MinWidth(b)], rest, leaf, c, Horizontal, a);
    }
    if c.width.Contains(b) {
      EffectiveBoundsPair(MinWidth(b), MaxWidth(Finite(a)), c);
      PinnedAxisMeasures([MinWidth(b), MaxWidth(Finite(a))], rest, leaf, c, Horizontal, b);
    }
    if c.height.Contains(a) {
      EffectiveBoundsPair(MaxHeight(Finite(a)), MinHeight(b), c);
      PinnedAxisMeasures([MaxHeight(Finite(a)), MinHeight(b)], rest, leaf, c, Vertical, a);
    }
    if c.height.Contains(b) {
      EffectiveBoundsPair(MinHeight(b), MaxHeight(Finite(a)), c);
      PinnedAxisMeasures([MinHeight(b), MaxHeight(Finite(a))], rest, leaf, c, Vertical, b);
    }
  }

  /** A modifier that targets nothing on either axis (such as `MaxSize(Infinity, Infinity)`) is invisible to measurement. */
  lemma NoOpModifierInvisible(m: Modifier, rest: seq<Modifier>, leaf: Leaf, c: Constraints)
    requires leaf.Valid() && c.Valid() && NoOp(m.width) && NoOp(m.height)
    ensures Measure([m] + rest, leaf, c) == Measure(rest, leaf, c)
  {
    TightenUnboundedTarget(c.width);
    TightenUnboundedTarget(c.height);
    assert ChildConstraints(m, c) == c;
    assert ([m] + rest)[1..] == rest;
  }

  /** Under tight incoming bounds every chain and every leaf measure exactly those bounds. */
  lemma TightBoundsOverrideChain(chain: seq<Modifier>, leaf: Leaf, c: Constraints)
    requires leaf.Valid() && c.Valid() && c.width.Tight() && c.height.Tight()
    ensures Measure(chain, leaf, c) == PxSize(c.width.lo, c.height.lo)
  {
  }

  // ---------------------------------------------------------------------------
  // Intrinsic measurements

  datatype Extremum = MinIntrinsic | MaxIntrinsic

  /**
   * An intrinsic query: the min or max size along `axis` when the other axis
   * is given `cross` (which may be `Infinity`).
   */
  datatype Query = Query(extremum: Extremum, axis: Axis, cross: Length)

  /**
   * One modifier's answer on its own axis from its child's answer `child`,
   * target by target: an exact size answers itself; a minimum answers the
   * larger of itself and the child; a maximum the smaller; an unset axis
   * answers the child.
   */
  function OwnAxisAnswer(t: Target, child: nat): (r: nat)
    ensures r == Clamp(child, TargetRange(t))
  {
    match t
    case Unset => child
    case Exact(v) => v
    case AtLeast(v) => if child < v then v else child
    case AtMost(v) => if v.Finite? && v.px < child then v.px else child
  }

  /**
   * The answer of a chain to an intrinsic query. `leaf` gives the leaf's
   * answers. Min and max queries go through the modifiers alike, and the
   * cross-axis input reaches the leaf unchanged.
   */
  function Intrinsic(chain: seq<Modifier>, leaf: Query -> nat, q: Query): (r: nat)
    ensures chain != [] ==> Accepts(chain[0].Along(q.axis), r)
    decreases |chain|
  {
    if chain == [] then leaf(q)
    else OwnAxisAnswer(chain[0].Along(q.axis), Intrinsic(chain[1..], leaf, q))
  }

  /**
   * `minIntrinsicWidth(height)`: the minimum intrinsic width of the chain at height `height`,
   * which is the leaf's answer coerced into the width bounds the chain hands its leaf.
   */
  function MinIntrinsicWidth(chain: seq<Modifier>, leaf: Query -> nat, height: Length): (r: nat)
    ensures r == Clamp(leaf(Query(MinIntrinsic, Horizontal, height)), EffectiveBounds(chain, UnboundedConstraints).width)
    ensures chain != [] ==> Accepts(chain[0].width, r)
  {
    IntrinsicIsLeafAnswerInEffectiveBounds(chain, leaf, Query(MinIntrinsic, Horizontal, height));
    Intrinsic(chain, leaf, Query(MinIntrinsic, Horizontal, height))
  }

  /**
   * `maxIntrinsicWidth(height)`: the maximum intrinsic width of the chain at height `height`,
   * which is the leaf's answer coerced into the width bounds the chain hands its leaf.
   */
  function MaxIntrinsicWidth(chain: seq<Modifier>, leaf: Query -> nat, height: Length): (r: nat)
    ensures r == Clamp(leaf(Query(MaxIntrinsic, Horizontal, height)), EffectiveBounds(chain, UnboundedConstraints).width)
    ensures chain != [] ==> Accepts(chain[0].width, r)
  {
    IntrinsicIsLeafAnswerInEffectiveBounds(chain, leaf, Query(MaxIntrinsic, Horizontal, height));
    Intrinsic(chain, leaf, Query(MaxIntrinsic, Horizontal, height))
  }

  /**
   * `minIntrinsicHeight(width)`: the minimum intrinsic height of the chain at width `width`,
   * which is the leaf's answer coerced into the height bounds the chain hands its leaf.
   */
  function MinIntrinsicHeight(chain: seq<Modifier>, leaf: Query -> nat, width: Length): (r: nat)
    ensures r == Clamp(leaf(Query(MinIntrinsic, Vertical, width)), EffectiveBounds(chain, UnboundedConstraints).height)
    ensures chain != [] ==> Accepts(chain[0].height, r)
  {
    IntrinsicIsLeafAnswerInEffectiveBounds(chain, leaf, Query(MinIntrinsic, Vertical, width));
    Intrinsic(chain, leaf, Query(MinIntrinsic, Vertical, width))
  }

  /**
   * `maxIntrinsicHeight(width)`: the maximum intrinsic height of the chain at width `width`,
   * which is the leaf's answer coerced into the height bounds the chain hands its leaf.
   */
  function MaxIntrinsicHeight(chain: seq<Modifier>, leaf: Query -> nat, width: Length): (r: nat)
    ensures r == Clamp(leaf(Query(MaxIntrinsic, Vertical, width)), EffectiveBounds(chain, UnboundedConstraints).height)
    ensures chain != [] ==> Accepts(chain[0].height, r)
  {
    IntrinsicIsLeafAnswerInEffectiveBounds(chain, leaf, Query(MaxIntrinsic, Vertical, width));
    Intrinsic(chain, leaf, Query(MaxIntrinsic, Vertical, width))
  }

  /**
   * Coercing a chain's intrinsic answer into bounds `c` is coercing the
   * leaf's answer into the bounds the chain would hand its leaf under `c`.
   */
  lemma {:induction false} ClampedIntrinsic(chain: seq<Modifier>, leaf: Query -> nat, q: Query, c: Constraints)
    requires c.Valid()
    ensures Clamp(Intrinsic(chain, leaf, q), c.Along(q.axis))
         == Clamp(leaf(q), EffectiveBounds(chain, c).Along(q.axis))
    decreases |chain|
  {
    if chain != [] {
      var t := TargetRange(chain[0].Along(q.axis));
      var child := ChildConstraints(chain[0], c);
      ClampCompose(Intrinsic(chain[1..], leaf, q), t, c.Along(q.axis));
      assert child.Along(q.axis) == Tighten(t, c.Along(q.axis));
      ClampedIntrinsic(chain[1..], leaf, q, child);
    }
  }

  /**
   * Intrinsic measurement agrees with measurement: a chain's intrinsic
   * answer is its leaf's answer coerced into the bounds the chain hands its
   * leaf when measured without constraints.
   */
  lemma IntrinsicIsLeafAnswerInEffectiveBounds(chain: seq<Modifier>, leaf: Query -> nat, q: Query)
    ensures Intrinsic(chain, leaf, q)
         == Clamp(leaf(q), EffectiveBounds(chain, UnboundedConstraints).Along(q.axis))
  {
    ClampedIntrinsic(chain, leaf, q, UnboundedConstraints);
  }

  /** A chain none of whose modifiers targets the queried axis passes the leaf's answer through. */
  lemma {:induction false} UntargetedAxisPassesThrough(chain: seq<Modifier>, leaf: Query -> nat, q: Query)
    requires forall i :: 0 <= i < |chain| ==> chain[i].Along(q.axis) == Unset
    ensures Intrinsic(chain, leaf, q) == leaf(q)
    decreases |chain|
  {
    if chain != [] {
      assert chain[0].Along(q.axis) == Unset;
      UntargetedAxisPassesThrough(chain[1..], leaf, q);
    }
  }

  /** An exact outer target fixes a chain's intrinsic answer on its axis for every input, `Infinity` included. */
  lemma ExactTargetFixesIntrinsic(chain: seq<Modifier>, leaf: Query -> nat, q: Query, v: nat)
    requires chain != [] && chain[0].Along(q.axis) == Exact(v)
    ensures Intrinsic(chain, leaf, q) == v
  {
  }
}
