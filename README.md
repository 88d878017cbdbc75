# Size modifiers, transition-state property bag and schema prefix rewrite

A Dafny model of three small pieces of an Android UI / search code base.

1. **Size-modifier constraint algebra** (`lengths.dfy`, `size_modifiers.dfy`,
   `size_modifier_scenarios.dfy`). The layout modifiers `Width`, `Height`,
   `Size`, `MinWidth`, `MaxWidth`, `MinHeight`, `MaxHeight`, `MinSize` and
   `MaxSize` are chained with `wraps` around a leaf box. Lengths are whole
   pixels or `Infinity`. A bound pair (`Range`) has a finite minimum and a
   maximum that may be `Infinity`. Each modifier has one target per axis:
   `Exact(v)` is `[v, v]`, `AtLeast(v)` is `[v, Infinity]`, `AtMost(v)` is
   `[0, v]`, and an axis the modifier does not touch is `[0, Infinity]`.
   - **Measuring.** A modifier coerces both ends of its target into the
     bounds it receives. It measures its child under the result and reports
     the child's size unchanged, so the outermost modifier settles a conflict.
   - **Intrinsic queries.** On its own axis, a modifier coerces the child's
     answer into its target range. The cross-axis input reaches the child
     unchanged.

   The model proves that the two are consistent. A chain's intrinsic answer
   is the leaf's answer coerced into the bounds the leaf would receive if the
   chain were measured without constraints (`IntrinsicIsLeafAnswerInEffectiveBounds`).
   Every measuring and intrinsic assertion of `SizeModifiersTest.kt` is a
   lemma in `SizeModifierScenarios`. The implementation of the modifiers is
   not part of this model: the algebra is reconstructed from those assertions.
2. **`StateImpl`** (`transition_state.dfy`). A class with a `props` map. In
   it, `Set` stores a value under an absent key, and fails with
   `AlreadyExists` on a key that is present, changing nothing. `Get`
   reads a key that is present. The state's name is a `const`.
3. **`rewriteSchemaTypes`** (`schema_rewrite.dfy`). A method that walks a
   schema builder's types and their properties in two loops. It prefixes every
   type name and every set document reference, and writes each type back in
   place. The schema and its properties are plain datatypes holding the
   protocol-buffer fields that the rewrite touches or must keep.

The model follows the tests:
- Under `MaxWidth(20)` around the square box, `maxIntrinsicWidth(Infinity)`
  is 0 (`SizeModifiersTest.kt:358`), because the square box answers 0 there
  and 0 is inside `[0, 20]`.
- The cross-axis input is passed on unchanged (`SizeModifiersTest.kt:441`:
  `minIntrinsicHeight(35)` under `Width(10)` is 35).
- A minimum target has no special case for an unbounded child answer,
  because child answers are finite (`nat`).

Lengths are stated at a density of one pixel per dp.

## Model

| member | source | states |
|---|---|---|
| `Lengths.Clamp` | ui/ui-layout/src/androidTest/java/androidx/ui/layout/test/SizeModifiersTest.kt:241-262 | The coerced size obeys the bounds. It equals the input when the input is already inside, and otherwise the nearer end. |
| `Lengths.ClampLength` | ui/ui-layout/src/androidTest/java/androidx/ui/layout/test/SizeModifiersTest.kt:277-304 | A finite length is coerced like a size. `Infinity` becomes the incoming maximum, and the result is infinite only when that maximum is. |
| `Lengths.Tighten` | ui/ui-layout/src/androidTest/java/androidx/ui/layout/test/SizeModifiersTest.kt:77-86 | The child range is well formed and lies inside the incoming range. Where target and incoming range overlap, it is exactly their common part. A target wholly above pins the child to the incoming maximum; one wholly below pins it to the incoming minimum. |
| `Lengths.TightenUnboundedTarget` | ui/ui-layout/src/androidTest/java/androidx/ui/layout/test/SizeModifiersTest.kt:277-304 | The target `[0, Infinity]` hands every incoming range on unchanged. |
| `Lengths.ClampCompose` | ui/ui-layout/src/androidTest/java/androidx/ui/layout/test/SizeModifiersTest.kt:496-514 | Coercing into an inner range and then into an outer one is a single coercion into the inner range tightened by the outer one. |
| `Lengths.TightenCompose` | ui/ui-layout/src/androidTest/java/androidx/ui/layout/test/SizeModifiersTest.kt:136-145 | Two stacked targets tighten like one target: the inner target tightened by the outer one. |
| `SizeModifiers.TargetRange` | ui/ui-layout/src/androidTest/java/androidx/ui/layout/test/SizeModifiersTest.kt:67-87 | A target's range is well formed and holds exactly the sizes the target accepts (exact, at least, at most, anything). |
| `SizeModifiers.Width` | ui/ui-layout/src/androidTest/java/androidx/ui/layout/test/SizeModifiersTest.kt:87 | Sets an exact width target `[v, v]`; the height is untargeted, `[0, Infinity]`. |
| `SizeModifiers.Height` | ui/ui-layout/src/androidTest/java/androidx/ui/layout/test/SizeModifiersTest.kt:146 | Sets an exact height target `[v, v]`; the width is untargeted. |
| `SizeModifiers.Size` | ui/ui-layout/src/androidTest/java/androidx/ui/layout/test/SizeModifiersTest.kt:206 | Sets exact targets on both axes: `[w, w]` and `[h, h]`. |
| `SizeModifiers.MinWidth` | ui/ui-layout/src/androidTest/java/androidx/ui/layout/test/SizeModifiersTest.kt:74 | Sets a minimum width target `[v, Infinity]`; the height is untargeted. |
| `SizeModifiers.MaxWidth` | ui/ui-layout/src/androidTest/java/androidx/ui/layout/test/SizeModifiersTest.kt:277 | Sets a maximum width target `[0, v]`, which for `Infinity` targets nothing; the height is untargeted. |
| `SizeModifiers.MinHeight` | ui/ui-layout/src/androidTest/java/androidx/ui/layout/test/SizeModifiersTest.kt:133 | Sets a minimum height target `[v, Infinity]`; the width is untargeted. |
| `SizeModifiers.MaxHeight` | ui/ui-layout/src/androidTest/java/androidx/ui/layout/test/SizeModifiersTest.kt:282 | Sets a maximum height target `[0, v]`; the width is untargeted. |
| `SizeModifiers.MinSize` | ui/ui-layout/src/androidTest/java/androidx/ui/layout/test/SizeModifiersTest.kt:196 | Sets minimum targets on both axes: `[w, Infinity]` and `[h, Infinity]`. |
| `SizeModifiers.MaxSize` | ui/ui-layout/src/androidTest/java/androidx/ui/layout/test/SizeModifiersTest.kt:291 | Sets maximum targets on both axes: `[0, w]` and `[0, h]`. |
| `SizeModifiers.Wraps` | ui/ui-layout/src/androidTest/java/androidx/ui/layout/test/SizeModifiersTest.kt:287-288 | `a wraps b` puts every modifier of `a` outside every modifier of `b`, each side keeping its order, with nothing added or lost. |
| `SizeModifiers.ChildRange` | ui/ui-layout/src/androidTest/java/androidx/ui/layout/test/SizeModifiersTest.kt:77-86 | The per-target child-bound rule (exact, minimum, maximum, unset) equals tightening the target's range into the incoming range. |
| `SizeModifiers.ChildConstraints` | ui/ui-layout/src/androidTest/java/androidx/ui/layout/test/SizeModifiersTest.kt:241-262 | The constraints a modifier hands its child are well formed and lie inside its own on both axes. |
| `SizeModifiers.EffectiveBounds` | ui/ui-layout/src/androidTest/java/androidx/ui/layout/test/SizeModifiersTest.kt:241-262 | The bounds that reach the leaf through a whole chain are well formed and inside the incoming bounds. |
| `SizeModifiers.Leaf.Measure` | ui/ui-layout/src/androidTest/java/androidx/ui/layout/test/SizeModifiersTest.kt:95-98 | Every leaf (minimal, expanded, fixed-size, or any layout that obeys its constraints) reports a size that obeys its constraints. |
| `SizeModifiers.Measure` | ui/ui-layout/src/androidTest/java/androidx/ui/layout/test/SizeModifiersTest.kt:241-262 | Containment: a chain's size obeys the incoming constraints, and also the constraints its outermost modifier hands inward. |
| `SizeModifiers.MeasureIsLeafUnderEffectiveBounds` | ui/ui-layout/src/androidTest/java/androidx/ui/layout/test/SizeModifiersTest.kt:55-111 | Measuring a chain is measuring its leaf under the chain's effective bounds. |
| `SizeModifiers.EffectiveBoundsWraps` | ui/ui-layout/src/androidTest/java/androidx/ui/layout/test/SizeModifiersTest.kt:287-288 | In `a wraps b`, the constraints pass through all of `a` before any of `b`. |
| `SizeModifiers.MeasureWraps` | ui/ui-layout/src/androidTest/java/androidx/ui/layout/test/SizeModifiersTest.kt:67 | Measuring `a wraps b` is measuring `b` under the bounds `a` lets through. |
| `SizeModifiers.WrapsAssociative` | ui/ui-layout/src/androidTest/java/androidx/ui/layout/test/SizeModifiersTest.kt:287-288 | `(a wraps b) wraps d` is `a wraps (b wraps d)`. |
| `SizeModifiers.ExactTargetFixesSize` | ui/ui-layout/src/androidTest/java/androidx/ui/layout/test/SizeModifiersTest.kt:87-89 | An exact outer target that the incoming bounds allow is the measured size on its axis, for any inner chain and any leaf that obeys its constraints. |
| `SizeModifiers.OuterWinsConflict` | ui/ui-layout/src/androidTest/java/androidx/ui/layout/test/SizeModifiersTest.kt:77-86 | On either axis, a maximum `a` around a larger minimum `b` measures `a`, and a minimum `b` around a smaller maximum `a` measures `b`, for any inner chain and any leaf that obeys its constraints, when the incoming bounds on that axis allow the outer modifier's value. |
| `SizeModifiers.NoOpModifierInvisible` | ui/ui-layout/src/androidTest/java/androidx/ui/layout/test/SizeModifiersTest.kt:277-304 | A modifier whose targets are all `[0, Infinity]` (such as `MaxSize(Infinity, Infinity)`) does not change any measurement. |
| `SizeModifiers.TightBoundsOverrideChain` | ui/ui-layout/src/androidTest/java/androidx/ui/layout/test/SizeModifiersTest.kt:241-262 | Under tight incoming bounds, every chain around any leaf that obeys its constraints measures exactly those bounds. |
| `SizeModifiers.OwnAxisAnswer` | ui/ui-layout/src/androidTest/java/androidx/ui/layout/test/SizeModifiersTest.kt:315-318 | The per-target intrinsic rule (exact answers itself, minimum the larger, maximum the smaller, unset the child) equals coercing the child's answer into the target range. |
| `SizeModifiers.Intrinsic` | ui/ui-layout/src/androidTest/java/androidx/ui/layout/test/SizeModifiersTest.kt:307-606 | A chain's intrinsic answer is accepted by its outermost modifier's target on the queried axis. |
| `SizeModifiers.MinIntrinsicWidth` | ui/ui-layout/src/androidTest/java/androidx/ui/layout/test/SizeModifiersTest.kt:315-318 | `minIntrinsicWidth(h)` is the leaf's answer coerced into the width bounds the chain hands its leaf, and is accepted by the outermost width target. |
| `SizeModifiers.MinIntrinsicHeight` | ui/ui-layout/src/androidTest/java/androidx/ui/layout/test/SizeModifiersTest.kt:320-323 | `minIntrinsicHeight(w)` is the leaf's answer coerced into the chain's height bounds, and is accepted by the outermost height target. |
| `SizeModifiers.MaxIntrinsicWidth` | ui/ui-layout/src/androidTest/java/androidx/ui/layout/test/SizeModifiersTest.kt:325-328 | `maxIntrinsicWidth(h)` is the leaf's answer coerced into the chain's width bounds, and is accepted by the outermost width target. |
| `SizeModifiers.MaxIntrinsicHeight` | ui/ui-layout/src/androidTest/java/androidx/ui/layout/test/SizeModifiersTest.kt:330-333 | `maxIntrinsicHeight(w)` is the leaf's answer coerced into the chain's height bounds, and is accepted by the outermost height target. |
| `SizeModifiers.ClampedIntrinsic` | ui/ui-layout/src/androidTest/java/androidx/ui/layout/test/SizeModifiersTest.kt:496-514 | Coercing a chain's intrinsic answer into any bounds is coercing the leaf's answer into the bounds the chain would hand its leaf. |
| `SizeModifiers.IntrinsicIsLeafAnswerInEffectiveBounds` | ui/ui-layout/src/androidTest/java/androidx/ui/layout/test/SizeModifiersTest.kt:488-516 | Stacked modifiers compose by successive coercion. The intrinsic answer is the leaf's answer coerced into the chain's effective bounds under unbounded constraints, the same bounds measurement uses. |
| `SizeModifiers.UntargetedAxisPassesThrough` | ui/ui-layout/src/androidTest/java/androidx/ui/layout/test/SizeModifiersTest.kt:440-443 | If no modifier targets the queried axis, the leaf's answer comes through unchanged at the unchanged cross-axis input. |
| `SizeModifiers.ExactTargetFixesIntrinsic` | ui/ui-layout/src/androidTest/java/androidx/ui/layout/test/SizeModifiersTest.kt:435-448 | An exact outer target is the intrinsic answer on its axis at every input, `Infinity` included. |
| `SizeModifierScenarios.WidthModifierSizes` | ui/ui-layout/src/androidTest/java/androidx/ui/layout/test/SizeModifiersTest.kt:55-111 | The six width chains measure 50x50, 0x50, 50x50, 50x50, 100x50 and 50x50 under any loose bounds whose maxima reach 100 and 50. |
| `SizeModifierScenarios.HeightModifierSizes` | ui/ui-layout/src/androidTest/java/androidx/ui/layout/test/SizeModifiersTest.kt:114-170 | The six height chains measure 10x10, 10x0, 10x10, 10x10, 10x20 and 10x10. |
| `SizeModifierScenarios.SizeModifierSizes` | ui/ui-layout/src/androidTest/java/androidx/ui/layout/test/SizeModifiersTest.kt:173-227 | The combined-size chains measure 50x50, 50x50, 50x50, 100x100 and 50x50. |
| `SizeModifierScenarios.AncestorBoundsWin` | ui/ui-layout/src/androidTest/java/androidx/ui/layout/test/SizeModifiersTest.kt:230-263 | `Width(200) wraps Height(300)` around an expanded box measures 100x100 under every incoming maximum of 100 on both axes, whatever the minima (up to 100): both targets are coerced down to 100. |
| `SizeModifierScenarios.InfiniteMaxIsNoOp` | ui/ui-layout/src/androidTest/java/androidx/ui/layout/test/SizeModifiersTest.kt:266-304 | Each of the four infinite-maximum layouts leaves the 20x20 box at 20x20. |
| `SizeModifierScenarios.SquareLeaf` | ui/ui-layout/src/androidTest/java/androidx/ui/layout/test/SizeModifiersTest.kt:311 | The 1:1 `AspectRatio(1f)` box answers the cross-axis input itself when that is finite, and never more than it (0 at `Infinity`). |
| `SizeModifierScenarios.MinWidthIntrinsics` | ui/ui-layout/src/androidTest/java/androidx/ui/layout/test/SizeModifiersTest.kt:307-334 | `MinWidth(10)` over the square box gives every asserted min and max intrinsic. |
| `SizeModifierScenarios.MaxWidthIntrinsics` | ui/ui-layout/src/androidTest/java/androidx/ui/layout/test/SizeModifiersTest.kt:337-364 | `MaxWidth(20)` gives every asserted intrinsic, including 0 at `Infinity`. |
| `SizeModifierScenarios.MinHeightIntrinsics` | ui/ui-layout/src/androidTest/java/androidx/ui/layout/test/SizeModifiersTest.kt:367-394 | `MinHeight(30)` gives every asserted intrinsic, including 30 at `Infinity`. |
| `SizeModifierScenarios.MaxHeightIntrinsics` | ui/ui-layout/src/androidTest/java/androidx/ui/layout/test/SizeModifiersTest.kt:397-424 | `MaxHeight(40)` gives every asserted intrinsic. |
| `SizeModifierScenarios.WidthIntrinsics` | ui/ui-layout/src/androidTest/java/androidx/ui/layout/test/SizeModifiersTest.kt:427-454 | `Width(10)` gives 10 for width at every input, and passes height through (35 at 35, 0 at `Infinity`). |
| `SizeModifierScenarios.HeightIntrinsics` | ui/ui-layout/src/androidTest/java/androidx/ui/layout/test/SizeModifiersTest.kt:457-484 | `Height(10)` gives 10 for height at every input, and passes width through. |
| `SizeModifierScenarios.StackedIntrinsics` | ui/ui-layout/src/androidTest/java/androidx/ui/layout/test/SizeModifiersTest.kt:487-515 | The four-modifier chain gives widths 10, 15, 20, 10 and heights 30, 35, 40, 30. |
| `SizeModifierScenarios.MinSizeIntrinsics` | ui/ui-layout/src/androidTest/java/androidx/ui/layout/test/SizeModifiersTest.kt:518-545 | `MinSize(20, 30)` gives every asserted intrinsic. |
| `SizeModifierScenarios.MaxSizeIntrinsics` | ui/ui-layout/src/androidTest/java/androidx/ui/layout/test/SizeModifiersTest.kt:548-575 | `MaxSize(40, 50)` gives every asserted intrinsic. |
| `SizeModifierScenarios.SizeIntrinsics` | ui/ui-layout/src/androidTest/java/androidx/ui/layout/test/SizeModifiersTest.kt:578-605 | `Size(40, 50)` gives 40 and 50 at every input. |
| `TransitionState.PutIfAbsent` | ui/animation/src/main/java/androidx/animation/TransitionState.kt:29-35 | After a write the key set grows by exactly the key. A present key keeps the whole map as it was; an absent key maps to the new value; every earlier entry is untouched. |
| `TransitionState.FirstWriteWins` | ui/animation/src/main/java/androidx/animation/TransitionState.kt:29-39 | After any sequence of writes, a key that was present keeps its value. An absent key is present exactly when it was written, and then holds its first written value. |
| `TransitionState.SetAllExtends` | ui/animation/src/main/java/androidx/animation/TransitionState.kt:29-35 | Writes never remove a key or change a stored value. |
| `TransitionState.StateImpl.constructor` | ui/animation/src/main/java/androidx/animation/TransitionState.kt:25-27 | A new state has the given name and no properties. |
| `TransitionState.StateImpl.Set` | ui/animation/src/main/java/androidx/animation/TransitionState.kt:29-35 | Fails with `AlreadyExists(key)` exactly when the key was present, and then leaves `props` unchanged. Otherwise it adds the one entry. |
| `TransitionState.StateImpl.Get` | ui/animation/src/main/java/androidx/animation/TransitionState.kt:37-39 | Returns the value stored under a present key. |
| `TransitionState.SetTwiceThenGet` | ui/animation/src/main/java/androidx/animation/TransitionState.kt:25-39 | On a new state, a first `set` succeeds and a second `set` of the same key fails. `get` then returns the first value, and the name is still the one given. |
| `SchemaRewrite.PrefixProperty` | appsearch/appsearch/src/androidTest/java/androidx/appsearch/impl/AppSearchImplTest.java:42-57 | A property keeps its name, data type, cardinality and indexing config. A set reference gains the prefix; an unset one stays unset. |
| `SchemaRewrite.PrefixType` | appsearch/appsearch/src/androidTest/java/androidx/appsearch/impl/AppSearchImplTest.java:40-41 | A type's name gains the prefix. It keeps the number and order of its properties, each rewritten as above. |
| `SchemaRewrite.PrefixSchema` | appsearch/appsearch/src/androidTest/java/androidx/appsearch/impl/AppSearchImplTest.java:39-60 | The schema keeps its number and order of types, each rewritten as above. |
| `SchemaRewrite.PrefixSchemaPreservesStructure` | appsearch/appsearch/src/androidTest/java/androidx/appsearch/impl/AppSearchImplTest.java:62-83 | For every type and property of the result, every field other than the type name and the reference is unchanged. The type name is prefixed, and the reference is prefixed when set. |
| `SchemaRewrite.StripAfterPrefix` | appsearch/appsearch/src/androidTest/java/androidx/appsearch/impl/AppSearchImplTest.java:64 | Stripping the prefix from a prefixed name gives back the name. |
| `SchemaRewrite.UnprefixAfterPrefix` | appsearch/appsearch/src/androidTest/java/androidx/appsearch/impl/AppSearchImplTest.java:39-89 | Stripping the prefix from the rewritten schema recovers the original, so the rewrite loses nothing. |
| `SchemaRewrite.SchemaBuilder.constructor` | appsearch/appsearch/src/androidTest/java/androidx/appsearch/impl/AppSearchImplTest.java:86 | `toBuilder()` holds the schema's types. |
| `SchemaRewrite.SchemaBuilder.Build` | appsearch/appsearch/src/androidTest/java/androidx/appsearch/impl/AppSearchImplTest.java:89 | `build()` gives a schema with exactly the builder's types. |
| `SchemaRewrite.RewriteSchemaTypes` | appsearch/appsearch/src/androidTest/java/androidx/appsearch/impl/AppSearchImplTest.java:86-87 | Rewriting in place leaves the builder building the prefixed schema of what it held before. |
| `SchemaRewrite.TestSchemaRewritten` | appsearch/appsearch/src/androidTest/java/androidx/appsearch/impl/AppSearchImplTest.java:39-83 | The test's input schema, prefixed with "com.android.server.appsearch.impl@42:", is the test's expected schema. |
| `SchemaRewrite.RewriteTestSchema` | appsearch/appsearch/src/androidTest/java/androidx/appsearch/impl/AppSearchImplTest.java:85-89 | Rewriting the test's schema through a builder and building it yields the expected schema. |

## Left out

- Child positions in `Row` and `Column` (the `PxPosition` assertions, e.g. `SizeModifiersTest.kt:96-111`): they come from multi-child layout code that is not part of this model.
- The UI harness: composition (`show`, `Align`, `Container`, `OnChildPositioned`, `SaveLayoutInfo`, `Ref`) and the `CountDownLatch` waits. The scenario lemmas hold under loose bounds whose maxima are large enough, possibly `Infinity`.
- Density conversion (`withDensity`, `toIntPx`): it is a floating-point scale. Lengths are stated in pixels at one pixel per dp.
- `AspectRatio` with a general float ratio: it is floating point. Intrinsic queries take an abstract leaf (a function from query to answer), and the tests' 1:1 box is `SquareLeaf`.
- Intrinsic answers of the measured leaves (`Minimal`, `Expanded`, `Fixed`), and measurement of the square box: no assertion shows them.
- `SizeModifiers.Leaf.Measure`: an expanded box under an infinite maximum takes its minimum. No assertion covers that case, which is a choice of the model.
- `SizeModifiers.Intrinsic`: child answers are finite (`nat`), so an unbounded child answer cannot be stated at all.
- Negative, NaN or infinite exact/minimum lengths, and the argument errors they would raise: the types rule them out (`nat`, and `Length` only for maxima). The modifiers' constructor code is not part of this model.
- The `PropKey` interpolators (`TransitionState.kt:61-105`): they use float `lerp`, `Color.blend` and float-to-int truncation.
- `TransitionState.StateImpl.Get`: it requires the key to be present. With the key absent, the source's unchecked cast of `null` fails, and the model does not cover that failure. Kotlin's `props[name] != null` check is modelled as key presence, since stored values are non-null `Any`.
- `SchemaRewrite.RewriteSchemaTypes`: the test cannot tell whether a reference is prefixed because it is set or because its property is a DOCUMENT. The model prefixes every set (non-empty) reference. Nested protocol-buffer builders and the icing library are reduced to plain values.
- `TransitionState.StateImpl`: every key shares one value type. The source's `set` takes any value `prop: Any` under a `PropKey<out Any>` (`TransitionState.kt:29`), and `get<T>` returns it through an unchecked `as T` cast (`TransitionState.kt:37-38`). The model does not capture how a key's type relates to its value's type.
- `setSchema` and its package lookup (`AppSearchImplTest.java:92-101`): they depend on the Android `Context` and `PackageManager`.
- `SizeModifierSample.kt`: it only draws shapes and holds no checkable logic.
