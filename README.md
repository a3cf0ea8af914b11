# baryon_math vectors, modelled in Dafny

This project models the vector module of `baryon_math`, the linear-algebra
crate of the baryon game engine: the three fixed shapes `Vec2 {x, y}`,
`Vec3 {x, y, z}` and `Vec4 {x, y, z, w}` of `f32` components, and the
elementwise engine that a single macro template gives each of them.

- `float32.dfy` (module `Float32`): the scalar. An `f32` is kept as its 32-bit
  pattern (`bv32`); `0.0` is `0x0000_0000` and `1.0` is `0x3F80_0000`. The
  float operations behind `Add::add`, `Sub::sub`, `Mul::mul`, `Div::div` and
  `Neg::neg` are not interpreted: they travel as an `Arith` record of
  functions, and every operator takes one.
- `lanes.dfy` (module `Lanes`): shape-independent reference definitions over
  the sequence of a vector's components in declaration order (elementwise map,
  same-position zip, left fold, and the same with a closure that carries
  state), with the lemmas that fix the order of the calls.
- `vec.dfy` (module `Vec`): one datatype per shape with `New`, `Zero`, `One`,
  the derived `Default`, the hand-written unit vectors, `Map`, `ZipWith`,
  `ZipWithScalar`, `Fold` and the operators `Add`, `Neg`, `Sub`, `Mul`
  (`v * s`), `ScalarMul` (`s * v`) and `Div`, each specified through
  `Components()` against `Lanes`. Rust closures are `FnMut`, so `map`,
  `zip_with` and `zip_with_scalar` also exist as `MapMut`, `ZipWithMut` and
  `ZipWithScalarMut`, which thread the closure's state through the calls in
  the order Rust evaluates the arguments of `new` (left to right); the plain
  versions, which every operator uses, are proved equal to these for
  closures without state (`MapIsStatelessMapMut`,
  `ZipWithIsStatelessZipWithMut`, `ZipWithScalarIsStatelessZipWithScalarMut`). The four compound assignments overwrite their
  receiver in place, so each shape also has a class `Vec2Var`/`Vec3Var`/`Vec4Var`
  holding the fields, whose `AddAssign`, `SubAssign`, `MulAssign` and
  `DivAssign` methods modify only that object.

Vectors are Dafny datatype values, so copying never aliases, as with the
`Copy` derive of the source. Equality in every contract is equality of the
stored bits, which is what the source's code produces; it is not the derived
IEEE-754 `PartialEq`.

The components are independent, but `map` takes an `FnMut` closure, so the
order of its calls is observable: the code calls it field by field in
declaration order, which `MapCallsInOrder` proves for each shape.

## Model

The table lists every member that models a source function or states a
property of one. `Lanes.Fill`, `Lanes.Basis` and `Lanes.FoldLeft` carry no
contract of their own: they are the reference values (`n` copies of a scalar,
the unit vector along axis `k`, the left fold) that the contracts of `Zero`,
`One`, the unit vectors, `ZipWithScalar` and `Fold` are stated against, and
`FoldLeftAppend` and `FoldLeftLast` state what the left fold does.

| member | source | states |
|---|---|---|
| `Vec.Vec2.New` | crates/baryon_math/src/vec.rs:99-101 | the components of the result are the arguments in field order (x, y) |
| `Vec.Vec2.Zero` | crates/baryon_math/src/vec.rs:105-107 | all 2 components are `0.0` |
| `Vec.Vec2.One` | crates/baryon_math/src/vec.rs:111-113 | all 2 components are `1.0` |
| `Vec.Vec2.Default` | crates/baryon_math/src/vec.rs:9 | the derived default equals `zero()`: every field takes `f32`'s default `0.0` |
| `Vec.Vec2.UnitX` | crates/baryon_math/src/vec.rs:37-39 | `1.0` in field x (position 0) and `0.0` in every other field |
| `Vec.Vec2.UnitY` | crates/baryon_math/src/vec.rs:43-45 | `1.0` in field y (position 1) and `0.0` in every other field |
| `Vec.Vec2.Map` | crates/baryon_math/src/vec.rs:116-121 | result component i is `f` of component i, for every field, same shape |
| `Vec.Vec2.MapMut` | crates/baryon_math/src/vec.rs:116-121 | with a stateful (`FnMut`) closure: result and final closure state are those of one call per field, in order x, y, each call seeing the state the previous one left |
| `Vec.Vec2.ZipWith` | crates/baryon_math/src/vec.rs:124-129 | result component i is `f(self_i, rhs_i)`: same-named fields only, `self` always first |
| `Vec.Vec2.ZipWithMut` | crates/baryon_math/src/vec.rs:124-129 | stateful closure: one call per same-named field pair, front to back, state threaded |
| `Vec.Vec2.ZipWithScalar` | crates/baryon_math/src/vec.rs:132-137 | result component i is `f(self_i, s)`: the scalar is broadcast unchanged, always second |
| `Vec.Vec2.ZipWithScalarMut` | crates/baryon_math/src/vec.rs:132-137 | stateful closure: one call per field with the unchanged scalar second, state threaded |
| `Vec.Vec2.Fold` | crates/baryon_math/src/vec.rs:140-147 | the result is the left fold of the components in declaration order (x, y) seeded with `init`; its type is the accumulator's, independent of `f32` |
| `Vec.Vec2.Add` | crates/baryon_math/src/vec.rs:158-160 | component i of `a + b` is `add(a_i, b_i)` |
| `Vec.Vec2.Neg` | crates/baryon_math/src/vec.rs:171-173 | component i of `-a` is `neg(a_i)` |
| `Vec.Vec2.Sub` | crates/baryon_math/src/vec.rs:178-180 | component i of `a - b` is `sub(a_i, b_i)` |
| `Vec.Vec2.Mul` | crates/baryon_math/src/vec.rs:191-193 | component i of `v * s` is `mul(v_i, s)` |
| `Vec.Vec2.ScalarMul` | crates/baryon_math/src/vec.rs:198-200 | `s * v` equals `v * s` with no commutativity of `mul` assumed: component i is still `mul(v_i, s)` |
| `Vec.Vec2.Div` | crates/baryon_math/src/vec.rs:211-213 | component i of `v / s` is `div(v_i, s)` |
| `Vec.Vec2.MapCallsInOrder` | crates/baryon_math/src/vec.rs:120 | `map` calls its closure exactly once per field, in order x, y: a closure logging its arguments logs exactly the components, and logging changes neither its state nor the result |
| `Vec.Vec2.MapIsStatelessMapMut` | crates/baryon_math/src/vec.rs:116-121 | for a closure that keeps no state the stateful model agrees with `Map` and returns the state untouched |
| `Vec.Vec2.MapStateIsFold` | crates/baryon_math/src/vec.rs:120 | the closure's state after `map` is the fold of its state updates over the fields, as `fold` computes it |
| `Vec.Vec2.ZipWithCallsInOrder` | crates/baryon_math/src/vec.rs:128 | `zip_with` calls its closure once per field, in order, with exactly the pairs (self_e, rhs_e) |
| `Vec.Vec2.ZipWithIsStatelessZipWithMut` | crates/baryon_math/src/vec.rs:124-129 | for a closure that keeps no state the stateful model agrees with `ZipWith` |
| `Vec.Vec2.ZipWithScalarIsMap` | crates/baryon_math/src/vec.rs:132-137 | `zip_with_scalar(s, f)` equals `map(c => f(c, s))` |
| `Vec.Vec2.ZipWithScalarMutIsMapMut` | crates/baryon_math/src/vec.rs:132-137 | the same equality holds call for call for stateful closures |
| `Vec.Vec2.ZipWithScalarIsStatelessZipWithScalarMut` | crates/baryon_math/src/vec.rs:132-137 | for a closure that keeps no state the stateful model agrees with `ZipWithScalar` and returns the state untouched |
| `Vec.Vec2.ZipWithScalarCallsInOrder` | crates/baryon_math/src/vec.rs:136 | `zip_with_scalar` calls its closure once per field, in order, with the field first and the unchanged scalar second |
| `Vec.Vec2Var.AddAssign` | crates/baryon_math/src/vec.rs:164-166 | the receiver's new value is its old value `+` the operand; nothing but the receiver changes and the operand, passed by value, is untouched |
| `Vec.Vec2Var.SubAssign` | crates/baryon_math/src/vec.rs:184-186 | the receiver's new value is its old value `-` the operand; nothing but the receiver changes and the operand, passed by value, is untouched |
| `Vec.Vec2Var.MulAssign` | crates/baryon_math/src/vec.rs:204-206 | the receiver's new value is its old value `*` the operand; nothing but the receiver changes and the operand, passed by value, is untouched |
| `Vec.Vec2Var.DivAssign` | crates/baryon_math/src/vec.rs:217-219 | the receiver's new value is its old value `/` the operand; nothing but the receiver changes and the operand, passed by value, is untouched |
| `Vec.Vec3.New` | crates/baryon_math/src/vec.rs:99-101 | the components of the result are the arguments in field order (x, y, z) |
| `Vec.Vec3.Zero` | crates/baryon_math/src/vec.rs:105-107 | all 3 components are `0.0` |
| `Vec.Vec3.One` | crates/baryon_math/src/vec.rs:111-113 | all 3 components are `1.0` |
| `Vec.Vec3.Default` | crates/baryon_math/src/vec.rs:17 | the derived default equals `zero()`: every field takes `f32`'s default `0.0` |
| `Vec.Vec3.UnitX` | crates/baryon_math/src/vec.rs:51-53 | `1.0` in field x (position 0) and `0.0` in every other field |
| `Vec.Vec3.UnitY` | crates/baryon_math/src/vec.rs:57-59 | `1.0` in field y (position 1) and `0.0` in every other field |
| `Vec.Vec3.UnitZ` | crates/baryon_math/src/vec.rs:63-65 | `1.0` in field z (position 2) and `0.0` in every other field |
| `Vec.Vec3.Map` | crates/baryon_math/src/vec.rs:116-121 | result component i is `f` of component i, for every field, same shape |
| `Vec.Vec3.MapMut` | crates/baryon_math/src/vec.rs:116-121 | with a stateful (`FnMut`) closure: result and final closure state are those of one call per field, in order x, y, z, each call seeing the state the previous one left |
| `Vec.Vec3.ZipWith` | crates/baryon_math/src/vec.rs:124-129 | result component i is `f(self_i, rhs_i)`: same-named fields only, `self` always first |
| `Vec.Vec3.ZipWithMut` | crates/baryon_math/src/vec.rs:124-129 | stateful closure: one call per same-named field pair, front to back, state threaded |
| `Vec.Vec3.ZipWithScalar` | crates/baryon_math/src/vec.rs:132-137 | result component i is `f(self_i, s)`: the scalar is broadcast unchanged, always second |
| `Vec.Vec3.ZipWithScalarMut` | crates/baryon_math/src/vec.rs:132-137 | stateful closure: one call per field with the unchanged scalar second, state threaded |
| `Vec.Vec3.Fold` | crates/baryon_math/src/vec.rs:140-147 | the result is the left fold of the components in declaration order (x, y, z) seeded with `init`; its type is the accumulator's, independent of `f32` |
| `Vec.Vec3.Add` | crates/baryon_math/src/vec.rs:158-160 | component i of `a + b` is `add(a_i, b_i)` |
| `Vec.Vec3.Neg` | crates/baryon_math/src/vec.rs:171-173 | component i of `-a` is `neg(a_i)` |
| `Vec.Vec3.Sub` | crates/baryon_math/src/vec.rs:178-180 | component i of `a - b` is `sub(a_i, b_i)` |
| `Vec.Vec3.Mul` | crates/baryon_math/src/vec.rs:191-193 | component i of `v * s` is `mul(v_i, s)` |
| `Vec.Vec3.ScalarMul` | crates/baryon_math/src/vec.rs:198-200 | `s * v` equals `v * s` with no commutativity of `mul` assumed: component i is still `mul(v_i, s)` |
| `Vec.Vec3.Div` | crates/baryon_math/src/vec.rs:211-213 | component i of `v / s` is `div(v_i, s)` |
| `Vec.Vec3.MapCallsInOrder` | crates/baryon_math/src/vec.rs:120 | `map` calls its closure exactly once per field, in order x, y, z: a closure logging its arguments logs exactly the components, and logging changes neither its state nor the result |
| `Vec.Vec3.MapIsStatelessMapMut` | crates/baryon_math/src/vec.rs:116-121 | for a closure that keeps no state the stateful model agrees with `Map` and returns the state untouched |
| `Vec.Vec3.MapStateIsFold` | crates/baryon_math/src/vec.rs:120 | the closure's state after `map` is the fold of its state updates over the fields, as `fold` computes it |
| `Vec.Vec3.ZipWithCallsInOrder` | crates/baryon_math/src/vec.rs:128 | `zip_with` calls its closure once per field, in order, with exactly the pairs (self_e, rhs_e) |
| `Vec.Vec3.ZipWithIsStatelessZipWithMut` | crates/baryon_math/src/vec.rs:124-129 | for a closure that keeps no state the stateful model agrees with `ZipWith` |
| `Vec.Vec3.ZipWithScalarIsMap` | crates/baryon_math/src/vec.rs:132-137 | `zip_with_scalar(s, f)` equals `map(c => f(c, s))` |
| `Vec.Vec3.ZipWithScalarMutIsMapMut` | crates/baryon_math/src/vec.rs:132-137 | the same equality holds call for call for stateful closures |
| `Vec.Vec3.ZipWithScalarIsStatelessZipWithScalarMut` | crates/baryon_math/src/vec.rs:132-137 | for a closure that keeps no state the stateful model agrees with `ZipWithScalar` and returns the state untouched |
| `Vec.Vec3.ZipWithScalarCallsInOrder` | crates/baryon_math/src/vec.rs:136 | `zip_with_scalar` calls its closure once per field, in order, with the field first and the unchanged scalar second |
| `Vec.Vec3Var.AddAssign` | crates/baryon_math/src/vec.rs:164-166 | the receiver's new value is its old value `+` the operand; nothing but the receiver changes and the operand, passed by value, is untouched |
| `Vec.Vec3Var.SubAssign` | crates/baryon_math/src/vec.rs:184-186 | the receiver's new value is its old value `-` the operand; nothing but the receiver changes and the operand, passed by value, is untouched |
| `Vec.Vec3Var.MulAssign` | crates/baryon_math/src/vec.rs:204-206 | the receiver's new value is its old value `*` the operand; nothing but the receiver changes and the operand, passed by value, is untouched |
| `Vec.Vec3Var.DivAssign` | crates/baryon_math/src/vec.rs:217-219 | the receiver's new value is its old value `/` the operand; nothing but the receiver changes and the operand, passed by value, is untouched |
| `Vec.Vec4.New` | crates/baryon_math/src/vec.rs:99-101 | the components of the result are the arguments in field order (x, y, z, w) |
| `Vec.Vec4.Zero` | crates/baryon_math/src/vec.rs:105-107 | all 4 components are `0.0` |
| `Vec.Vec4.One` | crates/baryon_math/src/vec.rs:111-113 | all 4 components are `1.0` |
| `Vec.Vec4.Default` | crates/baryon_math/src/vec.rs:26 | the derived default equals `zero()`: every field takes `f32`'s default `0.0` |
| `Vec.Vec4.UnitX` | crates/baryon_math/src/vec.rs:71-73 | `1.0` in field x (position 0) and `0.0` in every other field |
| `Vec.Vec4.UnitY` | crates/baryon_math/src/vec.rs:77-79 | `1.0` in field y (position 1) and `0.0` in every other field |
| `Vec.Vec4.UnitZ` | crates/baryon_math/src/vec.rs:83-85 | `1.0` in field z (position 2) and `0.0` in every other field |
| `Vec.Vec4.UnitW` | crates/baryon_math/src/vec.rs:89-91 | `1.0` in field w (position 3) and `0.0` in every other field |
| `Vec.Vec4.Map` | crates/baryon_math/src/vec.rs:116-121 | result component i is `f` of component i, for every field, same shape |
| `Vec.Vec4.MapMut` | crates/baryon_math/src/vec.rs:116-121 | with a stateful (`FnMut`) closure: result and final closure state are those of one call per field, in order x, y, z, w, each call seeing the state the previous one left |
| `Vec.Vec4.ZipWith` | crates/baryon_math/src/vec.rs:124-129 | result component i is `f(self_i, rhs_i)`: same-named fields only, `self` always first |
| `Vec.Vec4.ZipWithMut` | crates/baryon_math/src/vec.rs:124-129 | stateful closure: one call per same-named field pair, front to back, state threaded |
| `Vec.Vec4.ZipWithScalar` | crates/baryon_math/src/vec.rs:132-137 | result component i is `f(self_i, s)`: the scalar is broadcast unchanged, always second |
| `Vec.Vec4.ZipWithScalarMut` | crates/baryon_math/src/vec.rs:132-137 | stateful closure: one call per field with the unchanged scalar second, state threaded |
| `Vec.Vec4.Fold` | crates/baryon_math/src/vec.rs:140-147 | the result is the left fold of the components in declaration order (x, y, z, w) seeded with `init`; its type is the accumulator's, independent of `f32` |
| `Vec.Vec4.Add` | crates/baryon_math/src/vec.rs:158-160 | component i of `a + b` is `add(a_i, b_i)` |
| `Vec.Vec4.Neg` | crates/baryon_math/src/vec.rs:171-173 | component i of `-a` is `neg(a_i)` |
| `Vec.Vec4.Sub` | crates/baryon_math/src/vec.rs:178-180 | component i of `a - b` is `sub(a_i, b_i)` |
| `Vec.Vec4.Mul` | crates/baryon_math/src/vec.rs:191-193 | component i of `v * s` is `mul(v_i, s)` |
| `Vec.Vec4.ScalarMul` | crates/baryon_math/src/vec.rs:198-200 | `s * v` equals `v * s` with no commutativity of `mul` assumed: component i is still `mul(v_i, s)` |
| `Vec.Vec4.Div` | crates/baryon_math/src/vec.rs:211-213 | component i of `v / s` is `div(v_i, s)` |
| `Vec.Vec4.MapCallsInOrder` | crates/baryon_math/src/vec.rs:120 | `map` calls its closure exactly once per field, in order x, y, z, w: a closure logging its arguments logs exactly the components, and logging changes neither its state nor the result |
| `Vec.Vec4.MapIsStatelessMapMut` | crates/baryon_math/src/vec.rs:116-121 | for a closure that keeps no state the stateful model agrees with `Map` and returns the state untouched |
| `Vec.Vec4.MapStateIsFold` | crates/baryon_math/src/vec.rs:120 | the closure's state after `map` is the fold of its state updates over the fields, as `fold` computes it |
| `Vec.Vec4.ZipWithCallsInOrder` | crates/baryon_math/src/vec.rs:128 | `zip_with` calls its closure once per field, in order, with exactly the pairs (self_e, rhs_e) |
| `Vec.Vec4.ZipWithIsStatelessZipWithMut` | crates/baryon_math/src/vec.rs:124-129 | for a closure that keeps no state the stateful model agrees with `ZipWith` |
| `Vec.Vec4.ZipWithScalarIsMap` | crates/baryon_math/src/vec.rs:132-137 | `zip_with_scalar(s, f)` equals `map(c => f(c, s))` |
| `Vec.Vec4.ZipWithScalarMutIsMapMut` | crates/baryon_math/src/vec.rs:132-137 | the same equality holds call for call for stateful closures |
| `Vec.Vec4.ZipWithScalarIsStatelessZipWithScalarMut` | crates/baryon_math/src/vec.rs:132-137 | for a closure that keeps no state the stateful model agrees with `ZipWithScalar` and returns the state untouched |
| `Vec.Vec4.ZipWithScalarCallsInOrder` | crates/baryon_math/src/vec.rs:136 | `zip_with_scalar` calls its closure once per field, in order, with the field first and the unchanged scalar second |
| `Vec.Vec4Var.AddAssign` | crates/baryon_math/src/vec.rs:164-166 | the receiver's new value is its old value `+` the operand; nothing but the receiver changes and the operand, passed by value, is untouched |
| `Vec.Vec4Var.SubAssign` | crates/baryon_math/src/vec.rs:184-186 | the receiver's new value is its old value `-` the operand; nothing but the receiver changes and the operand, passed by value, is untouched |
| `Vec.Vec4Var.MulAssign` | crates/baryon_math/src/vec.rs:204-206 | the receiver's new value is its old value `*` the operand; nothing but the receiver changes and the operand, passed by value, is untouched |
| `Vec.Vec4Var.DivAssign` | crates/baryon_math/src/vec.rs:217-219 | the receiver's new value is its old value `/` the operand; nothing but the receiver changes and the operand, passed by value, is untouched |
| `Lanes.MapSeq` | crates/baryon_math/src/vec.rs:120 | reference "elementwise": recursive definition whose result has the input's length and `f(s[i])` at every index |
| `Lanes.ZipSeq` | crates/baryon_math/src/vec.rs:128 | reference "same-position pairs": result has `f(a[i], b[i])` at every index, `a`'s element first |
| `Lanes.Pairs` | crates/baryon_math/src/vec.rs:128 | the same-position argument pairs a zip feeds its closure |
| `Lanes.MapMutSeq` | crates/baryon_math/src/vec.rs:120 | reference for a map with a stateful closure: one call per element, front to back, each seeing the state the previous call left; the result has the input's length |
| `Lanes.ZipMutSeq` | crates/baryon_math/src/vec.rs:128 | reference for a zip with a stateful closure: one call per position, front to back, state threaded; the result has the inputs' length |
| `Lanes.FoldLeftAppend` | crates/baryon_math/src/vec.rs:144-146 | a left fold consumes elements strictly left to right: folding `s + t` folds `t` from where `s` left off |
| `Lanes.FoldLeftLast` | crates/baryon_math/src/vec.rs:145-146 | the last component is consumed by the last call |
| `Lanes.MapMutCallsInOrder` | crates/baryon_math/src/vec.rs:120 | a stateful map calls its closure exactly once per element, front to back |
| `Lanes.ZipMutCallsInOrder` | crates/baryon_math/src/vec.rs:128 | a stateful zip calls its closure exactly once per position, front to back, with `a`'s element first |
| `Lanes.MapMutStateIsFold` | crates/baryon_math/src/vec.rs:120 | a stateful map's closure state evolves as a left fold over the elements |
| `Lanes.MapMutStateless` | crates/baryon_math/src/vec.rs:120 | a stateless closure makes the stateful map the plain map |
| `Lanes.ZipMutStateless` | crates/baryon_math/src/vec.rs:128 | a stateless closure makes the stateful zip the plain zip |

## Left out

- IEEE-754 `f32` arithmetic (rounding, NaN and infinity propagation, division by zero): the operations are uninterpreted parameters, so no algebraic law (commutativity, `a + zero == a`, `a - a == zero`) and no numeric example such as `(1, 2, 3) + (0.5, 0.5, 0.5)` is stated.
- The derived `PartialEq` and `PartialOrd` (vec.rs line 9 and its siblings): their IEEE-754 comparison semantics depend on float arithmetic.
- `#[repr(C)]`, `#[inline]` and `const fn`: layout and compilation attributes with no behaviour; `Components()` only fixes the order of the fields.
- `Copy` and `Clone`: datatype values in Dafny are copied by value, which is all these derives promise.
- `crates/baryon_math/src/vec2.rs`, `vec3.rs` and `vec4.rs`: not compiled (`lib.rs` declares only `mod vec`); they repeat a subset of `vec.rs`.
- `crates/baryon_math/src/lib.rs`: module wiring and prelude re-exports only.
- Closures that panic or do not return: closures are total Dafny functions.
- `Fold`: a stateful `FnMut` closure's own state is not threaded separately; it is captured by choosing an accumulator type that carries it.
- The compound assignments take their operand by value, as the source does, so an operand aliasing the receiver is not modelled.
