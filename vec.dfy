/** `Vec2`, `Vec3` and `Vec4`: plain `f32` aggregates and the elementwise engine
    that one macro template gives each of them (constructors, `map`,
    `zip_with`, `zip_with_scalar`, `fold`) with the arithmetic operators built
    from it. Each shape is its own datatype, so no operation mixes shapes.
    Every operation is specified against the shape-independent definitions in
    `Lanes`, through `Components()`, the fields in declaration order.
    The compound assignment operators, which overwrite their receiver in place,
    are methods of one mutable class per shape. */
module Vec {
  import Float32
  import Lanes

  type F32 = Float32.F32
  type Arith = Float32.Arith

  /** A 2d vector. */
  datatype Vec2 = Vec2(x: F32, y: F32) {

    /** The fields in declaration order. */
    function Components(): seq<F32>
    {
      [x, y]
    }

    /** Create a vector from its components. */
    static function New(x: F32, y: F32): (r: Vec2)
      ensures r.Components() == [x, y]
    {
      Vec2(x, y)
    }

    /** The vector filled with `0.0`. */
    static function Zero(): (r: Vec2)
      ensures r.Components() == Lanes.Fill(2, Float32.Zero)
    {
      Vec2(Float32.Zero, Float32.Zero)
    }

    /** The vector filled with `1.0`. */
    static function One(): (r: Vec2)
      ensures r.Components() == Lanes.Fill(2, Float32.One)
    {
      Vec2(Float32.One, Float32.One)
    }

    /** The derived `Default`: every field takes `f32`'s default, `0.0`. */
    static function Default(): (r: Vec2)
      ensures r == Zero()
    {
      Vec2(Float32.Zero, Float32.Zero)
    }

    /** The unit vector for the x axis. */
    static function UnitX(): (r: Vec2)
      ensures r.Components() == Lanes.Basis(2, 0)
    {
      New(Float32.One, Float32.Zero)
    }

    /** The unit vector for the y axis. */
    static function UnitY(): (r: Vec2)
      ensures r.Components() == Lanes.Basis(2, 1)
    {
      New(Float32.Zero, Float32.One)
    }

    /** Apply `f` to every component (a closure that keeps no state). */
    function Map(f: F32 -> F32): (r: Vec2)
      ensures r.Components() == Lanes.MapSeq(Components(), f)
    {
      New(f(x), f(y))
    }

    /** `map` with a closure that carries state: the arguments of `new` are
        evaluated left to right, so `f` sees x, then y. */
    function MapMut<S>(st: S, f: (S, F32) -> (S, F32)): (r: (S, Vec2))
      ensures (r.0, r.1.Components()) == Lanes.MapMutSeq(st, Components(), f)
    {
      var cx := f(st, x);
      var cy := f(cx.0, y);
      Lanes.MapMutSeq2(st, x, y, f);
      assert Components() == [x, y];
      (cy.0, New(cx.1, cy.1))
    }

    /** Zip with another vector of the same shape, element-wise. */
    function ZipWith(rhs: Vec2, f: (F32, F32) -> F32): (r: Vec2)
      ensures r.Components() == Lanes.ZipSeq(Components(), rhs.Components(), f)
    {
      New(f(x, rhs.x), f(y, rhs.y))
    }

    /** `zip_with` with a closure that carries state. */
    function ZipWithMut<S>(st: S, rhs: Vec2, f: (S, F32, F32) -> (S, F32)): (r: (S, Vec2))
      ensures (r.0, r.1.Components()) == Lanes.ZipMutSeq(st, Components(), rhs.Components(), f)
    {
      var cx := f(st, x, rhs.x);
      var cy := f(cx.0, y, rhs.y);
      Lanes.ZipMutSeq2(st, x, y, rhs.x, rhs.y, f);
      assert Components() == [x, y] && rhs.Components() == [rhs.x, rhs.y];
      (cy.0, New(cx.1, cy.1))
    }

    /** Zip with a scalar broadcast to every component, always as `f`'s second argument. */
    function ZipWithScalar(rhs: F32, f: (F32, F32) -> F32): (r: Vec2)
      ensures r.Components() == Lanes.ZipSeq(Components(), Lanes.Fill(2, rhs), f)
    {
      New(f(x, rhs), f(y, rhs))
    }

    /** `zip_with_scalar` with a closure that carries state. */
    function ZipWithScalarMut<S>(st: S, rhs: F32, f: (S, F32, F32) -> (S, F32)): (r: (S, Vec2))
      ensures (r.0, r.1.Components()) == Lanes.ZipMutSeq(st, Components(), Lanes.Fill(2, rhs), f)
    {
      var cx := f(st, x, rhs);
      var cy := f(cx.0, y, rhs);
      Lanes.ZipMutSeq2(st, x, y, rhs, rhs, f);
      assert Components() == [x, y] && Lanes.Fill(2, rhs) == [rhs, rhs];
      (cy.0, New(cx.1, cy.1))
    }

    /** Fold the components, in declaration order, starting from `init`. */
    function Fold<T>(init: T, f: (T, F32) -> T): (r: T)
      ensures r == Lanes.FoldLeft(Components(), init, f)
    {
      var acc0 := init;
      var acc1 := f(acc0, x);
      var acc2 := f(acc1, y);
      assert Lanes.FoldLeft([y], acc1, f) == acc2 by {
        Lanes.FoldLeftCons(y, [], acc1, f);
        assert [y] == [y] + [];
      }
      assert Lanes.FoldLeft([x, y], acc0, f) == acc2 by {
        Lanes.FoldLeftCons(x, [y], acc0, f);
        assert [x, y] == [x] + [y];
      }
      assert Components() == [x, y];
      acc2
    }

    /** `self + rhs`. */
    function Add(ops: Arith, rhs: Vec2): (r: Vec2)
      ensures r.Components() == Lanes.ZipSeq(Components(), rhs.Components(), ops.add)
    {
      ZipWith(rhs, ops.add)
    }

    /** `-self`. */
    function Neg(ops: Arith): (r: Vec2)
      ensures r.Components() == Lanes.MapSeq(Components(), ops.neg)
    {
      Map(ops.neg)
    }

    /** `self - rhs`. */
    function Sub(ops: Arith, rhs: Vec2): (r: Vec2)
      ensures r.Components() == Lanes.ZipSeq(Components(), rhs.Components(), ops.sub)
    {
      ZipWith(rhs, ops.sub)
    }

    /** `self * rhs` for a scalar `rhs`. */
    function Mul(ops: Arith, rhs: F32): (r: Vec2)
      ensures r.Components() == Lanes.ZipSeq(Components(), Lanes.Fill(2, rhs), ops.mul)
    {
      ZipWithScalar(rhs, ops.mul)
    }

    /** `lhs * rhs` for a scalar `lhs`: the same as `rhs * lhs`, with no
        commutativity of `mul` assumed, since the scalar is still passed second. */
    static function ScalarMul(ops: Arith, lhs: F32, rhs: Vec2): (r: Vec2)
      ensures r == rhs.Mul(ops, lhs)
      ensures r.Components() == Lanes.ZipSeq(rhs.Components(), Lanes.Fill(2, lhs), ops.mul)
    {
      rhs.ZipWithScalar(lhs, ops.mul)
    }

    /** `self / rhs` for a scalar `rhs`. */
    function Div(ops: Arith, rhs: F32): (r: Vec2)
      ensures r.Components() == Lanes.ZipSeq(Components(), Lanes.Fill(2, rhs), ops.div)
    {
      ZipWithScalar(rhs, ops.div)
    }

    /** A vector is determined by its components. */
    static lemma ComponentsDetermine(a: Vec2, b: Vec2)
      requires a.Components() == b.Components()
      ensures a == b
    {
    }

    /** `map` calls its closure once per field, in order x, y: a closure that
        logs its arguments logs exactly the components. */
    lemma MapCallsInOrder<S>(log: seq<F32>, st: S, f: (S, F32) -> (S, F32))
      ensures MapMut((log, st), Lanes.Logged(f)) == ((log + Components(), MapMut(st, f).0), MapMut(st, f).1)
    {
      var logged := MapMut((log, st), Lanes.Logged(f));
      Lanes.MapMutCallsInOrder(log, st, Components(), f);
      ComponentsDetermine(logged.1, MapMut(st, f).1);
    }

    /** `map` with a closure that keeps no state is `Map`, and the state is untouched. */
    lemma MapIsStatelessMapMut<S>(st: S, g: F32 -> F32)
      ensures MapMut(st, (q: S, c: F32) => (q, g(c))) == (st, Map(g))
    {
    }

    /** The closure's state after `map` is the fold of its state updates over the fields. */
    lemma MapStateIsFold<S>(st: S, f: (S, F32) -> (S, F32))
      ensures MapMut(st, f).0 == Fold(st, (q: S, c: F32) => f(q, c).0)
    {
    }

    /** `zip_with` pairs only same-named fields, `self`'s first: a closure that
        logs its arguments logs exactly (x, rhs.x), (y, rhs.y). */
    lemma ZipWithCallsInOrder<S>(log: seq<(F32, F32)>, st: S, rhs: Vec2, f: (S, F32, F32) -> (S, F32))
      ensures ZipWithMut((log, st), rhs, Lanes.Logged2(f))
           == ((log + Lanes.Pairs(Components(), rhs.Components()), ZipWithMut(st, rhs, f).0), ZipWithMut(st, rhs, f).1)
    {
      var logged := ZipWithMut((log, st), rhs, Lanes.Logged2(f));
      Lanes.ZipMutCallsInOrder(log, st, Components(), rhs.Components(), f);
      ComponentsDetermine(logged.1, ZipWithMut(st, rhs, f).1);
    }

    /** `zip_with` with a closure that keeps no state is `ZipWith`. */
    lemma ZipWithIsStatelessZipWithMut<S>(st: S, rhs: Vec2, g: (F32, F32) -> F32)
      ensures ZipWithMut(st, rhs, (q: S, a: F32, b: F32) => (q, g(a, b))) == (st, ZipWith(rhs, g))
    {
    }

    /** `zip_with_scalar(s, f)` is `map(|c| f(c, s))`. */
    lemma ZipWithScalarIsMap(rhs: F32, f: (F32, F32) -> F32)
      ensures ZipWithScalar(rhs, f) == Map(c => f(c, rhs))
    {
    }

    /** The same holds for closures that carry state, call for call. */
    lemma ZipWithScalarMutIsMapMut<S>(st: S, rhs: F32, f: (S, F32, F32) -> (S, F32))
      ensures ZipWithScalarMut(st, rhs, f) == MapMut(st, (q: S, c: F32) => f(q, c, rhs))
    {
    }

    /** `zip_with_scalar` with a closure that keeps no state is `ZipWithScalar`. */
    lemma ZipWithScalarIsStatelessZipWithScalarMut<S>(st: S, rhs: F32, g: (F32, F32) -> F32)
      ensures ZipWithScalarMut(st, rhs, (q: S, a: F32, b: F32) => (q, g(a, b))) == (st, ZipWithScalar(rhs, g))
    {
    }

    /** `zip_with_scalar` calls its closure once per field, in order, each time
        with that field first and the unchanged scalar second. */
    lemma ZipWithScalarCallsInOrder<S>(log: seq<(F32, F32)>, st: S, rhs: F32, f: (S, F32, F32) -> (S, F32))
      ensures ZipWithScalarMut((log, st), rhs, Lanes.Logged2(f)).0.0
           == log + Lanes.Pairs(Components(), Lanes.Fill(2, rhs))
    {
    }

  }

  /** A mutable `Vec2` place: the receiver of the compound assignment operators,
      each of which overwrites the whole value. */
  class Vec2Var {
    var x: F32
    var y: F32

    /** The vector currently stored. */
    function Value(): Vec2
      reads this
    {
      Vec2(x, y)
    }

    constructor (v: Vec2)
      ensures Value() == v
    {
      x, y := v.x, v.y;
    }

    /** `self += rhs`: the stored value becomes `self + rhs`. */
    method AddAssign(ops: Arith, rhs: Vec2)
      modifies this
      ensures Value() == old(Value()).Add(ops, rhs)
    {
      var r := Value().Add(ops, rhs);
      x, y := r.x, r.y;
    }

    /** `self -= rhs`: the stored value becomes `self - rhs`. */
    method SubAssign(ops: Arith, rhs: Vec2)
      modifies this
      ensures Value() == old(Value()).Sub(ops, rhs)
    {
      var r := Value().Sub(ops, rhs);
      x, y := r.x, r.y;
    }

    /** `self *= rhs`: the stored value becomes `self * rhs`. */
    method MulAssign(ops: Arith, rhs: F32)
      modifies this
      ensures Value() == old(Value()).Mul(ops, rhs)
    {
      var r := Value().Mul(ops, rhs);
      x, y := r.x, r.y;
    }

    /** `self /= rhs`: the stored value becomes `self / rhs`. */
    method DivAssign(ops: Arith, rhs: F32)
      modifies this
      ensures Value() == old(Value()).Div(ops, rhs)
    {
      var r := Value().Div(ops, rhs);
      x, y := r.x, r.y;
    }
  }

  /** A 3d vector. */
  datatype Vec3 = Vec3(x: F32, y: F32, z: F32) {

    /** The fields in declaration order. */
    function Components(): seq<F32>
    {
      [x, y, z]
    }

    /** Create a vector from its components. */
    static function New(x: F32, y: F32, z: F32): (r: Vec3)
      ensures r.Components() == [x, y, z]
    {
      Vec3(x, y, z)
    }

    /** The vector filled with `0.0`. */
    static function Zero(): (r: Vec3)
      ensures r.Components() == Lanes.Fill(3, Float32.Zero)
    {
      Vec3(Float32.Zero, Float32.Zero, Float32.Zero)
    }

    /** The vector filled with `1.0`. */
    static function One(): (r: Vec3)
      ensures r.Components() == Lanes.Fill(3, Float32.One)
    {
      Vec3(Float32.One, Float32.One, Float32.One)
    }

    /** The derived `Default`: every field takes `f32`'s default, `0.0`. */
    static function Default(): (r: Vec3)
      ensures r == Zero()
    {
      Vec3(Float32.Zero, Float32.Zero, Float32.Zero)
    }

    /** The unit vector for the x axis. */
    static function UnitX(): (r: Vec3)
      ensures r.Components() == Lanes.Basis(3, 0)
    {
      New(Float32.One, Float32.Zero, Float32.Zero)
    }

    /** The unit vector for the y axis. */
    static function UnitY(): (r: Vec3)
      ensures r.Components() == Lanes.Basis(3, 1)
    {
      New(Float32.Zero, Float32.One, Float32.Zero)
    }

    /** The unit vector for the z axis. */
    static function UnitZ(): (r: Vec3)
      ensures r.Components() == Lanes.Basis(3, 2)
    {
      New(Float32.Zero, Float32.Zero, Float32.One)
    }

    /** Apply `f` to every component (a closure that keeps no state). */
    function Map(f: F32 -> F32): (r: Vec3)
      ensures r.Components() == Lanes.MapSeq(Components(), f)
    {
      New(f(x), f(y), f(z))
    }

    /** `map` with a closure that carries state: the arguments of `new` are
        evaluated left to right, so `f` sees x, then y, then z. */
    function MapMut<S>(st: S, f: (S, F32) -> (S, F32)): (r: (S, Vec3))
      ensures (r.0, r.1.Components()) == Lanes.MapMutSeq(st, Components(), f)
    {
      var cx := f(st, x);
      var cy := f(cx.0, y);
      var cz := f(cy.0, z);
      Lanes.MapMutSeq3(st, x, y, z, f);
      assert Components() == [x, y, z];
      (cz.0, New(cx.1, cy.1, cz.1))
    }

    /** Zip with another vector of the same shape, element-wise. */
    function ZipWith(rhs: Vec3, f: (F32, F32) -> F32): (r: Vec3)
      ensures r.Components() == Lanes.ZipSeq(Components(), rhs.Components(), f)
    {
      New(f(x, rhs.x), f(y, rhs.y), f(z, rhs.z))
    }

    /** `zip_with` with a closure that carries state. */
    function ZipWithMut<S>(st: S, rhs: Vec3, f: (S, F32, F32) -> (S, F32)): (r: (S, Vec3))
      ensures (r.0, r.1.Components()) == Lanes.ZipMutSeq(st, Components(), rhs.Components(), f)
    {
      var cx := f(st, x, rhs.x);
      var cy := f(cx.0, y, rhs.y);
      var cz := f(cy.0, z, rhs.z);
      Lanes.ZipMutSeq3(st, x, y, z, rhs.x, rhs.y, rhs.z, f);
      assert Components() == [x, y, z] && rhs.Components() == [rhs.x, rhs.y, rhs.z];
      (cz.0, New(cx.1, cy.1, cz.1))
    }

    /** Zip with a scalar broadcast to every component, always as `f`'s second argument. */
    function ZipWithScalar(rhs: F32, f: (F32, F32) -> F32): (r: Vec3)
      ensures r.Components() == Lanes.ZipSeq(Components(), Lanes.Fill(3, rhs), f)
    {
      New(f(x, rhs), f(y, rhs), f(z, rhs))
    }

    /** `zip_with_scalar` with a closure that carries state. */
    function ZipWithScalarMut<S>(st: S, rhs: F32, f: (S, F32, F32) -> (S, F32)): (r: (S, Vec3))
      ensures (r.0, r.1.Components()) == Lanes.ZipMutSeq(st, Components(), Lanes.Fill(3, rhs), f)
    {
      var cx := f(st, x, rhs);
      var cy := f(cx.0, y, rhs);
      var cz := f(cy.0, z, rhs);
      Lanes.ZipMutSeq3(st, x, y, z, rhs, rhs, rhs, f);
      assert Components() == [x, y, z] && Lanes.Fill(3, rhs) == [rhs, rhs, rhs];
      (cz.0, New(cx.1, cy.1, cz.1))
    }

    /** Fold the components, in declaration order, starting from `init`. */
    function Fold<T>(init: T, f: (T, F32) -> T): (r: T)
      ensures r == Lanes.FoldLeft(Components(), init, f)
    {
      var acc0 := init;
      var acc1 := f(acc0, x);
      var acc2 := f(acc1, y);
      var acc3 := f(acc2, z);
      assert Lanes.FoldLeft([z], acc2, f) == acc3 by {
        Lanes.FoldLeftCons(z, [], acc2, f);
        assert [z] == [z] + [];
      }
      assert Lanes.FoldLeft([y, z], acc1, f) == acc3 by {
        Lanes.FoldLeftCons(y, [z], acc1, f);
        assert [y, z] == [y] + [z];
      }
      assert Lanes.FoldLeft([x, y, z], acc0, f) == acc3 by {
        Lanes.FoldLeftCons(x, [y, z], acc0, f);
        assert [x, y, z] == [x] + [y, z];
      }
      assert Components() == [x, y, z];
      acc3
    }

    /** `self + rhs`. */
    function Add(ops: Arith, rhs: Vec3): (r: Vec3)
      ensures r.Components() == Lanes.ZipSeq(Components(), rhs.Components(), ops.add)
    {
      ZipWith(rhs, ops.add)
    }

    /** `-self`. */
    function Neg(ops: Arith): (r: Vec3)
      ensures r.Components() == Lanes.MapSeq(Components(), ops.neg)
    {
      Map(ops.neg)
    }

    /** `self - rhs`. */
    function Sub(ops: Arith, rhs: Vec3): (r: Vec3)
      ensures r.Components() == Lanes.ZipSeq(Components(), rhs.Components(), ops.sub)
    {
      ZipWith(rhs, ops.sub)
    }

    /** `self * rhs` for a scalar `rhs`. */
    function Mul(ops: Arith, rhs: F32): (r: Vec3)
      ensures r.Components() == Lanes.ZipSeq(Components(), Lanes.Fill(3, rhs), ops.mul)
    {
      ZipWithScalar(rhs, ops.mul)
    }

    /** `lhs * rhs` for a scalar `lhs`: the same as `rhs * lhs`, with no
        commutativity of `mul` assumed, since the scalar is still passed second. */
    static function ScalarMul(ops: Arith, lhs: F32, rhs: Vec3): (r: Vec3)
      ensures r == rhs.Mul(ops, lhs)
      ensures r.Components() == Lanes.ZipSeq(rhs.Components(), Lanes.Fill(3, lhs), ops.mul)
    {
      rhs.ZipWithScalar(lhs, ops.mul)
    }

    /** `self / rhs` for a scalar `rhs`. */
    function Div(ops: Arith, rhs: F32): (r: Vec3)
      ensures r.Components() == Lanes.ZipSeq(Components(), Lanes.Fill(3, rhs), ops.div)
    {
      ZipWithScalar(rhs, ops.div)
    }

    /** A vector is determined by its components. */
    static lemma ComponentsDetermine(a: Vec3, b: Vec3)
      requires a.Components() == b.Components()
      ensures a == b
    {
    }

    /** `map` calls its closure once per field, in order x, y, z: a closure that
        logs its arguments logs exactly the components. */
    lemma MapCallsInOrder<S>(log: seq<F32>, st: S, f: (S, F32) -> (S, F32))
      ensures MapMut((log, st), Lanes.Logged(f)) == ((log + Components(), MapMut(st, f).0), MapMut(st, f).1)
    {
      var logged := MapMut((log, st), Lanes.Logged(f));
      Lanes.MapMutCallsInOrder(log, st, Components(), f);
      ComponentsDetermine(logged.1, MapMut(st, f).1);
    }

    /** `map` with a closure that keeps no state is `Map`, and the state is untouched. */
    lemma MapIsStatelessMapMut<S>(st: S, g: F32 -> F32)
      ensures MapMut(st, (q: S, c: F32) => (q, g(c))) == (st, Map(g))
    {
    }

    /** The closure's state after `map` is the fold of its state updates over the fields. */
    lemma MapStateIsFold<S>(st: S, f: (S, F32) -> (S, F32))
      ensures MapMut(st, f).0 == Fold(st, (q: S, c: F32) => f(q, c).0)
    {
    }

    /** `zip_with` pairs only same-named fields, `self`'s first: a closure that
        logs its arguments logs exactly (x, rhs.x), (y, rhs.y), (z, rhs.z). */
    lemma ZipWithCallsInOrder<S>(log: seq<(F32, F32)>, st: S, rhs: Vec3, f: (S, F32, F32) -> (S, F32))
      ensures ZipWithMut((log, st), rhs, Lanes.Logged2(f))
           == ((log + Lanes.Pairs(Components(), rhs.Components()), ZipWithMut(st, rhs, f).0), ZipWithMut(st, rhs, f).1)
    {
      var logged := ZipWithMut((log, st), rhs, Lanes.Logged2(f));
      Lanes.ZipMutCallsInOrder(log, st, Components(), rhs.Components(), f);
      ComponentsDetermine(logged.1, ZipWithMut(st, rhs, f).1);
    }

    /** `zip_with` with a closure that keeps no state is `ZipWith`. */
    lemma ZipWithIsStatelessZipWithMut<S>(st: S, rhs: Vec3, g: (F32, F32) -> F32)
      ensures ZipWithMut(st, rhs, (q: S, a: F32, b: F32) => (q, g(a, b))) == (st, ZipWith(rhs, g))
    {
    }

    /** `zip_with_scalar(s, f)` is `map(|c| f(c, s))`. */
    lemma ZipWithScalarIsMap(rhs: F32, f: (F32, F32) -> F32)
      ensures ZipWithScalar(rhs, f) == Map(c => f(c, rhs))
    {
    }

    /** The same holds for closures that carry state, call for call. */
    lemma ZipWithScalarMutIsMapMut<S>(st: S, rhs: F32, f: (S, F32, F32) -> (S, F32))
      ensures ZipWithScalarMut(st, rhs, f) == MapMut(st, (q: S, c: F32) => f(q, c, rhs))
    {
    }

    /** `zip_with_scalar` with a closure that keeps no state is `ZipWithScalar`. */
    lemma ZipWithScalarIsStatelessZipWithScalarMut<S>(st: S, rhs: F32, g: (F32, F32) -> F32)
      ensures ZipWithScalarMut(st, rhs, (q: S, a: F32, b: F32) => (q, g(a, b))) == (st, ZipWithScalar(rhs, g))
    {
    }

    /** `zip_with_scalar` calls its closure once per field, in order, each time
        with that field first and the unchanged scalar second. */
    lemma ZipWithScalarCallsInOrder<S>(log: seq<(F32, F32)>, st: S, rhs: F32, f: (S, F32, F32) -> (S, F32))
      ensures ZipWithScalarMut((log, st), rhs, Lanes.Logged2(f)).0.0
           == log + Lanes.Pairs(Components(), Lanes.Fill(3, rhs))
    {
    }

  }

  /** A mutable `Vec3` place: the receiver of the compound assignment operators,
      each of which overwrites the whole value. */
  class Vec3Var {
    var x: F32
    var y: F32
    var z: F32

    /** The vector currently stored. */
    function Value(): Vec3
      reads this
    {
      Vec3(x, y, z)
    }

    constructor (v: Vec3)
      ensures Value() == v
    {
      x, y, z := v.x, v.y, v.z;
    }

    /** `self += rhs`: the stored value becomes `self + rhs`. */
    method AddAssign(ops: Arith, rhs: Vec3)
      modifies this
      ensures Value() == old(Value()).Add(ops, rhs)
    {
      var r := Value().Add(ops, rhs);
      x, y, z := r.x, r.y, r.z;
    }

    /** `self -= rhs`: the stored value becomes `self - rhs`. */
    method SubAssign(ops: Arith, rhs: Vec3)
      modifies this
      ensures Value() == old(Value()).Sub(ops, rhs)
    {
      var r := Value().Sub(ops, rhs);
      x, y, z := r.x, r.y, r.z;
    }

    /** `self *= rhs`: the stored value becomes `self * rhs`. */
    method MulAssign(ops: Arith, rhs: F32)
      modifies this
      ensures Value() == old(Value()).Mul(ops, rhs)
    {
      var r := Value().Mul(ops, rhs);
      x, y, z := r.x, r.y, r.z;
    }

    /** `self /= rhs`: the stored value becomes `self / rhs`. */
    method DivAssign(ops: Arith, rhs: F32)
      modifies this
      ensures Value() == old(Value()).Div(ops, rhs)
    {
      var r := Value().Div(ops, rhs);
      x, y, z := r.x, r.y, r.z;
    }
  }

  /** A 3d homogeneous vector. */
  datatype Vec4 = Vec4(x: F32, y: F32, z: F32, w: F32) {

    /** The fields in declaration order. */
    function Components(): seq<F32>
    {
      [x, y, z, w]
    }

    /** Create a vector from its components. */
    static function New(x: F32, y: F32, z: F32, w: F32): (r: Vec4)
      ensures r.Components() == [x, y, z, w]
    {
      Vec4(x, y, z, w)
    }

    /** The vector filled with `0.0`. */
    static function Zero(): (r: Vec4)
      ensures r.Components() == Lanes.Fill(4, Float32.Zero)
    {
      Vec4(Float32.Zero, Float32.Zero, Float32.Zero, Float32.Zero)
    }

    /** The vector filled with `1.0`. */
    static function One(): (r: Vec4)
      ensures r.Components() == Lanes.Fill(4, Float32.One)
    {
      Vec4(Float32.One, Float32.One, Float32.One, Float32.One)
    }

    /** The derived `Default`: every field takes `f32`'s default, `0.0`. */
    static function Default(): (r: Vec4)
      ensures r == Zero()
    {
      Vec4(Float32.Zero, Float32.Zero, Float32.Zero, Float32.Zero)
    }

    /** The unit vector for the x axis. */
    static function UnitX(): (r: Vec4)
      ensures r.Components() == Lanes.Basis(4, 0)
    {
      New(Float32.One, Float32.Zero, Float32.Zero, Float32.Zero)
    }

    /** The unit vector for the y axis. */
    static function UnitY(): (r: Vec4)
      ensures r.Components() == Lanes.Basis(4, 1)
    {
      New(Float32.Zero, Float32.One, Float32.Zero, Float32.Zero)
    }

    /** The unit vector for the z axis. */
    static function UnitZ(): (r: Vec4)
      ensures r.Components() == Lanes.Basis(4, 2)
    {
      New(Float32.Zero, Float32.Zero, Float32.One, Float32.Zero)
    }

    /** The unit vector for the w axis. */
    static function UnitW(): (r: Vec4)
      ensures r.Components() == Lanes.Basis(4, 3)
    {
      New(Float32.Zero, Float32.Zero, Float32.Zero, Float32.One)
    }

    /** Apply `f` to every component (a closure that keeps no state). */
    function Map(f: F32 -> F32): (r: Vec4)
      ensures r.Components() == Lanes.MapSeq(Components(), f)
    {
      New(f(x), f(y), f(z), f(w))
    }

    /** `map` with a closure that carries state: the arguments of `new` are
        evaluated left to right, so `f` sees x, then y, then z, then w. */
    function MapMut<S>(st: S, f: (S, F32) -> (S, F32)): (r: (S, Vec4))
      ensures (r.0, r.1.Components()) == Lanes.MapMutSeq(st, Components(), f)
    {
      var cx := f(st, x);
      var cy := f(cx.0, y);
      var cz := f(cy.0, z);
      var cw := f(cz.0, w);
      Lanes.MapMutSeq4(st, x, y, z, w, f);
      assert Components() == [x, y, z, w];
      (cw.0, New(cx.1, cy.1, cz.1, cw.1))
    }

    /** Zip with another vector of the same shape, element-wise. */
    function ZipWith(rhs: Vec4, f: (F32, F32) -> F32): (r: Vec4)
      ensures r.Components() == Lanes.ZipSeq(Components(), rhs.Components(), f)
    {
      New(f(x, rhs.x), f(y, rhs.y), f(z, rhs.z), f(w, rhs.w))
    }

    /** `zip_with` with a closure that carries state. */
    function ZipWithMut<S>(st: S, rhs: Vec4, f: (S, F32, F32) -> (S, F32)): (r: (S, Vec4))
      ensures (r.0, r.1.Components()) == Lanes.ZipMutSeq(st, Components(), rhs.Components(), f)
    {
      var cx := f(st, x, rhs.x);
      var cy := f(cx.0, y, rhs.y);
      var cz := f(cy.0, z, rhs.z);
      var cw := f(cz.0, w, rhs.w);
      Lanes.ZipMutSeq4(st, x, y, z, w, rhs.x, rhs.y, rhs.z, rhs.w, f);
      assert Components() == [x, y, z, w] && rhs.Components() == [rhs.x, rhs.y, rhs.z, rhs.w];
      (cw.0, New(cx.1, cy.1, cz.1, cw.1))
    }

    /** Zip with a scalar broadcast to every component, always as `f`'s second argument. */
    function ZipWithScalar(rhs: F32, f: (F32, F32) -> F32): (r: Vec4)
      ensures r.Components() == Lanes.ZipSeq(Components(), Lanes.Fill(4, rhs), f)
    {
      New(f(x, rhs), f(y, rhs), f(z, rhs), f(w, rhs))
    }

    /** `zip_with_scalar` with a closure that carries state. */
    function ZipWithScalarMut<S>(st: S, rhs: F32, f: (S, F32, F32) -> (S, F32)): (r: (S, Vec4))
      ensures (r.0, r.1.Components()) == Lanes.ZipMutSeq(st, Components(), Lanes.Fill(4, rhs), f)
    {
      var cx := f(st, x, rhs);
      var cy := f(cx.0, y, rhs);
      var cz := f(cy.0, z, rhs);
      var cw := f(cz.0, w, rhs);
      Lanes.ZipMutSeq4(st, x, y, z, w, rhs, rhs, rhs, rhs, f);
      assert Components() == [x, y, z, w] && Lanes.Fill(4, rhs) == [rhs, rhs, rhs, rhs];
      (cw.0, New(cx.1, cy.1, cz.1, cw.1))
    }

    /** Fold the components, in declaration order, starting from `init`. */
    function Fold<T>(init: T, f: (T, F32) -> T): (r: T)
      ensures r == Lanes.FoldLeft(Components(), init, f)
    {
      var acc0 := init;
      var acc1 := f(acc0, x);
      var acc2 := f(acc1, y);
      var acc3 := f(acc2, z);
      var acc4 := f(acc3, w);
      assert Lanes.FoldLeft([w], acc3, f) == acc4 by {
        Lanes.FoldLeftCons(w, [], acc3, f);
        assert [w] == [w] + [];
      }
      assert Lanes.FoldLeft([z, w], acc2, f) == acc4 by {
        Lanes.FoldLeftCons(z, [w], acc2, f);
        assert [z, w] == [z] + [w];
      }
      assert Lanes.FoldLeft([y, z, w], acc1, f) == acc4 by {
        Lanes.FoldLeftCons(y, [z, w], acc1, f);
        assert [y, z, w] == [y] + [z, w];
      }
      assert Lanes.FoldLeft([x, y, z, w], acc0, f) == acc4 by {
        Lanes.FoldLeftCons(x, [y, z, w], acc0, f);
        assert [x, y, z, w] == [x] + [y, z, w];
      }
      assert Components() == [x, y, z, w];
      acc4
    }

    /** `self + rhs`. */
    function Add(ops: Arith, rhs: Vec4): (r: Vec4)
      ensures r.Components() == Lanes.ZipSeq(Components(), rhs.Components(), ops.add)
    {
      ZipWith(rhs, ops.add)
    }

    /** `-self`. */
    function Neg(ops: Arith): (r: Vec4)
      ensures r.Components() == Lanes.MapSeq(Components(), ops.neg)
    {
      Map(ops.neg)
    }

    /** `self - rhs`. */
    function Sub(ops: Arith, rhs: Vec4): (r: Vec4)
      ensures r.Components() == Lanes.ZipSeq(Components(), rhs.Components(), ops.sub)
    {
      ZipWith(rhs, ops.sub)
    }

    /** `self * rhs` for a scalar `rhs`. */
    function Mul(ops: Arith, rhs: F32): (r: Vec4)
      ensures r.Components() == Lanes.ZipSeq(Components(), Lanes.Fill(4, rhs), ops.mul)
    {
      ZipWithScalar(rhs, ops.mul)
    }

    /** `lhs * rhs` for a scalar `lhs`: the same as `rhs * lhs`, with no
        commutativity of `mul` assumed, since the scalar is still passed second. */
    static function ScalarMul(ops: Arith, lhs: F32, rhs: Vec4): (r: Vec4)
      ensures r == rhs.Mul(ops, lhs)
      ensures r.Components() == Lanes.ZipSeq(rhs.Components(), Lanes.Fill(4, lhs), ops.mul)
    {
      rhs.ZipWithScalar(lhs, ops.mul)
    }

    /** `self / rhs` for a scalar `rhs`. */
    function Div(ops: Arith, rhs: F32): (r: Vec4)
      ensures r.Components() == Lanes.ZipSeq(Components(), Lanes.Fill(4, rhs), ops.div)
    {
      ZipWithScalar(rhs, ops.div)
    }

    /** A vector is determined by its components. */
    static lemma ComponentsDetermine(a: Vec4, b: Vec4)
      requires a.Components() == b.Components()
      ensures a == b
    {
    }

    /** `map` calls its closure once per field, in order x, y, z, w: a closure that
        logs its arguments logs exactly the components. */
    lemma MapCallsInOrder<S>(log: seq<F32>, st: S, f: (S, F32) -> (S, F32))
      ensures MapMut((log, st), Lanes.Logged(f)) == ((log + Components(), MapMut(st, f).0), MapMut(st, f).1)
    {
      var logged := MapMut((log, st), Lanes.Logged(f));
      Lanes.MapMutCallsInOrder(log, st, Components(), f);
      ComponentsDetermine(logged.1, MapMut(st, f).1);
    }

    /** `map` with a closure that keeps no state is `Map`, and the state is untouched. */
    lemma MapIsStatelessMapMut<S>(st: S, g: F32 -> F32)
      ensures MapMut(st, (q: S, c: F32) => (q, g(c))) == (st, Map(g))
    {
    }

    /** The closure's state after `map` is the fold of its state updates over the fields. */
    lemma MapStateIsFold<S>(st: S, f: (S, F32) -> (S, F32))
      ensures MapMut(st, f).0 == Fold(st, (q: S, c: F32) => f(q, c).0)
    {
    }

    /** `zip_with` pairs only same-named fields, `self`'s first: a closure that
        logs its arguments logs exactly (x, rhs.x), (y, rhs.y), (z, rhs.z), (w, rhs.w). */
    lemma ZipWithCallsInOrder<S>(log: seq<(F32, F32)>, st: S, rhs: Vec4, f: (S, F32, F32) -> (S, F32))
      ensures ZipWithMut((log, st), rhs, Lanes.Logged2(f))
           == ((log + Lanes.Pairs(Components(), rhs.Components()), ZipWithMut(st, rhs, f).0), ZipWithMut(st, rhs, f).1)
    {
      var logged := ZipWithMut((log, st), rhs, Lanes.Logged2(f));
      Lanes.ZipMutCallsInOrder(log, st, Components(), rhs.Components(), f);
      ComponentsDetermine(logged.1, ZipWithMut(st, rhs, f).1);
    }

    /** `zip_with` with a closure that keeps no state is `ZipWith`. */
    lemma ZipWithIsStatelessZipWithMut<S>(st: S, rhs: Vec4, g: (F32, F32) -> F32)
      ensures ZipWithMut(st, rhs, (q: S, a: F32, b: F32) => (q, g(a, b))) == (st, ZipWith(rhs, g))
    {
    }

    /** `zip_with_scalar(s, f)` is `map(|c| f(c, s))`. */
    lemma ZipWithScalarIsMap(rhs: F32, f: (F32, F32) -> F32)
      ensures ZipWithScalar(rhs, f) == Map(c => f(c, rhs))
    {
    }

    /** The same holds for closures that carry state, call for call. */
    lemma ZipWithScalarMutIsMapMut<S>(st: S, rhs: F32, f: (S, F32, F32) -> (S, F32))
      ensures ZipWithScalarMut(st, rhs, f) == MapMut(st, (q: S, c: F32) => f(q, c, rhs))
    {
    }

    /** `zip_with_scalar` with a closure that keeps no state is `ZipWithScalar`. */
    lemma ZipWithScalarIsStatelessZipWithScalarMut<S>(st: S, rhs: F32, g: (F32, F32) -> F32)
      ensures ZipWithScalarMut(st, rhs, (q: S, a: F32, b: F32) => (q, g(a, b))) == (st, ZipWithScalar(rhs, g))
    {
    }

    /** `zip_with_scalar` calls its closure once per field, in order, each time
        with that field first and the unchanged scalar second. */
    lemma ZipWithScalarCallsInOrder<S>(log: seq<(F32, F32)>, st: S, rhs: F32, f: (S, F32, F32) -> (S, F32))
      ensures ZipWithScalarMut((log, st), rhs, Lanes.Logged2(f)).0.0
           == log + Lanes.Pairs(Components(), Lanes.Fill(4, rhs))
    {
    }

  }

  /** A mutable `Vec4` place: the receiver of the compound assignment operators,
      each of which overwrites the whole value. */
  class Vec4Var {
    var x: F32
    var y: F32
    var z: F32
    var w: F32

    /** The vector currently stored. */
    function Value(): Vec4
      reads this
    {
      Vec4(x, y, z, w)
    }

    constructor (v: Vec4)
      ensures Value() == v
    {
      x, y, z, w := v.x, v.y, v.z, v.w;
    }

    /** `self += rhs`: the stored value becomes `self + rhs`. */
    method AddAssign(ops: Arith, rhs: Vec4)
      modifies this
      ensures Value() == old(Value()).Add(ops, rhs)
    {
      var r := Value().Add(ops, rhs);
      x, y, z, w := r.x, r.y, r.z, r.w;
    }

    /** `self -= rhs`: the stored value becomes `self - rhs`. */
    method SubAssign(ops: Arith, rhs: Vec4)
      modifies this
      ensures Value() == old(Value()).Sub(ops, rhs)
    {
      var r := Value().Sub(ops, rhs);
      x, y, z, w := r.x, r.y, r.z, r.w;
    }

    /** `self *= rhs`: the stored value becomes `self * rhs`. */
    method MulAssign(ops: Arith, rhs: F32)
      modifies this
      ensures Value() == old(Value()).Mul(ops, rhs)
    {
      var r := Value().Mul(ops, rhs);
      x, y, z, w := r.x, r.y, r.z, r.w;
    }

    /** `self /= rhs`: the stored value becomes `self / rhs`. */
    method DivAssign(ops: Arith, rhs: F32)
      modifies this
      ensures Value() == old(Value()).Div(ops, rhs)
    {
      var r := Value().Div(ops, rhs);
      x, y, z, w := r.x, r.y, r.z, r.w;
    }
  }
}
