/** Shape-independent reference definitions: the fields of a vector read as the
    sequence of its components in declaration order, and what "elementwise",
    "broadcast" and "left fold" mean on such sequences. Every vector operation
    is specified against these. */
module Lanes {
  import Float32

  /** `n` copies of `c`. */
  function Fill<A>(n: nat, c: A): seq<A>
  {
    seq(n, _ => c)
  }

  /** The `n`-component unit vector along axis `k`: `1.0` at `k`, `0.0` elsewhere. */
  function Basis(n: nat, k: nat): seq<Float32.F32>
  {
    seq(n, i => if i == k then Float32.One else Float32.Zero)
  }

  /** `f` applied to each element, front to back. */
  function MapSeq<A, B>(s: seq<A>, f: A -> B): (r: seq<B>)
    ensures |r| == |s|
    ensures forall i :: 0 <= i < |s| ==> r[i] == f(s[i])
  {
    if s == [] then [] else [f(s[0])] + MapSeq(s[1..], f)
  }

  /** `f` applied to each pair of same-position elements, `a`'s element first. */
  function ZipSeq<A, B, C>(a: seq<A>, b: seq<B>, f: (A, B) -> C): (r: seq<C>)
    requires |a| == |b|
    ensures |r| == |a|
    ensures forall i :: 0 <= i < |a| ==> r[i] == f(a[i], b[i])
  {
    if a == [] then [] else [f(a[0], b[0])] + ZipSeq(a[1..], b[1..], f)
  }

  /** The same-position pairs of `a` and `b`. */
  function Pairs<A, B>(a: seq<A>, b: seq<B>): (r: seq<(A, B)>)
    requires |a| == |b|
    ensures |r| == |a|
    ensures forall i :: 0 <= i < |a| ==> r[i] == (a[i], b[i])
  {
    if a == [] then [] else [(a[0], b[0])] + Pairs(a[1..], b[1..])
  }

  /** Left fold: `f(... f(f(init, s[0]), s[1]) ..., s[|s|-1])`. */
  function FoldLeft<A, T>(s: seq<A>, init: T, f: (T, A) -> T): T
  {
    if s == [] then init else FoldLeft(s[1..], f(init, s[0]), f)
  }

  /** Folding a concatenation folds the second part from where the first left off:
      elements are consumed strictly left to right. */
  lemma {:induction false} FoldLeftAppend<A, T>(s: seq<A>, t: seq<A>, init: T, f: (T, A) -> T)
    ensures FoldLeft(s + t, init, f) == FoldLeft(t, FoldLeft(s, init, f), f)
  {
    if s == [] {
      assert s + t == t;
    } else {
      assert (s + t)[1..] == s[1..] + t;
      FoldLeftAppend(s[1..], t, f(init, s[0]), f);
    }
  }

  /** One step of a left fold: the first element is consumed first. */
  lemma FoldLeftCons<A, T>(c: A, s: seq<A>, init: T, f: (T, A) -> T)
    ensures FoldLeft([c] + s, init, f) == FoldLeft(s, f(init, c), f)
  {
  }

  /** The last element is consumed by the last call. */
  lemma FoldLeftLast<A, T>(s: seq<A>, c: A, init: T, f: (T, A) -> T)
    ensures FoldLeft(s + [c], init, f) == f(FoldLeft(s, init, f), c)
  {
    FoldLeftAppend(s, [c], init, f);
    assert [c][1..] == [];
  }

  /** A map whose closure carries state (a Rust `FnMut`): one call per element,
      front to back, each call seeing the state the previous one left.
      The result is the final state and the mapped elements. */
  function MapMutSeq<S, A, B>(st: S, s: seq<A>, f: (S, A) -> (S, B)): (r: (S, seq<B>))
    ensures |r.1| == |s|
  {
    if s == [] then (st, [])
    else
      var first := f(st, s[0]);
      var rest := MapMutSeq(first.0, s[1..], f);
      (rest.0, [first.1] + rest.1)
  }

  /** One step of a stateful map: the first element is handled first. */
  lemma MapMutSeqCons<S, A, B>(st: S, c: A, s: seq<A>, f: (S, A) -> (S, B))
    ensures MapMutSeq(st, [c] + s, f)
         == (MapMutSeq(f(st, c).0, s, f).0, [f(st, c).1] + MapMutSeq(f(st, c).0, s, f).1)
  {
  }

  /** A stateful map over one element is one call. */
  lemma MapMutSeqOne<S, A, B>(st: S, c: A, f: (S, A) -> (S, B))
    ensures MapMutSeq(st, [c], f) == (f(st, c).0, [f(st, c).1])
  {
    assert [c][1..] == [];
    assert [f(st, c).1] + [] == [f(st, c).1];
  }

  /** A zip whose closure carries state: one call per position, front to back. */
  function ZipMutSeq<S, A, B, C>(st: S, a: seq<A>, b: seq<B>, f: (S, A, B) -> (S, C)): (r: (S, seq<C>))
    requires |a| == |b|
    ensures |r.1| == |a|
  {
    if a == [] then (st, [])
    else
      var first := f(st, a[0], b[0]);
      var rest := ZipMutSeq(first.0, a[1..], b[1..], f);
      (rest.0, [first.1] + rest.1)
  }

  /** One step of a stateful zip: the first pair is handled first. */
  lemma ZipMutSeqCons<S, A, B, C>(st: S, c: A, s: seq<A>, d: B, t: seq<B>, f: (S, A, B) -> (S, C))
    requires |s| == |t|
    ensures ZipMutSeq(st, [c] + s, [d] + t, f)
         == (ZipMutSeq(f(st, c, d).0, s, t, f).0, [f(st, c, d).1] + ZipMutSeq(f(st, c, d).0, s, t, f).1)
  {
  }

  /** A stateful zip over one pair is one call. */
  lemma ZipMutSeqOne<S, A, B, C>(st: S, c: A, d: B, f: (S, A, B) -> (S, C))
    ensures ZipMutSeq(st, [c], [d], f) == (f(st, c, d).0, [f(st, c, d).1])
  {
    assert [c][1..] == [] && [d][1..] == [];
    assert [f(st, c, d).1] + [] == [f(st, c, d).1];
  }

  /** A stateful map over 2 elements, unrolled: the calls run front to back. */
  lemma MapMutSeq2<S, A, B>(st: S, a1: A, a2: A, f: (S, A) -> (S, B))
    ensures var c1 := f(st, a1); var c2 := f(c1.0, a2);
            MapMutSeq(st, [a1, a2], f) == (c2.0, [c1.1, c2.1])
  {
    var c1 := f(st, a1);
    var c2 := f(c1.0, a2);
    MapMutSeqOne(c1.0, a2, f);
    MapMutSeqCons(st, a1, [a2], f);
    assert [a1, a2] == [a1] + [a2];
    assert [c1.1, c2.1] == [c1.1] + [c2.1];
  }

  /** A stateful map over 3 elements, unrolled: the calls run front to back. */
  lemma MapMutSeq3<S, A, B>(st: S, a1: A, a2: A, a3: A, f: (S, A) -> (S, B))
    ensures var c1 := f(st, a1); var c2 := f(c1.0, a2); var c3 := f(c2.0, a3);
            MapMutSeq(st, [a1, a2, a3], f) == (c3.0, [c1.1, c2.1, c3.1])
  {
    var c1 := f(st, a1);
    var c2 := f(c1.0, a2);
    var c3 := f(c2.0, a3);
    MapMutSeq2(c1.0, a2, a3, f);
    MapMutSeqCons(st, a1, [a2, a3], f);
    assert [a1, a2, a3] == [a1] + [a2, a3];
    assert [c1.1, c2.1, c3.1] == [c1.1] + [c2.1, c3.1];
  }

  /** A stateful map over 4 elements, unrolled: the calls run front to back. */
  lemma MapMutSeq4<S, A, B>(st: S, a1: A, a2: A, a3: A, a4: A, f: (S, A) -> (S, B))
    ensures var c1 := f(st, a1); var c2 := f(c1.0, a2); var c3 := f(c2.0, a3); var c4 := f(c3.0, a4);
            MapMutSeq(st, [a1, a2, a3, a4], f) == (c4.0, [c1.1, c2.1, c3.1, c4.1])
  {
    var c1 := f(st, a1);
    var c2 := f(c1.0, a2);
    var c3 := f(c2.0, a3);
    var c4 := f(c3.0, a4);
    MapMutSeq3(c1.0, a2, a3, a4, f);
    MapMutSeqCons(st, a1, [a2, a3, a4], f);
    assert [a1, a2, a3, a4] == [a1] + [a2, a3, a4];
    assert [c1.1, c2.1, c3.1, c4.1] == [c1.1] + [c2.1, c3.1, c4.1];
  }

  /** A stateful zip over 2 pairs, unrolled: the calls run front to back. */
  lemma ZipMutSeq2<S, A, B, C>(st: S, a1: A, a2: A, b1: B, b2: B, f: (S, A, B) -> (S, C))
    ensures var c1 := f(st, a1, b1); var c2 := f(c1.0, a2, b2);
            ZipMutSeq(st, [a1, a2], [b1, b2], f) == (c2.0, [c1.1, c2.1])
  {
    var c1 := f(st, a1, b1);
    var c2 := f(c1.0, a2, b2);
    ZipMutSeqOne(c1.0, a2, b2, f);
    ZipMutSeqCons(st, a1, [a2], b1, [b2], f);
    assert [a1, a2] == [a1] + [a2] && [b1, b2] == [b1] + [b2];
    assert [c1.1, c2.1] == [c1.1] + [c2.1];
  }

  /** A stateful zip over 3 pairs, unrolled: the calls run front to back. */
  lemma ZipMutSeq3<S, A, B, C>(st: S, a1: A, a2: A, a3: A, b1: B, b2: B, b3: B, f: (S, A, B) -> (S, C))
    ensures var c1 := f(st, a1, b1); var c2 := f(c1.0, a2, b2); var c3 := f(c2.0, a3, b3);
            ZipMutSeq(st, [a1, a2, a3], [b1, b2, b3], f) == (c3.0, [c1.1, c2.1, c3.1])
  {
    var c1 := f(st, a1, b1);
    var c2 := f(c1.0, a2, b2);
    var c3 := f(c2.0, a3, b3);
    ZipMutSeq2(c1.0, a2, a3, b2, b3, f);
    ZipMutSeqCons(st, a1, [a2, a3], b1, [b2, b3], f);
    assert [a1, a2, a3] == [a1] + [a2, a3] && [b1, b2, b3] == [b1] + [b2, b3];
    assert [c1.1, c2.1, c3.1] == [c1.1] + [c2.1, c3.1];
  }

  /** A stateful zip over 4 pairs, unrolled: the calls run front to back. */
  lemma ZipMutSeq4<S, A, B, C>(st: S, a1: A, a2: A, a3: A, a4: A, b1: B, b2: B, b3: B, b4: B, f: (S, A, B) -> (S, C))
    ensures var c1 := f(st, a1, b1); var c2 := f(c1.0, a2, b2); var c3 := f(c2.0, a3, b3); var c4 := f(c3.0, a4, b4);
            ZipMutSeq(st, [a1, a2, a3, a4], [b1, b2, b3, b4], f) == (c4.0, [c1.1, c2.1, c3.1, c4.1])
  {
    var c1 := f(st, a1, b1);
    var c2 := f(c1.0, a2, b2);
    var c3 := f(c2.0, a3, b3);
    var c4 := f(c3.0, a4, b4);
    ZipMutSeq3(c1.0, a2, a3, a4, b2, b3, b4, f);
    ZipMutSeqCons(st, a1, [a2, a3, a4], b1, [b2, b3, b4], f);
    assert [a1, a2, a3, a4] == [a1] + [a2, a3, a4] && [b1, b2, b3, b4] == [b1] + [b2, b3, b4];
    assert [c1.1, c2.1, c3.1, c4.1] == [c1.1] + [c2.1, c3.1, c4.1];
  }

  /** `f` with a log of the arguments it is called with added to its state. */
  function Logged<S, A, B>(f: (S, A) -> (S, B)): ((seq<A>, S), A) -> ((seq<A>, S), B)
  {
    (ls: (seq<A>, S), a: A) => var out := f(ls.1, a); ((ls.0 + [a], out.0), out.1)
  }

  /** `f` with a log of the argument pairs it is called with added to its state. */
  function Logged2<S, A, B, C>(f: (S, A, B) -> (S, C)): ((seq<(A, B)>, S), A, B) -> ((seq<(A, B)>, S), C)
  {
    (ls: (seq<(A, B)>, S), a: A, b: B) => var out := f(ls.1, a, b); ((ls.0 + [(a, b)], out.0), out.1)
  }

  /** A stateful map calls its closure exactly once per element, in order:
      the log records exactly `s`, and logging changes neither the closure's
      own state nor the result. */
  lemma {:induction false} MapMutCallsInOrder<S, A, B>(log: seq<A>, st: S, s: seq<A>, f: (S, A) -> (S, B))
    decreases s
    ensures MapMutSeq((log, st), s, Logged(f)) == ((log + s, MapMutSeq(st, s, f).0), MapMutSeq(st, s, f).1)
  {
    if s == [] {
      assert log + s == log;
    } else {
      var out := f(st, s[0]);
      assert Logged(f)((log, st), s[0]) == ((log + [s[0]], out.0), out.1);
      MapMutCallsInOrder(log + [s[0]], out.0, s[1..], f);
      assert log + [s[0]] + s[1..] == log + s;
    }
  }

  /** A stateful zip calls its closure exactly once per position, in order,
      with `a`'s element first. */
  lemma {:induction false} ZipMutCallsInOrder<S, A, B, C>(
    log: seq<(A, B)>, st: S, a: seq<A>, b: seq<B>, f: (S, A, B) -> (S, C))
    requires |a| == |b|
    decreases a
    ensures ZipMutSeq((log, st), a, b, Logged2(f))
         == ((log + Pairs(a, b), ZipMutSeq(st, a, b, f).0), ZipMutSeq(st, a, b, f).1)
  {
    if a == [] {
      assert log + Pairs(a, b) == log;
    } else {
      var out := f(st, a[0], b[0]);
      assert Logged2(f)((log, st), a[0], b[0]) == ((log + [(a[0], b[0])], out.0), out.1);
      ZipMutCallsInOrder(log + [(a[0], b[0])], out.0, a[1..], b[1..], f);
      assert Pairs(a, b) == [(a[0], b[0])] + Pairs(a[1..], b[1..]);
      assert log + [(a[0], b[0])] + Pairs(a[1..], b[1..]) == log + Pairs(a, b);
    }
  }

  /** The closure's state evolves as a left fold over the elements. */
  lemma {:induction false} MapMutStateIsFold<S, A, B>(st: S, s: seq<A>, f: (S, A) -> (S, B))
    ensures MapMutSeq(st, s, f).0 == FoldLeft(s, st, (q: S, a: A) => f(q, a).0)
  {
    if s != [] {
      MapMutStateIsFold(f(st, s[0]).0, s[1..], f);
    }
  }

  /** With a closure that keeps no state, the stateful map is the plain map and
      the state comes back untouched. */
  lemma {:induction false} MapMutStateless<S, A, B>(st: S, s: seq<A>, g: A -> B)
    ensures MapMutSeq(st, s, (q: S, a: A) => (q, g(a))) == (st, MapSeq(s, g))
  {
    if s != [] {
      MapMutStateless(st, s[1..], g);
    }
  }

  /** With a closure that keeps no state, the stateful zip is the plain zip. */
  lemma {:induction false} ZipMutStateless<S, A, B, C>(st: S, a: seq<A>, b: seq<B>, g: (A, B) -> C)
    requires |a| == |b|
    ensures ZipMutSeq(st, a, b, (q: S, p: A, r: B) => (q, g(p, r))) == (st, ZipSeq(a, b, g))
  {
    if a != [] {
      ZipMutStateless(st, a[1..], b[1..], g);
    }
  }
}
