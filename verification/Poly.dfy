/**
 * Polynomials over GF(2^8), lowest coefficient first: evaluation, division by a
 * linear factor, root counting and Lagrange interpolation. This is the algebra
 * behind the split and combine operations of the secret sharing.
 */
module Poly {
  import opened GF256

  type Polynomial = seq<Elem>

  function Eval(p: Polynomial, x: Elem): Elem {
    if p == [] then Zero else Xor(p[0], Mul(x, Eval(p[1..], x)))
  }

  predicate Distinct(xs: seq<Elem>) {
    forall i, j :: 0 <= i < j < |xs| ==> xs[i] != xs[j]
  }

  predicate AllZero(p: Polynomial) {
    forall i :: 0 <= i < |p| ==> p[i] == Zero
  }

  // ---- addition and scaling ------------------------------------------------

  function Add(p: Polynomial, q: Polynomial): (r: Polynomial)
    requires |p| == |q|
    ensures |r| == |p|
  {
    seq(|p|, i requires 0 <= i < |p| => Xor(p[i], q[i]))
  }

  function Scale(c: Elem, p: Polynomial): (r: Polynomial)
    ensures |r| == |p|
  {
    seq(|p|, i requires 0 <= i < |p| => Mul(c, p[i]))
  }

  lemma {:induction false} EvalAdd(p: Polynomial, q: Polynomial, x: Elem)
    requires |p| == |q|
    ensures Eval(Add(p, q), x) == Xor(Eval(p, x), Eval(q, x))
  {
    hide Xor, Mul;
    if p == [] {
      XorZero(Zero);
    } else {
      assert Add(p, q)[1..] == Add(p[1..], q[1..]);
      EvalAdd(p[1..], q[1..], x);
      MulXor(Eval(p[1..], x), Eval(q[1..], x), x);
      XorFour(p[0], q[0], Mul(x, Eval(p[1..], x)), Mul(x, Eval(q[1..], x)));
    }
  }

  lemma {:induction false} EvalScale(c: Elem, p: Polynomial, x: Elem)
    ensures Eval(Scale(c, p), x) == Mul(c, Eval(p, x))
  {
    hide Xor, Mul;
    if p == [] {
      MulZero(c);
    } else {
      var e := Eval(p[1..], x);
      assert Scale(c, p)[1..] == Scale(c, p[1..]);
      EvalScale(c, p[1..], x);
      MulXor(p[0], Mul(x, e), c);
      MulAssoc(c, x, e);
      MulAssoc(x, c, e);
      MulComm(c, x);
    }
  }

  lemma {:induction false} EvalAllZero(p: Polynomial, x: Elem)
    requires AllZero(p)
    ensures Eval(p, x) == Zero
  {
    hide Xor, Mul;
    if p != [] {
      EvalAllZero(p[1..], x);
      MulZero(x);
      XorZero(Zero);
    }
  }

  lemma {:induction false} EvalAppendZero(p: Polynomial, x: Elem)
    ensures Eval(p + [Zero], x) == Eval(p, x)
  {
    hide Xor, Mul;
    if p == [] {
      assert p + [Zero] == [Zero];
      assert Eval([Zero], x) == Xor(Zero, Mul(x, Eval([], x)));
      MulZero(x);
      XorZero(Zero);
    } else {
      assert (p + [Zero])[1..] == p[1..] + [Zero];
      EvalAppendZero(p[1..], x);
    }
  }

  lemma EvalAtZero(p: Polynomial)
    requires p != []
    ensures Eval(p, Zero) == p[0]
  {
    hide Xor, Mul;
    MulZero(Eval(p[1..], Zero));
    XorZero(p[0]);
  }

  // ---- root counting ---------------------------------------------------------

  /** The quotient of p by (X - r), by Horner's scheme. */
  function Quotient(p: Polynomial, r: Elem): (q: Polynomial)
    ensures |q| == if p == [] then 0 else |p| - 1
  {
    if |p| <= 1 then [] else [Eval(p[1..], r)] + Quotient(p[1..], r)
  }

  lemma {:induction false} FactorTheorem(p: Polynomial, r: Elem, x: Elem)
    ensures Eval(p, x) == Xor(Eval(p, r), Mul(Xor(x, r), Eval(Quotient(p, r), x)))
  {
    hide Xor, Mul;
    if |p| == 0 {
      MulZero(Xor(x, r));
      XorZero(Zero);
    } else if |p| == 1 {
      assert Eval(p, x) == p[0] == Eval(p, r) by {
        MulZero(x);
        MulZero(r);
        XorZero(p[0]);
      }
      MulZero(Xor(x, r));
      XorZero(p[0]);
    } else {
      FactorTheorem(p[1..], r, x);
      var e := Eval(p[1..], r);
      var q := Eval(Quotient(p[1..], r), x);
      assert Quotient(p, r)[1..] == Quotient(p[1..], r);
      assert Eval(Quotient(p, r), x) == Xor(e, Mul(x, q));
      FactorStep(p[0], x, r, e, q);
    }
  }

  lemma FactorStep(p0: Elem, x: Elem, r: Elem, e: Elem, q: Elem)
    ensures Xor(p0, Mul(x, Xor(e, Mul(Xor(x, r), q))))
         == Xor(Xor(p0, Mul(r, e)), Mul(Xor(x, r), Xor(e, Mul(x, q))))
  {
    hide *;
    var d := Xor(x, r);
    MulXor(e, Mul(d, q), x);
    MulXor(e, Mul(x, q), d);
    MulXor(x, r, e);
    MulAssoc(x, d, q);
    MulAssoc(d, x, q);
    MulComm(x, d);
    // d*e = x*e + r*e, so r*e + d*e = x*e
    var m := Mul(Mul(x, d), q);
    XorAssoc(Xor(p0, Mul(r, e)), Mul(d, e), m);
    XorAssoc(p0, Mul(r, e), Mul(d, e));
    XorAssoc(Mul(r, e), Mul(r, e), Mul(x, e));
    XorComm(Mul(x, e), Mul(r, e));
    XorSelf(Mul(r, e), Mul(r, e));
    XorZero(Mul(x, e));
    XorAssoc(p0, Mul(x, e), m);
  }

  lemma {:induction false} ZeroQuotient(p: Polynomial, r: Elem)
    requires AllZero(Quotient(p, r))
    requires Eval(p, r) == Zero
    ensures AllZero(p)
  {
    hide Xor, Mul;
    if |p| == 1 {
      MulZero(r);
      XorZero(p[0]);
    } else if |p| > 1 {
      assert Quotient(p, r)[0] == Eval(p[1..], r);
      assert Quotient(p, r)[1..] == Quotient(p[1..], r);
      ZeroQuotient(p[1..], r);
      MulZero(r);
      XorZero(p[0]);
      assert forall i :: 0 < i < |p| ==> p[i] == p[1..][i - 1];
    }
  }

  /** A polynomial with at least as many distinct roots as coefficients is zero. */
  lemma {:induction false} RootCount(p: Polynomial, xs: seq<Elem>)
    requires Distinct(xs)
    requires |xs| >= |p|
    requires forall i :: 0 <= i < |xs| ==> Eval(p, xs[i]) == Zero
    ensures AllZero(p)
    decreases |p|
  {
    hide Xor, Mul;
    if p != [] {
      var r, rest := xs[0], xs[1..];
      var q := Quotient(p, r);
      forall i | 0 <= i < |rest|
        ensures Eval(q, rest[i]) == Zero
      {
        var x := rest[i];
        assert x == xs[i + 1];
        FactorTheorem(p, r, x);
        XorZero(Mul(Xor(x, r), Eval(q, x)));
        XorSelf(x, r);
        NoZeroDivisors(Xor(x, r), Eval(q, x));
      }
      RootCount(q, rest);
      ZeroQuotient(p, r);
    }
  }

  /** Polynomials of one length that agree on that many points are equal. */
  lemma AgreementIsEquality(p: Polynomial, q: Polynomial, xs: seq<Elem>)
    requires |p| == |q| <= |xs|
    requires Distinct(xs)
    requires forall i :: 0 <= i < |xs| ==> Eval(p, xs[i]) == Eval(q, xs[i])
    ensures p == q
  {
    hide Xor, Mul;
    var d := Add(p, q);
    forall i | 0 <= i < |xs|
      ensures Eval(d, xs[i]) == Zero
    {
      EvalAdd(p, q, xs[i]);
      XorSelf(Eval(p, xs[i]), Eval(q, xs[i]));
    }
    RootCount(d, xs);
    forall i | 0 <= i < |p|
      ensures p[i] == q[i]
    {
      assert d[i] == Xor(p[i], q[i]);
      XorSelf(p[i], q[i]);
    }
  }

  // ---- Lagrange interpolation --------------------------------------------------

  /** The product of (xs[j] - x) over j < k, j != i. */
  function Product(xs: seq<Elem>, i: nat, x: Elem, k: nat): Elem
    requires k <= |xs|
  {
    if k == 0 then One
    else if k - 1 == i then Product(xs, i, x, k - 1)
    else Mul(Product(xs, i, x, k - 1), Xor(xs[k - 1], x))
  }

  /** The sum over i < k of ys[i] times the i-th Lagrange weight at 0. */
  function WeightedSum(xs: seq<Elem>, ys: seq<Elem>, k: nat): Elem
    requires k <= |xs| == |ys|
  {
    if k == 0 then Zero
    else Xor(WeightedSum(xs, ys, k - 1), Mul(ys[k - 1], WeightAtZero(xs, k - 1)))
  }

  function WeightAtZero(xs: seq<Elem>, i: nat): Elem
    requires i < |xs|
  {
    Mul(Product(xs, i, Zero, |xs|), Inverse(Product(xs, i, xs[i], |xs|)))
  }

  lemma {:induction false} ProductNonzero(xs: seq<Elem>, i: nat, k: nat)
    requires Distinct(xs) && i < |xs| && k <= |xs|
    ensures Product(xs, i, xs[i], k) != Zero
  {
    hide Xor, Mul;
    if k == 0 {
    } else if k - 1 == i {
      ProductNonzero(xs, i, k - 1);
    } else {
      ProductNonzero(xs, i, k - 1);
      assert xs[k - 1] != xs[i];
      XorSelf(xs[k - 1], xs[i]);
      if Product(xs, i, xs[i], k) == Zero {
        NoZeroDivisors(Product(xs, i, xs[i], k - 1), Xor(xs[k - 1], xs[i]));
      }
    }
  }

  lemma {:induction false} ProductVanishes(xs: seq<Elem>, i: nat, j: nat, k: nat)
    requires i < |xs| && j < k <= |xs| && j != i
    ensures Product(xs, i, xs[j], k) == Zero
  {
    hide Xor, Mul;
    if k - 1 == j {
      XorSelf(xs[j], xs[j]);
      MulZero(Product(xs, i, xs[j], k - 1));
    } else {
      ProductVanishes(xs, i, j, k - 1);
      MulZero(Xor(xs[k - 1], xs[j]));
    }
  }

  /** (X - r) * p */
  function TimesLinear(p: Polynomial, r: Elem): (q: Polynomial)
    ensures |q| == |p| + 1
  {
    Add([Zero] + p, Scale(r, p) + [Zero])
  }

  lemma EvalTimesLinear(p: Polynomial, r: Elem, x: Elem)
    ensures Eval(TimesLinear(p, r), x) == Mul(Eval(p, x), Xor(r, x))
  {
    hide Xor, Mul, Add, Scale;
    EvalAdd([Zero] + p, Scale(r, p) + [Zero], x);
    EvalAppendZero(Scale(r, p), x);
    EvalScale(r, p, x);
    assert ([Zero] + p)[1..] == p;
    XorZero(Mul(x, Eval(p, x)));
    MulXor(r, x, Eval(p, x));
    MulComm(x, Eval(p, x));
    MulComm(r, Eval(p, x));
    XorComm(Mul(x, Eval(p, x)), Mul(r, Eval(p, x)));
  }

  /** The polynomial whose value at x is Product(xs, i, x, k). */
  function Basis(xs: seq<Elem>, i: nat, k: nat): (p: Polynomial)
    requires k <= |xs|
    ensures |p| == if i < k then k else k + 1
  {
    if k == 0 then [One]
    else if k - 1 == i then Basis(xs, i, k - 1)
    else TimesLinear(Basis(xs, i, k - 1), xs[k - 1])
  }

  lemma {:induction false} EvalBasis(xs: seq<Elem>, i: nat, k: nat, x: Elem)
    requires k <= |xs|
    ensures Eval(Basis(xs, i, k), x) == Product(xs, i, x, k)
  {
    hide Xor, Mul, TimesLinear;
    if k == 0 {
      assert Eval([One], x) == Xor(One, Mul(x, Eval([], x)));
      MulZero(x);
      XorZero(One);
    } else {
      EvalBasis(xs, i, k - 1, x);
      if k - 1 != i {
        EvalTimesLinear(Basis(xs, i, k - 1), xs[k - 1], x);
      }
    }
  }

  /** The coefficient of the i-th basis polynomial in the interpolant. */
  function Weight(xs: seq<Elem>, ys: seq<Elem>, i: nat): Elem
    requires i < |xs| == |ys|
  {
    Mul(ys[i], Inverse(Product(xs, i, xs[i], |xs|)))
  }

  function Interpolant(xs: seq<Elem>, ys: seq<Elem>, k: nat): (p: Polynomial)
    requires k <= |xs| == |ys|
    ensures |p| == |xs|
  {
    if k == 0 then seq(|xs|, _ => Zero)
    else Add(Interpolant(xs, ys, k - 1), Scale(Weight(xs, ys, k - 1), Basis(xs, k - 1, |xs|)))
  }

  lemma EvalInterpolantStep(xs: seq<Elem>, ys: seq<Elem>, k: nat, x: Elem)
    requires 0 < k <= |xs| == |ys|
    ensures Eval(Interpolant(xs, ys, k), x)
         == Xor(Eval(Interpolant(xs, ys, k - 1), x),
                Mul(Weight(xs, ys, k - 1), Product(xs, k - 1, x, |xs|)))
  {
    hide Xor, Mul, Add, Scale, Weight, Product, Eval, Basis;
    EvalAdd(Interpolant(xs, ys, k - 1), Scale(Weight(xs, ys, k - 1), Basis(xs, k - 1, |xs|)), x);
    EvalScale(Weight(xs, ys, k - 1), Basis(xs, k - 1, |xs|), x);
    EvalBasis(xs, k - 1, |xs|, x);
  }

  lemma {:induction false} InterpolantAtNode(xs: seq<Elem>, ys: seq<Elem>, k: nat, j: nat)
    requires k <= |xs| == |ys| && j < |xs|
    requires Distinct(xs)
    ensures Eval(Interpolant(xs, ys, k), xs[j]) == if j < k then ys[j] else Zero
  {
    hide Xor, Mul, Product, Eval, Inverse;
    if k == 0 {
      EvalAllZero(Interpolant(xs, ys, 0), xs[j]);
    } else {
      InterpolantAtNode(xs, ys, k - 1, j);
      EvalInterpolantStep(xs, ys, k, xs[j]);
      if j == k - 1 {
        var d := Product(xs, j, xs[j], |xs|);
        ProductNonzero(xs, j, |xs|);
        InverseIsInverse(d);
        MulAssoc(ys[j], Inverse(d), d);
        MulComm(d, Inverse(d));
        MulOne(ys[j]);
        XorZero(ys[j]);
      } else {
        ProductVanishes(xs, k - 1, j, |xs|);
        MulZero(Weight(xs, ys, k - 1));
        XorZero(Eval(Interpolant(xs, ys, k - 1), xs[j]));
      }
    }
  }

  lemma {:induction false} InterpolantAtZero(xs: seq<Elem>, ys: seq<Elem>, k: nat)
    requires k <= |xs| == |ys|
    ensures Eval(Interpolant(xs, ys, k), Zero) == WeightedSum(xs, ys, k)
  {
    hide Xor, Mul, Product, Eval, Inverse;
    if k == 0 {
      EvalAllZero(Interpolant(xs, ys, 0), Zero);
    } else {
      InterpolantAtZero(xs, ys, k - 1);
      EvalInterpolantStep(xs, ys, k, Zero);
      var d := Inverse(Product(xs, k - 1, xs[k - 1], |xs|));
      var n := Product(xs, k - 1, Zero, |xs|);
      MulAssoc(ys[k - 1], d, n);
      MulComm(d, n);
    }
  }

  /** Lagrange at 0: the weighted sum over n distinct points recovers the constant
      term of any polynomial with n coefficients through them. */
  lemma LagrangeAtZero(p: Polynomial, xs: seq<Elem>, ys: seq<Elem>)
    requires 0 < |p| == |xs| == |ys|
    requires Distinct(xs)
    requires forall i :: 0 <= i < |xs| ==> ys[i] == Eval(p, xs[i])
    ensures WeightedSum(xs, ys, |xs|) == p[0]
  {
    hide Xor, Mul, Eval, Interpolant, WeightedSum;
    var q := Interpolant(xs, ys, |xs|);
    forall i | 0 <= i < |xs|
      ensures Eval(q, xs[i]) == Eval(p, xs[i])
    {
      InterpolantAtNode(xs, ys, |xs|, i);
    }
    AgreementIsEquality(q, p, xs);
    InterpolantAtZero(xs, ys, |xs|);
    EvalAtZero(p);
  }

  /** Exactly one polynomial with n coefficients passes through n distinct points. */
  lemma InterpolationUnique(xs: seq<Elem>, ys: seq<Elem>, p: Polynomial)
    requires |xs| == |ys| == |p|
    requires Distinct(xs)
    ensures (forall i :: 0 <= i < |xs| ==> Eval(p, xs[i]) == ys[i])
            <==> p == Interpolant(xs, ys, |xs|)
  {
    hide Xor, Mul, Eval, Interpolant;
    var q := Interpolant(xs, ys, |xs|);
    forall i | 0 <= i < |xs|
      ensures Eval(q, xs[i]) == ys[i]
    {
      InterpolantAtNode(xs, ys, |xs|, i);
    }
    if forall i :: 0 <= i < |xs| ==> Eval(p, xs[i]) == ys[i] {
      AgreementIsEquality(p, q, xs);
    }
  }
}
