/**
 * GF(2^8) modulo x^8 + x^4 + x^3 + x + 1 (0x11b), the field of section 4.2 of
 * FIPS 197, as computed by the branch-free multiply, the square-and-multiply
 * power and the a^254 inverse of the secret-sharing code.
 *
 * A byte is wrapped in `Elem` so that proofs above this module see field
 * elements rather than bit vectors: every fact about bits is a leaf lemma here,
 * and the algebra is built on those.
 */
module GF256 {
  datatype Elem = Elem(bits: bv8)

  const Zero := Elem(0)
  const One := Elem(1)

  /** Field addition (and subtraction): bitwise exclusive or. */
  function Xor(a: Elem, b: Elem): Elem {
    Elem(a.bits ^ b.bits)
  }

  /** Multiplication by x, reduced: the reference form, with a branch. */
  function Xtime(a: Elem): Elem {
    Elem((a.bits << 1) ^ (if a.bits & 0x80 != 0 then 0x1B else 0))
  }

  predicate Odd(b: Elem) {
    b.bits & 1 == 1
  }

  function Half(b: Elem): Elem {
    Elem(b.bits >> 1)
  }

  function Pick(c: bool, a: Elem): Elem {
    if c then a else Zero
  }

  /** k rounds of schoolbook multiplication, lowest bit of b first. */
  function Rounds(a: Elem, b: Elem, k: nat): Elem
    decreases k
  {
    if k == 0 then Zero else Xor(Pick(Odd(b), a), Rounds(Xtime(a), Half(b), k - 1))
  }

  function Mul(a: Elem, b: Elem): Elem {
    Rounds(a, b, 8)
  }

  function Power(a: Elem, n: nat): Elem {
    if n == 0 then One else Mul(a, Power(a, n - 1))
  }

  function Inverse(a: Elem): Elem {
    Power(a, 254)
  }

  // ---- leaf facts about bits --------------------------------------------

  lemma XorComm(a: Elem, b: Elem)
    ensures Xor(a, b) == Xor(b, a)
  {
  }

  lemma XorAssoc(a: Elem, b: Elem, c: Elem)
    ensures Xor(Xor(a, b), c) == Xor(a, Xor(b, c))
  {
  }

  lemma XorZero(a: Elem)
    ensures Xor(a, Zero) == a == Xor(Zero, a)
  {
  }

  lemma XorSelf(a: Elem, b: Elem)
    ensures Xor(a, b) == Zero <==> a == b
  {
  }

  lemma XorFour(a: Elem, b: Elem, c: Elem, d: Elem)
    ensures Xor(Xor(a, b), Xor(c, d)) == Xor(Xor(a, c), Xor(b, d))
  {
  }

  lemma XtimeXor(a: Elem, b: Elem)
    ensures Xtime(Xor(a, b)) == Xor(Xtime(a), Xtime(b))
  {
  }

  lemma XtimeZero()
    ensures Xtime(Zero) == Zero
  {
  }

  lemma XtimeOfPowers()
    ensures Xtime(One) == Elem(2) && Xtime(Elem(2)) == Elem(4) && Xtime(Elem(4)) == Elem(8)
    ensures Xtime(Elem(8)) == Elem(16) && Xtime(Elem(16)) == Elem(32) && Xtime(Elem(32)) == Elem(64)
    ensures Xtime(Elem(64)) == Elem(128)
  {
  }

  /** The xor of those c_i whose bit i is set in b. */
  function Select(b: Elem, c0: Elem, c1: Elem, c2: Elem, c3: Elem, c4: Elem, c5: Elem, c6: Elem, c7: Elem): Elem {
    var b1 := Half(b);
    var b2 := Half(b1);
    var b3 := Half(b2);
    var b4 := Half(b3);
    var b5 := Half(b4);
    var b6 := Half(b5);
    var b7 := Half(b6);
    Xor(Pick(Odd(b), c0), Xor(Pick(Odd(b1), c1), Xor(Pick(Odd(b2), c2), Xor(Pick(Odd(b3), c3),
    Xor(Pick(Odd(b4), c4), Xor(Pick(Odd(b5), c5), Xor(Pick(Odd(b6), c6), Pick(Odd(b7), c7))))))))
  }

  function Masked(b: Elem, mask: bv8): Elem {
    Elem(b.bits & mask)
  }

  lemma LowBits(b: Elem)
    ensures Pick(Odd(b), One) == Masked(b, 1)
    ensures Pick(Odd(Half(b)), Elem(2)) == Masked(b, 2)
    ensures Pick(Odd(Half(Half(b))), Elem(4)) == Masked(b, 4)
    ensures Pick(Odd(Half(Half(Half(b)))), Elem(8)) == Masked(b, 8)
  {
  }

  lemma HighBits(b: Elem)
    ensures Pick(Odd(b), Elem(16)) == Elem((b.bits & 1) << 4)
    ensures Pick(Odd(Half(b)), Elem(32)) == Elem((b.bits & 2) << 4)
    ensures Pick(Odd(Half(Half(b))), Elem(64)) == Elem((b.bits & 4) << 4)
    ensures Pick(Odd(Half(Half(Half(b)))), Elem(128)) == Elem((b.bits & 8) << 4)
  {
  }

  lemma FourHalves(b: Elem)
    ensures Half(Half(Half(Half(b)))) == Elem(b.bits >> 4)
  {
  }

  lemma SumOfBits(x: bv8)
    ensures x == (x & 1) ^ ((x & 2) ^ ((x & 4) ^ ((x & 8) ^ ((((x >> 4) & 1) << 4) ^ ((((x >> 4) & 2) << 4)
                 ^ ((((x >> 4) & 4) << 4) ^ (((x >> 4) & 8) << 4)))))))
  {
  }

  lemma BitsOf(b: Elem)
    ensures b == Select(b, One, Elem(2), Elem(4), Elem(8), Elem(16), Elem(32), Elem(64), Elem(128))
  {
    hide Odd, Half, Pick;
    LowBits(b);
    FourHalves(b);
    HighBits(Elem(b.bits >> 4));
    SumOfBits(b.bits);
  }

  // ---- ring laws ----------------------------------------------------------

  lemma {:induction false} RoundsOfZero(b: Elem, k: nat)
    ensures Rounds(Zero, b, k) == Zero
    decreases k
  {
    hide Xor, Xtime, Odd, Half;
    if k > 0 {
      XtimeZero();
      XorZero(Zero);
      RoundsOfZero(Half(b), k - 1);
    }
  }

  lemma {:induction false} RoundsOfXor(a: Elem, b: Elem, c: Elem, k: nat)
    ensures Rounds(Xor(a, b), c, k) == Xor(Rounds(a, c, k), Rounds(b, c, k))
    decreases k
  {
    hide Xor, Xtime, Odd, Half;
    XorZero(Zero);
    if k > 0 {
      XtimeXor(a, b);
      RoundsOfXor(Xtime(a), Xtime(b), Half(c), k - 1);
      XorFour(Pick(Odd(c), a), Pick(Odd(c), b),
              Rounds(Xtime(a), Half(c), k - 1), Rounds(Xtime(b), Half(c), k - 1));
    }
  }

  lemma {:induction false} RoundsOfXtime(a: Elem, b: Elem, k: nat)
    ensures Rounds(Xtime(a), b, k) == Xtime(Rounds(a, b, k))
    decreases k
  {
    hide Xor, Xtime, Odd, Half;
    XtimeZero();
    if k > 0 {
      XtimeXor(Pick(Odd(b), a), Rounds(Xtime(a), Half(b), k - 1));
      RoundsOfXtime(Xtime(a), Half(b), k - 1);
    }
  }

  /** Multiplying by a can be moved inside the rounds of another product. */
  lemma {:induction false} RoundsExchange(u: Elem, a: Elem, b: Elem, k: nat)
    ensures Mul(Rounds(u, b, k), a) == Rounds(Mul(u, a), b, k)
    decreases k
  {
    hide Xor, Xtime, Odd, Half;
    RoundsOfZero(a, 8);
    if k > 0 {
      RoundsOfXor(Pick(Odd(b), u), Rounds(Xtime(u), Half(b), k - 1), a, 8);
      RoundsExchange(Xtime(u), a, Half(b), k - 1);
      RoundsOfXtime(u, a, 8);
    }
  }

  lemma MulOneLeft(b: Elem)
    ensures Mul(One, b) == b
  {
    var b1 := Half(b);
    var b2 := Half(b1);
    var b3 := Half(b2);
    var b4 := Half(b3);
    var b5 := Half(b4);
    var b6 := Half(b5);
    var b7 := Half(b6);
    hide Xor, Xtime, Odd, Half, Pick;
    XtimeOfPowers();
    BitsOf(b);
    XorZero(Pick(Odd(b7), Elem(128)));
    assert Rounds(Elem(128), b7, 1) == Pick(Odd(b7), Elem(128));
    assert Rounds(Elem(64), b6, 2) == Xor(Pick(Odd(b6), Elem(64)), Rounds(Elem(128), b7, 1));
    assert Rounds(Elem(32), b5, 3) == Xor(Pick(Odd(b5), Elem(32)), Rounds(Elem(64), b6, 2));
    assert Rounds(Elem(16), b4, 4) == Xor(Pick(Odd(b4), Elem(16)), Rounds(Elem(32), b5, 3));
    assert Rounds(Elem(8), b3, 5) == Xor(Pick(Odd(b3), Elem(8)), Rounds(Elem(16), b4, 4));
    assert Rounds(Elem(4), b2, 6) == Xor(Pick(Odd(b2), Elem(4)), Rounds(Elem(8), b3, 5));
    assert Rounds(Elem(2), b1, 7) == Xor(Pick(Odd(b1), Elem(2)), Rounds(Elem(4), b2, 6));
  }

  lemma MulComm(a: Elem, b: Elem)
    ensures Mul(a, b) == Mul(b, a)
  {
    hide Xor, Xtime, Odd, Half;
    RoundsExchange(One, a, b, 8);
    assert Rounds(One, b, 8) == Mul(One, b);
    assert Rounds(Mul(One, a), b, 8) == Mul(Mul(One, a), b);
    MulOneLeft(a);
    MulOneLeft(b);
  }

  lemma MulAssoc(a: Elem, b: Elem, c: Elem)
    ensures Mul(Mul(a, b), c) == Mul(a, Mul(b, c))
  {
    assert Mul(Mul(b, a), c) == Mul(Mul(b, c), a) by {
      hide Xor, Xtime, Odd, Half;
      RoundsExchange(b, c, a, 8);
    }
    hide *;
    MulComm(a, b);
    MulComm(a, Mul(b, c));
  }

  lemma MulOne(a: Elem)
    ensures Mul(a, One) == a == Mul(One, a)
  {
    hide *;
    MulOneLeft(a);
    MulComm(a, One);
  }

  lemma MulZero(a: Elem)
    ensures Mul(a, Zero) == Zero == Mul(Zero, a)
  {
    hide Rounds;
    RoundsOfZero(a, 8);
    MulComm(a, Zero);
  }

  lemma MulXor(a: Elem, b: Elem, c: Elem)
    ensures Mul(Xor(a, b), c) == Xor(Mul(a, c), Mul(b, c))
    ensures Mul(c, Xor(a, b)) == Xor(Mul(c, a), Mul(c, b))
  {
    assert Mul(Xor(a, b), c) == Xor(Mul(a, c), Mul(b, c)) by {
      hide Rounds, Xor;
      RoundsOfXor(a, b, c, 8);
    }
    hide *;
    MulComm(Xor(a, b), c);
    MulComm(a, c);
    MulComm(b, c);
  }

  // ---- squaring and powers -----------------------------------------------

  lemma SquareXor(a: Elem, b: Elem)
    ensures Mul(Xor(a, b), Xor(a, b)) == Xor(Mul(a, a), Mul(b, b))
  {
    hide *;
    var ab := Mul(a, b);
    MulXor(a, b, Xor(a, b));
    MulXor(a, b, a);
    MulXor(a, b, b);
    MulComm(a, b);
    XorAssoc(Mul(a, a), ab, Xor(ab, Mul(b, b)));
    XorAssoc(ab, ab, Mul(b, b));
    XorSelf(ab, ab);
    XorZero(Mul(b, b));
  }

  lemma SquareXtime(a: Elem)
    ensures Mul(Xtime(a), Xtime(a)) == Xtime(Xtime(Mul(a, a)))
  {
    assert Mul(Xtime(a), Xtime(a)) == Xtime(Mul(a, Xtime(a))) by {
      hide Rounds, Xtime;
      RoundsOfXtime(a, Xtime(a), 8);
    }
    assert Mul(Xtime(a), a) == Xtime(Mul(a, a)) by {
      hide Rounds, Xtime;
      RoundsOfXtime(a, a, 8);
    }
    hide *;
    MulComm(a, Xtime(a));
  }

  lemma XtimeTwiceOfSquares()
    ensures Xtime(Xtime(One)) == Elem(0x04) && Xtime(Xtime(Elem(0x04))) == Elem(0x10)
    ensures Xtime(Xtime(Elem(0x10))) == Elem(0x40) && Xtime(Xtime(Elem(0x40))) == Elem(0x1B)
    ensures Xtime(Xtime(Elem(0x1B))) == Elem(0x6C) && Xtime(Xtime(Elem(0x6C))) == Elem(0xAB)
    ensures Xtime(Xtime(Elem(0xAB))) == Elem(0x9A)
  {
  }

  lemma SquaresOfPowers()
    ensures Mul(One, One) == One && Mul(Elem(2), Elem(2)) == Elem(0x04)
    ensures Mul(Elem(4), Elem(4)) == Elem(0x10) && Mul(Elem(8), Elem(8)) == Elem(0x40)
    ensures Mul(Elem(16), Elem(16)) == Elem(0x1B) && Mul(Elem(32), Elem(32)) == Elem(0x6C)
    ensures Mul(Elem(64), Elem(64)) == Elem(0xAB) && Mul(Elem(128), Elem(128)) == Elem(0x9A)
  {
    hide *;
    MulOneLeft(One);
    XtimeOfPowers();
    XtimeTwiceOfSquares();
    SquareXtime(One);
    SquareXtime(Elem(2));
    SquareXtime(Elem(4));
    SquareXtime(Elem(8));
    SquareXtime(Elem(16));
    SquareXtime(Elem(32));
    SquareXtime(Elem(64));
  }

  lemma SquarePick(c: bool, a: Elem, r: Elem)
    ensures Mul(Xor(Pick(c, a), r), Xor(Pick(c, a), r)) == Xor(Pick(c, Mul(a, a)), Mul(r, r))
    ensures Mul(Pick(c, a), Pick(c, a)) == Pick(c, Mul(a, a))
  {
    hide Mul, Xor, Rounds;
    SquareXor(Pick(c, a), r);
    MulZero(Zero);
  }

  /** Squaring is linear, so eight constants determine it. */
  function Frobenius1(b: Elem): Elem {
    Select(b, One, Elem(0x04), Elem(0x10), Elem(0x40), Elem(0x1B), Elem(0x6C), Elem(0xAB), Elem(0x9A))
  }

  function Frobenius2(b: Elem): Elem {
    Select(b, One, Elem(0x10), Elem(0x1B), Elem(0xAB), Elem(0x5E), Elem(0x97), Elem(0xB3), Elem(0xC5))
  }

  function Frobenius4(b: Elem): Elem {
    Select(b, One, Elem(0x5E), Elem(0xE4), Elem(0xE8), Elem(0x4D), Elem(0x91), Elem(0x1D), Elem(0x6C))
  }

  lemma SquareSelect(b: Elem, c0: Elem, c1: Elem, c2: Elem, c3: Elem, c4: Elem, c5: Elem, c6: Elem, c7: Elem)
    ensures var r := Select(b, c0, c1, c2, c3, c4, c5, c6, c7);
            Mul(r, r) == Select(b, Mul(c0, c0), Mul(c1, c1), Mul(c2, c2), Mul(c3, c3),
                                   Mul(c4, c4), Mul(c5, c5), Mul(c6, c6), Mul(c7, c7))
  {
    hide Mul, Xor, Odd, Half, Pick, Rounds;
    var b1 := Half(b);
    var b2 := Half(b1);
    var b3 := Half(b2);
    var b4 := Half(b3);
    var b5 := Half(b4);
    var b6 := Half(b5);
    var b7 := Half(b6);
    var r7 := Pick(Odd(b7), c7);
    var r6 := Xor(Pick(Odd(b6), c6), r7);
    var r5 := Xor(Pick(Odd(b5), c5), r6);
    var r4 := Xor(Pick(Odd(b4), c4), r5);
    var r3 := Xor(Pick(Odd(b3), c3), r4);
    var r2 := Xor(Pick(Odd(b2), c2), r3);
    var r1 := Xor(Pick(Odd(b1), c1), r2);
    SquarePick(Odd(b7), c7, Zero);
    SquarePick(Odd(b6), c6, r7);
    SquarePick(Odd(b5), c5, r6);
    SquarePick(Odd(b4), c4, r5);
    SquarePick(Odd(b3), c3, r4);
    SquarePick(Odd(b2), c2, r3);
    SquarePick(Odd(b1), c1, r2);
    SquarePick(Odd(b), c0, r1);
  }

  lemma SquareIsFrobenius(b: Elem)
    ensures Mul(b, b) == Frobenius1(b)
  {
    hide Mul, Select;
    BitsOf(b);
    SquaresOfPowers();
    SquareSelect(b, One, Elem(2), Elem(4), Elem(8), Elem(16), Elem(32), Elem(64), Elem(128));
  }

  lemma Frobenius1OfConstants()
    ensures Frobenius1(Elem(0x01)) == Elem(0x01) && Frobenius1(Elem(0x04)) == Elem(0x10)
    ensures Frobenius1(Elem(0x10)) == Elem(0x1B) && Frobenius1(Elem(0x40)) == Elem(0xAB)
    ensures Frobenius1(Elem(0x1B)) == Elem(0x5E) && Frobenius1(Elem(0x6C)) == Elem(0x97)
    ensures Frobenius1(Elem(0xAB)) == Elem(0xB3) && Frobenius1(Elem(0x9A)) == Elem(0xC5)
  {
  }

  lemma Frobenius2OfConstants()
    ensures Frobenius2(Elem(0x01)) == Elem(0x01) && Frobenius2(Elem(0x10)) == Elem(0x5E)
    ensures Frobenius2(Elem(0x1B)) == Elem(0xE4) && Frobenius2(Elem(0xAB)) == Elem(0xE8)
    ensures Frobenius2(Elem(0x5E)) == Elem(0x4D) && Frobenius2(Elem(0x97)) == Elem(0x91)
    ensures Frobenius2(Elem(0xB3)) == Elem(0x1D) && Frobenius2(Elem(0xC5)) == Elem(0x6C)
  {
  }

  lemma Frobenius4OfConstants()
    ensures Frobenius4(Elem(0x01)) == Elem(0x01) && Frobenius4(Elem(0x5E)) == Elem(0x02)
    ensures Frobenius4(Elem(0xE4)) == Elem(0x04) && Frobenius4(Elem(0xE8)) == Elem(0x08)
    ensures Frobenius4(Elem(0x4D)) == Elem(0x10) && Frobenius4(Elem(0x91)) == Elem(0x20)
    ensures Frobenius4(Elem(0x1D)) == Elem(0x40) && Frobenius4(Elem(0x6C)) == Elem(0x80)
  {
  }

  lemma Frobenius1Select(b: Elem, c0: Elem, c1: Elem, c2: Elem, c3: Elem, c4: Elem, c5: Elem, c6: Elem, c7: Elem)
    ensures Frobenius1(Select(b, c0, c1, c2, c3, c4, c5, c6, c7))
         == Select(b, Frobenius1(c0), Frobenius1(c1), Frobenius1(c2), Frobenius1(c3),
                   Frobenius1(c4), Frobenius1(c5), Frobenius1(c6), Frobenius1(c7))
  {
    hide Mul, Select, Frobenius1;
    SquareSelect(b, c0, c1, c2, c3, c4, c5, c6, c7);
    SquareIsFrobenius(Select(b, c0, c1, c2, c3, c4, c5, c6, c7));
    SquareIsFrobenius(c0);
    SquareIsFrobenius(c1);
    SquareIsFrobenius(c2);
    SquareIsFrobenius(c3);
    SquareIsFrobenius(c4);
    SquareIsFrobenius(c5);
    SquareIsFrobenius(c6);
    SquareIsFrobenius(c7);
  }

  lemma FrobeniusTwice(b: Elem)
    ensures Frobenius1(Frobenius1(b)) == Frobenius2(b)
  {
    hide Select;
    Frobenius1Select(b, One, Elem(0x04), Elem(0x10), Elem(0x40), Elem(0x1B), Elem(0x6C), Elem(0xAB), Elem(0x9A));
    assert Frobenius1(Frobenius1(b)) == Select(b, One, Elem(0x10), Elem(0x1B), Elem(0xAB), Elem(0x5E), Elem(0x97), Elem(0xB3), Elem(0xC5)) by {
      Frobenius1OfConstants();
    }
  }

  lemma Frobenius2Select(b: Elem, c0: Elem, c1: Elem, c2: Elem, c3: Elem, c4: Elem, c5: Elem, c6: Elem, c7: Elem)
    ensures Frobenius2(Select(b, c0, c1, c2, c3, c4, c5, c6, c7))
         == Select(b, Frobenius2(c0), Frobenius2(c1), Frobenius2(c2), Frobenius2(c3),
                   Frobenius2(c4), Frobenius2(c5), Frobenius2(c6), Frobenius2(c7))
  {
    hide Select, Frobenius1, Frobenius2;
    FrobeniusTwice(Select(b, c0, c1, c2, c3, c4, c5, c6, c7));
    Frobenius1Select(b, c0, c1, c2, c3, c4, c5, c6, c7);
    Frobenius1Select(b, Frobenius1(c0), Frobenius1(c1), Frobenius1(c2), Frobenius1(c3), Frobenius1(c4), Frobenius1(c5), Frobenius1(c6), Frobenius1(c7));
    FrobeniusTwice(c0);
    FrobeniusTwice(c1);
    FrobeniusTwice(c2);
    FrobeniusTwice(c3);
    FrobeniusTwice(c4);
    FrobeniusTwice(c5);
    FrobeniusTwice(c6);
    FrobeniusTwice(c7);
  }

  lemma FrobeniusFour(b: Elem)
    ensures Frobenius2(Frobenius2(b)) == Frobenius4(b)
  {
    hide Select;
    Frobenius2Select(b, One, Elem(0x10), Elem(0x1B), Elem(0xAB), Elem(0x5E), Elem(0x97), Elem(0xB3), Elem(0xC5));
    assert Frobenius2(Frobenius2(b)) == Select(b, One, Elem(0x5E), Elem(0xE4), Elem(0xE8), Elem(0x4D), Elem(0x91), Elem(0x1D), Elem(0x6C)) by {
      Frobenius2OfConstants();
    }
  }

  lemma Frobenius4Select(b: Elem, c0: Elem, c1: Elem, c2: Elem, c3: Elem, c4: Elem, c5: Elem, c6: Elem, c7: Elem)
    ensures Frobenius4(Select(b, c0, c1, c2, c3, c4, c5, c6, c7))
         == Select(b, Frobenius4(c0), Frobenius4(c1), Frobenius4(c2), Frobenius4(c3),
                   Frobenius4(c4), Frobenius4(c5), Frobenius4(c6), Frobenius4(c7))
  {
    hide Select, Frobenius2, Frobenius4;
    FrobeniusFour(Select(b, c0, c1, c2, c3, c4, c5, c6, c7));
    Frobenius2Select(b, c0, c1, c2, c3, c4, c5, c6, c7);
    Frobenius2Select(b, Frobenius2(c0), Frobenius2(c1), Frobenius2(c2), Frobenius2(c3), Frobenius2(c4), Frobenius2(c5), Frobenius2(c6), Frobenius2(c7));
    FrobeniusFour(c0);
    FrobeniusFour(c1);
    FrobeniusFour(c2);
    FrobeniusFour(c3);
    FrobeniusFour(c4);
    FrobeniusFour(c5);
    FrobeniusFour(c6);
    FrobeniusFour(c7);
  }

  lemma FrobeniusEight(b: Elem)
    ensures Frobenius4(Frobenius4(b)) == b
  {
    hide Select;
    Frobenius4Select(b, One, Elem(0x5E), Elem(0xE4), Elem(0xE8), Elem(0x4D), Elem(0x91), Elem(0x1D), Elem(0x6C));
    assert Frobenius4(Frobenius4(b)) == Select(b, One, Elem(0x02), Elem(0x04), Elem(0x08), Elem(0x10), Elem(0x20), Elem(0x40), Elem(0x80)) by {
      Frobenius4OfConstants();
    }
    BitsOf(b);
  }

  /** The only elements equal to their own square are 0 and 1. */
  lemma Idempotents(b: Elem)
    requires Frobenius1(b) == b
    ensures b == Zero || b == One
  {
  }

  lemma {:induction false} PowerAdd(a: Elem, m: nat, n: nat)
    ensures Power(a, m + n) == Mul(Power(a, m), Power(a, n))
  {
    hide Mul;
    if m == 0 {
      MulOne(Power(a, n));
    } else {
      PowerAdd(a, m - 1, n);
      MulAssoc(a, Power(a, m - 1), Power(a, n));
    }
  }

  lemma {:induction false} PowerOfSquare(a: Elem, n: nat)
    ensures Power(Mul(a, a), n) == Power(a, 2 * n)
  {
    hide Mul;
    if n > 0 {
      PowerOfSquare(a, n - 1);
      assert Power(a, 2 * n) == Mul(a, Mul(a, Power(a, 2 * n - 2)));
      MulAssoc(a, a, Power(a, 2 * n - 2));
    }
  }

  lemma Power256(a: Elem)
    ensures Power(a, 256) == a
  {
    hide Mul, Power, Frobenius1, Frobenius2, Frobenius4;
    assert Power(a, 1) == a by {
      PowerOne(a);
    }
    PowerDouble(a, 1);
    PowerDouble(a, 2);
    PowerDouble(a, 4);
    PowerDouble(a, 8);
    PowerDouble(a, 16);
    PowerDouble(a, 32);
    PowerDouble(a, 64);
    PowerDouble(a, 128);
    FrobeniusTwice(a);
    FrobeniusFour(a);
    FrobeniusTwice(Frobenius2(a));
    FrobeniusTwice(Frobenius4(a));
    FrobeniusFour(Frobenius4(a));
    FrobeniusTwice(Frobenius2(Frobenius4(a)));
    FrobeniusEight(a);
  }

  lemma PowerOne(a: Elem)
    ensures Power(a, 1) == a
  {
    hide Mul;
    assert Power(a, 1) == Mul(a, One);
    MulOne(a);
  }

  lemma PowerDouble(a: Elem, n: nat)
    ensures Power(a, 2 * n) == Frobenius1(Power(a, n))
  {
    hide Mul, Power, Frobenius1;
    PowerAdd(a, n, n);
    SquareIsFrobenius(Power(a, n));
  }

  /** Fermat for this field: a nonzero element's 255th power is 1. */
  lemma Power255(a: Elem)
    requires a != Zero
    ensures Power(a, 255) == One
  {
    hide Mul, Power, Frobenius1;
    var e := Power(a, 255);
    assert Power(a, 256) == Mul(e, a) by {
      PowerAdd(a, 255, 1);
      PowerOne(a);
    }
    Power256(a);
    assert Frobenius1(e) == e by {
      PowerDouble(a, 255);
      PowerAdd(a, 254, 256);
      PowerAdd(a, 254, 1);
      PowerOne(a);
    }
    Idempotents(e);
    MulZero(a);
  }

  /** gf_inv: a^254 is the multiplicative inverse of every nonzero a. */
  lemma InverseIsInverse(a: Elem)
    requires a != Zero
    ensures Mul(a, Inverse(a)) == One
  {
    hide Mul;
    Power255(a);
  }

  lemma NoZeroDivisors(a: Elem, b: Elem)
    requires Mul(a, b) == Zero
    ensures a == Zero || b == Zero
  {
    hide *;
    if a != Zero {
      InverseIsInverse(a);
      MulAssoc(Inverse(a), a, b);
      MulComm(a, Inverse(a));
      MulOne(b);
      MulZero(Inverse(a));
    }
  }

  // ---- bytes as points ------------------------------------------------------

  type U8 = i: int | 0 <= i < 256

  function FromBits(c7: bool, c6: bool, c5: bool, c4: bool, c3: bool, c2: bool, c1: bool, c0: bool): Elem {
    Elem((if c7 then 0x80 else 0) | (if c6 then 0x40 else 0) | (if c5 then 0x20 else 0) | (if c4 then 0x10 else 0)
       | (if c3 then 0x08 else 0) | (if c2 then 0x04 else 0) | (if c1 then 0x02 else 0) | (if c0 then 0x01 else 0))
  }

  function Weigh(c: bool, w: int): int {
    if c then w else 0
  }

  /** The number a byte stands for. */
  function Value(e: Elem): int {
    Weigh(e.bits & 0x80 != 0, 128) + Weigh(e.bits & 0x40 != 0, 64)
    + Weigh(e.bits & 0x20 != 0, 32) + Weigh(e.bits & 0x10 != 0, 16)
    + Weigh(e.bits & 0x08 != 0, 8) + Weigh(e.bits & 0x04 != 0, 4)
    + Weigh(e.bits & 0x02 != 0, 2) + Weigh(e.bits & 0x01 != 0, 1)
  }

  predicate LowBit(q: int) {
    q % 2 == 1
  }

  function HalfOf(q: nat): nat {
    q / 2
  }

  /** The byte with value i (the `as u8` of a share's position). */
  function Point(i: U8): Elem {
    var q1 := HalfOf(i);
    var q2 := HalfOf(q1);
    var q3 := HalfOf(q2);
    var q4 := HalfOf(q3);
    var q5 := HalfOf(q4);
    var q6 := HalfOf(q5);
    var q7 := HalfOf(q6);
    FromBits(LowBit(q7), LowBit(q6), LowBit(q5), LowBit(q4), LowBit(q3), LowBit(q2), LowBit(q1), LowBit(i))
  }

  lemma ValueOfBits(c7: bool, c6: bool, c5: bool, c4: bool, c3: bool, c2: bool, c1: bool, c0: bool)
    ensures Value(FromBits(c7, c6, c5, c4, c3, c2, c1, c0))
         == Weigh(c7, 128) + Weigh(c6, 64) + Weigh(c5, 32) + Weigh(c4, 16)
          + Weigh(c3, 8) + Weigh(c2, 4) + Weigh(c1, 2) + Weigh(c0, 1)
  {
    hide Weigh;
  }

  lemma WeighDigit(q: nat, w: int)
    ensures Weigh(LowBit(q), w) == w * (q - 2 * HalfOf(q))
  {
    assert q - 2 * (q / 2) == if q % 2 == 1 then 1 else 0;
  }

  lemma HalfBelow(q: nat, bound: nat)
    requires q < 2 * bound
    ensures HalfOf(q) < bound
  {
  }

  lemma ValueOfPoint(i: U8)
    ensures Value(Point(i)) == i
  {
    hide Value, FromBits, Weigh, LowBit, HalfOf;
    var q1 := HalfOf(i);
    var q2 := HalfOf(q1);
    var q3 := HalfOf(q2);
    var q4 := HalfOf(q3);
    var q5 := HalfOf(q4);
    var q6 := HalfOf(q5);
    var q7 := HalfOf(q6);
    HalfBelow(i, 128);
    HalfBelow(q1, 64);
    HalfBelow(q2, 32);
    HalfBelow(q3, 16);
    HalfBelow(q4, 8);
    HalfBelow(q5, 4);
    HalfBelow(q6, 2);
    HalfBelow(q7, 1);
    ValueOfBits(LowBit(q7), LowBit(q6), LowBit(q5), LowBit(q4),
                LowBit(q3), LowBit(q2), LowBit(q1), LowBit(i));
    WeighDigit(i, 1);
    WeighDigit(q1, 2);
    WeighDigit(q2, 4);
    WeighDigit(q3, 8);
    WeighDigit(q4, 16);
    WeighDigit(q5, 32);
    WeighDigit(q6, 64);
    WeighDigit(q7, 128);
  }

  lemma PointInjective(i: U8, j: U8)
    requires Point(i) == Point(j)
    ensures i == j
  {
    hide *;
    ValueOfPoint(i);
    ValueOfPoint(j);
  }

  lemma PointZero()
    ensures Point(0) == Zero
  {
  }

  // ---- the arithmetic as the program runs it -----------------------------------

  lemma MaskedStep(p: bv8, a: bv8, b: bv8)
    ensures Elem(p ^ (a & (0 - (b & 1)))) == Xor(Elem(p), Pick(Odd(Elem(b)), Elem(a)))
  {
  }

  lemma MaskedXtime(a: bv8)
    ensures Elem((a << 1) ^ (0x1B & (0 - (a >> 7)))) == Xtime(Elem(a))
  {
  }

  /** gf_mul: always eight rounds, masks in place of data-dependent branches. */
  method GfMul(a: Elem, b: Elem) returns (r: Elem)
    ensures r == Mul(a, b)
  {
    var x: bv8, y: bv8, p: bv8 := a.bits, b.bits, 0;
    XorZero(Mul(a, b));
    for i := 0 to 8
      invariant Xor(Elem(p), Rounds(Elem(x), Elem(y), 8 - i)) == Mul(a, b)
    {
      hide Xor, Xtime, Odd, Pick;
      MaskedStep(p, x, y);
      MaskedXtime(x);
      XorAssoc(Elem(p), Pick(Odd(Elem(y)), Elem(x)), Rounds(Xtime(Elem(x)), Half(Elem(y)), 7 - i));
      p := p ^ (x & (0 - (y & 1)));
      x := (x << 1) ^ (0x1B & (0 - (x >> 7)));
      y := y >> 1;
    }
    XorZero(Elem(p));
    r := Elem(p);
  }

  lemma PowerHalving(b: Elem, e: nat)
    ensures Power(b, e) == var rest := Power(Mul(b, b), e / 2); if e % 2 == 1 then Mul(b, rest) else rest
  {
    hide Mul;
    PowerOfSquare(b, e / 2);
  }

  /** gf_pow: square and multiply over the binary digits of the exponent. */
  method GfPow(base: Elem, exp: nat) returns (acc: Elem)
    ensures acc == Power(base, exp)
  {
    acc := One;
    var b, e := base, exp;
    hide Mul;
    MulOne(Power(base, exp));
    while e > 0
      invariant Mul(acc, Power(b, e)) == Power(base, exp)
    {
      PowerHalving(b, e);
      if e % 2 == 1 {
        MulAssoc(acc, b, Power(Mul(b, b), e / 2));
        acc := GfMul(acc, b);
      }
      b := GfMul(b, b);
      e := e / 2;
    }
    MulOne(acc);
  }

  /** gf_inv: a^254, which is the inverse of everything but zero, and zero for zero. */
  method GfInv(a: Elem) returns (r: Elem)
    ensures r == Inverse(a)
    ensures if a == Zero then r == Zero else Mul(a, r) == One
  {
    if a == Zero {
      hide Mul;
      ZeroInverse();
    } else {
      InverseIsInverse(a);
    }
    r := GfPow(a, 254);
  }

  lemma ZeroInverse()
    ensures Inverse(Zero) == Zero
  {
    hide Mul;
    MulZero(Power(Zero, 253));
  }

  /** The worked example of section 4.2.1 of FIPS 197: {57} times {13} is {fe}. */
  lemma KnownProduct()
    ensures Mul(Elem(0x57), Elem(0x13)) == Elem(0xFE)
  {
    var a := Elem(0x57);
    assert Xtime(a) == Elem(0xAE) && Xtime(Elem(0xAE)) == Elem(0x47) && Xtime(Elem(0x47)) == Elem(0x8E) && Xtime(Elem(0x8E)) == Elem(0x07);
    assert Half(Elem(0x13)) == Elem(0x09) && Half(Elem(0x09)) == Elem(0x04) && Half(Elem(0x04)) == Elem(0x02) && Half(Elem(0x02)) == One;
    assert Half(One) == Zero && Odd(One) && Odd(Elem(0x09)) && Odd(Elem(0x13)) && !Odd(Elem(0x04)) && !Odd(Elem(0x02));
    NoRounds(Xtime(Elem(0x07)), 3);
    assert Rounds(Elem(0x07), One, 4) == Elem(0x07);
    assert Rounds(Elem(0x8E), Elem(0x02), 5) == Elem(0x07);
    assert Rounds(Elem(0x47), Elem(0x04), 6) == Elem(0x07);
    assert Rounds(Elem(0xAE), Elem(0x09), 7) == Elem(0xA9);
  }

  lemma {:induction false} NoRounds(a: Elem, k: nat)
    ensures Rounds(a, Zero, k) == Zero
    decreases k
  {
    if k > 0 {
      NoRounds(Xtime(a), k - 1);
      assert Half(Zero) == Zero && !Odd(Zero);
    }
  }
}
