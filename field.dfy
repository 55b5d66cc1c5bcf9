/** Arithmetic in GF(2^8) as FIPS 197 section 4.2 defines it: a byte is a
    polynomial of degree below 8 over GF(2), addition is XOR, and the
    product is reduced modulo m(x) = x^8 + x^4 + x^3 + x + 1 (0x11b).
    The source needs only multiplication by the six constants that
    MixColumns and InvMixColumns use. */
module Field {

  /** Addition in GF(2^8) (section 4.1): bitwise XOR. Naming it keeps a sum
      of sums a sum of sums, so equal sums are recognised as equal terms. */
  function Add(a: bv8, b: bv8): (r: bv8)
  {
    a ^ b
  }

  /** The irreducible polynomial m(x) of FIPS 197 section 4.2, as a 9-bit value. */
  const Modulus: bv16 := 0x11b

  /** Reduces a polynomial of degree at most 8 modulo m(x). */
  function Reduce(p: bv16): (r: bv16)
  {
    if p & 0x100 != 0 then p ^ Modulus else p
  }

  /** `mul_by_02`: xtime, the product b * x (section 4.2.1). The byte shift
      drops bit 7, and 0x1b is m(x) without its x^8 term. */
  function Mul02(b: bv8): (r: bv8)
  {
    if b < 0x80 then b << 1 else (b << 1) ^ 0x1b
  }

  /** `mul_by_03`: b * {03} = b * {02} + b. */
  function Mul03(b: bv8): (r: bv8)
  {
    Add(Mul02(b), b)
  }

  /** `mul_by_09`: b * {09} = b * {08} + b. */
  function Mul09(b: bv8): (r: bv8)
  {
    Add(Mul02(Mul02(Mul02(b))), b)
  }

  /** `mul_by_0b`: b * {0b} = b * {08} + b * {02} + b. */
  function Mul0B(b: bv8): (r: bv8)
  {
    Add(Add(Mul02(Mul02(Mul02(b))), Mul02(b)), b)
  }

  /** `mul_by_0d`: b * {0d} = b * {08} + b * {04} + b. */
  function Mul0D(b: bv8): (r: bv8)
  {
    Add(Add(Mul02(Mul02(Mul02(b))), Mul02(Mul02(b))), b)
  }

  /** `mul_by_0e`: b * {0e} = b * {08} + b * {04} + b * {02}. */
  function Mul0E(b: bv8): (r: bv8)
  {
    Add(Add(Mul02(Mul02(Mul02(b))), Mul02(Mul02(b))), Mul02(b))
  }

  /** xtime is the product by x reduced modulo m(x), computed in 16 bits
      where nothing is lost to the byte width. */
  lemma XtimeReduces(b: bv8)
    ensures Mul02(b) as bv16 == Reduce((b as bv16) << 1)
  {
  }

  /** The general product a * k of section 4.2.1: add a * x^i for every bit i
      set in k, where a * x^i is i applications of xtime. */
  function Mul(a: bv8, k: nat): (r: bv8)
    decreases k
  {
    if k == 0 then 0
    else if k % 2 == 1 then Add(a, Mul(Mul02(a), k / 2))
    else Mul(Mul02(a), k / 2)
  }

  /** Products by 1, 2 and 3 in terms of xtime. */
  lemma MulSmall(a: bv8)
    ensures Mul(a, 1) == a
    ensures Mul(a, 2) == Mul02(a)
    ensures Mul(a, 3) == Add(a, Mul02(a))
  {
    assert Mul(Mul02(a), 0) == 0;
    assert Mul(Mul02(Mul02(a)), 0) == 0;
  }

  /** One step of the shift-and-add definition, for an even and an odd constant. */
  lemma MulHalve(a: bv8, k: nat)
    ensures Mul(a, 2 * k) == Mul(Mul02(a), k)
    ensures Mul(a, 2 * k + 1) == Add(a, Mul(Mul02(a), k))
  {
  }

  /** `mul_by_02` and `mul_by_03` are the field products by {02} and {03}. */
  lemma ForwardMultipliersAreProducts(b: bv8)
    ensures Mul02(b) == Mul(b, 0x02)
    ensures Mul03(b) == Mul(b, 0x03)
  {
    MulSmall(b);
  }

  /** `mul_by_09`, `mul_by_0b`, `mul_by_0d` and `mul_by_0e` are the field
      products by {09}, {0b}, {0d} and {0e}. */
  lemma InverseMultipliersAreProducts(b: bv8)
    ensures Mul09(b) == Mul(b, 0x09)
    ensures Mul0B(b) == Mul(b, 0x0b)
    ensures Mul0D(b) == Mul(b, 0x0d)
    ensures Mul0E(b) == Mul(b, 0x0e)
  {
    Mul09IsProduct(b);
    Mul0BIsProduct(b);
    Mul0DIsProduct(b);
    Mul0EIsProduct(b);
  }

  /** Addition is commutative. */
  lemma AddSwap(a: bv8, b: bv8)
    ensures Add(a, b) == Add(b, a)
  {
  }

  /** Reorders a three-term sum. */
  lemma AddReverse(a: bv8, b: bv8, c: bv8)
    ensures Add(a, Add(b, c)) == Add(Add(c, b), a)
  {
  }

  lemma Mul09IsProduct(b: bv8)
    ensures Mul09(b) == Mul(b, 0x09)
  {
    var b2 := Mul02(b);
    MulHalve(b, 4);
    MulHalve(b2, 2);
    MulSmall(Mul02(b2));
    AddSwap(b, Mul02(Mul02(b2)));
  }

  lemma Mul0BIsProduct(b: bv8)
    ensures Mul0B(b) == Mul(b, 0x0b)
  {
    var b2 := Mul02(b);
    MulHalve(b, 5);
    MulHalve(b2, 2);
    MulSmall(Mul02(b2));
    AddReverse(b, b2, Mul02(Mul02(b2)));
  }

  lemma Mul0DIsProduct(b: bv8)
    ensures Mul0D(b) == Mul(b, 0x0d)
  {
    var b2 := Mul02(b);
    MulHalve(b, 6);
    MulHalve(b2, 3);
    MulSmall(Mul02(b2));
    AddReverse(b, Mul02(b2), Mul02(Mul02(b2)));
  }

  lemma Mul0EIsProduct(b: bv8)
    ensures Mul0E(b) == Mul(b, 0x0e)
  {
    var b2 := Mul02(b);
    MulHalve(b, 7);
    MulHalve(b2, 3);
    MulSmall(Mul02(b2));
    AddReverse(b2, Mul02(b2), Mul02(Mul02(b2)));
  }

  // Linearity. Every multiplier is a sum of iterated xtime terms, and xtime
  // distributes over addition. The proofs hand each needed equation to a
  // regrouping lemma stated on plain bytes, so no step has to look inside
  // a multiplier.

  /** xtime distributes over addition. */
  lemma Mul02Linear(a: bv8, b: bv8)
    ensures Mul02(Add(a, b)) == Add(Mul02(a), Mul02(b))
  {
    assert (a ^ b) << 1 == (a << 1) ^ (b << 1);
    if a < 0x80 {
      if b < 0x80 { assert a ^ b < 0x80; } else { assert a ^ b >= 0x80; }
    } else {
      if b < 0x80 { assert a ^ b >= 0x80; } else { assert a ^ b < 0x80; }
    }
  }

  /** Regroups (px + py) + (qx + qy) as (px + qx) + (py + qy). */
  lemma RegroupTwo(s: bv8, sx: bv8, sy: bv8, p: bv8, px: bv8, py: bv8, q: bv8, qx: bv8, qy: bv8)
    requires p == Add(px, py) && q == Add(qx, qy)
    requires s == Add(p, q) && sx == Add(px, qx) && sy == Add(py, qy)
    ensures s == Add(sx, sy)
  {
  }

  /** The same regrouping for a sum of three terms. */
  lemma RegroupThree(s: bv8, sx: bv8, sy: bv8, p: bv8, px: bv8, py: bv8,
                     q: bv8, qx: bv8, qy: bv8, t: bv8, tx: bv8, ty: bv8)
    requires p == Add(px, py) && q == Add(qx, qy) && t == Add(tx, ty)
    requires s == Add(Add(p, q), t) && sx == Add(Add(px, qx), tx) && sy == Add(Add(py, qy), ty)
    ensures s == Add(sx, sy)
  {
  }

  lemma XtimeTwiceLinear(x: bv8, y: bv8)
    ensures Mul02(Mul02(Add(x, y))) == Add(Mul02(Mul02(x)), Mul02(Mul02(y)))
  {
    Mul02Linear(x, y);
    Mul02Linear(Mul02(x), Mul02(y));
  }

  lemma XtimeThriceLinear(x: bv8, y: bv8)
    ensures Mul02(Mul02(Mul02(Add(x, y)))) == Add(Mul02(Mul02(Mul02(x))), Mul02(Mul02(Mul02(y))))
  {
    XtimeTwiceLinear(x, y);
    Mul02Linear(Mul02(Mul02(x)), Mul02(Mul02(y)));
  }

  /** `mul_by_03` distributes over addition. */
  lemma Mul03Linear(x: bv8, y: bv8)
    ensures Mul03(Add(x, y)) == Add(Mul03(x), Mul03(y))
  {
    Mul02Linear(x, y);
    RegroupTwo(Mul03(Add(x, y)), Mul03(x), Mul03(y), Mul02(Add(x, y)), Mul02(x), Mul02(y), Add(x, y), x, y);
  }

  /** `mul_by_09` distributes over addition. */
  lemma Mul09Linear(x: bv8, y: bv8)
    ensures Mul09(Add(x, y)) == Add(Mul09(x), Mul09(y))
  {
    XtimeThriceLinear(x, y);
    RegroupTwo(Mul09(Add(x, y)), Mul09(x), Mul09(y),
      Mul02(Mul02(Mul02(Add(x, y)))), Mul02(Mul02(Mul02(x))), Mul02(Mul02(Mul02(y))), Add(x, y), x, y);
  }

  /** `mul_by_0b` distributes over addition. */
  lemma Mul0BLinear(x: bv8, y: bv8)
    ensures Mul0B(Add(x, y)) == Add(Mul0B(x), Mul0B(y))
  {
    XtimeThriceLinear(x, y);
    Mul02Linear(x, y);
    RegroupThree(Mul0B(Add(x, y)), Mul0B(x), Mul0B(y),
      Mul02(Mul02(Mul02(Add(x, y)))), Mul02(Mul02(Mul02(x))), Mul02(Mul02(Mul02(y))),
      Mul02(Add(x, y)), Mul02(x), Mul02(y), Add(x, y), x, y);
  }

  /** `mul_by_0d` distributes over addition. */
  lemma Mul0DLinear(x: bv8, y: bv8)
    ensures Mul0D(Add(x, y)) == Add(Mul0D(x), Mul0D(y))
  {
    XtimeThriceLinear(x, y);
    XtimeTwiceLinear(x, y);
    RegroupThree(Mul0D(Add(x, y)), Mul0D(x), Mul0D(y),
      Mul02(Mul02(Mul02(Add(x, y)))), Mul02(Mul02(Mul02(x))), Mul02(Mul02(Mul02(y))),
      Mul02(Mul02(Add(x, y))), Mul02(Mul02(x)), Mul02(Mul02(y)), Add(x, y), x, y);
  }

  /** `mul_by_0e` distributes over addition. */
  lemma Mul0ELinear(x: bv8, y: bv8)
    ensures Mul0E(Add(x, y)) == Add(Mul0E(x), Mul0E(y))
  {
    XtimeThriceLinear(x, y);
    XtimeTwiceLinear(x, y);
    Mul02Linear(x, y);
    RegroupThree(Mul0E(Add(x, y)), Mul0E(x), Mul0E(y),
      Mul02(Mul02(Mul02(Add(x, y)))), Mul02(Mul02(Mul02(x))), Mul02(Mul02(Mul02(y))),
      Mul02(Mul02(Add(x, y))), Mul02(Mul02(x)), Mul02(Mul02(y)),
      Mul02(Add(x, y)), Mul02(x), Mul02(y));
  }

  /** The sum of four bytes, associated to the left as the source writes it. */
  function Sum4(a: bv8, b: bv8, c: bv8, d: bv8): (r: bv8)
  {
    Add(Add(Add(a, b), c), d)
  }

  /** Regroups a chain of three two-term splits into one four-term sum. */
  lemma SplitFour(t: bv8, t3: bv8, t2: bv8, a: bv8, b: bv8, c: bv8, d: bv8)
    requires t == Add(t3, d) && t3 == Add(t2, c) && t2 == Add(a, b)
    ensures t == Sum4(a, b, c, d)
  {
  }

  /** `mul_by_02` applied to a sum of four bytes. */
  lemma Mul02Spread(p: bv8, q: bv8, r: bv8, s: bv8)
    ensures Mul02(Sum4(p, q, r, s)) == Sum4(Mul02(p), Mul02(q), Mul02(r), Mul02(s))
  {
    Mul02Linear(Add(Add(p, q), r), s);
    Mul02Linear(Add(p, q), r);
    Mul02Linear(p, q);
    SplitFour(Mul02(Sum4(p, q, r, s)), Mul02(Add(Add(p, q), r)), Mul02(Add(p, q)), Mul02(p), Mul02(q), Mul02(r), Mul02(s));
  }

  /** `mul_by_03` applied to a sum of four bytes. */
  lemma Mul03Spread(p: bv8, q: bv8, r: bv8, s: bv8)
    ensures Mul03(Sum4(p, q, r, s)) == Sum4(Mul03(p), Mul03(q), Mul03(r), Mul03(s))
  {
    Mul03Linear(Add(Add(p, q), r), s);
    Mul03Linear(Add(p, q), r);
    Mul03Linear(p, q);
    SplitFour(Mul03(Sum4(p, q, r, s)), Mul03(Add(Add(p, q), r)), Mul03(Add(p, q)), Mul03(p), Mul03(q), Mul03(r), Mul03(s));
  }

  /** `mul_by_09` applied to a sum of four bytes. */
  lemma Mul09Spread(p: bv8, q: bv8, r: bv8, s: bv8)
    ensures Mul09(Sum4(p, q, r, s)) == Sum4(Mul09(p), Mul09(q), Mul09(r), Mul09(s))
  {
    Mul09Linear(Add(Add(p, q), r), s);
    Mul09Linear(Add(p, q), r);
    Mul09Linear(p, q);
    SplitFour(Mul09(Sum4(p, q, r, s)), Mul09(Add(Add(p, q), r)), Mul09(Add(p, q)), Mul09(p), Mul09(q), Mul09(r), Mul09(s));
  }

  /** `mul_by_0b` applied to a sum of four bytes. */
  lemma Mul0BSpread(p: bv8, q: bv8, r: bv8, s: bv8)
    ensures Mul0B(Sum4(p, q, r, s)) == Sum4(Mul0B(p), Mul0B(q), Mul0B(r), Mul0B(s))
  {
    Mul0BLinear(Add(Add(p, q), r), s);
    Mul0BLinear(Add(p, q), r);
    Mul0BLinear(p, q);
    SplitFour(Mul0B(Sum4(p, q, r, s)), Mul0B(Add(Add(p, q), r)), Mul0B(Add(p, q)), Mul0B(p), Mul0B(q), Mul0B(r), Mul0B(s));
  }

  /** `mul_by_0d` applied to a sum of four bytes. */
  lemma Mul0DSpread(p: bv8, q: bv8, r: bv8, s: bv8)
    ensures Mul0D(Sum4(p, q, r, s)) == Sum4(Mul0D(p), Mul0D(q), Mul0D(r), Mul0D(s))
  {
    Mul0DLinear(Add(Add(p, q), r), s);
    Mul0DLinear(Add(p, q), r);
    Mul0DLinear(p, q);
    SplitFour(Mul0D(Sum4(p, q, r, s)), Mul0D(Add(Add(p, q), r)), Mul0D(Add(p, q)), Mul0D(p), Mul0D(q), Mul0D(r), Mul0D(s));
  }

  /** `mul_by_0e` applied to a sum of four bytes. */
  lemma Mul0ESpread(p: bv8, q: bv8, r: bv8, s: bv8)
    ensures Mul0E(Sum4(p, q, r, s)) == Sum4(Mul0E(p), Mul0E(q), Mul0E(r), Mul0E(s))
  {
    Mul0ELinear(Add(Add(p, q), r), s);
    Mul0ELinear(Add(p, q), r);
    Mul0ELinear(p, q);
    SplitFour(Mul0E(Sum4(p, q, r, s)), Mul0E(Add(Add(p, q), r)), Mul0E(Add(p, q)), Mul0E(p), Mul0E(q), Mul0E(r), Mul0E(s));
  }

  /** InvMixColumns after MixColumns, row 0: the products of row 0 of the outer matrix with each
      column of the inner one, applied to one byte. */
  lemma InvMixAfterMixRow0(x: bv8)
    ensures Sum4(Mul0E(Mul02(x)), Mul0B(x), Mul0D(x), Mul09(Mul03(x))) == x
    ensures Sum4(Mul0E(Mul03(x)), Mul0B(Mul02(x)), Mul0D(x), Mul09(x)) == 0
    ensures Sum4(Mul0E(x), Mul0B(Mul03(x)), Mul0D(Mul02(x)), Mul09(x)) == 0
    ensures Sum4(Mul0E(x), Mul0B(x), Mul0D(Mul03(x)), Mul09(Mul02(x))) == 0
  {
  }

  /** InvMixColumns after MixColumns, row 1: the products of row 1 of the outer matrix with each
      column of the inner one, applied to one byte. */
  lemma InvMixAfterMixRow1(x: bv8)
    ensures Sum4(Mul09(Mul02(x)), Mul0E(x), Mul0B(x), Mul0D(Mul03(x))) == 0
    ensures Sum4(Mul09(Mul03(x)), Mul0E(Mul02(x)), Mul0B(x), Mul0D(x)) == x
    ensures Sum4(Mul09(x), Mul0E(Mul03(x)), Mul0B(Mul02(x)), Mul0D(x)) == 0
    ensures Sum4(Mul09(x), Mul0E(x), Mul0B(Mul03(x)), Mul0D(Mul02(x))) == 0
  {
  }

  /** InvMixColumns after MixColumns, row 2: the products of row 2 of the outer matrix with each
      column of the inner one, applied to one byte. */
  lemma InvMixAfterMixRow2(x: bv8)
    ensures Sum4(Mul0D(Mul02(x)), Mul09(x), Mul0E(x), Mul0B(Mul03(x))) == 0
    ensures Sum4(Mul0D(Mul03(x)), Mul09(Mul02(x)), Mul0E(x), Mul0B(x)) == 0
    ensures Sum4(Mul0D(x), Mul09(Mul03(x)), Mul0E(Mul02(x)), Mul0B(x)) == x
    ensures Sum4(Mul0D(x), Mul09(x), Mul0E(Mul03(x)), Mul0B(Mul02(x))) == 0
  {
  }

  /** InvMixColumns after MixColumns, row 3: the products of row 3 of the outer matrix with each
      column of the inner one, applied to one byte. */
  lemma InvMixAfterMixRow3(x: bv8)
    ensures Sum4(Mul0B(Mul02(x)), Mul0D(x), Mul09(x), Mul0E(Mul03(x))) == 0
    ensures Sum4(Mul0B(Mul03(x)), Mul0D(Mul02(x)), Mul09(x), Mul0E(x)) == 0
    ensures Sum4(Mul0B(x), Mul0D(Mul03(x)), Mul09(Mul02(x)), Mul0E(x)) == 0
    ensures Sum4(Mul0B(x), Mul0D(x), Mul09(Mul03(x)), Mul0E(Mul02(x))) == x
  {
  }

  /** MixColumns after InvMixColumns, row 0: the products of row 0 of the outer matrix with each
      column of the inner one, applied to one byte. */
  lemma MixAfterInvMixRow0(x: bv8)
    ensures Sum4(Mul02(Mul0E(x)), Mul03(Mul09(x)), Mul0D(x), Mul0B(x)) == x
    ensures Sum4(Mul02(Mul0B(x)), Mul03(Mul0E(x)), Mul09(x), Mul0D(x)) == 0
    ensures Sum4(Mul02(Mul0D(x)), Mul03(Mul0B(x)), Mul0E(x), Mul09(x)) == 0
    ensures Sum4(Mul02(Mul09(x)), Mul03(Mul0D(x)), Mul0B(x), Mul0E(x)) == 0
  {
  }

  /** MixColumns after InvMixColumns, row 1: the products of row 1 of the outer matrix with each
      column of the inner one, applied to one byte. */
  lemma MixAfterInvMixRow1(x: bv8)
    ensures Sum4(Mul0E(x), Mul02(Mul09(x)), Mul03(Mul0D(x)), Mul0B(x)) == 0
    ensures Sum4(Mul0B(x), Mul02(Mul0E(x)), Mul03(Mul09(x)), Mul0D(x)) == x
    ensures Sum4(Mul0D(x), Mul02(Mul0B(x)), Mul03(Mul0E(x)), Mul09(x)) == 0
    ensures Sum4(Mul09(x), Mul02(Mul0D(x)), Mul03(Mul0B(x)), Mul0E(x)) == 0
  {
  }

  /** MixColumns after InvMixColumns, row 2: the products of row 2 of the outer matrix with each
      column of the inner one, applied to one byte. */
  lemma MixAfterInvMixRow2(x: bv8)
    ensures Sum4(Mul0E(x), Mul09(x), Mul02(Mul0D(x)), Mul03(Mul0B(x))) == 0
    ensures Sum4(Mul0B(x), Mul0E(x), Mul02(Mul09(x)), Mul03(Mul0D(x))) == 0
    ensures Sum4(Mul0D(x), Mul0B(x), Mul02(Mul0E(x)), Mul03(Mul09(x))) == x
    ensures Sum4(Mul09(x), Mul0D(x), Mul02(Mul0B(x)), Mul03(Mul0E(x))) == 0
  {
  }

  /** MixColumns after InvMixColumns, row 3: the products of row 3 of the outer matrix with each
      column of the inner one, applied to one byte. */
  lemma MixAfterInvMixRow3(x: bv8)
    ensures Sum4(Mul03(Mul0E(x)), Mul09(x), Mul0D(x), Mul02(Mul0B(x))) == 0
    ensures Sum4(Mul03(Mul0B(x)), Mul0E(x), Mul09(x), Mul02(Mul0D(x))) == 0
    ensures Sum4(Mul03(Mul0D(x)), Mul0B(x), Mul0E(x), Mul02(Mul09(x))) == 0
    ensures Sum4(Mul03(Mul09(x)), Mul0D(x), Mul0B(x), Mul02(Mul0E(x))) == x
  {
  }

  /** Field addition is associative. */
  lemma AddAssoc(a: bv8, b: bv8, c: bv8)
    ensures Add(Add(a, b), c) == Add(a, Add(b, c))
  {
  }

  /** Exchanges the middle terms of a sum of two sums. */
  lemma Interchange(a: bv8, b: bv8, c: bv8, d: bv8)
    ensures Add(Add(a, b), Add(c, d)) == Add(Add(a, c), Add(b, d))
  {
    AddAssoc(a, b, Add(c, d));
    AddAssoc(b, c, d);
    AddSwap(b, c);
    AddAssoc(c, b, d);
    AddAssoc(a, c, Add(b, d));
  }

  /** Adds two four-term sums position by position. */
  lemma AddSums(a: bv8, b: bv8, c: bv8, d: bv8, e: bv8, f: bv8, g: bv8, h: bv8)
    ensures Add(Sum4(a, b, c, d), Sum4(e, f, g, h)) == Sum4(Add(a, e), Add(b, f), Add(c, g), Add(d, h))
  {
    Interchange(Add(Add(a, b), c), d, Add(Add(e, f), g), h);
    Interchange(Add(a, b), c, Add(e, f), g);
    Interchange(a, b, e, f);
  }

  /** Collects a sum of four four-term sums by position: the sum of the
      j-th terms of the four inner sums is t_j. */
  lemma Collect(o: bv8, y0: bv8, y1: bv8, y2: bv8, y3: bv8,
                z00: bv8, z01: bv8, z02: bv8, z03: bv8, z10: bv8, z11: bv8, z12: bv8, z13: bv8,
                z20: bv8, z21: bv8, z22: bv8, z23: bv8, z30: bv8, z31: bv8, z32: bv8, z33: bv8,
                t0: bv8, t1: bv8, t2: bv8, t3: bv8)
    requires o == Sum4(y0, y1, y2, y3)
    requires y0 == Sum4(z00, z01, z02, z03) && y1 == Sum4(z10, z11, z12, z13)
    requires y2 == Sum4(z20, z21, z22, z23) && y3 == Sum4(z30, z31, z32, z33)
    requires Sum4(z00, z10, z20, z30) == t0 && Sum4(z01, z11, z21, z31) == t1
    requires Sum4(z02, z12, z22, z32) == t2 && Sum4(z03, z13, z23, z33) == t3
    ensures o == Sum4(t0, t1, t2, t3)
  {
    AddSums(z00, z01, z02, z03, z10, z11, z12, z13);
    AddSums(Add(z00, z10), Add(z01, z11), Add(z02, z12), Add(z03, z13), z20, z21, z22, z23);
    AddSums(Add(Add(z00, z10), z20), Add(Add(z01, z11), z21), Add(Add(z02, z12), z22), Add(Add(z03, z13), z23),
      z30, z31, z32, z33);
  }
}
