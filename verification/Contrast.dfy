/**
 Luminance and contrast of colours and of an ordered chain of surfaces (e2e/settings.e2e.ts:364-377, 432-442), over
 exact reals. Raising x to the power 2.4 is stated as its defining equation: y >= 0 and y^5 == x^12.
 */
module Contrast {
  function Pow(x: real, n: nat): real {
    if n == 0 then 1.0 else x * Pow(x, n - 1)
  }

  lemma {:induction false} PowAdd(x: real, m: nat, n: nat)
    ensures Pow(x, m + n) == Pow(x, m) * Pow(x, n)
  {
    if m > 0 { PowAdd(x, m - 1, n); }
  }

  lemma {:induction false} PowSigned(x: real, n: nat)
    requires x >= 0.0
    ensures Pow(x, n) >= 0.0
  {
    if n > 0 { PowSigned(x, n - 1); }
  }

  lemma TimesLess(a: real, b: real, c: real, d: real)
    requires 0.0 <= a < b && 0.0 <= c <= d && 0.0 < d
    ensures a * c < b * d
  {
    assert a * c <= a * d < b * d;
  }

  lemma {:induction false} PowIncreasing(x: real, y: real, n: nat)
    requires 0.0 <= x < y && n > 0
    ensures Pow(x, n) < Pow(y, n)
  {
    if n > 1 {
      PowIncreasing(x, y, n - 1);
      PowSigned(x, n - 1);
      TimesLess(x, y, Pow(x, n - 1), Pow(y, n - 1));
    }
  }

  /** Nonnegative numbers compare as their powers do. */
  lemma PowCompares(x: real, y: real, n: nat)
    requires x >= 0.0 && y >= 0.0 && n > 0
    ensures Pow(x, n) < Pow(y, n) <==> x < y
  {
    hide Pow;
    if x < y { PowIncreasing(x, y, n); } else if y < x { PowIncreasing(y, x, n); }
  }

  // --- Channels ----------------------------------------------------------------------------

  const KNEE := 0.04045

  /** Where the power law starts from, for a normalised channel. */
  function Shifted(c: real): real {
    (c + 0.055) / 1.055
  }

  /** y is the linear value of the channel v. */
  predicate Linear(v: real, y: real) {
    var c := v / 255.0;
    if c <= KNEE then y == c / 12.92 else y >= 0.0 && Pow(y, 5) == Pow(Shifted(c), 12)
  }

  lemma FifthAndTwelfth(x: real)
    ensures var x2 := x * x;
            var x4 := x2 * x2;
            Pow(x, 5) == x4 * x && Pow(x, 12) == x4 * x4 * x4
  {
    PowAdd(x, 1, 1);
    PowAdd(x, 2, 2);
    PowAdd(x, 4, 1);
    PowAdd(x, 4, 4);
    PowAdd(x, 8, 4);
  }

  /** At the knee the power law lies above the straight piece. */
  lemma StepsUpAtKnee()
    ensures Pow(KNEE / 12.92, 5) < Pow(Shifted(KNEE), 12)
  {
    hide Pow;
    var a, b := Shifted(KNEE), KNEE / 12.92;
    var a2, b2 := a * a, b * b;
    var a4, b4 := a2 * a2, b2 * b2;
    assert b4 * b < a4 * a4 * a4;
    FifthAndTwelfth(a);
    FifthAndTwelfth(b);
  }

  /** Linearisation is strictly increasing, within each piece and across the knee. */
  lemma LinearIncreasing(v: real, w: real, y: real, z: real)
    requires 0.0 <= v < w && Linear(v, y) && Linear(w, z)
    ensures 0.0 <= y < z
  {
    hide Pow;
    var c, d := v / 255.0, w / 255.0;
    if d > KNEE {
      var base := if c <= KNEE then KNEE else c;
      PowIncreasing(Shifted(base), Shifted(d), 12);
      if c <= KNEE {
        StepsUpAtKnee();
        PowCompares(KNEE / 12.92, z, 5);
      } else {
        PowCompares(y, z, 5);
      }
    }
  }

  /** A channel has one linear value, from 0 for black to 1 for full. */
  lemma LinearRange(v: real, y: real)
    requires 0.0 <= v <= 255.0 && Linear(v, y)
    ensures 0.0 <= y <= 1.0 && (y == 0.0 <==> v == 0.0) && (y == 1.0 <==> v == 255.0)
  {
    hide Pow;
    FullIsOne();
    assert Linear(0.0, 0.0);
    if v > 0.0 { LinearIncreasing(0.0, v, 0.0, y); }
    if v < 255.0 { LinearIncreasing(v, 255.0, y, 1.0); } else { LinearUnique(255.0, y, 1.0); }
  }

  lemma FullIsOne()
    ensures Linear(255.0, 1.0)
  {
    hide Pow;
    assert Shifted(1.0) == 1.0;
    FifthAndTwelfth(1.0);
  }

  lemma LinearUnique(v: real, y: real, z: real)
    requires v >= 0.0 && Linear(v, y) && Linear(v, z)
    ensures y == z
  {
    hide Pow;
    if v / 255.0 > KNEE {
      PowCompares(y, z, 5);
      PowCompares(z, y, 5);
    }
  }

  /** The linear value where it can be written out: in proportion up to the knee, and above it the twelfth power of what the
      shifted channel is the fifth power of. */
  lemma LinearAt(c: real, t: real)
    ensures 0.0 <= c <= 0.04045 ==> Linear(255.0 * c, c / 12.92)
    ensures t >= 0.0 && 1.055 * Pow(t, 5) - 0.055 > 0.04045 ==> Linear(255.0 * (1.055 * Pow(t, 5) - 0.055), Pow(t, 12))
  {
    hide Pow;
    assert 255.0 * c / 255.0 == c;
    if t >= 0.0 && 1.055 * Pow(t, 5) - 0.055 > 0.04045 {
      var d := 1.055 * Pow(t, 5) - 0.055;
      assert 255.0 * d / 255.0 == d && Shifted(d) == Pow(t, 5);
      PowSigned(t, 12);
      PowPow(t, 5, 12);
      PowPow(t, 12, 5);
    }
  }

  lemma {:induction false} PowPow(x: real, m: nat, n: nat)
    ensures Pow(Pow(x, m), n) == Pow(x, m * n)
  {
    if n > 0 {
      PowPow(x, m, n - 1);
      PowAdd(x, m, m * (n - 1));
      assert m + m * (n - 1) == m * n;
    }
  }

  // --- Luminance -----------------------------------------------------------------------------

  datatype Color = Color(red: real, green: real, blue: real)

  predicate InGamut(c: Color) {
    0.0 <= c.red <= 255.0 && 0.0 <= c.green <= 255.0 && 0.0 <= c.blue <= 255.0
  }

  function Weighted(r: real, g: real, b: real): real {
    0.2126 * r + 0.7152 * g + 0.0722 * b
  }

  /** l is the colour's luminance. */
  ghost predicate Luminance(c: Color, l: real) {
    exists r, g, b :: Linear(c.red, r) && Linear(c.green, g) && Linear(c.blue, b) && l == Weighted(r, g, b)
  }

  /** Luminance lies between black's 0 and white's 1, and reaches them for black and white only. */
  lemma LuminanceRange(c: Color, l: real)
    requires InGamut(c) && Luminance(c, l)
    ensures 0.0 <= l <= 1.0
    ensures (l == 0.0 <==> c == Color(0.0, 0.0, 0.0)) && (l == 1.0 <==> c == Color(255.0, 255.0, 255.0))
  {
    hide Linear;
    var r, g, b :| Linear(c.red, r) && Linear(c.green, g) && Linear(c.blue, b) && l == Weighted(r, g, b);
    LinearRange(c.red, r);
    LinearRange(c.green, g);
    LinearRange(c.blue, b);
  }

  /** The luminances of the three primaries. */
  lemma Primaries()
    ensures Luminance(Color(255.0, 0.0, 0.0), 0.2126) && Luminance(Color(0.0, 255.0, 0.0), 0.7152) && Luminance(Color(0.0, 0.0, 255.0), 0.0722)
  {
    FullIsOne();
    assert Linear(0.0, 0.0);
    hide Linear;
    assert Weighted(1.0, 0.0, 0.0) == 0.2126 && Weighted(0.0, 1.0, 0.0) == 0.7152 && Weighted(0.0, 0.0, 1.0) == 0.0722;
  }

  // --- Contrast --------------------------------------------------------------------------------

  function Ratio(a: real, b: real): real
    requires a >= 0.0 && b >= 0.0
  {
    if a >= b then (a + 0.05) / (b + 0.05) else (b + 0.05) / (a + 0.05)
  }

  lemma Quotient(x: real, y: real, m: real)
    requires 0.0 < y <= x <= m * y && m >= 0.0
    ensures 1.0 <= x / y <= m && (x / y == 1.0 <==> x == y)
  {
    var q := x / y;
    assert x == q * y;
    assert q < 1.0 ==> q * y < 1.0 * y;
    assert q > m ==> q * y > m * y;
  }

  /** The contrast of two luminances is symmetric, lies between 1 and 21, and is 1 exactly when they are equal. */
  lemma RatioRange(a: real, b: real)
    requires 0.0 <= a <= 1.0 && 0.0 <= b <= 1.0
    ensures Ratio(a, b) == Ratio(b, a) && 1.0 <= Ratio(a, b) <= 21.0
    ensures Ratio(a, b) == 1.0 <==> a == b
  {
    if a >= b { Quotient(a + 0.05, b + 0.05, 21.0); } else { Quotient(b + 0.05, a + 0.05, 21.0); }
  }

  // --- A chain of surfaces -----------------------------------------------------------------------

  ghost predicate Steps(ls: seq<real>, least: real) {
    && (forall i :: 0 <= i < |ls| ==> ls[i] >= 0.0)
    && (forall i :: 0 < i < |ls| ==> ls[i - 1] > ls[i] && Ratio(ls[i - 1], ls[i]) >= least)
  }

  /** The loop of the surface check. */
  method CheckChain(ls: seq<real>) returns (ok: bool)
    requires forall i :: 0 <= i < |ls| ==> ls[i] >= 0.0
    ensures ok <==> Steps(ls, 1.05)
  {
    var i := 1;
    while i < |ls|
      invariant 1 <= i && forall k :: 0 < k < i && k < |ls| ==> ls[k - 1] > ls[k] && Ratio(ls[k - 1], ls[k]) >= 1.05
    {
      if !(ls[i - 1] > ls[i]) || !(Ratio(ls[i - 1], ls[i]) >= 1.05) { return false; }
      i := i + 1;
    }
    return true;
  }

  /** Along a darkening chain contrasts multiply. */
  lemma ContrastsMultiply(a: real, b: real, c: real)
    requires a >= b >= c >= 0.0
    ensures Ratio(a, c) == Ratio(a, b) * Ratio(b, c)
  {
    var x, y, z := a + 0.05, b + 0.05, c + 0.05;
    assert x == (x / y) * y && y == (y / z) * z;
    assert (x / y) * (y / z) * z == (x / y) * ((y / z) * z) == x;
  }

  /** Surfaces k apart differ by at least the k-th power of the smallest step. */
  lemma {:induction false} FarSurfaces(ls: seq<real>, least: real, i: nat, k: nat)
    requires Steps(ls, least) && least >= 1.0 && i + k < |ls|
    ensures ls[i] >= ls[i + k] && Ratio(ls[i], ls[i + k]) >= Pow(least, k)
  {
    if k == 0 {
      Quotient(ls[i] + 0.05, ls[i] + 0.05, 1.0);
    } else {
      hide Pow;
      FarSurfaces(ls, least, i, k - 1);
      ContrastsMultiply(ls[i], ls[i + k - 1], ls[i + k]);
      PowSigned(least, k - 1);
      NextPow(least, k, Ratio(ls[i], ls[i + k - 1]), Ratio(ls[i + k - 1], ls[i + k]));
    }
  }

  lemma NextPow(x: real, k: nat, p: real, q: real)
    requires x >= 1.0 && k > 0 && p >= Pow(x, k - 1) >= 0.0 && q >= x
    ensures p * q >= Pow(x, k)
  {
    assert p * q >= p * x >= Pow(x, k - 1) * x;
  }
}
