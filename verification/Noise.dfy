/**
 The xorshift noise that fills the test image (e2e/images.e2e.ts:430-439). Words are 32-bit patterns: the source's
 signed view of them changes neither the shifts and exclusive-ors nor the bytes it takes.
 */
module Noise {
  const SEED: bv32 := 0x12345678

  // Each exclusive-or with a shifted self, and the sum of iterated shifts that undoes it. The equations are also
  // stated as predicates, so that no proof has to nest one shift in another.

  function Left13(x: bv32): bv32 {
    x ^ (x << 13)
  }

  function Unleft13(y: bv32): bv32 {
    y ^ (y << 13) ^ (y << 26)
  }

  predicate IsLeft13(x: bv32, y: bv32) {
    y == x ^ (x << 13)
  }

  predicate IsUnleft13(y: bv32, x: bv32) {
    x == y ^ (y << 13) ^ (y << 26)
  }

  lemma Left13Is(x: bv32, y: bv32)
    ensures Left13(x) == x ^ (x << 13) && (IsLeft13(x, y) ==> y == Left13(x))
  {
  }

  lemma Unleft13Is(y: bv32, x: bv32)
    ensures Unleft13(y) == y ^ (y << 13) ^ (y << 26) && (IsUnleft13(y, x) ==> x == Unleft13(y))
  {
  }

  lemma Left13Solved(x: bv32)
    ensures IsUnleft13(x ^ (x << 13), x)
  {
  }

  lemma Unleft13Solved(y: bv32)
    ensures IsLeft13(y ^ (y << 13) ^ (y << 26), y)
  {
  }

  lemma Left13Inverse(x: bv32)
    ensures Unleft13(Left13(x)) == x && Left13(Unleft13(x)) == x
  {
    hide Left13, Unleft13, IsLeft13, IsUnleft13;
    Left13Is(x, x);
    Left13Solved(x);
    Unleft13Is(Left13(x), x);
    Unleft13Is(x, x);
    Unleft13Solved(x);
    Left13Is(Unleft13(x), x);
  }

  function Left5(x: bv32): bv32 {
    x ^ (x << 5)
  }

  function Unleft5(y: bv32): bv32 {
    y ^ (y << 5) ^ (y << 10) ^ (y << 15) ^ (y << 20) ^ (y << 25) ^ (y << 30)
  }

  predicate IsLeft5(x: bv32, y: bv32) {
    y == x ^ (x << 5)
  }

  predicate IsUnleft5(y: bv32, x: bv32) {
    x == y ^ (y << 5) ^ (y << 10) ^ (y << 15) ^ (y << 20) ^ (y << 25) ^ (y << 30)
  }

  lemma Left5Is(x: bv32, y: bv32)
    ensures Left5(x) == x ^ (x << 5) && (IsLeft5(x, y) ==> y == Left5(x))
  {
  }

  lemma Unleft5Is(y: bv32, x: bv32)
    ensures Unleft5(y) == y ^ (y << 5) ^ (y << 10) ^ (y << 15) ^ (y << 20) ^ (y << 25) ^ (y << 30) && (IsUnleft5(y, x) ==> x == Unleft5(y))
  {
  }

  lemma Left5Solved(x: bv32)
    ensures IsUnleft5(x ^ (x << 5), x)
  {
  }

  lemma Unleft5Solved(y: bv32)
    ensures IsLeft5(y ^ (y << 5) ^ (y << 10) ^ (y << 15) ^ (y << 20) ^ (y << 25) ^ (y << 30), y)
  {
  }

  lemma Left5Inverse(x: bv32)
    ensures Unleft5(Left5(x)) == x && Left5(Unleft5(x)) == x
  {
    hide Left5, Unleft5, IsLeft5, IsUnleft5;
    Left5Is(x, x);
    Left5Solved(x);
    Unleft5Is(Left5(x), x);
    Unleft5Is(x, x);
    Unleft5Solved(x);
    Left5Is(Unleft5(x), x);
  }

  function Right17(x: bv32): bv32 {
    x ^ (x >> 17)
  }

  predicate IsRight17(x: bv32, y: bv32) {
    y == x ^ (x >> 17)
  }

  lemma Right17Is(x: bv32, y: bv32)
    ensures Right17(x) == x ^ (x >> 17) && (IsRight17(x, y) ==> y == Right17(x))
  {
  }

  lemma Right17Solved(x: bv32)
    ensures IsRight17(x ^ (x >> 17), x)
  {
  }

  lemma Right17Inverse(x: bv32)
    ensures Right17(Right17(x)) == x
  {
    hide Right17, IsRight17;
    Right17Is(x, x);
    Right17Solved(x);
    Right17Is(Right17(x), x);
  }

  /** One turn of the generator. */
  function Mix(x: bv32): bv32 {
    Left5(Right17(Left13(x)))
  }

  /** The turn back. */
  function Unmix(y: bv32): bv32 {
    Unleft13(Right17(Unleft5(y)))
  }

  lemma MixZero()
    ensures Mix(0) == 0
  {
    hide Left13, Right17, Left5;
    Left13Zero();
    Right17Zero();
    Left5Zero();
  }

  lemma Left13Zero()
    ensures Left13(0) == 0
  {
  }

  lemma Right17Zero()
    ensures Right17(0) == 0
  {
  }

  lemma Left5Zero()
    ensures Left5(0) == 0
  {
  }

  lemma Undone(x: bv32)
    ensures Unmix(Mix(x)) == x
  {
    hide Left13, Right17, Left5, Unleft13, Unleft5;
    Left13Inverse(x);
    Right17Inverse(Left13(x));
    Left5Inverse(Right17(Left13(x)));
  }

  lemma Redone(y: bv32)
    ensures Mix(Unmix(y)) == y
  {
    hide Left13, Right17, Left5, Unleft13, Unleft5;
    Left5Inverse(y);
    Right17Inverse(Unleft5(y));
    Left13Inverse(Right17(Unleft5(y)));
  }

  /** The step is a bijection, with Unmix its inverse, and fixes 0 only among the words it takes to 0. */
  lemma MixBijective(x: bv32)
    ensures Unmix(Mix(x)) == x && Mix(Unmix(x)) == x && (Mix(x) == 0 <==> x == 0)
  {
    hide Mix, Unmix;
    Undone(x);
    Redone(x);
    MixZero();
    Undone(0);
  }

  // --- The stream of seeds ---------------------------------------------------------------

  function Iterate(x: bv32, n: nat): bv32 {
    if n == 0 then x else Mix(Iterate(x, n - 1))
  }

  lemma {:induction false} IterateAdd(x: bv32, m: nat, n: nat)
    ensures Iterate(x, m + n) == Iterate(Iterate(x, m), n)
  {
    hide Mix;
    if n > 0 { IterateAdd(x, m, n - 1); }
  }

  lemma {:induction false} IterateInjective(x: bv32, y: bv32, n: nat)
    requires Iterate(x, n) == Iterate(y, n)
    ensures x == y
  {
    hide Mix, Unmix;
    if n > 0 {
      Undone(Iterate(x, n - 1));
      Undone(Iterate(y, n - 1));
      IterateInjective(x, y, n - 1);
    }
  }

  /** From a nonzero seed no seed is ever zero. */
  lemma {:induction false} NeverZero(x: bv32, n: nat)
    ensures Iterate(x, n) == 0 <==> x == 0
  {
    hide Mix, Unmix;
    if n > 0 {
      NeverZero(x, n - 1);
      MixBijective(Iterate(x, n - 1));
    }
  }

  /** Whenever two seeds of the stream agree, the stream has come back to its start as many steps in as lie between them. */
  lemma PurelyPeriodic(x: bv32, i: nat, j: nat)
    requires i < j && Iterate(x, i) == Iterate(x, j)
    ensures Iterate(x, j - i) == x
  {
    hide Mix, Iterate;
    IterateAdd(x, j - i, i);
    IterateInjective(x, Iterate(x, j - i), i);
  }

  // --- It does come back -----------------------------------------------------------------

  const WORDS: nat := 0x1_0000_0000

  function Value(x: bv32): (n: nat)
    ensures n < WORDS
  {
    x as nat
  }

  lemma ValueBack(x: bv32)
    ensures Value(x) as bv32 == x
  {
  }

  lemma ValueInjective(x: bv32, y: bv32)
    requires Value(x) == Value(y)
    ensures x == y
  {
    hide Value;
    ValueBack(x);
    ValueBack(y);
  }

  ghost function Under(n: nat): (r: set<nat>)
    ensures |r| == n && forall i: nat :: i in r <==> i < n
  {
    if n == 0 then {} else Under(n - 1) + {n - 1}
  }

  lemma {:induction false} SubsetSize(a: set<nat>, b: set<nat>)
    requires a <= b
    ensures |a| <= |b|
  {
    if a != {} {
      var x :| x in a;
      SubsetSize(a - {x}, b - {x});
    }
  }

  ghost function Elements(s: seq<nat>): (r: set<nat>)
    ensures forall x :: x in r <==> x in s
  {
    set x | x in s
  }

  lemma {:induction false} DistinctSize(s: seq<nat>)
    requires forall i, j :: 0 <= i < j < |s| ==> s[i] != s[j]
    ensures |Elements(s)| == |s|
  {
    if s == [] {
      assert Elements(s) == {};
    } else {
      var init, last := s[..|s| - 1], s[|s| - 1];
      DistinctSize(init);
      assert s == init + [last];
      assert Elements(s) == Elements(init) + {last};
    }
  }

  /** Among more than n numbers below n two agree. */
  lemma Pigeonhole(s: seq<nat>, n: nat) returns (i: nat, j: nat)
    requires |s| > n && forall k :: 0 <= k < |s| ==> s[k] < n
    ensures i < j < |s| && s[i] == s[j]
  {
    if !(exists a: nat, b: nat :: a < b < |s| && s[a] == s[b]) {
      DistinctSize(s);
      SubsetSize(Elements(s), Under(n));
      assert false;
    }
    i, j :| i < j < |s| && s[i] == s[j];
  }

  lemma {:induction false} LeastPeriod(x: bv32, k: nat) returns (p: nat)
    requires k > 0 && Iterate(x, k) == x
    ensures 0 < p <= k && Iterate(x, p) == x
    ensures forall i, j :: 0 <= i < j < p ==> Iterate(x, i) != Iterate(x, j)
  {
    hide Mix, Iterate;
    if i: nat, j: nat :| i < j < k && Iterate(x, i) == Iterate(x, j) {
      PurelyPeriodic(x, i, j);
      p := LeastPeriod(x, j - i);
    } else {
      p := k;
    }
  }

  /** From every seed the stream returns to it within 2^32 steps, and nothing repeats before. */
  lemma FirstRepeatIsTheSeed(x: bv32) returns (p: nat)
    ensures 0 < p <= WORDS && Iterate(x, p) == x
    ensures forall i, j :: 0 <= i < j < p ==> Iterate(x, i) != Iterate(x, j)
  {
    hide Mix, Iterate, Value;
    var s := seq(WORDS + 1, i requires 0 <= i <= WORDS => Value(Iterate(x, i)));
    var i, j := Pigeonhole(s, WORDS);
    ValueInjective(Iterate(x, i), Iterate(x, j));
    PurelyPeriodic(x, i, j);
    p := LeastPeriod(x, j - i);
  }

  // --- The image ------------------------------------------------------------------------------

  /** Red, green and blue are the low three bytes of the word; the pixel is opaque. */
  function Pixel(x: bv32): (p: seq<bv32>)
    ensures |p| == 4
  {
    [x & 255, (x >> 8) & 255, (x >> 16) & 255, 255]
  }

  lemma MixValues()
    ensures Mix(0x12345678) == 0x87985aa5 && Mix(0x87985aa5) == 0x155b24a3
  {
  }

  lemma FirstSeeds()
    ensures Iterate(SEED, 1) == 0x87985aa5 && Iterate(SEED, 2) == 0x155b24a3
  {
    hide Mix;
    MixValues();
    assert Iterate(SEED, 0) == SEED;
  }

  /** The image begins with these two pixels. */
  lemma FirstPixels(n: nat)
    requires n >= 2
    ensures Image(SEED, n)[0..4] == [165, 90, 152, 255] && Image(SEED, n)[4..8] == [163, 36, 91, 255]
  {
    FirstSeeds();
    ImageAt(SEED, n, 0);
    ImageAt(SEED, n, 1);
    hide Image, Iterate;
  }

  /** The n pixels that follow the seed x. */
  function Image(x: bv32, n: nat): (image: seq<bv32>)
    ensures |image| == 4 * n
  {
    if n == 0 then [] else Image(x, n - 1) + Pixel(Iterate(x, n))
  }

  /** The loop, for a buffer of whole pixels. */
  method Fill(data: array<bv32>) returns (seed: bv32)
    requires data.Length % 4 == 0
    modifies data
    ensures data[..] == Image(SEED, data.Length / 4) && seed == Iterate(SEED, data.Length / 4)
  {
    hide Left13, Right17, Left5, Pixel;
    seed := SEED;
    var i := 0;
    ghost var n := 0;
    while i < data.Length
      invariant i == 4 * n <= data.Length
      invariant seed == Iterate(SEED, n) && data[..i] == Image(SEED, n)
    {
      seed := ShiftLeft13(seed);
      seed := ShiftRight17(seed);
      seed := ShiftLeft5(seed);
      WritePixel(data, i, seed);
      i, n := i + 4, n + 1;
    }
    assert data[..] == data[..i];
  }

  method ShiftLeft13(x: bv32) returns (seed: bv32)
    ensures seed == Left13(x)
  {
    seed := x ^ (x << 13);
  }

  method ShiftRight17(x: bv32) returns (seed: bv32)
    ensures seed == Right17(x)
  {
    seed := x ^ (x >> 17);
  }

  method ShiftLeft5(x: bv32) returns (seed: bv32)
    ensures seed == Left5(x)
  {
    seed := x ^ (x << 5);
  }

  method WritePixel(data: array<bv32>, i: nat, seed: bv32)
    requires i + 4 <= data.Length
    modifies data
    ensures data[..i] == old(data[..i]) && data[i + 4..] == old(data[i + 4..])
    ensures data[..i + 4] == old(data[..i]) + Pixel(seed)
  {
    data[i] := seed & 255;
    data[i + 1] := (seed >> 8) & 255;
    data[i + 2] := (seed >> 16) & 255;
    data[i + 3] := 255;
  }

  /** Pixel k of the image shows the (k+1)-th seed. */
  lemma {:induction false} ImageAt(x: bv32, n: nat, k: nat)
    requires k < n
    ensures Image(x, n)[4 * k..4 * k + 4] == Pixel(Iterate(x, k + 1))
  {
    hide Mix, Pixel;
    if k < n - 1 {
      ImageAt(x, n - 1, k);
      assert Image(x, n)[4 * k..4 * k + 4] == Image(x, n - 1)[4 * k..4 * k + 4];
    }
  }

  // --- Backwards --------------------------------------------------------------------------------

  function Rewind(y: bv32, n: nat): bv32 {
    if n == 0 then y else Unmix(Rewind(y, n - 1))
  }

  /** The last n pixels read backwards from the final seed y, last pixel first. */
  function Rewound(y: bv32, n: nat): seq<seq<bv32>> {
    seq(n, k requires 0 <= k < n => Pixel(Rewind(y, k)))
  }

  lemma {:induction false} RewindsTo(x: bv32, n: nat, k: nat)
    requires k <= n
    ensures Rewind(Iterate(x, n), k) == Iterate(x, n - k)
  {
    hide Mix, Unmix;
    if k > 0 {
      RewindsTo(x, n, k - 1);
      Undone(Iterate(x, n - k));
    }
  }

  /** Running the inverse back from the final seed shows the image's pixels in reverse and ends at the first seed. */
  lemma RegeneratesReversed(x: bv32, n: nat)
    ensures Rewind(Iterate(x, n), n) == x
    ensures forall k :: 0 <= k < n ==> Rewound(Iterate(x, n), n)[k] == Image(x, n)[4 * (n - 1 - k)..4 * (n - 1 - k) + 4]
  {
    hide Mix, Unmix, Pixel, Rewind, Image;
    RewindsTo(x, n, n);
    assert Iterate(x, 0) == x;
    forall k | 0 <= k < n
      ensures Rewound(Iterate(x, n), n)[k] == Image(x, n)[4 * (n - 1 - k)..4 * (n - 1 - k) + 4]
    {
      RewindsTo(x, n, k);
      ImageAt(x, n, n - 1 - k);
    }
  }
}
