/**
 * Fixed-point helpers of the firmware: a 32-bit integer square root that
 * rounds to the nearest integer, and 16-bit minimum and maximum.
 */
module Math {
  import opened CTypes

  /** The smaller of two values (ties give `y`). */
  function Min(x: uint16, y: uint16): (r: uint16)
    ensures r == x || r == y
    ensures r <= x && r <= y
  {
    if x < y then x else y
  }

  /** The bigger of two values (ties give `y`). */
  function Max(x: uint16, y: uint16): (r: uint16)
    ensures r == x || r == y
    ensures r >= x && r >= y
  {
    if x > y then x else y
  }

  function Pow2(k: nat): (p: nat)
    ensures p >= 1
  {
    if k == 0 then 1 else 2 * Pow2(k - 1)
  }

  lemma Pow2Sixteen()
    ensures Pow2(16) == 0x1_0000
  {
    assert Pow2(4) == 16;
    assert Pow2(8) == 256 by { assert Pow2(6) == 64; }
    assert Pow2(12) == 4096 by { assert Pow2(10) == 1024; }
    assert Pow2(14) == 0x4000;
  }

  /** The integer square root rounded down. */
  function FloorSqrt(x: nat): (s: nat)
    ensures s * s <= x < (s + 1) * (s + 1)
  {
    if x < 4 then (if x == 0 then 0 else 1)
    else
      var u := FloorSqrt(x / 4);
      FloorSqrtStep(x, u);
      var t := 2 * u;
      if (t + 1) * (t + 1) <= x then t + 1 else t
  }

  /** The root of `x / 4`, doubled, is the root of `x` or one below it. */
  lemma FloorSqrtStep(x: nat, u: nat)
    requires u * u <= x / 4 < (u + 1) * (u + 1)
    ensures (2 * u) * (2 * u) <= x < (2 * u + 2) * (2 * u + 2)
  {
    assert (2 * u) * (2 * u) == 4 * (u * u);
    assert (2 * u + 2) * (2 * u + 2) == 4 * ((u + 1) * (u + 1));
    assert x < 4 * (x / 4 + 1);
  }

  lemma {:induction false} SquareMonotonic(a: nat, b: nat)
    requires a <= b
    ensures a * a <= b * b
  {
    assert b * b - a * a == (b - a) * (b + a);
  }

  /** The floor square root is the only `s` with `s*s <= x < (s+1)*(s+1)`. */
  lemma {:induction false} FloorSqrtUnique(x: nat, s: nat)
    requires s * s <= x < (s + 1) * (s + 1)
    ensures s == FloorSqrt(x)
  {
    var f := FloorSqrt(x);
    if s < f {
      SquareMonotonic(s + 1, f);
    } else if f < s {
      SquareMonotonic(f + 1, s);
    }
  }

  /**
   * The integer nearest to the square root of `x`: the floor square root,
   * plus one when the remainder `x - s*s` exceeds `s`.
   */
  function RoundSqrt(x: nat): (r: nat)
  {
    var s := FloorSqrt(x);
    if x - s * s > s then s + 1 else s
  }

  /** `r` is the integer nearest to the real square root of `x` (no ties occur). */
  ghost predicate NearestRoot(x: nat, r: nat)
  {
    x <= r * r + r && (r == 0 || r * r - r < x)
  }

  lemma RoundSqrtIsNearest(x: nat)
    ensures NearestRoot(x, RoundSqrt(x))
  {
    var s := FloorSqrt(x);
    if x - s * s > s {
      assert (s + 1) * (s + 1) == s * s + 2 * s + 1;
    }
  }

  /** Only one integer is nearest to a square root. */
  lemma {:induction false} NearestRootUnique(x: nat, r: nat, r': nat)
    requires NearestRoot(x, r) && NearestRoot(x, r')
    ensures r == r'
  {
    if r < r' {
      OblongStep(r, r');
    } else if r' < r {
      OblongStep(r', r);
    }
  }

  /** Between two distinct roots lies a whole gap: `a*a + a <= b*b - b`. */
  lemma OblongStep(a: nat, b: nat)
    requires a < b
    ensures a * a + a <= b * b - b
  {
    assert b * b - b - (a * a + a) == (b - a - 1) * (b + a);
  }

  /** Perfect squares come back exactly. */
  lemma {:induction false} RoundSqrtOfSquare(k: nat)
    ensures RoundSqrt(k * k) == k
  {
    FloorSqrtUnique(k * k, k);
  }

  /** On 32-bit inputs the rounded root is at most 65536, so `xr + 1` cannot overflow. */
  lemma {:induction false} RoundSqrtBound(x: uint32)
    ensures RoundSqrt(x) <= 0x1_0000
  {
    var s := FloorSqrt(x);
    if s >= 0x1_0000 {
      SquareMonotonic(0x1_0000, s);
    }
  }

  /**
   * The state of the bit-scanning square root before a round: the root bits
   * found so far form `y`, a multiple of `2^k`, twice the bit tried next;
   * `x` is what remains of `x0` after taking away `y*y`; the registers hold
   * `xr == y * 2^k` and `q2 == (2^k)^2 / 4`; and the root lies below `y + 2^k`.
   */
  ghost predicate Scanning(x0: nat, x: nat, xr: nat, q2: nat, y: nat, m: nat, k: nat)
  {
    var d := Pow2(k);
    && k <= 16
    && q2 == d * d / 4
    && y == m * d && y + d <= 0x1_0000
    && xr == y * d
    && x + y * y == x0
    && x0 < (y + d) * (y + d)
  }

  /** Before the first round: nothing found, `q2 == 2^30`. */
  lemma ScanStart(x0: uint32)
    ensures Scanning(x0, x0, 0, 0x4000_0000, 0, 0, 16)
  {
    Pow2Sixteen();
  }

  /**
   * A round with `q2 != 0`: the sum `xr + q2` fits in 32 bits, and either
   * outcome of the test `xr + q2 <= x` leads to the state of the next round.
   */
  lemma ScanNext(x0: nat, x: nat, xr: nat, q2: nat, y: nat, m: nat, k: nat)
    requires Scanning(x0, x, xr, q2, y, m, k) && q2 != 0
    ensures k >= 1 && xr + q2 < 0x1_0000_0000 && xr / 2 + q2 < 0x1_0000_0000
    ensures xr + q2 <= x ==>
      Scanning(x0, x - (xr + q2), xr / 2 + q2, q2 / 4, y + Pow2(k - 1), 2 * m + 1, k - 1)
    ensures xr + q2 > x ==>
      Scanning(x0, x, xr / 2, q2 / 4, y, 2 * m, k - 1)
  {
    var b := Pow2(k - 1);
    assert Pow2(k) == 2 * b;
    ScanRound(x0, x, y, m, b);
    assert b * b / 4 == q2 / 4 by {
      assert q2 == b * b;
    }
  }

  lemma SquareAtLeastFour(d: nat)
    ensures d >= 2 ==> d * d >= 4
  {
    if d >= 2 {
      SquareMonotonic(2, d);
    }
  }

  /** When the scan bit has run out, `xr` is the floor root and `x` the remainder. */
  lemma ScanDone(x0: nat, x: nat, xr: nat, q2: nat, y: nat, m: nat, k: nat)
    requires Scanning(x0, x, xr, q2, y, m, k) && q2 == 0
    ensures k == 0 && xr == FloorSqrt(x0) && x == x0 - xr * xr && xr < 0x1_0000
  {
    SquareAtLeastFour(Pow2(k));
    assert k == 0;
    FloorSqrtUnique(x0, y);
  }

  /**
   * The bit-scanning square root: the scan bit `q2` starts at 2^30 and moves
   * down two places per round, so the loop runs exactly sixteen rounds.
   * The C do-while is a while loop here: its first test, `q2 != 0`, holds.
   */
  method Sqrt(x0: uint32) returns (r: uint32, ghost rounds: nat)
    ensures r == RoundSqrt(x0)
    ensures NearestRoot(x0, r)
    ensures rounds == 16
  {
    var xr: uint32 := 0;
    var q2: uint32 := 0x4000_0000;
    var x: uint32 := x0;
    ghost var y: nat, m: nat, k: nat := 0, 0, 16;
    ScanStart(x0);
    rounds := 0;
    while q2 != 0
      invariant Scanning(x0, x, xr, q2, y, m, k) && rounds == 16 - k
      decreases q2
    {
      ScanNext(x0, x, xr, q2, y, m, k);
      if xr + q2 <= x {
        x := x - (xr + q2);
        xr := xr / 2 + q2;
        y, m := y + Pow2(k - 1), 2 * m + 1;
      } else {
        xr := xr / 2;
        m := 2 * m;
      }
      q2 := q2 / 4;
      k := k - 1;
      rounds := rounds + 1;
    }
    ScanDone(x0, x, xr, q2, y, m, k);
    if xr < x {
      r := xr + 1;
    } else {
      r := xr;
    }
    RoundSqrtIsNearest(x0);
  }

  /**
   * One round of the scan with result bit `b`, partial root `y` (a multiple
   * of `2*b`), remainder `x == x0 - y*y` and registers `xr == y * 2b`,
   * `q2 == b*b`: the test `xr + q2 <= x` does not overflow and holds exactly
   * when bit `b` belongs to the root, and either update restores the loop
   * invariant for the next bit.
   */
  lemma ScanRound(x0: nat, x: nat, y: nat, m: nat, b: nat)
    requires b >= 1 && y == m * (2 * b) && y + 2 * b <= 0x1_0000
    requires x + y * y == x0 && x0 < (y + 2 * b) * (y + 2 * b)
    ensures (2 * b) * (2 * b) / 4 == b * b
    ensures y * (2 * b) + b * b < 0x1_0000_0000
    ensures y * (2 * b) + b * b <= x ==>
      && (x - (y * (2 * b) + b * b)) + (y + b) * (y + b) == x0
      && y * (2 * b) / 2 + b * b == (y + b) * b
      && y + b == (2 * m + 1) * b
    ensures y * (2 * b) + b * b > x ==>
      && x0 < (y + b) * (y + b)
      && y * (2 * b) / 2 == y * b
      && y == (2 * m) * b
  {
    assert (2 * b) * (2 * b) == 4 * (b * b);
    assert y * (2 * b) == 2 * (y * b);
    assert y * (2 * b) + b * b <= 0x1_0000 * (2 * b) by {
      assert y * (2 * b) <= (0x1_0000 - 2 * b) * (2 * b);
    }
    assert 0x1_0000 * (2 * b) <= 0x1_0000 * 0x1_0000;
    assert (y + b) * (y + b) == y * y + y * (2 * b) + b * b;
  }
}
