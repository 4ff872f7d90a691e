/** Unsigned words as naturals: the bitwise operators the queue uses, why its masks are moduli,
    and ceil_to_pow_2. */
module Bits {

  function Pow2(n: nat): (p: nat)
    ensures p > 0
  {
    if n == 0 then 1 else 2 * Pow2(n - 1)
  }

  function And(x: nat, y: nat): nat {
    if x == 0 || y == 0 then 0 else 2 * And(x / 2, y / 2) + (if x % 2 == 1 && y % 2 == 1 then 1 else 0)
  }

  function Or(x: nat, y: nat): nat
    decreases x + y
  {
    if x == 0 then y else if y == 0 then x
    else 2 * Or(x / 2, y / 2) + (if x % 2 == 1 || y % 2 == 1 then 1 else 0)
  }

  function ShiftRight(x: nat, n: nat): nat { if n == 0 then x else ShiftRight(x / 2, n - 1) }

  ghost predicate IsPow2(x: nat) { exists n: nat :: x == Pow2(n) }

  // ----- x & (p - 1) is x % p for a power of two p

  lemma {:induction false} MaskIsMod(x: nat, n: nat)
    ensures And(x, Pow2(n) - 1) == x % Pow2(n)
  {
    if n > 0 {
      MaskIsMod(x / 2, n - 1);
      MaskStep(x, Pow2(n - 1));
    }
  }

  lemma {:induction false} Pow2Divides(n: nat, w: nat) returns (k: nat)
    requires n <= w
    ensures Pow2(w) == Pow2(n) * k
  {
    if n == w {
      k := 1;
    } else {
      k := Pow2Divides(n, w - 1);
      k := 2 * k;
    }
  }

  /** A mask also reduces a difference that has wrapped below zero in a word of w bits. */
  lemma WrappedMaskIsMod(x: int, n: nat, w: nat)
    requires n <= w
    ensures And(x % Pow2(w), Pow2(n) - 1) == x % Pow2(n)
  {
    var k := Pow2Divides(n, w);
    MaskIsMod(x % Pow2(w), n);
    ModOfMultiple(x, Pow2(n), k);
  }

  lemma ModOfMultiple(x: int, a: nat, b: nat)
    requires a > 0 && b > 0
    ensures (x % (a * b)) % a == x % a
  {
    var q, r := x / (a * b), x % (a * b);
    assert x == (a * b) * q + r;
    assert x == a * (b * q + r / a) + r % a by {
      assert r == a * (r / a) + r % a;
      assert (a * b) * q == a * (b * q);
      assert a * (b * q + r / a) == a * (b * q) + a * (r / a);
    }
    ModUnique(x, a, b * q + r / a, r % a);
  }

  lemma MaskStep(x: nat, p: nat)
    requires p > 0 && And(x / 2, p - 1) == (x / 2) % p
    ensures And(x, 2 * p - 1) == x % (2 * p)
  {
    HalfMod(x, p);
    if x > 0 {
      AndStep(x, p);
    }
  }

  lemma AndStep(x: nat, p: nat)
    requires x > 0 && p > 0
    ensures And(x, 2 * p - 1) == 2 * And(x / 2, p - 1) + x % 2
  {
    assert (2 * p - 1) / 2 == p - 1 && (2 * p - 1) % 2 == 1;
  }

  lemma HalfMod(x: nat, p: nat)
    requires p > 0
    ensures x % (2 * p) == 2 * ((x / 2) % p) + x % 2
  {
    var q, r := (x / 2) / p, (x / 2) % p;
    assert x / 2 == q * p + r;
    assert x == 2 * (q * p + r) + x % 2;
    assert x == (2 * p) * q + (2 * r + x % 2) by { MulSwap(q, p); }
    ModUnique(x, 2 * p, q, 2 * r + x % 2);
  }

  lemma MulSwap(q: nat, p: nat)
    ensures 2 * (q * p) == (2 * p) * q
  {
  }

  lemma ModUnique(x: int, m: int, q: int, r: int)
    requires m > 0 && 0 <= r < m && x == m * q + r
    ensures x % m == r && x / m == q
  {
    var q', r' := x / m, x % m;
    assert x == m * q' + r';
    if q' < q { MulLe(m, q' + 1, q); }
    if q < q' { MulLe(m, q + 1, q'); }
  }

  lemma MulLe(m: int, a: int, b: int)
    requires m >= 0 && a <= b
    ensures m * a <= m * b
  {
  }

  // ----- ceil_to_pow_2

  /** A word of `len` bits whose top `w` bits are ones (all of them, when w >= len). */
  predicate TopOnes(y: nat, len: nat, w: nat) {
    Pow2(len) - Pow2(if w < len then len - w else 0) <= y < Pow2(len)
  }

  lemma OrHalf(x: nat, y: nat)
    ensures Or(x, y) == 2 * Or(x / 2, y / 2) + (if x % 2 == 1 || y % 2 == 1 then 1 else 0)
  {
  }

  lemma {:induction false} ShiftHalf(y: nat, w: nat)
    ensures ShiftRight(y, w) / 2 == ShiftRight(y / 2, w)
  {
    if w > 0 { ShiftHalf(y / 2, w - 1); }
  }

  lemma {:induction false} ShiftOut(y: nat, w: nat)
    requires y < Pow2(w)
    ensures ShiftRight(y, w) == 0
  {
    if w > 0 { ShiftOut(y / 2, w - 1); }
  }

  /** Shifting out the `c` free low bits leaves only ones. */
  lemma {:induction false} ShiftToOnes(y: nat, len: nat, c: nat, n: nat)
    requires c <= n <= len && Pow2(len) - Pow2(c) <= y < Pow2(len)
    ensures ShiftRight(y, n) == Pow2(len - n) - 1
  {
    if n > 0 { ShiftToOnes(y / 2, len - 1, if c > 0 then c - 1 else 0, n - 1); }
  }

  /** Ones in the `k` free low bits make the word all ones. */
  lemma {:induction false} OrFills(y: nat, len: nat, k: nat)
    requires k <= len && Pow2(len) - Pow2(k) <= y < Pow2(len)
    ensures Or(y, Pow2(k) - 1) == Pow2(len) - 1
  {
    if k > 0 {
      OrHalf(y, Pow2(k) - 1);
      assert (Pow2(k) - 1) / 2 == Pow2(k - 1) - 1;
      OrFills(y / 2, len - 1, k - 1);
    }
  }

  /** One smearing step doubles the run of ones at the top. */
  lemma {:induction false} SmearDoubles(y: nat, len: nat, w: nat)
    requires TopOnes(y, len, w) && w > 0
    ensures TopOnes(Or(y, ShiftRight(y, w)), len, 2 * w)
  {
    if w >= len {
      Pow2Grows(len, w);
      ShiftOut(y, w);
    } else if 2 * w >= len {
      ShiftToOnes(y, len, len - w, w);
      OrFills(y, len, len - w);
    } else {
      SmearDoubles(y / 2, len - 1, w);
      ShiftHalf(y, w);
      OrHalf(y, ShiftRight(y, w));
    }
  }

  lemma {:induction false} Pow2Grows(a: nat, b: nat)
    requires a <= b
    ensures Pow2(a) <= Pow2(b)
    ensures a < b ==> Pow2(a) < Pow2(b)
    decreases b - a
  {
    if a < b { Pow2Grows(a, b - 1); }
  }

  lemma {:induction false} BitLength(y: nat) returns (len: nat)
    requires y > 0
    ensures len > 0 && Pow2(len - 1) <= y < Pow2(len)
  {
    if y == 1 {
      len := 1;
    } else {
      var half := BitLength(y / 2);
      len := half + 1;
    }
  }

  lemma LengthFits(y: nat, len: nat, bits: nat)
    requires len > 0 && Pow2(len - 1) <= y < Pow2(bits)
    ensures len <= bits
  {
    if bits < len { Pow2Grows(bits, len - 1); }
  }

  ghost predicate LeastPow2AtLeast(r: nat, x: nat) {
    IsPow2(r) && x <= r && forall k: nat :: x <= Pow2(k) ==> r <= Pow2(k)
  }

  lemma ResultIsLeast(x: nat, len: nat)
    requires x >= 1
    requires if x == 1 then len == 0 else len > 0 && Pow2(len - 1) <= x - 1 < Pow2(len)
    ensures LeastPow2AtLeast(Pow2(len), x)
  {
    forall k: nat | x <= Pow2(k) ensures Pow2(len) <= Pow2(k) {
      if len > 0 && k < len { Pow2Grows(k, len - 1); } else { Pow2Grows(len, k); }
    }
  }

  /** ceil_to_pow_2 on an unsigned type of `bytes` bytes: the least power of two that is at least x,
      exactly for the x whose answer the type can hold; for every other x the result wraps to 0. */
  method CeilToPow2(x: nat, bytes: nat) returns (r: nat)
    requires bytes >= 1 && x < Pow2(8 * bytes)
    ensures 1 <= x <= Pow2(8 * bytes - 1) <==> LeastPow2AtLeast(r, x)
    ensures !(1 <= x <= Pow2(8 * bytes - 1)) ==> r == 0
  {
    var modulus := Pow2(8 * bytes);
    var y: nat := if x == 0 then modulus - 1 else x - 1;
    ghost var y0: nat, len: nat := y, 0;
    if y > 0 {
      len := BitLength(y);
      LengthFits(y, len, 8 * bytes);
      if len < 8 * bytes { Pow2Grows(len, 8 * bytes); }
    }
    y := Or(y, ShiftRight(y, 1));
    if y0 > 0 { SmearDoubles(y0, len, 1); } else { ShiftOut(0, 1); }
    ghost var y1 := y;
    y := Or(y, ShiftRight(y, 2));
    if y0 > 0 { SmearDoubles(y1, len, 2); } else { ShiftOut(0, 2); }
    ghost var y2 := y;
    y := Or(y, ShiftRight(y, 4));
    if y0 > 0 { SmearDoubles(y2, len, 4); } else { ShiftOut(0, 4); }
    var i := 1;
    while i < bytes
      invariant i >= 1
      invariant if y0 > 0 then TopOnes(y, len, 8 * i) else y == 0
    {
      if y0 > 0 { SmearDoubles(y, len, 8 * i); } else { ShiftOut(0, 8 * i); }
      y := Or(y, ShiftRight(y, 8 * i));
      i := 2 * i;
    }
    assert y + 1 == Pow2(len);
    CeilOutcome(x, len, 8 * bytes);
    r := if y + 1 == modulus then 0 else y + 1;
  }

  lemma CeilOutcome(x: nat, len: nat, bits: nat)
    requires bits >= 1 && x < Pow2(bits) && len <= bits
    requires x == 0 ==> len == bits
    requires x == 1 ==> len == 0
    requires x > 1 ==> len > 0 && Pow2(len - 1) <= x - 1 < Pow2(len)
    ensures 1 <= x <= Pow2(bits - 1) <==> Pow2(len) != Pow2(bits)
    ensures 1 <= x <= Pow2(bits - 1) ==> LeastPow2AtLeast(Pow2(len), x)
    ensures !(1 <= x <= Pow2(bits - 1)) ==> !LeastPow2AtLeast(0, x)
  {
    assert forall k: nat :: Pow2(k) > 0;
    if len < bits { Pow2Grows(len, bits - 1); Pow2Grows(len, bits); }
    if x >= 1 { ResultIsLeast(x, len); }
  }
}
