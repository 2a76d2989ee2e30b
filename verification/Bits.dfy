/** Natural numbers read as bit strings, the way the C++ and JavaScript sources use
    `unsigned` values: `Bit(x, k)` is `(x >> k) & 1` and `SetBit(x, k)` is `x | (1 << k)`. */
module Bits {

  function Pow2(k: nat): (p: nat)
    ensures p > 0
  {
    if k == 0 then 1 else 2 * Pow2(k - 1)
  }

  predicate Bit(x: nat, k: nat) {
    if k == 0 then x % 2 == 1 else Bit(x / 2, k - 1)
  }

  function SetBit(x: nat, k: nat): (r: nat)
    ensures x <= r
  {
    if k == 0 then x / 2 * 2 + 1 else SetBit(x / 2, k - 1) * 2 + x % 2
  }

  /** Setting one bit makes that bit one and leaves every other bit as it was. */
  lemma {:induction false} SetBitBits(x: nat, k: nat, j: nat)
    ensures Bit(SetBit(x, k), j) <==> j == k || Bit(x, j)
  {
    var r := SetBit(x, k);
    if k == 0 {
      assert r / 2 == x / 2;
    } else {
      assert r / 2 == SetBit(x / 2, k - 1) && r % 2 == x % 2;
      if j > 0 {
        SetBitBits(x / 2, k - 1, j - 1);
      }
    }
  }

  /** `if (c) v |= 1 << k`. */
  function OrBit(v: nat, c: bool, k: nat): nat { if c then SetBit(v, k) else v }

  lemma OrBitBits(v: nat, c: bool, k: nat, j: nat)
    ensures Bit(OrBit(v, c, k), j) <==> (c && j == k) || Bit(v, j)
  {
    SetBitBits(v, k, j);
  }

  lemma {:induction false} SetBitBound(x: nat, k: nat, n: nat)
    requires x < Pow2(n) && k < n
    ensures SetBit(x, k) < Pow2(n)
  {
    var half := Pow2(n - 1);
    assert Pow2(n) == 2 * half;
    if k == 0 {
      assert SetBit(x, k) == x / 2 * 2 + 1;
      hide Pow2, SetBit;
    } else {
      assert SetBit(x, k) == SetBit(x / 2, k - 1) * 2 + x % 2;
      hide Pow2, SetBit;
      SetBitBound(x / 2, k - 1, n - 1);
    }
  }

  lemma {:induction false} ZeroBits(k: nat)
    ensures !Bit(0, k)
  {
    if k > 0 {
      ZeroBits(k - 1);
    }
  }

  /** Numbers with the same bits are equal. */
  lemma {:induction false} SameBits(x: nat, y: nat)
    requires forall k: nat :: Bit(x, k) == Bit(y, k)
    ensures x == y
    decreases x + y
  {
    if x + y > 0 {
      assert Bit(x, 0) == Bit(y, 0);
      forall k: nat ensures Bit(x / 2, k) == Bit(y / 2, k) {
        assert Bit(x, k + 1) == Bit(y, k + 1);
      }
      SameBits(x / 2, y / 2);
    }
  }

  /** The number whose bit k is v[k]. */
  function Number(v: seq<bool>): (n: nat) {
    if v == [] then 0 else (if v[0] then 1 else 0) + 2 * Number(v[1..])
  }

  lemma {:induction false} NumberBound(v: seq<bool>)
    ensures Number(v) < Pow2(|v|)
  {
    if v != [] {
      NumberBound(v[1..]);
    }
  }

  lemma {:induction false} NumberBits(v: seq<bool>, k: nat)
    ensures Bit(Number(v), k) <==> k < |v| && v[k]
  {
    if v == [] {
      ZeroBits(k);
    } else {
      assert Number(v) / 2 == Number(v[1..]);
      if k > 0 {
        NumberBits(v[1..], k - 1);
      }
    }
  }

  /** A number below 2^n is the number of the vector of its n low bits. */
  lemma {:induction false} NumberFromBits(x: nat, v: seq<bool>)
    requires forall k: nat :: Bit(x, k) <==> k < |v| && v[k]
    ensures x == Number(v)
  {
    forall k: nat ensures Bit(x, k) == Bit(Number(v), k) {
      NumberBits(v, k);
    }
    SameBits(x, Number(v));
  }

  /** `x & (2^n - 1)`: the n low bits. */
  function Low(x: nat, n: nat): (r: nat)
    ensures r < Pow2(n)
  {
    if n == 0 then 0 else x % 2 + 2 * Low(x / 2, n - 1)
  }

  lemma LowStep(x: nat, n: nat)
    requires n > 0
    ensures Low(x, n) / 2 == Low(x / 2, n - 1) && Low(x, n) % 2 == x % 2
  {
    hide Pow2;
  }

  lemma {:induction false} LowBits(x: nat, n: nat, k: nat)
    ensures Bit(Low(x, n), k) <==> k < n && Bit(x, k)
  {
    if n == 0 {
      ZeroBits(k);
    } else {
      LowStep(x, n);
      hide Low;
      if k > 0 { LowBits(x / 2, n - 1, k - 1); }
    }
  }

  /** `x >> n`. */
  function Shr(x: nat, n: nat): nat {
    if n == 0 then x else Shr(x / 2, n - 1)
  }

  lemma {:induction false} ShrBits(x: nat, n: nat, k: nat)
    ensures Bit(Shr(x, n), k) == Bit(x, n + k)
  {
    if n > 0 {
      ShrBits(x / 2, n - 1, k);
    }
  }

  /** `x << n`, unbounded. */
  function Shl(x: nat, n: nat): nat {
    if n == 0 then x else 2 * Shl(x, n - 1)
  }

  lemma {:induction false} ShlSum(x: nat, y: nat, n: nat)
    ensures Shl(x + y, n) == Shl(x, n) + Shl(y, n)
  {
    if n > 0 {
      ShlSum(x, y, n - 1);
    }
  }

  lemma {:induction false} ShlShl(x: nat, m: nat, n: nat)
    ensures Shl(Shl(x, m), n) == Shl(x, m + n)
  {
    if n > 0 {
      ShlShl(x, m, n - 1);
    }
  }

  /** Bit strings side by side: the second counts from where the first ends. */
  lemma {:induction false} NumberJoin(a: seq<bool>, b: seq<bool>)
    ensures Number(a + b) == Number(a) + Shl(Number(b), |a|)
  {
    if a == [] {
      assert a + b == b;
    } else {
      assert (a + b)[1..] == a[1..] + b;
      NumberJoin(a[1..], b);
    }
  }

  /** The n low bits of x, least significant first. */
  function BitString(x: nat, n: nat): (v: seq<bool>)
    ensures |v| == n
  {
    seq(n, k requires 0 <= k < n => Bit(x, k))
  }
}
