/**
 * A Java `int` as its 32 bits, least significant first. The bitwise operators
 * the move packing and the packed board use (`~`, `&`, `|`, `<<`, `>>>`) act
 * on the bits one by one, and a word is read as a number by `ToNat`.
 */
module Words {
  const Width: nat := 32

  type Word = w: seq<bool> | |w| == Width witness seq(Width, _ => false)

  function Pow2(n: nat): (r: nat)
    ensures r >= 1
  {
    if n == 0 then 1 else 2 * Pow2(n - 1)
  }

  /** `~`: every bit flipped. */
  function Not(w: Word): (r: Word)
    ensures forall i :: 0 <= i < Width ==> r[i] == !w[i]
  {
    seq(Width, i requires 0 <= i < Width => !w[i])
  }

  /** `&`: a bit is set iff it is set in both. */
  function And(a: Word, b: Word): (r: Word)
    ensures forall i :: 0 <= i < Width ==> r[i] == (a[i] && b[i])
  {
    seq(Width, i requires 0 <= i < Width => a[i] && b[i])
  }

  /** `|`: a bit is set iff it is set in either. */
  function Or(a: Word, b: Word): (r: Word)
    ensures forall i :: 0 <= i < Width ==> r[i] == (a[i] || b[i])
  {
    seq(Width, i requires 0 <= i < Width => a[i] || b[i])
  }

  /** `w << k` for a shift distance below 32: bit i comes from bit i - k, and the low k bits are clear. */
  function ShiftLeft(w: Word, k: nat): (r: Word)
    requires k < Width
    ensures forall i :: 0 <= i < Width ==> r[i] == (k <= i && w[i - k])
  {
    seq(Width, i requires 0 <= i < Width => k <= i && w[i - k])
  }

  /** `w >>> k` for a shift distance below 32: bit i comes from bit i + k, and the top k bits are clear. */
  function ShiftRight(w: Word, k: nat): (r: Word)
    requires k < Width
    ensures forall i :: 0 <= i < Width ==> r[i] == (i + k < Width && w[i + k])
  {
    seq(Width, i requires 0 <= i < Width => i + k < Width && w[i + k])
  }

  /** The lowest `n` bits of `x`, least significant first. */
  function Bits(x: nat, n: nat): (r: seq<bool>)
    ensures |r| == n
  {
    if n == 0 then [] else [x % 2 == 1] + Bits(x / 2, n - 1)
  }

  /** 2^32, the number of distinct `int` values. */
  const Modulus: nat := 0x1_0000_0000

  lemma ModulusIsPow2()
    ensures Pow2(Width) == Modulus
  {
    assert Pow2(8) == 0x100;
    Pow2Shift(8);
    Pow2Shift(16);
    Pow2Shift(24);
  }

  lemma {:induction false} Pow2Shift(n: nat)
    ensures Pow2(n + 8) == 0x100 * Pow2(n)
  {
    assert Pow2(n + 8) == 2 * Pow2(n + 7) == 4 * Pow2(n + 6) == 8 * Pow2(n + 5) == 16 * Pow2(n + 4);
    assert Pow2(n + 4) == 2 * Pow2(n + 3) == 4 * Pow2(n + 2) == 8 * Pow2(n + 1) == 16 * Pow2(n);
  }

  /** A Java `int` literal or value: its two's complement bits. */
  function FromInt(x: int): Word {
    Bits(x % Modulus, Width)
  }

  /** The unsigned number the bits stand for. */
  function ToNat(w: seq<bool>): nat {
    if |w| == 0 then 0 else (if w[0] then 1 else 0) + 2 * ToNat(w[1..])
  }

  /** Bits and ToNat are inverse for a number that fits. */
  lemma {:induction false} ToNatBits(x: nat, n: nat)
    requires x < Pow2(n)
    ensures ToNat(Bits(x, n)) == x
  {
    if n > 0 {
      var b := Bits(x, n);
      assert b[1..] == Bits(x / 2, n - 1);
      ToNatBits(x / 2, n - 1);
    }
  }

  /** A number below 2^k has no bit set at position k or above. */
  lemma {:induction false} BitsAboveClear(x: nat, n: nat, k: nat)
    requires x < Pow2(k)
    ensures forall i :: k <= i < n ==> !Bits(x, n)[i]
  {
    if n > 0 && k > 0 {
      BitsAboveClear(x / 2, n - 1, k - 1);
      assert forall i :: k <= i < n ==> Bits(x, n)[i] == Bits(x / 2, n - 1)[i - 1];
    } else if n > 0 {
      assert x == 0;
      ZeroBits(n);
    }
  }

  lemma {:induction false} ZeroBits(n: nat)
    ensures forall i :: 0 <= i < n ==> !Bits(0, n)[i]
  {
    if n > 0 {
      ZeroBits(n - 1);
      assert forall i :: 1 <= i < n ==> Bits(0, n)[i] == Bits(0, n - 1)[i - 1];
    }
  }

  /** A sequence of bits with nothing set at position k or above stands for a number below 2^k. */
  lemma {:induction false} ToNatBelow(w: seq<bool>, k: nat)
    requires forall i :: k <= i < |w| ==> !w[i]
    ensures ToNat(w) < Pow2(k)
  {
    if |w| > 0 {
      if k == 0 {
        AllClearIsZero(w);
      } else {
        assert forall i :: k - 1 <= i < |w| - 1 ==> !w[1..][i] by {
          forall i | k - 1 <= i < |w| - 1 ensures !w[1..][i] {
            assert w[1..][i] == w[i + 1];
          }
        }
        ToNatBelow(w[1..], k - 1);
      }
    }
  }

  lemma {:induction false} AllClearIsZero(w: seq<bool>)
    requires forall i :: 0 <= i < |w| ==> !w[i]
    ensures ToNat(w) == 0
  {
    if |w| > 0 {
      assert forall i :: 0 <= i < |w| - 1 ==> !w[1..][i] by {
        forall i | 0 <= i < |w| - 1 ensures !w[1..][i] {
          assert w[1..][i] == w[i + 1];
        }
      }
      AllClearIsZero(w[1..]);
    }
  }

  lemma {:induction false} PowMonotone(m: nat, n: nat)
    requires m <= n
    ensures Pow2(m) <= Pow2(n)
  {
    if m < n {
      PowMonotone(m, n - 1);
    }
  }

  /** A small non-negative `int` has the bits of the number, clear from position k up when it is below 2^k. */
  lemma SmallInt(x: nat, k: nat)
    requires k <= Width && x < Pow2(k)
    ensures FromInt(x) == Bits(x, Width)
    ensures ToNat(FromInt(x)) == x
    ensures forall i :: k <= i < Width ==> !FromInt(x)[i]
  {
    PowMonotone(k, Width);
    ModulusIsPow2();
    assert x % Modulus == x;
    ToNatBits(x, Width);
    BitsAboveClear(x, Width, k);
  }

  lemma SmallPowers()
    ensures Pow2(1) == 2 && Pow2(2) == 4 && Pow2(3) == 8 && Pow2(4) == 16 && Pow2(6) == 64
  {
  }

  /** The word of the `int` 0 has no bit set. */
  lemma ZeroWord()
    ensures forall i :: 0 <= i < Width ==> !FromInt(0)[i]
  {
    ZeroBits(Width);
  }

  /** A number whose bits are all clear has no bit set. */
  lemma {:induction false} ZeroMeansClear(w: seq<bool>)
    requires ToNat(w) == 0
    ensures forall i :: 0 <= i < |w| ==> !w[i]
  {
    if |w| > 0 {
      ZeroMeansClear(w[1..]);
      assert forall i :: 1 <= i < |w| ==> w[i] == w[1..][i - 1];
    }
  }

  /** With nothing set at position k or above, only the lowest k bits count. */
  lemma {:induction false} ToNatLow(w: seq<bool>, k: nat)
    requires k <= |w|
    requires forall i :: k <= i < |w| ==> !w[i]
    ensures ToNat(w) == ToNat(w[..k])
  {
    if k == 0 {
      AllClearIsZero(w);
    } else {
      assert forall i :: k - 1 <= i < |w| - 1 ==> !w[1..][i] by {
        forall i | k - 1 <= i < |w| - 1 ensures !w[1..][i] {
          assert w[1..][i] == w[i + 1];
        }
      }
      ToNatLow(w[1..], k - 1);
      assert w[1..][..k - 1] == w[..k][1..];
    }
  }

  /** The first m bits of a number do not depend on how many are taken. */
  lemma {:induction false} BitsPrefix(x: nat, m: nat, n: nat)
    requires m <= n
    ensures forall i :: 0 <= i < m ==> Bits(x, m)[i] == Bits(x, n)[i]
  {
    if m > 0 {
      BitsPrefix(x / 2, m - 1, n - 1);
      assert forall i :: 1 <= i < m ==> Bits(x, m)[i] == Bits(x / 2, m - 1)[i - 1];
      assert forall i :: 1 <= i < n ==> Bits(x, n)[i] == Bits(x / 2, n - 1)[i - 1];
    }
  }

  /** Doubling a number moves its bits up by one. */
  lemma {:induction false} BitsDouble(x: nat, n: nat)
    ensures forall i :: 0 <= i < n ==> Bits(2 * x, n)[i] == (1 <= i && Bits(x, n)[i - 1])
  {
    if n > 0 {
      BitsPrefix(x, n - 1, n);
      assert (2 * x) / 2 == x;
      assert forall i :: 1 <= i < n ==> Bits(2 * x, n)[i] == Bits(x, n - 1)[i - 1];
    }
  }

  /** Multiplying by 2^k moves the bits up by k. */
  lemma {:induction false} BitsScaled(x: nat, k: nat, y: nat, n: nat)
    requires y == x * Pow2(k)
    ensures forall i :: 0 <= i < n ==> Bits(y, n)[i] == (k <= i && Bits(x, n)[i - k])
  {
    if k > 0 {
      var half := x * Pow2(k - 1);
      BitsScaled(x, k - 1, half, n);
      BitsDouble(half, n);
      assert y == 2 * half;
    }
  }

  /** 2^k - 1 has exactly its lowest k bits set. */
  lemma {:induction false} BitsLowMask(x: nat, k: nat, n: nat)
    requires x + 1 == Pow2(k)
    ensures forall i :: 0 <= i < n ==> Bits(x, n)[i] == (i < k)
  {
    if n > 0 {
      if k == 0 {
        ZeroBits(n);
      } else {
        assert x % 2 == 1 && x / 2 + 1 == Pow2(k - 1);
        BitsLowMask(x / 2, k - 1, n - 1);
        assert forall i :: 1 <= i < n ==> Bits(x, n)[i] == Bits(x / 2, n - 1)[i - 1];
      }
    }
  }

  /** The `int` 2^k - 1 has exactly its lowest k bits set. */
  lemma LowMaskWord(x: nat, k: nat)
    requires k < Width && x + 1 == Pow2(k)
    ensures forall i :: 0 <= i < Width ==> (FromInt(x)[i] <==> i < k)
  {
    SmallInt(x, k);
    BitsLowMask(x, k, Width);
  }

  /** The `int` x * 2^k, when it fits in 31 bits, has the bits of x moved up by k. */
  lemma ScaledWord(x: nat, k: nat, y: nat)
    requires y == x * Pow2(k) && y < Pow2(Width - 1)
    ensures forall i :: 0 <= i < Width ==> FromInt(y)[i] == (k <= i && FromInt(x)[i - k])
  {
    PowMonotone(Width - 1, Width);
    assert y < Pow2(Width);
    SmallInt(y, Width);
    MulGrows(x, Pow2(k));
    SmallInt(x, Width);
    BitsScaled(x, k, y, Width);
  }

  /** The `int` 1 << k has exactly bit k set. */
  lemma SingleBitWord(k: nat, y: nat)
    requires k < Width - 1 && y == Pow2(k)
    ensures forall i :: 0 <= i < Width ==> (FromInt(y)[i] <==> i == k)
  {
    PowMonotone(k, Width - 2);
    assert Pow2(Width - 1) == 2 * Pow2(Width - 2);
    ScaledWord(1, k, y);
    LowMaskWord(1, 1);
  }

  lemma MulGrows(x: nat, p: nat)
    requires p >= 1
    ensures x <= x * p
  {
    assert x * p == x + x * (p - 1);
  }

  /** Reading bits as a number and writing the number back gives the same bits. */
  lemma {:induction false} BitsOfToNat(w: seq<bool>)
    ensures Bits(ToNat(w), |w|) == w
  {
    if |w| > 0 {
      BitsOfToNat(w[1..]);
      assert ToNat(w) / 2 == ToNat(w[1..]);
      assert w == [w[0]] + w[1..];
    }
  }
}
