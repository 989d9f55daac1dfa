/**
 uint64_t as its 64 bits, least significant first, with the C++ shifts (vacated bits are
 zero, bits shifted past either end are lost), the bitwise xor and and, and the conversions
 between words and numbers.
 */
module Word {
  import opened MixedRadix

  type Word = s: seq<bool> | |s| == 64 witness seq(64, _ => false)

  function Zeros(n: nat): (z: seq<bool>)
    ensures |z| == n
  {
    seq(n, _ => false)
  }

  function ShiftRight(x: Word, w: nat): Word
    requires w <= 64
  {
    x[w..] + Zeros(w)
  }

  function ShiftLeft(x: Word, w: nat): Word
    requires w <= 64
  {
    Zeros(w) + x[..64 - w]
  }

  function Xor(x: Word, y: Word): Word {
    seq(64, i requires 0 <= i < 64 => x[i] != y[i])
  }

  function And(x: Word, y: Word): Word {
    seq(64, i requires 0 <= i < 64 => x[i] && y[i])
  }

  /** The number a bit sequence denotes. */
  function Value(s: seq<bool>): (v: nat)
    ensures v < Pow2(|s|)
  {
    if s == [] then 0 else (if s[0] then 1 else 0) + 2 * Value(s[1..])
  }

  /** The k lowest bits of a number. */
  function Bits(n: nat, k: nat): (s: seq<bool>)
    ensures |s| == k
  {
    if k == 0 then [] else [n % 2 == 1] + Bits(n / 2, k - 1)
  }

  /** Conversion of a number to uint64_t. */
  function ToWord(n: nat): Word {
    Bits(n, 64)
  }

  /** Conversion of uint64_t to unsigned: only 32 bits survive. */
  function ToUnsigned(x: Word): nat {
    Value(x[..32])
  }

  lemma {:induction false} ValueBits(n: nat, k: nat)
    ensures Value(Bits(n, k)) == Low(n, k)
  {
    if k == 0 {
    } else {
      ValueBits(n / 2, k - 1);
      assert Bits(n, k)[1..] == Bits(n / 2, k - 1);
    }
  }

  lemma {:induction false} BitsValue(s: seq<bool>)
    ensures Bits(Value(s), |s|) == s
  {
    if s == [] {
    } else {
      BitsValue(s[1..]);
      assert s == [s[0]] + s[1..];
    }
  }

  /** Words below 2^64 and numbers correspond one to one. */
  lemma ToWordRoundTrip(n: nat, x: Word)
    requires n < Pow2(64)
    ensures Value(ToWord(n)) == n
    ensures ToWord(Value(x)) == x
  {
    ValueBits(n, 64);
    LowSmall(n, 64);
    BitsValue(x);
  }

  lemma {:induction false} ValueZeros(n: nat)
    ensures Value(Zeros(n)) == 0
  {
    if n == 0 {
    } else {
      ValueZeros(n - 1);
      assert Zeros(n)[1..] == Zeros(n - 1);
    }
  }

  /** Cutting a bit sequence at position w is taking remainder and quotient by 2^w. */
  lemma {:induction false} ValueCut(s: seq<bool>, w: nat)
    requires w <= |s|
    ensures Value(s[..w]) == Low(Value(s), w)
    ensures Value(s[w..]) == Shr(Value(s), w)
  {
    if w == 0 {
      assert s[0..] == s;
    } else {
      ValueCut(s[1..], w - 1);
      assert s[..w][1..] == s[1..][..w - 1];
      assert s[w..] == s[1..][w - 1..];
    }
  }

  lemma {:induction false} ValuePad(s: seq<bool>, k: nat)
    ensures Value(s + Zeros(k)) == Value(s)
  {
    if s == [] {
      assert s + Zeros(k) == Zeros(k);
      ValueZeros(k);
    } else {
      assert (s + Zeros(k))[1..] == s[1..] + Zeros(k);
      ValuePad(s[1..], k);
    }
  }

  /** x >> w divides by 2^w. */
  lemma ShiftRightValue(x: Word, w: nat)
    requires w <= 64
    ensures Value(ShiftRight(x, w)) == Shr(Value(x), w)
  {
    ValueCut(x, w);
    ValuePad(x[w..], w);
  }

  /** Shifting out and back clears the low bits, so the xor leaves exactly those. */
  lemma XorOfShiftBackBits(x: Word, w: nat)
    requires w <= 64
    ensures Xor(x, ShiftLeft(ShiftRight(x, w), w)) == x[..w] + Zeros(64 - w)
  {
  }

  /** x ^ ((x >> w) << w) is x modulo 2^w. */
  lemma XorOfShiftBack(x: Word, w: nat)
    requires w <= 64
    ensures Value(Xor(x, ShiftLeft(ShiftRight(x, w), w))) == Low(Value(x), w)
  {
    XorOfShiftBackBits(x, w);
    ValueCut(x, w);
    ValuePad(x[..w], 64 - w);
  }

  /** A field of at most 32 bits survives the conversion to unsigned. */
  lemma XorOfShiftBackUnsigned(x: Word, w: nat)
    requires w <= 32
    ensures ToUnsigned(Xor(x, ShiftLeft(ShiftRight(x, w), w))) == Low(Value(x), w)
  {
    XorOfShiftBackBits(x, w);
    assert (x[..w] + Zeros(64 - w))[..32] == x[..w] + Zeros(32 - w);
    ValueCut(x, w);
    ValuePad(x[..w], 32 - w);
  }

  lemma {:induction false} BitsOfMask(w: nat, k: nat)
    requires w <= k
    ensures Bits(Pow2(w) - 1, k) == seq(w, _ => true) + Zeros(k - w)
  {
    if k == 0 {
    } else if w == 0 {
      BitsOfMask(0, k - 1);
    } else {
      BitsOfMask(w - 1, k - 1);
      assert (Pow2(w) - 1) / 2 == Pow2(w - 1) - 1;
    }
  }

  /** x & (2^w - 1) is x modulo 2^w. */
  lemma AndOfMask(x: Word, w: nat)
    requires w <= 64
    ensures Value(And(x, ToWord(Pow2(w) - 1))) == Low(Value(x), w)
    ensures And(x, ToWord(Pow2(w) - 1)) == Zeros(64) <==> Low(Value(x), w) == 0
  {
    BitsOfMask(w, 64);
    var y := And(x, ToWord(Pow2(w) - 1));
    assert y == x[..w] + Zeros(64 - w);
    ValueCut(x, w);
    ValuePad(x[..w], 64 - w);
    ValueZeros(64);
    BitsValue(y);
    BitsValue(Zeros(64));
  }
}
