/** Bytes, and the small facts about sequences that every other module uses. */
module Bytes {

  newtype byte = b: int | 0 <= b < 256

  /** `b & 0x80 != 0`, `b & 0x7F` and `b & 0x0F`. */
  predicate HighBit(b: byte) {
    b >= 128
  }

  function Low7(b: byte): byte {
    b % 128
  }

  function Low4(b: byte): byte {
    b % 16
  }

  /** Exclusive or of the `k` low bits. */
  function XorBits(a: nat, b: nat, k: nat): nat {
    if k == 0 then 0 else 2 * XorBits(a / 2, b / 2, k - 1) + (a % 2 + b % 2) % 2
  }

  function Pow2(k: nat): (p: nat)
    ensures p > 0
  {
    if k == 0 then 1 else 2 * Pow2(k - 1)
  }

  lemma {:induction false} XorBitsBound(a: nat, b: nat, k: nat)
    ensures XorBits(a, b, k) < Pow2(k)
  {
    if k > 0 {
      XorBitsBound(a / 2, b / 2, k - 1);
    }
  }

  lemma {:induction false} XorBitsInvolution(a: nat, b: nat, k: nat)
    requires a < Pow2(k)
    ensures XorBits(XorBits(a, b, k), b, k) == a
  {
    if k > 0 {
      var high, bit := XorBits(a / 2, b / 2, k - 1), (a % 2 + b % 2) % 2;
      LowBit(high, bit);
      XorBitsInvolution(a / 2, b / 2, k - 1);
      SameParity(a % 2, b % 2);
    }
  }

  lemma LowBit(high: nat, bit: nat)
    requires bit < 2
    ensures (2 * high + bit) / 2 == high && (2 * high + bit) % 2 == bit
  {
  }

  lemma SameParity(p: nat, q: nat)
    requires p < 2 && q < 2
    ensures ((p + q) % 2 + q) % 2 == p
  {
  }

  lemma Pow2Of8()
    ensures Pow2(8) == 256
  {
    assert Pow2(4) == 2 * Pow2(3);
    assert Pow2(6) == 2 * Pow2(5);
  }

  /** `a ^ b`. */
  function Xor(a: byte, b: byte): (x: byte) {
    XorBitsBound(a as nat, b as nat, 8);
    Pow2Of8();
    XorBits(a as nat, b as nat, 8) as byte
  }

  /** Bit `k` of `n`, counted from the lowest. */
  function Bit(n: nat, k: nat): (b: nat)
    ensures b < 2
  {
    if k == 0 then n % 2 else Bit(n / 2, k - 1)
  }

  lemma {:induction false} XorBitsAt(a: nat, b: nat, n: nat, k: nat)
    requires k < n
    ensures Bit(XorBits(a, b, n), k) == 1 <==> Bit(a, k) != Bit(b, k)
  {
    LowBit(XorBits(a / 2, b / 2, n - 1), (a % 2 + b % 2) % 2);
    if k > 0 {
      XorBitsAt(a / 2, b / 2, n - 1, k - 1);
    }
  }

  predicate IsSet(b: byte, k: nat) {
    Bit(b as nat, k) == 1
  }

  /** What exclusive or is: a bit is set exactly where the two bytes differ. */
  lemma XorAt(a: byte, b: byte, k: nat)
    requires k < 8
    ensures IsSet(Xor(a, b), k) <==> IsSet(a, k) != IsSet(b, k)
  {
    XorBitsAt(a as nat, b as nat, 8, k);
  }

  /** A byte is determined by its eight bits, so `XorAt` determines `Xor`. */
  lemma {:induction false} SameBits(a: nat, b: nat, n: nat)
    requires a < Pow2(n) && b < Pow2(n)
    requires forall k :: 0 <= k < n ==> Bit(a, k) == Bit(b, k)
    ensures a == b
  {
    if n > 0 {
      forall k | 0 <= k < n - 1 ensures Bit(a / 2, k) == Bit(b / 2, k) {
        assert Bit(a, k + 1) == Bit(b, k + 1);
      }
      SameBits(a / 2, b / 2, n - 1);
      assert Bit(a, 0) == Bit(b, 0);
    }
  }

  lemma XorUnique(a: byte, b: byte, x: byte)
    requires forall k :: 0 <= k < 8 ==> (IsSet(x, k) <==> IsSet(a, k) != IsSet(b, k))
    ensures x == Xor(a, b)
  {
    Pow2Of8();
    var m, n := x as nat, Xor(a, b) as nat;
    forall k | 0 <= k < 8 ensures Bit(m, k) == Bit(n, k) {
      XorAt(a, b, k);
      assert IsSet(x, k) <==> IsSet(Xor(a, b), k);
    }
    SameBits(m, n, 8);
  }

  type bit = n: nat | n < 2

  function Differ(x: bit, y: bit): bit {
    if x == y then 0 else 1
  }

  /** A hexadecimal digit in binary, highest bit first. */
  datatype Hex = Hex(x: bit, y: bit, z: bit, w: bit) {
    function Value(): nat {
      8 * x + 4 * y + 2 * z + w
    }

    function DifferFrom(h: Hex): Hex {
      Hex(Differ(x, h.x), Differ(y, h.y), Differ(z, h.z), Differ(w, h.w))
    }
  }

  lemma NextBit(a: nat, b: nat, x: bit, y: bit, k: nat)
    ensures XorBits(2 * a + x, 2 * b + y, k + 1) == 2 * XorBits(a, b, k) + Differ(x, y)
  {
    LowBit(a, x);
    LowBit(b, y);
  }

  lemma NextTwoBits(a: nat, b: nat, x: bit, y: bit, x': bit, y': bit, k: nat)
    ensures XorBits(4 * a + 2 * x + x', 4 * b + 2 * y + y', k + 2) ==
            4 * XorBits(a, b, k) + 2 * Differ(x, y) + Differ(x', y')
  {
    hide XorBits, Differ;
    NextBit(a, b, x, y, k);
    NextBit(2 * a + x, 2 * b + y, x', y', k + 1);
    assert 2 * (2 * a + x) + x' == 4 * a + 2 * x + x' && 2 * (2 * b + y) + y' == 4 * b + 2 * y + y';
  }

  lemma NextHex(a: nat, b: nat, k: nat, h: Hex, g: Hex)
    ensures XorBits(16 * a + h.Value(), 16 * b + g.Value(), k + 4) == 16 * XorBits(a, b, k) + h.DifferFrom(g).Value()
  {
    hide XorBits, Differ;
    var a2, b2 := 4 * a + 2 * h.x + h.y, 4 * b + 2 * g.x + g.y;
    NextTwoBits(a, b, h.x, g.x, h.y, g.y, k);
    NextTwoBits(a2, b2, h.z, g.z, h.w, g.w, k + 2);
    assert 4 * a2 + 2 * h.z + h.w == 16 * a + h.Value();
    assert 4 * b2 + 2 * g.z + g.w == 16 * b + g.Value();
  }

  /** Exclusive or in hexadecimal digits: the bits that differ. */
  lemma XorInHex(a: byte, b: byte, h: Hex, l: Hex, g: Hex, m: Hex)
    requires a as nat == 16 * h.Value() + l.Value() && b as nat == 16 * g.Value() + m.Value()
    ensures Xor(a, b) as nat == 16 * h.DifferFrom(g).Value() + l.DifferFrom(m).Value()
  {
    assert XorBits(0, 0, 0) == 0;
    hide XorBits, Hex.Value, Hex.DifferFrom;
    NextHex(0, 0, 0, h, g);
    NextHex(h.Value(), g.Value(), 4, l, m);
  }

  lemma XorTwice(a: byte, b: byte)
    ensures Xor(Xor(a, b), b) == a
  {
    Pow2Of8();
    XorBitsInvolution(a as nat, b as nat, 8);
  }

  datatype Option<+T> = None | Some(value: T)

  function Max(a: int, b: int): int {
    if a < b then b else a
  }

  function Min(a: int, b: int): int {
    if a < b then a else b
  }

  /** The concatenation of all parts, in order. */
  function Flatten<T>(parts: seq<seq<T>>): seq<T> {
    if parts == [] then [] else parts[0] + Flatten(parts[1..])
  }

  lemma {:induction false} FlattenConcat<T>(a: seq<seq<T>>, b: seq<seq<T>>)
    ensures Flatten(a + b) == Flatten(a) + Flatten(b)
  {
    if a == [] {
      assert a + b == b;
    } else {
      assert (a + b)[1..] == a[1..] + b;
      FlattenConcat(a[1..], b);
    }
  }

  lemma Middle<T>(a: seq<T>, b: seq<T>, c: seq<T>)
    ensures (a + b + c)[|a|..|a| + |b|] == b
  {
  }

  lemma SliceOfPrefix<T>(a: seq<T>, b: seq<T>, i: nat, j: nat)
    requires i <= j <= |a|
    ensures (a + b)[i..j] == a[i..j]
  {
  }

  lemma FlattenSnoc<T>(a: seq<seq<T>>, x: seq<T>)
    ensures Flatten(a + [x]) == Flatten(a) + x
  {
    FlattenConcat(a, [x]);
    assert Flatten([x]) == x + Flatten<T>([]);
  }
}
