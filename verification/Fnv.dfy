/** FNV-1a, 64 bits (section 2 of draft-eastlake-fnv), which names the Windows pipe
    after the workspace path. Two paths that differ in one byte get different names. */
module Fnv {

  type Word = x: int | 0 <= x < 0x1_0000_0000_0000_0000

  type Byte = x: int | 0 <= x < 0x100

  /** Exclusive or, bit by bit. */
  function Xor(a: nat, b: nat): nat
    decreases a + b
  {
    if a == 0 && b == 0 then 0 else (a + b) % 2 + 2 * Xor(a / 2, b / 2)
  }

  function Pow2(n: nat): nat {
    if n == 0 then 1 else 2 * Pow2(n - 1)
  }

  lemma {:induction false} XorFits(a: nat, b: nat, bits: nat)
    requires a < Pow2(bits) && b < Pow2(bits)
    ensures Xor(a, b) < Pow2(bits)
    decreases a + b
  {
    if a != 0 || b != 0 {
      XorFits(a / 2, b / 2, bits - 1);
    }
  }

  lemma FourMore(n: nat)
    ensures Pow2(n + 4) == 16 * Pow2(n)
  {
    assert Pow2(n + 2) == 4 * Pow2(n);
  }

  lemma WordBits()
    ensures Pow2(64) == 0x1_0000_0000_0000_0000
  {
    FourMore(0); FourMore(4); FourMore(8); FourMore(12);
    FourMore(16); FourMore(20); FourMore(24); FourMore(28);
    FourMore(32); FourMore(36); FourMore(40); FourMore(44);
    FourMore(48); FourMore(52); FourMore(56); FourMore(60);
  }

  function Mix(h: Word, b: Byte): Word {
    WordBits();
    XorFits(h, b, 64);
    Xor(h, b)
  }

  /** Wrapping multiplication by the FNV prime. */
  function Scale(h: Word): Word {
    h * 0x100000001b3 % 0x1_0000_0000_0000_0000
  }

  function Fold(h: Word, bytes: seq<Byte>): Word {
    if bytes == [] then h else Scale(Mix(Fold(h, bytes[..|bytes| - 1]), bytes[|bytes| - 1]))
  }

  function Hash(bytes: seq<Byte>): Word {
    Fold(0xcbf29ce484222325, bytes)
  }

  method Fnv1a64(bytes: seq<Byte>) returns (h: Word)
    ensures h == Hash(bytes)
  {
    h := 0xcbf29ce484222325;
    assert bytes[..0] == [];
    for i := 0 to |bytes|
      invariant h == Fold(0xcbf29ce484222325, bytes[..i])
    {
      assert bytes[..i + 1][..i] == bytes[..i];
      h := Mix(h, bytes[i]);
      h := Scale(h);
    }
    assert bytes[..|bytes|] == bytes;
  }

  // ----- The published vectors -----

  function Shifted(high: nat, bits: nat): nat {
    if bits == 0 then high else 2 * Shifted(high, bits - 1)
  }

  /** Numbers below `2^bits` touch the low bits only. */
  lemma {:induction false} XorHigh(high: nat, a: nat, b: nat, bits: nat)
    requires a < Pow2(bits) && b < Pow2(bits)
    ensures Xor(Shifted(high, bits) + a, b) == Shifted(high, bits) + Xor(a, b)
  {
    if bits == 0 {
      XorZero(high);
    } else {
      var above := Shifted(high, bits - 1);
      assert (2 * above + a) / 2 == above + a / 2 && (2 * above + a + b) % 2 == (a + b) % 2;
      XorHigh(high, a / 2, b / 2, bits - 1);
      XorBits(2 * above + a, b);
      XorBits(a, b);
    }
  }

  lemma {:induction false} XorZero(a: nat)
    ensures Xor(a, 0) == a
    decreases a
  {
    if a != 0 {
      XorZero(a / 2);
      XorBits(a, 0);
    }
  }

  lemma XorBits(a: nat, b: nat)
    ensures Xor(a, b) == (a + b) % 2 + 2 * Xor(a / 2, b / 2)
  {}

  lemma ShiftedFour(high: nat, n: nat)
    ensures Shifted(high, n + 4) == 16 * Shifted(high, n)
  {
    assert Shifted(high, n + 2) == 4 * Shifted(high, n);
  }

  lemma MixLow(high: nat, low: nat, b: Byte)
    requires low < 0x100
    ensures Xor(high * 0x100 + low, b) == high * 0x100 + Xor(low, b)
  {
    FourMore(0);
    FourMore(4);
    ShiftedFour(high, 0);
    ShiftedFour(high, 4);
    XorHigh(high, low, b, 8);
  }

  lemma Wraps(product: int, over: int, next: Word)
    requires product == over * 0x1_0000_0000_0000_0000 + next
    ensures product % 0x1_0000_0000_0000_0000 == next
  {}

  /** One byte more, with the state split into its low byte and the rest. */
  lemma Step(bytes: seq<Byte>, b: Byte, high: nat, low: nat, mixed: Word, over: nat, next: Word)
    requires Hash(bytes) == high * 0x100 + low && low < 0x100 && mixed == high * 0x100 + Xor(low, b)
    requires mixed * 0x100000001b3 == over * 0x1_0000_0000_0000_0000 + next
    ensures Hash(bytes + [b]) == next
  {
    assert (bytes + [b])[..|bytes|] == bytes;
    MixLow(high, low, b);
    Wraps(mixed * 0x100000001b3, over, next);
  }

  /** The values the draft lists for the empty string and for "a". */
  lemma Vectors()
    ensures Hash([]) == 0xcbf29ce484222325
    ensures Hash([0x61]) == 0xaf63dc4c8601ec8c
  {
    LowByte();
    Step([], 0x61, 0xcbf29ce4842223, 0x25, 0xcbf29ce484222344, 0xcbf29ce5de, 0xaf63dc4c8601ec8c);
    assert [] + [0x61] == [0x61];
  }

  lemma LowByte()
    ensures Xor(0x25, 0x61) == 0x44
  {
    XorBits(0x00, 0x01);
    XorBits(0x01, 0x03);
    XorBits(0x02, 0x06);
    XorBits(0x04, 0x0c);
    XorBits(0x09, 0x18);
    XorBits(0x12, 0x30);
    XorBits(0x25, 0x61);
  }

  // ----- Nothing is lost at any step -----

  /** The prime is odd, so it has an inverse modulo 2^64, and can be cancelled. */
  lemma PrimeCancels(x: Word, y: Word, a: int, b: int)
    requires x * 0x100000001b3 - a * 0x1_0000_0000_0000_0000 == y * 0x100000001b3 - b * 0x1_0000_0000_0000_0000
    ensures x == y
  {
    var k := (0x100000001b3 * 0xce965057aff6957b - 1) / 0x1_0000_0000_0000_0000;
    assert 0x100000001b3 * 0xce965057aff6957b == 1 + k * 0x1_0000_0000_0000_0000;
    var d := x - y;
    assert d * (0x100000001b3 * 0xce965057aff6957b) == (a - b) * 0xce965057aff6957b * 0x1_0000_0000_0000_0000;
    assert d == ((a - b) * 0xce965057aff6957b - d * k) * 0x1_0000_0000_0000_0000;
  }

  lemma ScaleIsInjective(h: Word, g: Word)
    requires Scale(h) == Scale(g)
    ensures h == g
  {
    var p, q := h * 0x100000001b3, g * 0x100000001b3;
    PrimeCancels(h, g, p / 0x1_0000_0000_0000_0000, q / 0x1_0000_0000_0000_0000);
  }

  lemma Halves(a: nat, b: nat)
    ensures Xor(a, b) % 2 == (a + b) % 2 && Xor(a, b) / 2 == Xor(a / 2, b / 2)
  {
    BitAndRest((a + b) % 2, Xor(a / 2, b / 2));
  }

  lemma BitAndRest(bit: nat, rest: nat)
    requires bit < 2
    ensures (bit + 2 * rest) % 2 == bit && (bit + 2 * rest) / 2 == rest
  {}

  lemma SameParity(a: nat, b: nat, c: nat, d: nat)
    requires (a + b) % 2 == (c + d) % 2 && a == c && b / 2 == d / 2
    ensures b == d
  {}

  /** Two exclusive ors that agree differ in both arguments or in neither. */
  lemma {:induction false} XorCancels(a: nat, b: nat, c: nat, d: nat)
    requires Xor(a, b) == Xor(c, d)
    ensures a == c <==> b == d
    decreases a + b + c + d
  {
    Halves(a, b);
    Halves(c, d);
    if a != 0 || b != 0 || c != 0 || d != 0 {
      XorCancels(a / 2, b / 2, c / 2, d / 2);
    }
    if a == c {
      SameParity(a, b, c, d);
    } else if b == d && a / 2 == c / 2 {
      SameParity(b, a, d, c);
    }
  }

  /** From different states the same bytes lead to different states. */
  lemma {:induction false} FoldIsInjective(h: Word, g: Word, bytes: seq<Byte>)
    requires Fold(h, bytes) == Fold(g, bytes)
    ensures h == g
  {
    if bytes != [] {
      var init, last := bytes[..|bytes| - 1], bytes[|bytes| - 1];
      ScaleIsInjective(Mix(Fold(h, init), last), Mix(Fold(g, init), last));
      XorCancels(Fold(h, init), last, Fold(g, init), last);
      FoldIsInjective(h, g, init);
    }
  }

  lemma {:induction false} FoldConcat(h: Word, p: seq<Byte>, q: seq<Byte>)
    ensures Fold(h, p + q) == Fold(Fold(h, p), q)
  {
    if q == [] {
      assert p + q == p;
    } else {
      assert (p + q)[..|p + q| - 1] == p + q[..|q| - 1];
      FoldConcat(h, p, q[..|q| - 1]);
    }
  }

  /** Inputs of equal length that differ in exactly one byte never collide. */
  lemma OneByteApartNeverCollide(p: seq<Byte>, a: Byte, b: Byte, q: seq<Byte>)
    requires a != b
    ensures Hash(p + [a] + q) != Hash(p + [b] + q)
  {
    if Hash(p + [a] + q) == Hash(p + [b] + q) {
      SameAfter(p, a, q);
      SameAfter(p, b, q);
      FoldIsInjective(Scale(Mix(Hash(p), a)), Scale(Mix(Hash(p), b)), q);
      ScaleIsInjective(Mix(Hash(p), a), Mix(Hash(p), b));
      XorCancels(Hash(p), a, Hash(p), b);
    }
  }

  lemma SameAfter(p: seq<Byte>, a: Byte, q: seq<Byte>)
    ensures Hash(p + [a] + q) == Fold(Scale(Mix(Hash(p), a)), q)
  {
    FoldConcat(0xcbf29ce484222325, p + [a], q);
    assert (p + [a])[..|p|] == p;
  }
}
