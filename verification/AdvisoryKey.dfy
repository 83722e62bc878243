/** storage.go, advisoryKey: the 64-bit FNV-1a hash (section 2 of draft-eastlake-fnv) that maps a job id
    to its advisory lock. The final reinterpretation as a signed integer keeps the 64 bits, so keys are
    modelled as unsigned words. */
module AdvisoryKey {
  import opened Basics

  const WORD: nat := 0x1_0000_0000_0000_0000

  newtype Word = h: int | 0 <= h < 0x1_0000_0000_0000_0000

  newtype Byte = b: int | 0 <= b < 256

  const OFFSET: Word := 0xcbf29ce484222325
  const PRIME: int := 0x100000001b3

  /** The inverse of the (odd) prime modulo 2^64. */
  const INVERSE: int := 0xce965057aff6957b

  // ----- Exclusive or, bit by bit --------------------------------------------------------------

  function Pow2(n: nat): nat { if n == 0 then 1 else 2 * Pow2(n - 1) }

  /** The exclusive or of the low `n` bits. */
  function XorBits(x: nat, y: nat, n: nat): (z: nat)
    ensures z < Pow2(n)
  {
    if n == 0 then 0 else (x % 2 + y % 2) % 2 + 2 * XorBits(x / 2, y / 2, n - 1)
  }

  lemma {:induction false} XorTwiceIsIdentity(x: nat, y: nat, n: nat)
    requires x < Pow2(n)
    ensures XorBits(XorBits(x, y, n), y, n) == x
  {
    if n > 0 {
      XorTwiceIsIdentity(x / 2, y / 2, n - 1);
      var rest := XorBits(x / 2, y / 2, n - 1);
      HalfAndBit((x % 2 + y % 2) % 2, rest);
      assert XorBits(XorBits(x, y, n), y, n) == ((x % 2 + y % 2) % 2 + y % 2) % 2 + 2 * XorBits(rest, y / 2, n - 1);
    }
  }

  lemma HalfAndBit(bit: nat, rest: nat)
    requires bit < 2
    ensures (bit + 2 * rest) % 2 == bit && (bit + 2 * rest) / 2 == rest
  {
  }

  lemma {:induction false} XorCommutes(x: nat, y: nat, n: nat)
    ensures XorBits(x, y, n) == XorBits(y, x, n)
  {
    if n > 0 { XorCommutes(x / 2, y / 2, n - 1); }
  }

  function XorByte(x: nat, b: Byte): (y: nat)
    ensures y < 256
  {
    EightBits();
    XorBits(x, b as nat, 8)
  }

  lemma EightBits()
    ensures Pow2(8) == 256
  {
    assert Pow2(4) == 16;
  }

  lemma XorByteTwice(x: nat, b: Byte)
    requires x < 256
    ensures XorByte(XorByte(x, b), b) == x
  {
    EightBits();
    XorTwiceIsIdentity(x, b as nat, 8);
  }

  lemma XorByteInjective(x: nat, a: Byte, b: Byte)
    requires a != b
    ensures XorByte(x, a) != XorByte(x, b)
  {
    EightBits();
    XorCommutes(x, a as nat, 8);
    XorCommutes(x, b as nat, 8);
    XorTwiceIsIdentity(a as nat, x, 8);
    XorTwiceIsIdentity(b as nat, x, 8);
  }

  // ----- One step of the hash ------------------------------------------------------------------

  /** A byte only reaches the low eight bits of the word. */
  function Xor(h: Word, b: Byte): Word {
    var low := h as int % 256;
    SameBlock(h as int, XorByte(low, b));
    (h as int - low + XorByte(low, b)) as Word
  }

  lemma SameBlock(x: nat, y: nat)
    requires x < WORD && y < 256
    ensures 0 <= x - x % 256 + y < WORD && (x - x % 256 + y) % 256 == y
  {
  }

  /** Multiplication of unsigned words wraps around. */
  function Times(h: Word, factor: int): Word { (h as int * factor % WORD) as Word }

  function Mix(h: Word, b: Byte): Word { Times(Xor(h, b), PRIME) }

  function Hash(h: Word, id: seq<Byte>): Word {
    if id == [] then h else Mix(Hash(h, id[..|id| - 1]), id[|id| - 1])
  }

  function Key(id: seq<Byte>): Word { Hash(OFFSET, id) }

  method ComputeKey(id: seq<Byte>) returns (h: Word)
    ensures h == Key(id)
  {
    h := OFFSET;
    var i := 0;
    while i < |id|
      invariant 0 <= i <= |id|
      invariant h == Hash(OFFSET, id[..i])
    {
      assert id[..i + 1][..i] == id[..i];
      h := Xor(h, id[i]);
      h := Times(h, PRIME);
      i := i + 1;
    }
    assert id[..i] == id;
  }

  lemma XorTwice(h: Word, b: Byte)
    ensures Xor(Xor(h, b), b) == h
  {
    var low := h as int % 256;
    XorByteTwice(low, b);
    SameBlock(h as int, XorByte(low, b));
  }

  lemma TimesInverse(h: Word)
    ensures Times(Times(h, PRIME), INVERSE) == h && Times(Times(h, INVERSE), PRIME) == h
  {
    var k := PRIME * INVERSE / WORD;
    assert PRIME * INVERSE == k * WORD + 1;
    UndoTimes(h as int, PRIME, INVERSE, k, WORD);
    UndoTimes(h as int, INVERSE, PRIME, k, WORD);
  }

  lemma UndoTimes(x: int, p: int, q: int, k: int, w: int)
    requires 0 <= x < w && p * q == k * w + 1
    ensures (x * p % w) * q % w == x
  {
    var e := x * p / w;
    assert x * p % w == x * p - e * w;
    Regroup(x, p, q, k, e, w);
    Quotient((x * p - e * w) * q, k * x - e * q, w);
  }

  lemma Regroup(x: int, p: int, q: int, k: int, e: int, w: int)
    requires p * q == k * w + 1
    ensures (x * p - e * w) * q == x + (k * x - e * q) * w
  {
    calc {
      (x * p - e * w) * q;
      x * (p * q) - e * w * q;
      x * (k * w + 1) - e * w * q;
      x + (k * x - e * q) * w;
    }
  }

  /** A hash step is a bijection of 64-bit words: given the byte, this undoes it. */
  function Unmix(h: Word, b: Byte): Word { Xor(Times(h, INVERSE), b) }

  lemma MixBijective(h: Word, b: Byte)
    ensures Unmix(Mix(h, b), b) == h && Mix(Unmix(h, b), b) == h
  {
    TimesInverse(Xor(h, b));
    TimesInverse(h);
    XorTwice(h, b);
    XorTwice(Times(h, INVERSE), b);
  }

  lemma {:induction false} HashConcat(h: Word, a: seq<Byte>, b: seq<Byte>)
    ensures Hash(h, a + b) == Hash(Hash(h, a), b)
  {
    if b == [] {
      assert a + b == a;
    } else {
      var init := b[..|b| - 1];
      HashConcat(h, a, init);
      assert (a + b)[..|a + b| - 1] == a + init;
    }
  }

  /** Different words stay different under any common suffix. */
  lemma {:induction false} HashInjective(g: Word, h: Word, suffix: seq<Byte>)
    requires g != h
    ensures Hash(g, suffix) != Hash(h, suffix)
  {
    if suffix != [] {
      var init, last := suffix[..|suffix| - 1], suffix[|suffix| - 1];
      HashInjective(g, h, init);
      MixBijective(Hash(g, init), last);
      MixBijective(Hash(h, init), last);
    }
  }

  /** A common suffix neither separates nor joins keys. */
  lemma SuffixKeepsKeysApart(a: seq<Byte>, b: seq<Byte>, suffix: seq<Byte>)
    ensures Key(a + suffix) == Key(b + suffix) <==> Key(a) == Key(b)
  {
    HashConcat(OFFSET, a, suffix);
    HashConcat(OFFSET, b, suffix);
    if Key(a) != Key(b) { HashInjective(Key(a), Key(b), suffix); }
  }

  lemma MixSeparatesBytes(h: Word, a: Byte, b: Byte)
    requires a != b
    ensures Mix(h, a) != Mix(h, b)
  {
    XorByteInjective(h as int % 256, a, b);
    assert Xor(h, a) != Xor(h, b);
    TimesInverse(Xor(h, a));
    TimesInverse(Xor(h, b));
  }

  /** Two ids of one length that differ in exactly one byte never share a key. */
  lemma OneByteSeparates(prefix: seq<Byte>, a: Byte, b: Byte, suffix: seq<Byte>)
    requires a != b
    ensures Key(prefix + [a] + suffix) != Key(prefix + [b] + suffix)
  {
    assert (prefix + [a])[..|prefix|] == prefix && (prefix + [b])[..|prefix|] == prefix;
    MixSeparatesBytes(Key(prefix), a, b);
    SuffixKeepsKeysApart(prefix + [a], prefix + [b], suffix);
  }

  lemma XorExample()
    ensures XorBits(37, 97, 8) == 68
  {
    assert XorBits(0, 1, 2) == 1;
    assert XorBits(1, 3, 3) == 2;
    assert XorBits(2, 6, 4) == 4;
    assert XorBits(4, 12, 5) == 8;
    assert XorBits(9, 24, 6) == 17;
    assert XorBits(18, 48, 7) == 34;
  }

  lemma MixWith(h: Word, b: Byte, low: nat, z: nat, e: int, r: Word)
    requires h as int % 256 == low && XorBits(low, b as nat, 8) == z
    requires (h as int - low + z) * PRIME == e * WORD + r as int
    ensures Mix(h, b) == r
  {
    Quotient((h as int - low + z) * PRIME, e, WORD);
  }

  /** A published value of the hash: the key of the one-letter text "a" (byte 0x61). */
  lemma KnownKey(a: Byte)
    requires a as nat == 97
    ensures Key([a]) as int == 0xaf63dc4c8601ec8c
  {
    XorExample();
    KnownProduct();
    MixWith(OFFSET, a, 37, 68, 875948729822, 0xaf63dc4c8601ec8c);
    assert [a][..0] == [];
    assert Hash(OFFSET, []) == OFFSET;
  }

  lemma KnownProduct()
    ensures 0xcbf29ce484222325 % 256 == 37
    ensures (0xcbf29ce484222325 - 37 + 68) * PRIME == 875948729822 * WORD + 0xaf63dc4c8601ec8c
  {
  }
}
