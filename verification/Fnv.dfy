/** The 64-bit FNV-1a hash, and why a change of one byte always changes it: both of its steps can
    be undone. */
module Fnv {

  const WORD := 0x1_0000_0000_0000_0000
  const OFFSET := 0xcbf2_9ce4_8422_2325
  const PRIME := 0x0000_0100_0000_01b3
  const INVERSE := 0xce96_5057_aff6_957b

  type Byte = x: nat | x < 256

  function Pow2(n: nat): nat {
    if n == 0 then 1 else 2 * Pow2(n - 1)
  }

  /** Exclusive or of the lowest `n` bits. */
  function Xor(a: nat, b: nat, n: nat): nat {
    if n == 0 then 0 else 2 * Xor(a / 2, b / 2, n - 1) + if a % 2 != b % 2 then 1 else 0
  }

  function XorLow(x: Byte, b: Byte): Byte {
    XorFits(x, b, 8);
    assert Pow2(8) == 256 by { assert Pow2(4) == 16; }
    Xor(x, b, 8)
  }

  lemma {:induction false} XorFits(a: nat, b: nat, n: nat)
    ensures Xor(a, b, n) < Pow2(n)
  {
    if n > 0 { XorFits(a / 2, b / 2, n - 1); }
  }

  lemma {:induction false} XorTwice(a: nat, b: nat, n: nat)
    requires a < Pow2(n)
    ensures Xor(Xor(a, b, n), b, n) == a
  {
    if n > 0 {
      XorTwice(a / 2, b / 2, n - 1);
      var x := Xor(a / 2, b / 2, n - 1);
      assert Xor(a, b, n) / 2 == x;
    }
  }

  lemma {:induction false} XorDiffers(a: nat, b: nat, b': nat, n: nat)
    requires b < Pow2(n) && b' < Pow2(n) && b != b'
    ensures Xor(a, b, n) != Xor(a, b', n)
  {
    if n > 0 && b / 2 != b' / 2 { XorDiffers(a / 2, b / 2, b' / 2, n - 1); }
  }

  /** `h ^ b` for a byte: only the low eight bits change. */
  function XorByte(h: nat, b: Byte): nat {
    h / 256 * 256 + XorLow(h % 256, b)
  }

  function Mixed(h: nat, b: Byte): nat {
    XorByte(h, b) * PRIME % WORD
  }

  function HashFrom(h: nat, bytes: seq<Byte>): nat
    decreases |bytes|
  {
    if bytes == [] then h else HashFrom(Mixed(h, bytes[0]), bytes[1..])
  }

  function Hash(bytes: seq<Byte>): nat {
    HashFrom(OFFSET, bytes)
  }

  method Fnv1a64(bytes: seq<Byte>) returns (hash: nat)
    ensures hash == Hash(bytes) && hash < WORD
  {
    hash := OFFSET;
    for i := 0 to |bytes|
      invariant HashFrom(OFFSET, bytes) == HashFrom(hash, bytes[i..]) && hash < WORD
    {
      assert bytes[i..][0] == bytes[i] && bytes[i..][1..] == bytes[i + 1..];
      hash := XorByte(hash, bytes[i]);
      hash := hash * PRIME % WORD;
    }
    assert bytes[|bytes|..] == [];
  }

  // ---- Undoing a step ----

  lemma XorLowUndone(x: Byte, b: Byte)
    ensures XorLow(XorLow(x, b), b) == x
  {
    assert Pow2(8) == 256 by { assert Pow2(4) == 16; }
    XorTwice(x, b, 8);
  }

  /** The byte can be taken out again. */
  lemma XorByteUndone(h: nat, b: Byte)
    ensures XorByte(XorByte(h, b), b) == h
  {
    Split(h / 256, XorLow(h % 256, b));
    XorLowUndone(h % 256, b);
  }

  lemma Split(q: nat, y: nat)
    requires y < 256
    ensures (q * 256 + y) / 256 == q && (q * 256 + y) % 256 == y
  {
  }

  lemma XorByteSmall(h: nat, b: Byte)
    requires h < WORD
    ensures XorByte(h, b) < WORD
  {
  }

  /** The prime is odd, so multiplying by it can be undone modulo the word. */
  lemma TimesInverse(x: nat)
    requires x < WORD
    ensures (x * PRIME % WORD) * INVERSE % WORD == x
  {
    var q, r := x * PRIME / WORD, x * PRIME % WORD;
    assert PRIME * INVERSE == 887285111055 * WORD + 1;
    assert r * INVERSE == x + WORD * (887285111055 * x - INVERSE * q);
    WholeWords(x, 887285111055 * x - INVERSE * q);
  }

  lemma WholeWords(x: nat, k: int)
    requires x < WORD
    ensures (x + WORD * k) % WORD == x
  {
  }

  /** Different states stay different under the same byte. */
  lemma MixedInjective(g: nat, h: nat, b: Byte)
    requires g < WORD && h < WORD && Mixed(g, b) == Mixed(h, b)
    ensures g == h
  {
    XorByteSmall(g, b);
    XorByteSmall(h, b);
    TimesInverse(XorByte(g, b));
    TimesInverse(XorByte(h, b));
    XorByteUndone(g, b);
    XorByteUndone(h, b);
  }

  lemma {:induction false} HashInjective(g: nat, h: nat, bytes: seq<Byte>)
    requires g < WORD && h < WORD && HashFrom(g, bytes) == HashFrom(h, bytes)
    ensures g == h
    decreases |bytes|
  {
    if bytes != [] {
      HashInjective(Mixed(g, bytes[0]), Mixed(h, bytes[0]), bytes[1..]);
      MixedInjective(g, h, bytes[0]);
    }
  }

  lemma {:induction false} HashSplit(h: nat, a: seq<Byte>, b: seq<Byte>)
    ensures HashFrom(h, a + b) == HashFrom(HashFrom(h, a), b)
    decreases |a|
  {
    if a == [] {
      assert a + b == b;
    } else {
      assert (a + b)[0] == a[0] && (a + b)[1..] == a[1..] + b;
      HashSplit(Mixed(h, a[0]), a[1..], b);
    }
  }

  lemma {:induction false} HashFits(h: nat, bytes: seq<Byte>)
    requires h < WORD
    ensures HashFrom(h, bytes) < WORD
    decreases |bytes|
  {
    if bytes != [] { HashFits(Mixed(h, bytes[0]), bytes[1..]); }
  }

  /** Different bytes lead the same state to different states. */
  lemma BytesDiffer(h: nat, b: Byte, b': Byte)
    requires h < WORD && b != b'
    ensures Mixed(h, b) != Mixed(h, b')
  {
    XorByteSmall(h, b);
    XorByteSmall(h, b');
    TimesInverse(XorByte(h, b));
    TimesInverse(XorByte(h, b'));
    Split(h / 256, XorLow(h % 256, b));
    Split(h / 256, XorLow(h % 256, b'));
    XorLowDiffers(h % 256, b, b');
  }

  lemma XorLowDiffers(x: Byte, b: Byte, b': Byte)
    requires b != b'
    ensures XorLow(x, b) != XorLow(x, b')
  {
    assert Pow2(8) == 256 by { assert Pow2(4) == 16; }
    XorDiffers(x, b, b', 8);
  }

  /** Byte strings of one length that differ in exactly one place have different hashes. */
  lemma OneByteEdit(s: seq<Byte>, t: seq<Byte>, i: nat)
    requires |s| == |t| && i < |s| && s[i] != t[i]
    requires forall j :: 0 <= j < |s| && j != i ==> s[j] == t[j]
    ensures Hash(s) != Hash(t)
  {
    var a, b := s[..i], s[i + 1..];
    assert s == a + ([s[i]] + b) && t == a + ([t[i]] + b);
    var h := HashFrom(OFFSET, a);
    HashFits(OFFSET, a);
    HashSplit(OFFSET, a, [s[i]] + b);
    HashSplit(OFFSET, a, [t[i]] + b);
    assert ([s[i]] + b)[1..] == b && ([t[i]] + b)[1..] == b;
    BytesDiffer(h, s[i], t[i]);
    if Hash(s) == Hash(t) { HashInjective(Mixed(h, s[i]), Mixed(h, t[i]), b); }
  }
}
