/** The hash is the one that has this name: its values on the published examples, worked out byte by byte. */
module FnvValues {
  import opened Fnv

  /** Whether the lowest bits differ. */
  function Odd(a: nat, b: nat): nat {
    if a % 2 != b % 2 then 1 else 0
  }

  /** A byte halved again and again, down to its highest bit. */
  predicate Halves(a: seq<nat>) {
    |a| == 8 && a[0] < 256 && forall i :: 0 <= i < 7 ==> a[i + 1] == a[i] / 2
  }

  function BitSum(a: seq<nat>, b: seq<nat>): nat
    requires Halves(a) && Halves(b)
  {
    Odd(a[0], b[0]) + 2 * Odd(a[1], b[1]) + 4 * Odd(a[2], b[2]) + 8 * Odd(a[3], b[3]) +
    16 * Odd(a[4], b[4]) + 32 * Odd(a[5], b[5]) + 64 * Odd(a[6], b[6]) + 128 * Odd(a[7], b[7])
  }

  lemma XorHalf(a: nat, b: nat, n: nat, half: nat, half': nat)
    requires half == a / 2 && half' == b / 2
    ensures Xor(a, b, n + 1) == 2 * Xor(half, half', n) + Odd(a, b)
  {
  }

  lemma XorByBits(a: seq<nat>, b: seq<nat>)
    requires Halves(a) && Halves(b)
    ensures Xor(a[0], b[0], 8) == BitSum(a, b)
  {
    forall i | 0 <= i < 7 ensures Xor(a[i], b[i], 8 - i) == 2 * Xor(a[i + 1], b[i + 1], 7 - i) + Odd(a[i], b[i]) {
      XorHalf(a[i], b[i], 7 - i, a[i + 1], b[i + 1]);
    }
    XorHalf(a[7], b[7], 0, a[7] / 2, b[7] / 2);
  }

  /** One step by hand: `low` and `bits` are the halves of the state's low byte and of the byte. */
  lemma Absorbs(h: nat, b: Byte, low: seq<nat>, bits: seq<nat>, next: nat, carry: nat)
    requires Halves(low) && Halves(bits) && low[0] == h % 256 && bits[0] == b && next < WORD
    requires (h - low[0] + BitSum(low, bits)) * PRIME == carry * WORD + next
    ensures Mixed(h, b) == next
  {
    XorByBits(low, bits);
    WholeWords(next, carry);
  }

  /** The state after the first byte, and the bytes that are left. */
  lemma HashStep(h: nat, bytes: seq<Byte>, low: seq<nat>, bits: seq<nat>, next: nat, carry: nat)
    requires bytes != [] && Halves(low) && Halves(bits) && low[0] == h % 256 && bits[0] == bytes[0] && next < WORD
    requires (h - low[0] + BitSum(low, bits)) * PRIME == carry * WORD + next
    ensures HashFrom(h, bytes) == HashFrom(next, bytes[1..])
  {
    Absorbs(h, bytes[0], low, bits, next, carry);
  }

  lemma HashOfA(h: nat, bytes: seq<Byte>)
    requires h == OFFSET && bytes == [97]
    ensures HashFrom(h, bytes) == 0xaf63_dc4c_8601_ec8c
  {
    HashStep(h, bytes, [37, 18, 9, 4, 2, 1, 0, 0], [97, 48, 24, 12, 6, 3, 1, 0],
             0xaf63_dc4c_8601_ec8c, 0x0000_00cb_f29c_e5de);
  }

  lemma FirstStep(h: nat, bytes: seq<Byte>)
    requires h == 0xcbf2_9ce4_8422_2325 && bytes != [] && bytes[0] == 102
    ensures HashFrom(h, bytes) == HashFrom(0xaf63_db4c_8601_ead9, bytes[1..])
  {
    HashStep(h, bytes, [37, 18, 9, 4, 2, 1, 0, 0], [102, 51, 25, 12, 6, 3, 1, 0],
             0xaf63_db4c_8601_ead9, 0x0000_00cb_f29c_e5de);
  }

  lemma SecondStep(h: nat, bytes: seq<Byte>)
    requires h == 0xaf63_db4c_8601_ead9 && bytes != [] && bytes[0] == 111
    ensures HashFrom(h, bytes) == HashFrom(0x0898_5907_b541_d342, bytes[1..])
  {
    HashStep(h, bytes, [217, 108, 54, 27, 13, 6, 3, 1], [111, 55, 27, 13, 6, 3, 1, 0],
             0x0898_5907_b541_d342, 0x0000_00af_63db_4db0);
  }

  lemma ThirdStep(h: nat, bytes: seq<Byte>)
    requires h == 0x0898_5907_b541_d342 && bytes != [] && bytes[0] == 111
    ensures HashFrom(h, bytes) == HashFrom(0xdcb2_7518_fed9_d577, bytes[1..])
  {
    HashStep(h, bytes, [66, 33, 16, 8, 4, 2, 1, 0], [111, 55, 27, 13, 6, 3, 1, 0],
             0xdcb2_7518_fed9_d577, 0x0000_0008_9859_07c3);
  }

  lemma FourthStep(h: nat, bytes: seq<Byte>)
    requires h == 0xdcb2_7518_fed9_d577 && bytes != [] && bytes[0] == 98
    ensures HashFrom(h, bytes) == HashFrom(0xdd12_0e79_0c25_12af, bytes[1..])
  {
    HashStep(h, bytes, [119, 59, 29, 14, 7, 3, 1, 0], [98, 49, 24, 12, 6, 3, 1, 0],
             0xdd12_0e79_0c25_12af, 0x0000_00dc_b275_1a75);
  }

  lemma FifthStep(h: nat, bytes: seq<Byte>)
    requires h == 0xdd12_0e79_0c25_12af && bytes != [] && bytes[0] == 97
    ensures HashFrom(h, bytes) == HashFrom(0xcac1_65af_a2fe_f40a, bytes[1..])
  {
    HashStep(h, bytes, [175, 87, 43, 21, 10, 5, 2, 1], [97, 48, 24, 12, 6, 3, 1, 0],
             0xcac1_65af_a2fe_f40a, 0x0000_00dd_120e_7a83);
  }

  lemma SixthStep(h: nat, bytes: seq<Byte>)
    requires h == 0xcac1_65af_a2fe_f40a && bytes != [] && bytes[0] == 114
    ensures HashFrom(h, bytes) == HashFrom(0x8594_4171_f739_67e8, bytes[1..])
  {
    HashStep(h, bytes, [10, 5, 2, 1, 0, 0, 0, 0], [114, 57, 28, 14, 7, 3, 1, 0],
             0x8594_4171_f739_67e8, 0x0000_00ca_c165_b0fb);
  }

  /** Published values of the 64-bit FNV-1a hash: of no bytes, of "a" and of "foobar". */
  lemma PublishedValues(bytes: seq<Byte>)
    ensures bytes == [] ==> Hash(bytes) == 0xcbf2_9ce4_8422_2325
    ensures bytes == [97] ==> Hash(bytes) == 0xaf63_dc4c_8601_ec8c
    ensures bytes == [102, 111, 111, 98, 97, 114] ==> Hash(bytes) == 0x8594_4171_f739_67e8
  {
    if bytes == [97] {
      HashOfA(OFFSET, bytes);
    } else if bytes == [102, 111, 111, 98, 97, 114] {
      FirstStep(OFFSET, bytes);
      SecondStep(0xaf63_db4c_8601_ead9, bytes[1..]);
      ThirdStep(0x0898_5907_b541_d342, bytes[2..]);
      FourthStep(0xdcb2_7518_fed9_d577, bytes[3..]);
      FifthStep(0xdd12_0e79_0c25_12af, bytes[4..]);
      SixthStep(0xcac1_65af_a2fe_f40a, bytes[5..]);
    }
  }
}
