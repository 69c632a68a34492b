/** Decimal numbers in text, and the smallest step of a reader. */
module Digits {
  import opened Values

  function Digit(d: nat): char
    requires d < 10
  {
    "0123456789"[d]
  }

  predicate IsDigit(c: char) {
    '0' <= c <= '9'
  }

  function Decimal(n: nat): string {
    if n < 10 then [Digit(n)] else Decimal(n / 10) + [Digit(n % 10)]
  }

  function ReadDigits(t: string, acc: nat): (nat, string) {
    if t != "" && IsDigit(t[0]) then ReadDigits(t[1..], acc * 10 + (t[0] as int - '0' as int)) else (acc, t)
  }

  lemma {:induction false} ReadDigitsShrinks(t: string, acc: nat)
    ensures |ReadDigits(t, acc).1| <= |t|
  {
    if t != "" && IsDigit(t[0]) { ReadDigitsShrinks(t[1..], acc * 10 + (t[0] as int - '0' as int)); }
  }

  lemma {:induction false} DecimalReads(n: nat, rest: string)
    ensures ReadDigits(Decimal(n) + rest, 0) == ReadDigits(rest, n)
  {
    if n < 10 {
      assert (Decimal(n) + rest)[0] == Digit(n) && (Decimal(n) + rest)[1..] == rest;
    } else {
      var d := Digit(n % 10);
      assert Decimal(n) + rest == Decimal(n / 10) + ([d] + rest);
      DecimalReads(n / 10, [d] + rest);
      assert ([d] + rest)[1..] == rest;
    }
  }

  function Expect(t: string, c: char): (r: Option<string>)
    ensures r.Some? ==> |r.value| < |t|
  {
    if t != "" && t[0] == c then Some(t[1..]) else None
  }

  lemma Expected(c: char, k: string)
    ensures Expect([c] + k, c) == Some(k)
  {
  }
}
