/** Decimal numerals. */
module Decimals {

  function Digits(k: nat): string {
    if k < 10 then [('0' as int + k) as char] else Digits(k / 10) + [('0' as int + k % 10) as char]
  }

  /** The number a string of digits stands for. */
  function Number(s: string): int {
    if s == "" then 0 else 10 * Number(s[..|s| - 1]) + (s[|s| - 1] as int - '0' as int)
  }

  lemma {:induction false} NumberOfDigits(k: nat)
    ensures Number(Digits(k)) == k
  {
    if k >= 10 {
      NumberOfDigits(k / 10);
      assert Digits(k)[..|Digits(k)| - 1] == Digits(k / 10);
    }
  }
}
