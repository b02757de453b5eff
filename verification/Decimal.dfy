/** Decimal notation of natural numbers, as digit sequences, most significant first. */
module Decimal {
  newtype Digit = d: int | 0 <= d < 10

  function ToDigits(n: nat): (ds: seq<Digit>)
    ensures ds != []
    ensures |ds| > 1 ==> ds[0] != 0
  {
    if n < 10 then [n as Digit] else ToDigits(n / 10) + [(n % 10) as Digit]
  }

  function FromDigits(ds: seq<Digit>): nat {
    if ds == [] then 0 else FromDigits(ds[..|ds| - 1]) * 10 + ds[|ds| - 1] as int
  }

  lemma {:induction false} FromToDigits(n: nat)
    ensures FromDigits(ToDigits(n)) == n
  {
    var ds := ToDigits(n);
    if n < 10 {
      assert ds[..0] == [];
    } else {
      FromToDigits(n / 10);
      assert ds[..|ds| - 1] == ToDigits(n / 10);
    }
  }

  function Pow10(k: nat): (p: nat)
    ensures p >= 1
  {
    if k == 0 then 1 else 10 * Pow10(k - 1)
  }
}
