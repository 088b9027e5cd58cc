/** Message refs: the decimal rendering of the client's counter. */
module Refs {

  function Digit(d: nat): (c: char)
    requires d < 10
    ensures '0' <= c <= '9'
  {
    '0' + d as char
  }

  /** `f"{n}"` for a non-negative integer. */
  function Decimal(n: nat): (s: string)
    ensures s != ""
    ensures forall i :: 0 <= i < |s| ==> '0' <= s[i] <= '9'
  {
    if n < 10 then [Digit(n)] else Decimal(n / 10) + [Digit(n % 10)]
  }

  /** The number a digit string denotes; only its value on renderings matters. */
  function Number(s: string): nat {
    if s == "" then 0
    else
      var c := s[|s| - 1];
      10 * Number(s[..|s| - 1]) + if '0' <= c <= '9' then (c - '0') as nat else 0
  }

  /** Reading a rendering back gives the number. */
  lemma {:induction false} NumberOfDecimal(n: nat)
    ensures Number(Decimal(n)) == n
  {
    var s := Decimal(n);
    if n < 10 {
      assert s[..|s| - 1] == "";
    } else {
      NumberOfDecimal(n / 10);
      assert s[..|s| - 1] == Decimal(n / 10);
    }
  }

  /** Two counter values never render alike. */
  lemma DecimalInjective(m: nat, n: nat)
    ensures Decimal(m) == Decimal(n) <==> m == n
  {
    NumberOfDecimal(m);
    NumberOfDecimal(n);
  }
}
