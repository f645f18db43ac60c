// Decimal rendering of port numbers, as Python's f-strings produce it, and the
// digit test that the stats folding uses. Port keys and extra-listener tags are
// both built from these strings.
module Decimal {

  predicate IsDigit(c: char) {
    '0' <= c <= '9'
  }

  predicate AllDigits(s: string) {
    forall i :: 0 <= i < |s| ==> IsDigit(s[i])
  }

  function Digit(d: nat): (c: char)
    requires d < 10
    ensures IsDigit(c) && (c - '0') as nat == d
  {
    '0' + d as char
  }

  function Render(n: nat): string {
    if n < 10 then [Digit(n)] else Render(n / 10) + [Digit(n % 10)]
  }

  // The number a digit string stands for: the inverse of Render.
  function Value(s: string): nat
    requires AllDigits(s)
  {
    if s == [] then 0
    else Value(s[..|s| - 1]) * 10 + (s[|s| - 1] - '0') as nat
  }

  lemma {:induction false} RoundTrip(n: nat)
    ensures Render(n) != [] && AllDigits(Render(n))
    ensures Value(Render(n)) == n
  {
    if n >= 10 {
      RoundTrip(n / 10);
      var s := Render(n);
      assert s[..|s| - 1] == Render(n / 10);
    } else {
      assert Render(n)[..0] == [];
    }
  }

  lemma Injective(m: nat, n: nat)
    requires Render(m) == Render(n)
    ensures m == n
  {
    RoundTrip(m);
    RoundTrip(n);
  }
}
