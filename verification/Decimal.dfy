/** Unsigned 64-bit numbers in decimal, as they are written into names and read back. */
module Decimal {
  import opened Wrappers

  predicate IsDigit(c: char) {
    '0' <= c <= '9'
  }

  function Digit(d: nat): (c: char)
    requires d < 10
    ensures IsDigit(c)
  {
    ('0' as int + d) as char
  }

  function Render(n: nat): (s: string)
    ensures s != [] && forall c | c in s :: IsDigit(c)
  {
    if n < 10 then [Digit(n)] else Render(n / 10) + [Digit(n % 10)]
  }

  /** The value of a digit string read from the left. */
  function Value(s: string): (n: nat)
    requires forall c | c in s :: IsDigit(c)
  {
    if s == [] then 0
    else
      var before, c := s[..|s| - 1], s[|s| - 1];
      assert IsDigit(c) && forall d | d in before :: d in s;
      10 * Value(before) + (c as int - '0' as int)
  }

  /** Reading allows one leading plus sign and leading zeros, and refuses what does not fit. */
  function Parse(s: string): Option<nat> {
    var digits := if s != [] && s[0] == '+' then s[1..] else s;
    if digits == [] || exists c :: c in digits && !IsDigit(c) then None
    else if Value(digits) > U64_MAX then None
    else Some(Value(digits))
  }

  lemma {:induction false} ValueOfRender(n: nat)
    ensures Value(Render(n)) == n
  {
    if n >= 10 {
      ValueOfRender(n / 10);
      var s := Render(n / 10) + [Digit(n % 10)];
      assert s[..|s| - 1] == Render(n / 10);
    }
  }

  lemma RoundTrip(n: nat)
    requires n <= U64_MAX
    ensures Parse(Render(n)) == Some(n)
  {
    ValueOfRender(n);
    assert Render(n)[0] in Render(n);
  }
}
