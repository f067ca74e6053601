/**
 The decimal text of numbers, as `strconv` writes and reads it.

 A `string` stands for a Go string: one `char` per byte.
 */
module Text {
  import opened Results

  const UINT32: nat := 0x1_0000_0000

  predicate IsDigit(c: char) {
    '0' <= c <= '9'
  }

  predicate AllDigits(s: string) {
    forall i :: 0 <= i < |s| ==> IsDigit(s[i])
  }

  function Digit(d: nat): char
    requires d < 10
  {
    '0' + d as char
  }

  /** `strconv.FormatUint(n, 10)`. */
  function Decimal(n: nat): string {
    if n < 10 then [Digit(n)] else Decimal(n / 10) + [Digit(n % 10)]
  }

  /** The number a string of digits denotes, leading zeros allowed. */
  function Value(s: string): nat
    requires AllDigits(s)
  {
    if s == "" then 0 else 10 * Value(s[..|s| - 1]) + (s[|s| - 1] as nat - '0' as nat)
  }

  /** `strconv.ParseUint(s, 10, 32)`: digits only, at least one, below 2^32. */
  function ParseUint32(s: string): Option<nat> {
    if s != "" && AllDigits(s) && Value(s) < UINT32 then Some(Value(s)) else None
  }

  /** Formatting yields digits only, and reading them back yields the number. */
  lemma {:induction false} ValueOfDecimal(n: nat)
    ensures Decimal(n) != "" && AllDigits(Decimal(n))
    ensures Value(Decimal(n)) == n
  {
    if n < 10 {
      assert [Digit(n)][..0] == "";
    } else {
      ValueOfDecimal(n / 10);
      var init := Decimal(n / 10);
      assert Decimal(n)[..|Decimal(n)| - 1] == init;
    }
  }

  /** The wire form of a stream ID is read back exactly when it fits in 32 bits. */
  lemma ParseOfDecimal(n: nat)
    ensures ParseUint32(Decimal(n)) == if n < UINT32 then Some(n) else None
  {
    ValueOfDecimal(n);
  }

  /** Distinct stream IDs have distinct wire forms, so they are distinct keys of the client's map. */
  lemma DecimalInjective(m: nat, n: nat)
    ensures Decimal(m) == Decimal(n) <==> m == n
  {
    ValueOfDecimal(m);
    ValueOfDecimal(n);
  }
}
