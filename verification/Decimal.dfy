/** Canonical decimal text: how sequence numbers, cursors and `max_members` are printed and read back. */
module Decimal {
  import opened Common

  const CURSOR_DIGITS := 20
  const CURSOR_LIMIT := 100_000_000_000_000_000_000

  predicate IsDigit(c: char) {
    '0' <= c <= '9'
  }

  function DigitValue(c: char): (d: nat)
    requires IsDigit(c)
    ensures d < 10
  {
    c as int - '0' as int
  }

  function DigitChar(d: nat): (c: char)
    requires d < 10
    ensures IsDigit(c) && DigitValue(c) == d
  {
    ('0' as int + d) as char
  }

  /** Python's `str(n)` for a natural number. */
  function Print(n: nat): (s: string) {
    if n < 10 then [DigitChar(n)] else Print(n / 10) + [DigitChar(n % 10)]
  }

  predicate AllDigits(s: string) {
    forall i :: 0 <= i < |s| ==> IsDigit(s[i])
  }

  /** Python's `int(s)` on a string of digits; the empty string stands for zero here. */
  function Value(s: string): nat
    requires AllDigits(s)
  {
    if s == [] then 0 else 10 * Value(s[..|s| - 1]) + DigitValue(s[|s| - 1])
  }

  predicate Canonical(s: string) {
    s != [] && AllDigits(s) && (|s| > 1 ==> s[0] != '0')
  }

  /** `decimal_cursor`: ASCII digits, no leading zero, at most twenty of them, optionally not zero. */
  function ParseCursor(s: string, positive: bool): Option<nat> {
    if !Canonical(s) then None
    else if |s| > CURSOR_DIGITS then None
    else if positive && Value(s) == 0 then None
    else Some(Value(s))
  }

  function Pow10(k: nat): nat {
    if k == 0 then 1 else 10 * Pow10(k - 1)
  }

  lemma {:induction false} PrintIsCanonical(n: nat)
    ensures Canonical(Print(n)) && Value(Print(n)) == n
    ensures n > 0 ==> Print(n)[0] != '0'
  {
    if n >= 10 {
      PrintIsCanonical(n / 10);
      assert Print(n)[..|Print(n)| - 1] == Print(n / 10);
    } else {
      assert Value([DigitChar(n)][..0]) == 0;
    }
  }

  lemma {:induction false} PrintUndoesValue(s: string)
    requires Canonical(s)
    ensures Print(Value(s)) == s
  {
    var prefix := s[..|s| - 1];
    var last := DigitValue(s[|s| - 1]);
    if |s| == 1 {
      assert Value(prefix) == 0;
      assert s == [s[0]];
      assert DigitChar(last) == s[0];
    } else {
      LeadingDigitCounts(prefix);
      PrintUndoesValue(prefix);
      assert s == prefix + [s[|s| - 1]];
      assert Value(s) / 10 == Value(prefix) && Value(s) % 10 == last;
    }
  }

  lemma {:induction false} LeadingDigitCounts(s: string)
    requires s != [] && AllDigits(s) && s[0] != '0'
    ensures Value(s) > 0
  {
    if |s| > 1 {
      LeadingDigitCounts(s[..|s| - 1]);
    } else {
      assert Value(s[..0]) == 0;
    }
  }

  lemma {:induction false} PrintLength(n: nat, k: nat)
    requires k >= 1
    ensures |Print(n)| <= k <==> n < Pow10(k)
  {
    if k == 1 {
      assert Pow10(1) == 10 * Pow10(0);
    } else if n >= 10 {
      PrintLength(n / 10, k - 1);
      assert n / 10 < Pow10(k - 1) <==> n < 10 * Pow10(k - 1);
    } else {
      Pow10Positive(k - 1);
    }
  }

  lemma {:induction false} Pow10Positive(k: nat)
    ensures Pow10(k) >= 1
  {
    if k > 0 {
      Pow10Positive(k - 1);
    }
  }

  lemma {:induction false} Pow10Adds(j: nat, k: nat)
    ensures Pow10(j + k) == Pow10(j) * Pow10(k)
  {
    if j > 0 {
      Pow10Adds(j - 1, k);
      assert Pow10(j + k) == 10 * Pow10(j - 1 + k);
    }
  }

  lemma CursorLimitIsPow10()
    ensures Pow10(CURSOR_DIGITS) == CURSOR_LIMIT
  {
    assert Pow10(5) == 100_000 by {
      assert Pow10(1) == 10 && Pow10(2) == 100 && Pow10(3) == 1_000 && Pow10(4) == 10_000;
    }
    Pow10Adds(5, 5);
    Pow10Adds(10, 10);
  }

  /**
   * A printed sequence number is accepted back, as itself, exactly below 10^20; and every accepted
   * text is the printed form of its value, so no two cursor texts denote one position.
   */
  lemma CursorRoundTrip(n: nat, s: string)
    ensures ParseCursor(Print(n), false) == if n < CURSOR_LIMIT then Some(n) else None
    ensures ParseCursor(Print(n), true) == if 0 < n < CURSOR_LIMIT then Some(n) else None
    ensures ParseCursor(s, false) == Some(n) <==> s == Print(n) && n < CURSOR_LIMIT
  {
    PrintIsCanonical(n);
    PrintLength(n, CURSOR_DIGITS);
    CursorLimitIsPow10();
    if ParseCursor(s, false) == Some(n) {
      PrintUndoesValue(s);
    }
  }
}
