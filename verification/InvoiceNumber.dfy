/** Printed invoice numbers: INV-{year}-{sequence, padded to four digits}. */
module InvoiceNumber {
  function DigitChar(d: nat): char
    requires d < 10
  {
    '0' + d as char
  }

  function Digits(n: nat): string {
    if n < 10 then [DigitChar(n)] else Digits(n / 10) + [DigitChar(n % 10)]
  }

  function PadStart(s: string, width: nat): string
    decreases width - |s|
  {
    if width <= |s| then s else PadStart("0" + s, width)
  }

  function Format(year: nat, sequence: nat): string {
    "INV-" + Digits(year) + "-" + PadStart(Digits(sequence), 4)
  }

  // ----- reading a number back -----

  function Value(s: string): int {
    if s == "" then 0 else 10 * Value(s[..|s| - 1]) + (s[|s| - 1] as int - '0' as int)
  }

  function Dash(s: string): (i: nat)
    ensures i <= |s| && '-' !in s[..i]
    ensures i < |s| ==> s[i] == '-'
  {
    if s == "" || s[0] == '-' then 0 else 1 + Dash(s[1..])
  }

  function Parse(number: string): (int, int)
  {
    var body := number[if |number| < 4 then |number| else 4..];
    var i := Dash(body);
    (Value(body[..i]), Value(body[if i < |body| then i + 1 else i..]))
  }

  lemma {:induction false} DigitsValue(n: nat)
    ensures Value(Digits(n)) == n && '-' !in Digits(n)
  {
    if 10 <= n {
      DigitsValue(n / 10);
    }
  }

  lemma {:induction false} LeadingZero(s: string)
    ensures Value("0" + s) == Value(s)
  {
    if s != "" {
      LeadingZero(s[..|s| - 1]);
      assert ("0" + s)[..|s|] == "0" + s[..|s| - 1];
    } else {
      assert ("0" + s)[..0] == "";
    }
  }

  lemma {:induction false} PaddingValue(s: string, width: nat)
    ensures Value(PadStart(s, width)) == Value(s)
    decreases width - |s|
  {
    if |s| < width {
      LeadingZero(s);
      PaddingValue("0" + s, width);
    }
  }

  lemma FirstDash(a: string, b: string)
    requires '-' !in a
    ensures Dash(a + "-" + b) == |a|
  {
    var s := a + "-" + b;
    assert s[|a|] == '-' && s[..|a|] == a;
    assert forall i | |a| < i <= |s| :: s[..i][|a|] == '-';
  }

  /** Parsing undoes printing for all years and sequences, also past 9999. */
  lemma ParseUndoesFormat(year: nat, sequence: nat)
    ensures Parse(Format(year, sequence)) == (year, sequence)
  {
    var a, b := Digits(year), PadStart(Digits(sequence), 4);
    var body := Format(year, sequence)[4..];
    assert body == a + "-" + b;
    DigitsValue(year);
    DigitsValue(sequence);
    PaddingValue(Digits(sequence), 4);
    FirstDash(a, b);
    assert body[..|a|] == a && body[|a| + 1..] == b;
  }
}
