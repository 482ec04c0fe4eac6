/** Decimal numbers as Python prints and reads them (ASCII digits). */
module Decimal {
  import opened Wrappers
  import opened Text

  predicate IsDigit(c: char) {
    '0' <= c <= '9'
  }

  function Digit(n: nat): (c: char)
    requires n < 10
    ensures IsDigit(c) && c as int - '0' as int == n
  {
    ('0' as int + n) as char
  }

  /** `str(n)`. */
  function Print(n: nat): (s: string)
    ensures s != "" && forall i | 0 <= i < |s| :: IsDigit(s[i])
  {
    if n < 10 then [Digit(n)] else Print(n / 10) + [Digit(n % 10)]
  }

  /** Digits with single underscores between them. */
  predicate IsNumeral(s: string) {
    s != "" && IsDigit(s[|s| - 1]) &&
    (|s| == 1 || IsNumeral(if s[|s| - 2] == '_' then s[..|s| - 2] else s[..|s| - 1]))
  }

  function ValueOf(s: string): nat {
    if s == "" then 0
    else
      var c := s[|s| - 1];
      if IsDigit(c) then 10 * ValueOf(s[..|s| - 1]) + (c as int - '0' as int) else ValueOf(s[..|s| - 1])
  }

  /** `int(s)`: white space around, a sign, a numeral; None where Python raises. */
  function Parse(s: string): Option<int> {
    var t := Strip(s);
    if t == "" then None
    else if t[0] == '-' then if IsNumeral(t[1..]) then Some(-(ValueOf(t[1..]) as int)) else None
    else if t[0] == '+' then if IsNumeral(t[1..]) then Some(ValueOf(t[1..])) else None
    else if IsNumeral(t) then Some(ValueOf(t)) else None
  }

  lemma {:induction false} PrintIsNumeral(n: nat)
    ensures IsNumeral(Print(n)) && ValueOf(Print(n)) == n
  {
    var s := Print(n);
    if n >= 10 {
      PrintIsNumeral(n / 10);
      assert s[..|s| - 1] == Print(n / 10);
    } else {
      assert s[..0] == "";
    }
  }

  lemma DigitPlain(c: char)
    requires IsDigit(c)
    ensures !IsSpace(c) && c != '-' && c != '+' && c != '$' && c != ','
  {}

  /** Printed numbers are read back. */
  lemma PrintParse(n: nat)
    ensures Parse(Print(n)) == Some(n)
  {
    var s := Print(n);
    PrintIsNumeral(n);
    DigitPlain(s[0]);
    DigitPlain(s[|s| - 1]);
    StripStripped(s);
    hide Strip, IsNumeral, ValueOf;
  }

  /** The digits, written out: the last one is the remainder by ten, and no number but 0 starts
      with a 0. */
  lemma {:induction false} PrintIs(n: nat)
    ensures n < 10 ==> Print(n) == [('0' as int + n) as char]
    ensures n >= 10 ==> Print(n) == Print(n / 10) + [('0' as int + n % 10) as char]
    ensures n > 0 ==> Print(n)[0] != '0'
  {
    if n >= 10 {
      PrintIs(n / 10);
    }
  }

  /** A sign is read as well. */
  lemma SignedParse(n: nat)
    ensures Parse("-" + Print(n)) == Some(-(n as int)) && Parse("+" + Print(n)) == Some(n)
  {
    var s := Print(n);
    PrintIsNumeral(n);
    DigitPlain(s[|s| - 1]);
    assert ("-" + s)[1..] == s && ("+" + s)[1..] == s;
    StripStripped("-" + s);
    StripStripped("+" + s);
    hide Strip, IsNumeral, ValueOf, Print;
  }

  /** White space around makes no difference. */
  lemma SpacedParse(s: string, blank: string)
    requires IsBlank(blank)
    ensures Parse(blank + s) == Parse(s)
  {
    LStripBlankPrefix(blank, s);
    StripIs(blank + s);
    StripIs(s);
    hide Strip, LStrip, RStrip, IsNumeral, ValueOf;
  }

  lemma StripIs(s: string)
    ensures Strip(s) == RStrip(LStrip(s))
  {}

  lemma {:induction false} NumeralChars(s: string)
    requires IsNumeral(s)
    ensures forall i | 0 <= i < |s| :: IsDigit(s[i]) || s[i] == '_'
    ensures IsDigit(s[0])
  {
    if |s| > 1 {
      NumeralChars(if s[|s| - 2] == '_' then s[..|s| - 2] else s[..|s| - 1]);
    }
  }

  /** Anything else is refused. */
  lemma ParseRefuses(s: string, i: nat)
    requires i < |s| && !IsDigit(s[i]) && s[i] != '_' && s[i] != '-' && s[i] != '+' && !IsSpace(s[i])
    ensures Parse(s) == None
  {
    var t := Strip(s);
    var k := Kept(s, i);
    hide Strip;
    if IsNumeral(t) {
      NumeralChars(t);
    }
    assert forall j | 0 <= j < |t| - 1 :: t[1..][j] == t[j + 1];
    if t != "" && IsNumeral(t[1..]) {
      NumeralChars(t[1..]);
    }
    hide IsNumeral, ValueOf;
  }

  /** Stripping keeps every character that is not white space. */
  lemma Kept(s: string, i: nat) returns (k: nat)
    requires i < |s| && !IsSpace(s[i])
    ensures k < |Strip(s)| && Strip(s)[k] == s[i]
  {
    hide IsSpace, LStrip, RStrip, Strip;
    StripIs(s);
    var l := LStrip(s);
    LStripCut(s);
    var d := |s| - |l|;
    assert s[..d] + l == s;
    assert forall j | 0 <= j < d :: IsSpace(s[..d][j]) && s[..d][j] == s[j];
    RStripCut(l);
    var r := |RStrip(l)|;
    assert forall j | r <= j < |l| :: IsSpace(l[r..][j - r]) && l[r..][j - r] == l[j];
    k := i - d;
    assert l[k] == s[i];
  }
}
