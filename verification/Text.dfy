// The string operations of the Rust standard library that the core relies on.
module Text {
  import opened Prelude

  // char::is_whitespace: the Unicode White_Space property.
  predicate IsWhitespace(c: char)
  {
    var n := c as int;
    || 0x9 <= n <= 0xD || n == 0x20 || n == 0x85 || n == 0xA0 || n == 0x1680
    || 0x2000 <= n <= 0x200A || n == 0x2028 || n == 0x2029 || n == 0x202F || n == 0x205F || n == 0x3000
  }

  /** Among the ASCII characters the blank, the tabulators and the line ends are white space, and among the others
      the no-break and the ideographic space are. */
  lemma {:induction false} WhitespaceTerms(c: char)
    ensures c as int < 0x80 ==> (IsWhitespace(c) <==> c == ' ' || 9 <= c as int <= 13)
    ensures IsWhitespace(0x85 as char) && IsWhitespace(0xA0 as char) && IsWhitespace(0x3000 as char)
  {
  }

  // No white space at either end.
  predicate Trimmed(s: string)
  {
    s != [] ==> !IsWhitespace(s[0]) && !IsWhitespace(s[|s| - 1])
  }

  /** str::trim: the part of the text between its outer white space. */
  function Trim(s: string): (r: string)
    ensures Trimmed(r)
    ensures Trimmed(s) ==> r == s
    ensures forall c :: c in r ==> c in s
    decreases |s|
  {
    if s == [] then s
    else if IsWhitespace(s[0]) then
      assert forall c :: c in s[1..] ==> c in s;
      Trim(s[1..])
    else if IsWhitespace(s[|s| - 1]) then
      assert forall c :: c in s[..|s| - 1] ==> c in s;
      Trim(s[..|s| - 1])
    else s
  }

  predicate Blank(s: string)
  {
    forall i :: 0 <= i < |s| ==> IsWhitespace(s[i])
  }

  lemma {:induction false} TrimFront(before: string, s: string)
    requires Blank(before)
    ensures Trim(before + s) == Trim(s)
  {
    hide IsWhitespace;
    var all := before + s;
    if before == [] {
      assert all == s;
    } else {
      assert all[0] == before[0] && all[1..] == before[1..] + s;
      TrimFront(before[1..], s);
    }
  }

  lemma {:induction false} TrimBack(s: string, after: string)
    requires Blank(after) && s != [] && Trimmed(s)
    ensures Trim(s + after) == s
  {
    hide IsWhitespace;
    var all, n := s + after, |s + after| - 1;
    if after == [] {
      assert all == s;
    } else {
      assert all[0] == s[0] && all[n] == after[|after| - 1] && all[..n] == s + after[..|after| - 1];
      TrimBack(s, after[..|after| - 1]);
    }
  }

  /** Trimming takes off exactly the outer white space. */
  lemma {:induction false} TrimPadded(before: string, text: string, after: string)
    requires Trimmed(text) && Blank(before) && Blank(after)
    ensures Trim(before + text + after) == text
  {
    hide Trim;
    assert before + text + after == before + (text + after);
    TrimFront(before, text + after);
    if text == [] {
      assert text + after == after + [];
      TrimFront(after, []);
      TrimNothing();
    } else {
      TrimBack(text, after);
    }
  }

  lemma {:induction false} TrimNothing()
    ensures Trim([]) == []
  {
  }

  function LowerChar(c: char): char
  {
    if 'A' <= c <= 'Z' then (c as int + 32) as char else c
  }

  // str::to_ascii_lowercase
  function Lower(s: string): (r: string)
    ensures |r| == |s|
    ensures forall i :: 0 <= i < |s| ==> r[i] == LowerChar(s[i])
  {
    seq(|s|, i requires 0 <= i < |s| => LowerChar(s[i]))
  }

  lemma {:induction false} LowerUnchanged(s: string)
    requires forall i :: 0 <= i < |s| ==> !('A' <= s[i] <= 'Z')
    ensures Lower(s) == s
  {
  }

  predicate StartsWith(s: string, prefix: string)
  {
    prefix <= s
  }

  predicate IsDigit(c: char)
  {
    '0' <= c <= '9'
  }

  function DigitChar(d: nat): (c: char)
    requires d < 10
    ensures IsDigit(c) && DigitValue(c) == d
  {
    (d + '0' as int) as char
  }

  function DigitValue(c: char): (d: nat)
    requires IsDigit(c)
    ensures d < 10
  {
    c as int - '0' as int
  }

  function DecimalNat(n: nat): (s: string)
    ensures s != [] && forall c :: c in s ==> IsDigit(c)
  {
    if n < 10 then [DigitChar(n)] else DecimalNat(n / 10) + [DigitChar(n % 10)]
  }

  /** Integer to_string. */
  function Decimal(n: int): (s: string)
    ensures s != [] && (IsDigit(s[0]) || s[0] == '-')
  {
    if n < 0 then "-" + DecimalNat(-n)
    else
      assert DecimalNat(n)[0] in DecimalNat(n);
      DecimalNat(n)
  }

  predicate AllDigits(s: string)
  {
    s != [] && forall i :: 0 <= i < |s| ==> IsDigit(s[i])
  }

  function DigitsValue(s: string): nat
    requires forall i :: 0 <= i < |s| ==> IsDigit(s[i])
  {
    if s == [] then 0 else 10 * DigitsValue(s[..|s| - 1]) + DigitValue(s[|s| - 1])
  }

  /** str::parse for a signed integer type with the given range: an optional sign, then digits only. */
  function ParseInt(s: string, lo: int, hi: int): (r: Option<int>)
    ensures r.Some? ==> lo <= r.value <= hi
  {
    var signed := s != [] && (s[0] == '+' || s[0] == '-');
    var digits := if signed then s[1..] else s;
    if !AllDigits(digits) then None
    else
      var n: int := if signed && s[0] == '-' then 0 - DigitsValue(digits) else DigitsValue(digits);
      if lo <= n <= hi then Some(n) else None
  }

  lemma {:induction false} DigitsOfDecimal(n: nat)
    ensures AllDigits(DecimalNat(n))
    ensures DigitsValue(DecimalNat(n)) == n
  {
    var s := DecimalNat(n);
    assert forall i :: 0 <= i < |s| ==> s[i] in s;
    if n < 10 {
      assert s[..0] == [];
    } else {
      DigitsOfDecimal(n / 10);
      assert s[..|s| - 1] == DecimalNat(n / 10);
    }
  }

  /** Printing an integer and parsing it back gives the integer, within the type's range. */
  lemma {:induction false} ParseDecimal(n: int, lo: int, hi: int)
    requires lo <= n <= hi
    ensures ParseInt(Decimal(n), lo, hi) == Some(n)
  {
    var s := Decimal(n);
    if n < 0 {
      DigitsOfDecimal(-n);
      assert s[0] == '-' && s[1..] == DecimalNat(-n);
    } else {
      DigitsOfDecimal(n);
      assert IsDigit(s[0]);
      assert s[0] != '+' && s[0] != '-';
    }
  }

  lemma {:induction false} DecimalInjective(m: int, n: int)
    requires Decimal(m) == Decimal(n)
    ensures m == n
  {
    ParseDecimal(m, Min(m, n), Max(m, n));
    ParseDecimal(n, Min(m, n), Max(m, n));
  }

  /** A numeral is an optional sign and one or more digits: a plus sign and leading zeros change nothing, and any
      other character makes the text unreadable. */
  lemma {:induction false} NumeralTerms(n: nat, hi: nat, s: string)
    requires n <= hi
    ensures ParseInt("+" + Decimal(n), 0, hi) == Some(n) && ParseInt("0" + Decimal(n), 0, hi) == Some(n)
    ensures (exists i :: 0 < i < |s| && !IsDigit(s[i])) || s == "" || s == "+" || s == "-" ==> ParseInt(s, 0, hi).None?
  {
    DigitsOfDecimal(n);
    var d := Decimal(n);
    assert d == DecimalNat(n);
    assert ("+" + d)[1..] == d;
    ZeroPrefix(d);
    if i :| 0 < i < |s| && !IsDigit(s[i]) {
      assert s[1..][i - 1] == s[i];
    }
  }

  lemma {:induction false} ZeroPrefix(s: string)
    requires forall i :: 0 <= i < |s| ==> IsDigit(s[i])
    ensures forall i :: 0 <= i < |"0" + s| ==> IsDigit(("0" + s)[i])
    ensures DigitsValue("0" + s) == DigitsValue(s)
  {
    var z := "0" + s;
    if s == [] {
      assert z[..0] == [];
    } else {
      ZeroPrefix(s[..|s| - 1]);
      assert z[..|z| - 1] == "0" + s[..|s| - 1];
    }
  }
}
