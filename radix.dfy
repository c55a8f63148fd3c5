/** `Number.prototype.toString(radix)` on non-negative integers, and the
    matching digit parser. */
module Radix {
  import opened Wrappers
  import Text

  /** The digit JavaScript prints for `d` (lower-case letters from 10 on). */
  function DigitChar(d: nat): (c: char)
    requires d < 36
    ensures d < 10 ==> '0' <= c <= '9'
    ensures d >= 10 ==> 'a' <= c <= 'z'
    ensures c == '0' <==> d == 0
  {
    if d < 10 then ('0' as int + d) as char else ('a' as int + d - 10) as char
  }

  /** The value of a digit in either case, or None for a non-digit. */
  function DigitValue(c: char): (r: Option<nat>)
    ensures r.Some? ==> r.value < 36
  {
    if '0' <= c <= '9' then Some(c as int - '0' as int)
    else if 'a' <= c <= 'z' then Some(c as int - 'a' as int + 10)
    else if 'A' <= c <= 'Z' then Some(c as int - 'A' as int + 10)
    else None
  }

  /** `n.toString(radix)`. */
  function ToRadixString(n: nat, radix: nat): (r: string)
    requires 2 <= radix <= 36
    ensures |r| >= 1 && r[0] != '-'
    ensures r[0] == '0' <==> n == 0
    ensures n == 0 ==> r == "0"
    ensures |r| == 1 || r[0] != '0'
    decreases n
  {
    if n < radix then [DigitChar(n)]
    else
      DivMod(n, radix);
      var high := ToRadixString(n / radix, radix);
      assert (high + [DigitChar(n % radix)])[0] == high[0];
      high + [DigitChar(n % radix)]
  }

  /** One more digit after what has been read: None once anything is
      invalid, otherwise the value shifted by one place plus the digit. */
  function AppendDigit(high: Option<nat>, d: Option<nat>, radix: nat): (r: Option<nat>)
    requires 2 <= radix
    ensures r.Some? <==> high.Some? && d.Some? && d.value < radix
  {
    if high.None? || d.None? || d.value >= radix then None
    else Some(high.value * radix + d.value)
  }

  /** Reads a non-empty string of digits below `radix`, either case. */
  function ParseRadix(s: string, radix: nat): (r: Option<nat>)
    requires 2 <= radix <= 36
    decreases |s|
  {
    if s == [] then None
    else
      var high := if |s| == 1 then Some(0) else ParseRadix(s[..|s| - 1], radix);
      AppendDigit(high, DigitValue(s[|s| - 1]), radix)
  }

  /** `n.toString(10)` for any integer. */
  function IntToString(n: int): (r: string)
    ensures |r| >= 1
    ensures n < 0 <==> r[0] == '-'
  {
    if n < 0 then "-" + ToRadixString(-n, 10) else ToRadixString(n, 10)
  }

  /** Reads what IntToString prints. */
  function ParseInt(s: string): Option<int> {
    if |s| >= 1 && s[0] == '-' then
      match ParseRadix(s[1..], 10)
      case Some(v) => if v == 0 then None else Option<int>.Some(-(v as int))
      case None => None
    else
      match ParseRadix(s, 10)
      case Some(v) => Some(v)
      case None => None
  }

  lemma DigitRoundTrip(d: nat)
    requires d < 36
    ensures DigitValue(DigitChar(d)) == Some(d)
    ensures DigitValue(Text.UpperChar(DigitChar(d))) == Some(d)
  {
  }

  lemma DivMod(n: nat, radix: nat)
    requires 2 <= radix
    ensures n / radix < n || n == 0
    ensures (n / radix) * radix + n % radix == n
  {
  }

  /** `toString(radix)` prints only digits and lower-case letters. */
  lemma {:induction false} RadixAlphabet(n: nat, radix: nat)
    requires 2 <= radix <= 36
    ensures forall i :: 0 <= i < |ToRadixString(n, radix)| ==>
      var c := ToRadixString(n, radix)[i]; '0' <= c <= '9' || 'a' <= c <= 'z'
    decreases n
  {
    if n >= radix {
      DivMod(n, radix);
      RadixAlphabet(n / radix, radix);
    }
  }

  /** Appending a digit multiplies what was read by the radix and adds it. */
  lemma ParseSnoc(s: string, c: char, radix: nat, high: nat, d: nat)
    requires 2 <= radix <= 36
    requires ParseRadix(s, radix) == Some(high) && DigitValue(c) == Some(d) && d < radix
    ensures ParseRadix(s + [c], radix) == Some(high * radix + d)
  {
    var t := s + [c];
    assert t[..|t| - 1] == s;
    assert t[|t| - 1] == c;
  }

  lemma {:induction false} ParseRoundTrip(n: nat, radix: nat)
    requires 2 <= radix <= 36
    ensures ParseRadix(ToRadixString(n, radix), radix) == Some(n)
    decreases n
  {
    if n < radix {
      DigitRoundTrip(n);
    } else {
      var q, d := n / radix, n % radix;
      DivMod(n, radix);
      DigitRoundTrip(d);
      ParseRoundTrip(q, radix);
      assert ToRadixString(n, radix) == ToRadixString(q, radix) + [DigitChar(d)];
      ParseSnoc(ToRadixString(q, radix), DigitChar(d), radix, q, d);
    }
  }

  /** The parser does not see letter case. */
  lemma {:induction false} ParseUpper(s: string, radix: nat)
    requires 2 <= radix <= 36
    ensures ParseRadix(Text.ToUpper(s), radix) == ParseRadix(s, radix)
    decreases |s|
  {
    if s != [] {
      var u := Text.ToUpper(s);
      var init := s[..|s| - 1];
      DigitUpper(s[|s| - 1]);
      if |s| > 1 {
        assert u[..|u| - 1] == Text.ToUpper(init);
        ParseUpper(init, radix);
      }
      ParseSameDigits(u, s, radix);
    }
  }

  /** Two strings whose last digits have the same value and whose prefixes
      read the same read the same. */
  lemma ParseSameDigits(u: string, s: string, radix: nat)
    requires 2 <= radix <= 36
    requires |u| == |s| > 0
    requires DigitValue(u[|u| - 1]) == DigitValue(s[|s| - 1])
    requires |s| > 1 ==> ParseRadix(u[..|u| - 1], radix) == ParseRadix(s[..|s| - 1], radix)
    ensures ParseRadix(u, radix) == ParseRadix(s, radix)
  {
  }

  lemma DigitUpper(c: char)
    ensures DigitValue(Text.UpperChar(c)) == DigitValue(c)
  {
  }

  /** `n.toString(36).toUpperCase()` uses only 0-9 and A-Z and reads back as `n`. */
  lemma Base36UpperRoundTrip(n: nat)
    ensures forall i :: 0 <= i < |Text.ToUpper(ToRadixString(n, 36))| ==>
      var c := Text.ToUpper(ToRadixString(n, 36))[i]; '0' <= c <= '9' || 'A' <= c <= 'Z'
    ensures ParseRadix(Text.ToUpper(ToRadixString(n, 36)), 36) == Some(n)
  {
    var r := ToRadixString(n, 36);
    RadixAlphabet(n, 36);
    UpperAlphabet(r);
    ParseUpper(r, 36);
    ParseRoundTrip(n, 36);
  }

  /** Upper-casing digits and lower-case letters gives digits and capitals. */
  lemma UpperAlphabet(s: string)
    requires forall i :: 0 <= i < |s| ==> '0' <= s[i] <= '9' || 'a' <= s[i] <= 'z'
    ensures forall i :: 0 <= i < |Text.ToUpper(s)| ==>
      var c := Text.ToUpper(s)[i]; '0' <= c <= '9' || 'A' <= c <= 'Z'
  {
    forall i | 0 <= i < |Text.ToUpper(s)|
      ensures '0' <= Text.ToUpper(s)[i] <= '9' || 'A' <= Text.ToUpper(s)[i] <= 'Z'
    {
      assert Text.ToUpper(s)[i] == Text.UpperChar(s[i]);
    }
  }

  lemma IntToStringRoundTrip(n: int)
    ensures ParseInt(IntToString(n)) == Some(n)
  {
    var s := IntToString(n);
    if n < 0 {
      assert s[0] == '-' && s[1..] == ToRadixString(-n, 10);
      ParseRoundTrip(-n, 10);
    } else {
      assert s == ToRadixString(n, 10) && s[0] != '-';
      ParseRoundTrip(n, 10);
    }
  }
}
