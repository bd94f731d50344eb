/**
 * Python's `int(text)` on a string, for the offset box, and `str(i)` on an
 * integer, which produces the box's choices. `int` accepts surrounding
 * whitespace, one optional sign and decimal digits that may be grouped by
 * single underscores; anything else raises ValueError, modelled as None.
 */
module PyInt {
  import opened Wrappers

  predicate IsDigit(c: char)
  {
    '0' <= c <= '9'
  }

  /** ASCII whitespace: space, tab, line feed, vertical tab, form feed, carriage return. */
  predicate IsSpace(c: char)
  {
    c == ' ' || c == '\t' || c == '\n' || c == '\U{0B}' || c == '\U{0C}' || c == '\r'
  }

  function DigitValue(c: char): (d: nat)
    requires IsDigit(c)
    ensures d < 10
  {
    (c - '0') as nat
  }

  function DigitChar(d: nat): (c: char)
    requires d < 10
    ensures IsDigit(c) && DigitValue(c) == d
  {
    ('0' as int + d) as char
  }

  /** Drops leading whitespace. */
  function TrimLeft(s: string): (r: string)
    ensures |r| <= |s| && r == s[|s| - |r|..]
    ensures r == [] || !IsSpace(r[0])
  {
    if |s| > 0 && IsSpace(s[0]) then TrimLeft(s[1..]) else s
  }

  /** Drops trailing whitespace. */
  function TrimRight(s: string): (r: string)
    ensures |r| <= |s| && r == s[..|r|]
    ensures r == [] || !IsSpace(r[|r| - 1])
  {
    if |s| > 0 && IsSpace(s[|s| - 1]) then TrimRight(s[..|s| - 1]) else s
  }

  function Strip(s: string): string
  {
    TrimRight(TrimLeft(s))
  }

  /**
   * A digit group as Python's integer literal grammar allows it: digits,
   * where a single underscore may stand between two digits.
   */
  predicate IsDigitGroup(s: string)
  {
    && |s| > 0
    && IsDigit(s[0])
    && IsDigit(s[|s| - 1])
    && (forall i :: 0 <= i < |s| ==> IsDigit(s[i]) || s[i] == '_')
    && (forall i :: 0 < i < |s| && s[i] == '_' ==> s[i - 1] != '_')
  }

  function WithoutUnderscores(s: string): (r: string)
    ensures |r| <= |s|
    ensures forall c :: c in r ==> c in s && c != '_'
  {
    if s == [] then []
    else (if s[0] == '_' then [] else [s[0]]) + WithoutUnderscores(s[1..])
  }

  /** Value of a string of decimal digits, most significant first. */
  function DigitsValue(s: string): nat
    requires forall c :: c in s ==> IsDigit(c)
  {
    if s == [] then 0
    else DigitsValue(s[..|s| - 1]) * 10 + DigitValue(s[|s| - 1])
  }

  /** Removing the underscores of a digit group leaves only digits. */
  lemma DigitGroupDigits(s: string)
    requires IsDigitGroup(s)
    ensures forall c :: c in WithoutUnderscores(s) ==> IsDigit(c)
  {
    forall c | c in WithoutUnderscores(s) ensures IsDigit(c) {
      var i :| 0 <= i < |s| && s[i] == c;
    }
  }

  /** An unsigned digit group's value, or None when the text is not one. */
  function ParseUnsigned(body: string): (r: Option<nat>)
    ensures r.Some? ==> IsDigitGroup(body)
  {
    if IsDigitGroup(body) then
      DigitGroupDigits(body);
      Some(DigitsValue(WithoutUnderscores(body)))
    else None
  }

  /** Text after stripping: an optional sign, then a digit group. */
  function ParseSigned(t: string): Option<int>
  {
    if |t| > 0 && t[0] == '-' then
      match ParseUnsigned(t[1..])
      case Some(v) => Some(-(v as int))
      case None => None
    else if |t| > 0 && t[0] == '+' then
      match ParseUnsigned(t[1..])
      case Some(v) => Some(v)
      case None => None
    else
      match ParseUnsigned(t)
      case Some(v) => Some(v)
      case None => None
  }

  /** A character that may occur in text `int` accepts: a digit, an underscore, whitespace or a sign. */
  predicate IsIntCharacter(c: char)
  {
    IsDigit(c) || c == '_' || IsSpace(c) || c == '-' || c == '+'
  }

  /**
   * `int(text)`: the integer the text denotes, or None where Python raises
   * ValueError. Text that parses holds a digit and no other characters than
   * digits, underscores, whitespace and signs.
   */
  function ParseInt(text: string): (r: Option<int>)
    ensures r.Some? ==> exists c :: c in text && IsDigit(c)
    ensures r.Some? ==> forall c :: c in text ==> IsIntCharacter(c)
  {
    ParseNeedsDigit(text);
    ParseNeedsIntCharacters(text);
    ParseSigned(Strip(text))
  }

  /** Decimal digits of a natural number, without leading zeros. */
  function NatToDigits(n: nat): (s: string)
    ensures |s| > 0 && IsDigit(s[0])
    ensures forall i :: 0 <= i < |s| ==> IsDigit(s[i])
    decreases n
  {
    if n < 10 then [DigitChar(n)] else NatToDigits(n / 10) + [DigitChar(n % 10)]
  }

  /** `str(i)`: a minus sign for negative numbers, then the digits. */
  function Str(i: int): (s: string)
    ensures |s| > 0
    ensures s[0] == '-' <==> i < 0
    ensures forall k :: (if i < 0 then 1 else 0) <= k < |s| ==> IsDigit(s[k])
  {
    if i < 0 then "-" + NatToDigits(-i) else NatToDigits(i)
  }

  lemma {:induction false} DigitsValueOfNatToDigits(n: nat)
    ensures DigitsValue(NatToDigits(n)) == n
    decreases n
  {
    var s := NatToDigits(n);
    if n < 10 {
      assert s[..|s| - 1] == [];
    } else {
      assert s[..|s| - 1] == NatToDigits(n / 10);
      DigitsValueOfNatToDigits(n / 10);
    }
  }

  lemma {:induction false} WithoutUnderscoresOfDigits(s: string)
    requires forall i :: 0 <= i < |s| ==> IsDigit(s[i])
    ensures WithoutUnderscores(s) == s
  {
    if s != [] {
      WithoutUnderscoresOfDigits(s[1..]);
    }
  }

  /** Text with no whitespace at either end is left alone by Strip. */
  lemma StripUnpadded(s: string)
    requires |s| > 0 && !IsSpace(s[0]) && !IsSpace(s[|s| - 1])
    ensures Strip(s) == s
  {
  }

  /** A non-empty run of digits is a digit group and denotes its digit value. */
  lemma ParseDigits(d: string)
    requires |d| > 0 && forall i :: 0 <= i < |d| ==> IsDigit(d[i])
    ensures IsDigitGroup(d)
    ensures WithoutUnderscores(d) == d
  {
    WithoutUnderscoresOfDigits(d);
  }

  /** Unpadded text starting with a digit parses as an unsigned number. */
  lemma ParseUnpaddedUnsigned(d: string, m: nat)
    requires |d| > 0 && IsDigit(d[0]) && IsDigit(d[|d| - 1])
    requires ParseUnsigned(d) == Some(m)
    ensures ParseInt(d) == Some(m)
  {
    StripUnpadded(d);
    assert d[0] != '-' && d[0] != '+';
    assert ParseSigned(d) == Some(m);
  }

  /** A minus sign before unpadded digits negates their value. */
  lemma ParseUnpaddedNegative(d: string, m: nat)
    requires |d| > 0 && IsDigit(d[|d| - 1])
    requires ParseUnsigned(d) == Some(m)
    ensures ParseInt("-" + d) == Some(-(m as int))
  {
    var s := "-" + d;
    assert s[0] == '-' && s[1..] == d && s[|s| - 1] == d[|d| - 1];
    StripUnpadded(s);
  }

  /** The digits `str` prints for a natural number parse back to it. */
  lemma ParseNatToDigits(m: nat)
    ensures ParseUnsigned(NatToDigits(m)) == Some(m)
  {
    var d := NatToDigits(m);
    ParseDigits(d);
    DigitsValueOfNatToDigits(m);
  }

  /** Parsing what `str` prints gives the number back, for every integer. */
  lemma ParseStr(i: int)
    ensures ParseInt(Str(i)) == Some(i)
  {
    var m: nat := if i < 0 then -i else i;
    var d := NatToDigits(m);
    ParseNatToDigits(m);
    if i < 0 {
      ParseUnpaddedNegative(d, m);
    } else {
      ParseUnpaddedUnsigned(d, m);
    }
  }

  /** Stripping keeps every character that is not whitespace. */
  lemma {:induction false} StripKeeps(s: string, c: char)
    requires c in s && !IsSpace(c)
    ensures c in Strip(s)
  {
    TrimLeftKeeps(s, c);
    TrimRightKeeps(TrimLeft(s), c);
  }

  lemma {:induction false} TrimLeftKeeps(s: string, c: char)
    requires c in s && !IsSpace(c)
    ensures c in TrimLeft(s)
  {
    if IsSpace(s[0]) {
      assert c in s[1..];
      TrimLeftKeeps(s[1..], c);
    }
  }

  lemma {:induction false} TrimRightKeeps(s: string, c: char)
    requires c in s && !IsSpace(c)
    ensures c in TrimRight(s)
  {
    if IsSpace(s[|s| - 1]) {
      assert c in s[..|s| - 1];
      TrimRightKeeps(s[..|s| - 1], c);
    }
  }

  /** Text holding a character that is neither a digit, an underscore, whitespace nor a sign is refused: "1.5", "abc". */
  lemma {:induction false} RejectsForeignCharacter(text: string, c: char)
    requires c in text && !IsIntCharacter(c)
    ensures ParseSigned(Strip(text)) == None
  {
    StripKeeps(text, c);
    var t := Strip(text);
    var i :| 0 <= i < |t| && t[i] == c;
    var body := if |t| > 0 && (t[0] == '-' || t[0] == '+') then t[1..] else t;
    assert body[if body == t then i else i - 1] == c;
  }

  /** Text without a digit is refused, the empty string and a bare sign among it. */
  lemma {:induction false} RejectsDigitless(text: string)
    requires forall c :: c in text ==> !IsDigit(c)
    ensures ParseSigned(Strip(text)) == None
  {
    var t := Strip(text);
    var body := if |t| > 0 && (t[0] == '-' || t[0] == '+') then t[1..] else t;
    if |body| > 0 {
      assert body[0] in t;
      assert t == TrimLeft(text)[..|t|];
      assert body[0] in text;
    }
  }

  lemma ParseNeedsDigit(text: string)
    ensures ParseSigned(Strip(text)).Some? ==> exists c :: c in text && IsDigit(c)
  {
    if forall c :: c in text ==> !IsDigit(c) {
      RejectsDigitless(text);
    }
  }

  lemma ParseNeedsIntCharacters(text: string)
    ensures ParseSigned(Strip(text)).Some? ==> forall c :: c in text ==> IsIntCharacter(c)
  {
    if exists c :: c in text && !IsIntCharacter(c) {
      var c :| c in text && !IsIntCharacter(c);
      RejectsForeignCharacter(text, c);
    }
  }

  /** Every choice the offset box offers, "-12" through "12", parses to itself. */
  lemma OffsetChoicesParse(i: int)
    requires -12 <= i <= 12
    ensures ParseInt(Str(i)) == Some(i)
  {
    ParseStr(i);
  }
}
