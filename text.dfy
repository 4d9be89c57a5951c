/**
 * Character and string helpers shared by the Python tools and the C++ test
 * harness: decimal formatting and parsing, splitting, stripping, ASCII case
 * folding and the last occurrence of a character.
 */
module Text {
  import opened Wrappers

  predicate IsDigit(c: char)
  {
    '0' <= c <= '9'
  }

  predicate AllDigits(s: string)
  {
    forall i :: 0 <= i < |s| ==> IsDigit(s[i])
  }

  function DigitChar(d: nat): (c: char)
    requires d < 10
    ensures IsDigit(c)
  {
    (d + '0' as int) as char
  }

  function DigitValue(c: char): (d: nat)
    requires IsDigit(c)
    ensures d < 10 && DigitChar(d) == c
  {
    c as int - '0' as int
  }

  /** Decimal digits of n, most significant first, without leading zeros (Python's str(n), C's %d). */
  function NatToString(n: nat): (s: string)
    ensures |s| >= 1 && AllDigits(s)
    ensures n >= 10 ==> s[0] != '0'
  {
    if n < 10 then [DigitChar(n)] else NatToString(n / 10) + [DigitChar(n % 10)]
  }

  /** The number written by a string of decimal digits. */
  function DigitsValue(s: string): nat
    requires AllDigits(s)
  {
    if s == [] then 0 else DigitsValue(s[..|s| - 1]) * 10 + DigitValue(s[|s| - 1])
  }

  /** Decimal form of an integer: a minus sign for negative values. */
  function IntToString(i: int): (s: string)
    ensures |s| >= 1
    ensures i >= 0 <==> s[0] != '-'
  {
    if i < 0 then "-" + NatToString(-i) else NatToString(i)
  }

  /** Whitespace removed by Python's str.strip() and accepted around int() literals (ASCII part). */
  predicate IsSpace(c: char)
  {
    c == ' ' || c == '\t' || c == '\n' || c == '\r' || c == '\U{B}' || c == '\U{C}'
    || ('\U{1C}' <= c <= '\U{1F}')
  }

  function StripLeft(s: string): (r: string)
    ensures |r| <= |s| && r == s[|s| - |r|..]
    ensures r == [] || !IsSpace(r[0])
  {
    if s != [] && IsSpace(s[0]) then StripLeft(s[1..]) else s
  }

  function StripRight(s: string): (r: string)
    ensures |r| <= |s| && r == s[..|r|]
    ensures r == [] || !IsSpace(r[|r| - 1])
  {
    if s != [] && IsSpace(s[|s| - 1]) then StripRight(s[..|s| - 1]) else s
  }

  /** Python's str.strip() with no argument. */
  function Strip(s: string): (r: string)
    ensures r == [] || (!IsSpace(r[0]) && !IsSpace(r[|r| - 1]))
  {
    StripRight(StripLeft(s))
  }

  /** Python's int() on a string: optional sign and decimal digits, surrounded by optional whitespace. */
  function ParseInt(s: string): (r: Option<int>)
  {
    var t := Strip(s);
    if |t| >= 1 && (t[0] == '-' || t[0] == '+') then
      (if |t| >= 2 && AllDigits(t[1..])
       then Some(if t[0] == '-' then 0 - DigitsValue(t[1..]) else DigitsValue(t[1..]) as int)
       else None)
    else if |t| >= 1 && AllDigits(t) then Some(DigitsValue(t))
    else None
  }

  /** isspace() in the C locale. */
  predicate IsCSpace(c: char)
  {
    c == ' ' || c == '\t' || c == '\n' || c == '\U{B}' || c == '\U{C}' || c == '\r'
  }

  function SkipCSpace(s: string): (r: string)
    ensures |r| <= |s| && r == s[|s| - |r|..]
    ensures r == [] || !IsCSpace(r[0])
  {
    if s != [] && IsCSpace(s[0]) then SkipCSpace(s[1..]) else s
  }

  /** The longest run of decimal digits at the start of s. */
  function DigitPrefix(s: string): (r: string)
    ensures AllDigits(r) && |r| <= |s| && r == s[..|r|]
    ensures |r| == |s| || !IsDigit(s[|r|])
  {
    if s != [] && IsDigit(s[0]) then [s[0]] + DigitPrefix(s[1..]) else []
  }

  /**
   * C's atoi: leading white space, an optional sign, then as many decimal
   * digits as follow; anything else ends the number, and no digits give 0.
   * (Overflow of int is undefined in C and not modelled: the result is unbounded.)
   */
  function Atoi(s: string): int
  {
    var t := SkipCSpace(s);
    if t != [] && t[0] == '-' then 0 - DigitsValue(DigitPrefix(t[1..]))
    else if t != [] && t[0] == '+' then DigitsValue(DigitPrefix(t[1..]))
    else DigitsValue(DigitPrefix(t))
  }

  /** Python's s.split(sep) for a one-character separator. */
  function Split(s: string, sep: char): (parts: seq<string>)
    ensures |parts| >= 1
    ensures forall k :: 0 <= k < |parts| ==> sep !in parts[k]
  {
    if s == [] then [""]
    else
      var rest := Split(s[1..], sep);
      if s[0] == sep then [""] + rest else [[s[0]] + rest[0]] + rest[1..]
  }

  /** Index of the last occurrence of c in s (C's strrchr), if any. */
  function LastIndexOf(s: string, c: char): (r: Option<nat>)
    ensures r.Some? ==> r.value < |s| && s[r.value] == c && c !in s[r.value + 1..]
    ensures r.None? <==> c !in s
  {
    if s == [] then None
    else if s[|s| - 1] == c then Some(|s| - 1)
    else LastIndexOf(s[..|s| - 1], c)
  }

  /** tolower() in the C locale. */
  function AsciiLower(c: char): (r: char)
    ensures 'A' <= c <= 'Z' ==> r as int == c as int + 32
    ensures !('A' <= c <= 'Z') ==> r == c
  {
    if 'A' <= c <= 'Z' then (c as int + 32) as char else c
  }

  /** strcasecmp(a, b) == 0 in the C locale. */
  predicate EqualsIgnoreCase(a: string, b: string)
  {
    |a| == |b| && forall i :: 0 <= i < |a| ==> AsciiLower(a[i]) == AsciiLower(b[i])
  }

  // ---------------------------------------------------------------------------
  // Round trips

  lemma {:induction false} DigitsOfNatToString(n: nat)
    ensures DigitsValue(NatToString(n)) == n
  {
    if n >= 10 {
      var s := NatToString(n);
      assert s[..|s| - 1] == NatToString(n / 10);
      DigitsOfNatToString(n / 10);
    }
  }

  /** Python's int() reads back what str() / an f-string wrote. */
  lemma ParseIntToString(i: int)
    ensures ParseInt(IntToString(i)) == Some(i)
  {
    var s := IntToString(i);
    NoSpaceInDigits(NatToString(if i < 0 then -i else i));
    assert Strip(s) == s by {
      StripNoSpace(s);
    }
    if i < 0 {
      assert s[1..] == NatToString(-i);
      DigitsOfNatToString(-i);
    } else {
      DigitsOfNatToString(i);
    }
  }

  lemma NoSpaceInDigits(s: string)
    requires AllDigits(s)
    ensures forall k :: 0 <= k < |s| ==> !IsSpace(s[k])
  {
  }

  lemma StripNoSpace(s: string)
    requires s != [] && !IsSpace(s[0]) && !IsSpace(s[|s| - 1])
    ensures Strip(s) == s
  {
  }

  /** Splitting "a<sep>b" on sep gives back [a, b] when neither part holds sep. */
  lemma {:induction false} SplitJoin(a: string, b: string, sep: char)
    requires sep !in a && sep !in b
    ensures Split(a + [sep] + b, sep) == [a, b]
  {
    if a == [] {
      assert a + [sep] + b == [sep] + b;
      SplitNoSep(b, sep);
    } else {
      var s := a + [sep] + b;
      assert s[0] == a[0] && s[1..] == a[1..] + [sep] + b;
      SplitJoin(a[1..], b, sep);
      assert [a[0]] + a[1..] == a;
    }
  }

  lemma {:induction false} SplitNoSep(s: string, sep: char)
    requires sep !in s
    ensures Split(s, sep) == [s]
  {
    if s != [] {
      SplitNoSep(s[1..], sep);
      assert [s[0]] + s[1..] == s;
    }
  }

  /** The digit run ends where the digits end. */
  lemma {:induction false} DigitPrefixOfDigits(d: string, rest: string)
    requires AllDigits(d)
    requires rest == [] || !IsDigit(rest[0])
    ensures DigitPrefix(d + rest) == d
  {
    if d != [] {
      assert (d + rest)[1..] == d[1..] + rest;
      DigitPrefixOfDigits(d[1..], rest);
      assert [d[0]] + d[1..] == d;
    } else {
      assert d + rest == rest;
    }
  }

  /** atoi of text that starts with a digit reads its leading digits. */
  lemma AtoiUnsigned(s: string)
    requires s != [] && IsDigit(s[0])
    ensures Atoi(s) == DigitsValue(DigitPrefix(s))
  {
    assert !IsCSpace(s[0]);
    assert SkipCSpace(s) == s;
    assert s[0] != '-' && s[0] != '+';
  }

  /** atoi of text that starts with '-' negates the digits after it. */
  lemma AtoiMinus(s: string)
    requires s != [] && s[0] == '-'
    ensures Atoi(s) == 0 - DigitsValue(DigitPrefix(s[1..]))
  {
    assert SkipCSpace(s) == s;
  }

  /** atoi of digits followed by text that does not start with a digit. */
  lemma AtoiDigits(d: string, rest: string)
    requires |d| >= 1 && AllDigits(d)
    requires rest == [] || !IsDigit(rest[0])
    ensures Atoi(d + rest) == DigitsValue(d)
  {
    var s := d + rest;
    assert s[0] == d[0];
    AtoiUnsigned(s);
    DigitPrefixOfDigits(d, rest);
  }

  /** The same after a '-'. */
  lemma AtoiNegDigits(d: string, rest: string)
    requires |d| >= 1 && AllDigits(d)
    requires rest == [] || !IsDigit(rest[0])
    ensures Atoi("-" + (d + rest)) == 0 - DigitsValue(d)
  {
    var u := "-" + (d + rest);
    assert u[0] == '-' && u[1..] == d + rest;
    AtoiMinus(u);
    DigitPrefixOfDigits(d, rest);
  }

  /** atoi reads back a number printed with %d, whatever non-digit text follows it. */
  lemma AtoiIntToString(i: int, rest: string)
    requires rest == [] || !IsDigit(rest[0])
    ensures Atoi(IntToString(i) + rest) == i
  {
    var n: nat := if i < 0 then -i else i;
    var d := NatToString(n);
    DigitsOfNatToString(n);
    if i < 0 {
      assert IntToString(i) == "-" + d;
      assert IntToString(i) + rest == "-" + (d + rest);
      AtoiNegDigits(d, rest);
    } else {
      assert IntToString(i) == d;
      AtoiDigits(d, rest);
    }
  }

  /** Text that does not start (after white space) with a sign or a digit reads as 0. */
  lemma AtoiNoNumber(s: string)
    requires var t := SkipCSpace(s); t == [] || (!IsDigit(t[0]) && t[0] != '-' && t[0] != '+')
    ensures Atoi(s) == 0
  {
  }

  /** A decimal integer is digits after an optional leading '-', and ends in a digit. */
  lemma IntToStringChars(i: int)
    ensures IsDigit(IntToString(i)[0]) || IntToString(i)[0] == '-'
    ensures forall k :: 1 <= k < |IntToString(i)| ==> IsDigit(IntToString(i)[k])
    ensures IsDigit(IntToString(i)[|IntToString(i)| - 1])
  {
    var d := NatToString(if i < 0 then -i else i);
    if i < 0 {
      assert IntToString(i) == "-" + d;
      assert forall k :: 1 <= k < |IntToString(i)| ==> IntToString(i)[k] == d[k - 1];
    }
  }

  /** A line with text at both ends, as a tool prints it, strips back to itself. */
  lemma StripLine(s: string)
    requires s != [] && !IsSpace(s[0]) && !IsSpace(s[|s| - 1])
    ensures Strip(s + "\n") == s
  {
    var t := s + "\n";
    assert t[0] == s[0];
    assert StripLeft(t) == t;
    assert t[..|t| - 1] == s;
    assert StripRight(t) == StripRight(s);
    StripNoSpace(s);
  }

  // ---------------------------------------------------------------------------
  // Paths

  /** The directory part of a path: up to and including its last '/', or empty. */
  function DirPart(path: string): (d: string)
    ensures |d| <= |path| && d == path[..|d|]
    ensures d == [] || d[|d| - 1] == '/'
    ensures '/' !in path[|d|..]
  {
    match LastIndexOf(path, '/')
    case Some(k) => path[..k + 1]
    case None => []
  }

  /** The file-name part of a path: what follows its last '/'. */
  function BasePart(path: string): (b: string)
    ensures '/' !in b
    ensures DirPart(path) + b == path
  {
    path[|DirPart(path)|..]
  }

  /** An occurrence of c with no c after it is the last one. */
  lemma {:induction false} LastIndexOfUnique(s: string, c: char, j: nat)
    requires j < |s| && s[j] == c && c !in s[j + 1..]
    ensures LastIndexOf(s, c) == Some(j)
  {
    if j < |s| - 1 {
      assert s[|s| - 1] == s[j + 1..][|s| - 1 - (j + 1)];
      assert s[..|s| - 1][j + 1..] == s[j + 1..|s| - 1];
      LastIndexOfUnique(s[..|s| - 1], c, j);
    }
  }

  /** Cutting a path after a directory prefix that ends in '/' finds that prefix again. */
  lemma DirPartAppend(d: string, t: string)
    requires d == [] || d[|d| - 1] == '/'
    requires '/' !in t
    ensures DirPart(d + t) == d
  {
    if d == [] {
      assert d + t == t;
    } else {
      assert (d + t)[|d|..] == t;
      LastIndexOfUnique(d + t, '/', |d| - 1);
      assert (d + t)[..|d|] == d;
    }
  }

  /** pathlib's stem: the file name without its last suffix; a leading dot or a trailing one is no suffix. */
  function Stem(name: string): (r: string)
    ensures |r| <= |name| && r == name[..|r|]
    ensures r != name ==> 0 < |r| < |name| - 1 && name[|r|] == '.' && '.' !in name[|r| + 1..]
  {
    match LastIndexOf(name, '.')
    case Some(i) => if 0 < i < |name| - 1 then name[..i] else name
    case None => name
  }

  /** A stem is part of its name, so a name without '/' gives a stem without one. */
  lemma StemNoSlash(name: string)
    requires '/' !in name
    ensures '/' !in Stem(name)
  {
    assert forall k :: 0 <= k < |Stem(name)| ==> Stem(name)[k] == name[k];
  }
}
