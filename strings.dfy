/** String helpers shared by the TypeScript and Python models: the languages' built-in string
    order, integer printing in a radix, `join`, `substring`, `trim` and ASCII lower-casing. */
module Strings {
  import opened Wrappers

  // ---------------------------------------------------------------------------
  // String order: JavaScript's and Python's `a < b` compare character by character,
  // and a proper prefix is smaller. (Dafny's own `<` on sequences is "proper prefix".)
  // ---------------------------------------------------------------------------

  predicate Less(a: string, b: string) {
    if |a| == 0 then |b| > 0
    else if |b| == 0 then false
    else if a[0] != b[0] then a[0] < b[0]
    else Less(a[1..], b[1..])
  }

  predicate LessEq(a: string, b: string) {
    a == b || Less(a, b)
  }

  lemma {:induction false} LessIrreflexive(a: string)
    ensures !Less(a, a)
  {
    if |a| > 0 {
      LessIrreflexive(a[1..]);
    }
  }

  lemma {:induction false} LessAsymmetric(a: string, b: string)
    ensures !(Less(a, b) && Less(b, a))
  {
    if |a| > 0 && |b| > 0 && a[0] == b[0] {
      LessAsymmetric(a[1..], b[1..]);
    }
  }

  lemma {:induction false} LessTransitive(a: string, b: string, c: string)
    requires Less(a, b) && Less(b, c)
    ensures Less(a, c)
  {
    if |a| > 0 && a[0] == b[0] && b[0] == c[0] {
      LessTransitive(a[1..], b[1..], c[1..]);
    }
  }

  lemma {:induction false} LessTotal(a: string, b: string)
    ensures a == b || Less(a, b) || Less(b, a)
  {
    if |a| > 0 && |b| > 0 && a[0] == b[0] {
      LessTotal(a[1..], b[1..]);
      if a[1..] == b[1..] {
        assert a == [a[0]] + a[1..] && b == [b[0]] + b[1..];
      }
    }
  }

  lemma LessEqTransitive(a: string, b: string, c: string)
    requires LessEq(a, b) && LessEq(b, c)
    ensures LessEq(a, c)
  {
    if a != b && b != c {
      LessTransitive(a, b, c);
    }
  }

  /** The larger / smaller of two strings in string order (ties keep the first). */
  function MaxStr(a: string, b: string): (r: string)
    ensures r == a || r == b
    ensures LessEq(a, r) && LessEq(b, r)
  {
    LessTotal(a, b);
    if Less(a, b) then b else a
  }

  function MinStr(a: string, b: string): (r: string)
    ensures r == a || r == b
    ensures LessEq(r, a) && LessEq(r, b)
  {
    LessTotal(a, b);
    if Less(b, a) then b else a
  }

  // ---------------------------------------------------------------------------
  // Integers as text: `n.toString(radix)` in JavaScript, `str(n)` in Python.
  // ---------------------------------------------------------------------------

  /** The digit for 0 <= d < 36: "0".."9" then "a".."z". */
  function DigitChar(d: nat): (c: char)
    requires d < 36
  {
    if d < 10 then ('0' as int + d) as char else ('a' as int + d - 10) as char
  }

  /** The value of a digit character, 36 for any other character. */
  function DigitValue(c: char): (d: nat)
    ensures d < 36 ==> DigitChar(d) == c
  {
    if '0' <= c <= '9' then (c - '0') as nat
    else if 'a' <= c <= 'z' then (c - 'a') as nat + 10
    else 36
  }

  lemma DivMod(n: nat, radix: nat)
    requires 2 <= radix <= n
    ensures 0 <= n / radix < n && 0 <= n % radix < radix
    ensures n == (n / radix) * radix + n % radix
  {
  }

  function NatToRadix(n: nat, radix: nat): (s: string)
    requires 2 <= radix <= 36
    ensures |s| >= 1
    ensures forall i :: 0 <= i < |s| ==> DigitValue(s[i]) < radix
    decreases n
  {
    if n < radix then [DigitChar(n)]
    else
      DivMod(n, radix);
      var d := n % radix;
      NatToRadix(n / radix, radix) + [DigitChar(d)]
  }

  /** The number a string of digits denotes (the reference inverse of NatToRadix). */
  function RadixValue(s: string, radix: nat): nat
    decreases |s|
  {
    if |s| == 0 then 0
    else RadixValue(s[..|s| - 1], radix) * radix + DigitValue(s[|s| - 1])
  }

  lemma {:induction false} RadixRoundTrip(n: nat, radix: nat)
    requires 2 <= radix <= 36
    ensures RadixValue(NatToRadix(n, radix), radix) == n
  {
    var s := NatToRadix(n, radix);
    if n >= radix {
      DivMod(n, radix);
      RadixRoundTrip(n / radix, radix);
      assert s[..|s| - 1] == NatToRadix(n / radix, radix);
      assert DigitValue(s[|s| - 1]) == n % radix;
    } else {
      assert DigitValue(s[0]) == n;
    }
  }

  function NatToString(n: nat): string {
    NatToRadix(n, 10)
  }

  /** Decimal text of an integer, with a leading "-" when negative. */
  function IntToString(i: int): (s: string)
    ensures |s| >= 1
  {
    if i < 0 then "-" + NatToString(-i) else NatToString(i)
  }

  predicate AllDecimal(s: string) {
    forall i :: 0 <= i < |s| ==> DigitValue(s[i]) < 10
  }

  /** Reads back what IntToString prints: an optional "-" and at least one decimal digit. */
  function ParseDecimal(s: string): Option<int> {
    if |s| > 0 && s[0] == '-' then
      (if |s| > 1 && AllDecimal(s[1..]) then Some(0 - RadixValue(s[1..], 10) as int) else None)
    else if |s| > 0 && AllDecimal(s) then Some(RadixValue(s, 10))
    else None
  }

  lemma DecimalRoundTrip(i: int)
    ensures ParseDecimal(IntToString(i)) == Some(i)
  {
    var t := NatToString(if i < 0 then -i else i);
    RadixRoundTrip(if i < 0 then -i else i, 10);
    assert AllDecimal(t);
    if i < 0 {
      var s := "-" + t;
      assert s[1..] == t;
      assert ParseDecimal(s) == Some(0 - RadixValue(t, 10) as int);
    } else {
      assert DigitValue(t[0]) < 10;
      assert t[0] != '-';
    }
  }

  // ---------------------------------------------------------------------------
  // Joining, substrings, whitespace and case
  // ---------------------------------------------------------------------------

  /** `parts.join(sep)` / `sep.join(parts)`. */
  function Join(parts: seq<string>, sep: string): string
    decreases |parts|
  {
    if |parts| == 0 then ""
    else if |parts| == 1 then parts[0]
    else parts[0] + sep + Join(parts[1..], sep)
  }

  /** JavaScript's `s.substring(0, n)` for n >= 0. */
  function Prefix(s: string, n: nat): (r: string)
    ensures |r| == if |s| < n then |s| else n
    ensures r <= s
  {
    if |s| <= n then s else s[..n]
  }

  /** The characters JavaScript's `\s` and `String.prototype.trim` treat as white space. */
  predicate IsJsSpace(c: char) {
    c == '\t' || c == '\n' || c == '\U{000B}' || c == '\U{000C}' || c == '\r' || c == ' '
    || c == '\U{00A0}' || c == '\U{1680}' || ('\U{2000}' <= c <= '\U{200A}')
    || c == '\U{2028}' || c == '\U{2029}' || c == '\U{202F}' || c == '\U{205F}'
    || c == '\U{3000}' || c == '\U{FEFF}'
  }

  /** Every character of `u` is white space. */
  predicate AllJsSpace(u: string)
    decreases |u|
  {
    |u| == 0 || (IsJsSpace(u[0]) && AllJsSpace(u[1..]))
  }

  lemma {:induction false} AllJsSpaceAt(u: string, i: int)
    requires AllJsSpace(u) && 0 <= i < |u|
    ensures IsJsSpace(u[i])
    decreases |u|
  {
    if i > 0 {
      AllJsSpaceAt(u[1..], i - 1);
    }
  }

  lemma {:induction false} AllJsSpaceSnoc(u: string, c: char)
    requires AllJsSpace(u) && IsJsSpace(c)
    ensures AllJsSpace(u + [c])
    decreases |u|
  {
    if |u| > 0 {
      assert (u + [c])[1..] == u[1..] + [c];
      AllJsSpaceSnoc(u[1..], c);
    }
  }

  /** `s.trimStart()`: the suffix of `s` that follows its leading white space. */
  function TrimStart(s: string): (r: string)
    ensures |r| > 0 ==> !IsJsSpace(r[0])
    ensures |r| <= |s| && r == s[|s| - |r|..]
    ensures AllJsSpace(s[..|s| - |r|])
    decreases |s|
  {
    if |s| > 0 && IsJsSpace(s[0]) then
      var t := TrimStart(s[1..]);
      assert s[..|s| - |t|][1..] == s[1..][..|s| - 1 - |t|];
      t
    else s
  }

  /** `s.trimEnd()`: the prefix of `s` that precedes its trailing white space. */
  function TrimEnd(s: string): (r: string)
    ensures |r| > 0 ==> !IsJsSpace(r[|r| - 1])
    ensures r <= s
    ensures AllJsSpace(s[|r|..])
    decreases |s|
  {
    if |s| > 0 && IsJsSpace(s[|s| - 1]) then
      var t := TrimEnd(s[..|s| - 1]);
      assert s[|t|..] == s[..|s| - 1][|t|..] + [s[|s| - 1]];
      AllJsSpaceSnoc(s[..|s| - 1][|t|..], s[|s| - 1]);
      t
    else s
  }

  /** `s.trim()`: the slice of `s` between its leading and its trailing white space
      (`TrimIsSlice`). */
  function Trim(s: string): (r: string)
    ensures |r| > 0 ==> !IsJsSpace(r[0]) && !IsJsSpace(r[|r| - 1])
    ensures |r| <= |s|
  {
    TrimEnd(TrimStart(s))
  }

  /** White space put before a text is dropped again by `trimStart`. */
  lemma {:induction false} TrimStartAfterSpace(w: string, s: string)
    requires AllJsSpace(w)
    ensures TrimStart(w + s) == TrimStart(s)
    decreases |w|
  {
    if |w| == 0 {
      assert w + s == s;
    } else {
      assert (w + s)[0] == w[0];
      assert (w + s)[1..] == w[1..] + s;
      TrimStartAfterSpace(w[1..], s);
    }
  }

  /** `trimEnd` keeps the first character of a text that does not start with white space. */
  lemma {:induction false} TrimEndKeepsFirst(s: string)
    requires |s| > 0 && !IsJsSpace(s[0])
    ensures |TrimEnd(s)| > 0 && TrimEnd(s)[0] == s[0]
    decreases |s|
  {
    if IsJsSpace(s[|s| - 1]) {
      var u := s[..|s| - 1];
      assert u[0] == s[0];
      TrimEndKeepsFirst(u);
    }
  }

  /** The trimmed text is the slice of `s` that starts after its leading white space, and
      only white space stands before and after it. */
  lemma TrimIsSlice(s: string)
    ensures |TrimStart(s)| <= |s| && Trim(s) <= s[|s| - |TrimStart(s)|..]
    ensures forall i :: 0 <= i < |s| - |TrimStart(s)| ==> IsJsSpace(s[i])
    ensures forall i :: |s| - |TrimStart(s)| + |Trim(s)| <= i < |s| ==> IsJsSpace(s[i])
  {
    SliceBetweenSpaces(s, TrimStart(s), Trim(s));
  }

  lemma SliceBetweenSpaces(s: string, t: string, r: string)
    requires |t| <= |s| && t == s[|s| - |t|..] && AllJsSpace(s[..|s| - |t|])
    requires r <= t && AllJsSpace(t[|r|..])
    ensures r <= s[|s| - |t|..]
    ensures forall i :: 0 <= i < |s| - |t| ==> IsJsSpace(s[i])
    ensures forall i :: |s| - |t| + |r| <= i < |s| ==> IsJsSpace(s[i])
  {
    var k := |s| - |t|;
    forall i | 0 <= i < k ensures IsJsSpace(s[i]) {
      AllJsSpaceAt(s[..k], i);
      assert s[i] == s[..k][i];
    }
    forall i | k + |r| <= i < |s| ensures IsJsSpace(s[i]) {
      AllJsSpaceAt(t[|r|..], i - k - |r|);
      assert s[i] == t[|r|..][i - k - |r|];
    }
  }

  predicate IsAsciiUpper(c: char) { 'A' <= c <= 'Z' }

  function AsciiLowerChar(c: char): char {
    if IsAsciiUpper(c) then (c - 'A' + 'a') as char else c
  }

  /** `s.toLowerCase()` on the ASCII letters; other characters are kept. */
  function AsciiLower(s: string): (r: string)
    ensures |r| == |s|
    ensures forall i :: 0 <= i < |r| ==> !IsAsciiUpper(r[i])
    ensures forall i :: 0 <= i < |r| ==> r[i] == AsciiLowerChar(s[i])
  {
    seq(|s|, i requires 0 <= i < |s| => AsciiLowerChar(s[i]))
  }
}
