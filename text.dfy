/**
 * The string operations the tray agent relies on: .NET's `Trim`, `Split` on
 * CR/LF with empty entries removed, ordinal `Contains`, and decimal
 * formatting and reading of integers.
 */
module Text {

  /** White space as .NET's char.IsWhiteSpace and the regular-expression class \s see it. */
  predicate IsWhiteSpace(c: char)
  {
    || c == ' ' || ('\t' <= c <= '\r') || c == '\U{85}' || c == '\U{A0}' || c == '\U{1680}'
    || ('\U{2000}' <= c <= '\U{200A}') || c == '\U{2028}' || c == '\U{2029}'
    || c == '\U{202F}' || c == '\U{205F}' || c == '\U{3000}'
  }

  predicate IsDigit(c: char) { '0' <= c <= '9' }

  predicate IsLineBreak(c: char) { c == '\r' || c == '\n' }

  predicate AllLineBreaks(s: string) { forall i :: 0 <= i < |s| ==> IsLineBreak(s[i]) }

  predicate NoLineBreak(s: string) { forall i :: 0 <= i < |s| ==> !IsLineBreak(s[i]) }

  /** The character classes a pattern repeats: \d, \s, and "anything but this character". */
  datatype CharClass = Digit | Space | Except(excluded: char)

  predicate InClass(c: char, k: CharClass)
  {
    match k
    case Digit => IsDigit(c)
    case Space => IsWhiteSpace(c)
    case Except(x) => c != x
  }

  predicate AllIn(s: string, k: CharClass) { forall i :: 0 <= i < |s| ==> InClass(s[i], k) }

  predicate AllWhiteSpace(s: string) { AllIn(s, Space) }

  predicate AllDigits(s: string) { AllIn(s, Digit) }

  /** A text cut in two: what a repetition consumed and what follows it. */
  datatype Cut = Cut(taken: string, rest: string)

  /** The greedy repetition of a class at the start of `s`, as a regular expression's `k*` takes it. */
  function TakeWhile(s: string, k: CharClass): Cut
  {
    if s != [] && InClass(s[0], k) then
      var c := TakeWhile(s[1..], k);
      Cut([s[0]] + c.taken, c.rest)
    else Cut([], s)
  }

  /**
   * The repetition cuts `s` in two: what it takes is all in the class, and
   * it stops only at a character outside it.
   */
  lemma {:induction false} TakeWhileStops(s: string, k: CharClass)
    ensures TakeWhile(s, k).taken + TakeWhile(s, k).rest == s
    ensures AllIn(TakeWhile(s, k).taken, k)
    ensures TakeWhile(s, k).rest == [] || !InClass(TakeWhile(s, k).rest[0], k)
  {
    if s != [] && InClass(s[0], k) {
      TakeWhileStops(s[1..], k);
      var c := TakeWhile(s[1..], k);
      assert [s[0]] + c.taken + c.rest == s;
    }
  }

  /** A run of the class followed by a character outside it is taken whole, and no further. */
  lemma {:induction false} TakeWhileOfPrefix(a: string, b: string, k: CharClass)
    requires AllIn(a, k)
    requires b == [] || !InClass(b[0], k)
    ensures TakeWhile(a + b, k) == Cut(a, b)
  {
    if a != [] {
      assert (a + b)[0] == a[0];
      assert (a + b)[1..] == a[1..] + b;
      TakeWhileOfPrefix(a[1..], b, k);
    }
  }

  // ---------------------------------------------------------------- Trim

  /** String.TrimStart(): drops the leading white space. */
  function TrimStart(s: string): string
  {
    TakeWhile(s, Space).rest
  }

  /** String.TrimEnd(): drops the trailing white space. */
  function TrimEnd(s: string): (r: string)
    ensures |r| <= |s|
  {
    if s != [] && IsWhiteSpace(s[|s| - 1]) then TrimEnd(s[..|s| - 1]) else s
  }

  /** TrimEnd keeps a prefix, cuts only white space, and stops at a character that is not. */
  lemma {:induction false} TrimEndStops(s: string)
    ensures TrimEnd(s) == s[..|TrimEnd(s)|] && AllWhiteSpace(s[|TrimEnd(s)|..])
    ensures TrimEnd(s) == [] || !IsWhiteSpace(TrimEnd(s)[|TrimEnd(s)| - 1])
  {
    if s != [] && IsWhiteSpace(s[|s| - 1]) {
      var init := s[..|s| - 1];
      TrimEndStops(init);
      var r := TrimEnd(init);
      assert s[|r|..] == init[|r|..] + [s[|s| - 1]];
      assert init[..|r|] == s[..|r|];
    }
  }

  /** String.Trim(): removes leading and trailing white space. */
  function Trim(s: string): string
  {
    TrimEnd(TrimStart(s))
  }

  /**
   * The result of Trim is the infix of its input that starts at `k`, with
   * nothing but white space cut from either side.
   */
  lemma TrimIsInfix(s: string) returns (k: nat)
    ensures k + |Trim(s)| <= |s| && s[k..k + |Trim(s)|] == Trim(s)
    ensures AllWhiteSpace(s[..k]) && AllWhiteSpace(s[k + |Trim(s)|..])
    ensures Trim(s) == [] || (!IsWhiteSpace(Trim(s)[0]) && !IsWhiteSpace(Trim(s)[|Trim(s)| - 1]))
  {
    var c := TakeWhile(s, Space);
    TakeWhileStops(s, Space);
    TrimEndStops(c.rest);
    k := |c.taken|;
    var r := TrimEnd(c.rest);
    SlicesOfConcat(c.taken, c.rest, |r|);
    if r != [] {
      assert r[0] == c.rest[0];
    }
  }

  /** The slices of a concatenation around the seam and `n` characters past it. */
  lemma SlicesOfConcat(a: string, b: string, n: nat)
    requires n <= |b|
    ensures (a + b)[..|a|] == a
    ensures (a + b)[|a|..|a| + n] == b[..n]
    ensures (a + b)[|a| + n..] == b[n..]
  {
    assert (a + b)[|a|..] == b;
  }

  /** Leading white space before a text that starts with something else is exactly what TrimStart drops. */
  lemma TrimStartPadded(pre: string, x: string)
    requires AllWhiteSpace(pre)
    requires x == [] || !IsWhiteSpace(x[0])
    ensures TrimStart(pre + x) == x
  {
    TakeWhileOfPrefix(pre, x, Space);
  }

  /** Trailing white space after a text that ends with something else is exactly what TrimEnd drops. */
  lemma {:induction false} TrimEndPadded(x: string, post: string)
    requires AllWhiteSpace(post)
    requires x == [] || !IsWhiteSpace(x[|x| - 1])
    ensures TrimEnd(x + post) == x
  {
    if post != [] {
      assert (x + post)[..|x + post| - 1] == x + post[..|post| - 1];
      TrimEndPadded(x, post[..|post| - 1]);
    } else {
      assert x + post == x;
    }
  }

  /** Trimming a text padded with white space on both sides gives the text back. */
  lemma TrimPadded(pre: string, x: string, post: string)
    requires AllWhiteSpace(pre) && AllWhiteSpace(post)
    requires x != [] && !IsWhiteSpace(x[0]) && !IsWhiteSpace(x[|x| - 1])
    ensures Trim(pre + x + post) == x
  {
    assert pre + x + post == pre + (x + post);
    TrimStartPadded(pre, x + post);
    TrimEndPadded(x, post);
  }

  // ------------------------------------------------------- Split on CR/LF

  /** Length of the longest prefix of `s` without CR or LF. */
  function LineLength(s: string): (k: nat)
    ensures k <= |s| && NoLineBreak(s[..k])
    ensures k < |s| ==> IsLineBreak(s[k])
  {
    if s == [] || IsLineBreak(s[0]) then 0 else 1 + LineLength(s[1..])
  }

  /** String.Split(new[] { '\r', '\n' }, StringSplitOptions.RemoveEmptyEntries). */
  function SplitLines(s: string): (lines: seq<string>)
    ensures forall i :: 0 <= i < |lines| ==> lines[i] != [] && NoLineBreak(lines[i])
    decreases |s|
  {
    if s == [] then []
    else
      var k := LineLength(s);
      if k == 0 then SplitLines(s[1..])
      else if k == |s| then [s]
      else [s[..k]] + SplitLines(s[k + 1..])
  }

  /** Trimming only removes characters: whatever the trimmed text holds, the text holds. */
  lemma TrimKeepsChars(s: string, c: char)
    ensures c in Trim(s) ==> c in s
  {
    var k := TrimIsInfix(s);
    if c in Trim(s) {
      var j :| 0 <= j < |Trim(s)| && Trim(s)[j] == c;
      assert s[k + j] == c;
    }
  }

  /** Every character of a split entry comes from the split text. */
  lemma {:induction false} SplitLinesChars(s: string, i: nat, c: char)
    requires i < |SplitLines(s)| && c in SplitLines(s)[i]
    ensures c in s
    decreases |s|
  {
    var k := LineLength(s);
    if k == 0 {
      assert SplitLines(s) == SplitLines(s[1..]);
      SplitLinesChars(s[1..], i, c);
      SuffixChars(s, 1, c);
    } else if k == |s| {
      assert SplitLines(s) == [s];
    } else {
      assert SplitLines(s) == [s[..k]] + SplitLines(s[k + 1..]);
      if i == 0 {
        PrefixChars(s, k, c);
      } else {
        assert SplitLines(s)[i] == SplitLines(s[k + 1..])[i - 1];
        SplitLinesChars(s[k + 1..], i - 1, c);
        SuffixChars(s, k + 1, c);
      }
    }
  }

  lemma PrefixChars(s: string, k: nat, c: char)
    requires k <= |s| && c in s[..k]
    ensures c in s
  {
    var j :| 0 <= j < k && s[..k][j] == c;
    assert s[j] == c;
  }

  lemma SuffixChars(s: string, k: nat, c: char)
    requires k <= |s| && c in s[k..]
    ensures c in s
  {
    var j :| 0 <= j < |s| - k && s[k..][j] == c;
    assert s[k + j] == c;
  }

  /** Lines joined with a separator made of line breaks, as a tool's output lays them out. */
  function JoinLines(lines: seq<string>, separator: string): string
  {
    if lines == [] then ""
    else if |lines| == 1 then lines[0]
    else lines[0] + separator + JoinLines(lines[1..], separator)
  }

  /** Line breaks in front of a text only produce empty entries, which are dropped. */
  lemma {:induction false} SplitLinesSkipsBreaks(breaks: string, s: string)
    requires AllLineBreaks(breaks)
    ensures SplitLines(breaks + s) == SplitLines(s)
  {
    if breaks != [] {
      assert (breaks + s)[0] == breaks[0];
      assert LineLength(breaks + s) == 0;
      assert SplitLines(breaks + s) == SplitLines((breaks + s)[1..]);
      assert (breaks + s)[1..] == breaks[1..] + s;
      SplitLinesSkipsBreaks(breaks[1..], s);
    } else {
      assert breaks + s == s;
    }
  }

  /** Splitting a line followed by a line break yields that line first. */
  lemma SplitLinesFirst(line: string, rest: string)
    requires line != [] && NoLineBreak(line)
    requires rest != [] && IsLineBreak(rest[0])
    ensures SplitLines(line + rest) == [line] + SplitLines(rest[1..])
  {
    SpanLineLength(line, rest);
    assert (line + rest)[..|line|] == line;
    assert (line + rest)[|line| + 1..] == rest[1..];
  }

  lemma {:induction false} SpanLineLength(line: string, rest: string)
    requires NoLineBreak(line)
    requires rest == [] || IsLineBreak(rest[0])
    ensures LineLength(line + rest) == |line|
  {
    if line != [] {
      assert (line + rest)[1..] == line[1..] + rest;
      SpanLineLength(line[1..], rest);
    }
  }

  /** Splitting undoes joining: non-empty lines without breaks come back in order. */
  lemma {:induction false} SplitJoinLines(lines: seq<string>, separator: string)
    requires forall i :: 0 <= i < |lines| ==> lines[i] != [] && NoLineBreak(lines[i])
    requires separator != [] && AllLineBreaks(separator)
    ensures SplitLines(JoinLines(lines, separator)) == lines
  {
    if |lines| == 1 {
      SpanLineLength(lines[0], "");
      assert lines[0] + "" == lines[0];
    } else if |lines| > 1 {
      var rest := separator + JoinLines(lines[1..], separator);
      assert lines[0] + separator + JoinLines(lines[1..], separator) == lines[0] + rest;
      SplitLinesFirst(lines[0], rest);
      assert rest[1..] == separator[1..] + JoinLines(lines[1..], separator);
      SplitLinesSkipsBreaks(separator[1..], JoinLines(lines[1..], separator));
      SplitJoinLines(lines[1..], separator);
      assert [lines[0]] + lines[1..] == lines;
    }
  }

  // ------------------------------------------------------------- Contains

  predicate OccursAt(s: string, sub: string, i: int)
  {
    0 <= i && i + |sub| <= |s| && s[i..i + |sub|] == sub
  }

  /** String.Contains(string), an ordinal substring test. */
  function Contains(s: string, sub: string): (b: bool)
    ensures b <==> exists i :: OccursAt(s, sub, i)
    decreases |s|
  {
    if |s| < |sub| then false
    else if s[..|sub|] == sub then assert OccursAt(s, sub, 0); true
    else
      var b := Contains(s[1..], sub);
      ContainsShift(s, sub);
      b
  }

  lemma ContainsShift(s: string, sub: string)
    requires s != []
    ensures (exists i :: OccursAt(s, sub, i)) <==> (OccursAt(s, sub, 0) || exists j :: OccursAt(s[1..], sub, j))
  {
    if exists i :: OccursAt(s, sub, i) {
      var i :| OccursAt(s, sub, i);
      if i > 0 {
        assert s[1..][i - 1..i - 1 + |sub|] == s[i..i + |sub|];
        assert OccursAt(s[1..], sub, i - 1);
      }
    }
    if exists j :: OccursAt(s[1..], sub, j) {
      var j :| OccursAt(s[1..], sub, j);
      assert s[1..][j..j + |sub|] == s[j + 1..j + 1 + |sub|];
      assert OccursAt(s, sub, j + 1);
    }
  }

  // -------------------------------------------------------------- Decimal

  function DigitValue(c: char): nat
    requires IsDigit(c)
  {
    c as int - '0' as int
  }

  function DigitChar(d: nat): char
    requires d < 10
  {
    ('0' as int + d) as char
  }

  /** The value of a string of decimal digits, as int.Parse reads it (without the range check). */
  function DigitsValue(ds: string): nat
    requires AllDigits(ds)
  {
    if ds == [] then 0 else DigitsValue(ds[..|ds| - 1]) * 10 + DigitValue(ds[|ds| - 1])
  }

  /** Decimal formatting of a natural number, as C# string interpolation writes it. */
  function NatToString(n: nat): (s: string)
    ensures s != [] && AllDigits(s)
    ensures |s| > 1 ==> s[0] != '0'
  {
    if n < 10 then [DigitChar(n)] else NatToString(n / 10) + [DigitChar(n % 10)]
  }

  /** Decimal formatting of an integer, with a leading minus sign when negative. */
  function IntToString(i: int): string
  {
    if i < 0 then "-" + NatToString(-i) else NatToString(i)
  }

  /** Reading back a formatted number gives the number. */
  lemma {:induction false} DigitsValueOfNatToString(n: nat)
    ensures DigitsValue(NatToString(n)) == n
  {
    if n >= 10 {
      var s := NatToString(n);
      assert s[..|s| - 1] == NatToString(n / 10);
      DigitsValueOfNatToString(n / 10);
    }
  }

  lemma {:induction false} DigitsValuePositive(ds: string)
    requires ds != [] && AllDigits(ds) && ds[0] != '0'
    ensures DigitsValue(ds) >= 1
  {
    if |ds| > 1 {
      DigitsValuePositive(ds[..|ds| - 1]);
    }
  }

  /** Formatting the value of a digit string without leading zeros gives the string back. */
  lemma {:induction false} NatToStringOfDigitsValue(ds: string)
    requires ds != [] && AllDigits(ds)
    requires |ds| > 1 ==> ds[0] != '0'
    ensures NatToString(DigitsValue(ds)) == ds
  {
    if |ds| > 1 {
      var init := ds[..|ds| - 1];
      DigitsValuePositive(init);
      NatToStringOfDigitsValue(init);
      assert init + [ds[|ds| - 1]] == ds;
    }
  }

  lemma NatToStringInjective(m: nat, n: nat)
    requires NatToString(m) == NatToString(n)
    ensures m == n
  {
    DigitsValueOfNatToString(m);
    DigitsValueOfNatToString(n);
  }

  /** Different integers are never formatted alike. */
  lemma IntToStringInjective(m: int, n: int)
    requires IntToString(m) == IntToString(n)
    ensures m == n
  {
    if m < 0 && n < 0 {
      assert NatToString(-m) == IntToString(m)[1..];
      NatToStringInjective(-m, -n);
    } else if m >= 0 && n >= 0 {
      NatToStringInjective(m, n);
    }
  }

  /** No character of a formatted integer is a space. */
  lemma IntToStringHasNoSpace(n: int)
    ensures forall k :: 0 <= k < |IntToString(n)| ==> IntToString(n)[k] != ' '
  {
    if n < 0 {
      var s := NatToString(-n);
      assert forall k :: 0 <= k < |s| ==> IsDigit(s[k]);
      assert forall k :: 1 <= k < |IntToString(n)| ==> IntToString(n)[k] == s[k - 1];
    } else {
      var s := NatToString(n);
      assert forall k :: 0 <= k < |s| ==> IsDigit(s[k]);
    }
  }

  /** Appending to a sequence in two steps is appending the two pieces together. */
  lemma AppendAssociates<T>(a: seq<T>, b: seq<T>, c: seq<T>)
    ensures a + b + c == a + (b + c)
  {
  }
}
