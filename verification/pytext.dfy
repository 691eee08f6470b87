/** The handful of Python `str` operations the core relies on:
    `strip()`, `replace(" ", "-")`, `" ".join(...)` and
    `''.join(filter(str.isdigit, v))`. */
module PyText {
  import opened Decimal

  /** `str.isspace` for one character: the ASCII controls TAB..CR and FS..US,
      SPACE, NEL, NBSP and the Unicode space separators and line/paragraph
      separators. */
  predicate IsSpace(c: char) {
    var n := c as int;
    (9 <= n <= 13) || (28 <= n <= 32) || n == 0x85 || n == 0xA0 || n == 0x1680
    || (0x2000 <= n <= 0x200A) || n == 0x2028 || n == 0x2029 || n == 0x202F
    || n == 0x205F || n == 0x3000
  }

  /** Every character is whitespace (true of the empty string). */
  predicate IsBlank(s: string) {
    forall k :: 0 <= k < |s| ==> IsSpace(s[k])
  }

  /** `s.lstrip()`: the suffix left after dropping leading whitespace. */
  function TrimStart(s: string): (r: string)
    ensures |r| <= |s| && r == s[|s| - |r|..]
    ensures IsBlank(s[..|s| - |r|])
    ensures r == [] || !IsSpace(r[0])
  {
    if s != [] && IsSpace(s[0]) then
      var r := TrimStart(s[1..]);
      assert s[1..][..|s| - 1 - |r|] == s[1..|s| - |r|];
      r
    else s
  }

  /** `s.rstrip()`: the prefix left after dropping trailing whitespace. */
  function TrimEnd(s: string): (r: string)
    ensures |r| <= |s| && r == s[..|r|]
    ensures IsBlank(s[|r|..])
    ensures r == [] || !IsSpace(r[|r| - 1])
  {
    if s != [] && IsSpace(s[|s| - 1]) then
      var r := TrimEnd(s[..|s| - 1]);
      assert s[..|s| - 1][|r|..] + [s[|s| - 1]] == s[|r|..];
      r
    else s
  }

  /** `s.strip()`. */
  function Strip(s: string): string {
    TrimEnd(TrimStart(s))
  }

  /** Reference characterisation of `strip()`: the result is the infix
      s[i..j] such that everything before i and after j is whitespace and the
      result neither starts nor ends with whitespace. */
  lemma StripIsTrimmedInfix(s: string) returns (i: nat, j: nat)
    ensures i <= j <= |s| && Strip(s) == s[i..j]
    ensures IsBlank(s[..i]) && IsBlank(s[j..])
    ensures Strip(s) != [] ==> !IsSpace(Strip(s)[0]) && !IsSpace(Strip(s)[|Strip(s)| - 1])
  {
    var t := TrimStart(s);
    var r := TrimEnd(t);
    i := |s| - |t|;
    j := i + |r|;
    assert s[i..j] == t[..|r|];
    assert s[j..] == t[|r|..];
    if r != [] {
      assert r[0] == t[0];
    }
  }

  /** `not s.strip()` holds exactly for whitespace-only strings. */
  lemma StripEmptyIffBlank(s: string)
    ensures Strip(s) == [] <==> IsBlank(s)
  {
    var i, j := StripIsTrimmedInfix(s);
    if IsBlank(s) {
      assert IsBlank(s[i..j]);
    }
  }

  /** Stripping twice is stripping once. */
  lemma StripIdempotent(s: string)
    ensures Strip(Strip(s)) == Strip(s)
  {
    var t := Strip(s);
    var _, _ := StripIsTrimmedInfix(s);
    assert TrimStart(t) == t;
    assert TrimEnd(t) == t;
  }

  /** `s.replace(a, b)` for one-character `a` and `b`. */
  function ReplaceChar(s: string, a: char, b: char): (r: string)
    ensures |r| == |s|
    ensures forall k :: 0 <= k < |s| ==> r[k] == (if s[k] == a then b else s[k])
  {
    if s == [] then [] else [if s[0] == a then b else s[0]] + ReplaceChar(s[1..], a, b)
  }

  /** `sep.join(parts)`. */
  function Join(sep: string, parts: seq<string>): string {
    if |parts| == 0 then ""
    else if |parts| == 1 then parts[0]
    else parts[0] + sep + Join(sep, parts[1..])
  }

  /** `''.join(filter(str.isdigit, s))`: the digits of s, in order. */
  function Digits(s: string): (d: string)
    ensures |d| <= |s|
    ensures forall k :: 0 <= k < |d| ==> IsDecimalDigit(d[k])
  {
    if s == [] then []
    else (if IsDecimalDigit(s[0]) then [s[0]] else []) + Digits(s[1..])
  }

  /** The filter keeps every digit of s, as often as it occurs, and no other
      character: it is s with exactly its non-digits removed. */
  lemma {:induction false} DigitsKeepsEveryDigit(s: string)
    ensures forall c :: multiset(Digits(s))[c] == if IsDecimalDigit(c) then multiset(s)[c] else 0
  {
    if s != [] {
      DigitsKeepsEveryDigit(s[1..]);
      assert s == [s[0]] + s[1..];
      assert multiset(s) == multiset([s[0]]) + multiset(s[1..]);
    }
  }

  /** Filtering distributes over concatenation. */
  lemma {:induction false} DigitsAppend(a: string, b: string)
    ensures Digits(a + b) == Digits(a) + Digits(b)
  {
    if a == [] {
      assert a + b == b;
    } else {
      assert (a + b)[1..] == a[1..] + b;
      DigitsAppend(a[1..], b);
    }
  }

  /** A character of `a + [sep] + x` past the separator belongs to x. */
  lemma CharAfterSeparator(a: string, sep: char, x: string, k: int)
    ensures |a| < k < |a| + 1 + |x| ==> (a + [sep] + x)[k] in x
  {
    if |a| < k < |a| + 1 + |x| {
      assert (a + [sep] + x)[k] == x[k - |a| - 1];
    }
  }

  /** If `a + [sep] + x == b + [sep] + y` and the separator occurs in neither
      tail, the two splits coincide: the tail is what follows the last
      separator. */
  lemma SplitAtLastSeparator(a: string, x: string, b: string, y: string, sep: char)
    requires a + [sep] + x == b + [sep] + y
    requires sep !in x && sep !in y
    ensures a == b && x == y
  {
    var s := a + [sep] + x;
    var t := b + [sep] + y;
    if |x| < |y| {
      CharAfterSeparator(b, sep, y, |s| - |x| - 1);
      assert false;
    } else if |y| < |x| {
      CharAfterSeparator(a, sep, x, |t| - |y| - 1);
      assert false;
    } else {
      assert x == s[|s| - |x|..] == t[|t| - |y|..] == y;
      assert a == s[..|a|] == t[..|b|] == b;
    }
  }
}
