/** Optional values: the model's stand-in for a JavaScript value that may be
    `null` or `undefined`. */
module Optional {

  datatype Option<+T> = None | Some(value: T)

  /** A string in a JavaScript truth test: absent and empty strings are falsy. */
  predicate Truthy(o: Option<string>) {
    o.Some? && o.value != ""
  }

  /** `a || fallback` for an optional string: the value when it is truthy, the fallback otherwise. */
  function OrElse(a: Option<string>, fallback: string): (r: string)
    ensures Truthy(a) ==> r == a.value
    ensures !Truthy(a) ==> r == fallback
  {
    if a.Some? && a.value != "" then a.value else fallback
  }
}

/** The JavaScript string operations the core relies on, stated over `seq<char>`. */
module Text {

  /** Characters matched by the regular-expression class `\s`, which are also the
      characters `String.prototype.trim` removes (ECMAScript WhiteSpace and
      LineTerminator). */
  predicate IsSpace(c: char) {
    var n := c as int;
    (0x09 <= n <= 0x0D) || n == 0x20 || n == 0xA0 || n == 0x1680
    || (0x2000 <= n <= 0x200A) || n == 0x2028 || n == 0x2029 || n == 0x202F
    || n == 0x205F || n == 0x3000 || n == 0xFEFF
  }

  predicate AllSpace(s: string) {
    forall i :: 0 <= i < |s| ==> IsSpace(s[i])
  }

  /** `s.trimStart()`: the longest suffix of `s` that does not begin with whitespace. */
  function TrimStart(s: string): (r: string)
    ensures |r| <= |s| && r == s[|s| - |r|..]
    ensures AllSpace(s[..|s| - |r|])
    ensures r != [] ==> !IsSpace(r[0])
  {
    if s != [] && IsSpace(s[0]) then
      var r := TrimStart(s[1..]);
      assert s[..|s| - |r|] == [s[0]] + s[1..][..|s| - 1 - |r|];
      r
    else s
  }

  /** `s.trimEnd()`: the longest prefix of `s` that does not end with whitespace. */
  function TrimEnd(s: string): (r: string)
    ensures |r| <= |s| && r == s[..|r|]
    ensures AllSpace(s[|r|..])
    ensures r != [] ==> !IsSpace(r[|r| - 1])
  {
    if s != [] && IsSpace(s[|s| - 1]) then
      var r := TrimEnd(s[..|s| - 1]);
      assert s[|r|..] == s[..|s| - 1][|r|..] + [s[|s| - 1]];
      r
    else s
  }

  /** `s.trim()`. */
  function Trim(s: string): (r: string)
    ensures r != [] ==> !IsSpace(r[0]) && !IsSpace(r[|r| - 1])
  {
    TrimEnd(TrimStart(s))
  }

  lemma {:induction false} TrimStartSkips(p: string, t: string)
    requires AllSpace(p)
    requires t == [] || !IsSpace(t[0])
    ensures TrimStart(p + t) == t
    decreases |p|
  {
    if p != [] {
      assert (p + t)[1..] == p[1..] + t;
      TrimStartSkips(p[1..], t);
    }
  }

  lemma {:induction false} TrimEndSkips(t: string, q: string)
    requires AllSpace(q)
    requires t == [] || !IsSpace(t[|t| - 1])
    ensures TrimEnd(t + q) == t
    decreases |q|
  {
    if q != [] {
      assert (t + q)[..|t + q| - 1] == t + q[..|q| - 1];
      TrimEndSkips(t, q[..|q| - 1]);
    } else {
      assert t + q == t;
    }
  }

  /** Trimming is determined by its result: whatever is wrapped in whitespace on
      both sides and neither starts nor ends with whitespace is what `trim` returns. */
  lemma TrimUnique(p: string, r: string, q: string)
    requires AllSpace(p) && AllSpace(q)
    requires r == [] || (!IsSpace(r[0]) && !IsSpace(r[|r| - 1]))
    ensures Trim(p + r + q) == r
  {
    if r == [] {
      assert p + r + q == (p + q) + [];
      assert AllSpace(p + q);
      TrimStartSkips(p + q, []);
    } else {
      assert p + r + q == p + (r + q);
      TrimStartSkips(p, r + q);
      TrimEndSkips(r, q);
    }
  }

  /** The trimmed text of `s` is `s[i..j]`, where `i` counts the leading whitespace. */
  lemma TrimIsSlice(s: string, i: nat, j: nat)
    requires i == |s| - |TrimStart(s)| && j == i + |Trim(s)|
    ensures j <= |s| && Trim(s) == s[i..j]
  {
    assert TrimStart(s) == s[i..];
  }

  /** What follows the trimmed text of `s` is whitespace. */
  lemma TrimLeavesTrailingSpace(s: string, i: nat, j: nat)
    requires i == |s| - |TrimStart(s)| && j == i + |Trim(s)|
    ensures j <= |s| && AllSpace(s[j..])
  {
    var u := TrimStart(s);
    var r := TrimEnd(u);
    assert AllSpace(u[|r|..]);
    assert u == s[i..];
    assert u[|r|..] == s[j..];
  }

  /** Kept apart from the lemmas that use them, so that each proof sees only the
      sequence identity it needs. */
  lemma AllSpaceConcat(a: string, b: string)
    requires AllSpace(a) && AllSpace(b)
    ensures AllSpace(a + b)
  {
  }

  lemma Regroup(p: string, a: string, r: string, b: string, q: string)
    ensures p + (a + r + b) + q == (p + a) + r + (b + q)
  {
  }

  lemma SplitThree(s: string, i: nat, j: nat)
    requires i <= j <= |s|
    ensures s == s[..i] + s[i..j] + s[j..]
  {
  }

  /** Leading and trailing whitespace never changes what `trim` returns. */
  lemma TrimIgnoresPadding(p: string, s: string, q: string)
    requires AllSpace(p) && AllSpace(q)
    ensures Trim(p + s + q) == Trim(s)
  {
    var i := |s| - |TrimStart(s)|;
    var r := Trim(s);
    var j := i + |r|;
    TrimIsSlice(s, i, j);
    TrimLeavesTrailingSpace(s, i, j);
    SplitThree(s, i, j);
    var pre, post := s[..i], s[j..];
    Regroup(p, pre, r, post, q);
    AllSpaceConcat(p, pre);
    AllSpaceConcat(post, q);
    TrimUnique(p + pre, r, post + q);
  }

  /** A string trims to the empty string exactly when it is all whitespace. */
  lemma TrimEmptyIffBlank(s: string)
    ensures Trim(s) == [] <==> AllSpace(s)
  {
    if AllSpace(s) {
      assert s == s + [] + [];
      TrimUnique(s, [], []);
    } else {
      var i := |s| - |TrimStart(s)|;
      var j := i + |Trim(s)|;
      TrimIsSlice(s, i, j);
      TrimLeavesTrailingSpace(s, i, j);
      SplitThree(s, i, j);
    }
  }

  /** `sub` occurs in `s` beginning at index `i`. */
  predicate OccursAt(s: string, sub: string, i: int) {
    0 <= i <= |s| - |sub| && s[i..i + |sub|] == sub
  }

  /** `s.includes(sub)`. */
  predicate Includes(s: string, sub: string) {
    exists i | 0 <= i <= |s| - |sub| :: OccursAt(s, sub, i)
  }

  /** `s.split(c)[0]`: the text of `s` before the first `c`, all of `s` when there is none. */
  function TextBefore(s: string, c: char): (r: string)
    ensures r <= s && c !in r
    ensures |r| < |s| ==> s[|r|] == c
  {
    if s == [] || s[0] == c then [] else [s[0]] + TextBefore(s[1..], c)
  }

  /** `s.length`: JavaScript counts UTF-16 code units, so a character outside the
      Basic Multilingual Plane counts twice. */
  function Utf16Length(s: string): (n: nat)
    ensures |s| <= n <= 2 * |s|
  {
    if s == [] then 0 else (if s[0] as int > 0xFFFF then 2 else 1) + Utf16Length(s[1..])
  }

  predicate IsDigit(c: char) {
    '0' <= c <= '9'
  }

  predicate AllDigits(s: string) {
    forall i :: 0 <= i < |s| ==> IsDigit(s[i])
  }

  function DigitChar(d: nat): (c: char)
    requires d < 10
    ensures IsDigit(c)
  {
    (('0' as int) + d) as char
  }

  function DigitValue(c: char): (d: nat)
    requires IsDigit(c)
    ensures d < 10
  {
    (c as int) - ('0' as int)
  }

  /** The decimal text of a natural number, as a template literal `${n}` renders a
      millisecond timestamp. */
  function Decimal(n: nat): (s: string)
    ensures s != [] && AllDigits(s)
  {
    if n < 10 then [DigitChar(n)] else Decimal(n / 10) + [DigitChar(n % 10)]
  }

  /** The number a string of decimal digits denotes. */
  function DecimalValue(s: string): nat
    requires AllDigits(s)
  {
    if s == [] then 0 else DecimalValue(s[..|s| - 1]) * 10 + DigitValue(s[|s| - 1])
  }

  /** Reading back the decimal text of a number gives the number. */
  lemma {:induction false} DecimalRoundTrip(n: nat)
    ensures DecimalValue(Decimal(n)) == n
  {
    if n >= 10 {
      var s := Decimal(n);
      assert s[..|s| - 1] == Decimal(n / 10);
      DecimalRoundTrip(n / 10);
    }
  }

  /** Distinct numbers have distinct decimal texts. */
  lemma DecimalInjective(m: nat, n: nat)
    requires Decimal(m) == Decimal(n)
    ensures m == n
  {
    DecimalRoundTrip(m);
    DecimalRoundTrip(n);
  }
}
