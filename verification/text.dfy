/** The JavaScript string operations the pages and controllers rely on:
    `toLowerCase`, `trim`, `replace(/\s+/g, '_')`, `includes`, and printing a
    non-negative integer in decimal. */
module Text {

  /** The characters JavaScript's `\s` and `trim` treat as white space
      (ECMAScript WhiteSpace and LineTerminator). */
  predicate IsWhitespace(c: char) {
    ('\U{0009}' <= c <= '\U{000D}') || c == ' ' || c == '\U{00A0}' || c == '\U{1680}'
    || ('\U{2000}' <= c <= '\U{200A}') || c == '\U{2028}' || c == '\U{2029}' || c == '\U{202F}'
    || c == '\U{205F}' || c == '\U{3000}' || c == '\U{FEFF}'
  }

  predicate NoWhitespace(s: string) {
    forall i :: 0 <= i < |s| ==> !IsWhitespace(s[i])
  }

  predicate AllWhitespace(s: string) {
    forall i :: 0 <= i < |s| ==> IsWhitespace(s[i])
  }

  predicate IsUpper(c: char) {
    ('A' <= c <= 'Z') || ('\U{0400}' <= c <= '\U{042F}') || c == '\U{0490}'
  }

  /** `toLowerCase` on one character, for ASCII A-Z and the Cyrillic capitals
      U+0400-U+042F and U+0490; every other character is kept. */
  function LowerChar(c: char): (r: char)
    ensures !IsUpper(r)
    ensures !IsUpper(c) ==> r == c
    ensures IsWhitespace(r) <==> IsWhitespace(c)
  {
    if 'A' <= c <= 'Z' then (c as int + 32) as char
    else if '\U{0410}' <= c <= '\U{042F}' then (c as int + 32) as char
    else if '\U{0400}' <= c <= '\U{040F}' then (c as int + 80) as char
    else if c == '\U{0490}' then '\U{0491}'
    else c
  }

  /** `s.toLowerCase()`. */
  function ToLower(s: string): (r: string)
    ensures |r| == |s|
    ensures forall i :: 0 <= i < |s| ==> r[i] == LowerChar(s[i])
  {
    seq(|s|, i requires 0 <= i < |s| => LowerChar(s[i]))
  }

  /** Lower-casing twice is lower-casing once. */
  lemma ToLowerIdempotent(s: string)
    ensures ToLower(ToLower(s)) == ToLower(s)
  {
  }

  /** Lower-casing works character by character, so it distributes over
      concatenation. */
  lemma ToLowerAppend(a: string, b: string)
    ensures ToLower(a + b) == ToLower(a) + ToLower(b)
  {
    assert forall i :: 0 <= i < |a + b| ==> ToLower(a + b)[i] == (ToLower(a) + ToLower(b))[i];
  }

  /** How many white-space characters `s` starts with. */
  function LeadingWhitespace(s: string): (n: nat)
    ensures n <= |s|
    ensures forall i :: 0 <= i < n ==> IsWhitespace(s[i])
    ensures n == |s| || !IsWhitespace(s[n])
  {
    if |s| > 0 && IsWhitespace(s[0]) then 1 + LeadingWhitespace(s[1..]) else 0
  }

  /** A prefix `r` of a suffix `t` of `s`, followed in `t` only by white
      space, is a slice of `s` followed in `s` only by white space. */
  lemma PrefixOfSuffix(s: string, k: nat, t: string, r: string)
    requires k <= |s| && t == s[k..]
    requires |r| <= |t| && r == t[..|r|]
    requires forall i :: |r| <= i < |t| ==> IsWhitespace(t[i])
    ensures k + |r| <= |s| && r == s[k..k + |r|]
    ensures forall i :: k + |r| <= i < |s| ==> IsWhitespace(s[i])
  {
    forall i | k + |r| <= i < |s|
      ensures IsWhitespace(s[i])
    {
      assert s[i] == t[i - k];
    }
  }

  /** Drops trailing white space. */
  function TrimEnd(s: string): (r: string)
    ensures |r| <= |s| && r == s[..|r|]
    ensures |r| == 0 || !IsWhitespace(r[|r| - 1])
    ensures forall i :: |r| <= i < |s| ==> IsWhitespace(s[i])
  {
    if |s| > 0 && IsWhitespace(s[|s| - 1]) then TrimEnd(s[..|s| - 1]) else s
  }

  /** `s.trim()`: the stretch of `s` that follows its leading white space and
      is followed only by white space, neither starting nor ending with white
      space itself; a string with no white space at either end is left as it
      is. */
  function Trim(s: string): (r: string)
    ensures var k := LeadingWhitespace(s);
            k + |r| <= |s| && r == s[k..k + |r|]
            && forall i :: k + |r| <= i < |s| ==> IsWhitespace(s[i])
    ensures |r| == 0 || (!IsWhitespace(r[0]) && !IsWhitespace(r[|r| - 1]))
    ensures (|s| == 0 || (!IsWhitespace(s[0]) && !IsWhitespace(s[|s| - 1]))) ==> r == s
    ensures forall c :: c in r ==> c in s
  {
    var k := LeadingWhitespace(s);
    var t := s[k..];
    var r := TrimEnd(t);
    PrefixOfSuffix(s, k, t, r);
    r
  }

  lemma TailMembers(s: string)
    requires |s| > 0
    ensures forall c :: c in s[1..] ==> c in s
  {
  }

  /** Drops a run of white space at the front. */
  function SkipWhitespace(s: string): (r: string)
    ensures |r| <= |s| && r == s[|s| - |r|..]
    ensures |r| == 0 || !IsWhitespace(r[0])
    ensures forall c :: c in r ==> c in s
  {
    if |s| > 0 && IsWhitespace(s[0]) then SkipWhitespace(s[1..]) else s
  }

  /** `s.replace(/\s+/g, '_')`: every maximal run of white space becomes one `_`.
      The result holds no white space; it equals the input exactly when the input
      held none, and otherwise it holds an underscore. */
  function UnderscoreWhitespace(s: string): (r: string)
    ensures NoWhitespace(r)
    ensures r == s <==> NoWhitespace(s)
    ensures !NoWhitespace(s) ==> '_' in r
    ensures forall c :: c in r ==> c == '_' || c in s
    decreases |s|
  {
    if |s| == 0 then ""
    else if IsWhitespace(s[0]) then
      TailMembers(s);
      "_" + UnderscoreWhitespace(SkipWhitespace(s[1..]))
    else
      var rest := UnderscoreWhitespace(s[1..]);
      TailMembers(s);
      assert s == [s[0]] + s[1..];
      assert !NoWhitespace(s[1..]) ==> !NoWhitespace(s);
      [s[0]] + rest
  }

  /** Skipping a run of white space in front of text that does not start with
      white space leaves that text. */
  lemma {:induction false} SkipRun(w: string, b: string)
    requires AllWhitespace(w)
    requires |b| == 0 || !IsWhitespace(b[0])
    ensures SkipWhitespace(w + b) == b
  {
    if |w| > 0 {
      ConsSplit(w, b);
      assert AllWhitespace(w[1..]);
      SkipRun(w[1..], b);
    } else {
      assert w + b == b;
    }
  }

  /** The replacement, one run at a time: text without white space is kept,
      the maximal white-space run after it becomes a single `_`, and the rest
      is replaced in the same way. Together with the identity on text holding
      no white space, this determines the result for every input. */
  lemma {:induction false} UnderscoreRun(a: string, w: string, b: string)
    requires NoWhitespace(a) && |w| > 0 && AllWhitespace(w)
    requires |b| == 0 || !IsWhitespace(b[0])
    ensures UnderscoreWhitespace(a + w + b) == a + "_" + UnderscoreWhitespace(b)
    decreases |a|
  {
    if |a| == 0 {
      assert a + w + b == w + b;
      UnderscoreLeadingRun(w, b);
    } else {
      assert NoWhitespace(a[1..]);
      UnderscoreRun(a[1..], w, b);
      var u := UnderscoreWhitespace(b);
      ConsSplit(a, w + b);
      ConsSplit(a, "_" + u);
      Associative(a, w, b);
      Associative(a[1..], w, b);
      Associative(a, "_", u);
      Associative(a[1..], "_", u);
      UnderscoreKeepsFirst(a + (w + b));
    }
  }

  lemma UnderscoreLeadingRun(w: string, b: string)
    requires |w| > 0 && AllWhitespace(w)
    requires |b| == 0 || !IsWhitespace(b[0])
    ensures UnderscoreWhitespace(w + b) == "_" + UnderscoreWhitespace(b)
  {
    assert (w + b)[1..] == w[1..] + b;
    SkipRun(w[1..], b);
  }

  lemma UnderscoreKeepsFirst(s: string)
    requires |s| > 0 && !IsWhitespace(s[0])
    ensures UnderscoreWhitespace(s) == [s[0]] + UnderscoreWhitespace(s[1..])
  {
  }

  lemma ConsSplit(x: string, y: string)
    requires |x| > 0
    ensures (x + y)[0] == x[0] && (x + y)[1..] == x[1..] + y && [x[0]] + (x[1..] + y) == x + y
  {
  }

  lemma Associative(x: string, y: string, z: string)
    ensures x + y + z == x + (y + z)
  {
  }

  /** Two words separated by one space come out joined by one `_`. */
  lemma UnderscoreJoin(a: string, b: string)
    requires NoWhitespace(a) && NoWhitespace(b)
    ensures UnderscoreWhitespace(a + " " + b) == a + "_" + b
  {
    assert AllWhitespace(" ");
    UnderscoreRun(a, " ", b);
  }

  predicate IsPrefix(p: string, s: string) {
    |p| <= |s| && s[..|p|] == p
  }

  /** `haystack.includes(needle)`, searched from the front. */
  function Contains(haystack: string, needle: string): bool
    decreases |haystack|
  {
    IsPrefix(needle, haystack) || (|haystack| > 0 && Contains(haystack[1..], needle))
  }

  /** `needle` occurs in `haystack` starting at position `i`. */
  predicate OccursAt(haystack: string, needle: string, i: int) {
    0 <= i <= |haystack| - |needle| && haystack[i..i + |needle|] == needle
  }

  /** `includes` holds exactly when the needle occurs at some position. */
  lemma {:induction false} ContainsIffOccurs(haystack: string, needle: string)
    ensures Contains(haystack, needle) <==> exists i :: OccursAt(haystack, needle, i)
    decreases |haystack|
  {
    if IsPrefix(needle, haystack) {
      assert OccursAt(haystack, needle, 0);
    } else if |haystack| > 0 {
      ContainsIffOccurs(haystack[1..], needle);
      if exists i :: OccursAt(haystack, needle, i) {
        var i :| OccursAt(haystack, needle, i);
        assert i != 0;
        assert OccursAt(haystack[1..], needle, i - 1);
      }
      if Contains(haystack[1..], needle) {
        var j :| OccursAt(haystack[1..], needle, j);
        assert OccursAt(haystack, needle, j + 1);
      }
    }
  }

  /** An occurrence inside an occurrence is an occurrence. */
  lemma ContainsTransitive(a: string, b: string, c: string)
    requires Contains(a, b) && Contains(b, c)
    ensures Contains(a, c)
  {
    ContainsIffOccurs(a, b);
    ContainsIffOccurs(b, c);
    var i :| OccursAt(a, b, i);
    var j :| OccursAt(b, c, j);
    assert a[i + j..i + j + |c|] == c by {
      forall k | 0 <= k < |c|
        ensures a[i + j + k] == c[k]
      {
        assert a[i..i + |b|][j + k] == b[j + k];
        assert b[j..j + |c|][k] == c[k];
      }
    }
    assert OccursAt(a, c, i + j);
    ContainsIffOccurs(a, c);
  }

  /** The empty string occurs in every string. */
  lemma EmptyIsContained(haystack: string)
    ensures Contains(haystack, "")
  {
  }

  function DigitChar(d: nat): (c: char)
    requires d < 10
    ensures '0' <= c <= '9'
  {
    ('0' as int + d) as char
  }

  predicate IsDigit(c: char) {
    '0' <= c <= '9'
  }

  function DigitValue(c: char): (d: nat)
    requires IsDigit(c)
    ensures d < 10 && DigitChar(d) == c
  {
    c as int - '0' as int
  }

  /** `String(n)` for a non-negative integer: its decimal digits, no leading zero. */
  function NatToString(n: nat): (s: string)
    ensures |s| >= 1
    ensures forall i :: 0 <= i < |s| ==> IsDigit(s[i])
    ensures n >= 10 ==> s[0] != '0'
  {
    if n < 10 then [DigitChar(n)] else NatToString(n / 10) + [DigitChar(n % 10)]
  }

  /** `String(n).padStart(2, '0')` for 0 <= n < 100. */
  function Pad2(n: nat): (s: string)
    requires n < 100
    ensures |s| == 2 && IsDigit(s[0]) && IsDigit(s[1])
  {
    [DigitChar(n / 10), DigitChar(n % 10)]
  }
}
