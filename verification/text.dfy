/** The JavaScript string built-ins the core relies on, as pure functions on
    `string` (= `seq<char>`): `toLowerCase`, `includes`, `trim`,
    `replace(/\s+/g, '-')`, `join`, `split`, number-to-string and `padStart`.
    `join`/`split` are each other's inverse, number printing and `padStart`
    are inverted by a digit parser, and `includes` and `trim` are proved
    against independent reference definitions. `Lower` and `Hyphenate` have
    neither: they are given by their definitions, their contracts state what
    they guarantee of the result, and `Hyphenate` is tied to `Slug` only
    through `HyphenateRun` and `HyphenateKeeps`. */
module Text {

  // ---------------------------------------------------------------------------
  // toLowerCase (ASCII letters only)
  // ---------------------------------------------------------------------------

  predicate IsUpper(c: char) {
    'A' <= c <= 'Z'
  }

  function LowerChar(c: char): (d: char)
    ensures !IsUpper(d)
    ensures IsUpper(c) ==> 'a' <= d <= 'z' && d as int - c as int == 32
    ensures !IsUpper(c) ==> d == c
  {
    if IsUpper(c) then (c as int + 32) as char else c
  }

  function Lower(s: string): (r: string)
    ensures |r| == |s|
    ensures forall i :: 0 <= i < |s| ==> r[i] == LowerChar(s[i])
    ensures IsLowered(r)
  {
    seq(|s|, i requires 0 <= i < |s| => LowerChar(s[i]))
  }

  /** No ASCII upper-case letter occurs in `s`. */
  predicate IsLowered(s: string) {
    forall i :: 0 <= i < |s| ==> !IsUpper(s[i])
  }

  /** Lower-casing leaves an already lower-cased string alone. */
  lemma LowerFixesLowered(s: string)
    requires IsLowered(s)
    ensures Lower(s) == s
  {
    assert forall i :: 0 <= i < |s| ==> Lower(s)[i] == s[i];
  }

  /** Lower-casing twice is lower-casing once. */
  lemma LowerIdempotent(s: string)
    ensures Lower(Lower(s)) == Lower(s)
  {
    LowerFixesLowered(Lower(s));
  }

  // ---------------------------------------------------------------------------
  // includes
  // ---------------------------------------------------------------------------

  /** `s.includes(pat)`: scans the start positions of `s` left to right. */
  predicate Includes(s: string, pat: string)
    decreases |s|
  {
    if |pat| > |s| then false
    else if s[..|pat|] == pat then true
    else Includes(s[1..], pat)
  }

  /** Reference definition: `pat` sits in `s` at position `i`. */
  ghost predicate OccursAt(s: string, pat: string, i: int) {
    0 <= i && i + |pat| <= |s| && s[i..i + |pat|] == pat
  }

  ghost predicate Occurs(s: string, pat: string) {
    exists i :: OccursAt(s, pat, i)
  }

  /** An occurrence in the tail is an occurrence one place further right. */
  lemma OccursInTail(s: string, pat: string)
    requires s != [] && Occurs(s[1..], pat)
    ensures Occurs(s, pat)
  {
    var i :| OccursAt(s[1..], pat, i);
    assert s[1..][i..i + |pat|] == s[i + 1..i + 1 + |pat|];
    assert OccursAt(s, pat, i + 1);
  }

  /** An occurrence that does not start at the head lies in the tail. */
  lemma OccursPastHead(s: string, pat: string)
    requires s != [] && Occurs(s, pat) && !OccursAt(s, pat, 0)
    ensures Occurs(s[1..], pat)
  {
    var i :| OccursAt(s, pat, i);
    assert i != 0;
    assert s[1..][i - 1..i - 1 + |pat|] == s[i..i + |pat|];
    assert OccursAt(s[1..], pat, i - 1);
  }

  /** The scanning definition agrees with the positional one. */
  lemma {:induction false} IncludesIffOccurs(s: string, pat: string)
    ensures Includes(s, pat) <==> Occurs(s, pat)
    decreases |s|
  {
    if |pat| > |s| {
      assert forall i :: !OccursAt(s, pat, i);
    } else if s[..|pat|] == pat {
      assert OccursAt(s, pat, 0);
    } else {
      IncludesIffOccurs(s[1..], pat);
      assert s != [];
      assert !OccursAt(s, pat, 0);
      if Occurs(s, pat) {
        OccursPastHead(s, pat);
      }
      if Occurs(s[1..], pat) {
        OccursInTail(s, pat);
      }
    }
  }

  /** A string contains every string it was built around. */
  lemma OccursInfix(a: string, pat: string, b: string)
    ensures Occurs(a + pat + b, pat)
  {
    assert (a + pat + b)[|a|..|a| + |pat|] == pat;
    assert OccursAt(a + pat + b, pat, |a|);
  }

  /** Every character of an occurring pattern is a character of `s`. */
  lemma OccurrenceCharsInside(s: string, pat: string, c: char)
    requires c in pat
    ensures Occurs(s, pat) ==> c in s
  {
    if Occurs(s, pat) {
      var i :| OccursAt(s, pat, i);
      var j :| 0 <= j < |pat| && pat[j] == c;
      assert s[i + j] == s[i..i + |pat|][j];
    }
  }

  /** An occurrence of `[x, y]` where `x` appears once must use that `x`. */
  lemma OccurrenceOfPair(u: string, x: char, v: string, y: char)
    requires x !in u && x !in v
    ensures Occurs(u + [x] + v, [x, y]) ==> v != [] && v[0] == y
  {
    var s := u + [x] + v;
    if Occurs(s, [x, y]) {
      var i :| OccursAt(s, [x, y], i);
      assert s[i] == s[i..i + 2][0] == x;
      assert s[i + 1] == s[i..i + 2][1] == y;
      assert i == |u|;
      assert s[|u| + 1] == v[0];
    }
  }

  // ---------------------------------------------------------------------------
  // Whitespace, trim
  // ---------------------------------------------------------------------------

  /** ECMAScript WhiteSpace and LineTerminator code points: what `\s` matches
      and what `trim` removes. */
  predicate IsWhitespace(c: char) {
    var n := c as int;
    || 0x09 <= n <= 0x0D
    || n == 0x20
    || n == 0xA0
    || n == 0x1680
    || 0x2000 <= n <= 0x200A
    || n == 0x2028
    || n == 0x2029
    || n == 0x202F
    || n == 0x205F
    || n == 0x3000
    || n == 0xFEFF
  }

  predicate NoWhitespace(s: string) {
    forall i :: 0 <= i < |s| ==> !IsWhitespace(s[i])
  }

  /** Every character of `s` is whitespace (the empty string included). */
  predicate IsBlank(s: string) {
    forall i :: 0 <= i < |s| ==> IsWhitespace(s[i])
  }

  /** Drops the leading whitespace run. */
  function TrimStart(s: string): (r: string)
    ensures |r| <= |s| && r == s[|s| - |r|..]
    ensures IsBlank(s[..|s| - |r|])
    ensures r == [] || !IsWhitespace(r[0])
  {
    if |s| > 0 && IsWhitespace(s[0]) then TrimStart(s[1..]) else s
  }

  /** Drops the trailing whitespace run. */
  function TrimEnd(s: string): (r: string)
    ensures |r| <= |s| && r == s[..|r|]
    ensures IsBlank(s[|r|..])
    ensures r == [] || !IsWhitespace(r[|r| - 1])
  {
    if |s| > 0 && IsWhitespace(s[|s| - 1]) then
      var r := TrimEnd(s[..|s| - 1]);
      assert s[|r|..] == s[..|s| - 1][|r|..] + [s[|s| - 1]];
      r
    else s
  }

  /** `s.trim()`: it is empty exactly when `s` is blank. */
  function Trim(s: string): (r: string)
    ensures r == [] <==> IsBlank(s)
  {
    var t := TrimStart(s);
    assert IsBlank(t) ==> t == [];
    assert t == [] ==> s[..|s|] == s;
    TrimEnd(t)
  }

  /** Skipping a whitespace run lands on the first non-whitespace character. */
  lemma {:induction false} TrimStartBlankPrefix(w: string, t: string)
    requires IsBlank(w)
    requires t == [] || !IsWhitespace(t[0])
    ensures TrimStart(w + t) == t
    decreases |w|
  {
    if w != [] {
      assert (w + t)[1..] == w[1..] + t;
      TrimStartBlankPrefix(w[1..], t);
    } else {
      assert w + t == t;
    }
  }

  // ---------------------------------------------------------------------------
  // replace(/\s+/g, '-')
  // ---------------------------------------------------------------------------

  /** Replaces every maximal whitespace run by a single hyphen. */
  function Hyphenate(s: string): (r: string)
    ensures NoWhitespace(r)
    ensures |r| <= |s|
    ensures NoWhitespace(s) ==> r == s
    ensures IsLowered(s) ==> IsLowered(r)
    decreases |s|
  {
    if s == [] then []
    else if IsWhitespace(s[0]) then "-" + Hyphenate(TrimStart(s))
    else [s[0]] + Hyphenate(s[1..])
  }

  /** A whitespace run followed by a non-whitespace character becomes one hyphen. */
  lemma HyphenateRun(w: string, t: string)
    requires |w| > 0 && IsBlank(w)
    requires t == [] || !IsWhitespace(t[0])
    ensures Hyphenate(w + t) == "-" + Hyphenate(t)
  {
    TrimStartBlankPrefix(w, t);
  }

  /** A non-whitespace character is copied through unchanged. */
  lemma HyphenateKeeps(c: char, t: string)
    requires !IsWhitespace(c)
    ensures Hyphenate([c] + t) == [c] + Hyphenate(t)
  {
    assert ([c] + t)[1..] == t;
  }

  /** `s.toLowerCase().replace(/\s+/g, '-')`: the URL slug of a query. */
  function Slug(s: string): (r: string)
    ensures NoWhitespace(r) && IsLowered(r)
    ensures |r| <= |s|
  {
    Hyphenate(Lower(s))
  }

  // ---------------------------------------------------------------------------
  // join and split
  // ---------------------------------------------------------------------------

  /** `xs.join(sep)`. */
  function Join(xs: seq<string>, sep: string): (r: string)
    ensures |xs| >= 1 ==> xs[0] <= r
    ensures |xs| >= 1 ==> var last := xs[|xs| - 1]; |last| <= |r| && r[|r| - |last|..] == last
  {
    if |xs| == 0 then ""
    else if |xs| == 1 then xs[0]
    else xs[0] + sep + Join(xs[1..], sep)
  }

  /** `s.split(sep)` for a non-empty separator: cut at every occurrence of
      `sep`, scanning left to right. */
  function Split(s: string, sep: string): (parts: seq<string>)
    requires |sep| > 0
    ensures |parts| >= 1
    decreases |s|
  {
    if |s| < |sep| then [s]
    else if s[..|sep|] == sep then [""] + Split(s[|sep|..], sep)
    else
      var rest := Split(s[1..], sep);
      [[s[0]] + rest[0]] + rest[1..]
  }

  lemma {:induction false} SplitWithoutSeparator(a: string, sep: string)
    requires |sep| > 0 && sep[0] !in a
    ensures Split(a, sep) == [a]
    decreases |a|
  {
    if |a| >= |sep| {
      assert a[..|sep|][0] == a[0];
      SplitWithoutSeparator(a[1..], sep);
      assert [a[0]] + a[1..] == a;
    }
  }

  lemma {:induction false} SplitAtSeparator(a: string, sep: string, b: string)
    requires |sep| > 0 && sep[0] !in a
    ensures Split(a + sep + b, sep) == [a] + Split(b, sep)
    decreases |a|
  {
    var s := a + sep + b;
    if a == [] {
      assert s[..|sep|] == sep;
      assert s[|sep|..] == b;
    } else {
      assert s[..|sep|][0] == a[0];
      assert s[1..] == a[1..] + sep + b;
      SplitAtSeparator(a[1..], sep, b);
      assert [a[0]] + a[1..] == a;
    }
  }

  /** Splitting undoes joining when no element holds the separator's first
      character. */
  lemma {:induction false} SplitJoin(xs: seq<string>, sep: string)
    requires |xs| >= 1 && |sep| > 0
    requires forall i :: 0 <= i < |xs| ==> sep[0] !in xs[i]
    ensures Split(Join(xs, sep), sep) == xs
    decreases |xs|
  {
    if |xs| == 1 {
      SplitWithoutSeparator(xs[0], sep);
    } else {
      var tail := xs[1..];
      forall i | 0 <= i < |tail| ensures sep[0] !in tail[i] {
        assert tail[i] == xs[i + 1];
      }
      SplitJoin(tail, sep);
      SplitAtSeparator(xs[0], sep, Join(tail, sep));
      assert Join(xs, sep) == xs[0] + sep + Join(tail, sep);
      assert xs == [xs[0]] + tail;
    }
  }

  // ---------------------------------------------------------------------------
  // Decimal digits: Number.prototype.toString and padStart
  // ---------------------------------------------------------------------------

  predicate IsDigit(c: char) {
    '0' <= c <= '9'
  }

  predicate AllDigits(s: string) {
    forall i :: 0 <= i < |s| ==> IsDigit(s[i])
  }

  function DigitChar(d: nat): (c: char)
    requires d < 10
    ensures IsDigit(c)
    ensures c == '0' <==> d == 0
  {
    ('0' as int + d) as char
  }

  function DigitValue(c: char): (d: nat)
    requires IsDigit(c)
    ensures d < 10 && DigitChar(d) == c
  {
    c as int - '0' as int
  }

  /** The decimal numeral of `n`, without leading zeros. */
  function NatToString(n: nat): (s: string)
    ensures |s| >= 1 && AllDigits(s)
    ensures s[0] == '0' ==> n == 0
    decreases n
  {
    if n < 10 then [DigitChar(n)] else NatToString(n / 10) + [DigitChar(n % 10)]
  }

  /** The value of a string of decimal digits (leading zeros allowed). */
  function ParseDigits(s: string): nat
    requires AllDigits(s)
  {
    if s == [] then 0 else ParseDigits(s[..|s| - 1]) * 10 + DigitValue(s[|s| - 1])
  }

  /** Reading a numeral back gives the number printed. */
  lemma {:induction false} ParseNatToString(n: nat)
    ensures ParseDigits(NatToString(n)) == n
    decreases n
  {
    var s := NatToString(n);
    if n >= 10 {
      assert s[..|s| - 1] == NatToString(n / 10);
      ParseNatToString(n / 10);
    }
  }

  /** Leading zeros do not change the value of a numeral. */
  lemma {:induction false} ParseLeadingZero(s: string)
    requires AllDigits(s)
    ensures AllDigits("0" + s) && ParseDigits("0" + s) == ParseDigits(s)
    decreases |s|
  {
    if s != [] {
      assert ("0" + s)[..|s|] == "0" + s[..|s| - 1];
      ParseLeadingZero(s[..|s| - 1]);
    }
  }

  /** `s.padStart(width, fill)`. */
  function PadStart(s: string, width: nat, fill: char): (r: string)
    ensures |r| == if |s| < width then width else |s|
    ensures r[|r| - |s|..] == s
    ensures forall i :: 0 <= i < |r| - |s| ==> r[i] == fill
    decreases width - |s|
  {
    if |s| < width then
      var r := PadStart([fill] + s, width, fill);
      var k := |r| - |s|;
      assert r[k - 1..] == [fill] + s;
      assert r[k..] == r[k - 1..][1..];
      assert r[k - 1] == r[k - 1..][0];
      assert |r| - |[fill] + s| == k - 1;
      r
    else s
  }

  /** Zero-padding keeps a numeral's value. */
  lemma {:induction false} ParsePadded(s: string, width: nat)
    requires AllDigits(s)
    ensures AllDigits(PadStart(s, width, '0'))
    ensures ParseDigits(PadStart(s, width, '0')) == ParseDigits(s)
    decreases width - |s|
  {
    if |s| < width {
      ParseLeadingZero(s);
      ParsePadded("0" + s, width);
    }
  }

  /** The length of the longest all-digit prefix of `s`. */
  function LeadingDigits(s: string): (k: nat)
    ensures k <= |s| && AllDigits(s[..k])
    ensures k < |s| ==> !IsDigit(s[k])
  {
    if s != [] && IsDigit(s[0]) then
      var k := 1 + LeadingDigits(s[1..]);
      assert s[..k] == [s[0]] + s[1..][..k - 1];
      k
    else 0
  }

  /** A numeral followed by a non-digit is read up to its end. */
  lemma LeadingDigitsOfNumeral(d: string, t: string)
    requires AllDigits(d)
    requires t == [] || !IsDigit(t[0])
    ensures LeadingDigits(d + t) == |d|
  {
    var s := d + t;
    var k := LeadingDigits(s);
    assert forall i :: 0 <= i < |d| ==> IsDigit(s[i]);
    assert |d| < |s| ==> s[|d|] == t[0];
    assert forall i :: 0 <= i < k ==> s[..k][i] == s[i];
  }
}
