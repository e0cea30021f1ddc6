/**
 * String helpers shared by the model: substring search, the two whitespace
 * classes (JavaScript's `\s`/`trim` and Python's `\s`/`strip`), trimming,
 * ASCII lower-casing, splitting and joining on one character, and decimal
 * rendering of numbers. Strings are sequences of Unicode code points.
 */
module Text {

  // ---------------------------------------------------------------- search

  /** `s.includes(t)`: `t` starts at the front of `s` or somewhere after it. */
  predicate Contains(s: string, t: string)
  {
    t <= s || (s != [] && Contains(s[1..], t))
  }

  /** `t` occurs in `s` exactly when it is a prefix of some suffix of `s`. */
  lemma {:induction false} ContainsIff(s: string, t: string)
    ensures Contains(s, t) <==> exists i | 0 <= i <= |s| :: t <= s[i..]
  {
    assert s[0..] == s;
    if !(t <= s) && s != [] {
      ContainsIff(s[1..], t);
      assert forall j :: 0 <= j <= |s| - 1 ==> s[1..][j..] == s[j + 1..];
      if exists i | 0 <= i <= |s| :: t <= s[i..] {
        var i :| 0 <= i <= |s| && t <= s[i..];
        assert i > 0 && s[1..][i - 1..] == s[i..];
      }
    }
  }

  lemma ContainsAt(s: string, t: string, i: nat)
    requires i <= |s| && t <= s[i..]
    ensures Contains(s, t)
  {
    ContainsIff(s, t);
  }

  lemma ContainsPrefix(s: string, t: string)
    requires t <= s
    ensures Contains(s, t)
  {
  }

  /** A text that lacks one of the characters of `t` does not contain `t`. */
  lemma MissingCharNotContained(s: string, t: string, k: nat)
    requires k < |t| && t[k] !in s
    ensures !Contains(s, t)
  {
    ContainsIff(s, t);
    forall i | 0 <= i <= |s|
      ensures !(t <= s[i..])
    {
      if i + k < |s| {
        assert s[i..][k] == s[i + k];
      }
    }
  }

  /** A substring of a substring is a substring. */
  lemma ContainsTrans(s: string, t: string, u: string)
    requires Contains(s, t) && Contains(t, u)
    ensures Contains(s, u)
  {
    ContainsIff(s, t);
    ContainsIff(t, u);
    var i :| 0 <= i <= |s| && t <= s[i..];
    var j :| 0 <= j <= |t| && u <= t[j..];
    PrefixOfPrefix(s[i..], t, j, u);
    assert s[i..][j..] == s[i + j..];
    ContainsAt(s, u, i + j);
  }

  /** What starts at `j` of a prefix of `a` starts at `j` of `a`. */
  lemma PrefixOfPrefix(a: string, t: string, j: nat, u: string)
    requires t <= a && j <= |t| && u <= t[j..]
    ensures u <= a[j..]
  {
    assert forall k :: 0 <= k < |u| ==> u[k] == t[j + k] == a[j + k];
  }

  /** `s.indexOf(t)`: the first position where `t` occurs, or -1. */
  function IndexOf(s: string, t: string): (r: int)
    ensures -1 <= r <= |s|
    ensures r >= 0 ==> t <= s[r..]
    ensures r >= 0 ==> forall k :: 0 <= k < r ==> !(t <= s[k..])
    ensures r == -1 <==> !Contains(s, t)
    decreases |s|
  {
    ContainsIff(s, t);
    if t <= s then
      assert s[0..] == s;
      0
    else if s == [] then -1
    else
      var k := IndexOf(s[1..], t);
      assert forall m :: 1 <= m <= |s| ==> s[m..] == s[1..][m - 1..];
      if k < 0 then -1 else k + 1
  }

  /** First position of character `c` in `s`, or `|s|` when there is none. */
  function FindChar(s: string, c: char): (i: nat)
    ensures i <= |s|
    ensures i < |s| ==> s[i] == c
    ensures c !in s[..i]
  {
    if s == [] then 0
    else if s[0] == c then 0
    else
      var k := FindChar(s[1..], c);
      assert s[..k + 1] == [s[0]] + s[1..][..k];
      k + 1
  }

  // ----------------------------------------------------------- whitespace

  /** A character of JavaScript's `\s` class, which `trim` also removes. */
  predicate IsJsSpace(c: char)
  {
    c == '\t' || c == '\n' || c == '\U{000B}' || c == '\U{000C}' || c == '\r' || c == ' '
    || c == '\U{00A0}' || c == '\U{1680}' || ('\U{2000}' <= c <= '\U{200A}')
    || c == '\U{2028}' || c == '\U{2029}' || c == '\U{202F}' || c == '\U{205F}'
    || c == '\U{3000}' || c == '\U{FEFF}'
  }

  /** A character Python's `str.isspace` accepts (also `\s` of `re` on text). */
  predicate IsPySpace(c: char)
  {
    ('\t' <= c <= '\r') || ('\U{001C}' <= c <= '\U{001F}') || c == ' '
    || c == '\U{0085}' || c == '\U{00A0}' || c == '\U{1680}' || ('\U{2000}' <= c <= '\U{200A}')
    || c == '\U{2028}' || c == '\U{2029}' || c == '\U{202F}' || c == '\U{205F}' || c == '\U{3000}'
  }

  /** A line boundary of Python's `str.splitlines`. */
  predicate IsPyLineBreak(c: char)
  {
    c == '\n' || c == '\r' || c == '\U{000B}' || c == '\U{000C}' || ('\U{001C}' <= c <= '\U{001E}')
    || c == '\U{0085}' || c == '\U{2028}' || c == '\U{2029}'
  }

  lemma LineBreakIsSpace(c: char)
    ensures IsPyLineBreak(c) ==> IsPySpace(c)
  {
  }

  function TrimStart(s: string, ws: char -> bool): (r: string)
    ensures |r| <= |s| && r == s[|s| - |r|..]
    ensures r != [] ==> !ws(r[0])
    ensures forall k :: 0 <= k < |s| - |r| ==> ws(s[k])
  {
    if s != [] && ws(s[0]) then TrimStart(s[1..], ws) else s
  }

  function TrimEnd(s: string, ws: char -> bool): (r: string)
    ensures |r| <= |s| && r == s[..|r|]
    ensures r != [] ==> !ws(r[|r| - 1])
    ensures forall k :: |r| <= k < |s| ==> ws(s[k])
  {
    if s != [] && ws(s[|s| - 1]) then TrimEnd(s[..|s| - 1], ws) else s
  }

  /** Removes the leading and trailing characters of class `ws`. */
  function Trim(s: string, ws: char -> bool): string
  {
    TrimEnd(TrimStart(s, ws), ws)
  }

  /**
   * The trimmed string is the middle of `s`: only `ws` characters were cut,
   * and its own ends are not `ws` characters.
   */
  lemma TrimShape(s: string, ws: char -> bool)
    ensures var r := Trim(s, ws);
      (r == [] || (!ws(r[0]) && !ws(r[|r| - 1])))
      && exists i | 0 <= i <= |s| - |r| ::
        r <= s[i..]
        && (forall k :: 0 <= k < i ==> ws(s[k]))
        && (forall k :: i + |r| <= k < |s| ==> ws(s[k]))
  {
    var a := TrimStart(s, ws);
    var r := TrimEnd(a, ws);
    var i := |s| - |a|;
    assert s[i..] == a;
    assert r <= s[i..];
    assert forall k :: 0 <= k < i ==> ws(s[k]);
    forall k | i + |r| <= k < |s|
      ensures ws(s[k])
    {
      assert s[k] == a[k - i];
    }
    assert Trim(s, ws) == r;
  }

  lemma TrimContained(s: string, ws: char -> bool)
    ensures Contains(s, Trim(s, ws))
  {
    TrimShape(s, ws);
    ContainsIff(s, Trim(s, ws));
  }

  /** Trimming twice is trimming once. */
  lemma TrimIdempotent(s: string, ws: char -> bool)
    ensures Trim(Trim(s, ws), ws) == Trim(s, ws)
  {
    var r := Trim(s, ws);
    TrimShape(s, ws);
    assert TrimStart(r, ws) == r;
    assert TrimEnd(r, ws) == r;
  }

  /** Every character of the trimmed string is one of the original's, so a class they all belong to is kept. */
  lemma TrimKeepsClass(s: string, ws: char -> bool, p: char -> bool)
    requires forall k :: 0 <= k < |s| ==> p(s[k])
    ensures forall k :: 0 <= k < |Trim(s, ws)| ==> p(Trim(s, ws)[k])
  {
    var a := TrimStart(s, ws);
    var r := TrimEnd(a, ws);
    assert forall k :: 0 <= k < |r| ==> r[k] == s[|s| - |a| + k];
  }

  /** A string is blank exactly when every character is of class `ws`. */
  lemma TrimEmpty(s: string, ws: char -> bool)
    ensures Trim(s, ws) == [] <==> forall k :: 0 <= k < |s| ==> ws(s[k])
  {
    TrimShape(s, ws);
  }

  /** A text that neither starts nor ends with `ws` is left alone, and so is its core when one `ws` character pads each side. */
  lemma TrimPadded(s: string, pad: char, ws: char -> bool)
    requires s != [] && !ws(s[0]) && !ws(s[|s| - 1]) && ws(pad)
    ensures Trim(s, ws) == s
    ensures Trim([pad] + s + [pad], ws) == s
  {
    var q := [pad] + s + [pad];
    assert q[1..] == s + [pad];
    assert TrimStart(s + [pad], ws) == s + [pad];
    assert (s + [pad])[..|s|] == s;
  }

  /** JavaScript's `String.prototype.trim`. */
  function JsTrim(s: string): string
  {
    Trim(s, IsJsSpace)
  }

  /** Python's `str.strip()` with no argument. */
  function PyStrip(s: string): string
  {
    Trim(s, IsPySpace)
  }

  // --------------------------------------------------------------- case

  function LowerChar(c: char): char
  {
    if 'A' <= c <= 'Z' then (c as int + 32) as char else c
  }

  /** `toLowerCase` on the ASCII letters; every other character is kept. */
  function ToLower(s: string): (r: string)
    ensures |r| == |s|
    ensures forall k :: 0 <= k < |s| ==> r[k] == LowerChar(s[k])
  {
    seq(|s|, k requires 0 <= k < |s| => LowerChar(s[k]))
  }

  /** Lower-casing keeps every occurrence of a text that has no upper-case letter. */
  lemma ContainsLower(s: string, t: string)
    requires Contains(s, t) && ToLower(t) == t
    ensures Contains(ToLower(s), t)
  {
    ContainsIff(s, t);
    ContainsIff(ToLower(s), t);
    var i :| 0 <= i <= |s| && t <= s[i..];
    var l := ToLower(s);
    forall j | 0 <= j < |t|
      ensures l[i + j] == t[j]
    {
      assert s[i..][j] == s[i + j];
      assert LowerChar(t[j]) == ToLower(t)[j];
    }
    assert t <= l[i..];
  }

  /** Lower-casing both sides keeps every occurrence. */
  lemma ContainsLowered(s: string, t: string)
    requires Contains(s, t)
    ensures Contains(ToLower(s), ToLower(t))
  {
    ContainsIff(s, t);
    var i :| 0 <= i <= |s| && t <= s[i..];
    var l := ToLower(s);
    forall j | 0 <= j < |t|
      ensures l[i + j] == ToLower(t)[j]
    {
      assert s[i..][j] == s[i + j];
    }
    assert ToLower(t) <= l[i..];
    ContainsAt(l, ToLower(t), i);
  }

  // ---------------------------------------------------------- split/join

  /** `s.split(c)` for a one-character separator (never an empty list). */
  function Split(s: string, c: char): (r: seq<string>)
    ensures |r| >= 1
    ensures forall k :: 0 <= k < |r| ==> c !in r[k]
    decreases |s|
  {
    var i := FindChar(s, c);
    if i == |s| then [s] else [s[..i]] + Split(s[i + 1..], c)
  }

  /** `parts.join(sep)`. */
  function Join(parts: seq<string>, sep: string): string
  {
    if parts == [] then ""
    else if |parts| == 1 then parts[0]
    else parts[0] + sep + Join(parts[1..], sep)
  }

  /** Joining one more line puts the separator and the line at the end. */
  lemma {:induction false} JoinSnoc(lines: seq<string>, x: string, sep: string)
    requires lines != []
    ensures Join(lines + [x], sep) == Join(lines, sep) + sep + x
    decreases |lines|
  {
    if |lines| > 1 {
      assert (lines + [x])[1..] == lines[1..] + [x];
      JoinSnoc(lines[1..], x, sep);
    } else {
      assert (lines + [x])[1..] == [x];
    }
  }

  /** Joining the pieces of a split gives the original string back. */
  lemma {:induction false} JoinSplit(s: string, c: char)
    ensures Join(Split(s, c), [c]) == s
    decreases |s|
  {
    var i := FindChar(s, c);
    if i < |s| {
      var tail := Split(s[i + 1..], c);
      JoinSplit(s[i + 1..], c);
      var parts := [s[..i]] + tail;
      assert Split(s, c) == parts;
      assert parts[0] == s[..i] && parts[1..] == tail && |parts| >= 2;
      assert Join(parts, [c]) == s[..i] + [c] + Join(tail, [c]);
      assert s == s[..i] + [c] + s[i + 1..];
    }
  }

  /** Splitting a join of separator-free pieces gives the pieces back. */
  lemma {:induction false} SplitJoin(parts: seq<string>, c: char)
    requires |parts| >= 1
    requires forall k :: 0 <= k < |parts| ==> c !in parts[k]
    ensures Split(Join(parts, [c]), c) == parts
  {
    var s := Join(parts, [c]);
    if |parts| == 1 {
      assert FindChar(s, c) == |s|;
    } else {
      var p := parts[0];
      var rest := Join(parts[1..], [c]);
      assert s == p + [c] + rest;
      FindAfter(p, c, rest);
      assert s[..|p|] == p && s[|p| + 1..] == rest;
      SplitJoin(parts[1..], c);
    }
  }

  lemma {:induction false} FindAfter(p: string, c: char, rest: string)
    requires c !in p
    ensures FindChar(p + [c] + rest, c) == |p|
  {
    if p != [] {
      assert (p + [c] + rest)[1..] == p[1..] + [c] + rest;
      FindAfter(p[1..], c, rest);
    }
  }

  /** The last piece of a join is a suffix of it. */
  lemma {:induction false} JoinSuffix(parts: seq<string>, sep: string, k: nat)
    requires k < |parts|
    ensures |Join(parts[k..], sep)| <= |Join(parts, sep)|
    ensures Join(parts, sep)[|Join(parts, sep)| - |Join(parts[k..], sep)|..] == Join(parts[k..], sep)
  {
    if k > 0 {
      JoinSuffix(parts[1..], sep, k - 1);
      assert parts[1..][k - 1..] == parts[k..];
      var whole := Join(parts, sep);
      var tail := Join(parts[1..], sep);
      assert whole == parts[0] + sep + tail;
      var t := Join(parts[k..], sep);
      assert whole[|whole| - |t|..] == tail[|tail| - |t|..];
    }
  }

  /** First position of a character satisfying `p`, or `|s|` when there is none. */
  function FindWhere(s: string, p: char -> bool): (i: nat)
    ensures i <= |s|
    ensures i < |s| ==> p(s[i])
    ensures forall k :: 0 <= k < i ==> !p(s[k])
  {
    if s == [] then 0
    else if p(s[0]) then 0
    else 1 + FindWhere(s[1..], p)
  }

  /** The pieces between the characters satisfying `p` (each such character ends a piece). */
  function SplitBy(s: string, p: char -> bool): (r: seq<string>)
    ensures |r| >= 1
    ensures forall k, j :: 0 <= k < |r| && 0 <= j < |r[k]| ==> !p(r[k][j])
    decreases |s|
  {
    var i := FindWhere(s, p);
    if i == |s| then [s] else [s[..i]] + SplitBy(s[i + 1..], p)
  }

  /** Splitting a join of pieces free of `p` characters, on a `p` character, gives the pieces. */
  lemma {:induction false} SplitByJoin(parts: seq<string>, c: char, p: char -> bool)
    requires |parts| >= 1 && p(c)
    requires forall k, j :: 0 <= k < |parts| && 0 <= j < |parts[k]| ==> !p(parts[k][j])
    ensures SplitBy(Join(parts, [c]), p) == parts
  {
    var s := Join(parts, [c]);
    if |parts| == 1 {
      assert FindWhere(s, p) == |s|;
    } else {
      var first := parts[0];
      var rest := Join(parts[1..], [c]);
      assert s == first + [c] + rest;
      FindWhereAfter(first, c, rest, p);
      assert s[..|first|] == first && s[|first| + 1..] == rest;
      SplitByJoin(parts[1..], c, p);
    }
  }

  lemma {:induction false} FindWhereAfter(first: string, c: char, rest: string, p: char -> bool)
    requires p(c) && forall j :: 0 <= j < |first| ==> !p(first[j])
    ensures FindWhere(first + [c] + rest, p) == |first|
  {
    if first != [] {
      assert (first + [c] + rest)[1..] == first[1..] + [c] + rest;
      FindWhereAfter(first[1..], c, rest, p);
    }
  }

  // ------------------------------------------------------------- numbers

  predicate IsDigit(c: char)
  {
    '0' <= c <= '9'
  }

  predicate AllDigits(s: string)
  {
    forall k :: 0 <= k < |s| ==> IsDigit(s[k])
  }

  /** `/^\d{9}$/`: nine ASCII digits and nothing else. */
  predicate IsNineDigits(t: string)
  {
    |t| == 9 && AllDigits(t)
  }

  function DigitChar(d: nat): char
    requires d < 10
  {
    ('0' as int + d) as char
  }

  function DigitValue(c: char): nat
    requires IsDigit(c)
  {
    c as int - '0' as int
  }

  /** Decimal rendering of a natural number, with no leading zero. */
  function NatToString(n: nat): (r: string)
    ensures |r| >= 1 && AllDigits(r)
    ensures r[0] == '0' ==> n == 0
  {
    if n < 10 then [DigitChar(n)] else NatToString(n / 10) + [DigitChar(n % 10)]
  }

  /** The value of a string of decimal digits. */
  function DigitsValue(s: string): nat
    requires AllDigits(s)
  {
    if s == [] then 0 else 10 * DigitsValue(s[..|s| - 1]) + DigitValue(s[|s| - 1])
  }

  /** Reading back a rendered number gives the number. */
  lemma {:induction false} NatToStringValue(n: nat)
    ensures DigitsValue(NatToString(n)) == n
  {
    if n >= 10 {
      NatToStringValue(n / 10);
      var s := NatToString(n);
      assert s[..|s| - 1] == NatToString(n / 10);
    }
  }

  /** The JavaScript rendering of an integer (`String(n)`, `n.toString()`). */
  function IntToString(n: int): (r: string)
    ensures |r| >= 1
  {
    if n < 0 then "-" + NatToString(-n) else NatToString(n)
  }

  // ------------------------------------------------------ leading digit

  function Pow10(k: nat): (p: nat)
    ensures p >= 1
  {
    if k == 0 then 1 else 10 * Pow10(k - 1)
  }

  /** A number of k digits (between 10^(k-1) and 10^k) renders as k characters. */
  lemma {:induction false} NatToStringDigits(n: nat, k: nat)
    requires 1 <= k && Pow10(k - 1) <= n < Pow10(k)
    ensures |NatToString(n)| == k
  {
    if k > 1 {
      assert Pow10(k) == 10 * Pow10(k - 1) && Pow10(k - 1) == 10 * Pow10(k - 2);
      assert n >= 10;
      assert n == 10 * (n / 10) + n % 10;
      NatToStringDigits(n / 10, k - 1);
    }
  }

  /** The most significant decimal digit of `n`. */
  function LeadingDigit(n: nat): (d: nat)
    ensures d < 10
    ensures n > 0 ==> d > 0
  {
    if n < 10 then n else LeadingDigit(n / 10)
  }

  /** The first character of the rendering is the leading digit. */
  lemma {:induction false} NatToStringFirst(n: nat)
    ensures NatToString(n)[0] == DigitChar(LeadingDigit(n))
  {
    if n >= 10 {
      NatToStringFirst(n / 10);
    }
  }

  /** Scaling a multiple of a power of ten up by one power. */
  lemma PowScale(d: nat, k: nat)
    requires k > 0
    ensures d * Pow10(k) == 10 * (d * Pow10(k - 1))
  {
    assert Pow10(k) == 10 * Pow10(k - 1);
  }

  /** Dropping the last digit keeps a number inside bounds scaled down by ten, and only then. */
  lemma TenfoldBounds(lo: nat, hi: nat, n: nat)
    ensures lo <= n / 10 < hi <==> 10 * lo <= n < 10 * hi
  {
    var q, r := n / 10, n % 10;
    assert n == 10 * q + r && 0 <= r < 10;
  }

  /** A leading digit `d` puts `n` between `d` and `d + 1` times a power of ten. */
  lemma {:induction false} LeadingDigitBounds(n: nat) returns (k: nat)
    requires n > 0
    ensures LeadingDigit(n) * Pow10(k) <= n < (LeadingDigit(n) + 1) * Pow10(k)
  {
    if n < 10 {
      k := 0;
    } else {
      var j := LeadingDigitBounds(n / 10);
      k := j + 1;
      var d := LeadingDigit(n);
      PowScale(d, k);
      PowScale(d + 1, k);
      TenfoldBounds(d * Pow10(j), (d + 1) * Pow10(j), n);
    }
  }

  /** Conversely, such bounds fix the leading digit. */
  lemma {:induction false} BoundsGiveLeadingDigit(n: nat, d: nat, k: nat)
    requires 1 <= d < 10
    requires d * Pow10(k) <= n < (d + 1) * Pow10(k)
    ensures LeadingDigit(n) == d
  {
    if k > 0 {
      PowScale(d, k);
      PowScale(d + 1, k);
      TenfoldBounds(d * Pow10(k - 1), (d + 1) * Pow10(k - 1), n);
      assert d * Pow10(k - 1) >= 1;
      BoundsGiveLeadingDigit(n / 10, d, k - 1);
    }
  }
}
