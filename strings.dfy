/** The JavaScript string operations the configuration tools rely on, written
    out with the exact behaviour of `String.prototype.split` (one-character
    separator), `includes`, `indexOf`, `startsWith`, `replace` with a string
    pattern (first occurrence only), `String(n)` on integers and `parseInt`. */
module Strings {
  import opened Wrappers

  // ---------------------------------------------------------------------------
  // split / join on a single character
  // ---------------------------------------------------------------------------

  /** Index of the first `c` in `s`, or `|s|` when `s` has none. */
  function FindChar(s: string, c: char): (i: nat)
    ensures i <= |s|
    ensures i < |s| ==> s[i] == c
    ensures forall j :: 0 <= j < i ==> s[j] != c
  {
    if |s| == 0 then 0
    else if s[0] == c then 0
    else 1 + FindChar(s[1..], c)
  }

  /** `parts.join(sep)`. */
  function Join(parts: seq<string>, sep: char): string
  {
    if |parts| == 0 then ""
    else if |parts| == 1 then parts[0]
    else parts[0] + [sep] + Join(parts[1..], sep)
  }

  /** `s.split(sep)`: never empty, no part holds the separator, and joining the
      parts back gives `s`. */
  function Split(s: string, sep: char): (parts: seq<string>)
    ensures |parts| >= 1
    ensures forall i :: 0 <= i < |parts| ==> sep !in parts[i]
    ensures Join(parts, sep) == s
    decreases |s|
  {
    var i := FindChar(s, sep);
    if i == |s| then [s]
    else
      var rest := Split(s[i + 1..], sep);
      assert s == s[..i] + [sep] + s[i + 1..];
      [s[..i]] + rest
  }

  lemma FindCharAfterPrefix(a: string, c: char, b: string)
    requires c !in a
    ensures FindChar(a + [c] + b, c) == |a|
  {
    var s := a + [c] + b;
    assert s[|a|] == c;
    assert forall j :: 0 <= j < |a| ==> s[j] == a[j];
  }

  /** The first part of a split ends at the first separator. */
  lemma SplitHead(a: string, c: char, b: string)
    requires c !in a
    ensures Split(a + [c] + b, c)[0] == a
  {
    FindCharAfterPrefix(a, c, b);
    assert (a + [c] + b)[..|a|] == a;
  }

  /** Splitting a join of separator-free parts gives the parts back. */
  lemma {:induction false} SplitOfJoin(parts: seq<string>, sep: char)
    requires |parts| >= 1
    requires forall i :: 0 <= i < |parts| ==> sep !in parts[i]
    ensures Split(Join(parts, sep), sep) == parts
    decreases |parts|
  {
    if |parts| == 1 {
      assert FindChar(parts[0], sep) == |parts[0]|;
    } else {
      var tail := Join(parts[1..], sep);
      var s := parts[0] + [sep] + tail;
      assert Join(parts, sep) == s;
      FindCharAfterPrefix(parts[0], sep, tail);
      assert s[..|parts[0]|] == parts[0];
      assert s[|parts[0]| + 1..] == tail;
      SplitOfJoin(parts[1..], sep);
      assert parts == [parts[0]] + parts[1..];
    }
  }

  /** Joining one more part appends the separator and the part. */
  lemma {:induction false} JoinAppend(parts: seq<string>, last: string, sep: char)
    requires |parts| >= 1
    ensures Join(parts + [last], sep) == Join(parts, sep) + [sep] + last
    decreases |parts|
  {
    if |parts| > 1 {
      assert (parts + [last])[1..] == parts[1..] + [last];
      JoinAppend(parts[1..], last, sep);
    }
  }

  /** Splitting after a final separator-free part gives that part last. */
  lemma SplitAppend(s: string, last: string, sep: char)
    requires sep !in last
    ensures Split(s + [sep] + last, sep) == Split(s, sep) + [last]
  {
    var parts := Split(s, sep) + [last];
    JoinAppend(Split(s, sep), last, sep);
    SplitOfJoin(parts, sep);
  }

  /** The last part after appending a separator and a separator-free part. */
  lemma LastPartAppend(s: string, last: string, sep: char)
    requires sep !in last
    ensures LastPart(s + [sep] + last, sep) == last
  {
    SplitAppend(s, last, sep);
  }

  /** The dotted ids of the tools: splitting three or four separator-free
      parts joined by the separator gives them back. */
  lemma SplitThree(a: string, b: string, c: string, sep: char)
    requires sep !in a && sep !in b && sep !in c
    ensures Split(a + [sep] + b + [sep] + c, sep) == [a, b, c]
  {
    var parts := [a, b, c];
    assert Join(parts[1..], sep) == b + [sep] + c;
    assert Join(parts, sep) == a + [sep] + b + [sep] + c;
    SplitOfJoin(parts, sep);
  }

  lemma SplitFour(a: string, b: string, c: string, d: string, sep: char)
    requires sep !in a && sep !in b && sep !in c && sep !in d
    ensures Split(a + [sep] + b + [sep] + c + [sep] + d, sep) == [a, b, c, d]
  {
    JoinFour(a, b, c, d, sep);
    SplitOfJoin([a, b, c, d], sep);
  }

  lemma JoinFour(a: string, b: string, c: string, d: string, sep: char)
    ensures Join([a, b, c, d], sep) == a + [sep] + b + [sep] + c + [sep] + d
  {
    assert [a, b, c, d][1..] == [b, c, d] && [b, c, d][1..] == [c, d];
    var cd := c + [sep] + d;
    assert Join([c, d], sep) == cd;
    var bcd := b + [sep] + cd;
    assert Join([b, c, d], sep) == bcd;
    assert Join([a, b, c, d], sep) == a + [sep] + bcd;
  }

  /** Element `i` of `s.split(sep)`, or `""` when the split is shorter (where
      JavaScript gives `undefined`; every caller that reaches this treats both
      alike or guards on the length first). */
  function SplitAt(s: string, sep: char, i: nat): string
  {
    var parts := Split(s, sep);
    if i < |parts| then parts[i] else ""
  }

  lemma {:induction false} JoinHolds(parts: seq<string>, sep: char, i: nat, c: char)
    requires i < |parts| && c in parts[i]
    ensures c in Join(parts, sep)
    decreases |parts|
  {
    if |parts| > 1 {
      var j := Join(parts[1..], sep);
      assert Join(parts, sep) == parts[0] + [sep] + j;
      if i > 0 {
        JoinHolds(parts[1..], sep, i - 1, c);
      }
    }
  }

  /** A part of a split holds no character its source lacks. */
  lemma SplitAtWithin(s: string, sep: char, i: nat, c: char)
    requires c !in s
    ensures c !in SplitAt(s, sep, i)
  {
    var parts := Split(s, sep);
    if i < |parts| && c in parts[i] {
      JoinHolds(parts, sep, i, c);
    }
  }

  /** The last element of `s.split(sep)`. */
  function LastPart(s: string, sep: char): string
  {
    var parts := Split(s, sep);
    parts[|parts| - 1]
  }

  /** `s.split(sep).length`. */
  function SegmentCount(s: string, sep: char): nat
  {
    |Split(s, sep)|
  }

  // ---------------------------------------------------------------------------
  // substring search
  // ---------------------------------------------------------------------------

  predicate OccursAt(s: string, sub: string, i: nat)
  {
    i + |sub| <= |s| && s[i..i + |sub|] == sub
  }

  /** `s.indexOf(sub, k)` for `k <= |s|`: the first occurrence at or after `k`,
      or -1. */
  function IndexOfFrom(s: string, sub: string, k: nat): (r: int)
    requires k <= |s|
    ensures r == -1 || (k <= r <= |s| && OccursAt(s, sub, r))
    ensures r == -1 ==> forall i :: k <= i <= |s| ==> !OccursAt(s, sub, i)
    ensures r >= 0 ==> forall i :: k <= i < r ==> !OccursAt(s, sub, i)
    decreases |s| - k
  {
    if k + |sub| > |s| then -1
    else if s[k..k + |sub|] == sub then k
    else IndexOfFrom(s, sub, k + 1)
  }

  function IndexOf(s: string, sub: string): int
  {
    IndexOfFrom(s, sub, 0)
  }

  /** `s.includes(sub)`. */
  predicate Contains(s: string, sub: string)
  {
    IndexOf(s, sub) >= 0
  }

  lemma ContainsIff(s: string, sub: string)
    ensures Contains(s, sub) <==> exists i :: 0 <= i <= |s| && OccursAt(s, sub, i)
  {
  }

  lemma ContainsAt(s: string, sub: string, i: nat)
    requires OccursAt(s, sub, i)
    ensures Contains(s, sub)
  {
  }

  /** A string lacking one of the characters of `sub` cannot contain it. */
  lemma NotContainsMissingChar(s: string, sub: string, c: char)
    requires c in sub && c !in s
    ensures !Contains(s, sub)
  {
  }

  predicate StartsWith(s: string, prefix: string)
  {
    |prefix| <= |s| && s[..|prefix|] == prefix
  }

  lemma StartsWithConcat(prefix: string, rest: string)
    ensures StartsWith(prefix + rest, prefix)
  {
    assert (prefix + rest)[..|prefix|] == prefix;
  }

  predicate EndsWith(s: string, suffix: string)
  {
    |suffix| <= |s| && s[|s| - |suffix|..] == suffix
  }

  /** `s.replace(pat, rep)` with a string pattern and a replacement free of `$`
      patterns: only the first occurrence is replaced. */
  function ReplaceFirst(s: string, pat: string, rep: string): (r: string)
    ensures !Contains(s, pat) ==> r == s
    ensures Contains(s, pat) ==>
              exists i :: 0 <= i && i + |pat| <= |s| && OccursAt(s, pat, i)
                && (forall j :: 0 <= j < i ==> !OccursAt(s, pat, j))
                && r == s[..i] + rep + s[i + |pat|..]
  {
    var i := IndexOf(s, pat);
    if i < 0 then s else s[..i] + rep + s[i + |pat|..]
  }

  // ---------------------------------------------------------------------------
  // numbers
  // ---------------------------------------------------------------------------

  predicate IsDigit(c: char)
  {
    '0' <= c <= '9'
  }

  predicate AllDigits(s: string)
  {
    forall i :: 0 <= i < |s| ==> IsDigit(s[i])
  }

  function DigitChar(d: nat): (c: char)
    requires d < 10
    ensures IsDigit(c)
  {
    (48 + d) as char
  }

  function DigitValue(c: char): nat
    requires IsDigit(c)
  {
    (c as int) - 48
  }

  /** `String(n)` for a non-negative integer: canonical decimal digits. */
  function NatToString(n: nat): (s: string)
    ensures |s| >= 1 && AllDigits(s)
    ensures |s| > 1 ==> s[0] != '0'
  {
    if n < 10 then [DigitChar(n)] else NatToString(n / 10) + [DigitChar(n % 10)]
  }

  /** `String(i)` for any integer. */
  function IntToString(i: int): string
  {
    if i < 0 then "-" + NatToString(-i) else NatToString(i)
  }

  /** The value of a string of decimal digits (`parseInt(s, 10)`). */
  function DigitsValue(s: string): nat
    requires AllDigits(s)
  {
    if |s| == 0 then 0 else DigitsValue(s[..|s| - 1]) * 10 + DigitValue(s[|s| - 1])
  }

  /** Printing a number and reading it back gives the number. */
  lemma {:induction false} DigitsValueOfNatToString(n: nat)
    ensures DigitsValue(NatToString(n)) == n
    decreases n
  {
    if n >= 10 {
      var s := NatToString(n);
      assert s[..|s| - 1] == NatToString(n / 10);
      DigitsValueOfNatToString(n / 10);
    }
  }

  /** Distinct numbers print differently. */
  lemma NatToStringInjective(a: nat, b: nat)
    requires NatToString(a) == NatToString(b)
    ensures a == b
  {
    DigitsValueOfNatToString(a);
    DigitsValueOfNatToString(b);
  }

  /** The longest prefix of ASCII decimal digits. */
  function LeadingDigits(s: string): (d: string)
    ensures |d| <= |s| && d == s[..|d|] && AllDigits(d)
    ensures |d| < |s| ==> !IsDigit(s[|d|])
    ensures AllDigits(s) ==> d == s
  {
    if |s| == 0 || !IsDigit(s[0]) then "" else [s[0]] + LeadingDigits(s[1..])
  }

  predicate IsHexDigit(c: char)
  {
    IsDigit(c) || 'a' <= c <= 'f' || 'A' <= c <= 'F'
  }

  function HexValue(c: char): nat
    requires IsHexDigit(c)
  {
    if IsDigit(c) then DigitValue(c)
    else if 'a' <= c <= 'f' then (c as int) - 87
    else (c as int) - 55
  }

  function LeadingHexValue(s: string, acc: nat, seen: bool): Option<nat>
  {
    if |s| == 0 || !IsHexDigit(s[0]) then (if seen then Some(acc) else None)
    else LeadingHexValue(s[1..], acc * 16 + HexValue(s[0]), true)
  }

  /** The characters `\s` matches in a JavaScript regular expression, which are
      also the ones `parseInt` and `trim` skip. */
  predicate IsJsSpace(c: char)
  {
    c == ' ' || c == '\t' || c == '\n' || c == '\r' || c == '\U{000B}' || c == '\U{000C}'
    || c == '\U{00A0}' || c == '\U{1680}' || ('\U{2000}' <= c <= '\U{200A}')
    || c == '\U{2028}' || c == '\U{2029}' || c == '\U{202F}' || c == '\U{205F}'
    || c == '\U{3000}' || c == '\U{FEFF}'
  }

  function TrimStart(s: string): (t: string)
    ensures |t| <= |s| && t == s[|s| - |t|..]
    ensures |t| > 0 ==> !IsJsSpace(t[0])
    ensures forall i :: 0 <= i < |s| - |t| ==> IsJsSpace(s[i])
  {
    if |s| > 0 && IsJsSpace(s[0]) then TrimStart(s[1..]) else s
  }

  function TrimEnd(s: string): (t: string)
    ensures |t| <= |s| && t == s[..|t|]
    ensures |t| > 0 ==> !IsJsSpace(t[|t| - 1])
    ensures forall i :: |t| <= i < |s| ==> IsJsSpace(s[i])
  {
    if |s| > 0 && IsJsSpace(s[|s| - 1]) then TrimEnd(s[..|s| - 1]) else s
  }

  /** `s.trim()`. */
  function Trim(s: string): string
  {
    TrimEnd(TrimStart(s))
  }

  /** `parseInt(s)` with no radix: leading white space, an optional sign, then
      hexadecimal after `0x`/`0X` or else decimal digits; `None` is `NaN`. */
  function ParseInt(s: string): (r: Option<int>)
    ensures AllDigits(s) && |s| > 0 && !StartsWith(s, "0x") && !StartsWith(s, "0X") ==>
              r == Some(DigitsValue(s))
  {
    var t := TrimStart(s);
    var neg := |t| > 0 && t[0] == '-';
    var u := if |t| > 0 && (t[0] == '-' || t[0] == '+') then t[1..] else t;
    var magnitude :=
      if StartsWith(u, "0x") || StartsWith(u, "0X") then LeadingHexValue(u[2..], 0, false)
      else
        var d := LeadingDigits(u);
        if |d| == 0 then None else Some(DigitsValue(d));
    match magnitude
    case None => None
    case Some(m) =>
      var mi: int := m;
      Some(if neg then -mi else mi)
  }
}
