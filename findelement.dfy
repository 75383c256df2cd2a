/** `findFieldPositionInFile`: the line and character span of a key, or of a
    value, in the two-space pretty-printed text of a JSON document. The
    printing itself is `JSON.stringify(x, null, 2)` and is supplied by the
    caller; the scan over its lines is modelled exactly, including the two
    regular expressions it uses. */
module FindElement {
  import opened Wrappers
  import opened Strings

  datatype FieldPosition = FieldPosition(line: int, startChar: int, endChar: int)

  datatype Span = Span(start: int, end: int)

  // ---------------------------------------------------------------------------
  // key mode: /^\s*"<key>"\s*:/
  // ---------------------------------------------------------------------------

  function Quoted(key: string): string
  {
    "\"" + key + "\""
  }

  /** The line is white space, the quoted key, white space and a colon. The
      key is escaped before it goes into the pattern, so it matches
      literally. */
  predicate KeyLineMatch(line: string, key: string)
  {
    var t := TrimStart(line);
    StartsWith(t, Quoted(key)) && StartsWith(TrimStart(t[|Quoted(key)|..]), ":")
  }

  function KeyLineHit(line: string, key: string): (r: Option<Span>)
    ensures r.Some? <==> KeyLineMatch(line, key)
    ensures r.Some? ==> 0 <= r.value.start < r.value.end && r.value.end == r.value.start + |key| + 2
  {
    if KeyLineMatch(line, key) then
      KeyIndex(line, key);
      var startChar := IndexOf(line, Quoted(key));
      Some(Span(startChar, startChar + |key| + 2))
    else None
  }

  /** On a key line, `line.indexOf('"<key>"')` is the indentation: the quoted
      key cannot start inside the leading white space. */
  lemma KeyIndex(line: string, key: string)
    requires KeyLineMatch(line, key)
    ensures IndexOf(line, Quoted(key)) == |line| - |TrimStart(line)|
  {
    var t := TrimStart(line);
    var w := |line| - |t|;
    var q := Quoted(key);
    assert StartsWith(t, q);
    QuotedStart(key);
    assert line[w..] == t;
    SliceOfSuffix(line, w, |q|);
    assert OccursAt(line, q, w);
    IndexAfterSpaces(line, q, w);
  }

  lemma QuotedStart(key: string)
    ensures |Quoted(key)| == |key| + 2 && Quoted(key)[0] == '"' && !IsJsSpace(Quoted(key)[0])
  {
  }

  lemma SliceOfSuffix(s: string, w: nat, n: nat)
    requires w + n <= |s|
    ensures s[w..w + n] == s[w..][..n]
  {
  }

  lemma IndexAfterSpaces(line: string, q: string, w: nat)
    requires OccursAt(line, q, w) && |q| > 0 && !IsJsSpace(q[0])
    requires forall i :: 0 <= i < w ==> IsJsSpace(line[i])
    ensures IndexOf(line, q) == w
  {
    forall i | 0 <= i < w
      ensures !OccursAt(line, q, i)
    {
      if i + |q| <= |line| {
        assert line[i..i + |q|][0] == line[i];
      }
    }
  }

  // ---------------------------------------------------------------------------
  // value mode: /(:\s*|\[\s*)("(?:[^"\\]|\\.)*"|\d+|true|false|null)(\s*,|\s*\])?/
  // ---------------------------------------------------------------------------

  /** The characters `.` does not match in a JavaScript regular expression. */
  predicate IsLineTerminator(c: char)
  {
    c == '\n' || c == '\r' || c == '\U{2028}' || c == '\U{2029}'
  }

  function SkipSpaces(s: string, k: nat): (r: nat)
    requires k <= |s|
    ensures k <= r <= |s|
    ensures r < |s| ==> !IsJsSpace(s[r])
    decreases |s| - k
  {
    if k < |s| && IsJsSpace(s[k]) then SkipSpaces(s, k + 1) else k
  }

  /** Just past the closing quote of a string literal whose body starts at
      `k`: the body is characters other than `"` and `\`, or `\` with any
      character but a line terminator. */
  function StringLiteralEnd(s: string, k: nat): (r: Option<nat>)
    requires k <= |s|
    ensures r.Some? ==> k < r.value <= |s| && s[r.value - 1] == '"'
    decreases |s| - k
  {
    if k == |s| then None
    else if s[k] == '"' then Some(k + 1)
    else if s[k] == '\\' then
      if k + 1 < |s| && !IsLineTerminator(s[k + 1]) then StringLiteralEnd(s, k + 2) else None
    else StringLiteralEnd(s, k + 1)
  }

  /** The value token at `q`, if one starts there. */
  function TokenAt(s: string, q: nat): (r: Option<string>)
    requires q <= |s|
    ensures r.Some? ==> |r.value| >= 1 && OccursAt(s, r.value, q)
  {
    if q < |s| && s[q] == '"' then
      match StringLiteralEnd(s, q + 1)
      case Some(e) => Some(s[q..e])
      case None => None
    else if q < |s| && IsDigit(s[q]) then
      var d := LeadingDigits(s[q..]);
      assert s[q..][..|d|] == s[q..q + |d|];
      Some(d)
    else if StartsWith(s[q..], "true") then
      assert s[q..][..4] == s[q..q + 4];
      Some("true")
    else if StartsWith(s[q..], "false") then
      assert s[q..][..5] == s[q..q + 5];
      Some("false")
    else if StartsWith(s[q..], "null") then
      assert s[q..][..4] == s[q..q + 4];
      Some("null")
    else None
  }

  /** The token of the leftmost match: the first `:` or `[` at or after `p`
      whose following white space is followed by a token. */
  function ValueTokenFrom(s: string, p: nat): (r: Option<string>)
    requires p <= |s|
    ensures r.Some? ==> |r.value| >= 1 && Contains(s, r.value)
    decreases |s| - p
  {
    if p == |s| then None
    else if (s[p] == ':' || s[p] == '[') && TokenAt(s, SkipSpaces(s, p + 1)).Some? then
      var tok := TokenAt(s, SkipSpaces(s, p + 1)).value;
      ContainsAt(s, tok, SkipSpaces(s, p + 1));
      Some(tok)
    else ValueTokenFrom(s, p + 1)
  }

  /** `.replace(/(^"|"$)/g, "")`. */
  function Unquote(t: string): string
  {
    var a := if |t| > 0 && t[0] == '"' then t[1..] else t;
    if |t| >= 2 && t[|t| - 1] == '"' then a[..|a| - 1] else a
  }

  /** The line's first value token, when it reads as the searched text; the
      span starts where that token text first occurs in the line. */
  function ValueLineHit(line: string, value: string): (r: Option<Span>)
    ensures r.Some? ==> 0 <= r.value.start < r.value.end
    ensures r.Some? <==> ValueTokenFrom(line, 0).Some? && Unquote(ValueTokenFrom(line, 0).value) == value
  {
    match ValueTokenFrom(line, 0)
    case None => None
    case Some(tok) =>
      if Unquote(tok) == value then
        var startChar := IndexOf(line, tok);
        Some(Span(startChar, startChar + |tok|))
      else None
  }

  function LineHit(line: string, searchValue: string, highlightValue: bool): (r: Option<Span>)
    ensures r.Some? ==> 0 <= r.value.start < r.value.end
  {
    if highlightValue then ValueLineHit(line, searchValue) else KeyLineHit(line, searchValue)
  }

  // ---------------------------------------------------------------------------
  // the scan
  // ---------------------------------------------------------------------------

  /** The hit of every line, in order. */
  function LineHits(lines: seq<string>, searchValue: string, highlightValue: bool): (hits: seq<Option<Span>>)
    ensures |hits| == |lines|
    ensures forall j :: 0 <= j < |lines| ==> hits[j] == LineHit(lines[j], searchValue, highlightValue)
  {
    seq(|lines|, j requires 0 <= j < |lines| => LineHit(lines[j], searchValue, highlightValue))
  }

  /** The scan from line `i` on: the first line with a hit gives its 0-based
      number and span; `{0, 0, 0}` when no line has one. */
  function FirstHit(hits: seq<Option<Span>>, i: nat): FieldPosition
    requires i <= |hits|
    decreases |hits| - i
  {
    if i == |hits| then FieldPosition(0, 0, 0)
    else
      match hits[i]
      case Some(span) => FieldPosition(i, span.start, span.end)
      case None => FirstHit(hits, i + 1)
  }

  /** The scan over the lines of a printed document: the first line with a
      hit gives its 0-based number and span; `{0, 0, 0}` when none has one. */
  function FindInLines(lines: seq<string>, searchValue: string, highlightValue: bool): FieldPosition
  {
    FirstHit(LineHits(lines, searchValue, highlightValue), 0)
  }

  /** `findFieldPositionInFile(json, searchValue, highlightValue)` applied to
      the pretty-printed text of `json`, split at `\n`. */
  function FindFieldPositionInFile(printed: string, searchValue: string, highlightValue: bool): FieldPosition
  {
    FindInLines(Split(printed, '\n'), searchValue, highlightValue)
  }

  /** With no hit from `i` on, the result is `{0, 0, 0}`. */
  lemma {:induction false} FirstHitNone(hits: seq<Option<Span>>, i: nat)
    requires i <= |hits|
    requires forall j :: i <= j < |hits| ==> hits[j].None?
    ensures FirstHit(hits, i) == FieldPosition(0, 0, 0)
    decreases |hits| - i
  {
    if i < |hits| {
      FirstHitNone(hits, i + 1);
    }
  }

  /** With a hit at `j`, the result is the first hit, at or before `j`. */
  lemma {:induction false} FirstHitFound(hits: seq<Option<Span>>, i: nat, j: nat)
    requires i <= j < |hits| && hits[j].Some?
    ensures var r := FirstHit(hits, i);
      i <= r.line <= j && hits[r.line] == Some(Span(r.startChar, r.endChar))
      && (forall k :: i <= k < r.line ==> hits[k].None?)
    decreases j - i
  {
    if hits[i].None? {
      FirstHitFound(hits, i + 1, j);
    }
  }

  /** The search over the lines of a printed document: `{0, 0, 0}` without a
      hit, else the first line with a hit, with that line's non-empty span. */
  lemma FindInLinesMeaning(lines: seq<string>, searchValue: string, highlightValue: bool)
    ensures (forall j :: 0 <= j < |lines| ==> LineHit(lines[j], searchValue, highlightValue).None?) ==>
        FindInLines(lines, searchValue, highlightValue) == FieldPosition(0, 0, 0)
    ensures var r := FindInLines(lines, searchValue, highlightValue);
      (exists j :: 0 <= j < |lines| && LineHit(lines[j], searchValue, highlightValue).Some?) ==>
        0 <= r.line < |lines|
        && LineHit(lines[r.line], searchValue, highlightValue) == Some(Span(r.startChar, r.endChar))
        && (forall k :: 0 <= k < r.line ==> LineHit(lines[k], searchValue, highlightValue).None?)
        && 0 <= r.startChar < r.endChar
  {
    if j :| 0 <= j < |lines| && LineHit(lines[j], searchValue, highlightValue).Some? {
      FirstLineHit(lines, searchValue, highlightValue, j);
    } else {
      NoLineHit(lines, searchValue, highlightValue);
    }
  }

  /** Without a hit on any line the search gives `{0, 0, 0}`. */
  lemma NoLineHit(lines: seq<string>, searchValue: string, highlightValue: bool)
    requires forall j :: 0 <= j < |lines| ==> LineHit(lines[j], searchValue, highlightValue).None?
    ensures FirstHit(LineHits(lines, searchValue, highlightValue), 0) == FieldPosition(0, 0, 0)
  {
    FirstHitNone(LineHits(lines, searchValue, highlightValue), 0);
  }

  /** With a hit on line `j` the search gives the first line with a hit. */
  lemma FirstLineHit(lines: seq<string>, searchValue: string, highlightValue: bool, j: nat)
    requires j < |lines| && LineHit(lines[j], searchValue, highlightValue).Some?
    ensures var r := FirstHit(LineHits(lines, searchValue, highlightValue), 0);
      0 <= r.line < |lines|
      && LineHit(lines[r.line], searchValue, highlightValue) == Some(Span(r.startChar, r.endChar))
      && (forall k :: 0 <= k < r.line ==> LineHit(lines[k], searchValue, highlightValue).None?)
      && 0 <= r.startChar < r.endChar
  {
    var hits := LineHits(lines, searchValue, highlightValue);
    FirstHitFound(hits, 0, j);
    var r := FirstHit(hits, 0);
    assert hits[r.line] == LineHit(lines[r.line], searchValue, highlightValue);
  }

  /** In key mode a hit starts at the line's indentation and spans the quoted
      key. */
  lemma KeyHitSpan(lines: seq<string>, key: string)
    requires exists j :: 0 <= j < |lines| && KeyLineMatch(lines[j], key)
    ensures var r := FindInLines(lines, key, false);
      0 <= r.line < |lines| && KeyLineMatch(lines[r.line], key)
      && r.startChar == |lines[r.line]| - |TrimStart(lines[r.line])|
      && r.endChar == r.startChar + |key| + 2
  {
    var j :| 0 <= j < |lines| && KeyLineMatch(lines[j], key);
    FindInLinesMeaning(lines, key, false);
    var r := FindInLines(lines, key, false);
    KeyIndex(lines[r.line], key);
  }

  /** A witness, on one line: the span starts at the first occurrence of the
      token text in the line, which can lie before the token itself, here
      inside the key. */
  lemma ValueSpanStartsAtFirstOccurrence()
    ensures ValueLineHit("\"1\": 1", "1") == Some(Span(1, 2))
  {
    var line := "\"1\": 1";
    assert line[5..] == "1";
    assert LeadingDigits(line[5..]) == "1";
    assert SkipSpaces(line, 4) == 5;
    assert TokenAt(line, 5) == Some("1");
    assert ValueTokenFrom(line, 3) == Some("1");
    assert ValueTokenFrom(line, 0) == Some("1");
    assert line[0..1] != "1";
    assert line[1..2] == "1";
    assert IndexOf(line, "1") == 1;
  }
}
