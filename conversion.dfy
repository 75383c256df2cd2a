/** The conversion phase: every ingested text is parsed into a JSON value and
    stored under `conversion:<type>:<id>`; a text that does not parse becomes
    an error located by line and column from the parser's "position N"
    message. */
module Conversion {
  import opened Wrappers
  import opened Strings
  import opened OrderedMaps
  import opened JsonValues
  import opened PipelineContexts

  // ---------------------------------------------------------------------------
  // the position in a parser message
  // ---------------------------------------------------------------------------

  /** `/position (\d+)/` matches at `i`. */
  predicate PositionMatchAt(m: string, i: nat)
  {
    OccursAt(m, "position ", i) && i + 9 < |m| && IsDigit(m[i + 9])
  }

  /** The leftmost match at or after `k`. */
  function FirstPositionMatch(m: string, k: nat): (r: Option<nat>)
    ensures r.Some? ==> k <= r.value && PositionMatchAt(m, r.value)
    ensures r.Some? ==> forall j :: k <= j < r.value ==> !PositionMatchAt(m, j)
    ensures r.None? ==> forall j :: k <= j ==> !PositionMatchAt(m, j)
    decreases |m| - k
  {
    if k + 9 >= |m| then None
    else if PositionMatchAt(m, k) then Some(k)
    else FirstPositionMatch(m, k + 1)
  }

  /** `extractErrorPositionFromMessage`: the digits after the first
      `"position "` that is followed by a digit, or 0 when there is none. */
  function ExtractErrorPositionFromMessage(message: string): (n: nat)
    ensures (forall j :: !PositionMatchAt(message, j)) ==> n == 0
  {
    match FirstPositionMatch(message, 0)
    case None => 0
    case Some(i) => DigitsValue(LeadingDigits(message[i + 9..]))
  }

  lemma {:induction false} LeadingDigitsOfDigits(d: string, post: string)
    requires AllDigits(d)
    requires post == [] || !IsDigit(post[0])
    ensures LeadingDigits(d + post) == d
    decreases |d|
  {
    if |d| == 0 {
      assert d + post == post;
    } else {
      assert (d + post)[1..] == d[1..] + post;
      LeadingDigitsOfDigits(d[1..], post);
      assert d == [d[0]] + d[1..];
    }
  }

  /** A message that reads `... position N ...`, with no earlier match, gives
      back exactly N. */
  lemma PositionOfMessage(pre: string, n: nat, post: string)
    requires post == [] || !IsDigit(post[0])
    requires forall j :: 0 <= j < |pre| ==> !PositionMatchAt(pre + "position " + NatToString(n) + post, j)
    ensures ExtractErrorPositionFromMessage(pre + "position " + NatToString(n) + post) == n
  {
    var digits := NatToString(n);
    var m := pre + "position " + digits + post;
    assert m[|pre|..|pre| + 9] == "position ";
    assert m[|pre| + 9] == digits[0];
    assert PositionMatchAt(m, |pre|);
    var r := FirstPositionMatch(m, 0);
    assert r == Some(|pre|);
    assert m[|pre| + 9..] == digits + post;
    LeadingDigitsOfDigits(digits, post);
    DigitsValueOfNatToString(n);
  }

  // ---------------------------------------------------------------------------
  // from a character position to a line and a column
  // ---------------------------------------------------------------------------

  datatype Position = Position(line: int, columnStart: int, columnEnd: int)

  /** The running count after `i` lines: each line's length plus one for its
      newline. */
  function LineStart(lines: seq<string>, i: nat): nat
    requires i <= |lines|
  {
    if i == 0 then 0 else |lines[0]| + 1 + LineStart(lines[1..], i - 1)
  }

  lemma {:induction false} LineStartStep(lines: seq<string>, i: nat)
    requires i < |lines|
    ensures LineStart(lines, i + 1) == LineStart(lines, i) + |lines[i]| + 1
    decreases i
  {
    if i > 0 {
      LineStartStep(lines[1..], i - 1);
    }
  }

  lemma {:induction false} LineStartMonotone(lines: seq<string>, i: nat, j: nat)
    requires i <= j <= |lines|
    ensures LineStart(lines, i) <= LineStart(lines, j)
    decreases j - i
  {
    if i < j {
      LineStartStep(lines, j - 1);
      LineStartMonotone(lines, i, j - 1);
    }
  }

  /** Over all the lines of a text the running count is the text's length plus
      one. */
  lemma {:induction false} LineStartOfJoin(lines: seq<string>)
    requires |lines| >= 1
    ensures LineStart(lines, |lines|) == |Join(lines, '\n')| + 1
    decreases |lines|
  {
    if |lines| > 1 {
      LineStartOfJoin(lines[1..]);
    }
  }

  /** The scan of `extractErrorPositionDetails` from line `i` on: the first
      line whose running count reaches the position, the column being the
      position minus that line's start; past the last line, `{1, 0, 1}`. */
  function LocateFrom(lines: seq<string>, position: int, i: nat): (p: Position)
    requires i <= |lines|
    ensures p.columnEnd == p.columnStart + 1
    decreases |lines| - i
  {
    if i == |lines| then Position(1, 0, 1)
    else if position <= LineStart(lines, i + 1) then
      var c := position - LineStart(lines, i);
      Position(i + 1, c, c + 1)
    else LocateFrom(lines, position, i + 1)
  }

  function Locate(lines: seq<string>, position: int): Position
  {
    LocateFrom(lines, position, 0)
  }

  lemma {:induction false} LocateFromOffset(lines: seq<string>, k: nat, i: nat, c: nat)
    requires k <= i < |lines| && c <= |lines[i]| + 1
    requires c >= 1 || i == k
    ensures LocateFrom(lines, LineStart(lines, i) + c, k) == Position(i + 1, c, c + 1)
    decreases i - k
  {
    LineStartStep(lines, i);
    if k < i {
      LineStartMonotone(lines, k + 1, i);
      LocateFromOffset(lines, k + 1, i, c);
    }
  }

  /** A position inside line `i` (0-based), at column `c` with `c >= 1` (or any
      position on the first line), is reported as line `i + 1`, column `c`:
      the first line whose running count reaches the position. */
  lemma LocateOffset(lines: seq<string>, i: nat, c: nat)
    requires i < |lines| && c <= |lines[i]| + 1
    requires c >= 1 || i == 0
    ensures Locate(lines, LineStart(lines, i) + c) == Position(i + 1, c, c + 1)
  {
    LocateFromOffset(lines, 0, i, c);
  }

  /** The first character of a line after the first (column 0) is reported
      on the previous line, one column past its end. */
  lemma LocateLineStart(lines: seq<string>, i: nat)
    requires 0 < i < |lines|
    ensures Locate(lines, LineStart(lines, i)) == Position(i, |lines[i - 1]| + 1, |lines[i - 1]| + 2)
  {
    LineStartStep(lines, i - 1);
    LocateOffset(lines, i - 1, |lines[i - 1]| + 1);
  }

  lemma {:induction false} LocateFromFallback(lines: seq<string>, position: int, i: nat)
    requires i <= |lines| && position > LineStart(lines, |lines|)
    ensures LocateFrom(lines, position, i) == Position(1, 0, 1)
    decreases |lines| - i
  {
    if i < |lines| {
      LineStartMonotone(lines, i + 1, |lines|);
      LocateFromFallback(lines, position, i + 1);
    }
  }

  /** A position beyond the text's length plus one falls back to `{1, 0, 1}`. */
  lemma LocateFallback(text: string, position: int)
    requires position > |text| + 1
    ensures Locate(Split(text, '\n'), position) == Position(1, 0, 1)
  {
    LineStartOfJoin(Split(text, '\n'));
    LocateFromFallback(Split(text, '\n'), position, 0);
  }

  /** `extractErrorPositionDetails(rawJson, error)`, with its loop and running
      counter. */
  method ExtractErrorPositionDetails(rawJson: string, message: string) returns (p: Position)
    ensures p == Locate(Split(rawJson, '\n'), ExtractErrorPositionFromMessage(message))
  {
    var lines := Split(rawJson, '\n');
    var position := ExtractErrorPositionFromMessage(message);
    var runningCharCount := 0;
    var i := 0;
    while i < |lines|
      invariant 0 <= i <= |lines|
      invariant runningCharCount == LineStart(lines, i)
      invariant LocateFrom(lines, position, i) == Locate(lines, position)
      decreases |lines| - i
    {
      LineStartStep(lines, i);
      runningCharCount := runningCharCount + |lines[i]| + 1;
      if position <= runningCharCount {
        var columnStart := position - (runningCharCount - |lines[i]|) + 1;
        return Position(i + 1, columnStart, columnStart + 1);
      }
      i := i + 1;
    }
    return Position(1, 0, 1);
  }

  // ---------------------------------------------------------------------------
  // the phase
  // ---------------------------------------------------------------------------

  function ParseError(resourceId: string, text: string, message: string): (e: ValidationError)
    ensures e.filePath == resourceId && e.severity == Error
    ensures StartsWith(e.message, "JSON parsing error: ")
  {
    var d := Locate(Split(text, '\n'), ExtractErrorPositionFromMessage(message));
    ValidationError(resourceId, d.line, d.columnStart, d.columnEnd, "JSON parsing error: " + message, Error)
  }

  /** The effect of one entry of the loop of `execute` on the blackboard. */
  function ConvertEntry(e: Entry<Json>, b: Board, parse: string -> Result<Json, string>): Board
  {
    var parts := SplitKey(e.key);
    if parts.phase != "ingest" || !Truthy(e.val) then b
    else
      var text := JsString(e.val);
      match parse(text)
      case Success(j) => Board(WithPhaseData(b.data, "conversion", parts.resourceType, parts.resourceId, j), b.errors)
      case Failure(msg) => Board(b.data, b.errors + [ParseError(parts.resourceId, text, msg)])
  }

  function ConvertEntries(entries: OMap<Json>, b: Board, parse: string -> Result<Json, string>): Board
    decreases |entries|
  {
    if |entries| == 0 then b else ConvertEntries(entries[1..], ConvertEntry(entries[0], b, parse), parse)
  }

  /** The blackboard after the conversion phase. New entries only ever carry
      the `conversion` phase, so visiting the entries present at the start is
      what the live `Map` iteration does. */
  function Converted(b: Board, parse: string -> Result<Json, string>): Board
  {
    ConvertEntries(b.data, b, parse)
  }

  /** `DefaultConversionStrategy.execute`. */
  method ExecuteConversion(ctx: PipelineContext, parse: string -> Result<Json, string>)
    modifies ctx
    ensures ctx.Snapshot() == Converted(old(ctx.Snapshot()), parse)
  {
    var entries := ctx.data;
    ghost var start := ctx.Snapshot();
    var i := 0;
    assert entries[0..] == entries;
    while i < |entries|
      invariant 0 <= i <= |entries|
      invariant ConvertEntries(entries[i..], ctx.Snapshot(), parse) == Converted(start, parse)
      decreases |entries| - i
    {
      var rest := entries[i..];
      assert rest[0] == entries[i] && rest[1..] == entries[i + 1..];
      var parts := SplitKey(entries[i].key);
      var value := entries[i].val;
      if parts.phase == "ingest" && Truthy(value) {
        var text := JsString(value);
        var parsed := parse(text);
        if parsed.Success? {
          ctx.SetPhaseData("conversion", parts.resourceType, parts.resourceId, parsed.value);
        } else {
          var d := ExtractErrorPositionDetails(text, parsed.error);
          ctx.AddErrors([ValidationError(parts.resourceId, d.line, d.columnStart, d.columnEnd,
                                         "JSON parsing error: " + parsed.error, Error)]);
        }
      }
      i := i + 1;
    }
  }

  // ---------------------------------------------------------------------------
  // what the phase promises
  // ---------------------------------------------------------------------------

  predicate IsConversionKey(k: string)
  {
    StartsWith(k, "conversion:")
  }

  lemma ConversionKeyOf(t: string, i: string)
    ensures IsConversionKey(PhaseKey("conversion", t, i))
  {
    assert PhaseKey("conversion", t, i)[..11] == "conversion:";
  }

  /** One step writes at most a conversion key and appends at most one parse
      error. */
  lemma ConvertEntryEffect(e: Entry<Json>, b: Board, parse: string -> Result<Json, string>)
    ensures var r := ConvertEntry(e, b, parse);
      (forall k :: !IsConversionKey(k) ==> Get(r.data, k) == Get(b.data, k))
      && (r.errors == b.errors
          || exists id, text, msg :: r.errors == b.errors + [ParseError(id, text, msg)])
  {
    var parts := SplitKey(e.key);
    ConversionKeyOf(parts.resourceType, parts.resourceId);
  }

  /** Every key outside the `conversion` phase reads as before, and the error
      list only grows, by parse errors. */
  lemma {:induction false} ConvertEntriesKeepsOthers(entries: OMap<Json>, b: Board, parse: string -> Result<Json, string>)
    ensures var r := ConvertEntries(entries, b, parse);
      (forall k :: !IsConversionKey(k) ==> Get(r.data, k) == Get(b.data, k))
      && |r.errors| >= |b.errors| && r.errors[..|b.errors|] == b.errors
      && (forall n :: |b.errors| <= n < |r.errors| ==> StartsWith(r.errors[n].message, "JSON parsing error: "))
    decreases |entries|
  {
    if |entries| > 0 {
      var b' := ConvertEntry(entries[0], b, parse);
      ConvertEntryEffect(entries[0], b, parse);
      ConvertEntriesKeepsOthers(entries[1..], b', parse);
      var r := ConvertEntries(entries[1..], b', parse);
      assert r.errors[..|b.errors|] == b'.errors[..|b.errors|];
      forall n | |b.errors| <= n < |r.errors|
        ensures StartsWith(r.errors[n].message, "JSON parsing error: ")
      {
        if n < |b'.errors| {
          assert r.errors[n] == b'.errors[n];
        }
      }
    }
  }

  /** The conversion entry an ingest entry produces. */
  function ConvertedValue(v: Json, parse: string -> Result<Json, string>, before: Option<Json>): Option<Json>
  {
    if Truthy(v) && parse(JsString(v)).Success? then Some(parse(JsString(v)).value) else before
  }

  lemma ConvertEntryOwn(e: Entry<Json>, b: Board, parse: string -> Result<Json, string>, t: string, i: string)
    requires ColonFree("ingest", t, i) && e.key == PhaseKey("ingest", t, i)
    ensures GetPhaseData(ConvertEntry(e, b, parse).data, "conversion", t, i)
            == ConvertedValue(e.val, parse, GetPhaseData(b.data, "conversion", t, i))
  {
    SplitKeyOfPhaseKey("ingest", t, i);
  }

  lemma ConvertEntryOther(e: Entry<Json>, b: Board, parse: string -> Result<Json, string>, t: string, i: string)
    requires ColonFree("ingest", t, i) && TripleKey(e.key) && e.key != PhaseKey("ingest", t, i)
    ensures GetPhaseData(ConvertEntry(e, b, parse).data, "conversion", t, i) == GetPhaseData(b.data, "conversion", t, i)
  {
    TripleKeyParts(e.key);
    var parts := SplitKey(e.key);
    var r := ConvertEntry(e, b, parse);
    if r.data != b.data {
      SetLeavesOtherTriples(b.data, "conversion", parts.resourceType, parts.resourceId,
                            parse(JsString(e.val)).value, "conversion", t, i);
    }
  }

  lemma {:induction false} ConvertEntriesWithout(entries: OMap<Json>, b: Board, parse: string -> Result<Json, string>,
                                                 t: string, i: string)
    requires forall n :: 0 <= n < |entries| ==> TripleKey(entries[n].key)
    requires ColonFree("ingest", t, i) && PhaseKey("ingest", t, i) !in Keys(entries)
    ensures GetPhaseData(ConvertEntries(entries, b, parse).data, "conversion", t, i) == GetPhaseData(b.data, "conversion", t, i)
    decreases |entries|
  {
    if |entries| > 0 {
      assert Keys(entries)[0] == entries[0].key;
      ConvertEntryOther(entries[0], b, parse, t, i);
      assert Keys(entries[1..]) == Keys(entries)[1..];
      ConvertEntriesWithout(entries[1..], ConvertEntry(entries[0], b, parse), parse, t, i);
    }
  }

  lemma {:induction false} ConvertEntriesStores(entries: OMap<Json>, b: Board, parse: string -> Result<Json, string>,
                                                t: string, i: string)
    requires DistinctKeys(entries)
    requires forall n :: 0 <= n < |entries| ==> TripleKey(entries[n].key)
    requires ColonFree("ingest", t, i) && PhaseKey("ingest", t, i) in Keys(entries)
    ensures GetPhaseData(ConvertEntries(entries, b, parse).data, "conversion", t, i)
            == ConvertedValue(Get(entries, PhaseKey("ingest", t, i)).value, parse, GetPhaseData(b.data, "conversion", t, i))
    decreases |entries|
  {
    var key := PhaseKey("ingest", t, i);
    var e := entries[0];
    var b' := ConvertEntry(e, b, parse);
    assert Keys(entries)[0] == e.key;
    assert Keys(entries[1..]) == Keys(entries)[1..];
    if e.key == key {
      ConvertEntryOwn(e, b, parse, t, i);
      assert key !in Keys(entries[1..]) by {
        forall n | 0 <= n < |entries[1..]|
          ensures Keys(entries[1..])[n] != key
        {
          assert entries[n + 1].key != entries[0].key;
        }
      }
      ConvertEntriesWithout(entries[1..], b', parse, t, i);
    } else {
      ConvertEntryOther(e, b, parse, t, i);
      assert DistinctKeys(entries[1..]);
      ConvertEntriesStores(entries[1..], b', parse, t, i);
    }
  }

  /** The phase promise on a well-formed blackboard (distinct three-part
      keys): an ingest entry with truthy text that parses is stored under the
      conversion phase with the parsed value; otherwise the conversion entry
      reads as before. */
  lemma ConvertedStores(b: Board, parse: string -> Result<Json, string>, t: string, i: string)
    requires DistinctKeys(b.data)
    requires forall n :: 0 <= n < |b.data| ==> TripleKey(b.data[n].key)
    requires ColonFree("ingest", t, i)
    requires PhaseKey("ingest", t, i) in Keys(b.data)
    ensures GetPhaseData(Converted(b, parse).data, "conversion", t, i)
            == ConvertedValue(GetPhaseData(b.data, "ingest", t, i).value, parse, GetPhaseData(b.data, "conversion", t, i))
  {
    ConvertEntriesStores(b.data, b, parse, t, i);
  }
}
