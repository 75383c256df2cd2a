/** The legacy validators (`validators/baseJsonValidator.ts`,
    `validators/schemaValidator.ts`): the field search over the printed
    document used to place an error, and the schema validator, which runs the
    AJV self-check first and the structural `$id`/`$version` checks only when
    that passes. */
module LegacyValidators {
  import opened Wrappers
  import opened Strings
  import opened JsonValues
  import opened Host
  import opened PipelineContexts
  import FindElement
  import Validators

  // ---------------------------------------------------------------------------
  // findFieldPositionInFile: /"<field>"\s*:\s*"([^"]+)"/
  // ---------------------------------------------------------------------------

  /** The first `"` at or after `k`, or `|s|`. */
  function NextQuote(s: string, k: nat): (r: nat)
    requires k <= |s|
    ensures k <= r <= |s| && (r < |s| ==> s[r] == '"')
    ensures forall i :: k <= i < r ==> s[i] != '"'
    decreases |s| - k
  {
    if k == |s| || s[k] == '"' then k else NextQuote(s, k + 1)
  }

  /** The pattern tried at index `p`, the field read literally: the span of
      the captured value. White space followed by `:` or `"` leaves nothing to
      backtrack into, and `[^"]+` followed by `"` ends at the next quote. */
  function MatchAt(line: string, field: string, p: nat): (r: Option<FindElement.Span>)
    requires p <= |line|
    ensures r.Some? ==> OccursAt(line, FindElement.Quoted(field), p)
    ensures r.Some? ==> p + |FindElement.Quoted(field)| < r.value.start < r.value.end < |line|
                        && line[r.value.end] == '"'
  {
    var open := FindElement.Quoted(field);
    if !OccursAt(line, open, p) then None
    else
      var c := FindElement.SkipSpaces(line, p + |open|);
      if c == |line| || line[c] != ':' then None
      else
        var q := FindElement.SkipSpaces(line, c + 1);
        if q == |line| || line[q] != '"' then None
        else
          var e := NextQuote(line, q + 1);
          if e == |line| || e == q + 1 then None else Some(FindElement.Span(q + 1, e))
  }

  /** `fieldRegex.exec(line)`: the leftmost index where the pattern matches
      and its capture. The field is not escaped; a `$` in it is the
      end-of-input assertion with more pattern after it, so such a pattern
      matches nowhere. */
  function LeftmostMatch(line: string, field: string, p: nat): (r: Option<(nat, FindElement.Span)>)
    requires p <= |line|
    ensures r.Some? ==> '$' !in field && p <= r.value.0 <= |line| && MatchAt(line, field, r.value.0) == Some(r.value.1)
    ensures r.Some? ==> forall k :: p <= k < r.value.0 ==> MatchAt(line, field, k).None?
    ensures r.None? ==> '$' in field || forall k :: p <= k <= |line| ==> MatchAt(line, field, k).None?
    decreases |line| - p
  {
    if '$' in field then None
    else if MatchAt(line, field, p).Some? then Some((p, MatchAt(line, field, p).value))
    else if p == |line| then None
    else LeftmostMatch(line, field, p + 1)
  }

  /** The span one line gives: in value mode the first occurrence of the
      captured text at or after the match, in key mode the field after the
      opening quote. */
  function LineHit(line: string, field: string, highlightValue: bool): (r: Option<FindElement.Span>)
    ensures r.Some? <==> LeftmostMatch(line, field, 0).Some?
  {
    match LeftmostMatch(line, field, 0)
    case None => None
    case Some(m) =>
      if highlightValue then
        var value := line[m.1.start..m.1.end];
        var valueIndex := IndexOfFrom(line, value, m.0);
        Some(FindElement.Span(valueIndex, valueIndex + |value|))
      else Some(FindElement.Span(m.0 + 1, m.0 + 1 + |field|))
  }

  function LineHits(lines: seq<string>, field: string, highlightValue: bool): (hits: seq<Option<FindElement.Span>>)
    ensures |hits| == |lines|
    ensures forall j :: 0 <= j < |lines| ==> hits[j] == LineHit(lines[j], field, highlightValue)
  {
    seq(|lines|, j requires 0 <= j < |lines| => LineHit(lines[j], field, highlightValue))
  }

  /** `findFieldPositionInFile(jsonContent, fieldName, highlightValue)` on the
      text `JSON.stringify(jsonContent, null, 2)`. */
  function FindFieldPositionInFile(printed: string, field: string, highlightValue: bool): FindElement.FieldPosition
  {
    FindInLines(Split(printed, '\n'), field, highlightValue)
  }

  /** The scan over the lines of the printed text. */
  function FindInLines(lines: seq<string>, field: string, highlightValue: bool): FindElement.FieldPosition
  {
    FindElement.FirstHit(LineHits(lines, field, highlightValue), 0)
  }

  /** The span of a hit covers the field in key mode, and in value mode a
      copy of the captured value that starts at or after the match but no
      later than the value itself. */
  lemma LineHitSpan(line: string, field: string, highlightValue: bool)
    requires LineHit(line, field, highlightValue).Some?
    ensures var m := LeftmostMatch(line, field, 0).value;
      var r := LineHit(line, field, highlightValue).value;
      && 0 <= r.start <= r.end <= |line|
      && (!highlightValue ==> r.start == m.0 + 1 && line[r.start..r.end] == field)
      && (highlightValue ==> m.0 <= r.start <= m.1.start && line[r.start..r.end] == line[m.1.start..m.1.end])
  {
    var m := LeftmostMatch(line, field, 0).value;
    var q := FindElement.Quoted(field);
    if highlightValue {
      var value := line[m.1.start..m.1.end];
      assert OccursAt(line, value, m.1.start);
    } else {
      assert line[m.0..m.0 + |q|] == q;
      forall k | 0 <= k < |field|
        ensures line[m.0 + 1..m.0 + 1 + |field|][k] == field[k]
      {
        assert line[m.0..m.0 + |q|][k + 1] == q[k + 1] == field[k];
      }
    }
  }

  /** The scan: `{0, 0, 0}` without a hit, else the first line with one. */
  lemma FindInLinesMeaning(lines: seq<string>, field: string, highlightValue: bool)
    ensures (forall j :: 0 <= j < |lines| ==> LineHit(lines[j], field, highlightValue).None?) ==>
        FindInLines(lines, field, highlightValue) == FindElement.FieldPosition(0, 0, 0)
    ensures var r := FindInLines(lines, field, highlightValue);
      (exists j :: 0 <= j < |lines| && LineHit(lines[j], field, highlightValue).Some?) ==>
        0 <= r.line < |lines|
        && LineHit(lines[r.line], field, highlightValue) == Some(FindElement.Span(r.startChar, r.endChar))
        && (forall k :: 0 <= k < r.line ==> LineHit(lines[k], field, highlightValue).None?)
  {
    var hits := LineHits(lines, field, highlightValue);
    if j :| 0 <= j < |lines| && LineHit(lines[j], field, highlightValue).Some? {
      FindElement.FirstHitFound(hits, 0, j);
    } else {
      FindElement.FirstHitNone(hits, 0);
    }
  }

  /** A field holding `$`, such as `$id`, is never found: the position is the
      top of the file. */
  lemma DollarFieldNeverFound(lines: seq<string>, field: string, highlightValue: bool)
    requires '$' in field
    ensures FindInLines(lines, field, highlightValue) == FindElement.FieldPosition(0, 0, 0)
  {
    FindInLinesMeaning(lines, field, highlightValue);
  }

  const SameLine: string := "\"a\": \"a\""

  /** A witness, on one line: in value mode the search for the captured text
      starts at the match, which is the key's opening quote, so a value equal
      to the field is found inside the key. */
  lemma ValueFoundInKey()
    ensures LineHit(SameLine, "a", true) == Some(FindElement.Span(1, 2))
  {
    var line := SameLine;
    assert line[0..3] == FindElement.Quoted("a");
    assert FindElement.SkipSpaces(line, 3) == 3;
    assert FindElement.SkipSpaces(line, 5) == 5;
    assert FindElement.SkipSpaces(line, 4) == 5;
    assert NextQuote(line, 7) == 7;
    assert NextQuote(line, 6) == 7;
    assert MatchAt(line, "a", 0) == Some(FindElement.Span(6, 7));
    assert line[6..7] == "a";
    assert line[0..1][0] == '"';
    assert !OccursAt(line, "a", 0) && OccursAt(line, "a", 1);
    assert IndexOfFrom(line, "a", 1) == 1;
  }

  // ---------------------------------------------------------------------------
  // SchemaValidator
  // ---------------------------------------------------------------------------

  const MissingIdMessage: string := "Schema ID validation error: Missing or invalid '$id'. It must be a non-empty string."
  const MissingVersionMessage: string :=
    "Schema version validation error: Missing or invalid '$version'. It must be a valid number."
  const NullIdRead: string := "TypeError: Cannot read properties of null (reading '$id')"

  function ShortIdMessage(id: string): string
  {
    "Schema ID validation error: $id should be 'configset.type.name', but found '" + id + "'."
  }

  function InvalidSchemaMessage(fullFilePath: string): string
  {
    "Invalid schema: " + fullFilePath + ". Expected a non-empty object."
  }

  function InvalidPathMessage(fullFilePath: string): string
  {
    "Invalid file path: " + fullFilePath + ". Expected an absolute path without './'."
  }

  /** `${error}` of the exception caught around the AJV calls. */
  function EngineError(fullFilePath: string, e: string): ValidationError
  {
    Validators.FormatValidationError(fullFilePath, 0, 0, 0, "Validation engine error: " + e, Error)
  }

  /** `${ajvError.message}`: an absent message prints as `undefined`. */
  function MessageText(message: Option<string>): string
  {
    match message
    case Some(m) => m
    case None => "undefined"
  }

  function AjvError(fullFilePath: string, e: AjvError): ValidationError
  {
    Validators.FormatValidationError(fullFilePath, Validators.ExtractLineNumber(e.instancePath), 0, 0,
                                     "Schema validation error: " + MessageText(e.message), Error)
  }

  /** `Object.keys(x).length`: a string has one key per character, numbers
      and booleans have none. */
  function KeyCount(j: Json): nat
  {
    match j
    case Str(s) => |s|
    case Arr(items) => |items|
    case Obj(fields) => |fields|
    case _ => 0
  }

  /** The `$id` check: a non-string `$id` is missing, a string with fewer than
      three `.`-segments is malformed and placed by the field search. */
  function IdErrors(o: Oracles, schema: Json, fullFilePath: string): seq<ValidationError>
  {
    var id := Prop(schema, "$id");
    if !(id.Some? && id.value.Str?) then [Validators.FormatValidationError(fullFilePath, 0, 0, 0, MissingIdMessage, Error)]
    else if SegmentCount(id.value.s, '.') < 3 then
      var pos := FindFieldPositionInFile(o.pretty(schema), "$id", false);
      [Validators.FormatValidationError(fullFilePath, pos.line, pos.startChar, pos.endChar, ShortIdMessage(id.value.s), Error)]
    else []
  }

  function VersionErrors(schema: Json, fullFilePath: string): seq<ValidationError>
  {
    match Prop(schema, "$version")
    case Some(Num(_)) => []
    case _ => [Validators.FormatValidationError(fullFilePath, 0, 0, 0, MissingVersionMessage, Error)]
  }

  /** `baseValidations(schemaJson, fullFilePath)`: reading `$id` of `null`
      throws. */
  function BaseErrors(o: Oracles, schema: Json, fullFilePath: string): Result<seq<ValidationError>, string>
  {
    if schema.Null? then Failure(NullIdRead) else Success(IdErrors(o, schema, fullFilePath) + VersionErrors(schema, fullFilePath))
  }

  /** `validate(schemaJson, fullFilePath)`: the guards throw; a failing
      compile becomes one engine error; AJV's errors, when it reports any,
      replace the structural checks. */
  function SchemaErrors(o: Oracles, schema: Json, fullFilePath: string): Result<seq<ValidationError>, string>
  {
    if schema.Null? || KeyCount(schema) == 0 then Failure(InvalidSchemaMessage(fullFilePath))
    else if Contains(fullFilePath, "./") then Failure(InvalidPathMessage(fullFilePath))
    else
      match o.ajv(schema, schema)
      case Failure(e) => Success([EngineError(fullFilePath, e)])
      case Success(errs) =>
        if |errs| > 0 then Success(seq(|errs|, i requires 0 <= i < |errs| => AjvError(fullFilePath, errs[i])))
        else Success(IdErrors(o, schema, fullFilePath) + VersionErrors(schema, fullFilePath))
  }

  /** The structural checks give at most one `$id` error, then at most one
      `$version` error, every one of them at the top of the file: the `$id`
      search cannot find its field. */
  lemma BaseErrorsShape(o: Oracles, schema: Json, fullFilePath: string)
    requires !schema.Null?
    ensures var errs := BaseErrors(o, schema, fullFilePath).value;
      var idOk := Prop(schema, "$id").Some? && Prop(schema, "$id").value.Str?
                  && SegmentCount(Prop(schema, "$id").value.s, '.') >= 3;
      var versionOk := Prop(schema, "$version").Some? && Prop(schema, "$version").value.Num?;
      && |errs| == (if idOk then 0 else 1) + (if versionOk then 0 else 1)
      && (!idOk ==> errs[0].message == (if Prop(schema, "$id").Some? && Prop(schema, "$id").value.Str?
                                        then ShortIdMessage(Prop(schema, "$id").value.s) else MissingIdMessage))
      && (!versionOk ==> errs[|errs| - 1].message == MissingVersionMessage)
      && forall i :: 0 <= i < |errs| ==>
           errs[i].filePath == fullFilePath && errs[i].severity == Error
           && errs[i].line == 0 && errs[i].column == 0 && errs[i].endColumn == 0
  {
    DollarFieldNeverFound(Split(o.pretty(schema), '\n'), "$id", false);
  }

  /** The validator throws exactly for `null`, an object without keys and a
      path holding `./`. */
  lemma SchemaErrorsThrows(o: Oracles, schema: Json, fullFilePath: string)
    ensures SchemaErrors(o, schema, fullFilePath).Failure? <==>
      schema.Null? || KeyCount(schema) == 0 || Contains(fullFilePath, "./")
  {
  }

  /** Each AJV failure gives one error, in order, at the line its path ends
      in; the structural checks are skipped; a compile exception gives one
      engine error. */
  lemma SchemaErrorsOfAjv(o: Oracles, schema: Json, fullFilePath: string)
    requires SchemaErrors(o, schema, fullFilePath).Success?
    ensures var r := SchemaErrors(o, schema, fullFilePath).value;
      match o.ajv(schema, schema)
      case Failure(e) => r == [EngineError(fullFilePath, e)] && r[0].message == "Validation engine error: " + e
      case Success(errs) =>
        if |errs| == 0 then r == BaseErrors(o, schema, fullFilePath).value
        else
          |r| == |errs| &&
          forall i :: 0 <= i < |errs| ==>
            r[i].line == Validators.ExtractLineNumber(errs[i].instancePath)
            && r[i].column == 0 && r[i].endColumn == 0 && r[i].filePath == fullFilePath
            && r[i].message == "Schema validation error: " + MessageText(errs[i].message)
  {
  }

  /** `baseValidations`. */
  method BaseValidations(o: Oracles, schemaJson: Json, fullFilePath: string) returns (r: Result<seq<ValidationError>, string>)
    ensures r == BaseErrors(o, schemaJson, fullFilePath)
  {
    if schemaJson.Null? {
      return Failure(NullIdRead);
    }
    var validationErrors: seq<ValidationError> := [];
    var id := Prop(schemaJson, "$id");
    if !(id.Some? && id.value.Str?) {
      validationErrors := validationErrors + [Validators.FormatValidationError(fullFilePath, 0, 0, 0, MissingIdMessage, Error)];
    } else if SegmentCount(id.value.s, '.') < 3 {
      var pos := FindFieldPositionInFile(o.pretty(schemaJson), "$id", false);
      validationErrors := validationErrors
        + [Validators.FormatValidationError(fullFilePath, pos.line, pos.startChar, pos.endChar, ShortIdMessage(id.value.s), Error)];
    }
    assert validationErrors == IdErrors(o, schemaJson, fullFilePath);
    var version := Prop(schemaJson, "$version");
    if !(version.Some? && version.value.Num?) {
      validationErrors := validationErrors
        + [Validators.FormatValidationError(fullFilePath, 0, 0, 0, MissingVersionMessage, Error)];
    }
    assert validationErrors == IdErrors(o, schemaJson, fullFilePath) + VersionErrors(schemaJson, fullFilePath);
    assert BaseErrors(o, schemaJson, fullFilePath) == Success(validationErrors);
    r := Success(validationErrors);
  }

  /** `validate`. */
  method Validate(o: Oracles, schemaJson: Json, fullFilePath: string) returns (r: Result<seq<ValidationError>, string>)
    ensures r == SchemaErrors(o, schemaJson, fullFilePath)
  {
    if schemaJson.Null? || KeyCount(schemaJson) == 0 {
      return Failure(InvalidSchemaMessage(fullFilePath));
    }
    if Contains(fullFilePath, "./") {
      return Failure(InvalidPathMessage(fullFilePath));
    }
    var validationErrors: seq<ValidationError> := [];
    var compiled := o.ajv(schemaJson, schemaJson);
    if compiled.Failure? {
      return Success([EngineError(fullFilePath, compiled.error)]);
    }
    var ajvErrors := compiled.value;
    if |ajvErrors| > 0 {
      var i := 0;
      while i < |ajvErrors|
        invariant 0 <= i <= |ajvErrors|
        invariant |validationErrors| == i
        invariant forall k :: 0 <= k < i ==> validationErrors[k] == AjvError(fullFilePath, ajvErrors[k])
      {
        validationErrors := validationErrors + [AjvError(fullFilePath, ajvErrors[i])];
        i := i + 1;
      }
      assert validationErrors == seq(|ajvErrors|, i requires 0 <= i < |ajvErrors| => AjvError(fullFilePath, ajvErrors[i]));
      assert SchemaErrors(o, schemaJson, fullFilePath) == Success(validationErrors);
    } else {
      var base := BaseValidations(o, schemaJson, fullFilePath);
      validationErrors := validationErrors + base.value;
      assert validationErrors == base.value;
    }
    r := Success(validationErrors);
  }
}
