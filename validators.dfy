/** The validators the validation phase runs on each converted schema and
    model: the shared base checks of `$id`, `$version` and `$inheritsFrom`,
    the error-record helpers, and the schema and model validators that look
    the entity up in the blackboard and in the config set's index. The
    validators only read; the phase decides what is stored. */
module Validators {
  import opened Wrappers
  import opened Sequences
  import opened Strings
  import opened OrderedMaps
  import opened JsonValues
  import opened Host
  import opened ConfigSets
  import opened PipelineContexts
  import opened FindElement

  // ---------------------------------------------------------------------------
  // record helpers
  // ---------------------------------------------------------------------------

  /** `extractLineNumber(instancePath)`: `parseInt` of the last `/`-separated
      part, `0` when that is `NaN` (`parseInt(...) || 0`). */
  function ExtractLineNumber(instancePath: string): int
  {
    match ParseInt(LastPart(instancePath, '/'))
    case None => 0
    case Some(n) => n
  }

  /** A path ending in an array index gives that index. */
  lemma ExtractLineNumberOfIndex(prefix: string, i: nat)
    ensures ExtractLineNumber(prefix + "/" + NatToString(i)) == i
  {
    var d := NatToString(i);
    LastPartAppend(prefix, d, '/');
    ParseIntOfDigits(d);
    DigitsValueOfNatToString(i);
  }

  lemma ParseIntOfDigits(d: string)
    requires |d| > 0 && AllDigits(d)
    ensures ParseInt(d) == Some(DigitsValue(d))
  {
    if |d| >= 2 {
      assert d[..2][1] == d[1];
    }
  }

  predicate IsNameStart(c: char)
  {
    'a' <= c <= 'z' || 'A' <= c <= 'Z' || c == '$' || c == '_'
  }

  lemma ParseIntOfName(name: string)
    requires |name| > 0 && IsNameStart(name[0])
    ensures ParseInt(name) == None
  {
    assert !IsJsSpace(name[0]);
    assert TrimStart(name) == name;
    assert !StartsWith(name, "0x") && !StartsWith(name, "0X") by {
      if |name| >= 2 {
        assert name[..2][0] == name[0];
      }
    }
    assert LeadingDigits(name) == "";
  }

  /** A path ending in a property name gives `0`. */
  lemma ExtractLineNumberOfName(prefix: string, name: string)
    requires |name| > 0 && IsNameStart(name[0]) && '/' !in name
    ensures ExtractLineNumber(prefix + "/" + name) == 0
  {
    LastPartAppend(prefix, name, '/');
    ParseIntOfName(name);
  }

  /** `formatValidationError`: the record with `startChar` as its `column` and
      `endChar` as its `endColumn`. */
  function FormatValidationError(filePath: string, line: int, startChar: int, endChar: int, message: string,
                                 severity: Severity): (e: ValidationError)
    ensures e.filePath == filePath && e.line == line && e.message == message && e.severity == severity
    ensures e.column == startChar && e.endColumn == endChar
  {
    ValidationError(filePath, line, startChar, endChar, message, severity)
  }

  /** `findFieldPositionInFile(jsonContent, search, highlight)` on a parsed
      value: a string is parsed again before it is printed, and that parse
      can throw. */
  function PositionIn(o: Oracles, j: Json, search: string, highlight: bool): Result<FieldPosition, string>
  {
    if j.Str? then
      match o.parse(j.s)
      case Failure(e) => Failure(e)
      case Success(v) => Success(FindFieldPositionInFile(o.pretty(v), search, highlight))
    else Success(FindFieldPositionInFile(o.pretty(j), search, highlight))
  }

  // ---------------------------------------------------------------------------
  // the expected id of a file
  // ---------------------------------------------------------------------------

  /** `pathParts[pathParts.length - k]`, printed `"undefined"` by the template
      when the path is too short. */
  function PartFromEnd(parts: seq<string>, k: nat): string
  {
    if 1 <= k <= |parts| then parts[|parts| - k] else "undefined"
  }

  /** The `$id` a file's location calls for:
      `<config set>.<category folder>.<file name up to its first dot>`. */
  function ExpectedId(fullFilePath: string): (e: string)
    ensures '.' in e
  {
    var parts := Split(fullFilePath, '/');
    PartFromEnd(parts, 3) + "." + PartFromEnd(parts, 2) + "." + SplitAt(PartFromEnd(parts, 1), '.', 0)
  }

  /** A file `<dir>/<set>/<category>/<name>.<ext>` is expected to carry the
      id `<set>.<category>.<name>`. */
  lemma ExpectedIdOfPath(dir: string, setName: string, category: string, name: string, ext: string)
    requires '/' !in setName && '/' !in category && '/' !in name && '/' !in ext && '.' !in name
    ensures ExpectedId(dir + "/" + setName + "/" + category + "/" + name + "." + ext)
            == setName + "." + category + "." + name
  {
    var file := name + "." + ext;
    NoSlashInFileName(name, ext);
    var parts := Split(dir + "/" + setName + "/" + category + "/" + file, '/');
    SplitOfThreeLast(dir, setName, category, file);
    assert PartFromEnd(parts, 3) == setName;
    assert PartFromEnd(parts, 2) == category;
    assert PartFromEnd(parts, 1) == file;
    StemOfFileName(name, ext);
    assert dir + "/" + setName + "/" + category + "/" + file
        == dir + "/" + setName + "/" + category + "/" + name + "." + ext;
  }

  lemma NoSlashInFileName(name: string, ext: string)
    requires '/' !in name && '/' !in ext
    ensures '/' !in name + "." + ext
  {
    var file := name + "." + ext;
    forall k | 0 <= k < |file|
      ensures file[k] != '/'
    {
      if k < |name| {
        assert file[k] == name[k];
      } else if k > |name| {
        assert file[k] == ext[k - |name| - 1];
      }
    }
  }

  lemma SplitOfThreeLast(dir: string, a: string, b: string, c: string)
    requires '/' !in a && '/' !in b && '/' !in c
    ensures var parts := Split(dir + "/" + a + "/" + b + "/" + c, '/');
      |parts| >= 4 && parts[|parts| - 3] == a && parts[|parts| - 2] == b && parts[|parts| - 1] == c
  {
    var s1 := dir + "/" + a;
    var s2 := s1 + "/" + b;
    var s3 := s2 + "/" + c;
    SplitAppend(dir, a, '/');
    SplitAppend(s1, b, '/');
    SplitAppend(s2, c, '/');
    var p0 := Split(dir, '/');
    assert Split(s3, '/') == p0 + [a] + [b] + [c];
  }

  lemma StemOfFileName(name: string, ext: string)
    requires '.' !in name
    ensures SplitAt(name + "." + ext, '.', 0) == name
  {
    SplitHead(name, '.', ext);
  }

  // ---------------------------------------------------------------------------
  // $id and $version
  // ---------------------------------------------------------------------------

  const MissingIdPrefix: string := "Missing or invalid $id field."
  const WrongIdPrefix: string := "Expected $id to be "

  function MissingIdMessage(expected: string): string
  {
    MissingIdPrefix + " Expected: \"" + expected + "\""
  }

  function WrongIdMessage(expected: string, found: string): string
  {
    WrongIdPrefix + "\"" + expected + "\", but found \"" + found + "\"."
  }

  lemma MissingIdIsIdMessage(expected: string)
    ensures IsIdMessage(MissingIdMessage(expected))
  {
    var rest := " Expected: \"" + expected + "\"";
    assert MissingIdMessage(expected) == MissingIdPrefix + rest;
    StartsWithConcat(MissingIdPrefix, rest);
  }

  lemma WrongIdIsIdMessage(expected: string, found: string)
    ensures IsIdMessage(WrongIdMessage(expected, found))
  {
    var rest := "\"" + expected + "\", but found \"" + found + "\".";
    assert WrongIdMessage(expected, found) == WrongIdPrefix + rest;
    StartsWithConcat(WrongIdPrefix, rest);
  }

  const VersionMessage: string := "Missing or invalid $version. Expected a valid number."

  predicate IsIdMessage(m: string)
  {
    StartsWith(m, MissingIdPrefix) || StartsWith(m, WrongIdPrefix)
  }

  function ErrorAt(filePath: string, pos: FieldPosition, message: string): ValidationError
  {
    FormatValidationError(filePath, pos.line, pos.startChar, pos.endChar, message, Error)
  }

  /** One error about `field`, placed where the field is found in the
      document. */
  function FieldError(o: Oracles, j: Json, field: string, fullFilePath: string, message: string)
    : (r: Result<seq<ValidationError>, string>)
    ensures r.Failure? ==> j.Str?
    ensures r.Success? ==> |r.value| == 1 && r.value[0].message == message && r.value[0].filePath == fullFilePath
  {
    match PositionIn(o, j, field, false)
    case Failure(e) => Failure(e)
    case Success(pos) => Success([ErrorAt(fullFilePath, pos, message)])
  }

  /** The `$id` check: at most one error, none exactly when `$id` is the
      expected id; only a document that is itself a string can make the
      position search throw. */
  function IdCheck(o: Oracles, j: Json, fullFilePath: string): (r: Result<seq<ValidationError>, string>)
    ensures r.Failure? ==> j.Str?
    ensures r.Success? ==> |r.value| <= 1
    ensures r.Success? ==> (r.value == [] <==> Prop(j, "$id") == Some(Str(ExpectedId(fullFilePath))))
    ensures r.Success? ==> forall k :: 0 <= k < |r.value| ==>
      IsIdMessage(r.value[k].message) && r.value[k].filePath == fullFilePath
  {
    var expected := ExpectedId(fullFilePath);
    var id := Prop(j, "$id");
    if !(id.Some? && id.value.Str? && id.value.s != "") then
      MissingIdIsIdMessage(expected);
      FieldError(o, j, "$id", fullFilePath, MissingIdMessage(expected))
    else if id.value.s != expected then
      WrongIdIsIdMessage(expected, id.value.s);
      FieldError(o, j, "$id", fullFilePath, WrongIdMessage(expected, id.value.s))
    else Success([])
  }

  predicate HasNumberVersion(j: Json)
  {
    Prop(j, "$version").Some? && Prop(j, "$version").value.Num?
  }

  /** The `$version` check: one error exactly when `$version` is not a
      number. */
  function VersionCheck(o: Oracles, j: Json, fullFilePath: string): (r: Result<seq<ValidationError>, string>)
    ensures r.Failure? ==> j.Str?
    ensures r.Success? ==> |r.value| == (if HasNumberVersion(j) then 0 else 1)
    ensures r.Success? ==> forall k :: 0 <= k < |r.value| ==>
      r.value[k].message == VersionMessage && r.value[k].filePath == fullFilePath
  {
    if HasNumberVersion(j) then Success([])
    else FieldError(o, j, "$version", fullFilePath, VersionMessage)
  }

  // ---------------------------------------------------------------------------
  // $inheritsFrom
  // ---------------------------------------------------------------------------

  /** The values held under `$inheritsFrom` keys, in the order the recursive
      check meets them; the value under such a key is not searched further. */
  function InheritsValues(v: Json): seq<Json>
    decreases Size(v), 1
  {
    if !IsObjectLike(v) then []
    else
      if v.Arr? then SizeOfIndexed(v.items); InheritsValuesIn(Members(v))
      else InheritsValuesIn(Members(v))
  }

  function InheritsValuesIn(ms: OMap<Json>): seq<Json>
    decreases SizeFields(ms), 3
  {
    if |ms| == 0 then [] else InheritsValuesOf(ms[0]) + InheritsValuesIn(ms[1..])
  }

  function InheritsValuesOf(e: Entry<Json>): seq<Json>
    decreases Size(e.val), 2
  {
    if e.key == "$inheritsFrom" then [e.val] else InheritsValues(e.val)
  }

  lemma {:induction false} InheritsValuesInSnoc(ms: OMap<Json>, i: nat)
    requires i < |ms|
    ensures InheritsValuesIn(ms[..i + 1]) == InheritsValuesIn(ms[..i]) + InheritsValuesOf(ms[i])
    decreases i
  {
    if i == 0 {
      assert ms[..1] == [ms[0]];
      assert ms[..1][1..] == [];
    } else {
      var t := ms[1..];
      InheritsValuesInSnoc(t, i - 1);
      assert ms[..i + 1][1..] == t[..i];
      assert ms[..i][1..] == t[..i - 1];
      assert ms[..i + 1][0] == ms[0] && ms[..i][0] == ms[0];
      assert t[i - 1] == ms[i];
    }
  }

  /** `getPhaseData(context, 'conversion', 'schemas', refId)` is truthy; a
      non-string id is looked up by its `String(...)` form. */
  predicate SchemaKnown(data: OMap<Json>, refId: Json)
  {
    TruthyOpt(GetPhaseData(data, "conversion", "schemas", JsString(refId)))
  }

  const ReferenceErrorPrefix: string := "Reference error: "

  function InheritsMessage(refId: Json): string
  {
    ReferenceErrorPrefix + ("'$inheritsFrom' refers to non-existent schema ID: " + JsString(refId))
  }

  /** The errors for a list of `$inheritsFrom` values: one per value that
      names no known schema, in order, each pointing at `pos`. */
  function RefErrors(data: OMap<Json>, filePath: string, pos: FieldPosition, refs: seq<Json>): seq<ValidationError>
  {
    if |refs| == 0 then []
    else
      (if SchemaKnown(data, refs[0]) then [] else [ErrorAt(filePath, pos, InheritsMessage(refs[0]))])
      + RefErrors(data, filePath, pos, refs[1..])
  }

  /** At most one error per value, none exactly when every value names a
      known schema, and each one a reference error against the file at the
      given line. */
  lemma {:induction false} RefErrorsMeaning(data: OMap<Json>, filePath: string, pos: FieldPosition, refs: seq<Json>)
    ensures var r := RefErrors(data, filePath, pos, refs);
      |r| <= |refs|
      && (r == [] <==> forall x :: x in refs ==> SchemaKnown(data, x))
      && forall k :: 0 <= k < |r| ==>
           StartsWith(r[k].message, ReferenceErrorPrefix) && r[k].filePath == filePath && r[k].line == pos.line
    decreases |refs|
  {
    if |refs| > 0 {
      RefErrorsMeaning(data, filePath, pos, refs[1..]);
      assert forall x :: x in refs <==> x == refs[0] || x in refs[1..];
      StartsWithConcat(ReferenceErrorPrefix, "'$inheritsFrom' refers to non-existent schema ID: " + JsString(refs[0]));
      var head := if SchemaKnown(data, refs[0]) then [] else [ErrorAt(filePath, pos, InheritsMessage(refs[0]))];
      var rest := RefErrors(data, filePath, pos, refs[1..]);
      assert forall k :: |head| <= k < |head + rest| ==> (head + rest)[k] == rest[k - |head|];
    }
  }

  lemma {:induction false} RefErrorsAppend(data: OMap<Json>, filePath: string, pos: FieldPosition, a: seq<Json>,
                                           b: seq<Json>)
    ensures RefErrors(data, filePath, pos, a + b) == RefErrors(data, filePath, pos, a) + RefErrors(data, filePath, pos, b)
    decreases |a|
  {
    if |a| > 0 {
      assert (a + b)[1..] == a[1..] + b;
      RefErrorsAppend(data, filePath, pos, a[1..], b);
    } else {
      assert a + b == b;
    }
  }

  /** The `checkReferences` closure of `inheritsFromCheck`: a `for..in` over
      the value's own keys that checks each `$inheritsFrom` value and
      recurses into every other value. */
  method CheckReferences(v: Json, data: OMap<Json>, filePath: string, pos: FieldPosition)
    returns (errors: seq<ValidationError>)
    ensures errors == RefErrors(data, filePath, pos, InheritsValues(v))
    decreases Size(v)
  {
    errors := [];
    if !IsObjectLike(v) {
      return;
    }
    var ms := Members(v);
    if v.Arr? {
      SizeOfIndexed(v.items);
    }
    assert SizeFields(ms) < Size(v);
    var i := 0;
    while i < |ms|
      invariant 0 <= i <= |ms|
      invariant errors == RefErrors(data, filePath, pos, InheritsValuesIn(ms[..i]))
    {
      var step: seq<ValidationError>;
      if ms[i].key == "$inheritsFrom" {
        step := if SchemaKnown(data, ms[i].val) then [] else [ErrorAt(filePath, pos, InheritsMessage(ms[i].val))];
        assert [ms[i].val][1..] == [];
      } else {
        SizeOfField(ms, i);
        step := CheckReferences(ms[i].val, data, filePath, pos);
      }
      assert step == RefErrors(data, filePath, pos, InheritsValuesOf(ms[i]));
      InheritsValuesInSnoc(ms, i);
      RefErrorsAppend(data, filePath, pos, InheritsValuesIn(ms[..i]), InheritsValuesOf(ms[i]));
      errors := errors + step;
      i := i + 1;
    }
    assert ms[..|ms|] == ms;
  }

  /** The value under a `$inheritsFrom` key is checked as a whole and not
      searched for further keys. */
  lemma InheritsValueNotSearched(x: Json)
    ensures InheritsValues(Obj([Entry("$inheritsFrom", Obj([Entry("$inheritsFrom", x)]))]))
            == [Obj([Entry("$inheritsFrom", x)])]
  {
    var inner := Obj([Entry("$inheritsFrom", x)]);
    var ms := [Entry("$inheritsFrom", inner)];
    assert ms[1..] == [];
    assert InheritsValuesIn(ms) == InheritsValuesOf(ms[0]) + InheritsValuesIn(ms[1..]);
  }

  /** `inheritsFromCheck`: the errors of the `$inheritsFrom` values anywhere
      in the document. */
  function InheritsCheck(o: Oracles, j: Json, fullFilePath: string, data: OMap<Json>): seq<ValidationError>
  {
    RefErrors(data, fullFilePath, FindFieldPositionInFile(o.pretty(j), "$inheritsFrom", false), InheritsValues(j))
  }

  // ---------------------------------------------------------------------------
  // baseValidations
  // ---------------------------------------------------------------------------

  /** What `fullFilePath.split` throws when the caller passes `undefined`. */
  const PathUndefined: string := "TypeError: Cannot read properties of undefined (reading 'split')"

  /** `baseValidations(jsonContent, fullFilePath, context)`: the `$id` error
      (at most one), then the `$version` error (at most one), then the
      `$inheritsFrom` errors in traversal order. The structure check against
      the JSON Schema meta-schema is disabled in the code and absent here. */
  function BaseChecks(o: Oracles, j: Json, fullFilePath: Option<string>, data: OMap<Json>)
    : (r: Result<seq<ValidationError>, string>)
    ensures fullFilePath.None? ==> r == Failure(PathUndefined)
    ensures fullFilePath.Some? && !j.Str? ==> r.Success?
  {
    if fullFilePath.None? then Failure(PathUndefined)
    else
      var path := fullFilePath.value;
      match IdCheck(o, j, path)
      case Failure(e) => Failure(e)
      case Success(ie) =>
        match VersionCheck(o, j, path)
        case Failure(e) => Failure(e)
        case Success(ve) => Success(ie + ve + InheritsCheck(o, j, path, data))
  }

  /** The errors of the base checks come in three runs: at most one `$id`
      error (none when `$id` is the expected id), at most one `$version`
      error (none when it is a number), then the reference errors, one per
      `$inheritsFrom` value naming no known schema. */
  lemma BaseChecksShape(o: Oracles, j: Json, path: string, data: OMap<Json>)
    ensures var r := BaseChecks(o, j, Some(path), data);
      r.Success? ==>
      var idErrs := if Prop(j, "$id") == Some(Str(ExpectedId(path))) then 0 else 1;
      var verErrs := if HasNumberVersion(j) then 0 else 1;
      |r.value| == idErrs + verErrs + |InheritsCheck(o, j, path, data)|
      && (forall k :: 0 <= k < idErrs ==> IsIdMessage(r.value[k].message))
      && (forall k :: idErrs <= k < idErrs + verErrs ==> r.value[k].message == VersionMessage)
      && (forall k :: idErrs + verErrs <= k < |r.value| ==> StartsWith(r.value[k].message, ReferenceErrorPrefix))
  {
    var r := BaseChecks(o, j, Some(path), data);
    if r.Success? {
      var ie := IdCheck(o, j, path).value;
      var ve := VersionCheck(o, j, path).value;
      var pos := FindFieldPositionInFile(o.pretty(j), "$inheritsFrom", false);
      RefErrorsMeaning(data, path, pos, InheritsValues(j));
      ThreeRuns(ie, ve, InheritsCheck(o, j, path, data));
    }
  }

  lemma ThreeRuns(ie: seq<ValidationError>, ve: seq<ValidationError>, inh: seq<ValidationError>)
    requires forall k :: 0 <= k < |ie| ==> IsIdMessage(ie[k].message)
    requires forall k :: 0 <= k < |ve| ==> ve[k].message == VersionMessage
    requires forall k :: 0 <= k < |inh| ==> StartsWith(inh[k].message, ReferenceErrorPrefix)
    ensures var all := ie + ve + inh;
      (forall k :: 0 <= k < |ie| ==> IsIdMessage(all[k].message))
      && (forall k :: |ie| <= k < |ie| + |ve| ==> all[k].message == VersionMessage)
      && (forall k :: |ie| + |ve| <= k < |all| ==> StartsWith(all[k].message, ReferenceErrorPrefix))
  {
    Concat3Index(ie, ve, inh);
  }

  /** `baseValidations` as the code runs it: the `$id` and `$version`
      checks, then the recursive walk for `$inheritsFrom`, all pushing onto one
      local list. */
  method BaseValidations(o: Oracles, j: Json, fullFilePath: Option<string>, data: OMap<Json>)
    returns (r: Result<seq<ValidationError>, string>)
    ensures r == BaseChecks(o, j, fullFilePath, data)
  {
    if fullFilePath.None? {
      return Failure(PathUndefined);
    }
    var path := fullFilePath.value;
    var idErrors := IdCheck(o, j, path);
    if idErrors.Failure? {
      return Failure(idErrors.error);
    }
    var versionErrors := VersionCheck(o, j, path);
    if versionErrors.Failure? {
      return Failure(versionErrors.error);
    }
    var inherits := CheckReferences(j, data, path, FindFieldPositionInFile(o.pretty(j), "$inheritsFrom", false));
    return Success(idErrors.value + versionErrors.value + inherits);
  }

  // ---------------------------------------------------------------------------
  // the schema and model validators
  // ---------------------------------------------------------------------------

  function NotFoundError(id: string, message: string): ValidationError
  {
    FormatValidationError(id, 0, 0, 0, message, Error)
  }

  function SchemaNotInContext(id: string): string
  {
    "Schema with ID '" + id + "' not found in context."
  }

  function ModelNotInContext(id: string): string
  {
    "Model with ID '" + id + "' not found in context."
  }

  function ModelNotInSet(id: string): string
  {
    "Model with ID '" + id + "' not found in config set."
  }

  /** `SchemaValidator.validate(schemaId, context)`: a schema with no truthy
      conversion entry gives exactly one error against its id; otherwise the
      result is the base checks against the path the config set indexes,
      which throw when it indexes none. */
  function ValidateSchema(o: Oracles, schemaId: string, cv: SetView, data: OMap<Json>)
    : (r: Result<seq<ValidationError>, string>)
    ensures var schema := GetPhaseData(data, "conversion", "schemas", schemaId);
      if !TruthyOpt(schema) then r == Success([NotFoundError(schemaId, SchemaNotInContext(schemaId))])
      else r == BaseChecks(o, schema.value, Get(cv.schemas, schemaId), data)
              && (Get(cv.schemas, schemaId).None? ==> r.Failure?)
  {
    var schema := GetPhaseData(data, "conversion", "schemas", schemaId);
    if !TruthyOpt(schema) then Success([NotFoundError(schemaId, SchemaNotInContext(schemaId))])
    else BaseChecks(o, schema.value, Get(cv.schemas, schemaId), data)
  }

  /** `ModelValidator.validate(modelId, context)`: a model with no truthy
      conversion entry gives exactly one error; a model the config set does
      not index (or indexes at `""`) gives exactly one other error and skips
      the base checks; otherwise the result is the base checks. */
  function ValidateModel(o: Oracles, modelId: string, cv: SetView, data: OMap<Json>)
    : (r: Result<seq<ValidationError>, string>)
    ensures var model := GetPhaseData(data, "conversion", "models", modelId);
      var path := Get(cv.models, modelId);
      if !TruthyOpt(model) then r == Success([NotFoundError(modelId, ModelNotInContext(modelId))])
      else if path.None? || path.value == "" then r == Success([NotFoundError(modelId, ModelNotInSet(modelId))])
      else r == BaseChecks(o, model.value, path, data)
  {
    var model := GetPhaseData(data, "conversion", "models", modelId);
    var path := Get(cv.models, modelId);
    if !TruthyOpt(model) then Success([NotFoundError(modelId, ModelNotInContext(modelId))])
    else if path.None? || path.value == "" then Success([NotFoundError(modelId, ModelNotInSet(modelId))])
    else BaseChecks(o, model.value, path, data)
  }

  // ---------------------------------------------------------------------------
  // what the validators read
  // ---------------------------------------------------------------------------

  /** Two blackboards that agree on every `conversion:` key. */
  ghost predicate SameConversion(d1: OMap<Json>, d2: OMap<Json>)
  {
    forall k :: StartsWith(k, "conversion:") ==> Get(d1, k) == Get(d2, k)
  }

  lemma SameConversionLookup(d1: OMap<Json>, d2: OMap<Json>, t: string, i: string)
    requires SameConversion(d1, d2)
    ensures GetPhaseData(d1, "conversion", t, i) == GetPhaseData(d2, "conversion", t, i)
  {
    PhaseKeyPrefix("conversion", t, i);
  }

  lemma {:induction false} RefErrorsReadConversion(d1: OMap<Json>, d2: OMap<Json>, filePath: string,
                                                   pos: FieldPosition, refs: seq<Json>)
    requires SameConversion(d1, d2)
    ensures RefErrors(d1, filePath, pos, refs) == RefErrors(d2, filePath, pos, refs)
    decreases |refs|
  {
    if |refs| > 0 {
      SameConversionLookup(d1, d2, "schemas", JsString(refs[0]));
      RefErrorsReadConversion(d1, d2, filePath, pos, refs[1..]);
    }
  }

  lemma BaseChecksReadConversion(o: Oracles, j: Json, path: Option<string>, d1: OMap<Json>, d2: OMap<Json>)
    requires SameConversion(d1, d2)
    ensures BaseChecks(o, j, path, d1) == BaseChecks(o, j, path, d2)
  {
    if path.Some? {
      RefErrorsReadConversion(d1, d2, path.value,
                              FindFieldPositionInFile(o.pretty(j), "$inheritsFrom", false), InheritsValues(j));
      assert InheritsCheck(o, j, path.value, d1) == InheritsCheck(o, j, path.value, d2);
    }
  }

  /** The validators read nothing of the blackboard but its `conversion:`
      entries, so entries other phases write cannot change their verdict. */
  lemma ValidatorsReadConversion(o: Oracles, id: string, cv: SetView, d1: OMap<Json>, d2: OMap<Json>)
    requires SameConversion(d1, d2)
    ensures ValidateSchema(o, id, cv, d1) == ValidateSchema(o, id, cv, d2)
    ensures ValidateModel(o, id, cv, d1) == ValidateModel(o, id, cv, d2)
  {
    SameConversionLookup(d1, d2, "schemas", id);
    SameConversionLookup(d1, d2, "models", id);
    var s := GetPhaseData(d1, "conversion", "schemas", id);
    if TruthyOpt(s) {
      BaseChecksReadConversion(o, s.value, Get(cv.schemas, id), d1, d2);
    }
    var m := GetPhaseData(d1, "conversion", "models", id);
    if TruthyOpt(m) {
      BaseChecksReadConversion(o, m.value, Get(cv.models, id), d1, d2);
    }
  }
}
