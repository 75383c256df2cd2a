/** The verification phase (`DefaultVerificationStrategy`): every built model
    and its instance are checked by AJV against each schema the model refers
    to. One error is appended per AJV error; nothing is stored. The AJV
    instance, the compile step and the validation itself are the `ajv`
    oracle; the cache of added schemas, keyed by the schema's `$id`, is
    modelled. */
module Verification {
  import opened Wrappers
  import opened Strings
  import opened Sequences
  import opened OrderedMaps
  import opened JsonValues
  import opened Host
  import opened ConfigSetManagers
  import opened PipelineContexts
  import opened FindElement
  import opened Validators
  import opened MergeWithRefs
  import opened Build

  // ---------------------------------------------------------------------------
  // extractRefs
  // ---------------------------------------------------------------------------

  /** What `traverse` adds at one object: a truthy `$ref`, then every element
      of a `$refs` array. */
  function OwnRefs(fields: OMap<Json>): seq<Json>
  {
    (match Get(fields, "$ref")
     case Some(r) => if Truthy(r) then [r] else []
     case None => [])
    + (match Get(fields, "$refs")
       case Some(v) => if v.Arr? then v.items else []
       case None => [])
  }

  /** Every value `traverse` adds, repetitions included, in the order it
      adds them: a node's own references, then those below each property in
      turn. */
  function RefsOf(j: Json): seq<Json>
    decreases Size(j), 1
  {
    match j
    case Obj(fields) => OwnRefs(fields) + RefsOfFields(fields)
    case Arr(items) => RefsOfItems(items)
    case _ => []
  }

  function RefsOfFields(fs: OMap<Json>): seq<Json>
    decreases SizeFields(fs), 2
  {
    if |fs| == 0 then [] else RefsOf(fs[0].val) + RefsOfFields(fs[1..])
  }

  function RefsOfItems(items: seq<Json>): seq<Json>
    decreases SizeItems(items), 2
  {
    if |items| == 0 then [] else RefsOf(items[0]) + RefsOfItems(items[1..])
  }

  /** `extractRefs`: `Array.from` of the `Set` that `traverse` fills. */
  function ExtractRefs(j: Json): seq<Json>
  {
    Dedup(RefsOf(j))
  }

  /** Each reference once, and exactly the references found anywhere. */
  lemma ExtractRefsFacts(j: Json)
    ensures NoDup(ExtractRefs(j))
    ensures forall x :: x in ExtractRefs(j) <==> x in RefsOf(j)
  {
    DedupFacts(RefsOf(j));
  }

  /** A node's own `$ref` and `$refs` elements are collected. */
  lemma OwnRefsCollected(fields: OMap<Json>)
    ensures Get(fields, "$ref").Some? && Truthy(Get(fields, "$ref").value) ==>
              Get(fields, "$ref").value in ExtractRefs(Obj(fields))
    ensures Get(fields, "$refs").Some? && Get(fields, "$refs").value.Arr? ==>
              forall x :: x in Get(fields, "$refs").value.items ==> x in ExtractRefs(Obj(fields))
  {
    ExtractRefsFacts(Obj(fields));
  }

  /** The references of any property value, at any depth, are collected. */
  lemma {:induction false} FieldRefsCollected(fs: OMap<Json>, i: nat, x: Json)
    requires i < |fs| && x in RefsOf(fs[i].val)
    ensures x in RefsOfFields(fs)
    decreases i
  {
    if i > 0 {
      FieldRefsCollected(fs[1..], i - 1, x);
    }
  }

  lemma {:induction false} ItemRefsCollected(items: seq<Json>, i: nat, x: Json)
    requires i < |items| && x in RefsOf(items[i])
    ensures x in RefsOfItems(items)
    decreases i
  {
    if i > 0 {
      ItemRefsCollected(items[1..], i - 1, x);
    }
  }

  lemma NestedRefsCollected(j: Json, i: nat, x: Json)
    requires j.Obj? ==> i < |j.fields| && x in RefsOf(j.fields[i].val)
    requires j.Arr? ==> i < |j.items| && x in RefsOf(j.items[i])
    requires j.Obj? || j.Arr?
    ensures x in ExtractRefs(j)
  {
    ExtractRefsFacts(j);
    if j.Obj? {
      FieldRefsCollected(j.fields, i, x);
    } else {
      ItemRefsCollected(j.items, i, x);
    }
  }

  /** A value with no `$ref` or `$refs` anywhere (a built instance) refers to
      nothing. */
  lemma {:induction false} RefFreeHasNoRefs(j: Json)
    requires RefFree(j)
    ensures RefsOf(j) == []
    decreases Size(j), 1
  {
    match j
    case Obj(fields) =>
      RefFreeFieldsHaveNoRefs(fields);
    case Arr(items) =>
      RefFreeItemsHaveNoRefs(items);
    case _ =>
  }

  lemma {:induction false} RefFreeFieldsHaveNoRefs(fs: OMap<Json>)
    requires RefFreeFields(fs)
    ensures RefsOfFields(fs) == []
    decreases SizeFields(fs), 2
  {
    if |fs| > 0 {
      RefFreeHasNoRefs(fs[0].val);
      RefFreeFieldsHaveNoRefs(fs[1..]);
    }
  }

  lemma {:induction false} RefFreeItemsHaveNoRefs(items: seq<Json>)
    requires RefFreeItems(items)
    ensures RefsOfItems(items) == []
    decreases SizeItems(items), 2
  {
    if |items| > 0 {
      RefFreeHasNoRefs(items[0]);
      RefFreeItemsHaveNoRefs(items[1..]);
    }
  }

  /** `typeof v === "object"`: the values `traverse` descends into. */
  predicate IsObjectType(v: Json)
  {
    v.Obj? || v.Arr? || v.Null?
  }

  /** `extractRefs(modelData)`. */
  method ExtractRefsOf(j: Json) returns (refs: seq<Json>)
    ensures refs == ExtractRefs(j)
  {
    refs := Traverse(j, []);
  }

  /** `traverse(obj)` with the set filled so far. */
  method Traverse(j: Json, refs: seq<Json>) returns (r: seq<Json>)
    ensures r == DedupInto(refs, RefsOf(j))
    decreases Size(j), 1
  {
    match j {
      case Obj(fields) =>
        r := AddOwnRefs(fields, refs);
        AllFieldsSmaller(fields);
        r := TraverseFields(fields, Size(j), r);
        DedupIntoAppend(refs, OwnRefs(fields), RefsOfFields(fields));
      case Arr(items) =>
        AllItemsSmaller(items);
        r := TraverseItems(items, Size(j), refs);
      case _ =>
        r := refs;
    }
  }

  /** `if (obj.$ref) refs.add(obj.$ref)` and the loop over `obj.$refs`. */
  method AddOwnRefs(fields: OMap<Json>, refs: seq<Json>) returns (r: seq<Json>)
    ensures r == DedupInto(refs, OwnRefs(fields))
  {
    r := refs;
    var ref := Get(fields, "$ref");
    ghost var first: seq<Json> := [];
    if ref.Some? && Truthy(ref.value) {
      r := AddNew(r, ref.value);
      first := [ref.value];
      DedupIntoSingle(refs, ref.value);
    }
    assert r == DedupInto(refs, first);
    var list := Get(fields, "$refs");
    ghost var second: seq<Json> := [];
    if list.Some? && list.value.Arr? {
      var xs := list.value.items;
      second := xs;
      ghost var start := r;
      var k := 0;
      assert xs[0..] == xs;
      while k < |xs|
        invariant 0 <= k <= |xs|
        invariant DedupInto(r, xs[k..]) == DedupInto(start, xs)
      {
        ghost var rest := xs[k..];
        assert rest[0] == xs[k] && rest[1..] == xs[k + 1..];
        r := AddNew(r, xs[k]);
        k := k + 1;
      }
    }
    assert OwnRefs(fields) == first + second;
    DedupIntoAppend(refs, first, second);
  }

  method TraverseFields(fs: OMap<Json>, bound: nat, refs: seq<Json>) returns (r: seq<Json>)
    requires forall e :: e in fs ==> Size(e.val) < bound
    ensures r == DedupInto(refs, RefsOfFields(fs))
    decreases bound, 0
  {
    r := refs;
    var i := 0;
    assert fs[0..] == fs;
    while i < |fs|
      invariant 0 <= i <= |fs|
      invariant DedupInto(r, RefsOfFields(fs[i..])) == DedupInto(refs, RefsOfFields(fs))
    {
      ghost var rest := fs[i..];
      assert rest[0] == fs[i] && rest[1..] == fs[i + 1..];
      DedupIntoAppend(r, RefsOf(fs[i].val), RefsOfFields(fs[i + 1..]));
      assert fs[i] in fs;
      if IsObjectType(fs[i].val) {
        r := Traverse(fs[i].val, r);
      }
      i := i + 1;
    }
  }

  method TraverseItems(items: seq<Json>, bound: nat, refs: seq<Json>) returns (r: seq<Json>)
    requires forall x :: x in items ==> Size(x) < bound
    ensures r == DedupInto(refs, RefsOfItems(items))
    decreases bound, 0
  {
    r := refs;
    var i := 0;
    assert items[0..] == items;
    while i < |items|
      invariant 0 <= i <= |items|
      invariant DedupInto(r, RefsOfItems(items[i..])) == DedupInto(refs, RefsOfItems(items))
    {
      ghost var rest := items[i..];
      assert rest[0] == items[i] && rest[1..] == items[i + 1..];
      DedupIntoAppend(r, RefsOf(items[i]), RefsOfItems(items[i + 1..]));
      assert items[i] in items;
      if IsObjectType(items[i]) {
        r := Traverse(items[i], r);
      }
      i := i + 1;
    }
  }

  // ---------------------------------------------------------------------------
  // the schemas a model refers to
  // ---------------------------------------------------------------------------

  const SplitNotFunction := "TypeError: ref.split is not a function"

  /** `ref.split('.')[1] === 'schemas'`. */
  predicate IsSchemaRef(ref: string)
  {
    SplitAt(ref, '.', 1) == "schemas"
  }

  /** The string references whose second part is `schemas`, in order. */
  function SchemaRefs(refs: seq<Json>): seq<string>
  {
    if |refs| == 0 then []
    else (if refs[0].Str? && IsSchemaRef(refs[0].s) then [refs[0].s] else []) + SchemaRefs(refs[1..])
  }

  /** The loop of `verifyModel` over the references: each schema reference
      is looked up in `build:schemas`, and a missing one is kept as `null`
      (`None`); a reference that is not a string throws. */
  function LookUpSchemas(data: OMap<Json>, refs: seq<Json>): Result<seq<Option<Json>>, string>
  {
    if |refs| == 0 then Success([])
    else if !refs[0].Str? then Failure(SplitNotFunction)
    else
      var here := if IsSchemaRef(refs[0].s) then [GetPhaseData(data, "build", "schemas", refs[0].s)] else [];
      match LookUpSchemas(data, refs[1..])
      case Failure(e) => Failure(e)
      case Success(rest) => Success(here + rest)
  }

  /** The lookup throws exactly when some reference is not a string, and
      otherwise yields the `build:schemas` entry of each schema reference, in
      order. */
  lemma LookUpSchemasMeaning(data: OMap<Json>, refs: seq<Json>)
    ensures var r := LookUpSchemas(data, refs);
      (r.Success? <==> forall k :: 0 <= k < |refs| ==> refs[k].Str?)
      && (r.Success? ==>
            |r.value| == |SchemaRefs(refs)|
            && forall k :: 0 <= k < |r.value| ==> r.value[k] == GetPhaseData(data, "build", "schemas", SchemaRefs(refs)[k]))
  {
    LookUpSchemasThrows(data, refs);
    LookUpSchemasValues(data, refs);
  }

  lemma {:induction false} LookUpSchemasThrows(data: OMap<Json>, refs: seq<Json>)
    ensures LookUpSchemas(data, refs).Success? <==> forall k :: 0 <= k < |refs| ==> refs[k].Str?
  {
    if |refs| > 0 {
      LookUpSchemasThrows(data, refs[1..]);
      forall k | 0 <= k < |refs[1..]| ensures refs[1..][k] == refs[k + 1] { }
    }
  }

  lemma {:induction false} LookUpSchemasValues(data: OMap<Json>, refs: seq<Json>)
    ensures var r := LookUpSchemas(data, refs);
      r.Success? ==>
        |r.value| == |SchemaRefs(refs)|
        && forall k :: 0 <= k < |r.value| ==> r.value[k] == GetPhaseData(data, "build", "schemas", SchemaRefs(refs)[k])
  {
    if |refs| > 0 && refs[0].Str? {
      LookUpSchemasValues(data, refs[1..]);
      var r := LookUpSchemas(data, refs);
      var tail := LookUpSchemas(data, refs[1..]);
      if tail.Success? {
        var here := if IsSchemaRef(refs[0].s) then [GetPhaseData(data, "build", "schemas", refs[0].s)] else [];
        var hereRefs := if IsSchemaRef(refs[0].s) then [refs[0].s] else [];
        assert r.value == here + tail.value;
        assert SchemaRefs(refs) == hereRefs + SchemaRefs(refs[1..]);
        forall k | 0 <= k < |r.value|
          ensures r.value[k] == GetPhaseData(data, "build", "schemas", SchemaRefs(refs)[k])
        {
          if k >= |here| {
            assert r.value[k] == tail.value[k - |here|];
            assert SchemaRefs(refs)[k] == SchemaRefs(refs[1..])[k - |here|];
          }
        }
      }
    }
  }

  /** A reference to a schema that was not built is looked up as `null`. */
  lemma MissingSchemaLookedUp(data: OMap<Json>, ref: string)
    requires IsSchemaRef(ref) && GetPhaseData(data, "build", "schemas", ref).None?
    ensures LookUpSchemas(data, [Str(ref)]) == Success([None])
  {
    assert [Str(ref)][1..] == [];
    assert LookUpSchemas(data, []) == Success([]);
    assert [GetPhaseData(data, "build", "schemas", ref)] + [] == [None];
  }

  // ---------------------------------------------------------------------------
  // formatValidationError
  // ---------------------------------------------------------------------------

  /** The field name: the last '/'-part of the instance path after its first
      character, or `"unknown"` for an empty path or last part. */
  function FieldName(instancePath: string): string
  {
    if instancePath == "" then "unknown"
    else
      var last := LastPart(instancePath[1..], '/');
      if last == "" then "unknown" else last
  }

  /** An AJV pointer `/.../name` names its last segment. */
  lemma FieldNameOfPointer(prefix: string, name: string)
    requires '/' !in name && name != ""
    ensures FieldName("/" + prefix + "/" + name) == name
  {
    assert ("/" + prefix + "/" + name)[1..] == prefix + ['/'] + name;
    LastPartAppend(prefix, name, '/');
  }

  const RequiredPhrase := "must have required property"
  const FailedAgainst := "Validation failed against schema '"

  /** The message `formatValidationError` builds. */
  function VerificationMessage(schemaId: string, fieldName: string, message: Option<string>): string
  {
    if fieldName == "unknown" && message.Some? && Contains(message.value, RequiredPhrase) then
      var m := message.value;
      var i := IndexOf(m, RequiredPhrase);
      FailedAgainst + schemaId + "': Missing required field " + Trim(m[i + |RequiredPhrase|..])
    else
      FailedAgainst + schemaId + "' for field '" + fieldName + "': "
      + (if message.Some? && message.value != "" then message.value else "Unknown validation error")
  }

  /** AJV's "must have required property 'x'" on the root becomes "Missing
      required field 'x'". */
  lemma RequiredFieldMessage(schemaId: string, property: string)
    requires |property| > 0 && !IsJsSpace(property[0]) && !IsJsSpace(property[|property| - 1])
    ensures VerificationMessage(schemaId, "unknown", Some(RequiredPhrase + " " + property))
            == FailedAgainst + schemaId + "': Missing required field " + property
  {
    RequiredPhraseFirst(property);
    TrimSpaced(property);
  }

  lemma RequiredPhraseFirst(property: string)
    ensures var m := RequiredPhrase + " " + property;
      Contains(m, RequiredPhrase) && IndexOf(m, RequiredPhrase) == 0 && m[|RequiredPhrase|..] == " " + property
  {
    var m := RequiredPhrase + " " + property;
    assert m[..|RequiredPhrase|] == RequiredPhrase;
  }

  lemma TrimSpaced(property: string)
    requires |property| > 0 && !IsJsSpace(property[0]) && !IsJsSpace(property[|property| - 1])
    ensures Trim(" " + property) == property
  {
    assert (" " + property)[1..] == property;
    assert TrimStart(" " + property) == property;
  }

  /** Every other error names the field and carries AJV's message, or a
      fixed text when AJV gave none. */
  lemma FieldMessage(schemaId: string, fieldName: string, message: Option<string>)
    requires fieldName != "unknown"
    ensures StartsWith(VerificationMessage(schemaId, fieldName, message),
                       FailedAgainst + schemaId + "' for field '" + fieldName + "': ")
  {
    var rest := if message.Some? && message.value != "" then message.value else "Unknown validation error";
    StartsWithConcat(FailedAgainst + schemaId + "' for field '" + fieldName + "': ", rest);
  }

  const IdUndefinedSplit := "TypeError: Cannot read properties of undefined (reading 'split')"
  const IdNullSplit := "TypeError: Cannot read properties of null (reading 'split')"
  const IdSplitNotFunction := "TypeError: id.split is not a function"

  /** `formatValidationError`: the record against the resource's file, at
      the field's key in the printed resource. A resource `$id` that is not a
      string makes `buildAbsFilePathById` throw; a string resource is
      re-parsed, which can throw too. */
  function FormatVerificationError(o: Oracles, registry: seq<SetRoot>, error: AjvError, resourceId: Option<Json>,
                                   schemaId: string, resource: Json): (r: Result<ValidationError, string>)
    ensures r.Success? ==> resourceId.Some? && resourceId.value.Str?
    ensures r.Success? ==>
      r.value.filePath == PathInRegistry(registry, resourceId.value.s)
      && r.value.message == VerificationMessage(schemaId, FieldName(error.instancePath), error.message)
      && r.value.severity == Error
    ensures resourceId.Some? && resourceId.value.Str? && !resource.Str? ==> r.Success?
  {
    var fieldName := FieldName(error.instancePath);
    if resourceId.None? then Failure(IdUndefinedSplit)
    else if resourceId.value.Null? then Failure(IdNullSplit)
    else if !resourceId.value.Str? then Failure(IdSplitNotFunction)
    else
      var absPath := PathInRegistry(registry, resourceId.value.s);
      match PositionIn(o, resource, fieldName, false)
      case Failure(t) => Failure(t)
      case Success(pos) =>
        Success(ValidationError(absPath, pos.line, pos.startChar, pos.endChar,
                                VerificationMessage(schemaId, fieldName, error.message), Error))
  }

  // ---------------------------------------------------------------------------
  // validateResource
  // ---------------------------------------------------------------------------

  const NullIdRead := "TypeError: Cannot read properties of null (reading '$id')"

  /** `null` in JavaScript: a missing entry (`getPhaseData` returns `null`)
      or a stored `null`. */
  predicate Nullish(v: Option<Json>)
  {
    v.None? || v.value.Null?
  }

  /** The errors of one AJV run, each formatted by `formatValidationError`. */
  function FormatAll(o: Oracles, registry: seq<SetRoot>, resourceId: Option<Json>, schemaId: string,
                     resource: Json, errs: seq<AjvError>): (fs: seq<Result<ValidationError, string>>)
    ensures |fs| == |errs|
    ensures forall k :: 0 <= k < |errs| ==>
              fs[k] == FormatVerificationError(o, registry, errs[k], resourceId, schemaId, resource)
  {
    seq(|errs|, k requires 0 <= k < |errs| => FormatVerificationError(o, registry, errs[k], resourceId, schemaId, resource))
  }

  /** Formatted errors pushed one by one; the first formatting exception
      stops the run. */
  function PushAll(fs: seq<Result<ValidationError, string>>, b: Board): Outcome
    decreases |fs|
  {
    if |fs| == 0 then Outcome(b, None)
    else
      match fs[0]
      case Failure(t) => Outcome(b, Some(t))
      case Success(e) => PushAll(fs[1..], Board(b.data, b.errors + [e]))
  }

  /** The loop over the errors of one AJV run. Formatting is pure, so
      formatting every error and pushing up to the first failure is the
      loop that formats and pushes one error at a time. */
  function ReportErrors(o: Oracles, registry: seq<SetRoot>, resourceId: Option<Json>, schemaId: string,
                        resource: Json, errs: seq<AjvError>, b: Board): Outcome
  {
    PushAll(FormatAll(o, registry, resourceId, schemaId, resource, errs), b)
  }

  /** Pushing only appends: the data is untouched and earlier errors stay
      in place. */
  lemma {:induction false} PushAllAppends(fs: seq<Result<ValidationError, string>>, b: Board)
    ensures OnlyAppends(b, PushAll(fs, b).board)
    decreases |fs|
  {
    if |fs| > 0 && fs[0].Success? {
      var b1 := Board(b.data, b.errors + [fs[0].value]);
      PushAllAppends(fs[1..], b1);
      assert OnlyAppends(b, b1) by {
        assert b1.errors[..|b.errors|] == b.errors;
      }
      OnlyAppendsTrans(b, b1, PushAll(fs, b).board);
    } else {
      OnlyAppendsRefl(b);
    }
  }

  /** Without an exception, one error is appended per formatted error. */
  lemma {:induction false} PushAllCount(fs: seq<Result<ValidationError, string>>, b: Board)
    ensures var r := PushAll(fs, b);
      r.thrown.None? ==> |r.board.errors| == |b.errors| + |fs|
    decreases |fs|
  {
    if |fs| > 0 && fs[0].Success? {
      PushAllCount(fs[1..], Board(b.data, b.errors + [fs[0].value]));
    }
  }

  /** Without an exception, the error at offset `k` of the appended part is
      the formatted error `k`. */
  lemma {:induction false} PushAllAt(fs: seq<Result<ValidationError, string>>, b: Board, k: nat)
    requires k < |fs|
    requires PushAll(fs, b).thrown.None?
    ensures var r := PushAll(fs, b);
      |b.errors| + k < |r.board.errors| && Success(r.board.errors[|b.errors| + k]) == fs[k]
    decreases k
  {
    var b1 := Board(b.data, b.errors + [fs[0].value]);
    var r := PushAll(fs[1..], b1);
    assert PushAll(fs, b) == r;
    if k == 0 {
      PushAllAppends(fs[1..], b1);
      assert r.board.errors[|b.errors|] == r.board.errors[..|b1.errors|][|b.errors|];
    } else {
      PushAllAt(fs[1..], b1, k - 1);
      assert fs[k] == fs[1..][k - 1];
      assert |b.errors| + k == |b1.errors| + (k - 1);
    }
  }

  /** Without failures, pushing never throws. */
  lemma {:induction false} PushAllNoThrow(fs: seq<Result<ValidationError, string>>, b: Board)
    requires forall k :: 0 <= k < |fs| ==> fs[k].Success?
    ensures PushAll(fs, b).thrown.None?
    decreases |fs|
  {
    if |fs| > 0 {
      assert fs[0].Success?;
      PushAllNoThrow(fs[1..], Board(b.data, b.errors + [fs[0].value]));
    }
  }

  /** Reporting only appends: the data is untouched and earlier errors stay
      in place. */
  lemma ReportErrorsAppends(o: Oracles, registry: seq<SetRoot>, resourceId: Option<Json>,
                            schemaId: string, resource: Json, errs: seq<AjvError>, b: Board)
    ensures OnlyAppends(b, ReportErrors(o, registry, resourceId, schemaId, resource, errs, b).board)
  {
    PushAllAppends(FormatAll(o, registry, resourceId, schemaId, resource, errs), b);
  }

  /** Without an exception, one error is appended per AJV error, in AJV's
      order. */
  lemma ReportErrorsExact(o: Oracles, registry: seq<SetRoot>, resourceId: Option<Json>,
                          schemaId: string, resource: Json, errs: seq<AjvError>, b: Board)
    ensures var r := ReportErrors(o, registry, resourceId, schemaId, resource, errs, b);
      r.thrown.None? ==>
        |r.board.errors| == |b.errors| + |errs|
        && forall k :: 0 <= k < |errs| ==>
             Success(r.board.errors[|b.errors| + k])
             == FormatVerificationError(o, registry, errs[k], resourceId, schemaId, resource)
  {
    var fs := FormatAll(o, registry, resourceId, schemaId, resource, errs);
    var r := PushAll(fs, b);
    PushAllCount(fs, b);
    if r.thrown.None? {
      forall k | 0 <= k < |errs|
        ensures Success(r.board.errors[|b.errors| + k])
                == FormatVerificationError(o, registry, errs[k], resourceId, schemaId, resource)
      {
        PushAllAt(fs, b, k);
      }
    }
  }

  /** The schema key `addSchema` and `getSchema` use: the `$id` as a property
      key. */
  function SchemaKey(schema: Json): string
  {
    TemplateOf(Prop(schema, "$id"))
  }

  /** The loop of `validateResource` over the schemas. A schema that is
      falsy or has a falsy `$id` is skipped; otherwise it is added under its
      key unless that key is taken, and AJV runs the schema registered under
      the key. A compile exception escapes. */
  function CheckSchemas(o: Oracles, registry: seq<SetRoot>, resource: Json, schemas: seq<Option<Json>>,
                        added: OMap<Json>, b: Board): Outcome
    decreases |schemas|
  {
    if |schemas| == 0 then Outcome(b, None)
    else
      var s := schemas[0];
      if s.None? || !Truthy(s.value) || !TruthyOpt(Prop(s.value, "$id")) then
        CheckSchemas(o, registry, resource, schemas[1..], added, b)
      else
        var key := SchemaKey(s.value);
        var added' := if key in Keys(added) then added else Put(added, key, s.value);
        match o.ajv(Get(added', key).value, resource)
        case Failure(t) => Outcome(b, Some(t))
        case Success(errs) =>
          var r := ReportErrors(o, registry, Prop(resource, "$id"), key, resource, errs, b);
          if r.thrown.Some? then r else CheckSchemas(o, registry, resource, schemas[1..], added', r.board)
  }

  /** `validateResource(resourceData, schemas, context)` as written: reading
      `$id` of a `null` resource throws, and so does the log line before the
      loop, which reads `$id` of every schema, when a schema is `null`. */
  function ValidateResourceAsWritten(o: Oracles, registry: seq<SetRoot>, resource: Option<Json>,
                                     schemas: seq<Option<Json>>, b: Board): Outcome
  {
    if Nullish(resource) then Outcome(b, Some(NullIdRead))
    else if exists k :: 0 <= k < |schemas| && Nullish(schemas[k]) then Outcome(b, Some(NullIdRead))
    else CheckSchemas(o, registry, resource.value, schemas, [], b)
  }

  /** `validateResource` as its loop intends: a missing schema is skipped by
      the loop's own `!schema` test. */
  function ValidateResource(o: Oracles, registry: seq<SetRoot>, resource: Option<Json>,
                            schemas: seq<Option<Json>>, b: Board): Outcome
  {
    if Nullish(resource) then Outcome(b, Some(NullIdRead))
    else CheckSchemas(o, registry, resource.value, schemas, [], b)
  }

  /** A reference to a schema that was not built makes the as-written phase
      throw before AJV runs, while the loop would have skipped it. */
  lemma MissingSchemaThrows(o: Oracles, registry: seq<SetRoot>, resource: Json, b: Board)
    requires !resource.Null?
    ensures ValidateResourceAsWritten(o, registry, Some(resource), [None], b) == Outcome(b, Some(NullIdRead))
    ensures ValidateResource(o, registry, Some(resource), [None], b) == Outcome(b, None)
  {
    assert Nullish([None][0]);
  }

  /** In the intended reading a missing or falsy schema changes nothing. */
  lemma MissingSchemaSkipped(o: Oracles, registry: seq<SetRoot>, resource: Json, schemas: seq<Option<Json>>,
                             added: OMap<Json>, b: Board, s: Option<Json>)
    requires s.None? || !Truthy(s.value)
    ensures CheckSchemas(o, registry, resource, [s] + schemas, added, b)
            == CheckSchemas(o, registry, resource, schemas, added, b)
  {
    assert ([s] + schemas)[1..] == schemas;
  }

  /** The two readings agree when every schema was found. */
  lemma ValidateResourceAgrees(o: Oracles, registry: seq<SetRoot>, resource: Option<Json>,
                               schemas: seq<Option<Json>>, b: Board)
    requires forall k :: 0 <= k < |schemas| ==> !Nullish(schemas[k])
    ensures ValidateResourceAsWritten(o, registry, resource, schemas, b)
            == ValidateResource(o, registry, resource, schemas, b)
  {
  }

  /** The checks only append errors: the data is untouched and earlier
      errors stay in place. */
  ghost predicate OnlyAppends(b: Board, b': Board)
  {
    b'.data == b.data && |b.errors| <= |b'.errors| && b'.errors[..|b.errors|] == b.errors
  }

  lemma OnlyAppendsTrans(b1: Board, b2: Board, b3: Board)
    requires OnlyAppends(b1, b2) && OnlyAppends(b2, b3)
    ensures OnlyAppends(b1, b3)
  {
    assert b3.errors[..|b1.errors|] == b3.errors[..|b2.errors|][..|b1.errors|];
  }

  lemma OnlyAppendsRefl(b: Board)
    ensures OnlyAppends(b, b)
  {
    assert b.errors[..|b.errors|] == b.errors;
  }

  lemma {:induction false} CheckSchemasAppends(o: Oracles, registry: seq<SetRoot>, resource: Json,
                                               schemas: seq<Option<Json>>, added: OMap<Json>, b: Board)
    ensures OnlyAppends(b, CheckSchemas(o, registry, resource, schemas, added, b).board)
    decreases |schemas|
  {
    if |schemas| == 0 {
      OnlyAppendsRefl(b);
    } else {
      var s := schemas[0];
      if s.None? || !Truthy(s.value) || !TruthyOpt(Prop(s.value, "$id")) {
        CheckSchemasAppends(o, registry, resource, schemas[1..], added, b);
      } else {
        var key := SchemaKey(s.value);
        var added' := if key in Keys(added) then added else Put(added, key, s.value);
        match o.ajv(Get(added', key).value, resource)
        case Failure(_) => OnlyAppendsRefl(b);
        case Success(errs) =>
          var r := ReportErrors(o, registry, Prop(resource, "$id"), key, resource, errs, b);
          ReportErrorsAppends(o, registry, Prop(resource, "$id"), key, resource, errs, b);
          if r.thrown.None? {
            CheckSchemasAppends(o, registry, resource, schemas[1..], added', r.board);
            OnlyAppendsTrans(b, r.board, CheckSchemas(o, registry, resource, schemas, added, b).board);
          }
      }
    }
  }

  /** Formatting cannot throw for a resource whose `$id` is a string and
      which is not itself a string. */
  lemma ReportErrorsNoThrow(o: Oracles, registry: seq<SetRoot>, resource: Json, schemaId: string,
                             errs: seq<AjvError>, b: Board)
    requires Prop(resource, "$id").Some? && Prop(resource, "$id").value.Str? && !resource.Str?
    ensures ReportErrors(o, registry, Prop(resource, "$id"), schemaId, resource, errs, b).thrown.None?
  {
    PushAllNoThrow(FormatAll(o, registry, Prop(resource, "$id"), schemaId, resource, errs), b);
  }

  /** A single found schema: a resource with a string `$id` gets exactly
      one error per AJV error, and nothing throws. */
  lemma OneSchemaErrors(o: Oracles, registry: seq<SetRoot>, resource: Json, schema: Json, b: Board)
    requires !resource.Null? && !resource.Str? && Truthy(schema) && TruthyOpt(Prop(schema, "$id"))
    requires Prop(resource, "$id").Some? && Prop(resource, "$id").value.Str?
    requires o.ajv(schema, resource).Success?
    ensures var r := ValidateResource(o, registry, Some(resource), [Some(schema)], b);
      r.thrown.None? && r.board.data == b.data
      && |r.board.errors| == |b.errors| + |o.ajv(schema, resource).value|
  {
    var key := SchemaKey(schema);
    assert Keys<Json>([]) == [];
    assert Get(Put([], key, schema), key) == Some(schema);
    var errs := o.ajv(schema, resource).value;
    var added' := Put([], key, schema);
    var rep := ReportErrors(o, registry, Prop(resource, "$id"), key, resource, errs, b);
    ReportErrorsExact(o, registry, Prop(resource, "$id"), key, resource, errs, b);
    ReportErrorsAppends(o, registry, Prop(resource, "$id"), key, resource, errs, b);
    ReportErrorsNoThrow(o, registry, resource, key, errs, b);
    assert [Some(schema)][1..] == [];
    assert CheckSchemas(o, registry, resource, [Some(schema)], [], b)
           == CheckSchemas(o, registry, resource, [], added', rep.board);
  }

  // ---------------------------------------------------------------------------
  // verifyModel and execute
  // ---------------------------------------------------------------------------

  /** `verifyModel(modelId, context)`: the model's references are collected,
      the schema ones looked up, and the built model, then its instance, are
      checked against them. */
  function VerifyModel(o: Oracles, registry: seq<SetRoot>, modelId: string, b: Board): Outcome
  {
    var model := GetPhaseData(b.data, "build", "models", modelId);
    var instance := GetPhaseData(b.data, "build", "instances", InstanceId(modelId));
    var refs := ExtractRefs(if model.Some? then model.value else Null);
    match LookUpSchemas(b.data, refs)
    case Failure(t) => Outcome(b, Some(t))
    case Success(schemas) =>
      var first := ValidateResourceAsWritten(o, registry, model, schemas, b);
      if first.thrown.Some? then first
      else ValidateResourceAsWritten(o, registry, instance, schemas, first.board)
  }

  /** The loop of `execute` over the built models; an exception leaves it. */
  function VerifyAll(o: Oracles, registry: seq<SetRoot>, ids: seq<string>, b: Board): Outcome
    decreases |ids|
  {
    if |ids| == 0 then Outcome(b, None)
    else
      var r := VerifyModel(o, registry, ids[0], b);
      if r.thrown.Some? then r else VerifyAll(o, registry, ids[1..], r.board)
  }

  /** `DefaultVerificationStrategy.execute`. */
  function Verified(b: Board, o: Oracles, registry: seq<SetRoot>): Outcome
  {
    VerifyAll(o, registry, Keys(Entities(b.data, "build", "models")), b)
  }

  lemma ValidateResourceAppends(o: Oracles, registry: seq<SetRoot>, resource: Option<Json>,
                                schemas: seq<Option<Json>>, b: Board)
    ensures OnlyAppends(b, ValidateResourceAsWritten(o, registry, resource, schemas, b).board)
  {
    if Nullish(resource) || exists k :: 0 <= k < |schemas| && Nullish(schemas[k]) {
      OnlyAppendsRefl(b);
    } else {
      CheckSchemasAppends(o, registry, resource.value, schemas, [], b);
    }
  }

  lemma VerifyModelAppends(o: Oracles, registry: seq<SetRoot>, modelId: string, b: Board)
    ensures OnlyAppends(b, VerifyModel(o, registry, modelId, b).board)
  {
    var model := GetPhaseData(b.data, "build", "models", modelId);
    var instance := GetPhaseData(b.data, "build", "instances", InstanceId(modelId));
    var refs := ExtractRefs(if model.Some? then model.value else Null);
    match LookUpSchemas(b.data, refs)
    case Failure(_) => OnlyAppendsRefl(b);
    case Success(schemas) =>
      var first := ValidateResourceAsWritten(o, registry, model, schemas, b);
      ValidateResourceAppends(o, registry, model, schemas, b);
      if first.thrown.None? {
        ValidateResourceAppends(o, registry, instance, schemas, first.board);
        OnlyAppendsTrans(b, first.board, VerifyModel(o, registry, modelId, b).board);
      }
  }

  lemma {:induction false} VerifyAllAppends(o: Oracles, registry: seq<SetRoot>, ids: seq<string>, b: Board)
    ensures OnlyAppends(b, VerifyAll(o, registry, ids, b).board)
    decreases |ids|
  {
    if |ids| == 0 {
      OnlyAppendsRefl(b);
    } else {
      var r := VerifyModel(o, registry, ids[0], b);
      VerifyModelAppends(o, registry, ids[0], b);
      if r.thrown.None? {
        VerifyAllAppends(o, registry, ids[1..], r.board);
        OnlyAppendsTrans(b, r.board, VerifyAll(o, registry, ids, b).board);
      }
    }
  }

  /** Verification stores nothing and never removes an error. */
  lemma VerifiedOnlyAppends(b: Board, o: Oracles, registry: seq<SetRoot>)
    ensures OnlyAppends(b, Verified(b, o, registry).board)
  {
    VerifyAllAppends(o, registry, Keys(Entities(b.data, "build", "models")), b);
  }

  /** With no built model the phase does nothing. */
  lemma NoBuiltModels(b: Board, o: Oracles, registry: seq<SetRoot>)
    requires Entities(b.data, "build", "models") == []
    ensures Verified(b, o, registry) == Outcome(b, None)
  {
  }

  /** A model whose one schema reference was built gets one error for
      each AJV error on the model and one for each on its instance: both
      are checked, in that order. */
  lemma ModelAndInstanceChecked(o: Oracles, registry: seq<SetRoot>, modelId: string, b: Board, schema: Json)
    requires GetPhaseData(b.data, "build", "models", modelId).Some?
    requires GetPhaseData(b.data, "build", "instances", InstanceId(modelId)).Some?
    requires LookUpSchemas(b.data, ExtractRefs(GetPhaseData(b.data, "build", "models", modelId).value))
             == Success([Some(schema)])
    requires Truthy(schema) && TruthyOpt(Prop(schema, "$id"))
    requires ResourceReady(o, GetPhaseData(b.data, "build", "models", modelId).value, schema)
    requires ResourceReady(o, GetPhaseData(b.data, "build", "instances", InstanceId(modelId)).value, schema)
    ensures var r := VerifyModel(o, registry, modelId, b);
      var model := GetPhaseData(b.data, "build", "models", modelId).value;
      var instance := GetPhaseData(b.data, "build", "instances", InstanceId(modelId)).value;
      r.thrown.None? && r.board.data == b.data
      && |r.board.errors| == |b.errors| + |o.ajv(schema, model).value| + |o.ajv(schema, instance).value|
  {
    var model := GetPhaseData(b.data, "build", "models", modelId).value;
    var instance := GetPhaseData(b.data, "build", "instances", InstanceId(modelId)).value;
    var first := ValidateResource(o, registry, Some(model), [Some(schema)], b);
    ValidateResourceAgrees(o, registry, Some(model), [Some(schema)], b);
    ValidateResourceAgrees(o, registry, Some(instance), [Some(schema)], first.board);
    OneSchemaErrors(o, registry, model, schema, b);
    OneSchemaErrors(o, registry, instance, schema, first.board);
  }

  /** A resource AJV accepts to check, with a string `$id`. */
  predicate ResourceReady(o: Oracles, resource: Json, schema: Json)
  {
    !resource.Null? && !resource.Str?
    && Prop(resource, "$id").Some? && Prop(resource, "$id").value.Str?
    && o.ajv(schema, resource).Success?
  }

  // ---------------------------------------------------------------------------
  // the phase on a context
  // ---------------------------------------------------------------------------

  /** `execute(context)`. */
  method ExecuteVerification(ctx: PipelineContext, o: Oracles) returns (thrown: Option<string>)
    modifies ctx
    ensures Outcome(ctx.Snapshot(), thrown) == Verified(old(ctx.Snapshot()), o, ctx.registry)
  {
    var models := GetEntitiesFromContext(ctx, "build", "models");
    if |models| == 0 {
      return None;
    }
    var ids := Keys(models);
    ghost var goal := VerifyAll(o, ctx.registry, ids, ctx.Snapshot());
    var i := 0;
    assert ids[0..] == ids;
    while i < |ids|
      invariant 0 <= i <= |ids|
      invariant VerifyAll(o, ctx.registry, ids[i..], ctx.Snapshot()) == goal
    {
      ghost var rest := ids[i..];
      assert rest[0] == ids[i] && rest[1..] == ids[i + 1..];
      thrown := VerifyModelInContext(ctx, o, ids[i]);
      if thrown.Some? {
        return;
      }
      i := i + 1;
    }
    thrown := None;
  }

  /** `verifyModel(modelId, context)`. */
  method VerifyModelInContext(ctx: PipelineContext, o: Oracles, modelId: string) returns (thrown: Option<string>)
    modifies ctx
    ensures Outcome(ctx.Snapshot(), thrown) == VerifyModel(o, ctx.registry, modelId, old(ctx.Snapshot()))
  {
    var model := GetPhaseData(ctx.data, "build", "models", modelId);
    var instanceId := InstanceId(modelId);
    var instance := GetPhaseData(ctx.data, "build", "instances", instanceId);
    var refs := ExtractRefsOf(if model.Some? then model.value else Null);
    var looked := LookUpSchemasOf(ctx, refs);
    if looked.Failure? {
      return Some(looked.error);
    }
    var schemas := looked.value;
    thrown := ValidateResourceInContext(ctx, o, model, schemas);
    if thrown.Some? {
      return;
    }
    thrown := ValidateResourceInContext(ctx, o, instance, schemas);
  }

  /** The loop over the references in `verifyModel`. */
  method LookUpSchemasOf(ctx: PipelineContext, refs: seq<Json>) returns (r: Result<seq<Option<Json>>, string>)
    ensures r == LookUpSchemas(ctx.data, refs)
  {
    var schemas: seq<Option<Json>> := [];
    var i := 0;
    assert refs[0..] == refs;
    PrefixedEmpty(LookUpSchemas(ctx.data, refs));
    while i < |refs|
      invariant 0 <= i <= |refs|
      invariant LookUpSchemas(ctx.data, refs) == Prefixed(schemas, LookUpSchemas(ctx.data, refs[i..]))
    {
      ghost var rest := refs[i..];
      assert rest[0] == refs[i] && rest[1..] == refs[i + 1..];
      if !refs[i].Str? {
        return Failure(SplitNotFunction);
      }
      var here: seq<Option<Json>> := [];
      if IsSchemaRef(refs[i].s) {
        var schema := GetPhaseData(ctx.data, "build", "schemas", refs[i].s);
        here := [schema];
      }
      PrefixedAssoc(schemas, here, LookUpSchemas(ctx.data, refs[i + 1..]));
      schemas := schemas + here;
      i := i + 1;
    }
    assert refs[i..] == [];
    assert schemas + [] == schemas;
    return Success(schemas);
  }

  /** The lookup result with `p` in front. */
  function Prefixed(p: seq<Option<Json>>, r: Result<seq<Option<Json>>, string>): Result<seq<Option<Json>>, string>
  {
    match r
    case Failure(e) => Failure(e)
    case Success(v) => Success(p + v)
  }

  lemma PrefixedEmpty(r: Result<seq<Option<Json>>, string>)
    ensures Prefixed([], r) == r
  {
    if r.Success? {
      assert [] + r.value == r.value;
    }
  }

  lemma PrefixedAssoc(p: seq<Option<Json>>, q: seq<Option<Json>>, r: Result<seq<Option<Json>>, string>)
    ensures Prefixed(p, Prefixed(q, r)) == Prefixed(p + q, r)
  {
    if r.Success? {
      assert p + (q + r.value) == (p + q) + r.value;
    }
  }

  /** `validateResource(resourceData, schemas, context)`. */
  method ValidateResourceInContext(ctx: PipelineContext, o: Oracles, resource: Option<Json>,
                                   schemas: seq<Option<Json>>) returns (thrown: Option<string>)
    modifies ctx
    ensures Outcome(ctx.Snapshot(), thrown)
            == ValidateResourceAsWritten(o, ctx.registry, resource, schemas, old(ctx.Snapshot()))
  {
    if Nullish(resource) {
      return Some(NullIdRead);
    }
    // the log line reads `$id` of every schema
    if exists k :: 0 <= k < |schemas| && Nullish(schemas[k]) {
      return Some(NullIdRead);
    }
    thrown := CheckSchemasInContext(ctx, o, resource.value, schemas);
  }

  /** The loop of `validateResource` over the schemas. */
  method CheckSchemasInContext(ctx: PipelineContext, o: Oracles, resourceData: Json, schemas: seq<Option<Json>>)
    returns (thrown: Option<string>)
    modifies ctx
    ensures Outcome(ctx.Snapshot(), thrown) == CheckSchemas(o, ctx.registry, resourceData, schemas, [], old(ctx.Snapshot()))
  {
    var added: OMap<Json> := [];
    ghost var goal := CheckSchemas(o, ctx.registry, resourceData, schemas, added, ctx.Snapshot());
    var i := 0;
    assert schemas[0..] == schemas;
    while i < |schemas|
      invariant 0 <= i <= |schemas|
      invariant CheckSchemas(o, ctx.registry, resourceData, schemas[i..], added, ctx.Snapshot()) == goal
    {
      assert schemas[i..][1..] == schemas[i + 1..];
      added, thrown := CheckSchemaTurn(ctx, o, resourceData, schemas[i..], added);
      if thrown.Some? {
        return;
      }
      i := i + 1;
    }
    thrown := None;
  }

  /** One turn of the loop, on the first of the remaining schemas: skipped,
      or registered under its key and run, its errors pushed. */
  method CheckSchemaTurn(ctx: PipelineContext, o: Oracles, resourceData: Json, rest: seq<Option<Json>>,
                         added: OMap<Json>) returns (added': OMap<Json>, thrown: Option<string>)
    requires |rest| > 0
    modifies ctx
    ensures thrown.Some? ==>
      Outcome(ctx.Snapshot(), thrown) == CheckSchemas(o, ctx.registry, resourceData, rest, added, old(ctx.Snapshot()))
    ensures thrown.None? ==>
      CheckSchemas(o, ctx.registry, resourceData, rest[1..], added', ctx.Snapshot())
      == CheckSchemas(o, ctx.registry, resourceData, rest, added, old(ctx.Snapshot()))
  {
    added' := added;
    var schema := rest[0];
    if schema.None? || !Truthy(schema.value) || !TruthyOpt(Prop(schema.value, "$id")) {
      return added', None;
    }
    var key := SchemaKey(schema.value);
    if key !in Keys(added) {
      added' := Put(added, key, schema.value);
    }
    CheckSchemasChecked(o, ctx.registry, resourceData, rest, added, ctx.Snapshot(), added', key);
    var validate := Get(added', key).value;
    var result := o.ajv(validate, resourceData);
    if result.Failure? {
      return added', Some(result.error);
    }
    thrown := PushErrors(ctx, o, Prop(resourceData, "$id"), key, resourceData, result.value);
  }

  /** One turn of the schema loop for a schema that is checked. */
  lemma CheckSchemasChecked(o: Oracles, registry: seq<SetRoot>, resource: Json, schemas: seq<Option<Json>>,
                            added: OMap<Json>, b: Board, added': OMap<Json>, key: string)
    requires |schemas| > 0 && schemas[0].Some? && Truthy(schemas[0].value) && TruthyOpt(Prop(schemas[0].value, "$id"))
    requires key == SchemaKey(schemas[0].value)
    requires added' == if key in Keys(added) then added else Put(added, key, schemas[0].value)
    ensures Get(added', key).Some?
    ensures var result := o.ajv(Get(added', key).value, resource);
      CheckSchemas(o, registry, resource, schemas, added, b)
      == if result.Failure? then Outcome(b, Some(result.error))
         else
           var r := ReportErrors(o, registry, Prop(resource, "$id"), key, resource, result.value, b);
           if r.thrown.Some? then r else CheckSchemas(o, registry, resource, schemas[1..], added', r.board)
  {
  }

  /** The loop pushing `formatValidationError` of each AJV error. */
  method PushErrors(ctx: PipelineContext, o: Oracles, resourceId: Option<Json>, schemaId: string, resource: Json,
                    errs: seq<AjvError>) returns (thrown: Option<string>)
    modifies ctx
    ensures Outcome(ctx.Snapshot(), thrown)
            == ReportErrors(o, ctx.registry, resourceId, schemaId, resource, errs, old(ctx.Snapshot()))
  {
    ghost var fs := FormatAll(o, ctx.registry, resourceId, schemaId, resource, errs);
    ghost var goal := PushAll(fs, ctx.Snapshot());
    var i := 0;
    assert fs[0..] == fs;
    while i < |errs|
      invariant 0 <= i <= |errs|
      invariant PushAll(fs[i..], ctx.Snapshot()) == goal
    {
      ghost var rest := fs[i..];
      assert rest[0] == fs[i] && rest[1..] == fs[i + 1..];
      var formatted := FormatVerificationError(o, ctx.registry, errs[i], resourceId, schemaId, resource);
      if formatted.Failure? {
        return Some(formatted.error);
      }
      ghost var before := ctx.Snapshot();
      ctx.AddErrors([formatted.value]);
      assert ctx.Snapshot() == Board(before.data, before.errors + [formatted.value]);
      i := i + 1;
    }
    assert fs[i..] == [];
    thrown := None;
  }
}
