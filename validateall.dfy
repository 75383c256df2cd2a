/** The legacy whole-config-set validation (`validators/validateAll.ts`):
    every schema, model and instance of the resource registry, by its
    category's validator, under its full path; a path appears in the result
    only with the errors its validator returned, and the run succeeds exactly
    when none did. */
module LegacyValidateAll {
  import opened Wrappers
  import opened OrderedMaps
  import opened JsonValues
  import opened Host
  import opened PipelineContexts
  import opened ResourceManagers
  import LegacyValidators

  datatype Category = Schemas | Models | Instances

  /** `validate(resource, fullFilePath)` of the model and instance
      validators: `validators/modelValidator.ts` is a thin AJV wrapper and
      `validators/instanceValidator.ts` is not part of this model. A failure
      is the exception it throws. */
  datatype OtherValidators = OtherValidators(
    model: (Json, string) -> Result<seq<ValidationError>, string>,
    instance: (Json, string) -> Result<seq<ValidationError>, string>)

  function RunValidator(o: Oracles, vs: OtherValidators, c: Category, resource: Json, fullFilePath: string)
    : Result<seq<ValidationError>, string>
  {
    match c
    case Schemas => LegacyValidators.SchemaErrors(o, resource, fullFilePath)
    case Models => vs.model(resource, fullFilePath)
    case Instances => vs.instance(resource, fullFilePath)
  }

  /** The errors one resource reports: none when building its path or
      validating it throws, since the rejected promise is ignored. */
  function Reported(o: Oracles, vs: OtherValidators, paths: PathAdapter, root: string, c: Category, e: Entry<Json>)
    : Option<(string, seq<ValidationError>)>
  {
    match paths.stripRelativeAndFull(root, e.key)
    case Failure(_) => None
    case Success(fullFilePath) =>
      match RunValidator(o, vs, c, e.val, fullFilePath)
      case Failure(_) => None
      case Success(errors) => if |errors| > 0 then Some((fullFilePath, errors)) else None
  }

  /** `processCategory(category, validator)`: the executors run in order;
      a later resource with the same full path overwrites the earlier one. */
  function ProcessCategory(o: Oracles, vs: OtherValidators, paths: PathAdapter, root: string, c: Category,
                           entries: OMap<Json>, errors: OMap<seq<ValidationError>>): OMap<seq<ValidationError>>
    decreases |entries|
  {
    if |entries| == 0 then errors
    else
      var errors' := match Reported(o, vs, paths, root, c, entries[0])
        case None => errors
        case Some(r) => Put(errors, r.0, r.1);
      ProcessCategory(o, vs, paths, root, c, entries[1..], errors')
  }

  /** `validateResources(resourceManager)`: schemas, then models, then
      instances. */
  function ResourceErrors(o: Oracles, vs: OtherValidators, paths: PathAdapter, root: string, res: Resources)
    : OMap<seq<ValidationError>>
  {
    var afterSchemas := ProcessCategory(o, vs, paths, root, Schemas, res.schemas, []);
    var afterModels := ProcessCategory(o, vs, paths, root, Models, res.models, afterSchemas);
    ProcessCategory(o, vs, paths, root, Instances, res.instances, afterModels)
  }

  datatype ValidationResult = ValidationResult(success: bool, errors: OMap<seq<ValidationError>>)

  /** `validateAll(hcsManager)` over the registry's references. */
  function ValidationOf(o: Oracles, vs: OtherValidators, paths: PathAdapter, root: string, byRef: OMap<Json>)
    : ValidationResult
  {
    var errors := ResourceErrors(o, vs, paths, root, Categorized(byRef));
    ValidationResult(|errors| == 0, errors)
  }

  predicate AllNonEmpty(errors: OMap<seq<ValidationError>>)
  {
    forall i :: 0 <= i < |errors| ==> |errors[i].val| > 0
  }

  predicate ReportsIn(o: Oracles, vs: OtherValidators, paths: PathAdapter, root: string, c: Category, entries: OMap<Json>)
  {
    exists i :: 0 <= i < |entries| && Reported(o, vs, paths, root, c, entries[i]).Some?
  }

  /** Only a resource whose validator returned errors leaves a path behind,
      and every such resource leaves one behind. */
  lemma {:induction false} ProcessCategoryEmpty(o: Oracles, vs: OtherValidators, paths: PathAdapter, root: string,
                                                c: Category, entries: OMap<Json>, errors: OMap<seq<ValidationError>>)
    ensures ProcessCategory(o, vs, paths, root, c, entries, errors) == [] <==>
      errors == [] && !ReportsIn(o, vs, paths, root, c, entries)
    decreases |entries|
  {
    if |entries| > 0 {
      var rest := entries[1..];
      assert forall i :: 0 <= i < |rest| ==> rest[i] == entries[i + 1];
      var r := Reported(o, vs, paths, root, c, entries[0]);
      var errors' := if r.None? then errors else Put(errors, r.value.0, r.value.1);
      ProcessCategoryEmpty(o, vs, paths, root, c, rest, errors');
      if r.Some? {
        assert |Keys(errors')| > 0;
      }
      if ReportsIn(o, vs, paths, root, c, entries) && r.None? {
        var i :| 0 <= i < |entries| && Reported(o, vs, paths, root, c, entries[i]).Some?;
        assert 0 < i && rest[i - 1] == entries[i];
      }
      if ReportsIn(o, vs, paths, root, c, rest) {
        var i :| 0 <= i < |rest| && Reported(o, vs, paths, root, c, rest[i]).Some?;
        assert entries[i + 1] == rest[i];
      }
    }
  }

  /** Every entry of the result is a non-empty list some resource's
      validator returned for that full path, or was there before. */
  lemma {:induction false} ProcessCategorySource(o: Oracles, vs: OtherValidators, paths: PathAdapter, root: string,
                                                 c: Category, entries: OMap<Json>, errors: OMap<seq<ValidationError>>,
                                                 key: string)
    requires Get(ProcessCategory(o, vs, paths, root, c, entries, errors), key).Some?
    ensures var es := Get(ProcessCategory(o, vs, paths, root, c, entries, errors), key).value;
      Get(errors, key) == Some(es)
      || exists i :: 0 <= i < |entries| && Reported(o, vs, paths, root, c, entries[i]) == Some((key, es))
    decreases |entries|
  {
    if |entries| > 0 {
      var rest := entries[1..];
      var r := Reported(o, vs, paths, root, c, entries[0]);
      var errors' := if r.None? then errors else Put(errors, r.value.0, r.value.1);
      ProcessCategorySource(o, vs, paths, root, c, rest, errors', key);
      var es := Get(ProcessCategory(o, vs, paths, root, c, entries, errors), key).value;
      if exists i :: 0 <= i < |rest| && Reported(o, vs, paths, root, c, rest[i]) == Some((key, es)) {
        var i :| 0 <= i < |rest| && Reported(o, vs, paths, root, c, rest[i]) == Some((key, es));
        assert entries[i + 1] == rest[i];
      }
    }
  }

  lemma {:induction false} ProcessCategoryNonEmpty(o: Oracles, vs: OtherValidators, paths: PathAdapter, root: string,
                                                   c: Category, entries: OMap<Json>, errors: OMap<seq<ValidationError>>)
    requires AllNonEmpty(errors)
    ensures AllNonEmpty(ProcessCategory(o, vs, paths, root, c, entries, errors))
    decreases |entries|
  {
    if |entries| > 0 {
      var r := Reported(o, vs, paths, root, c, entries[0]);
      var errors' := if r.None? then errors else Put(errors, r.value.0, r.value.1);
      if r.Some? {
        PutNonEmpty(errors, r.value.0, r.value.1);
      }
      ProcessCategoryNonEmpty(o, vs, paths, root, c, entries[1..], errors');
    }
  }

  lemma PutNonEmpty(errors: OMap<seq<ValidationError>>, k: string, v: seq<ValidationError>)
    requires AllNonEmpty(errors) && |v| > 0
    ensures AllNonEmpty(Put(errors, k, v))
  {
    PutEntries(errors, k, v);
    var r := Put(errors, k, v);
    forall i | 0 <= i < |r|
      ensures |r[i].val| > 0
    {
      assert r[i] in r;
    }
  }

  /** `success` is true exactly when no schema, model or instance reported an
      error, and every full path in `errors` holds a non-empty list. */
  lemma ValidationOfMeaning(o: Oracles, vs: OtherValidators, paths: PathAdapter, root: string, byRef: OMap<Json>)
    ensures var res := Categorized(byRef);
      var r := ValidationOf(o, vs, paths, root, byRef);
      && (r.success <==> r.errors == [])
      && (r.success <==> !ReportsIn(o, vs, paths, root, Schemas, res.schemas)
                         && !ReportsIn(o, vs, paths, root, Models, res.models)
                         && !ReportsIn(o, vs, paths, root, Instances, res.instances))
      && AllNonEmpty(r.errors)
  {
    var res := Categorized(byRef);
    var s := ProcessCategory(o, vs, paths, root, Schemas, res.schemas, []);
    var m := ProcessCategory(o, vs, paths, root, Models, res.models, s);
    ProcessCategoryEmpty(o, vs, paths, root, Schemas, res.schemas, []);
    ProcessCategoryEmpty(o, vs, paths, root, Models, res.models, s);
    ProcessCategoryEmpty(o, vs, paths, root, Instances, res.instances, m);
    ProcessCategoryNonEmpty(o, vs, paths, root, Schemas, res.schemas, []);
    ProcessCategoryNonEmpty(o, vs, paths, root, Models, res.models, s);
    ProcessCategoryNonEmpty(o, vs, paths, root, Instances, res.instances, m);
  }

  /** `processCategory` on the live record. */
  method ProcessEntries(o: Oracles, vs: OtherValidators, paths: PathAdapter, root: string, c: Category,
                        category: OMap<Json>, errors0: OMap<seq<ValidationError>>)
    returns (errors: OMap<seq<ValidationError>>)
    ensures errors == ProcessCategory(o, vs, paths, root, c, category, errors0)
  {
    errors := errors0;
    var i := 0;
    assert category[0..] == category;
    while i < |category|
      invariant 0 <= i <= |category|
      invariant ProcessCategory(o, vs, paths, root, c, category[i..], errors)
                == ProcessCategory(o, vs, paths, root, c, category, errors0)
    {
      ghost var rest := category[i..];
      assert rest[0] == category[i] && rest[1..] == category[i + 1..];
      var fullFilePath := paths.stripRelativeAndFull(root, category[i].key);
      if fullFilePath.Success? {
        var validated := RunValidator(o, vs, c, category[i].val, fullFilePath.value);
        if validated.Success? && |validated.value| > 0 {
          errors := Put(errors, fullFilePath.value, validated.value);
        }
      }
      i := i + 1;
    }
  }

  /** `validateAll(hcsManager)`. */
  method ValidateAll(o: Oracles, vs: OtherValidators, paths: PathAdapter, rm: ResourceManager)
    returns (r: ValidationResult)
    ensures r == ValidationOf(o, vs, paths, rm.root, rm.resourcesByRef)
  {
    var resources := rm.GetResources();
    var errors := ProcessEntries(o, vs, paths, rm.root, Schemas, resources.schemas, []);
    errors := ProcessEntries(o, vs, paths, rm.root, Models, resources.models, errors);
    errors := ProcessEntries(o, vs, paths, rm.root, Instances, resources.instances, errors);
    r := ValidationResult(|errors| == 0, errors);
  }
}
