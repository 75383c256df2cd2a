/** The validation phase (`DefaultValidationStrategy`): every converted
    schema, then every converted model, is run through its validator; an
    entity with no errors is promoted to the `validation` phase with its
    converted value, and the errors of the others are appended to the
    context's list, schema errors before model errors. A validator that
    throws is logged and skipped. */
module Validation {
  import opened Wrappers
  import opened Strings
  import opened OrderedMaps
  import opened JsonValues
  import opened Host
  import opened ConfigSets
  import opened PipelineContexts
  import opened Validators

  /** The validator the pass for `category` runs. */
  function Validate(category: string, o: Oracles, id: string, cv: SetView, data: OMap<Json>)
    : Result<seq<ValidationError>, string>
  {
    if category == "schemas" then ValidateSchema(o, id, cv, data) else ValidateModel(o, id, cv, data)
  }

  /** One entry visited by `validateSchemasInContext` (category `schemas`) or
      `validateModelsInContext` (category `models`); the board's error list is
      the pass's local list. */
  function ValidateEntry(e: Entry<Json>, b: Board, category: string, o: Oracles, cv: SetView): Board
  {
    var parts := SplitKey(e.key);
    if parts.phase != "conversion" || parts.resourceType != category then b
    else
      match Validate(category, o, parts.resourceId, cv, b.data)
      case Failure(_) => b
      case Success(es) =>
        if |es| > 0 then Board(b.data, b.errors + es)
        else Board(WithPhaseData(b.data, "validation", category, parts.resourceId, e.val), b.errors)
  }

  function ValidateEntries(entries: OMap<Json>, b: Board, category: string, o: Oracles, cv: SetView): Board
    decreases |entries|
  {
    if |entries| == 0 then b
    else ValidateEntries(entries[1..], ValidateEntry(entries[0], b, category, o, cv), category, o, cv)
  }

  /** The blackboard after the validation phase. Entries a pass adds carry the
      `validation` phase, which neither pass visits, so walking the entries
      present when the pass starts is what the live `Map` iteration does. */
  function Validated(b: Board, cv: SetView, o: Oracles): Board
  {
    var schemas := ValidateEntries(b.data, Board(b.data, []), "schemas", o, cv);
    var models := ValidateEntries(schemas.data, Board(schemas.data, []), "models", o, cv);
    Board(models.data, b.errors + schemas.errors + models.errors)
  }

  /** `validateSchemasInContext` / `validateModelsInContext`: promotes into
      the context as it goes and returns the collected errors. */
  method ValidateInContext(ctx: PipelineContext, o: Oracles, category: string) returns (errors: seq<ValidationError>)
    modifies ctx
    ensures Board(ctx.data, errors) == ValidateEntries(old(ctx.data), Board(old(ctx.data), []), category, o, ctx.configSet)
    ensures ctx.errors == old(ctx.errors)
  {
    var entries := ctx.data;
    errors := [];
    var i := 0;
    assert entries[0..] == entries;
    while i < |entries|
      invariant 0 <= i <= |entries|
      invariant ctx.errors == old(ctx.errors)
      invariant ValidateEntries(entries[i..], Board(ctx.data, errors), category, o, ctx.configSet)
                == ValidateEntries(entries, Board(entries, []), category, o, ctx.configSet)
      decreases |entries| - i
    {
      var rest := entries[i..];
      assert rest[0] == entries[i] && rest[1..] == entries[i + 1..];
      var parts := SplitKey(entries[i].key);
      if parts.phase == "conversion" && parts.resourceType == category {
        var result := Validate(category, o, parts.resourceId, ctx.configSet, ctx.data);
        if result.Success? {
          if |result.value| > 0 {
            errors := errors + result.value;
          } else {
            ctx.SetPhaseData("validation", category, parts.resourceId, entries[i].val);
          }
        }
      }
      i := i + 1;
    }
  }

  /** `DefaultValidationStrategy.execute`. */
  method ExecuteValidation(ctx: PipelineContext, o: Oracles)
    modifies ctx
    ensures ctx.Snapshot() == Validated(old(ctx.Snapshot()), ctx.configSet, o)
  {
    var schemaErrors := ValidateInContext(ctx, o, "schemas");
    var modelErrors := ValidateInContext(ctx, o, "models");
    ctx.AddErrors(schemaErrors);
    ctx.AddErrors(modelErrors);
  }

  // ---------------------------------------------------------------------------
  // what the phase promises
  // ---------------------------------------------------------------------------

  /** Every key outside the `validation` phase reads the same in both. */
  ghost predicate OnlyValidationChanged(d: OMap<Json>, d': OMap<Json>)
  {
    forall k :: !StartsWith(k, "validation:") ==> Get(d', k) == Get(d, k)
  }

  lemma OnlyValidationSameConversion(d: OMap<Json>, d': OMap<Json>)
    requires OnlyValidationChanged(d, d')
    ensures SameConversion(d, d')
  {
    forall k | StartsWith(k, "conversion:")
      ensures Get(d, k) == Get(d', k)
    {
      assert k[0] == 'c';
    }
  }

  /** A blackboard whose keys are distinct and all have three parts. */
  predicate TripleKeyed(d: OMap<Json>)
  {
    DistinctKeys(d) && forall n :: 0 <= n < |d| ==> TripleKey(d[n].key)
  }

  lemma ColonFreeTriple(p: string, t: string, i: string)
    requires ColonFree(p, t, i)
    ensures TripleKey(PhaseKey(p, t, i))
  {
    SplitThree(p, t, i, ':');
  }

  /** One entry either leaves the data alone and appends errors, or promotes
      its entity and leaves the errors alone. */
  lemma ValidateEntryCases(e: Entry<Json>, b: Board, category: string, o: Oracles, cv: SetView)
    ensures var r := ValidateEntry(e, b, category, o, cv);
      var parts := SplitKey(e.key);
      (r.data == b.data && |r.errors| >= |b.errors| && r.errors[..|b.errors|] == b.errors)
      || (r.errors == b.errors && parts.phase == "conversion" && parts.resourceType == category
          && r.data == WithPhaseData(b.data, "validation", category, parts.resourceId, e.val))
  {
    var parts := SplitKey(e.key);
    if parts.phase == "conversion" && parts.resourceType == category {
      var v := Validate(category, o, parts.resourceId, cv, b.data);
      if v.Success? && |v.value| > 0 {
        assert (b.errors + v.value)[..|b.errors|] == b.errors;
      }
    }
  }

  /** What one entry does to the board: only `validation` keys change, and
      only by a promotion; keys are kept; errors only grow; a three-part
      keyed board stays so when the visited key has three parts. */
  lemma ValidateEntryEffect(e: Entry<Json>, b: Board, category: string, o: Oracles, cv: SetView)
    requires category == "schemas" || category == "models"
    ensures var r := ValidateEntry(e, b, category, o, cv);
      OnlyValidationChanged(b.data, r.data)
      && (forall k :: k in Keys(b.data) ==> k in Keys(r.data))
      && |r.errors| >= |b.errors| && r.errors[..|b.errors|] == b.errors
      && (TripleKeyed(b.data) && TripleKey(e.key) ==> TripleKeyed(r.data))
  {
    var r := ValidateEntry(e, b, category, o, cv);
    ValidateEntryCases(e, b, category, o, cv);
    if r.data != b.data {
      var parts := SplitKey(e.key);
      PromotionEffect(b.data, category, parts.resourceId, e.val, e.key);
    }
  }

  lemma PromotionEffect(d: OMap<Json>, category: string, id: string, v: Json, visited: string)
    requires category == "schemas" || category == "models"
    requires id == SplitKey(visited).resourceId
    ensures var r := WithPhaseData(d, "validation", category, id, v);
      OnlyValidationChanged(d, r)
      && (forall k :: k in Keys(d) ==> k in Keys(r))
      && (TripleKeyed(d) && TripleKey(visited) ==> TripleKeyed(r))
  {
    PhaseKeyPrefix("validation", category, id);
    if TripleKeyed(d) && TripleKey(visited) {
      TripleKeyParts(visited);
      PromotionKeepsTriple(d, category, id, v);
    }
  }

  lemma PromotionKeepsTriple(d: OMap<Json>, category: string, id: string, v: Json)
    requires category == "schemas" || category == "models"
    requires TripleKeyed(d) && ':' !in id
    ensures TripleKeyed(WithPhaseData(d, "validation", category, id, v))
  {
    var key := PhaseKey("validation", category, id);
    var r := WithPhaseData(d, "validation", category, id, v);
    PutKeepsDistinct(d, key, v);
    ColonFreeTriple("validation", category, id);
    forall n | 0 <= n < |r|
      ensures TripleKey(r[n].key)
    {
      assert r[n].key == Keys(r)[n];
      if n < |d| {
        assert Keys(d)[n] == d[n].key;
      }
    }
  }

  /** Every key outside the `validation` phase reads as before, every key is
      kept, the error list only grows, and a three-part keyed board stays
      so. */
  lemma {:induction false} ValidateEntriesEffect(entries: OMap<Json>, b: Board, category: string, o: Oracles,
                                                 cv: SetView)
    requires category == "schemas" || category == "models"
    ensures var r := ValidateEntries(entries, b, category, o, cv);
      OnlyValidationChanged(b.data, r.data)
      && (forall k :: k in Keys(b.data) ==> k in Keys(r.data))
      && |r.errors| >= |b.errors| && r.errors[..|b.errors|] == b.errors
      && (TripleKeyed(b.data) && TripleKeyed(entries) ==> TripleKeyed(r.data))
    decreases |entries|
  {
    if |entries| > 0 {
      var b' := ValidateEntry(entries[0], b, category, o, cv);
      ValidateEntryEffect(entries[0], b, category, o, cv);
      assert TripleKeyed(entries) ==> TripleKeyed(entries[1..]) by {
        if TripleKeyed(entries) {
          forall n | 0 <= n < |entries[1..]|
            ensures TripleKey(entries[1..][n].key)
          {
            assert entries[1..][n] == entries[n + 1];
          }
        }
      }
      ValidateEntriesEffect(entries[1..], b', category, o, cv);
      var r := ValidateEntries(entries[1..], b', category, o, cv);
      assert r.errors[..|b.errors|] == b'.errors[..|b.errors|];
    }
  }

  /** The phase leaves every key outside the `validation` phase as it was,
      keeps every key, and only appends to the error list. */
  lemma ValidatedKeepsOthers(b: Board, cv: SetView, o: Oracles)
    ensures var r := Validated(b, cv, o);
      OnlyValidationChanged(b.data, r.data)
      && (forall k :: k in Keys(b.data) ==> k in Keys(r.data))
      && |r.errors| >= |b.errors| && r.errors[..|b.errors|] == b.errors
  {
    var s := ValidateEntries(b.data, Board(b.data, []), "schemas", o, cv);
    ValidateEntriesEffect(b.data, Board(b.data, []), "schemas", o, cv);
    ValidateEntriesEffect(s.data, Board(s.data, []), "models", o, cv);
    var r := Validated(b, cv, o);
    assert r.errors[..|b.errors|] == b.errors;
  }

  /** What the `validation` entry of one visited entity becomes: its converted
      value when the validator reports nothing, otherwise what it was. */
  function Promoted(value: Json, verdict: Result<seq<ValidationError>, string>, before: Option<Json>): Option<Json>
  {
    if verdict == Success([]) then Some(value) else before
  }

  lemma ValidateEntryOwn(e: Entry<Json>, b: Board, category: string, o: Oracles, cv: SetView, i: string,
                         d: OMap<Json>)
    requires category == "schemas" || category == "models"
    requires ColonFree("conversion", category, i) && e.key == PhaseKey("conversion", category, i)
    requires SameConversion(d, b.data)
    ensures GetPhaseData(ValidateEntry(e, b, category, o, cv).data, "validation", category, i)
            == Promoted(e.val, Validate(category, o, i, cv, d), GetPhaseData(b.data, "validation", category, i))
  {
    SplitKeyOfPhaseKey("conversion", category, i);
    ValidatorsReadConversion(o, i, cv, d, b.data);
  }

  lemma ValidateEntryOther(e: Entry<Json>, b: Board, category: string, o: Oracles, cv: SetView, i: string)
    requires category == "schemas" || category == "models"
    requires ColonFree("conversion", category, i) && TripleKey(e.key) && e.key != PhaseKey("conversion", category, i)
    ensures GetPhaseData(ValidateEntry(e, b, category, o, cv).data, "validation", category, i)
            == GetPhaseData(b.data, "validation", category, i)
  {
    TripleKeyParts(e.key);
    var parts := SplitKey(e.key);
    var r := ValidateEntry(e, b, category, o, cv);
    if r.data != b.data {
      SetLeavesOtherTriples(b.data, "validation", category, parts.resourceId, e.val, "validation", category, i);
    }
  }

  lemma {:induction false} ValidateEntriesWithout(entries: OMap<Json>, b: Board, category: string, o: Oracles,
                                                  cv: SetView, i: string)
    requires category == "schemas" || category == "models"
    requires forall n :: 0 <= n < |entries| ==> TripleKey(entries[n].key)
    requires ColonFree("conversion", category, i) && PhaseKey("conversion", category, i) !in Keys(entries)
    ensures GetPhaseData(ValidateEntries(entries, b, category, o, cv).data, "validation", category, i)
            == GetPhaseData(b.data, "validation", category, i)
    decreases |entries|
  {
    if |entries| > 0 {
      assert Keys(entries)[0] == entries[0].key;
      ValidateEntryOther(entries[0], b, category, o, cv, i);
      assert Keys(entries[1..]) == Keys(entries)[1..];
      ValidateEntriesWithout(entries[1..], ValidateEntry(entries[0], b, category, o, cv), category, o, cv, i);
    }
  }

  lemma {:induction false} ValidateEntriesStores(entries: OMap<Json>, b: Board, category: string, o: Oracles,
                                                 cv: SetView, i: string, d: OMap<Json>)
    requires category == "schemas" || category == "models"
    requires TripleKeyed(entries)
    requires ColonFree("conversion", category, i) && PhaseKey("conversion", category, i) in Keys(entries)
    requires SameConversion(d, b.data)
    ensures GetPhaseData(ValidateEntries(entries, b, category, o, cv).data, "validation", category, i)
            == Promoted(Get(entries, PhaseKey("conversion", category, i)).value, Validate(category, o, i, cv, d),
                        GetPhaseData(b.data, "validation", category, i))
    decreases |entries|
  {
    var key := PhaseKey("conversion", category, i);
    var e := entries[0];
    var b' := ValidateEntry(e, b, category, o, cv);
    ValidateEntryEffect(e, b, category, o, cv);
    OnlyValidationSameConversion(b.data, b'.data);
    assert Keys(entries)[0] == e.key;
    assert Keys(entries[1..]) == Keys(entries)[1..];
    assert forall n :: 0 <= n < |entries[1..]| ==> entries[1..][n] == entries[n + 1];
    if e.key == key {
      ValidateEntryOwn(e, b, category, o, cv, i, d);
      assert key !in Keys(entries[1..]) by {
        forall n | 0 <= n < |entries[1..]|
          ensures Keys(entries[1..])[n] != key
        {
          assert entries[n + 1].key != entries[0].key;
        }
      }
      ValidateEntriesWithout(entries[1..], b', category, o, cv, i);
    } else {
      ValidateEntryOther(e, b, category, o, cv, i);
      assert DistinctKeys(entries[1..]);
      ValidateEntriesStores(entries[1..], b', category, o, cv, i, d);
    }
  }

  /** The phase promise for schemas on a three-part keyed blackboard: a
      converted schema becomes a validated schema, with its converted value,
      exactly when its validator reports no error and does not throw;
      otherwise its validation entry reads as before. */
  lemma ValidatedSchemas(b: Board, cv: SetView, o: Oracles, i: string)
    requires TripleKeyed(b.data)
    requires ColonFree("conversion", "schemas", i)
    requires PhaseKey("conversion", "schemas", i) in Keys(b.data)
    ensures GetPhaseData(Validated(b, cv, o).data, "validation", "schemas", i)
            == Promoted(GetPhaseData(b.data, "conversion", "schemas", i).value, ValidateSchema(o, i, cv, b.data),
                        GetPhaseData(b.data, "validation", "schemas", i))
  {
    var s := ValidateEntries(b.data, Board(b.data, []), "schemas", o, cv);
    ValidateEntriesStores(b.data, Board(b.data, []), "schemas", o, cv, i, b.data);
    PassLeavesOtherCategory(s.data, Board(s.data, []), "models", "schemas", o, cv, i);
  }

  /** The same for models, whose validator also sees the schemas the first
      pass promoted; it reads only conversion entries, so its verdict is the
      one on the blackboard the phase started from. */
  lemma ValidatedModels(b: Board, cv: SetView, o: Oracles, i: string)
    requires TripleKeyed(b.data)
    requires ColonFree("conversion", "models", i)
    requires PhaseKey("conversion", "models", i) in Keys(b.data)
    ensures GetPhaseData(Validated(b, cv, o).data, "validation", "models", i)
            == Promoted(GetPhaseData(b.data, "conversion", "models", i).value, ValidateModel(o, i, cv, b.data),
                        GetPhaseData(b.data, "validation", "models", i))
  {
    var s := ValidateEntries(b.data, Board(b.data, []), "schemas", o, cv);
    ValidateEntriesEffect(b.data, Board(b.data, []), "schemas", o, cv);
    OnlyValidationSameConversion(b.data, s.data);
    PhaseKeyPrefix("validation", "models", i);
    PhaseKeyPrefix("conversion", "models", i);
    assert GetPhaseData(s.data, "conversion", "models", i) == GetPhaseData(b.data, "conversion", "models", i);
    assert GetPhaseData(s.data, "validation", "models", i) == GetPhaseData(b.data, "validation", "models", i) by {
      PassLeavesOtherCategory(b.data, Board(b.data, []), "schemas", "models", o, cv, i);
    }
    ValidateEntriesStores(s.data, Board(s.data, []), "models", o, cv, i, b.data);
  }

  lemma CategoryKeysDiffer(category: string, id: string, other: string, i: string)
    requires category in ["schemas", "models"] && other in ["schemas", "models"] && category != other
    ensures PhaseKey("validation", category, id) != PhaseKey("validation", other, i)
  {
    assert PhaseKey("validation", category, id)[11] == category[0];
    assert PhaseKey("validation", other, i)[11] == other[0];
  }

  /** A pass writes no `validation` key of the other category. */
  lemma {:induction false} PassLeavesOtherCategory(entries: OMap<Json>, b: Board, category: string, other: string,
                                                   o: Oracles, cv: SetView, i: string)
    requires category in ["schemas", "models"] && other in ["schemas", "models"] && category != other
    ensures GetPhaseData(ValidateEntries(entries, b, category, o, cv).data, "validation", other, i)
            == GetPhaseData(b.data, "validation", other, i)
    decreases |entries|
  {
    if |entries| > 0 {
      var parts := SplitKey(entries[0].key);
      var b' := ValidateEntry(entries[0], b, category, o, cv);
      ValidateEntryCases(entries[0], b, category, o, cv);
      if b'.data != b.data {
        CategoryKeysDiffer(category, parts.resourceId, other, i);
      }
      PassLeavesOtherCategory(entries[1..], b', category, other, o, cv, i);
    }
  }
}
