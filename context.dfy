/** The blackboard every pipeline phase reads and writes: `context.data`, a
    map from `"<phase>:<type>:<id>"` to the value a phase produced, and
    `context.errors`, the error list shared by all phases. The timestamp stored
    beside each value is not modelled. */
module PipelineContexts {
  import opened Wrappers
  import opened Strings
  import opened OrderedMaps
  import opened JsonValues
  import opened ConfigSets
  import opened ConfigSetManagers

  datatype Severity = Error | Warning

  datatype ValidationError = ValidationError(
    filePath: string, line: int, column: int, endColumn: int, message: string, severity: Severity)

  /** The blackboard key of a `(phase, type, id)` triple. */
  function PhaseKey(phase: string, resourceType: string, resourceId: string): string
  {
    phase + ":" + resourceType + ":" + resourceId
  }

  datatype KeyParts = KeyParts(phase: string, resourceType: string, resourceId: string)

  /** `const [phase, type, resourceId] = key.split(':')` as the phases read
      their keys back. */
  function SplitKey(key: string): KeyParts
  {
    KeyParts(SplitAt(key, ':', 0), SplitAt(key, ':', 1), SplitAt(key, ':', 2))
  }

  predicate ColonFree(phase: string, resourceType: string, resourceId: string)
  {
    ':' !in phase && ':' !in resourceType && ':' !in resourceId
  }

  /** Reading a key back gives its triple when no part holds a colon. */
  lemma SplitKeyOfPhaseKey(phase: string, resourceType: string, resourceId: string)
    requires ColonFree(phase, resourceType, resourceId)
    ensures SplitKey(PhaseKey(phase, resourceType, resourceId)) == KeyParts(phase, resourceType, resourceId)
  {
    SplitThree(phase, resourceType, resourceId, ':');
  }

  /** Distinct colon-free triples have distinct keys. */
  lemma PhaseKeyInjective(p: string, t: string, i: string, p': string, t': string, i': string)
    requires ColonFree(p, t, i) && ColonFree(p', t', i')
    requires PhaseKey(p, t, i) == PhaseKey(p', t', i')
    ensures p == p' && t == t' && i == i'
  {
    SplitKeyOfPhaseKey(p, t, i);
    SplitKeyOfPhaseKey(p', t', i');
  }

  /** A witness that `PhaseKeyInjective` needs its colon-free requirement:
      with a colon inside a part, two different triples share one key. */
  lemma ColonsCollide()
    ensures PhaseKey("ingest:models", "a", "b") == PhaseKey("ingest", "models:a", "b")
  {
  }

  /** A key holding exactly three colon-separated parts. */
  predicate TripleKey(k: string)
  {
    SegmentCount(k, ':') == 3
  }

  lemma TripleKeyParts(k: string)
    requires TripleKey(k)
    ensures ColonFree(SplitKey(k).phase, SplitKey(k).resourceType, SplitKey(k).resourceId)
    ensures k == PhaseKey(SplitKey(k).phase, SplitKey(k).resourceType, SplitKey(k).resourceId)
  {
    var parts := Split(k, ':');
    assert parts[2..] == [parts[2]];
    assert Join(parts[1..], ':') == parts[1] + ":" + parts[2];
  }

  /** A key starts with its phase and a colon. */
  lemma PhaseKeyPrefix(phase: string, resourceType: string, resourceId: string)
    ensures StartsWith(PhaseKey(phase, resourceType, resourceId), phase + ":")
  {
    assert PhaseKey(phase, resourceType, resourceId) == (phase + ":") + (resourceType + ":" + resourceId);
  }

  /** `getPhaseData`: the stored value, `null` (here `None`) when the key is
      absent. Every stored entry is an object `{value, timestamp}`, so the
      falsy-entry case of the code never arises. */
  function GetPhaseData(data: OMap<Json>, phase: string, resourceType: string, resourceId: string): (r: Option<Json>)
    ensures r.Some? <==> PhaseKey(phase, resourceType, resourceId) in Keys(data)
  {
    Get(data, PhaseKey(phase, resourceType, resourceId))
  }

  /** The data after `setPhaseData`: the triple now reads back as `value`,
      every other key reads as before, and the key keeps its position when it
      was present or is appended when it was not. */
  function WithPhaseData(data: OMap<Json>, phase: string, resourceType: string, resourceId: string, value: Json)
    : (r: OMap<Json>)
    ensures GetPhaseData(r, phase, resourceType, resourceId) == Some(value)
    ensures forall k :: k != PhaseKey(phase, resourceType, resourceId) ==> Get(r, k) == Get(data, k)
    ensures PhaseKey(phase, resourceType, resourceId) in Keys(data) ==> Keys(r) == Keys(data)
    ensures PhaseKey(phase, resourceType, resourceId) !in Keys(data) ==>
              Keys(r) == Keys(data) + [PhaseKey(phase, resourceType, resourceId)]
  {
    Put(data, PhaseKey(phase, resourceType, resourceId), value)
  }

  /** A later `set` of the same triple overwrites the earlier one in place. */
  lemma SetOverwrites(data: OMap<Json>, phase: string, resourceType: string, resourceId: string, v1: Json, v2: Json)
    ensures var d2 := WithPhaseData(WithPhaseData(data, phase, resourceType, resourceId, v1), phase, resourceType, resourceId, v2);
      GetPhaseData(d2, phase, resourceType, resourceId) == Some(v2)
      && Keys(d2) == Keys(WithPhaseData(data, phase, resourceType, resourceId, v1))
  {
  }

  /** `set` of one colon-free triple leaves every other colon-free triple as
      it was. */
  lemma SetLeavesOtherTriples(data: OMap<Json>, p: string, t: string, i: string, value: Json,
                              p': string, t': string, i': string)
    requires ColonFree(p, t, i) && ColonFree(p', t', i')
    requires p != p' || t != t' || i != i'
    ensures GetPhaseData(WithPhaseData(data, p, t, i, value), p', t', i') == GetPhaseData(data, p', t', i')
  {
    if PhaseKey(p, t, i) == PhaseKey(p', t', i') {
      PhaseKeyInjective(p, t, i, p', t', i');
    }
  }

  /** The part of a context the phases change, as a value. */
  datatype Board = Board(data: OMap<Json>, errors: seq<ValidationError>)

  /** A pipeline context: the target model id, the config set it belongs to
      (a snapshot of its id-to-path indices, which no phase changes), the
      manager's registry of config sets (what `hcsManager.buildAbsFilePathById`
      consults), and the mutable blackboard. */
  class PipelineContext {
    const modelId: string
    const configSet: SetView
    const registry: seq<SetRoot>
    var data: OMap<Json>
    var errors: seq<ValidationError>

    /** The fresh context `runPipelineForModel` creates. */
    constructor(modelId: string, configSet: SetView, registry: seq<SetRoot>)
      ensures this.modelId == modelId && this.configSet == configSet && this.registry == registry
      ensures data == [] && errors == []
    {
      this.modelId := modelId;
      this.configSet := configSet;
      this.registry := registry;
      data := [];
      errors := [];
    }

    function Snapshot(): Board
      reads this
    {
      Board(data, errors)
    }

    /** `ContextUtils.setPhaseData(context, ...)`. */
    method SetPhaseData(phase: string, resourceType: string, resourceId: string, value: Json)
      modifies this
      ensures data == WithPhaseData(old(data), phase, resourceType, resourceId, value)
      ensures errors == old(errors)
    {
      data := WithPhaseData(data, phase, resourceType, resourceId, value);
    }

    /** `context.errors.push(...es)`. */
    method AddErrors(es: seq<ValidationError>)
      modifies this
      ensures errors == old(errors) + es
      ensures data == old(data)
    {
      errors := errors + es;
    }
  }

  /** An exception that escaped a phase, with the blackboard as it left it. */
  datatype Outcome = Outcome(board: Board, thrown: Option<string>)

  // ---------------------------------------------------------------------------
  // reading one phase's entries back
  // ---------------------------------------------------------------------------

  /** The loop the phases run over `context.data` to collect the entries of
      one phase and type into a `Map` by resource id, in blackboard order
      (`getEntitiesFromContext`, `getBuiltModels`). */
  function EntitiesFrom(entries: OMap<Json>, phase: string, category: string, acc: OMap<Json>): OMap<Json>
    decreases |entries|
  {
    if |entries| == 0 then acc
    else
      var parts := SplitKey(entries[0].key);
      var acc' := if parts.phase == phase && parts.resourceType == category
                  then Put(acc, parts.resourceId, entries[0].val) else acc;
      EntitiesFrom(entries[1..], phase, category, acc')
  }

  function Entities(data: OMap<Json>, phase: string, category: string): OMap<Json>
  {
    EntitiesFrom(data, phase, category, [])
  }

  method GetEntitiesFromContext(ctx: PipelineContext, phase: string, category: string) returns (entities: OMap<Json>)
    ensures entities == Entities(ctx.data, phase, category)
  {
    var entries := ctx.data;
    entities := [];
    var i := 0;
    assert entries[0..] == entries;
    while i < |entries|
      invariant 0 <= i <= |entries|
      invariant EntitiesFrom(entries[i..], phase, category, entities) == Entities(entries, phase, category)
    {
      var rest := entries[i..];
      assert rest[0] == entries[i] && rest[1..] == entries[i + 1..];
      var parts := SplitKey(entries[i].key);
      if parts.phase == phase && parts.resourceType == category {
        entities := Put(entities, parts.resourceId, entries[i].val);
      }
      i := i + 1;
    }
  }

  lemma {:induction false} EntitiesFromDistinct(entries: OMap<Json>, phase: string, category: string, acc: OMap<Json>)
    requires DistinctKeys(acc)
    ensures DistinctKeys(EntitiesFrom(entries, phase, category, acc))
    decreases |entries|
  {
    if |entries| > 0 {
      var parts := SplitKey(entries[0].key);
      PutKeepsDistinct(acc, parts.resourceId, entries[0].val);
      var acc' := if parts.phase == phase && parts.resourceType == category
                  then Put(acc, parts.resourceId, entries[0].val) else acc;
      EntitiesFromDistinct(entries[1..], phase, category, acc');
    }
  }

  /** The collected entities are keyed by distinct resource ids (a `Map`). */
  lemma EntitiesDistinct(data: OMap<Json>, phase: string, category: string)
    ensures DistinctKeys(Entities(data, phase, category))
  {
    EntitiesFromDistinct(data, phase, category, []);
  }

  /** Writing a key of another phase does not change what is collected. */
  lemma {:induction false} EntitiesFromPut(entries: OMap<Json>, phase: string, category: string, acc: OMap<Json>,
                                           k: string, v: Json)
    requires SplitKey(k).phase != phase
    ensures EntitiesFrom(Put(entries, k, v), phase, category, acc) == EntitiesFrom(entries, phase, category, acc)
    decreases |entries|
  {
    var p := Put(entries, k, v);
    if |entries| == 0 {
      assert p[1..] == [];
    } else if entries[0].key == k {
      assert p[0].key == k && p[1..] == entries[1..];
    } else {
      assert p[0] == entries[0] && p[1..] == Put(entries[1..], k, v);
      var parts := SplitKey(entries[0].key);
      var acc' := if parts.phase == phase && parts.resourceType == category
                  then Put(acc, parts.resourceId, entries[0].val) else acc;
      EntitiesFromPut(entries[1..], phase, category, acc', k, v);
    }
  }

  /** The loop the later phases run over `context.data` to collect every
      entry of one phase, of any type, into a `Map` by resource id; a later
      entry with the same id replaces the value but keeps the first position
      (`Map.set`). */
  function PhaseEntriesFrom(entries: OMap<Json>, phase: string, acc: OMap<Json>): OMap<Json>
    decreases |entries|
  {
    if |entries| == 0 then acc
    else
      var parts := SplitKey(entries[0].key);
      var acc' := if parts.phase == phase then Put(acc, parts.resourceId, entries[0].val) else acc;
      PhaseEntriesFrom(entries[1..], phase, acc')
  }

  function PhaseEntries(data: OMap<Json>, phase: string): OMap<Json>
  {
    PhaseEntriesFrom(data, phase, [])
  }

  /** Some entry of `phase` has resource id `id`. */
  ghost predicate HasEntry(data: OMap<Json>, phase: string, id: string)
  {
    exists i :: 0 <= i < |data| && SplitKey(data[i].key).phase == phase && SplitKey(data[i].key).resourceId == id
  }

  /** `v` is the value of some entry of `phase` with resource id `id`. */
  ghost predicate EntryValue(data: OMap<Json>, phase: string, id: string, v: Json)
  {
    exists i :: 0 <= i < |data| && SplitKey(data[i].key).phase == phase && SplitKey(data[i].key).resourceId == id
                && data[i].val == v
  }

  lemma {:induction false} PhaseEntriesFromMeaning(entries: OMap<Json>, phase: string, acc: OMap<Json>)
    ensures forall id :: id in Keys(PhaseEntriesFrom(entries, phase, acc)) <==> id in Keys(acc) || HasEntry(entries, phase, id)
    ensures forall id :: Get(PhaseEntriesFrom(entries, phase, acc), id).Some? ==>
              Get(PhaseEntriesFrom(entries, phase, acc), id) == Get(acc, id)
              || EntryValue(entries, phase, id, Get(PhaseEntriesFrom(entries, phase, acc), id).value)
    decreases |entries|
  {
    if |entries| > 0 {
      var parts := SplitKey(entries[0].key);
      var acc' := if parts.phase == phase then Put(acc, parts.resourceId, entries[0].val) else acc;
      PhaseEntriesFromMeaning(entries[1..], phase, acc');
      var r := PhaseEntriesFrom(entries, phase, acc);
      assert r == PhaseEntriesFrom(entries[1..], phase, acc');
      forall id
        ensures HasEntry(entries[1..], phase, id) ==> HasEntry(entries, phase, id)
        ensures HasEntry(entries, phase, id) ==> (parts.phase == phase && parts.resourceId == id) || HasEntry(entries[1..], phase, id)
      {
        if HasEntry(entries[1..], phase, id) {
          var i :| 0 <= i < |entries[1..]| && SplitKey(entries[1..][i].key).phase == phase
                   && SplitKey(entries[1..][i].key).resourceId == id;
          assert entries[1..][i] == entries[i + 1];
        }
        if HasEntry(entries, phase, id) {
          var i :| 0 <= i < |entries| && SplitKey(entries[i].key).phase == phase && SplitKey(entries[i].key).resourceId == id;
          if i > 0 {
            assert entries[1..][i - 1] == entries[i];
          }
        }
      }
      forall id, v | EntryValue(entries[1..], phase, id, v)
        ensures EntryValue(entries, phase, id, v)
      {
        var i :| 0 <= i < |entries[1..]| && SplitKey(entries[1..][i].key).phase == phase
                 && SplitKey(entries[1..][i].key).resourceId == id && entries[1..][i].val == v;
        assert entries[1..][i] == entries[i + 1];
      }
      if parts.phase == phase {
        assert EntryValue(entries, phase, parts.resourceId, entries[0].val);
      }
    }
  }

  /** The collected ids are exactly the resource ids of the phase's
      entries, and each value is the value of one of that id's entries. */
  lemma PhaseEntriesMeaning(data: OMap<Json>, phase: string)
    ensures forall id :: id in Keys(PhaseEntries(data, phase)) <==> HasEntry(data, phase, id)
    ensures forall id :: Get(PhaseEntries(data, phase), id).Some? ==>
              EntryValue(data, phase, id, Get(PhaseEntries(data, phase), id).value)
  {
    PhaseEntriesFromMeaning(data, phase, []);
  }

  method GetPhaseEntries(ctx: PipelineContext, phase: string) returns (entities: OMap<Json>)
    ensures entities == PhaseEntries(ctx.data, phase)
  {
    var entries := ctx.data;
    entities := [];
    var i := 0;
    assert entries[0..] == entries;
    while i < |entries|
      invariant 0 <= i <= |entries|
      invariant PhaseEntriesFrom(entries[i..], phase, entities) == PhaseEntries(entries, phase)
    {
      var rest := entries[i..];
      assert rest[0] == entries[i] && rest[1..] == entries[i + 1..];
      var parts := SplitKey(entries[i].key);
      if parts.phase == phase {
        entities := Put(entities, parts.resourceId, entries[i].val);
      }
      i := i + 1;
    }
  }

  lemma {:induction false} PhaseEntriesFromDistinct(entries: OMap<Json>, phase: string, acc: OMap<Json>)
    requires DistinctKeys(acc)
    ensures DistinctKeys(PhaseEntriesFrom(entries, phase, acc))
    decreases |entries|
  {
    if |entries| > 0 {
      var parts := SplitKey(entries[0].key);
      PutKeepsDistinct(acc, parts.resourceId, entries[0].val);
      var acc' := if parts.phase == phase then Put(acc, parts.resourceId, entries[0].val) else acc;
      PhaseEntriesFromDistinct(entries[1..], phase, acc');
    }
  }

  /** The collected entries are keyed by distinct resource ids (a `Map`). */
  lemma PhaseEntriesDistinct(data: OMap<Json>, phase: string)
    ensures DistinctKeys(PhaseEntries(data, phase))
  {
    PhaseEntriesFromDistinct(data, phase, []);
  }
}
