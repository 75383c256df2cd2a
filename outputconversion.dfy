/** The output-conversion phase (`DefaultOutputConversionStrategy`): every
    `versioning:` entry, by resource id, pretty-printed and stored as text
    under `output:<second segment of the id>:<id>`. */
module OutputConversion {
  import opened Wrappers
  import opened Strings
  import opened OrderedMaps
  import opened JsonValues
  import opened PipelineContexts
  import VersioningPhase

  /** The stores of the loop over the collected entries. */
  function StoreOutputs(entries: OMap<Json>, data: OMap<Json>, pretty: Json -> string): OMap<Json>
    decreases |entries|
  {
    if |entries| == 0 then data
    else
      var id := entries[0].key;
      var data' := WithPhaseData(data, "output", VersioningPhase.TypeSegment(id), id, Str(pretty(entries[0].val)));
      StoreOutputs(entries[1..], data', pretty)
  }

  /** `execute(context)`. `JSON.stringify` of a parsed value never throws, so
      neither does the phase. */
  function OutputConverted(b: Board, pretty: Json -> string): Board
  {
    Board(StoreOutputs(PhaseEntries(b.data, "versioning"), b.data, pretty), b.errors)
  }

  lemma {:induction false} StoreOutputsKeepsOthers(entries: OMap<Json>, data: OMap<Json>, pretty: Json -> string,
                                                   key: string)
    requires !StartsWith(key, "output:")
    ensures Get(StoreOutputs(entries, data, pretty), key) == Get(data, key)
    decreases |entries|
  {
    if |entries| > 0 {
      var id := entries[0].key;
      PhaseKeyPrefix("output", VersioningPhase.TypeSegment(id), id);
      var data' := WithPhaseData(data, "output", VersioningPhase.TypeSegment(id), id, Str(pretty(entries[0].val)));
      StoreOutputsKeepsOthers(entries[1..], data', pretty, key);
    }
  }

  /** The phase writes `output:` keys only and adds no error. */
  lemma OutputKeepsOthers(b: Board, pretty: Json -> string, key: string)
    requires !StartsWith(key, "output:")
    ensures OutputConverted(b, pretty).errors == b.errors
    ensures Get(OutputConverted(b, pretty).data, key) == Get(b.data, key)
  {
    StoreOutputsKeepsOthers(PhaseEntries(b.data, "versioning"), b.data, pretty, key);
  }

  lemma {:induction false} StoreOutputsStores(entries: OMap<Json>, data: OMap<Json>, pretty: Json -> string, i: nat)
    requires i < |entries|
    requires forall j :: 0 <= j < |entries| ==> ColonFree("output", VersioningPhase.TypeSegment(entries[j].key), entries[j].key)
    requires DistinctKeys(entries)
    ensures var id := entries[i].key;
      GetPhaseData(StoreOutputs(entries, data, pretty), "output", VersioningPhase.TypeSegment(id), id)
      == Some(Str(pretty(entries[i].val)))
    decreases |entries|
  {
    var id := entries[0].key;
    var data' := WithPhaseData(data, "output", VersioningPhase.TypeSegment(id), id, Str(pretty(entries[0].val)));
    var rest := entries[1..];
    assert forall j :: 0 <= j < |rest| ==> rest[j] == entries[j + 1];
    if i == 0 {
      StoreOutputsUntouched(rest, data', pretty, id);
    } else {
      StoreOutputsStores(rest, data', pretty, i - 1);
    }
  }

  lemma {:induction false} StoreOutputsUntouched(entries: OMap<Json>, data: OMap<Json>, pretty: Json -> string, id: string)
    requires forall j :: 0 <= j < |entries| ==> ColonFree("output", VersioningPhase.TypeSegment(entries[j].key), entries[j].key)
    requires ColonFree("output", VersioningPhase.TypeSegment(id), id)
    requires forall j :: 0 <= j < |entries| ==> entries[j].key != id
    ensures GetPhaseData(StoreOutputs(entries, data, pretty), "output", VersioningPhase.TypeSegment(id), id)
            == GetPhaseData(data, "output", VersioningPhase.TypeSegment(id), id)
    decreases |entries|
  {
    if |entries| > 0 {
      var k := entries[0].key;
      var data' := WithPhaseData(data, "output", VersioningPhase.TypeSegment(k), k, Str(pretty(entries[0].val)));
      SetLeavesOtherTriples(data, "output", VersioningPhase.TypeSegment(k), k, Str(pretty(entries[0].val)),
                            "output", VersioningPhase.TypeSegment(id), id);
      var rest := entries[1..];
      assert forall j :: 0 <= j < |rest| ==> rest[j] == entries[j + 1];
      StoreOutputsUntouched(rest, data', pretty, id);
    }
  }

  /** Each staged entry, by resource id, is stored once more as its printed
      text (the last staged value of an id wins), provided no id holds a
      colon. */
  lemma OutputStoresVersioned(b: Board, pretty: Json -> string, id: string)
    requires forall j :: 0 <= j < |PhaseEntries(b.data, "versioning")| ==>
               ':' !in PhaseEntries(b.data, "versioning")[j].key
    requires id in Keys(PhaseEntries(b.data, "versioning"))
    ensures GetPhaseData(OutputConverted(b, pretty).data, "output", VersioningPhase.TypeSegment(id), id)
            == Some(Str(pretty(Get(PhaseEntries(b.data, "versioning"), id).value)))
  {
    var entries := PhaseEntries(b.data, "versioning");
    PhaseEntriesDistinct(b.data, "versioning");
    forall j | 0 <= j < |entries|
      ensures ColonFree("output", VersioningPhase.TypeSegment(entries[j].key), entries[j].key)
    {
      SplitAtColonFree(entries[j].key);
    }
    var i :| 0 <= i < |entries| && entries[i].key == id;
    GetAtDistinct(entries, i);
    StoreOutputsStores(entries, b.data, pretty, i);
  }

  lemma SplitAtColonFree(id: string)
    requires ':' !in id
    ensures ':' !in VersioningPhase.TypeSegment(id)
  {
    if SegmentCount(id, '.') > 1 {
      SplitAtWithin(id, '.', 1, ':');
    }
  }

  /** `execute(context)`. */
  method ExecuteOutputConversion(ctx: PipelineContext, pretty: Json -> string)
    modifies ctx
    ensures ctx.Snapshot() == OutputConverted(old(ctx.Snapshot()), pretty)
  {
    var versionedEntries := GetPhaseEntries(ctx, "versioning");
    if |versionedEntries| == 0 {
      return;
    }
    ghost var goal := StoreOutputs(versionedEntries, ctx.data, pretty);
    var i := 0;
    assert versionedEntries[0..] == versionedEntries;
    while i < |versionedEntries|
      invariant 0 <= i <= |versionedEntries|
      invariant ctx.errors == old(ctx.errors)
      invariant StoreOutputs(versionedEntries[i..], ctx.data, pretty) == goal
    {
      ghost var rest := versionedEntries[i..];
      assert rest[0] == versionedEntries[i] && rest[1..] == versionedEntries[i + 1..];
      var id := versionedEntries[i].key;
      var serializedContent := pretty(versionedEntries[i].val);
      ctx.SetPhaseData("output", VersioningPhase.TypeSegment(id), id, Str(serializedContent));
      i := i + 1;
    }
  }
}
