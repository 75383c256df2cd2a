/** The legacy full build (`builders/buildAll.ts`): validate everything, build
    schemas, then models, then the instances derived from the models, and
    then, entity by entity, compare the built object with its latest version
    on disk, choose the version number, and write the versioned file and the
    unversioned file.

    The built objects live in a heap (`seq<Json>`, an `array<Json>` in the
    methods) addressed by handles, because the instance pass hands on the
    model's own object: a model and its instance are one object, and the
    versioning loop changes `$id` and `$version` on it in place.

    Two lines of the versioning loop are modelled twice, as written and
    corrected (`Variant`): the staged `$id` is built from the current,
    already suffixed `$id`, and the unversioned file is named after `$id`
    rather than after the file the entity came from. */
module LegacyBuild {
  import opened Wrappers
  import opened Strings
  import opened OrderedMaps
  import opened JsonValues
  import opened FileStores
  import opened Host
  import opened VersionRules
  import opened ResourceManagers
  import LegacyValidators
  import LegacyValidateAll
  import LegacyInstanceBuilder

  const ValidationFailed: string := "Build failed due to validation errors."

  function BuildTimeError(e: string): string
  {
    "Build failed due to build-time error: " + e
  }

  function InvalidRef(ref: string): string
  {
    "Invalid ref: " + ref
  }

  function ChangedAfterBuild(ref: string): string
  {
    "File " + ref + " has changed after build."
  }

  // ---------------------------------------------------------------------------
  // buildResources
  // ---------------------------------------------------------------------------

  /** `new SchemaBuilder(resourceManager).build(resource, filePath)`: the new
      path and a newly built object, or the exception's text. */
  type SchemaBuilder = (Json, string) -> Result<(string, Json), string>

  /** `builtResourcesByRef`: each reference names a handle into the heap. */
  datatype BuiltResources = BuiltResources(heap: seq<Json>, byRef: OMap<nat>)

  predicate HandlesIn(byRef: OMap<nat>, n: nat)
    decreases |byRef|
  {
    |byRef| == 0 || (byRef[0].val < n && HandlesIn(byRef[1..], n))
  }

  lemma {:induction false} PutHandle(byRef: OMap<nat>, ref: string, h: nat, n: nat)
    requires HandlesIn(byRef, n) && h < n
    ensures HandlesIn(Put(byRef, ref, h), n)
    decreases |byRef|
  {
    var r := Put(byRef, ref, h);
    if |byRef| == 0 {
      assert r[1..] == [];
    } else if byRef[0].key == ref {
      assert r[1..] == byRef[1..];
    } else {
      PutHandle(byRef[1..], ref, h, n);
      assert r[1..] == Put(byRef[1..], ref, h);
    }
  }

  lemma {:induction false} HandlesGrow(byRef: OMap<nat>, n: nat, m: nat)
    requires HandlesIn(byRef, n) && n <= m
    ensures HandlesIn(byRef, m)
    decreases |byRef|
  {
    if |byRef| > 0 {
      HandlesGrow(byRef[1..], n, m);
    }
  }

  /** The schema pass: every builder result becomes a new object under the
      path the builder returns; the first builder exception ends the pass. */
  function SchemaPass(sb: SchemaBuilder, entries: OMap<Json>, b: BuiltResources): (r: Result<BuiltResources, string>)
    ensures r.Failure? <==> exists i :: 0 <= i < |entries| && sb(entries[i].val, entries[i].key).Failure?
    ensures r.Success? ==> |r.value.heap| == |b.heap| + |entries| && r.value.heap[..|b.heap|] == b.heap
    decreases |entries|
  {
    if |entries| == 0 then Success(b)
    else
      match sb(entries[0].val, entries[0].key)
      case Failure(e) => Failure(e)
      case Success(built) =>
        var b' := BuiltResources(b.heap + [built.1], Put(b.byRef, built.0, |b.heap|));
        var r := SchemaPass(sb, entries[1..], b');
        assert forall i :: 1 <= i < |entries| ==> entries[1..][i - 1] == entries[i];
        if r.Success? then
          assert r.value.heap[..|b.heap|] == r.value.heap[..|b'.heap|][..|b.heap|];
          r
        else r
  }

  /** Every handle the schema pass hands out names an object of its heap. */
  lemma {:induction false} SchemaPassHandles(sb: SchemaBuilder, entries: OMap<Json>, b: BuiltResources)
    requires HandlesIn(b.byRef, |b.heap|) && SchemaPass(sb, entries, b).Success?
    ensures HandlesIn(SchemaPass(sb, entries, b).value.byRef, |SchemaPass(sb, entries, b).value.heap|)
    decreases |entries|
  {
    if |entries| > 0 {
      var built := sb(entries[0].val, entries[0].key).value;
      HandlesGrow(b.byRef, |b.heap|, |b.heap| + 1);
      PutHandle(b.byRef, built.0, |b.heap|, |b.heap| + 1);
      SchemaPassHandles(sb, entries[1..], BuiltResources(b.heap + [built.1], Put(b.byRef, built.0, |b.heap|)));
    }
  }

  /** The resources of a category, in order. */
  function Values(entries: OMap<Json>): (vs: seq<Json>)
    ensures |vs| == |entries| && forall i :: 0 <= i < |entries| ==> vs[i] == entries[i].val
  {
    seq(|entries|, i requires 0 <= i < |entries| => entries[i].val)
  }

  /** The model pass: `ModelBuilder` hands back each resource as it is, so the
      resource object itself joins the heap under its own reference. */
  function ModelPass(entries: OMap<Json>, b: BuiltResources): (r: BuiltResources)
    ensures |r.heap| == |b.heap| + |entries|
    decreases |entries|
  {
    if |entries| == 0 then b
    else ModelPass(entries[1..], BuiltResources(b.heap + [entries[0].val], Put(b.byRef, entries[0].key, |b.heap|)))
  }

  lemma {:induction false} ModelPassHandles(entries: OMap<Json>, b: BuiltResources)
    requires HandlesIn(b.byRef, |b.heap|)
    ensures HandlesIn(ModelPass(entries, b).byRef, |ModelPass(entries, b).heap|)
    decreases |entries|
  {
    if |entries| > 0 {
      HandlesGrow(b.byRef, |b.heap|, |b.heap| + 1);
      PutHandle(b.byRef, entries[0].key, |b.heap|, |b.heap| + 1);
      ModelPassHandles(entries[1..], BuiltResources(b.heap + [entries[0].val], Put(b.byRef, entries[0].key, |b.heap|)));
    }
  }

  /** The model pass appends the model resources themselves to the heap. */
  lemma {:induction false} ModelPassHeap(entries: OMap<Json>, b: BuiltResources)
    ensures ModelPass(entries, b).heap == b.heap + Values(entries)
    decreases |entries|
  {
    if |entries| == 0 {
      assert b.heap + Values(entries) == b.heap;
    } else {
      var b' := BuiltResources(b.heap + [entries[0].val], Put(b.byRef, entries[0].key, |b.heap|));
      ModelPassHeap(entries[1..], b');
      AppendValues(b.heap, entries);
    }
  }

  /** Appending the first value, then the others, appends all of them. */
  lemma AppendValues(heap: seq<Json>, entries: OMap<Json>)
    requires |entries| > 0
    ensures heap + [entries[0].val] + Values(entries[1..]) == heap + Values(entries)
  {
    var l, r := heap + [entries[0].val] + Values(entries[1..]), heap + Values(entries);
    forall i | 0 <= i < |l|
      ensures l[i] == r[i]
    {
      if i > |heap| {
        assert entries[1..][i - |heap| - 1] == entries[i - |heap|];
      }
    }
  }

  /** The instance builder as the build sees it: the new path and the built
      object, or the exception's text. */
  type InstanceBuilder = (Json, string) -> Result<(string, Json), string>

  /** `new InstanceBuilder(resourceManager).build(resource, filePath)`. */
  function InstanceBuilderOf(o: Oracles): InstanceBuilder
  {
    (j: Json, p: string) => LegacyInstanceBuilder.InstanceBuilt(o, j, p)
  }

  /** The instance pass over the models: the instance builder returns the
      model's object under the instance path, so the instance path names the
      handle the model pass gave that model (`next` for the first one). */
  function InstancePass(ib: InstanceBuilder, entries: OMap<Json>, next: nat, b: BuiltResources): (r: Result<BuiltResources, string>)
    ensures r.Success? ==> r.value.heap == b.heap
    decreases |entries|
  {
    if |entries| == 0 then Success(b)
    else
      match ib(entries[0].val, entries[0].key)
      case Failure(e) => Failure(e)
      case Success(built) => InstancePass(ib, entries[1..], next + 1, BuiltResources(b.heap, Put(b.byRef, built.0, next)))
  }

  /** The instance pass fails exactly when the builder fails on some model. */
  lemma {:induction false} InstancePassFailure(ib: InstanceBuilder, entries: OMap<Json>, next: nat, b: BuiltResources)
    ensures InstancePass(ib, entries, next, b).Failure? <==>
      exists i :: 0 <= i < |entries| && ib(entries[i].val, entries[i].key).Failure?
    decreases |entries|
  {
    if |entries| > 0 {
      var rest := entries[1..];
      match ib(entries[0].val, entries[0].key)
      case Failure(_) =>
      case Success(built) =>
        InstancePassFailure(ib, rest, next + 1, BuiltResources(b.heap, Put(b.byRef, built.0, next)));
        assert forall i :: 1 <= i < |entries| ==> rest[i - 1] == entries[i];
    }
  }

  lemma {:induction false} InstancePassHandles(ib: InstanceBuilder, entries: OMap<Json>, next: nat, b: BuiltResources)
    requires HandlesIn(b.byRef, |b.heap|) && next + |entries| <= |b.heap| && InstancePass(ib, entries, next, b).Success?
    ensures HandlesIn(InstancePass(ib, entries, next, b).value.byRef, |b.heap|)
    decreases |entries|
  {
    if |entries| > 0 {
      var built := ib(entries[0].val, entries[0].key).value;
      PutHandle(b.byRef, built.0, next, |b.heap|);
      InstancePassHandles(ib, entries[1..], next + 1, BuiltResources(b.heap, Put(b.byRef, built.0, next)));
    }
  }

  /** `buildResources`: schemas, then models, then instances from the models;
      an exception of any builder becomes the build-time error. */
  function BuiltResourcesOf(sb: SchemaBuilder, ib: InstanceBuilder, res: Resources): (r: Result<BuiltResources, string>)
    ensures r.Success? ==> HandlesIn(r.value.byRef, |r.value.heap|)
    ensures r.Success? ==> |r.value.heap| == |res.schemas| + |res.models|
    ensures r.Failure? ==> exists e :: r.error == BuildTimeError(e)
    ensures r.Failure? <==>
      (exists i :: 0 <= i < |res.schemas| && sb(res.schemas[i].val, res.schemas[i].key).Failure?)
      || (exists i :: 0 <= i < |res.models| && ib(res.models[i].val, res.models[i].key).Failure?)
  {
    var empty := BuiltResources([], []);
    match SchemaPass(sb, res.schemas, empty)
    case Failure(e) => Failure(BuildTimeError(e))
    case Success(schemas) =>
      SchemaPassHandles(sb, res.schemas, empty);
      var models := ModelPass(res.models, schemas);
      ModelPassHandles(res.models, schemas);
      InstancePassFailure(ib, res.models, |schemas.heap|, models);
      match InstancePass(ib, res.models, |schemas.heap|, models)
      case Failure(e) => Failure(BuildTimeError(e))
      case Success(built) =>
        InstancePassHandles(ib, res.models, |schemas.heap|, models);
        Success(built)
  }

  /** A registry reference of a model, `../models/<file>`. */
  predicate ModelRef(ref: string)
  {
    |ref| > 10 && ref[..10] == "../models/" && LegacyInstanceBuilder.PlainName(ref[10..])
  }

  /** The instance reference of a model reference `../models/<file>`. */
  function InstanceRef(ref: string): string
    requires |ref| >= 10
  {
    "../instances/" + ref[10..]
  }

  lemma ModelRefInstance(ref: string)
    requires ModelRef(ref)
    ensures LegacyInstanceBuilder.InstancePath(ref) == InstanceRef(ref)
  {
    assert ref == "../models/" + ref[10..];
    LegacyInstanceBuilder.ModelRefBecomesInstanceRef(ref[10..]);
  }

  /** The model pass gives the `i`-th model the `i`-th new handle, unless a
      later model has the same reference. */
  lemma {:induction false} ModelPassHandle(entries: OMap<Json>, b: BuiltResources, i: nat)
    requires i < |entries| && forall j :: i < j < |entries| ==> entries[j].key != entries[i].key
    ensures Get(ModelPass(entries, b).byRef, entries[i].key) == Some(|b.heap| + i)
  {
    var next := |b.heap|;
    ModelPassNaming(entries, b);
    KeysHandle(entries, next, b.byRef, i);
  }

  /** Registering the keys of `entries` gives the `i`-th key handle `next + i`. */
  lemma KeysHandle(entries: OMap<Json>, next: nat, byRef: OMap<nat>, i: nat)
    requires i < |entries| && forall j :: i < j < |entries| ==> entries[j].key != entries[i].key
    ensures Get(Naming(Keys(entries), next, byRef), entries[i].key) == Some(next + i)
  {
    KeysNoLaterRepeat(entries, i);
    NamingHandle(Keys(entries), next, byRef, i, entries[i].key);
  }

  lemma KeysNoLaterRepeat(entries: OMap<Json>, i: nat)
    requires i < |entries| && forall j :: i < j < |entries| ==> entries[j].key != entries[i].key
    ensures i < |Keys(entries)| && Keys(entries)[i] == entries[i].key
    ensures forall j :: i < j < |Keys(entries)| ==> Keys(entries)[j] != entries[i].key
  {
  }

  /** The model pass registers the model references in order, from the first
      new handle up. */
  lemma {:induction false} ModelPassNaming(entries: OMap<Json>, b: BuiltResources)
    ensures ModelPass(entries, b).byRef == Naming(Keys(entries), |b.heap|, b.byRef)
    decreases |entries|
  {
    if |entries| > 0 {
      var b' := ModelPassUnfold(entries, b);
      ModelPassNaming(entries[1..], b');
      assert Keys(entries)[1..] == Keys(entries[1..]);
    }
  }

  /** One step of the model pass. */
  lemma ModelPassUnfold(entries: OMap<Json>, b: BuiltResources) returns (b': BuiltResources)
    requires 0 < |entries|
    ensures b'.heap == b.heap + [entries[0].val] && b'.byRef == Put(b.byRef, entries[0].key, |b.heap|)
    ensures ModelPass(entries, b) == ModelPass(entries[1..], b')
  {
    b' := BuiltResources(b.heap + [entries[0].val], Put(b.byRef, entries[0].key, |b.heap|));
  }

  lemma DistinctTail<V>(m: OMap<V>)
    requires DistinctKeys(m) && |m| > 0
    ensures DistinctKeys(m[1..])
  {
    var rest := m[1..];
    forall j, k | 0 <= j < k < |rest|
      ensures rest[j].key != rest[k].key
    {
      assert rest[j] == m[j + 1] && rest[k] == m[k + 1];
    }
  }

  predicate AllModelRefs(entries: OMap<Json>)
  {
    forall j :: 0 <= j < |entries| ==> ModelRef(entries[j].key)
  }

  /** What the instance builder promises for model references: a success
      names `../instances/<file>`. */
  predicate RenamesModels(ib: InstanceBuilder, entries: OMap<Json>)
  {
    forall j :: 0 <= j < |entries| ==>
      ModelRef(entries[j].key)
      && (ib(entries[j].val, entries[j].key).Success? ==>
            ib(entries[j].val, entries[j].key).value.0 == InstanceRef(entries[j].key))
  }

  lemma BuilderRenamesModels(o: Oracles, entries: OMap<Json>)
    requires AllModelRefs(entries)
    ensures RenamesModels(InstanceBuilderOf(o), entries)
  {
    forall j | 0 <= j < |entries|
      ensures InstanceBuilderOf(o)(entries[j].val, entries[j].key).Success? ==>
        InstanceBuilderOf(o)(entries[j].val, entries[j].key).value.0 == InstanceRef(entries[j].key)
    {
      ModelRefInstance(entries[j].key);
    }
  }

  lemma RenamesTail(ib: InstanceBuilder, entries: OMap<Json>)
    requires RenamesModels(ib, entries) && |entries| > 0
    ensures RenamesModels(ib, entries[1..])
  {
    var rest := entries[1..];
    forall j | 0 <= j < |rest|
      ensures ModelRef(rest[j].key)
      ensures ib(rest[j].val, rest[j].key).Success? ==> ib(rest[j].val, rest[j].key).value.0 == InstanceRef(rest[j].key)
    {
      assert rest[j] == entries[j + 1];
    }
  }

  /** The name each successful build gives a model, as a total function:
      only its value on model references matters. */
  function InstanceName(ref: string): string
  {
    if |ref| >= 10 then InstanceRef(ref) else ref
  }

  /** The instance names of the models, in order. */
  function Renamed(entries: OMap<Json>): (r: seq<string>)
    ensures |r| == |entries| && forall j :: 0 <= j < |entries| ==> r[j] == InstanceName(entries[j].key)
    decreases |entries|
  {
    if |entries| == 0 then [] else [InstanceName(entries[0].key)] + Renamed(entries[1..])
  }

  /** Registering `names` one after another under handles `next`, `next + 1`, … */
  function Naming(names: seq<string>, next: nat, byRef: OMap<nat>): OMap<nat>
    decreases |names|
  {
    if |names| == 0 then byRef else Naming(names[1..], next + 1, Put(byRef, names[0], next))
  }

  /** A successful instance pass over model references registers exactly
      their instance names. */
  lemma {:induction false} InstancePassNaming(ib: InstanceBuilder, entries: OMap<Json>, next: nat, b: BuiltResources)
    requires RenamesModels(ib, entries) && InstancePass(ib, entries, next, b).Success?
    ensures InstancePass(ib, entries, next, b).value == BuiltResources(b.heap, Naming(Renamed(entries), next, b.byRef))
    decreases |entries|
  {
    if |entries| > 0 {
      var b' := InstancePassStep(ib, entries, next, b);
      RenamesTail(ib, entries);
      InstancePassNaming(ib, entries[1..], next + 1, b');
      assert Renamed(entries)[1..] == Renamed(entries[1..]);
    }
  }

  /** A successful pass is the pass over the tail after the first model. */
  lemma InstancePassStep(ib: InstanceBuilder, entries: OMap<Json>, next: nat, b: BuiltResources)
    returns (b': BuiltResources)
    requires 0 < |entries| && InstancePass(ib, entries, next, b).Success?
    ensures ib(entries[0].val, entries[0].key).Success?
    ensures b' == BuiltResources(b.heap, Put(b.byRef, ib(entries[0].val, entries[0].key).value.0, next))
    ensures InstancePass(ib, entries, next, b) == InstancePass(ib, entries[1..], next + 1, b')
  {
    b' := BuiltResources(b.heap, Put(b.byRef, ib(entries[0].val, entries[0].key).value.0, next));
  }

  /** A name registered by none of the steps keeps its handle. */
  lemma {:induction false} NamingKeeps(names: seq<string>, next: nat, byRef: OMap<nat>, key: string)
    requires forall j :: 0 <= j < |names| ==> names[j] != key
    ensures Get(Naming(names, next, byRef), key) == Get(byRef, key)
    decreases |names|
  {
    if |names| > 0 {
      NamingKeeps(names[1..], next + 1, Put(byRef, names[0], next), key);
    }
  }

  /** Registering `a + b` is registering `a`, then `b` from the next free
      handle. Handles are passed as plain numbers `next` and `after` rather
      than as sums, which keeps the unfolding of `Naming` small. */
  lemma {:induction false} NamingSplit(a: seq<string>, b: seq<string>, next: nat, after: nat, byRef: OMap<nat>)
    requires after == next + |a|
    ensures Naming(a + b, next, byRef) == Naming(b, after, Naming(a, next, byRef))
    decreases |a|
  {
    if |a| == 0 {
      assert a + b == b;
    } else {
      var m := Put(byRef, a[0], next);
      assert (a + b)[0] == a[0] && (a + b)[1..] == a[1..] + b;
      NamingSplit(a[1..], b, next + 1, after, m);
    }
  }

  lemma NamingOne(key: string, next: nat, byRef: OMap<nat>)
    ensures Naming([key], next, byRef) == Put(byRef, key, next)
  {
    assert [key][1..] == [];
  }

  /** The last name registered takes the last handle. */
  lemma NamingLast(front: seq<string>, key: string, next: nat, at: nat, byRef: OMap<nat>)
    requires at == next + |front|
    ensures Naming(front + [key], next, byRef) == Put(Naming(front, next, byRef), key, at)
  {
    NamingSplit(front, [key], next, at, byRef);
    NamingOne(key, at, Naming(front, next, byRef));
  }

  /** Registering `a + [key] + b`: after `a` and `key`, `key` holds handle
      `at`, and `b` is registered on top of that. */
  lemma NamingAt(names: seq<string>, a: seq<string>, key: string, b: seq<string>, next: nat, at: nat, after: nat, byRef: OMap<nat>)
    returns (p: OMap<nat>)
    requires names == a + [key] + b && at == next + |a| && after == at + 1
    ensures Get(p, key) == Some(at)
    ensures Naming(names, next, byRef) == Naming(b, after, p)
  {
    NamingSplit(a + [key], b, next, after, byRef);
    NamingLast(a, key, next, at, byRef);
    p := Naming(a + [key], next, byRef);
  }

  lemma Around<T>(s: seq<T>, i: nat)
    requires i < |s|
    ensures s == s[..i] + [s[i]] + s[i + 1..]
  {
  }

  /** The same, cut at position `i`. */
  lemma NamingAround(names: seq<string>, next: nat, byRef: OMap<nat>, i: nat, at: nat, after: nat) returns (p: OMap<nat>)
    requires i < |names| && at == next + i && after == at + 1
    ensures Get(p, names[i]) == Some(at)
    ensures Naming(names, next, byRef) == Naming(names[i + 1..], after, p)
  {
    Around(names, i);
    p := NamingAt(names, names[..i], names[i], names[i + 1..], next, at, after, byRef);
  }

  lemma LaterAvoid(names: seq<string>, i: nat, key: string, rest: seq<string>)
    requires i < |names| && rest == names[i + 1..]
    requires forall j :: i < j < |names| ==> names[j] != key
    ensures forall j :: 0 <= j < |rest| ==> rest[j] != key
  {
    forall j | 0 <= j < |rest|
      ensures rest[j] != key
    {
      assert rest[j] == names[i + 1 + j];
    }
  }

  /** The `i`-th name gets handle `next + i`, unless a later name repeats it. */
  lemma NamingHandle(names: seq<string>, next: nat, byRef: OMap<nat>, i: nat, key: string)
    requires i < |names| && names[i] == key
    requires forall j :: i < j < |names| ==> names[j] != key
    ensures Get(Naming(names, next, byRef), key) == Some(next + i)
  {
    var at := next + i;
    var after := at + 1;
    var p := NamingAround(names, next, byRef, i, at, after);
    var rest := names[i + 1..];
    LaterAvoid(names, i, key, rest);
    NamingKeeps(rest, after, p, key);
  }

  lemma InstancePassKeepsModels(ib: InstanceBuilder, entries: OMap<Json>, next: nat, b: BuiltResources, key: string)
    requires RenamesModels(ib, entries) && |key| >= 10 && key[..10] == "../models/"
    requires InstancePass(ib, entries, next, b).Success?
    ensures Get(InstancePass(ib, entries, next, b).value.byRef, key) == Get(b.byRef, key)
  {
    var names := Renamed(entries);
    forall j | 0 <= j < |names|
      ensures names[j] != key
    {
      DistinctFromInstancePath(entries[j].key, key);
    }
    InstancePassNaming(ib, entries, next, b);
    NamingKeeps(names, next, b.byRef, key);
  }

  lemma DistinctFromInstancePath(ref: string, key: string)
    requires |ref| >= 10 && |key| >= 10 && key[..10] == "../models/"
    ensures InstanceRef(ref) != key
  {
    assert InstanceRef(ref)[..10] == "../instanc";
  }

  lemma InstanceNamesDiffer(a: string, b: string)
    requires ModelRef(a) && ModelRef(b) && a != b
    ensures InstanceRef(a) != InstanceRef(b)
  {
    assert a == a[..10] + a[10..] && b == b[..10] + b[10..];
    assert InstanceRef(a)[13..] == a[10..];
    assert InstanceRef(b)[13..] == b[10..];
  }

  /** `key` and `other` name one and the same object of the heap, `val`. */
  predicate SharesObject(b: BuiltResources, key: string, other: string, val: Json)
  {
    exists h: nat | h < |b.heap| :: SharesHandle(b, key, other, val, h)
  }

  /** `key` and `other` are both registered under handle `h`, which holds `val`. */
  predicate SharesHandle(b: BuiltResources, key: string, other: string, val: Json, h: nat)
  {
    Get(b.byRef, key) == Some(h) && Get(b.byRef, other) == Some(h) && h < |b.heap| && b.heap[h] == val
  }

  /** "Instances are built by the model": after a successful build, a model
      reference and its instance reference name one and the same object, the
      model resource itself. */
  lemma ModelAndInstanceShareObject(sb: SchemaBuilder, ib: InstanceBuilder, res: Resources, i: nat)
    requires BuiltResourcesOf(sb, ib, res).Success?
    requires RenamesModels(ib, res.models) && DistinctKeys(res.models) && i < |res.models|
    ensures SharesObject(BuiltResourcesOf(sb, ib, res).value, res.models[i].key, InstanceRef(res.models[i].key), res.models[i].val)
  {
    var schemas := BuiltFromPasses(sb, ib, res);
    DistinctLater(res.models, i);
    var next, pass := PassNames(res.models, schemas, i);
    PassSharesObject(ib, res.models, next, pass, i);
    assert SharesHandle(BuiltResourcesOf(sb, ib, res).value, res.models[i].key, InstanceRef(res.models[i].key),
                        res.models[i].val, next + i);
  }

  /** A successful build is the instance pass after the model pass, on top
      of the schemas. */
  lemma BuiltFromPasses(sb: SchemaBuilder, ib: InstanceBuilder, res: Resources) returns (schemas: BuiltResources)
    requires BuiltResourcesOf(sb, ib, res).Success?
    ensures InstancePass(ib, res.models, |schemas.heap|, ModelPass(res.models, schemas)).Success?
    ensures BuiltResourcesOf(sb, ib, res).value == InstancePass(ib, res.models, |schemas.heap|, ModelPass(res.models, schemas)).value
  {
    schemas := SchemaPass(sb, res.schemas, BuiltResources([], [])).value;
  }

  lemma DistinctLater<V>(m: OMap<V>, i: nat)
    requires DistinctKeys(m) && i < |m|
    ensures forall j :: i < j < |m| ==> m[j].key != m[i].key
  {
  }

  /** The model pass `pass` on top of `b` registers the `i`-th model under
      the `i`-th new handle, `next + i`, whose object is the model itself. */
  lemma PassNames(models: OMap<Json>, b: BuiltResources, i: nat) returns (next: nat, pass: BuiltResources)
    requires i < |models| && forall j :: i < j < |models| ==> models[j].key != models[i].key
    ensures next == |b.heap| && pass == ModelPass(models, b)
    ensures Get(pass.byRef, models[i].key) == Some(next + i)
    ensures next + i < |pass.heap| && pass.heap[next + i] == models[i].val
  {
    next, pass := |b.heap|, ModelPass(models, b);
    ModelPassNaming(models, b);
    KeysHandle(models, next, b.byRef, i);
    ModelPassHeap(models, b);
    HeapAt(b.heap, models, next, i);
  }

  lemma HeapAt(heap: seq<Json>, models: OMap<Json>, next: nat, i: nat)
    requires next == |heap| && i < |models|
    ensures next + i < |heap + Values(models)| && (heap + Values(models))[next + i] == models[i].val
  {
  }

  /** An instance pass over `models` on top of `b`, where the `i`-th model's
      reference already names its own object under handle `next + i`, gives
      its instance reference that same handle. */
  lemma PassSharesObject(ib: InstanceBuilder, models: OMap<Json>, next: nat, b: BuiltResources, i: nat)
    requires InstancePass(ib, models, next, b).Success?
    requires RenamesModels(ib, models) && i < |models|
    requires forall j :: i < j < |models| ==> models[j].key != models[i].key
    requires Get(b.byRef, models[i].key) == Some(next + i)
    requires next + i < |b.heap| && b.heap[next + i] == models[i].val
    ensures SharesHandle(InstancePass(ib, models, next, b).value,
                         models[i].key, InstanceRef(models[i].key), models[i].val, next + i)
  {
    var key := models[i].key;
    assert key[..10] == "../models/";
    InstancePassKeepsModels(ib, models, next, b, key);
    PassesNameInstance(ib, models, next, b, i);
  }

  /** A successful instance pass registers the `i`-th model's instance name
      under handle `next + i`. */
  lemma PassesNameInstance(ib: InstanceBuilder, models: OMap<Json>, next: nat, b: BuiltResources, i: nat)
    requires InstancePass(ib, models, next, b).Success?
    requires RenamesModels(ib, models) && i < |models|
    requires forall j :: i < j < |models| ==> models[j].key != models[i].key
    ensures Get(InstancePass(ib, models, next, b).value.byRef, InstanceRef(models[i].key)) == Some(next + i)
  {
    assert AllModelRefs(models);
    InstancePassNaming(ib, models, next, b);
    RenamedHandle(models, next, b.byRef, i);
  }

  /** Registering the instance names of distinct model references gives the
      `i`-th one handle `next + i`. */
  lemma RenamedHandle(models: OMap<Json>, next: nat, byRef: OMap<nat>, i: nat)
    requires AllModelRefs(models) && i < |models|
    requires forall j :: i < j < |models| ==> models[j].key != models[i].key
    ensures Get(Naming(Renamed(models), next, byRef), InstanceRef(models[i].key)) == Some(next + i)
  {
    RenamedDistinct(models, i);
    NamingHandle(Renamed(models), next, byRef, i, InstanceRef(models[i].key));
  }

  /** Distinct model references have distinct instance names. */
  lemma RenamedDistinct(models: OMap<Json>, i: nat)
    requires AllModelRefs(models) && i < |models|
    requires forall j :: i < j < |models| ==> models[j].key != models[i].key
    ensures i < |Renamed(models)| && Renamed(models)[i] == InstanceRef(models[i].key)
    ensures forall j :: i < j < |Renamed(models)| ==> Renamed(models)[j] != Renamed(models)[i]
  {
    var names := Renamed(models);
    forall j | i < j < |names|
      ensures names[j] != names[i]
    {
      InstanceNamesDiffer(models[j].key, models[i].key);
    }
  }

  /** The same for the instance builder itself, whose instance path of a
      model reference `../models/<file>` is `../instances/<file>`. */
  lemma ModelAndInstanceShareBuiltObject(o: Oracles, sb: SchemaBuilder, res: Resources, i: nat)
    requires BuiltResourcesOf(sb, InstanceBuilderOf(o), res).Success?
    requires AllModelRefs(res.models) && DistinctKeys(res.models) && i < |res.models|
    ensures SharesObject(BuiltResourcesOf(sb, InstanceBuilderOf(o), res).value, res.models[i].key,
                         LegacyInstanceBuilder.InstancePath(res.models[i].key), res.models[i].val)
  {
    BuilderRenamesModels(o, res.models);
    ModelAndInstanceShareObject(sb, InstanceBuilderOf(o), res, i);
    ModelRefInstance(res.models[i].key);
  }

  // ---------------------------------------------------------------------------
  // processVersioningAndPersistence: one entity
  // ---------------------------------------------------------------------------

  /** The two readings of the lines that differ between the code as written
      and the evidently intended behaviour. */
  datatype Variant = AsWritten | Corrected

  /** The names read off a reference `../<dir>/<file>`. */
  datatype Names = Names(configDir: string, configFilename: string, stem: string, versionedFolder: string)

  function Clamp(i: int, n: nat): (r: nat)
    ensures r <= n
  {
    if i < 0 then 0 else if i > n then n else i
  }

  /** `s.substring(start, end)`: both bounds are clamped to the string and
      swapped when out of order. */
  function Substring(s: string, start: int, end: int): string
  {
    var a := Clamp(start, |s|);
    var b := Clamp(end, |s|);
    if a <= b then s[a..b] else s[b..a]
  }

  /** Lines 116-128: `configDir`, `configFilename`,
      `filenameWithoutExtension` (the first `.json` removed) and
      `versionedFolder`. */
  function NamesOf(ref: string): Names
  {
    var slash := LastIndexOfChar(ref, '/');
    var configDir := Substring(ref, 3, slash);
    var configFilename := ref[slash + 1..];
    var stem := ReplaceFirst(configFilename, ".json", "");
    Names(configDir, configFilename, stem, configDir + "/" + stem)
  }

  /** For the references the registry makes, the names are the category
      folder and the file the resource was loaded from. */
  lemma NamesOfRef(category: string, file: string)
    requires '/' !in file
    ensures NamesOf(RefOf(category, file)).configDir == category
    ensures NamesOf(RefOf(category, file)).configFilename == file
  {
    var ref := RefOf(category, file);
    assert ref == "../" + category + "/" + file;
    var slash := 3 + |category|;
    assert ref[slash] == '/';
    forall k | slash < k < |ref|
      ensures ref[k] != '/'
    {
      assert ref[k] == file[k - slash - 1];
    }
    assert LastIndexOfChar(ref, '/') == slash;
    assert ref[3..slash] == category;
    assert ref[slash + 1..] == file;
  }

  /** The absolute config folder and version folder. */
  datatype Places = Places(absConfigDir: string, absVersionedFolder: string)

  function Locate(paths: PathAdapter, root: string, n: Names): Result<Places, string>
  {
    match paths.fullFromRelative(root, n.configDir)
    case Failure(e) => Failure(e)
    case Success(absConfigDir) =>
      match paths.fullFromRelative(root, n.versionedFolder)
      case Failure(e) => Failure(e)
      case Success(absVersionedFolder) => Success(Places(absConfigDir, absVersionedFolder))
  }

  function Suffix(id: string, k: nat): string
  {
    id + "." + NatToString(k)
  }

  /** `obj.$id = id; obj.$version = k`. */
  function WithVersion(j: Json, id: string, k: nat): Json
  {
    SetProp(SetProp(j, "$id", Str(id)), "$version", Num(k))
  }

  /** The object compared with version `latest` on disk (lines 156-157):
      `$id` suffixed with `.<latest>` and `$version` set to `latest`. */
  function Current(obj: Json, latest: nat): Json
  {
    if latest == 0 then obj else WithVersion(obj, Suffix(TemplateOf(Prop(obj, "$id")), latest), latest)
  }

  /** Version `latest` read back: its absolute path and parsed content. */
  function ReadLatest(o: Oracles, paths: PathAdapter, root: string, n: Names, latest: nat, fs: FileStore)
    : Result<(string, Json), string>
  {
    match paths.fullFromRelative(root, n.versionedFolder + "/" + VersionFileName(n.stem, latest))
    case Failure(e) => Failure(e)
    case Success(latestPath) =>
      match ReadFile(fs, latestPath)
      case Failure(e) => Failure(e)
      case Success(text) =>
        match o.parse(text)
        case Failure(e) => Failure(e)
        case Success(onDisk) => Success((latestPath, onDisk))
  }

  /** The object after line 157 and the facts the decision reads, or the
      exception reading the latest version raised. */
  datatype Assessment = Assessment(current: Json, state: Result<DiskState, string>)

  function Assess(o: Oracles, paths: PathAdapter, root: string, n: Names, obj: Json, latest: nat, fs: FileStore)
    : (a: Assessment)
    ensures a.current == Current(obj, latest)
    ensures a.state.Success? ==> a.state.value.latest == latest
    ensures latest == 0 ==> a.state == Success(DiskState(0, false, false))
  {
    if latest == 0 then Assessment(obj, Success(DiskState(0, false, false)))
    else
      var current := Current(obj, latest);
      match ReadLatest(o, paths, root, n, latest, fs)
      case Failure(e) => Assessment(current, Failure(e))
      case Success(read) =>
        Assessment(current, Success(DiskState(latest, CompareJson(current, read.1), o.changedInGit(read.0))))
  }

  /** The `$id` a staged version gets: as written, built from the current
      `$id`, which already carries `.<latest>` when a version exists
      (lines 220 and 234); corrected, built from the original `$id`. */
  function StagedId(v: Variant, current: Json, originalId: Option<Json>, k: nat): string
  {
    match v
    case AsWritten => Suffix(TemplateOf(Prop(current, "$id")), k)
    case Corrected => Suffix(TemplateOf(originalId), k)
  }

  function Staged(v: Variant, current: Json, originalId: Option<Json>, k: nat): Json
  {
    WithVersion(current, StagedId(v, current, originalId, k), k)
  }

  /** `builtObj.$id = originalId`. An absent id is restored by removing the
      key. The code leaves the key in its slot with the value `undefined`.
      `JSON.stringify` drops it, but a later stamping of the same object
      fills the old slot, where the model appends the key. */
  function RestoreId(j: Json, originalId: Option<Json>): Json
  {
    if originalId.Some? then SetProp(j, "$id", originalId.value) else DeleteProp(j, "$id")
  }

  function VersionedPath(n: Names, places: Places, k: nat): string
  {
    places.absVersionedFolder + "/" + VersionFileName(n.stem, k)
  }

  /** The unversioned file: as written, named after the restored `$id`
      (lines 214, 230 and 244); corrected, the entity's own file. */
  function UnversionedPath(v: Variant, n: Names, places: Places, originalId: Option<Json>): string
  {
    match v
    case AsWritten => places.absConfigDir + "/" + TemplateOf(originalId)
    case Corrected => places.absConfigDir + "/" + n.configFilename
  }

  /** What the loop leaves: the heap, the disk and the exception, if any. */
  datatype Persisted = Persisted(heap: seq<Json>, fs: FileStore, thrown: Option<string>)

  /** Writing version `k` (lines 198-245): the version folder is created when
      no version exists, then the version and the unversioned file are
      written. An exception leaves what was done before it. */
  function StageVersion(v: Variant, o: Oracles, n: Names, places: Places, originalId: Option<Json>,
                        makeFolder: bool, k: nat, h: nat, heap: seq<Json>, fs: FileStore): (r: Persisted)
    requires h < |heap|
    ensures |r.heap| == |heap| && forall i :: 0 <= i < |heap| && i != h ==> r.heap[i] == heap[i]
    ensures var staged := Staged(v, heap[h], originalId, k);
      r.thrown.None? ==>
        r.heap[h] == RestoreId(staged, originalId)
        && r.fs.files == fs.files[VersionedPath(n, places, k) := o.pretty(staged)][UnversionedPath(v, n, places, originalId) := o.pretty(r.heap[h])]
  {
    var made := if makeFolder then MakeDirectories(fs, places.absVersionedFolder) else Success(fs);
    if made.Failure? then Persisted(heap, fs, Some(made.error))
    else WriteStaged(v, o, n, places, originalId, k, h, heap, made.value)
  }

  /** Lines 215-245: the staged object is written as version `k`, its `$id`
      is restored and the object is written as the unversioned file. */
  function WriteStaged(v: Variant, o: Oracles, n: Names, places: Places, originalId: Option<Json>,
                       k: nat, h: nat, heap: seq<Json>, fs: FileStore): (r: Persisted)
    requires h < |heap|
    ensures |r.heap| == |heap| && forall i :: 0 <= i < |heap| && i != h ==> r.heap[i] == heap[i]
    ensures var staged := Staged(v, heap[h], originalId, k);
      r.thrown.None? ==>
        r.heap[h] == RestoreId(staged, originalId)
        && r.fs.files == fs.files[VersionedPath(n, places, k) := o.pretty(staged)][UnversionedPath(v, n, places, originalId) := o.pretty(r.heap[h])]
  {
    var staged := Staged(v, heap[h], originalId, k);
    match WriteFile(fs, VersionedPath(n, places, k), o.pretty(staged))
    case Failure(e) => Persisted(heap[h := staged], fs, Some(e))
    case Success(written) =>
      var restored := RestoreId(staged, originalId);
      match WriteFile(written, UnversionedPath(v, n, places, originalId), o.pretty(restored))
      case Failure(e) => Persisted(heap[h := restored], written, Some(e))
      case Success(done) => Persisted(heap[h := restored], done, None)
  }

  /** One pass of the loop body (lines 108-249) for the object with handle
      `h` under `ref`. */
  function PersistOne(v: Variant, o: Oracles, paths: PathAdapter, root: string, failOnFileChanges: bool,
                      ref: string, h: nat, heap: seq<Json>, fs: FileStore): (r: Persisted)
    requires h < |heap|
    ensures |r.heap| == |heap| && forall i :: 0 <= i < |heap| && i != h ==> r.heap[i] == heap[i]
    ensures !StartsWith(ref, "../") ==> r == Persisted(heap, fs, Some(InvalidRef(ref)))
    ensures failOnFileChanges ==> r.fs == fs
  {
    if !StartsWith(ref, "../") then Persisted(heap, fs, Some(InvalidRef(ref)))
    else if heap[h].Null? then Persisted(heap, fs, Some(LegacyValidators.NullIdRead))
    else
      var originalId := Prop(heap[h], "$id");
      var n := NamesOf(ref);
      match Locate(paths, root, n)
      case Failure(e) => Persisted(heap, fs, Some(e))
      case Success(places) =>
        match LatestVersionOnDisk(fs, places.absVersionedFolder)
        case Failure(e) => Persisted(heap, fs, Some(e))
        case Success(latest) =>
          var a := Assess(o, paths, root, n, heap[h], latest, fs);
          var heap' := heap[h := a.current];
          match a.state
          case Failure(e) => Persisted(heap', fs, Some(e))
          case Success(d) =>
            match Decide(d)
            case Keep => Persisted(heap', fs, None)
            case Stage(k) =>
              if failOnFileChanges then Persisted(heap', fs, Some(ChangedAfterBuild(ref)))
              else StageVersion(v, o, n, places, originalId, latest == 0, k, h, heap', fs)
  }

  /** The decision table as the loop applies it: content equal to the latest
      version writes nothing; with `failOnFileChanges` any other outcome
      throws before a write; otherwise version `Decide(d).version` is written
      with the staged object and the unversioned file with the restored one,
      and nothing else on disk changes. */
  lemma PersistOneFollowsTable(v: Variant, o: Oracles, paths: PathAdapter, root: string, failOnFileChanges: bool,
                               ref: string, h: nat, heap: seq<Json>, fs: FileStore, places: Places, latest: nat)
    requires h < |heap| && StartsWith(ref, "../") && !heap[h].Null?
    requires Locate(paths, root, NamesOf(ref)) == Success(places)
    requires LatestVersionOnDisk(fs, places.absVersionedFolder) == Success(latest)
    requires Assess(o, paths, root, NamesOf(ref), heap[h], latest, fs).state.Success?
    ensures var n := NamesOf(ref);
      var id := Prop(heap[h], "$id");
      var d := Assess(o, paths, root, n, heap[h], latest, fs).state.value;
      var current := Current(heap[h], latest);
      var r := PersistOne(v, o, paths, root, failOnFileChanges, ref, h, heap, fs);
      (Decide(d).Keep? ==> r == Persisted(heap[h := current], fs, None))
      && (Decide(d).Stage? && failOnFileChanges ==> r == Persisted(heap[h := current], fs, Some(ChangedAfterBuild(ref))))
      && (Decide(d).Stage? && !failOnFileChanges && r.thrown.None? ==>
            var staged := Staged(v, current, id, Decide(d).version);
            r.heap[h] == RestoreId(staged, id)
            && r.fs.files == fs.files[VersionedPath(n, places, Decide(d).version) := o.pretty(staged)]
                                     [UnversionedPath(v, n, places, id) := o.pretty(r.heap[h])])
  {
  }

  /** With a version folder that is missing, version 1 is written, and the
      folder is made first. */
  lemma FirstBuildWritesVersionOne(v: Variant, o: Oracles, paths: PathAdapter, root: string,
                                    ref: string, h: nat, heap: seq<Json>, fs: FileStore, places: Places)
    requires h < |heap| && StartsWith(ref, "../") && heap[h].Obj?
    requires Locate(paths, root, NamesOf(ref)) == Success(places)
    requires !Exists(fs, places.absVersionedFolder)
    ensures var r := PersistOne(v, o, paths, root, false, ref, h, heap, fs);
      var id := Prop(heap[h], "$id");
      r.thrown.None? ==>
        r.fs.files == fs.files[VersionedPath(NamesOf(ref), places, 1) := o.pretty(Staged(v, heap[h], id, 1))]
                              [UnversionedPath(v, NamesOf(ref), places, id) := o.pretty(r.heap[h])]
        && Prop(r.heap[h], "$version") == Some(Num(1))
  {
    var id := Prop(heap[h], "$id");
    assert LatestVersionOnDisk(fs, places.absVersionedFolder) == Success(0);
    var a := Assess(o, paths, root, NamesOf(ref), heap[h], 0, fs);
    assert a.state == Success(DiskState(0, false, false));
    assert Decide(DiskState(0, false, false)) == Stage(1);
    PersistOneFollowsTable(v, o, paths, root, false, ref, h, heap, fs, places, 0);
    var staged := Staged(v, heap[h], id, 1);
    WithVersionProps(heap[h], StagedId(v, heap[h], id, 1), 1);
    assert Prop(staged, "$version") == Some(Num(1));
    assert "$id" != "$version";
    assert Prop(RestoreId(staged, id), "$version") == Some(Num(1));
  }

  // ---------------------------------------------------------------------------
  // the two findings
  // ---------------------------------------------------------------------------

  /** Assigning a key twice keeps the second value in the first place. */
  lemma {:induction false} PutPut<V>(m: OMap<V>, k: string, a: V, b: V)
    ensures Put(Put(m, k, a), k, b) == Put(m, k, b)
    decreases |m|
  {
    if |m| > 0 && m[0].key != k {
      PutPut(m[1..], k, a, b);
    }
  }

  /** Assigning a present key commutes with assigning another key. */
  lemma {:induction false} PutSwap<V>(m: OMap<V>, k1: string, a: V, k2: string, b: V)
    requires k1 != k2 && k1 in Keys(m)
    ensures Put(Put(m, k2, b), k1, a) == Put(Put(m, k1, a), k2, b)
    decreases |m|
  {
    assert Keys(m)[0] == m[0].key;
    if m[0].key != k1 {
      assert Keys(m[1..]) == Keys(m)[1..];
      if m[0].key == k2 {
        PutPut(m[1..], k1, a, a);
      } else {
        PutSwap(m[1..], k1, a, k2, b);
      }
    }
  }

  /** Suffixing twice is suffixing once with the second id and version. */
  lemma WithVersionTwice(obj: Json, x: string, l: nat, y: string, k: nat)
    requires obj.Obj?
    ensures WithVersion(WithVersion(obj, x, l), y, k) == WithVersion(obj, y, k)
  {
    var m1 := Put(obj.fields, "$id", Str(x));
    var m2 := Put(m1, "$version", Num(l));
    PutSwap(m1, "$id", Str(y), "$version", Num(l));
    PutPut(obj.fields, "$id", Str(x), Str(y));
    PutPut(Put(obj.fields, "$id", Str(y)), "$version", Num(l), Num(k));
  }

  lemma WithVersionWellFormed(obj: Json, id: string, k: nat)
    requires obj.Obj? && WellFormed(obj)
    ensures WellFormed(WithVersion(obj, id, k))
  {
    var m1 := Put(obj.fields, "$id", Str(id));
    PutKeepsDistinct(obj.fields, "$id", Str(id));
    PutEntries(obj.fields, "$id", Str(id));
    var m2 := Put(m1, "$version", Num(k));
    PutKeepsDistinct(m1, "$version", Num(k));
    PutEntries(m1, "$version", Num(k));
    assert forall e | e in m2 :: WellFormed(e.val);
  }

  /** Corrected, a version staged from an object is exactly what the next
      build compares with it: the rebuilt object suffixed with the version
      now on disk. So a rebuild without changes finds the content equal. */
  lemma CorrectedStagingIsStable(obj: Json, latest: nat, k: nat)
    requires obj.Obj? && WellFormed(obj) && k > 0
    ensures Staged(Corrected, Current(obj, latest), Prop(obj, "$id"), k) == Current(obj, k)
    ensures CompareJson(Current(obj, k), Staged(Corrected, Current(obj, latest), Prop(obj, "$id"), k))
  {
    var id := Suffix(TemplateOf(Prop(obj, "$id")), k);
    if latest > 0 {
      WithVersionTwice(obj, Suffix(TemplateOf(Prop(obj, "$id")), latest), latest, id, k);
    }
    WithVersionWellFormed(obj, id, k);
    CompareReflexive(Current(obj, k));
  }

  /** With the corrected staging, a rebuild of an unchanged entity whose
      latest version was written by a build (and reads back as written)
      keeps it: nothing is written and nothing is thrown. */
  lemma CorrectedRebuildKeeps(o: Oracles, paths: PathAdapter, root: string, failOnFileChanges: bool,
                              ref: string, h: nat, heap: seq<Json>, fs: FileStore, places: Places,
                              previous: nat, k: nat, latestPath: string)
    requires h < |heap| && StartsWith(ref, "../") && heap[h].Obj? && WellFormed(heap[h]) && k > 0
    requires Locate(paths, root, NamesOf(ref)) == Success(places)
    requires LatestVersionOnDisk(fs, places.absVersionedFolder) == Success(k)
    requires ReadLatest(o, paths, root, NamesOf(ref), k, fs) ==
             Success((latestPath, Staged(Corrected, Current(heap[h], previous), Prop(heap[h], "$id"), k)))
    ensures var r := PersistOne(Corrected, o, paths, root, failOnFileChanges, ref, h, heap, fs);
      r.fs == fs && r.thrown.None?
  {
    CorrectedStagingIsStable(heap[h], previous, k);
    var d := Assess(o, paths, root, NamesOf(ref), heap[h], k, fs).state.value;
    assert d.sameAsLatest;
    assert Decide(d) == Keep;
    PersistOneFollowsTable(Corrected, o, paths, root, failOnFileChanges, ref, h, heap, fs, places, k);
  }

  /** `WithVersion` on an object sets both properties. */
  lemma WithVersionProps(j: Json, id: string, k: nat)
    requires j.Obj?
    ensures WithVersion(j, id, k).Obj?
    ensures Prop(WithVersion(j, id, k), "$id") == Some(Str(id))
    ensures Prop(WithVersion(j, id, k), "$version") == Some(Num(k))
  {
    assert "$id" != "$version";
  }

  const Sample: Json := Obj([Entry("$id", Str("cs.schemas.s"))])

  /** Objects differ when some property of the first has no equal
      counterpart in the second. */
  lemma FieldMismatchDiffers(a: Json, b: Json, i: nat)
    requires a.Obj? && b.Obj? && i < |a.fields|
    requires Get(b.fields, a.fields[i].key).Some? ==> !CompareJson(a.fields[i].val, Get(b.fields, a.fields[i].key).value)
    ensures !CompareJson(a, b)
  {
    MembersSmaller(a);
    CompareFieldsMeaning(a.fields, b.fields, Size(a));
  }

  /** The sample object compared with version `k`: its `$id` is the first
      property, suffixed once. */
  lemma SampleCurrent(k: nat)
    requires k > 0
    ensures Current(Sample, k).Obj? && |Current(Sample, k).fields| > 0
    ensures Current(Sample, k).fields[0] == Entry("$id", Str(Suffix("cs.schemas.s", k)))
  {
    var m := Put(Sample.fields, "$id", Str(Suffix("cs.schemas.s", k)));
    assert Prop(Sample, "$id") == Some(Str("cs.schemas.s"));
    assert m[0] == Entry("$id", Str(Suffix("cs.schemas.s", k)));
    assert Current(Sample, k).fields == Put(m, "$version", Num(k));
  }

  /** As written, a version added on top of version 1 carries the id
      `cs.schemas.s.1.2`, while the next build compares the object suffixed
      `cs.schemas.s.2` with it: an unchanged entity counts as changed on
      every build after its second version. */
  lemma AsWrittenStagingDrifts()
    ensures StagedId(AsWritten, Current(Sample, 1), Prop(Sample, "$id"), 2) == "cs.schemas.s.1.2"
    ensures !CompareJson(Current(Sample, 2), Staged(AsWritten, Current(Sample, 1), Prop(Sample, "$id"), 2))
  {
    var s := "cs.schemas.s";
    SampleCurrent(1);
    SampleCurrent(2);
    var c1 := Current(Sample, 1);
    assert Prop(c1, "$id") == Some(Str(Suffix(s, 1)));
    assert NatToString(1) == "1" && NatToString(2) == "2";
    var id12 := Suffix(Suffix(s, 1), 2);
    assert id12 == "cs.schemas.s.1.2";
    WithVersionProps(c1, id12, 2);
    assert |Suffix(s, 2)| != |id12|;
    FieldMismatchDiffers(Current(Sample, 2), Staged(AsWritten, c1, Prop(Sample, "$id"), 2), 0);
  }

  /** As written, the unversioned file of `../schemas/s.json` with id
      `cs.schemas.s` is written as `cs.schemas.s` in the schema folder, not as
      `s.json`; corrected, it is the file the entity was loaded from. */
  lemma AsWrittenUnversionedName(places: Places)
    ensures var n := NamesOf(RefOf("schemas", "s.json"));
      UnversionedPath(AsWritten, n, places, Prop(Sample, "$id")) == places.absConfigDir + "/" + "cs.schemas.s"
      && UnversionedPath(Corrected, n, places, Prop(Sample, "$id")) == places.absConfigDir + "/" + "s.json"
  {
    assert Sample.fields[0].key == "$id";
    assert TemplateOf(Prop(Sample, "$id")) == "cs.schemas.s";
    NamesOfRef("schemas", "s.json");
  }

  /** Corrected, the unversioned file of any resource the registry loaded
      from `<category>/<file>` is that same file, whatever its `$id`. */
  lemma CorrectedUnversionedIsLoadedFile(category: string, file: string, places: Places, id: Option<Json>)
    requires '/' !in file
    ensures UnversionedPath(Corrected, NamesOf(RefOf(category, file)), places, id) == places.absConfigDir + "/" + file
  {
    NamesOfRef(category, file);
  }

  // ---------------------------------------------------------------------------
  // processVersioningAndPersistence: the loop
  // ---------------------------------------------------------------------------

  /** The loop over `builtResourcesByRef` in insertion order, up to the first
      exception. */
  function PersistAll(v: Variant, o: Oracles, paths: PathAdapter, root: string, failOnFileChanges: bool,
                      entries: OMap<nat>, heap: seq<Json>, fs: FileStore): (r: Persisted)
    requires HandlesIn(entries, |heap|)
    ensures |r.heap| == |heap|
    ensures failOnFileChanges ==> r.fs == fs
    ensures (forall i :: 0 <= i < |entries| ==> !StartsWith(entries[i].key, "../")) && |entries| > 0 ==>
      r == Persisted(heap, fs, Some(InvalidRef(entries[0].key)))
    decreases |entries|
  {
    if |entries| == 0 then Persisted(heap, fs, None)
    else
      var p := PersistOne(v, o, paths, root, failOnFileChanges, entries[0].key, entries[0].val, heap, fs);
      if p.thrown.Some? then p
      else
        PersistAll(v, o, paths, root, failOnFileChanges, entries[1..], p.heap, p.fs)
  }

  /** One turn of `PersistAll`, at position `i` of the entries. */
  lemma PersistAllStep(v: Variant, o: Oracles, paths: PathAdapter, root: string, failOnFileChanges: bool,
                      entries: OMap<nat>, i: nat, heap: seq<Json>, fs: FileStore)
    requires i < |entries| && HandlesIn(entries[i..], |heap|)
    ensures entries[i].val < |heap| && HandlesIn(entries[i + 1..], |heap|)
    ensures var p := PersistOne(v, o, paths, root, failOnFileChanges, entries[i].key, entries[i].val, heap, fs);
            PersistAll(v, o, paths, root, failOnFileChanges, entries[i..], heap, fs) ==
            if p.thrown.Some? then p else PersistAll(v, o, paths, root, failOnFileChanges, entries[i + 1..], p.heap, p.fs)
  {
    assert entries[i..][0] == entries[i] && entries[i..][1..] == entries[i + 1..];
  }

  /** `processVersioningAndPersistence` on the live heap and disk; `AsWritten`
      is the code, `Corrected` the two fixes of the versioning loop. */
  method ProcessVersioningAndPersistence(v: Variant, o: Oracles, paths: PathAdapter, root: string, failOnFileChanges: bool,
                                         built: OMap<nat>, heap: array<Json>, disk: FileSystem)
    returns (thrown: Option<string>)
    requires HandlesIn(built, heap.Length)
    modifies heap, disk
    ensures Persisted(heap[..], disk.store, thrown) ==
            PersistAll(v, o, paths, root, failOnFileChanges, built, old(heap[..]), old(disk.store))
  {
    ghost var goal := PersistAll(v, o, paths, root, failOnFileChanges, built, heap[..], disk.store);
    var i := 0;
    assert built[0..] == built;
    while i < |built|
      invariant 0 <= i <= |built|
      invariant HandlesIn(built[i..], heap.Length)
      invariant PersistAll(v, o, paths, root, failOnFileChanges, built[i..], heap[..], disk.store) == goal
    {
      thrown := PersistTurn(v, o, paths, root, failOnFileChanges, built, i, heap, disk);
      if thrown.Some? {
        return;
      }
      i := i + 1;
    }
    thrown := None;
  }

  /** One turn of the loop, at position `i` of the entries: a throw ends the
      loop with the loop's own outcome, otherwise the rest of the loop is
      what remains to do. */
  method PersistTurn(v: Variant, o: Oracles, paths: PathAdapter, root: string, failOnFileChanges: bool,
                     built: OMap<nat>, i: nat, heap: array<Json>, disk: FileSystem)
    returns (thrown: Option<string>)
    requires i < |built| && HandlesIn(built[i..], heap.Length)
    modifies heap, disk
    ensures HandlesIn(built[i + 1..], heap.Length)
    ensures thrown.Some? ==>
              Persisted(heap[..], disk.store, thrown) ==
              PersistAll(v, o, paths, root, failOnFileChanges, built[i..], old(heap[..]), old(disk.store))
    ensures thrown.None? ==>
              PersistAll(v, o, paths, root, failOnFileChanges, built[i + 1..], heap[..], disk.store) ==
              PersistAll(v, o, paths, root, failOnFileChanges, built[i..], old(heap[..]), old(disk.store))
  {
    PersistAllStep(v, o, paths, root, failOnFileChanges, built, i, heap[..], disk.store);
    thrown := PersistEntry(v, o, paths, root, failOnFileChanges, built[i].key, built[i].val, heap, disk);
  }

  /** The loop body on the live heap and disk, with the flags of the code. */
  method PersistEntry(v: Variant, o: Oracles, paths: PathAdapter, root: string, failOnFileChanges: bool,
                      ref: string, h: nat, heap: array<Json>, disk: FileSystem)
    returns (thrown: Option<string>)
    requires h < heap.Length
    modifies heap, disk
    ensures Persisted(heap[..], disk.store, thrown) ==
            PersistOne(v, o, paths, root, failOnFileChanges, ref, h, old(heap[..]), old(disk.store))
  {
    if !StartsWith(ref, "../") {
      return Some(InvalidRef(ref));
    }
    var builtObj := heap[h];
    if builtObj.Null? {
      return Some(LegacyValidators.NullIdRead);
    }
    var originalId := Prop(builtObj, "$id");
    var names := NamesOf(ref);
    var located := Locate(paths, root, names);
    if located.Failure? {
      return Some(located.error);
    }
    var places := located.value;
    var latestVersion := LatestVersionOnDisk(disk.store, places.absVersionedFolder);
    if latestVersion.Failure? {
      return Some(latestVersion.error);
    }
    var latest := latestVersion.value;
    ghost var a := Assess(o, paths, root, names, builtObj, latest, disk.store);
    var buildChangedFile := false;
    var versionedFileExists := false;
    var isVersionFileChangedFromGit := false;
    if latest == 0 {
      buildChangedFile := true;
    } else {
      versionedFileExists := true;
      heap[h] := Current(builtObj, latest);
      var read := ReadLatest(o, paths, root, names, latest, disk.store);
      if read.Failure? {
        return Some(read.error);
      }
      if CompareJson(heap[h], read.value.1) {
        return None;
      }
      buildChangedFile := true;
      isVersionFileChangedFromGit := o.changedInGit(read.value.0);
    }
    assert heap[..] == old(heap[..])[h := a.current];
    assert a.state == Success(DiskState(latest, false, isVersionFileChangedFromGit));
    if buildChangedFile && failOnFileChanges {
      return Some(ChangedAfterBuild(ref));
    }
    var newVersion := if !versionedFileExists then 1 else if isVersionFileChangedFromGit then latest else latest + 1;
    assert Decide(a.state.value) == Stage(newVersion);
    thrown := WriteVersion(v, o, names, places, originalId, !versionedFileExists, newVersion, h, heap, disk);
  }

  /** Lines 198-245 on the live heap and disk. */
  method WriteVersion(v: Variant, o: Oracles, names: Names, places: Places, originalId: Option<Json>,
                      makeFolder: bool, k: nat, h: nat, heap: array<Json>, disk: FileSystem)
    returns (thrown: Option<string>)
    requires h < heap.Length
    modifies heap, disk
    ensures Persisted(heap[..], disk.store, thrown) ==
            StageVersion(v, o, names, places, originalId, makeFolder, k, h, old(heap[..]), old(disk.store))
  {
    if makeFolder {
      var created := disk.CreateDirectory(places.absVersionedFolder);
      if created.Failure? {
        return Some(created.error);
      }
    }
    thrown := WriteStagedVersion(v, o, names, places, originalId, k, h, heap, disk);
  }

  /** Lines 215-245 on the live heap and disk. */
  method WriteStagedVersion(v: Variant, o: Oracles, names: Names, places: Places, originalId: Option<Json>,
                            k: nat, h: nat, heap: array<Json>, disk: FileSystem)
    returns (thrown: Option<string>)
    requires h < heap.Length
    modifies heap, disk
    ensures Persisted(heap[..], disk.store, thrown) ==
            WriteStaged(v, o, names, places, originalId, k, h, old(heap[..]), old(disk.store))
  {
    ghost var staged := Staged(v, heap[h], originalId, k);
    ghost var restored := RestoreId(staged, originalId);
    heap[h] := Staged(v, heap[h], originalId, k);
    assert heap[..] == old(heap[..])[h := staged];
    var versioned := disk.Write(VersionedPath(names, places, k), o.pretty(heap[h]));
    if versioned.Failure? {
      return Some(versioned.error);
    }
    heap[h] := RestoreId(heap[h], originalId);
    assert heap[..] == old(heap[..])[h := restored];
    var unversioned := disk.Write(UnversionedPath(v, names, places, originalId), o.pretty(heap[h]));
    if unversioned.Failure? {
      return Some(unversioned.error);
    }
    return None;
  }

  // ---------------------------------------------------------------------------
  // buildAll
  // ---------------------------------------------------------------------------

  datatype Outcome = Outcome(fs: FileStore, thrown: Option<string>)

  /** `buildAll(hcsManager, failOnFileChanges)` over the registry `byRef` and
      the disk `fs`. */
  function BuildAllOutcome(v: Variant, o: Oracles, sb: SchemaBuilder, vs: LegacyValidateAll.OtherValidators,
                           paths: PathAdapter, root: string, byRef: OMap<Json>, fs: FileStore,
                           failOnFileChanges: bool): (r: Outcome)
    ensures !LegacyValidateAll.ValidationOf(o, vs, paths, root, byRef).success ==> r == Outcome(fs, Some(ValidationFailed))
    ensures BuiltResourcesOf(sb, InstanceBuilderOf(o), Categorized(byRef)).Failure? ==> r.fs == fs && r.thrown.Some?
    ensures failOnFileChanges ==> r.fs == fs
  {
    if !LegacyValidateAll.ValidationOf(o, vs, paths, root, byRef).success then Outcome(fs, Some(ValidationFailed))
    else BuiltOutcome(v, o, sb, paths, root, byRef, fs, failOnFileChanges)
  }

  /** What follows a successful validation (lines 26-30): the build, then
      the versioning and persistence of what was built. */
  function BuiltOutcome(v: Variant, o: Oracles, sb: SchemaBuilder, paths: PathAdapter, root: string,
                        byRef: OMap<Json>, fs: FileStore, failOnFileChanges: bool): (r: Outcome)
    ensures BuiltResourcesOf(sb, InstanceBuilderOf(o), Categorized(byRef)).Failure? ==> r.fs == fs && r.thrown.Some?
    ensures failOnFileChanges ==> r.fs == fs
  {
    match BuiltResourcesOf(sb, InstanceBuilderOf(o), Categorized(byRef))
    case Failure(e) => Outcome(fs, Some(e))
    case Success(b) =>
      var p := PersistAll(v, o, paths, root, failOnFileChanges, b.byRef, b.heap, fs);
      Outcome(p.fs, p.thrown)
  }

  /** `buildResources(resourceManager)`. */
  method BuildResources(o: Oracles, sb: SchemaBuilder, rm: ResourceManager) returns (r: Result<BuiltResources, string>)
    ensures r == BuiltResourcesOf(sb, InstanceBuilderOf(o), Categorized(rm.resourcesByRef))
  {
    var resources := rm.GetResources();
    var schemas := BuildSchemas(sb, resources.schemas);
    if schemas.Failure? {
      return Failure(BuildTimeError(schemas.error));
    }
    var models := BuildModels(resources.models, schemas.value);
    var instances := BuildInstances(InstanceBuilderOf(o), resources.models, |schemas.value.heap|, models);
    if instances.Failure? {
      return Failure(BuildTimeError(instances.error));
    }
    return instances;
  }

  method BuildSchemas(sb: SchemaBuilder, entries: OMap<Json>) returns (r: Result<BuiltResources, string>)
    ensures r == SchemaPass(sb, entries, BuiltResources([], []))
  {
    var heap: seq<Json> := [];
    var byRef: OMap<nat> := [];
    ghost var goal := SchemaPass(sb, entries, BuiltResources(heap, byRef));
    var i := 0;
    assert entries[0..] == entries;
    while i < |entries|
      invariant 0 <= i <= |entries|
      invariant SchemaPass(sb, entries[i..], BuiltResources(heap, byRef)) == goal
    {
      ghost var rest := entries[i..];
      assert rest[0] == entries[i] && rest[1..] == entries[i + 1..];
      var built := sb(entries[i].val, entries[i].key);
      if built.Failure? {
        return Failure(built.error);
      }
      byRef := Put(byRef, built.value.0, |heap|);
      heap := heap + [built.value.1];
      i := i + 1;
    }
    return Success(BuiltResources(heap, byRef));
  }

  method BuildModels(entries: OMap<Json>, b: BuiltResources) returns (r: BuiltResources)
    ensures r == ModelPass(entries, b)
  {
    var heap := b.heap;
    var byRef := b.byRef;
    ghost var goal := ModelPass(entries, b);
    var i := 0;
    assert entries[0..] == entries;
    while i < |entries|
      invariant 0 <= i <= |entries|
      invariant ModelPass(entries[i..], BuiltResources(heap, byRef)) == goal
    {
      ghost var rest := entries[i..];
      assert rest[0] == entries[i] && rest[1..] == entries[i + 1..];
      byRef := Put(byRef, entries[i].key, |heap|);
      heap := heap + [entries[i].val];
      i := i + 1;
    }
    return BuiltResources(heap, byRef);
  }

  /** The instance loop of `buildResources`, with the builder as a
      parameter; `BuildResources` passes `InstanceBuilderOf(o)`, which
      `LegacyInstanceBuilder.Build` computes. */
  method BuildInstances(ib: InstanceBuilder, entries: OMap<Json>, next: nat, b: BuiltResources)
    returns (r: Result<BuiltResources, string>)
    ensures r == InstancePass(ib, entries, next, b)
  {
    var cur := b;
    ghost var goal := InstancePass(ib, entries, next, b);
    var i, h := 0, next;
    assert entries[0..] == entries;
    while i < |entries|
      invariant 0 <= i <= |entries| && h == next + i
      invariant InstancePass(ib, entries[i..], h, cur) == goal
    {
      var turn := InstanceTurn(ib, entries, i, h, h + 1, cur);
      if turn.Failure? {
        return turn;
      }
      cur := turn.value;
      i, h := i + 1, h + 1;
    }
    return Success(cur);
  }

  /** One turn of the instance loop: a failure of the builder on the `i`-th
      model ends the pass; a success registers its name under `h`. */
  method InstanceTurn(ib: InstanceBuilder, entries: OMap<Json>, i: nat, h: nat, h': nat, cur: BuiltResources)
    returns (r: Result<BuiltResources, string>)
    requires i < |entries| && h' == h + 1
    ensures r.Failure? ==> InstancePass(ib, entries[i..], h, cur) == r
    ensures r.Success? ==> InstancePass(ib, entries[i..], h, cur) == InstancePass(ib, entries[i + 1..], h', r.value)
  {
    var rest := entries[i..];
    assert rest[0] == entries[i] && rest[1..] == entries[i + 1..];
    var built := ib(entries[i].val, entries[i].key);
    if built.Failure? {
      return Failure(built.error);
    }
    return Success(BuiltResources(cur.heap, Put(cur.byRef, built.value.0, h)));
  }

  /** `buildAll(hcsManager, failOnFileChanges)` on the live disk, `AsWritten`
      being the code. The code also writes `$version` and a suffixed `$id`
      into the registry's own model objects; the model builds from a copy
      and leaves `rm.resourcesByRef` as it was. */
  method BuildAll(v: Variant, o: Oracles, sb: SchemaBuilder, vs: LegacyValidateAll.OtherValidators, paths: PathAdapter,
                  rm: ResourceManager, disk: FileSystem, failOnFileChanges: bool)
    returns (thrown: Option<string>)
    modifies disk
    ensures Outcome(disk.store, thrown) ==
            BuildAllOutcome(v, o, sb, vs, paths, rm.root, rm.resourcesByRef, old(disk.store), failOnFileChanges)
  {
    var validationResults := LegacyValidateAll.ValidateAll(o, vs, paths, rm);
    if !validationResults.success {
      return Some(ValidationFailed);
    }
    thrown := BuildAndPersist(v, o, sb, paths, rm, disk, failOnFileChanges);
  }

  /** Steps 2 and 3 of `buildAll` (lines 26-30), after the validation. */
  method BuildAndPersist(v: Variant, o: Oracles, sb: SchemaBuilder, paths: PathAdapter,
                         rm: ResourceManager, disk: FileSystem, failOnFileChanges: bool)
    returns (thrown: Option<string>)
    modifies disk
    ensures Outcome(disk.store, thrown) ==
            BuiltOutcome(v, o, sb, paths, rm.root, rm.resourcesByRef, old(disk.store), failOnFileChanges)
  {
    var built := BuildResources(o, sb, rm);
    if built.Failure? {
      return Some(built.error);
    }
    var b := built.value;
    var heap := new Json[|b.heap|](i requires 0 <= i < |b.heap| => b.heap[i]);
    assert heap[..] == b.heap;
    thrown := ProcessVersioningAndPersistence(v, o, paths, rm.root, failOnFileChanges, b.byRef, heap, disk);
  }
}
