/** What the reference merge engine guarantees: the per-key behaviour of
    `deepMerge`, the precedence of a node's own keys over what it references,
    the schema refs a model keeps, the shared visited set that reports diamonds
    as circular, and the shape `cleanRefs` leaves behind. */
module MergeProperties {
  import opened Wrappers
  import opened Strings
  import opened OrderedMaps
  import opened JsonValues
  import opened MergeWithRefs

  // ===========================================================================
  // deepMerge
  // ===========================================================================

  /** The key loop of `deepMerge`: a key of the source gets the merged value of
      its source and target values, and every other key keeps its target
      value. */
  lemma {:induction false} MergeFieldsGet(t: OMap<Json>, src: OMap<Json>, k: string)
    requires DistinctKeys(src)
    ensures Get(MergeFields(t, src), k) ==
              if Get(src, k).Some? then Some(MergeValue(Get(t, k), Get(src, k).value)) else Get(t, k)
    decreases |src|
  {
    if |src| > 0 {
      var e := src[0];
      var rest := src[1..];
      var t1 := Put(t, e.key, MergeValue(Get(t, e.key), e.val));
      assert DistinctKeys(rest) by {
        forall i, j | 0 <= i < j < |rest|
          ensures rest[i].key != rest[j].key
        {
          assert rest[i] == src[i + 1] && rest[j] == src[j + 1];
        }
      }
      MergeFieldsGet(t1, rest, k);
      if k == e.key {
        assert k !in Keys(rest) by {
          forall i | 0 <= i < |rest|
            ensures Keys(rest)[i] != k
          {
            assert rest[i] == src[i + 1];
          }
        }
      }
    }
  }

  /** The keys of the target keep their order and come first; the source's
      new keys follow. */
  lemma {:induction false} MergeFieldsKeepsTargetKeys(t: OMap<Json>, src: OMap<Json>)
    ensures Keys(t) <= Keys(MergeFields(t, src))
    decreases |src|
  {
    if |src| > 0 {
      var t1 := Put(t, src[0].key, MergeValue(Get(t, src[0].key), src[0].val));
      MergeFieldsKeepsTargetKeys(t1, src[1..]);
    }
  }

  /** `deepMerge` of two objects, key by key: an array replaces, `{}` sets
      `{}`, a non-empty object is merged into the target value (into `{}` when
      that is not an object), anything else overwrites, and a key the source
      lacks keeps its target value. The target's keys keep their positions. */
  lemma DeepMergeObjects(target: Json, source: Json, k: string)
    requires target.Obj? && source.Obj? && DistinctKeys(source.fields)
    ensures DeepMerge(target, source).Obj?
    ensures Keys(target.fields) <= Keys(DeepMerge(target, source).fields)
    ensures var r := Get(DeepMerge(target, source).fields, k);
            var tv := Get(target.fields, k);
            var sv := Get(source.fields, k);
            && (sv.None? ==> r == tv)
            && (sv.Some? && sv.value.Arr? ==> r == sv)
            && (sv == Some(Obj([])) ==> r == Some(Obj([])))
            && (sv.Some? && sv.value.Obj? && sv.value.fields != [] ==>
                  r == Some(DeepMerge(if tv.Some? && IsObjectLike(tv.value) then tv.value else Obj([]), sv.value)))
            && (sv.Some? && !IsObjectLike(sv.value) ==> r == sv)
  {
    MergeFieldsGet(target.fields, source.fields, k);
    MergeFieldsKeepsTargetKeys(target.fields, source.fields);
  }

  /** Every key of the merge comes from one of the two objects. */
  lemma DeepMergeKeySet(target: Json, source: Json, k: string)
    requires target.Obj? && source.Obj? && DistinctKeys(source.fields)
    ensures k in Keys(DeepMerge(target, source).fields) <==> k in Keys(target.fields) || k in Keys(source.fields)
  {
    MergeFieldsGet(target.fields, source.fields, k);
  }

  // ===========================================================================
  // single $ref
  // ===========================================================================

  /** Building a model, a node whose `$ref` names a schema comes back as it
      is, and nothing is visited. */
  lemma SchemaRefKept(j: Json, pool: Pool, visited: set<string>)
    requires j.Obj? && TruthyOpt(Get(j.fields, "$ref"))
    requires Includes(Get(j.fields, "$ref").value, ".schemas.") == Success(true)
    ensures ResolveRefs(j, pool, visited, false) == Success((j, visited))
  {
  }

  /** A node with a `$ref` follows that one link (a `$refs` beside it is not
      followed), and when the referenced entity resolves to an object, every
      non-object value of the node -- its `$id`, its `$ref` string, its
      `$refs` array -- wins over the referenced entity's. */
  lemma SingleRefOwnKeysWin(j: Json, pool: Pool, visited: set<string>, isSchema: bool, k: string)
    requires j.Obj? && TruthyOpt(Get(j.fields, "$ref")) && DistinctKeys(j.fields)
    requires ResolveRefs(j, pool, visited, isSchema).Success?
    requires ResolveRefs(j, pool, visited, isSchema).value.0.Obj?
    requires Get(j.fields, k).Some? && !Get(j.fields, k).value.Obj?
    ensures ResolveRefs(j, pool, visited, isSchema) == HandleSingleRef(j, pool, visited, isSchema)
    ensures Get(ResolveRefs(j, pool, visited, isSchema).value.0.fields, k) == Get(j.fields, k)
  {
    var ref := Get(j.fields, "$ref").value;
    var isSchemaRef := if !isSchema then IncludesOrFail(ref, ".schemas.") else Success(false);
    if isSchemaRef == Success(false) {
      var entity := ResolveReferenceEntity(ref, pool, visited).value;
      var full := ResolveRefs(entity.0, pool, entity.1, isSchema).value;
      if full.0.Obj? {
        DeepMergeObjects(full.0, j, k);
      }
    }
  }

  // ===========================================================================
  // $refs
  // ===========================================================================

  /** The entries of a `$refs` array that name schemas, in their order. */
  function SchemaRefs(refs: seq<Json>): (r: seq<Json>)
    ensures |r| <= |refs|
    ensures forall e :: e in r ==> e in refs && Includes(e, ".schemas.") == Success(true)
  {
    if |refs| == 0 then []
    else (if Includes(refs[0], ".schemas.") == Success(true) then [refs[0]] else []) + SchemaRefs(refs[1..])
  }

  /** Building a model, the loop keeps exactly the schema refs, in order. */
  lemma {:induction false} MultiLoopRetainsSchemaRefs(refs: seq<Json>, i: nat, st: MultiState, pool: Pool)
    requires i <= |refs|
    requires MultiLoop(refs, i, st, pool, false).Success?
    ensures MultiLoop(refs, i, st, pool, false).value.retained == st.retained + SchemaRefs(refs[i..])
    decreases Unvisited(pool, st.visited), |refs| - i
  {
    if i < |refs| {
      var ref := refs[i];
      assert refs[i..][0] == ref && refs[i..][1..] == refs[i + 1..];
      var inc := IncludesOrFail(ref, ".schemas.");
      assert inc.Success?;
      if inc.value {
        var st' := st.(retained := st.retained + [ref]);
        assert MultiLoop(refs, i, st, pool, false) == MultiLoop(refs, i + 1, st', pool, false);
        MultiLoopRetainsSchemaRefs(refs, i + 1, st', pool);
        assert SchemaRefs(refs[i..]) == [ref] + SchemaRefs(refs[i + 1..]);
      } else {
        var entity := ResolveReferenceEntity(ref, pool, st.visited).value;
        VisitNew(pool, st.visited, ref.s);
        var full := ResolveRefs(entity.0, pool, entity.1, false).value;
        VisitMore(pool, entity.1, full.1);
        var st' := MultiState(DeepMerge(st.acc, full.0), st.retained, full.1);
        assert MultiLoop(refs, i, st, pool, false) == MultiLoop(refs, i + 1, st', pool, false);
        MultiLoopRetainsSchemaRefs(refs, i + 1, st', pool);
        assert SchemaRefs(refs[i..]) == SchemaRefs(refs[i + 1..]);
      }
    }
  }

  /** Building a schema, nothing is set aside. */
  lemma {:induction false} MultiLoopRetainsNothingForSchemas(refs: seq<Json>, i: nat, st: MultiState, pool: Pool)
    requires i <= |refs|
    requires MultiLoop(refs, i, st, pool, true).Success?
    ensures MultiLoop(refs, i, st, pool, true).value.retained == st.retained
    decreases Unvisited(pool, st.visited), |refs| - i
  {
    if i < |refs| {
      var ref := refs[i];
      var entity := ResolveReferenceEntity(ref, pool, st.visited).value;
      VisitNew(pool, st.visited, ref.s);
      var full := ResolveRefs(entity.0, pool, entity.1, true).value;
      VisitMore(pool, entity.1, full.1);
      MultiLoopRetainsNothingForSchemas(refs, i + 1, MultiState(DeepMerge(st.acc, full.0), st.retained, full.1), pool);
    }
  }

  /** The accumulator starts as `{}` and stays an object. */
  lemma {:induction false} MultiLoopAccIsObject(refs: seq<Json>, i: nat, st: MultiState, pool: Pool, isSchema: bool)
    requires i <= |refs| && st.acc.Obj?
    requires MultiLoop(refs, i, st, pool, isSchema).Success?
    ensures MultiLoop(refs, i, st, pool, isSchema).value.acc.Obj?
    decreases Unvisited(pool, st.visited), |refs| - i
  {
    if i < |refs| {
      var ref := refs[i];
      var isSchemaRef := (if !isSchema then IncludesOrFail(ref, ".schemas.") else Success(false)).value;
      if isSchemaRef {
        MultiLoopAccIsObject(refs, i + 1, st.(retained := st.retained + [ref]), pool, isSchema);
      } else {
        var entity := ResolveReferenceEntity(ref, pool, st.visited).value;
        VisitNew(pool, st.visited, ref.s);
        var full := ResolveRefs(entity.0, pool, entity.1, isSchema).value;
        VisitMore(pool, entity.1, full.1);
        MultiLoopAccIsObject(refs, i + 1, MultiState(DeepMerge(st.acc, full.0), st.retained, full.1), pool, isSchema);
      }
    }
  }

  /** A node with `$refs` (and no `$ref`) resolves to an object in which the
      node's own non-object values win over everything merged from its refs;
      building a model, the schema refs are put back as `$refs` in their
      original order, and otherwise `$refs` is the node's own array. */
  lemma MultipleRefsResult(j: Json, pool: Pool, visited: set<string>, isSchema: bool, k: string)
    requires j.Obj? && !TruthyOpt(Get(j.fields, "$ref")) && DistinctKeys(j.fields)
    requires Get(j.fields, "$refs").Some? && Get(j.fields, "$refs").value.Arr?
    requires ResolveRefs(j, pool, visited, isSchema).Success?
    ensures ResolveRefs(j, pool, visited, isSchema).value.0.Obj?
    ensures var r := ResolveRefs(j, pool, visited, isSchema).value.0;
            k != "$refs" && Get(j.fields, k).Some? && !Get(j.fields, k).value.Obj? ==>
              Get(r.fields, k) == Get(j.fields, k)
    ensures var r := ResolveRefs(j, pool, visited, isSchema).value.0;
            var schemaRefs := SchemaRefs(Get(j.fields, "$refs").value.items);
            if !isSchema && schemaRefs != [] then Get(r.fields, "$refs") == Some(Arr(schemaRefs))
            else Get(r.fields, "$refs") == Get(j.fields, "$refs")
  {
    assert ResolveRefs(j, pool, visited, isSchema) == HandleMultipleRefs(j, pool, visited, isSchema);
    MultipleRefsUnfold(j, pool, visited, isSchema);
    MultipleRefsShape(Get(j.fields, "$refs").value.items, j, pool, visited, isSchema, k);
  }

  /** What `handleMultipleRefs` makes of the loop's final state. */
  function MultiFinal(j: Json, st: MultiState, isSchema: bool): Json
  {
    var merged := DeepMerge(st.acc, j);
    if !isSchema && |st.retained| > 0 then SetProp(merged, "$refs", Arr(st.retained)) else merged
  }

  lemma MultipleRefsUnfold(j: Json, pool: Pool, visited: set<string>, isSchema: bool)
    requires j.Obj? && Get(j.fields, "$refs").Some? && Get(j.fields, "$refs").value.Arr?
    requires HandleMultipleRefs(j, pool, visited, isSchema).Success?
    ensures var res := MultiLoop(Get(j.fields, "$refs").value.items, 0, MultiState(Obj([]), [], visited), pool, isSchema);
            res.Success? && HandleMultipleRefs(j, pool, visited, isSchema).value.0 == MultiFinal(j, res.value, isSchema)
  {
  }

  lemma MultipleRefsShape(refs: seq<Json>, j: Json, pool: Pool, visited: set<string>, isSchema: bool, k: string)
    requires j.Obj? && DistinctKeys(j.fields) && Get(j.fields, "$refs") == Some(Arr(refs))
    requires MultiLoop(refs, 0, MultiState(Obj([]), [], visited), pool, isSchema).Success?
    ensures var r := MultiFinal(j, MultiLoop(refs, 0, MultiState(Obj([]), [], visited), pool, isSchema).value, isSchema);
            && r.Obj?
            && (k != "$refs" && Get(j.fields, k).Some? && !Get(j.fields, k).value.Obj? ==> Get(r.fields, k) == Get(j.fields, k))
            && if !isSchema && SchemaRefs(refs) != [] then Get(r.fields, "$refs") == Some(Arr(SchemaRefs(refs)))
               else Get(r.fields, "$refs") == Get(j.fields, "$refs")
  {
    var st0 := MultiState(Obj([]), [], visited);
    var st := MultiLoop(refs, 0, st0, pool, isSchema).value;
    MultiLoopAccIsObject(refs, 0, st0, pool, isSchema);
    assert refs[0..] == refs;
    if isSchema {
      MultiLoopRetainsNothingForSchemas(refs, 0, st0, pool);
    } else {
      MultiLoopRetainsSchemaRefs(refs, 0, st0, pool);
      assert st.retained == SchemaRefs(refs);
    }
    MultiFinalShape(j, st, isSchema, k);
  }

  lemma MultiFinalShape(j: Json, st: MultiState, isSchema: bool, k: string)
    requires j.Obj? && DistinctKeys(j.fields) && st.acc.Obj?
    ensures MultiFinal(j, st, isSchema).Obj?
    ensures k != "$refs" && Get(j.fields, k).Some? && !Get(j.fields, k).value.Obj? ==>
              Get(MultiFinal(j, st, isSchema).fields, k) == Get(j.fields, k)
    ensures Get(j.fields, "$refs").Some? && Get(j.fields, "$refs").value.Arr? ==>
              if !isSchema && |st.retained| > 0 then Get(MultiFinal(j, st, isSchema).fields, "$refs") == Some(Arr(st.retained))
              else Get(MultiFinal(j, st, isSchema).fields, "$refs") == Get(j.fields, "$refs")
  {
    DeepMergeObjects(st.acc, j, k);
    DeepMergeObjects(st.acc, j, "$refs");
  }

  // ===========================================================================
  // the shared visited set
  // ===========================================================================

  /** With a well-formed id and pool, `merge` is resolution followed by
      cleaning, failing with the first error of either. */
  lemma MergeOfValid(entity: Json, pool: Available, isSchema: bool)
    requires EntityIdValid(entity) && PoolKeysValid(pool)
    ensures var res := ResolveRefs(entity, pool.entries, {}, isSchema);
            Merge(entity, pool, isSchema) == if res.Failure? then Failure(res.error) else CleanRefs(res.value.0)
  {
  }

  /** A successful `merge` had a well-formed id and pool, and what it returns
      is cleaned at every depth: no node but a model keeps `$ref` or
      `$refs`, and a model keeps a `$refs` array of schema refs only. */
  lemma MergeResultCleaned(entity: Json, pool: Available, isSchema: bool)
    requires Merge(entity, pool, isSchema).Success?
    ensures EntityIdValid(entity) && PoolKeysValid(pool)
    ensures RefsCleaned(Merge(entity, pool, isSchema).value)
  {
    MergeOfValid(entity, pool, isSchema);
    CleanRefsCleans(ResolveRefs(entity, pool.entries, {}, isSchema).value.0);
  }

  /** Every entity of the pool is an object. */
  predicate ObjectPool(pool: Pool)
  {
    forall k :: k in pool ==> pool[k].Obj?
  }

  /** Over a pool of objects, resolving an object gives an object: a `$ref`
      merges the node onto the resolved entity, and `$refs` merges it onto
      the `{}` the loop starts from. */
  lemma {:induction false} ResolveKeepsObject(j: Json, pool: Pool, visited: set<string>, isSchema: bool)
    requires j.Obj? && ObjectPool(pool)
    requires ResolveRefs(j, pool, visited, isSchema).Success?
    ensures ResolveRefs(j, pool, visited, isSchema).value.0.Obj?
    decreases Unvisited(pool, visited), 1
  {
    if TruthyOpt(Get(j.fields, "$ref")) {
      assert ResolveRefs(j, pool, visited, isSchema) == HandleSingleRef(j, pool, visited, isSchema);
      SingleRefKeepsObject(j, pool, visited, isSchema);
    } else if Get(j.fields, "$refs").Some? && Get(j.fields, "$refs").value.Arr? {
      assert ResolveRefs(j, pool, visited, isSchema) == HandleMultipleRefs(j, pool, visited, isSchema);
      var refs := Get(j.fields, "$refs").value.items;
      MultiLoopAccIsObject(refs, 0, MultiState(Obj([]), [], visited), pool, isSchema);
      var st := MultiLoop(refs, 0, MultiState(Obj([]), [], visited), pool, isSchema).value;
      DeepMergeOfObjects(st.acc, j);
    } else {
      var res := ResolveFields(j.fields, pool, visited, isSchema).value;
      assert ResolveRefs(j, pool, visited, isSchema) == Success((Obj(res.0), res.1));
    }
  }

  /** The `$ref` case: the node merged onto the resolved entity. */
  lemma SingleRefKeepsObject(j: Json, pool: Pool, visited: set<string>, isSchema: bool)
    requires j.Obj? && TruthyOpt(Get(j.fields, "$ref")) && ObjectPool(pool)
    requires HandleSingleRef(j, pool, visited, isSchema).Success?
    ensures HandleSingleRef(j, pool, visited, isSchema).value.0.Obj?
    decreases Unvisited(pool, visited), 0
  {
    var ref := Get(j.fields, "$ref").value;
    var isSchemaRef := (if !isSchema then IncludesOrFail(ref, ".schemas.") else Success(false)).value;
    if !isSchemaRef {
      var entity := ResolveReferenceEntity(ref, pool, visited).value;
      VisitNew(pool, visited, ref.s);
      var full := ResolveRefs(entity.0, pool, entity.1, isSchema).value;
      ResolveKeepsObject(entity.0, pool, entity.1, isSchema);
      assert HandleSingleRef(j, pool, visited, isSchema) == Success((DeepMerge(full.0, j), full.1));
      DeepMergeOfObjects(full.0, j);
    }
  }

  lemma DeepMergeOfObjects(a: Json, b: Json)
    requires a.Obj? && b.Obj?
    ensures DeepMerge(a, b).Obj?
  {
  }

  /** `merge` of an object over a pool of objects, when it succeeds, is an
      object. */
  lemma MergeKeepsObjects(entity: Json, pool: Available, isSchema: bool)
    requires entity.Obj? && ObjectPool(pool.entries)
    requires Merge(entity, pool, isSchema).Success?
    ensures Merge(entity, pool, isSchema).value.Obj?
  {
    MergeResultCleaned(entity, pool, isSchema);
    MergeOfValid(entity, pool, isSchema);
    ResolveKeepsObject(entity, pool.entries, {}, isSchema);
  }

  const DiamondA: Json :=
    Obj([Entry("$id", Str("s.models.a")), Entry("$refs", Arr([Str("s.models.b"), Str("s.models.c")]))])
  const DiamondB: Json := Obj([Entry("$id", Str("s.models.b")), Entry("$ref", Str("s.models.d"))])
  const DiamondC: Json := Obj([Entry("$id", Str("s.models.c")), Entry("$ref", Str("s.models.d"))])
  const DiamondD: Json := Obj([Entry("$id", Str("s.models.d")), Entry("x", Num(1))])
  const DiamondPool: Pool := map["s.models.b" := DiamondB, "s.models.c" := DiamondC, "s.models.d" := DiamondD]
  const DiamondMap: Available := Available(DiamondPool, ["s.models.b", "s.models.c", "s.models.d"])

  lemma DiamondLeaf(v: set<string>)
    ensures ResolveRefs(DiamondD, DiamondPool, v, false) == Success((DiamondD, v))
  {
    var pool := DiamondPool;
    var e0 := Entry("$id", Str("s.models.d"));
    var e1 := Entry("x", Num(1));
    assert ResolveRefs(Num(1), pool, v, false) == Success((Num(1), v));
    assert ResolveRefs(Str("s.models.d"), pool, v, false) == Success((Str("s.models.d"), v));
    assert [e1][1..] == [] && [e0, e1][1..] == [e1];
    assert ResolveFields([], pool, v, false) == Success(([], v));
    var r1 := ResolveFields([e1], pool, v, false);
    assert r1.Success? && r1.value.1 == v && r1.value.0 == [e1];
    var r0 := ResolveFields([e0, e1], pool, v, false);
    assert r0.Success? && r0.value.1 == v && r0.value.0 == [e0, e1];
    assert DiamondD == Obj([e0, e1]);
  }

  lemma DiamondFirstBranch()
    ensures var r := ResolveRefs(DiamondB, DiamondPool, {"s.models.b"}, false);
            r.Success? && r.value.1 == {"s.models.b", "s.models.d"}
  {
    var pool := DiamondPool;
    var v := {"s.models.b"};
    var v' := {"s.models.b", "s.models.d"};
    assert Get(DiamondB.fields, "$ref") == Some(Str("s.models.d"));
    NotContainsMissingChar("s.models.d", ".schemas.", 'h');
    assert IncludesOrFail(Str("s.models.d"), ".schemas.") == Success(false);
    assert "s.models.d" in pool && pool["s.models.d"] == DiamondD;
    assert v + {"s.models.d"} == v';
    assert ResolveReferenceEntity(Str("s.models.d"), pool, v) == Success((DiamondD, v'));
    DiamondLeaf(v');
    var h := HandleSingleRef(DiamondB, pool, v, false);
    assert h == Success((DeepMerge(DiamondD, DiamondB), v'));
    assert ResolveRefs(DiamondB, pool, v, false) == h;
  }

  lemma DiamondSecondBranch()
    ensures ResolveRefs(DiamondC, DiamondPool, {"s.models.b", "s.models.c", "s.models.d"}, false)
         == Failure(Circular("s.models.d"))
  {
    var v := {"s.models.b", "s.models.c", "s.models.d"};
    assert Get(DiamondC.fields, "$ref") == Some(Str("s.models.d"));
    NotContainsMissingChar("s.models.d", ".schemas.", 'h');
    assert IncludesOrFail(Str("s.models.d"), ".schemas.") == Success(false);
    assert ResolveReferenceEntity(Str("s.models.d"), DiamondPool, v) == Failure(Circular("s.models.d"));
    var h := HandleSingleRef(DiamondC, DiamondPool, v, false);
    assert h == Failure(Circular("s.models.d"));
    assert ResolveRefs(DiamondC, DiamondPool, v, false) == h;
  }

  lemma DiamondLoop()
    ensures MultiLoop([Str("s.models.b"), Str("s.models.c")], 0, MultiState(Obj([]), [], {}), DiamondPool, false)
         == Failure(Circular("s.models.d"))
  {
    var pool := DiamondPool;
    var refs := [Str("s.models.b"), Str("s.models.c")];
    var vb := {"s.models.b"};
    NotContainsMissingChar("s.models.b", ".schemas.", 'h');
    assert IncludesOrFail(Str("s.models.b"), ".schemas.") == Success(false);
    assert "s.models.b" in pool && pool["s.models.b"] == DiamondB;
    assert {} + {"s.models.b"} == vb;
    assert ResolveReferenceEntity(Str("s.models.b"), pool, {}) == Success((DiamondB, vb));
    DiamondFirstBranch();
    var full := ResolveRefs(DiamondB, pool, vb, false).value;
    DiamondLoopSecond(DeepMerge(Obj([]), full.0));
  }

  /** The second entry of the loop, whatever the first one merged. */
  lemma DiamondLoopSecond(acc: Json)
    ensures MultiLoop([Str("s.models.b"), Str("s.models.c")], 1, MultiState(acc, [], {"s.models.b", "s.models.d"}), DiamondPool, false)
         == Failure(Circular("s.models.d"))
  {
    var pool := DiamondPool;
    var vbd := {"s.models.b", "s.models.d"};
    var vbcd := {"s.models.b", "s.models.c", "s.models.d"};
    NotContainsMissingChar("s.models.c", ".schemas.", 'h');
    assert IncludesOrFail(Str("s.models.c"), ".schemas.") == Success(false);
    assert "s.models.c" in pool && pool["s.models.c"] == DiamondC;
    assert vbd + {"s.models.c"} == vbcd;
    assert ResolveReferenceEntity(Str("s.models.c"), pool, vbd) == Success((DiamondC, vbcd));
    DiamondSecondBranch();
  }

  lemma ThreeSegmentId(k: string, cat: string, name: string)
    requires '.' !in cat && '.' !in name && k == "s" + ['.'] + cat + ['.'] + name
    ensures SegmentCount(k, '.') == 3
  {
    SplitThree("s", cat, name, '.');
  }

  lemma DiamondIdValid()
    ensures EntityIdValid(DiamondA)
  {
    assert Prop(DiamondA, "$id") == Some(Str("s.models.a"));
    ThreeSegmentId("s.models.a", "models", "a");
  }

  lemma DiamondPoolValid()
    ensures PoolKeysValid(DiamondMap)
  {
    forall j | 0 <= j < |DiamondMap.ids|
      ensures SegmentCount(DiamondMap.ids[j], '.') == 3
    {
      var k := DiamondMap.ids[j];
      if j == 0 {
        ThreeSegmentId(k, "models", "b");
      } else if j == 1 {
        ThreeSegmentId(k, "models", "c");
      } else {
        ThreeSegmentId(k, "models", "d");
      }
    }
  }

  /** Two entities that both reference a third, reached from one `$refs`
      array: the second path to the third finds it visited, so the merge
      reports a circular reference although the graph has no cycle. */
  lemma DiamondIsCircular()
    ensures Merge(DiamondA, DiamondMap, false) == Failure(Circular("s.models.d"))
  {
    var pool := DiamondPool;
    assert Get(DiamondA.fields, "$ref") == None;
    assert Get(DiamondA.fields, "$refs") == Some(Arr([Str("s.models.b"), Str("s.models.c")]));
    DiamondLoop();
    var h := HandleMultipleRefs(DiamondA, pool, {}, false);
    assert h == Failure(Circular("s.models.d"));
    var r := ResolveRefs(DiamondA, pool, {}, false);
    assert r == h;
    DiamondIdValid();
    DiamondPoolValid();
    MergeOfValid(DiamondA, DiamondMap, false);
  }

  const CycleA: Json := Obj([Entry("$id", Str("s.schemas.a")), Entry("$ref", Str("s.schemas.b"))])
  const CycleB: Json := Obj([Entry("$id", Str("s.schemas.b")), Entry("$ref", Str("s.schemas.a"))])
  const CycleTop: Json := Obj([Entry("$id", Str("s.schemas.t")), Entry("$ref", Str("s.schemas.a"))])
  const CyclePool: Pool := map["s.schemas.a" := CycleA, "s.schemas.b" := CycleB]
  const CycleMap: Available := Available(CyclePool, ["s.schemas.a", "s.schemas.b"])

  lemma CycleIdValid()
    ensures EntityIdValid(CycleTop)
  {
    assert Prop(CycleTop, "$id") == Some(Str("s.schemas.t"));
    ThreeSegmentId("s.schemas.t", "schemas", "t");
  }

  lemma CyclePoolValid()
    ensures PoolKeysValid(CycleMap)
  {
    forall j | 0 <= j < |CycleMap.ids|
      ensures SegmentCount(CycleMap.ids[j], '.') == 3
    {
      var k := CycleMap.ids[j];
      if j == 0 {
        ThreeSegmentId(k, "schemas", "a");
      } else {
        ThreeSegmentId(k, "schemas", "b");
      }
    }
  }

  lemma CycleResolution()
    ensures ResolveRefs(CycleTop, CyclePool, {}, true) == Failure(Circular("s.schemas.a"))
  {
    var pool := CyclePool;
    var va := {"s.schemas.a"};
    var vab := {"s.schemas.a", "s.schemas.b"};
    assert Get(CycleA.fields, "$ref") == Some(Str("s.schemas.b"));
    assert Get(CycleB.fields, "$ref") == Some(Str("s.schemas.a"));
    assert Get(CycleTop.fields, "$ref") == Some(Str("s.schemas.a"));
    assert "s.schemas.a" in pool && pool["s.schemas.a"] == CycleA;
    assert "s.schemas.b" in pool && pool["s.schemas.b"] == CycleB;
    assert {} + {"s.schemas.a"} == va && va + {"s.schemas.b"} == vab;
    var hb := HandleSingleRef(CycleB, pool, vab, true);
    assert hb == Failure(Circular("s.schemas.a"));
    assert ResolveRefs(CycleB, pool, vab, true) == hb;
    assert ResolveReferenceEntity(Str("s.schemas.b"), pool, va) == Success((CycleB, vab));
    var ha := HandleSingleRef(CycleA, pool, va, true);
    assert ha == Failure(Circular("s.schemas.a"));
    assert ResolveRefs(CycleA, pool, va, true) == ha;
    assert ResolveReferenceEntity(Str("s.schemas.a"), pool, {}) == Success((CycleA, va));
    var ht := HandleSingleRef(CycleTop, pool, {}, true);
    assert ht == Failure(Circular("s.schemas.a"));
    assert ResolveRefs(CycleTop, pool, {}, true) == ht;
  }

  /** Following a cycle of two schemas is reported as circular at the first
      id seen again. */
  lemma TwoCycleIsCircular()
    ensures Merge(CycleTop, CycleMap, true) == Failure(Circular("s.schemas.a"))
  {
    CycleResolution();
    CycleIdValid();
    CyclePoolValid();
    MergeOfValid(CycleTop, CycleMap, true);
  }

  // ===========================================================================
  // cleanRefs
  // ===========================================================================

  /** The state `cleanRefs` leaves a node in: a model node holds a `$refs`
      array of schema refs only, every other node has neither `$ref` nor
      `$refs`. */
  predicate NodeCleaned(fs: OMap<Json>)
  {
    if IsModelNode(fs) then
      var refsv := Get(fs, "$refs");
      refsv.Some? && refsv.value.Arr?
      && forall i :: 0 <= i < |refsv.value.items| ==> Includes(refsv.value.items[i], ".schemas.") == Success(true)
    else
      Get(fs, "$ref").None? && Get(fs, "$refs").None?
  }

  /** Every node of the tree is cleaned. */
  predicate RefsCleaned(j: Json)
  {
    match j
    case Obj(fs) => NodeCleaned(fs) && forall i :: 0 <= i < |fs| ==> RefsCleaned(fs[i].val)
    case Arr(items) => forall i :: 0 <= i < |items| ==> RefsCleaned(items[i])
    case _ => true
  }

  /** Cleaning keeps the kind of a value, and keeps strings and the other
      primitives as they are. */
  lemma CleanKeepsKind(v: Json)
    requires CleanRefs(v).Success?
    ensures var w := CleanRefs(v).value;
            && (v.Obj? <==> w.Obj?) && (v.Arr? <==> w.Arr?)
            && (!IsObjectLike(v) ==> w == v)
            && (v.Arr? ==> |w.items| == |v.items|)
  {
  }

  /** `includes` gives the same answer on a value before and after cleaning. */
  lemma CleanKeepsIncludes(v: Json, sub: string)
    requires CleanRefs(v).Success?
    ensures Includes(CleanRefs(v).value, sub) == Includes(v, sub)
  {
    var w := CleanRefs(v).value;
    if v.Arr? {
      AllItemsSmaller(v.items);
      var xs := CleanItems(v.items, Size(v)).value;
      assert w.items == xs;
      forall i | 0 <= i < |xs|
        ensures xs[i] == Str(sub) <==> v.items[i] == Str(sub)
      {
        CleanKeepsKind(v.items[i]);
      }
      assert Str(sub) in xs <==> Str(sub) in v.items by {
        if Str(sub) in xs {
          var i :| 0 <= i < |xs| && xs[i] == Str(sub);
          assert v.items[i] == Str(sub);
        }
        if Str(sub) in v.items {
          var i :| 0 <= i < |v.items| && v.items[i] == Str(sub);
          assert xs[i] == Str(sub);
        }
      }
    }
  }

  /** Reading a key of a node after its values are cleaned. */
  lemma {:induction false} GetOfCleanedFields(top: OMap<Json>, fs: OMap<Json>, k: string)
    requires |fs| == |top|
    requires forall i :: 0 <= i < |top| ==> fs[i].key == top[i].key && CleanRefs(top[i].val) == Success(fs[i].val)
    ensures Get(fs, k).Some? <==> Get(top, k).Some?
    ensures Get(top, k).Some? ==> CleanRefs(Get(top, k).value) == Success(Get(fs, k).value)
    decreases |top|
  {
    if |top| > 0 && top[0].key != k {
      GetOfCleanedFields(top[1..], fs[1..], k);
    }
  }

  /** A cleaned value of a model node's `$id` still marks it as a model. */
  lemma ModelNodeKept(top: OMap<Json>, fs: OMap<Json>)
    requires |fs| == |top|
    requires forall i :: 0 <= i < |top| ==> fs[i].key == top[i].key && CleanRefs(top[i].val) == Success(fs[i].val)
    ensures IsModelNode(fs) <==> IsModelNode(top)
  {
    GetOfCleanedFields(top, fs, "$id");
    if Get(top, "$id").Some? {
      CleanKeepsKind(Get(top, "$id").value);
      CleanKeepsIncludes(Get(top, "$id").value, ".models.");
    }
  }

  /** `cleanRefs` leaves every node of the tree cleaned. */
  lemma {:induction false} CleanRefsCleans(j: Json)
    requires CleanRefs(j).Success?
    ensures RefsCleaned(CleanRefs(j).value)
    decreases Size(j)
  {
    match j
    case Obj(fields) =>
      var top := CleanNode(fields).value;
      var fs := CleanFields(top, Size(j)).value;
      assert CleanRefs(j) == Success(Obj(fs));
      forall i | 0 <= i < |fs|
        ensures RefsCleaned(fs[i].val)
      {
        assert top[i] in top;
        CleanRefsCleans(top[i].val);
      }
      CleanedNode(fields);
    case Arr(items) =>
      AllItemsSmaller(items);
      var xs := CleanItems(items, Size(j)).value;
      assert CleanRefs(j) == Success(Arr(xs));
      forall i | 0 <= i < |xs|
        ensures RefsCleaned(xs[i])
      {
        SizeOfItem(items, i);
        CleanRefsCleans(items[i]);
      }
    case _ =>
  }

  /** The top node of a cleaned object is cleaned. */
  lemma CleanedNode(fields: OMap<Json>)
    requires CleanRefs(Obj(fields)).Success?
    ensures NodeCleaned(CleanRefs(Obj(fields)).value.fields)
  {
    var top := CleanNode(fields).value;
    var fs := CleanFields(top, Size(Obj(fields))).value;
    assert CleanRefs(Obj(fields)) == Success(Obj(fs));
    CleanNodeShape(fields);
    ModelNodeKept(top, fs);
    GetOfCleanedFields(top, fs, "$refs");
    GetOfCleanedFields(top, fs, "$ref");
    if IsModelNode(fs) {
      var kept := Get(top, "$refs").value;
      var after := Get(fs, "$refs").value;
      AllItemsSmaller(kept.items);
      var xs := CleanItems(kept.items, Size(kept)).value;
      assert after == Arr(xs);
      forall i | 0 <= i < |xs|
        ensures Includes(xs[i], ".schemas.") == Success(true)
      {
        assert kept.items[i] in kept.items;
        CleanKeepsIncludes(kept.items[i], ".schemas.");
      }
    }
  }

  /** The node edit of `cleanRefs`: a model node gets a `$refs` array of
      schema refs (`[]` when it had none) and keeps `$id`; any other node loses
      `$ref` and `$refs`. */
  lemma CleanNodeShape(fields: OMap<Json>)
    requires CleanNode(fields).Success?
    ensures var top := CleanNode(fields).value;
            && Get(top, "$id") == Get(fields, "$id")
            && (IsModelNode(fields) ==>
                  Get(top, "$refs").Some? && Get(top, "$refs").value.Arr?
                  && (forall e :: e in Get(top, "$refs").value.items ==> Includes(e, ".schemas.") == Success(true))
                  && (Get(fields, "$refs").None? ==> Get(top, "$refs") == Some(Arr([]))))
            && (!IsModelNode(fields) ==> Get(top, "$ref").None? && Get(top, "$refs").None?)
  {
    var idv := Get(fields, "$id");
    if IsModelNode(fields) {
      var refsv := Get(fields, "$refs");
      var keptR :=
        if refsv.None? || refsv.value.Null? then Success([])
        else if refsv.value.Arr? then FilterSchemaRefs(refsv.value.items)
        else Failure(Other("filter is not a function"));
      assert keptR.Success?;
      var kept := keptR.value;
      var f1 := Put(fields, "$refs", Arr(kept));
      var rv := Get(f1, "$ref");
      var dropR :=
        if TruthyOpt(rv) && rv.value.Obj? && TruthyOpt(Get(rv.value.fields, "$id"))
        then IncludesOrFail(Get(rv.value.fields, "$id").value, ".models.")
        else Success(false);
      assert dropR.Success?;
      var top := if dropR.value then Remove(f1, "$ref") else f1;
      assert CleanNode(fields) == Success(top);
      assert Get(top, "$refs") == Some(Arr(kept));
    } else {
      assert CleanNode(fields) == Success(Remove(Remove(fields, "$ref"), "$refs"));
    }
  }

  /** At a model node a string `$ref` is kept: only an object `$ref` whose own
      `$id` names a model is dropped. */
  lemma ModelKeepsStringRef(fields: OMap<Json>, s: string)
    requires IsModelNode(fields) && Get(fields, "$ref") == Some(Str(s))
    requires CleanRefs(Obj(fields)).Success?
    ensures Get(CleanRefs(Obj(fields)).value.fields, "$ref") == Some(Str(s))
  {
    var top := CleanNode(fields).value;
    var fs := CleanFields(top, Size(Obj(fields))).value;
    assert Get(top, "$ref") == Some(Str(s));
    GetOfCleanedFields(top, fs, "$ref");
  }

  /** A model node whose `$refs` are strings keeps exactly the schema
      entries, in order. */
  lemma ModelRefsFiltered(fields: OMap<Json>, items: seq<Json>)
    requires IsModelNode(fields) && Get(fields, "$refs") == Some(Arr(items))
    requires forall i :: 0 <= i < |items| ==> items[i].Str?
    requires CleanRefs(Obj(fields)).Success?
    ensures Get(CleanRefs(Obj(fields)).value.fields, "$refs") == Some(Arr(SchemaRefs(items)))
  {
    var top := CleanNode(fields).value;
    var fs := CleanFields(top, Size(Obj(fields))).value;
    assert CleanRefs(Obj(fields)) == Success(Obj(fs));
    FilterIsSchemaRefs(items);
    ModelNodeEdit(fields, items);
    var kept := SchemaRefs(items);
    assert Get(top, "$refs") == Some(Arr(kept));
    GetOfCleanedFields(top, fs, "$refs");
    forall i | 0 <= i < |kept|
      ensures kept[i].Str?
    {
      assert kept[i] in items;
    }
    StringsClean(kept);
    assert CleanRefs(Arr(kept)) == Success(Get(fs, "$refs").value);
  }

  /** At a model node with a string `$refs` array, the edit leaves the schema
      entries. */
  lemma ModelNodeEdit(fields: OMap<Json>, items: seq<Json>)
    requires IsModelNode(fields) && Get(fields, "$refs") == Some(Arr(items))
    requires FilterSchemaRefs(items).Success?
    requires CleanNode(fields).Success?
    ensures Get(CleanNode(fields).value, "$refs") == Some(Arr(FilterSchemaRefs(items).value))
  {
    var kept := FilterSchemaRefs(items).value;
    var f1 := Put(fields, "$refs", Arr(kept));
    var rv := Get(f1, "$ref");
    var dropR :=
      if TruthyOpt(rv) && rv.value.Obj? && TruthyOpt(Get(rv.value.fields, "$id"))
      then IncludesOrFail(Get(rv.value.fields, "$id").value, ".models.")
      else Success(false);
    assert dropR.Success?;
    var top := if dropR.value then Remove(f1, "$ref") else f1;
    assert CleanNode(fields) == Success(top);
  }

  /** An array of strings is its own cleaned value. */
  lemma StringsClean(xs: seq<Json>)
    requires forall i :: 0 <= i < |xs| ==> xs[i].Str?
    ensures CleanRefs(Arr(xs)) == Success(Arr(xs))
  {
    AllItemsSmaller(xs);
    var r := CleanItems(xs, Size(Arr(xs)));
    StringItemsClean(xs, Size(Arr(xs)));
  }

  lemma {:induction false} StringItemsClean(xs: seq<Json>, bound: nat)
    requires forall i :: 0 <= i < |xs| ==> xs[i].Str?
    requires forall x :: x in xs ==> Size(x) < bound
    ensures CleanItems(xs, bound) == Success(xs)
  {
    if |xs| > 0 {
      StringItemsClean(xs[1..], bound);
      assert CleanRefs(xs[0]) == Success(xs[0]);
      assert xs == [xs[0]] + xs[1..];
    }
  }

  /** For string entries the filter fails never and agrees with `SchemaRefs`. */
  lemma {:induction false} FilterIsSchemaRefs(items: seq<Json>)
    requires forall i :: 0 <= i < |items| ==> items[i].Str?
    ensures FilterSchemaRefs(items) == Success(SchemaRefs(items))
  {
    if |items| > 0 {
      FilterIsSchemaRefs(items[1..]);
      var keep := Contains(items[0].s, ".schemas.");
      var rest := SchemaRefs(items[1..]);
      assert IncludesOrFail(items[0], ".schemas.") == Success(keep);
      assert FilterSchemaRefs(items) == Success(if keep then [items[0]] + rest else rest);
      if keep {
        assert SchemaRefs(items) == [items[0]] + rest;
      } else {
        assert SchemaRefs(items) == [] + rest;
        assert [] + rest == rest;
      }
    }
  }
}
