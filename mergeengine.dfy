/** The merge engine as the code runs it: `deepMerge` and `cleanRefs`
    walk the keys of a node in a loop and rewrite them one at a time,
    `resolveReferences` reassigns each property of a node in turn while the
    visited set grows, and `handleMultipleRefs` accumulates the resolved
    entries in a loop. Each method is proved to compute exactly the function of
    the same name in `MergeWithRefs`, so every property proved there holds of
    these loops. */
module MergeEngine {
  import opened Wrappers
  import opened Strings
  import opened OrderedMaps
  import opened JsonValues
  import opened MergeWithRefs

  /** `deepMerge(target, source)`: the `for (const key in source)` loop. */
  method DeepMergeInPlace(target: Json, source: Json) returns (r: Json)
    ensures r == DeepMerge(target, source)
    decreases Size(source), 2
  {
    if !IsObjectLike(target) {
      return source;
    }
    if !IsObjectLike(source) {
      return target;
    }
    if target.Arr? {
      return target;
    }
    var src := Members(source);
    SizeOfMembers(source);
    var t := target.fields;
    var i := 0;
    assert src[0..] == src;
    while i < |src|
      invariant 0 <= i <= |src|
      invariant MergeFields(t, src[i..]) == MergeFields(target.fields, src)
    {
      var key := src[i].key;
      SizeOfField(src, i);
      var nv := MergeValueInPlace(Get(t, key), src[i].val);
      assert src[i..][0] == src[i] && src[i..][1..] == src[i + 1..];
      t := Put(t, key, nv);
      i := i + 1;
    }
    assert src[i..] == [];
    return Obj(t);
  }

  /** The value one key of `source` leaves in the target: arrays and
      primitives overwrite, `{}` resets, other objects merge recursively. */
  method MergeValueInPlace(tv: Option<Json>, sv: Json) returns (nv: Json)
    ensures nv == MergeValue(tv, sv)
    decreases Size(sv), 3
  {
    if sv.Obj? && |sv.fields| > 0 {
      nv := DeepMergeInPlace(TargetBase(tv), sv);
    } else if sv.Obj? {
      nv := Obj([]);
    } else {
      nv := sv;
    }
  }

  // ===========================================================================
  // cleanRefs
  // ===========================================================================

  /** A result list built so far, followed by the outcome of the rest. */
  function Prepend<T>(out: seq<T>, rest: Result<seq<T>, MergeError>): (r: Result<seq<T>, MergeError>)
    ensures out == [] ==> r == rest
  {
    if rest.Failure? then Failure(rest.error) else assert [] + rest.value == rest.value; Success(out + rest.value)
  }

  /** `cleanRefs(obj)`: the node is edited, then each of its values is
      cleaned and written back in key order. */
  method CleanRefsInPlace(j: Json) returns (r: Result<Json, MergeError>)
    ensures r == CleanRefs(j)
    decreases Size(j), 1
  {
    match j {
      case Obj(fields) =>
        var top := CleanNode(fields);
        if top.Failure? {
          return Failure(top.error);
        }
        var fs := top.value;
        var out := CleanFieldsInPlace(fs, Size(j));
        if out.Failure? {
          return Failure(out.error);
        }
        return Success(Obj(out.value));
      case Arr(items) =>
        AllItemsSmaller(items);
        var out := CleanItemsInPlace(items, Size(j));
        if out.Failure? {
          return Failure(out.error);
        }
        return Success(Arr(out.value));
      case _ =>
        return Success(j);
    }
  }

  lemma PrependTwice<T>(a: seq<T>, b: seq<T>, rest: Result<seq<T>, MergeError>)
    ensures Prepend(a, Prepend(b, rest)) == Prepend(a + b, rest)
  {
    if rest.Success? {
      assert a + (b + rest.value) == (a + b) + rest.value;
    }
  }

  /** One step of `CleanFields` from position `i`. */
  lemma CleanFieldsAt(fs: OMap<Json>, bound: nat, i: nat)
    requires forall e :: e in fs ==> Size(e.val) < bound
    requires i < |fs|
    ensures fs[i] in fs
    ensures CleanFields(fs[i..], bound)
            == if CleanRefs(fs[i].val).Failure? then Failure(CleanRefs(fs[i].val).error)
               else Prepend([Entry(fs[i].key, CleanRefs(fs[i].val).value)], CleanFields(fs[i + 1..], bound))
  {
    var tail := fs[i..];
    assert tail[0] == fs[i] && tail[1..] == fs[i + 1..];
  }

  lemma CleanItemsAt(items: seq<Json>, bound: nat, i: nat)
    requires forall x :: x in items ==> Size(x) < bound
    requires i < |items|
    ensures items[i] in items
    ensures CleanItems(items[i..], bound)
            == if CleanRefs(items[i]).Failure? then Failure(CleanRefs(items[i]).error)
               else Prepend([CleanRefs(items[i]).value], CleanItems(items[i + 1..], bound))
  {
    var tail := items[i..];
    assert tail[0] == items[i] && tail[1..] == items[i + 1..];
  }

  method CleanFieldsInPlace(fs: OMap<Json>, bound: nat) returns (r: Result<OMap<Json>, MergeError>)
    requires forall e :: e in fs ==> Size(e.val) < bound
    ensures r == CleanFields(fs, bound)
    decreases bound, 0
  {
    var out: OMap<Json> := [];
    var i := 0;
    assert fs[0..] == fs;
    while i < |fs|
      invariant 0 <= i <= |fs|
      invariant CleanFields(fs, bound) == Prepend(out, CleanFields(fs[i..], bound))
    {
      CleanFieldsAt(fs, bound, i);
      var v := CleanRefsInPlace(fs[i].val);
      if v.Failure? {
        return Failure(v.error);
      }
      PrependTwice(out, [Entry(fs[i].key, v.value)], CleanFields(fs[i + 1..], bound));
      out := out + [Entry(fs[i].key, v.value)];
      i := i + 1;
    }
    assert fs[i..] == [];
    assert out + [] == out;
    return Success(out);
  }

  method CleanItemsInPlace(items: seq<Json>, bound: nat) returns (r: Result<seq<Json>, MergeError>)
    requires forall x :: x in items ==> Size(x) < bound
    ensures r == CleanItems(items, bound)
    decreases bound, 0
  {
    var out: seq<Json> := [];
    var i := 0;
    assert items[0..] == items;
    while i < |items|
      invariant 0 <= i <= |items|
      invariant CleanItems(items, bound) == Prepend(out, CleanItems(items[i..], bound))
    {
      CleanItemsAt(items, bound, i);
      var v := CleanRefsInPlace(items[i]);
      if v.Failure? {
        return Failure(v.error);
      }
      PrependTwice(out, [v.value], CleanItems(items[i + 1..], bound));
      out := out + [v.value];
      i := i + 1;
    }
    assert items[i..] == [];
    assert out + [] == out;
    return Success(out);
  }

  // ===========================================================================
  // resolveReferences
  // ===========================================================================

  /** A resolved prefix of a node's properties, followed by the outcome of
      resolving the rest. */
  function PrependResolved<T>(out: seq<T>, rest: Result<(seq<T>, set<string>), MergeError>)
    : (r: Result<(seq<T>, set<string>), MergeError>)
    ensures out == [] ==> r == rest
  {
    if rest.Failure? then Failure(rest.error)
    else assert [] + rest.value.0 == rest.value.0; Success((out + rest.value.0, rest.value.1))
  }

  lemma PrependResolvedTwice<T>(a: seq<T>, b: seq<T>, rest: Result<(seq<T>, set<string>), MergeError>)
    ensures PrependResolved(a, PrependResolved(b, rest)) == PrependResolved(a + b, rest)
  {
    if rest.Success? {
      assert a + (b + rest.value.0) == (a + b) + rest.value.0;
    }
  }

  /** One step of `ResolveFields` from position `i`. */
  lemma ResolveFieldsAt(fields: OMap<Json>, pool: Pool, v: set<string>, isSchema: bool, i: nat)
    requires i < |fields|
    ensures var head := ResolveRefs(fields[i].val, pool, v, isSchema);
            ResolveFields(fields[i..], pool, v, isSchema)
            == if head.Failure? then Failure(head.error)
               else PrependResolved([Entry(fields[i].key, head.value.0)],
                                    ResolveFields(fields[i + 1..], pool, head.value.1, isSchema))
  {
    var tail := fields[i..];
    assert tail[0] == fields[i] && tail[1..] == fields[i + 1..];
  }

  lemma ResolveItemsAt(items: seq<Json>, pool: Pool, v: set<string>, isSchema: bool, i: nat)
    requires i < |items|
    ensures var head := ResolveRefs(items[i], pool, v, isSchema);
            ResolveItems(items[i..], pool, v, isSchema)
            == if head.Failure? then Failure(head.error)
               else PrependResolved([head.value.0], ResolveItems(items[i + 1..], pool, head.value.1, isSchema))
  {
    var tail := items[i..];
    assert tail[0] == items[i] && tail[1..] == items[i + 1..];
  }

  /** One turn of the loop over the fields: the whole result `whole` is what
      was resolved so far, `out`, followed by the rest from position `i`. */
  lemma FieldsStep(whole: Result<(OMap<Json>, set<string>), MergeError>, out: OMap<Json>, fields: OMap<Json>,
                   pool: Pool, v: set<string>, isSchema: bool, i: nat, head: Resolved)
    requires i < |fields| && head == ResolveRefs(fields[i].val, pool, v, isSchema)
    requires whole == PrependResolved(out, ResolveFields(fields[i..], pool, v, isSchema))
    ensures head.Failure? ==> whole == Failure(head.error)
    ensures head.Success? ==>
      whole == PrependResolved(out + [Entry(fields[i].key, head.value.0)],
                               ResolveFields(fields[i + 1..], pool, head.value.1, isSchema))
  {
    ResolveFieldsAt(fields, pool, v, isSchema, i);
    if head.Success? {
      PrependResolvedTwice(out, [Entry(fields[i].key, head.value.0)],
                           ResolveFields(fields[i + 1..], pool, head.value.1, isSchema));
    }
  }

  /** The same turn of the loop over the elements of an array. */
  lemma ItemsStep(whole: Result<(seq<Json>, set<string>), MergeError>, out: seq<Json>, items: seq<Json>,
                  pool: Pool, v: set<string>, isSchema: bool, i: nat, head: Resolved)
    requires i < |items| && head == ResolveRefs(items[i], pool, v, isSchema)
    requires whole == PrependResolved(out, ResolveItems(items[i..], pool, v, isSchema))
    ensures head.Failure? ==> whole == Failure(head.error)
    ensures head.Success? ==>
      whole == PrependResolved(out + [head.value.0], ResolveItems(items[i + 1..], pool, head.value.1, isSchema))
  {
    ResolveItemsAt(items, pool, v, isSchema, i);
    if head.Success? {
      PrependResolvedTwice(out, [head.value.0], ResolveItems(items[i + 1..], pool, head.value.1, isSchema));
    }
  }

  /** `resolveReferences(obj, availableEntities, visitedRefs, isSchema)`, with
      the visited set passed in and handed back. */
  method ResolveReferences(j: Json, pool: Pool, visited: set<string>, isSchema: bool) returns (r: Resolved)
    ensures r == ResolveRefs(j, pool, visited, isSchema)
    decreases Unvisited(pool, visited), Size(j), 2
  {
    match j {
      case Obj(fields) =>
        if TruthyOpt(Get(fields, "$ref")) {
          r := ResolveSingleRef(j, pool, visited, isSchema);
        } else if Get(fields, "$refs").Some? && Get(fields, "$refs").value.Arr? {
          r := ResolveMultipleRefs(j, pool, visited, isSchema);
        } else {
          var res := ResolveFieldsInPlace(fields, pool, visited, isSchema);
          if res.Failure? {
            return Failure(res.error);
          }
          return Success((Obj(res.value.0), res.value.1));
        }
      case Arr(items) =>
        var res := ResolveItemsInPlace(items, pool, visited, isSchema);
        if res.Failure? {
          return Failure(res.error);
        }
        return Success((Arr(res.value.0), res.value.1));
      case _ =>
        return Success((j, visited));
    }
  }

  /** The `for (const key in obj)` loop of `resolveReferences` on an object. */
  method ResolveFieldsInPlace(fields: OMap<Json>, pool: Pool, visited: set<string>, isSchema: bool)
    returns (r: Result<(OMap<Json>, set<string>), MergeError>)
    ensures r == ResolveFields(fields, pool, visited, isSchema)
    decreases Unvisited(pool, visited), SizeFields(fields), 3
  {
    var out: OMap<Json> := [];
    var v := visited;
    var i := 0;
    assert fields[0..] == fields;
    while i < |fields|
      invariant 0 <= i <= |fields| && visited <= v
      invariant ResolveFields(fields, pool, visited, isSchema)
                == PrependResolved(out, ResolveFields(fields[i..], pool, v, isSchema))
    {
      SizeOfField(fields, i);
      VisitMore(pool, visited, v);
      var head := ResolveReferences(fields[i].val, pool, v, isSchema);
      FieldsStep(ResolveFields(fields, pool, visited, isSchema), out, fields, pool, v, isSchema, i, head);
      if head.Failure? {
        return Failure(head.error);
      }
      out := out + [Entry(fields[i].key, head.value.0)];
      v := head.value.1;
      i := i + 1;
    }
    assert fields[i..] == [];
    assert out + [] == out;
    return Success((out, v));
  }

  /** The same loop over the elements of an array. */
  method ResolveItemsInPlace(items: seq<Json>, pool: Pool, visited: set<string>, isSchema: bool)
    returns (r: Result<(seq<Json>, set<string>), MergeError>)
    ensures r == ResolveItems(items, pool, visited, isSchema)
    decreases Unvisited(pool, visited), SizeItems(items), 3
  {
    var out: seq<Json> := [];
    var v := visited;
    var i := 0;
    assert items[0..] == items;
    while i < |items|
      invariant 0 <= i <= |items| && visited <= v
      invariant ResolveItems(items, pool, visited, isSchema)
                == PrependResolved(out, ResolveItems(items[i..], pool, v, isSchema))
    {
      SizeOfItem(items, i);
      VisitMore(pool, visited, v);
      var head := ResolveReferences(items[i], pool, v, isSchema);
      ItemsStep(ResolveItems(items, pool, visited, isSchema), out, items, pool, v, isSchema, i, head);
      if head.Failure? {
        return Failure(head.error);
      }
      out := out + [head.value.0];
      v := head.value.1;
      i := i + 1;
    }
    assert items[i..] == [];
    assert out + [] == out;
    return Success((out, v));
  }

  /** `handleSingleRef`. */
  method ResolveSingleRef(j: Json, pool: Pool, visited: set<string>, isSchema: bool) returns (r: Resolved)
    requires j.Obj? && TruthyOpt(Get(j.fields, "$ref"))
    ensures r == HandleSingleRef(j, pool, visited, isSchema)
    decreases Unvisited(pool, visited), Size(j), 1
  {
    var ref := Get(j.fields, "$ref").value;
    if !isSchema {
      var inc := IncludesOrFail(ref, ".schemas.");
      if inc.Failure? {
        return Failure(inc.error);
      }
      if inc.value {
        return Success((j, visited));
      }
    }
    var entity := ResolveReferenceEntity(ref, pool, visited);
    if entity.Failure? {
      return Failure(entity.error);
    }
    VisitNew(pool, visited, ref.s);
    var full := ResolveReferences(entity.value.0, pool, entity.value.1, isSchema);
    if full.Failure? {
      return Failure(full.error);
    }
    var merged := DeepMergeInPlace(full.value.0, j);
    return Success((merged, full.value.1));
  }

  /** `handleMultipleRefs`: the `for (const refId of obj.$refs)` loop. */
  method ResolveMultipleRefs(j: Json, pool: Pool, visited: set<string>, isSchema: bool) returns (r: Resolved)
    requires j.Obj? && Get(j.fields, "$refs").Some? && Get(j.fields, "$refs").value.Arr?
    ensures r == HandleMultipleRefs(j, pool, visited, isSchema)
    decreases Unvisited(pool, visited), Size(j), 1
  {
    var refs := Get(j.fields, "$refs").value.items;
    var acc := Obj([]);
    var retained: seq<Json> := [];
    var v := visited;
    var i := 0;
    while i < |refs|
      invariant 0 <= i <= |refs| && visited <= v
      invariant MultiLoop(refs, 0, MultiState(Obj([]), [], visited), pool, isSchema)
                == MultiLoop(refs, i, MultiState(acc, retained, v), pool, isSchema)
    {
      var ref := refs[i];
      if ref.Str? && ref.s in v {
        return Failure(Circular(ref.s));
      }
      var isSchemaRef := false;
      if !isSchema {
        var inc := IncludesOrFail(ref, ".schemas.");
        if inc.Failure? {
          return Failure(inc.error);
        }
        isSchemaRef := inc.value;
      }
      if isSchemaRef {
        retained := retained + [ref];
      } else {
        var entity := ResolveReferenceEntity(ref, pool, v);
        if entity.Failure? {
          return Failure(entity.error);
        }
        VisitMore(pool, visited, v);
        VisitNew(pool, v, ref.s);
        var full := ResolveReferences(entity.value.0, pool, entity.value.1, isSchema);
        if full.Failure? {
          return Failure(full.error);
        }
        acc := DeepMergeInPlace(acc, full.value.0);
        v := full.value.1;
      }
      i := i + 1;
    }
    var merged := DeepMergeInPlace(acc, j);
    if !isSchema && |retained| > 0 {
      merged := SetProp(merged, "$refs", Arr(retained));
    }
    return Success((merged, v));
  }

  /** `merge(entity, availableEntities, isSchema)`. */
  method MergeEntity(entity: Json, pool: Available, isSchema: bool) returns (r: Result<Json, MergeError>)
    ensures r == Merge(entity, pool, isSchema)
  {
    var idv := Prop(entity, "$id");
    if !TruthyOpt(idv) {
      return Failure(Other("Invalid $id format for entity: " + TemplateOf(idv)));
    }
    if !idv.value.Str? {
      return Failure(Other("split is not a function"));
    }
    var n := |Split(idv.value.s, '.')|;
    if n < 3 || n > 4 {
      return Failure(Other("Invalid $id format for entity: " + idv.value.s));
    }
    var j := 0;
    while j < |pool.ids|
      invariant 0 <= j <= |pool.ids|
      invariant forall i :: 0 <= i < j ==> IdValid(pool.ids[i])
    {
      var m := |Split(pool.ids[j], '.')|;
      if m != 3 && m != 4 {
        assert FirstInvalidId(pool.ids) == j;
        return Failure(Other("Invalid $id of availableEntites format for entity: " + pool.ids[j]));
      }
      j := j + 1;
    }
    assert FirstInvalidId(pool.ids) == |pool.ids|;
    var resolved := ResolveReferences(entity, pool.entries, {}, isSchema);
    if resolved.Failure? {
      return Failure(resolved.error);
    }
    r := CleanRefsInPlace(resolved.value.0);
  }
}
