/** The reference merge engine: resolving `$ref` / `$refs` links of a JSON
    entity against a pool of entities, combining them with `deepMerge`, and
    tidying the result with `cleanRefs`.

    Every object the code mutates is either a fresh deep copy made inside
    one `merge` call (the entity copy, each resolved pool entry, each
    `JSON.parse(JSON.stringify(node))`) or held only by that copy, so its
    in-place updates are modelled here as functions on immutable values. The
    set of visited reference ids is the one piece of state threaded through the
    whole call. */
module MergeWithRefs {
  import opened Wrappers
  import opened Strings
  import opened OrderedMaps
  import opened JsonValues

  /** What `merge` throws: `CircularRefError` and `UnresolvedRefError` carry
      the offending id as their message; anything else is a plain `Error` or a
      `TypeError`. */
  datatype MergeError = Circular(id: string) | Unresolved(id: string) | Other(message: string)

  /** The entities available for resolution, by id. */
  type Pool = map<string, Json>

  /** `availableEntities`, a JavaScript `Map`: its entries by id, and its ids
      in insertion order (the order `keys()` yields them). */
  datatype Available = Available(entries: Pool, ids: seq<string>)

  /** Every listed id has an entry and every entry is listed. */
  ghost predicate AvailableWellFormed(a: Available)
  {
    forall k :: k in a.entries <==> k in a.ids
  }

  /** `new Map([...a, ...b])`: the entries of `b` win on a shared id, and the
      ids of `a` come first. A shared id is listed a second time, which does
      not change which id is the first malformed one. */
  function MapJoin(a: Available, b: Available): (r: Available)
    ensures AvailableWellFormed(a) && AvailableWellFormed(b) ==> AvailableWellFormed(r)
    ensures forall k :: k in r.entries <==> k in a.entries || k in b.entries
    ensures forall k :: k in b.entries ==> r.entries[k] == b.entries[k]
    ensures forall k :: k in a.entries && k !in b.entries ==> r.entries[k] == a.entries[k]
  {
    Available(a.entries + b.entries, a.ids + b.ids)
  }

  /** A resolved value together with the visited set after producing it. */
  type Resolved = Result<(Json, set<string>), MergeError>

  // ===========================================================================
  // deepMerge
  // ===========================================================================

  /** What a non-empty source object is merged into: the target's value when
      it is an object (or array), otherwise a fresh `{}`. */
  function TargetBase(tv: Option<Json>): Json
  {
    if tv.Some? && IsObjectLike(tv.value) then tv.value else Obj([])
  }

  /** The new value of one key: arrays replace, `{}` replaces, a non-empty
      object recurses, anything else overwrites. */
  function MergeValue(tv: Option<Json>, sv: Json): Json
    decreases Size(sv), 3
  {
    if sv.Arr? then sv
    else if sv.Obj? then (if |sv.fields| == 0 then Obj([]) else DeepMerge(TargetBase(tv), sv))
    else sv
  }

  lemma SizeOfMembers(j: Json)
    requires IsObjectLike(j)
    ensures SizeFields(Members(j)) < Size(j)
  {
    if j.Arr? {
      SizeOfIndexed(j.items);
    }
  }

  /** `deepMerge(target, source)`; a non-object on either side decides the
      result outright. Properties given to an array target never survive the
      JSON round trip every result goes through, so an array target is kept
      as it is. */
  function DeepMerge(target: Json, source: Json): Json
    decreases Size(source), 2
  {
    if !IsObjectLike(target) then source
    else if !IsObjectLike(source) then target
    else if target.Arr? then target
    else
      SizeOfMembers(source);
      Obj(MergeFields(target.fields, Members(source)))
  }

  /** The `for (const key in source)` loop of `deepMerge`, key by key. */
  function MergeFields(t: OMap<Json>, src: OMap<Json>): OMap<Json>
    decreases SizeFields(src), 4
  {
    if |src| == 0 then t
    else MergeFields(Put(t, src[0].key, MergeValue(Get(t, src[0].key), src[0].val)), src[1..])
  }

  // ===========================================================================
  // reference resolution
  // ===========================================================================

  function Unvisited(pool: Pool, visited: set<string>): nat
  {
    |pool.Keys - visited|
  }

  lemma VisitMore(pool: Pool, v: set<string>, v': set<string>)
    requires v <= v'
    ensures Unvisited(pool, v') <= Unvisited(pool, v)
  {
    SubsetCard(pool.Keys - v', pool.Keys - v);
  }

  lemma {:induction false} SubsetCard<T>(a: set<T>, b: set<T>)
    requires a <= b
    ensures |a| <= |b|
    decreases |b|
  {
    if a != {} {
      var x :| x in a;
      SubsetCard(a - {x}, b - {x});
    }
  }

  lemma VisitNew(pool: Pool, v: set<string>, id: string)
    requires id in pool && id !in v
    ensures Unvisited(pool, v + {id}) < Unvisited(pool, v)
  {
    assert pool.Keys - v == (pool.Keys - (v + {id})) + {id};
  }

  /** `x.includes(sub)` with its TypeError as a merge error. */
  function IncludesOrFail(j: Json, sub: string): Result<bool, MergeError>
  {
    match Includes(j, sub)
    case Success(b) => Success(b)
    case Failure(m) => Failure(Other(m))
  }

  /** `resolveReferenceEntity`: an id already visited is circular, an id with
      no truthy pool entry is unresolved (a non-string id can match neither the
      visited set nor a pool key); otherwise the id joins the visited set and
      the pool entry is handed back. */
  function ResolveReferenceEntity(ref: Json, pool: Pool, visited: set<string>): (r: Resolved)
    ensures r.Success? <==> ref.Str? && ref.s !in visited && ref.s in pool && Truthy(pool[ref.s])
    ensures r.Success? ==> r.value == (pool[ref.s], visited + {ref.s})
    ensures ref.Str? && ref.s in visited ==> r == Failure(Circular(ref.s))
    ensures ref.Str? && ref.s !in visited && ref.s !in pool ==> r == Failure(Unresolved(ref.s))
  {
    if ref.Str? && ref.s in visited then Failure(Circular(ref.s))
    else if !ref.Str? || ref.s !in pool || !Truthy(pool[ref.s]) then Failure(Unresolved(JsString(ref)))
    else Success((pool[ref.s], visited + {ref.s}))
  }

  /** `resolveReferences`: a `$ref` is followed first, then a `$refs` array;
      any other object or array has each of its values resolved in order. */
  function ResolveRefs(j: Json, pool: Pool, visited: set<string>, isSchema: bool): (r: Resolved)
    ensures r.Success? ==> visited <= r.value.1
    decreases Unvisited(pool, visited), Size(j), 2, 0
  {
    match j
    case Obj(fields) =>
      if TruthyOpt(Get(fields, "$ref")) then HandleSingleRef(j, pool, visited, isSchema)
      else if Get(fields, "$refs").Some? && Get(fields, "$refs").value.Arr? then
        HandleMultipleRefs(j, pool, visited, isSchema)
      else
        var res :- ResolveFields(fields, pool, visited, isSchema);
        Success((Obj(res.0), res.1))
    case Arr(items) =>
      var res :- ResolveItems(items, pool, visited, isSchema);
      Success((Arr(res.0), res.1))
    case _ => Success((j, visited))
  }

  function ResolveFields(fields: OMap<Json>, pool: Pool, visited: set<string>, isSchema: bool)
    : (r: Result<(OMap<Json>, set<string>), MergeError>)
    ensures r.Success? ==> visited <= r.value.1 && Keys(r.value.0) == Keys(fields)
    decreases Unvisited(pool, visited), SizeFields(fields), 3, 0
  {
    if |fields| == 0 then Success(([], visited))
    else
      var head :- ResolveRefs(fields[0].val, pool, visited, isSchema);
      VisitMore(pool, visited, head.1);
      var tail :- ResolveFields(fields[1..], pool, head.1, isSchema);
      Success(([Entry(fields[0].key, head.0)] + tail.0, tail.1))
  }

  function ResolveItems(items: seq<Json>, pool: Pool, visited: set<string>, isSchema: bool)
    : (r: Result<(seq<Json>, set<string>), MergeError>)
    ensures r.Success? ==> visited <= r.value.1 && |r.value.0| == |items|
    decreases Unvisited(pool, visited), SizeItems(items), 3, 0
  {
    if |items| == 0 then Success(([], visited))
    else
      var head :- ResolveRefs(items[0], pool, visited, isSchema);
      VisitMore(pool, visited, head.1);
      var tail :- ResolveItems(items[1..], pool, head.1, isSchema);
      Success(([head.0] + tail.0, tail.1))
  }

  /** `handleSingleRef`: when building a model, a node whose `$ref` names a
      schema is kept as it is; otherwise the referenced entity is resolved in
      turn and the node's own properties are merged on top of it. */
  function HandleSingleRef(j: Json, pool: Pool, visited: set<string>, isSchema: bool): (r: Resolved)
    requires j.Obj? && TruthyOpt(Get(j.fields, "$ref"))
    ensures r.Success? ==> visited <= r.value.1
    decreases Unvisited(pool, visited), Size(j), 1, 0
  {
    var ref := Get(j.fields, "$ref").value;
    var isSchemaRef :- if !isSchema then IncludesOrFail(ref, ".schemas.") else Success(false);
    if isSchemaRef then Success((j, visited))
    else
      var entity :- ResolveReferenceEntity(ref, pool, visited);
      VisitNew(pool, visited, ref.s);
      var full :- ResolveRefs(entity.0, pool, entity.1, isSchema);
      Success((DeepMerge(full.0, j), full.1))
  }

  /** The loop state of `handleMultipleRefs`. */
  datatype MultiState = MultiState(acc: Json, retained: seq<Json>, visited: set<string>)

  /** The `for (const refId of obj.$refs)` loop from position `i` on. */
  function MultiLoop(refs: seq<Json>, i: nat, st: MultiState, pool: Pool, isSchema: bool)
    : (r: Result<MultiState, MergeError>)
    requires i <= |refs|
    ensures r.Success? ==> st.visited <= r.value.visited
    decreases Unvisited(pool, st.visited), SizeItems(refs), 1, |refs| - i
  {
    if i == |refs| then Success(st)
    else
      var ref := refs[i];
      if ref.Str? && ref.s in st.visited then Failure(Circular(ref.s))
      else
        var isSchemaRef :- if !isSchema then IncludesOrFail(ref, ".schemas.") else Success(false);
        if isSchemaRef then
          MultiLoop(refs, i + 1, st.(retained := st.retained + [ref]), pool, isSchema)
        else
          var entity :- ResolveReferenceEntity(ref, pool, st.visited);
          VisitNew(pool, st.visited, ref.s);
          var full :- ResolveRefs(entity.0, pool, entity.1, isSchema);
          VisitMore(pool, entity.1, full.1);
          MultiLoop(refs, i + 1, MultiState(DeepMerge(st.acc, full.0), st.retained, full.1), pool, isSchema)
  }

  /** `handleMultipleRefs`: the resolved entries merged left to right, then the
      node on top, then (for a model) the skipped schema refs put back. */
  function HandleMultipleRefs(j: Json, pool: Pool, visited: set<string>, isSchema: bool): (r: Resolved)
    requires j.Obj? && Get(j.fields, "$refs").Some? && Get(j.fields, "$refs").value.Arr?
    ensures r.Success? ==> visited <= r.value.1
    decreases Unvisited(pool, visited), Size(j), 1, 0
  {
    var refs := Get(j.fields, "$refs").value.items;
    SizeOfGet(j.fields, "$refs");
    var st :- MultiLoop(refs, 0, MultiState(Obj([]), [], visited), pool, isSchema);
    var merged := DeepMerge(st.acc, j);
    var final := if !isSchema && |st.retained| > 0 then SetProp(merged, "$refs", Arr(st.retained)) else merged;
    Success((final, st.visited))
  }

  // ===========================================================================
  // cleanRefs
  // ===========================================================================

  /** A node whose `$id` is truthy and includes `".models."`. */
  predicate IsModelNode(fields: OMap<Json>)
  {
    TruthyOpt(Get(fields, "$id")) && Includes(Get(fields, "$id").value, ".models.") == Success(true)
  }

  /** `$refs.filter(ref => ref.includes(".schemas."))`. */
  function FilterSchemaRefs(items: seq<Json>): (r: Result<seq<Json>, MergeError>)
    ensures r.Success? ==> forall e :: e in r.value ==> e in items && Includes(e, ".schemas.") == Success(true)
    ensures r.Success? ==> SizeItems(r.value) <= SizeItems(items)
  {
    if |items| == 0 then Success([])
    else
      var keep :- IncludesOrFail(items[0], ".schemas.");
      var rest :- FilterSchemaRefs(items[1..]);
      Success(if keep then [items[0]] + rest else rest)
  }

  /** The part of `cleanRefs` that edits one node before its values are
      visited. */
  function CleanNode(fields: OMap<Json>): (r: Result<OMap<Json>, MergeError>)
    ensures r.Success? ==> forall e :: e in r.value ==> Size(e.val) < Size(Obj(fields))
  {
    AllFieldsSmaller(fields);
    var idv := Get(fields, "$id");
    var isModel :- if TruthyOpt(idv) then IncludesOrFail(idv.value, ".models.") else Success(false);
    if isModel then
      var refsv := Get(fields, "$refs");
      var kept :-
        if refsv.None? || refsv.value.Null? then Success([])
        else if refsv.value.Arr? then FilterSchemaRefs(refsv.value.items)
        else Failure(Other("filter is not a function"));
      SizeOfGet(fields, "$refs");
      FoundMeansNonEmpty(fields, "$id");
      assert Size(Arr(kept)) < Size(Obj(fields));
      var f1 := Put(fields, "$refs", Arr(kept));
      PutEntries(fields, "$refs", Arr(kept));
      assert forall e :: e in f1 ==> Size(e.val) < Size(Obj(fields));
      var rv := Get(f1, "$ref");
      var dropRef :-
        if TruthyOpt(rv) && rv.value.Obj? && TruthyOpt(Get(rv.value.fields, "$id"))
        then IncludesOrFail(Get(rv.value.fields, "$id").value, ".models.")
        else Success(false);
      Success(if dropRef then Remove(f1, "$ref") else f1)
    else
      Success(Remove(Remove(fields, "$ref"), "$refs"))
  }

  /** An object in which some property is found has a positive size. */
  lemma FoundMeansNonEmpty(fields: OMap<Json>, k: string)
    ensures Get(fields, k).Some? ==> SizeFields(fields) >= 1
  {
    if |fields| > 0 {
      assert SizeFields(fields) >= Size(fields[0].val);
    }
  }

  lemma AllFieldsSmaller(fields: OMap<Json>)
    ensures forall e :: e in fields ==> Size(e.val) < Size(Obj(fields))
  {
    forall e | e in fields
      ensures Size(e.val) < Size(Obj(fields))
    {
      var i :| 0 <= i < |fields| && fields[i] == e;
      SizeOfField(fields, i);
    }
  }

  lemma AllItemsSmaller(items: seq<Json>)
    ensures forall x :: x in items ==> Size(x) < Size(Arr(items))
  {
    forall x | x in items
      ensures Size(x) < Size(Arr(items))
    {
      var i :| 0 <= i < |items| && items[i] == x;
      SizeOfItem(items, i);
    }
  }

  /** `cleanRefs`: each node is edited, then each of its values is cleaned. */
  function CleanRefs(j: Json): (r: Result<Json, MergeError>)
    ensures r.Success? ==> (r.value.Obj? <==> j.Obj?) && (r.value.Arr? <==> j.Arr?)
    decreases Size(j), 1, 0
  {
    match j
    case Obj(fields) =>
      var top :- CleanNode(fields);
      var fs :- CleanFields(top, Size(j));
      Success(Obj(fs))
    case Arr(items) =>
      AllItemsSmaller(items);
      var xs :- CleanItems(items, Size(j));
      Success(Arr(xs))
    case _ => Success(j)
  }

  function CleanFields(fs: OMap<Json>, bound: nat): (r: Result<OMap<Json>, MergeError>)
    requires forall e :: e in fs ==> Size(e.val) < bound
    ensures r.Success? ==> |r.value| == |fs|
    ensures r.Success? ==> forall i :: 0 <= i < |fs| ==>
              r.value[i].key == fs[i].key && CleanRefs(fs[i].val) == Success(r.value[i].val)
    decreases bound, 0, |fs|
  {
    if |fs| == 0 then Success([])
    else
      var v :- CleanRefs(fs[0].val);
      var rest :- CleanFields(fs[1..], bound);
      Success([Entry(fs[0].key, v)] + rest)
  }

  function CleanItems(items: seq<Json>, bound: nat): (r: Result<seq<Json>, MergeError>)
    requires forall x :: x in items ==> Size(x) < bound
    ensures r.Success? ==> |r.value| == |items|
    ensures r.Success? ==> forall i :: 0 <= i < |items| ==> CleanRefs(items[i]) == Success(r.value[i])
    decreases bound, 0, |items|
  {
    if |items| == 0 then Success([])
    else
      var v :- CleanRefs(items[0]);
      var rest :- CleanItems(items[1..], bound);
      Success([v] + rest)
  }

  // ===========================================================================
  // merge
  // ===========================================================================

  /** The entity's `$id` is a string of 3 or 4 dot-separated segments. */
  predicate EntityIdValid(entity: Json)
  {
    var idv := Prop(entity, "$id");
    idv.Some? && idv.value.Str? && 3 <= SegmentCount(idv.value.s, '.') <= 4
  }

  /** An id of `availableEntities` has 3 or 4 dot-separated segments. */
  predicate IdValid(k: string)
  {
    SegmentCount(k, '.') == 3 || SegmentCount(k, '.') == 4
  }

  predicate PoolKeysValid(pool: Available)
  {
    forall j :: 0 <= j < |pool.ids| ==> IdValid(pool.ids[j])
  }

  /** The position of the first malformed id, `|ids|` when there is none. */
  function FirstInvalidId(ids: seq<string>): (r: nat)
    ensures r <= |ids|
    ensures forall j :: 0 <= j < r ==> IdValid(ids[j])
    ensures r < |ids| ==> !IdValid(ids[r])
  {
    if |ids| == 0 || !IdValid(ids[0]) then 0 else 1 + FirstInvalidId(ids[1..])
  }

  /** On a well-formed map, checking the listed ids is checking every key. */
  lemma PoolKeysValidMeaning(pool: Available)
    requires AvailableWellFormed(pool)
    ensures PoolKeysValid(pool) <==> forall k :: k in pool.entries ==> IdValid(k)
    ensures PoolKeysValid(pool) <==> FirstInvalidId(pool.ids) == |pool.ids|
  {
    if !PoolKeysValid(pool) {
      var j :| 0 <= j < |pool.ids| && !IdValid(pool.ids[j]);
      assert pool.ids[j] in pool.entries;
    }
  }

  /** `merge(entity, availableEntities, isSchema)`. */
  function Merge(entity: Json, pool: Available, isSchema: bool): (r: Result<Json, MergeError>)
    ensures !EntityIdValid(entity) ==> r.Failure? && r.error.Other?
    ensures EntityIdValid(entity) && !PoolKeysValid(pool) ==>
              var j := FirstInvalidId(pool.ids);
              j < |pool.ids| && !IdValid(pool.ids[j]) && (forall i :: 0 <= i < j ==> IdValid(pool.ids[i])) &&
              r == Failure(Other("Invalid $id of availableEntites format for entity: " + pool.ids[j]))
  {
    var idv := Prop(entity, "$id");
    if !TruthyOpt(idv) then Failure(Other("Invalid $id format for entity: " + TemplateOf(idv)))
    else if !idv.value.Str? then Failure(Other("split is not a function"))
    else if SegmentCount(idv.value.s, '.') < 3 || SegmentCount(idv.value.s, '.') > 4 then
      Failure(Other("Invalid $id format for entity: " + idv.value.s))
    else if FirstInvalidId(pool.ids) < |pool.ids| then
      Failure(Other("Invalid $id of availableEntites format for entity: " + pool.ids[FirstInvalidId(pool.ids)]))
    else
      var resolved :- ResolveRefs(entity, pool.entries, {}, isSchema);
      CleanRefs(resolved.0)
  }
}
