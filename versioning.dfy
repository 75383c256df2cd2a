/** The versioning decision both copies share (`DefaultVersioningStrategy` and
    the legacy `buildAll`): the highest version number found among the file
    names of an entity's version folder, a key-order-independent deep
    comparison of JSON values, and the three-way choice between creating
    version 1, adding version N+1 and overwriting version N. */
module VersionRules {
  import opened Wrappers
  import opened Strings
  import opened OrderedMaps
  import opened JsonValues
  import opened FileStores
  import opened MergeWithRefs

  // ---------------------------------------------------------------------------
  // version numbers in file names
  // ---------------------------------------------------------------------------

  /** The characters `.` does not match in a JavaScript regular expression. */
  predicate IsLineTerminator(c: char)
  {
    c == '\n' || c == '\r' || c == '\U{2028}' || c == '\U{2029}'
  }

  /** `s.lastIndexOf(c)`. */
  function LastIndexOfChar(s: string, c: char): (i: int)
    ensures -1 <= i < |s|
    ensures i >= 0 ==> s[i] == c
    ensures forall k :: i < k < |s| ==> s[k] != c
  {
    if |s| == 0 then -1
    else if s[|s| - 1] == c then |s| - 1
    else LastIndexOfChar(s[..|s| - 1], c)
  }

  const JsonSuffix := ".json"

  /** `parseInt(match[2], 10)` when the name matches `^(.+)_([0-9]+)\.json$`,
      else `None`. The digits run from the last `_` to the suffix, since
      they can hold no `_`; the part before that `_` is non-empty and holds
      no line terminator. */
  function VersionOf(name: string): Option<nat>
  {
    if |name| < |JsonSuffix| || name[|name| - |JsonSuffix|..] != JsonSuffix then None
    else
      var stem := name[..|name| - |JsonSuffix|];
      var i := LastIndexOfChar(stem, '_');
      if i < 1 || i + 1 == |stem| || !AllDigits(stem[i + 1..]) then None
      else if exists k :: 0 <= k < i && IsLineTerminator(stem[k]) then None
      else Some(DigitsValue(stem[i + 1..]))
  }

  /** The name of version `k` of a file whose name without `.json` is `stem`:
      `` `${stem}_${k}.json` ``. */
  function VersionFileName(stem: string, k: nat): string
  {
    stem + "_" + NatToString(k) + JsonSuffix
  }

  /** A stem that the regular expression's `(.+)` can match. */
  predicate PlainStem(stem: string)
  {
    |stem| > 0 && forall k :: 0 <= k < |stem| ==> !IsLineTerminator(stem[k])
  }

  /** The name written for version `k` reads back as version `k`. */
  lemma VersionOfFileName(stem: string, k: nat)
    requires PlainStem(stem)
    ensures VersionOf(VersionFileName(stem, k)) == Some(k)
  {
    var digits := NatToString(k);
    var name := VersionFileName(stem, k);
    assert name == (stem + "_" + digits) + JsonSuffix;
    var base := stem + "_" + digits;
    assert name[..|name| - |JsonSuffix|] == base;
    assert name[|name| - |JsonSuffix|..] == JsonSuffix;
    assert base[|stem|] == '_';
    assert base[|stem| + 1..] == digits;
    forall j | |stem| < j < |base|
      ensures base[j] != '_'
    {
      assert base[j] == digits[j - |stem| - 1];
      assert IsDigit(digits[j - |stem| - 1]);
    }
    var i := LastIndexOfChar(base, '_');
    assert i == |stem|;
    forall j | 0 <= j < i
      ensures !IsLineTerminator(base[j])
    {
      assert base[j] == stem[j];
    }
    DigitsValueOfNatToString(k);
  }

  /** The version numbers among `names`, in listing order (the `map` and
      `filter` of `getLatestVersionOnDisk`). */
  function Versions(names: seq<string>): seq<nat>
  {
    if |names| == 0 then []
    else (match VersionOf(names[0]) case Some(v) => [v] case None => []) + Versions(names[1..])
  }

  /** `Math.max(...xs)`, or 0 for an empty list. */
  function MaxOf(xs: seq<nat>): nat
  {
    if |xs| == 0 then 0
    else
      var rest := MaxOf(xs[1..]);
      if xs[0] > rest then xs[0] else rest
  }

  /** The highest version number among the names, 0 when none matches. */
  function LatestIn(names: seq<string>): nat
  {
    MaxOf(Versions(names))
  }

  lemma {:induction false} VersionsMembers(names: seq<string>)
    ensures forall v :: v in Versions(names) <==> exists n :: n in names && VersionOf(n) == Some(v)
  {
    if |names| > 0 {
      VersionsMembers(names[1..]);
      forall v | (exists n :: n in names && VersionOf(n) == Some(v))
        ensures v in Versions(names)
      {
        var n :| n in names && VersionOf(n) == Some(v);
        if n != names[0] {
          assert n in names[1..];
        }
      }
    }
  }

  lemma {:induction false} MaxOfMeaning(xs: seq<nat>)
    ensures forall x :: x in xs ==> x <= MaxOf(xs)
    ensures MaxOf(xs) > 0 ==> MaxOf(xs) in xs
  {
    if |xs| > 0 {
      MaxOfMeaning(xs[1..]);
      assert forall x :: x in xs ==> x == xs[0] || x in xs[1..];
    }
  }

  /** `getLatestVersionOnDisk` over a listing: no name carries a higher
      version, and a positive result is the version of some name; gaps and
      names that do not match are ignored. */
  lemma LatestInMeaning(names: seq<string>)
    ensures forall n :: n in names && VersionOf(n).Some? ==> VersionOf(n).value <= LatestIn(names)
    ensures LatestIn(names) > 0 ==> exists n :: n in names && VersionOf(n) == Some(LatestIn(names))
    ensures (forall n :: n in names ==> VersionOf(n).None?) ==> LatestIn(names) == 0
  {
    VersionsMembers(names);
    MaxOfMeaning(Versions(names));
  }

  /** Adding the file of a version at least as high as the current latest
      makes the next scan report that version. */
  lemma NextScanSeesVersion(names: seq<string>, stem: string, k: nat)
    requires PlainStem(stem) && LatestIn(names) <= k
    ensures LatestIn(names + [VersionFileName(stem, k)]) == k
  {
    var names' := names + [VersionFileName(stem, k)];
    VersionOfFileName(stem, k);
    LatestInMeaning(names);
    LatestInMeaning(names');
    assert VersionFileName(stem, k) in names';
    forall n | n in names' && VersionOf(n).Some?
      ensures VersionOf(n).value <= k
    {
      if n !in names {
        assert n == VersionFileName(stem, k);
      }
    }
  }

  /** `getLatestVersionOnDisk(versionDir)`: 0 when nothing is at the path;
      listing a file instead of a folder throws. */
  function LatestVersionOnDisk(fs: FileStore, dir: string): (r: Result<nat, string>)
    ensures !Exists(fs, dir) ==> r == Success(0)
    ensures dir in fs.dirs ==> r == Success(LatestIn(fs.dirs[dir]))
  {
    if !Exists(fs, dir) then Success(0)
    else
      match ReadDirectory(fs, dir)
      case Failure(e) => Failure(e)
      case Success(names) => Success(LatestIn(names))
  }

  // ---------------------------------------------------------------------------
  // compareJsonContent
  // ---------------------------------------------------------------------------

  /** Both are objects to `typeof`: arrays and plain objects. */
  predicate ObjectLike(j: Json)
  {
    j.Arr? || j.Obj?
  }

  lemma MembersSmaller(j: Json)
    ensures forall e :: e in Members(j) ==> Size(e.val) < Size(j)
  {
    match j
    case Obj(fields) => AllFieldsSmaller(fields);
    case Arr(items) =>
      AllItemsSmaller(items);
      forall e | e in Members(j)
        ensures Size(e.val) < Size(j)
      {
        var i :| 0 <= i < |Members(j)| && Members(j)[i] == e;
        assert e.val == items[i] && items[i] in items;
      }
    case _ =>
  }

  /** `compareJsonContent(a, b)`. `null` equals only `null`; two arrays need
      equal lengths and equal elements; two objects (an array being an object
      whose keys are its indices) need the same keys once sorted, that is the
      same multiset of keys, and equal values under each of `a`'s keys; other
      values are compared with `===`. */
  function CompareJson(a: Json, b: Json): bool
    decreases Size(a), 1
  {
    if a.Null? || b.Null? then a == b
    else if a.Arr? && b.Arr? then
      |a.items| == |b.items| && (AllItemsSmaller(a.items); CompareItems(a.items, b.items, Size(a)))
    else if ObjectLike(a) && ObjectLike(b) then
      var ma := Members(a);
      var mb := Members(b);
      multiset(Keys(ma)) == multiset(Keys(mb)) && (MembersSmaller(a); CompareFields(ma, mb, Size(a)))
    else a == b
  }

  /** `aKeys.every((key) => compareJsonContent(a[key], b[key]))`; a key `b`
      lacks compares a value with `undefined`, which fails. */
  function CompareFields(fs: OMap<Json>, mb: OMap<Json>, bound: nat): bool
    requires forall e :: e in fs ==> Size(e.val) < bound
    decreases bound, 0, |fs|
  {
    if |fs| == 0 then true
    else
      assert fs[0] in fs;
      (match Get(mb, fs[0].key) case None => false case Some(v) => CompareJson(fs[0].val, v))
      && CompareFields(fs[1..], mb, bound)
  }

  /** `a.every((item, index) => compareJsonContent(item, b[index]))`. */
  function CompareItems(xs: seq<Json>, ys: seq<Json>, bound: nat): bool
    requires |xs| == |ys|
    requires forall x :: x in xs ==> Size(x) < bound
    decreases bound, 0, |xs|
  {
    if |xs| == 0 then true
    else
      assert xs[0] in xs;
      CompareJson(xs[0], ys[0]) && CompareItems(xs[1..], ys[1..], bound)
  }

  /** `compareJsonContent(a[key], b[key])` for the entry `e` of `a`: `b` has
      the key, under an equal value. */
  predicate FieldMatches(e: Entry<Json>, mb: OMap<Json>)
  {
    Get(mb, e.key).Some? && CompareJson(e.val, Get(mb, e.key).value)
  }

  lemma {:induction false} CompareFieldsMeaning(fs: OMap<Json>, mb: OMap<Json>, bound: nat)
    requires forall e :: e in fs ==> Size(e.val) < bound
    ensures CompareFields(fs, mb, bound) <==> forall i :: 0 <= i < |fs| ==> FieldMatches(fs[i], mb)
    decreases |fs|
  {
    if |fs| > 0 {
      CompareFieldsMeaning(fs[1..], mb, bound);
      assert forall i :: 1 <= i < |fs| ==> fs[i] == fs[1..][i - 1];
    }
  }

  lemma {:induction false} CompareItemsMeaning(xs: seq<Json>, ys: seq<Json>, bound: nat)
    requires |xs| == |ys|
    requires forall x :: x in xs ==> Size(x) < bound
    ensures CompareItems(xs, ys, bound) <==> forall i :: 0 <= i < |xs| ==> CompareJson(xs[i], ys[i])
    decreases |xs|
  {
    if |xs| > 0 {
      CompareItemsMeaning(xs[1..], ys[1..], bound);
      assert forall i :: 1 <= i < |xs| ==> xs[i] == xs[1..][i - 1] && ys[i] == ys[1..][i - 1];
    }
  }

  /** A JSON value as `JSON.parse` produces it: no object repeats a key. */
  predicate WellFormed(j: Json)
  {
    match j
    case Obj(fields) => DistinctKeys(fields) && forall e | e in fields :: WellFormed(e.val)
    case Arr(items) => forall x | x in items :: WellFormed(x)
    case _ => true
  }

  /** The members of an array are keyed by distinct indices. */
  lemma IndexKeysDistinct(items: seq<Json>)
    ensures DistinctKeys(Members(Arr(items)))
  {
    var m := Members(Arr(items));
    forall i, j | 0 <= i < j < |m|
      ensures m[i].key != m[j].key
    {
      if m[i].key == m[j].key {
        NatToStringInjective(i, j);
      }
    }
  }

  lemma WellFormedMembers(j: Json)
    requires WellFormed(j)
    ensures DistinctKeys(Members(j))
    ensures forall e :: e in Members(j) ==> WellFormed(e.val)
  {
    match j
    case Obj(fields) =>
    case Arr(items) =>
      IndexKeysDistinct(items);
      forall e | e in Members(j)
        ensures WellFormed(e.val)
      {
        var i :| 0 <= i < |Members(j)| && Members(j)[i] == e;
        assert e.val == items[i] && items[i] in items;
      }
    case _ =>
  }

  /** Every value equals itself. */
  lemma {:induction false} CompareReflexive(a: Json)
    requires WellFormed(a)
    ensures CompareJson(a, a)
    decreases Size(a)
  {
    if a.Arr? {
      AllItemsSmaller(a.items);
      forall i | 0 <= i < |a.items|
        ensures CompareJson(a.items[i], a.items[i])
      {
        assert a.items[i] in a.items;
        CompareReflexive(a.items[i]);
      }
      CompareItemsMeaning(a.items, a.items, Size(a));
    } else if a.Obj? {
      var m := Members(a);
      MembersSmaller(a);
      WellFormedMembers(a);
      forall i | 0 <= i < |m|
        ensures Get(m, m[i].key).Some? && CompareJson(m[i].val, Get(m, m[i].key).value)
      {
        GetAtDistinct(m, i);
        assert m[i] in m;
        CompareReflexive(m[i].val);
      }
      CompareFieldsMeaning(m, m, Size(a));
    }
  }

  /** The comparison does not depend on the order of its arguments. */
  lemma {:induction false} CompareSymmetric(a: Json, b: Json)
    requires WellFormed(a) && WellFormed(b) && CompareJson(a, b)
    ensures CompareJson(b, a)
    decreases Size(a)
  {
    if a.Null? || b.Null? {
    } else if a.Arr? && b.Arr? {
      AllItemsSmaller(a.items);
      AllItemsSmaller(b.items);
      CompareItemsMeaning(a.items, b.items, Size(a));
      forall i | 0 <= i < |b.items|
        ensures CompareJson(b.items[i], a.items[i])
      {
        assert a.items[i] in a.items && b.items[i] in b.items;
        CompareSymmetric(a.items[i], b.items[i]);
      }
      CompareItemsMeaning(b.items, a.items, Size(b));
    } else if ObjectLike(a) && ObjectLike(b) {
      var ma := Members(a);
      var mb := Members(b);
      MembersSmaller(a);
      MembersSmaller(b);
      WellFormedMembers(a);
      WellFormedMembers(b);
      CompareFieldsMeaning(ma, mb, Size(a));
      forall j | 0 <= j < |mb|
        ensures Get(ma, mb[j].key).Some? && CompareJson(mb[j].val, Get(ma, mb[j].key).value)
      {
        var k := mb[j].key;
        assert Keys(mb)[j] == k;
        assert k in multiset(Keys(ma));
        var i :| 0 <= i < |ma| && Keys(ma)[i] == k;
        GetAtDistinct(ma, i);
        GetAtDistinct(mb, j);
        assert ma[i] in ma && mb[j] in mb;
        CompareSymmetric(ma[i].val, mb[j].val);
      }
      CompareFieldsMeaning(mb, ma, Size(b));
    }
  }

  /** In a map without repeated keys every key occurs once. */
  lemma {:induction false} DistinctKeyBag(m: OMap<Json>)
    requires DistinctKeys(m)
    ensures forall k :: multiset(Keys(m))[k] == if k in Keys(m) then 1 else 0
    decreases |m|
  {
    if |m| > 0 {
      DistinctKeyBag(m[1..]);
      assert Keys(m) == [m[0].key] + Keys(m[1..]);
      assert m[0].key !in Keys(m[1..]) by {
        forall i | 0 <= i < |m[1..]|
          ensures Keys(m[1..])[i] != m[0].key
        {
          assert m[1..][i] == m[i + 1];
        }
      }
    }
  }

  /** Key order does not matter: an object equals any reordering of its
      entries. */
  lemma ReorderedObjectsEqual(fa: OMap<Json>, fb: OMap<Json>)
    requires WellFormed(Obj(fa)) && WellFormed(Obj(fb)) && multiset(fa) == multiset(fb)
    ensures CompareJson(Obj(fa), Obj(fb))
  {
    DistinctKeyBag(fa);
    DistinctKeyBag(fb);
    forall k
      ensures multiset(Keys(fa))[k] == multiset(Keys(fb))[k]
    {
      if k in Keys(fa) {
        var i :| 0 <= i < |fa| && Keys(fa)[i] == k;
        assert fa[i] in multiset(fb);
        var j :| 0 <= j < |fb| && fb[j] == fa[i];
        assert Keys(fb)[j] == k;
      }
      if k in Keys(fb) {
        var j :| 0 <= j < |fb| && Keys(fb)[j] == k;
        assert fb[j] in multiset(fa);
        var i :| 0 <= i < |fa| && fa[i] == fb[j];
        assert Keys(fa)[i] == k;
      }
    }
    assert multiset(Keys(fa)) == multiset(Keys(fb));
    MembersSmaller(Obj(fa));
    forall i | 0 <= i < |fa|
      ensures Get(fb, fa[i].key).Some? && CompareJson(fa[i].val, Get(fb, fa[i].key).value)
    {
      assert fa[i] in multiset(fb);
      var j :| 0 <= j < |fb| && fb[j] == fa[i];
      GetAtDistinct(fb, j);
      assert fa[i] in fa;
      CompareReflexive(fa[i].val);
    }
    CompareFieldsMeaning(fa, fb, Size(Obj(fa)));
  }

  /** Values of different kinds, or arrays of different lengths, differ. */
  lemma DifferentShapesDiffer(a: Json, b: Json)
    requires (a.Arr? && b.Arr? && |a.items| != |b.items|) || (a.Null? != b.Null?)
             || (a.Str? && !b.Str?) || (a.Num? && !b.Num?) || (a.Bool? && !b.Bool?)
    ensures !CompareJson(a, b)
  {
  }

  /** An array equals the object keyed by its indices, since both are
      compared by their sorted keys; in particular `[]` equals `{}`. */
  lemma ArrayMatchesIndexObject(items: seq<Json>)
    requires WellFormed(Arr(items))
    ensures CompareJson(Arr(items), Obj(Members(Arr(items))))
  {
    var m := Members(Arr(items));
    MembersSmaller(Arr(items));
    WellFormedMembers(Arr(items));
    forall i | 0 <= i < |m|
      ensures Get(m, m[i].key).Some? && CompareJson(m[i].val, Get(m, m[i].key).value)
    {
      GetAtDistinct(m, i);
      assert m[i] in m;
      CompareReflexive(m[i].val);
    }
    CompareFieldsMeaning(m, m, Size(Arr(items)));
  }

  // ---------------------------------------------------------------------------
  // the decision
  // ---------------------------------------------------------------------------

  /** What happens to one entity: nothing, or version `k` is written. */
  datatype Action = Keep | Stage(version: nat)

  /** The on-disk facts the decision reads. */
  datatype DiskState = DiskState(latest: nat, sameAsLatest: bool, latestChangedInGit: bool)

  /** The three-way table: no version yet gives version 1; content equal to
      version N changes nothing; otherwise version N is overwritten when its
      file is changed in git, else version N+1 is added. */
  function Decide(d: DiskState): (a: Action)
    ensures a.Stage? ==> a.version >= 1
  {
    if d.latest == 0 then Stage(1)
    else if d.sameAsLatest then Keep
    else if d.latestChangedInGit then Stage(d.latest)
    else Stage(d.latest + 1)
  }

  /** The version written never goes below the latest one, exceeds it by at
      most one, and moves past it only when the latest file is committed. */
  lemma DecideBounds(d: DiskState)
    ensures Decide(d).Stage? ==> d.latest <= Decide(d).version <= d.latest + 1
    ensures Decide(d).Stage? && Decide(d).version == d.latest + 1 ==> d.latest == 0 || !d.latestChangedInGit
    ensures Decide(d).Keep? <==> d.latest > 0 && d.sameAsLatest
  {
  }

  /** The comparison and the git state matter only with a version on disk,
      and the git state only when the content differs. */
  lemma DecideReads(d: DiskState, d': DiskState)
    requires d.latest == d'.latest
    ensures d.latest == 0 ==> Decide(d) == Decide(d')
    ensures d.sameAsLatest == d'.sameAsLatest && (d.sameAsLatest || d.latest == 0) ==> Decide(d) == Decide(d')
  {
  }
}
