/** JSON values as the configuration tools see them after `JSON.parse`:
    objects are insertion-ordered property lists (key order shows in merge
    output), numbers are integers. The JavaScript notions the code relies on
    (truthiness, `typeof x === 'object'`, `String(x)`, property access) are
    written out explicitly. */
module JsonValues {
  import opened Wrappers
  import opened Strings
  import opened OrderedMaps

  datatype Json =
    | Null
    | Bool(b: bool)
    | Num(n: int)
    | Str(s: string)
    | Arr(items: seq<Json>)
    | Obj(fields: OMap<Json>)

  /** An absent property (`undefined`) is represented by `None`. */
  predicate Truthy(j: Json)
  {
    match j
    case Null => false
    case Bool(b) => b
    case Num(n) => n != 0
    case Str(s) => s != ""
    case Arr(_) => true
    case Obj(_) => true
  }

  predicate TruthyOpt(o: Option<Json>)
  {
    o.Some? && Truthy(o.value)
  }

  /** `x !== null && typeof x === 'object'`. */
  predicate IsObjectLike(j: Json)
  {
    j.Arr? || j.Obj?
  }

  /** `x.k` for a property name that is never an array index (every property
      the tools read by name starts with `$`). */
  function Prop(j: Json, k: string): Option<Json>
  {
    if j.Obj? then Get(j.fields, k) else None
  }

  /** `x.k = v` on an object; assigning a property of anything else has no
      lasting effect. */
  function SetProp(j: Json, k: string, v: Json): (r: Json)
    ensures j.Obj? ==> r.Obj? && Get(r.fields, k) == Some(v)
    ensures !j.Obj? ==> r == j
  {
    if j.Obj? then Obj(Put(j.fields, k, v)) else j
  }

  /** `delete x.k`. */
  function DeleteProp(j: Json, k: string): (r: Json)
    ensures j.Obj? ==> r.Obj? && Get(r.fields, k) == None
    ensures !j.Obj? ==> r == j
  {
    if j.Obj? then Obj(Remove(j.fields, k)) else j
  }

  // ---------------------------------------------------------------------------
  // size, for termination
  // ---------------------------------------------------------------------------

  function Size(j: Json): (n: nat)
    ensures n >= 1
  {
    match j
    case Arr(items) => 1 + SizeItems(items)
    case Obj(fields) => 1 + SizeFields(fields)
    case _ => 1
  }

  function SizeItems(items: seq<Json>): nat
  {
    if |items| == 0 then 0 else Size(items[0]) + SizeItems(items[1..])
  }

  function SizeFields(fields: OMap<Json>): nat
  {
    if |fields| == 0 then 0 else Size(fields[0].val) + SizeFields(fields[1..])
  }

  lemma {:induction false} SizeOfItem(items: seq<Json>, i: nat)
    requires i < |items|
    ensures Size(items[i]) <= SizeItems(items)
    ensures SizeItems(items[i + 1..]) < SizeItems(items[i..])
    ensures SizeItems(items[i..]) <= SizeItems(items)
  {
    if i > 0 {
      SizeOfItem(items[1..], i - 1);
      assert items[1..][i - 1..] == items[i..];
      assert items[1..][i..] == items[i + 1..];
    }
  }

  lemma {:induction false} SizeOfField(fields: OMap<Json>, i: nat)
    requires i < |fields|
    ensures Size(fields[i].val) <= SizeFields(fields)
    ensures SizeFields(fields[i + 1..]) < SizeFields(fields[i..])
    ensures SizeFields(fields[i..]) <= SizeFields(fields)
  {
    if i > 0 {
      SizeOfField(fields[1..], i - 1);
      assert fields[1..][i - 1..] == fields[i..];
      assert fields[1..][i..] == fields[i + 1..];
    }
  }

  /** A property value found by `Get` is smaller than the object. */
  lemma {:induction false} SizeOfGet(fields: OMap<Json>, k: string)
    ensures Get(fields, k).Some? ==> Size(Get(fields, k).value) <= SizeFields(fields)
  {
    if |fields| > 0 && fields[0].key != k {
      SizeOfGet(fields[1..], k);
    }
  }

  // ---------------------------------------------------------------------------
  // keys of arrays, String(x)
  // ---------------------------------------------------------------------------

  /** The own enumerable properties of an object-like value in `for..in` /
      `Object.keys` order: an object's properties, an array's indices. */
  function Members(j: Json): OMap<Json>
  {
    match j
    case Obj(fields) => fields
    case Arr(items) => seq(|items|, i requires 0 <= i < |items| => Entry(NatToString(i), items[i]))
    case _ => []
  }

  lemma {:induction false} SizeOfIndexed(items: seq<Json>)
    ensures SizeFields(Members(Arr(items))) == SizeItems(items)
    decreases |items|
  {
    var m := Members(Arr(items));
    if |items| > 0 {
      var tail := Members(Arr(items[1..]));
      SizeOfIndexed(items[1..]);
      SizeFieldsOfSameValues(m[1..], tail);
    }
  }

  lemma {:induction false} SizeFieldsOfSameValues(a: OMap<Json>, b: OMap<Json>)
    requires |a| == |b| && forall i :: 0 <= i < |a| ==> a[i].val == b[i].val
    ensures SizeFields(a) == SizeFields(b)
    decreases |a|
  {
    if |a| > 0 {
      SizeFieldsOfSameValues(a[1..], b[1..]);
    }
  }

  /** `String(x)` for a JSON value (`null` and holes print as empty inside an
      array). */
  function JsString(j: Json): string
  {
    match j
    case Null => "null"
    case Bool(b) => if b then "true" else "false"
    case Num(n) => IntToString(n)
    case Str(s) => s
    case Arr(items) => Join(ItemStrings(items), ',')
    case Obj(_) => "[object Object]"
  }

  function ItemStrings(items: seq<Json>): seq<string>
  {
    if |items| == 0 then []
    else [if items[0].Null? then "" else JsString(items[0])] + ItemStrings(items[1..])
  }

  /** The template literal `${x}` of an optional property (`undefined` when
      absent). */
  function TemplateOf(o: Option<Json>): string
  {
    if o.Some? then JsString(o.value) else "undefined"
  }

  /** `x.includes(sub)`: a string tests for a substring, an array for an
      element equal to the string; any other receiver throws a TypeError. */
  function Includes(j: Json, sub: string): Result<bool, string>
  {
    match j
    case Str(s) => Success(Contains(s, sub))
    case Arr(items) => Success(Str(sub) in items)
    case _ => Failure("includes is not a function")
  }
}
