/**
 * The parsed document as the converter sees it: JavaScript values as produced
 * by the YAML loader, with the few runtime operations the converter applies to
 * them (truthiness, `Object.keys`, property access, assignment of a property,
 * `Object.assign`, and conversion to a string).
 */
module JsValues {
  import opened Wrappers
  import opened Strings

  /** A JavaScript value. Numbers are integers or NaN; objects keep their keys in insertion order. */
  datatype Json =
    | Undefined
    | Null
    | Bool(b: bool)
    | Num(n: int)
    | NaN
    | Str(s: string)
    | Arr(items: seq<Json>)
    | Obj(fields: seq<Field>)

  /** One own property of an object. */
  datatype Field = Field(key: string, value: Json)

  /** JavaScript truthiness: every array and object is truthy, even an empty one. */
  predicate Truthy(v: Json) {
    match v
    case Undefined => false
    case Null => false
    case NaN => false
    case Bool(b) => b
    case Num(n) => n != 0
    case Str(s) => s != ""
    case Arr(_) => true
    case Obj(_) => true
  }

  /** The values whose properties can be read without a TypeError. */
  predicate Defined(v: Json) {
    !v.Undefined? && !v.Null?
  }

  predicate NoDup(ks: seq<string>) {
    forall i, j :: 0 <= i < j < |ks| ==> ks[i] != ks[j]
  }

  function KeysOf(fields: seq<Field>): seq<string> {
    seq(|fields|, i requires 0 <= i < |fields| => fields[i].key)
  }

  function Lookup(fields: seq<Field>, k: string): Option<Json> {
    if |fields| == 0 then None
    else if fields[0].key == k then Some(fields[0].value)
    else Lookup(fields[1..], k)
  }

  /** `o[k] = v`: an existing property keeps its place, a new one goes last. */
  function SetField(fields: seq<Field>, k: string, v: Json): seq<Field> {
    if |fields| == 0 then [Field(k, v)]
    else if fields[0].key == k then [Field(k, v)] + fields[1..]
    else [fields[0]] + SetField(fields[1..], k, v)
  }

  /** `Object.assign`: the source's properties are assigned one by one, in order. */
  function AssignFields(fields: seq<Field>, src: seq<Field>): seq<Field>
    decreases |src|
  {
    if |src| == 0 then fields else AssignFields(SetField(fields, src[0].key, src[0].value), src[1..])
  }

  function Set(target: Json, k: string, v: Json): Json
    requires target.Obj?
  {
    Obj(SetField(target.fields, k, v))
  }

  function Assign(target: Json, source: Json): Json
    requires target.Obj? && source.Obj?
  {
    Obj(AssignFields(target.fields, source.fields))
  }

  /** The index property names "0", "1", ... of a string or array of length `n`. */
  function Indices(n: nat): seq<string> {
    seq(n, i requires 0 <= i < n => NatToString(i))
  }

  /** `Object.keys(v)`. */
  function JsKeys(v: Json): seq<string>
    requires Defined(v)
  {
    match v
    case Obj(fields) => KeysOf(fields)
    case Arr(items) => Indices(|items|)
    case Str(s) => Indices(|s|)
    case _ => []
  }

  /**
   * `v[k]` for an own property, an index, or `length`. Inherited members
   * (methods of the prototypes) are not modelled: the converter never asks for one.
   */
  function Get(v: Json, k: string): Json
    requires Defined(v)
  {
    match v
    case Obj(fields) => (match Lookup(fields, k) case Some(x) => x case None => Undefined)
    case Arr(items) =>
      if k == "length" then Num(|items|)
      else if IsIndexName(k) && DecimalValue(k) < |items| then items[DecimalValue(k)]
      else Undefined
    case Str(s) =>
      if k == "length" then Num(|s|)
      else if IsIndexName(k) && DecimalValue(k) < |s| then Str([s[DecimalValue(k)]])
      else Undefined
    case _ => Undefined
  }

  /** `String(v)`: how a value reads when concatenated into a message. */
  function ToJsString(v: Json): string {
    match v
    case Undefined => "undefined"
    case Null => "null"
    case Bool(b) => if b then "true" else "false"
    case Num(n) => IntToString(n)
    case NaN => "NaN"
    case Str(s) => s
    case Arr(items) =>
      Join(seq(|items|, i requires 0 <= i < |items| =>
             if items[i].Undefined? || items[i].Null? then "" else ToJsString(items[i])), ",")
    case Obj(_) => "[object Object]"
  }

  /** `items.join(sep)`: undefined and null elements become empty strings. */
  function ArrayJoin(items: seq<Json>, sep: string): string {
    Join(seq(|items|, i requires 0 <= i < |items| =>
           if items[i].Undefined? || items[i].Null? then "" else ToJsString(items[i])), sep)
  }

  // Facts about property assignment.

  lemma {:induction false} LookupPresent(fields: seq<Field>, k: string)
    ensures Lookup(fields, k).Some? <==> k in KeysOf(fields)
  {
    if |fields| > 0 {
      LookupPresent(fields[1..], k);
      assert KeysOf(fields) == [fields[0].key] + KeysOf(fields[1..]);
    }
  }

  lemma {:induction false} SetFieldLookup(fields: seq<Field>, k: string, v: Json, k': string)
    ensures Lookup(SetField(fields, k, v), k') == if k' == k then Some(v) else Lookup(fields, k')
  {
    if |fields| > 0 && fields[0].key != k {
      SetFieldLookup(fields[1..], k, v, k');
    }
  }

  /** Assignment keeps the order of existing keys and appends a new key at the end. */
  lemma {:induction false} SetFieldKeys(fields: seq<Field>, k: string, v: Json)
    ensures KeysOf(SetField(fields, k, v)) == if k in KeysOf(fields) then KeysOf(fields) else KeysOf(fields) + [k]
  {
    if |fields| > 0 {
      assert KeysOf(fields) == [fields[0].key] + KeysOf(fields[1..]);
      if fields[0].key != k {
        SetFieldKeys(fields[1..], k, v);
        assert KeysOf(SetField(fields, k, v)) == [fields[0].key] + KeysOf(SetField(fields[1..], k, v));
      } else {
        assert KeysOf(SetField(fields, k, v)) == [k] + KeysOf(fields[1..]);
      }
    }
  }

  lemma SetFieldNoDup(fields: seq<Field>, k: string, v: Json)
    requires NoDup(KeysOf(fields))
    ensures NoDup(KeysOf(SetField(fields, k, v)))
  {
    SetFieldKeys(fields, k, v);
  }

  lemma {:induction false} AssignFieldsAppend(fields: seq<Field>, a: seq<Field>, b: seq<Field>)
    ensures AssignFields(fields, a + b) == AssignFields(AssignFields(fields, a), b)
    decreases |a|
  {
    if |a| > 0 {
      assert (a + b)[1..] == a[1..] + b;
      AssignFieldsAppend(SetField(fields, a[0].key, a[0].value), a[1..], b);
    } else {
      assert a + b == b;
    }
  }

  /**
   * After `Object.assign`, a key the source does not have reads as before, and a
   * key the source has reads as the value every source property of that name carries.
   */
  lemma {:induction false} AssignFieldsLookup(fields: seq<Field>, src: seq<Field>, k: string, v: Json)
    ensures k !in KeysOf(src) ==> Lookup(AssignFields(fields, src), k) == Lookup(fields, k)
    ensures k in KeysOf(src) && (forall f :: f in src && f.key == k ==> f.value == v) ==>
              Lookup(AssignFields(fields, src), k) == Some(v)
    decreases |src|
  {
    if |src| > 0 {
      var fields' := SetField(fields, src[0].key, src[0].value);
      assert KeysOf(src) == [src[0].key] + KeysOf(src[1..]);
      assert forall f :: f in src[1..] ==> f in src;
      AssignFieldsLookup(fields', src[1..], k, v);
      SetFieldLookup(fields, src[0].key, src[0].value, k);
    }
  }

  lemma {:induction false} AssignFieldsKeys(fields: seq<Field>, src: seq<Field>)
    ensures forall k :: k in KeysOf(AssignFields(fields, src)) <==> k in KeysOf(fields) || k in KeysOf(src)
    ensures NoDup(KeysOf(fields)) ==> NoDup(KeysOf(AssignFields(fields, src)))
    decreases |src|
  {
    if |src| > 0 {
      var fields' := SetField(fields, src[0].key, src[0].value);
      SetFieldKeys(fields, src[0].key, src[0].value);
      assert KeysOf(src) == [src[0].key] + KeysOf(src[1..]);
      AssignFieldsKeys(fields', src[1..]);
    }
  }

  lemma KeyOfMember(fields: seq<Field>, f: Field)
    requires f in fields
    ensures f.key in KeysOf(fields)
  {
    var i :| 0 <= i < |fields| && fields[i] == f;
    assert KeysOf(fields)[i] == f.key;
  }

  lemma FieldWithKey(fields: seq<Field>, k: string) returns (f: Field)
    requires k in KeysOf(fields)
    ensures f in fields && f.key == k
  {
    var i :| 0 <= i < |fields| && KeysOf(fields)[i] == k;
    f := fields[i];
  }

  lemma {:induction false} LookupUnique(fields: seq<Field>, f: Field)
    requires NoDup(KeysOf(fields)) && f in fields
    ensures Lookup(fields, f.key) == Some(f.value)
  {
    if fields[0] != f {
      assert f in fields[1..];
      var j :| 0 <= j < |fields[1..]| && fields[1..][j] == f;
      assert KeysOf(fields)[0] != KeysOf(fields)[j + 1];
      assert NoDup(KeysOf(fields[1..])) by {
        forall a, b | 0 <= a < b < |fields[1..]| ensures KeysOf(fields[1..])[a] != KeysOf(fields[1..])[b] {
          assert KeysOf(fields)[a + 1] != KeysOf(fields)[b + 1];
        }
      }
      LookupUnique(fields[1..], f);
    }
  }

  /** `Object.assign({}, src)` has `k` exactly when `src` has it, with the value every such property carries. */
  lemma AssignToEmpty(src: seq<Field>, k: string, v: Json)
    requires forall f :: f in src && f.key == k ==> f.value == v
    ensures k in KeysOf(AssignFields([], src)) <==> k in KeysOf(src)
    ensures Get(Obj(AssignFields([], src)), k) == if k in KeysOf(src) then v else Undefined
  {
    AssignFieldsKeys([], src);
    AssignFieldsLookup([], src, k, v);
    LookupPresent(AssignFields([], src), k);
  }

  /** `Object.assign` from a one-property object is a single assignment. */
  lemma AssignOne(target: Json, k: string, v: Json)
    requires target.Obj?
    ensures Assign(target, Obj([Field(k, v)])) == Set(target, k, v)
  {
    assert [Field(k, v)][1..] == [];
    assert AssignFields(target.fields, [Field(k, v)]) == AssignFields(SetField(target.fields, k, v), []);
  }

  lemma GetSet(target: Json, k: string, v: Json, k': string)
    requires target.Obj?
    ensures Get(Set(target, k, v), k') == if k' == k then v else Get(target, k')
  {
    SetFieldLookup(target.fields, k, v, k');
  }

  lemma GetPair(k1: string, v1: Json, k2: string, v2: Json)
    requires k1 != k2
    ensures KeysOf([Field(k1, v1), Field(k2, v2)]) == [k1, k2]
    ensures Get(Obj([Field(k1, v1), Field(k2, v2)]), k1) == v1
    ensures Get(Obj([Field(k1, v1), Field(k2, v2)]), k2) == v2
  {
    var fields := [Field(k1, v1), Field(k2, v2)];
    assert fields[1..] == [Field(k2, v2)];
    assert Lookup(fields, k2) == Lookup([Field(k2, v2)], k2) == Some(v2);
  }
}
