/** The JavaScript values a schema validator can hand back, and the built-in
    `Object.assign` the middleware uses to merge them into a request section
    (src/index.ts:57-74, index.ts:14-31). */
module JavaScript {

  /** A JavaScript value. Numbers are kept as reals; `undefined` and `null`
      are distinct, as in the language. */
  datatype Value =
    | Undefined
    | Null
    | Bool(b: bool)
    | Num(n: real)
    | Str(s: string)
    | Arr(elems: seq<Value>)
    | Obj(fields: map<string, Value>)

  function Digit(d: nat): (c: char)
    requires d < 10
    ensures '0' <= c <= '9'
  {
    ('0' as int + d) as char
  }

  function DigitValue(c: char): nat
    requires '0' <= c <= '9'
  {
    c as int - '0' as int
  }

  /** The property key under which element i of an array or string is
      stored: i written in decimal, without leading zeros. */
  function IndexKey(i: nat): (k: string)
    ensures |k| > 0
    ensures forall j | 0 <= j < |k| :: '0' <= k[j] <= '9'
    ensures i < 10 <==> |k| == 1
  {
    if i < 10 then [Digit(i)] else IndexKey(i / 10) + [Digit(i % 10)]
  }

  /** Reads a string of decimal digits back as a number. */
  function ParseIndex(k: string): nat
    requires forall j | 0 <= j < |k| :: '0' <= k[j] <= '9'
  {
    if k == [] then 0 else ParseIndex(k[..|k| - 1]) * 10 + DigitValue(k[|k| - 1])
  }

  lemma {:induction false} ParseIndexKey(i: nat)
    ensures ParseIndex(IndexKey(i)) == i
  {
    if i >= 10 {
      var k := IndexKey(i / 10);
      assert IndexKey(i) == k + [Digit(i % 10)];
      assert IndexKey(i)[..|IndexKey(i)| - 1] == k;
      ParseIndexKey(i / 10);
    }
  }

  /** Distinct indices have distinct keys, so an array's elements never
      collide when they become properties. */
  lemma IndexKeyInjective()
    ensures forall i: nat, j: nat {:trigger IndexKey(i), IndexKey(j)} :: IndexKey(i) == IndexKey(j) ==> i == j
  {
    forall i: nat, j: nat | IndexKey(i) == IndexKey(j)
      ensures i == j
    {
      ParseIndexKey(i);
      ParseIndexKey(j);
    }
  }

  /** The keys of the first n elements of an array or string. */
  function IndexKeys(n: nat): set<string>
  {
    set i | 0 <= i < n :: IndexKey(i)
  }

  /** The own enumerable properties of an array: element i under key i. */
  function ElementEntries(a: seq<Value>): (e: map<string, Value>)
    ensures e.Keys == IndexKeys(|a|)
    ensures forall i | 0 <= i < |a| :: e[IndexKey(i)] == a[i]
  {
    IndexKeyInjective();
    map i | 0 <= i < |a| :: IndexKey(i) := a[i]
  }

  /** The own enumerable properties of a string: character i, as a
      one-character string, under key i. */
  function CharacterEntries(s: string): (e: map<string, Value>)
    ensures e.Keys == IndexKeys(|s|)
    ensures forall i | 0 <= i < |s| :: e[IndexKey(i)] == Str([s[i]])
  {
    IndexKeyInjective();
    map i | 0 <= i < |s| :: IndexKey(i) := Str([s[i]])
  }

  /** The own enumerable string-keyed properties of `v`, which is what
      `Object.assign` copies from a source: the fields of an object, one
      property per element of an array or character of a string, and none at
      all for `undefined`, `null`, booleans and numbers. */
  function OwnEntries(v: Value): (e: map<string, Value>)
    ensures v.Obj? ==> e == v.fields
    ensures v.Arr? ==> e.Keys == IndexKeys(|v.elems|)
    ensures v.Str? ==> e.Keys == IndexKeys(|v.s|)
    ensures !(v.Obj? || v.Arr? || v.Str?) ==> e == map[]
  {
    match v
    case Obj(m) => m
    case Arr(a) => ElementEntries(a)
    case Str(s) => CharacterEntries(s)
    case _ => map[]
  }

  /** `Object.assign(target, source)` for a plain-object target: every own
      enumerable property of the source is written onto the target, replacing
      a value already there; every other property of the target keeps its
      value. */
  function Assign(target: map<string, Value>, source: Value): (r: map<string, Value>)
    ensures r.Keys == target.Keys + OwnEntries(source).Keys
    ensures forall k | k in OwnEntries(source) :: r[k] == OwnEntries(source)[k]
    ensures forall k | k in target && k !in OwnEntries(source) :: r[k] == target[k]
  {
    target + OwnEntries(source)
  }

  /** A source without own enumerable properties leaves the target as it
      was. */
  lemma AssignPrimitiveIsNoOp(target: map<string, Value>, source: Value)
    requires !(source.Obj? || source.Arr? || source.Str?)
    ensures Assign(target, source) == target
  {
  }

  /** Overlaying an object whose every entry the target already holds
      changes nothing: merging back a value that conformed to the schema
      as it stood is a no-op. */
  lemma AssignConformingIsNoOp(target: map<string, Value>, fields: map<string, Value>)
    requires forall k | k in fields :: k in target && target[k] == fields[k]
    ensures Assign(target, Obj(fields)) == target
  {
  }
}
