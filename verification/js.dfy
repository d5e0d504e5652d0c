/**
 * JavaScript values and objects as the chart-specification layer uses them.
 *
 * An object is the list of its own properties in insertion order, which is the
 * order `Object.keys` and object spread observe. Assigning a property that
 * exists keeps its position; assigning a new one appends it. Objects whose
 * identity matters (a trace record shared between a builder and a plot, a
 * dashboard slot found by `indexOf`) live on the heap as `JsObject`.
 */
module Js {

  datatype Value =
    | Undef
    | Null
    | Bool(b: bool)
    | Num(n: real)
    | Str(s: string)
    | Arr(elems: seq<Value>)
    | Obj(props: seq<Prop>)

  /** One own property of an object. */
  datatype Prop = Prop(key: string, val: Value)

  type Props = seq<Prop>

  datatype Option<+T> = None | Some(value: T)

  /** The two exceptions the modelled code can raise. */
  datatype JsError = TypeError | ReferenceError

  /** The value an expression or a method call produces, or the exception it throws. */
  datatype Result<+T> = Ok(value: T) | Err(error: JsError) {
    predicate IsFailure() { Err? }

    function PropagateFailure<U>(): Result<U>
      requires Err?
    {
      Err(error)
    }

    function Extract(): T
      requires Ok?
    {
      value
    }
  }

  /** How a call that returns `undefined` ends: normally, or by throwing. */
  datatype Completion = Normal | Abrupt(error: JsError)

  /** A heap-allocated JavaScript object: references to it share its properties. */
  class JsObject {
    var props: Props

    constructor(p: Props)
      ensures props == p
    {
      props := p;
    }
  }

  // ---------------------------------------------------------------------------
  // Own properties

  /** `Object.keys` of an object. */
  function Keys(p: Props): (ks: seq<string>)
    ensures |ks| == |p|
    ensures forall i :: 0 <= i < |p| ==> ks[i] == p[i].key
  {
    seq(|p|, i requires 0 <= i < |p| => p[i].key)
  }

  lemma {:induction false} KeysConcat(p: Props, q: Props)
    ensures Keys(p + q) == Keys(p) + Keys(q)
  {
    assert |Keys(p + q)| == |Keys(p) + Keys(q)|;
    forall i | 0 <= i < |p + q|
      ensures Keys(p + q)[i] == (Keys(p) + Keys(q))[i]
    {
      if i >= |p| {
        assert (p + q)[i] == q[i - |p|];
      }
    }
  }

  predicate Has(p: Props, k: string)
  {
    k in Keys(p)
  }

  predicate Distinct(ks: seq<string>)
  {
    forall i, j :: 0 <= i < j < |ks| ==> ks[i] != ks[j]
  }

  /** Every property outside `changed` reads the same in `p` and `q`. */
  ghost predicate SameExcept(p: Props, q: Props, changed: set<string>)
  {
    forall k :: k !in changed ==> Lookup(q, k) == Lookup(p, k)
  }

  /** Reading property `k`; `undefined` when the object has no such property. */
  function Lookup(p: Props, k: string): Value
  {
    if p == [] then Undef
    else if p[0].key == k then p[0].val
    else Lookup(p[1..], k)
  }

  /** In an object with distinct keys, each property reads as its own entry. */
  lemma {:induction false} LookupAt(p: Props, i: nat)
    requires i < |p| && Distinct(Keys(p))
    ensures Lookup(p, p[i].key) == p[i].val
  {
    if i > 0 {
      assert Keys(p)[0] != Keys(p)[i];
      assert Keys(p[1..]) == Keys(p)[1..];
      LookupAt(p[1..], i - 1);
    }
  }

  lemma {:induction false} LookupAbsent(p: Props, k: string)
    requires !Has(p, k)
    ensures Lookup(p, k) == Undef
  {
    if p != [] {
      LookupAbsent(p[1..], k);
    }
  }

  /** The assignment `o[k] = v`: overwrite in place, or append a new property. */
  function Put(p: Props, k: string, v: Value): (r: Props)
    ensures Lookup(r, k) == v
    ensures forall j :: j != k ==> Lookup(r, j) == Lookup(p, j)
  {
    if p == [] then [Prop(k, v)]
    else if p[0].key == k then [Prop(k, v)] + p[1..]
    else
      var rest := Put(p[1..], k, v);
      assert ([p[0]] + rest)[1..] == rest;
      [p[0]] + rest
  }

  /** An assignment keeps the key order: an existing key stays where it is, a new one goes last. */
  lemma {:induction false} PutKeyOrder(p: Props, k: string, v: Value)
    ensures Has(p, k) ==> Keys(Put(p, k, v)) == Keys(p)
    ensures !Has(p, k) ==> Keys(Put(p, k, v)) == Keys(p) + [k]
  {
    if p != [] {
      var r := Put(p, k, v);
      if p[0].key == k {
        assert Keys(p)[0] == k;
        assert r == [Prop(k, v)] + p[1..];
        assert Keys(r) == Keys(p);
      } else {
        PutKeyOrder(p[1..], k, v);
        var r' := Put(p[1..], k, v);
        assert r == [p[0]] + r';
        KeysConcat([p[0]], r');
        KeysConcat([p[0]], p[1..]);
        assert p == [p[0]] + p[1..];
        assert Has(p, k) <==> Has(p[1..], k);
      }
    }
  }

  lemma PutKeys(p: Props, k: string, v: Value)
    ensures Keys(Put(p, k, v)) == if Has(p, k) then Keys(p) else Keys(p) + [k]
    ensures forall j :: Has(Put(p, k, v), j) <==> Has(p, j) || j == k
  {
    PutKeyOrder(p, k, v);
  }

  /** Assigning a property the value it already has changes nothing. */
  lemma {:induction false} PutExisting(p: Props, k: string)
    requires Has(p, k)
    ensures Put(p, k, Lookup(p, k)) == p
  {
    if p[0].key != k {
      PutExisting(p[1..], k);
    }
  }

  /** A second assignment to the same property wins and leaves the order of the first. */
  lemma {:induction false} PutPut(p: Props, k: string, v: Value, w: Value)
    ensures Put(Put(p, k, v), k, w) == Put(p, k, w)
  {
    if p != [] && p[0].key != k {
      PutPut(p[1..], k, v, w);
      assert Put(p, k, v) == [p[0]] + Put(p[1..], k, v);
      assert (Put(p, k, v))[1..] == Put(p[1..], k, v);
    }
  }

  /**
   * Overwriting a property that is already present commutes with any other
   * assignment: neither moves a key the other one placed.
   */
  lemma {:induction false} PutCommute(q: Props, j: string, x: Value, k: string, w: Value)
    requires j != k && Has(q, k)
    ensures Put(Put(q, j, x), k, w) == Put(Put(q, k, w), j, x)
  {
    if q[0].key == k {
      assert Put(q, k, w) == [Prop(k, w)] + q[1..];
      assert Put(q, j, x) == [q[0]] + Put(q[1..], j, x);
    } else if q[0].key == j {
      assert Put(q, j, x) == [Prop(j, x)] + q[1..];
      assert Put(q, k, w) == [q[0]] + Put(q[1..], k, w);
    } else {
      assert Keys(q) == [q[0].key] + Keys(q[1..]);
      PutCommute(q[1..], j, x, k, w);
      assert Put(q, j, x) == [q[0]] + Put(q[1..], j, x);
      assert Put(q, k, w) == [q[0]] + Put(q[1..], k, w);
      assert Put(q, j, x)[1..] == Put(q[1..], j, x);
      assert Put(q, k, w)[1..] == Put(q[1..], k, w);
    }
  }

  /**
   * The object literal `{...p, u1, u2, ...}` evaluated left to right: each
   * entry of `u` is assigned in turn, so a repeated key keeps its first
   * position and its last value.
   */
  function PutAll(p: Props, u: Props): Props
    decreases |u|
  {
    if u == [] then p else PutAll(Put(p, u[0].key, u[0].val), u[1..])
  }

  /**
   * Keys the literal does not name read as before; with distinct keys, every
   * key it names reads as its entry.
   */
  lemma {:induction false} PutAllLookup(p: Props, u: Props)
    ensures forall k :: !Has(u, k) ==> Lookup(PutAll(p, u), k) == Lookup(p, k)
    ensures Distinct(Keys(u)) ==> forall k :: Has(u, k) ==> Lookup(PutAll(p, u), k) == Lookup(u, k)
    decreases |u|
  {
    if u != [] {
      KeysConcat([u[0]], u[1..]);
      assert u == [u[0]] + u[1..];
      PutAllLookup(Put(p, u[0].key, u[0].val), u[1..]);
      if Distinct(Keys(u)) {
        forall i | 0 <= i < |u[1..]|
          ensures Keys(u[1..])[i] != u[0].key
        {
          assert Keys(u)[0] != Keys(u)[i + 1];
        }
        forall i, j | 0 <= i < j < |u[1..]|
          ensures Keys(u[1..])[i] != Keys(u[1..])[j]
        {
          assert Keys(u)[i + 1] != Keys(u)[j + 1];
        }
      }
    }
  }

  /** After `PutAll` an object has exactly the keys it had and the keys of `u`. */
  lemma {:induction false} PutAllHas(p: Props, u: Props)
    ensures forall k :: Has(PutAll(p, u), k) <==> Has(p, k) || Has(u, k)
    decreases |u|
  {
    if u != [] {
      PutKeys(p, u[0].key, u[0].val);
      PutAllHas(Put(p, u[0].key, u[0].val), u[1..]);
      assert Keys(u) == [u[0].key] + Keys(u[1..]);
    }
  }

  /** One step of an object literal: the first entry is assigned, then the rest. */
  lemma PutAllStep(p: Props, u: Props)
    requires u != []
    ensures PutAll(p, u) == PutAll(Put(p, u[0].key, u[0].val), u[1..])
  {
  }

  /** The keys after the first of a list with distinct keys are distinct and differ from the first. */
  lemma DistinctTail(u: Props)
    requires u != [] && Distinct(Keys(u))
    ensures Distinct(Keys(u[1..]))
    ensures forall i :: 0 <= i < |u[1..]| ==> u[1..][i].key != u[0].key
  {
    forall i, j | 0 <= i < j < |u[1..]|
      ensures Keys(u[1..])[i] != Keys(u[1..])[j]
    {
      assert Keys(u)[i + 1] != Keys(u)[j + 1];
    }
    forall i | 0 <= i < |u[1..]|
      ensures u[1..][i].key != u[0].key
    {
      assert Keys(u)[0] != Keys(u)[i + 1];
    }
  }

  /** Assigning keys that are all new, in order, appends them. */
  lemma {:induction false} NewKeysAppend(p: Props, u: Props)
    requires Distinct(Keys(u))
    requires forall i :: 0 <= i < |u| ==> !Has(p, u[i].key)
    ensures PutAll(p, u) == p + u
    decreases |u|
  {
    if u != [] {
      PutAllStep(p, u);
      AppendNew(p, u[0].key, u[0].val);
      var p' := p + [u[0]];
      KeysConcat(p, [u[0]]);
      DistinctTail(u);
      forall i | 0 <= i < |u[1..]|
        ensures !Has(p', u[1..][i].key)
      {
        assert u[1..][i] == u[i + 1];
      }
      NewKeysAppend(p', u[1..]);
      assert p' + u[1..] == p + u;
    }
  }

  /** Assigning a key the object lacks appends it. */
  lemma {:induction false} AppendNew(p: Props, k: string, v: Value)
    requires !Has(p, k)
    ensures Put(p, k, v) == p + [Prop(k, v)]
  {
    if p != [] {
      assert Keys(p) == [p[0].key] + Keys(p[1..]);
      AppendNew(p[1..], k, v);
      assert p == [p[0]] + p[1..];
    }
  }

  /**
   * A literal that names its first key again as its third: the later value
   * wins and takes the first one's place.
   */
  lemma LiteralRepeatedFirst(a: Prop, b: Prop, c: Prop, rest: Props)
    requires a.key == c.key && b.key != a.key
    requires Distinct(Keys(rest))
    requires !Has(rest, a.key) && !Has(rest, b.key)
    ensures PutAll([], [a, b, c] + rest) == [c, b] + rest
  {
    assert [a, b, c] + rest == [a] + ([b] + ([c] + rest));
    PutAllCons([], a, [b] + ([c] + rest));
    assert Put([], a.key, a.val) == [a];
    PutAllCons([a], b, [c] + rest);
    assert Keys([a]) == [a.key];
    AppendNew([a], b.key, b.val);
    assert Put([a], b.key, b.val) == [a, b];
    PutAllCons([a, b], c, rest);
    assert Put([a, b], c.key, c.val) == [c, b];
    assert Keys([c, b]) == [c.key, b.key];
    forall i | 0 <= i < |rest|
      ensures !Has([c, b], rest[i].key)
    {
      assert Keys(rest)[i] == rest[i].key;
    }
    NewKeysAppend([c, b], rest);
  }

  lemma PutAllCons(p: Props, x: Prop, rest: Props)
    ensures PutAll(p, [x] + rest) == PutAll(Put(p, x.key, x.val), rest)
  {
    assert ([x] + rest)[1..] == rest;
  }

  /** An object literal `{k1: v1, ...}` with the entries of `u`. */
  function Literal(u: Props): (r: Props)
    ensures forall k :: !Has(u, k) ==> Lookup(r, k) == Undef
    ensures Distinct(Keys(u)) ==> forall k :: Has(u, k) ==> Lookup(r, k) == Lookup(u, k)
  {
    PutAllLookup([], u);
    PutAll([], u)
  }

  // ---------------------------------------------------------------------------
  // Values

  /** Evaluating an identifier: its binding, or a ReferenceError when no scope declares it. */
  function Identifier(scope: map<string, Value>, name: string): (r: Result<Value>)
    ensures r.Ok? <==> name in scope
    ensures r.Ok? ==> r.value == scope[name]
    ensures r.Err? ==> r.error == ReferenceError
  {
    if name in scope then Ok(scope[name]) else Err(ReferenceError)
  }

  /** The own properties `{...v}` copies: an object's, or the indexed elements of an array or a string. */
  function Spread(v: Value): Props
  {
    match v
    case Obj(p) => p
    case Arr(s) => seq(|s|, i requires 0 <= i < |s| => Prop(IndexKey(i), s[i]))
    case Str(s) => seq(|s|, i requires 0 <= i < |s| => Prop(IndexKey(i), Str([s[i]])))
    case _ => []
  }

  /** The own properties of the object stored under `field` (none when there is no object there). */
  function Inner(p: Props, field: string): Props
  {
    Spread(Lookup(p, field))
  }

  /**
   * `this[field] = {...this[field], u1, u2, ...}`: a fresh object that keeps
   * the old sub-object's properties and overrides those named in `u`.
   */
  function Merged(p: Props, field: string, u: Props): (r: Props)
    ensures Lookup(r, field).Obj?
    ensures forall k :: k != field ==> Lookup(r, k) == Lookup(p, k)
    ensures forall k :: !Has(u, k) ==> Lookup(Inner(r, field), k) == Lookup(Inner(p, field), k)
    ensures Distinct(Keys(u)) ==> forall k :: Has(u, k) ==> Lookup(Inner(r, field), k) == Lookup(u, k)
  {
    PutAllLookup(Inner(p, field), u);
    Put(p, field, Obj(PutAll(Inner(p, field), u)))
  }

  /** A merge keeps the outer key order, and the merged sub-object has the old keys and those of `u`. */
  lemma MergedKeys(p: Props, field: string, u: Props)
    ensures Keys(Merged(p, field, u)) == if Has(p, field) then Keys(p) else Keys(p) + [field]
    ensures forall k :: Has(Inner(Merged(p, field, u), field), k) <==> Has(Inner(p, field), k) || Has(u, k)
  {
    PutKeys(p, field, Obj(PutAll(Inner(p, field), u)));
    PutAllHas(Inner(p, field), u);
  }

  /** Merging a single entry writes it and leaves every other entry of the sub-object as it was. */
  lemma MergedOne(p: Props, field: string, key: string, v: Value, k: string)
    ensures Lookup(Inner(Merged(p, field, [Prop(key, v)]), field), key) == v
    ensures k != key ==> Lookup(Inner(Merged(p, field, [Prop(key, v)]), field), k) == Lookup(Inner(p, field), k)
  {
    assert Keys([Prop(key, v)]) == [key];
  }

  /** JavaScript's falsy values (NaN is not a value of the model). */
  predicate Falsy(v: Value)
  {
    v == Undef || v == Null || v == Bool(false) || v == Num(0.0) || v == Str("")
  }

  /**
   * `a === b`. Primitives compare by value. Arrays and objects compare by
   * reference; the values of the model are fresh copies (parsed JSON, literals),
   * so no two of them are the same reference.
   */
  predicate StrictEq(a: Value, b: Value)
  {
    !a.Arr? && !a.Obj? && a == b
  }

  /** Reading `v[k]`: undefined and null throw, other primitives have no own data properties. */
  function Get(v: Value, k: string): (r: Result<Value>)
    ensures r.Err? <==> v == Undef || v == Null
    ensures r.Err? ==> r.error == TypeError
    ensures v.Obj? ==> r == Ok(Lookup(v.props, k))
  {
    match v
    case Undef => Err(TypeError)
    case Null => Err(TypeError)
    case Obj(p) => Ok(Lookup(p, k))
    case Arr(s) =>
      if k == "length" then Ok(Num(|s| as real))
      else (match ParseIndex(k)
            case Some(i) => if i < |s| then Ok(s[i]) else Ok(Undef)
            case None => Ok(Undef))
    case Str(s) =>
      if k == "length" then Ok(Num(|s| as real))
      else (match ParseIndex(k)
            case Some(i) => if i < |s| then Ok(Str([s[i]])) else Ok(Undef)
            case None => Ok(Undef))
    case _ => Ok(Undef)
  }

  /** The assignment `v[k] = x` in strict mode, where only an object accepts it. */
  function SetProp(v: Value, k: string, x: Value): (r: Result<Value>)
    ensures r.Ok? <==> v.Obj?
    ensures r.Ok? ==> r.value.Obj? && Lookup(r.value.props, k) == x
    ensures r.Ok? ==> forall j :: j != k ==> Lookup(r.value.props, j) == Lookup(v.props, j)
    ensures r.Err? ==> r.error == TypeError
  {
    if v.Obj? then Ok(Obj(Put(v.props, k, x))) else Err(TypeError)
  }

  /** `Object.keys(v)`: throws on undefined and null; arrays and strings list their indices. */
  function ObjectKeys(v: Value): (r: Result<seq<string>>)
    ensures r.Err? <==> v == Undef || v == Null
    ensures r.Err? ==> r.error == TypeError
    ensures v.Obj? ==> r == Ok(Keys(v.props))
    ensures v.Arr? ==> r == Ok(IndexKeys(|v.elems|))
  {
    match v
    case Undef => Err(TypeError)
    case Null => Err(TypeError)
    case Obj(p) => Ok(Keys(p))
    case Arr(s) => Ok(IndexKeys(|s|))
    case Str(s) => Ok(IndexKeys(|s|))
    case _ => Ok([])
  }

  /** The elements `[...v]` iterates: an array's elements, a string's characters; anything else throws. */
  function Iterate(v: Value): (r: Result<seq<Value>>)
    ensures r.Ok? <==> v.Arr? || v.Str?
    ensures v.Arr? ==> r == Ok(v.elems)
    ensures v.Str? ==> |r.value| == |v.s|
  {
    match v
    case Arr(s) => Ok(s)
    case Str(s) => Ok(seq(|s|, i requires 0 <= i < |s| => Str([s[i]])))
    case _ => Err(TypeError)
  }

  // ---------------------------------------------------------------------------
  // Array index keys: "0", "1", ..., canonical decimal numerals

  function DigitChar(d: nat): (c: char)
    requires d < 10
    ensures '0' <= c <= '9'
    ensures c as int - '0' as int == d
  {
    (d + '0' as int) as char
  }

  predicate AllDigits(k: string)
  {
    forall i :: 0 <= i < |k| ==> '0' <= k[i] <= '9'
  }

  /** The property key of array index `n`. */
  function IndexKey(n: nat): (k: string)
    ensures |k| > 0 && AllDigits(k)
    ensures n > 0 ==> k[0] != '0'
    ensures n < 10 <==> |k| == 1
    decreases n
  {
    if n < 10 then [DigitChar(n)] else IndexKey(n / 10) + [DigitChar(n % 10)]
  }

  function DigitsValue(k: string): nat
    requires AllDigits(k)
  {
    if k == [] then 0 else DigitsValue(k[..|k| - 1]) * 10 + (k[|k| - 1] as int - '0' as int)
  }

  /** The array index a property key denotes, if any. */
  function ParseIndex(k: string): Option<nat>
  {
    if k != [] && AllDigits(k) && (|k| == 1 || k[0] != '0') then Some(DigitsValue(k)) else None
  }

  function IndexKeys(n: nat): (ks: seq<string>)
    ensures |ks| == n
    ensures forall i :: 0 <= i < n ==> ks[i] == IndexKey(i)
  {
    seq(n, i requires 0 <= i < n => IndexKey(i))
  }

  lemma {:induction false} IndexKeyValue(n: nat)
    ensures DigitsValue(IndexKey(n)) == n
    decreases n
  {
    if n >= 10 {
      var k := IndexKey(n);
      IndexKeyValue(n / 10);
      assert k[..|k| - 1] == IndexKey(n / 10);
    }
  }

  /** Index keys parse back to their index. */
  lemma ParseIndexKey(n: nat)
    ensures ParseIndex(IndexKey(n)) == Some(n)
  {
    IndexKeyValue(n);
  }

  lemma {:induction false} DigitsPositive(k: string)
    requires |k| > 0 && AllDigits(k) && k[0] != '0'
    ensures DigitsValue(k) > 0
    decreases |k|
  {
    if |k| > 1 {
      DigitsPositive(k[..|k| - 1]);
    }
  }

  /** Every key that parses as an index is the index key of its value. */
  lemma {:induction false} ParsedIndexKey(k: string)
    requires ParseIndex(k).Some?
    ensures IndexKey(ParseIndex(k).value) == k
    decreases |k|
  {
    var n := DigitsValue(k);
    if |k| == 1 {
      assert k[..0] == [];
      assert DigitsValue(k[..0]) == 0;
      assert n == DigitsValue(k[..0]) * 10 + (k[0] as int - '0' as int);
      assert DigitChar(n) as int == k[0] as int;
    } else {
      var front := k[..|k| - 1];
      DigitsPositive(front);
      assert ParseIndex(front).Some? && ParseIndex(front).value == DigitsValue(front);
      ParsedIndexKey(front);
      var d := k[|k| - 1] as int - '0' as int;
      assert n == DigitsValue(front) * 10 + d && 0 <= d < 10;
      assert n / 10 == DigitsValue(front) && n % 10 == d;
      assert DigitChar(d) as int == k[|k| - 1] as int;
      assert IndexKey(n) == IndexKey(n / 10) + [DigitChar(n % 10)];
      assert k == front + [k[|k| - 1]];
    }
  }

  /** Distinct indices have distinct keys. */
  lemma IndexKeysDistinct(n: nat)
    ensures Distinct(IndexKeys(n))
  {
    forall i, j | 0 <= i < j < n
      ensures IndexKey(i) != IndexKey(j)
    {
      ParseIndexKey(i);
      ParseIndexKey(j);
    }
  }
}
