/**
 * The local half of `DatabaseApi`: a key to value store in the browser's
 * local storage. Values are written as JSON text and read back parsed, and
 * JSON is taken as the identity on values; writing `undefined` stores the
 * text "undefined", which the model keeps as `Undef`. Requests to the
 * remote service are not part of this model.
 */
module DatabaseApis {
  import opened Js

  /** The browser's local storage, shared by every `DatabaseApi`. */
  class LocalStorage {
    var items: map<string, Value>

    constructor(initial: map<string, Value>)
      ensures items == initial
    {
      items := initial;
    }
  }

  /**
   * `readResourceFromLocalStorage(key)` on the items `items`: an empty array
   * when nothing is stored under `key` or the stored text is "undefined".
   */
  function Stored(items: map<string, Value>, key: string): (v: Value)
    ensures key !in items ==> v == Arr([])
    ensures key in items ==> v == if items[key] == Undef then Arr([]) else items[key]
  {
    if key in items && items[key] != Undef then items[key] else Arr([])
  }

  /** Reading a key after writing it gives the value written (an empty array for `undefined`); other keys read as before. */
  lemma ReadAfterWrite(items: map<string, Value>, key: string, v: Value)
    ensures Stored(items[key := v], key) == if v == Undef then Arr([]) else v
    ensures forall other :: other != key ==> Stored(items[key := v], other) == Stored(items, other)
  {
  }

  /**
   * `[...existing, resource]`: the stored elements followed by the new one.
   * Only arrays and strings can be spread into an array; anything else throws.
   */
  function Appended(existing: Value, resource: Value): (r: Result<Value>)
    ensures r.Ok? <==> existing.Arr? || existing.Str?
    ensures r.Err? ==> r.error == TypeError
    ensures existing.Arr? ==> r == Ok(Arr(existing.elems + [resource]))
    ensures r.Ok? ==> (r.value.Arr? && |r.value.elems| == |Iterate(existing).value| + 1 &&
      r.value.elems[..|r.value.elems| - 1] == Iterate(existing).value &&
      r.value.elems[|r.value.elems| - 1] == resource)
  {
    var elems :- Iterate(existing);
    Ok(Arr(elems + [resource]))
  }

  /** `element[targetKey] === targetValue`; reading a key of undefined or null throws. */
  function Matches(element: Value, targetKey: string, targetValue: Value): (r: Result<bool>)
    ensures r.Ok? <==> element != Undef && element != Null
    ensures r.Err? ==> r.error == TypeError
  {
    var x :- Get(element, targetKey);
    Ok(StrictEq(x, targetValue))
  }

  /** Every element can be compared with the target. */
  predicate Testable(elems: seq<Value>)
  {
    forall i :: 0 <= i < |elems| ==> elems[i] != Undef && elems[i] != Null
  }

  /** The `map` in `updateResourceInLocalStorage`: every matching element becomes `resource`. */
  function Replaced(elems: seq<Value>, targetKey: string, targetValue: Value, resource: Value): (r: Result<seq<Value>>)
    ensures r.Ok? <==> Testable(elems)
    ensures r.Err? ==> r.error == TypeError
    ensures r.Ok? ==> |r.value| == |elems|
    ensures r.Ok? ==> forall i :: 0 <= i < |elems| ==>
      r.value[i] == if Matches(elems[i], targetKey, targetValue) == Ok(true) then resource else elems[i]
  {
    if Testable(elems) then
      Ok(seq(|elems|, i requires 0 <= i < |elems| && Matches(elems[i], targetKey, targetValue).Ok? =>
        if Matches(elems[i], targetKey, targetValue).value then resource else elems[i]))
    else Err(TypeError)
  }

  /**
   * What `updateResourceInLocalStorage` writes back for the stored value
   * `existing`: the bare resource when it has length 0, otherwise the array
   * with matching elements replaced. Only arrays have `map`.
   */
  function Updated(existing: Value, targetKey: string, targetValue: Value, resource: Value): (r: Result<Value>)
    ensures existing == Arr([]) ==> r == Ok(resource)
    ensures existing.Arr? && existing.elems != [] ==>
      (r.Ok? <==> Testable(existing.elems)) &&
      (r.Ok? ==> r == Ok(Arr(Replaced(existing.elems, targetKey, targetValue, resource).value)))
    ensures existing == Null ==> r == Err(TypeError)
    ensures r.Err? ==> r.error == TypeError
  {
    var length :- Get(existing, "length");
    if StrictEq(length, Num(0.0)) then Ok(resource)
    else if existing.Arr? then
      var elems :- Replaced(existing.elems, targetKey, targetValue, resource);
      Ok(Arr(elems))
    else Err(TypeError)
  }

  /** The `filter` in `deleteResource`: the elements that do not match, in order. */
  function Filtered(elems: seq<Value>, targetKey: string, targetValue: Value): (r: Result<seq<Value>>)
    ensures r.Ok? <==> Testable(elems)
    ensures r.Err? ==> r.error == TypeError
    decreases |elems|
  {
    if elems == [] then Ok([])
    else
      var hit :- Matches(elems[0], targetKey, targetValue);
      var rest :- Filtered(elems[1..], targetKey, targetValue);
      Ok(if hit then rest else [elems[0]] + rest)
  }

  /** The filter keeps exactly the elements that do not match. */
  lemma {:induction false} FilteredMembers(elems: seq<Value>, targetKey: string, targetValue: Value)
    requires Testable(elems)
    ensures forall x :: x in Filtered(elems, targetKey, targetValue).value ==>
      x in elems && Matches(x, targetKey, targetValue) == Ok(false)
    ensures forall i :: 0 <= i < |elems| && Matches(elems[i], targetKey, targetValue) == Ok(false) ==>
      elems[i] in Filtered(elems, targetKey, targetValue).value
    decreases |elems|
  {
    if elems != [] {
      assert Testable(elems[1..]);
      FilteredMembers(elems[1..], targetKey, targetValue);
      forall i | 1 <= i < |elems|
        ensures elems[i] == elems[1..][i - 1]
      {
      }
    }
  }

  /** Filtering keeps order: filtering two parts one after the other is filtering their concatenation. */
  lemma {:induction false} FilteredConcat(a: seq<Value>, b: seq<Value>, targetKey: string, targetValue: Value)
    requires Testable(a) && Testable(b)
    ensures Filtered(a + b, targetKey, targetValue) ==
      Ok(Filtered(a, targetKey, targetValue).value + Filtered(b, targetKey, targetValue).value)
    decreases |a|
  {
    if a != [] {
      var ab := a + b;
      assert ab[0] == a[0] && ab[1..] == a[1..] + b;
      assert Testable(a[1..]);
      FilteredConcat(a[1..], b, targetKey, targetValue);
      var hit := Matches(a[0], targetKey, targetValue).value;
      var fa := Filtered(a[1..], targetKey, targetValue).value;
      var fb := Filtered(b, targetKey, targetValue).value;
      assert Filtered(ab, targetKey, targetValue) == Ok(if hit then fa + fb else [a[0]] + (fa + fb));
      assert Filtered(a, targetKey, targetValue) == Ok(if hit then fa else [a[0]] + fa);
      assert [a[0]] + (fa + fb) == ([a[0]] + fa) + fb;
    } else {
      assert a + b == b;
      assert Filtered(a, targetKey, targetValue) == Ok([]);
      assert Filtered(b, targetKey, targetValue).Ok?;
      assert [] + Filtered(b, targetKey, targetValue).value == Filtered(b, targetKey, targetValue).value;
    }
  }

  /** A filter removes exactly the matching elements: it keeps all of them when none matches. */
  lemma {:induction false} FilteredNoMatch(elems: seq<Value>, targetKey: string, targetValue: Value)
    requires forall i :: 0 <= i < |elems| ==> Matches(elems[i], targetKey, targetValue) == Ok(false)
    ensures Filtered(elems, targetKey, targetValue) == Ok(elems)
    decreases |elems|
  {
    if elems != [] {
      FilteredNoMatch(elems[1..], targetKey, targetValue);
      assert [elems[0]] + elems[1..] == elems;
    }
  }

  /**
   * What `readResource` resolves to: the local value when its length is not
   * 0, otherwise `fetched`, the remote answer's "files found".
   */
  function LocalFirst(local: Value, fetched: Value): (r: Result<Value>)
    ensures local.Arr? && local.elems != [] ==> r == Ok(local)
    ensures local == Arr([]) ==> r == Ok(fetched)
    ensures local == Null ==> r == Err(TypeError)
    ensures r.Ok? ==> r.value == local || r.value == fetched
  {
    var length :- Get(local, "length");
    if StrictEq(length, Num(0.0)) then Ok(fetched) else Ok(local)
  }

  /** `DatabaseApi`: the local-storage operations over the shared storage. */
  class DatabaseApi {
    const resourcesDomain: Value
    const storage: LocalStorage

    constructor(resourcesDomain: Value, storage: LocalStorage)
      ensures this.resourcesDomain == resourcesDomain && this.storage == storage
    {
      this.resourcesDomain := resourcesDomain;
      this.storage := storage;
    }

    /** `readResourceFromLocalStorage`. */
    method ReadResourceFromLocalStorage(key: string) returns (v: Value)
      ensures v == Stored(storage.items, key)
      ensures key in storage.items && storage.items[key] != Undef ==> v == storage.items[key]
    {
      v := Stored(storage.items, key);
    }

    /** `createResourceInLocalStorage`: overwrites one key. */
    method CreateResourceInLocalStorage(key: string, resource: Value)
      modifies storage
      ensures storage.items == old(storage.items)[key := resource]
    {
      storage.items := storage.items[key := resource];
    }

    /** `createResource`, local half: the same write as `createResourceInLocalStorage`. */
    method CreateResource(key: string, resource: Value)
      modifies storage
      ensures storage.items == old(storage.items)[key := resource]
    {
      CreateResourceInLocalStorage(key, resource);
    }

    /** `saveResourceToLocalStorage`: appends `resource` to the stored list. */
    method SaveResourceToLocalStorage(key: string, resource: Value) returns (c: Completion)
      modifies storage
      ensures var r := Appended(Stored(old(storage.items), key), resource);
        if r.Ok? then c == Normal && storage.items == old(storage.items)[key := r.value]
        else c == Abrupt(TypeError) && storage.items == old(storage.items)
    {
      var existing := ReadResourceFromLocalStorage(key);
      var updated := Appended(existing, resource);
      if updated.Err? {
        return Abrupt(updated.error);
      }
      CreateResourceInLocalStorage(key, updated.value);
      c := Normal;
    }

    /** `updateResourceInLocalStorage`: replaces the matching elements, or stores the bare resource. */
    method UpdateResourceInLocalStorage(key: string, targetKey: string, targetValue: Value, resource: Value)
      returns (c: Completion)
      modifies storage
      ensures var r := Updated(Stored(old(storage.items), key), targetKey, targetValue, resource);
        if r.Ok? then c == Normal && storage.items == old(storage.items)[key := r.value]
        else c == Abrupt(TypeError) && storage.items == old(storage.items)
    {
      var existing := ReadResourceFromLocalStorage(key);
      var updated := Updated(existing, targetKey, targetValue, resource);
      if updated.Err? {
        return Abrupt(updated.error);
      }
      CreateResourceInLocalStorage(key, updated.value);
      c := Normal;
    }

    /** `deleteResource`, local half: keeps the elements that do not match. Only arrays have `filter`. */
    method DeleteResource(key: string, targetKey: string, targetValue: Value) returns (c: Completion)
      modifies storage
      ensures var stored := Stored(old(storage.items), key);
        if stored.Arr? && Testable(stored.elems) then
          c == Normal &&
          storage.items == old(storage.items)[key := Arr(Filtered(stored.elems, targetKey, targetValue).value)]
        else c == Abrupt(TypeError) && storage.items == old(storage.items)
    {
      var resources := ReadResourceFromLocalStorage(key);
      if !resources.Arr? {
        return Abrupt(TypeError);
      }
      var kept := Filtered(resources.elems, targetKey, targetValue);
      if kept.Err? {
        return Abrupt(kept.error);
      }
      storage.items := storage.items[key := Arr(kept.value)];
      c := Normal;
    }

    /** `readResource`: the local value unless it is empty, else what the remote returned. */
    method ReadResource(key: string, fetched: Value) returns (r: Result<Value>)
      ensures r == LocalFirst(Stored(storage.items, key), fetched)
      ensures key !in storage.items ==> r == Ok(fetched)
    {
      var resource := ReadResourceFromLocalStorage(key);
      r := LocalFirst(resource, fetched);
    }
  }
}
