/**
 * The search form's state (`components/Forms/SearchForm.js`): the `searchParams`
 * object, its initialisation from `initialValues`, the handlers that edit, reset and
 * clear it, and `hasActiveFilters`. The object is an insertion-ordered record of
 * JavaScript values; the `onSearch` and `onReset` callbacks belong to the parent and
 * are not modelled.
 */
module SearchForm {
  import opened Wrappers
  import opened Collections
  import opened JsValues

  /** The six parameters, each empty: the defaults and what `handleReset` installs. */
  const EmptyParams: Record :=
    [("query", Str("")), ("emotion", Str("")), ("soundType", Str("")),
     ("tag", Str("")), ("author", Str("")), ("location", Str(""))]

  const ParamNames: seq<string> := ["query", "emotion", "soundType", "tag", "author", "location"]

  /** `{ ...base, ...over }`: each property of `over`, in order, written over `base`. */
  function Spread(base: Record, over: Record): Record
    decreases |over|
  {
    if over == [] then base else Spread(Put(base, over[0].0, over[0].1), over[1..])
  }

  /** The initial `searchParams`: the empty parameters overridden by `initialValues`. */
  function InitialParams(initialValues: Record): Record {
    Spread(EmptyParams, initialValues)
  }

  lemma DistinctKeysTail<K, V>(d: Entries<K, V>)
    requires DistinctKeys(d) && d != []
    ensures DistinctKeys(d[1..]) && d[0].0 !in Keys(d[1..])
  {
    assert forall i :: 0 <= i < |d| - 1 ==> Keys(d[1..])[i] == Keys(d)[i + 1];
  }

  /** After a spread a property reads as `over` has it, or else as `base` has it. */
  lemma {:induction false} SpreadLookup(base: Record, over: Record, k: string)
    requires DistinctKeys(over)
    ensures Lookup(Spread(base, over), k) == if k in Keys(over) then Lookup(over, k) else Lookup(base, k)
    decreases |over|
  {
    if over != [] {
      var k0, v0 := over[0].0, over[0].1;
      var rest := over[1..];
      DistinctKeysTail(over);
      SpreadLookup(Put(base, k0, v0), rest, k);
      assert Keys(over) == [k0] + Keys(rest);
      if k != k0 {
        PutOther(base, k0, v0, k);
      }
    }
  }

  /** A spread keeps the properties of `base` first, in their order. */
  lemma {:induction false} SpreadKeepsKeysFirst(base: Record, over: Record)
    ensures |Keys(base)| <= |Keys(Spread(base, over))|
    ensures Keys(Spread(base, over))[..|Keys(base)|] == Keys(base)
    decreases |over|
  {
    if over != [] {
      var next := Put(base, over[0].0, over[0].1);
      SpreadKeepsKeysFirst(next, over[1..]);
      assert Keys(next)[..|Keys(base)|] == Keys(base);
    }
  }

  /**
   * The initial parameters list the six names first, in their order; each reads as
   * `initialValues` gives it, and a name it lacks reads as the empty text.
   */
  lemma InitialParamsSpec(initialValues: Record, k: string)
    requires DistinctKeys(initialValues)
    ensures |InitialParams(initialValues)| >= 6 && Keys(InitialParams(initialValues))[..6] == ParamNames
    ensures k in Keys(initialValues) ==> Get(InitialParams(initialValues), k) == Get(initialValues, k)
    ensures k in ParamNames && k !in Keys(initialValues) ==> Get(InitialParams(initialValues), k) == Str("")
  {
    SpreadKeepsKeysFirst(EmptyParams, initialValues);
    SpreadLookup(EmptyParams, initialValues, k);
    EmptyParamsKeys();
    if k in ParamNames {
      EmptyParamsGet(k);
    }
  }

  lemma EmptyParamsGet(k: string)
    requires k in ParamNames
    ensures Get(EmptyParams, k) == Str("")
  {
    EmptyParamsKeys();
    EmptyParamsValues();
    LookupUniform(EmptyParams, k, Str(""));
  }

  lemma EmptyParamsValues()
    ensures forall i :: 0 <= i < |EmptyParams| ==> EmptyParams[i].1 == Str("")
  {
  }

  lemma EmptyParamsKeys()
    ensures Keys(EmptyParams) == ParamNames
  {
    assert forall i :: 0 <= i < 6 ==> Keys(EmptyParams)[i] == EmptyParams[i].0;
  }

  /** In a record whose values are all `v`, every key reads as `v`. */
  lemma {:induction false} LookupUniform(d: Record, k: string, v: Value)
    requires k in Keys(d)
    requires forall i :: 0 <= i < |d| ==> d[i].1 == v
    ensures Lookup(d, k) == Some(v)
  {
    if d[0].0 != k {
      assert Keys(d) == [d[0].0] + Keys(d[1..]);
      LookupUniform(d[1..], k, v);
    }
  }

  /** `Object.values(params).some(value => value !== "")`. */
  function HasActiveFilters(params: Record): (active: bool)
    ensures active <==> exists i :: 0 <= i < |params| && params[i].1 != Str("")
  {
    if params == [] then false
    else if params[0].1 != Str("") then true
    else
      var rest := HasActiveFilters(params[1..]);
      assert forall i :: 1 <= i < |params| ==> params[i] == params[1..][i - 1];
      rest
  }

  /** The pairs shown as chips under "Filtros activos": those with a truthy value. */
  function Chips(params: Record): seq<(string, Value)> {
    Filter(params, (e: (string, Value)) => Truthy(e.1))
  }

  /** When every value is text, as the inputs leave them, a filter is active exactly when it has a chip. */
  lemma ActiveIffChips(params: Record)
    requires forall i :: 0 <= i < |params| ==> params[i].1.Str?
    ensures HasActiveFilters(params) <==> Chips(params) != []
  {
    var p := (e: (string, Value)) => Truthy(e.1);
    FilterNone(params, p);
    if HasActiveFilters(params) {
      var i :| 0 <= i < |params| && params[i].1 != Str("");
      assert p(params[i]);
      assert params[i] in params;
    } else {
      forall e | e in params
        ensures !p(e)
      {
        var i :| 0 <= i < |params| && params[i] == e;
        assert params[i].1 == Str("");
      }
    }
  }

  /** A `null` passed in `initialValues` counts as active but shows no chip. */
  lemma NullIsActiveWithoutChip()
    ensures HasActiveFilters([("emotion", Null)])
    ensures Chips([("emotion", Null)]) == []
  {
    var p := (e: (string, Value)) => Truthy(e.1);
    assert Filter([("emotion", Null)], p) == [] + Filter([], p);
  }

  /** The empty parameters have no active filter. */
  lemma EmptyParamsInactive()
    ensures !HasActiveFilters(EmptyParams)
    ensures Chips(EmptyParams) == []
  {
    EmptyParamsValues();
    FilterNone(EmptyParams, (e: (string, Value)) => Truthy(e.1));
  }

  /**
   * Clearing a chip's parameter removes that chip and keeps the other chips in their
   * order.
   */
  lemma {:induction false} ClearRemovesChip(params: Record, key: string)
    requires DistinctKeys(params)
    ensures Chips(Put(params, key, Str(""))) == Filter(Chips(params), (e: (string, Value)) => e.0 != key)
  {
    if params != [] {
      DistinctKeysTail(params);
      if params[0].0 == key {
        ClearFirstChip(params, key);
      } else {
        ClearRemovesChip(params[1..], key);
        ClearLaterChip(params, key);
      }
    }
  }

  /** The chip of a cleared first pair is gone, and the rest have other keys. */
  lemma ClearFirstChip(params: Record, key: string)
    requires params != [] && params[0].0 == key && key !in Keys(params[1..])
    ensures Chips(Put(params, key, Str(""))) == Filter(Chips(params), (e: (string, Value)) => e.0 != key)
  {
    var p := (e: (string, Value)) => Truthy(e.1);
    var q := (e: (string, Value)) => e.0 != key;
    var d0, rest := params[0], params[1..];
    var head := if p(d0) then [d0] else [];
    assert Chips(params) == head + Chips(rest);
    FilterAppend(head, Chips(rest), q);
    assert Put(params, key, Str("")) == [(key, Str(""))] + rest;
    assert Chips([(key, Str(""))] + rest) == [] + Chips(rest);
    assert Filter(head, q) == [] by {
      if p(d0) {
        assert Filter(head, q) == [] + Filter([], q);
      }
    }
    ChipsWithoutKey(rest, key);
  }

  /** A record without the key has no chip with it. */
  lemma ChipsWithoutKey(rest: Record, key: string)
    requires key !in Keys(rest)
    ensures Filter(Chips(rest), (e: (string, Value)) => e.0 != key) == Chips(rest)
  {
    var p := (e: (string, Value)) => Truthy(e.1);
    var q := (e: (string, Value)) => e.0 != key;
    FilterMembers(rest, p);
    forall e | e in Chips(rest) ensures q(e) {
      var j :| 0 <= j < |rest| && rest[j] == e;
      assert Keys(rest)[j] == e.0;
    }
    FilterAll(Chips(rest), q);
  }

  /** Clearing a later pair keeps the first chip, if any, ahead of the rest's chips. */
  lemma ClearLaterChip(params: Record, key: string)
    requires params != [] && params[0].0 != key
    requires Chips(Put(params[1..], key, Str(""))) == Filter(Chips(params[1..]), (e: (string, Value)) => e.0 != key)
    ensures Chips(Put(params, key, Str(""))) == Filter(Chips(params), (e: (string, Value)) => e.0 != key)
  {
    var p := (e: (string, Value)) => Truthy(e.1);
    var q := (e: (string, Value)) => e.0 != key;
    var d0, rest := params[0], params[1..];
    var head := if p(d0) then [d0] else [];
    assert params == [d0] + rest;
    FilterCons(d0, rest, p);
    PutPastFirst(params, key, Str(""));
    FilterCons(d0, Put(rest, key, Str("")), p);
    FilterAppend(head, Chips(rest), q);
    assert Filter(head, q) == head by {
      if p(d0) {
        FilterCons(d0, [], q);
      }
    }
  }

  class SearchFormState {
    var searchParams: Record
    var isAdvanced: bool

    constructor (initialValues: Record)
      ensures searchParams == InitialParams(initialValues)
      ensures !isAdvanced
    {
      searchParams := InitialParams(initialValues);
      isAdvanced := false;
    }

    /** `handleInputChange`: the input's parameter takes the typed text. */
    method HandleInputChange(name: string, value: string)
      modifies this
      ensures searchParams == Put(old(searchParams), name, Str(value))
      ensures Get(searchParams, name) == Str(value)
      ensures forall k :: k != name ==> Get(searchParams, k) == Get(old(searchParams), k)
      ensures name in Keys(old(searchParams)) ==> Keys(searchParams) == Keys(old(searchParams))
      ensures isAdvanced == old(isAdvanced)
    {
      searchParams := Put(searchParams, name, Str(value));
      forall k | k != name
        ensures Get(searchParams, k) == Get(old(searchParams), k)
      {
        PutOther(old(searchParams), name, Str(value), k);
      }
    }

    /**
     * `handleReset`: the six parameters are emptied and any other property from
     * `initialValues` is dropped; afterwards no filter is active.
     */
    method HandleReset()
      modifies this
      ensures searchParams == EmptyParams
      ensures !HasActiveFilters(searchParams)
      ensures isAdvanced == old(isAdvanced)
    {
      searchParams := EmptyParams;
      EmptyParamsInactive();
    }

    /** The chip's remove button: `{ ...prev, [key]: "" }`. */
    method RemoveFilter(key: string)
      modifies this
      ensures searchParams == Put(old(searchParams), key, Str(""))
      ensures Get(searchParams, key) == Str("")
      ensures forall k :: k != key ==> Get(searchParams, k) == Get(old(searchParams), k)
      ensures key in Keys(old(searchParams)) ==> Keys(searchParams) == Keys(old(searchParams))
      ensures isAdvanced == old(isAdvanced)
    {
      searchParams := Put(searchParams, key, Str(""));
      forall k | k != key
        ensures Get(searchParams, k) == Get(old(searchParams), k)
      {
        PutOther(old(searchParams), key, Str(""), k);
      }
    }

    /** The "advanced search" button. */
    method ToggleAdvanced()
      modifies this
      ensures isAdvanced == !old(isAdvanced)
      ensures searchParams == old(searchParams)
    {
      isAdvanced := !isAdvanced;
    }
  }
}
