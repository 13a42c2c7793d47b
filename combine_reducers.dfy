/**
 * The dynamic reducer combinator (`packages/reducers/src/combineReducers.js`).
 *
 * `CombineReducers` keeps the function-valued entries of a key -> reducer
 * object; `Reduce` is the aggregate reducer it returns. The previous state is a
 * value, so it cannot be written; `Reduce` builds the copy `nextState` step by
 * step and reports with `reused` whether it hands back the previous state
 * object itself (`===`) instead of the copy.
 */
module CombineReducers {
  import opened JsValues
  import opened Wrappers

  /** A plain state object: its own keys and their values. */
  type State = map<string, Js>

  /** A slice reducer `(previousStateForKey, action) => nextStateForKey`. */
  type Reducer = (Js, Js) -> Js

  /** A value of the object passed to the factory: a function or anything else. */
  datatype ReducerEntry = Fn(f: Reducer) | NotFn(value: Js)

  /** The closure the factory returns: it captures only `finalReducers`. */
  datatype Combined = Combined(finalReducers: map<string, Reducer>)

  /** `pickBy(isFunction, reducers)`: only function-valued entries become reducers. */
  function CombineReducers(reducers: map<string, ReducerEntry>): (c: Combined)
    ensures forall k :: k in c.finalReducers <==> k in reducers && reducers[k].Fn?
    ensures forall k :: k in c.finalReducers ==> c.finalReducers[k] == reducers[k].f
  {
    Combined(map k | k in reducers && reducers[k].Fn? :: reducers[k].f)
  }

  /** The default parameter `state = {}`: an undefined state is the empty object. */
  function Incoming(state: Option<State>): State {
    if state.Some? then state.value else map[]
  }

  /** The value reducer `k` produces from its slice of `state`. */
  function SliceResult(c: Combined, state: State, action: Js, k: string): Js
    requires k in c.finalReducers
  {
    c.finalReducers[k](Get(state, k), action)
  }

  /**
   * Reference definition of the object `nextState` ends up as: the previous
   * state with every reducer key overwritten by its reducer's result.
   */
  function NextState(c: Combined, state: State, action: Js): (r: State)
    ensures r.Keys == state.Keys + c.finalReducers.Keys
    ensures forall k :: k in c.finalReducers ==> r[k] == SliceResult(c, state, action, k)
    ensures forall k :: k in state && k !in c.finalReducers ==> r[k] == state[k]
  {
    map k | k in state.Keys + c.finalReducers.Keys ::
      if k in c.finalReducers then SliceResult(c, state, action, k) else state[k]
  }

  /** Some reducer returned a value that is not `===` its previous slice. */
  predicate SomeSliceChanged(c: Combined, state: State, action: Js) {
    exists k :: k in c.finalReducers && SliceResult(c, state, action, k) != Get(state, k)
  }

  /** The final value of `hasChanged`: a slice changed, or the key counts differ. */
  predicate HasChanged(c: Combined, state: State, action: Js) {
    SomeSliceChanged(c, state, action) || |c.finalReducers| != |state|
  }

  /** `nextState` after the reducers under `done` have written their slices. */
  function PartialNext(c: Combined, state: State, action: Js, done: set<string>): State
    requires done <= c.finalReducers.Keys
  {
    map k | k in state.Keys + done :: if k in done then SliceResult(c, state, action, k) else state[k]
  }

  /** `hasChanged` after the reducers under `done` have run. */
  predicate ChangedAmong(c: Combined, state: State, action: Js, done: set<string>)
    requires done <= c.finalReducers.Keys
  {
    exists k :: k in done && SliceResult(c, state, action, k) != Get(state, k)
  }

  lemma PartialNextStep(c: Combined, state: State, action: Js, done: set<string>, key: string)
    requires done <= c.finalReducers.Keys && key in c.finalReducers && key !in done
    ensures PartialNext(c, state, action, done + {key})
         == PartialNext(c, state, action, done)[key := SliceResult(c, state, action, key)]
  {
  }

  lemma PartialNextEnds(c: Combined, state: State, action: Js)
    ensures PartialNext(c, state, action, {}) == state
    ensures PartialNext(c, state, action, c.finalReducers.Keys) == NextState(c, state, action)
    ensures !ChangedAmong(c, state, action, {})
    ensures ChangedAmong(c, state, action, c.finalReducers.Keys) == SomeSliceChanged(c, state, action)
  {
  }

  lemma ChangedAmongStep(c: Combined, state: State, action: Js, done: set<string>, key: string)
    requires done <= c.finalReducers.Keys && key in c.finalReducers && key !in done
    ensures ChangedAmong(c, state, action, done + {key})
        <==> ChangedAmong(c, state, action, done) || SliceResult(c, state, action, key) != Get(state, key)
  {
  }

  /** Lines 12-18: every reducer writes its slice of the copy and ORs into `hasChanged`. */
  method RunReducers(c: Combined, previous: State, action: Js) returns (nextState: State, hasChanged: bool)
    ensures nextState == NextState(c, previous, action)
    ensures hasChanged == SomeSliceChanged(c, previous, action)
  {
    hasChanged := false;
    nextState := previous;
    var pending := c.finalReducers.Keys;
    ghost var done: set<string> := {};
    PartialNextEnds(c, previous, action);
    while pending != {}
      invariant done <= c.finalReducers.Keys && pending == c.finalReducers.Keys - done
      invariant nextState == PartialNext(c, previous, action, done)
      invariant hasChanged == ChangedAmong(c, previous, action, done)
      decreases pending
    {
      var key :| key in pending;
      var reducer := c.finalReducers[key];
      var previousStateForKey := Get(previous, key);
      var nextStateForKey := reducer(previousStateForKey, action);
      PartialNextStep(c, previous, action, done, key);
      ChangedAmongStep(c, previous, action, done, key);
      nextState := nextState[key := nextStateForKey];
      hasChanged := hasChanged || nextStateForKey != previousStateForKey;
      done := done + {key};
      pending := pending - {key};
    }
    assert done == c.finalReducers.Keys;
  }

  /**
   * The aggregate reducer (lines 8-22). `result` is the object returned;
   * `reused` is true exactly when it is the incoming state object itself. For
   * an undefined state that object is the `{}` the default parameter creates,
   * not anything the caller passed.
   */
  method Reduce(c: Combined, state: Option<State>, action: Js) returns (result: State, reused: bool)
    ensures reused == !HasChanged(c, Incoming(state), action)
    ensures result == if reused then Incoming(state) else NextState(c, Incoming(state), action)
  {
    var previous := Incoming(state);
    var nextState, hasChanged := RunReducers(c, previous, action);
    hasChanged := hasChanged || |c.finalReducers| != |previous|;
    result := if hasChanged then nextState else previous;
    reused := !hasChanged;
  }

  /** Every slice unchanged and equal key counts: the very same state object comes back. */
  lemma {:induction false} UnchangedSlicesReuseState(c: Combined, state: State, action: Js)
    requires forall k :: k in c.finalReducers ==> SliceResult(c, state, action, k) == Get(state, k)
    requires |c.finalReducers| == |state|
    ensures !HasChanged(c, state, action)
  {
  }

  /** A slice that changed forces a new object, and that object differs from the old state. */
  lemma {:induction false} ChangedSliceYieldsNewState(c: Combined, state: State, action: Js, k: string)
    requires k in c.finalReducers && SliceResult(c, state, action, k) != Get(state, k)
    ensures HasChanged(c, state, action)
    ensures NextState(c, state, action) != state
  {
  }

  /** A key-count mismatch forces a new object even when no slice changed. */
  lemma {:induction false} CountMismatchYieldsNewState(c: Combined, state: State, action: Js)
    requires |c.finalReducers| != |state|
    ensures HasChanged(c, state, action)
  {
  }

  /**
   * Reuse is sound up to the key set: whenever the state is reused, it equals
   * the object `nextState` would have been exactly when every reducer key
   * already was a key of the previous state.
   */
  lemma {:induction false} ReusedStateMatchesNextState(c: Combined, state: State, action: Js)
    requires !HasChanged(c, state, action)
    ensures NextState(c, state, action) == state <==> c.finalReducers.Keys <= state.Keys
  {
  }

  /**
   * Every property read agrees between the reused state and `nextState`:
   * reuse is observable only by enumerating keys, never by reading a slice.
   */
  lemma {:induction false} ReuseIsInvisibleToReads(c: Combined, state: State, action: Js, k: string)
    requires !SomeSliceChanged(c, state, action)
    ensures Get(NextState(c, state, action), k) == Get(state, k)
  {
  }

  /**
   * The combination settles: when every reducer is idempotent on the action
   * and every state key has a reducer, running the aggregate reducer again on
   * the object it produced hands that same object back.
   */
  lemma {:induction false} SecondPassReuses(c: Combined, state: State, action: Js)
    requires forall k, x :: k in c.finalReducers ==>
      c.finalReducers[k](c.finalReducers[k](x, action), action) == c.finalReducers[k](x, action)
    requires state.Keys <= c.finalReducers.Keys
    ensures !HasChanged(c, NextState(c, state, action), action)
  {
    var next := NextState(c, state, action);
    assert next.Keys == c.finalReducers.Keys;
    forall k | k in c.finalReducers
      ensures SliceResult(c, next, action, k) == Get(next, k)
    {
      var f := c.finalReducers[k];
      assert Get(next, k) == f(Get(state, k), action);
    }
  }

  /** A non-function entry is never called: it adds no key and leaves its slice alone. */
  lemma {:induction false} NonFunctionEntryIgnored(reducers: map<string, ReducerEntry>, state: State, action: Js, k: string)
    requires k in reducers && reducers[k].NotFn?
    ensures k in NextState(CombineReducers(reducers), state, action) <==> k in state
    ensures k in state ==> NextState(CombineReducers(reducers), state, action)[k] == state[k]
  {
  }

  /**
   * The count test compares sizes, not key sets: with `{a: x}` as state and a
   * single identity reducer under `b`, no slice changes and both counts are 1,
   * so `{a: x}` comes back although `nextState` would also hold `b`.
   */
  lemma CountTestMissesSwappedKey(x: Js, action: Js)
    ensures var c := Combined(map["b" := (s: Js, a: Js) => s]);
            var state := map["a" := x];
            !HasChanged(c, state, action) && NextState(c, state, action) != state
  {
  }

  /**
   * Removing a reducer keeps its slice: for `{a: 1, b: 2}` and only an identity
   * reducer under `a`, the result is a new object that still has key `b`.
   */
  lemma RemovedReducerKeepsSlice(one: Js, two: Js, action: Js)
    ensures var c := Combined(map["a" := (s: Js, a: Js) => s]);
            var state := map["a" := one, "b" := two];
            HasChanged(c, state, action) && NextState(c, state, action) == state
  {
  }
}
