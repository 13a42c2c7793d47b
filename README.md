# redux-tools core: dynamic reducer combination and the injector hook lifecycle

This Dafny project models the two parts of redux-tools that carry its logic.

- **The dynamic reducer combinator** (`packages/reducers/src/combineReducers.js`), in module `CombineReducers`.
  - `CombineReducers` keeps the function-valued entries of a key → reducer object.
  - `Reduce` is the aggregate reducer that the factory returns.
  - `Reduce` copies the previous state and runs every slice reducer on its slice, with an absent slice read as `undefined`.
  - It then decides whether to return the previous state object itself or the new copy.
  - That choice is the `reused` flag. The combinator's loop is `RunReducers`.
  - The reference definitions are `NextState` (what the copy ends up holding) and `HasChanged` (the final `hasChanged`).
- **The hook made by `makeHook`** (`packages/injectors-react/src/makeHook.js`), in modules `HookConfig` and `HookLifecycle`.
  - `HookConfig` holds the pure parts:
    - the configuration check (`MakeHook`);
    - option normalisation (`Derive`);
    - the server-side registry audit (`ServerAudit`);
    - the mount effect's diagnostics (`EffectWarnings`).
  - `HookLifecycle.Consumer` is one component instance that calls the hook.
    - `Render` is one call of the hook. It returns `isInitialized`.
    - `Mount` is a commit. The effect has an empty dependency list, so it runs only at the first commit.
    - `Unmount` runs the effect's cleanup.
    - The calls to `inject` and `eject`, and the warnings, are recorded in ghost logs.
    - The invariant `Valid` pins these logs down exactly:
      - at most one `inject`, made with the arguments of the mounted render;
      - at most one `eject`, with the same arguments, only after unmounting and only when the injection is not persistent;
      - the flag starts at `IS_SERVER` and becomes true at the first commit.

JavaScript values are the datatype `JsValues.Js`: `undefined`, `null`, booleans, strings and objects.
- An object is `Obj(id)`, so value equality on `Js` stands for `===`.
- Truthiness follows JavaScript: the empty string is falsy and every object is truthy.

Two behaviours of the code worth knowing:
- The combinator keeps every key of the previous state that has no reducer. `nextState` starts as `{ ...state }` (`packages/reducers/src/combineReducers.js:10`).
  - So the result's keys are the old keys plus the reducer keys, not just the reducer keys.
  - For `{a: 1, b: 2}` with only an identity reducer under `a`, the result is a new object that still holds `b` (`RemovedReducerKeepsSlice`).
- The change test compares key counts, not key sets (`packages/reducers/src/combineReducers.js:20`).
  - A state with a key swapped for an unrelated reducer key can therefore be reused (`CountTestMissesSwappedKey`).
  - Reuse is still invisible to every property read (`ReuseIsInvisibleToReads`).
  - The reused state equals `nextState` exactly when every reducer key is already a key of the state (`ReusedStateMatchesNextState`).
- `makeHook` checks only `eject` and `inject` (`packages/injectors-react/src/makeHook.js:17-18`). A missing `type` is not an error: it defaults to `'injectables'`.

## Model

| member | source | states |
|---|---|---|
| `CombineReducers.CombineReducers` | packages/reducers/src/combineReducers.js:4-6 | a key becomes a reducer exactly when its value is a function, and that function is the reducer |
| `CombineReducers.NextState` | packages/reducers/src/combineReducers.js:10-16 | the copy's keys are the old keys plus the reducer keys; each reducer key holds `reducer(state[key], action)`; every other key keeps its old value |
| `CombineReducers.RunReducers` | packages/reducers/src/combineReducers.js:12-18 | the per-key loop leaves `nextState` equal to `NextState` and `hasChanged` true exactly when some reducer returned a value not `===` its previous slice |
| `CombineReducers.Reduce` | packages/reducers/src/combineReducers.js:8-22 | an undefined state is read as the `{}` of the default parameter; the incoming object (for an undefined state, that fresh `{}`) is returned (`reused`) exactly when no slice changed and the key counts agree, otherwise the new `NextState` object |
| `CombineReducers.UnchangedSlicesReuseState` | packages/reducers/src/combineReducers.js:17-21 | every reducer returning its own slice plus equal key counts means the same state object comes back |
| `CombineReducers.ChangedSliceYieldsNewState` | packages/reducers/src/combineReducers.js:17-21 | one changed slice forces a new object, and that object differs from the old state |
| `CombineReducers.CountMismatchYieldsNewState` | packages/reducers/src/combineReducers.js:20-21 | different key counts force a new object even when no slice changed |
| `CombineReducers.ReusedStateMatchesNextState` | packages/reducers/src/combineReducers.js:10-21 | when the state is reused, it equals the object `nextState` would have been exactly when every reducer key was already a state key |
| `CombineReducers.ReuseIsInvisibleToReads` | packages/reducers/src/combineReducers.js:14-21 | if no slice changed, every property read gives the same value on the old state and on `nextState` |
| `CombineReducers.SecondPassReuses` | packages/reducers/src/combineReducers.js:8-22 | if every reducer is idempotent on the action and every state key has a reducer, a second pass over the produced object reuses it |
| `CombineReducers.NonFunctionEntryIgnored` | packages/reducers/src/combineReducers.js:5-16 | a non-function entry adds no key to the result and leaves its old slice as it was |
| `CombineReducers.CountTestMissesSwappedKey` | packages/reducers/src/combineReducers.js:20 | for state `{a}` with one identity reducer under `b`, the state is reused although `nextState` would also hold `b` |
| `CombineReducers.RemovedReducerKeepsSlice` | packages/reducers/src/combineReducers.js:10-21 | for `{a, b}` with one reducer under `a`, a new object is returned and it still holds `b` unchanged |
| `HookConfig.MakeHook` | packages/injectors-react/src/makeHook.js:14-18 | fails exactly when `eject` or `inject` is falsy, reporting `eject` first; `type` defaults to `'injectables'`; `getEntries` defaults to a reader of no entries |
| `HookConfig.Derive` | packages/injectors-react/src/makeHook.js:32-46 | `isGlobal` and `isPersistent` are the OR of each current option and its deprecated alias. `feature` is the option if truthy, else the default. A global call's namespace is null and its props have no `namespace` key; otherwise the namespace is the option if truthy, else the context's. `props` always holds `feature`, holds no nil value and no scope flag, and carries every other non-nil option |
| `HookConfig.GlobalAliasEquivalent` | packages/injectors-react/src/makeHook.js:32 | `{global: v}` and `{isGlobal: v}` derive the same flags, feature, store, namespace and props |
| `HookConfig.PersistAliasEquivalent` | packages/injectors-react/src/makeHook.js:33 | `{persist: v}` and `{isPersistent: v}` derive the same values |
| `HookConfig.GlobalIgnoresNamespaceOption` | packages/injectors-react/src/makeHook.js:37-46 | for a global call, the `namespace` option has no influence on anything derived |
| `HookConfig.AllIncluded` | packages/injectors-react/src/makeHook.js:49-52 | true exactly when every created entry occurs in the registry snapshot |
| `HookConfig.ServerAudit` | packages/injectors-react/src/makeHook.js:48-63 | yields one warning, naming the type and the injectables' keys, exactly when some created entry is missing from `getEntries(store)`; it never fails |
| `HookConfig.MissingServerEntryWarns` | packages/injectors-react/src/makeHook.js:48-63 | a snapshot holding only the entry for key `'y'` lacks `{namespace: 'ns', feature: 'default', type: 'injectables', key: 'x'}`, so injectables `{x}` draw the warning |
| `HookConfig.EffectWarnings` | packages/injectors-react/src/makeHook.js:67-90 | each of the four diagnostics appears exactly under its own condition: global with a non-default feature; a falsy namespace when not global; a non-nil `global`; a non-nil `persist`. No other diagnostic or value appears, none appears twice, and every warning names the type and the injectables' keys |
| `HookLifecycle.RenderFrame` | packages/injectors-react/src/makeHook.js:24-46 | the frame keeps the injectables and the options (missing options read as `{}`), and its normalized values are `Derive` of those options; a global frame has a null namespace and no `namespace` prop |
| `HookLifecycle.Consumer.constructor` | packages/injectors-react/src/makeHook.js:40 | the flag starts at `IS_SERVER`, with nothing injected, ejected or warned |
| `HookLifecycle.Consumer.Render` | packages/injectors-react/src/makeHook.js:32-63 | a render returns the unchanged flag, records its frame, runs the server audit only on the server, and never injects or ejects |
| `HookLifecycle.Consumer.Mount` | packages/injectors-react/src/makeHook.js:66-100 | the first commit emits the effect's diagnostics, calls `inject` once with the frame's store, injectables and props, and sets the flag. Later commits change nothing |
| `HookLifecycle.Consumer.Unmount` | packages/injectors-react/src/makeHook.js:95-99 | cleanup calls `eject` with exactly the arguments `inject` received, and only when the mounted frame is not persistent. A never-committed instance ejects nothing |
| `HookLifecycle.Consumer.InjectionLog` | packages/injectors-react/src/makeHook.js:66-100 | under the invariant there is at most one `inject`; an `eject` only repeats it and only for a non-persistent injection; a mounted instance has injected once and is initialized |
| `HookLifecycle.TodosScenario` | packages/injectors-react/src/makeHook.js:24-102 | `{counter}` under namespace `'todos'` reads false at the first render and true after the commit and a re-render. The returned logs show `inject` receiving `{feature: 'default', namespace: 'todos'}` once and `eject` repeating it |

## Left out

- React itself is not modelled: `useState`, the choice between `useLayoutEffect` and `useEffect`, and effect scheduling (`packages/injectors-react/src/makeHook.js:1,11`). Mount and unmount are explicit method calls. A server never calls `Mount`.
- `useInjectorContext` is not modelled. The context is a parameter `resolve` from feature to `{store, namespace}`.
- The store's `inject` and `eject` mutations are not modelled. Only their calls are recorded.
- `getEntries` is an opaque function in the hook's configuration.
- `createEntries` of the injectors package is not part of this model. It is an opaque, deterministic parameter.
- The entry inclusion test uses ramda's deep equality. It is modelled as value equality on `Entry`.
- Warning texts and `console.warn` are not modelled. A warning is a diagnostic kind plus the type and the injectables' keys.
- `toPascalCase`, the computed hook name and the function-naming trick (`packages/injectors-react/src/makeHook.js:20-24,104`) are cosmetic and not modelled.
- `IS_SERVER` is a constructor parameter of `Consumer`.
- `DEFAULT_FEATURE` is taken to be `'default'`. It lives in the namespaces package, which is not part of this model.
- Numbers as option or state values are not modelled: `0` and `NaN` are falsy in JavaScript, while every `Obj` here is truthy.
- `keys(injectables)` in the warning text is an ordered array. The model keeps it as a set.
- `CombineReducers.RunReducers`: visits the reducer keys in an unspecified order rather than in the object's key order. Each key is written once and the flag is an OR, so the result does not depend on the order.
- `CombineReducers.Reduce`: a `null` state is not modelled; it would throw on `state[key]`. Neither are reducers that throw.
- `HookConfig.MakeHook`: models `type` as a string and `getEntries` as a function when present. Other values of these properties are not modelled.
