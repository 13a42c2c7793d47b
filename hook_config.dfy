/**
 * The pure parts of the hook factory (`packages/injectors-react/src/makeHook.js`):
 * the configuration check of `makeHook`, the normalisation of a hook call's
 * options into `isGlobal`, `isPersistent`, `feature`, `namespace` and `props`,
 * the server-side audit of already injected entries, and the diagnostics the
 * mount effect emits. Nothing here changes state.
 */
module HookConfig {
  import opened JsValues
  import opened Wrappers

  /** `DEFAULT_FEATURE` of the namespaces package. */
  const DEFAULT_FEATURE: string := "default"

  /** The `type` a hook gets when its configuration has none. */
  const DEFAULT_TYPE: string := "injectables"

  /** The four scope flags `getOtherProps` leaves out of `props`. */
  const SCOPE_FLAGS: set<string> := {"isGlobal", "global", "isPersistent", "persist"}

  type Options = map<string, Js>
  type Injectables = map<string, Js>
  type Props = map<string, Js>

  /** A store, known only by identity. */
  datatype Store = Store(id: nat)

  /** What the injector context resolves a feature to. */
  datatype InjectorContext = InjectorContext(store: Store, namespace: Js)

  /** A registry row; entries are compared by value (ramda's `includes`). */
  datatype Entry = Entry(namespace: Js, feature: Js, typeName: string, key: string)

  /**
   * The configuration object of `makeHook`. `eject` and `inject` are only
   * checked for truthiness here; their calls are logged by the lifecycle.
   * `None` stands for a missing (`undefined`) property.
   */
  datatype Configuration = Configuration(
    eject: Js,
    inject: Js,
    getEntries: Option<Store -> seq<Entry>>,
    typeName: Option<string>)

  /** The two `invariant` failures of `makeHook`. */
  datatype ConfigError = EjectMissing | InjectMissing

  /** A configured hook: its type and the snapshot reader of the registry. */
  datatype Hook = Hook(typeName: string, getEntries: Store -> seq<Entry>)

  /**
   * `makeHook`: fails fast, checking `eject` before `inject`; otherwise `type`
   * defaults to `'injectables'` and `getEntries` to a reader of no entries.
   */
  function MakeHook(config: Configuration): (r: Result<Hook, ConfigError>)
    ensures r.Failure? <==> !Truthy(config.eject) || !Truthy(config.inject)
    ensures !Truthy(config.eject) ==> r == Failure(EjectMissing)
    ensures Truthy(config.eject) && !Truthy(config.inject) ==> r == Failure(InjectMissing)
    ensures r.Success? && config.typeName.Some? ==> r.value.typeName == config.typeName.value
    ensures r.Success? && config.typeName.None? ==> r.value.typeName == DEFAULT_TYPE
    ensures r.Success? && config.getEntries.Some? ==> r.value.getEntries == config.getEntries.value
    ensures r.Success? && config.getEntries.None? ==> forall s :: r.value.getEntries(s) == []
  {
    if !Truthy(config.eject) then Failure(EjectMissing)
    else if !Truthy(config.inject) then Failure(InjectMissing)
    else
      var getEntries := if config.getEntries.Some? then config.getEntries.value else (s: Store) => [];
      Success(Hook(if config.typeName.Some? then config.typeName.value else DEFAULT_TYPE, getEntries))
  }

  /** The default parameter `options = {}`. */
  function OptionsOrEmpty(options: Option<Options>): Options {
    if options.Some? then options.value else map[]
  }

  /** `getOtherProps`: the options without the scope flags. */
  function OtherProps(options: Options): Props {
    map k | k in options && k !in SCOPE_FLAGS :: options[k]
  }

  /** Ramda-extension's `rejectNil` on an object: drops `null` and `undefined` values. */
  function RejectNil(o: Props): Props {
    map k | k in o && !IsNil(o[k]) :: o[k]
  }

  /** The values one call of the hook derives from its options and context. */
  datatype Normalized = Normalized(
    isGlobal: bool,
    isPersistent: bool,
    feature: Js,
    store: Store,
    namespace: Js,
    props: Props)

  /**
   * Option normalisation of one hook call; `resolve` is the injector context
   * lookup for a feature.
   */
  function Derive(options: Options, resolve: Js -> InjectorContext): (n: Normalized)
    ensures n.isGlobal <==> Truthy(Get(options, "isGlobal")) || Truthy(Get(options, "global"))
    ensures n.isPersistent <==> Truthy(Get(options, "isPersistent")) || Truthy(Get(options, "persist"))
    ensures Truthy(Get(options, "feature")) ==> n.feature == Get(options, "feature")
    ensures !Truthy(Get(options, "feature")) ==> n.feature == Str(DEFAULT_FEATURE)
    ensures n.store == resolve(n.feature).store
    ensures n.isGlobal ==> n.namespace == Null
    ensures !n.isGlobal && Truthy(Get(options, "namespace")) ==> n.namespace == Get(options, "namespace")
    ensures !n.isGlobal && !Truthy(Get(options, "namespace")) ==> n.namespace == resolve(n.feature).namespace
    // props: the feature is always there, the namespace exactly when it is not nil
    ensures "feature" in n.props && n.props["feature"] == n.feature
    ensures "namespace" in n.props <==> !IsNil(n.namespace)
    ensures "namespace" in n.props ==> n.props["namespace"] == n.namespace
    ensures n.isGlobal ==> "namespace" !in n.props
    // props: no nil value, no scope flag, and every other option passes through unless nil
    ensures forall k :: k in n.props ==> !IsNil(n.props[k]) && k !in SCOPE_FLAGS
    ensures forall k :: k in n.props ==> k in options || k == "feature" || k == "namespace"
    ensures forall k :: k in options && k !in SCOPE_FLAGS && k != "feature" && k != "namespace" ==>
      (k in n.props <==> !IsNil(options[k])) && (k in n.props ==> n.props[k] == options[k])
  {
    var isGlobal := Truthy(Get(options, "isGlobal")) || Truthy(Get(options, "global"));
    var isPersistent := Truthy(Get(options, "isPersistent")) || Truthy(Get(options, "persist"));
    var feature := if Truthy(Get(options, "feature")) then Get(options, "feature") else Str(DEFAULT_FEATURE);
    var context := resolve(feature);
    var namespace :=
      if isGlobal then Null
      else if Truthy(Get(options, "namespace")) then Get(options, "namespace")
      else context.namespace;
    var props := RejectNil(OtherProps(options)["feature" := feature]["namespace" := namespace]);
    Normalized(isGlobal, isPersistent, feature, context.store, namespace, props)
  }

  /** The deprecated `global` and the current `isGlobal` derive the same values. */
  lemma {:induction false} GlobalAliasEquivalent(options: Options, resolve: Js -> InjectorContext, v: Js)
    requires "isGlobal" !in options && "global" !in options
    ensures Derive(options["global" := v], resolve) == Derive(options["isGlobal" := v], resolve)
  {
  }

  /** The deprecated `persist` and the current `isPersistent` derive the same values. */
  lemma {:induction false} PersistAliasEquivalent(options: Options, resolve: Js -> InjectorContext, v: Js)
    requires "isPersistent" !in options && "persist" !in options
    ensures Derive(options["persist" := v], resolve) == Derive(options["isPersistent" := v], resolve)
  {
  }

  /** A global injection ignores any explicit `namespace` option altogether. */
  lemma {:induction false} GlobalIgnoresNamespaceOption(options: Options, resolve: Js -> InjectorContext, x: Js, y: Js)
    requires Truthy(Get(options, "isGlobal")) || Truthy(Get(options, "global"))
    ensures Derive(options["namespace" := x], resolve) == Derive(options["namespace" := y], resolve)
  {
  }

  /** Ramda's `all(entry => includes(entry, present), entries)`. */
  function AllIncluded(entries: seq<Entry>, present: seq<Entry>): (r: bool)
    ensures r <==> forall i :: 0 <= i < |entries| ==> entries[i] in present
  {
    if entries == [] then true else entries[0] in present && AllIncluded(entries[1..], present)
  }

  /** The diagnostic a `warn` call carries (its message text is not modelled). */
  datatype Diagnostic =
    | NotInjectedOnServer
    | FeatureWithGlobal(feature: Js)
    | NoNamespace
    | DeprecatedGlobal(global: Js)
    | DeprecatedPersist(persist: Js)

  /** One `console.warn`: the location message names the type and the injectables' keys. */
  datatype Warning = Warning(typeName: string, keys: set<string>, diagnostic: Diagnostic)

  /**
   * The server-side audit: one warning exactly when some entry created from
   * the injectables and props is missing from the store's registry snapshot.
   */
  function ServerAudit(
    hook: Hook, createEntries: (Injectables, Props) -> seq<Entry>, injectables: Injectables, n: Normalized)
    : (w: seq<Warning>)
    ensures w == [] || w == [Warning(hook.typeName, injectables.Keys, NotInjectedOnServer)]
    ensures w != [] <==> exists e :: e in createEntries(injectables, n.props) && e !in hook.getEntries(n.store)
  {
    var entries := createEntries(injectables, n.props);
    var present := hook.getEntries(n.store);
    if AllIncluded(entries, present) then []
    else
      assert exists e :: e in entries && e !in present;
      [Warning(hook.typeName, injectables.Keys, NotInjectedOnServer)]
  }

  /**
   * On the server, a registry holding only the entry for key `'y'` lacks the
   * entry `{namespace: 'ns', feature: 'default', type: 'injectables', key: 'x'}`
   * that the injectables `{x: ...}` create, and so draws the non-fatal warning.
   */
  lemma MissingServerEntryWarns(x: Js, resolve: Js -> InjectorContext, n: Normalized)
    ensures var entry := Entry(Str("ns"), Str(DEFAULT_FEATURE), DEFAULT_TYPE, "x");
            var hook := Hook(DEFAULT_TYPE, (s: Store) => [Entry(Str("ns"), Str(DEFAULT_FEATURE), DEFAULT_TYPE, "y")]);
            var createEntries := (i: Injectables, p: Props) => [entry];
            ServerAudit(hook, createEntries, map["x" := x], n)
              == [Warning(DEFAULT_TYPE, {"x"}, NotInjectedOnServer)]
  {
    var entry := Entry(Str("ns"), Str(DEFAULT_FEATURE), DEFAULT_TYPE, "x");
    var hook := Hook(DEFAULT_TYPE, (s: Store) => [Entry(Str("ns"), Str(DEFAULT_FEATURE), DEFAULT_TYPE, "y")]);
    var createEntries := (i: Injectables, p: Props) => [entry];
    assert entry in createEntries(map["x" := x], n.props);
    assert map["x" := x].Keys == {"x"};
  }

  /** The four independent diagnostics of the mount effect, in the order it emits them. */
  function EffectWarnings(typeName: string, injectables: Injectables, options: Options, n: Normalized)
    : (w: seq<Warning>)
    ensures |w| <= 4
    ensures forall x :: x in w ==> x.typeName == typeName && x.keys == injectables.Keys
    ensures forall x :: x in w ==> x.diagnostic in {FeatureWithGlobal(n.feature), NoNamespace,
      DeprecatedGlobal(Get(options, "global")), DeprecatedPersist(Get(options, "persist"))}
    ensures forall i, j :: 0 <= i < j < |w| ==> w[i] != w[j]
    ensures Warning(typeName, injectables.Keys, FeatureWithGlobal(n.feature)) in w
      <==> n.isGlobal && n.feature != Str(DEFAULT_FEATURE)
    ensures Warning(typeName, injectables.Keys, NoNamespace) in w <==> !Truthy(n.namespace) && !n.isGlobal
    ensures Warning(typeName, injectables.Keys, DeprecatedGlobal(Get(options, "global"))) in w
      <==> !IsNil(Get(options, "global"))
    ensures Warning(typeName, injectables.Keys, DeprecatedPersist(Get(options, "persist"))) in w
      <==> !IsNil(Get(options, "persist"))
  {
    var keys := injectables.Keys;
    (if n.isGlobal && n.feature != Str(DEFAULT_FEATURE) then [Warning(typeName, keys, FeatureWithGlobal(n.feature))] else [])
    + (if !Truthy(n.namespace) && !n.isGlobal then [Warning(typeName, keys, NoNamespace)] else [])
    + (if !IsNil(Get(options, "global")) then [Warning(typeName, keys, DeprecatedGlobal(Get(options, "global")))] else [])
    + (if !IsNil(Get(options, "persist")) then [Warning(typeName, keys, DeprecatedPersist(Get(options, "persist")))] else [])
  }
}
