/**
 * The per-instance lifecycle of the generated hook
 * (`packages/injectors-react/src/makeHook.js`, lines 24-103), with the UI
 * framework replaced by explicit calls: `Render` is one call of the hook
 * (it returns `isInitialized`), `Mount` is a commit (the effect, registered
 * with an empty dependency list, runs at the first one only) and `Unmount`
 * runs the effect's cleanup. The store's `inject` and `eject` are not
 * modelled; their calls are recorded in ghost logs.
 */
module HookLifecycle {
  import opened JsValues
  import opened Wrappers
  import opened HookConfig

  /** What one render of the hook computed; the mount effect closes over it. */
  datatype Frame = Frame(injectables: Injectables, options: Options, normalized: Normalized)

  /** One call `inject(store)(injectables, props)` or `eject(store)(injectables, props)`. */
  datatype Call = Call(store: Store, injectables: Injectables, props: Props)

  /** The call the effect of `frame` makes to `inject`, and its cleanup to `eject`. */
  function CallOf(frame: Frame): Call {
    Call(frame.normalized.store, frame.injectables, frame.normalized.props)
  }

  /** Before the first commit, committed, and after the cleanup (or a discarded render). */
  datatype Phase = Rendering | Mounted | Unmounted

  /** The hook's frame for one render: default options, then normalisation. */
  function RenderFrame(injectables: Injectables, options: Option<Options>, resolve: Js -> InjectorContext): (f: Frame)
    ensures f.injectables == injectables
    ensures f.options == OptionsOrEmpty(options) && f.normalized == Derive(f.options, resolve)
    ensures options.None? ==> f.options == map[]
    ensures f.normalized.isGlobal ==> f.normalized.namespace == Null && "namespace" !in f.normalized.props
  {
    var opts := OptionsOrEmpty(options);
    Frame(injectables, opts, Derive(opts, resolve))
  }

  /** One component instance that calls the hook. */
  class Consumer {
    const hook: Hook
    const isServer: bool
    /** The `useState(IS_SERVER)` flag the hook returns. */
    var isInitialized: bool
    var phase: Phase
    /** The frame of the latest render: the one a commit would run the effect of. */
    var lastFrame: Option<Frame>
    /** The frame whose effect ran, i.e. the values captured at mount time. */
    var effect: Option<Frame>
    ghost var injected: seq<Call>
    ghost var ejected: seq<Call>
    ghost var warnings: seq<Warning>

    /**
     * The lifecycle invariant: `inject` was called once, with the mounted
     * frame's arguments, exactly when the effect ran; `eject` was called once,
     * with the same arguments, exactly when a non-persistent mounted instance
     * was cleaned up; the flag is true on the server or once the effect ran.
     */
    ghost predicate Valid()
      reads this
    {
      && (phase == Rendering ==> effect.None?)
      && (phase == Mounted ==> effect.Some?)
      && injected == (if effect.Some? then [CallOf(effect.value)] else [])
      && ejected == (if phase == Unmounted && effect.Some? && !effect.value.normalized.isPersistent
                     then [CallOf(effect.value)] else [])
      && isInitialized == (isServer || effect.Some?)
    }

    constructor (hook: Hook, isServer: bool)
      ensures Valid()
      ensures this.hook == hook && this.isServer == isServer
      ensures isInitialized == isServer && phase == Rendering && lastFrame.None?
      ensures injected == [] && ejected == [] && warnings == []
    {
      this.hook := hook;
      this.isServer := isServer;
      isInitialized := isServer;
      phase := Rendering;
      lastFrame := None;
      effect := None;
      injected := [];
      ejected := [];
      warnings := [];
    }

    /**
     * One call of the hook: normalises the options, audits the registry on the
     * server, and returns the current flag. It never injects nor ejects.
     */
    method Render(
      injectables: Injectables, options: Option<Options>,
      resolve: Js -> InjectorContext, createEntries: (Injectables, Props) -> seq<Entry>)
      returns (initialized: bool)
      requires Valid()
      modifies this
      ensures Valid()
      ensures initialized == isInitialized == old(isInitialized)
      ensures lastFrame == Some(RenderFrame(injectables, options, resolve))
      ensures warnings == old(warnings) +
        (if isServer then ServerAudit(hook, createEntries, injectables, lastFrame.value.normalized) else [])
      ensures phase == old(phase) && effect == old(effect)
      ensures injected == old(injected) && ejected == old(ejected)
    {
      var frame := RenderFrame(injectables, options, resolve);
      if isServer {
        warnings := warnings + ServerAudit(hook, createEntries, injectables, frame.normalized);
      }
      lastFrame := Some(frame);
      initialized := isInitialized;
    }

    /**
     * A commit of the latest render. The first one runs the effect: the four
     * diagnostics, one `inject`, and the flag set to true; later ones do nothing.
     */
    method Mount()
      requires Valid() && lastFrame.Some?
      modifies this
      ensures Valid()
      ensures old(phase) == Rendering ==>
        && phase == Mounted && effect == old(lastFrame) && isInitialized
        && injected == old(injected) + [CallOf(old(lastFrame).value)]
        && warnings == old(warnings) + EffectWarnings(
             hook.typeName, effect.value.injectables, effect.value.options, effect.value.normalized)
      ensures old(phase) != Rendering ==>
        && phase == old(phase) && effect == old(effect) && isInitialized == old(isInitialized)
        && injected == old(injected) && warnings == old(warnings)
      ensures ejected == old(ejected) && lastFrame == old(lastFrame)
      ensures old(isInitialized) ==> isInitialized
    {
      if phase == Rendering {
        var frame := lastFrame.value;
        warnings := warnings + EffectWarnings(hook.typeName, frame.injectables, frame.options, frame.normalized);
        injected := injected + [CallOf(frame)];
        isInitialized := true;
        effect := Some(frame);
        phase := Mounted;
      }
    }

    /**
     * The effect's cleanup: `eject` with the arguments `inject` received,
     * unless the mounted frame is persistent. An instance that never committed
     * has no cleanup.
     */
    method Unmount()
      requires Valid()
      modifies this
      ensures Valid() && phase == Unmounted
      ensures effect == old(effect) && lastFrame == old(lastFrame)
      ensures ejected == old(ejected) +
        (if old(phase) == Mounted && !effect.value.normalized.isPersistent then [CallOf(effect.value)] else [])
      ensures injected == old(injected) && warnings == old(warnings) && isInitialized == old(isInitialized)
    {
      if phase == Mounted {
        var frame := effect.value;
        if !frame.normalized.isPersistent {
          ejected := ejected + [CallOf(frame)];
        }
      }
      phase := Unmounted;
    }

    /** Exactly-once injection, and `eject` only ever repeats the `inject` call. */
    lemma InjectionLog()
      requires Valid()
      ensures |injected| <= 1 && |ejected| <= |injected|
      ensures ejected != [] ==> ejected == injected && !effect.value.normalized.isPersistent
      ensures phase == Mounted ==> |injected| == 1 && isInitialized
    {
    }
  }

  /**
   * The basic scenario: injecting `{counter: reducer}` under the namespace
   * `'todos'` returns false at the first render and true after the commit,
   * whatever further renders happen. The logs it returns show `inject` called
   * once with the props `{feature: 'default', namespace: 'todos'}`, and the
   * unmount ejecting with the same arguments.
   */
  method TodosScenario(reducer: Js, store: Store)
    returns (first: bool, afterMount: bool, afterRerender: bool, ghost injectedLog: seq<Call>, ghost ejectedLog: seq<Call>)
    ensures !first && afterMount && afterRerender
    ensures var props := map["feature" := Str(DEFAULT_FEATURE), "namespace" := Str("todos")];
            injectedLog == ejectedLog == [Call(store, map["counter" := reducer], props)]
  {
    var getEntries := (s: Store) => [];
    var hook := Hook(DEFAULT_TYPE, getEntries);
    var resolve := (feature: Js) => InjectorContext(store, Undefined);
    var createEntries := (i: Injectables, p: Props) => [];
    var injectables := map["counter" := reducer];
    var options := map["namespace" := Str("todos")];
    var consumer := new Consumer(hook, false);
    first := consumer.Render(injectables, Some(options), resolve, createEntries);
    consumer.Mount();
    afterMount := consumer.isInitialized;
    var props := map["feature" := Str(DEFAULT_FEATURE), "namespace" := Str("todos")];
    assert consumer.effect.value.normalized.props == props;
    assert consumer.injected == [Call(store, injectables, props)];
    afterRerender := consumer.Render(map[], None, resolve, createEntries);
    consumer.Mount();
    assert consumer.injected == [Call(store, injectables, props)];
    consumer.Unmount();
    injectedLog := consumer.injected;
    ejectedLog := consumer.ejected;
  }
}
