/**
 * The effect of `useInfiniteScrolling`: on every render React first runs the
 * cleanup returned by the previous run of the effect, then runs the effect
 * again. The effect does nothing while the ref is empty; otherwise it
 * registers one fresh scroll handler on the element and returns a cleanup
 * that removes that same handler.
 *
 * The state machine is first given as functions on `HookState`, with its
 * invariants proved over every sequence of renders and unmounts; the
 * `Watcher` class then performs the same steps in place and is proved to
 * follow those functions.
 */
module Lifecycle {
  import opened Optional
  import opened Proximity

  /** The identity of a DOM element the host may render into the ref. */
  type ElementId = nat

  /** The identity of one `scrollHandler` closure; each run of the effect creates a new one. */
  type HandlerId = nat

  /** The options passed to `addEventListener`. */
  datatype ListenerOptions = ListenerOptions(capture: bool, passive: bool)

  /** Not capturing, and never cancelling the event. */
  const ScrollOptions: ListenerOptions := ListenerOptions(false, true)

  /**
   * A scroll listener registered on element `elem`: the handler closure
   * `handler`, which captured the effective gap `gap`.
   */
  datatype Listener = Listener(elem: ElementId, handler: HandlerId, gap: real, options: ListenerOptions)

  /**
   * The state the hook is responsible for: the scroll listeners it has on
   * elements, the pending cleanup (which names the listener it will remove),
   * and the next fresh closure identity.
   */
  datatype HookState = HookState(listeners: set<Listener>, cleanup: Option<Listener>, nextHandler: nat)

  /** Before the first render. */
  const Initial: HookState := HookState({}, None, 0)

  /** What the host does to the hook: render it (with the ref's current content), or unmount it. */
  datatype Op = Render(ref: Option<ElementId>, config: Option<Config>) | Unmount

  /**
   * The invariant: the pending cleanup removes exactly the one listener that
   * is registered, and with no cleanup pending no listener is registered.
   */
  ghost predicate Consistent(s: HookState) {
    match s.cleanup
    case None => s.listeners == {}
    case Some(l) => s.listeners == {l} && l.handler < s.nextHandler
  }

  /** Running the pending cleanup: `removeEventListener` of the recorded handler. */
  function Cleanup(s: HookState): (t: HookState)
    ensures t.cleanup == None && t.nextHandler == s.nextHandler
    ensures t.listeners <= s.listeners
    ensures s.cleanup.Some? ==> s.cleanup.value !in t.listeners
    ensures Consistent(s) ==> Consistent(t) && t.listeners == {}
  {
    match s.cleanup
    case None => s
    case Some(l) => HookState(s.listeners - {l}, None, s.nextHandler)
  }

  /** The effect body: nothing for an empty ref, otherwise register a fresh handler. */
  function Effect(s: HookState, ref: Option<ElementId>, config: Option<Config>): (t: HookState)
    ensures ref.None? ==> t == s
    ensures ref.Some? ==>
      t.cleanup.Some? && t.cleanup.value.elem == ref.value &&
      t.cleanup.value.gap == EffectiveGap(ResolveConfig(config).gap) &&
      t.cleanup.value.options == ScrollOptions &&
      t.listeners == s.listeners + {t.cleanup.value} &&
      t.nextHandler == s.nextHandler + 1
    ensures ref.Some? && Consistent(s) ==> t.cleanup.value !in s.listeners
    ensures Consistent(s) && s.cleanup == None ==> Consistent(t)
  {
    match ref
    case None => s
    case Some(e) =>
      var l := Listener(e, s.nextHandler, EffectiveGap(ResolveConfig(config).gap), ScrollOptions);
      HookState(s.listeners + {l}, Some(l), s.nextHandler + 1)
  }

  /** A render: the previous cleanup, then the effect. */
  function Commit(s: HookState, ref: Option<ElementId>, config: Option<Config>): (t: HookState)
    ensures Consistent(s) ==> Consistent(t) && |t.listeners| <= 1
    ensures Consistent(s) ==> forall l :: l in s.listeners ==> l !in t.listeners
    ensures ref.None? ==> t.listeners <= s.listeners && t.cleanup == None
  {
    Effect(Cleanup(s), ref, config)
  }

  /** One host action: a render (cleanup, then effect) or an unmount (cleanup only). */
  function Step(s: HookState, op: Op): HookState {
    match op
    case Render(ref, config) => Commit(s, ref, config)
    case Unmount => Cleanup(s)
  }

  /** The state after the host performs `ops` in order. */
  function Run(s: HookState, ops: seq<Op>): HookState
    decreases |ops|
  {
    if ops == [] then s else Run(Step(s, ops[0]), ops[1..])
  }

  /** Whether a scroll event on `target` with measurements `m` reaches `onBottomHit`. */
  predicate Dispatch(s: HookState, target: ElementId, m: Metrics): (r: bool)
    ensures r ==> m.scrollTop != 0.0
    ensures s.listeners == {} ==> !r
    ensures Consistent(s) && r ==> s.cleanup.Some? && s.cleanup.value.elem == target
  {
    exists l :: l in s.listeners && l.elem == target && IsAtBottom(m, l.gap)
  }

  /** Whether some listener of `s` is the closure `h`. */
  predicate Registered(s: HookState, h: HandlerId) {
    exists l :: l in s.listeners && l.handler == h
  }

  /** One render keeps the invariant and leaves at most one listener. */
  lemma StepKeepsConsistent(s: HookState, op: Op)
    requires Consistent(s)
    ensures Consistent(Step(s, op))
    ensures |Step(s, op).listeners| <= 1
  {
  }

  /** From a consistent state, any sequence of renders and unmounts keeps at most one listener live. */
  lemma {:induction false} RunKeepsConsistent(s: HookState, ops: seq<Op>)
    requires Consistent(s)
    ensures Consistent(Run(s, ops))
    ensures |Run(s, ops).listeners| <= 1
    decreases |ops|
  {
    if ops != [] {
      StepKeepsConsistent(s, ops[0]);
      RunKeepsConsistent(Step(s, ops[0]), ops[1..]);
    }
  }

  /** Rendering with an empty ref adds no listener and leaves no subscription. */
  lemma EmptyRefAddsNoListener(s: HookState, config: Option<Config>, target: ElementId, m: Metrics)
    requires Consistent(s)
    ensures Commit(s, None, config).listeners == {}
    ensures Commit(s, None, config).cleanup == None
    ensures !Dispatch(Commit(s, None, config), target, m)
  {
  }

  /** The cleanup removes exactly the handler the effect registered. */
  lemma CleanupRemovesRegistered(s: HookState, ref: Option<ElementId>, config: Option<Config>)
    requires Consistent(s)
    requires ref.Some?
    ensures Commit(s, ref, config).cleanup.Some?
    ensures Commit(s, ref, config).listeners == {Commit(s, ref, config).cleanup.value}
    ensures Cleanup(Commit(s, ref, config)).listeners == {}
  {
  }

  /** After an unmount no scroll event fires the callback. */
  lemma NoFiringAfterTeardown(s: HookState, target: ElementId, m: Metrics)
    requires Consistent(s)
    ensures !Dispatch(Cleanup(s), target, m)
  {
  }

  /**
   * A render with an element subscribes exactly that element, with the rule
   * of `HandlerFires` for the configuration of that render.
   */
  lemma RenderSubscribes(s: HookState, e: ElementId, config: Option<Config>, target: ElementId, m: Metrics)
    requires Consistent(s)
    ensures Dispatch(Commit(s, Some(e), config), target, m) <==> target == e && HandlerFires(m, config)
  {
    var l := Listener(e, s.nextHandler, EffectiveGap(ResolveConfig(config).gap), ScrollOptions);
    assert Commit(s, Some(e), config).listeners == {l};
  }

  /** A closure the hook has removed is never registered again, whatever the host does next. */
  lemma {:induction false} RetiredHandlerStaysRemoved(s: HookState, ops: seq<Op>, h: HandlerId)
    requires Consistent(s)
    requires h < s.nextHandler && !Registered(s, h)
    ensures !Registered(Run(s, ops), h)
    decreases |ops|
  {
    if ops != [] {
      var t := Step(s, ops[0]);
      StepKeepsConsistent(s, ops[0]);
      assert h < t.nextHandler && !Registered(t, h);
      RetiredHandlerStaysRemoved(t, ops[1..], h);
    }
  }

  /** The hook's state, updated in place as React runs the effect and its cleanups. */
  class Watcher {
    var listeners: set<Listener>
    var cleanup: Option<Listener>
    var nextHandler: nat

    function State(): HookState
      reads this
    {
      HookState(listeners, cleanup, nextHandler)
    }

    ghost predicate Valid()
      reads this
    {
      Consistent(State())
    }

    constructor ()
      ensures Valid() && State() == Initial
    {
      listeners, cleanup, nextHandler := {}, None, 0;
    }

    /** Runs the pending cleanup, as on unmount; without one it does nothing. */
    method Disengage()
      requires Valid()
      modifies this
      ensures Valid()
      ensures State() == Cleanup(old(State()))
      ensures listeners == {} && cleanup == None && nextHandler == old(nextHandler)
    {
      match cleanup
      case None =>
      case Some(l) =>
        listeners := listeners - {l};
        cleanup := None;
    }

    /** A render: the previous cleanup, then the effect for the ref's current content. */
    method Engage(ref: Option<ElementId>, config: Option<Config>)
      requires Valid()
      modifies this
      ensures Valid()
      ensures State() == Commit(old(State()), ref, config)
      ensures ref.None? ==> listeners == {} && cleanup == None
      ensures ref.Some? ==>
        var l := Listener(ref.value, old(nextHandler), EffectiveGap(ResolveConfig(config).gap), ScrollOptions);
        listeners == {l} && cleanup == Some(l)
      ensures forall l :: l in old(listeners) ==> l !in listeners
    {
      Disengage();
      if ref.None? {
        return;
      }
      var gap := EffectiveGap(ResolveConfig(config).gap);
      var l := Listener(ref.value, nextHandler, gap, ScrollOptions);
      listeners := listeners + {l};
      cleanup := Some(l);
      nextHandler := nextHandler + 1;
    }

    /** A scroll event on `target`: whether a registered handler calls `onBottomHit`. */
    method OnScroll(target: ElementId, m: Metrics) returns (fired: bool)
      requires Valid()
      ensures fired == Dispatch(State(), target, m)
      ensures fired ==> cleanup.Some? && cleanup.value.elem == target && m.scrollTop != 0.0
    {
      fired := false;
      if listeners != {} {
        var l :| l in listeners;
        fired := l.elem == target && IsAtBottom(m, l.gap);
      }
    }
  }

  /**
   * Mounting with an element attaches a listener; unmounting removes it,
   * after which no scroll event fires.
   */
  method MountThenUnmount(e: ElementId, config: Option<Config>, m: Metrics)
    returns (attached: bool, attachedAfter: bool, firedAfter: bool)
    ensures attached && !attachedAfter && !firedAfter
  {
    var w := new Watcher();
    w.Engage(Some(e), config);
    attached := w.listeners != {};
    w.Disengage();
    attachedAfter := w.listeners != {};
    firedAfter := w.OnScroll(e, m);
  }

  /**
   * A re-render after the element is gone from the ref removes the old
   * listener and adds none.
   */
  method RerenderWithoutElement(e: ElementId, config: Option<Config>) returns (added: bool, remaining: nat)
    ensures !added && remaining == 0
  {
    var w := new Watcher();
    w.Engage(Some(e), config);
    var before := w.listeners;
    w.Engage(None, config);
    added := exists l :: l in w.listeners && l !in before;
    remaining := |w.listeners|;
  }
}
