# useInfiniteScrolling, modelled in Dafny

`useInfiniteScrolling(ref, onBottomHit, config = { gap: 0 })` is a React hook
that watches a scroll container and calls `onBottomHit` whenever a scroll
event leaves the container at, or within `gap` of, its bottom edge. This
project models its two parts:

- `proximity.dfy` (module `Proximity`): the gap defaulting and clamping
  (`Math.max(0, config.gap)`) and the scroll handler's test: the offset
  `scrollTop` is non-zero, and
  `clientHeight >= scrollHeight - ceil(scrollTop) - gap`. `Ceil` is built
  from `.Floor`. Lemmas give an independent description of the rule (a
  threshold on the offset), the zero-offset guard, the clamping, the default
  configuration, monotonicity in the gap and in the offset, the effect of
  rounding the offset up, and the test suite's concrete cases.
- `lifecycle.dfy` (module `Lifecycle`): the effect, which React re-runs after
  every render after running the previous cleanup. `HookState` holds the
  scroll listeners the hook has on elements, the pending cleanup, and a
  counter that gives each new handler closure its own identity. The
  functions `Cleanup`, `Effect`, `Commit` and `Run` define the state
  machine. Lemmas show that any sequence of renders and unmounts keeps at most
  one listener live, that the cleanup removes exactly the registered handler,
  that an empty ref adds nothing, and that a removed handler never comes back.
  The class `Watcher` performs the same steps in place (`Engage`, `Disengage`,
  `OnScroll`) and is proved to follow those functions.
- `optional.dfy` (module `Optional`): the `Option` type for the optional
  `config` argument and the possibly empty ref.

The code rounds the offset up. `ceil(scrollTop) >= scrollTop`, so this can
only make the handler fire earlier, by less than one unit, and never later.
For example, an offset of 999.5 over 2000 units of content in a 1000-unit
view fires with gap 0. Rounding the offset up makes the handler fire
earlier, never later (`RoundingUpFiresEarly`, `FiringIsWithinOneUnit`,
`FractionalOffsetFiresEarly`).

The doc comment on `gap` (src/index.tsx:4-7) promises the callback whenever
the distance to the bottom is at most `gap`. The code keeps that promise
only for a non-zero offset: the `scrollTop &&` guard keeps an event at
offset 0 silent. For example, a 1000-unit view over 1050 units of content
with gap 100 is within the gap at offset 0, and the callback does not fire
(`ZeroOffsetWithinGapIsSilent`). The model follows the code.

## Model

| member | source | states |
|---|---|---|
| `Proximity.ResolveConfig` | src/index.tsx:14-16 | an omitted `config` becomes one with gap 0; a passed one is used unchanged |
| `Proximity.IsAtBottom` | src/index.tsx:28-31 | the handler's test: silent at offset 0; with a non-zero offset it holds once the distance to the bottom is at most the gap, and it only holds when that distance is below the gap plus one |
| `Proximity.HandlerFires` | src/index.tsx:25-31 | the decision of a handler set up with an optional config: firing needs a non-zero offset, and a config whose gap is not positive decides as gap 0 |
| `Proximity.EffectiveGap` | src/index.tsx:25 | the effective gap is the maximum of 0 and the configured gap: never negative, never below the configured gap, and equal to one of them |
| `Proximity.Ceil` | src/index.tsx:31 | `Math.ceil`: the least integer not below the offset |
| `Proximity.ZeroOffsetNeverFires` | src/index.tsx:28-29 | an offset of exactly 0 never fires, for any heights and any gap |
| `Proximity.FiresIffPastThreshold` | src/index.tsx:25-35 | the handler fires exactly when the offset is non-zero and above `scrollHeight - clientHeight - floor(max(0, gap)) - 1`, an independent description of the ceil-based inequality |
| `Proximity.NegativeGapActsAsZero` | src/index.tsx:25 | any negative configured gap decides every event exactly as gap 0 does |
| `Proximity.OmittedConfigActsAsZeroGap` | src/index.tsx:14-16 | omitting the config decides every event exactly as `{ gap: 0 }` does |
| `Proximity.MonotoneInGap` | src/index.tsx:28-31 | if an event fires with some gap, it fires with every larger gap |
| `Proximity.MonotoneInOffset` | src/index.tsx:28-31 | if an event with a positive offset fires, it also fires at every larger offset with the same heights and config |
| `Proximity.RoundingUpFiresEarly` | src/index.tsx:4-7 | the documented promise: with a non-zero offset, a distance to the bottom of at most the effective gap fires |
| `Proximity.FiringIsWithinOneUnit` | src/index.tsx:28-31 | a firing event has a non-zero offset and a distance to the bottom less than the effective gap plus one |
| `Proximity.ZeroOffsetWithinGapIsSilent` | src/index.tsx:4-7 | where the code departs from the doc comment: offset 0, view 1000, content 1050, gap 100 is within the gap, yet the handler does not fire |
| `Proximity.FractionalOffsetFiresEarly` | src/index.tsx:29-31 | offset 999.5, view 1000, content 2000, default gap: the bottom is not reached yet, and the handler fires |
| `Proximity.BoundaryCases` | src/index.test.tsx:52-119 | view 1000 and content 2000: offset 1000 with gap 0 fires; 900 with gap 100 fires; 999 with gap 0 does not; 899 with gap 100 does not; 1000 with gap -100 fires |
| `Lifecycle.Cleanup` | src/index.tsx:43-45 | the returned cleanup: clears the pending cleanup, only removes listeners, removes the recorded one, and from a consistent state leaves none |
| `Lifecycle.Effect` | src/index.tsx:20-41 | the effect body: an empty ref changes nothing; an element gets one new non-capturing passive listener with `max(0, gap)`, fresh with respect to every listener already there, recorded as the cleanup |
| `Lifecycle.Commit` | src/index.tsx:18-47 | one render, previous cleanup then effect: from a consistent state it stays consistent with at most one listener and none of the earlier listeners; an empty ref adds nothing |
| `Lifecycle.Dispatch` | src/index.tsx:27-36 | a scroll event reaches `onBottomHit` only with a non-zero offset and a registered listener, which in a consistent state is the recorded one on the event's target |
| `Lifecycle.StepKeepsConsistent` | src/index.tsx:18-47 | one render or unmount keeps the pending cleanup naming exactly the registered listener, with at most one listener |
| `Lifecycle.RunKeepsConsistent` | src/index.tsx:18-47 | from a consistent state, every sequence of renders and unmounts ends consistent with at most one live listener |
| `Lifecycle.EmptyRefAddsNoListener` | src/index.tsx:20-22 | a render with an empty ref leaves no listener and no cleanup, so no event fires |
| `Lifecycle.CleanupRemovesRegistered` | src/index.tsx:38-45 | after a render with an element, the cleanup names the one registered listener and running it leaves none |
| `Lifecycle.NoFiringAfterTeardown` | src/index.tsx:43-45 | after the cleanup runs, no scroll event on any element fires the callback |
| `Lifecycle.RenderSubscribes` | src/index.tsx:24-41 | after a render with element `e`, an event fires exactly when it targets `e` and the handler's test holds for that render's config |
| `Lifecycle.RetiredHandlerStaysRemoved` | src/index.tsx:27-45 | a handler closure that was removed is never registered again by any later renders or unmounts |
| `Lifecycle.Watcher.constructor` | src/index.tsx:11-17 | a new hook has no listener, no cleanup and no handler created yet |
| `Lifecycle.Watcher.Disengage` | src/index.tsx:43-45 | runs the pending cleanup: the registered listener is removed and the cleanup cleared, and without one nothing changes |
| `Lifecycle.Watcher.Engage` | src/index.tsx:18-46 | previous cleanup, then: nothing for an empty ref, otherwise exactly one fresh non-capturing passive listener with `max(0, gap)` on the element; no earlier listener survives |
| `Lifecycle.Watcher.OnScroll` | src/index.tsx:27-36 | the callback is invoked exactly when a registered listener is on the event's target and its test holds, which requires a live subscription on that target and a non-zero offset |
| `Lifecycle.MountThenUnmount` | src/index.test.tsx:121-133 | mounting with an element attaches a listener; unmounting removes it, and a later scroll does not fire |
| `Lifecycle.RerenderWithoutElement` | src/index.test.tsx:135-148 | re-rendering after the element left the ref adds no listener and leaves none |

## Left out

- React's scheduling (when effects and cleanups run, rendering, mounting) is not modelled. `Watcher.Engage` stands for one render's cleanup-then-effect, and `Watcher.Disengage` for an unmount.
- DOM event dispatch, bubbling and listeners that other code puts on the element are not modelled. Only this hook's scroll listeners are tracked. The `capture: false` and `passive: true` options are recorded as a constant on each listener.
- IEEE-754 behaviour is not modelled: NaN or infinite measurements or gaps, and floating-point rounding. Arithmetic is exact, and truthiness of `scrollTop` is `scrollTop != 0`. `scrollTop` and `gap` are reals, while `clientHeight` and `scrollHeight` are integers, as the DOM reports them; `FiresIffPastThreshold` relies on the heights being whole.
- The body of `onBottomHit`, what it throws, and the event object passed to it are not modelled. The model records only whether the callback is invoked. Which `onBottomHit` a handler calls (the one captured by the render that registered it) is not modelled either.
- A ref holder that is itself null (`!ref`) and a ref whose `current` is null are both the empty ref `None`.
- The element's live `scrollTop`, `clientHeight` and `scrollHeight` are not modelled as element state. They are passed to `Watcher.OnScroll` as the `Metrics` read when the event is handled.
