# LodScrolJS in Dafny

LodScrolJS is an infinite-scroll trigger. It watches the window or one
element, and when that container has been scrolled to within `threshold`
pixels of its end it calls the caller's asynchronous `loadMore(done)`. It
then refuses to start another load until the caller invokes `done`. The
constructor validates its options eagerly, in order (`loadMore` must be a
function, a truthy `container` must be an `HTMLElement` or `window`, a
truthy `threshold` must be a number), and throws on the first failure.
After that it stores the defaults (`container || window`,
`threshold || 100`), binds the scroll handler once and registers it.
`destroy()` unregisters that same handler.

The repository holds the class three times: `src/lodscrol.ts`,
`src/index.ts` (metrics read by destructuring) and `src/lodscrol.js.js`
(untyped; the handler method `onScroll` is rebound onto itself). The three
behave identically, so one model serves all of them. The rows below cite
whichever copy states each point most directly.

Modules:

- `Wrappers` (`wrappers.dfy`): `Option` and `Result`.
- `Dom` (`dom.dfy`): the environment. `Handler` is a function value with
  identity only, because each `bind` yields a new one. `Element` has
  `scrollTop`, `scrollHeight`, `clientHeight` and a set of scroll listeners.
  `Window` has its own listener set and its `documentElement`.
- `Options` (`options.dfy`): the options record. Each field is a datatype
  whose variants are the cases the run-time tests (`typeof`, `instanceof`,
  `=== window`, truthiness) tell apart. Also validation, defaults and the
  three errors with their messages.
- `Machine` (`machine.dfy`): the instance's observable state (`isLoading`,
  handler registered or not, number of `loadMore` calls) as a value, and
  the events scroll, completion and destroy. `NearBottom` is the trigger
  test `scrollHeight - scrollTop <= clientHeight + threshold`; `OnScroll`
  is the handler, `FinishLoading` the completion callback, `Detach` the
  effect of `destroy()`, and `Step` delivers one event (a scroll reaches
  the handler only while it is registered). Lemmas cover any sequence of
  events: single flight, stuck loader, teardown, release, and a bound on
  loads by completions.
- `LodScrol` (`lodscrol.dfy`): `class ScrollLoader`, the source class. The
  `ensures` of `ScrollNotification`, `FinishLoading` and `Destroy` tie the
  instance's `State()` to `Machine.Step` on the matching event, so the
  `Machine` lemmas hold of every sequence of those three calls. `Init`
  (registration) and `HandleScroll` (the handler called directly, without
  the registration test) are tied to `State()` too, but are not `Machine`
  events.
- `Scenarios` (`scenarios.dfy`): client methods that use only the class
  contracts. They cover the usage scenarios: a load near the end, none far
  from it, a rejected loader, no second load while busy, a second load
  after completion, none after destroy, and others.

## Model

| member | source | states |
|---|---|---|
| `Options.Validate` | src/lodscrol.ts:26-38 | the error thrown is none exactly when no option is wrong; otherwise it is one of the options' problems, and the one whose check runs first (loader, then container, then threshold) |
| `Options.ContainerOf` | src/index.ts:16 | the container defaults to the window: the stored target is the window unless an element was passed, and then it is that element |
| `Options.ThresholdOf` | src/index.ts:18 | the threshold defaults to 100: a non-zero number is kept, and 0 or any falsy non-number becomes 100, so the stored threshold is never 0 |
| `Options.Configure` | src/lodscrol.js.js:3-7 | construction fails exactly when some option is wrong, with the first failing check's error; on success it stores the caller's `loadMore`, the container as `ContainerOf` gives it (the window unless an element was given) and the threshold as `ThresholdOf` gives it (never 0) |
| `Options.MinimalOptions` | src/lodscrol.ts:17-19 | `{ loadMore: fn }` is accepted, with the window as container and threshold 100 |
| `Options.FalsyThresholdDefaults` | src/lodscrol.ts:35 | a falsy threshold, whether 0 or a falsy non-number, passes validation and is stored as 100 |
| `Options.MessagesDistinct` | src/index.ts:25-33 | the three thrown errors carry three different messages |
| `Machine.OnScroll` | src/lodscrol.ts:44-64 | the handler starts exactly one load, and becomes busy, iff it was idle and `scrollHeight - scrollTop - clientHeight <= threshold`; otherwise the state is unchanged; registration is never touched |
| `Machine.Run` | src/lodscrol.js.js:28-51 | over any sequence of events, the number of loads never decreases and a handler once unregistered is never registered again |
| `Machine.FinishLoadingIdempotent` | src/lodscrol.ts:66-68 | the completion callback leaves the instance idle, changes nothing else, and calling it again changes nothing |
| `Machine.DetachKeepsLoading` | src/lodscrol.js.js:49-51 | `destroy()` unregisters the handler, keeps `isLoading` and the load count, and repeating it changes nothing |
| `Machine.OnlyFinishReleases` | src/lodscrol.js.js:45-47 | the completion callback is the only event that takes a busy instance back to idle |
| `Machine.SingleFlight` | src/index.ts:41 | while busy, any events without a completion call start no load and leave the instance busy; only a destroy among them changes anything, namely registration |
| `Machine.NoLoadAfterDestroy` | src/lodscrol.ts:70-72 | once unregistered, no sequence of events starts a load; the flag is cleared only if a late completion call arrives |
| `Machine.LoadBound` | src/lodscrol.js.js:33-41 | loads plus remaining credit (one when idle, none when busy) grow by at most the number of completion calls |
| `Machine.AtMostOneLoadInFlight` | src/index.ts:40-49 | without a completion call at most one load starts, and none if the instance is already busy |
| `Machine.ReleaseThenReload` | src/index.ts:52-54 | after a completion call, a qualifying scroll on a registered instance starts exactly one new load |
| `LodScrol.ScrollLoader.Create` | src/lodscrol.ts:14-24 | construction throws exactly the first validation error and then changes no listener; otherwise the instance holds `Configure`'s values, is idle with no loads, and its freshly bound handler was added to that container's listeners and nowhere else |
| `LodScrol.ScrollLoader.constructor` | src/lodscrol.js.js:2-12 | after validation: stores the defaults, `isLoading` false, binds a fresh handler into `onScroll` and registers exactly that handler |
| `LodScrol.ScrollLoader.Init` | src/index.ts:36-38 | `init` adds the stored handler to the container's scroll listeners, changes nothing else, and leaves the instance registered with its flag and load count as they were |
| `LodScrol.ScrollLoader.MetricsSource` | src/index.ts:42-44 | the readouts come from `document.documentElement` when the container is the window, and from the container element otherwise |
| `LodScrol.ScrollLoader.HandleScroll` | src/lodscrol.ts:44-64 | the handler, with its per-branch field reads, moves the state exactly as `Machine.OnScroll` does on the `scrollTop`, `scrollHeight`, `clientHeight` of the element `MetricsSource` picks (the destructuring of src/index.ts:42-44 and src/lodscrol.js.js:35-37) |
| `LodScrol.ScrollLoader.ScrollNotification` | src/lodscrol.ts:41 | a scroll notification on the container runs the handler iff the handler is still registered there (`Machine.Step`) |
| `LodScrol.ScrollLoader.FinishLoading` | src/index.ts:52-54 | the completion callback clears `isLoading` and changes nothing else |
| `LodScrol.ScrollLoader.Destroy` | src/index.ts:56-58 | removes exactly the handler stored at construction from the container's listeners, keeps every other listener, and leaves `isLoading` and the load count as they were |

The code does not reject a falsy `container` (`null`, `0`, `""` as well
as `undefined`): it becomes the window. A falsy threshold of any type,
including the number 0, is not rejected either: it becomes 100. A negative
threshold is kept as it is.

## Left out

- Direct calls of `init()` and of the handler. They are private in
  src/lodscrol.ts and src/index.ts but callable in src/lodscrol.js.js.
  `Init` and `HandleScroll` model them, yet they are not `Machine` events:
  calling `Init` after `Destroy` registers the handler again, and calling
  `HandleScroll` after `Destroy` can start a load. `Machine.Run` and
  `Machine.NoLoadAfterDestroy` say nothing about such calls.
- DOM event dispatch: `ScrollNotification` stands for the host calling this
  instance's handler. Other listeners on the same container are not run.
- The body of the caller's `loadMore`, the promise it returns, and rejection
  of that promise (`await` at src/lodscrol.ts:62). A call is recorded only
  as the ghost counter `loads`. A `loadMore` that calls `done` before
  returning is the event sequence scroll, then completion.
- Async suspension and event-loop interleaving. Handlers run to completion,
  and events are a sequence of method calls.
- The identity of the `finishLoading.bind(this)` closure made for each load.
  The `FinishLoading` method is that callback, and no code compares these
  closures.
- Floating point. Metrics and thresholds are integers, so fractional
  offsets, `NaN` (a falsy number, which would also become 100) and
  `Infinity` are not modelled.
- Options objects that are themselves `undefined` or `null`. Reading a
  field of one throws a `TypeError` before validation. The model always
  receives an options record.
- Event types other than `scroll`, and listener options (capture, passive,
  once).
- dist/index.d.ts holds only declarations, with no behaviour.
