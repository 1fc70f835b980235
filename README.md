# Cancellable async composition, modelled in Dafny

A Dafny model of the cancellation core of a small TypeScript library of promise
decorators. It covers:

- `CancelToken` and `CancelToken.source()`: a cooperative cancellation primitive. It has a
  listener list, a stored reason, and a `cancel` function owned by the source;
- `waitAsync`: a cancellable delay, racing a timer against a token;
- `withRetry`: re-runs a failing operation for as long as a policy returns a non-negative
  delay, waiting on `waitAsync` between attempts and stopping on cancellation;
- `withTimeout`: races the operation against a deadline (`waitAsync` on a token of its
  own) and against upstream cancellation, and cancels a child token passed down to the
  operation;
- `pipe`: the left-to-right composer that chains such decorators.

The TypeScript code is callback-driven and single-threaded. Every asynchronous thing that
can happen is an event: a timer fires, a token is cancelled, the inner operation settles.
Each call of `waitAsync`, `withRetry` and `withTimeout` is a class whose methods are those
events. Each method's `requires` says when the event can happen; for example, a cleared
timer never fires. A token keeps a ghost log, `notified`, of the calls it has made, each
with the reason it passed. A listener body can run only with the reason of a call logged
for that listener. No other event of the same call (a timer firing, the inner operation
settling) can come between a logged call and its body, because in the source the body runs
synchronously inside that call. The promise of each call is a settle-once slot,
`Option<Settlement<T>>`.
A token is a class with the source's three fields. `cancel` walks the live listener array
index by index, as `forEach` does. That loop is proved equal to the reference function
`Notified`, and lemmas about `Notified` state who gets called.

Files:

- `common.dfy`: error values (`undefined` and `null` are `Undefined`; the other falsy
  values are `OtherFalsy`); `CancelError`; settlements.
- `cancel_token.dfy`: the token, its source, and list lemmas.
- `wait_async.dfy`: the delay.
- `with_retry.dfy`: the retry decorator.
- `with_timeout.dfy`: the timeout decorator.
- `pipe.dfy`: the composer.

Each file ends with scenario methods. These replay the library's test cases and the
surprising paths.

### Where the code does something other than one might expect

The model follows the code.

- **A second `cancel` is not a no-op.** One might expect the first reason to win. The
  cancel closure stores every reason it is given, so a later reason overwrites an earlier
  one (`src/CancelToken.ts:36-37`). It notifies nobody the second time, because the list is
  gone (`CancelTwice`).
- **Listeners are not notified from a snapshot.** `forEach` runs over the live array. The
  `waitAsync` listener removes itself with `splice` while it runs, so the next listener is
  skipped. `SelfRemovalSkipsNext` and `TwoDelaysOneToken` show this: of two delays on one
  token, the second never hears of the cancellation.
- **Subscribing after a falsy cancel.** `subscribe` tests the stored reason, not
  `requested`. After a cancel with a falsy reason, a late subscriber is neither called nor
  registered (`SubscribeAfterCancel`). A `withTimeout` call on such a token is therefore
  ended only by its deadline or its operation (`FalsyCancelledUpstream`).
- **`withTimeout` on an already-cancelled upstream token** rejects at once, yet it still
  starts the inner operation, with a child token that is already cancelled
  (`AlreadyCancelledUpstream`). It never releases its upstream subscription.
- **An `undefined` or `null` error stalls a retry or a timeout.** After a rejection with
  `undefined` or `null` that the policy would retry, `withRetry` bumps the counter and
  then builds a log line from `err.name` and `err.message`. That throws inside the
  rejection handler, so no delay starts and the call never settles (`src/withRetry.ts:56-57`;
  `RetryTwice`, `DefaultPolicyRetriesOnce`, `CancelledDuringDelay`). `withTimeout` does
  the same with `error.message` when `getTimeoutError` gives `undefined` or `null`. The
  child is then not cancelled and the call is not rejected (`src/withTimeout.ts:51-52`;
  `NullishTimeoutError`).
- **The `pipe` doc comment** says that `pipe(10, x => x + 1, x => x * 2)` gives 42. The
  reduce gives 22 (`DocExample`).

## Model

| member | source | states |
|---|---|---|
| Common.CancelError | src/CancelToken.ts:100-105 | a CancelError is an Error named "CancelError" (so `isCancelError` holds and it is truthy) carrying the given message |
| CancelTokens.IndexOf | src/CancelToken.ts:65-66 | `indexOf` answers -1 or an index that holds the listener |
| CancelTokens.IndexOfFirst | src/CancelToken.ts:65-66 | `indexOf` answers -1 exactly when the listener is absent, and otherwise no earlier index holds it |
| CancelTokens.Without | src/CancelToken.ts:65-67 | removal shortens the list by at most one entry |
| CancelTokens.WithoutLength | src/CancelToken.ts:65-67 | removing an absent listener leaves the list as it is; removing a present one shortens it by exactly one |
| CancelTokens.WithoutRemovesOne | src/CancelToken.ts:65-67 | removal takes away exactly one occurrence of the listener and keeps every other entry |
| CancelTokens.SpliceIsWithout | src/CancelToken.ts:65-67 | `splice(indexOf(cb), 1)` on a list holding `cb` is removal of its first occurrence, with the other entries left in order |
| CancelTokens.Notified | src/CancelToken.ts:38 | `forEach` makes no more calls than the list has entries |
| CancelTokens.NotifiedFromList | src/CancelToken.ts:38 | only listeners in the list at cancel time are called |
| CancelTokens.NotifiedPrefix | src/CancelToken.ts:38 | listeners that do not unsubscribe themselves are each called, in order, before the rest of the list is processed |
| CancelTokens.NotifiedAll | src/CancelToken.ts:38 | when no listener unsubscribes during notification, every listener present at cancel time is called exactly once, in subscription order |
| CancelTokens.NotifiedSkipsNeighbour | src/CancelToken.ts:38 | a listener that unsubscribes itself when called makes `forEach` skip the listener right after it |
| CancelTokens.CancelToken.constructor | src/CancelToken.ts:31-34 | a new token is not requested, holds no error and has an empty listener list |
| CancelTokens.CancelToken.Cancel | src/CancelToken.ts:35-40 | cancel sets `requested`, stores the new reason even when one is already stored, calls exactly the listeners `Notified` gives for the list at call time, logs those calls with the reason, and discards the list; a second cancel calls nobody |
| CancelTokens.CancelToken.NotifyListeners | src/CancelToken.ts:38 | the `forEach` over the live array, whose length is read once, calls exactly the listeners `Notified` gives for the list at its start |
| CancelTokens.CancelToken.VisitListener | src/CancelToken.ts:38 | one index of the `forEach`: the entry still at that index is the one called, and if it unsubscribes itself the live array becomes the old one with that entry removed, otherwise it stays as it was; past the end of the shrunken array nothing is called and nothing changes |
| CancelTokens.CancelToken.Subscribe | src/CancelToken.ts:48-60 | a truthy stored reason calls the callback once at once (logged with the stored reason) and registers nothing; a cancelled token with a falsy reason neither calls nor registers; a live token appends the callback at the end |
| CancelTokens.CancelToken.Unsubscribe | src/CancelToken.ts:62-68 | the returned unsubscribe removes the first occurrence of its callback from a live list and does nothing when the callback is absent or the list was discarded |
| CancelTokens.CancelToken.Release | src/CancelToken.ts:53-68 | calling the closure `subscribe` returned: the no-op closure changes nothing, the real one unsubscribes its callback |
| CancelTokens.CancelToken.ThrowIfRequested | src/CancelToken.ts:72-74 | throws the stored reason exactly when cancellation was requested, and changes nothing |
| CancelTokens.CancelSource.constructor | src/CancelToken.ts:92-96 | `source()` returns a new token in its initial state |
| CancelTokens.CancelSource.Cancel | src/CancelToken.ts:92-96 | the `cancel` of the pair cancels exactly its own token |
| CancelTokens.CancelTwice | src/CancelToken.ts:35-40 | after two cancels the first notifies the listener, the second notifies nobody, and the stored reason is the second one |
| CancelTokens.SubscribeAfterCancel | src/CancelToken.ts:48-56 | a subscriber arriving after cancel is called at once exactly when the reason is truthy, and is never registered |
| CancelTokens.SelfRemovalSkipsNext | src/CancelToken.ts:38 | with two listeners, where the first unsubscribes itself when called, only the first is called |
| Delays.WaitAsync.constructor | src/waitAsync.ts:3-37 | a token that is already cancelled rejects the delay with its reason, with no timer started and nothing subscribed; otherwise the timer starts and the listener is appended; the delay defaults to 1000 ms |
| Delays.WaitAsync.ReleaseSubscription | src/waitAsync.ts:13-19 | the helper calls the token's unsubscribe at most once and clears the handle, so a second call changes nothing |
| Delays.WaitAsync.TimerFires | src/waitAsync.ts:25-28 | the timer can fire only while the token has not called the listener; it unsubscribes the listener and resolves the delay with its value |
| Delays.WaitAsync.Cancelled | src/waitAsync.ts:31-36 | the listener body runs only with the reason of a call the token made to this listener, and before the timer fires; then the timer is cleared, the listener unsubscribed, and the delay rejects with the reason, or with a CancelError naming the delay when the reason is falsy |
| Delays.WaitWithoutToken | src/waitAsync.ts:3-28 | without a token the delay resolves with its value, after 1000 ms when no duration is given |
| Delays.WaitOnCancelledToken | src/waitAsync.ts:23 | on an already-cancelled token the delay rejects with the stored reason, starts no timer and subscribes nothing |
| Delays.CancelBeforeTimer | src/waitAsync.ts:30-36 | a cancel before the timer clears it and rejects with the reason, or with the CancelError when the reason is falsy |
| Delays.TimerBeforeCancel | src/waitAsync.ts:25-28 | after the timer fires the listener is gone, so a later cancel calls nobody and the delay stays resolved |
| Delays.TwoDelaysOneToken | src/waitAsync.ts:31-33 | of two delays on one token, the first rejects on cancel and the second is skipped and later resolves |
| Retry.RetriesBeforeStopAt | src/withRetry.ts:47-56 | a policy that answers non-negatively for counters c to k-1 and negatively for k yields exactly k - c retries |
| Retry.WithRetry.constructor | src/withRetry.ts:16-72 | the counter starts at 0 and the first attempt starts at once with `args`, unless the token is already cancelled, in which case the call rejects with its reason and the operation is never called |
| Retry.WithRetry.RejectOnCancel | src/withRetry.ts:21-33 | returns true and rejects with the token's reason exactly when the token has been cancelled |
| Retry.WithRetry.ExecAsync | src/withRetry.ts:36-41 | an attempt calls the operation with the same `args` unless the token is cancelled, which rejects instead |
| Retry.WithRetry.InnerResolved | src/withRetry.ts:41-42 | the first success resolves the call with its value and starts no further attempt |
| Retry.WithRetry.InnerRejected | src/withRetry.ts:43-66 | after a failure a cancelled token wins over the inner error; otherwise the policy gets (counter, error, args): a negative answer rejects with the inner error; any other increments the counter by one and, for an Error or falsy primitive, starts a delay of that length on the same token, while for `undefined` or `null` the log line throws and the call stalls, settling never |
| Retry.WithRetry.DelayElapsed | src/withRetry.ts:61-62 | when the retry delay elapses, which needs that the token has not called its listener, the next attempt runs with the same `args`, or the call rejects if the token was cancelled meanwhile |
| Retry.WithRetry.DelayCancelled | src/withRetry.ts:61-65 | the delay's listener body, run only with the reason of a call the token made to that listener, rejects the call with the delay's rejection reason and runs no further attempt; the token keeps its state and loses only the delay's listener |
| Retry.RunAlwaysFailing | src/withRetry.ts:36-69 | with an always-failing operation and no token, the operation runs 1 + (number of leading non-negative policy answers) times and the call rejects with the inner error; an `undefined` or `null` error gives one run and a rejection only when the first answer is negative, a stalled call otherwise |
| Retry.NeverRetry | src/tests/withRetry.spec.ts:17-20 | the policy `() => -1` runs the operation once and rejects |
| Retry.RetryTwice | src/tests/withRetry.spec.ts:27-30 | the policy `c < 2 ? 10 : -1` runs the operation three times and rejects with the inner error; an `undefined` or `null` inner error stalls the call after one run |
| Retry.DefaultPolicyRetriesOnce | src/withRetry.ts:3 | the default policy retries once and then stops: two runs and the inner error; an `undefined` or `null` inner error stalls the call after one run |
| Retry.FirstAttemptSucceeds | src/withRetry.ts:41-42 | a first success resolves after one run |
| Retry.CancelledBeforeCall | src/withRetry.ts:38 | a token cancelled before the call rejects with its reason and the operation never runs |
| Retry.CancelledDuringAttempt | src/withRetry.ts:45 | a cancel during an attempt that then fails rejects with the cancellation reason, not the inner error |
| Retry.CancelledDuringDelay | src/withRetry.ts:61-65 | a cancel during the retry delay rejects after a single run, with the reason or, when it is falsy, with the CancelError naming the delay; after an `undefined` or `null` inner error no delay exists, so the cancel reaches nobody and the call stays pending |
| Timeout.SettledReason | src/withTimeout.ts:65 | the reason the deadline token gets when the operation settles is a CancelError "Promise settled, cancel Timeout" |
| Timeout.WithTimeout.constructor | src/withTimeout.ts:20-62 | upstream is subscribed first, and a truthy stored upstream reason cancels both new sources and rejects at once; a listener left registered has not been called yet; the deadline is `getTimeoutInMs(args)` or 1000; the operation is called once with `setCancelToken(child, args)` or `args`, in every case |
| Timeout.WithTimeout.SubscribeUpstream | src/withTimeout.ts:35-42 | the upstream subscription appends the listener to a live upstream token; a truthy stored upstream reason instead calls the listener at once, which cancels both new sources with it and rejects; otherwise the sources stay untouched; the listener counts as pending exactly when it was appended |
| Timeout.WithTimeout.Settle | src/withTimeout.ts:24 | the outer promise takes the first outcome offered and ignores later ones |
| Timeout.WithTimeout.CancelTimeout | src/withTimeout.ts:27 | `cancelTimeout` cancels the deadline token with the reason, which clears a deadline still pending |
| Timeout.WithTimeout.UpstreamCancelled | src/withTimeout.ts:36-41 | the upstream listener, run at most once and only with the reason of a call upstream made to it, cancels the deadline and child sources with the upstream reason and rejects with it unless already settled |
| Timeout.WithTimeout.InnerSettled | src/withTimeout.ts:62-67 | when the operation settles, which cannot happen between upstream's call of the listener and its body, the deadline source is cancelled with the "Promise settled" reason, the child source is untouched, and the call takes the operation's outcome unless already settled |
| Timeout.WithTimeout.DeadlineElapsed | src/withTimeout.ts:48-56 | when the deadline passes, which cannot happen between upstream's call of the listener and its body, the child source is cancelled with the timeout error (`getTimeoutError(args)` or "Timed out after N ms.") and the call rejects with that same error unless already settled; an `undefined` or `null` timeout error throws at the log line first, so neither happens |
| Timeout.SettledBeforeDeadline | src/tests/withTimeout.spec.ts:18-23 | an operation finishing first gives its value, cancels the deadline with the "Promise settled" reason and leaves the child live |
| Timeout.DeadlineBeforeSettled | src/tests/withTimeout.spec.ts:25-31 | a deadline passing first rejects with the timeout error and cancels the child with it; the later settlement changes nothing |
| Timeout.DefaultDeadline | src/withTimeout.ts:46-51 | without getters the deadline is 1000 ms and the error names it |
| Timeout.TimedOutThenCancelled | src/tests/withTimeout.spec.ts:41-47 | an upstream cancel after the timeout still runs the listener and cancels the child, but the call keeps the timeout error |
| Timeout.CancelledFirst | src/tests/withTimeout.spec.ts:49-55 | an upstream cancel first rejects with its reason, clears the deadline and cancels the child with it |
| Timeout.SettledThenCancelled | src/tests/withTimeout.spec.ts:57-62 | an upstream cancel after the operation settled leaves the call resolved with the operation's value |
| Timeout.AlreadyCancelledUpstream | src/withTimeout.ts:35-62 | with upstream already cancelled with a truthy reason, the call rejects at once, no deadline starts, and the operation is still called, with a cancelled child token |
| Timeout.FalsyCancelledUpstream | src/withTimeout.ts:35-42 | with upstream cancelled with a falsy reason, the listener is neither called nor registered, so the call stays pending until the deadline rejects it |
| Timeout.NullishTimeoutError | src/withTimeout.ts:48-57 | when `getTimeoutError` gives `undefined`, the deadline neither cancels the child nor rejects, and the call later takes the operation's outcome |
| Timeout.ChildTokenPassedDown | src/withTimeout.ts:61-62 | with `setCancelToken`, the operation receives the child token |
| Pipe.Pipe | src/pipe.ts:64-67 | with no functions the start value is returned; with one, that function applied to it |
| Pipe.Accumulators | src/pipe.ts:7-12 | the accumulator starts at the start value, each function is applied exactly once, in list order, to the previous value, and the last value is the pipe's result |
| Pipe.PipeSplit | src/pipe.ts:66 | piping through `fs + gs` equals piping through `fs` and then through `gs` |
| Pipe.PipeAppend | src/pipe.ts:66 | a function added at the end is applied to the previous result |
| Pipe.PipeIsNested | src/pipe.ts:7-12 | `pipe(start, f1, ..., fn)` equals `fn(...f1(start))` |
| Pipe.PassThroughIsNeutral | src/index.ts:31 | `passThrough`, the identity transform: inserting it anywhere in the list leaves the result unchanged |
| Pipe.DocExample | src/pipe.ts:14-18 | the doc comment's example evaluates to 22 |

## Left out

- Time: timers, durations and the microtask queue are not modelled. A timer firing, a token
  being cancelled and the inner operation settling are events. Each event runs to
  completion together with the promise continuations it triggers.
- The inner operation is not modelled; only its settlements are, as the events
  `InnerResolved`, `InnerRejected` and `InnerSettled`. What it does with the child token is
  outside the model.
- Listener bodies are of two kinds. One runs and unsubscribes itself (`waitAsync`). The
  other just runs (`withTimeout`). A listener that calls `cancel` or `subscribe` on the
  token that is notifying it is not modelled.
- `CancelToken.Cancel` returns the list of listeners it called. The caller then runs their
  bodies (`WaitAsync.Cancelled`, `WithRetry.DelayCancelled`, `WithTimeout.UpstreamCancelled`)
  instead of the token calling into them. The preconditions on the call log keep other
  events of the same call out of the gap between a call and its body. The model does not
  force the body to run at all, or to run before the next `cancel`.
- `undefined` and `null` become one `Undefined`, and the other falsy values (0, "", false,
  NaN) one `OtherFalsy`. Error objects keep only their name and message. The two template-string messages are constructors, not
  rendered text.
- `getCancelToken(args)` is evaluated by the caller and passed in as the token.
  `getTimeoutInMs`, `getTimeoutError`, `getRetryDelayInMs` and `setCancelToken` are
  total functions that never throw, and millisecond values are integers.
- Retry.WithRetry.InnerRejected: the policy answer is an integer, so the source's
  behaviour on a `NaN` answer is not modelled. `NaN < 0` is false, so `NaN` retries.
- Retry.WithRetry.InnerRejected: a policy that throws is not modelled. In the source the
  throw happens inside the `.then` rejection handler, so the outer promise never settles.
- The `requested` getter is the field `requested` itself.
- `logger` calls have no effect and are omitted. The exceptions are the two template
  strings that read `.name` or `.message` of an error value, which throw on `undefined`
  and `null`; that throw is modelled.
- The rejection of the `withTimeout` deadline delay is swallowed by `() => undefined`. It
  is modelled by never reading that delay's result.
- Retry.RunAlwaysFailing: handles at most `fuel` failures, so a policy that never stops is
  only followed for `fuel` rounds.
- Pipe.Pipe: every step maps one type to itself. The TypeScript overloads let each step
  change the type, which Dafny's sequences of functions cannot express.
- CancelTokens.Notified: its own contract only bounds the calls. What it means is stated
  by `NotifiedFromList`, `NotifiedAll`, `NotifiedPrefix` and `NotifiedSkipsNeighbour`.
- CancelTokens.IndexOf and CancelTokens.Without: their own contracts are kept small. What
  absence and first occurrence mean for them is stated by `IndexOfFirst`, `WithoutLength`
  and `WithoutRemovesOne`.
- The commented-out `createChildToken` and `race` are not modelled, nor is the older
  compiled bundle under `docs/`.
- Not modelled: the browser wrappers (fetch, abort, progress, cache, online check, HTTP
  status), the random fault injector, and the DOM demo and test runner.
