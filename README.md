# Stream factory facade of reactor-stream, modelled in Dafny

`Streams.java` is the static factory of reactor-stream: it adapts arbitrary
Reactive Streams publishers into `Stream`s (`wrap`), hands out the shared
`empty()` and `never()` streams, builds single-value and supplier-driven
streams, dispatches `concat`, `merge`, `zip`, `combineLatest`, `join` and
`switchOnNext` to their combination engines, and offers `await`, a blocking
bridge that waits for a publisher's terminal signal.

The engines themselves (`ZipAction`, `CombineLatestAction`, `SwitchOperator`,
`DynamicMergeAction`, `Publishers.concat/merge/from`, `ProcessorAction.wrap`)
live elsewhere. The model therefore describes publishers symbolically: the
datatype `Reactive.Pub` has one opaque constructor per engine (`ConcatOf`,
`MergeOf`, `ZipOf`, `CombineLatestOf`, `DynamicBridge`, `Lifted`), one per
stream the factory defines (`Empty`, `Never`, `Just`, `Generated`, the
forwarding `Proxy`), a plain `FromSeq` publisher of values, and `Foreign` for
an arbitrary outside publisher, which carries the runtime type facts `wrap`
inspects (`isStream`, `isSupplier`, and what `get()` yields). Values are
untyped, as after Java erasure; a publisher of publishers emits
`PublisherValue`s.

Files:

- `reactive.dfy` (module `Reactive`): the data model, `IsStream`,
  `IsSupplier`, `Emits` (the values a publisher is documented to emit when its
  construction fixes them) and `CallLog`, a record of calls made on outside
  parties.
- `adapter.dfy` (module `Adapter`): `wrap` for publishers and processors,
  `empty`, `never`, `just`, `generate`, and what subscribing to the proxy and
  to `NEVER` does.
- `combinators.dfy` (module `Combinators`): `concat`, `merge`, `zip`,
  `combineLatest`, `join`, `switchOnNext` and the dynamic variants.
- `await.dfy` (module `AwaitBridge`): the await observer as a class, a pure
  model of its state after a sequence of signals, the outcome rule, and the
  `await` method that drives the observer.

Modelling decisions:

- `concat` and `merge` fill a list in a loop before branching. That loop is
  the method `Combinators.CopySources`, and `Concat`/`Merge` are methods. The
  Java `Iterable` is a value of `Combinators.Iterable`: its elements, plus a
  flag for a one-shot iterable whose later traversals yield nothing.
- The results of `Publishers.concat`, `Publishers.merge` and `Publishers.from`
  are taken to be plain publishers: neither `Stream`s nor `Supplier`s. So
  `wrap` gives each of them a forwarding proxy.
- The dynamic `zip`/`combineLatest`/`join` subscribe the outer publisher to
  the bridge. That call is recorded in a `CallLog` passed in.
- `await` is sequential. The signals that reach the observer before the
  recorded error is read are a parameter. The latch's wait ends as soon as a
  terminal signal releases it, or on timeout; the model, like the source,
  does not tell the two apart, and returns the bound the latch waited with.
  The calls the bridge makes (its subscribe, its `request` calls) are
  returned as a list. The three shorter overloads are methods that call the
  full form.
- An observer signal `onNext` is ignored. The observer does not override it:
  it keeps `BaseSubscriber`'s default, and `BaseSubscriber` is not part of
  this model.

## Model

| member | source | states |
|---|---|---|
| Adapter.Wrap | reactor-stream/src/main/java/reactor/rx/Streams.java:233-249 | the result is always a Stream, and a Stream argument is returned unchanged |
| Adapter.WrapIdempotent | reactor-stream/src/main/java/reactor/rx/Streams.java:233-249 | wrapping twice equals wrapping once, so subscribing to either makes the same calls in the same order |
| Adapter.WrapForwardsOnce | reactor-stream/src/main/java/reactor/rx/Streams.java:243-248 | for an argument that is not a Stream and not a supplier with a value, subscribing `s` to the proxy passes `s` to the argument exactly once and makes no other call |
| Adapter.WrapSupplierShortcut | reactor-stream/src/main/java/reactor/rx/Streams.java:237-242 | a non-Stream supplier whose `get()` is non-null becomes `just` of that value, emits exactly that value, and is never subscribed to |
| Adapter.WrapNullSupplier | reactor-stream/src/main/java/reactor/rx/Streams.java:237-248 | a non-Stream supplier whose `get()` is null falls through to the forwarding proxy |
| Adapter.WrapKeepsContent | reactor-stream/src/main/java/reactor/rx/Streams.java:233-249 | when what a publisher emits is known, the wrapped publisher emits the same values |
| Adapter.WrapProcessor | reactor-stream/src/main/java/reactor/rx/Streams.java:264-269 | the result is a ProcessorAction; a ProcessorAction argument is returned unchanged, and any other processor becomes a wrapper around it |
| Adapter.WrapProcessorIdempotent | reactor-stream/src/main/java/reactor/rx/Streams.java:264-269 | wrapping a processor twice equals wrapping it once |
| Adapter.EmptyStream | reactor-stream/src/main/java/reactor/rx/Streams.java:306-308 | the shared empty stream is a Stream that emits no value before completing |
| Adapter.Forwarded | reactor-stream/src/main/java/reactor/rx/Streams.java:245-247 | the proxy's subscribe passes the caller's own subscriber on, and never another one; a publisher that is neither the proxy nor the never stream makes no traced call |
| Adapter.NeverStream | reactor-stream/src/main/java/reactor/rx/Streams.java:317-319 | the shared never stream is a Stream that wrap leaves alone; a non-null subscriber gets exactly one onSubscribe with the no-op subscription, a null one gets nothing |
| Adapter.NeverOnlySubscribes | reactor-stream/src/main/java/reactor/rx/Streams.java:2001-2020 | after any sequence of `request`/`cancel` calls, the never stream has delivered exactly one onSubscribe to a non-null subscriber and nothing to a null one |
| Adapter.JustStream | reactor-stream/src/main/java/reactor/rx/Streams.java:567-569 | `just(v)` is a Stream emitting exactly `v` |
| Adapter.Generate | reactor-stream/src/main/java/reactor/rx/Streams.java:730-733 | a null supplier is refused with IllegalArgumentException("Supplier must be provided"), and only then; otherwise the result is a supplier stream over that supplier |
| Combinators.From | reactor-stream/src/main/java/reactor/rx/Streams.java:341-343 | `from(values)` is a Stream emitting exactly those values in order |
| Combinators.CopySources | reactor-stream/src/main/java/reactor/rx/Streams.java:789-792 | the loop copies the elements of the first traversal in order |
| Combinators.ConcatAsWritten | reactor-stream/src/main/java/reactor/rx/Streams.java:788-800 | as written: 0 sources give `empty()` and 1 gives `wrap` of it; for 2 or more, the concat node combines a re-iterable argument's sources in order, and combines no source at all for a one-shot argument |
| Combinators.OneShotConcatDropsSources | reactor-stream/src/main/java/reactor/rx/Streams.java:788-800 | a one-shot iterable of two sources makes the code as written build a concat over no source |
| Combinators.Concat | reactor-stream/src/main/java/reactor/rx/Streams.java:788-800 | 0 sources give the shared `empty()`, 1 source gives `wrap` of it, 2 or more give one concat node over every source in the given order; the result is always a Stream |
| Combinators.Merge | reactor-stream/src/main/java/reactor/rx/Streams.java:1000-1011 | the same three-way split as concat, with one merge node over every source in the given order |
| Combinators.Merge2 | reactor-stream/src/main/java/reactor/rx/Streams.java:1038-1042 | the two-source overload is a merge node over the two sources in argument order |
| Combinators.Zip | reactor-stream/src/main/java/reactor/rx/Streams.java:1690-1693 | the result is the zip engine over exactly the given list and combinator: never the empty stream or a concat/merge node, and a Stream that wrap leaves alone |
| Combinators.CombineLatest | reactor-stream/src/main/java/reactor/rx/Streams.java:1430-1433 | the result is the combine-latest engine over exactly the given list and combinator, with no cardinality short-cut |
| Combinators.ZipOfOneIsEngine | reactor-stream/src/main/java/reactor/rx/Streams.java:1430-1433 | zip and combineLatest of a single source do not pass that source through: the result differs from `wrap` of the source |
| Combinators.Join | reactor-stream/src/main/java/reactor/rx/Streams.java:1894-1896 | `join(list)` is exactly `zip(list, joinZipper)` |
| Combinators.SwitchOnNext | reactor-stream/src/main/java/reactor/rx/Streams.java:770-773 | the result is the switch operator lifted over the given publisher of publishers, a Stream that wrap leaves alone |
| Combinators.ZipDynamic | reactor-stream/src/main/java/reactor/rx/Streams.java:1708-1718 | the zip engine is built with null sources inside a bridge; the outer publisher is subscribed to that bridge exactly once, with no other call, and that same bridge is returned |
| Combinators.CombineLatestDynamic | reactor-stream/src/main/java/reactor/rx/Streams.java:1449-1459 | as ZipDynamic, with the combine-latest engine |
| Combinators.JoinDynamic | reactor-stream/src/main/java/reactor/rx/Streams.java:1909-1911 | `join(outer)` is exactly the dynamic zip with the join zipper: same bridge, same single subscribe call |
| AwaitBridge.Step | reactor-stream/src/main/java/reactor/rx/Streams.java:1972-1990 | one signal's effect on the observer: a terminal signal clears the subscription and counts the latch down, never below zero; only onError changes the recorded error, to its own; onSubscribe stores its subscription; a value changes nothing |
| AwaitBridge.Outcome | reactor-stream/src/main/java/reactor/rx/Streams.java:1994-1998 | the caller returns normally exactly when no error is recorded, and otherwise gets an InterruptedException carrying the recorded error |
| AwaitBridge.AwaitObserver.OnSubscribe | reactor-stream/src/main/java/reactor/rx/Streams.java:1971-1977 | stores the subscription, and requests Long.MAX_VALUE on it only when the request flag is set |
| AwaitBridge.AwaitObserver.OnError | reactor-stream/src/main/java/reactor/rx/Streams.java:1979-1984 | clears the subscription, records the error and counts the latch down, never below zero |
| AwaitBridge.AwaitObserver.OnComplete | reactor-stream/src/main/java/reactor/rx/Streams.java:1986-1990 | clears the subscription and counts the latch down, never below zero |
| AwaitBridge.AwaitObserver.Deliver | reactor-stream/src/main/java/reactor/rx/Streams.java:1968-1991 | each signal has the effect of its callback; a value changes nothing |
| AwaitBridge.LatchCount | reactor-stream/src/main/java/reactor/rx/Streams.java:1967-1990 | the latch count is 1 until the first terminal signal and 0 from then on, however many terminal signals follow |
| AwaitBridge.ReleasedOnce | reactor-stream/src/main/java/reactor/rx/Streams.java:1967-1990 | the latch is released exactly once if any terminal signal arrives, and never otherwise |
| AwaitBridge.RecordedError | reactor-stream/src/main/java/reactor/rx/Streams.java:1979-1984 | an error is recorded exactly when some onError arrived, and it is the error of the last onError |
| AwaitBridge.HeldSubscription | reactor-stream/src/main/java/reactor/rx/Streams.java:1969-1990 | the observer holds a subscription exactly when the latest onSubscribe is followed by no terminal signal, and that subscription is the one it holds |
| AwaitBridge.UnboundedRequests | reactor-stream/src/main/java/reactor/rx/Streams.java:1972-1976 | every upstream request is for Long.MAX_VALUE; there is one per onSubscribe when the flag is set and none when it is not |
| AwaitBridge.AwaitOutcome | reactor-stream/src/main/java/reactor/rx/Streams.java:1993-1998 | the caller gets an InterruptedException exactly when an error was recorded, carrying the last error; completion and timeout with no error both return normally |
| AwaitBridge.Await | reactor-stream/src/main/java/reactor/rx/Streams.java:1963-1999 | subscribes the observer once, delivers the signals that reach it before the recorded error is read, waits on the latch with the caller's timeout and unit, and then throws exactly when an error was recorded; its calls are the subscribe followed by the observer's requests |
| AwaitBridge.AwaitDefault | reactor-stream/src/main/java/reactor/rx/Streams.java:1922-1924 | `await(p)` behaves as the full form with 30000 milliseconds and the request flag set: it throws exactly when an error was recorded, and every call after its subscribe is a request for Long.MAX_VALUE, one per onSubscribe |
| AwaitBridge.AwaitSeconds | reactor-stream/src/main/java/reactor/rx/Streams.java:1935-1937 | `await(p, timeout)` behaves as the full form with `timeout` seconds and the request flag set, with the same outcome and unbounded requests |
| AwaitBridge.AwaitIn | reactor-stream/src/main/java/reactor/rx/Streams.java:1949-1951 | `await(p, timeout, unit)` behaves as the full form with the request flag set, with the same outcome and unbounded requests |

## Left out

- The combination engines: buffering, demand accounting, completion and error propagation inside zip, combine-latest, switch, dynamic merge, concat and merge. They are outside this file and appear only as opaque constructors.
- Object identity. Two calls that build equal descriptions (two dynamic bridges, two proxies) are one value in the model. Java allocates a fresh object for each.
- Subscribe tracing: only the subscribe bodies written in this file are traced: the proxy's and `NEVER`'s. What engines and outside publishers do on subscribe is not recorded.
- Null publishers and null sources are not modelled; the model's publishers are never null. In the source, `wrap(null)` fails with a NullPointerException at `publisher.getClass()` (line 234), and so does `concat`/`merge` of a one-element list holding null. With two or more sources the copying loop and `Publishers.from` accept a null element (lines 790-791, 799, 1010), so any failure happens later, in the engine. The `zip`/`combineLatest`/`join` lists never go through `wrap` (lines 1432, 1692). A null outer publisher of the dynamic variants, or a null `await` target, fails at its `subscribe` call (lines 1456, 1715, 1968).
- `onError(null)`: `exception.set(null)` at line 1982 leaves no recorded error, so `await` then returns normally. The model's `Throwable` is never null, so this case is not modelled.
- Real blocking, the `CountDownLatch` timing and `AtomicReference` visibility. These are concurrency. Signals that arrive after the recorded error has been read are not modelled.
- The `TimeUnit` conversion of the timeout. It only decides how long the wait lasts, which the model takes as given.
- Timer and period streams, `from(Future)`, `range`, `fail`, `create`, `createWith`, `yield`, `convert`, `defer`, `lift`, `withOverflowSupport`, `from(Iterator)`, `from(T[])` and the multi-value `just` overloads. They are one-line delegations to factories outside this file, or time-based.
- `switchOnNext()` with no argument. It builds a replay processor outside this file.
- `concat(Publisher)` and `merge(Publisher)`. Each is `wrap` of an outside engine over a publisher of publishers.
- The 2- to 8-argument overloads of `concat`, `merge`, `zip`, `combineLatest` and `join`. Each builds the list form with its arguments in order; `Merge2` shows one.
- `Exceptions.addCause`. The model's InterruptedException carries the cause directly.

## Findings

| source | as written | input that shows it | evidently intended | confidence | as-written member | corrected member |
|---|---|---|---|---|---|---|
| reactor-stream/src/main/java/reactor/rx/Streams.java:788-800 | for 2 or more sources, `concat` copies the iterable into `publishers` but builds the engine from `from(mergedPublishers)`, a second traversal of the argument | a one-shot `Iterable` such as `() -> iterator` over two publishers: the copying loop exhausts the iterator, so the concatenation has no source | build the engine over the copied list, as `merge` does at line 1010 | medium, not executed | Combinators.ConcatAsWritten, Combinators.OneShotConcatDropsSources | Combinators.Concat |
