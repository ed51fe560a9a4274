/** The source adapter of the stream factory: wrap for publishers and
    processors, the shared empty and never streams, just and generate, and
    what subscribing to the streams defined by the factory itself does. */
module Adapter {
  import opened Reactive

  datatype Error = IllegalArgument(message: string)

  datatype Result<T> = Ok(value: T) | Err(error: Error)

  /** The supplier short-cut of wrap applies: the argument is not a Stream,
      is a Supplier, and its get() yields a non-null value. */
  predicate SupplierShortcut(p: Pub) {
    !IsStream(p) && IsSupplier(p) && p.supplied.Some?
  }

  /** Streams.wrap(Publisher): a Stream is returned as it is, a supplier with a
      value becomes a single-value stream, anything else gets a forwarding proxy. */
  function Wrap(p: Pub): (r: Pub)
    ensures IsStream(r)
    ensures IsStream(p) ==> r == p
  {
    if IsStream(p) then p
    else if IsSupplier(p) && p.supplied.Some? then Just(p.supplied.value)
    else Proxy(p)
  }

  /** Streams.empty(): the shared stream that only completes. */
  function EmptyStream(): (r: Pub)
    ensures IsStream(r) && Emits(r) == Some([])
  {
    Empty
  }

  /** Streams.never(): the shared stream that never signals after onSubscribe. */
  function NeverStream(): (r: Pub)
    ensures IsStream(r) && Wrap(r) == r
    ensures forall s: Subscriber :: !s.NullSubscriber? ==>
      Subscribe(r, s) == [SubscribeCall(r, s), OnSubscribeCall(s, NeverSubscription)]
    ensures Subscribe(r, NullSubscriber) == [SubscribeCall(r, NullSubscriber)]
  {
    Never
  }

  /** Streams.just(value): a stream of exactly that value. */
  function JustStream(v: Value): (r: Pub)
    ensures IsStream(r) && Emits(r) == Some([v])
  {
    Just(v)
  }

  /** Streams.generate(supplier): a null supplier is refused. */
  function Generate(supplier: Option<nat>): (r: Result<Pub>)
    ensures r.Err? <==> supplier.None?
    ensures r.Err? ==> r.error == IllegalArgument("Supplier must be provided")
    ensures r.Ok? ==> IsStream(r.value) && r.value == Generated(supplier.value)
  {
    if supplier.None? then Err(IllegalArgument("Supplier must be provided"))
    else Ok(Generated(supplier.value))
  }

  /** The calls that `p.subscribe(s)` makes by the subscribe bodies written in
      the factory: the proxy forwards the subscriber to its target, and the
      never stream hands a non-null subscriber its no-op subscription. What
      the engines and outside publishers do on subscribe is not traced. */
  function Forwarded(p: Pub, s: Subscriber): (r: seq<Call>)
    ensures forall k :: 0 <= k < |r| ==>
      (r[k].SubscribeCall? && r[k].subscriber == s) || r[k] == OnSubscribeCall(s, NeverSubscription)
    ensures s.NullSubscriber? ==> forall k :: 0 <= k < |r| ==> r[k].SubscribeCall?
    ensures !p.Proxy? && !p.Never? ==> r == []
  {
    match p
    case Proxy(q) => [SubscribeCall(q, s)] + Forwarded(q, s)
    case Never => if s.NullSubscriber? then [] else [OnSubscribeCall(s, NeverSubscription)]
    case _ => []
  }

  /** The calls made when a caller subscribes `s` to `p`, the caller's own call first. */
  function Subscribe(p: Pub, s: Subscriber): seq<Call> {
    [SubscribeCall(p, s)] + Forwarded(p, s)
  }

  /** How many times the calls subscribe `s` to `q`. */
  function SubscribesTo(calls: seq<Call>, q: Pub, s: Subscriber): nat {
    if |calls| == 0 then 0
    else SubscribesTo(calls[..|calls| - 1], q, s) + (if calls[|calls| - 1] == SubscribeCall(q, s) then 1 else 0)
  }

  lemma WrapIdempotent(p: Pub)
    ensures Wrap(Wrap(p)) == Wrap(p)
    ensures forall s :: Subscribe(Wrap(Wrap(p)), s) == Subscribe(Wrap(p), s)
  {
  }

  /** Wrapping a publisher that is neither a Stream nor a supplier with a value
      adds exactly one forwarding step: the subscriber reaches the publisher
      once, and no other call is made. */
  lemma WrapForwardsOnce(p: Pub, s: Subscriber)
    requires !IsStream(p) && !SupplierShortcut(p)
    ensures Subscribe(Wrap(p), s) == [SubscribeCall(Proxy(p), s), SubscribeCall(p, s)]
    ensures SubscribesTo(Subscribe(Wrap(p), s), p, s) == 1
  {
    assert Wrap(p) == Proxy(p);
    assert Forwarded(p, s) == [];
    var calls := Subscribe(Wrap(p), s);
    assert calls[..1] == [SubscribeCall(Proxy(p), s)];
    assert calls[..1][..0] == [];
    assert Proxy(p) != p;
    assert SubscribesTo(calls[..1], p, s) == 0;
  }

  /** A supplier with a value is replaced by the single-value stream of that
      value, and the supplier itself is never subscribed. */
  lemma WrapSupplierShortcut(p: Pub, s: Subscriber)
    requires SupplierShortcut(p)
    ensures Wrap(p) == Just(p.supplied.value)
    ensures Emits(Wrap(p)) == Some([p.supplied.value])
    ensures SubscribesTo(Subscribe(Wrap(p), s), p, s) == 0
  {
    var calls := Subscribe(Wrap(p), s);
    assert calls == [SubscribeCall(Just(p.supplied.value), s)];
    assert calls[..0] == [];
  }

  /** A non-Stream supplier whose get() yields null falls through to the proxy. */
  lemma WrapNullSupplier(p: Pub)
    requires !IsStream(p) && IsSupplier(p) && p.supplied.None?
    ensures Wrap(p) == Proxy(p)
  {
  }

  /** Wrapping keeps what a publisher is known to emit. */
  lemma WrapKeepsContent(p: Pub)
    requires Emits(p).Some?
    ensures Emits(Wrap(p)) == Emits(p)
  {
  }

  /** The calls on the never stream's subscription. */
  datatype SubscriptionCall = Request(n: int) | Cancel

  /** What the never stream's subscription does on a call: nothing. */
  function NeverReacts(c: SubscriptionCall): seq<Call> {
    []
  }

  /** The calls made when `s` subscribes to the never stream and then calls
      its subscription `cs` times over. */
  function NeverSession(s: Subscriber, cs: seq<SubscriptionCall>): seq<Call> {
    if |cs| == 0 then Subscribe(NeverStream(), s)
    else NeverSession(s, cs[..|cs| - 1]) + NeverReacts(cs[|cs| - 1])
  }

  /** Whatever the subscriber asks of it, the never stream delivers exactly one
      onSubscribe to a non-null subscriber and nothing to a null one. */
  lemma {:induction false} NeverOnlySubscribes(s: Subscriber, cs: seq<SubscriptionCall>)
    ensures NeverSession(s, cs) ==
      [SubscribeCall(Never, s)] + (if s.NullSubscriber? then [] else [OnSubscribeCall(s, NeverSubscription)])
  {
    if |cs| > 0 {
      NeverOnlySubscribes(s, cs[..|cs| - 1]);
    }
  }

  /** The processor arguments of wrap(Processor). */
  datatype Processor = Processor(id: nat, isAction: bool) | WrappedProcessor(inner: Processor)

  /** Whether a processor is a ProcessorAction; the result of
      ProcessorAction.wrap is one. */
  predicate IsProcessorAction(p: Processor) {
    p.WrappedProcessor? || p.isAction
  }

  /** Streams.wrap(Processor): a ProcessorAction is returned as it is, any
      other processor is wrapped into one. */
  function WrapProcessor(p: Processor): (r: Processor)
    ensures IsProcessorAction(r)
    ensures IsProcessorAction(p) ==> r == p
    ensures !IsProcessorAction(p) ==> r.WrappedProcessor? && r.inner == p
  {
    if IsProcessorAction(p) then p else WrappedProcessor(p)
  }

  lemma WrapProcessorIdempotent(p: Processor)
    ensures WrapProcessor(WrapProcessor(p)) == WrapProcessor(p)
  {
  }
}
