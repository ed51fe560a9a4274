/** The vocabulary shared by the whole model: symbolic descriptions of the
    publishers that the stream factory hands out, the subscribers and
    subscriptions they exchange, the Reactive Streams signals, and a log of
    the calls one object makes on another. The combination engines
    (zip, combine-latest, switch, dynamic merge, concat and merge) are not
    part of the factory, so each is an opaque constructor here. */
module Reactive {

  datatype Option<T> = None | Some(value: T)

  /** A failure value (a Java Throwable), known only by identity. */
  datatype Throwable = Throwable(id: nat)

  /** The control handle passed to a subscriber by onSubscribe. */
  datatype Subscription = NeverSubscription | UpstreamSubscription(id: nat)

  /** The function that combines one value per source into one output. */
  datatype Combinator = UserCombinator(id: nat) | JoinZipper

  /** The operator lifted over a publisher of publishers by switchOnNext. */
  datatype Operator = SwitchOperator

  /** A value travelling through a stream; a publisher is itself a value
      when a publisher of publishers emits it. */
  datatype Value = Item(id: nat) | PublisherValue(p: Pub)

  /** The source list an engine is built with; `NullSources` is the null list
      of the dynamic variants, whose sources arrive later. */
  datatype Sources = Listed(list: seq<Pub>) | NullSources

  /** A symbolic description of a publisher. */
  datatype Pub =
    | Empty                                    // the shared completed-only stream
    | Never                                    // the shared silent stream
    | Just(v: Value)                           // a single-value stream
    | Generated(supplier: nat)                 // a stream pulling from a supplier
    | Proxy(target: Pub)                       // the forwarding proxy built by wrap
    | FromSeq(vs: seq<Value>)                  // a plain publisher of the given values
    | ConcatOf(outer: Pub)                     // the concat engine over a publisher of publishers
    | MergeOf(outer: Pub)                      // the merge engine over a publisher of publishers
    | ZipOf(sources: Sources, zipper: Combinator)
    | CombineLatestOf(sources: Sources, combinator: Combinator)
    | DynamicBridge(engine: Pub)               // a dynamic merge action feeding an engine
    | Lifted(upstream: Pub, op: Operator)      // an operator stream over an upstream
    | Foreign(id: nat, isStream: bool, isSupplier: bool, supplied: Option<Value>)
      // an arbitrary publisher from outside; `supplied` is what its get() yields when it is a
      // supplier (None standing for null)

  /** Who receives the signals of a subscribe call. */
  datatype Subscriber =
    | NullSubscriber
    | SubscriberRef(id: nat)
    | BridgeSubscriber(bridge: Pub)            // a dynamic merge action in its subscriber role
    | AwaitSubscriber                          // the terminal observer of the await bridge

  /** The signals a publisher sends to a subscriber. */
  datatype Signal =
    | OnSubscribe(subscription: Subscription)
    | OnNext(value: Value)
    | OnError(error: Throwable)
    | OnComplete

  /** A call one party makes on another. */
  datatype Call =
    | SubscribeCall(publisher: Pub, subscriber: Subscriber)
    | OnSubscribeCall(subscriber: Subscriber, subscription: Subscription)
    | RequestCall(subscription: Subscription, n: int)

  /** Java's Long.MAX_VALUE, the unbounded-demand sentinel. */
  const LONG_MAX: int := 0x7fff_ffff_ffff_ffff

  /** Whether the publisher is an instance of the Stream class. The descriptions
      built by Publishers (plain values, concat, merge) are plain publishers. */
  predicate IsStream(p: Pub) {
    match p
    case FromSeq(_) => false
    case ConcatOf(_) => false
    case MergeOf(_) => false
    case Foreign(_, isStream, _, _) => isStream
    case _ => true
  }

  /** Whether the publisher also implements Supplier. */
  predicate IsSupplier(p: Pub) {
    p.Foreign? && p.isSupplier
  }

  /** The values a publisher is documented to emit before it completes, when
      that is fixed by its construction; None when it is not known here. */
  function Emits(p: Pub): Option<seq<Value>> {
    match p
    case Empty => Some([])
    case Just(v) => Some([v])
    case FromSeq(vs) => Some(vs)
    case Proxy(q) => Emits(q)
    case _ => None
  }

  /** A record of the calls made, in order, on external parties. */
  class CallLog {
    var calls: seq<Call>

    constructor ()
      ensures calls == []
    {
      calls := [];
    }

    method Record(c: Call)
      modifies this
      ensures calls == old(calls) + [c]
    {
      calls := calls + [c];
    }
  }
}
