/** The synchronous await bridge of the stream factory. A terminal-only
    observer is subscribed to the publisher; it stores the subscription and
    requests unbounded demand when asked to, records an error, and counts a
    latch down on each terminal signal. After the wait the caller either
    returns normally or gets an InterruptedException carrying the recorded
    error. The wait itself is modelled sequentially: the signals the publisher
    delivers before the recorded error is read are a parameter. */
module AwaitBridge {
  import opened Reactive

  /** The observer's state: its field `s`, the shared error reference and the
      latch count. */
  datatype ObserverState = ObserverState(s: Option<Subscription>, exception: Option<Throwable>, count: nat)

  /** The state when the observer is subscribed: no subscription, no error, a
      latch of one. */
  const Initial: ObserverState := ObserverState(None, None, 1)

  /** CountDownLatch.countDown: decrements, never below zero. */
  function CountedDown(count: nat): nat {
    if count > 0 then count - 1 else 0
  }

  /** One signal's effect on the observer's state. A value is ignored: the
      observer only overrides the subscription and terminal callbacks. */
  function Step(st: ObserverState, sig: Signal): (r: ObserverState)
    ensures r.count == if IsTerminal(sig) then CountedDown(st.count) else st.count
    ensures r.count <= st.count
    ensures IsTerminal(sig) ==> r.s.None?
    ensures sig.OnSubscribe? ==> r.s == Some(sig.subscription) && r.exception == st.exception
    ensures r.exception == if sig.OnError? then Some(sig.error) else st.exception
    ensures sig.OnNext? ==> r == st
  {
    match sig
    case OnSubscribe(sub) => st.(s := Some(sub))
    case OnNext(_) => st
    case OnError(e) => ObserverState(None, Some(e), CountedDown(st.count))
    case OnComplete => st.(s := None, count := CountedDown(st.count))
  }

  /** The calls the observer makes upstream on one signal: the unbounded
      request on onSubscribe, when the request flag is set. */
  function Upstream(request: bool, sig: Signal): seq<Call> {
    if request && sig.OnSubscribe? then [RequestCall(sig.subscription, LONG_MAX)] else []
  }

  /** The observer's state after the signals. */
  function Run(sigs: seq<Signal>): ObserverState {
    if |sigs| == 0 then Initial else Step(Run(sigs[..|sigs| - 1]), sigs[|sigs| - 1])
  }

  /** The calls the observer makes upstream over the signals. */
  function Requests(request: bool, sigs: seq<Signal>): seq<Call> {
    if |sigs| == 0 then [] else Requests(request, sigs[..|sigs| - 1]) + Upstream(request, sigs[|sigs| - 1])
  }

  /** How many times the latch is released (its count goes from one to zero)
      over the signals. */
  function Releases(sigs: seq<Signal>): nat {
    if |sigs| == 0 then 0
    else
      var released := Run(sigs[..|sigs| - 1]).count > 0 && Run(sigs).count == 0;
      Releases(sigs[..|sigs| - 1]) + (if released then 1 else 0)
  }

  /** The number of onSubscribe signals. */
  function Handshakes(sigs: seq<Signal>): nat {
    if |sigs| == 0 then 0 else Handshakes(sigs[..|sigs| - 1]) + (if sigs[|sigs| - 1].OnSubscribe? then 1 else 0)
  }

  predicate IsTerminal(sig: Signal) {
    sig.OnError? || sig.OnComplete?
  }

  predicate HasTerminal(sigs: seq<Signal>) {
    exists i :: 0 <= i < |sigs| && IsTerminal(sigs[i])
  }

  predicate HasError(sigs: seq<Signal>) {
    exists i :: 0 <= i < |sigs| && sigs[i].OnError?
  }

  /** `e` is the error of the last onError signal. */
  predicate IsLastError(sigs: seq<Signal>, e: Throwable) {
    exists i :: 0 <= i < |sigs| && sigs[i] == OnError(e) && forall j :: i < j < |sigs| ==> !sigs[j].OnError?
  }

  /** `sub` was handed over by an onSubscribe that no terminal signal followed. */
  predicate IsLiveSubscription(sigs: seq<Signal>, sub: Subscription) {
    exists i :: 0 <= i < |sigs| && sigs[i] == OnSubscribe(sub) &&
      (forall j :: i < j < |sigs| ==> !sigs[j].OnSubscribe? && !IsTerminal(sigs[j]))
  }

  /** What the caller of await sees. */
  datatype AwaitResult = Returned | Interrupted(cause: Throwable)

  /** The rule applied after the wait: a recorded error is rethrown as an
      InterruptedException carrying it, anything else returns normally. */
  function Outcome(exception: Option<Throwable>): (r: AwaitResult)
    ensures r.Returned? <==> exception.None?
    ensures r.Interrupted? ==> Some(r.cause) == exception
  {
    if exception.Some? then Interrupted(exception.value) else Returned
  }

  lemma PrefixStep(sigs: seq<Signal>, i: nat)
    requires i < |sigs|
    ensures sigs[..i + 1][..i] == sigs[..i] && sigs[..i + 1][i] == sigs[i]
  {
  }

  /** The latch count is one until the first terminal signal and zero from
      then on; it never goes below zero. */
  lemma {:induction false} LatchCount(sigs: seq<Signal>)
    ensures Run(sigs).count == if HasTerminal(sigs) then 0 else 1
  {
    if |sigs| > 0 {
      var pre := sigs[..|sigs| - 1];
      LatchCount(pre);
      assert HasTerminal(sigs) <==> HasTerminal(pre) || IsTerminal(sigs[|sigs| - 1]) by {
        if HasTerminal(pre) {
          var i :| 0 <= i < |pre| && IsTerminal(pre[i]);
          assert sigs[i] == pre[i];
        }
        if HasTerminal(sigs) {
          var i :| 0 <= i < |sigs| && IsTerminal(sigs[i]);
          if i < |pre| { assert pre[i] == sigs[i]; }
        }
      }
    }
  }

  /** However many terminal signals arrive, the latch is released exactly
      once if one arrives and never otherwise. */
  lemma {:induction false} ReleasedOnce(sigs: seq<Signal>)
    ensures Releases(sigs) == if HasTerminal(sigs) then 1 else 0
  {
    if |sigs| > 0 {
      var pre := sigs[..|sigs| - 1];
      ReleasedOnce(pre);
      LatchCount(pre);
      LatchCount(sigs);
      if HasTerminal(pre) {
        var i :| 0 <= i < |pre| && IsTerminal(pre[i]);
        assert sigs[i] == pre[i];
      }
    }
  }

  /** An error is recorded exactly when some onError arrived, and the recorded
      error is that of the last onError. */
  lemma {:induction false} RecordedError(sigs: seq<Signal>)
    ensures Run(sigs).exception.None? <==> !HasError(sigs)
    ensures Run(sigs).exception.Some? ==> IsLastError(sigs, Run(sigs).exception.value)
  {
    if |sigs| > 0 {
      var pre := sigs[..|sigs| - 1];
      var last := sigs[|sigs| - 1];
      RecordedError(pre);
      if last.OnError? {
        assert sigs[|sigs| - 1] == OnError(last.error);
      } else {
        assert Run(sigs).exception == Run(pre).exception;
        if HasError(pre) {
          var i :| 0 <= i < |pre| && pre[i].OnError?;
          assert sigs[i] == pre[i];
          var e := Run(pre).exception.value;
          var k :| 0 <= k < |pre| && pre[k] == OnError(e) && forall j :: k < j < |pre| ==> !pre[j].OnError?;
          assert sigs[k] == OnError(e);
          assert forall j :: k < j < |sigs| ==> !sigs[j].OnError? by {
            forall j | k < j < |sigs| ensures !sigs[j].OnError? {
              if j < |pre| { assert sigs[j] == pre[j]; }
            }
          }
        }
        if HasError(sigs) {
          var i :| 0 <= i < |sigs| && sigs[i].OnError?;
          assert i < |pre| && pre[i] == sigs[i];
        }
      }
    }
  }

  /** The subscription the observer holds is the one of the latest
      onSubscribe, as long as no terminal signal followed it. */
  lemma {:induction false} HeldSubscription(sigs: seq<Signal>)
    ensures Run(sigs).s.Some? ==> IsLiveSubscription(sigs, Run(sigs).s.value)
    ensures forall sub :: IsLiveSubscription(sigs, sub) ==> Run(sigs).s == Some(sub)
  {
    if |sigs| > 0 {
      var pre := sigs[..|sigs| - 1];
      var last := sigs[|sigs| - 1];
      HeldSubscription(pre);
      forall sub | IsLiveSubscription(sigs, sub) ensures Run(sigs).s == Some(sub) {
        var i :| 0 <= i < |sigs| && sigs[i] == OnSubscribe(sub) &&
          (forall j :: i < j < |sigs| ==> !sigs[j].OnSubscribe? && !IsTerminal(sigs[j]));
        if i < |pre| {
          assert pre[i] == sigs[i];
          assert forall j :: i < j < |pre| ==> pre[j] == sigs[j];
          assert IsLiveSubscription(pre, sub);
        }
      }
      if Run(sigs).s.Some? && last.OnNext? {
        var sub := Run(sigs).s.value;
        var i :| 0 <= i < |pre| && pre[i] == OnSubscribe(sub) &&
          (forall j :: i < j < |pre| ==> !pre[j].OnSubscribe? && !IsTerminal(pre[j]));
        assert sigs[i] == pre[i];
        assert forall j :: i < j < |pre| ==> pre[j] == sigs[j];
      }
    }
  }

  /** Every call the observer makes upstream is an unbounded request; it makes
      one per onSubscribe when the request flag is set and none otherwise. */
  lemma {:induction false} UnboundedRequests(request: bool, sigs: seq<Signal>)
    ensures forall k :: 0 <= k < |Requests(request, sigs)| ==>
      Requests(request, sigs)[k].RequestCall? && Requests(request, sigs)[k].n == LONG_MAX
    ensures |Requests(request, sigs)| == if request then Handshakes(sigs) else 0
  {
    if |sigs| > 0 {
      UnboundedRequests(request, sigs[..|sigs| - 1]);
    }
  }

  /** The outcome after the wait: an InterruptedException exactly when an
      error was recorded, carrying the last error; a normal return after
      completion and after a timeout alike. */
  lemma AwaitOutcome(sigs: seq<Signal>)
    ensures Outcome(Run(sigs).exception).Returned? <==> !HasError(sigs)
    ensures Outcome(Run(sigs).exception).Interrupted? ==> IsLastError(sigs, Outcome(Run(sigs).exception).cause)
    ensures !HasTerminal(sigs) ==> Outcome(Run(sigs).exception) == Returned
  {
    RecordedError(sigs);
  }

  /** The latch, counted down by the terminal callbacks. */
  class Latch {
    var count: nat

    constructor (n: nat)
      ensures count == n
    {
      count := n;
    }

    method CountDown()
      modifies this
      ensures count == CountedDown(old(count))
    {
      if count > 0 {
        count := count - 1;
      }
    }
  }

  /** The atomic reference holding the recorded error. */
  class ErrorRef {
    var value: Option<Throwable>

    constructor ()
      ensures value == None
    {
      value := None;
    }

    method Set(e: Throwable)
      modifies this
      ensures value == Some(e)
    {
      value := Some(e);
    }
  }

  /** The anonymous terminal-only observer that await subscribes. Its
      subscription's request calls are recorded in `upstream`. */
  class AwaitObserver {
    var s: Option<Subscription>
    const request: bool
    const exception: ErrorRef
    const latch: Latch
    const upstream: CallLog

    function State(): ObserverState
      reads this, exception, latch
    {
      ObserverState(s, exception.value, latch.count)
    }

    constructor (request: bool, exception: ErrorRef, latch: Latch, upstream: CallLog)
      ensures this.request == request && this.exception == exception
      ensures this.latch == latch && this.upstream == upstream
      ensures s == None
    {
      this.request := request;
      this.exception := exception;
      this.latch := latch;
      this.upstream := upstream;
      s := None;
    }

    method OnSubscribe(subscription: Subscription)
      modifies this, upstream
      ensures State() == Step(old(State()), Signal.OnSubscribe(subscription))
      ensures upstream.calls == old(upstream.calls) + Upstream(request, Signal.OnSubscribe(subscription))
    {
      s := Some(subscription);
      if request {
        upstream.Record(RequestCall(subscription, LONG_MAX));
      }
    }

    method OnError(throwable: Throwable)
      modifies this, exception, latch
      ensures State() == Step(old(State()), Signal.OnError(throwable))
    {
      s := None;
      exception.Set(throwable);
      latch.CountDown();
    }

    method OnComplete()
      modifies this, latch
      ensures State() == Step(old(State()), Signal.OnComplete)
    {
      s := None;
      latch.CountDown();
    }

    /** Hands one signal to the matching callback. */
    method Deliver(sig: Signal)
      modifies this, exception, latch, upstream
      ensures State() == Step(old(State()), sig)
      ensures upstream.calls == old(upstream.calls) + Upstream(request, sig)
    {
      match sig
      case OnSubscribe(sub) => OnSubscribe(sub);
      case OnNext(_) =>
      case OnError(e) => OnError(e);
      case OnComplete => OnComplete();
    }
  }

  datatype TimeUnit = Milliseconds | Seconds | OtherUnit(name: string)

  /** The bound the latch waits with: `latch.await(timeout, unit)`. */
  datatype LatchWait = LatchWait(timeout: int, unit: TimeUnit)

  /** Streams.await(publisher, timeout, unit, request): subscribes the
      observer, lets the publisher deliver `delivered`, the signals that reach
      the observer before the recorded error is read, waits on the latch with
      the given bound, then applies the outcome rule. `calls` are the calls
      the bridge makes on the publisher and on the subscriptions it receives. */
  method Await(publisher: Pub, timeout: int, unit: TimeUnit, request: bool, delivered: seq<Signal>)
    returns (outcome: AwaitResult, calls: seq<Call>, wait: LatchWait)
    ensures outcome == Outcome(Run(delivered).exception)
    ensures outcome.Returned? <==> !HasError(delivered)
    ensures calls == [SubscribeCall(publisher, AwaitSubscriber)] + Requests(request, delivered)
    ensures wait == LatchWait(timeout, unit)
  {
    var exception := new ErrorRef();
    var latch := new Latch(1);
    var log := new CallLog();
    var observer := new AwaitObserver(request, exception, latch, log);
    log.Record(SubscribeCall(publisher, AwaitSubscriber));
    for i := 0 to |delivered|
      invariant observer.State() == Run(delivered[..i])
      invariant log.calls == [SubscribeCall(publisher, AwaitSubscriber)] + Requests(request, delivered[..i])
    {
      PrefixStep(delivered, i);
      observer.Deliver(delivered[i]);
    }
    assert delivered[..|delivered|] == delivered;
    // latch.await(timeout, unit) returns on release or on timeout alike
    wait := LatchWait(timeout, unit);
    if exception.value.Some? {
      outcome := Interrupted(exception.value.value);
    } else {
      outcome := Returned;
    }
    calls := log.calls;
    AwaitOutcome(delivered);
  }

  /** Every call an await overload makes after its subscribe is an unbounded
      request, one per onSubscribe. */
  predicate UnboundedAfterSubscribe(calls: seq<Call>, delivered: seq<Signal>) {
    |calls| == 1 + Handshakes(delivered) &&
    forall k :: 1 <= k < |calls| ==> calls[k].RequestCall? && calls[k].n == LONG_MAX
  }

  /** Streams.await(publisher): the full form with thirty thousand
      milliseconds and the request flag set. */
  method AwaitDefault(publisher: Pub, delivered: seq<Signal>) returns (outcome: AwaitResult, calls: seq<Call>, wait: LatchWait)
    ensures outcome == Outcome(Run(delivered).exception)
    ensures outcome.Returned? <==> !HasError(delivered)
    ensures calls == [SubscribeCall(publisher, AwaitSubscriber)] + Requests(true, delivered)
    ensures UnboundedAfterSubscribe(calls, delivered)
    ensures wait == LatchWait(30000, Milliseconds)
  {
    outcome, calls, wait := Await(publisher, 30000, Milliseconds, true, delivered);
    UnboundedRequests(true, delivered);
  }

  /** Streams.await(publisher, timeout): the full form with the timeout in
      seconds and the request flag set. */
  method AwaitSeconds(publisher: Pub, timeout: int, delivered: seq<Signal>) returns (outcome: AwaitResult, calls: seq<Call>, wait: LatchWait)
    ensures outcome == Outcome(Run(delivered).exception)
    ensures outcome.Returned? <==> !HasError(delivered)
    ensures calls == [SubscribeCall(publisher, AwaitSubscriber)] + Requests(true, delivered)
    ensures UnboundedAfterSubscribe(calls, delivered)
    ensures wait == LatchWait(timeout, Seconds)
  {
    outcome, calls, wait := Await(publisher, timeout, Seconds, true, delivered);
    UnboundedRequests(true, delivered);
  }

  /** Streams.await(publisher, timeout, unit): the full form with the request
      flag set. */
  method AwaitIn(publisher: Pub, timeout: int, unit: TimeUnit, delivered: seq<Signal>) returns (outcome: AwaitResult, calls: seq<Call>, wait: LatchWait)
    ensures outcome == Outcome(Run(delivered).exception)
    ensures outcome.Returned? <==> !HasError(delivered)
    ensures calls == [SubscribeCall(publisher, AwaitSubscriber)] + Requests(true, delivered)
    ensures UnboundedAfterSubscribe(calls, delivered)
    ensures wait == LatchWait(timeout, unit)
  {
    outcome, calls, wait := Await(publisher, timeout, unit, true, delivered);
    UnboundedRequests(true, delivered);
  }
}
