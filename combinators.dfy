/** The combinator entry points of the stream factory: how concat and merge
    dispatch on the number of sources, how zip, combineLatest and join build
    their engines, switchOnNext, and the dynamic variants that subscribe a
    publisher of publishers to a bridge at call time. */
module Combinators {
  import opened Reactive
  import opened Adapter

  /** The sources as the values a publisher of publishers emits. */
  function AsValues(ps: seq<Pub>): (vs: seq<Value>)
    ensures |vs| == |ps|
    ensures forall i :: 0 <= i < |ps| ==> vs[i] == PublisherValue(ps[i])
  {
    if |ps| == 0 then [] else AsValues(ps[..|ps| - 1]) + [PublisherValue(ps[|ps| - 1])]
  }

  /** The sources a publisher of publishers emits, when all its values are publishers. */
  function AsPublishers(vs: seq<Value>): Option<seq<Pub>> {
    if |vs| == 0 then Some([])
    else match (AsPublishers(vs[..|vs| - 1]), vs[|vs| - 1])
      case (Some(ps), PublisherValue(p)) => Some(ps + [p])
      case _ => None
  }

  lemma {:induction false} AsPublishersAsValues(ps: seq<Pub>)
    ensures AsPublishers(AsValues(ps)) == Some(ps)
  {
    if |ps| > 0 {
      var vs := AsValues(ps);
      assert vs[..|vs| - 1] == AsValues(ps[..|ps| - 1]);
      AsPublishersAsValues(ps[..|ps| - 1]);
      assert ps[..|ps| - 1] + [ps[|ps| - 1]] == ps;
    }
  }

  /** Streams.from(Iterable): a stream emitting the given values in order. */
  function From(vs: seq<Value>): (r: Pub)
    ensures IsStream(r) && Emits(r) == Some(vs)
  {
    Wrap(FromSeq(vs))
  }

  /** The sources a stream built by concat or merge combines, in order: the
      concat or merge node under wrap's proxy, over a publisher of publishers
      that emits exactly those sources. */
  function CombinedSources(r: Pub): Option<seq<Pub>> {
    if r.Proxy? && (r.target.ConcatOf? || r.target.MergeOf?) then
      match Emits(r.target.outer)
      case Some(vs) => AsPublishers(vs)
      case None => None
    else None
  }

  /** An Iterable argument: the elements a traversal yields, and whether it
      is one-shot, like `() -> iterator`, whose later traversals find the
      shared iterator exhausted. */
  datatype Iterable = Iterable(elements: seq<Pub>, oneShot: bool)

  /** The elements the traversal numbered `n` (from zero) yields. */
  function Traversal(it: Iterable, n: nat): seq<Pub> {
    if n > 0 && it.oneShot then [] else it.elements
  }

  /** The for-loop of concat and merge: the sources copied into a list, in
      the order the first traversal yields them. */
  method CopySources(it: Iterable) returns (publishers: seq<Pub>)
    ensures publishers == Traversal(it, 0)
  {
    var traversal := Traversal(it, 0);
    publishers := [];
    for i := 0 to |traversal|
      invariant publishers == traversal[..i]
    {
      publishers := publishers + [traversal[i]];
    }
  }

  /** Streams.concat(Iterable) as written: the concat engine is built over a
      second traversal of the argument rather than over the copied list, so
      a one-shot argument with two or more sources is concatenated as if it
      had none. */
  method ConcatAsWritten(sources: Iterable) returns (r: Pub)
    ensures IsStream(r)
    ensures |sources.elements| == 0 ==> r == EmptyStream()
    ensures |sources.elements| == 1 ==> r == Wrap(sources.elements[0])
    ensures |sources.elements| >= 2 ==> r.Proxy? && r.target.ConcatOf?
    ensures |sources.elements| >= 2 ==> CombinedSources(r) == Some(if sources.oneShot then [] else sources.elements)
  {
    var publishers := CopySources(sources);
    var size := |publishers|;
    if size == 1 {
      r := Wrap(publishers[0]);
    } else if size == 0 {
      r := EmptyStream();
    } else {
      r := Wrap(ConcatOf(From(AsValues(Traversal(sources, 1)))));
      AsPublishersAsValues(Traversal(sources, 1));
    }
  }

  /** A one-shot argument of two sources: concat as written combines no source at all. */
  method OneShotConcatDropsSources(a: Pub, b: Pub) returns (r: Pub)
    ensures r.Proxy? && r.target.ConcatOf? && CombinedSources(r) == Some([])
  {
    r := ConcatAsWritten(Iterable([a, b], true));
  }

  /** Streams.concat(Iterable), corrected to build the engine over the copied
      list as merge does: no source gives the shared empty stream, one source
      gives that source through wrap, more give one concat node over every
      source in the order given. */
  method Concat(sources: Iterable) returns (r: Pub)
    ensures IsStream(r)
    ensures |sources.elements| == 0 ==> r == EmptyStream()
    ensures |sources.elements| == 1 ==> r == Wrap(sources.elements[0])
    ensures |sources.elements| >= 2 ==> r.Proxy? && r.target.ConcatOf? && CombinedSources(r) == Some(sources.elements)
  {
    var publishers := CopySources(sources);
    var size := |publishers|;
    if size == 1 {
      r := Wrap(publishers[0]);
    } else if size == 0 {
      r := EmptyStream();
    } else {
      r := Wrap(ConcatOf(From(AsValues(publishers))));
      AsPublishersAsValues(publishers);
    }
  }

  /** Streams.merge(Iterable): the same three-way split as concat, with one
      merge node over every source in the order given. */
  method Merge(sources: Iterable) returns (r: Pub)
    ensures IsStream(r)
    ensures |sources.elements| == 0 ==> r == EmptyStream()
    ensures |sources.elements| == 1 ==> r == Wrap(sources.elements[0])
    ensures |sources.elements| >= 2 ==> r.Proxy? && r.target.MergeOf? && CombinedSources(r) == Some(sources.elements)
  {
    var publishers := CopySources(sources);
    if |publishers| == 0 {
      r := EmptyStream();
    } else if |publishers| == 1 {
      r := Wrap(publishers[0]);
    } else {
      r := Wrap(MergeOf(FromSeq(AsValues(publishers))));
      AsPublishersAsValues(publishers);
    }
  }

  /** The engine an entry point handed back, with the sources it was built
      with and its combinator. */
  function EngineSources(r: Pub): Option<(Sources, Combinator)> {
    match r
    case ZipOf(srcs, f) => Some((srcs, f))
    case CombineLatestOf(srcs, f) => Some((srcs, f))
    case _ => None
  }

  /** Streams.zip(List, combinator): the zip engine over exactly these sources,
      with no short-cut for zero or one source. */
  function Zip(sources: seq<Pub>, f: Combinator): (r: Pub)
    ensures IsStream(r) && Wrap(r) == r
    ensures r.ZipOf? && EngineSources(r) == Some((Listed(sources), f))
    ensures r != EmptyStream() && CombinedSources(r).None?
  {
    ZipOf(Listed(sources), f)
  }

  /** Streams.combineLatest(List, combinator): the combine-latest engine over
      exactly these sources, with no short-cut for zero or one source. */
  function CombineLatest(sources: seq<Pub>, f: Combinator): (r: Pub)
    ensures IsStream(r) && Wrap(r) == r
    ensures r.CombineLatestOf? && EngineSources(r) == Some((Listed(sources), f))
    ensures r != EmptyStream() && CombinedSources(r).None?
  {
    CombineLatestOf(Listed(sources), f)
  }

  /** Streams.join(List): zip with the join zipper. */
  function Join(sources: seq<Pub>): (r: Pub)
    ensures r == Zip(sources, JoinZipper)
  {
    Zip(sources, JoinZipper)
  }

  /** A single source given to zip is not passed through: the result is an
      engine, which is neither that source nor its wrapping. */
  lemma {:induction false} ZipOfOneIsEngine(p: Pub, f: Combinator)
    ensures Zip([p], f) != Wrap(p) && CombineLatest([p], f) != Wrap(p)
  {
    assert p in [p];
    if IsStream(p) {
      assert p < Listed([p]);
    }
  }

  /** Streams.switchOnNext(Publisher): the switch operator lifted over the
      publisher of publishers. */
  function SwitchOnNext(outer: Pub): (r: Pub)
    ensures IsStream(r) && Wrap(r) == r
    ensures r.Lifted? && r.upstream == outer && r.op == SwitchOperator
  {
    Lifted(outer, SwitchOperator)
  }

  /** Streams.zip(Publisher, combinator): builds the zip engine with null
      sources inside a dynamic bridge, subscribes the publisher of publishers
      to that bridge once, and returns the same bridge. */
  method ZipDynamic(log: CallLog, outer: Pub, f: Combinator) returns (r: Pub)
    modifies log
    ensures r == DynamicBridge(ZipOf(NullSources, f)) && IsStream(r)
    ensures log.calls == old(log.calls) + [SubscribeCall(outer, BridgeSubscriber(r))]
  {
    r := DynamicBridge(ZipOf(NullSources, f));
    log.Record(SubscribeCall(outer, BridgeSubscriber(r)));
  }

  /** Streams.combineLatest(Publisher, combinator): as ZipDynamic, with the
      combine-latest engine. */
  method CombineLatestDynamic(log: CallLog, outer: Pub, f: Combinator) returns (r: Pub)
    modifies log
    ensures r == DynamicBridge(CombineLatestOf(NullSources, f)) && IsStream(r)
    ensures log.calls == old(log.calls) + [SubscribeCall(outer, BridgeSubscriber(r))]
  {
    r := DynamicBridge(CombineLatestOf(NullSources, f));
    log.Record(SubscribeCall(outer, BridgeSubscriber(r)));
  }

  /** Streams.join(Publisher): the dynamic zip with the join zipper. */
  method JoinDynamic(log: CallLog, outer: Pub) returns (r: Pub)
    modifies log
    ensures r == DynamicBridge(ZipOf(NullSources, JoinZipper))
    ensures log.calls == old(log.calls) + [SubscribeCall(outer, BridgeSubscriber(r))]
  {
    r := ZipDynamic(log, outer, JoinZipper);
  }

  /** Streams.merge(source1, source2): the list form over the two sources in
      argument order. */
  method Merge2(source1: Pub, source2: Pub) returns (r: Pub)
    ensures r.Proxy? && r.target.MergeOf? && CombinedSources(r) == Some([source1, source2])
  {
    r := Merge(Iterable([source1, source2], false));
  }
}
