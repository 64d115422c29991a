/**
 * Adjuster: a rule applied to the spans of one trace group. The base behaviour maps every span
 * through `shouldAdjust`/`adjust`; by default neither does anything. The returned view is read
 * through an AdjustingIterator that cannot remove elements.
 */
module Adjusters {
  import opened Wrappers
  import opened Runtime
  import opened Spans
  import FinagleAdjuster
  import FinagleIssue343Adjuster

  /** The adjusters the pipeline can be configured with. */
  datatype Adjuster =
    /** `new Adjuster() {}`: the defaults only. */
    | Plain
    /** A subclass overriding the two per-span hooks. */
    | Conditional(shouldAdjust: Span -> bool, adjust: Span -> Span)
    /** FinagleAdjuster; the function is the zipkin library's ApplyTimestampAndDuration.apply. */
    | Finagle(config: FinagleAdjuster.Config, applyTimestampAndDuration: Span -> Span)
    | FinagleIssue343
    /** A subclass overriding `adjust(Iterable)` itself (such as a merge by span ID); it may throw. */
    | WholeTrace(adjustTrace: seq<Span> -> Result<seq<Span>, Exception>)

  /** `shouldAdjust(span)`; false unless overridden. */
  predicate ShouldAdjust(a: Adjuster, span: Span) {
    match a
    case Plain => false
    case Conditional(should, _) => should(span)
    case Finagle(_, _) => FinagleAdjuster.ShouldAdjust(span)
    case FinagleIssue343 => FinagleIssue343Adjuster.ShouldAdjust(span)
    case WholeTrace(_) => false
  }

  /** `adjust(span)`; the identity unless overridden. */
  function AdjustSpan(a: Adjuster, span: Span): Span {
    match a
    case Plain => span
    case Conditional(_, adjust) => adjust(span)
    case Finagle(config, apply) => FinagleAdjuster.Adjust(config, apply, span)
    case FinagleIssue343 => FinagleIssue343Adjuster.AdjustSpan(span)
    case WholeTrace(_) => span
  }

  /**
   * What AdjustingIterator.next() yields for one underlying span. The ensures are this
   * definition's two cases; their consequences are UnselectedUnchanged and PlainIsIdentity.
   */
  function AdjustOne(a: Adjuster, span: Span): (r: Span)
    ensures !ShouldAdjust(a, span) ==> r == span
    ensures ShouldAdjust(a, span) ==> r == AdjustSpan(a, span)
  {
    if ShouldAdjust(a, span) then AdjustSpan(a, span) else span
  }

  /** The trace as the base `adjust(Iterable)` presents it: same length, same order, span by span. */
  function MapAdjust(a: Adjuster, trace: seq<Span>): (r: seq<Span>)
    ensures |r| == |trace|
    ensures forall i :: 0 <= i < |trace| ==> r[i] == AdjustOne(a, trace[i])
  {
    seq(|trace|, i requires 0 <= i < |trace| => AdjustOne(a, trace[i]))
  }

  /** `adjuster.adjust(trace)` for a non-null trace, evaluated eagerly. */
  function Adjust(a: Adjuster, trace: seq<Span>): Result<seq<Span>, Exception> {
    match a
    case WholeTrace(adjustTrace) => adjustTrace(trace)
    case _ => Ok(MapAdjust(a, trace))
  }

  /** The base `adjust(Iterable)` with its null check; `None` is a null trace. */
  function AdjustNullable(a: Adjuster, trace: Option<seq<Span>>): (r: Result<seq<Span>, Exception>)
    requires !a.WholeTrace?
    ensures trace.None? ==> r == Err(Throw(NullPointerException, "trace was null"))
    ensures trace.Some? ==> r == Ok(MapAdjust(a, trace.value))
    ensures trace.Some? ==>
      r.Ok? && |r.value| == |trace.value| &&
      forall i :: 0 <= i < |trace.value| ==> r.value[i] == AdjustOne(a, trace.value[i])
  {
    match trace
    case None => Err(Throw(NullPointerException, "trace was null"))
    case Some(t) => Adjust(a, t)
  }

  /** An adjuster that leaves every span of a trace alone leaves the trace alone. */
  lemma MapAdjustUnchanged(a: Adjuster, trace: seq<Span>)
    requires forall i :: 0 <= i < |trace| ==> AdjustOne(a, trace[i]) == trace[i]
    ensures MapAdjust(a, trace) == trace
  {
    assert forall i :: 0 <= i < |trace| ==> MapAdjust(a, trace)[i] == trace[i];
  }

  /** A plain Adjuster passes every trace through unchanged. */
  lemma PlainIsIdentity(trace: seq<Span>)
    ensures Adjust(Plain, trace) == Ok(trace)
  {
    MapAdjustUnchanged(Plain, trace);
  }

  /** Spans a rule does not select come out exactly as they went in. */
  lemma UnselectedUnchanged(a: Adjuster, trace: seq<Span>, i: nat)
    requires !a.WholeTrace? && i < |trace| && !ShouldAdjust(a, trace[i])
    ensures Adjust(a, trace).Ok? && Adjust(a, trace).value[i] == trace[i]
  {
  }

  /** With backfill switched off, FinagleAdjuster changes no trace. */
  lemma FinagleDisabledIsIdentity(apply: Span -> Span, trace: seq<Span>)
    ensures Adjust(Finagle(FinagleAdjuster.Config(false), apply), trace) == Ok(trace)
  {
    MapAdjustUnchanged(Finagle(FinagleAdjuster.Config(false), apply), trace);
  }

  /** With the default configuration, every Finagle span is backfilled and every other span kept. */
  lemma FinagleDefaultBackfills(apply: Span -> Span, trace: seq<Span>, i: nat)
    requires i < |trace|
    ensures var r := Adjust(Finagle(FinagleAdjuster.NewBuilder(), apply), trace);
      r.Ok? && |r.value| == |trace| &&
      r.value[i] == (if FinagleAdjuster.ShouldAdjust(trace[i]) then apply(trace[i]) else trace[i])
  {
  }

  /** Adjusting a trace twice for Finagle issue 343 gives the same trace as adjusting it once. */
  lemma {:induction false} FinagleIssue343Idempotent(trace: seq<Span>)
    ensures Adjust(FinagleIssue343, trace).Ok?
    ensures Adjust(FinagleIssue343, Adjust(FinagleIssue343, trace).value) == Adjust(FinagleIssue343, trace)
  {
    var once := MapAdjust(FinagleIssue343, trace);
    forall i | 0 <= i < |trace| ensures AdjustOne(FinagleIssue343, once[i]) == once[i] {
      var s := trace[i];
      if FinagleIssue343Adjuster.ShouldAdjust(s) {
        FinagleIssue343Adjuster.AdjustSpanIdempotent(s);
      }
    }
    MapAdjustUnchanged(FinagleIssue343, once);
  }

  /** `AdjustingIterator`: a cursor over the underlying trace that adjusts as it goes. */
  class AdjustingIterator {
    const adjuster: Adjuster
    const delegate: seq<Span>
    var position: nat

    ghost predicate Valid()
      reads this
    {
      position <= |delegate|
    }

    /** The spans handed out so far. */
    ghost function Emitted(): seq<Span>
      reads this
      requires Valid()
    {
      MapAdjust(adjuster, delegate[..position])
    }

    constructor (adjuster: Adjuster, delegate: seq<Span>)
      ensures Valid() && this.adjuster == adjuster && this.delegate == delegate
      ensures position == 0
    {
      this.adjuster := adjuster;
      this.delegate := delegate;
      position := 0;
    }

    /** `hasNext()` mirrors the underlying iterator. */
    method HasNext() returns (b: bool)
      requires Valid()
      ensures b <==> position < |delegate|
    {
      b := position < |delegate|;
    }

    /** `next()`: the next span, adjusted if selected; NoSuchElementException past the end. */
    method Next() returns (r: Result<Span, Exception>)
      requires Valid()
      modifies this
      ensures Valid()
      ensures old(position) < |delegate| ==>
        r == Ok(AdjustOne(adjuster, delegate[old(position)])) && position == old(position) + 1
      ensures old(position) == |delegate| ==>
        r == Err(Exception(NoSuchElementException, None, None)) && position == old(position)
      ensures Emitted() == if r.Ok? then old(Emitted()) + [r.value] else old(Emitted())
    {
      var more := HasNext();
      if !more {
        return Err(Exception(NoSuchElementException, None, None));
      }
      var next := delegate[position];
      assert delegate[..position + 1] == delegate[..position] + [next];
      position := position + 1;
      if !ShouldAdjust(adjuster, next) {
        return Ok(next);
      }
      return Ok(AdjustSpan(adjuster, next));
    }

    /** `remove()` is not supported, whatever the position. */
    method Remove() returns (e: Exception)
      requires Valid()
      ensures e == Exception(UnsupportedOperationException, None, None)
    {
      e := Exception(UnsupportedOperationException, None, None);
    }
  }

  /** The Iterable that the base `adjust(Iterable)` returns: every `iterator()` starts a new pass. */
  class AdjustedTrace {
    const adjuster: Adjuster
    const trace: seq<Span>

    constructor (adjuster: Adjuster, trace: seq<Span>)
      ensures this.adjuster == adjuster && this.trace == trace
    {
      this.adjuster := adjuster;
      this.trace := trace;
    }

    method Iterator() returns (it: AdjustingIterator)
      ensures fresh(it) && it.Valid()
      ensures it.adjuster == adjuster && it.delegate == trace && it.position == 0
    {
      it := new AdjustingIterator(adjuster, trace);
    }
  }

  /** A for-each over the adjusted view: one complete pass yields the mapped trace. */
  method ReadAll(view: AdjustedTrace) returns (list: seq<Span>)
    ensures list == MapAdjust(view.adjuster, view.trace)
  {
    var it := view.Iterator();
    list := [];
    var more := it.HasNext();
    while more
      invariant it.Valid() && it.adjuster == view.adjuster && it.delegate == view.trace
      invariant list == it.Emitted()
      invariant more <==> it.position < |it.delegate|
      decreases |it.delegate| - it.position
    {
      var next := it.Next();
      list := list + [next.value];
      more := it.HasNext();
    }
    assert it.delegate[..it.position] == view.trace;
  }
}
