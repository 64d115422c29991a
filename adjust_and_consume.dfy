/**
 * AdjustAndConsumeSpansSharingTraceId: for each trace group of a partition, runs the adjusters in
 * their configured order, each on the previous one's output, then hands the result to the consumer.
 * An adjuster that throws is logged and skipped for that group only.
 */
module AdjustAndConsumeSpansSharingTraceId {
  import opened Wrappers
  import opened Runtime
  import opened Spans
  import opened Adjusters

  /** The observable effects of one call, in order. */
  datatype Event =
    | LogInitialized
    /** The warning "unable to adjust spans: <group> with <adjuster>", with the exception. */
    | AdjustFailed(group: seq<Span>, adjuster: nat, error: Exception)
    | Consumed(group: seq<Span>)

  /** One stage of the chain: the adjuster's output, or the unchanged group when it throws. */
  function Stage(a: Adjuster, group: seq<Span>): seq<Span> {
    match Adjust(a, group)
    case Ok(adjusted) => adjusted
    case Err(_) => group
  }

  /** The group after the whole chain: stage i+1 reads what stage i produced. */
  function Chain(adjusters: seq<Adjuster>, group: seq<Span>): seq<Span> {
    if adjusters == [] then group
    else Stage(adjusters[|adjusters| - 1], Chain(adjusters[..|adjusters| - 1], group))
  }

  /** The warnings the chain logs for one group. */
  function ChainWarnings(adjusters: seq<Adjuster>, group: seq<Span>): seq<Event> {
    if adjusters == [] then []
    else
      var k := |adjusters| - 1;
      var before := Chain(adjusters[..k], group);
      ChainWarnings(adjusters[..k], group) +
        match Adjust(adjusters[k], before)
        case Ok(_) => []
        case Err(e) => [AdjustFailed(before, k, e)]
  }

  /** What the loop over the groups produced: its effects, and the exception that ended it, if any. */
  datatype Run = Run(events: seq<Event>, thrown: Option<Exception>)

  /**
   * The loop over `groups` after the log initializer: per group the chain's warnings, then the
   * hand-off to the consumer. `accept(g)` is what `consumer().accept(g)` throws, if anything.
   * That call is outside the try, so its first exception ends the call and later groups are
   * never read.
   */
  function GroupsRun(adjusters: seq<Adjuster>, accept: seq<Span> -> Option<Exception>,
                     groups: seq<seq<Span>>): Run {
    if groups == [] then Run([], None)
    else
      var before := GroupsRun(adjusters, accept, groups[..|groups| - 1]);
      if before.thrown.Some? then before
      else
        var adjusted := Chain(adjusters, groups[|groups| - 1]);
        Run(before.events + ChainWarnings(adjusters, groups[|groups| - 1]) + [Consumed(adjusted)],
            accept(adjusted))
  }

  /** The groups handed to the consumer, in the order it received them. */
  function ConsumedGroups(events: seq<Event>): seq<seq<Span>> {
    if events == [] then []
    else
      var init := ConsumedGroups(events[..|events| - 1]);
      match events[|events| - 1]
      case Consumed(g) => init + [g]
      case _ => init
  }

  /** One more adjuster: its stage reads the chain so far, and only its failure adds a warning. */
  lemma ChainStep(adjusters: seq<Adjuster>, i: nat, group: seq<Span>)
    requires i < |adjusters|
    ensures Chain(adjusters[..i + 1], group) == Stage(adjusters[i], Chain(adjusters[..i], group))
    ensures ChainWarnings(adjusters[..i + 1], group) == ChainWarnings(adjusters[..i], group) +
      match Adjust(adjusters[i], Chain(adjusters[..i], group))
      case Ok(_) => []
      case Err(e) => [AdjustFailed(Chain(adjusters[..i], group), i, e)]
  {
    assert adjusters[..i + 1][..i] == adjusters[..i];
  }

  /** One more group, while nothing was thrown: its warnings, then its hand-off. */
  lemma GroupsStep(adjusters: seq<Adjuster>, accept: seq<Span> -> Option<Exception>, groups: seq<seq<Span>>, n: nat)
    requires n < |groups| && GroupsRun(adjusters, accept, groups[..n]).thrown.None?
    ensures GroupsRun(adjusters, accept, groups[..n + 1]) ==
      Run(GroupsRun(adjusters, accept, groups[..n]).events + ChainWarnings(adjusters, groups[n])
            + [Consumed(Chain(adjusters, groups[n]))],
          accept(Chain(adjusters, groups[n])))
  {
    assert groups[..n + 1][..n] == groups[..n];
  }

  /** Once the consumer has thrown, the remaining groups change nothing. */
  lemma {:induction false} FailureIsFinal(adjusters: seq<Adjuster>, accept: seq<Span> -> Option<Exception>,
                                          groups: seq<seq<Span>>, n: nat)
    requires n <= |groups| && GroupsRun(adjusters, accept, groups[..n]).thrown.Some?
    ensures GroupsRun(adjusters, accept, groups) == GroupsRun(adjusters, accept, groups[..n])
    decreases |groups|
  {
    if n == |groups| {
      assert groups[..n] == groups;
    } else {
      var init := groups[..|groups| - 1];
      assert init[..n] == groups[..n];
      FailureIsFinal(adjusters, accept, init, n);
    }
  }

  /** The inner `for` loop of `call`: the adjusters run over one group, logging each failure. */
  method AdjustGroup(group: seq<Span>, adjusters: seq<Adjuster>) returns (spansSharingTraceId: seq<Span>, warnings: seq<Event>)
    ensures spansSharingTraceId == Chain(adjusters, group)
    ensures warnings == ChainWarnings(adjusters, group)
  {
    spansSharingTraceId := group;
    warnings := [];
    for i := 0 to |adjusters|
      invariant spansSharingTraceId == Chain(adjusters[..i], group)
      invariant warnings == ChainWarnings(adjusters[..i], group)
    {
      ChainStep(adjusters, i, group);
      var adjusted := Adjust(adjusters[i], spansSharingTraceId);
      if adjusted.Ok? {
        spansSharingTraceId := adjusted.value;
      } else {
        warnings := warnings + [AdjustFailed(spansSharingTraceId, i, adjusted.error)];
      }
    }
    assert adjusters[..|adjusters|] == adjusters;
  }

  /** The loop body: adjust group `next`, log its warnings, hand it to the consumer. */
  method ConsumeNext(groups: seq<seq<Span>>, adjusters: seq<Adjuster>, accept: seq<Span> -> Option<Exception>,
                     next: nat, events: seq<Event>)
    returns (events': seq<Event>, failure: Option<Exception>)
    requires next < |groups| && GroupsRun(adjusters, accept, groups[..next]).thrown.None?
    requires events == [LogInitialized] + GroupsRun(adjusters, accept, groups[..next]).events
    ensures events' == [LogInitialized] + GroupsRun(adjusters, accept, groups[..next + 1]).events
    ensures failure == GroupsRun(adjusters, accept, groups[..next + 1]).thrown
  {
    var spansSharingTraceId, warnings := AdjustGroup(groups[next], adjusters);
    events' := events + warnings + [Consumed(spansSharingTraceId)];
    GroupsStep(adjusters, accept, groups, next);
    failure := accept(spansSharingTraceId);
  }

  /**
   * `call(spansSharingTraceIds)`; the partition iterator is given as the sequence it yields, and
   * `thrown` is the consumer's exception that escapes the call, if any.
   */
  method Call(groups: seq<seq<Span>>, adjusters: seq<Adjuster>, accept: seq<Span> -> Option<Exception>)
    returns (events: seq<Event>, thrown: Option<Exception>)
    ensures events == [LogInitialized] + GroupsRun(adjusters, accept, groups).events
    ensures thrown == GroupsRun(adjusters, accept, groups).thrown
  {
    events := [LogInitialized];
    var next := 0;
    while next < |groups|
      invariant 0 <= next <= |groups|
      invariant events == [LogInitialized] + GroupsRun(adjusters, accept, groups[..next]).events
      invariant GroupsRun(adjusters, accept, groups[..next]).thrown.None?
    {
      var failure;
      events, failure := ConsumeNext(groups, adjusters, accept, next, events);
      next := next + 1;
      if failure.Some? {
        FailureIsFinal(adjusters, accept, groups, next);
        return events, failure;
      }
    }
    assert groups[..next] == groups;
    thrown := None;
  }

  lemma {:induction false} ConsumedGroupsAppend(xs: seq<Event>, ys: seq<Event>)
    ensures ConsumedGroups(xs + ys) == ConsumedGroups(xs) + ConsumedGroups(ys)
    decreases |ys|
  {
    if ys == [] {
      assert xs + ys == xs;
    } else {
      assert (xs + ys)[..|xs + ys| - 1] == xs + ys[..|ys| - 1];
      ConsumedGroupsAppend(xs, ys[..|ys| - 1]);
    }
  }

  lemma {:induction false} WarningsConsumeNothing(adjusters: seq<Adjuster>, group: seq<Span>)
    ensures ConsumedGroups(ChainWarnings(adjusters, group)) == []
  {
    if adjusters != [] {
      var k := |adjusters| - 1;
      WarningsConsumeNothing(adjusters[..k], group);
      var tail := match Adjust(adjusters[k], Chain(adjusters[..k], group))
        case Ok(_) => [] case Err(e) => [AdjustFailed(Chain(adjusters[..k], group), k, e)];
      ConsumedGroupsAppend(ChainWarnings(adjusters[..k], group), tail);
      if tail != [] {
        assert tail[..0] == [];
      }
    }
  }

  /**
   * The groups handed to the consumer are the chain's outputs for a prefix of the groups, in
   * order, each once. Every hand-off but the last returned normally. Nothing was thrown exactly
   * when every group was handed over and accepted; otherwise the exception is the one the last
   * hand-off threw.
   */
  lemma {:induction false} ConsumedUntilFirstFailure(adjusters: seq<Adjuster>, accept: seq<Span> -> Option<Exception>,
                                                     groups: seq<seq<Span>>)
    ensures var run := GroupsRun(adjusters, accept, groups);
      var consumed := ConsumedGroups(run.events);
      |consumed| <= |groups| &&
      (forall i :: 0 <= i < |consumed| ==> consumed[i] == Chain(adjusters, groups[i])) &&
      (forall i :: 0 <= i < |consumed| - 1 ==> accept(consumed[i]).None?) &&
      (run.thrown.None? ==>
         |consumed| == |groups| && forall i :: 0 <= i < |groups| ==> accept(Chain(adjusters, groups[i])).None?) &&
      (run.thrown.Some? ==> |consumed| > 0 && run.thrown == accept(consumed[|consumed| - 1]))
  {
    if groups != [] {
      var n := |groups| - 1;
      ConsumedUntilFirstFailure(adjusters, accept, groups[..n]);
      if GroupsRun(adjusters, accept, groups[..n]).thrown.None? {
        ConsumedStep(adjusters, accept, groups);
      }
    }
  }

  /** The last group, reached with nothing thrown yet, adds exactly its chain's output to what was consumed. */
  lemma ConsumedStep(adjusters: seq<Adjuster>, accept: seq<Span> -> Option<Exception>, groups: seq<seq<Span>>)
    requires groups != [] && GroupsRun(adjusters, accept, groups[..|groups| - 1]).thrown.None?
    ensures ConsumedGroups(GroupsRun(adjusters, accept, groups).events) ==
      ConsumedGroups(GroupsRun(adjusters, accept, groups[..|groups| - 1]).events) + [Chain(adjusters, groups[|groups| - 1])]
  {
    var before := GroupsRun(adjusters, accept, groups[..|groups| - 1]);
    var last := groups[|groups| - 1];
    var adjusted := Chain(adjusters, last);
    WarningsConsumeNothing(adjusters, last);
    ConsumedGroupsAppend(before.events, ChainWarnings(adjusters, last));
    ConsumedGroupsAppend(before.events + ChainWarnings(adjusters, last), [Consumed(adjusted)]);
    assert [Consumed(adjusted)][..0] == [];
  }

  /**
   * With a consumer that never throws, such as StorageConsumer, every group reaches it exactly
   * once and in iterator order, as the chain's output for that group alone.
   */
  lemma EachGroupConsumedOnce(adjusters: seq<Adjuster>, accept: seq<Span> -> Option<Exception>, groups: seq<seq<Span>>)
    requires forall g :: accept(g).None?
    ensures GroupsRun(adjusters, accept, groups).thrown.None?
    ensures ConsumedGroups(GroupsRun(adjusters, accept, groups).events) ==
      seq(|groups|, i requires 0 <= i < |groups| => Chain(adjusters, groups[i]))
  {
    ConsumedUntilFirstFailure(adjusters, accept, groups);
  }

  /**
   * A consumer that first throws on group `k` ends the call: groups 0..k were handed over, the
   * rest never are, and its exception is what the call throws.
   */
  lemma StopsAtFirstFailure(adjusters: seq<Adjuster>, accept: seq<Span> -> Option<Exception>,
                            groups: seq<seq<Span>>, k: nat)
    requires k < |groups| && accept(Chain(adjusters, groups[k])).Some?
    requires forall i :: 0 <= i < k ==> accept(Chain(adjusters, groups[i])).None?
    ensures GroupsRun(adjusters, accept, groups).thrown == accept(Chain(adjusters, groups[k]))
    ensures ConsumedGroups(GroupsRun(adjusters, accept, groups).events) ==
      seq(k + 1, i requires 0 <= i <= k => Chain(adjusters, groups[i]))
  {
    ConsumedUntilFirstFailure(adjusters, accept, groups);
    var run := GroupsRun(adjusters, accept, groups);
    var consumed := ConsumedGroups(run.events);
    assert run.thrown.Some?;
  }

  /** What one call hands to a consumer that never throws; the log initializer comes first. */
  lemma CallConsumes(adjusters: seq<Adjuster>, accept: seq<Span> -> Option<Exception>, groups: seq<seq<Span>>,
                     events: seq<Event>, thrown: Option<Exception>)
    requires forall g :: accept(g).None?
    requires events == [LogInitialized] + GroupsRun(adjusters, accept, groups).events
    requires thrown == GroupsRun(adjusters, accept, groups).thrown
    ensures events[0] == LogInitialized && thrown.None?
    ensures ConsumedGroups(events) ==
      seq(|groups|, i requires 0 <= i < |groups| => Chain(adjusters, groups[i]))
  {
    ConsumedGroupsAppend([LogInitialized], GroupsRun(adjusters, accept, groups).events);
    assert [LogInitialized][..0] == [];
    EachGroupConsumedOnce(adjusters, accept, groups);
  }

  /** Running `xs ++ ys` is running `xs`, then `ys` on the result: [A, B] is B after A. */
  lemma {:induction false} ChainAppend(xs: seq<Adjuster>, ys: seq<Adjuster>, group: seq<Span>)
    ensures Chain(xs + ys, group) == Chain(ys, Chain(xs, group))
    decreases |ys|
  {
    if ys == [] {
      assert xs + ys == xs;
    } else {
      assert (xs + ys)[..|xs + ys| - 1] == xs + ys[..|ys| - 1];
      ChainAppend(xs, ys[..|ys| - 1], group);
    }
  }

  /**
   * With no adjusters and a consumer that never throws, a call logs no warning, hands every group
   * to the consumer unchanged and in order, and throws nothing.
   */
  lemma {:induction false} NoAdjusters(accept: seq<Span> -> Option<Exception>, groups: seq<seq<Span>>)
    requires forall g :: accept(g).None?
    ensures GroupsRun([], accept, groups) ==
      Run(seq(|groups|, i requires 0 <= i < |groups| => Consumed(groups[i])), None)
    ensures ConsumedGroups(GroupsRun([], accept, groups).events) == groups
  {
    if groups != [] {
      var n := |groups| - 1;
      NoAdjusters(accept, groups[..n]);
      assert GroupsRun([], accept, groups[..n]).events + [Consumed(groups[n])] ==
        seq(|groups|, i requires 0 <= i < |groups| => Consumed(groups[i]));
    }
    EachGroupConsumedOnce([], accept, groups);
    assert seq(|groups|, i requires 0 <= i < |groups| => Chain([], groups[i])) == groups;
  }

  /** A chain of plain adjusters leaves every group unchanged. */
  lemma {:induction false} PlainChainIsIdentity(adjusters: seq<Adjuster>, group: seq<Span>)
    requires forall i :: 0 <= i < |adjusters| ==> adjusters[i] == Plain
    ensures Chain(adjusters, group) == group
  {
    if adjusters != [] {
      PlainChainIsIdentity(adjusters[..|adjusters| - 1], group);
      PlainIsIdentity(group);
    }
  }

  /** An adjuster that throws on a group is as if it had not been configured, for that group. */
  lemma FailingAdjusterSkipped(adjusters: seq<Adjuster>, k: nat, group: seq<Span>)
    requires k < |adjusters|
    requires Adjust(adjusters[k], Chain(adjusters[..k], group)).Err?
    ensures Chain(adjusters, group) == Chain(adjusters[..k] + adjusters[k + 1..], group)
  {
    var before, failing, after := adjusters[..k], [adjusters[k]], adjusters[k + 1..];
    assert adjusters == before + failing + after;
    ChainAppend(before + failing, after, group);
    ChainAppend(before, failing, group);
    assert failing[..0] == [];
    ChainAppend(before, after, group);
  }
}
