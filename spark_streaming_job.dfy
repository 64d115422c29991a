/**
 * SparkStreamingJob: the job's configuration (a builder with defaults), the grouping of decoded
 * spans by trace ID that feeds the adjuster chain, and the job object's start-once lifecycle.
 */
module SparkStreamingJob {
  import opened Wrappers
  import opened Runtime
  import opened Spans
  import opened LowerHex
  import opened Adjusters

  /** The pluggable consumer; only whether it implements Closeable matters here. */
  datatype Consumer = Consumer(name: string, closeable: bool)

  /** The source of serialized span messages, opaque to this model. */
  datatype StreamFactory = StreamFactory(name: string)

  /** `SparkStreamingJob.Builder`: properties with defaults are plain fields, the others optional. */
  datatype Builder = Builder(
    master: string,
    jars: seq<string>,
    conf: map<string, string>,
    batchDuration: Long,
    adjusters: seq<Adjuster>,
    zipkinLogLevel: string,
    streamFactory: Option<StreamFactory>,
    consumer: Option<Consumer>)

  /** `newBuilder()`: a local master, no jars, the UI switched off, no adjusters, 10s batches. */
  function NewBuilder(): Builder {
    Builder(
      master := "local[*]",
      jars := [],
      conf := map["spark.ui.enabled" := "false"],
      batchDuration := 10000,
      adjusters := [],
      zipkinLogLevel := "INFO",
      streamFactory := None,
      consumer := None)
  }

  /** The properties of a built job. */
  datatype JobConfig = JobConfig(
    master: string,
    jars: seq<string>,
    conf: map<string, string>,
    batchDuration: Long,
    streamFactory: StreamFactory,
    adjusters: seq<Adjuster>,
    consumer: Consumer,
    zipkinLogLevel: string)

  /** `build()`: the generated builder refuses to build without a stream factory and a consumer. */
  function Build(b: Builder): (r: Result<JobConfig, Exception>)
    ensures r.Ok? <==> b.streamFactory.Some? && b.consumer.Some?
    ensures r.Ok? ==> (r.value.master == b.master && r.value.jars == b.jars && r.value.conf == b.conf
      && r.value.batchDuration == b.batchDuration && r.value.adjusters == b.adjusters
      && r.value.zipkinLogLevel == b.zipkinLogLevel)
    ensures r.Err? ==> r.error.cls == IllegalStateException
  {
    if b.streamFactory.Some? && b.consumer.Some? then
      Ok(JobConfig(b.master, b.jars, b.conf, b.batchDuration, b.streamFactory.value,
                   b.adjusters, b.consumer.value, b.zipkinLogLevel))
    else
      var missing := (if b.streamFactory.None? then " streamFactory" else "")
                   + (if b.consumer.None? then " consumer" else "");
      Err(Throw(IllegalStateException, "Missing required properties:" + missing))
  }

  // Grouping by trace ID (`streamSpansToStorage`)

  /** The grouping key of a span: `toLowerHex(traceIdHigh, traceId)`. */
  function TraceKey(s: Span): string {
    ToLowerHex(s.traceIdHigh, s.traceId)
  }

  /** The spans of `spans` whose key is `key`, in their order. */
  function SpansWithKey(spans: seq<Span>, key: string): seq<Span> {
    if spans == [] then []
    else
      var init := SpansWithKey(spans[..|spans| - 1], key);
      var last := spans[|spans| - 1];
      if TraceKey(last) == key then init + [last] else init
  }

  /** `mapToPair(span -> (key, span)).groupByKey()` over one batch. */
  function GroupByTraceId(spans: seq<Span>): map<string, seq<Span>> {
    if spans == [] then map[]
    else
      var groups := GroupByTraceId(spans[..|spans| - 1]);
      var last := spans[|spans| - 1];
      var key := TraceKey(last);
      groups[key := (if key in groups then groups[key] else []) + [last]]
  }

  lemma {:induction false} SpansWithKeyMembers(spans: seq<Span>, key: string)
    ensures forall s :: s in SpansWithKey(spans, key) <==> s in spans && TraceKey(s) == key
  {
    if spans != [] {
      SpansWithKeyMembers(spans[..|spans| - 1], key);
      assert spans == spans[..|spans| - 1] + [spans[|spans| - 1]];
    }
  }

  lemma {:induction false} NoSpanWithKey(spans: seq<Span>, key: string)
    requires forall s :: s in spans ==> TraceKey(s) != key
    ensures SpansWithKey(spans, key) == []
  {
    if spans != [] {
      assert spans[|spans| - 1] in spans;
      NoSpanWithKey(spans[..|spans| - 1], key);
    }
  }

  /**
   * The groups are exactly the keys that occur, and each group holds exactly the spans with its
   * key, in batch order.
   */
  lemma {:induction false} GroupsAreKeyFilters(spans: seq<Span>)
    ensures forall k :: k in GroupByTraceId(spans) <==> exists s :: s in spans && TraceKey(s) == k
    ensures forall k :: k in GroupByTraceId(spans) ==> GroupByTraceId(spans)[k] == SpansWithKey(spans, k)
  {
    if spans != [] {
      var init, last := spans[..|spans| - 1], spans[|spans| - 1];
      GroupsAreKeyFilters(init);
      assert spans == init + [last];
      forall k ensures k in GroupByTraceId(spans) <==> exists s :: s in spans && TraceKey(s) == k {
        if k in GroupByTraceId(init) {
          var s :| s in init && TraceKey(s) == k;
          assert s in spans;
        }
      }
      forall k | k in GroupByTraceId(spans)
        ensures GroupByTraceId(spans)[k] == SpansWithKey(spans, k)
      {
        if k != TraceKey(last) || k in GroupByTraceId(init) {
        } else {
          NoSpanWithKey(init, k);
        }
      }
    }
  }

  /** Every span lands in the group of its own trace, and a group holds nothing else. */
  lemma EachSpanInExactlyItsGroup(spans: seq<Span>, s: Span)
    ensures s in spans ==> TraceKey(s) in GroupByTraceId(spans) && s in GroupByTraceId(spans)[TraceKey(s)]
    ensures forall k :: k in GroupByTraceId(spans) && s in GroupByTraceId(spans)[k] ==> k == TraceKey(s)
  {
    GroupsAreKeyFilters(spans);
    SpansWithKeyMembers(spans, TraceKey(s));
    forall k | k in GroupByTraceId(spans) && s in GroupByTraceId(spans)[k]
      ensures k == TraceKey(s)
    {
      SpansWithKeyMembers(spans, k);
    }
  }

  /** Two spans of a batch share a group iff both halves of their trace IDs are equal. */
  lemma SameGroupIffSameTrace(spans: seq<Span>, a: Span, b: Span)
    requires a in spans && b in spans
    ensures (exists k :: k in GroupByTraceId(spans) && a in GroupByTraceId(spans)[k] && b in GroupByTraceId(spans)[k])
      <==> SameTrace(a, b)
  {
    EachSpanInExactlyItsGroup(spans, a);
    EachSpanInExactlyItsGroup(spans, b);
    ToLowerHexInjective(a.traceIdHigh, a.traceId, b.traceIdHigh, b.traceId);
    if SameTrace(a, b) {
      assert TraceKey(a) == TraceKey(b);
    }
  }

  // The streaming context and the job object

  /** `getClass().getName()` of the job, which is always the generated AutoValue subclass. */
  const APP_NAME: string := "zipkin.sparkstreaming.AutoValue_SparkStreamingJob"

  /** The settings of a `SparkConf`, with the three that have dedicated setters kept apart. */
  datatype SparkConf = SparkConf(master: string, appName: string, jars: Option<seq<string>>, settings: map<string, string>)

  datatype StreamingContext = StreamingContext(conf: SparkConf, batchDurationMillis: Long)

  /**
   * The configuration part of `jsc()`: a SparkConf loaded from the system properties, the master
   * and app name, the jars only when there are some, then every configured entry on top.
   */
  method NewSparkConf(config: JobConfig, systemProperties: map<string, string>) returns (c: SparkConf)
    ensures c.master == config.master && c.appName == APP_NAME
    ensures c.jars == if config.jars != [] then Some(config.jars) else None
    ensures c.settings == systemProperties + config.conf
  {
    c := SparkConf(config.master, APP_NAME, None, systemProperties);
    if config.jars != [] {
      c := c.(jars := Some(config.jars));
    }
    var remaining := config.conf.Keys;
    while remaining != {}
      invariant remaining <= config.conf.Keys
      invariant c.master == config.master && c.appName == APP_NAME
      invariant c.jars == if config.jars != [] then Some(config.jars) else None
      invariant c.settings == systemProperties + (map k | k in config.conf.Keys - remaining :: config.conf[k])
      decreases remaining
    {
      var key :| key in remaining;
      c := c.(settings := c.settings[key := config.conf[key]]);
      remaining := remaining - {key};
    }
    assert (map k | k in config.conf.Keys - {} :: config.conf[k]) == config.conf;
  }

  /** What the job does, in order. */
  datatype JobEvent =
    | LogInitialized(level: string)
    | ContextCreated(context: StreamingContext)
    /** The pipeline read, group, adjust and consume is attached to the stream. */
    | PipelineWired(adjusters: nat)
    | ContextStarted
    | AwaitedTermination
    | ContextClosed
    | ConsumerClosed

  class SparkStreamingJob {
    const config: JobConfig
    const systemProperties: map<string, string>
    /** `started`, flipped from false to true once. */
    var started: bool
    /** The memoised `jsc()`. */
    var context: Option<StreamingContext>
    var events: seq<JobEvent>

    /** The memoised context is the one `jsc()` builds from this job's configuration. */
    ghost predicate ContextValid()
      reads this
    {
      context.Some? ==>
        context.value.batchDurationMillis == config.batchDuration &&
        context.value.conf.master == config.master &&
        context.value.conf.appName == APP_NAME &&
        context.value.conf.jars == (if config.jars != [] then Some(config.jars) else None) &&
        context.value.conf.settings == systemProperties + config.conf
    }

    /** A started job has built its context. */
    ghost predicate Valid()
      reads this
    {
      ContextValid() && (started ==> context.Some?)
    }

    constructor (config: JobConfig, systemProperties: map<string, string>)
      ensures Valid()
      ensures this.config == config && this.systemProperties == systemProperties
      ensures !started && context == None && events == []
    {
      this.config := config;
      this.systemProperties := systemProperties;
      started := false;
      context := None;
      events := [];
    }

    /** `jsc()`, computed on first use and reused afterwards. */
    method Jsc() returns (jsc: StreamingContext)
      requires ContextValid()
      modifies this`context, this`events
      ensures ContextValid() && context == Some(jsc)
      ensures old(context).Some? ==> jsc == old(context).value && events == old(events)
      ensures old(context).None? ==> events == old(events) + [ContextCreated(jsc)]
      ensures jsc.batchDurationMillis == config.batchDuration
      ensures jsc.conf.master == config.master && jsc.conf.appName == APP_NAME
      ensures jsc.conf.jars == (if config.jars != [] then Some(config.jars) else None)
      ensures jsc.conf.settings == systemProperties + config.conf
    {
      if context.Some? {
        return context.value;
      }
      var conf := NewSparkConf(config, systemProperties);
      jsc := StreamingContext(conf, config.batchDuration);
      context := Some(jsc);
      events := events + [ContextCreated(jsc)];
    }

    /** `start()`: wires and starts the pipeline on the first call; later calls do nothing. */
    method Start()
      requires Valid()
      modifies this`started, this`context, this`events
      ensures Valid() && started
      ensures old(started) ==> context == old(context) && events == old(events)
      ensures !old(started) && old(context).Some? ==>
        context == old(context) &&
        events == old(events) + [LogInitialized(config.zipkinLogLevel), PipelineWired(|config.adjusters|), ContextStarted]
      ensures !old(started) && old(context).None? ==>
        context.Some? &&
        events == old(events) + [LogInitialized(config.zipkinLogLevel), ContextCreated(context.value),
                                 PipelineWired(|config.adjusters|), ContextStarted]
    {
      if started {
        return;
      }
      started := true;
      events := events + [LogInitialized(config.zipkinLogLevel)];
      var jsc := Jsc();
      events := events + [PipelineWired(|config.adjusters|)];
      events := events + [ContextStarted];
    }

    /**
     * `awaitTermination()`: blocks on the context only once the job was started. A started job
     * already holds its context, so this never builds one.
     */
    method AwaitTermination()
      requires Valid()
      modifies this`context, this`events
      ensures Valid() && context == old(context)
      ensures !started ==> events == old(events)
      ensures started ==> events == old(events) + [AwaitedTermination]
    {
      if started {
        var jsc := Jsc();
        events := events + [AwaitedTermination];
      }
    }

    /** `close()`: closes the context, then the consumer only if it is Closeable. */
    method Close()
      requires Valid()
      modifies this`context, this`events
      ensures Valid() && context.Some?
      ensures old(context).Some? ==>
        context == old(context) &&
        events == old(events) + [ContextClosed] + (if config.consumer.closeable then [ConsumerClosed] else [])
      ensures old(context).None? ==>
        events == old(events) + [ContextCreated(context.value), ContextClosed]
                  + (if config.consumer.closeable then [ConsumerClosed] else [])
    {
      var jsc := Jsc();
      events := events + [ContextClosed];
      if config.consumer.closeable {
        events := events + [ConsumerClosed];
      }
    }
  }

  /** Starting twice wires the pipeline once. */
  method StartTwice(config: JobConfig) returns (job: SparkStreamingJob)
    ensures job.started && job.config == config
    ensures |job.events| == 4
    ensures job.events[0] == LogInitialized(config.zipkinLogLevel) && job.events[2] == PipelineWired(|config.adjusters|)
  {
    job := new SparkStreamingJob(config, map[]);
    job.Start();
    job.Start();
  }
}
