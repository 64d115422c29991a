# zipkin-sparkstreaming in Dafny

A verified model of the core of zipkin-sparkstreaming. This is a Spark Streaming job that reads
serialized Zipkin spans from a transport such as Kafka, groups each batch by trace ID, runs a
configurable chain of adjusters over each trace group, and writes the result to Zipkin storage.

The model has one module per source file:

- `ReadSpans`: picks a decoder by the message's first byte. A decode failure becomes a WARNING
  and an empty list.
- `Adjusters`: the `Adjuster` base class, its per-span map and its `AdjustingIterator`. The
  two Finagle adjusters are `FinagleAdjuster` and `FinagleIssue343Adjuster`.
- `AdjustAndConsumeSpansSharingTraceId`: the per-partition loop. It folds each group through
  the adjusters, skips any adjuster that throws, then hands the group to the consumer.
- `StorageConsumer`: the storage sink. It builds its component once, treats an empty group as a
  no-op, and classifies every failure into exactly one log record.
- `SparkStreamingJob`: the job builder and its defaults, grouping by `toLowerHex` trace key
  (with `LowerHex`), and the job's start-once lifecycle.
- `ZipkinSparkStreamingProperties` and `ZipkinSparkStreamingConfiguration`: the job's
  properties, their precedence over the builder defaults, and jar discovery.
- `ZipkinKafkaStreamFactoryProperties`: the Kafka properties and how they become a
  KafkaStreamFactory builder.
- `ZipkinStorageConsumerAutoConfiguration`: property extraction, the fail-fast health check,
  and the storage-kind dispatch.

Shared modules:

- `Wrappers`: Option and Result.
- `Runtime`: Java exceptions, log records and decimal rendering.
- `Spans`: the span data model. Java `long`, `int` and `byte` are modelled as bounded
  subtypes of `int`.

Code outside the core is passed in as parameters:

- the zipkin library's decoders are the function fields of a `Codec` value;
- `ApplyTimestampAndDuration.apply` is a function carried by the Finagle adjuster;
- `pathToJar` is a function from adjuster to optional path;
- what `tryCompute` would produce, and how an asynchronous write ends, are arguments of each call.

Objects whose fields the source updates are classes: the iterator, the storage consumer, the
job, and the properties objects. Their method contracts state every field a method may change.

Where the code and the design notes differ, the model follows the code:

- `StorageConsumer.accept` calls `get()` inside its `try`. A storage component whose
  construction throws is therefore logged as "Dropped N spans" and does not propagate.
  `check()` does propagate it.
- The adjuster interface has no `shouldDrop`. Adjusters in this model never drop spans.
- Within a group, spans keep their batch order. Spark may reorder them; see Left out.

## Model

| member | source | states |
|---|---|---|
| ReadSpans.Sniff | sparkstreaming/src/main/java/zipkin/sparkstreaming/ReadSpans.java:45-52 | '[' (91) selects JSON list decoding and 12 selects Thrift list decoding; any other first byte selects the single legacy Thrift span; each is an if-and-only-if |
| ReadSpans.Call | sparkstreaming/src/main/java/zipkin/sparkstreaming/ReadSpans.java:41-58 | the log initializer always runs first; an empty message yields no spans and no decoder call; otherwise exactly one decoder runs, the one Sniff picks; its spans come back unchanged, or on failure no spans and one WARNING "unable to decode spans" carrying the exception |
| ReadSpans.JsonMessage | sparkstreaming/src/main/java/zipkin/sparkstreaming/ReadSpans.java:45-46 | a message starting with '[' yields exactly what JSON list decoding yields, or nothing |
| ReadSpans.ThriftListMessage | sparkstreaming/src/main/java/zipkin/sparkstreaming/ReadSpans.java:48-49 | a message starting with 12 yields exactly what Thrift list decoding yields, or nothing |
| ReadSpans.LegacyMessage | sparkstreaming/src/main/java/zipkin/sparkstreaming/ReadSpans.java:50-51 | any other first byte yields the single legacy span, or nothing: at most one span |
| ReadSpans.FailureYieldsNothing | sparkstreaming/src/main/java/zipkin/sparkstreaming/ReadSpans.java:54-56 | a decoder failure gives an empty list, and the last effect is a WARNING log record |
| Adjusters.AdjustOne | sparkstreaming/src/main/java/zipkin/sparkstreaming/Adjuster.java:79-84 | the iterator hands out a span as-is unless shouldAdjust selects it, and otherwise returns adjust(span) |
| Adjusters.MapAdjust | sparkstreaming/src/main/java/zipkin/sparkstreaming/Adjuster.java:49-52 | the adjusted view has the trace's length and order, each position being AdjustOne of the same position |
| Adjusters.AdjustNullable | sparkstreaming/src/main/java/zipkin/sparkstreaming/Adjuster.java:49-51 | a null trace is a NullPointerException "trace was null"; any other trace comes back unfailed, same length, each position being AdjustOne of the same position |
| Adjusters.PlainIsIdentity | sparkstreaming/src/main/java/zipkin/sparkstreaming/Adjuster.java:54-62 | with the default shouldAdjust and adjust, every trace passes through unchanged |
| Adjusters.UnselectedUnchanged | sparkstreaming/src/main/java/zipkin/sparkstreaming/Adjuster.java:82 | a span the rule does not select comes out exactly as it went in |
| Adjusters.FinagleDisabledIsIdentity | adjuster/finagle/src/main/java/zipkin/sparkstreaming/adjuster/finagle/FinagleAdjuster.java:57-62 | with applyTimestampAndDuration off, FinagleAdjuster changes no trace |
| Adjusters.FinagleDefaultBackfills | adjuster/finagle/src/main/java/zipkin/sparkstreaming/adjuster/finagle/FinagleAdjuster.java:29-32 | with the default builder, each Finagle span has its timestamp and duration applied, and every other span is kept |
| Adjusters.FinagleIssue343Idempotent | adjuster/finagle/src/main/java/zipkin/sparkstreaming/adjuster/finagle/FinagleIssue343Adjuster.java:71-79 | adjusting a trace twice for issue 343 equals adjusting it once |
| Adjusters.AdjustingIterator.HasNext | sparkstreaming/src/main/java/zipkin/sparkstreaming/Adjuster.java:73-76 | hasNext is true exactly while the underlying trace has elements left |
| Adjusters.AdjustingIterator.Next | sparkstreaming/src/main/java/zipkin/sparkstreaming/Adjuster.java:78-84 | next returns AdjustOne of the next underlying span and advances; at the end it gives NoSuchElementException and stays put; what was emitted grows by exactly the returned span |
| Adjusters.AdjustingIterator.Remove | sparkstreaming/src/main/java/zipkin/sparkstreaming/Adjuster.java:86-89 | remove always throws UnsupportedOperationException |
| Adjusters.AdjustedTrace.Iterator | sparkstreaming/src/main/java/zipkin/sparkstreaming/Adjuster.java:51 | every iterator() starts a new pass over the same trace with the same adjuster |
| Adjusters.ReadAll | sparkstreaming/src/main/java/zipkin/sparkstreaming/Adjuster.java:51 | one complete for-each over the adjusted view yields MapAdjust of the trace |
| FinagleAdjuster.IndexOfFrom | adjuster/finagle/src/main/java/zipkin/sparkstreaming/adjuster/finagle/FinagleAdjuster.java:52 | indexOf returns the first position at or after the start where the key contains the text, or -1 if there is none |
| FinagleAdjuster.IndexOf | adjuster/finagle/src/main/java/zipkin/sparkstreaming/adjuster/finagle/FinagleAdjuster.java:52 | indexOf is not -1 if and only if the text occurs somewhere in the key |
| FinagleAdjuster.HasFinagleVersionKey | adjuster/finagle/src/main/java/zipkin/sparkstreaming/adjuster/finagle/FinagleAdjuster.java:50-55 | shouldAdjust holds if and only if some binary-annotation key contains "finagle.version" |
| FinagleAdjuster.Adjust | adjuster/finagle/src/main/java/zipkin/sparkstreaming/adjuster/finagle/FinagleAdjuster.java:57-62 | with the flag on, the span is ApplyTimestampAndDuration's result; with it off, the span is unchanged |
| FinagleAdjuster.PrefixedKeyQualifies | adjuster/finagle/src/main/java/zipkin/sparkstreaming/adjuster/finagle/FinagleAdjuster.java:52 | a key with "finagle.version" anywhere inside it selects the span |
| FinagleAdjuster.ShortKeysNeverQualify | adjuster/finagle/src/main/java/zipkin/sparkstreaming/adjuster/finagle/FinagleAdjuster.java:50-55 | a span whose keys are all shorter than "finagle.version" is not selected |
| FinagleIssue343Adjuster.AsciiBytes | adjuster/finagle/src/main/java/zipkin/sparkstreaming/adjuster/finagle/FinagleIssue343Adjuster.java:54-55 | the UTF-8 bytes of an ASCII word are its character codes, one byte per character |
| FinagleIssue343Adjuster.ContainsHitOrMissBinaryAnnotation | adjuster/finagle/src/main/java/zipkin/sparkstreaming/adjuster/finagle/FinagleIssue343Adjuster.java:52-60 | true if and only if some binary annotation's value decodes to "Hit" or "Miss" |
| FinagleIssue343Adjuster.ContainsFinagleFlushAnnotation | adjuster/finagle/src/main/java/zipkin/sparkstreaming/adjuster/finagle/FinagleIssue343Adjuster.java:62-69 | true if and only if some annotation's value is "finagle.flush" |
| FinagleIssue343Adjuster.ShouldAdjust | adjuster/finagle/src/main/java/zipkin/sparkstreaming/adjuster/finagle/FinagleIssue343Adjuster.java:45-50 | a span is selected if and only if it has a finagle.flush annotation and a Hit or Miss tag |
| FinagleIssue343Adjuster.Adjust | adjuster/finagle/src/main/java/zipkin/sparkstreaming/adjuster/finagle/FinagleIssue343Adjuster.java:71-79 | the loop builds the span with its flush annotations filtered out (AdjustSpan) |
| FinagleIssue343Adjuster.WithoutFlushAppend | adjuster/finagle/src/main/java/zipkin/sparkstreaming/adjuster/finagle/FinagleIssue343Adjuster.java:72-77 | the filter distributes over concatenation, so kept annotations stay in their order |
| FinagleIssue343Adjuster.WithoutFlushMembers | adjuster/finagle/src/main/java/zipkin/sparkstreaming/adjuster/finagle/FinagleIssue343Adjuster.java:74 | an annotation is kept if and only if it was present and is not finagle.flush |
| FinagleIssue343Adjuster.WithoutFlushNoop | adjuster/finagle/src/main/java/zipkin/sparkstreaming/adjuster/finagle/FinagleIssue343Adjuster.java:72-77 | without flush annotations the list is unchanged |
| FinagleIssue343Adjuster.AdjustSpanRemovesFlush | adjuster/finagle/src/main/java/zipkin/sparkstreaming/adjuster/finagle/FinagleIssue343Adjuster.java:71-79 | the adjusted span has no flush annotation; all its other fields are unchanged |
| FinagleIssue343Adjuster.AdjustSpanIdempotent | adjuster/finagle/src/main/java/zipkin/sparkstreaming/adjuster/finagle/FinagleIssue343Adjuster.java:71-79 | an adjusted span is no longer selected, and adjusting it again changes nothing |
| FinagleIssue343Adjuster.TrailingFlushRemoved | adjuster/finagle/src/main/java/zipkin/sparkstreaming/adjuster/finagle/FinagleIssue343Adjuster.java:71-79 | a flush annotation appended to the annotations is removed, and the other annotations survive |
| AdjustAndConsumeSpansSharingTraceId.Call | sparkstreaming/src/main/java/zipkin/sparkstreaming/AdjustAndConsumeSpansSharingTraceId.java:41-54 | the initializer runs first, then per group in iterator order the chain's warnings and one Consumed of the chain's output; the consumer's first exception ends the loop and escapes the call |
| AdjustAndConsumeSpansSharingTraceId.FailureIsFinal | sparkstreaming/src/main/java/zipkin/sparkstreaming/AdjustAndConsumeSpansSharingTraceId.java:43-52 | once the consumer has thrown, the groups after it neither log nor reach the consumer |
| AdjustAndConsumeSpansSharingTraceId.AdjustGroup | sparkstreaming/src/main/java/zipkin/sparkstreaming/AdjustAndConsumeSpansSharingTraceId.java:45-51 | the for loop leaves the group as the chain's output and logs one warning per adjuster that threw, in adjuster order |
| AdjustAndConsumeSpansSharingTraceId.ConsumedGroupsAppend | sparkstreaming/src/main/java/zipkin/sparkstreaming/AdjustAndConsumeSpansSharingTraceId.java:52 | the groups consumed by two runs of events are the concatenation of each run's |
| AdjustAndConsumeSpansSharingTraceId.WarningsConsumeNothing | sparkstreaming/src/main/java/zipkin/sparkstreaming/AdjustAndConsumeSpansSharingTraceId.java:48-50 | a failing adjuster only logs: its warnings hand nothing to the consumer |
| AdjustAndConsumeSpansSharingTraceId.ConsumedUntilFirstFailure | sparkstreaming/src/main/java/zipkin/sparkstreaming/AdjustAndConsumeSpansSharingTraceId.java:43-53 | the consumer receives, in order and once each, the chain's output for a prefix of the groups; every hand-off but the last returned normally; nothing escapes exactly when all groups were handed over and none threw, and otherwise the escaping exception is the last hand-off's |
| AdjustAndConsumeSpansSharingTraceId.StopsAtFirstFailure | sparkstreaming/src/main/java/zipkin/sparkstreaming/AdjustAndConsumeSpansSharingTraceId.java:43-53 | when the consumer first throws on group k, groups 0..k were consumed, no later group is, and that exception escapes |
| AdjustAndConsumeSpansSharingTraceId.EachGroupConsumedOnce | sparkstreaming/src/main/java/zipkin/sparkstreaming/AdjustAndConsumeSpansSharingTraceId.java:43-53 | with a consumer that never throws, nothing escapes and every group reaches the consumer exactly once, in order, as the chain's output for that group |
| AdjustAndConsumeSpansSharingTraceId.CallConsumes | sparkstreaming/src/main/java/zipkin/sparkstreaming/AdjustAndConsumeSpansSharingTraceId.java:41-54 | with a consumer that never throws, one call consumes, in order, the chain's output for each group, after the log initializer, and throws nothing |
| AdjustAndConsumeSpansSharingTraceId.ChainAppend | sparkstreaming/src/main/java/zipkin/sparkstreaming/AdjustAndConsumeSpansSharingTraceId.java:45-51 | adjusters apply in configured order, each to the previous one's output |
| AdjustAndConsumeSpansSharingTraceId.NoAdjusters | sparkstreaming/src/main/java/zipkin/sparkstreaming/AdjustAndConsumeSpansSharingTraceId.java:43-53 | with no adjusters and a consumer that never throws, the call logs no warning, hands every group to the consumer unchanged and in order, and throws nothing |
| AdjustAndConsumeSpansSharingTraceId.PlainChainIsIdentity | sparkstreaming/src/main/java/zipkin/sparkstreaming/AdjustAndConsumeSpansSharingTraceId.java:45-51 | a chain of default adjusters leaves every group unchanged |
| AdjustAndConsumeSpansSharingTraceId.FailingAdjusterSkipped | sparkstreaming/src/main/java/zipkin/sparkstreaming/AdjustAndConsumeSpansSharingTraceId.java:46-50 | an adjuster that throws on a group acts, for that group, as if it were not configured |
| StorageConsumer.Rethrown | consumer/storage/src/main/java/zipkin/sparkstreaming/consumer/storage/StorageConsumer.java:49-50 | what escapes the blocking callback is always unchecked; checked errors are wrapped |
| StorageConsumer.ToLog | consumer/storage/src/main/java/zipkin/sparkstreaming/consumer/storage/StorageConsumer.java:53-55 | a plain RuntimeException with a cause is logged as its cause; any other exception is logged as itself |
| StorageConsumer.CheckedCallbackErrorLoggedUnwrapped | consumer/storage/src/main/java/zipkin/sparkstreaming/consumer/storage/StorageConsumer.java:52-60 | a checked error delivered to the callback is logged as the original error, with its message and "Dropped N spans" |
| StorageConsumer.UncheckedFailureLoggedAsIs | consumer/storage/src/main/java/zipkin/sparkstreaming/consumer/storage/StorageConsumer.java:52-60 | an unchecked write failure is logged as it is |
| StorageConsumer.AsList | consumer/storage/src/main/java/zipkin/sparkstreaming/consumer/storage/StorageConsumer.java:90-94 | the copy holds the iterable's elements in iteration order |
| StorageConsumer.StorageConsumer.Get | consumer/storage/src/main/java/zipkin/sparkstreaming/consumer/storage/StorageConsumer.java:67-78 | tryCompute runs only while nothing is stored; once it succeeds, its component is returned forever; Valid is kept, so at most one success is recorded |
| StorageConsumer.StorageConsumer.Accept | consumer/storage/src/main/java/zipkin/sparkstreaming/consumer/storage/StorageConsumer.java:39-65 | an empty group logs FINE "Input was empty" and touches nothing; otherwise the component is obtained once and the list written; exactly one record is logged: INFO "Wrote N spans", or WARNING "Dropped N spans: message" with the cause unwrapped and, when WARNING is loggable, attached |
| StorageConsumer.StorageConsumer.Check | consumer/storage/src/main/java/zipkin/sparkstreaming/consumer/storage/StorageConsumer.java:80-82 | check returns the component's own health, building the component first only if none was built (then calling tryCompute once and keeping its result) and otherwise leaving the component and the tryCompute calls alone; a construction failure propagates |
| StorageConsumer.StorageConsumer.Close | consumer/storage/src/main/java/zipkin/sparkstreaming/consumer/storage/StorageConsumer.java:84-88 | close closes the component only if one was built, and never builds one |
| StorageConsumer.GetRepeatedly | consumer/storage/src/main/java/zipkin/sparkstreaming/consumer/storage/StorageConsumer.java:67-78 | however often get is called, the first component is built once and returned every time |
| Runtime.Decimal | consumer/storage/src/main/java/zipkin/sparkstreaming/consumer/storage/StorageConsumer.java:51 | the decimal rendering of a count is non-empty and all digits |
| Runtime.DecimalRoundTrip | consumer/storage/src/main/java/zipkin/sparkstreaming/consumer/storage/StorageConsumer.java:56 | the decimal text parses back to the count |
| Runtime.DecimalInjective | consumer/storage/src/main/java/zipkin/sparkstreaming/consumer/storage/StorageConsumer.java:56 | different counts give different messages |
| LowerHex.HexRoundTrip | sparkstreaming/src/main/java/zipkin/sparkstreaming/SparkStreamingJob.java:151 | n lowercase hex digits of a value below 16^n parse back to that value |
| LowerHex.ToLowerHexInjective | sparkstreaming/src/main/java/zipkin/sparkstreaming/SparkStreamingJob.java:151 | the trace key determines both halves of the trace ID, and the reverse |
| SparkStreamingJob.Build | sparkstreaming/src/main/java/zipkin/sparkstreaming/SparkStreamingJob.java:84 | build succeeds if and only if a stream factory and a consumer are set, and then keeps every builder property; otherwise it throws IllegalStateException |
| SparkStreamingJob.SpansWithKeyMembers | sparkstreaming/src/main/java/zipkin/sparkstreaming/SparkStreamingJob.java:150-152 | a group holds exactly the batch's spans with that key |
| SparkStreamingJob.GroupsAreKeyFilters | sparkstreaming/src/main/java/zipkin/sparkstreaming/SparkStreamingJob.java:150-152 | the groups are exactly the keys that occur, each holding the spans with that key in batch order |
| SparkStreamingJob.EachSpanInExactlyItsGroup | sparkstreaming/src/main/java/zipkin/sparkstreaming/SparkStreamingJob.java:150-152 | every span lands in its own trace's group and in no other |
| SparkStreamingJob.SameGroupIffSameTrace | sparkstreaming/src/main/java/zipkin/sparkstreaming/SparkStreamingJob.java:151 | two spans share a group if and only if both halves of their trace IDs are equal |
| SparkStreamingJob.NewSparkConf | sparkstreaming/src/main/java/zipkin/sparkstreaming/SparkStreamingJob.java:107-113 | the SparkConf has the master, the job's class name (APP_NAME) as app name, the jars only when there are some, and the configured entries over the system properties |
| SparkStreamingJob.SparkStreamingJob.Jsc | sparkstreaming/src/main/java/zipkin/sparkstreaming/SparkStreamingJob.java:105-115 | the context is built once from the job's configuration (batch duration, master, the job's class name (APP_NAME) as app name, jars only when there are some, configured entries over the system properties) and then reused unchanged |
| SparkStreamingJob.SparkStreamingJob.Start | sparkstreaming/src/main/java/zipkin/sparkstreaming/SparkStreamingJob.java:118-131 | the first start initializes logging, builds the context unless one is memoised (keeping a memoised one), wires the pipeline and starts the context; a later start does nothing; a started job always holds its context |
| SparkStreamingJob.SparkStreamingJob.AwaitTermination | sparkstreaming/src/main/java/zipkin/sparkstreaming/SparkStreamingJob.java:134-136 | awaitTermination does nothing until the job is started, and then awaits the context the job already holds, never building another |
| SparkStreamingJob.SparkStreamingJob.Close | sparkstreaming/src/main/java/zipkin/sparkstreaming/SparkStreamingJob.java:159-165 | close closes the context, building it first only if none exists and otherwise keeping the memoised one, then the consumer only if it is Closeable |
| SparkStreamingJob.StartTwice | sparkstreaming/src/main/java/zipkin/sparkstreaming/SparkStreamingJob.java:119 | starting twice wires the pipeline only once |
| ZipkinSparkStreamingProperties.ZipkinSparkStreamingProperties.SetMaster | sparkstreaming-job/src/main/java/zipkin/sparkstreaming/job/ZipkinSparkStreamingProperties.java:33-35 | an empty master is stored as null |
| ZipkinSparkStreamingProperties.ZipkinSparkStreamingProperties.SetJars | sparkstreaming-job/src/main/java/zipkin/sparkstreaming/job/ZipkinSparkStreamingProperties.java:41-43 | a null or empty jar list is ignored |
| ZipkinSparkStreamingProperties.ZipkinSparkStreamingProperties.SetConf | sparkstreaming-job/src/main/java/zipkin/sparkstreaming/job/ZipkinSparkStreamingProperties.java:49-53 | a null or empty conf is ignored |
| ZipkinSparkStreamingProperties.ZipkinSparkStreamingProperties.SetBatchDuration | sparkstreaming-job/src/main/java/zipkin/sparkstreaming/job/ZipkinSparkStreamingProperties.java:59-61 | the batch duration is stored |
| ZipkinSparkStreamingProperties.ZipkinSparkStreamingProperties.GetBatchDuration | sparkstreaming-job/src/main/java/zipkin/sparkstreaming/job/ZipkinSparkStreamingProperties.java:55-57 | reading an unset batch duration throws NullPointerException; otherwise it returns the value |
| ZipkinSparkStreamingProperties.ZipkinSparkStreamingProperties.ToBuilder | sparkstreaming-job/src/main/java/zipkin/sparkstreaming/job/ZipkinSparkStreamingProperties.java:63-70 | each property overrides the job default only when set; everything else stays at its default |
| ZipkinSparkStreamingProperties.NothingSetGivesDefaults | sparkstreaming-job/src/main/java/zipkin/sparkstreaming/job/ZipkinSparkStreamingProperties.java:63-70 | with nothing set, the properties give exactly the job's own defaults |
| ZipkinSparkStreamingProperties.ConfigureFromEnvironment | sparkstreaming-job/src/main/java/zipkin/sparkstreaming/job/ZipkinSparkStreamingProperties.java:33-53 | blank master, jars and conf keep the defaults "local[*]", no jars and the disabled UI; real values override them |
| ZipkinSparkStreamingConfiguration.NonNull | sparkstreaming-job/src/main/java/zipkin/sparkstreaming/job/ZipkinSparkStreamingConfiguration.java:73 | removing null keeps exactly the non-null paths |
| ZipkinSparkStreamingConfiguration.PathToJars | sparkstreaming-job/src/main/java/zipkin/sparkstreaming/job/ZipkinSparkStreamingConfiguration.java:67-75 | the loop computes the distinct non-null candidate paths, or null when there are none |
| ZipkinSparkStreamingConfiguration.FirstIndex | sparkstreaming-job/src/main/java/zipkin/sparkstreaming/job/ZipkinSparkStreamingConfiguration.java:68 | the first occurrence of a path is where it is found, with none before it |
| ZipkinSparkStreamingConfiguration.DistinctProperties | sparkstreaming-job/src/main/java/zipkin/sparkstreaming/job/ZipkinSparkStreamingConfiguration.java:68-72 | the insertion-ordered set holds every candidate once, in first-occurrence order |
| ZipkinSparkStreamingConfiguration.NonNullKeepsOrder | sparkstreaming-job/src/main/java/zipkin/sparkstreaming/job/ZipkinSparkStreamingConfiguration.java:73-74 | removing null from the insertion-ordered set and copying it to a list keeps every other path once, in its relative order |
| ZipkinSparkStreamingConfiguration.PathToJarsProperties | sparkstreaming-job/src/main/java/zipkin/sparkstreaming/job/ZipkinSparkStreamingConfiguration.java:67-75 | the result is null if and only if every path is null; otherwise it lists each non-null path exactly once, in the order of first collection, with the entry point's jar first |
| ZipkinSparkStreamingConfiguration.SparkStreaming | sparkstreaming-job/src/main/java/zipkin/sparkstreaming/job/ZipkinSparkStreamingConfiguration.java:43-61 | the job is built from the properties with the injected adjusters, stream factory and consumer; jars are discovered only when a master is set and no jars are, and a null discovery keeps the jars; the job is started |
| ZipkinKafkaStreamFactoryProperties.EmptyToNull | autoconfigure/stream-kafka/src/main/java/zipkin/sparkstreaming/autoconfigure/stream/kafka/ZipkinKafkaStreamFactoryProperties.java:99-101 | null or "" becomes null, and any other string is kept |
| ZipkinKafkaStreamFactoryProperties.Zookeeper.SetConnectServers | autoconfigure/stream-kafka/src/main/java/zipkin/sparkstreaming/autoconfigure/stream/kafka/ZipkinKafkaStreamFactoryProperties.java:62-66 | a null or empty server list is ignored |
| ZipkinKafkaStreamFactoryProperties.Zookeeper.SetConnectSuffix | autoconfigure/stream-kafka/src/main/java/zipkin/sparkstreaming/autoconfigure/stream/kafka/ZipkinKafkaStreamFactoryProperties.java:72-74 | an empty suffix is stored as null |
| ZipkinKafkaStreamFactoryProperties.Zookeeper.SetSessionTimeout | autoconfigure/stream-kafka/src/main/java/zipkin/sparkstreaming/autoconfigure/stream/kafka/ZipkinKafkaStreamFactoryProperties.java:80-82 | only a positive timeout is stored; null throws NullPointerException and changes nothing |
| ZipkinKafkaStreamFactoryProperties.ZipkinKafkaStreamFactoryProperties.SetTopic | autoconfigure/stream-kafka/src/main/java/zipkin/sparkstreaming/autoconfigure/stream/kafka/ZipkinKafkaStreamFactoryProperties.java:31-33 | an empty topic is stored as null |
| ZipkinKafkaStreamFactoryProperties.ZipkinKafkaStreamFactoryProperties.SetBootstrapServers | autoconfigure/stream-kafka/src/main/java/zipkin/sparkstreaming/autoconfigure/stream/kafka/ZipkinKafkaStreamFactoryProperties.java:39-43 | a null or empty server list is ignored |
| ZipkinKafkaStreamFactoryProperties.ZipkinKafkaStreamFactoryProperties.SetZookeeper | autoconfigure/stream-kafka/src/main/java/zipkin/sparkstreaming/autoconfigure/stream/kafka/ZipkinKafkaStreamFactoryProperties.java:49-51 | a null Zookeeper keeps the current one |
| ZipkinKafkaStreamFactoryProperties.ZipkinKafkaStreamFactoryProperties.ToBuilder | autoconfigure/stream-kafka/src/main/java/zipkin/sparkstreaming/autoconfigure/stream/kafka/ZipkinKafkaStreamFactoryProperties.java:85-97 | the topic overrides "zipkin" only when set, and the group id stays "zipkin"; ZooKeeper connect servers replace explicit bootstrap servers, with the suffix and timeout defaults "" and 10000 where unset |
| ZipkinKafkaStreamFactoryProperties.BindEnvironment | stream/kafka/src/main/java/zipkin/sparkstreaming/stream/kafka/ZookeeperBootstrapServers.java:32-36 | with servers given both ways, brokers come from ZooKeeper with the default suffix and timeout; a blank topic keeps "zipkin" |
| ZipkinKafkaStreamFactoryProperties.BindExplicitServers | stream/kafka/src/main/java/zipkin/sparkstreaming/stream/kafka/KafkaStreamFactory.java:38-42 | without ZooKeeper, explicit servers are kept exactly; with none, the builder is the default |
| ZipkinStorageConsumerAutoConfiguration.ExtractZipkinProperties | autoconfigure/consumer-storage/src/main/java/zipkin/sparkstreaming/autoconfigure/consumer/storage/ZipkinStorageConsumerAutoConfiguration.java:129-141 | the nested loop computes the fold of every source's prefixed entries, in iteration order |
| ZipkinStorageConsumerAutoConfiguration.PutAllDomain | autoconfigure/consumer-storage/src/main/java/zipkin/sparkstreaming/autoconfigure/consumer/storage/ZipkinStorageConsumerAutoConfiguration.java:136-138 | one source adds exactly its names that start with "zipkin" |
| ZipkinStorageConsumerAutoConfiguration.ExtractedNames | autoconfigure/consumer-storage/src/main/java/zipkin/sparkstreaming/autoconfigure/consumer/storage/ZipkinStorageConsumerAutoConfiguration.java:134-137 | a property is extracted if and only if its name starts with "zipkin" and an enumerable source lists it; non-enumerable sources contribute nothing |
| ZipkinStorageConsumerAutoConfiguration.PutAllLast | autoconfigure/consumer-storage/src/main/java/zipkin/sparkstreaming/autoconfigure/consumer/storage/ZipkinStorageConsumerAutoConfiguration.java:136-138 | a zipkin.* name not listed again later in the same source takes this listing's value (a property source lists each name once, so in practice this is its only listing) |
| ZipkinStorageConsumerAutoConfiguration.PutAllOthers | autoconfigure/consumer-storage/src/main/java/zipkin/sparkstreaming/autoconfigure/consumer/storage/ZipkinStorageConsumerAutoConfiguration.java:136-138 | a source that does not list a name leaves its value alone |
| ZipkinStorageConsumerAutoConfiguration.LastSourceWins | autoconfigure/consumer-storage/src/main/java/zipkin/sparkstreaming/autoconfigure/consumer/storage/ZipkinStorageConsumerAutoConfiguration.java:131-139 | a name in several sources keeps the value from the last source that lists it |
| ZipkinStorageConsumerAutoConfiguration.ConsumerKindFor | autoconfigure/consumer-storage/src/main/java/zipkin/sparkstreaming/autoconfigure/consumer/storage/ZipkinStorageConsumerAutoConfiguration.java:63-78 | v2 Elasticsearch maps to the Elasticsearch consumer, v2 Cassandra to Cassandra3, v1 Cassandra to Cassandra, and MySQL to MySQL, each an if-and-only-if; any other kind throws UnsupportedOperationException "... not yet supported" |
| ZipkinStorageConsumerAutoConfiguration.SupportedKinds | autoconfigure/consumer-storage/src/main/java/zipkin/sparkstreaming/autoconfigure/consumer/storage/ZipkinStorageConsumerAutoConfiguration.java:63-78 | exactly the four supported kinds produce a consumer |
| ZipkinStorageConsumerAutoConfiguration.CheckStorageOk | autoconfigure/consumer-storage/src/main/java/zipkin/sparkstreaming/autoconfigure/consumer/storage/ZipkinStorageConsumerAutoConfiguration.java:82-86 | a failed check throws IllegalStateException "Storage not ok" with the check's exception as cause; a passing check closes the component |
| ZipkinStorageConsumerAutoConfiguration.StorageConsumerBean | autoconfigure/consumer-storage/src/main/java/zipkin/sparkstreaming/autoconfigure/consumer/storage/ZipkinStorageConsumerAutoConfiguration.java:56-79 | with fail-fast, an unhealthy storage fails before dispatch whatever its kind; otherwise the dispatched consumer carries the extracted properties, or the dispatch error propagates |

## Left out

- Spark engine plumbing is not modelled: `flatMap`, `groupByKey` distribution, `foreachRDD` and `foreachPartition`. `streamSpansToStorage` is modelled as grouping one batch (`GroupByTraceId`). Its wiring appears only as the `PipelineWired` event.
- Serializability is not modelled.
- SparkStreamingJob.GroupsAreKeyFilters: states that a group keeps batch order. Spark does not promise this, so only membership carries over to a real cluster.
- StorageConsumer.StorageConsumer.Get: a `tryCompute()` that returns null is not represented (its outcome is a component or an exception). In the code `get()` would then keep `instance` null and compute again on the next call, and `accept` would log the resulting NullPointerException as "Dropped N spans: null". No storage consumer in the repository returns null.
- Concurrency is not modelled. The volatile field and double-checked locking in `StorageConsumer.get` and `close` become a sequential set-once field. The 1000-thread scenario becomes `GetRepeatedly`: tryCompute runs once.
- Asynchronous writes are not modelled: `CallbackCaptor` and `AsyncSpanConsumer` are replaced by a parameter giving the write's outcome. A checked callback error is wrapped as `new RuntimeException(cause)`, so its message is the cause's toString.
- Lazy evaluation is not modelled. Adjusters are applied eagerly. Only an adjuster that overrides `adjust(Iterable)` (`WholeTrace`) can fail inside the chain's try. The base class's per-span hooks are total functions, so an exception they would throw during later iteration is not represented.
- AdjustAndConsumeSpansSharingTraceId.EachGroupConsumedOnce and CallConsumes: they hold for a consumer that never throws, as StorageConsumer does (it catches every failure). A throwing consumer is covered by ConsumedUntilFirstFailure and StopsAtFirstFailure.
- AdjustAndConsumeSpansSharingTraceId.Call: the warning names the adjuster by its position, not by its toString.
- ReadSpans.Call and AdjustAndConsumeSpansSharingTraceId.Call: `LogInitializer` is an opaque effect, recorded as one event. Logger configuration is not modelled.
- The zipkin library's JSON and Thrift decoders are not part of this model. They are parameters of `Codec`.
- `ApplyTimestampAndDuration` is not part of this model. It is a function parameter of the Finagle adjuster.
- `MergeById` is not part of this model.
- `Util.toLowerHex` is given a definition following the zipkin library's format: 16 hex digits, or 32 when the high bits are non-zero. Its injectivity is proved for that definition.
- FinagleIssue343Adjuster.IsHitOrMiss: UTF-8 decoding is reduced to byte equality with the ASCII encodings of "Hit" and "Miss". For these ASCII targets the two agree.
- `pathToJar` (the code-source lookup and URL decoding) is not modelled. It is a function from adjuster to optional path. The entry point's path is a parameter.
- The log line "Will distribute the following jars" is not modelled.
- SparkStreamingJob.NewSparkConf: a SparkConf is modelled as the master, app name and jars plus one settings map. Spark's own key names and validation are not modelled.
- The Log4J level that `LogInitializer` sets is kept as a string in an event.
- SparkStreamingJob.Build: the exact text of the generated builder's message is not claimed beyond its "Missing required properties:" start.
- ZipkinKafkaStreamFactoryProperties: `KafkaStreamFactory.create` and `kafkaParams` are network code or a comma join, and are not modelled.
- `ZookeeperBootstrapServers.get` (ZooKeeper and Jackson I/O) is not modelled. The supplier is kept as its three settings.
- ZipkinStorageConsumerAutoConfiguration.ExtractZipkinProperties: a source is its listed names with their values. A listed name whose value is null, which `Properties.put` would refuse, is not represented.
- ZipkinStorageConsumerAutoConfiguration.CheckStorageOk: `component.close()` is assumed to succeed. Its IOException is not modelled.
- Spring wiring is not modelled: conditions, `@Value` defaults and the per-executor `tryCompute` that rebuilds the storage from the extracted properties. Each consumer kind is kept with the properties it carries. Fail-fast's default (true) is the caller's choice of the `failFast` argument.
- ZipkinSparkStreamingAutoConfiguration, ZipkinKafkaStreamFactoryAutoConfiguration and the older duplicate ZipkinSparkStreamingProperties are not modelled. They are wiring, or call builder methods the job does not have.
- ZipkinFinagleAdjusterProperties and ZipkinSparkStreamingJob are not modelled for the same reason.
- Test assertions on `getGroupId`, `getZookeeper().getConnect()` or `shouldDrop` are not modelled, because those members do not exist in the code.
