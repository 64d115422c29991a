/**
 * ReadSpans: turns one transport message into spans. The first byte picks the decoder and a
 * decoder failure is logged and turned into an empty list, so no message can fail a batch.
 */
module ReadSpans {
  import opened Wrappers
  import opened Runtime
  import opened Spans

  /** ASCII '[': the message is a JSON array of spans. */
  const JSON_LIST_START: JByte := 91
  /** Thrift TType.STRUCT: the element type that opens a TBinaryProtocol list of spans. */
  const TTYPE_STRUCT: JByte := 12

  /** The zipkin library's decoders, which this model does not look inside. */
  datatype Codec = Codec(
    jsonReadSpans: seq<JByte> -> Result<seq<Span>, Exception>,    // Codec.JSON.readSpans
    thriftReadSpans: seq<JByte> -> Result<seq<Span>, Exception>,  // Codec.THRIFT.readSpans
    thriftReadSpan: seq<JByte> -> Result<Span, Exception>)        // Codec.THRIFT.readSpan

  datatype Decoder = JsonList | ThriftList | ThriftSingle

  /** The observable effects of one call, in order. */
  datatype Event = LogInitialized | Invoked(decoder: Decoder) | Logged(record: LogRecord)

  datatype Outcome = Outcome(spans: seq<Span>, events: seq<Event>)

  /**
   * Format sniffing: JSON is tested first, then the Thrift list marker; anything else is one span.
   * The ensures only restate this dispatch as if-and-only-ifs; what it means for a message is
   * proved about Call (JsonMessage, ThriftListMessage, LegacyMessage).
   */
  function Sniff(first: JByte): (d: Decoder)
    ensures d == JsonList <==> first == 91
    ensures d == ThriftList <==> first == 12
    ensures d == ThriftSingle <==> first != 91 && first != 12
  {
    if first == JSON_LIST_START then JsonList
    else if first == TTYPE_STRUCT then ThriftList
    else ThriftSingle
  }

  /** What the chosen decoder returns for the whole message. */
  function Decode(codec: Codec, d: Decoder, bytes: seq<JByte>): Result<seq<Span>, Exception> {
    match d
    case JsonList => codec.jsonReadSpans(bytes)
    case ThriftList => codec.thriftReadSpans(bytes)
    case ThriftSingle =>
      match codec.thriftReadSpan(bytes)
      case Ok(s) => Ok([s])
      case Err(e) => Err(e)
  }

  function CountInvoked(events: seq<Event>): nat {
    if events == [] then 0
    else CountInvoked(events[..|events| - 1]) + (if events[|events| - 1].Invoked? then 1 else 0)
  }

  /** `ReadSpans.call(bytes)`. */
  function Call(codec: Codec, bytes: seq<JByte>): (r: Outcome)
    ensures |r.events| > 0 && r.events[0] == LogInitialized
    ensures |bytes| == 0 ==> r.spans == [] && r.events == [LogInitialized]
    ensures |bytes| > 0 ==> |r.events| >= 2 && r.events[1] == Invoked(Sniff(bytes[0]))
    ensures |bytes| > 0 ==> CountInvoked(r.events) == 1
    ensures |bytes| > 0 ==>
      match Decode(codec, Sniff(bytes[0]), bytes)
      case Ok(s) => r.spans == s && |r.events| == 2
      case Err(e) =>
        r.spans == [] &&
        r.events == [LogInitialized, Invoked(Sniff(bytes[0])),
                     Logged(LogRecord(Warning, "unable to decode spans", Some(e)))]
  {
    if |bytes| == 0 then Outcome([], [LogInitialized])
    else
      var d := Sniff(bytes[0]);
      var invoked := [LogInitialized, Invoked(d)];
      assert invoked[..1] == [LogInitialized] && [LogInitialized][..0] == [];
      assert CountInvoked([LogInitialized]) == 0;
      assert CountInvoked(invoked) == 1;
      match Decode(codec, d, bytes)
      case Ok(s) => Outcome(s, invoked)
      case Err(e) =>
        var events := invoked + [Logged(LogRecord(Warning, "unable to decode spans", Some(e)))];
        assert events[..2] == invoked;
        Outcome([], events)
  }

  /** A message opening with '[' yields exactly what JSON list decoding yields, or nothing. */
  lemma JsonMessage(codec: Codec, bytes: seq<JByte>)
    requires |bytes| > 0 && bytes[0] == 91
    ensures Call(codec, bytes).spans ==
      match codec.jsonReadSpans(bytes) case Ok(s) => s case Err(_) => []
  {
  }

  /** A message opening with 12 yields exactly what Thrift list decoding yields, or nothing. */
  lemma ThriftListMessage(codec: Codec, bytes: seq<JByte>)
    requires |bytes| > 0 && bytes[0] == 12
    ensures Call(codec, bytes).spans ==
      match codec.thriftReadSpans(bytes) case Ok(s) => s case Err(_) => []
  {
  }

  /** Any other first byte yields the single legacy Thrift span, or nothing. */
  lemma LegacyMessage(codec: Codec, bytes: seq<JByte>)
    requires |bytes| > 0 && bytes[0] != 91 && bytes[0] != 12
    ensures Call(codec, bytes).spans ==
      match codec.thriftReadSpan(bytes) case Ok(s) => [s] case Err(_) => []
    ensures |Call(codec, bytes).spans| <= 1
  {
  }

  /** The spans of a message are never more than its decoder produced: failures only lose data. */
  lemma FailureYieldsNothing(codec: Codec, bytes: seq<JByte>)
    requires |bytes| > 0 && Decode(codec, Sniff(bytes[0]), bytes).Err?
    ensures Call(codec, bytes).spans == []
    ensures Call(codec, bytes).events[|Call(codec, bytes).events| - 1].Logged?
    ensures Call(codec, bytes).events[|Call(codec, bytes).events| - 1].record.level == Warning
  {
  }
}
