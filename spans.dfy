/**
 * The span data model of the zipkin v1 library the pipeline consumes. Spans are immutable
 * values: an adjuster that changes a span builds a new one.
 */
module Spans {
  import opened Wrappers

  const TWO_63: int := 0x8000_0000_0000_0000

  /** A Java `long`. */
  type Long = x: int | -TWO_63 <= x < TWO_63

  /** A Java `int`. */
  type Int = x: int | -0x8000_0000 <= x < 0x8000_0000

  /** A Java `byte` (signed). */
  type JByte = x: int | -128 <= x < 128

  datatype Endpoint = Endpoint(serviceName: string, ipv4: Int, port: Option<int>)

  /** A timestamped event, such as "sr" or "finagle.flush". */
  datatype Annotation = Annotation(timestamp: Long, value: string, endpoint: Option<Endpoint>)

  /** A tag: a string key and an opaque byte value. */
  datatype BinaryAnnotation = BinaryAnnotation(key: string, value: seq<JByte>, endpoint: Option<Endpoint>)

  datatype Span = Span(
    traceIdHigh: Long,
    traceId: Long,
    name: string,
    id: Long,
    parentId: Option<Long>,
    timestamp: Option<Long>,
    duration: Option<Long>,
    annotations: seq<Annotation>,
    binaryAnnotations: seq<BinaryAnnotation>,
    debug: Option<bool>)

  /** Two spans belong to the same trace iff both halves of the 128-bit trace ID agree. */
  predicate SameTrace(a: Span, b: Span) {
    a.traceIdHigh == b.traceIdHigh && a.traceId == b.traceId
  }
}
