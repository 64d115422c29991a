/**
 * FinagleAdjuster: finds spans reported by Finagle (a binary-annotation key containing
 * "finagle.version") and, unless switched off, backfills their timestamp and duration.
 */
module FinagleAdjuster {
  import opened Spans

  const FINAGLE_VERSION: string := "finagle.version"

  /** The adjuster's one setting, as its builder holds it. */
  datatype Config = Config(applyTimestampAndDuration: bool)

  /** `FinagleAdjuster.newBuilder()`: timestamp and duration backfill is on by default. */
  function NewBuilder(): Config {
    Config(applyTimestampAndDuration := true)
  }

  ghost predicate OccursAt(s: string, sub: string, j: int) {
    0 <= j && j + |sub| <= |s| && s[j..j + |sub|] == sub
  }

  /** `s.indexOf(sub, from)`: the first occurrence at or after `from`, or -1. */
  function IndexOfFrom(s: string, sub: string, from: nat): (r: int)
    ensures r == -1 || (from <= r && OccursAt(s, sub, r))
    ensures r == -1 ==> forall j :: from <= j ==> !OccursAt(s, sub, j)
    ensures r != -1 ==> forall j :: from <= j < r ==> !OccursAt(s, sub, j)
    decreases |s| - from
  {
    if from + |sub| > |s| then -1
    else if s[from..from + |sub|] == sub then from
    else IndexOfFrom(s, sub, from + 1)
  }

  function IndexOf(s: string, sub: string): (r: int)
    ensures r != -1 <==> exists j :: OccursAt(s, sub, j)
  {
    IndexOfFrom(s, sub, 0)
  }

  /** The search loop of `shouldAdjust`: true at the first key that contains "finagle.version". */
  function HasFinagleVersionKey(bs: seq<BinaryAnnotation>): (b: bool)
    ensures b <==> exists i :: 0 <= i < |bs| && IndexOf(bs[i].key, FINAGLE_VERSION) != -1
  {
    if bs == [] then false
    else if IndexOf(bs[0].key, FINAGLE_VERSION) != -1 then true
    else
      var rest := HasFinagleVersionKey(bs[1..]);
      assert forall i :: 1 <= i < |bs| ==> bs[i] == bs[1..][i - 1];
      rest
  }

  predicate ShouldAdjust(span: Span) {
    HasFinagleVersionKey(span.binaryAnnotations)
  }

  /**
   * `adjust(span)`. `applyTimestampAndDuration` stands for the zipkin library's
   * ApplyTimestampAndDuration.apply, which is not part of this model. The ensures are this
   * definition's two cases; what they mean for a trace is proved in Adjusters
   * (FinagleDisabledIsIdentity, FinagleDefaultBackfills).
   */
  function Adjust(config: Config, applyTimestampAndDuration: Span -> Span, span: Span): (r: Span)
    ensures config.applyTimestampAndDuration ==> r == applyTimestampAndDuration(span)
    ensures !config.applyTimestampAndDuration ==> r == span
  {
    if config.applyTimestampAndDuration then applyTimestampAndDuration(span) else span
  }

  /** A key qualifies when "finagle.version" sits anywhere in it, e.g. "srv/finagle.version". */
  lemma PrefixedKeyQualifies(span: Span, i: nat, prefix: string, suffix: string)
    requires i < |span.binaryAnnotations|
    requires span.binaryAnnotations[i].key == prefix + FINAGLE_VERSION + suffix
    ensures ShouldAdjust(span)
  {
    var key := span.binaryAnnotations[i].key;
    assert key[|prefix|..|prefix| + |FINAGLE_VERSION|] == FINAGLE_VERSION;
    assert OccursAt(key, FINAGLE_VERSION, |prefix|);
  }

  /** Keys shorter than "finagle.version" can never qualify. */
  lemma ShortKeysNeverQualify(span: Span)
    requires forall i :: 0 <= i < |span.binaryAnnotations| ==>
      |span.binaryAnnotations[i].key| < |FINAGLE_VERSION|
    ensures !ShouldAdjust(span)
  {
  }
}
