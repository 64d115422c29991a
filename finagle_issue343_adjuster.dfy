/**
 * FinagleIssue343Adjuster: works around Finagle issue 343, where memcached client spans are
 * reported twice and the extra "finagle.flush" annotation inflates their duration. A span
 * qualifies when it carries that annotation and a "Hit" or "Miss" tag (so it is a memcached
 * span); the fix removes the flush annotations and nothing else.
 */
module FinagleIssue343Adjuster {
  import opened Spans

  const FINAGLE_FLUSH: string := "finagle.flush"

  /** The UTF-8 bytes of an ASCII string: one byte per character. */
  function AsciiBytes(s: string): (b: seq<JByte>)
    requires forall i :: 0 <= i < |s| ==> s[i] as int < 128
    ensures |b| == |s| && forall i :: 0 <= i < |s| ==> b[i] == s[i] as int
  {
    if s == [] then [] else [s[0] as int as JByte] + AsciiBytes(s[1..])
  }

  /**
   * `new String(value, UTF_8).equals("Hit") || ... equals("Miss")`. Decoding replaces malformed
   * input by U+FFFD and decodes every multi-byte sequence to a non-ASCII character, so the decoded
   * text equals an ASCII word exactly when the bytes are that word's ASCII bytes.
   */
  predicate IsHitOrMiss(value: seq<JByte>) {
    value == AsciiBytes("Hit") || value == AsciiBytes("Miss")
  }

  /** The search loop of `containsHitOrMissBinaryAnnotation`. */
  function ContainsHitOrMissBinaryAnnotation(bs: seq<BinaryAnnotation>): (b: bool)
    ensures b <==> exists i :: 0 <= i < |bs| && IsHitOrMiss(bs[i].value)
  {
    if bs == [] then false
    else if IsHitOrMiss(bs[0].value) then true
    else
      var rest := ContainsHitOrMissBinaryAnnotation(bs[1..]);
      assert forall i :: 1 <= i < |bs| ==> bs[i] == bs[1..][i - 1];
      rest
  }

  /** The search loop of `containsFinagleFlushAnnotation`. */
  function ContainsFinagleFlushAnnotation(anns: seq<Annotation>): (b: bool)
    ensures b <==> exists i :: 0 <= i < |anns| && anns[i].value == FINAGLE_FLUSH
  {
    if anns == [] then false
    else if anns[0].value == FINAGLE_FLUSH then true
    else
      var rest := ContainsFinagleFlushAnnotation(anns[1..]);
      assert forall i :: 1 <= i < |anns| ==> anns[i] == anns[1..][i - 1];
      rest
  }

  function ShouldAdjust(span: Span): (b: bool)
    ensures b <==>
      (exists i :: 0 <= i < |span.annotations| && span.annotations[i].value == FINAGLE_FLUSH) &&
      (exists i :: 0 <= i < |span.binaryAnnotations| && IsHitOrMiss(span.binaryAnnotations[i].value))
  {
    ContainsFinagleFlushAnnotation(span.annotations)
      && ContainsHitOrMissBinaryAnnotation(span.binaryAnnotations)
  }

  /** The annotations the adjusted span keeps: every non-flush annotation, in order. */
  function WithoutFlush(anns: seq<Annotation>): seq<Annotation> {
    if anns == [] then []
    else
      var init := WithoutFlush(anns[..|anns| - 1]);
      var last := anns[|anns| - 1];
      if last.value != FINAGLE_FLUSH then init + [last] else init
  }

  /** `adjust(span)`: the same span with its flush annotations removed. */
  function AdjustSpan(span: Span): Span {
    span.(annotations := WithoutFlush(span.annotations))
  }

  /** `adjust(span)` as the source writes it: a loop filling a new list. */
  method Adjust(span: Span) returns (r: Span)
    ensures r == AdjustSpan(span)
  {
    var annotations: seq<Annotation> := [];
    var i := 0;
    while i < |span.annotations|
      invariant 0 <= i <= |span.annotations|
      invariant annotations == WithoutFlush(span.annotations[..i])
    {
      var a := span.annotations[i];
      assert span.annotations[..i + 1][..i] == span.annotations[..i];
      if a.value != FINAGLE_FLUSH {
        annotations := annotations + [a];
      }
      i := i + 1;
    }
    assert span.annotations[..i] == span.annotations;
    r := span.(annotations := annotations);
  }

  /** Filtering distributes over concatenation, so the kept annotations stay in their order. */
  lemma {:induction false} WithoutFlushAppend(xs: seq<Annotation>, ys: seq<Annotation>)
    ensures WithoutFlush(xs + ys) == WithoutFlush(xs) + WithoutFlush(ys)
    decreases |ys|
  {
    if ys == [] {
      assert xs + ys == xs;
    } else {
      var init := ys[..|ys| - 1];
      assert (xs + ys)[..|xs + ys| - 1] == xs + init;
      WithoutFlushAppend(xs, init);
    }
  }

  /** An annotation is kept exactly when it was there and is not a flush annotation. */
  lemma {:induction false} WithoutFlushMembers(anns: seq<Annotation>)
    ensures forall a :: a in WithoutFlush(anns) <==> a in anns && a.value != FINAGLE_FLUSH
  {
    if anns != [] {
      var init := anns[..|anns| - 1];
      WithoutFlushMembers(init);
      assert anns == init + [anns[|anns| - 1]];
    }
  }

  /** Annotations without a flush value are left exactly as they were. */
  lemma {:induction false} WithoutFlushNoop(anns: seq<Annotation>)
    requires forall i :: 0 <= i < |anns| ==> anns[i].value != FINAGLE_FLUSH
    ensures WithoutFlush(anns) == anns
  {
    if anns != [] {
      var init := anns[..|anns| - 1];
      WithoutFlushNoop(init);
      assert anns == init + [anns[|anns| - 1]];
    }
  }

  /** No flush annotation survives, and only the annotations change. */
  lemma AdjustSpanRemovesFlush(span: Span)
    ensures !ContainsFinagleFlushAnnotation(AdjustSpan(span).annotations)
    ensures AdjustSpan(span) == span.(annotations := AdjustSpan(span).annotations)
  {
    WithoutFlushMembers(span.annotations);
    var r := AdjustSpan(span).annotations;
    forall i | 0 <= i < |r| ensures r[i].value != FINAGLE_FLUSH {
      assert r[i] in r;
    }
  }

  /** Once adjusted, a span no longer qualifies, and adjusting it again changes nothing. */
  lemma AdjustSpanIdempotent(span: Span)
    ensures !ShouldAdjust(AdjustSpan(span))
    ensures AdjustSpan(AdjustSpan(span)) == AdjustSpan(span)
  {
    AdjustSpanRemovesFlush(span);
    var r := AdjustSpan(span).annotations;
    WithoutFlushNoop(r);
  }

  /** A memcached span carrying one trailing flush annotation becomes the span without it. */
  lemma TrailingFlushRemoved(span: Span, flush: Annotation)
    requires flush.value == FINAGLE_FLUSH
    requires forall i :: 0 <= i < |span.annotations| ==> span.annotations[i].value != FINAGLE_FLUSH
    ensures AdjustSpan(span.(annotations := span.annotations + [flush])) == span
  {
    WithoutFlushAppend(span.annotations, [flush]);
    assert WithoutFlush([flush]) == [] by {
      assert [flush][..0] == [];
    }
    WithoutFlushNoop(span.annotations);
  }
}
