/**
 * `Util.toLowerHex(high, low)` of the zipkin library: the grouping key of a trace. The low
 * half is written as 16 lower-case hex digits, prefixed by 16 more for the high half when
 * the high half is non-zero.
 */
module LowerHex {
  import opened Spans

  const TWO_64: int := 0x1_0000_0000_0000_0000

  /** The two's-complement bit pattern of a long, as an unsigned number. */
  function Unsigned(x: Long): (u: nat)
    ensures u < TWO_64
  {
    if x < 0 then x + TWO_64 else x
  }

  function HexChar(d: nat): char
    requires d < 16
  {
    "0123456789abcdef"[d]
  }

  predicate IsHexChar(c: char) {
    ('0' <= c <= '9') || ('a' <= c <= 'f')
  }

  function HexValue(c: char): nat
    requires IsHexChar(c)
  {
    if '0' <= c <= '9' then (c as int - '0' as int) as nat else (c as int - 'a' as int + 10) as nat
  }

  function Pow16(n: nat): (p: nat)
    ensures p > 0
  {
    if n == 0 then 1 else 16 * Pow16(n - 1)
  }

  /** The `n` lowest hex digits of `v`, most significant first. */
  function Hex(v: nat, n: nat): (s: string)
    ensures |s| == n
    ensures forall i :: 0 <= i < n ==> IsHexChar(s[i])
  {
    if n == 0 then [] else Hex(v / 16, n - 1) + [HexChar(v % 16)]
  }

  function ParseHex(s: string): nat
    requires forall i :: 0 <= i < |s| ==> IsHexChar(s[i])
  {
    if s == [] then 0 else ParseHex(s[..|s| - 1]) * 16 + HexValue(s[|s| - 1])
  }

  lemma HexCharValue(d: nat)
    requires d < 16
    ensures IsHexChar(HexChar(d)) && HexValue(HexChar(d)) == d
  {
  }

  lemma DivBelow(v: nat, p: nat)
    requires v < 16 * p
    ensures v / 16 < p
  {
  }

  /** `n` hex digits represent every value below 16^n exactly. */
  lemma {:induction false} HexRoundTrip(v: nat, n: nat)
    requires v < Pow16(n)
    ensures ParseHex(Hex(v, n)) == v
  {
    if n > 0 {
      DivBelow(v, Pow16(n - 1));
      HexRoundTrip(v / 16, n - 1);
      HexCharValue(v % 16);
      var s := Hex(v, n);
      assert s[..|s| - 1] == Hex(v / 16, n - 1);
    }
  }

  lemma Pow16Of16()
    ensures Pow16(16) == TWO_64
  {
    assert Pow16(1) == 0x10;
    assert Pow16(2) == 0x100;
    assert Pow16(3) == 0x1000;
    assert Pow16(4) == 0x10000;
    assert Pow16(5) == 0x100000;
    assert Pow16(6) == 0x1000000;
    assert Pow16(7) == 0x10000000;
    assert Pow16(8) == 0x100000000;
    assert Pow16(9) == 0x1000000000;
    assert Pow16(10) == 0x10000000000;
    assert Pow16(11) == 0x100000000000;
    assert Pow16(12) == 0x1000000000000;
    assert Pow16(13) == 0x10000000000000;
    assert Pow16(14) == 0x100000000000000;
    assert Pow16(15) == 0x1000000000000000;
    assert Pow16(16) == 0x10000000000000000;
  }

  function Hex16(x: Long): (s: string)
    ensures |s| == 16
  {
    Hex(Unsigned(x), 16)
  }

  lemma Hex16Injective(a: Long, b: Long)
    requires Hex16(a) == Hex16(b)
    ensures a == b
  {
    Pow16Of16();
    HexRoundTrip(Unsigned(a), 16);
    HexRoundTrip(Unsigned(b), 16);
  }

  function ToLowerHex(high: Long, low: Long): (s: string)
    ensures |s| == if high != 0 then 32 else 16
  {
    if high != 0 then Hex16(high) + Hex16(low) else Hex16(low)
  }

  /** Distinct 128-bit trace IDs never share a key, so grouping by key is grouping by ID. */
  lemma ToLowerHexInjective(h1: Long, l1: Long, h2: Long, l2: Long)
    ensures ToLowerHex(h1, l1) == ToLowerHex(h2, l2) <==> h1 == h2 && l1 == l2
  {
    if ToLowerHex(h1, l1) == ToLowerHex(h2, l2) {
      var s := ToLowerHex(h1, l1);
      if h1 != 0 {
        assert h2 != 0;
        assert s[..16] == Hex16(h1) && s[..16] == Hex16(h2);
        assert s[16..] == Hex16(l1) && s[16..] == Hex16(l2);
        Hex16Injective(h1, h2);
        Hex16Injective(l1, l2);
      } else {
        assert h2 == 0;
        Hex16Injective(l1, l2);
      }
    }
  }
}
