// Base-128 varints as crates/mmpf-pmtiles/src/format.rs reads them. The source
// accumulates with shifts and bit-or; the accumulated value is always below
// 2^shift, so the or is an addition, which is how it is written here.
module Varint {
  import opened Types

  newtype byte = x: int | 0 <= x < 256

  function Pow128(k: nat): (p: nat)
    ensures p >= 1
  {
    if k == 0 then 1 else 128 * Pow128(k - 1)
  }

  function Payload(b: byte): (p: nat)
    ensures p < 128
  {
    (b as int) % 128
  }

  predicate Continues(b: byte)
  {
    b >= 128
  }

  // The number a group of bytes spells, least significant group first.
  function Spelled(bytes: seq<byte>): (v: nat)
  {
    if bytes == [] then 0 else Payload(bytes[0]) + 128 * Spelled(bytes[1..])
  }

  // `bytes` is one complete varint: exactly its last byte does not continue.
  ghost predicate Complete(bytes: seq<byte>)
  {
    bytes != [] && !Continues(bytes[|bytes| - 1])
    && forall i :: 0 <= i < |bytes| - 1 ==> Continues(bytes[i])
  }

  lemma {:induction false} SpelledAppend(a: seq<byte>, b: byte)
    ensures Spelled(a + [b]) == Spelled(a) + Payload(b) * Pow128(|a|)
  {
    if a == [] {
      assert a + [b] == [b];
    } else {
      assert (a + [b])[1..] == a[1..] + [b];
      SpelledAppend(a[1..], b);
    }
  }

  lemma {:induction false} SpelledBound(a: seq<byte>)
    ensures Spelled(a) < Pow128(|a|)
  {
    if a != [] {
      SpelledBound(a[1..]);
    }
  }

  lemma Pow128Nine()
    ensures Pow128(9) == 0x8000_0000_0000_0000
  {
    assert Pow128(4) == 128 * 128 * 128 * 128;
    assert Pow128(5) == 128 * Pow128(4);
    assert Pow128(6) == 128 * Pow128(5);
    assert Pow128(7) == 128 * Pow128(6);
    assert Pow128(8) == 128 * Pow128(7);
    assert Pow128(9) == 128 * Pow128(8);
  }

  // The first `k` bytes are a varint that spells the 64-bit number `v`.
  ghost predicate Decodes(buf: seq<byte>, k: nat, v: nat)
  {
    k <= |buf| && k <= 10 && Complete(buf[..k]) && v == Spelled(buf[..k]) && v < U64_LIMIT
  }

  // Bytes up to and including the first one that does not continue.
  function Span(buf: seq<byte>): (k: nat)
    ensures k <= |buf|
  {
    if buf == [] then 0 else if !Continues(buf[0]) then 1 else 1 + Span(buf[1..])
  }

  lemma {:induction false} SpanOf(buf: seq<byte>, n: nat)
    requires n < |buf| && !Continues(buf[n]) && forall i :: 0 <= i < n ==> Continues(buf[i])
    ensures Span(buf) == n + 1
  {
    if n > 0 {
      SpanOf(buf[1..], n - 1);
    }
  }

  // The answer of a read at the front of `buf`: the value and the bytes used.
  function ReadAt(buf: seq<byte>): (r: Option<(nat, nat)>)
    ensures r.Some? ==> 0 < r.value.1 <= |buf| && r.value.0 < U64_LIMIT
  {
    var k := Span(buf);
    if 0 < k <= 10 && !Continues(buf[k - 1]) && Spelled(buf[..k]) < U64_LIMIT then Some((Spelled(buf[..k]), k)) else None
  }

  lemma {:induction false} SpanRuns(buf: seq<byte>)
    ensures forall i :: 0 <= i < Span(buf) - 1 ==> Continues(buf[i])
  {
    if buf != [] && Continues(buf[0]) {
      SpanRuns(buf[1..]);
      forall i | 0 <= i < Span(buf) - 1 ensures Continues(buf[i]) {
        assert i > 0 ==> buf[i] == buf[1..][i - 1];
      }
    }
  }

  // A read succeeds precisely when a varint of at most ten bytes stands at the
  // front and fits in 64 bits, and then it answers exactly that number.
  lemma ReadAtExact(buf: seq<byte>, v: nat, k: nat)
    ensures ReadAt(buf) == Some((v, k)) <==> Decodes(buf, k, v)
  {
    SpanRuns(buf);
    if Decodes(buf, k, v) {
      assert buf[..k][k - 1] == buf[k - 1];
      forall i | 0 <= i < k - 1 ensures Continues(buf[i]) {
        assert buf[..k][i] == buf[i];
      }
      SpanOf(buf, k - 1);
    }
  }

  // The reading loop.
  method ReadVarint(buf: seq<byte>) returns (r: Option<nat>, rest: seq<byte>)
    ensures r.Some? <==> ReadAt(buf).Some?
    ensures r.Some? ==> r.value == ReadAt(buf).value.0 && rest == buf[ReadAt(buf).value.1..]
  {
    var shift := 0;
    var value := 0;
    var scale := 1;
    ghost var n := 0;
    rest := buf;
    assert Spelled(buf[..0]) == 0 && Pow128(0) == 1;
    hide Spelled, Span, ReadAt, Pow128, Payload;
    while true
      invariant n <= 9 && n <= |buf| && rest == buf[n..]
      invariant shift == 7 * n && scale == Pow128(n) && value == Spelled(buf[..n])
      invariant forall i :: 0 <= i < n ==> Continues(buf[i])
      decreases 10 - n
    {
      if rest == [] {
        NoVarint(buf, n);
        return None, rest;
      }
      var b := rest[0];
      rest := rest[1..];
      var payload := Payload(b);
      Grows(buf, n);
      if shift == 63 && payload > 1 {
        TenthByte(buf);
        return None, rest;
      }
      value := value + payload * scale;
      if !Continues(b) {
        Ends(buf, n);
        return Some(value), rest;
      }
      shift := shift + 7;
      n := n + 1;
      scale := 128 * scale;
      if shift >= 64 {
        NoVarint(buf, n);
        return None, rest;
      }
    }
  }

  lemma Grows(buf: seq<byte>, n: nat)
    requires n < |buf|
    ensures Spelled(buf[..n + 1]) == Spelled(buf[..n]) + Payload(buf[n]) * Pow128(n)
    ensures Pow128(n + 1) == 128 * Pow128(n)
  {
    assert buf[..n + 1] == buf[..n] + [buf[n]];
    SpelledAppend(buf[..n], buf[n]);
  }

  lemma Ends(buf: seq<byte>, n: nat)
    requires n <= 9 && n < |buf| && (n == 9 ==> Payload(buf[9]) <= 1)
    requires !Continues(buf[n]) && forall i :: 0 <= i < n ==> Continues(buf[i])
    ensures ReadAt(buf) == Some((Spelled(buf[..n + 1]), n + 1))
  {
    SpanOf(buf, n);
    FitsU64(buf, n);
  }

  lemma {:induction false} SpanAtLeast(buf: seq<byte>, n: nat)
    requires n <= |buf| && forall i :: 0 <= i < n ==> Continues(buf[i])
    ensures n <= Span(buf) && (n == |buf| || n < Span(buf))
  {
    if n > 0 {
      SpanAtLeast(buf[1..], n - 1);
    }
  }

  lemma NoVarint(buf: seq<byte>, n: nat)
    requires n <= |buf| && (n == |buf| || n == 10) && forall i :: 0 <= i < n ==> Continues(buf[i])
    ensures ReadAt(buf).None?
  {
    SpanAtLeast(buf, n);
  }

  // Ten groups spell a 64-bit number exactly when the last group is 0 or 1.
  lemma TenthByte(buf: seq<byte>)
    requires |buf| >= 10 && Payload(buf[9]) > 1 && forall i :: 0 <= i < 9 ==> Continues(buf[i])
    ensures ReadAt(buf).None?
  {
    Pow128Nine();
    assert buf[..10] == buf[..9] + [buf[9]];
    SpelledAppend(buf[..9], buf[9]);
    SpanAtLeast(buf, 9);
  }

  lemma FitsU64(buf: seq<byte>, n: nat)
    requires n <= 9 && n < |buf| && (n == 9 ==> Payload(buf[9]) <= 1)
    ensures Spelled(buf[..n + 1]) < U64_LIMIT
  {
    Pow128Nine();
    SpelledBound(buf[..n]);
    assert buf[..n + 1] == buf[..n] + [buf[n]];
    SpelledAppend(buf[..n], buf[n]);
    if n < 9 {
      SpelledBound(buf[..n + 1]);
      PowMonotone(n + 1, 9);
    }
  }

  lemma {:induction false} PowMonotone(a: nat, b: nat)
    requires a <= b
    ensures Pow128(a) <= Pow128(b)
    decreases b
  {
    if a < b {
      PowMonotone(a, b - 1);
    }
  }

  // ---- writing ----

  function Encode(v: nat): (s: seq<byte>)
    ensures s != []
  {
    if v < 128 then [v as byte] else [(128 + v % 128) as byte] + Encode(v / 128)
  }

  lemma {:induction false} EncodeComplete(v: nat)
    ensures Complete(Encode(v)) && Spelled(Encode(v)) == v
  {
    if v >= 128 {
      EncodeComplete(v / 128);
      var tail := Encode(v / 128);
      var s := Encode(v);
      assert s[1..] == tail;
      forall i | 0 <= i < |s| - 1 ensures Continues(s[i]) {
        assert i > 0 ==> s[i] == tail[i - 1];
      }
    }
  }

  lemma {:induction false} EncodeLength(v: nat, k: nat)
    requires v < Pow128(k) && 0 < k
    ensures |Encode(v)| <= k
  {
    if v >= 128 {
      EncodeLength(v / 128, k - 1);
    }
  }

  // Reading what was written gives the number back and stops right after it.
  lemma ReadEncoded(v: nat, rest: seq<byte>)
    requires v < U64_LIMIT
    ensures ReadAt(Encode(v) + rest) == Some((v, |Encode(v)|))
  {
    EncodeComplete(v);
    Pow128Nine();
    assert Pow128(10) == 128 * Pow128(9);
    EncodeLength(v, 10);
    assert (Encode(v) + rest)[..|Encode(v)|] == Encode(v);
    ReadAtExact(Encode(v) + rest, v, |Encode(v)|);
  }
}
