/** The ring arithmetic of a stream buffer, and the framing of messages inside the byte stream. */
module Framing {
  import opened Options
  import opened Ring
  import opened Ticks

  function Min(a: nat, b: nat): nat {
    if a < b then a else b
  }

  /** prvBytesInBuffer: the distance from tail to head. */
  function Distance(head: nat, tail: nat, length: nat): nat
    requires head < length && tail < length
  {
    if head >= tail then head - tail else length + head - tail
  }

  /** `n` bytes from `start` onwards, round the end. */
  function Span(bytes: seq<Byte>, start: nat, n: nat): (r: seq<Byte>)
    requires start < |bytes| && n <= |bytes|
    ensures |r| == n
    ensures forall i :: 0 <= i < n ==> r[i] == bytes[Wrap(start + i, |bytes|)]
  {
    if start + n <= |bytes| then bytes[start..start + n] else bytes[start..] + bytes[..start + n - |bytes|]
  }

  lemma SpanSplits(bytes: seq<Byte>, start: nat, m: nat, n: nat)
    requires start < |bytes| && m + n <= |bytes|
    ensures Wrap(start + m, |bytes|) < |bytes|
    ensures Span(bytes, start, m + n) == Span(bytes, start, m) + Span(bytes, Wrap(start + m, |bytes|), n)
  {
    hide Span;
    var whole, a, b := Span(bytes, start, m + n), Span(bytes, start, m), Span(bytes, Wrap(start + m, |bytes|), n);
    forall i | 0 <= i < m + n
      ensures whole[i] == (a + b)[i]
    {
      if i >= m {
        assert Wrap(Wrap(start + m, |bytes|) + (i - m), |bytes|) == Wrap(start + i, |bytes|);
      }
    }
  }

  /** A frame: the length in four bytes, least significant first, then the bytes themselves. */
  function LengthBytes(n: nat): (r: seq<Byte>)
    requires n < WORD
    ensures |r| == 4
  {
    [n % 256, n / 256 % 256, n / 65536 % 256, n / 16777216]
  }

  function LengthOf(bytes: seq<Byte>): nat
    requires |bytes| >= 4
  {
    var a: nat, b: nat, c: nat, d: nat := bytes[0], bytes[1], bytes[2], bytes[3];
    a + 256 * b + 65536 * c + 16777216 * d
  }

  lemma LengthRoundTrip(n: nat)
    requires n < WORD
    ensures LengthOf(LengthBytes(n)) == n
  {
    var q, r := n / 256, n % 256;
    assert n / 65536 == q / 256 && n / 16777216 == q / 65536 && q / 65536 == q / 256 / 256;
    assert q / 256 == 256 * (q / 65536) + q / 256 % 256;
  }

  ghost predicate Sendable(m: seq<Byte>) {
    0 < |m| < WORD
  }

  function Frame(m: seq<Byte>): seq<Byte>
    requires |m| < WORD
  {
    LengthBytes(|m|) + m
  }

  /** Reads a byte string as whole, non-empty frames. */
  function Parse(bytes: seq<Byte>): Option<seq<seq<Byte>>>
    decreases |bytes|
  {
    if bytes == [] then Some([])
    else if |bytes| < 4 || LengthOf(bytes) == 0 || |bytes| - 4 < LengthOf(bytes) then None
    else
      var n := LengthOf(bytes);
      match Parse(bytes[4 + n..])
      case None => None
      case Some(rest) => Some([bytes[4..4 + n]] + rest)
  }

  lemma FrameHead(m: seq<Byte>, rest: seq<Byte>)
    requires Sendable(m)
    ensures LengthOf(Frame(m) + rest) == |m| && |Frame(m)| == 4 + |m|
    ensures (Frame(m) + rest)[4..4 + |m|] == m && (Frame(m) + rest)[4 + |m|..] == rest
  {
    LengthRoundTrip(|m|);
  }

  /** A frame in front of frames is parsed first. */
  lemma {:induction false} ParseFirst(m: seq<Byte>, rest: seq<Byte>)
    requires Sendable(m) && Parse(rest).Some?
    ensures Parse(Frame(m) + rest) == Some([m] + Parse(rest).value)
  {
    hide LengthOf;
    FrameHead(m, rest);
  }

  /** A frame behind frames is parsed last. */
  lemma {:induction false} ParseLast(bytes: seq<Byte>, m: seq<Byte>)
    requires Parse(bytes).Some? && Sendable(m)
    ensures Parse(bytes + Frame(m)) == Some(Parse(bytes).value + [m])
    decreases |bytes|
  {
    hide LengthOf, Frame;
    if bytes == [] {
      ParseFirst(m, []);
      assert bytes + Frame(m) == Frame(m) + [];
      assert Parse(bytes).value == [] && [m] + [] == [] + [m];
    } else {
      var n := LengthOf(bytes);
      var rest, all := bytes[4 + n..], bytes + Frame(m);
      LengthOfPrefix(bytes, Frame(m));
      ParseLast(rest, m);
      assert all[4 + n..] == rest + Frame(m);
      assert all[4..4 + n] == bytes[4..4 + n];
      assert [bytes[4..4 + n]] + (Parse(rest).value + [m]) == ([bytes[4..4 + n]] + Parse(rest).value) + [m];
    }
  }

  lemma LengthOfPrefix(a: seq<Byte>, b: seq<Byte>)
    requires |a| >= 4
    ensures LengthOf(a + b) == LengthOf(a)
  {
    assert (a + b)[0] == a[0] && (a + b)[1] == a[1] && (a + b)[2] == a[2] && (a + b)[3] == a[3];
  }

  /** What parses starts with the frame of its first message. */
  lemma ParsedHead(bytes: seq<Byte>)
    requires Parse(bytes).Some? && bytes != []
    ensures |bytes| > 4 && 0 < LengthOf(bytes) <= |bytes| - 4 && Parse(bytes).value != []
    ensures Parse(bytes).value[0] == bytes[4..4 + LengthOf(bytes)]
    ensures Parse(bytes[4 + LengthOf(bytes)..]) == Some(Parse(bytes).value[1..])
  {
  }

  /** Slot `i` is one of the `n` slots from `from` on. */
  predicate InSpan(i: nat, from: nat, n: nat, length: nat) {
    (from <= i && i < from + n) || i + length < from + n
  }

  /** Bytes written behind the published ones extend them. */
  lemma Appended(was: seq<Byte>, now: seq<Byte>, tail: nat, d: nat, data: seq<Byte>)
    requires |was| == |now| && tail < |was| && d + |data| < |was|
    requires Span(now, Wrap(tail + d, |was|), |data|) == data
    requires forall i :: 0 <= i < |was| && !InSpan(i, Wrap(tail + d, |was|), |data|, |was|) ==> now[i] == was[i]
    ensures Span(now, tail, d + |data|) == Span(was, tail, d) + data
    ensures Distance(Wrap(Wrap(tail + d, |was|) + |data|, |was|), tail, |was|) == d + |data|
  {
    Untouched(was, now, tail, d, |data|);
    SpanSplits(now, tail, d, |data|);
  }

  /** Bytes written behind the published ones leave them alone. */
  lemma Untouched(was: seq<Byte>, now: seq<Byte>, tail: nat, d: nat, n: nat)
    requires |was| == |now| && tail < |was| && d + n < |was|
    requires forall i :: 0 <= i < |was| && !InSpan(i, Wrap(tail + d, |was|), n, |was|) ==> now[i] == was[i]
    ensures Span(now, tail, d) == Span(was, tail, d)
  {
    var a, b := Span(now, tail, d), Span(was, tail, d);
    assert forall i :: 0 <= i < d ==> a[i] == b[i];
  }

  lemma WrittenTwice(was: seq<Byte>, mid: seq<Byte>, now: seq<Byte>, from: nat, a: seq<Byte>, b: seq<Byte>)
    requires |was| == |mid| == |now| && from < |was| && |a| + |b| < |was|
    requires Span(mid, from, |a|) == a && Span(now, Wrap(from + |a|, |was|), |b|) == b
    requires forall i :: 0 <= i < |was| && !InSpan(i, from, |a|, |was|) ==> mid[i] == was[i]
    requires forall i :: 0 <= i < |was| && !InSpan(i, Wrap(from + |a|, |was|), |b|, |was|) ==> now[i] == mid[i]
    ensures Span(now, from, |a + b|) == a + b
    ensures forall i :: 0 <= i < |was| && !InSpan(i, from, |a + b|, |was|) ==> now[i] == was[i]
    ensures Wrap(Wrap(from + |a|, |was|) + |b|, |was|) == Wrap(from + |a + b|, |was|)
  {
    hide Span;
    SpanSplits(now, from, |a|, |b|);
    Untouched(mid, now, from, |a|, |b|);
  }

  lemma SpanMiddle(bytes: seq<Byte>, tail: nat, d: nat, skip: nat, count: nat)
    requires tail < |bytes| && skip + count <= d < |bytes|
    ensures Wrap(tail + skip, |bytes|) < |bytes|
    ensures Span(bytes, Wrap(tail + skip, |bytes|), count) == Span(bytes, tail, d)[skip..skip + count]
  {
    hide Span;
    var a, b := Span(bytes, Wrap(tail + skip, |bytes|), count), Span(bytes, tail, d)[skip..skip + count];
    forall i | 0 <= i < count
      ensures a[i] == b[i]
    {
      assert b[i] == Span(bytes, tail, d)[skip + i];
    }
  }

  lemma Consumed(bytes: seq<Byte>, tail: nat, d: nat, skip: nat, count: nat)
    requires tail < |bytes| && skip + count <= d < |bytes|
    ensures Wrap(tail + skip, |bytes|) < |bytes| && Wrap(tail + skip + count, |bytes|) < |bytes|
    ensures Wrap(Wrap(tail + skip, |bytes|) + count, |bytes|) == Wrap(tail + skip + count, |bytes|)
    ensures Span(bytes, Wrap(tail + skip, |bytes|), count) == Span(bytes, tail, d)[skip..skip + count]
    ensures Span(bytes, Wrap(tail + skip + count, |bytes|), d - skip - count) == Span(bytes, tail, d)[skip + count..]
  {
    hide Span;
    SpanMiddle(bytes, tail, d, skip, count);
    SpanMiddle(bytes, tail, d, skip + count, d - skip - count);
  }

  lemma DistanceAfter(head: nat, tail: nat, length: nat, n: nat)
    requires head < length && tail < length && n <= Distance(head, tail, length)
    ensures Wrap(tail + n, length) < length
    ensures Distance(head, Wrap(tail + n, length), length) == Distance(head, tail, length) - n
  {
  }
}
