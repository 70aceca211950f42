/** Stream and message buffers, run without interleaving: a byte ring with one slot always free,
    and whole messages on top of it. */
module StreamBuffer {
  import opened Framing
  import opened Ring
  import opened Ticks

  class StreamBuffer {
    const length: nat
    const buffer: array<Byte>
    const isMessageBuffer: bool
    var head: nat
    var tail: nat

    /** Indexes fit the size type even when the length is added once more. */
    ghost predicate Valid()
      reads this, buffer
    {
      && 1 < length && 2 * length <= WORD && buffer.Length == length
      && head < length && tail < length
      && (isMessageBuffer ==> Parse(Published()).Some?)
    }

    ghost predicate InRange()
      reads this
    {
      1 < length && 2 * length <= WORD && buffer.Length == length && head < length && tail < length
    }

    /** The bytes between tail and head. */
    ghost function Published(): seq<Byte>
      requires InRange()
      reads this, buffer
    {
      Span(buffer[..], tail, Distance(head, tail, length))
    }

    ghost function Messages(): seq<seq<Byte>>
      requires Valid() && isMessageBuffer
      reads this, buffer
    {
      Parse(Published()).value
    }

    constructor (length: nat, isMessageBuffer: bool)
      requires 1 < length && 2 * length <= WORD
      ensures Valid() && fresh(buffer) && Published() == []
      ensures this.length == length && this.isMessageBuffer == isMessageBuffer
    {
      this.length, this.isMessageBuffer := length, isMessageBuffer;
      buffer := new Byte[length](_ => 0);
      head, tail := 0, 0;
    }

    /** prvBytesInBuffer */
    method BytesInBuffer() returns (n: nat)
      requires InRange()
      ensures n == |Published()| < length
    {
      n := length + head;
      n := n - tail;
      if n >= length {
        n := n - length;
      }
    }

    /** xStreamBufferSpacesAvailable, when nothing else moves the tail. */
    method SpacesAvailable() returns (n: nat)
      requires InRange()
      ensures n + |Published()| == length - 1
    {
      n := length + tail;
      n := n - head;
      n := n - 1;
      if n >= length {
        n := n - length;
      }
    }

    /** prvWriteBytesToBuffer: the bytes go into the slots from `from` on, and no other slot is
        touched; the head is not moved. */
    method WriteBytes(data: seq<Byte>, from: nat) returns (next: nat)
      requires InRange() && from < length && |data| < length
      modifies buffer
      ensures next == Wrap(from + |data|, length)
      ensures Span(buffer[..], from, |data|) == data
      ensures forall i :: 0 <= i < length && !InSpan(i, from, |data|, length) ==> buffer[i] == old(buffer[i])
    {
      var first := Min(length - from, |data|);
      for i := 0 to first
        invariant forall j :: 0 <= j < i ==> buffer[from + j] == data[j]
        invariant forall j :: 0 <= j < length && !InSpan(j, from, |data|, length) ==> buffer[j] == old(buffer[j])
      {
        buffer[from + i] := data[i];
      }
      if |data| > first {
        for i := 0 to |data| - first
          invariant forall j :: 0 <= j < first ==> buffer[from + j] == data[j]
          invariant forall j :: 0 <= j < i ==> buffer[j] == data[first + j]
          invariant forall j :: 0 <= j < length && !InSpan(j, from, |data|, length) ==> buffer[j] == old(buffer[j])
        {
          buffer[i] := data[first + i];
        }
      }
      next := from + |data|;
      if next >= length {
        next := next - length;
      }
      assert forall i :: 0 <= i < |data| ==> Span(buffer[..], from, |data|)[i] == data[i];
    }

    /** prvReadBytesFromBuffer; the tail is not moved. */
    method ReadBytes(count: nat, from: nat) returns (data: seq<Byte>, next: nat)
      requires InRange() && from < length && count < length
      ensures data == Span(buffer[..], from, count) && next == Wrap(from + count, length)
    {
      var first := Min(length - from, count);
      data := buffer[from..from + first];
      if count > first {
        data := data + buffer[..count - first];
      }
      next := from + count;
      if next >= length {
        next := next - length;
      }
    }

    /** Writes behind the published bytes and then moves the head. */
    method Append(data: seq<Byte>)
      requires InRange() && 0 < |data| && |data| + |Published()| < length
      modifies buffer, `head
      ensures InRange() && Published() == old(Published()) + data
    {
      ghost var was, d := buffer[..], |Published()|;
      var next := WriteBytes(data, head);
      Appended(was, buffer[..], tail, d, data);
      head := next;
    }

    /** Writes a length word and a payload, and moves the head once, after both. */
    method AppendFrame(data: seq<Byte>)
      requires InRange() && Sendable(data) && 4 + |data| + |Published()| < length
      modifies buffer, `head
      ensures InRange() && Published() == old(Published()) + Frame(data)
    {
      hide LengthBytes, Span;
      ghost var was, d := buffer[..], |Published()|;
      assert head == Wrap(tail + d, length);
      var next := WriteBytes(LengthBytes(|data|), head);
      ghost var mid := buffer[..];
      next := WriteBytes(data, next);
      WrittenTwice(was, mid, buffer[..], head, LengthBytes(|data|), data);
      Appended(was, buffer[..], tail, d, Frame(data));
      head := next;
    }

    /** prvWriteMessageToBuffer, given a space that is really there.  A message is written whole or
        not at all, an empty one not at all. */
    method WriteMessage(data: seq<Byte>, space: nat, required: nat) returns (sent: nat)
      requires Valid() && |data| < WORD && space + |Published()| < length
      requires isMessageBuffer ==> required == |data| + 4
      modifies buffer, `head
      ensures Valid()
      ensures !isMessageBuffer ==> sent == Min(|data|, space) && Published() == old(Published()) + data[..sent]
      ensures isMessageBuffer ==> sent == if required <= space then |data| else 0
      ensures isMessageBuffer && sent == 0 ==> Published() == old(Published()) && Messages() == old(Messages())
      ensures isMessageBuffer && sent > 0 ==> Messages() == old(Messages()) + [data]
    {
      hide LengthBytes, LengthOf, Parse, Span;
      ghost var was, d := buffer[..], |Published()|;
      sent := 0;
      if isMessageBuffer {
        if space >= required {
          if data == [] {
            var unused := WriteBytes(LengthBytes(|data|), head);
            Untouched(was, buffer[..], tail, d, 4);
          } else {
            ParseLast(Published(), data);
            AppendFrame(data);
            sent := |data|;
          }
        }
      } else {
        sent := Min(|data|, space);
        if sent != 0 {
          Append(data[..sent]);
        }
      }
    }

    /** xStreamBufferSend without a block time, and xStreamBufferSendFromISR. */
    method Send(data: seq<Byte>) returns (sent: nat)
      requires Valid() && |data| + 4 < WORD
      modifies buffer, `head
      ensures Valid()
      ensures !isMessageBuffer ==>
        sent == Min(|data|, length - 1 - |old(Published())|) && Published() == old(Published()) + data[..sent]
      ensures isMessageBuffer ==>
        && sent == (if |data| + 4 + |old(Published())| < length then |data| else 0)
        && Messages() == old(Messages()) + (if sent > 0 then [data] else [])
    {
      hide Parse, Span;
      var required := |data|;
      if isMessageBuffer {
        required := required + 4;
      } else if required > length - 1 {
        required := length - 1;
      }
      var space := SpacesAvailable();
      sent := WriteMessage(data, space, required);
    }

    /** Reads from the tail and then moves it. */
    method Consume(count: nat, skip: nat) returns (data: seq<Byte>)
      requires InRange() && 0 < count && skip + count <= |Published()|
      modifies `tail
      ensures InRange() && data == old(Published())[skip..skip + count]
      ensures Published() == old(Published())[skip + count..]
    {
      hide Span;
      ghost var d := |Published()|;
      Consumed(buffer[..], tail, d, skip, count);
      DistanceAfter(head, tail, length, skip + count);
      var next: nat;
      data, next := ReadBytes(count, Wrap(tail + skip, length));
      tail := next;
    }

    /** prvReadMessageFromBuffer, when more than a length word is there.  A message that does not
        fit the caller's buffer stays where it is, and `Min` never cuts a message short. */
    method ReadMessage(limit: nat, available: nat) returns (data: seq<Byte>)
      requires Valid() && available == |Published()| > if isMessageBuffer then 4 else 0
      modifies `tail
      ensures Valid()
      ensures !isMessageBuffer ==>
        data == old(Published())[..Min(limit, available)] && Published() == old(Published())[Min(limit, available)..]
      ensures isMessageBuffer && |old(Messages())[0]| <= limit ==>
        data == old(Messages())[0] && Messages() == old(Messages())[1..]
      ensures isMessageBuffer && |old(Messages())[0]| > limit ==>
        data == [] && Messages() == old(Messages()) && Published() == old(Published())
    {
      hide LengthOf, Span;
      ghost var bytes := Published();
      data := [];
      if isMessageBuffer {
        ParsedHead(bytes);
        SpanSplits(buffer[..], tail, 4, available - 4);
        var word, next := ReadBytes(4, tail);
        assert bytes[..4] == word;
        LengthOfPrefix(word, bytes[4..]);
        assert bytes == word + bytes[4..];
        var n := LengthOf(word);
        if n > limit {
          n := 0;
        }
        var count := Min(n, available - 4);
        if count != 0 {
          data := Consume(count, 4);
        }
      } else {
        var count := Min(limit, available);
        if count != 0 {
          data := Consume(count, 0);
        }
      }
    }

    /** xStreamBufferReceive without a block time, and xStreamBufferReceiveFromISR. */
    method Receive(limit: nat) returns (data: seq<Byte>)
      requires Valid()
      modifies `tail
      ensures Valid()
      ensures !isMessageBuffer ==> data + Published() == old(Published()) && |data| == Min(limit, |old(Published())|)
      ensures isMessageBuffer ==> (data == [] <==> old(Messages()) == [] || |old(Messages())[0]| > limit)
      ensures isMessageBuffer ==> (if data == [] then [] else [data]) + Messages() == old(Messages())
    {
      hide LengthOf, Span;
      data := [];
      ghost var bytes := Published();
      if isMessageBuffer && bytes != [] {
        ParsedHead(bytes);
      }
      var available := BytesInBuffer();
      if available > if isMessageBuffer then 4 else 0 {
        data := ReadMessage(limit, available);
      }
    }

    /** xStreamBufferNextMessageLengthBytes */
    method NextMessageLength() returns (n: nat)
      requires Valid()
      ensures n == if isMessageBuffer && Messages() != [] then |Messages()[0]| else 0
    {
      hide LengthOf, Span;
      n := 0;
      if isMessageBuffer {
        ghost var bytes := Published();
        var available := BytesInBuffer();
        if bytes != [] {
          ParsedHead(bytes);
        }
        if available > 4 {
          SpanSplits(buffer[..], tail, 4, available - 4);
          var word, next := ReadBytes(4, tail);
          LengthOfPrefix(word, bytes[4..]);
          assert bytes == word + bytes[4..];
          n := LengthOf(word);
        }
      }
    }
  }
}
