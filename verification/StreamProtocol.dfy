/** One writer and one reader on a stream buffer with nothing locked: they interleave at every load
    of an index, every byte copied and every store of an index. */
module StreamProtocol {
  import opened Framing
  import opened Options
  import opened Ring
  import opened Ticks

  datatype Config = Config(length: nat, messages: bool) {
    ghost predicate Valid() {
      1 < length && 2 * length <= WORD
    }
  }

  /** The writer measures the space (loading the tail until two loads agree), sizes the write, copies
      the bytes in any order, and stores the head.  `publish` is off for an empty message, whose
      length word is written into free slots but never published. */
  datatype Writer =
    | WriterIdle
    | LoadingTail(data: seq<Byte>)
    | MeasuringSpace(data: seq<Byte>, original: nat)
    | Rechecking(data: seq<Byte>, original: nat, space: nat)
    | SpaceKnown(data: seq<Byte>, space: nat)
    | Writing(bytes: seq<Byte>, copied: set<nat>, publish: bool)

  /** The reader measures what is there, copies bytes out (for a message first the length word, then
      the rest), and stores the tail. */
  datatype Reader =
    | ReaderIdle
    | LoadingHead(limit: nat)
    | AvailableKnown(limit: nat, available: nat)
    | Reading(limit: nat, available: nat, need: nat, got: map<nat, Byte>, header: bool)

  /** The last four fields are history: all bytes and messages accepted from the writer and handed to
      the reader so far. */
  datatype State = State(
    buffer: seq<Byte>,
    head: nat,
    tail: nat,
    writer: Writer,
    reader: Reader,
    accepted: seq<Byte>,
    received: seq<Byte>,
    sent: seq<seq<Byte>>,
    delivered: seq<seq<Byte>>)

  datatype Step =
    | Send(data: seq<Byte>)
    | WriterLoads
    | WriterMeasuresAgain
    | WriterStarts
    | WriterCopies(i: nat)
    | WriterPublishes
    | Receive(limit: nat)
    | ReaderLoads
    | ReaderMeasuresAgain
    | ReaderStarts
    | ReaderCopies(i: nat)
    | ReaderDecodes
    | ReaderPublishes

  function Initial(c: Config): State {
    State(seq(c.length, _ => 0), 0, 0, WriterIdle, ReaderIdle, [], [], [], [])
  }

  ghost predicate InRange(c: Config, s: State) {
    |s.buffer| == c.length && s.head < c.length && s.tail < c.length
  }

  /** The bytes from tail to head: what the buffer holds as far as both sides agree. */
  ghost function Published(c: Config, s: State): seq<Byte>
    requires InRange(c, s)
  {
    Span(s.buffer, s.tail, Distance(s.head, s.tail, c.length))
  }

  predicate Complete(got: map<nat, Byte>, need: nat) {
    forall i :: 0 <= i < need ==> i in got
  }

  function Collected(got: map<nat, Byte>, need: nat): (r: seq<Byte>)
    requires Complete(got, need)
    ensures |r| == need
    ensures forall i :: 0 <= i < need ==> r[i] == got[i]
  {
    seq(need, i requires 0 <= i < need => got[i])
  }

  ghost predicate Enabled(c: Config, s: State, step: Step) {
    && InRange(c, s)
    && match step
       case Send(data) => s.writer.WriterIdle? && |data| + 4 < WORD
       case WriterLoads => s.writer.LoadingTail? || s.writer.MeasuringSpace? || s.writer.Rechecking?
       case WriterMeasuresAgain => s.writer.SpaceKnown?
       case WriterStarts => s.writer.SpaceKnown? && |s.writer.data| + 4 < WORD
       case WriterCopies(i) => s.writer.Writing? && i < |s.writer.bytes| < c.length && i !in s.writer.copied
       case WriterPublishes =>
         s.writer.Writing? && |s.writer.bytes| < c.length
         && forall i :: 0 <= i < |s.writer.bytes| ==> i in s.writer.copied
       case Receive(_) => s.reader.ReaderIdle?
       case ReaderLoads => s.reader.LoadingHead?
       case ReaderMeasuresAgain => s.reader.AvailableKnown?
       case ReaderStarts => s.reader.AvailableKnown?
       case ReaderCopies(i) => s.reader.Reading? && i < s.reader.need < c.length && i !in s.reader.got
       case ReaderDecodes =>
         s.reader.Reading? && s.reader.header && s.reader.need == 4 && s.reader.available >= 4
         && Complete(s.reader.got, 4)
       case ReaderPublishes =>
         s.reader.Reading? && !s.reader.header && s.reader.need < c.length && (c.messages ==> s.reader.need >= 4)
         && Complete(s.reader.got, s.reader.need)
  }

  /** The space seen from one load of each index. */
  function Space(head: nat, tail: nat, length: nat): nat
    requires head < length && tail < length
  {
    length - 1 - Distance(head, tail, length)
  }

  function Sized(c: Config, data: seq<Byte>, space: nat): Writer
    requires |data| + 4 < WORD
  {
    if c.messages then
      if |data| + 4 > space then WriterIdle
      else if data == [] then Writing(LengthBytes(0), {}, false)
      else Writing(Frame(data), {}, true)
    else if Min(|data|, space) == 0 then WriterIdle
    else Writing(data[..Min(|data|, space)], {}, true)
  }

  ghost function Next(c: Config, s: State, step: Step): State
    requires Enabled(c, s, step)
  {
    match step
    case Send(data) => s.(writer := LoadingTail(data))
    case WriterLoads =>
      var w := match s.writer
        case LoadingTail(data) => MeasuringSpace(data, s.tail)
        case MeasuringSpace(data, original) => Rechecking(data, original, Space(s.head, s.tail, c.length))
        case Rechecking(data, original, space) =>
          if original != s.tail then LoadingTail(data) else SpaceKnown(data, space)
        case w => w;
      s.(writer := w)
    case WriterMeasuresAgain => s.(writer := LoadingTail(s.writer.data))
    case WriterStarts => s.(writer := Sized(c, s.writer.data, s.writer.space))
    case WriterCopies(i) =>
      s.(buffer := s.buffer[Wrap(s.head + i, c.length) := s.writer.bytes[i]],
         writer := s.writer.(copied := s.writer.copied + {i}))
    case WriterPublishes =>
      if !s.writer.publish then s.(writer := WriterIdle)
      else
        var n := |s.writer.bytes|;
        s.(writer := WriterIdle, head := Wrap(s.head + n, c.length), accepted := s.accepted + s.writer.bytes,
           sent := if c.messages && n >= 4 then s.sent + [s.writer.bytes[4..]] else s.sent)
    case Receive(limit) => s.(reader := LoadingHead(limit))
    case ReaderLoads => s.(reader := AvailableKnown(s.reader.limit, Distance(s.head, s.tail, c.length)))
    case ReaderMeasuresAgain => s.(reader := LoadingHead(s.reader.limit))
    case ReaderStarts =>
      var limit, available := s.reader.limit, s.reader.available;
      s.(reader := if c.messages then
                     if available <= 4 then ReaderIdle else Reading(limit, available, 4, map[], true)
                   else if Min(limit, available) == 0 then ReaderIdle
                   else Reading(limit, available, Min(limit, available), map[], false))
    case ReaderCopies(i) =>
      s.(reader := s.reader.(got := s.reader.got[i := s.buffer[Wrap(s.tail + i, c.length)]]))
    case ReaderDecodes =>
      var r := s.reader;
      var n := LengthOf(Collected(r.got, 4));
      var count := Min(if n > r.limit then 0 else n, r.available - 4);
      s.(reader := if count == 0 then ReaderIdle else r.(need := 4 + count, header := false))
    case ReaderPublishes =>
      var n, bytes := s.reader.need, Collected(s.reader.got, s.reader.need);
      s.(reader := ReaderIdle, tail := Wrap(s.tail + n, c.length), received := s.received + bytes,
         delivered := if c.messages then s.delivered + [bytes[4..]] else s.delivered)
  }

  /** A run from the empty buffer; `None` when a step is not enabled. */
  ghost function Exec(c: Config, steps: seq<Step>): Option<State>
    decreases |steps|
  {
    if steps == [] then Some(Initial(c))
    else
      var last := |steps| - 1;
      match Exec(c, steps[..last])
      case None => None
      case Some(s) => if Enabled(c, s, steps[last]) then Some(Next(c, s, steps[last])) else None
  }

  // The invariant

  /** What the writer has measured is there, and what it has copied is in free slots. */
  ghost predicate WriterOk(c: Config, s: State, d: nat)
    requires InRange(c, s)
  {
    match s.writer
    case Rechecking(_, _, space) => space + d < c.length
    case SpaceKnown(_, space) => space + d < c.length
    case Writing(bytes, copied, publish) =>
      && |bytes| + d < c.length
      && (forall i :: i in copied && i < |bytes| ==> s.buffer[Wrap(s.head + i, c.length)] == bytes[i])
      && (c.messages && publish ==> |bytes| >= 4 && Sendable(bytes[4..]) && bytes == Frame(bytes[4..]))
    case _ => true
  }

  /** What was measured includes the whole of the oldest message. */
  ghost predicate WholeMessage(c: Config, available: nat, bytes: seq<Byte>) {
    c.messages && available > 0 ==> |bytes| >= 4 && 4 + LengthOf(bytes) <= available
  }

  /** What the reader has measured is there, and what it has copied are published bytes. */
  ghost predicate ReaderOk(c: Config, s: State, bytes: seq<Byte>) {
    match s.reader
    case AvailableKnown(_, available) => available <= |bytes| && WholeMessage(c, available, bytes)
    case Reading(limit, available, need, got, header) =>
      && need <= available <= |bytes| && WholeMessage(c, available, bytes)
      && (forall i :: i in got && i < need ==> got[i] == bytes[i])
      && (if header then need == 4 && c.messages
          else need > 0 && (c.messages ==> need > 4 && need == 4 + LengthOf(bytes)))
      && (forall i :: i in got ==> i < need)
    case _ => true
  }

  ghost predicate Inv(c: Config, s: State) {
    && InRange(c, s)
    && WriterOk(c, s, |Published(c, s)|)
    && ReaderOk(c, s, Published(c, s))
    && s.received + Published(c, s) == s.accepted
    && (c.messages ==> Parse(Published(c, s)).Some? && s.delivered + Parse(Published(c, s)).value == s.sent)
  }

  // Every step keeps it

  /** A free slot behind the head is not among the published ones. */
  lemma FreeSlot(c: Config, s: State, i: nat)
    requires InRange(c, s) && i + Distance(s.head, s.tail, c.length) < c.length
    ensures !InSpan(Wrap(s.head + i, c.length), s.tail, Distance(s.head, s.tail, c.length), c.length)
  {
  }

  lemma KeepsWriterCopies(c: Config, s: State, i: nat)
    requires Inv(c, s) && Enabled(c, s, WriterCopies(i))
    ensures Inv(c, Next(c, s, WriterCopies(i))) && Published(c, Next(c, s, WriterCopies(i))) == Published(c, s)
  {
    hide Span, Parse;
    var d := Distance(s.head, s.tail, c.length);
    var s' := Next(c, s, WriterCopies(i));
    assert s.head == Wrap(s.tail + d, c.length);
    Untouched(s.buffer, s'.buffer, s.tail, d, |s.writer.bytes|);
  }

  lemma PublishedGrows(c: Config, s: State)
    requires Inv(c, s) && Enabled(c, s, WriterPublishes) && s.writer.publish
    ensures var s' := Next(c, s, WriterPublishes);
            InRange(c, s') && Published(c, s') == Published(c, s) + s.writer.bytes
  {
    hide Span, Parse, LengthOf, LengthBytes;
    var d, bytes := Distance(s.head, s.tail, c.length), s.writer.bytes;
    assert s.head == Wrap(s.tail + d, c.length);
    var tail := Span(s.buffer, s.head, |bytes|);
    assert forall i :: 0 <= i < |bytes| ==> tail[i] == bytes[i];
    Appended(s.buffer, s.buffer, s.tail, d, bytes);
  }

  lemma KeepsWriterPublishes(c: Config, s: State)
    requires Inv(c, s) && Enabled(c, s, WriterPublishes)
    ensures Inv(c, Next(c, s, WriterPublishes))
  {
    hide Span, Parse, LengthOf, LengthBytes, Frame, Distance;
    if s.writer.publish {
      var bytes, p, s' := s.writer.bytes, Published(c, s), Next(c, s, WriterPublishes);
      PublishedGrows(c, s);
      assert s.received + (p + bytes) == (s.received + p) + bytes;
      if c.messages {
        ParseLast(p, bytes[4..]);
        assert s.delivered + (Parse(p).value + [bytes[4..]]) == (s.delivered + Parse(p).value) + [bytes[4..]];
      }
      assert ReaderOk(c, s', Published(c, s')) by {
        ReaderStaysOk(c, s, s', p, bytes);
      }
    }
  }

  lemma ReaderStaysOk(c: Config, s: State, s': State, p: seq<Byte>, more: seq<Byte>)
    requires ReaderOk(c, s, p) && s'.reader == s.reader
    ensures ReaderOk(c, s', p + more)
  {
    hide LengthOf;
    if |p| >= 4 {
      LengthOfPrefix(p, more);
    }
  }

  lemma KeepsReaderCopies(c: Config, s: State, i: nat)
    requires Inv(c, s) && Enabled(c, s, ReaderCopies(i))
    ensures Inv(c, Next(c, s, ReaderCopies(i)))
    ensures InSpan(Wrap(s.tail + i, c.length), s.tail, Distance(s.head, s.tail, c.length), c.length)
  {
    hide Span, Parse, LengthOf;
    assert Published(c, s)[i] == s.buffer[Wrap(s.tail + i, c.length)];
  }

  lemma KeepsReaderDecodes(c: Config, s: State)
    requires Inv(c, s) && Enabled(c, s, ReaderDecodes)
    ensures Inv(c, Next(c, s, ReaderDecodes))
  {
    hide Span, LengthOf, Parse, Distance;
    var p, word := Published(c, s), Collected(s.reader.got, 4);
    assert p[..4] == word;
    LengthOfPrefix(word, p[4..]);
    assert p == word + p[4..];
    ParsedHead(p);
  }

  lemma CollectedPrefix(got: map<nat, Byte>, need: nat, bytes: seq<Byte>)
    requires Complete(got, need) && need <= |bytes|
    requires forall i :: i in got && i < need ==> got[i] == bytes[i]
    ensures Collected(got, need) == bytes[..need]
  {
  }

  lemma SpanAdvances(buffer: seq<Byte>, head: nat, tail: nat, n: nat)
    requires head < |buffer| && tail < |buffer| && n <= Distance(head, tail, |buffer|) < |buffer|
    ensures var tail' := Wrap(tail + n, |buffer|);
            && tail' < |buffer| && Distance(head, tail', |buffer|) <= |buffer|
            && Span(buffer, tail', Distance(head, tail', |buffer|))
            == Span(buffer, tail, Distance(head, tail, |buffer|))[n..]
  {
    hide Span;
    DistanceAfter(head, tail, |buffer|, n);
    var d := Distance(head, tail, |buffer|);
    hide Distance;
    Consumed(buffer, tail, d, 0, n);
  }

  lemma PublishedShrinks(c: Config, s: State)
    requires Inv(c, s) && Enabled(c, s, ReaderPublishes)
    ensures var s' := Next(c, s, ReaderPublishes);
            && InRange(c, s') && Published(c, s') == Published(c, s)[s.reader.need..]
            && Collected(s.reader.got, s.reader.need) == Published(c, s)[..s.reader.need]
  {
    assert Distance(s.head, s.tail, c.length) < c.length;
    hide Span, Parse, LengthOf, LengthBytes, Distance, Collected;
    SpanAdvances(s.buffer, s.head, s.tail, s.reader.need);
    CollectedPrefix(s.reader.got, s.reader.need, Published(c, s));
  }

  lemma KeepsReaderPublishes(c: Config, s: State)
    requires Inv(c, s) && Enabled(c, s, ReaderPublishes)
    ensures Inv(c, Next(c, s, ReaderPublishes))
  {
    hide Span, LengthOf, LengthBytes, Parse, Distance;
    var n, p := s.reader.need, Published(c, s);
    PublishedShrinks(c, s);
    assert p == p[..n] + p[n..];
    assert (s.received + p[..n]) + p[n..] == s.received + p;
    if c.messages {
      ParsedHead(p);
      var v := Parse(p).value;
      assert p[..n][4..] == v[0];
      assert (s.delivered + [v[0]]) + v[1..] == s.delivered + v;
    }
  }

  lemma KeepsReaderStarts(c: Config, s: State, step: Step)
    requires Inv(c, s) && Enabled(c, s, step)
    requires step.ReaderLoads? || step.ReaderStarts?
    ensures Inv(c, Next(c, s, step)) && Published(c, Next(c, s, step)) == Published(c, s)
  {
    hide Span, LengthOf, Parse;
    if c.messages && Published(c, s) != [] {
      ParsedHead(Published(c, s));
    }
  }

  lemma FrameOf(data: seq<Byte>)
    requires 0 < |data| < WORD
    ensures Frame(data)[4..] == data && |Frame(data)| == 4 + |data|
  {
  }

  lemma KeepsWriterStarts(c: Config, s: State, step: Step)
    requires Inv(c, s) && Enabled(c, s, step)
    requires step.WriterLoads? || step.WriterStarts?
    ensures Inv(c, Next(c, s, step)) && Published(c, Next(c, s, step)) == Published(c, s)
  {
    hide Span, LengthBytes, Parse;
    if step.WriterStarts? && 0 < |s.writer.data| {
      FrameOf(s.writer.data);
    }
  }

  lemma Keeps(c: Config, s: State, step: Step)
    requires c.Valid() && Inv(c, s) && Enabled(c, s, step)
    ensures Inv(c, Next(c, s, step))
  {
    hide Span, LengthOf, Parse, LengthBytes, Distance, Frame, Wrap;
    match step {
      case WriterLoads => KeepsWriterStarts(c, s, step);
      case WriterStarts => KeepsWriterStarts(c, s, step);
      case WriterCopies(i) => KeepsWriterCopies(c, s, i);
      case WriterPublishes => KeepsWriterPublishes(c, s);
      case ReaderLoads => KeepsReaderStarts(c, s, step);
      case ReaderStarts => KeepsReaderStarts(c, s, step);
      case ReaderCopies(i) => KeepsReaderCopies(c, s, i);
      case ReaderDecodes => KeepsReaderDecodes(c, s);
      case ReaderPublishes => KeepsReaderPublishes(c, s);
      case _ =>
    }
  }

  lemma {:induction false} RunsKeepInv(c: Config, steps: seq<Step>)
    requires c.Valid() && Exec(c, steps).Some?
    ensures Inv(c, Exec(c, steps).value)
    decreases |steps|
  {
    hide Next, Enabled;
    if steps != [] {
      var last := |steps| - 1;
      RunsKeepInv(c, steps[..last]);
      Keeps(c, Exec(c, steps[..last]).value, steps[last]);
    }
  }

  // The theorems

  /** In every interleaving the bytes received are a prefix of the bytes accepted, and what lies
      between is what the buffer publishes; messages are delivered whole, once and in order. */
  lemma ReceivesWhatWasSent(c: Config, steps: seq<Step>)
    requires c.Valid() && Exec(c, steps).Some?
    ensures var s := Exec(c, steps).value;
            && InRange(c, s) && s.received + Published(c, s) == s.accepted && s.received <= s.accepted
            && |Published(c, s)| < c.length
            && (c.messages ==> Parse(Published(c, s)).Some?
                               && s.delivered + Parse(Published(c, s)).value == s.sent)
  {
    RunsKeepInv(c, steps);
  }

  /** The writer only touches free slots and the reader only published ones. */
  lemma NoByteIsShared(c: Config, steps: seq<Step>, i: nat, j: nat)
    requires c.Valid() && Exec(c, steps).Some?
    ensures var s := Exec(c, steps).value;
            var d := if InRange(c, s) then Distance(s.head, s.tail, c.length) else 0;
            && (Enabled(c, s, WriterCopies(i)) ==> !InSpan(Wrap(s.head + i, c.length), s.tail, d, c.length))
            && (Enabled(c, s, ReaderCopies(j)) ==> InSpan(Wrap(s.tail + j, c.length), s.tail, d, c.length))
            && (Enabled(c, s, WriterCopies(i)) && Enabled(c, s, ReaderCopies(j)) ==>
                  Wrap(s.head + i, c.length) != Wrap(s.tail + j, c.length))
  {
    hide Span, Parse, LengthOf, LengthBytes, InSpan, Wrap, Distance, Exec, ReaderOk;
    RunsKeepInv(c, steps);
    var s := Exec(c, steps).value;
    if Enabled(c, s, WriterCopies(i)) {
      FreeSlot(c, s, i);
    }
    if Enabled(c, s, ReaderCopies(j)) {
      KeepsReaderCopies(c, s, j);
    }
  }

  /** The buffer is an atomic first-in-first-out queue of `length - 1` bytes: the head store appends
      the whole write, the tail store removes exactly what the reader returns, and every other step
      leaves the queue alone. */
  lemma {:induction false} RefinesFifo(c: Config, steps: seq<Step>, step: Step)
    requires c.Valid() && Exec(c, steps).Some? && Enabled(c, Exec(c, steps).value, step)
    ensures var s := Exec(c, steps).value;
            var s' := Next(c, s, step);
            && InRange(c, s') && |Published(c, s')| <= c.length - 1
            && (if step.WriterPublishes? && s.writer.publish then
                  Published(c, s') == Published(c, s) + s.writer.bytes
                else if step.ReaderPublishes? then
                  Published(c, s) == Collected(s.reader.got, s.reader.need) + Published(c, s')
                else Published(c, s') == Published(c, s))
  {
    hide Span, LengthOf, Parse, LengthBytes, Frame;
    RunsKeepInv(c, steps);
    var s := Exec(c, steps).value;
    Keeps(c, s, step);
    match step {
      case WriterCopies(i) => KeepsWriterCopies(c, s, i);
      case WriterPublishes => if s.writer.publish { PublishedGrows(c, s); }
      case ReaderPublishes => PublishedShrinks(c, s);
      case _ =>
    }
  }
}
