/** What the runs of a stream buffer have to do with the calls in them: a write publishes what the last
    send was asked to send, and a read hands out what fits the last receive. */
module StreamSends {
  import opened Framing
  import opened Options
  import opened Ring
  import opened StreamProtocol
  import opened Ticks

  /** The data of all sends, in order. */
  function Sends(steps: seq<Step>): seq<seq<Byte>> {
    if steps == [] then []
    else
      var before, last := Sends(steps[..|steps| - 1]), steps[|steps| - 1];
      if last.Send? then before + [last.data] else before
  }

  /** How many bytes the last receive has room for. */
  function Limit(steps: seq<Step>): nat {
    if steps == [] then 0
    else
      var last := steps[|steps| - 1];
      if last.Receive? then last.limit else Limit(steps[..|steps| - 1])
  }

  /** The free space when the writer last measured it. */
  ghost function SpaceSeen(c: Config, steps: seq<Step>): int {
    if steps == [] then 0
    else
      var before, last := steps[..|steps| - 1], steps[|steps| - 1];
      match Exec(c, before)
      case Some(s) =>
        if last.WriterLoads? && s.writer.MeasuringSpace? && InRange(c, s) then c.length - 1 - |Published(c, s)|
        else SpaceSeen(c, before)
      case None => SpaceSeen(c, before)
  }

  /** The bytes there when the reader last measured them. */
  ghost function BytesSeen(c: Config, steps: seq<Step>): nat {
    if steps == [] then 0
    else
      var before, last := steps[..|steps| - 1], steps[|steps| - 1];
      match Exec(c, before)
      case Some(s) =>
        if last.ReaderLoads? && s.reader.LoadingHead? && InRange(c, s) then |Published(c, s)|
        else BytesSeen(c, before)
      case None => BytesSeen(c, before)
  }

  /** What the last send has the writer publish, given the space it has seen. */
  ghost predicate Publishes(c: Config, data: seq<Byte>, space: int, bytes: seq<Byte>) {
    if c.messages then data != [] && |data| + 4 <= space && |data| < WORD && bytes == LengthBytes(|data|) + data
    else bytes <= data && |bytes| > 0 && |bytes| == if |data| < space then |data| else space
  }

  ghost predicate WriterTied(c: Config, steps: seq<Step>, s: State) {
    var sends := Sends(steps);
    !s.writer.WriterIdle? ==>
      && sends != []
      && var data := sends[|sends| - 1];
      match s.writer
      case WriterIdle => true
      case LoadingTail(d) => d == data
      case MeasuringSpace(d, _) => d == data
      case Rechecking(d, _, space) => d == data && space == SpaceSeen(c, steps)
      case SpaceKnown(d, space) => d == data && space == SpaceSeen(c, steps)
      case Writing(bytes, _, publish) =>
        if publish then Publishes(c, data, SpaceSeen(c, steps), bytes)
        else c.messages && data == [] && 4 <= SpaceSeen(c, steps)
  }

  ghost predicate ReaderTied(c: Config, steps: seq<Step>, s: State) {
    match s.reader
    case ReaderIdle => true
    case LoadingHead(limit) => limit == Limit(steps)
    case AvailableKnown(limit, available) => limit == Limit(steps) && available == BytesSeen(c, steps)
    case Reading(limit, available, need, _, header) =>
      && limit == Limit(steps) && available == BytesSeen(c, steps)
      && (!header && c.messages ==> need <= 4 + limit)
      && (!c.messages ==> !header && need > 0 && need == if limit < available then limit else available)
  }

  lemma Snoc(c: Config, steps: seq<Step>)
    requires steps != [] && Exec(c, steps).Some?
    ensures var before, last := steps[..|steps| - 1], steps[|steps| - 1];
            && Exec(c, before).Some? && Enabled(c, Exec(c, before).value, last)
            && Exec(c, steps).value == Next(c, Exec(c, before).value, last)
  {
  }

  lemma WriterStaysTied(c: Config, steps: seq<Step>)
    requires c.Valid() && steps != [] && Exec(c, steps).Some?
    requires WriterTied(c, steps[..|steps| - 1], Exec(c, steps[..|steps| - 1]).value)
    ensures WriterTied(c, steps, Exec(c, steps).value)
  {
    hide Exec, LengthBytes, Parse, Span;
    Snoc(c, steps);
    var before, last := steps[..|steps| - 1], steps[|steps| - 1];
    var s := Exec(c, before).value;
  }

  lemma ReaderStaysTied(c: Config, steps: seq<Step>)
    requires c.Valid() && steps != [] && Exec(c, steps).Some?
    requires ReaderTied(c, steps[..|steps| - 1], Exec(c, steps[..|steps| - 1]).value)
    ensures ReaderTied(c, steps, Exec(c, steps).value)
  {
    hide Exec, LengthBytes, Parse, Span, LengthOf;
    Snoc(c, steps);
  }

  lemma {:induction false} RunsKeepTied(c: Config, steps: seq<Step>)
    requires c.Valid() && Exec(c, steps).Some?
    ensures WriterTied(c, steps, Exec(c, steps).value) && ReaderTied(c, steps, Exec(c, steps).value)
    decreases |steps|
  {
    hide WriterTied, ReaderTied;
    if steps == [] {
      TiedAtFirst(c);
    } else {
      Snoc(c, steps);
      RunsKeepTied(c, steps[..|steps| - 1]);
      WriterStaysTied(c, steps);
      ReaderStaysTied(c, steps);
    }
  }

  lemma TiedAtFirst(c: Config)
    ensures WriterTied(c, [], Initial(c)) && ReaderTied(c, [], Initial(c))
  {
  }

  // What is published

  /** In every interleaving a publish appends what the last send was asked to send: the four bytes of
      the length and then the whole message, or, to a stream, as much from the front of the data as
      there was space for.  Only an empty message is not published. */
  lemma PublishesWhatWasSent(c: Config, steps: seq<Step>)
    requires c.Valid() && Exec(c, steps).Some? && Enabled(c, Exec(c, steps).value, WriterPublishes)
    ensures Sends(steps) != []
    ensures var s, s' := Exec(c, steps).value, Next(c, Exec(c, steps).value, WriterPublishes);
            var data, space := Sends(steps)[|Sends(steps)| - 1], SpaceSeen(c, steps);
            if c.messages then
              && |data| < WORD && |data| + 4 <= space
              && s'.accepted == s.accepted + (if data == [] then [] else LengthBytes(|data|) + data)
              && s'.sent == s.sent + (if data == [] then [] else [data])
            else
              && s'.accepted == s.accepted + data[..if 0 <= space < |data| then space else |data|]
              && s'.sent == s.sent
  {
    hide Exec, LengthBytes;
    RunsKeepTied(c, steps);
    var s := Exec(c, steps).value;
  }

  /** Nothing is published only when there is nothing to send or, as the writer has seen it, no space:
      for the whole of a message, or for a single byte of a stream. */
  lemma GivesUpIff(c: Config, steps: seq<Step>)
    requires c.Valid() && Exec(c, steps).Some? && Enabled(c, Exec(c, steps).value, WriterStarts)
    ensures Sends(steps) != []
    ensures var data, space := Sends(steps)[|Sends(steps)| - 1], SpaceSeen(c, steps);
            Next(c, Exec(c, steps).value, WriterStarts).writer.WriterIdle? <==>
            if c.messages then |data| + 4 > space else |data| == 0 || space == 0
  {
    hide Exec, LengthBytes;
    RunsKeepTied(c, steps);
  }

  /** One sequence is what is left of another when some of its members are left out. */
  ghost predicate Within<T>(a: seq<T>, b: seq<T>)
    decreases |b|
  {
    a == [] ||
      (&& b != []
       && var b' := b[..|b| - 1];
       Within(a, b') || (a[|a| - 1] == b[|b| - 1] && Within(a[..|a| - 1], b')))
  }

  lemma WithinSnoc<T>(a: seq<T>, b: seq<T>, x: T)
    requires Within(a, b)
    ensures Within(a, b + [x]) && Within(a + [x], b + [x])
  {
    assert (b + [x])[..|b|] == b && (a + [x])[..|a|] == a;
  }

  /** The bytes are pieces from the front of each of the data, one after the other. */
  ghost predicate Pieces(bytes: seq<Byte>, data: seq<seq<Byte>>)
    decreases |data|
  {
    if data == [] then bytes == []
    else
      var last := data[|data| - 1];
      exists n: nat {:trigger PieceFits(bytes, last, n)} ::
        PieceFits(bytes, last, n) && Pieces(bytes[..|bytes| - n], data[..|data| - 1])
  }

  predicate PieceFits(bytes: seq<Byte>, last: seq<Byte>, n: nat) {
    n <= |bytes| && n <= |last| && bytes[|bytes| - n..] == last[..n]
  }

  lemma PiecesSnoc(bytes: seq<Byte>, data: seq<seq<Byte>>, last: seq<Byte>, n: nat)
    requires Pieces(bytes, data) && n <= |last|
    ensures Pieces(bytes + last[..n], data + [last])
  {
    var all := bytes + last[..n];
    assert (data + [last])[..|data|] == data && (data + [last])[|data|] == last && all[..|all| - n] == bytes;
    assert PieceFits(all, last, n);
  }

  /** What has been accepted comes from the sends before the one that the writer is at. */
  ghost predicate SentInOrder(c: Config, steps: seq<Step>, s: State) {
    var sends := Sends(steps);
    (s.writer.WriterIdle? || sends != []) &&
    var done := if s.writer.WriterIdle? then sends else sends[..|sends| - 1];
    if c.messages then Within(s.sent, done) else Pieces(s.accepted, done)
  }

  lemma DoneWithNothing(c: Config, steps: seq<Step>, s: State)
    requires SentInOrder(c, steps, s) && !s.writer.WriterIdle?
    ensures SentInOrder(c, steps, s.(writer := WriterIdle))
  {
    var sends := Sends(steps);
    var done, last := sends[..|sends| - 1], sends[|sends| - 1];
    assert sends == done + [last];
    if c.messages {
      WithinSnoc(s.sent, done, last);
    } else {
      PiecesSnoc(s.accepted, done, last, 0);
      assert s.accepted + last[..0] == s.accepted;
    }
  }

  lemma PublishKeepsOrder(c: Config, before: seq<Step>, s: State)
    requires c.Valid() && Exec(c, before) == Some(s) && Enabled(c, s, WriterPublishes) && SentInOrder(c, before, s)
    ensures SentInOrder(c, before, Next(c, s, WriterPublishes))
  {
    hide Exec, LengthBytes, Within, Pieces;
    PublishesWhatWasSent(c, before);
    DoneWithNothing(c, before, s);
    var sends, space := Sends(before), SpaceSeen(c, before);
    var done, last := sends[..|sends| - 1], sends[|sends| - 1];
    assert sends == done + [last];
    if c.messages {
      WithinSnoc(s.sent, done, last);
      assert s.sent + [] == s.sent;
    } else {
      PiecesSnoc(s.accepted, done, last, if 0 <= space < |last| then space else |last|);
    }
  }

  lemma OrderStays(c: Config, steps: seq<Step>)
    requires c.Valid() && steps != [] && Exec(c, steps).Some?
    requires SentInOrder(c, steps[..|steps| - 1], Exec(c, steps[..|steps| - 1]).value)
    ensures SentInOrder(c, steps, Exec(c, steps).value)
  {
    hide Exec, Within, Pieces, LengthBytes;
    Snoc(c, steps);
    var before, last := steps[..|steps| - 1], steps[|steps| - 1];
    var s := Exec(c, before).value;
    RunsKeepTied(c, before);
    match last {
      case Send(data) => assert Sends(steps)[..|Sends(before)|] == Sends(before);
      case WriterStarts => DoneWithNothing(c, before, s);
      case WriterPublishes => PublishKeepsOrder(c, before, s);
      case _ =>
    }
  }

  lemma {:induction false} RunsKeepOrder(c: Config, steps: seq<Step>)
    requires c.Valid() && Exec(c, steps).Some?
    ensures SentInOrder(c, steps, Exec(c, steps).value)
    decreases |steps|
  {
    if steps != [] {
      hide SentInOrder, Enabled, Next;
      Snoc(c, steps);
      RunsKeepOrder(c, steps[..|steps| - 1]);
      OrderStays(c, steps);
    }
  }

  // What is handed out

  /** In every interleaving a read hands out what fits the last receive: the oldest message, whole, if
      it does, or, from a stream, as many of the oldest bytes as fit of those that it has seen. */
  lemma HandsOutWhatFits(c: Config, steps: seq<Step>)
    requires c.Valid() && Exec(c, steps).Some? && Enabled(c, Exec(c, steps).value, ReaderPublishes)
    ensures BytesSeen(c, steps) <= |Published(c, Exec(c, steps).value)|
    ensures var s, s' := Exec(c, steps).value, Next(c, Exec(c, steps).value, ReaderPublishes);
            var bytes := Published(c, s);
            if c.messages then
              && Parse(bytes).Some? && Parse(bytes).value != []
              && var oldest := Parse(bytes).value[0];
              |oldest| <= Limit(steps) && s'.delivered == s.delivered + [oldest]
            else
              && s'.received == s.received + bytes[..Min(Limit(steps), BytesSeen(c, steps))]
              && s'.delivered == s.delivered
  {
    hide Exec, LengthBytes, Span, LengthOf, Parse, Distance;
    RunsKeepInv(c, steps);
    RunsKeepTied(c, steps);
    var s := Exec(c, steps).value;
    PublishedShrinks(c, s);
    if c.messages {
      ParsedHead(Published(c, s));
    }
  }

  /** A read begins exactly when the reader has seen bytes, of whole messages for a message buffer, and
      has room for one. */
  lemma BeginsToReadIff(c: Config, steps: seq<Step>)
    requires c.Valid() && Exec(c, steps).Some? && Enabled(c, Exec(c, steps).value, ReaderStarts)
    ensures Next(c, Exec(c, steps).value, ReaderStarts).reader.Reading? <==>
            BytesSeen(c, steps) > 0 && (c.messages || Limit(steps) > 0)
  {
    hide Exec, LengthBytes, Span, Parse, Distance, LengthOf;
    RunsKeepInv(c, steps);
    RunsKeepTied(c, steps);
    var p := Published(c, Exec(c, steps).value);
    if c.messages && p != [] {
      ParsedHead(p);
    }
  }

  /** A message is left alone exactly when it does not fit. */
  lemma LeavesAloneIff(c: Config, steps: seq<Step>)
    requires c.Valid() && Exec(c, steps).Some? && Enabled(c, Exec(c, steps).value, ReaderDecodes)
    ensures var s := Exec(c, steps).value;
            && Parse(Published(c, s)).Some? && Parse(Published(c, s)).value != []
            && (Next(c, s, ReaderDecodes).reader.ReaderIdle? <==> |Parse(Published(c, s)).value[0]| > Limit(steps))
  {
    hide Exec, LengthBytes, Span, Parse, Distance;
    RunsKeepInv(c, steps);
    RunsKeepTied(c, steps);
    var s := Exec(c, steps).value;
    var p, word := Published(c, s), Collected(s.reader.got, 4);
    ParsedHead(p);
    assert p[..4] == word;
    hide LengthOf;
    LengthOfPrefix(word, p[4..]);
    assert p == word + p[4..];
  }

  /** Whatever the interleaving, the messages received are the first of the messages sent, whole and
      unchanged, less those that found no space; the bytes received from a stream are the first of
      pieces from the front of what was sent. */
  lemma ReceivesOnlyWhatWasSent(c: Config, steps: seq<Step>)
    requires c.Valid() && Exec(c, steps).Some?
    ensures var s := Exec(c, steps).value;
            if c.messages then s.delivered <= s.sent && Within(s.sent, Sends(steps))
            else s.received <= s.accepted && Pieces(s.accepted, Sends(steps))
  {
    hide Exec, Within, Pieces, Parse;
    RunsKeepOrder(c, steps);
    ReceivesWhatWasSent(c, steps);
    var s := Exec(c, steps).value;
    if !s.writer.WriterIdle? {
      DoneWithNothing(c, steps, s);
    }
  }
}
