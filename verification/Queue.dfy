/** The queue object: a ring of fixed-size items in a byte array, a message count, two lock
    counters and two event lists.  Each method is one critical section. */
module Queue {
  import opened Ring
  import opened Wheel
  import S = QueueSections

  datatype Position = Back | Front | Overwrite

  /** The slot of the `i`-th message when the last slot read is `read`. */
  function SlotAt(read: nat, i: nat, length: nat): nat {
    Wrap(Wrap(read + 1, length) + i, length)
  }

  /** Where a slot starts. */
  function Offset(slot: nat, size: nat): nat {
    slot * size
  }

  ghost function ItemAt(bytes: seq<Byte>, slot: nat, size: nat): seq<Byte>
    requires Offset(slot, size) + size <= |bytes|
  {
    bytes[Offset(slot, size)..Offset(slot, size) + size]
  }

  /** The messages, oldest first. */
  ghost function Messages(bytes: seq<Byte>, length: nat, size: nat, read: nat, count: nat): (m: seq<seq<Byte>>)
    requires |bytes| == Offset(length, size) && read < length && count <= length
    ensures |m| == count
  {
    seq(count, i requires 0 <= i < count =>
      SlotFits(SlotAt(read, i, length), length, size);
      ItemAt(bytes, SlotAt(read, i, length), size))
  }

  lemma OffsetNext(slot: nat, size: nat)
    ensures Offset(slot + 1, size) == Offset(slot, size) + size
    ensures Offset(0, size) == 0
  {
  }

  lemma EmptySlots(slot: nat)
    ensures Offset(slot, 0) == 0
  {
  }

  lemma {:induction false} SlotFits(slot: nat, length: nat, size: nat)
    ensures slot < length ==> Offset(slot, size) + size <= Offset(length, size)
    decreases length
  {
    hide Offset;
    if slot < length {
      OffsetNext(length - 1, size);
      SlotFits(slot, length - 1, size);
    }
  }

  lemma SlotsApart(a: nat, b: nat, size: nat)
    requires a != b
    ensures Offset(a, size) + size <= Offset(b, size) || Offset(b, size) + size <= Offset(a, size)
  {
    hide Offset;
    if a < b { SlotFits(a, b, size); } else { SlotFits(b, a, size); }
  }

  /** Taking the oldest message moves no other. */
  lemma SlotsStay(read: nat, count: nat, length: nat)
    requires read < length && 0 < count <= length
    ensures Wrap(read + 1, length) < length
    ensures SlotAt(Wrap(read + 1, length), count - 1, length) == SlotAt(read, count, length)
  {
  }

  /** Writing one slot leaves the items of the others alone. */
  lemma OtherSlots(was: seq<Byte>, now: seq<Byte>, slot: nat, other: nat, size: nat)
    requires |was| == |now| && slot != other
    requires Offset(slot, size) + size <= |was| && Offset(other, size) + size <= |was|
    requires now == was[..Offset(slot, size)] + now[Offset(slot, size)..Offset(slot, size) + size]
                    + was[Offset(slot, size) + size..]
    ensures ItemAt(now, other, size) == ItemAt(was, other, size)
  {
    hide Offset;
    SlotsApart(slot, other, size);
  }

  lemma SlotsDistinct(read: nat, i: nat, j: nat, length: nat)
    requires read < length && i < length && j < length && i != j
    ensures SlotAt(read, i, length) < length && SlotAt(read, j, length) < length
    ensures SlotAt(read, i, length) != SlotAt(read, j, length)
  {
  }

  /** `now` is `was` with `item` in `slot`. */
  ghost predicate Replaced(was: seq<Byte>, now: seq<Byte>, slot: nat, item: seq<Byte>) {
    && Offset(slot, |item|) + |item| <= |was|
    && now == was[..Offset(slot, |item|)] + item + was[Offset(slot, |item|) + |item|..]
  }

  lemma ReplacedItems(was: seq<Byte>, now: seq<Byte>, slot: nat, item: seq<Byte>, length: nat, other: nat)
    requires |was| == Offset(length, |item|) && slot < length && other < length
    requires Replaced(was, now, slot, item)
    ensures |now| == |was| && Offset(other, |item|) + |item| <= |was|
    ensures ItemAt(now, other, |item|) == if other == slot then item else ItemAt(was, other, |item|)
  {
    hide Offset;
    SlotFits(other, length, |item|);
    if other != slot {
      OtherSlots(was, now, slot, other, |item|);
    }
  }

  /** The write slot holds the message after the newest one. */
  lemma BackAppends(was: seq<Byte>, now: seq<Byte>, length: nat, read: nat, count: nat, item: seq<Byte>)
    requires |was| == Offset(length, |item|) && read < length && count < length
    requires Replaced(was, now, SlotAt(read, count, length), item)
    ensures |now| == |was|
    ensures Messages(now, length, |item|, read, count + 1) == Messages(was, length, |item|, read, count) + [item]
  {
    hide Offset;
    var m, m' := Messages(was, length, |item|, read, count), Messages(now, length, |item|, read, count + 1);
    forall i | 0 <= i <= count
      ensures m'[i] == (m + [item])[i]
    {
      ReplacedItems(was, now, SlotAt(read, count, length), item, length, SlotAt(read, i, length));
      if i < count {
        SlotsDistinct(read, i, count, length);
      }
    }
  }

  function Before(read: nat, length: nat): nat
    requires length > 0
  {
    if read == 0 then length - 1 else read - 1
  }

  /** The slot read last is free, and becomes the oldest message when the read slot steps back. */
  lemma {:induction false} FrontPrepends(was: seq<Byte>, now: seq<Byte>, length: nat, read: nat, count: nat,
                                         item: seq<Byte>)
    requires |was| == Offset(length, |item|) && read < length && count < length
    requires Replaced(was, now, read, item)
    ensures |now| == |was|
    ensures Messages(now, length, |item|, Before(read, length), count + 1)
         == [item] + Messages(was, length, |item|, read, count)
  {
    hide Offset;
    var m := Messages(was, length, |item|, read, count);
    var m' := Messages(now, length, |item|, Before(read, length), count + 1);
    forall i | 0 <= i <= count
      ensures m'[i] == ([item] + m)[i]
    {
      ReplacedItems(was, now, read, item, length, SlotAt(Before(read, length), i, length));
    }
  }

  lemma {:induction false} TakeDrops(bytes: seq<Byte>, length: nat, size: nat, read: nat, count: nat)
    requires |bytes| == Offset(length, size) && read < length && 0 < count <= length
    ensures Offset(Wrap(read + 1, length), size) + size <= |bytes|
    ensures var m := Messages(bytes, length, size, read, count);
            && m[0] == ItemAt(bytes, Wrap(read + 1, length), size)
            && m[1..] == Messages(bytes, length, size, Wrap(read + 1, length), count - 1)
  {
    hide Offset;
    SlotFits(Wrap(read + 1, length), length, size);
  }

  lemma NextOffset(slot: nat, length: nat, size: nat)
    requires slot < length && size > 0
    ensures Offset(Wrap(slot + 1, length), size)
         == if Offset(slot, size) + size >= Offset(length, size) then 0 else Offset(slot, size) + size
  {
    hide Offset;
    OffsetNext(slot, size);
    SlotFits(slot + 1, length, size);
  }

  lemma PreviousOffset(slot: nat, length: nat, size: nat)
    requires slot < length && size > 0
    ensures Offset(Before(slot, length), size)
         == if Offset(slot, size) < size then Offset(length, size) - size else Offset(slot, size) - size
  {
    hide Offset;
    OffsetNext(length - 1, size);
    if slot > 0 {
      OffsetNext(slot - 1, size);
    }
    OffsetNext(0, size);
  }

  /** `m` is `was` with the item behind all others, in front of them, or in their place. */
  ghost predicate Deposited(was: seq<seq<Byte>>, item: seq<Byte>, position: Position, m: seq<seq<Byte>>) {
    match position
    case Back => m == was + [item]
    case Front => m == [item] + was
    case Overwrite => m == [item]
  }

  /** The smaller of what is owed, if anything, and what is there. */
  function Least(owed: int, n: nat): nat {
    if owed <= 0 then 0 else if owed < n then owed else n
  }

  class Queue {
    const length: nat
    const itemSize: nat
    const storage: array<Byte>
    var writeTo: nat
    var readFrom: nat
    var messagesWaiting: nat
    var txLock: int
    var rxLock: int
    var toSend: seq<Entry>
    var toReceive: seq<Entry>
    ghost var readSlot: nat

    ghost predicate Valid()
      reads this
    {
      && length > 0 && storage.Length == Offset(length, itemSize)
      && readSlot < length && readFrom == Offset(readSlot, itemSize)
      && messagesWaiting <= length
      && writeTo == Offset(SlotAt(readSlot, messagesWaiting, length), itemSize)
      && S.LocksFit(View())
    }

    ghost function View(): S.State
      reads this
    {
      S.State(messagesWaiting, txLock, rxLock, toSend, toReceive)
    }

    ghost function Contents(): (m: seq<seq<Byte>>)
      requires Valid()
      reads this, storage
      ensures |m| == messagesWaiting
    {
      Messages(storage[..], length, itemSize, readSlot, messagesWaiting)
    }

    /** `memcpy` into a slot */
    method Store(item: seq<Byte>, offset: nat, ghost slot: nat)
      requires |item| == itemSize && offset == Offset(slot, itemSize) && offset + itemSize <= storage.Length
      modifies storage
      ensures Replaced(old(storage[..]), storage[..], slot, item)
    {
      hide Offset;
      ghost var was := storage[..];
      for i := 0 to itemSize
        invariant forall j :: 0 <= j < i ==> storage[offset + j] == item[j]
        invariant forall j :: 0 <= j < storage.Length && !(offset <= j < offset + i) ==> storage[j] == was[j]
      {
        storage[offset + i] := item[i];
      }
    }

    /** prvCopyDataToQueue at the back */
    method CopyBack(item: seq<Byte>)
      requires Valid() && |item| == itemSize > 0 && messagesWaiting < length
      modifies `writeTo, `messagesWaiting, storage
      ensures Valid() && messagesWaiting == old(messagesWaiting) + 1
      ensures Contents() == old(Contents()) + [item]
    {
      hide Offset;
      ghost var was, slot := storage[..], SlotAt(readSlot, messagesWaiting, length);
      SlotFits(slot, length, itemSize);
      NextOffset(slot, length, itemSize);
      Store(item, writeTo, slot);
      BackAppends(was, storage[..], length, readSlot, messagesWaiting, item);
      writeTo := writeTo + itemSize;
      if writeTo >= Offset(length, itemSize) {
        writeTo := 0;
      }
      messagesWaiting := messagesWaiting + 1;
    }

    /** prvCopyDataToQueue at the front, or over the only message. */
    method CopyFront(item: seq<Byte>, overwrite: bool)
      requires Valid() && |item| == itemSize > 0
      requires if overwrite then length == 1 else messagesWaiting < length
      modifies `readFrom, `readSlot, `messagesWaiting, storage
      ensures Valid() && messagesWaiting == S.CountAfterCopy(old(messagesWaiting), overwrite)
      ensures Contents() == if overwrite then [item] else [item] + old(Contents())
    {
      hide Offset, Messages, ItemAt, Replaced;
      ghost var was := storage[..];
      var count := messagesWaiting;
      SlotFits(readSlot, length, itemSize);
      PreviousOffset(readSlot, length, itemSize);
      Store(item, readFrom, readSlot);
      if overwrite {
        FrontPrepends(was, storage[..], length, readSlot, 0, item);
      } else {
        FrontPrepends(was, storage[..], length, readSlot, count, item);
      }
      if readFrom < itemSize {
        readFrom := Offset(length, itemSize) - itemSize;
      } else {
        readFrom := readFrom - itemSize;
      }
      readSlot := Before(readSlot, length);
      if overwrite && count > 0 {
        count := count - 1;
      }
      messagesWaiting := count + 1;
    }

    /** Overwriting a full queue whose items are empty: nothing is replaced, and yet it counts. */
    predicate Overflows(position: Position)
      reads `messagesWaiting
    {
      itemSize == 0 && position == Overwrite && messagesWaiting == length
    }

    /** prvCopyDataToQueue for a queue or a semaphore, which has no data to copy. */
    method CopyIn(item: seq<Byte>, position: Position)
      requires Valid() && |item| == itemSize
      requires if position == Overwrite then length == 1 else messagesWaiting < length
      modifies `writeTo, `readFrom, `readSlot, `messagesWaiting, storage
      ensures Valid() <==> !old(Overflows(position))
      ensures messagesWaiting ==
        if old(Overflows(position)) then length + 1 else S.CountAfterCopy(old(messagesWaiting), position == Overwrite)
      ensures itemSize > 0 ==> Valid() && Deposited(old(Contents()), item, position, Contents())
    {
      hide Offset;
      if itemSize == 0 {
        EmptySlots(SlotAt(readSlot, messagesWaiting, length));
        EmptySlots(SlotAt(readSlot, messagesWaiting + 1, length));
        messagesWaiting := messagesWaiting + 1;
      } else if position == Back {
        CopyBack(item);
      } else {
        CopyFront(item, position == Overwrite);
      }
    }

    /** prvCopyDataFromQueue: the read position moves on to the oldest message, which is copied out
        and still counted. */
    method CopyOut() returns (item: seq<Byte>)
      requires Valid() && messagesWaiting > 0
      modifies `readFrom
      ensures readFrom == Offset(Wrap(readSlot + 1, length), itemSize)
      ensures item == old(Contents())[0]
    {
      hide Offset;
      TakeDrops(storage[..], length, itemSize, readSlot, messagesWaiting);
      if itemSize != 0 {
        NextOffset(readSlot, length, itemSize);
        readFrom := readFrom + itemSize;
        if readFrom >= Offset(length, itemSize) {
          readFrom := 0;
        }
      } else {
        EmptySlots(readSlot);
        EmptySlots(Wrap(readSlot + 1, length));
      }
      item := storage[readFrom..readFrom + itemSize];
    }

    /** A new queue, or a new semaphore when the items are empty. */
    constructor (length: nat, itemSize: nat)
      requires length > 0
      ensures Valid() && this.length == length && this.itemSize == itemSize && fresh(storage)
      ensures View() == S.State(0, S.UNLOCKED, S.UNLOCKED, [], [])
    {
      this.length, this.itemSize := length, itemSize;
      storage := new Byte[Offset(length, itemSize)](_ => 0);
      writeTo, messagesWaiting := 0, 0;
      readFrom, readSlot := Offset(length - 1, itemSize), length - 1;
      txLock, rxLock, toSend, toReceive := S.UNLOCKED, S.UNLOCKED, [], [];
    }

    /** xTaskRemoveFromEventList on a list that is not empty. */
    method WakeReceiver() returns (woken: seq<Entry>)
      modifies `toReceive
      ensures toReceive == S.Popped(old(toReceive)) && woken + toReceive == old(toReceive)
    {
      woken := [];
      if toReceive != [] {
        woken := [toReceive[0]];
        toReceive := toReceive[1..];
      }
    }

    method WakeSender() returns (woken: seq<Entry>)
      modifies `toSend
      ensures toSend == S.Popped(old(toSend)) && woken + toSend == old(toSend)
    {
      woken := [];
      if toSend != [] {
        woken := [toSend[0]];
        toSend := toSend[1..];
      }
    }

    /** The section at the top of xQueueGenericSend. */
    method TryPost(item: seq<Byte>, position: Position) returns (posted: bool, woken: seq<Entry>)
      requires Valid() && |item| == itemSize && (position == Overwrite ==> length == 1)
      modifies this, storage
      ensures posted == (old(messagesWaiting) < length || position == Overwrite)
      ensures Valid() <==> !old(Overflows(position))
      ensures Valid() ==> View() == if posted then S.TaskPost(old(View()), position == Overwrite) else old(View())
      ensures !Valid() ==> messagesWaiting == length + 1
      ensures itemSize > 0 && !posted ==> Contents() == old(Contents())
      ensures itemSize > 0 && posted && position == Back ==> Valid() && Contents() == old(Contents()) + [item]
      ensures itemSize > 0 && posted && position == Front ==> Valid() && Contents() == [item] + old(Contents())
      ensures itemSize > 0 && posted && position == Overwrite ==> Valid() && Contents() == [item]
      ensures posted && Valid() ==> messagesWaiting == if position == Overwrite then 1 else old(messagesWaiting) + 1
      ensures woken == old(toReceive)[..if posted && |old(toReceive)| > 0 then 1 else 0]
      ensures woken + toReceive == old(toReceive)
    {
      hide Offset, Messages, ItemAt, SlotAt;
      posted, woken := messagesWaiting < length || position == Overwrite, [];
      if posted {
        CopyIn(item, position);
        woken := WakeReceiver();
      }
    }

    /** xQueueGenericSendFromISR, and xQueueGiveFromISR when the items are empty. */
    method PostFromIsr(item: seq<Byte>, position: Position, tasks: nat) returns (posted: bool, woken: seq<Entry>)
      requires Valid() && |item| == itemSize && (position == Overwrite ==> length == 1)
      modifies this, storage
      ensures posted == (old(messagesWaiting) < length || position == Overwrite)
      ensures Valid() <==> !old(Overflows(position))
      ensures Valid() ==> View() == S.IsrPost(old(View()), length, position == Overwrite, tasks)
      ensures !Valid() ==> messagesWaiting == length + 1
      ensures itemSize > 0 && !posted ==> Contents() == old(Contents())
      ensures itemSize > 0 && posted && position == Back ==> Valid() && Contents() == old(Contents()) + [item]
      ensures itemSize > 0 && posted && position == Front ==> Valid() && Contents() == [item] + old(Contents())
      ensures itemSize > 0 && posted && position == Overwrite ==> Valid() && Contents() == [item]
      ensures posted && Valid() ==> messagesWaiting == if position == Overwrite then 1 else old(messagesWaiting) + 1
      ensures woken == old(toReceive)[..if posted && old(txLock) == S.UNLOCKED && |old(toReceive)| > 0 then 1 else 0]
      ensures woken + toReceive == old(toReceive)
      ensures txLock ==
        if posted && old(txLock) != S.UNLOCKED then S.CappedIncrement(old(txLock), tasks) else old(txLock)
    {
      hide Offset, Messages, ItemAt, SlotAt, S.CappedIncrement;
      posted, woken := messagesWaiting < length || position == Overwrite, [];
      if posted {
        var lock := txLock;
        CopyIn(item, position);
        if lock == S.UNLOCKED {
          woken := WakeReceiver();
        } else {
          txLock := S.CappedIncrement(lock, tasks);
        }
      }
    }

    /** Copies the oldest message out and uncounts it. */
    method RemoveOldest() returns (item: seq<Byte>)
      requires Valid() && messagesWaiting > 0
      modifies `readFrom, `readSlot, `messagesWaiting
      ensures Valid() && messagesWaiting == old(messagesWaiting) - 1
      ensures [item] + Contents() == old(Contents())
    {
      SlotsStay(readSlot, messagesWaiting, length);
      hide Offset, SlotAt, ItemAt, Messages;
      TakeDrops(storage[..], length, itemSize, readSlot, messagesWaiting);
      item := CopyOut();
      readSlot := Wrap(readSlot + 1, length);
      messagesWaiting := messagesWaiting - 1;
    }

    /** The section at the top of xQueueReceive and xQueueSemaphoreTake. */
    method TryTake() returns (taken: bool, item: seq<Byte>, woken: seq<Entry>)
      requires Valid()
      modifies this
      ensures Valid() && taken == (old(messagesWaiting) > 0)
      ensures View() == if taken then S.TaskTake(old(View())) else old(View())
      ensures if taken then [item] + Contents() == old(Contents()) else Contents() == old(Contents())
      ensures woken == old(toSend)[..if taken && |old(toSend)| > 0 then 1 else 0]
      ensures woken + toSend == old(toSend)
    {
      hide Offset;
      taken, item, woken := messagesWaiting > 0, [], [];
      if taken {
        item := RemoveOldest();
        woken := WakeSender();
      }
    }

    /** xQueueReceiveFromISR */
    method TakeFromIsr(tasks: nat) returns (taken: bool, item: seq<Byte>, woken: seq<Entry>)
      requires Valid()
      modifies this
      ensures Valid() && taken == (old(messagesWaiting) > 0)
      ensures View() == S.IsrTake(old(View()), tasks)
      ensures if taken then [item] + Contents() == old(Contents()) else Contents() == old(Contents())
      ensures woken == old(toSend)[..if taken && old(rxLock) == S.UNLOCKED && |old(toSend)| > 0 then 1 else 0]
      ensures woken + toSend == old(toSend)
      ensures rxLock ==
        if taken && old(rxLock) != S.UNLOCKED then S.CappedIncrement(old(rxLock), tasks) else old(rxLock)
    {
      hide Offset, S.CappedIncrement;
      taken, item, woken := messagesWaiting > 0, [], [];
      if taken {
        var lock := rxLock;
        item := RemoveOldest();
        if lock == S.UNLOCKED {
          woken := WakeSender();
        } else {
          rxLock := S.CappedIncrement(lock, tasks);
        }
      }
    }

    /** The section at the top of xQueuePeek: the read position is put back. */
    method TryPeek() returns (found: bool, item: seq<Byte>, woken: seq<Entry>)
      requires Valid()
      modifies this
      ensures Valid() && found == (old(messagesWaiting) > 0) && Contents() == old(Contents())
      ensures View() == if found then S.TaskPeek(old(View())) else old(View())
      ensures found ==> item == Contents()[0]
      ensures woken == old(toReceive)[..if found && |old(toReceive)| > 0 then 1 else 0]
      ensures woken + toReceive == old(toReceive)
    {
      hide Offset;
      found, item, woken := messagesWaiting > 0, [], [];
      if found {
        var originalPosition := readFrom;
        item := CopyOut();
        readFrom := originalPosition;
        woken := WakeReceiver();
      }
    }

    /** prvLockQueue */
    method LockQueue()
      requires Valid()
      modifies `txLock, `rxLock
      ensures Valid() && View() == S.Lock(old(View())) && Contents() == old(Contents())
    {
      hide Offset;
      if rxLock == S.UNLOCKED {
        rxLock := 0;
      }
      if txLock == S.UNLOCKED {
        txLock := 0;
      }
    }

    /** The first section of prvUnlockQueue. */
    method UnlockTx() returns (woken: seq<Entry>)
      requires Valid()
      modifies `txLock, `toReceive
      ensures Valid() && View() == S.UnlockTx(old(View())) && Contents() == old(Contents())
      ensures txLock == S.UNLOCKED && |woken| == Least(old(txLock), |old(toReceive)|)
      ensures woken + toReceive == old(toReceive)
    {
      hide Offset, Messages, ItemAt, SlotAt;
      var lock := txLock;
      ghost var all, paid := toReceive, 0;
      woken := [];
      while lock > 0
        invariant paid <= |all| && toReceive == all[paid..] && woken + toReceive == all
        invariant lock + paid == txLock == old(txLock) && (paid > 0 ==> lock >= 0)
      {
        if toReceive == [] {
          break;
        }
        var one := WakeReceiver();
        woken := woken + one;
        paid := paid + 1;
        lock := lock - 1;
      }
      txLock := S.UNLOCKED;
    }

    /** The second section of prvUnlockQueue. */
    method UnlockRx() returns (woken: seq<Entry>)
      requires Valid()
      modifies `rxLock, `toSend
      ensures Valid() && View() == S.UnlockRx(old(View())) && Contents() == old(Contents())
      ensures rxLock == S.UNLOCKED && |woken| == Least(old(rxLock), |old(toSend)|)
      ensures woken + toSend == old(toSend)
    {
      hide Offset, Messages, ItemAt, SlotAt;
      var lock := rxLock;
      ghost var all, paid := toSend, 0;
      woken := [];
      while lock > 0
        invariant paid <= |all| && toSend == all[paid..] && woken + toSend == all
        invariant lock + paid == rxLock == old(rxLock) && (paid > 0 ==> lock >= 0)
      {
        if toSend == [] {
          break;
        }
        var one := WakeSender();
        woken := woken + one;
        paid := paid + 1;
        lock := lock - 1;
      }
      rxLock := S.UNLOCKED;
    }

    /** xQueueGenericReset on a queue in use. */
    method Reset() returns (woken: seq<Entry>)
      requires Valid()
      modifies this
      ensures Valid() && View() == S.Reset(old(View())) && Contents() == []
      ensures woken == old(toSend)[..if |old(toSend)| > 0 then 1 else 0]
      ensures woken + toSend == old(toSend)
    {
      hide Offset;
      OffsetNext(0, itemSize);
      messagesWaiting, writeTo := 0, 0;
      readFrom, readSlot := Offset(length - 1, itemSize), length - 1;
      rxLock, txLock := S.UNLOCKED, S.UNLOCKED;
      woken := WakeSender();
    }
  }
}
