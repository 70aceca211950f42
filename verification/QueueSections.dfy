/** What each critical section of the queue does to the message count, the two lock counters and
    the two event lists.  The sections are atomic: tasks and interrupts interleave between them. */
module QueueSections {
  import opened Ticks
  import opened Wheel

  /** `queueUNLOCKED`; a locked queue counts the events it has deferred from zero. */
  const UNLOCKED := -1

  /** The fields of a queue that the wake-up protocol reads and writes.  An event list holds
      waiting tasks in order of `configMAX_PRIORITIES - priority`, kept as the entry's `time`. */
  datatype State = State(
    count: nat,
    txLock: int,
    rxLock: int,
    toSend: seq<Entry>,
    toReceive: seq<Entry>)

  /** Conversion to `int8_t`, and from `int8_t` to the unsigned type of the task count. */
  function Int8(x: int): int {
    (x + 128) % 256 - 128
  }

  function Unsigned(x: int): nat
    requires -128 <= x
  {
    if x < 0 then x + WORD else x
  }

  /** `prvIncrementQueueTxLock` and `prvIncrementQueueRxLock`: capped at the number of tasks. */
  function CappedIncrement(lock: int, tasks: nat): (r: int)
    requires -128 <= lock <= 127
    ensures -128 <= r <= 127
  {
    if Unsigned(lock) < tasks then Int8(lock + 1) else lock
  }

  /** An event list after its head, if there is one, has been removed. */
  function Popped(l: seq<Entry>): seq<Entry> {
    if l == [] then l else l[1..]
  }

  /** The message count after a copy into the queue; overwriting replaces. */
  function CountAfterCopy(count: nat, overwrite: bool): nat {
    if overwrite && count > 0 then count else count + 1
  }

  /** A task posts: xQueueGenericSend's first section when there is room. */
  function TaskPost(q: State, overwrite: bool): State {
    q.(count := CountAfterCopy(q.count, overwrite), toReceive := Popped(q.toReceive))
  }

  /** A task takes a message: xQueueReceive's first section when there is one. */
  function TaskTake(q: State): State
    requires q.count > 0
  {
    q.(count := q.count - 1, toSend := Popped(q.toSend))
  }

  /** A task looks at the next message and passes the wake-up on. */
  function TaskPeek(q: State): State
    requires q.count > 0
  {
    q.(toReceive := Popped(q.toReceive))
  }

  predicate LocksFit(q: State) {
    -128 <= q.txLock <= 127 && -128 <= q.rxLock <= 127
  }

  /** An interrupt posts.  A locked queue only counts the event. */
  function IsrPost(q: State, length: nat, overwrite: bool, tasks: nat): State
    requires LocksFit(q)
  {
    if !(q.count < length || overwrite) then q
    else if q.txLock == UNLOCKED then
      q.(count := CountAfterCopy(q.count, overwrite), toReceive := Popped(q.toReceive))
    else
      q.(count := CountAfterCopy(q.count, overwrite), txLock := CappedIncrement(q.txLock, tasks))
  }

  /** An interrupt takes a message. */
  function IsrTake(q: State, tasks: nat): State
    requires LocksFit(q)
  {
    if q.count == 0 then q
    else if q.rxLock == UNLOCKED then q.(count := q.count - 1, toSend := Popped(q.toSend))
    else q.(count := q.count - 1, rxLock := CappedIncrement(q.rxLock, tasks))
  }

  /** `prvLockQueue` */
  function Lock(q: State): State {
    q.(rxLock := if q.rxLock == UNLOCKED then 0 else q.rxLock,
       txLock := if q.txLock == UNLOCKED then 0 else q.txLock)
  }

  /** How many wake-ups a lock counter owes. */
  function Owed(lock: int): nat {
    if lock > 0 then lock else 0
  }

  function Drained(l: seq<Entry>, owed: nat): seq<Entry> {
    if owed <= |l| then l[owed..] else []
  }

  /** The two sections of `prvUnlockQueue`: every wake-up owed is paid while somebody waits. */
  function UnlockTx(q: State): State {
    q.(txLock := UNLOCKED, toReceive := Drained(q.toReceive, Owed(q.txLock)))
  }

  function UnlockRx(q: State): State {
    q.(rxLock := UNLOCKED, toSend := Drained(q.toSend, Owed(q.rxLock)))
  }

  /** xQueueGenericReset on a queue that is in use: one sender at most is woken. */
  function Reset(q: State): State {
    q.(count := 0, rxLock := UNLOCKED, txLock := UNLOCKED, toSend := Popped(q.toSend))
  }
}
