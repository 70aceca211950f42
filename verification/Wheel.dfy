/** Two sorted lists of wrapped times standing for one sorted list of unbounded times.

    The scheduler (delayed and overflow-delayed lists) and the timer service (current and overflow
    timer lists) use the same scheme: entries of the present epoch in one list, entries of the next
    epoch in the other, both keyed by the wrapped time, swapped when the tick wraps. */
module Wheel {
  import opened Ticks

  /** Something that has to happen at a time. */
  datatype Entry = Entry(id: nat, time: nat)

  ghost predicate Sorted(l: seq<Entry>) {
    forall i, j :: 0 <= i < j < |l| ==> l[i].time <= l[j].time
  }

  /** Times that fit the tick counter. */
  ghost predicate Wrapped(l: seq<Entry>) {
    forall e :: e in l ==> e.time < WORD
  }

  /** Number of leading entries not later than `time`: where `vListInsert` stops. */
  function Rank(l: seq<Entry>, time: nat): (k: nat)
    ensures k <= |l|
    ensures forall i :: 0 <= i < k ==> l[i].time <= time
    ensures k < |l| ==> time < l[k].time
  {
    if l == [] || time < l[0].time then 0 else 1 + Rank(l[1..], time)
  }

  /** Ordered insertion, after entries of equal time. */
  function Insert(l: seq<Entry>, e: Entry): seq<Entry> {
    if l == [] || e.time < l[0].time then [e] + l else [l[0]] + Insert(l[1..], e)
  }

  /** Entries due by `time`, and the others, in list order. */
  function Due(l: seq<Entry>, time: nat): seq<Entry> {
    if l == [] then []
    else if l[0].time <= time then [l[0]] + Due(l[1..], time)
    else Due(l[1..], time)
  }

  function Later(l: seq<Entry>, time: nat): seq<Entry> {
    if l == [] then []
    else if l[0].time <= time then Later(l[1..], time)
    else [l[0]] + Later(l[1..], time)
  }

  /** The list without the entries of `id`. */
  function Without(l: seq<Entry>, id: nat): seq<Entry> {
    if l == [] then []
    else if l[0].id == id then Without(l[1..], id)
    else [l[0]] + Without(l[1..], id)
  }

  function Ids(l: seq<Entry>): set<nat> {
    set e | e in l :: e.id
  }

  /** Re-bases a list of wrapped times into an epoch. */
  function Lift(l: seq<Entry>, epoch: nat): (r: seq<Entry>)
    ensures |r| == |l|
    ensures forall i :: 0 <= i < |l| ==> r[i] == Entry(l[i].id, epoch * WORD + l[i].time)
  {
    seq(|l|, i requires 0 <= i < |l| => Entry(l[i].id, epoch * WORD + l[i].time))
  }

  /** The single list of unbounded times that the two wrapped lists stand for. */
  function Merge(current: seq<Entry>, overflow: seq<Entry>, epoch: nat): seq<Entry> {
    Lift(current, epoch) + Lift(overflow, epoch + 1)
  }

  lemma {:induction false} InsertAt(l: seq<Entry>, e: Entry)
    ensures Insert(l, e) == l[..Rank(l, e.time)] + [e] + l[Rank(l, e.time)..]
  {
    if l == [] || e.time < l[0].time {
      assert Rank(l, e.time) == 0;
    } else {
      InsertAt(l[1..], e);
      var k := Rank(l[1..], e.time);
      assert l[..k + 1] == [l[0]] + l[1..][..k];
      assert l[k + 1..] == l[1..][k..];
    }
  }

  lemma {:induction false} InsertKeeps(l: seq<Entry>, e: Entry)
    ensures multiset(Insert(l, e)) == multiset(l) + multiset{e}
  {
    if l != [] && l[0].time <= e.time {
      InsertKeeps(l[1..], e);
      assert l == [l[0]] + l[1..];
    }
  }

  lemma {:induction false} InsertMembers(l: seq<Entry>, e: Entry)
    ensures forall x :: x in Insert(l, e) <==> x in l || x == e
  {
    if l != [] {
      InsertMembers(l[1..], e);
    }
  }

  lemma InsertSorted(l: seq<Entry>, e: Entry)
    requires Sorted(l)
    ensures Sorted(Insert(l, e))
  {
    InsertAt(l, e);
    var k := Rank(l, e.time);
    var r := Insert(l, e);
    assert forall i :: 0 <= i < k ==> r[i] == l[i];
    assert r[k] == e;
    assert forall i :: k < i < |r| ==> r[i] == l[i - 1];
    assert k < |l| ==> forall i :: k <= i < |l| ==> l[k].time <= l[i].time;
  }

  /** `Insert` is the only stable sorted insertion: a new entry in front of the first later one,
      with the result still sorted. */
  lemma {:induction false} InsertUnique(l: seq<Entry>, e: Entry, k: nat)
    requires Sorted(l) && k <= |l|
    requires Sorted(l[..k] + [e] + l[k..])
    requires k < |l| ==> e.time < l[k].time
    ensures l[..k] + [e] + l[k..] == Insert(l, e)
  {
    var r := l[..k] + [e] + l[k..];
    assert r[k] == e;
    assert forall i :: 0 <= i < k ==> r[i] == l[i];
    InsertAt(l, e);
  }

  lemma {:induction false} InsertLeft(a: seq<Entry>, b: seq<Entry>, e: Entry)
    requires b != [] ==> e.time < b[0].time
    ensures Insert(a + b, e) == Insert(a, e) + b
  {
    if a == [] {
      assert a + b == b;
    } else {
      assert (a + b)[1..] == a[1..] + b;
      InsertLeft(a[1..], b, e);
    }
  }

  lemma {:induction false} InsertRight(a: seq<Entry>, b: seq<Entry>, e: Entry)
    requires forall i :: 0 <= i < |a| ==> a[i].time <= e.time
    ensures Insert(a + b, e) == a + Insert(b, e)
  {
    if a == [] {
      assert a + b == b;
    } else {
      assert (a + b)[1..] == a[1..] + b;
      InsertRight(a[1..], b, e);
    }
  }

  lemma {:induction false} LiftInsert(l: seq<Entry>, epoch: nat, id: nat, tick: Tick)
    ensures Lift(Insert(l, Entry(id, tick)), epoch)
         == Insert(Lift(l, epoch), Entry(id, epoch * WORD + tick))
  {
    if l != [] {
      assert Lift(l, epoch)[1..] == Lift(l[1..], epoch);
      LiftInsert(l[1..], epoch, id, tick);
    }
  }

  lemma MergeSorted(current: seq<Entry>, overflow: seq<Entry>, epoch: nat)
    requires Sorted(current) && Wrapped(current)
    requires Sorted(overflow) && Wrapped(overflow)
    ensures Sorted(Merge(current, overflow, epoch))
  {
    var m := Merge(current, overflow, epoch);
    forall i, j | 0 <= i < j < |m|
      ensures m[i].time <= m[j].time
    {
      if j < |current| {
        assert current[i].time <= current[j].time;
      } else if |current| <= i {
        assert overflow[i - |current|].time <= overflow[j - |current|].time;
      } else {
        assert current[i] in current && overflow[j - |current|] in overflow;
      }
    }
  }

  /** Inserting a wrapped time into the list of its epoch inserts the unbounded time into the
      merged list. */
  lemma {:induction false} InsertMerged(current: seq<Entry>, overflow: seq<Entry>, epoch: nat, id: nat, time: nat)
    requires Wrapped(current)
    requires Epoch(time) == epoch || Epoch(time) == epoch + 1
    ensures var e := Entry(id, Low(time));
            var whole := Insert(Merge(current, overflow, epoch), Entry(id, time));
            if Epoch(time) == epoch then whole == Merge(Insert(current, e), overflow, epoch)
            else whole == Merge(current, Insert(overflow, e), epoch)
  {
    hide Insert;
    var whole := Entry(id, time);
    var a, b := Lift(current, epoch), Lift(overflow, epoch + 1);
    if Epoch(time) == epoch {
      assert time == epoch * WORD + Low(time);
      LiftInsert(current, epoch, id, Low(time));
      assert Insert(a, whole) == Lift(Insert(current, Entry(id, Low(time))), epoch);
      InsertLeft(a, b, whole);
    } else {
      assert time == (epoch + 1) * WORD + Low(time);
      forall i | 0 <= i < |a|
        ensures a[i].time <= time
      {
        assert current[i] in current;
      }
      LiftInsert(overflow, epoch + 1, id, Low(time));
      assert Insert(b, whole) == Lift(Insert(overflow, Entry(id, Low(time))), epoch + 1);
      InsertRight(a, b, whole);
    }
  }

  /** With sorted entries, taking entries from the front until one is not due takes exactly the
      due ones. */
  lemma {:induction false} DueIsPrefix(l: seq<Entry>, time: nat)
    requires Sorted(l)
    ensures Due(l, time) == l[..Rank(l, time)]
    ensures Later(l, time) == l[Rank(l, time)..]
  {
    if l != [] {
      if l[0].time <= time {
        DueIsPrefix(l[1..], time);
        assert l[..Rank(l, time)] == [l[0]] + l[1..][..Rank(l[1..], time)];
      } else {
        NoneDue(l, time);
      }
    }
  }

  lemma {:induction false} NoneDue(l: seq<Entry>, time: nat)
    requires forall e :: e in l ==> time < e.time
    ensures Due(l, time) == []
    ensures Later(l, time) == l
  {
    if l != [] {
      NoneDue(l[1..], time);
    }
  }

  lemma {:induction false} AllDue(l: seq<Entry>, time: nat)
    requires forall e :: e in l ==> e.time <= time
    ensures Due(l, time) == l
    ensures Later(l, time) == []
  {
    if l != [] {
      AllDue(l[1..], time);
    }
  }

  lemma {:induction false} DueMembers(l: seq<Entry>, time: nat)
    ensures forall e :: e in Due(l, time) <==> e in l && e.time <= time
    ensures forall e :: e in Later(l, time) <==> e in l && e.time > time
    ensures Sorted(l) ==> Sorted(Later(l, time))
  {
    if l != [] {
      DueMembers(l[1..], time);
      if Sorted(l) {
        assert forall e :: e in l[1..] ==> l[0].time <= e.time;
      }
    }
  }

  lemma {:induction false} DueAppend(a: seq<Entry>, b: seq<Entry>, time: nat)
    ensures Due(a + b, time) == Due(a, time) + Due(b, time)
  {
    if a == [] {
      assert a + b == b;
    } else {
      assert (a + b)[1..] == a[1..] + b && (a + b)[0] == a[0];
      DueAppend(a[1..], b, time);
      if a[0].time <= time {
        assert ([a[0]] + Due(a[1..], time)) + Due(b, time) == [a[0]] + (Due(a[1..], time) + Due(b, time));
      }
    }
  }

  lemma {:induction false} LaterAppend(a: seq<Entry>, b: seq<Entry>, time: nat)
    ensures Later(a + b, time) == Later(a, time) + Later(b, time)
  {
    if a == [] {
      assert a + b == b;
    } else {
      assert (a + b)[1..] == a[1..] + b && (a + b)[0] == a[0];
      LaterAppend(a[1..], b, time);
      if a[0].time > time {
        assert ([a[0]] + Later(a[1..], time)) + Later(b, time) == [a[0]] + (Later(a[1..], time) + Later(b, time));
      }
    }
  }

  lemma {:induction false} WithoutAppend(a: seq<Entry>, b: seq<Entry>, id: nat)
    ensures Without(a + b, id) == Without(a, id) + Without(b, id)
  {
    if a == [] {
      assert a + b == b;
    } else {
      assert (a + b)[1..] == a[1..] + b && (a + b)[0] == a[0];
      WithoutAppend(a[1..], b, id);
      assert ([a[0]] + Without(a[1..], id)) + Without(b, id) == [a[0]] + (Without(a[1..], id) + Without(b, id));
    }
  }

  lemma {:induction false} WithoutMembers(l: seq<Entry>, id: nat)
    ensures forall e :: e in Without(l, id) <==> e in l && e.id != id
    ensures Sorted(l) ==> Sorted(Without(l, id))
  {
    if l != [] {
      WithoutMembers(l[1..], id);
      if Sorted(l) {
        assert forall e :: e in l[1..] ==> l[0].time <= e.time;
      }
    }
  }

  lemma {:induction false} WithoutAbsent(l: seq<Entry>, id: nat)
    requires forall e :: e in l ==> e.id != id
    ensures Without(l, id) == l
  {
    if l != [] {
      WithoutAbsent(l[1..], id);
    }
  }

  lemma {:induction false} LiftWithout(l: seq<Entry>, epoch: nat, id: nat)
    ensures Lift(Without(l, id), epoch) == Without(Lift(l, epoch), id)
  {
    if l != [] {
      LiftWithout(l[1..], epoch, id);
      assert Lift(l, epoch)[1..] == Lift(l[1..], epoch);
      assert Lift(l, epoch) == [Lift(l, epoch)[0]] + Lift(l[1..], epoch);
    }
  }

  lemma MergeWithout(current: seq<Entry>, overflow: seq<Entry>, epoch: nat, id: nat)
    ensures Without(Merge(current, overflow, epoch), id)
         == Merge(Without(current, id), Without(overflow, id), epoch)
  {
    WithoutAppend(Lift(current, epoch), Lift(overflow, epoch + 1), id);
    LiftWithout(current, epoch, id);
    LiftWithout(overflow, epoch + 1, id);
  }

  lemma {:induction false} LiftDue(l: seq<Entry>, epoch: nat, tick: Tick)
    ensures Due(Lift(l, epoch), epoch * WORD + tick) == Lift(Due(l, tick), epoch)
    ensures Later(Lift(l, epoch), epoch * WORD + tick) == Lift(Later(l, tick), epoch)
  {
    if l != [] {
      LiftDue(l[1..], epoch, tick);
      LiftHead(l, epoch);
      if l[0].time <= tick {
        LiftCons(l[0], Due(l[1..], tick), epoch);
      } else {
        LiftCons(l[0], Later(l[1..], tick), epoch);
      }
    }
  }

  lemma LiftHead(l: seq<Entry>, epoch: nat)
    requires l != []
    ensures Lift(l, epoch)[0] == Entry(l[0].id, epoch * WORD + l[0].time)
    ensures Lift(l, epoch)[1..] == Lift(l[1..], epoch)
  {
  }

  lemma LiftCons(e: Entry, l: seq<Entry>, epoch: nat)
    ensures Lift([e] + l, epoch) == [Entry(e.id, epoch * WORD + e.time)] + Lift(l, epoch)
  {
  }

  /** Within an epoch only entries of the present epoch's list fall due. */
  lemma {:induction false} MergeDue(current: seq<Entry>, overflow: seq<Entry>, epoch: nat, tick: Tick)
    ensures Due(Merge(current, overflow, epoch), At(epoch, tick)) == Lift(Due(current, tick), epoch)
    ensures Later(Merge(current, overflow, epoch), At(epoch, tick)) == Merge(Later(current, tick), overflow, epoch)
  {
    var a, b := Lift(current, epoch), Lift(overflow, epoch + 1);
    DueAppend(a, b, At(epoch, tick));
    LaterAppend(a, b, At(epoch, tick));
    LiftDue(current, epoch, tick);
    forall e | e in b
      ensures At(epoch, tick) < e.time
    {
      assert e.time >= (epoch + 1) * WORD;
    }
    NoneDue(b, At(epoch, tick));
  }

  /** Swapping the lists at the wrap, when the current one is empty, changes nothing. */
  lemma {:induction false} MergeSwapped(overflow: seq<Entry>, epoch: nat)
    ensures Merge([], overflow, epoch) == Merge(overflow, [], epoch + 1)
  {
  }

  lemma LiftIds(l: seq<Entry>, epoch: nat)
    ensures Ids(Lift(l, epoch)) == Ids(l)
  {
    var r := Lift(l, epoch);
    forall x | x in Ids(l)
      ensures x in Ids(r)
    {
      var i :| 0 <= i < |l| && l[i].id == x;
      assert r[i] in r && r[i].id == x;
    }
  }
}
