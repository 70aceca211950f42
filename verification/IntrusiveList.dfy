/** The kernel's circular doubly linked list (`List_t` and `ListItem_t`).

    A list owns an end marker whose value is the largest tick, and an index that walks round the
    ring to share time between equal items.  The ghost sequence `ring` lists the nodes from the end
    marker onwards; everything the pointers say is tied to it by `Valid`. */
module IntrusiveList {
  import K = SchedulerSpec
  import opened Ticks
  import Wheel

  class ListItem {
    var value: Tick
    const owner: nat
    var next: ListItem?
    var previous: ListItem?
    var container: List?

    constructor (owner: nat, value: Tick)
      ensures this.owner == owner && this.value == value && container == null
    {
      this.owner, this.value := owner, value;
      next, previous, container := null, null, null;
    }
  }

  class List {
    var numberOfItems: nat
    var index: ListItem
    const end: ListItem
    ghost var ring: seq<ListItem>
    ghost var at: nat

    ghost predicate Valid()
      reads this, ring
    {
      && |ring| == numberOfItems + 1
      && ring[0] == end && end.value == MAX_DELAY
      && at < |ring| && ring[at] == index
      && Distinct(ring)
      && (forall i :: 0 < i < |ring| ==> ring[i].container == this)
      && Linked(ring)
    }

    /** The items in list order, from the one after the end marker. */
    ghost function Items(): seq<ListItem>
      requires Valid()
      reads this, ring
    {
      ring[1..]
    }

    /** The items in the order in which `Advance` will serve them. */
    ghost function Upcoming(): seq<ListItem>
      requires Valid()
      reads this, ring
    {
      Turns(ring, at)
    }

    /** The list as the scheduler's model has it: owners up to the index, and owners after it. */
    ghost function ReadyList(): K.Turns
      requires Valid()
      reads this, ring
    {
      TurnsOf(ring, at)
    }

    /** Owners and values in list order. */
    ghost function Entries(): (r: seq<Wheel.Entry>)
      requires Valid()
      reads this, ring
    {
      EntriesOf(ring[1..])
    }

    constructor ()
      ensures Valid() && fresh(end) && Items() == [] && index == end
    {
      var marker := new ListItem(0, MAX_DELAY);
      end, index := marker, marker;
      numberOfItems := 0;
      ring, at := [marker], 0;
      new;
      end.next, end.previous := end, end;
    }

    /** The pointer writes shared by both insertions: `item` goes behind ring node `k - 1`. */
    method Splice(before: ListItem, item: ListItem, ghost k: nat)
      requires Distinct(ring) && Linked(ring) && 1 <= k <= |ring| && ring[k - 1] == before
      requires item !in ring
      modifies ring`next, ring`previous, item`next, item`previous, item`container
      ensures item.container == this
      ensures Linked(ring[..k] + [item] + ring[k..]) && Distinct(ring[..k] + [item] + ring[k..])
    {
      assert before.next == ring[After(k - 1, |ring|)];
      var after := before.next;
      hide Linked;
      item.next := after;
      item.previous := before;
      after.previous := item;
      before.next := item;
      item.container := this;
      Spliced(ring, k, item);
    }

    method Link(before: ListItem, item: ListItem, ghost k: nat)
      requires Valid() && 1 <= k <= |ring| && ring[k - 1] == before
      requires item !in ring && item.container == null
      modifies `numberOfItems, `ring, `at, ring`next, ring`previous, item`next, item`previous, item`container
      ensures Valid() && index == old(index) && item.container == this
      ensures ring == old(ring)[..k] + [item] + old(ring)[k..]
      ensures at == if old(at) < k then old(at) else old(at) + 1
    {
      hide Linked, Distinct;
      ghost var spliced := ring[..k] + [item] + ring[k..];
      SplicedAt(ring, k, item);
      Splice(before, item, k);
      assert forall i :: 0 < i < |ring| ==> ring[i] in ring && ring[i].container == this;
      numberOfItems := numberOfItems + 1;
      at := if at < k then at else at + 1;
      ring := spliced;
    }

    /** `vListInsertEnd`: in front of the index, so behind every item that is waiting its turn.
        When the index rests on an item (the one being served), that item keeps the last turn. */
    method InsertEnd(item: ListItem)
      requires Valid() && item !in ring && item.container == null
      modifies `numberOfItems, `ring, `at, ring`next, ring`previous, item`next, item`previous, item`container
      ensures Valid() && index == old(index) && item.container == this
      ensures Upcoming() == if old(index) == end then old(Upcoming()) + [item]
                            else old(Upcoming())[..old(numberOfItems) - 1] + [item, old(index)]
      ensures old(index) == end ==> Items() == old(Items()) + [item]
      ensures multiset(Items()) == old(multiset(Items())) + multiset{item}
      ensures ReadyList() == K.AddTurn(old(ReadyList()), item.owner)
    {
      ghost var k := if at == 0 then |ring| else at;
      assert index == ring[After(k - 1, |ring|)];
      assert index.previous == ring[k - 1];
      assert at == 0 <==> index == end;
      hide Linked, TurnsOf, Turns, Distinct, After, K.AddTurn;
      ghost var spliced, at' := ring[..k] + [item] + ring[k..], if at == 0 then 0 else at + 1;
      SplicedAtIndex(ring, at, item, k, spliced, at');
      Link(index.previous, item, k);
      assert ring == spliced && at == at';
    }

    /** `vListInsert`: in front of the first item of greater value.  The end marker's value stops
        the walk; an item that itself has the largest value is placed last without walking. */
    method Insert(item: ListItem)
      requires Valid() && item !in ring && item.container == null
      modifies `numberOfItems, `ring, `at, ring`next, ring`previous, item`next, item`previous, item`container
      ensures Valid() && index == old(index) && item.container == this
      ensures Entries() == Wheel.Insert(old(Entries()), Wheel.Entry(item.owner, item.value))
      ensures multiset(Items()) == old(multiset(Items())) + multiset{item}
    {
      hide Wheel.Insert, Wheel.Rank, Linked, Distinct, EntriesOf, After;
      var walker, k := Walk(item.value);
      SplicedInto(ring, k, item);
      ghost var items := (ring[..k] + [item] + ring[k..])[1..];
      Link(walker, item, k);
      EntriesStay(items);
    }

    /** The walk of an ordered insertion: to the last node that is not later than the value. */
    method Walk(value: Tick) returns (walker: ListItem, ghost k: nat)
      requires Valid()
      ensures 1 <= k <= |ring| && ring[k - 1] == walker
      ensures k - 1 == Wheel.Rank(Entries(), value)
    {
      walker, k := end, 1;
      if value == MAX_DELAY {
        assert end == ring[After(numberOfItems, |ring|)];
        walker := end.previous;
        k := |ring|;
        LastRank(Entries(), value);
      } else {
        assert walker.next == ring[After(0, |ring|)];
        while walker.next.value <= value
          invariant 1 <= k <= |ring| && ring[k - 1] == walker
          invariant walker.next == ring[After(k - 1, |ring|)]
          invariant forall i :: 1 <= i < k ==> ring[i].value <= value
          decreases |ring| - k
        {
          walker := walker.next;
          k := k + 1;
          assert walker.next == ring[After(k - 1, |ring|)];
        }
        assert k < |ring| ==> Entries()[k - 1].time > value;
        RankIs(Entries(), value, k - 1);
      }
    }

    /** The pointer writes of a removal; `rest` is the ring that remains. */
    method Unlink(item: ListItem, ghost k: nat, ghost rest: seq<ListItem>)
      requires Distinct(ring) && Linked(ring) && 0 < k < |ring| && ring[k] == item
      requires rest == ring[..k] + ring[k + 1..]
      modifies ring`next, ring`previous, item`container
      ensures item.container == null
      ensures Linked(rest)
    {
      assert item.next == ring[After(k, |ring|)] && ring[k - 1].next == item;
      item.next.previous := item.previous;
      item.previous.next := item.next;
      item.container := null;
      Cut(ring, k);
    }

    /** `uxListRemove`: an index on the removed item falls back to the item before it, so the
        turns of the others are unchanged. */
    method Remove(item: ListItem, ghost k: nat) returns (left: nat)
      requires Valid() && 0 < k < |ring| && ring[k] == item
      modifies `numberOfItems, `index, `ring, `at, ring`next, ring`previous, item`container
      ensures Valid() && item.container == null && left == numberOfItems
      ensures ring == old(ring)[..k] + old(ring)[k + 1..]
      ensures Upcoming() == Skipping(old(Upcoming()), TurnOf(old(|ring|), old(at), k))
      ensures OwnerOnce(old(ring), k) ==> ReadyList() == K.DropTurn(old(ReadyList()), item.owner)
    {
      hide Turns, TurnsOf, Skipping, TurnOf, OwnerOnce, Linked;
      CutReady(ring, at, k);
      CutTurns(ring, at, k);
      Detach(item, k);
      left := numberOfItems;
    }

    method Detach(item: ListItem, ghost k: nat)
      requires Valid() && 0 < k < |ring| && ring[k] == item
      modifies `numberOfItems, `index, `ring, `at, ring`next, ring`previous, item`container
      ensures Valid() && item.container == null
      ensures ring == old(ring)[..k] + old(ring)[k + 1..]
      ensures at == if old(at) < k then old(at) else old(at) - 1
    {
      ghost var rest := ring[..k] + ring[k + 1..];
      var before := item.previous;
      assert before == ring[k - 1];
      CutMembers(ring, k, rest);
      CutIndex(ring, k, at, rest);
      hide Linked, Distinct;
      assert forall i :: 0 < i < |rest| ==> rest[i].container == this && rest[i] != item;
      Unlink(item, k, rest);
      Forget(item, before, k, rest);
    }

    /** The rest of a removal: the index falls back if it is on the item, and the count goes down. */
    method Forget(item: ListItem, before: ListItem, ghost k: nat, ghost rest: seq<ListItem>)
      requires numberOfItems > 0 && |rest| == numberOfItems && rest[0] == end && end.value == MAX_DELAY
      requires 0 <= (if at < k then at else at - 1) < |rest|
      requires rest[if at < k then at else at - 1] == if index == item then before else index
      requires Linked(rest) && Distinct(rest) && forall i :: 0 < i < |rest| ==> rest[i].container == this
      modifies `numberOfItems, `index, `ring, `at
      ensures Valid() && ring == rest
      ensures at == if old(at) < k then old(at) else old(at) - 1
    {
      hide Linked, Distinct;
      if index == item {
        index := before;
      }
      numberOfItems := numberOfItems - 1;
      at := if at < k then at else at - 1;
      ring := rest;
    }

    /** Serves the next item: the index moves on, skipping the end marker. */
    method Advance() returns (item: ListItem)
      requires Valid() && numberOfItems > 0
      modifies this
      ensures Valid() && ring == old(ring) && index == item
      ensures item == old(Upcoming())[0]
      ensures Upcoming() == old(Upcoming())[1..] + [item]
      ensures old(ReadyList()).ahead + old(ReadyList()).passed != []
      ensures (item.owner, ReadyList()) == K.NextTurn(old(ReadyList()))
    {
      ghost var was := at;
      assert index.next == ring[After(at, |ring|)];
      index := index.next;
      at := After(at, |ring|);
      if index == end {
        assert index.next == ring[After(at, |ring|)];
        index := index.next;
        at := 1;
      }
      item := index;
      AdvancedTurns(ring, was);
      AdvancedReady(ring, was);
    }

    /** What a list gives its items when it is asked again and again: the first `m` turns.  Over a round
        of as many calls as there are items each of them is served once, and the order stays. */
    method Serve(m: nat) returns (served: seq<ListItem>)
      requires Valid() && 0 < numberOfItems && m <= numberOfItems
      modifies this
      ensures Valid() && ring == old(ring) && numberOfItems == old(numberOfItems)
      ensures served == old(Upcoming())[..m] && Upcoming() == old(Upcoming())[m..] + served
      ensures m == numberOfItems ==> multiset(served) == multiset(Items()) && Upcoming() == old(Upcoming())
    {
      hide Turns, TurnsOf, Linked, Distinct, K.NextTurn;
      served := [];
      ghost var turns := Upcoming();
      TurnsOnce(ring, at);
      EqualShares(turns, 0);
      for i := 0 to m
        invariant Valid() && ring == old(ring) && numberOfItems == old(numberOfItems)
        invariant (served, Upcoming()) == Served(turns, i)
      {
        var item := Advance();
        served := served + [item];
      }
      EqualShares(turns, m);
    }
  }

  /** The order of service of a ring whose index is at position `at`. */
  ghost function Turns(ring: seq<ListItem>, at: nat): seq<ListItem>
    requires at < |ring|
  {
    ring[at + 1..] + ring[1..at + 1]
  }

  /** Every item has one turn. */
  lemma TurnsOnce(ring: seq<ListItem>, at: nat)
    requires at < |ring|
    ensures |Turns(ring, at)| == |ring| - 1 && multiset(Turns(ring, at)) == multiset(ring[1..])
  {
    assert ring[1..] == ring[1..at + 1] + ring[at + 1..];
  }

  /** A node in front of the index is served last, or last but the one at the index. */
  lemma SplicedAtIndex(was: seq<ListItem>, at: nat, item: ListItem, k: nat, ring: seq<ListItem>, at': nat)
    requires at < |was| && k == (if at == 0 then |was| else at)
    requires ring == was[..k] + [item] + was[k..] && at' == if at == 0 then 0 else at + 1
    ensures Turns(ring, at') == if at == 0 then Turns(was, at) + [item]
                                else Turns(was, at)[..|was| - 2] + [item, was[at]]
    ensures TurnsOf(ring, at') == K.AddTurn(TurnsOf(was, at), item.owner)
    ensures at == 0 ==> ring[1..] == was[1..] + [item]
    ensures multiset(ring[1..]) == multiset(was[1..]) + multiset{item}
  {
    hide TurnsOf, Turns, K.AddTurn;
    SplicedTurns(was, at, item);
    SplicedItems(was, k, item);
    SplicedReady(was, at, item);
  }

  ghost function OwnersOf(items: seq<ListItem>): (r: seq<nat>)
    ensures |r| == |items| && forall i :: 0 <= i < |items| ==> r[i] == items[i].owner
  {
    seq(|items|, i requires 0 <= i < |items| => items[i].owner)
  }

  ghost function TurnsOf(ring: seq<ListItem>, at: nat): K.Turns
    requires at < |ring|
  {
    K.Turns(OwnersOf(ring[1..at + 1]), OwnersOf(ring[at + 1..]))
  }

  lemma SplicedReady(was: seq<ListItem>, at: nat, item: ListItem)
    requires at < |was|
    ensures at == 0 ==> TurnsOf(was + [item], 0) == K.AddTurn(TurnsOf(was, 0), item.owner)
    ensures at > 0 ==> TurnsOf(was[..at] + [item] + was[at..], at + 1) == K.AddTurn(TurnsOf(was, at), item.owner)
  {
    if at == 0 {
      assert (was + [item])[1..] == was[1..] + [item];
      assert OwnersOf(was[1..] + [item]) == OwnersOf(was[1..]) + [item.owner];
    } else {
      var ring := was[..at] + [item] + was[at..];
      assert ring[at + 2..] == was[at + 1..];
      assert ring[1..at + 2] == was[1..at] + [item, was[at]];
      assert was[1..at + 1] == was[1..at] + [was[at]];
      assert OwnersOf(ring[1..at + 2]) == OwnersOf(was[1..at]) + [item.owner, was[at].owner];
      assert OwnersOf(was[1..at + 1])[..at - 1] == OwnersOf(was[1..at]);
    }
  }

  ghost predicate OwnerOnce(ring: seq<ListItem>, k: nat)
    requires k < |ring|
  {
    forall i :: 0 < i < |ring| && i != k ==> ring[i].owner != ring[k].owner
  }

  lemma TurnsOfOwners(ring: seq<ListItem>, at: nat)
    requires at < |ring|
    ensures TurnsOf(ring, at) == K.Turns(OwnersOf(ring)[1..at + 1], OwnersOf(ring)[at + 1..])
  {
    assert OwnersOf(ring[1..at + 1]) == OwnersOf(ring)[1..at + 1];
    assert OwnersOf(ring[at + 1..]) == OwnersOf(ring)[at + 1..];
  }

  lemma SlicesAhead(o: seq<nat>, at: nat, k: nat)
    requires at < k < |o|
    ensures var r := o[..k] + o[k + 1..];
            && r[1..at + 1] == o[1..at + 1]
            && r[at + 1..] == o[at + 1..][..k - at - 1] + o[at + 1..][k - at..]
  {
  }

  lemma SlicesBehind(o: seq<nat>, at: nat, k: nat)
    requires 0 < k <= at < |o|
    ensures var r := o[..k] + o[k + 1..];
            && r[at..] == o[at + 1..]
            && r[1..at] == o[1..at + 1][..k - 1] + o[1..at + 1][k..]
  {
  }

  /** Removing an owner ahead of the index. */
  lemma CutOwnersAhead(o: seq<nat>, at: nat, k: nat)
    requires at < k < |o| && forall i :: 0 < i < |o| && i != k ==> o[i] != o[k]
    ensures var r := o[..k] + o[k + 1..];
            K.Turns(r[1..at + 1], r[at + 1..]) == K.DropTurn(K.Turns(o[1..at + 1], o[at + 1..]), o[k])
  {
    var ahead := o[at + 1..];
    assert ahead[k - at - 1] == o[k];
    assert forall i :: 0 <= i < |ahead| ==> ahead[i] == o[at + 1 + i];
    K.DropAbsent(o[1..at + 1], o[k]);
    K.DropOne(ahead, k - at - 1);
    SlicesAhead(o, at, k);
  }

  /** Removing an owner that the index has passed or rests on. */
  lemma CutOwnersBehind(o: seq<nat>, at: nat, k: nat)
    requires 0 < k <= at < |o| && forall i :: 0 < i < |o| && i != k ==> o[i] != o[k]
    ensures var r := o[..k] + o[k + 1..];
            K.Turns(r[1..at], r[at..]) == K.DropTurn(K.Turns(o[1..at + 1], o[at + 1..]), o[k])
  {
    var passed := o[1..at + 1];
    assert passed[k - 1] == o[k];
    assert forall i :: 0 <= i < |passed| ==> passed[i] == o[1 + i];
    K.DropAbsent(o[at + 1..], o[k]);
    K.DropOne(passed, k - 1);
    SlicesBehind(o, at, k);
  }

  lemma CutReady(was: seq<ListItem>, at: nat, k: nat)
    requires at < |was| && 0 < k < |was|
    ensures OwnerOnce(was, k) ==>
      TurnsOf(was[..k] + was[k + 1..], if at < k then at else at - 1) == K.DropTurn(TurnsOf(was, at), was[k].owner)
  {
    hide TurnsOf;
    if OwnerOnce(was, k) {
      var o, ring := OwnersOf(was), was[..k] + was[k + 1..];
      TurnsOfOwners(was, at);
      TurnsOfOwners(ring, if at < k then at else at - 1);
      assert OwnersOf(ring) == o[..k] + o[k + 1..];
      if at < k { CutOwnersAhead(o, at, k); } else { CutOwnersBehind(o, at, k); }
    }
  }

  lemma AdvancedReady(ring: seq<ListItem>, at: nat)
    requires at < |ring| && |ring| > 1
    ensures var next := if at + 1 < |ring| then at + 1 else 1;
            && TurnsOf(ring, at).ahead + TurnsOf(ring, at).passed != []
            && K.NextTurn(TurnsOf(ring, at)) == (ring[next].owner, TurnsOf(ring, next))
  {
    var l := TurnsOf(ring, at);
    if at + 1 < |ring| {
      assert l.ahead[0] == ring[at + 1].owner;
      assert OwnersOf(ring[1..at + 2]) == l.passed + [l.ahead[0]];
      assert OwnersOf(ring[at + 2..]) == l.ahead[1..];
    } else {
      assert l.ahead == [] && l.passed[0] == ring[1].owner;
      assert OwnersOf(ring[1..2]) == [l.passed[0]];
      assert OwnersOf(ring[2..]) == l.passed[1..];
    }
  }

  lemma SplicedTurns(was: seq<ListItem>, at: nat, item: ListItem)
    requires at < |was|
    ensures at == 0 ==> Turns(was + [item], 0) == Turns(was, 0) + [item]
    ensures at > 0 ==>
      Turns(was[..at] + [item] + was[at..], at + 1) == Turns(was, at)[..|was| - 2] + [item, was[at]]
  {
    if at == 0 {
      assert Turns(was + [item], 0) == was[1..] + [item];
      assert Turns(was, 0) == was[1..];
    } else {
      var ring := was[..at] + [item] + was[at..];
      assert ring[at + 2..] == was[at + 1..];
      assert ring[1..at + 2] == was[1..at] + [item, was[at]];
      assert was[1..at + 1] == was[1..at] + [was[at]];
    }
  }

  lemma CutMembers(was: seq<ListItem>, k: nat, rest: seq<ListItem>)
    requires 0 < k < |was| && Distinct(was)
    requires rest == was[..k] + was[k + 1..]
    ensures Distinct(rest) && was[k] !in rest
    ensures forall i :: 0 <= i < k ==> rest[i] == was[i]
    ensures forall i :: k <= i < |rest| ==> rest[i] == was[i + 1]
  {
  }

  lemma RankIs(l: seq<Wheel.Entry>, time: nat, k: nat)
    requires k <= |l| && forall i :: 0 <= i < k ==> l[i].time <= time
    requires k < |l| ==> time < l[k].time
    ensures Wheel.Rank(l, time) == k
  {
  }

  lemma LastRank(l: seq<Wheel.Entry>, time: nat)
    requires forall i :: 0 <= i < |l| ==> l[i].time <= time
    ensures Wheel.Rank(l, time) == |l|
  {
  }

  /** Where the node at the index is found afterwards; the one before it if it is the node that goes. */
  lemma CutIndex(was: seq<ListItem>, k: nat, at: nat, rest: seq<ListItem>)
    requires 0 < k < |was| && Distinct(was) && at < |was|
    requires rest == was[..k] + was[k + 1..]
    ensures rest[if at < k then at else at - 1] == if was[at] == was[k] then was[k - 1] else was[at]
  {
  }

  /** Which turn ring position `k` has. */
  ghost function TurnOf(n: nat, at: nat, k: nat): int {
    if at < k then k - at - 1 else n - 1 - at + k - 1
  }

  ghost function Skipping(turns: seq<ListItem>, turn: int): seq<ListItem> {
    if 0 <= turn < |turns| then turns[..turn] + turns[turn + 1..] else turns
  }

  lemma CutTurns(was: seq<ListItem>, at: nat, k: nat)
    requires at < |was| && 0 < k < |was|
    ensures 0 <= TurnOf(|was|, at, k) < |was| - 1
    ensures Turns(was, at)[TurnOf(|was|, at, k)] == was[k]
    ensures Turns(was[..k] + was[k + 1..], if at < k then at else at - 1)
         == Skipping(Turns(was, at), TurnOf(|was|, at, k))
  {
    if at < k { CutAhead(was, at, k); } else { CutBehind(was, at, k); }
  }

  lemma CutAhead(was: seq<ListItem>, at: nat, k: nat)
    requires at < k < |was|
    ensures Turns(was, at)[k - at - 1] == was[k]
    ensures Turns(was[..k] + was[k + 1..], at) == Skipping(Turns(was, at), k - at - 1)
  {
    var ring := was[..k] + was[k + 1..];
    var turn := k - at - 1;
    assert ring[at + 1..] == was[at + 1..][..turn] + was[at + 1..][turn + 1..];
    assert ring[1..at + 1] == was[1..at + 1];
    SkippingLeft(was[at + 1..], was[1..at + 1], turn);
  }

  lemma CutBehind(was: seq<ListItem>, at: nat, k: nat)
    requires 0 < k <= at < |was|
    ensures Turns(was, at)[|was| - 1 - at + k - 1] == was[k]
    ensures Turns(was[..k] + was[k + 1..], at - 1) == Skipping(Turns(was, at), |was| - 1 - at + k - 1)
  {
    var ahead, passed := was[at + 1..], was[1..at + 1];
    SkippingRight(ahead, passed, k - 1);
    CutPassed(was, at, k);
    hide Skipping;
    assert Turns(was, at) == ahead + passed;
  }

  lemma CutPassed(was: seq<ListItem>, at: nat, k: nat)
    requires 0 < k <= at < |was|
    ensures var ring := was[..k] + was[k + 1..];
            ring[at..] == was[at + 1..] && ring[1..at] == was[1..at + 1][..k - 1] + was[1..at + 1][k..]
  {
  }

  lemma SkippingLeft(a: seq<ListItem>, b: seq<ListItem>, turn: nat)
    requires turn < |a|
    ensures Skipping(a + b, turn) == (a[..turn] + a[turn + 1..]) + b
  {
    assert (a + b)[..turn] == a[..turn];
    assert (a + b)[turn + 1..] == a[turn + 1..] + b;
  }

  lemma SkippingRight(a: seq<ListItem>, b: seq<ListItem>, turn: nat)
    requires turn < |b|
    ensures Skipping(a + b, |a| + turn) == a + (b[..turn] + b[turn + 1..])
  {
    assert (a + b)[..|a| + turn] == a + b[..turn];
    assert (a + b)[|a| + turn + 1..] == b[turn + 1..];
  }

  lemma AdvancedTurns(ring: seq<ListItem>, at: nat)
    requires at < |ring| && |ring| > 1
    ensures var next := if at + 1 < |ring| then at + 1 else 1;
            Turns(ring, next) == Turns(ring, at)[1..] + [ring[next]]
            && Turns(ring, at)[0] == ring[next]
  {
    if at + 1 < |ring| {
      assert ring[1..at + 2] == ring[1..at + 1] + [ring[at + 1]];
    }
  }

  lemma SplicedAt(was: seq<ListItem>, k: nat, item: ListItem)
    requires 1 <= k <= |was|
    ensures var ring := was[..k] + [item] + was[k..];
            && |ring| == |was| + 1 && ring[k] == item
            && (forall i :: 0 <= i < k ==> ring[i] == was[i])
            && (forall i :: k < i < |ring| ==> ring[i] == was[i - 1])
  {
  }

  lemma SplicedItems(was: seq<ListItem>, k: nat, item: ListItem)
    requires 1 <= k <= |was|
    ensures (was[..k] + [item] + was[k..])[1..] == was[1..][..k - 1] + [item] + was[1..][k - 1..]
    ensures multiset(was[1..][..k - 1] + [item] + was[1..][k - 1..]) == multiset(was[1..]) + multiset{item}
    ensures k == |was| ==> was[..k] + [item] + was[k..] == was + [item]
  {
    assert was[1..] == was[1..][..k - 1] + was[1..][k - 1..];
  }

  lemma SplicedEntries(was: seq<ListItem>, k: nat, item: ListItem, entries: seq<Wheel.Entry>)
    requires k <= |was| && EntriesOf(was) == entries
    ensures EntriesOf(was[..k] + [item] + was[k..])
         == entries[..k] + [Wheel.Entry(item.owner, item.value)] + entries[k..]
  {
  }

  /** A node behind the last one that is not later than it is a sorted insertion. */
  lemma SplicedInto(was: seq<ListItem>, k: nat, item: ListItem)
    requires 1 <= k <= |was| && k - 1 == Wheel.Rank(EntriesOf(was[1..]), item.value)
    ensures var items := (was[..k] + [item] + was[k..])[1..];
            && EntriesOf(items) == Wheel.Insert(EntriesOf(was[1..]), Wheel.Entry(item.owner, item.value))
            && multiset(items) == multiset(was[1..]) + multiset{item}
  {
    hide Wheel.Insert, Wheel.Rank;
    Wheel.InsertAt(EntriesOf(was[1..]), Wheel.Entry(item.owner, item.value));
    SplicedItems(was, k, item);
    SplicedEntries(was[1..], k - 1, item, EntriesOf(was[1..]));
  }

  ghost predicate Distinct(s: seq<ListItem>) {
    forall i, j :: 0 <= i < j < |s| ==> s[i] != s[j]
  }

  /** The position that follows position `i` on a ring of `n` nodes. */
  ghost function After(i: int, n: nat): int {
    if i + 1 == n then 0 else i + 1
  }

  /** Both directions of every link agree with the ring. */
  ghost predicate Linked(ring: seq<ListItem>)
    reads ring`next, ring`previous
  {
    forall i, j :: 0 <= i < |ring| && 0 <= j < |ring| && j == After(i, |ring|) ==>
      ring[i].next == ring[j] && ring[j].previous == ring[i]
  }

  twostate lemma Spliced(was: seq<ListItem>, new k: nat, new item: ListItem)
    requires 1 <= k <= |was| && Distinct(was) && item !in was && old(Linked(was))
    requires was[k - 1].next == item
    requires item.previous == was[k - 1]
    requires item.next == was[After(k - 1, |was|)]
    requires was[After(k - 1, |was|)].previous == item
    requires forall i :: 0 <= i < |was| && i != k - 1 ==> was[i].next == old(was[i].next)
    requires forall i :: 0 <= i < |was| && i != After(k - 1, |was|) ==> was[i].previous == old(was[i].previous)
    ensures Linked(was[..k] + [item] + was[k..])
    ensures Distinct(was[..k] + [item] + was[k..])
  {
    var ring := was[..k] + [item] + was[k..];
    assert forall i :: 0 <= i < k ==> ring[i] == was[i];
    assert forall i :: k < i < |ring| ==> ring[i] == was[i - 1];
    forall i, j | 0 <= i < |ring| && 0 <= j < |ring| && j == After(i, |ring|)
      ensures ring[i].next == ring[j] && ring[j].previous == ring[i]
    {
      if i != k && i != k - 1 {
        var i', j' := if i < k then i else i - 1, if j < k then j else j - 1;
        assert j' == After(i', |was|);
        assert ring[i] == was[i'] && ring[j] == was[j'];
      }
    }
  }

  twostate lemma Cut(was: seq<ListItem>, new k: nat)
    requires 0 < k < |was| && Distinct(was) && old(Linked(was))
    requires was[k - 1].next == was[After(k, |was|)] && was[After(k, |was|)].previous == was[k - 1]
    requires forall i :: 0 <= i < |was| && i != k - 1 ==> was[i].next == old(was[i].next)
    requires forall i :: 0 <= i < |was| && i != After(k, |was|) ==> was[i].previous == old(was[i].previous)
    ensures Linked(was[..k] + was[k + 1..])
  {
    var ring := was[..k] + was[k + 1..];
    assert forall i :: 0 <= i < k ==> ring[i] == was[i];
    assert forall i :: k <= i < |ring| ==> ring[i] == was[i + 1];
    forall i, j | 0 <= i < |ring| && 0 <= j < |ring| && j == After(i, |ring|)
      ensures ring[i].next == ring[j] && ring[j].previous == ring[i]
    {
      if i != k - 1 {
        var i', j' := if i < k then i else i + 1, if j < k then j else j + 1;
        assert j' == After(i', |was|);
        assert ring[i] == was[i'] && ring[j] == was[j'];
      }
    }
  }

  ghost function EntriesOf(items: seq<ListItem>): (r: seq<Wheel.Entry>)
    reads items
    ensures |r| == |items|
    ensures forall i :: 0 <= i < |items| ==> r[i] == Wheel.Entry(items[i].owner, items[i].value)
  {
    seq(|items|, i requires 0 <= i < |items| reads items => Wheel.Entry(items[i].owner, items[i].value))
  }

  twostate lemma EntriesStay(items: seq<ListItem>)
    requires forall i :: 0 <= i < |items| ==> items[i].value == old(items[i].value)
    ensures EntriesOf(items) == old(EntriesOf(items))
  {
  }

  /** What `m` calls of `Advance` return, and the order of service after them. */
  ghost function Served(turns: seq<ListItem>, m: nat): (r: (seq<ListItem>, seq<ListItem>))
    requires turns != []
    ensures |r.1| == |turns|
    decreases m
  {
    if m == 0 then ([], turns)
    else
      var (first, rest) := Served(turns, m - 1);
      (first + [rest[0]], rest[1..] + [rest[0]])
  }

  /** Equal shares: the first `m` calls serve the first `m` turns, so a round of `|turns|` calls
      serves every item exactly once and leaves the order as it was. */
  lemma {:induction false} EqualShares(turns: seq<ListItem>, m: nat)
    requires turns != [] && m <= |turns|
    decreases m
    ensures Served(turns, m) == (turns[..m], turns[m..] + turns[..m])
    ensures m == |turns| ==> Served(turns, m) == (turns, turns)
  {
    if m > 0 {
      EqualShares(turns, m - 1);
      var (first, rest) := Served(turns, m - 1);
      assert rest == turns[m - 1..] + turns[..m - 1];
      assert rest[0] == turns[m - 1];
      assert turns[..m] == turns[..m - 1] + [turns[m - 1]];
      assert rest[1..] == turns[m..] + turns[..m - 1];
      assert rest[1..] + [rest[0]] == turns[m..] + turns[..m];
    } else {
      assert turns[0..] + turns[..0] == turns;
    }
    assert turns[..|turns|] == turns;
  }
}
