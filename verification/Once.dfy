/** Lists that hold each task, or each timer, at most once. */
module Once {
  import opened Wheel

  ghost predicate NoDuplicates(l: seq<Entry>) {
    forall i, j :: 0 <= i < j < |l| ==> l[i].id != l[j].id
  }

  lemma {:induction false} InsertFresh(l: seq<Entry>, e: Entry)
    requires NoDuplicates(l) && forall x :: x in l ==> x.id != e.id
    ensures NoDuplicates(Insert(l, e))
    ensures forall x :: x in Insert(l, e) <==> x in l || x == e
  {
    if l != [] && l[0].time <= e.time {
      assert forall x :: x in l[1..] ==> x in l && x.id != l[0].id;
      InsertFresh(l[1..], e);
      InsertMembers(l[1..], e);
      assert forall x :: x in Insert(l[1..], e) ==> x.id != l[0].id;
    } else {
      assert forall i :: 0 <= i < |l| ==> l[i] in l;
    }
  }

  lemma {:induction false} WithoutNoDuplicates(l: seq<Entry>, t: nat)
    requires NoDuplicates(l)
    ensures NoDuplicates(Without(l, t))
  {
    if l != [] {
      WithoutNoDuplicates(l[1..], t);
      WithoutMembers(l[1..], t);
      assert forall e :: e in l[1..] ==> e.id != l[0].id;
      assert forall i :: 0 <= i < |Without(l[1..], t)| ==> Without(l[1..], t)[i] in Without(l[1..], t);
    }
  }
}
