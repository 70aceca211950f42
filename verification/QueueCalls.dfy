/** What the calls on a queue come to over whole runs: messages are neither lost nor invented, and a call
    whose block time has run out ends. */
module QueueCalls {
  import opened Options
  import opened Wheel
  import Q = QueueSections
  import opened QueueProtocol

  /** The step puts a message where there was none. */
  predicate Adds(c: Config, s: State, step: Step) {
    s.q.count < c.length &&
    match step
    case Run(t, _) => t < |s.phase| && s.phase[t].Trying? && s.phase[t].call.Send?
    case IsrPost(_) => true
    case _ => false
  }

  /** The step takes a message away. */
  predicate Removes(s: State, step: Step) {
    s.q.count > 0 &&
    match step
    case Run(t, _) => t < |s.phase| && s.phase[t].Trying? && s.phase[t].call.Receive?
    case IsrTake => true
    case _ => false
  }

  ghost function Added(c: Config, steps: seq<Step>): nat {
    if steps == [] then 0
    else
      var before := steps[..|steps| - 1];
      Added(c, before) + match Exec(c, before)
        case Some(s) => if Adds(c, s, steps[|steps| - 1]) then 1 else 0
        case None => 0
  }

  ghost function Removed(c: Config, steps: seq<Step>): nat {
    if steps == [] then 0
    else
      var before := steps[..|steps| - 1];
      Removed(c, before) + match Exec(c, before)
        case Some(s) => if Removes(s, steps[|steps| - 1]) then 1 else 0
        case None => 0
  }

  lemma StepCounts(c: Config, s: State, step: Step)
    requires c.Valid() && Enabled(c, s, step) && s.q.count <= c.length && CallsInv(c, s.phase)
    ensures Next(c, s, step).q.count
         == s.q.count + (if Adds(c, s, step) then 1 else 0) - (if Removes(s, step) then 1 else 0)
  {
    hide Insert, Q.CappedIncrement, Q.Drained, Q.Popped;
  }

  lemma RestOfInv(c: Config, s: State)
    requires Inv(c, s)
    ensures s.q.count <= c.length && CallsInv(c, s.phase)
  {
  }

  /** In every run of up to 127 tasks the messages there are those posted, less those received; a post to
      a full queue by overwriting replaces one. */
  lemma {:induction false} MessagesConserved(c: Config, steps: seq<Step>)
    requires c.Valid() && c.Tasks() <= 127 && Exec(c, steps).Some?
    ensures Exec(c, steps).value.q.count == Added(c, steps) - Removed(c, steps)
    decreases |steps|
  {
    if steps != [] {
      hide Inv, Enabled, Next, Adds, Removes;
      var before := steps[..|steps| - 1];
      MessagesConserved(c, before);
      RunsKeepInv(c, before);
      RestOfInv(c, Exec(c, before).value);
      StepCounts(c, Exec(c, before).value, steps[|steps| - 1]);
    }
  }

  // A call that gives up

  /** Where a call stands with so many sections left to itself once its time has run out. */
  function GivingUp(call: Call, left: nat): Phase {
    if left == 3 then UnlockingTx(call, GiveUp)
    else if left == 2 then UnlockingRx(call, GiveUp)
    else if left == 1 then Resuming(call, GiveUp)
    else if call.Send? then Outside
    else Rechecking(call)
  }

  function OwnSteps(steps: seq<Step>, t: nat): nat {
    if steps == [] then 0 else (if steps[0].Run? && steps[0].task == t then 1 else 0) + OwnSteps(steps[1..], t)
  }

  /** Nobody else moves a task on. */
  lemma OthersKeepPhase(c: Config, s: State, step: Step, t: nat)
    requires Enabled(c, s, step) && t < |s.phase|
    requires !((step.Run? || step.Begin?) && step.task == t)
    ensures |Next(c, s, step).phase| == |s.phase| && Next(c, s, step).phase[t] == s.phase[t]
  {
    hide Insert, Q.CappedIncrement, Q.Drained, Q.Popped;
  }

  lemma OwnStepGivesUp(c: Config, s: State, t: nat, choice: bool, call: Call, left: nat)
    requires Enabled(c, s, Run(t, choice)) && 0 < left <= 3 && s.phase[t] == GivingUp(call, left)
    ensures |Next(c, s, Run(t, choice)).phase| == |s.phase|
    ensures Next(c, s, Run(t, choice)).phase[t] == GivingUp(call, left - 1)
  {
    hide Insert, Q.CappedIncrement, Q.Drained, Q.Popped;
  }

  /** Whatever interrupts do in between, a call that has found its time over goes through three more
      sections of its own; then a send is over, and a receive or a peek looks once more. */
  lemma {:induction false} ExpiredCallGivesUp(c: Config, s: State, t: nat, call: Call, steps: seq<Step>)
    requires t < |s.phase| == c.Tasks() && ExecFrom(c, s, steps).Some?
    requires OwnSteps(steps, t) <= 3 && s.phase[t] == GivingUp(call, OwnSteps(steps, t))
    requires forall x :: x in steps ==> !(x.Begin? && x.task == t)
    ensures var s' := ExecFrom(c, s, steps).value;
            && t < |s'.phase| && s'.phase[t] == if call.Send? then Outside else Rechecking(call)
    decreases |steps|
  {
    hide Enabled, Next;
    if steps != [] {
      var step := steps[0];
      assert forall x :: x in steps[1..] ==> x in steps;
      if step.Run? && step.task == t {
        OwnStepGivesUp(c, s, t, step.choice, call, OwnSteps(steps, t));
      } else {
        OthersKeepPhase(c, s, step, t);
      }
      SameTasks(c, s, step);
      ExpiredCallGivesUp(c, Next(c, s, step), t, call, steps[1..]);
    }
  }

  lemma SameTasks(c: Config, s: State, step: Step)
    requires Enabled(c, s, step)
    ensures |Next(c, s, step).phase| == |s.phase|
  {
    hide Insert, Q.CappedIncrement, Q.Drained, Q.Popped;
  }

  /** The check of the time decides, and the last look of a receive ends it exactly when there is still
      nothing there. */
  lemma LastLookIff(c: Config, s: State, t: nat, expired: bool)
    requires Enabled(c, s, Run(t, expired))
    ensures s.phase[t].Timing? ==>
      (Next(c, s, Run(t, expired)).phase[t] == GivingUp(s.phase[t].call, 3) <==> expired)
    ensures s.phase[t].Rechecking? ==>
      var p := Next(c, s, Run(t, expired)).phase[t];
      (p == Outside <==> s.q.count == 0) && (p == Trying(s.phase[t].call) <==> s.q.count > 0)
  {
    hide Insert, Q.CappedIncrement, Q.Drained, Q.Popped;
  }

  // What a call comes to at the top of its loop

  lemma SectionsWake(q: Q.State)
    ensures forall overwrite ::
              var q' := Q.TaskPost(q, overwrite);
              q'.toSend == q.toSend && Wakes(q.toReceive, q'.toReceive, 1)
    ensures q.count > 0 ==>
      && Q.TaskTake(q).toReceive == q.toReceive && Wakes(q.toSend, Q.TaskTake(q).toSend, 1)
      && Q.TaskPeek(q).toSend == q.toSend && Wakes(q.toReceive, Q.TaskPeek(q).toReceive, 1)
  {
    PoppedWakes(q.toReceive);
    PoppedWakes(q.toSend);
    hide Q.Popped, Wakes;
  }

  lemma PoppedWakes(l: seq<Entry>)
    ensures Wakes(l, Q.Popped(l), 1)
  {
  }

  /** At the top of its loop a call is over if it succeeds or has no block time left; otherwise it goes on
      to lock the queue.  It succeeds exactly if there is something for it, or it overwrites; then it
      wakes the first task that waits for what it leaves behind, and nobody else. */
  lemma CallEndsIff(c: Config, s: State, t: nat, blockTime: bool)
    requires Enabled(c, s, Run(t, blockTime)) && s.phase[t].Trying?
    ensures var s', call := Next(c, s, Run(t, blockTime)), s.phase[t].call;
            var succeeds := if call.Send? then s.q.count < c.length || call.overwrite else s.q.count > 0;
            && t < |s'.phase|
            && s'.phase[t] == (if succeeds || !blockTime then Outside else Suspending(call))
            && (!succeeds ==> s'.q == s.q)
            && (succeeds ==>
                  && (if call.Receive? then Wakes(s.q.toSend, s'.q.toSend, 1) else s'.q.toSend == s.q.toSend)
                  && (if call.Receive? then s'.q.toReceive == s.q.toReceive
                      else Wakes(s.q.toReceive, s'.q.toReceive, 1)))
  {
    SectionsWake(s.q);
    hide Q.TaskPost, Q.TaskTake, Q.TaskPeek, Q.Popped, Wakes;
  }

  /** Under the lock a call that still finds nothing goes on to wait, and one that does tries again; and
      a call that has waited tries again. */
  lemma WaitsIff(c: Config, s: State, t: nat, choice: bool)
    requires Enabled(c, s, Run(t, choice))
    ensures var s', p := Next(c, s, Run(t, choice)), s.phase[t];
            && t < |s'.phase|
            && (p.Checking? ==>
                  s'.phase[t] == if (if p.call.Send? then s.q.count == c.length else s.q.count == 0)
                                 then Placing(p.call) else UnlockingTx(p.call, Retry))
            && (p.Waiting? ==> s'.phase[t] == Trying(p.call))
  {
    hide Insert, Q.CappedIncrement, Q.Drained, Q.Popped;
  }

  /** A task whose block time runs out leaves the event lists, and nobody else does. */
  lemma ExpireRemoves(c: Config, s: State, t: nat)
    requires Enabled(c, s, Expire(t))
    ensures var s' := Next(c, s, Expire(t));
            && s' == s.(q := s.q.(toSend := s'.q.toSend, toReceive := s'.q.toReceive))
            && (forall e :: e in s'.q.toSend <==> e in s.q.toSend && e.id != t)
            && (forall e :: e in s'.q.toReceive <==> e in s.q.toReceive && e.id != t)
  {
    WithoutMembers(s.q.toSend, t);
    WithoutMembers(s.q.toReceive, t);
  }

  /** An unlock wakes as many tasks as its counter owes, from the front of the list, and no more. */
  lemma UnlockWakes(q: Q.State)
    ensures Q.UnlockTx(q) == q.(txLock := Q.UNLOCKED, toReceive := Q.UnlockTx(q).toReceive)
    ensures Q.UnlockRx(q) == q.(rxLock := Q.UNLOCKED, toSend := Q.UnlockRx(q).toSend)
    ensures Wakes(q.toReceive, Q.UnlockTx(q).toReceive, q.txLock) && Wakes(q.toSend, Q.UnlockRx(q).toSend, q.rxLock)
  {
  }

  ghost predicate Wakes(l: seq<Entry>, l': seq<Entry>, owed: int) {
    && |l'| <= |l| && l[|l| - |l'|..] == l'
    && |l| - |l'| == if owed <= 0 then 0 else if owed < |l| then owed else |l|
  }
}
