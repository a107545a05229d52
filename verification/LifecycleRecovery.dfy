/**
  How the guarantees return after a record was erased under its owner: the lock as soon
  as nobody owns the record, route and containers with the next Terminate.
 */
module LifecycleRecovery {
  import opened Prelude
  import opened Lifecycle
  import opened LifecycleLock
  import opened LifecycleInvariant
  import opened LifecycleSteps
  import opened LifecycleTheorems
  import opened LifecycleRuns

  // ------------------------------------------------------------ what history does not do

  /** The same state, remembered with another history of the lock. */
  function With(s: Sys, lock: Lock): Sys {
    s.(past := s.past.(lock := lock))
  }

  lemma ProvisionsDoNotRead(s: Sys, tid: nat, o: Outcome, lock: Lock)
    requires tid in s.owners && ProvisionPc(s.owners[tid].pc)
    ensures ProvisionWork(With(s, lock), tid, o) == With(ProvisionWork(s, tid, o), lock)
  {
  }

  lemma StartsDoNotRead(s: Sys, tid: nat, o: Outcome, lock: Lock)
    requires tid in s.owners && ActivationPc(s.owners[tid].pc)
    ensures ActivationWork(With(s, lock), tid, o) == With(ActivationWork(s, tid, o), lock)
  {
  }

  lemma EndsDoNotRead(s: Sys, tid: nat, o: Outcome, lock: Lock)
    requires tid in s.owners
    ensures StopPc(s.owners[tid].pc) ==> StopWork(With(s, lock), tid, o) == With(StopWork(s, tid, o), lock)
    ensures DeletePc(s.owners[tid].pc) ==> DeleteWork(With(s, lock), tid, o) == With(DeleteWork(s, tid, o), lock)
  {
  }

  lemma CommitsDoNotRead(s: Sys, tid: nat, o: Outcome, dns: string, lock: Lock)
    requires tid in s.owners && HealthPc(s.owners[tid].pc)
    ensures HealthWork(With(s, lock), tid, o, dns) == With(HealthWork(s, tid, o, dns), lock)
  {
  }

  lemma WorkDoesNotRead(s: Sys, tid: nat, o: Outcome, dns: string, lock: Lock)
    requires tid in s.owners
    ensures WorkStep(With(s, lock), tid, o, dns) == With(WorkStep(s, tid, o, dns), lock)
  {
    var pc := s.owners[tid].pc;
    if ProvisionPc(pc) {
      ProvisionsDoNotRead(s, tid, o, lock);
    } else if ActivationPc(pc) {
      StartsDoNotRead(s, tid, o, lock);
    } else if StopPc(pc) || DeletePc(pc) {
      EndsDoNotRead(s, tid, o, lock);
    } else if HealthPc(pc) {
      CommitsDoNotRead(s, tid, o, dns, lock);
    }
  }

  /** No event depends on the history of the lock. */
  lemma HistoryIsUnread(s: Sys, e: Event, lock: Lock)
    requires Enabled(s, e)
    ensures Enabled(With(s, lock), e)
    ensures With(Apply(With(s, lock), e), Unbroken) == With(Apply(s, e), Unbroken)
  {
    if Admission(e) {
      AdmissionsDoNotRead(s, e, lock);
    } else if Edit(e) {
      EditsDoNotRead(s, e, lock);
    } else if e.Work? {
      WorkDoesNotRead(s, e.tid, e.result, e.dns, lock);
    }
  }

  lemma AdmissionsDoNotRead(s: Sys, e: Event, lock: Lock)
    requires Admission(e) && Enabled(s, e)
    ensures Enabled(With(s, lock), e) && Apply(With(s, lock), e) == With(Apply(s, e), lock)
  {
  }

  /** A host name change may crash, and a restart mends a broken lock. */
  lemma EditsDoNotRead(s: Sys, e: Event, lock: Lock)
    requires Edit(e) && Enabled(s, e)
    ensures Enabled(With(s, lock), e) && With(Apply(With(s, lock), e), Unbroken) == With(Apply(s, e), Unbroken)
  {
  }

  // ----------------------------------------------------------------- the lock returns

  /** A run in which no further Delete erases a record under its owner. */
  ghost predicate Peaceful(s: Sys, events: seq<Event>)
    decreases |events|
  {
    events != [] ==>
      Enabled(s, events[0]) && !ErasesOwned(s, events[0]) && Peaceful(Apply(s, events[0]), events[1..])
  }

  lemma {:induction false} PeacefulRunsReplay(s: Sys, events: seq<Event>)
    requires Peaceful(s, events)
    ensures Replay(s, events).Some?
    decreases |events|
  {
    if events != [] {
      PeacefulRunsReplay(Apply(s, events[0]), events[1..]);
    }
  }

  lemma PeaceStaysUnbroken(s: Sys, e: Event)
    requires Enabled(s, e) && !ErasesOwned(s, e)
    ensures Enabled(With(s, Unbroken), e) && Apply(With(s, Unbroken), e) == With(Apply(s, e), Unbroken)
  {
    HistoryIsUnread(s, e, Unbroken);
    LockMoves(With(s, Unbroken), e);
    UnbrokenDoesNotMend(With(s, Unbroken), e);
  }

  lemma UnbrokenDoesNotMend(s: Sys, e: Event)
    requires s.past.lock.Unbroken? && Enabled(s, e)
    ensures !Apply(s, e).past.lock.Mended?
  {
    if e.Work? {
      WorkLeavesHistory(s, e.tid, e.result, e.dns);
    }
  }

  lemma {:induction false} LockStays(s: Sys, events: seq<Event>)
    requires LockInv(With(s, Unbroken)) && Peaceful(s, events)
    ensures Replay(s, events).Some? && LockInv(With(Replay(s, events).value, Unbroken))
    decreases |events|
  {
    if events != [] {
      PeaceStaysUnbroken(s, events[0]);
      LockKept(With(s, Unbroken), events[0]);
      LockStays(Apply(s, events[0]), events[1..]);
    }
  }

  /** From any moment at which nobody owns the record, the lock holds until the next such Delete. */
  lemma LockReturns(s: Sys, events: seq<Event>)
    requires Reachable(s) && s.owners == map[] && Peaceful(s, events)
    ensures Replay(s, events).Some? && Locked(Replay(s, events).value)
  {
    ReachableInv(s);
    assert LockInv(With(s, Unbroken));
    LockStays(s, events);
    var n := Replay(s, events).value;
    assert forall t :: t in n.owners ==> Owns(With(n, Unbroken), n.owners[t]);
  }

  // ------------------------------------------------------------ the world is in order again

  lemma {:induction false} OrderStays(s: Sys, events: seq<Event>)
    requires Inv(With(s, Unbroken)) && Peaceful(s, events)
    ensures Replay(s, events).Some? && Inv(With(Replay(s, events).value, Unbroken))
    decreases |events|
  {
    if events != [] {
      PeaceStaysUnbroken(s, events[0]);
      InvKept(With(s, Unbroken), events[0]);
      OrderStays(Apply(s, events[0]), events[1..]);
    }
  }

  /** Terminated without a trace: nothing contradicts the record. */
  lemma BareIsInOrder(s: Sys)
    requires LockInv(s) && Idle(s) && s.world.blue == Absent && s.world.green == Absent && s.world.route == NoRoute
    requires !s.world.swept && s.record.value == StoppedRecord(s.record.value) && s.record.value.state == Terminated
    ensures Inv(With(s, Unbroken))
  {
  }

  /**
    After a restart and a fault-free Terminate the settled phases agree with the world
    again, whatever erased records left behind, until the next such Delete.
   */
  lemma TerminateRestoresOrder(s: Sys, m: Sys, events: seq<Event>)
    requires Reachable(s) && s.record.Some?
    requires !(s.record.value.state == Terminated && s.record.value.phase == Stopped)
    requires Replay(s, RESTART_AND_TERMINATE) == Some(m) && Peaceful(m, events)
    ensures
      var n := Replay(m, events);
      n.Some? && RunsAsRecorded(n.value) && StandsAsRecorded(n.value) && Locked(n.value)
  {
    TerminateAlwaysWorks(s);
    ReachableReplay(s, RESTART_AND_TERMINATE);
    ReachableInv(m);
    BareIsInOrder(m);
    OrderStays(m, events);
    LockReturns(m, events);
    SettledAgrees(With(Replay(m, events).value, Unbroken));
  }
}
