/**
  The phase of the record as a lock, the attempt counters and the tombstone: what every
  event keeps without a look at the world.
 */
module LifecycleLock {
  import opened Prelude
  import opened Lifecycle

  // -------------------------------------------------------------------- the invariant

  /** This attempt is the last one and was never abandoned. */
  ghost predicate Accepted(f: Fence, attempt: nat) {
    0 < attempt == f.latest && attempt !in f.abandoned
  }

  /** Whoever starts or commits an activation has an attempt. */
  predicate AttemptPc(pc: Pc) {
    ActivationPc(pc) || HealthPc(pc)
  }

  /** What an owner holds is what is persisted, in a phase that nobody else may leave. */
  ghost predicate Owns(s: Sys, o: Owner) {
    && s.record.Some? && Busy(s.record.value.phase) && s.record.value.phase != WaitingForHealth
    && SameLifecycle(o.copy, s.record.value)
    && (AttemptPc(o.pc) || o.attempt > 0 ==> Accepted(s.fence, o.attempt))
  }

  /** At most one goroutine will write the live record, and it knows what is there. */
  ghost predicate Exclusive(s: Sys) {
    && (forall t, u :: t in s.owners && u in s.owners ==> t == u)
    && (forall t :: t in s.owners ==> Owns(s, s.owners[t]))
  }

  ghost predicate Counted(f: Fence) {
    && f.latest <= f.sequence
    && (forall a :: a in f.abandoned ==> a <= f.sequence)
    && (f.current.Some? ==> f.current.value == f.latest && f.latest !in f.abandoned)
    && (forall t :: t in f.checkers ==> 0 < f.checkers[t].attempt <= f.sequence)
  }

  /** An ID that once had a record still has a live record or a tombstone. */
  ghost predicate Conserved(s: Sys) {
    && (s.past.born <==> s.record.Some? || s.tombstone.Some?)
    && (s.owners != map[] ==> s.past.born)
  }

  /** Delete works up to the tombstone before there is one, and erases the record right after. */
  ghost predicate Buries(s: Sys, pc: Pc) {
    DeletePc(pc) ==>
      if pc.Erasing? then s.tombstone == Some(TombDeleting) && s.removers == {} else s.tombstone.None?
  }

  /** The order of a deletion: no step overtakes the tombstone's phase. */
  ghost predicate Buried(s: Sys) {
    && (forall t :: t in s.owners ==> Buries(s, s.owners[t].pc))
    && (forall t, u :: t in s.removers && u in s.removers ==> t == u)
    && (s.removers != {} ==> s.tombstone == Some(TombDeleting))
    && (!s.past.lock.Unbroken? ==> s.tombstone == Some(TombDeleted))
  }

  /** An owner's attempt was issued. */
  ghost predicate Attempts(f: Fence, o: Owner) {
    o.attempt <= f.sequence && (AttemptPc(o.pc) ==> o.attempt > 0)
  }

  /** Attempts are carried by owners only after they were issued. */
  ghost predicate AttemptsIssued(s: Sys) {
    Counted(s.fence) && forall t :: t in s.owners ==> Attempts(s.fence, s.owners[t])
  }

  ghost predicate LockInv(s: Sys) {
    Conserved(s) && Buried(s) && AttemptsIssued(s) && (!s.past.lock.Broken? ==> Exclusive(s))
  }

  // ---------------------------------------------------------------------- small frames

  lemma NobodyOwns(s: Sys)
    requires Exclusive(s)
    requires s.record.None? || !Busy(s.record.value.phase) || s.record.value.phase == WaitingForHealth
    ensures s.owners == map[]
  {
    assert forall t :: t in s.owners ==> Owns(s, s.owners[t]);
  }

  lemma SoleOwner(s: Sys, tid: nat)
    requires Exclusive(s) && tid in s.owners
    ensures s.owners == map[tid := s.owners[tid]] && Owns(s, s.owners[tid])
    ensures s.owners - {tid} == map[]
  {
  }

  // ------------------------------------------------------------------------ admissions

  predicate Admission(e: Event) {
    || e.ProvisionFresh? || e.ProvisionAgain? || e.ResumeRequest? || e.UpgradeRequest? || e.StopRequest?
    || e.DeleteRequest?
  }

  /** Nobody owns a record that may be taken over. */
  lemma AdmissionsMeetNobody(s: Sys, e: Event)
    requires Exclusive(s) && Admission(e) && Enabled(s, e)
    ensures s.owners == map[]
  {
    NobodyOwns(s);
  }

  lemma ProvisionsAreExclusive(s: Sys, e: Event)
    requires Exclusive(s) && (e.ProvisionFresh? || e.ProvisionAgain?) && Enabled(s, e)
    ensures Exclusive(Apply(s, e)) && Apply(s, e).past.lock == s.past.lock
  {
    AdmissionsMeetNobody(s, e);
  }

  lemma ActivationsAreExclusive(s: Sys, e: Event)
    requires Exclusive(s) && Counted(s.fence) && (e.ResumeRequest? || e.UpgradeRequest?) && Enabled(s, e)
    ensures Exclusive(Apply(s, e)) && Apply(s, e).past.lock == s.past.lock
  {
    AdmissionsMeetNobody(s, e);
  }

  lemma EndingsAreExclusive(s: Sys, e: Event)
    requires Exclusive(s) && (e.StopRequest? || e.DeleteRequest?) && Enabled(s, e)
    ensures Exclusive(Apply(s, e)) && Apply(s, e).past.lock == s.past.lock
  {
    AdmissionsMeetNobody(s, e);
  }

  /** An admission leaves tombstone and removers alone and adds one goroutine, which may be a deleting one. */
  lemma AdmissionAddsOne(s: Sys, e: Event)
    requires Admission(e) && Enabled(s, e)
    ensures
      var n := Apply(s, e);
      && n.tombstone == s.tombstone && n.removers == s.removers && n.past.lock == s.past.lock
      && n.record.Some? && n.past.born && e.tid in n.owners && n.owners == s.owners[e.tid := n.owners[e.tid]]
      && Attempts(n.fence, n.owners[e.tid]) && n.fence.sequence >= s.fence.sequence
      && (DeletePc(n.owners[e.tid].pc) ==> n.owners[e.tid].pc.Purging? && n.tombstone.None?)
  {
  }

  lemma AdmissionCounts(s: Sys, e: Event)
    requires Counted(s.fence) && Admission(e) && Enabled(s, e)
    ensures Counted(Apply(s, e).fence)
  {
  }

  lemma AdmissionKeepsBurial(s: Sys, e: Event)
    requires LockInv(s) && Admission(e) && Enabled(s, e)
    ensures Conserved(Apply(s, e)) && Buried(Apply(s, e)) && AttemptsIssued(Apply(s, e))
  {
    AdmissionAddsOne(s, e);
    AdmissionCounts(s, e);
  }

  lemma AdmissionKeepsLock(s: Sys, e: Event)
    requires LockInv(s) && Admission(e) && Enabled(s, e)
    ensures LockInv(Apply(s, e))
  {
    AdmissionKeepsBurial(s, e);
    if s.past.lock.Broken? {
      AdmissionAddsOne(s, e);
    } else if e.ProvisionFresh? || e.ProvisionAgain? {
      ProvisionsAreExclusive(s, e);
    } else if e.ResumeRequest? || e.UpgradeRequest? {
      ActivationsAreExclusive(s, e);
    } else {
      EndingsAreExclusive(s, e);
    }
  }

  // ------------------------------------------------------------- an owner's own steps

  /** The record was kept, or written. */
  ghost predicate Persists(s: Sys, n: Sys) {
    (n.record == s.record && n.past.born == s.past.born) || (n.record.Some? && n.past.born)
  }

  /** Tombstone, clean-up and lock are where they were. */
  ghost predicate SameBurial(s: Sys, n: Sys) {
    n.tombstone == s.tombstone && n.removers == s.removers && n.past.lock == s.past.lock
  }

  lemma OwnerMoves(s: Sys, n: Sys, tid: nat, o: Owner)
    requires LockInv(s) && tid in s.owners && SameBurial(s, n) && Persists(s, n)
    requires n.owners == s.owners[tid := o] && n.fence == s.fence && o.attempt == s.owners[tid].attempt
    requires Buries(n, o.pc) && Attempts(n.fence, o) && (!s.past.lock.Broken? ==> Owns(n, o))
    ensures LockInv(n)
  {
    if !s.past.lock.Broken? {
      SoleOwner(s, tid);
    }
  }

  lemma OwnerLeaves(s: Sys, n: Sys, tid: nat)
    requires LockInv(s) && tid in s.owners && SameBurial(s, n) && Persists(s, n)
    requires n.owners == s.owners - {tid} && Counted(n.fence) && n.fence.sequence >= s.fence.sequence
    ensures LockInv(n)
  {
    if !s.past.lock.Broken? {
      SoleOwner(s, tid);
    }
  }

  lemma ProvisionKeepsLock(s: Sys, tid: nat, o: Outcome)
    requires LockInv(s) && tid in s.owners && ProvisionPc(s.owners[tid].pc)
    ensures LockInv(ProvisionWork(s, tid, o))
  {
    var n := ProvisionWork(s, tid, o);
    if s.owners[tid].pc.AwaitFirst? && o.Success? {
      OwnerLeaves(s, n, tid);
    } else {
      OwnerMoves(s, n, tid, n.owners[tid]);
    }
  }

  lemma ActivationKeepsLock(s: Sys, tid: nat, o: Outcome)
    requires LockInv(s) && tid in s.owners && ActivationPc(s.owners[tid].pc)
    ensures LockInv(ActivationWork(s, tid, o))
  {
    var n := ActivationWork(s, tid, o);
    if s.owners[tid].pc.Awaiting? && o.Success? {
      OwnerLeaves(s, n, tid);
    } else {
      OwnerMoves(s, n, tid, n.owners[tid]);
    }
  }

  /** finishRouting reads the record again, and goes on with what it read. */
  lemma UnroutingKeepsLock(s: Sys, tid: nat, o: Outcome)
    requires LockInv(s) && tid in s.owners && s.owners[tid].pc.Unrouting?
    ensures LockInv(StopWork(s, tid, o))
  {
    var t := s.owners[tid];
    var n := StopWork(s, tid, o);
    if s.record.None? || s.record.value.op != t.copy.op || !Busy(s.record.value.phase) {
      OwnerLeaves(s, n, tid);
    } else if o.Fault? {
      OwnerMoves(s, n, tid, Owner(Failing(s.record.value), s.record.value, t.attempt));
    } else {
      OwnerMoves(s, n, tid, Owner(Resting, s.record.value, t.attempt));
    }
  }

  lemma StopKeepsLock(s: Sys, tid: nat, o: Outcome)
    requires LockInv(s) && tid in s.owners && StopPc(s.owners[tid].pc)
    ensures LockInv(StopWork(s, tid, o))
  {
    var t := s.owners[tid];
    var n := StopWork(s, tid, o);
    if t.pc.Unrouting? {
      UnroutingKeepsLock(s, tid, o);
    } else if t.pc.Resting? {
      OwnerLeaves(s, n, tid);
    } else if t.pc.Halted? && o.Success? {
      OwnerMoves(s, n, tid, t.(pc := Unrouting, copy := HaltedRecord(t.copy)));
    } else {
      OwnerMoves(s, n, tid, t.(pc := n.owners[tid].pc));
    }
  }

  lemma HealthKeepsLock(s: Sys, tid: nat, o: Outcome, dns: string)
    requires LockInv(s) && tid in s.owners && HealthPc(s.owners[tid].pc)
    ensures LockInv(HealthWork(s, tid, o, dns))
  {
    var n := HealthWork(s, tid, o, dns);
    if tid in n.owners {
      OwnerMoves(s, n, tid, n.owners[tid]);
    } else {
      OwnerLeaves(s, n, tid);
    }
  }

  /** Only a goroutine that is alone, and before any tombstone, gets as far as burying. */
  lemma DeleteKeepsLock(s: Sys, tid: nat, o: Outcome)
    requires LockInv(s) && tid in s.owners && DeletePc(s.owners[tid].pc)
    ensures LockInv(DeleteWork(s, tid, o))
  {
    var n := DeleteWork(s, tid, o);
    if s.owners[tid].pc.Burying? || s.owners[tid].pc.Erasing? {
      BurialKeepsLock(s, tid, o);
    } else {
      assert Buries(s, s.owners[tid].pc);
      if !s.past.lock.Broken? {
        SoleOwner(s, tid);
      }
      OwnerMoves(s, n, tid, n.owners[tid]);
    }
  }

  lemma BurialKeepsLock(s: Sys, tid: nat, o: Outcome)
    requires LockInv(s) && tid in s.owners && (s.owners[tid].pc.Burying? || s.owners[tid].pc.Erasing?)
    ensures LockInv(DeleteWork(s, tid, o))
  {
    assert Buries(s, s.owners[tid].pc);
    SoleOwner(s, tid);
  }

  lemma FailingKeepsLock(s: Sys, tid: nat, o: Outcome)
    requires LockInv(s) && tid in s.owners && s.owners[tid].pc.Failing?
    ensures LockInv(WorkStep(s, tid, o, ""))
  {
    if !s.past.lock.Broken? {
      SoleOwner(s, tid);
    }
  }

  lemma WorkKeepsLock(s: Sys, tid: nat, o: Outcome, dns: string)
    requires LockInv(s) && tid in s.owners
    ensures LockInv(WorkStep(s, tid, o, dns))
  {
    var pc := s.owners[tid].pc;
    if pc.Failing? {
      FailingKeepsLock(s, tid, o);
    } else if ProvisionPc(pc) {
      ProvisionKeepsLock(s, tid, o);
    } else if ActivationPc(pc) {
      ActivationKeepsLock(s, tid, o);
    } else if StopPc(pc) {
      StopKeepsLock(s, tid, o);
    } else if DeletePc(pc) {
      DeleteKeepsLock(s, tid, o);
    } else {
      HealthKeepsLock(s, tid, o, dns);
    }
  }

  // --------------------------------------------------------------------- other events

  lemma JudgeKeepsLock(s: Sys, e: Event)
    requires LockInv(s) && e.Judge? && Enabled(s, e)
    ensures LockInv(JudgeStep(s, e))
  {
    var c := s.fence.checkers[e.tid];
    if !s.past.lock.Broken? && Timely(s, c) {
      NobodyOwns(s);
    }
  }

  predicate Edit(e: Event) {
    e.HostsRequest? || e.MatomoRequest? || e.RedeployRequest? || e.DnsUpdate?
  }

  lemma WriteKeepsLock(s: Sys, n: Sys)
    requires LockInv(s) && SameBurial(s, n) && Persists(s, n) && n.owners == s.owners && n.fence == s.fence
    requires !s.past.lock.Broken? ==> forall t :: t in s.owners ==> Owns(n, s.owners[t])
    ensures LockInv(n)
  {
    assert forall t :: t in n.owners ==> Buries(s, n.owners[t].pc) && Buries(n, n.owners[t].pc);
  }

  lemma RestartKeepsLock(s: Sys)
    requires LockInv(s)
    ensures LockInv(Restarted(s))
  {
  }

  lemma HostsKeepLock(s: Sys, e: Event)
    requires LockInv(s) && e.HostsRequest? && Enabled(s, e)
    ensures LockInv(HostsStep(s, e))
  {
    if !s.past.lock.Broken? {
      NobodyOwns(s);
    }
    if e.outcome.CrashedBetween? {
      var n := s.(world := Routed(s.world, HostsRoute(s.record.value, e.hosts)).(torn := true));
      WriteKeepsLock(s, n);
      RestartKeepsLock(n);
    } else {
      WriteKeepsLock(s, HostsStep(s, e));
    }
  }

  /** A DNS status may be written beside an owner; the other edits meet nobody. */
  lemma EditKeepsLock(s: Sys, e: Event)
    requires LockInv(s) && Edit(e) && Enabled(s, e)
    ensures LockInv(Apply(s, e))
  {
    if e.HostsRequest? {
      HostsKeepLock(s, e);
    } else {
      if !s.past.lock.Broken? && !e.DnsUpdate? {
        NobodyOwns(s);
      }
      assert !s.past.lock.Broken? ==> forall t :: t in s.owners ==> Owns(s, s.owners[t]);
      WriteKeepsLock(s, Apply(s, e));
    }
  }

  lemma TombstoneKeepsLock(s: Sys, e: Event)
    requires LockInv(s) && e.TombstoneRequest? && Enabled(s, e)
    ensures LockInv(TombstoneStep(s, e))
  {
  }

  lemma RestKeepsLock(s: Sys, e: Event)
    requires LockInv(s) && Enabled(s, e)
    requires e.ProvisionCall? || e.ProvisionLook? || e.OtherServiceAttempt?
    ensures LockInv(Apply(s, e))
  {
    assert forall t :: t in s.owners ==> Buries(s, s.owners[t].pc);
    assert !s.past.lock.Broken? ==> forall t :: t in s.owners ==> Owns(s, s.owners[t]);
  }

  lemma SweepKeepsLock(s: Sys, e: Event)
    requires LockInv(s) && e.Sweep? && Enabled(s, e)
    ensures LockInv(SweepStep(s, e))
  {
    assert forall t :: t in s.owners ==> Buries(s, s.owners[t].pc);
    assert s.removers == {e.tid};
    assert s.removers - {e.tid} == {};
  }

  lemma LockKept(s: Sys, e: Event)
    requires LockInv(s) && Enabled(s, e)
    ensures LockInv(Apply(s, e))
  {
    if Admission(e) {
      AdmissionKeepsLock(s, e);
    } else if Edit(e) {
      EditKeepsLock(s, e);
    } else if e.Work? {
      WorkKeepsLock(s, e.tid, e.result, e.dns);
    } else if e.Judge? {
      JudgeKeepsLock(s, e);
    } else if e.TombstoneRequest? {
      TombstoneKeepsLock(s, e);
    } else if e.Restart? {
      RestartKeepsLock(s);
    } else if e.Sweep? {
      SweepKeepsLock(s, e);
    } else {
      RestKeepsLock(s, e);
    }
  }
}
