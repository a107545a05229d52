/** Every event of the lifecycle machine keeps its invariant: one lemma an event. */
module LifecycleSteps {
  import opened Prelude
  import opened Lifecycle
  import opened LifecycleInvariant
  import opened LifecycleLock

  // ----------------------------------------------------------------------- admissions

  lemma ProvisionFreshKeeps(s: Sys, e: Event)
    requires Invariant(s) && e.ProvisionFresh? && s.record.None?
    ensures Invariant(ProvisionFreshStep(s, e))
  {
    var n := ProvisionFreshStep(s, e);
    OneOwner(n, e.tid, n.owners[e.tid]);
  }

  lemma ProvisionAgainKeeps(s: Sys, e: Event)
    requires Invariant(s) && e.ProvisionAgain? && s.record.Some?
    requires JudgeProvision(s.record.value, e.hosts, e.ip, e.version) == Retry
    ensures Invariant(ProvisionAgainStep(s, e))
  {
    Nobody(s);
    var n := ProvisionAgainStep(s, e);
    OneOwner(n, e.tid, n.owners[e.tid]);
  }

  lemma ResumeKeeps(s: Sys, e: Event)
    requires Invariant(s) && e.ResumeRequest? && s.record.Some? && MayResume(s.record.value)
    ensures Invariant(ResumeStep(s, e))
  {
    Nobody(s);
    var n := ResumeStep(s, e);
    OneOwner(n, e.tid, n.owners[e.tid]);
  }

  lemma UpgradeRecordIsOk(w: World, confirmed: bool, r: Record, q: UpgradeQuery)
    requires RecordOk(w, confirmed, r) && ValidateUpgrade(r, q) == Proceed
    ensures RecordOk(w, q.confirmDowngrade, UpgradeRecord(r, q))
    ensures PcOk(w, UpgradeRecord(r, q), Isolating)
  {
  }

  lemma UpgradeKeeps(s: Sys, e: Event)
    requires Invariant(s) && e.UpgradeRequest? && s.record.Some?
    requires ValidateUpgrade(s.record.value, e.query) == Proceed
    ensures Invariant(UpgradeStep(s, e))
  {
    Nobody(s);
    UpgradeRecordIsOk(s.world, s.past.confirmed, s.record.value, e.query);
    var n := UpgradeStep(s, e);
    OneOwner(n, e.tid, n.owners[e.tid]);
  }

  lemma StoppingRecordIsOk(w: World, confirmed: bool, r: Record, to: State)
    requires RecordOk(w, confirmed, r) && MayStop(r, to)
    ensures RecordOk(w, confirmed, StoppingRecord(r, to)) && PcOk(w, StoppingRecord(r, to), Halting)
  {
  }

  lemma StopKeeps(s: Sys, e: Event)
    requires Invariant(s) && e.StopRequest? && s.record.Some? && MayStop(s.record.value, e.to)
    ensures Invariant(StopStep(s, e))
  {
    Nobody(s);
    StoppingRecordIsOk(s.world, s.past.confirmed, s.record.value, e.to);
    var n := StopStep(s, e);
    OneOwner(n, e.tid, n.owners[e.tid]);
  }

  lemma DeleteKeeps(s: Sys, e: Event)
    requires Invariant(s) && e.DeleteRequest? && s.record.Some? && MayDelete(s.record.value)
    ensures Invariant(DeleteStep(s, e))
  {
    Nobody(s);
    var n := DeleteStep(s, e);
    OneOwner(n, e.tid, n.owners[e.tid]);
  }

  // ------------------------------------------------------ writes to an unowned record

  /** What a settled record and its route are after a host name change, in any of its endings. */
  lemma NewHostsAreOk(w: World, confirmed: bool, r: Record, hosts: Hosts, ip: string, dns: string)
    requires RecordOk(w, confirmed, r) && MayChangeHosts(r)
    ensures
      RecordOk(Routed(w, HostsRoute(r, hosts)).(torn := false), confirmed, r.(hosts := hosts, ip := ip, dns := dns))
    ensures hosts == r.hosts ==> RecordOk(w, confirmed, r.(hosts := hosts, ip := ip, dns := dns))
    ensures hosts != r.hosts ==> RecordOk(Routed(w, HostsRoute(r, hosts)).(torn := true), confirmed, r)
  {
  }

  lemma HostsKeep(s: Sys, e: Event)
    requires Invariant(s) && e.HostsRequest? && s.record.Some? && MayChangeHosts(s.record.value)
    requires e.outcome.HostsPersisted?
    ensures Invariant(HostsStep(s, e))
  {
    Nobody(s);
    NewHostsAreOk(s.world, s.past.confirmed, s.record.value, e.hosts, e.ip, e.dns);
    Rewritten(s, HostsStep(s, e), s.record.value.(hosts := e.hosts, ip := e.ip, dns := e.dns));
  }

  lemma RolledBackKeeps(s: Sys, e: Event)
    requires Invariant(s) && e.HostsRequest? && s.record.Some? && MayChangeHosts(s.record.value)
    requires e.outcome.RolledBack?
    ensures Invariant(HostsStep(s, e))
  {
    var r := s.record.value;
    Nobody(s);
    NewHostsAreOk(s.world, s.past.confirmed, r, r.hosts, r.ip, r.dns);
    Rewritten(s, HostsStep(s, e), r);
  }

  /** The route names the new hosts and the record the old ones. */
  lemma TornKeeps(s: Sys, hosts: Hosts)
    requires Invariant(s) && s.record.Some? && MayChangeHosts(s.record.value) && s.record.value.hosts != hosts
    ensures Invariant(Torn(s, hosts))
  {
    var r := s.record.value;
    Nobody(s);
    NewHostsAreOk(s.world, s.past.confirmed, r, hosts, r.ip, r.dns);
    Rewritten(s, Torn(s, hosts), r);
  }

  function Torn(s: Sys, hosts: Hosts): Sys
    requires s.record.Some?
  {
    s.(world := Routed(s.world, HostsRoute(s.record.value, hosts)).(torn := true))
  }

  lemma MatomoKeeps(s: Sys, id: nat)
    requires Invariant(s) && s.record.Some? && s.record.value.state == Suspended && s.record.value.phase == Stopped
    ensures Invariant(Put(s, s.record.value.(matomo := id)))
  {
    Nobody(s);
    Rewritten(s, Put(s, s.record.value.(matomo := id)), s.record.value.(matomo := id));
  }

  lemma RedeployKeeps(s: Sys, e: Event)
    requires Invariant(s) && e.RedeployRequest? && s.record.Some?
    requires s.record.value.state == Terminated && s.record.value.phase == Stopped
    ensures Invariant(RedeployStep(s, e))
  {
    Nobody(s);
    var n := RedeployStep(s, e);
    Rewritten(s, n, n.record.value);
  }

  /** DNS writers touch no lifecycle field, so they may interleave with an owner. */
  lemma DnsKeeps(s: Sys, dns: string)
    requires Invariant(s) && s.record.Some?
    ensures Invariant(Put(s, s.record.value.(dns := dns)))
  {
    var n := Put(s, s.record.value.(dns := dns));
    assert forall t :: t in s.owners ==> Holds(s, s.owners[t]) && Holds(n, s.owners[t]);
    assert forall t :: t in s.fence.checkers && s.fence.current == Some(s.fence.checkers[t].attempt) ==>
        Checked(s, s.fence.checkers[t]);
  }

  lemma OtherServiceKeeps(s: Sys)
    requires Invariant(s)
    ensures Invariant(s.(fence := s.fence.(sequence := s.fence.sequence + 1)))
  {
    var n := s.(fence := s.fence.(sequence := s.fence.sequence + 1));
    assert forall t :: t in s.owners ==> Holds(s, s.owners[t]) && Holds(n, s.owners[t]);
    assert forall t :: t in s.fence.checkers && s.fence.current == Some(s.fence.checkers[t].attempt) ==>
        Checked(s, s.fence.checkers[t]);
  }

  // ------------------------------------------------------------------------ finishHealth

  lemma SpendKeeps(s: Sys, tid: nat)
    requires Invariant(s) && tid in s.fence.checkers
    ensures Invariant(s.(fence := Spend(s.fence, tid)))
  {
    var n := s.(fence := Spend(s.fence, tid));
    assert forall t :: t in s.owners ==> Holds(s, s.owners[t]);
    assert s.fence.current == Some(s.fence.checkers[tid].attempt) ==> Checked(s, s.fence.checkers[tid]);
    assert forall t :: t in s.owners ==> Holds(n, s.owners[t]);
    forall t | t in n.fence.checkers && n.fence.current == Some(n.fence.checkers[t].attempt)
      ensures Checked(n, n.fence.checkers[t])
    {
      assert Checked(s, s.fence.checkers[t]);
    }
  }

  lemma UnhealthyKeeps(s: Sys, n: Sys, tid: nat)
    requires Invariant(s) && tid in s.fence.checkers && Timely(s, s.fence.checkers[tid])
    requires n == Put(s.(fence := Spend(s.fence, tid)), FailedRecord(s.record.value, HealthFailure))
    ensures Invariant(n)
  {
    Nobody(s);
    SpendKeeps(s, tid);
  }

  lemma HealthyKeeps(s: Sys, n: Sys, tid: nat, dns: string)
    requires Invariant(s) && tid in s.fence.checkers && Timely(s, s.fence.checkers[tid])
    requires
      var c, r := s.fence.checkers[tid], RoutingRecord(s.record.value, dns);
      n == Own(Put(s.(fence := Spend(s.fence, tid)), r), tid, Owner(Resolving(c.gen), r, c.attempt))
    ensures Invariant(n)
  {
    Nobody(s);
    SpendKeeps(s, tid);
    assert Checked(s, s.fence.checkers[tid]);
    OneOwner(n, tid, n.owners[tid]);
  }

  lemma JudgeKeeps(s: Sys, e: Event)
    requires Invariant(s) && e.Judge? && e.tid in s.fence.checkers
    ensures Invariant(JudgeStep(s, e))
  {
    if !Timely(s, s.fence.checkers[e.tid]) || !e.put {
      SpendKeeps(s, e.tid);
    } else if e.healthy {
      HealthyKeeps(s, JudgeStep(s, e), e.tid, e.dns);
    } else {
      UnhealthyKeeps(s, JudgeStep(s, e), e.tid);
    }
  }

  lemma RestartKeeps(s: Sys)
    requires Invariant(s)
    ensures Invariant(Restarted(s))
  {
  }

  // --------------------------------------------------------------- an owner's own steps

  lemma FailingKeeps(s: Sys, tid: nat, o: Outcome)
    requires Invariant(s) && tid in s.owners && s.owners[tid].pc.Failing?
    ensures Invariant(WorkStep(s, tid, o, ""))
  {
    Sole(s, tid);
  }

  lemma PreparingKeeps(s: Sys, tid: nat, o: Outcome)
    requires Invariant(s) && tid in s.owners && s.owners[tid].pc.Preparing?
    ensures Invariant(ProvisionWork(s, tid, o))
  {
    var n := ProvisionWork(s, tid, o);
    Sole(s, tid);
    Continue(s, n, tid, n.owners[tid].pc, n.world);
  }

  lemma LaunchFirstKeeps(s: Sys, tid: nat, o: Outcome)
    requires Invariant(s) && tid in s.owners && s.owners[tid].pc.LaunchFirst?
    ensures Invariant(ProvisionWork(s, tid, o))
  {
    var n := ProvisionWork(s, tid, o);
    Sole(s, tid);
    Continue(s, n, tid, n.owners[tid].pc, n.world);
  }

  lemma IsolatingKeeps(s: Sys, tid: nat, o: Outcome)
    requires Invariant(s) && tid in s.owners && s.owners[tid].pc.Isolating?
    ensures Invariant(ActivationWork(s, tid, o))
  {
    Sole(s, tid);
    var c := s.owners[tid].copy;
    var n := ActivationWork(s, tid, o);
    if o.Fault? {
      Continue(s, n, tid, Failing(c), s.world);
    } else if c.op == Upgrade && !(s.world.route.Proxy? && s.world.route.slot == c.live) {
      Continue(s, n, tid, Clearing, Routed(s.world, Proxy(c.live, c.hosts)).(torn := false));
    } else {
      Continue(s, n, tid, Clearing, s.world);
    }
  }

  lemma ClearedIsOk(w: World, c: Record, o: Outcome)
    requires Numbered(w) && Disciplined(w, c) && PcOk(w, c, Clearing) && c.phase == Starting
    ensures
      var n := RemoveSlot(w, Target(c), o);
      && Numbered(n) && Disciplined(n, c) && n.route == w.route && n.swept == w.swept
      && (o.Success? ==> PcOk(n, c, Launching))
  {
  }

  lemma ClearingKeeps(s: Sys, tid: nat, o: Outcome)
    requires Invariant(s) && tid in s.owners && s.owners[tid].pc.Clearing?
    ensures Invariant(ActivationWork(s, tid, o))
  {
    Sole(s, tid);
    var c := s.owners[tid].copy;
    var w := RemoveSlot(s.world, Target(c), o);
    assert Disciplined(s.world, c);
    ClearedIsOk(s.world, c, o);
    if o.Success? {
      Continue(s, ActivationWork(s, tid, o), tid, Launching, w);
    } else {
      Continue(s, ActivationWork(s, tid, o), tid, Failing(c), w);
    }
  }

  /** Starting a slot that was emptied before: the new container is of the pending version. */
  lemma StartsWhatIsPending(w: World, slot: Slot, version: string, o: Outcome)
    requires Numbered(w) && Box(w, slot).Absent?
    ensures
      var n := StartSlot(w, slot, version, o);
      && Numbered(n) && n.route == w.route && n.swept == w.swept && n.stale == w.stale && n.torn == w.torn
      && Box(n, Opposite(slot)) == Box(w, Opposite(slot))
      && (o.Success? ==> Live(Box(n, slot), SlotGen(Box(n, slot)), version) && !Box(n, slot).adopted)
  {
  }

  lemma LaunchingKeeps(s: Sys, tid: nat, o: Outcome)
    requires Invariant(s) && tid in s.owners && s.owners[tid].pc.Launching?
    ensures Invariant(ActivationWork(s, tid, o))
  {
    Sole(s, tid);
    var c := s.owners[tid].copy;
    var n := ActivationWork(s, tid, o);
    StartsWhatIsPending(s.world, Target(c), TargetVersion(c), o);
    if o.Success? {
      Continue(s, n, tid, Awaiting(SlotGen(Box(n.world, Target(c)))), n.world);
    } else {
      Continue(s, n, tid, Failing(c), n.world);
    }
  }

  lemma HaltingKeeps(s: Sys, tid: nat, o: Outcome)
    requires Invariant(s) && tid in s.owners && s.owners[tid].pc.Halting?
    ensures Invariant(StopWork(s, tid, o))
  {
    var n := StopWork(s, tid, o);
    Sole(s, tid);
    Continue(s, n, tid, n.owners[tid].pc, n.world);
  }

  lemma ResolvingKeeps(s: Sys, tid: nat, o: Outcome, dns: string)
    requires Invariant(s) && tid in s.owners && s.owners[tid].pc.Resolving?
    ensures Invariant(HealthWork(s, tid, o, dns))
  {
    var n := HealthWork(s, tid, o, dns);
    Sole(s, tid);
    Continue(s, n, tid, n.owners[tid].pc, n.world);
  }

  lemma SwitchedIsOk(w: World, c: Record, gen: nat)
    requires PcOk(w, c, Switching(gen))
    ensures PcOk(Routed(w, Proxy(Target(c), RoutingHosts(c))), c, AfterSwitch(c.op, gen))
  {
  }

  lemma SwitchingKeeps(s: Sys, tid: nat, o: Outcome, dns: string)
    requires Invariant(s) && tid in s.owners && s.owners[tid].pc.Switching?
    ensures Invariant(HealthWork(s, tid, o, dns))
  {
    Sole(s, tid);
    var c, gen := s.owners[tid].copy, s.owners[tid].pc.gen;
    var n := HealthWork(s, tid, o, dns);
    if o.Fault? {
      Continue(s, n, tid, Failing(c), s.world);
    } else {
      SwitchedIsOk(s.world, c, gen);
      Continue(s, n, tid, AfterSwitch(c.op, gen), Routed(s.world, Proxy(Target(c), RoutingHosts(c))));
    }
  }

  lemma RetiringKeeps(s: Sys, tid: nat, o: Outcome, dns: string)
    requires Invariant(s) && tid in s.owners && s.owners[tid].pc.Retiring?
    ensures Invariant(HealthWork(s, tid, o, dns))
  {
    var n := HealthWork(s, tid, o, dns);
    Sole(s, tid);
    Continue(s, n, tid, n.owners[tid].pc, n.world);
  }

  lemma DrainingOldKeeps(s: Sys, tid: nat, o: Outcome, dns: string)
    requires Invariant(s) && tid in s.owners && s.owners[tid].pc.DrainingOld?
    ensures Invariant(HealthWork(s, tid, o, dns))
  {
    var n := HealthWork(s, tid, o, dns);
    Sole(s, tid);
    Continue(s, n, tid, n.owners[tid].pc, n.world);
  }

  lemma PurgingKeeps(s: Sys, tid: nat, o: Outcome)
    requires Invariant(s) && tid in s.owners && s.owners[tid].pc.Purging?
    ensures Invariant(DeleteWork(s, tid, o))
  {
    var n := DeleteWork(s, tid, o);
    Sole(s, tid);
    if o.Success? {
      Continue(s, n, tid, Unlisting, n.world);
    } else {
      Continue(s, n, tid, Failing(s.owners[tid].copy), n.world);
    }
  }

  lemma UnlistingKeeps(s: Sys, tid: nat, o: Outcome)
    requires Invariant(s) && tid in s.owners && s.owners[tid].pc.Unlisting?
    ensures Invariant(DeleteWork(s, tid, o))
  {
    var n := DeleteWork(s, tid, o);
    Sole(s, tid);
    if o.Success? {
      Continue(s, n, tid, Destroying, Routed(s.world, NoRoute));
    } else {
      Continue(s, n, tid, Failing(s.owners[tid].copy), s.world);
    }
  }

  lemma DestroyingKeeps(s: Sys, tid: nat, o: Outcome)
    requires Invariant(s) && tid in s.owners && s.owners[tid].pc.Destroying?
    ensures Invariant(DeleteWork(s, tid, o))
  {
    Sole(s, tid);
    var n := DeleteWork(s, tid, o);
    if o.Success? {
      Continue(s, n, tid, Burying, s.world.(dataset := false));
    } else {
      Continue(s, n, tid, Failing(s.owners[tid].copy), s.world.(dataset := s.world.dataset && !o.done));
    }
  }

  lemma HaltedKeeps(s: Sys, tid: nat, o: Outcome)
    requires Invariant(s) && tid in s.owners && s.owners[tid].pc.Halted?
    ensures Invariant(StopWork(s, tid, o))
  {
    Sole(s, tid);
    var c := s.owners[tid].copy;
    if o.Success? {
      Advanced(s, tid, HaltedRecord(c), Unrouting);
    } else {
      Continue(s, StopWork(s, tid, o), tid, Failing(HaltedRecord(c)), s.world);
    }
  }

  lemma ReadAgain(s: Sys, n: Sys, tid: nat, pc: Pc, w: World)
    requires Invariant(s) && tid in s.owners && s.record.Some? && s.owners[tid].pc.Unrouting?
             && !ActivationPc(pc) && !HealthPc(pc)
    requires n == Own(s.(world := w), tid, Owner(pc, s.record.value, s.owners[tid].attempt))
    requires PcOk(w, s.record.value, pc) && Numbered(w) && Disciplined(w, s.record.value) && Sweeping(n)
    ensures Invariant(n)
  {
    Sole(s, tid);
    OneOwner(n, tid, n.owners[tid]);
    FenceHolds(s, n);
  }

  lemma UnroutingKeeps(s: Sys, tid: nat, o: Outcome)
    requires Invariant(s) && tid in s.owners && s.owners[tid].pc.Unrouting?
    ensures Invariant(StopWork(s, tid, o))
  {
    Sole(s, tid);
    var r := s.record.value;
    assert r.op == s.owners[tid].copy.op && Busy(r.phase);
    if o.Fault? {
      ReadAgain(s, StopWork(s, tid, o), tid, Failing(r), s.world);
    } else {
      ReadAgain(s, StopWork(s, tid, o), tid, Resting,
                Routed(s.world, if r.op == Suspend then Page(r.hosts) else NoRoute));
    }
  }

  lemma RestingKeeps(s: Sys, tid: nat, o: Outcome)
    requires Invariant(s) && tid in s.owners && s.owners[tid].pc.Resting?
    ensures Invariant(StopWork(s, tid, o))
  {
    Sole(s, tid);
    var c := s.owners[tid].copy;
    var n := StopWork(s, tid, o);
    Ended(s, n, tid, n.record.value);
  }

  lemma RecordingKeeps(s: Sys, tid: nat, o: Outcome, dns: string)
    requires Invariant(s) && tid in s.owners && s.owners[tid].pc.Recording?
    ensures Invariant(HealthWork(s, tid, o, dns))
  {
    Sole(s, tid);
    var c := s.owners[tid].copy;
    if o.Success? {
      DnsIsIrrelevant(s.world, s.past.confirmed, s.record.value, c.(dns := dns));
      Advanced(s, tid, c.(dns := dns), Switching(s.owners[tid].pc.gen));
    } else {
      Ended(s, HealthWork(s, tid, o, dns), tid, s.record.value);
    }
  }

  lemma StartingDrainKeeps(s: Sys, tid: nat, o: Outcome, dns: string)
    requires Invariant(s) && tid in s.owners && s.owners[tid].pc.StartingDrain?
    ensures Invariant(HealthWork(s, tid, o, dns))
  {
    Sole(s, tid);
    var c := s.owners[tid].copy;
    if o.Success? {
      DnsIsIrrelevant(s.world, s.past.confirmed, s.record.value, c);
      DrainingRecordOk(s.world, s.past.confirmed, c, s.owners[tid].pc.gen);
      Advanced(s, tid, DrainingRecord(c), DrainingOld(s.owners[tid].pc.gen));
    } else {
      Ended(s, HealthWork(s, tid, o, dns), tid, s.record.value);
    }
  }

  lemma CommittingKeeps(s: Sys, tid: nat, o: Outcome, dns: string)
    requires Invariant(s) && tid in s.owners && s.owners[tid].pc.Committing?
    ensures Invariant(HealthWork(s, tid, o, dns))
  {
    Sole(s, tid);
    var c := s.owners[tid].copy;
    var n := HealthWork(s, tid, o, dns);
    if o.Success? {
      DnsIsIrrelevant(s.world, s.past.confirmed, s.record.value, c);
      RunningRecordOk(s.world, s.past.confirmed, c, s.owners[tid].pc.gen);
    }
    Ended(s, n, tid, n.record.value);
  }

  lemma AwaitFirstKeeps(s: Sys, tid: nat, o: Outcome)
    requires Invariant(s) && tid in s.owners && s.owners[tid].pc.AwaitFirst?
    ensures Invariant(ProvisionWork(s, tid, o))
  {
    var n := ProvisionWork(s, tid, o);
    Sole(s, tid);
    if o.Fault? {
      Continue(s, n, tid, n.owners[tid].pc, n.world);
    }
  }

  lemma AwaitingKeeps(s: Sys, tid: nat, o: Outcome)
    requires Invariant(s) && tid in s.owners && s.owners[tid].pc.Awaiting?
    ensures Invariant(ActivationWork(s, tid, o))
  {
    var n := ActivationWork(s, tid, o);
    Sole(s, tid);
    if o.Fault? {
      Continue(s, n, tid, n.owners[tid].pc, n.world);
    }
  }

  lemma EntombingKeeps(s: Sys, n: Sys, tid: nat)
    requires Invariant(s) && s.tombstone.None? && tid in s.owners && s.owners[tid].pc.Burying?
    requires n == Goto(s.(tombstone := Some(TombDeleting)), tid, Erasing)
    ensures Invariant(n)
  {
    Sole(s, tid);
    OneOwner(n, tid, n.owners[tid]);
    FenceHolds(s, n);
  }

  lemma BuryingKeeps(s: Sys, tid: nat, o: Outcome)
    requires Invariant(s) && s.tombstone.None? && tid in s.owners && s.owners[tid].pc.Burying?
    ensures Invariant(DeleteWork(s, tid, o))
  {
    var n := DeleteWork(s, tid, o);
    if o.Fault? {
      Sole(s, tid);
      Ended(s, n, tid, s.record.value);
    } else {
      EntombingKeeps(s, n, tid);
    }
  }

  /** DeleteLive ends what is claimed about the live record. */
  lemma ErasingKeeps(s: Sys, tid: nat, o: Outcome)
    requires Invariant(s) && s.tombstone == Some(TombDeleting) && tid in s.owners && s.owners[tid].pc.Erasing?
    ensures Invariant(DeleteWork(s, tid, o))
  {
    Sole(s, tid);
    var n := DeleteWork(s, tid, o);
    if o.Fault? {
      Ended(s, n, tid, s.record.value);
    } else {
      assert forall t :: t in s.fence.checkers && s.fence.current == Some(s.fence.checkers[t].attempt) ==>
          Checked(s, s.fence.checkers[t]);
    }
  }

  lemma ActivationKeeps(s: Sys, tid: nat, o: Outcome)
    requires Invariant(s) && tid in s.owners
    ensures ProvisionPc(s.owners[tid].pc) ==> Invariant(ProvisionWork(s, tid, o))
    ensures ActivationPc(s.owners[tid].pc) ==> Invariant(ActivationWork(s, tid, o))
  {
    match s.owners[tid].pc
    case Preparing => PreparingKeeps(s, tid, o);
    case LaunchFirst => LaunchFirstKeeps(s, tid, o);
    case AwaitFirst(_) => AwaitFirstKeeps(s, tid, o);
    case Isolating => IsolatingKeeps(s, tid, o);
    case Clearing => ClearingKeeps(s, tid, o);
    case Launching => LaunchingKeeps(s, tid, o);
    case Awaiting(_) => AwaitingKeeps(s, tid, o);
    case _ =>
  }

  lemma HealthKeeps(s: Sys, tid: nat, o: Outcome, dns: string)
    requires Invariant(s) && tid in s.owners && HealthPc(s.owners[tid].pc)
    ensures Invariant(HealthWork(s, tid, o, dns))
  {
    match s.owners[tid].pc
    case Resolving(_) => ResolvingKeeps(s, tid, o, dns);
    case Recording(_) => RecordingKeeps(s, tid, o, dns);
    case Switching(_) => SwitchingKeeps(s, tid, o, dns);
    case Retiring(_) => RetiringKeeps(s, tid, o, dns);
    case StartingDrain(_) => StartingDrainKeeps(s, tid, o, dns);
    case DrainingOld(_) => DrainingOldKeeps(s, tid, o, dns);
    case Committing(_) => CommittingKeeps(s, tid, o, dns);
  }

  lemma EndKeeps(s: Sys, tid: nat, o: Outcome)
    requires Invariant(s) && tid in s.owners && Buries(s, s.owners[tid].pc)
    ensures StopPc(s.owners[tid].pc) ==> Invariant(StopWork(s, tid, o))
    ensures DeletePc(s.owners[tid].pc) ==> Invariant(DeleteWork(s, tid, o))
  {
    match s.owners[tid].pc
    case Halting => HaltingKeeps(s, tid, o);
    case Halted => HaltedKeeps(s, tid, o);
    case Unrouting => UnroutingKeeps(s, tid, o);
    case Resting => RestingKeeps(s, tid, o);
    case Purging => PurgingKeeps(s, tid, o);
    case Unlisting => UnlistingKeeps(s, tid, o);
    case Destroying => DestroyingKeeps(s, tid, o);
    case Burying => BuryingKeeps(s, tid, o);
    case Erasing => ErasingKeeps(s, tid, o);
    case _ =>
  }

  lemma WorkKeeps(s: Sys, tid: nat, o: Outcome, dns: string)
    requires Invariant(s) && tid in s.owners && Buries(s, s.owners[tid].pc)
    ensures Invariant(WorkStep(s, tid, o, dns))
  {
    var pc := s.owners[tid].pc;
    if pc.Failing? {
      FailingKeeps(s, tid, o);
    } else if ProvisionPc(pc) || ActivationPc(pc) {
      ActivationKeeps(s, tid, o);
    } else if HealthPc(pc) {
      HealthKeeps(s, tid, o, dns);
    } else {
      EndKeeps(s, tid, o);
    }
  }

  lemma CutHostsKeep(s: Sys, e: Event)
    requires Invariant(s) && e.HostsRequest? && Enabled(s, e)
    requires e.outcome.RollbackRefused? || e.outcome.CrashedBetween?
    ensures Invariant(HostsStep(s, e))
  {
    TornKeeps(s, e.hosts);
    var n := Torn(s, e.hosts);
    if e.outcome.CrashedBetween? {
      RestartKeeps(n);
      assert HostsStep(s, e) == Restarted(n);
    } else {
      assert HostsStep(s, e) == n;
    }
  }

  /** deployDomains with every outcome. */
  lemma HostsRequestKeeps(s: Sys, e: Event)
    requires Invariant(s) && e.HostsRequest? && Enabled(s, e)
    ensures Invariant(HostsStep(s, e))
  {
    if e.outcome.HostsPersisted? {
      HostsKeep(s, e);
    } else if e.outcome.RolledBack? {
      RolledBackKeeps(s, e);
    } else if e.outcome.RouteRefused? {
      assert HostsStep(s, e) == s;
    } else {
      CutHostsKeep(s, e);
    }
  }

  // ---------------------------------------------------------------------- every event

  /** Delete beside a tombstone: nobody may own the record that goes. */
  lemma TombstoneKeeps(s: Sys, e: Event)
    requires Invariant(s) && e.TombstoneRequest? && Enabled(s, e)
    requires s.tombstone == Some(TombDeleted) ==> s.owners == map[]
    ensures Invariant(TombstoneStep(s, e))
  {
    var n := TombstoneStep(s, e);
    assert forall t :: t in s.owners ==> Holds(s, s.owners[t]);
    assert forall t :: t in s.fence.checkers && s.fence.current == Some(s.fence.checkers[t].attempt) ==>
        Checked(s, s.fence.checkers[t]);
  }

  function Swept(w: World): World {
    w.(route := NoRoute, swept := true)
  }

  lemma SweptRecordIsOk(w: World, confirmed: bool, r: Record)
    requires RecordOk(w, confirmed, r)
    ensures RecordOk(Swept(w), confirmed, r)
  {
  }

  lemma SweptOwnerIsOk(w: World, c: Record, pc: Pc)
    requires PcOk(w, c, pc)
    ensures PcOk(Swept(w), c, pc)
  {
  }

  /** The clean-up behind a tombstone may take the route of a record beside it. */
  lemma SweepKeeps(s: Sys, e: Event)
    requires Invariant(s) && s.tombstone == Some(TombDeleting) && e.Sweep?
    ensures Invariant(SweepStep(s, e))
  {
    var n := SweepStep(s, e);
    if s.record.Some? && e.removed {
      SweptRecordIsOk(s.world, s.past.confirmed, s.record.value);
    }
    forall t | t in n.owners ensures Holds(n, n.owners[t]) {
      assert Holds(s, s.owners[t]);
      if e.removed {
        SweptOwnerIsOk(s.world, s.owners[t].copy, s.owners[t].pc);
      }
    }
    assert forall t :: t in s.fence.checkers && s.fence.current == Some(s.fence.checkers[t].attempt) ==>
        Checked(s, s.fence.checkers[t]);
  }

  lemma PendingKeeps(s: Sys, pending: map<nat, Pending>)
    requires Invariant(s)
    ensures Invariant(s.(pending := pending))
  {
    var n := s.(pending := pending);
    assert forall t :: t in s.owners ==> Holds(s, s.owners[t]) && Holds(n, s.owners[t]);
    assert forall t :: t in s.fence.checkers && s.fence.current == Some(s.fence.checkers[t].attempt) ==>
        Checked(s, s.fence.checkers[t]) && Checked(n, s.fence.checkers[t]);
  }

  lemma AdmissionKeeps(s: Sys, e: Event)
    requires Invariant(s) && Admission(e) && Enabled(s, e)
    ensures Invariant(Apply(s, e))
  {
    match e
    case ProvisionFresh(_, _, _, _, _, _, _) => ProvisionFreshKeeps(s, e);
    case ProvisionAgain(_, _, _, _, _, _) => ProvisionAgainKeeps(s, e);
    case ResumeRequest(_, _, _) => ResumeKeeps(s, e);
    case UpgradeRequest(_, _) => UpgradeKeeps(s, e);
    case StopRequest(_, _) => StopKeeps(s, e);
    case DeleteRequest(_) => DeleteKeeps(s, e);
  }

  lemma EditKeeps(s: Sys, e: Event)
    requires Invariant(s) && Edit(e) && Enabled(s, e)
    ensures Invariant(Apply(s, e))
  {
    match e
    case HostsRequest(_, _, _, _) => HostsRequestKeeps(s, e);
    case MatomoRequest(id) => MatomoKeeps(s, id);
    case RedeployRequest(_, _, _, _, _) => RedeployKeeps(s, e);
    case DnsUpdate(dns) => DnsKeeps(s, dns);
  }

  lemma InvariantKept(s: Sys, e: Event)
    requires Inv(s) && s.past.lock.Unbroken? && Enabled(s, e) && Apply(s, e).past.lock.Unbroken?
    ensures Invariant(Apply(s, e))
  {
    if Admission(e) {
      AdmissionKeeps(s, e);
    } else if Edit(e) {
      EditKeeps(s, e);
    } else {
      match e
      case ProvisionCall(tid, ask) => PendingKeeps(s, s.pending[tid := Called(ask)]);
      case ProvisionLook(tid) => PendingKeeps(s, LookStep(s, tid).pending);
      case TombstoneRequest(_) => TombstoneKeeps(s, e);
      case Judge(_, _, _, _) => JudgeKeeps(s, e);
      case Work(tid, o, dns) => WorkKeeps(s, tid, o, dns);
      case Sweep(_, _, _) => SweepKeeps(s, e);
      case OtherServiceAttempt => OtherServiceKeeps(s);
      case Restart => RestartKeeps(s);
    }
  }

  /** The history that no owner's step touches, but that a record was persisted. */
  ghost predicate SameHistory(s: Sys, n: Sys) {
    n.past.lock == s.past.lock && n.past.confirmed == s.past.confirmed && (s.past.born ==> n.past.born)
  }

  lemma StartLeavesHistory(s: Sys, tid: nat, o: Outcome)
    requires tid in s.owners
    ensures ProvisionPc(s.owners[tid].pc) ==> SameHistory(s, ProvisionWork(s, tid, o))
    ensures ActivationPc(s.owners[tid].pc) ==> SameHistory(s, ActivationWork(s, tid, o))
  {
  }

  lemma EndLeavesHistory(s: Sys, tid: nat, o: Outcome)
    requires tid in s.owners
    ensures StopPc(s.owners[tid].pc) ==> SameHistory(s, StopWork(s, tid, o))
    ensures DeletePc(s.owners[tid].pc) ==> SameHistory(s, DeleteWork(s, tid, o))
  {
  }

  lemma WorkLeavesHistory(s: Sys, tid: nat, o: Outcome, dns: string)
    requires tid in s.owners
    ensures SameHistory(s, WorkStep(s, tid, o, dns))
  {
    var pc := s.owners[tid].pc;
    if ProvisionPc(pc) || ActivationPc(pc) {
      StartLeavesHistory(s, tid, o);
    } else if StopPc(pc) || DeletePc(pc) {
      EndLeavesHistory(s, tid, o);
    }
  }

  /** A broken lock stays a broken or a mended one. */
  lemma LocksStayBroken(s: Sys, e: Event)
    requires Enabled(s, e) && !s.past.lock.Unbroken?
    ensures !Apply(s, e).past.lock.Unbroken?
  {
    if e.Work? {
      WorkLeavesHistory(s, e.tid, e.result, e.dns);
    }
  }

  lemma InvKept(s: Sys, e: Event)
    requires Inv(s) && Enabled(s, e)
    ensures Inv(Apply(s, e))
  {
    LockKept(s, e);
    if Apply(s, e).past.lock.Unbroken? {
      if s.past.lock.Unbroken? {
        InvariantKept(s, e);
      } else {
        LocksStayBroken(s, e);
      }
    }
  }

  lemma {:induction false} ReplayKeeps(s: Sys, events: seq<Event>)
    requires Inv(s) && Replay(s, events).Some?
    ensures Inv(Replay(s, events).value)
    decreases |events|
  {
    if events != [] {
      InvKept(s, events[0]);
      ReplayKeeps(Apply(s, events[0]), events[1..]);
    }
  }

  /** Every reachable state satisfies the invariant. */
  lemma ReachableInv(s: Sys)
    requires Reachable(s)
    ensures Inv(s)
  {
    var events :| Replay(INITIAL, events) == Some(s);
    ReplayKeeps(INITIAL, events);
  }
}
