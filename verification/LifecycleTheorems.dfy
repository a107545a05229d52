/**
  What the lifecycle protocol guarantees on every run: any interleaving of requests and
  background goroutines, with failures, partial effects, lost store writes and controller
  restarts at any point, with or without a tombstone beside the record.

  One request can break the protocol: a Delete behind a finished tombstone erases the
  live record whoever owns it.  LockBreaksIff says that nothing else does; the theorems
  hold until then, and those about the lock alone again after the next restart.
 */
module LifecycleTheorems {
  import opened Prelude
  import opened Lifecycle
  import opened LifecycleInvariant
  import opened LifecycleLock
  import opened LifecycleSteps

  // --------------------------------------------------------- the phase is an exclusive lock

  /** At most one goroutine is in a section that will write the live record, and its copy is current. */
  ghost predicate Locked(s: Sys) {
    && (forall t, u :: t in s.owners && u in s.owners ==> t == u)
    && (forall t :: t in s.owners ==>
          && s.record.Some? && SameLifecycle(s.owners[t].copy, s.record.value)
          && Busy(s.record.value.phase) && s.record.value.phase != WaitingForHealth)
  }

  lemma PhaseIsAnExclusiveLock(s: Sys)
    requires Reachable(s) && !s.past.lock.Broken?
    ensures Locked(s)
  {
    ReachableInv(s);
    assert forall t :: t in s.owners ==> Owns(s, s.owners[t]);
  }

  /** This request erases a record under its owner. */
  predicate ErasesOwned(s: Sys, e: Event) {
    e.TombstoneRequest? && s.tombstone == Some(TombDeleted) && s.owners != map[]
  }

  lemma LockMoves(s: Sys, e: Event)
    requires !s.past.lock.Broken? && Enabled(s, e)
    ensures Apply(s, e).past.lock.Broken? <==> ErasesOwned(s, e)
  {
    if e.Work? {
      WorkLeavesHistory(s, e.tid, e.result, e.dns);
    }
  }

  /** The one way to break the lock: a Delete behind a finished tombstone while somebody owns the record. */
  lemma LockBreaksIff(s: Sys, e: Event)
    requires Reachable(s) && !s.past.lock.Broken? && Enabled(s, e)
    ensures Locked(Apply(s, e)) <==> !ErasesOwned(s, e)
    ensures Apply(s, e).past.lock.Broken? <==> ErasesOwned(s, e)
  {
    LockMoves(s, e);
    if ErasesOwned(s, e) {
      var t :| t in s.owners;
      assert TombstoneStep(s, e).record.None? && t in TombstoneStep(s, e).owners;
    } else {
      ReachableStep(s, e);
      PhaseIsAnExclusiveLock(Apply(s, e));
    }
  }

  /** Without a finished tombstone nothing ever broke it. */
  lemma LockIsUnbroken(s: Sys)
    requires Reachable(s) && s.tombstone != Some(TombDeleted)
    ensures s.past.lock.Unbroken?
  {
    ReachableInv(s);
  }

  /**
    While a goroutine owns the record every other event, a restart aside, leaves the
    owner alone, and the lifecycle fields too unless it is that Delete; of the world it
    can only take the route, as the clean-up behind a tombstone.
   */
  lemma NoLifecycleWriteIsLost(s: Sys, e: Event, owner: nat)
    requires Reachable(s) && !s.past.lock.Broken? && owner in s.owners && Enabled(s, e)
    requires !e.Restart? && !(e.Work? && e.tid == owner)
    ensures owner in Apply(s, e).owners && Apply(s, e).owners[owner] == s.owners[owner]
    ensures s.record.Some?
    ensures Apply(s, e).record.Some? && SameLifecycle(s.record.value, Apply(s, e).record.value) <==> !ErasesOwned(s, e)
    ensures Apply(s, e).world == if e.Sweep? && e.removed then Swept(s.world) else s.world
  {
    ReachableInv(s);
    SoleOwner(s, owner);
    if e.Judge? {
      assert !Timely(s, s.fence.checkers[e.tid]);
    }
  }

  // ------------------------------------------------------------------- attempt fencing

  /** A health result whose attempt was abandoned or replaced writes and routes nothing. */
  lemma SupersededAttemptsAreInert(s: Sys, e: Event)
    requires Reachable(s) && e.Judge? && Enabled(s, e)
    requires
      var attempt := s.fence.checkers[e.tid].attempt;
      attempt in s.fence.abandoned || attempt != s.fence.latest
    ensures Apply(s, e) == s.(fence := s.fence.(checkers := s.fence.checkers - {e.tid}))
  {
    ReachableInv(s);
  }

  /**
    A timely result stands for the very container its attempt started, in the slot it
    targets, and no other goroutine brings it.  A current attempt is timely, unless the
    record that waited for it was erased behind a finished tombstone.
   */
  lemma TimelyResultsAreOfTheTargetedContainer(s: Sys, tid: nat)
    requires Reachable(s) && s.past.lock.Unbroken? && tid in s.fence.checkers
    requires s.fence.current == Some(s.fence.checkers[tid].attempt)
    ensures
      var c := s.fence.checkers[tid];
      && c.attempt == s.fence.latest && c.attempt !in s.fence.abandoned
      && (Timely(s, c) ==> TargetLive(s.world, s.record.value, c.gen))
      && (s.tombstone != Some(TombDeleted) ==> Timely(s, c))
    ensures forall u :: u in s.fence.checkers
                        && s.fence.checkers[u].attempt == s.fence.checkers[tid].attempt ==>
                        u == tid
  {
    ReachableInv(s);
    assert Checked(s, s.fence.checkers[tid]);
  }

  /**
    Whoever has an attempt writes under it: it is the latest, and no stop and no
    replacement has ended it.  That is every goroutine that starts or commits an
    activation, also when it is about to persist the record as failed.
   */
  lemma WritersAttemptsAreCurrent(s: Sys, tid: nat)
    requires Reachable(s) && !s.past.lock.Broken? && tid in s.owners
    requires AttemptPc(s.owners[tid].pc) || s.owners[tid].attempt > 0
    ensures 0 < s.owners[tid].attempt == s.fence.latest && s.owners[tid].attempt !in s.fence.abandoned
  {
    ReachableInv(s);
    assert Owns(s, s.owners[tid]);
  }

  /** Whatever its steps end in, failures included, a goroutine keeps its attempt while it owns the record. */
  lemma WritersKeepTheirAttempt(s: Sys, tid: nat, o: Outcome, dns: string)
    requires tid in s.owners && AttemptPc(s.owners[tid].pc)
    ensures
      var n := WorkStep(s, tid, o, dns);
      tid in n.owners ==> n.owners[tid].attempt == s.owners[tid].attempt
                          && (n.owners[tid].pc.Failing? || AttemptPc(n.owners[tid].pc))
  {
    if ActivationPc(s.owners[tid].pc) {
      assert WorkStep(s, tid, o, dns) == ActivationWork(s, tid, o);
    } else {
      assert WorkStep(s, tid, o, dns) == HealthWork(s, tid, o, dns);
    }
  }

  /** And all the while the slot it commits runs the very generation that its attempt started and checked. */
  lemma AcceptedContainersStay(s: Sys, tid: nat)
    requires Reachable(s) && s.past.lock.Unbroken? && tid in s.owners && HealthPc(s.owners[tid].pc)
    ensures
      var o := s.owners[tid];
      && Runs(Box(s.world, Target(o.copy))) && Box(s.world, Target(o.copy)).gen == o.pc.gen
      && (Box(s.world, Target(o.copy)).adopted <==> Box(s.world, Target(o.copy)).version != TargetVersion(o.copy))
  {
    ReachableInv(s);
    assert Holds(s, s.owners[tid]);
  }

  /** finishHealth moves the traffic only to the running generation that its attempt started. */
  lemma SwitchingIsFenced(s: Sys, tid: nat)
    requires Reachable(s) && s.past.lock.Unbroken? && tid in s.owners && s.owners[tid].pc.Switching?
    ensures
      var o := s.owners[tid];
      var n := HealthWork(s, tid, Success, "");
      && o.attempt == s.fence.latest && o.attempt !in s.fence.abandoned
      && n.world.route == Proxy(Target(o.copy), RoutingHosts(o.copy))
      && Runs(Box(n.world, n.world.route.slot)) && Box(n.world, n.world.route.slot).gen == o.pc.gen
  {
    WritersAttemptsAreCurrent(s, tid);
    AcceptedContainersStay(s, tid);
    var c := s.owners[tid].copy;
    assert HealthWork(s, tid, Success, "").world == Routed(s.world, Proxy(Target(c), RoutingHosts(c)));
  }

  // --------------------------------------------------- settled phases agree with the world

  /**
    running: the service is active, and its live slot runs and receives exactly the
    traffic; only beside a tombstone may the route be gone.
   */
  ghost predicate RunsAsRecorded(s: Sys) {
    s.record.Some? && s.record.value.phase == Running ==>
      var r, w := s.record.value, s.world;
      && r.state == Active && r.op == NoOperation
      && r.target.None? && r.targetVersion.None? && r.targetHosts.None? && r.targetIp.None? && r.targetPkg.None?
      && Runs(Box(w, r.live)) && (Box(w, r.live).version == r.version <==> !Box(w, r.live).adopted)
      && (if w.route.NoRoute? then s.tombstone.Some?
          else w.route.Proxy? && w.route.slot == r.live && (w.route.hosts == r.hosts <==> !w.torn))
      && s.owners == map[]
  }

  /** stopped: the suspension page and nothing running, or no route and no containers. */
  ghost predicate StandsAsRecorded(s: Sys) {
    s.record.Some? && s.record.value.phase == Stopped ==>
      var r, w := s.record.value, s.world;
      && r.op == NoOperation && r.target.None? && r.targetVersion.None?
      && (|| (r.state == Suspended && !Runs(w.blue) && !Runs(w.green)
              && if w.route.NoRoute? then s.tombstone.Some?
                 else w.route.Page? && (w.route.hosts == r.hosts <==> !w.torn))
          || (r.state == Terminated && w.route == NoRoute && w.blue == Absent && w.green == Absent))
      && s.owners == map[]
  }

  lemma SettledAgrees(s: Sys)
    requires Invariant(s)
    ensures RunsAsRecorded(s) && StandsAsRecorded(s)
  {
    if s.record.Some? && !Busy(s.record.value.phase) {
      Nobody(s);
    }
  }

  lemma RunningAgreesWithTheWorld(s: Sys)
    requires Reachable(s) && s.past.lock.Unbroken?
    ensures RunsAsRecorded(s)
  {
    ReachableInv(s);
    SettledAgrees(s);
  }

  lemma StoppedAgreesWithTheWorld(s: Sys)
    requires Reachable(s) && s.past.lock.Unbroken?
    ensures StandsAsRecorded(s)
  {
    ReachableInv(s);
    SettledAgrees(s);
  }

  lemma RequestsLeaveTheWorld(s: Sys, e: Event)
    requires Enabled(s, e) && !e.Work? && !e.HostsRequest? && !e.Sweep?
    ensures Apply(s, e).world.route == s.world.route && Apply(s, e).world.dataset == s.world.dataset
  {
  }

  lemma NewRoute(w: World, r: Record, hosts: Hosts, outcome: HostsOutcome)
    requires !w.route.NoRoute?
    ensures !HostsWorld(w, r, hosts, outcome).route.NoRoute?
  {
  }

  lemma NewRouteKeepsTheDataset(w: World, r: Record, hosts: Hosts, outcome: HostsOutcome)
    ensures HostsWorld(w, r, hosts, outcome).dataset == w.dataset
  {
  }

  lemma OnlyWorkTouchesTheDataset(s: Sys, e: Event)
    requires Enabled(s, e) && !e.Work?
    ensures Apply(s, e).world.dataset == s.world.dataset
  {
    if e.HostsRequest? {
      NewRouteKeepsTheDataset(s.world, s.record.value, e.hosts, e.outcome);
    } else if !e.Sweep? {
      RequestsLeaveTheWorld(s, e);
    }
  }

  /** The one event that leaves a settled service without its route: a clean-up behind a tombstone. */
  lemma SweepsUnrouteIff(s: Sys, e: Event)
    requires Reachable(s) && s.past.lock.Unbroken? && s.record.Some? && MayChangeHosts(s.record.value)
    requires !s.world.route.NoRoute? && Enabled(s, e)
    ensures Apply(s, e).world.route.NoRoute? <==> e.Sweep? && e.removed
  {
    SettledMeansUnowned(s);
    if e.HostsRequest? {
      NewRoute(s.world, s.record.value, e.hosts, e.outcome);
    } else if !e.Sweep? {
      RequestsLeaveTheWorld(s, e);
    }
  }

  lemma SettledMeansUnowned(s: Sys)
    requires Reachable(s) && s.past.lock.Unbroken? && s.record.Some? && MayChangeHosts(s.record.value)
    ensures s.owners == map[]
  {
    ReachableInv(s);
    Nobody(s);
  }

  lemma SettledHosts(s: Sys)
    requires Reachable(s) && s.past.lock.Unbroken? && s.record.Some? && MayChangeHosts(s.record.value)
    requires !s.world.torn && !s.world.route.NoRoute?
    ensures s.world.route.hosts == s.record.value.hosts && !Busy(s.record.value.phase)
  {
    if s.record.value.phase == Running {
      RunningAgreesWithTheWorld(s);
    } else {
      StoppedAgreesWithTheWorld(s);
    }
  }

  lemma HostsWorldAfter(w: World, r: Record, hosts: Hosts, outcome: HostsOutcome)
    requires !w.route.NoRoute? && w.route.hosts == r.hosts
    requires outcome.RollbackRefused? || outcome.CrashedBetween? || outcome.RouteRefused? ==> r.hosts != hosts
    ensures
      var n := HostsWorld(w, r, hosts, outcome);
      && !n.route.NoRoute?
      && n.route.hosts == if outcome.RouteRefused? || outcome.RolledBack? then r.hosts else hosts
  {
  }

  lemma HostsAfter(s: Sys, e: Event)
    requires e.HostsRequest? && Enabled(s, e) && !s.world.route.NoRoute? && !Busy(s.record.value.phase)
    requires s.world.route.hosts == s.record.value.hosts
    ensures
      var n := HostsStep(s, e);
      && n.record.Some? && n.record.value.phase == s.record.value.phase && !n.world.route.NoRoute?
      && (n.world.route.hosts != n.record.value.hosts <==> e.outcome.RollbackRefused? || e.outcome.CrashedBetween?)
  {
    HostsWorldAfter(s.world, s.record.value, e.hosts, e.outcome);
  }

  /** The exact endings of deployDomains that leave a settled service under other names than recorded. */
  lemma HostsAreTornIff(s: Sys, e: Event)
    requires Reachable(s) && s.past.lock.Unbroken? && e.HostsRequest? && Enabled(s, e)
    requires !s.world.torn && !s.world.route.NoRoute?
    ensures
      var n := HostsStep(s, e);
      && n.record.Some? && n.record.value.phase == s.record.value.phase && !n.world.route.NoRoute?
      && (n.world.route.hosts != n.record.value.hosts <==> e.outcome.RollbackRefused? || e.outcome.CrashedBetween?)
  {
    SettledHosts(s);
    HostsAfter(s, e);
  }

  /** The exact case in which a start adopts a container: a first start that finds another version. */
  lemma AdoptsIff(s: Sys, tid: nat)
    requires Reachable(s) && s.past.lock.Unbroken? && tid in s.owners
    requires s.owners[tid].pc.LaunchFirst? || s.owners[tid].pc.Launching?
    ensures
      var o := s.owners[tid];
      var slot := if o.pc.LaunchFirst? then Blue else Target(o.copy);
      var n := WorkStep(s, tid, Success, "");
      && Runs(Box(n.world, slot))
      && (Box(n.world, slot).adopted <==>
            o.pc.LaunchFirst? && s.world.blue.Present? && s.world.blue.version != TargetVersion(o.copy))
  {
    ReachableInv(s);
    Sole(s, tid);
    if s.owners[tid].pc.LaunchFirst? {
      assert WorkStep(s, tid, Success, "").world ==
             StartSlot(s.world, Blue, TargetVersion(s.owners[tid].copy), Success);
    } else {
      assert WorkStep(s, tid, Success, "").world ==
             StartSlot(s.world, Target(s.owners[tid].copy), TargetVersion(s.owners[tid].copy), Success);
    }
  }

  // -------------------------------------------------------- the old slot keeps serving

  lemma UpgradeStartKeepsRouted(s: Sys, tid: nat, o: Outcome)
    requires Invariant(s) && tid in s.owners && s.owners[tid].copy.op == Upgrade && s.world.route.Proxy?
    requires ActivationPc(s.owners[tid].pc)
    ensures Box(ActivationWork(s, tid, o).world, s.world.route.slot) == Box(s.world, s.world.route.slot)
  {
    Sole(s, tid);
  }

  lemma UpgradeFinishKeepsRouted(s: Sys, tid: nat, o: Outcome, dns: string)
    requires Invariant(s) && tid in s.owners && s.owners[tid].copy.op == Upgrade && s.world.route.Proxy?
    requires HealthPc(s.owners[tid].pc)
    ensures Box(HealthWork(s, tid, o, dns).world, s.world.route.slot) == Box(s.world, s.world.route.slot)
  {
    Sole(s, tid);
  }

  /** No step of an upgrade touches the container behind the current route. */
  lemma UpgradesNeverTouchTheRoutedContainer(s: Sys, tid: nat, o: Outcome, dns: string)
    requires Reachable(s) && s.past.lock.Unbroken? && tid in s.owners && s.owners[tid].copy.op == Upgrade
    requires s.world.route.Proxy?
    ensures Box(WorkStep(s, tid, o, dns).world, s.world.route.slot) == Box(s.world, s.world.route.slot)
  {
    ReachableInv(s);
    Sole(s, tid);
    if ActivationPc(s.owners[tid].pc) {
      UpgradeStartKeepsRouted(s, tid, o);
    } else if HealthPc(s.owners[tid].pc) {
      UpgradeFinishKeepsRouted(s, tid, o, dns);
    }
  }

  /**
    From the removal of the target until the new container is proved the old slot has the
    traffic, unless the clean-up behind a tombstone has taken the route.
   */
  lemma OldSlotServesUntilTheNewOneIsProved(s: Sys)
    requires Reachable(s) && s.past.lock.Unbroken? && s.record.Some? && s.record.value.op == Upgrade
    requires
      || s.record.value.phase == WaitingForHealth
      || (s.record.value.phase == Failed && s.record.value.lastError == HealthFailure)
      || exists t ::
           t in s.owners && (s.owners[t].pc.Clearing? || s.owners[t].pc.Launching? || s.owners[t].pc.Awaiting?)
    ensures if s.world.route.NoRoute? then s.tombstone.Some?
            else s.world.route.Proxy? && s.world.route.slot == s.record.value.live
    ensures Target(s.record.value) != s.record.value.live
  {
    ReachableInv(s);
    assert forall t :: t in s.owners ==> Holds(s, s.owners[t]);
  }

  // ------------------------------------------------------------- how many containers run

  /**
    How many containers run, unless a provision took over what it should not.
    TakesOverIff says when one does, and the lemmas after it what each start then
    leaves running.
   */
  lemma OneContainerRuns(s: Sys)
    requires Reachable(s) && s.past.lock.Unbroken? && s.record.Some? && !s.world.stale
    ensures
      var r := s.record.value;
      Runs(s.world.blue) && Runs(s.world.green) ==>
        r.state == Active && (r.op == Upgrade || r.op == Suspend || r.op == Terminate)
    ensures s.record.value.state != Active ==> !Runs(Box(s.world, s.record.value.live))
  {
    ReachableInv(s);
  }

  /** A new record beside running containers, or a retry of a stopped one. */
  predicate TakesOver(s: Sys, e: Event)
    requires Enabled(s, e)
  {
    || (e.ProvisionFresh? && (Runs(s.world.blue) || Runs(s.world.green)))
    || (e.ProvisionAgain? && s.record.value.phase == Stopped)
  }

  /** Every container was stopped or removed. */
  predicate StopsEverything(s: Sys, e: Event)
    requires Enabled(s, e)
  {
    e.Work? && e.result.Success? && (s.owners[e.tid].pc.Halting? || s.owners[e.tid].pc.Purging?)
  }

  lemma StopsClear(s: Sys, tid: nat, o: Outcome)
    requires tid in s.owners && (StopPc(s.owners[tid].pc) || DeletePc(s.owners[tid].pc))
    ensures
      var pc := s.owners[tid].pc;
      WorkStep(s, tid, o, "").world.stale <==> s.world.stale && !(o.Success? && (pc.Halting? || pc.Purging?))
  {
    if StopPc(s.owners[tid].pc) {
      assert WorkStep(s, tid, o, "") == StopWork(s, tid, o);
    } else {
      assert WorkStep(s, tid, o, "") == DeleteWork(s, tid, o);
    }
  }

  lemma StartsDoNotClear(s: Sys, tid: nat, o: Outcome, dns: string)
    requires tid in s.owners
    ensures ProvisionPc(s.owners[tid].pc) ==> ProvisionWork(s, tid, o).world.stale == s.world.stale
    ensures ActivationPc(s.owners[tid].pc) ==> ActivationWork(s, tid, o).world.stale == s.world.stale
    ensures HealthPc(s.owners[tid].pc) ==> HealthWork(s, tid, o, dns).world.stale == s.world.stale
  {
  }

  lemma WorkTakesNothingOver(s: Sys, e: Event)
    requires e.Work? && Enabled(s, e)
    ensures WorkStep(s, e.tid, e.result, e.dns).world.stale <==> s.world.stale && !StopsEverything(s, e)
  {
    var pc := s.owners[e.tid].pc;
    if StopPc(pc) || DeletePc(pc) {
      StopsClear(s, e.tid, e.result);
      assert WorkStep(s, e.tid, e.result, e.dns) == WorkStep(s, e.tid, e.result, "");
    } else {
      StartsDoNotClear(s, e.tid, e.result, e.dns);
    }
  }

  /** Exactly these events end the guarantee, and exactly these restore it. */
  lemma TakesOverIff(s: Sys, e: Event)
    requires Enabled(s, e)
    ensures Apply(s, e).world.stale <==> TakesOver(s, e) || (s.world.stale && !StopsEverything(s, e))
  {
    if e.Work? {
      WorkTakesNothingOver(s, e);
    } else if e.HostsRequest? {
      assert HostsWorld(s.world, s.record.value, e.hosts, e.outcome).stale == s.world.stale;
    }
  }

  /** This event starts the container of this slot, whether or not it then reports an error. */
  predicate Launches(s: Sys, e: Event, slot: Slot)
    requires Enabled(s, e)
  {
    && e.Work?
    && var o := s.owners[e.tid];
       && ((o.pc.LaunchFirst? && slot == Blue) || (o.pc.Launching? && slot == Target(o.copy)))
       && (e.result.Success? || (Reached(e.result, slot) && e.result.done))
  }

  lemma StartingLaunches(s: Sys, tid: nat, o: Outcome, slot: Slot)
    requires tid in s.owners && !Runs(Box(s.world, slot))
    ensures ProvisionPc(s.owners[tid].pc) ==>
              (Runs(Box(ProvisionWork(s, tid, o).world, slot)) <==> Launches(s, Work(tid, o, ""), slot))
    ensures ActivationPc(s.owners[tid].pc) ==>
              (Runs(Box(ActivationWork(s, tid, o).world, slot)) <==> Launches(s, Work(tid, o, ""), slot))
  {
  }

  lemma StopsLaunchNothing(s: Sys, tid: nat, o: Outcome, slot: Slot)
    requires tid in s.owners && StopPc(s.owners[tid].pc) && !Runs(Box(s.world, slot))
    ensures !Runs(Box(StopWork(s, tid, o).world, slot))
  {
  }

  lemma DeletionsLaunchNothing(s: Sys, tid: nat, o: Outcome, slot: Slot)
    requires tid in s.owners && DeletePc(s.owners[tid].pc) && !Runs(Box(s.world, slot))
    ensures !Runs(Box(DeleteWork(s, tid, o).world, slot))
  {
  }

  lemma CommitsLaunchNothing(s: Sys, tid: nat, o: Outcome, dns: string, slot: Slot)
    requires tid in s.owners && HealthPc(s.owners[tid].pc) && !Runs(Box(s.world, slot))
    ensures !Runs(Box(HealthWork(s, tid, o, dns).world, slot))
  {
  }

  /** A container that does not run starts to run at exactly these events. */
  lemma StartsToRunIff(s: Sys, e: Event, slot: Slot)
    requires Enabled(s, e) && !Runs(Box(s.world, slot))
    ensures Runs(Box(Apply(s, e).world, slot)) <==> Launches(s, e, slot)
  {
    if e.Work? {
      var pc := s.owners[e.tid].pc;
      if ProvisionPc(pc) || ActivationPc(pc) {
        StartingLaunches(s, e.tid, e.result, slot);
      } else if StopPc(pc) {
        StopsLaunchNothing(s, e.tid, e.result, slot);
      } else if DeletePc(pc) {
        DeletionsLaunchNothing(s, e.tid, e.result, slot);
      } else if HealthPc(pc) {
        CommitsLaunchNothing(s, e.tid, e.result, e.dns, slot);
      }
    } else if e.HostsRequest? {
      var w := HostsWorld(s.world, s.record.value, e.hosts, e.outcome);
      assert w.blue == s.world.blue && w.green == s.world.green;
    }
  }

  /** The state after this admission and three successful calls of its goroutine. */
  function StartedBy(s: Sys, e: Event): Sys
    requires (e.ResumeRequest? || e.UpgradeRequest?) && Enabled(s, e)
  {
    var s1 := Apply(s, e);
    var s2 := ActivationWork(s1, e.tid, Success);
    var s3 := ActivationWork(s2, e.tid, Success);
    ActivationWork(s3, e.tid, Success)
  }

  /** The slot that an admitted start leaves alone. */
  function Spared(r: Record, e: Event): Slot
    requires e.ResumeRequest? || e.UpgradeRequest?
  {
    if e.UpgradeRequest? && UpgradeOperation(r) == Provision then Opposite(r.live) else r.live
  }

  /**
    Once an admitted Resume or upgrade has started its container, both slots run if and
    only if the other slot ran at the admission: for a Resume, the live one.
   */
  lemma StartsRunBothIff(s: Sys, e: Event)
    requires (e.ResumeRequest? || e.UpgradeRequest?) && Enabled(s, e)
    ensures
      var n := StartedBy(s, e);
      && n.record.Some? && n.record.value.state == s.record.value.state
      && (Runs(n.world.blue) && Runs(n.world.green) <==> Runs(Box(s.world, Spared(s.record.value, e))))
  {
    StartEndsIn(s, e);
  }

  /**
    And the live slot of a service that is not active then runs if and only if it ran
    before, or the admission replaced a provision: that targets the live slot.
   */
  lemma StartsRunTheLiveSlotIff(s: Sys, e: Event)
    requires (e.ResumeRequest? || e.UpgradeRequest?) && Enabled(s, e)
    ensures
      var r, n := s.record.value, StartedBy(s, e);
      && n.record.Some? && n.record.value.state == r.state && n.record.value.live == r.live
      && (r.state != Active && Runs(Box(n.world, r.live)) <==>
            r.state != Active
            && ((e.UpgradeRequest? && UpgradeOperation(r) == Provision) || Runs(Box(s.world, r.live))))
  {
    StartEndsIn(s, e);
  }

  /** The target runs, and the spared slot is as it was. */
  lemma StartEndsIn(s: Sys, e: Event)
    requires (e.ResumeRequest? || e.UpgradeRequest?) && Enabled(s, e)
    ensures
      var r, n := s.record.value, StartedBy(s, e);
      && n.record == Apply(s, e).record && n.record.Some?
      && n.record.value.state == r.state && n.record.value.live == r.live
      && Runs(Box(n.world, Opposite(Spared(r, e)))) && Box(n.world, Spared(r, e)) == Box(s.world, Spared(r, e))
  {
    var s1 := Apply(s, e);
    var s2 := ActivationWork(s1, e.tid, Success);
    StartRunsTarget(s1, s2, e.tid);
    assert Target(s1.record.value) == Opposite(Spared(s.record.value, e));
  }

  lemma StartRunsTarget(s: Sys, m: Sys, tid: nat)
    requires tid in s.owners && s.owners[tid].pc == Isolating && m == ActivationWork(s, tid, Success)
    ensures tid in m.owners && m.owners[tid].pc == Clearing && m.record == s.record
    ensures
      var target := Target(s.owners[tid].copy);
      var k := ActivationWork(m, tid, Success);
      && tid in k.owners && k.owners[tid].pc == Launching
      && var n := ActivationWork(k, tid, Success);
         n.record == s.record && Runs(Box(n.world, target))
         && Box(n.world, Opposite(target)) == Box(s.world, Opposite(target))
  {
  }

  /** The state after an admitted provision and two successful calls of its goroutine. */
  function ProvisionedBy(s: Sys, e: Event): Sys
    requires (e.ProvisionFresh? || e.ProvisionAgain?) && Enabled(s, e)
  {
    ProvisionWork(ProvisionWork(Apply(s, e), e.tid, Success), e.tid, Success)
  }

  /** Once a provision has started its container, both slots run if and only if the second one ran before. */
  lemma ProvisionsRunBothIff(s: Sys, e: Event)
    requires (e.ProvisionFresh? || e.ProvisionAgain?) && Enabled(s, e)
    ensures
      var n := ProvisionedBy(s, e);
      && n.record.Some? && n.record.value.op == Provision
      && n.record.value.state == (if e.ProvisionFresh? then Active else s.record.value.state)
      && (Runs(n.world.blue) && Runs(n.world.green) <==> Runs(s.world.green))
  {
  }

  /**
    And the live slot of a service that is not active then runs if and only if it is the
    first one, or ran before.
   */
  lemma RetryStartsTheLiveSlotIff(s: Sys, e: Event)
    requires e.ProvisionAgain? && Enabled(s, e)
    ensures
      var r, n := s.record.value, ProvisionedBy(s, e);
      && n.record.Some? && n.record.value.state == r.state && n.record.value.live == r.live
      && (r.state != Active && Runs(Box(n.world, r.live)) <==>
            r.state != Active && (r.live == Blue || Runs(s.world.green)))
  {
  }

  // ------------------------------------------------------------------------- deletion

  lemma StartingKeepsTheDataset(s: Sys, tid: nat, o: Outcome)
    requires tid in s.owners && s.world.dataset
    ensures ProvisionPc(s.owners[tid].pc) ==> ProvisionWork(s, tid, o).world.dataset
    ensures ActivationPc(s.owners[tid].pc) ==> ActivationWork(s, tid, o).world.dataset
  {
  }

  lemma OnlyDestroyingEndsTheDataset(s: Sys, tid: nat, o: Outcome, dns: string)
    requires tid in s.owners && s.world.dataset && !s.owners[tid].pc.Destroying?
    ensures WorkStep(s, tid, o, dns).world.dataset
  {
    StartingKeepsTheDataset(s, tid, o);
  }

  lemma DestroyerIsAlone(s: Sys, tid: nat)
    requires Reachable(s) && tid in s.owners && s.owners[tid].pc.Destroying?
    ensures s.owners == map[tid := s.owners[tid]]
    ensures s.record.Some? && s.record.value.state == Terminated && s.record.value.phase == Deleting
    ensures s.world.blue == Absent && s.world.green == Absent && s.world.route == NoRoute
  {
    ReachableInv(s);
    assert Buries(s, s.owners[tid].pc);
    Sole(s, tid);
  }

  /** Whoever destroys the dataset is alone, and nothing of the service runs or is routed. */
  lemma DatasetIsDestroyedSafely(s: Sys, e: Event)
    requires Reachable(s) && Enabled(s, e) && s.world.dataset && !Apply(s, e).world.dataset
    ensures e.Work? && s.owners == map[e.tid := s.owners[e.tid]]
    ensures s.record.Some? && s.record.value.state == Terminated && s.record.value.phase == Deleting
    ensures s.world.blue == Absent && s.world.green == Absent && s.world.route == NoRoute
  {
    if !e.Work? {
      OnlyWorkTouchesTheDataset(s, e);
    } else if s.owners[e.tid].pc.Destroying? {
      DestroyerIsAlone(s, e.tid);
    } else {
      OnlyDestroyingEndsTheDataset(s, e.tid, e.result, e.dns);
    }
  }

  /** An ID that was ever persisted is still known, as a live record or as a tombstone. */
  lemma {:induction false} NoServiceIsForgotten(s: Sys, events: seq<Event>)
    requires Reachable(s) && (s.record.Some? || s.tombstone.Some?) && Replay(s, events).Some?
    ensures Replay(s, events).value.record.Some? || Replay(s, events).value.tombstone.Some?
    decreases |events|
  {
    ReachableInv(s);
    if events != [] {
      ReachableStep(s, events[0]);
      ReachableInv(Apply(s, events[0]));
      BornStays(s, events[0]);
      NoServiceIsForgotten(Apply(s, events[0]), events[1..]);
    }
  }

  lemma BornStays(s: Sys, e: Event)
    requires s.past.born && Enabled(s, e)
    ensures Apply(s, e).past.born
  {
    if e.Work? {
      WorkLeavesHistory(s, e.tid, e.result, e.dns);
    }
  }

  // -------------------------------------------------------------------- runs as sequences

  lemma {:induction false} ReplayAppend(s: Sys, first: seq<Event>, e: Event)
    requires Replay(s, first).Some? && Enabled(Replay(s, first).value, e)
    ensures Replay(s, first + [e]) == Some(Apply(Replay(s, first).value, e))
    decreases |first|
  {
    if first == [] {
      assert [e][1..] == [];
      assert first + [e] == [e];
    } else {
      assert (first + [e])[1..] == first[1..] + [e];
      ReplayAppend(Apply(s, first[0]), first[1..], e);
    }
  }

  lemma ReachableStep(s: Sys, e: Event)
    requires Reachable(s) && Enabled(s, e)
    ensures Reachable(Apply(s, e))
  {
    var events :| Replay(INITIAL, events) == Some(s);
    ReplayAppend(INITIAL, events, e);
  }
}
