/**
  Where the lifecycle falls short of the plainest claims: reachable states in which the
  lock is broken, or in which a service disagrees with its record.  The exact conditions
  are in LifecycleTheorems: LockBreaksIff, SweepsUnrouteIff, HostsAreTornIff, AdoptsIff,
  TakesOverIff, and for each kind of start ProvisionsRunBothIff, RetryStartsTheLiveSlotIff,
  StartsRunBothIff and StartsRunTheLiveSlotIff.
 */
module LifecycleLimits {
  import opened Prelude
  import opened Lifecycle
  import opened LifecycleInvariant
  import opened LifecycleSteps
  import opened LifecycleTheorems
  import opened LifecycleRuns

  const HOSTS := Hosts("example.com", "")
  const NO_EFFECT: Outcome := Fault(false, false, false)

  /** A provision that failed before it started a container. */
  const UNSTARTED := Record(Active, Failed, Provision, Blue, Some(Blue), "1", Some("1"), HOSTS, None, "192.0.2.1", None,
                            None, None, 0, StepFailure, "")

  const ASK := ProvisionQuery(HOSTS, "192.0.2.1", "1", None, None, false)

  /** Nothing in flight but requests to provision, one record. */
  predicate Quiet(s: Sys, r: Record) {
    && s.record == Some(r) && s.tombstone.None? && s.owners == map[] && s.fence.checkers == map[] && s.removers == {}
    && 0 !in s.pending
  }

  /** A request to provision passes the tombstone and the first look. */
  lemma Looks(s: Sys, tid: nat) returns (n: Sys)
    requires Reachable(s) && Fresh(s, tid) && s.tombstone.None? && PassesFirstLook(s.record, ASK)
    ensures Reachable(n) && n == s.(pending := s.pending[tid := Looked(ASK)])
  {
    var m := s.(pending := s.pending[tid := Called(ASK)]);
    ReachableStep(s, ProvisionCall(tid, ASK));
    n := LookStep(m, tid);
    ReachableStep(m, ProvisionLook(tid));
    assert m.pending[tid := Looked(ASK)] == s.pending[tid := Looked(ASK)];
  }

  lemma ProvisionIsAdmitted(s: Sys) returns (n: Sys, r: Record)
    requires Reachable(s) && s.record.None? && s.tombstone.None? && s.owners == map[] && s.removers == {}
    requires s.fence == NO_ATTEMPTS && s.world == NOTHING && 0 !in s.pending
    ensures Reachable(n) && Quiet(n.(owners := map[]), r) && n.owners == map[0 := Owner(Preparing, r, 0)]
    ensures FailedRecord(r, StepFailure) == UNSTARTED && n.world == NOTHING && n.fence == NO_ATTEMPTS
    ensures n.pending == s.pending && n.past.lock == s.past.lock
  {
    var m := Looks(s, 0);
    var e := ProvisionFresh(0, HOSTS, "192.0.2.1", "1", None, None, "");
    n := ProvisionFreshStep(m, e);
    r := n.record.value;
    ReachableStep(m, e);
    assert s.pending[0 := Looked(ASK)] - {0} == s.pending;
  }

  /** A first provision fails before it starts anything. */
  lemma ProvisionFails(s: Sys) returns (n: Sys)
    requires Reachable(s) && s.record.None? && s.tombstone.None? && s.owners == map[] && s.removers == {}
    requires s.fence == NO_ATTEMPTS && s.world == NOTHING && 0 !in s.pending
    ensures Reachable(n) && Quiet(n, UNSTARTED) && n.world == NOTHING && n.fence == NO_ATTEMPTS
    ensures n.pending == s.pending && n.past.lock == s.past.lock
  {
    var s1, r := ProvisionIsAdmitted(s);
    var s2 := ProvisionWork(s1, 0, NO_EFFECT);
    ReachableStep(s1, Work(0, NO_EFFECT, ""));
    assert s2.owners == map[0 := Owner(Failing(r), r, 0)];
    n := WorkStep(s2, 0, Success, "");
    ReachableStep(s2, GOOD);
  }

  lemma FailedProvision() returns (s: Sys)
    ensures Reachable(s) && Quiet(s, UNSTARTED) && s.world == NOTHING && s.fence == NO_ATTEMPTS && s.pending == map[]
    ensures s.past.lock.Unbroken?
  {
    assert Replay(INITIAL, []) == Some(INITIAL);
    s := ProvisionFails(INITIAL);
  }

  /** A crash between Caddy and the store leaves a running service under names its record lacks. */
  lemma CrashTearsHosts(s: Sys, hosts: Hosts)
    requires Reachable(s) && s.past.lock.Unbroken? && s.record.Some? && s.record.value.phase == Running
    requires hosts != s.record.value.hosts
    ensures
      var e := HostsRequest(hosts, s.record.value.ip, "", CrashedBetween);
      && Enabled(s, e) && Reachable(Apply(s, e)) && Apply(s, e).tombstone == Restarted(s).tombstone
      && Apply(s, e).record == s.record && Apply(s, e).world.route == Proxy(s.record.value.live, hosts)
  {
    RunningAgreesWithTheWorld(s);
    ReachableStep(s, HostsRequest(hosts, s.record.value.ip, "", CrashedBetween));
  }

  lemma RunningService() returns (s: Sys)
    ensures Reachable(s) && s.tombstone.None? && RunsAt(s, UNSTARTED.version)
  {
    var s0 := FailedProvision();
    NoDeadEnds(s0);
    ReachableReplay(s0, WayBack(UNSTARTED));
    s := Replay(s0, WayBack(UNSTARTED)).value;
  }

  /** running, although Caddy serves host names that the record does not have. */
  lemma HostsCanDisagreeWhileRunning()
    ensures exists s: Sys ::
              && Reachable(s) && s.tombstone.None? && s.record.Some? && s.record.value.phase == Running
              && s.world.route.Proxy? && s.world.route.hosts != s.record.value.hosts
  {
    var s := RunningService();
    var before := s.record.value.hosts;
    var hosts := Hosts(before.main + "x", "");
    assert |hosts.main| != |before.main|;
    LockIsUnbroken(s);
    CrashTearsHosts(s, hosts);
  }

  // ------------------------------------------------------- a stopped service is started

  /** An unstarted service, terminated without a restart: requests to provision outlive it. */
  lemma TerminateUnstarted(s: Sys) returns (n: Sys)
    requires Reachable(s) && Quiet(s, UNSTARTED) && s.fence == NO_ATTEMPTS && s.world == NOTHING
    ensures Reachable(n) && Quiet(n, StoppedRecord(HaltedRecord(StoppingRecord(UNSTARTED, Terminated))))
    ensures n.world == NOTHING && n.fence == NO_ATTEMPTS && n.pending == s.pending && n.past.lock == s.past.lock
  {
    n := Terminate(s);
    assert Bare(NOTHING) == NOTHING && Abandon(NO_ATTEMPTS) == NO_ATTEMPTS;
  }

  /** A service is terminated; whatever waits to provision it waits on. */
  lemma Terminate(s: Sys) returns (n: Sys)
    requires Reachable(s) && s.record.Some? && MayStop(s.record.value, Terminated) && Fresh(s, 0) && s.owners == map[]
    ensures Reachable(n)
    ensures n == s.(record := Some(StoppedRecord(HaltedRecord(StoppingRecord(s.record.value, Terminated)))),
                    fence := Abandon(s.fence), world := Bare(s.world), past := s.past.(born := true))
  {
    var r := StoppingRecord(s.record.value, Terminated);
    var m := s.(record := Some(r), owners := map[0 := Owner(Halting, r, 0)], fence := Abandon(s.fence),
                past := s.past.(born := true));
    StopIsAdmitted(s, m, r);
    HaltingSucceeds(m, r);
    ReachableReplay(s, [StopRequest(0, Terminated)] + (TWICE + TWICE));
    n := Replay(m, TWICE + TWICE).value;
  }

  const ENDED := StoppedRecord(HaltedRecord(StoppingRecord(UNSTARTED, Terminated)))

  /** A provision that looked while the first one had failed is still waiting when the service is terminated. */
  lemma LookOutlivesTermination() returns (s: Sys)
    ensures Reachable(s) && Quiet(s, ENDED) && s.pending == map[1 := Looked(ASK)]
  {
    var s0 := FailedProvision();
    var s1 := Looks(s0, 1);
    s := TerminateUnstarted(s1);
  }

  /** It retries the terminated record. */
  lemma RetryOfTerminated() returns (n: Sys, r: Record)
    ensures Reachable(n) && Quiet(n.(owners := map[]), r)
    ensures r == RetryRecord(ENDED, None, None) && n.owners == map[1 := Owner(Preparing, r, 0)]
  {
    var s := LookOutlivesTermination();
    var e := ProvisionAgain(1, HOSTS, "192.0.2.1", "1", None, None);
    n := ProvisionAgainStep(s, e);
    ReachableStep(s, e);
    r := n.record.value;
  }

  /** The service is terminated, yet its live slot runs. */
  lemma TerminatedServiceCanRun()
    ensures exists s: Sys ::
              && Reachable(s) && s.tombstone.None? && s.record.Some?
              && s.record.value.state == Terminated && Runs(Box(s.world, s.record.value.live))
  {
    var s, r := RetryIsLaunched();
    assert r.state == Terminated && r.live == Blue;
  }

  lemma RetryIsPrepared() returns (n: Sys, r: Record)
    ensures r == RetryRecord(ENDED, None, None) && Reachable(n) && Quiet(n.(owners := map[]), r)
    ensures n.owners == map[1 := Owner(LaunchFirst, r, 0)]
  {
    var m;
    m, r := RetryOfTerminated();
    n := ProvisionWork(m, 1, Success);
    ReachableStep(m, Work(1, Success, ""));
  }

  lemma RetryIsLaunched() returns (n: Sys, r: Record)
    ensures r == RetryRecord(ENDED, None, None) && Reachable(n) && Quiet(n.(owners := map[]), r) && Runs(n.world.blue)
    ensures n.owners == map[1 := Owner(AwaitFirst(SlotGen(n.world.blue)), r, 0)]
  {
    var s;
    s, r := RetryIsPrepared();
    n := ProvisionWork(s, 1, Success);
    ReachableStep(s, Work(1, Success, ""));
  }

  /** The retry has started its container, but cannot store that it waits. */
  lemma RetryFailsLate() returns (n: Sys)
    ensures Reachable(n) && Quiet(n, FailedRecord(RetryRecord(ENDED, None, None), StepFailure)) && Runs(n.world.blue)
  {
    var s, r := RetryIsLaunched();
    n := RetryGivesUp(s, r);
  }

  lemma RetryGivesUp(s: Sys, r: Record) returns (n: Sys)
    requires Reachable(s) && Quiet(s.(owners := map[]), r) && Runs(s.world.blue)
    requires exists gen: nat :: s.owners == map[1 := Owner(AwaitFirst(gen), r, 0)]
    ensures Reachable(n) && Quiet(n, FailedRecord(r, StepFailure)) && n.world == s.world
  {
    var m := ProvisionWork(s, 1, NO_EFFECT);
    ReachableStep(s, Work(1, NO_EFFECT, ""));
    assert m.owners == map[1 := Owner(Failing(r), r, 0)];
    n := WorkStep(m, 1, Success, "");
    ReachableStep(m, Work(1, Success, ""));
  }

  /** What StartedBy reaches is reachable. */
  lemma StartIsReachable(s: Sys, e: Event)
    requires Reachable(s) && (e.ResumeRequest? || e.UpgradeRequest?) && e.tid == 0 && Enabled(s, e)
    ensures Reachable(StartedBy(s, e)) && StartedBy(s, e).record == Apply(s, e).record
    ensures Beside(s, StartedBy(s, e)) && StartedBy(s, e).owners.Keys == s.owners.Keys + {0}
    ensures StartedBy(s, e).owners[0].pc.Awaiting? && StartedBy(s, e).owners[0].copy == Apply(s, e).record.value
  {
    ReachableStep(s, e);
    StartBegins(s, e);
    ThreeStartsAreReachable(Apply(s, e));
  }

  lemma StartBegins(s: Sys, e: Event)
    requires (e.ResumeRequest? || e.UpgradeRequest?) && e.tid == 0 && Enabled(s, e)
    ensures
      var n := Apply(s, e);
      && Beside(s, n) && n.record.Some? && n.owners.Keys == s.owners.Keys + {0}
      && n.owners[0].pc == Isolating && n.owners[0].copy == n.record.value
  {
  }

  lemma ThreeStartsAreReachable(s: Sys)
    requires Reachable(s) && 0 in s.owners && s.owners[0].pc == Isolating
    ensures
      var m := ActivationWork(s, 0, Success);
      && 0 in m.owners && m.owners[0].pc == Clearing
      && var k := ActivationWork(m, 0, Success);
         0 in k.owners && k.owners[0].pc == Launching
         && var n := ActivationWork(k, 0, Success);
            && Reachable(n) && n.record == s.record && Beside(s, n) && n.owners.Keys == s.owners.Keys
            && n.owners[0].pc.Awaiting? && n.owners[0].copy == s.owners[0].copy
  {
    var m := ActivationWork(s, 0, Success);
    StartRunsTarget(s, m, 0);
    GoodStep(s, m);
    StartStays(s, m);
    var k := ActivationWork(m, 0, Success);
    GoodStep(m, k);
    StartStays(m, k);
    GoodStep(k, ActivationWork(k, 0, Success));
    StartStays(k, ActivationWork(k, 0, Success));
  }

  /** What a start leaves alone. */
  ghost predicate Beside(s: Sys, n: Sys) {
    && n.tombstone == s.tombstone && n.removers == s.removers && n.pending == s.pending
    && n.past.lock == s.past.lock && n.fence.checkers == s.fence.checkers
  }

  lemma StartStays(s: Sys, n: Sys)
    requires 0 in s.owners && ActivationPc(s.owners[0].pc) && !s.owners[0].pc.Awaiting?
    requires n == ActivationWork(s, 0, Success)
    ensures Beside(s, n) && n.owners.Keys == s.owners.Keys && n.owners[0].copy == s.owners[0].copy
    ensures s.owners[0].pc.Launching? ==> n.owners[0].pc.Awaiting?
  {
  }

  /** Both containers run although the service is terminated and only being resumed. */
  lemma TwoContainersCanRun()
    ensures exists s: Sys ::
              && Reachable(s) && s.tombstone.None? && s.record.Some?
              && s.record.value.state == Terminated && s.record.value.op == Resume
              && Runs(s.world.blue) && Runs(s.world.green)
  {
    var s := RetryFailsLate();
    var e := ResumeRequest(0, None, None);
    assert s.record.value.state == Terminated && s.record.value.live == Blue;
    StartsRunBothIff(s, e);
    StartIsReachable(s, e);
  }

  // --------------------------------------------------------------- beside a tombstone

  const DELETING: Record := DeletingRecord(ENDED)

  /** The goroutine that deletes an empty service stands here. */
  function DeletingAt(s: Sys, pc: Pc): Sys {
    s.(record := Some(DELETING), owners := map[0 := Owner(pc, DELETING, 0)], past := s.past.(born := true))
  }

  lemma EmptiesAndUnlists(s: Sys)
    requires s.world == NOTHING
    ensures Good(DeletingAt(s, Purging), DeletingAt(s, Unlisting))
    ensures Good(DeletingAt(s, Unlisting), DeletingAt(s, Destroying))
  {
    assert DeleteWork(DeletingAt(s, Purging), 0, Success) == DeletingAt(s, Unlisting);
    assert DeleteWork(DeletingAt(s, Unlisting), 0, Success) == DeletingAt(s, Destroying);
  }

  lemma DestroysAndEntombs(s: Sys)
    requires s.world == NOTHING
    ensures Good(DeletingAt(s, Destroying), DeletingAt(s, Burying))
    ensures Good(DeletingAt(s, Burying), DeletingAt(s, Erasing).(tombstone := Some(TombDeleting)))
  {
    assert DeleteWork(DeletingAt(s, Destroying), 0, Success) == DeletingAt(s, Burying);
    assert DeleteWork(DeletingAt(s, Burying), 0, Success) == DeletingAt(s, Erasing).(tombstone := Some(TombDeleting));
  }

  lemma GoodStep(s: Sys, n: Sys)
    requires Reachable(s) && Good(s, n)
    ensures Reachable(n)
  {
    ReachableStep(s, GOOD);
  }

  /** A terminated service is deleted up to its tombstone. */
  lemma Entombed(s: Sys) returns (n: Sys)
    requires Reachable(s) && Quiet(s, ENDED) && s.world == NOTHING
    ensures Reachable(n) && n == DeletingAt(s, Erasing).(tombstone := Some(TombDeleting))
  {
    assert DeleteStep(s, DeleteRequest(0)) == DeletingAt(s, Purging);
    ReachableStep(s, DeleteRequest(0));
    EmptiesAndUnlists(s);
    GoodStep(DeletingAt(s, Purging), DeletingAt(s, Unlisting));
    GoodStep(DeletingAt(s, Unlisting), DeletingAt(s, Destroying));
    DestroysAndEntombs(s);
    GoodStep(DeletingAt(s, Destroying), DeletingAt(s, Burying));
    n := DeletingAt(s, Erasing).(tombstone := Some(TombDeleting));
    GoodStep(DeletingAt(s, Burying), n);
  }

  const INTERRUPTED := FailedRecord(DELETING, RestartFailure)

  /** The record cannot be erased, and the process restarts: a record beside a tombstone. */
  lemma RecordBesideTombstone() returns (n: Sys)
    ensures Reachable(n) && Idle(n) && n.record == Some(INTERRUPTED) && n.tombstone == Some(TombFailed)
    ensures n.past.lock.Unbroken? && n.fence == NO_ATTEMPTS
  {
    var s0 := FailedProvision();
    var s1 := TerminateUnstarted(s0);
    var s2 := Entombed(s1);
    n := EraseFails(s2);
    LockIsUnbroken(n);
  }

  lemma EraseFails(s: Sys) returns (n: Sys)
    requires Reachable(s) && s.record == Some(DELETING) && s.tombstone == Some(TombDeleting)
    requires s.owners == map[0 := Owner(Erasing, DELETING, 0)]
    ensures Reachable(n) && Idle(n) && n.record == Some(INTERRUPTED) && n.tombstone == Some(TombFailed)
    ensures n.fence == NO_ATTEMPTS
  {
    var m := DeleteWork(s, 0, NO_EFFECT);
    ReachableStep(s, Work(0, NO_EFFECT, ""));
    n := Restarted(m);
    ReachableStep(m, Restart);
  }

  /** Delete is asked for again, and the clean-up succeeds. */
  lemma CleanedUp(s: Sys) returns (n: Sys)
    requires Reachable(s) && Idle(s) && s.tombstone == Some(TombFailed)
    ensures Reachable(n) && n == s.(tombstone := Some(TombDeleted), world := Swept(s.world))
  {
    var m := s.(tombstone := Some(TombDeleting), removers := {0});
    assert TombstoneStep(s, TombstoneRequest(0)) == m;
    ReachableStep(s, TombstoneRequest(0));
    n := s.(tombstone := Some(TombDeleted), world := Swept(s.world));
    assert {0} - {0} == {};
    assert SweepStep(m, Sweep(0, true, true)) == n;
    ReachableStep(m, Sweep(0, true, true));
  }

  /** Resume does not look at the tombstone, and Delete behind it does not look at the phase. */
  lemma OwnedRecordsCanBeErased()
    ensures exists s: Sys :: Reachable(s) && s.record.None? && 0 in s.owners && s.owners[0].pc == Isolating
  {
    var s0 := RecordBesideTombstone();
    var s1 := CleanedUp(s0);
    var s2 := ResumeStep(s1, ResumeRequest(0, None, None));
    ReachableStep(s1, ResumeRequest(0, None, None));
    var s3 := TombstoneStep(s2, TombstoneRequest(1));
    ReachableStep(s2, TombstoneRequest(1));
    assert s3.record.None? && 0 in s3.owners;
  }

  /** A running service loses its route to the clean-up behind its tombstone. */
  lemma RunningServicesCanBeUnrouted()
    ensures exists s: Sys ::
              && Reachable(s) && s.past.lock.Unbroken? && s.record.Some? && s.record.value.phase == Running
              && s.world.route == NoRoute
  {
    var s0 := RecordBesideTombstone();
    NoDeadEnds(s0);
    ReachableReplay(s0, WayBack(INTERRUPTED));
    var s1 := Replay(s0, WayBack(INTERRUPTED)).value;
    LockIsUnbroken(s1);
    var s2 := CleanedUp(s1);
  }

  /** Two more requests to provision have looked before the first one was admitted. */
  lemma TwoMoreHaveLooked() returns (s: Sys)
    ensures Reachable(s) && s.pending == map[1 := Looked(ASK), 2 := Looked(ASK)]
    ensures s == INITIAL.(pending := s.pending)
  {
    assert Replay(INITIAL, []) == Some(INITIAL);
    var m := Looks(INITIAL, 1);
    s := Looks(m, 2);
  }

  /** The service was created and deleted while the two requests waited. */
  lemma TwoOutliveTheService() returns (s: Sys)
    ensures Reachable(s) && s.record.None? && s.tombstone == Some(TombDeleted)
    ensures s.owners == map[] && s.removers == {} && s.fence == NO_ATTEMPTS && s.past.lock.Unbroken?
    ensures s.pending == map[1 := Looked(ASK), 2 := Looked(ASK)]
  {
    var s0 := TwoMoreHaveLooked();
    var s1 := ProvisionFails(s0);
    var s2 := TerminateUnstarted(s1);
    var s3 := Entombed(s2);
    s := ErasedAndSwept(s3);
  }

  lemma ErasedAndSwept(s: Sys) returns (n: Sys)
    requires Reachable(s) && s.owners == map[0 := Owner(Erasing, DELETING, 0)] && s.removers == {}
    ensures Reachable(n) && n.record.None? && n.tombstone == Some(TombDeleted)
    ensures n.owners == map[] && n.removers == {} && n.fence == s.fence && n.pending == s.pending
    ensures n.past.lock == s.past.lock
  {
    var m := s.(record := None, owners := map[], removers := {0});
    assert map[0 := Owner(Erasing, DELETING, 0)] - {0} == map[];
    assert DeleteWork(s, 0, Success) == m;
    ReachableStep(s, GOOD);
    n := SweepStep(m, Sweep(0, true, true));
    ReachableStep(m, Sweep(0, true, true));
  }

  /** A waiting request is admitted as a new service. */
  function Late(tid: nat): Event {
    ProvisionFresh(tid, HOSTS, "192.0.2.1", "1", None, None, "")
  }

  lemma LateProvision(s: Sys, tid: nat) returns (n: Sys)
    requires Reachable(s) && s.record.None? && tid in s.pending && s.pending[tid] == Looked(ASK)
    requires tid !in s.owners && tid !in s.fence.checkers && s.removers == {}
    ensures Enabled(s, Late(tid)) && Reachable(n) && n == Apply(s, Late(tid))
    ensures FailedRecord(n.record.value, StepFailure) == UNSTARTED
    ensures n.owners == s.owners[tid := Owner(Preparing, n.record.value, 0)]
    ensures n.pending == s.pending - {tid} && n.fence == s.fence && n.removers == {} && n.tombstone == s.tombstone
    ensures n.past.lock == s.past.lock
  {
    var e := Late(tid);
    n := ProvisionFreshStep(s, e);
    ReachableStep(s, e);
  }

  /** Two goroutines provision the same service: Delete erased the record of the first under it. */
  lemma TwoOwnersCanMeet()
    ensures exists s: Sys :: Reachable(s) && 1 in s.owners && 2 in s.owners
  {
    var s0 := TwoOutliveTheService();
    var s1 := LateProvision(s0, 1);
    var s2 := TombstoneStep(s1, TombstoneRequest(3));
    ReachableStep(s1, TombstoneRequest(3));
    var s3 := LateProvision(s2, 2);
  }

  // ------------------------------------------------------ more starts of the wrong slot

  /** The provision of goroutine 1 fails before it starts a container. */
  lemma PreparingFails(s: Sys, r: Record) returns (n: Sys)
    requires Reachable(s) && s.owners == map[1 := Owner(Preparing, r, 0)]
    ensures Reachable(n)
    ensures n == s.(record := Some(FailedRecord(r, StepFailure)), owners := map[], past := s.past.(born := true))
  {
    var m := s.(owners := map[1 := Owner(Failing(r), r, 0)]);
    assert ProvisionWork(s, 1, NO_EFFECT) == m;
    ReachableStep(s, Work(1, NO_EFFECT, ""));
    n := WorkStep(m, 1, Success, "");
    ReachableStep(m, Work(1, Success, ""));
    assert m.owners - {1} == map[];
  }

  /** Terminated with the second slot live, after one resume; a request to provision still waits. */
  lemma LookOutlivesAResume() returns (s: Sys)
    ensures Reachable(s) && s.pending == map[1 := Looked(ASK)] && s.owners == map[] && s.removers == {}
    ensures s.fence.checkers == map[] && s.tombstone.None?
    ensures s.record == Some(StoppedRecord(HaltedRecord(StoppingRecord(ResumedRecord(ENDED), Terminated))))
  {
    var s0 := LookOutlivesTermination();
    ReachableInv(s0);
    Resumes(s0);
    ReachableReplay(s0, RESUME_HEALTHY);
    s := Terminate(Replay(s0, RESUME_HEALTHY).value);
  }

  /** It takes over that record and fails. */
  lemma RetryFailsEarly() returns (s: Sys)
    ensures Reachable(s) && Fresh(s, 0) && s.record.Some? && s.tombstone.None?
    ensures
      var r := s.record.value;
      r.state == Terminated && r.live == Green && r.phase == Failed && r.op == Provision
  {
    var s0 := LookOutlivesAResume();
    var e := ProvisionAgain(1, HOSTS, "192.0.2.1", "1", None, None);
    var s1 := ProvisionAgainStep(s0, e);
    ReachableStep(s0, e);
    s := PreparingFails(s1, s1.record.value);
  }

  /** An upgrade that replaces a failed retry starts the live slot of a terminated service. */
  lemma UpgradesCanRunATerminatedService()
    ensures exists s: Sys ::
              && Reachable(s) && s.tombstone.None? && s.record.Some?
              && s.record.value.state == Terminated && s.record.value.live == Green && Runs(s.world.green)
  {
    var s := RetryFailsEarly();
    var e := UpgradeRequest(0, Redo("1"));
    assert ReplaceableActivation(s.record.value) && ValidateUpgrade(s.record.value, Redo("1")) == Proceed;
    StartsRunTheLiveSlotIff(s, e);
    StartIsReachable(s, e);
  }

  /** Provisioned late, terminated, resumed in the second slot: the resume fails once its container runs. */
  lemma ResumeFailsLate() returns (s: Sys)
    ensures Reachable(s) && s.owners == map[] && s.removers == {} && s.fence.checkers == map[]
    ensures s.tombstone == Some(TombDeleted) && s.past.lock.Unbroken? && s.pending == map[2 := Looked(ASK)]
    ensures Runs(s.world.green)
  {
    var s0 := TwoOutliveTheService();
    var s1 := LateProvision(s0, 1);
    var s2 := PreparingFails(s1, s1.record.value);
    var s3 := Terminate(s2);
    assert s3.pending == map[2 := Looked(ASK)];
    s := ResumeStartsAndFails(s3);
  }

  lemma ResumeStartsAndFails(s: Sys) returns (n: Sys)
    requires Reachable(s) && s.record == Some(ENDED) && Fresh(s, 0) && s.owners == map[]
    ensures Reachable(n) && Beside(s, n) && n.owners == map[] && Runs(n.world.green)
  {
    var e := ResumeRequest(0, None, None);
    StartIsReachable(s, e);
    StartEndsIn(s, e);
    n := AwaitingFails(StartedBy(s, e));
  }

  /** A started container's health is not awaited: the write fails. */
  lemma AwaitingFails(s: Sys) returns (n: Sys)
    requires Reachable(s) && s.owners.Keys == {0} && s.owners[0].pc.Awaiting?
    ensures Reachable(n) && Beside(s, n) && n.owners == map[] && n.world == s.world
  {
    var o := s.owners[0];
    assert s.owners == map[0 := o];
    var m := s.(owners := map[0 := o.(pc := Failing(o.copy))]);
    assert ActivationWork(s, 0, NO_EFFECT) == m;
    ReachableStep(s, Work(0, NO_EFFECT, ""));
    n := WorkStep(m, 0, Success, "");
    ReachableStep(m, Work(0, Success, ""));
  }

  /** Both containers of an active service run while it is only being provisioned. */
  lemma ProvisionsCanRunBoth()
    ensures exists s: Sys ::
              && Reachable(s) && s.past.lock.Unbroken? && s.record.Some?
              && s.record.value.state == Active && s.record.value.op == Provision
              && Runs(s.world.blue) && Runs(s.world.green)
  {
    var s0 := ResumeFailsLate();
    var s1 := TombstoneStep(s0, TombstoneRequest(3));
    ReachableStep(s0, TombstoneRequest(3));
    var s2 := LateProvisionStarts(s1, 2);
    ProvisionsRunBothIff(s1, Late(2));
  }

  lemma LateProvisionStarts(s: Sys, tid: nat) returns (n: Sys)
    requires Reachable(s) && s.record.None? && tid in s.pending && s.pending[tid] == Looked(ASK)
    requires tid !in s.owners && tid !in s.fence.checkers && s.removers == {}
    ensures Enabled(s, Late(tid)) && Reachable(n) && n == ProvisionedBy(s, Late(tid))
    ensures n.past.lock == s.past.lock
  {
    var s1 := LateProvision(s, tid);
    var s2 := ProvisionWork(s1, tid, Success);
    ReachableStep(s1, Work(tid, Success, ""));
    n := ProvisionWork(s2, tid, Success);
    ReachableStep(s2, Work(tid, Success, ""));
  }

  // ------------------------------------------------- another version runs than recorded

  function Redo(version: string): UpgradeQuery {
    UpgradeQuery(version, true, false, None, None, None, None)
  }

  lemma CandidateIsAdmitted(s: Sys, version: string) returns (n: Sys)
    requires Reachable(s) && s.record.Some? && Quiet(s, s.record.value)
    requires s.record.value.(targetVersion := Some("1")) == UNSTARTED
    ensures Reachable(n) && n.world == s.world && n.tombstone.None? && n.removers == {} && n.fence.checkers == map[]
    ensures n.pending == s.pending
    ensures
      var r := UNSTARTED.(phase := Starting, targetVersion := Some(version));
      n.record == Some(r) && n.owners == map[0 := Owner(Isolating, r, n.fence.latest)]
  {
    n := UpgradeStep(s, UpgradeRequest(0, Redo(version)));
    ReachableStep(s, UpgradeRequest(0, Redo(version)));
  }

  /** Replacing a failed provision starts version 2, but reports an error. */
  lemma CandidateStarts(s: Sys) returns (n: Sys)
    requires Reachable(s) && Quiet(s, UNSTARTED) && s.world.blue == Absent
    ensures Reachable(n) && Quiet(n, UNSTARTED.(targetVersion := Some("2")))
    ensures n.world.blue.Present? && n.world.blue.version == "2" && n.world.blue.running
  {
    var s1 := CandidateIsAdmitted(s, "2");
    var s2 := ActivationWork(s1, 0, Success);
    ReachableStep(s1, GOOD);
    var s3 := ActivationWork(s2, 0, Success);
    ReachableStep(s2, GOOD);
    var r := s1.record.value;
    assert s3.owners == map[0 := Owner(Launching, r, s1.fence.latest)] && s3.world.blue == Absent;
    n := LaunchReportsAnError(s3, r, s1.fence.latest);
  }

  lemma LaunchReportsAnError(s: Sys, r: Record, attempt: nat) returns (n: Sys)
    requires Reachable(s) && Quiet(s.(owners := map[]), r) && s.world.blue == Absent
    requires r == UNSTARTED.(phase := Starting, targetVersion := Some("2"))
    requires s.owners == map[0 := Owner(Launching, r, attempt)]
    ensures Reachable(n) && Quiet(n, UNSTARTED.(targetVersion := Some("2")))
    ensures n.world.blue.Present? && n.world.blue.version == "2" && n.world.blue.running
  {
    var m := ActivationWork(s, 0, Fault(true, false, true));
    ReachableStep(s, Work(0, Fault(true, false, true), ""));
    n := WorkStep(m, 0, Success, "");
    ReachableStep(m, GOOD);
  }

  /** Going back to version 1 fails before the candidate of version 2 is removed. */
  lemma CandidateStays(s: Sys) returns (n: Sys)
    requires Reachable(s) && Quiet(s, UNSTARTED.(targetVersion := Some("2")))
    requires s.world.blue.Present?
    ensures Reachable(n) && Quiet(n, UNSTARTED) && n.world == s.world
  {
    var s1 := CandidateIsAdmitted(s, "1");
    var s2 := ActivationWork(s1, 0, NO_EFFECT);
    ReachableStep(s1, Work(0, NO_EFFECT, ""));
    n := WorkStep(s2, 0, Success, "");
    ReachableStep(s2, GOOD);
  }

  lemma RetryIsAdmitted(s: Sys) returns (n: Sys, r: Record)
    requires Reachable(s) && Quiet(s, UNSTARTED)
    ensures Reachable(n) && Quiet(n.(owners := map[]), r) && n.world == s.world
    ensures r == UNSTARTED.(phase := Provisioning, lastError := NoFailure)
    ensures n.owners == map[0 := Owner(Preparing, r, 0)]
  {
    var m := Looks(s, 0);
    var e := ProvisionAgain(0, HOSTS, "192.0.2.1", "1", None, None);
    r := UNSTARTED.(phase := Provisioning, lastError := NoFailure);
    n := ProvisionAgainStep(m, e);
    ReachableStep(m, e);
  }

  lemma ProvisionIsRetried(s: Sys) returns (n: Sys, r: Record)
    requires Reachable(s) && Quiet(s, UNSTARTED)
    ensures Reachable(n) && Quiet(n.(owners := map[]), r) && n.world.blue == s.world.blue
    ensures r == UNSTARTED.(phase := Provisioning, lastError := NoFailure)
    ensures n.owners == map[0 := Owner(LaunchFirst, r, 0)]
  {
    var m;
    m, r := RetryIsAdmitted(s);
    n := ProvisionWork(m, 0, Success);
    ReachableStep(m, GOOD);
  }

  /** The retried provision finds a container in its slot and starts nothing else. */
  lemma CandidateIsAdopted(s: Sys, r: Record) returns (n: Sys)
    requires Reachable(s) && Quiet(s.(owners := map[]), r) && s.world.blue.Present? && s.world.blue.version == "2"
    requires r == UNSTARTED.(phase := Provisioning, lastError := NoFailure)
    requires s.owners == map[0 := Owner(LaunchFirst, r, 0)]
    ensures Reachable(n) && n.tombstone.None? && n.record == Some(WaitingRecord(r)) && n.owners == map[]
    ensures 0 in n.fence.checkers && n.fence.current == Some(n.fence.checkers[0].attempt)
    ensures n.fence.checkers[0].op == Provision && n.world.blue.Present? && n.world.blue.version == "2"
  {
    var m := ProvisionWork(s, 0, Success);
    ReachableStep(s, GOOD);
    n := ProvisionWork(m, 0, Success);
    ReachableStep(m, GOOD);
  }

  /** The provision of version 1 waits for the health of whatever runs in the first slot. */
  predicate Pending(r: Record) {
    && r.phase == WaitingForHealth && r.op == Provision && r.live == Blue
    && r.target == Some(Blue) && r.targetVersion == Some("1")
  }

  lemma AdoptedCandidateIsAccepted(s: Sys) returns (n: Sys)
    requires Reachable(s) && s.tombstone.None? && s.record.Some? && s.owners == map[] && Pending(s.record.value)
    requires 0 in s.fence.checkers && s.fence.current == Some(s.fence.checkers[0].attempt)
    requires s.fence.checkers[0].op == Provision
    ensures Reachable(n) && n.tombstone.None? && n.world == s.world
    ensures n.record == Some(RoutingRecord(s.record.value, ""))
    ensures n.owners == map[0 := Owner(Resolving(s.fence.checkers[0].gen), n.record.value, s.fence.checkers[0].attempt)]
  {
    n := JudgeStep(s, Judge(0, true, true, ""));
    ReachableStep(s, Judge(0, true, true, ""));
  }

  lemma AcceptedCandidateIsRecorded(s: Sys, r: Record, gen: nat, attempt: nat) returns (n: Sys)
    requires Reachable(s) && s.record == Some(r) && s.past.born && r.dns == ""
    requires s.owners == map[0 := Owner(Resolving(gen), r, attempt)]
    ensures Reachable(n) && n == s.(owners := map[0 := Owner(Switching(gen), r, attempt)])
  {
    var m := s.(owners := map[0 := Owner(Recording(gen), r, attempt)]);
    n := s.(owners := map[0 := Owner(Switching(gen), r, attempt)]);
    ResolvingSucceeds(s, m, n, r, attempt, gen);
    ReachableStep(s, GOOD);
    ReachableStep(m, GOOD);
  }

  lemma RecordedCandidateIsRouted(s: Sys, r: Record, gen: nat, attempt: nat) returns (n: Sys)
    requires Reachable(s) && s.record == Some(r) && r.op == Provision
    requires s.owners == map[0 := Owner(Switching(gen), r, attempt)]
    ensures Reachable(n) && n.record == s.record && n.tombstone == s.tombstone && n.world.blue == s.world.blue
    ensures n.owners == map[0 := Owner(Committing(gen), r, attempt)]
  {
    n := HealthWork(s, 0, Success, "");
    ReachableStep(s, GOOD);
  }

  lemma RoutedCandidateGoesLive(s: Sys, r: Record, gen: nat, attempt: nat) returns (n: Sys)
    requires Reachable(s) && s.record == Some(r) && s.owners == map[0 := Owner(Committing(gen), r, attempt)]
    ensures Reachable(n) && n.record == Some(RunningRecord(r)) && n.tombstone == s.tombstone
    ensures n.world.blue == s.world.blue
  {
    n := HealthWork(s, 0, Success, "");
    ReachableStep(s, GOOD);
  }

  /** running at version 1 by its record, while the container that gets the traffic is version 2. */
  lemma VersionsCanDisagreeWhileRunning()
    ensures exists s: Sys ::
              && Reachable(s) && s.tombstone.None? && s.record.Some? && s.record.value.phase == Running
              && Box(s.world, s.record.value.live).Present?
              && Box(s.world, s.record.value.live).version != s.record.value.version
  {
    var s0 := FailedProvision();
    var s1 := CandidateStarts(s0);
    var s2 := CandidateStays(s1);
    var retried, r := ProvisionIsRetried(s2);
    var s3 := CandidateIsAdopted(retried, r);
    var s4 := AdoptedCandidateIsAccepted(s3);
    ReachableInv(s4);
    var gen, attempt := s3.fence.checkers[0].gen, s3.fence.checkers[0].attempt;
    var s5 := AcceptedCandidateIsRecorded(s4, s4.record.value, gen, attempt);
    var s6 := RecordedCandidateIsRouted(s5, s5.record.value, gen, attempt);
    var s7 := RoutedCandidateGoesLive(s6, s6.record.value, gen, attempt);
    assert s7.record.value.version == "1";
  }
}
