/** Claims about whole runs: versions never slip back, and every state has a way out. */
module LifecycleRuns {
  import opened Prelude
  import opened Lifecycle
  import opened LifecycleInvariant
  import opened LifecycleLock
  import opened LifecycleSteps
  import opened LifecycleTheorems
  import Versions

  // --------------------------------------------------------------- no silent downgrade

  /** No confirmed downgrade, and no redeployment of a terminated service. */
  predicate Unconfirmed(e: Event) {
    !e.RedeployRequest? && (e.UpgradeRequest? ==> !e.query.confirmDowngrade)
  }

  lemma StartKeepsVersion(s: Sys, tid: nat, o: Outcome)
    requires Invariant(s) && tid in s.owners && s.record.Some?
    ensures ProvisionPc(s.owners[tid].pc) ==>
              var n := ProvisionWork(s, tid, o);
              n.record.Some? && n.record.value.version == s.record.value.version
    ensures ActivationPc(s.owners[tid].pc) ==>
              var n := ActivationWork(s, tid, o);
              n.record.Some? && n.record.value.version == s.record.value.version
  {
    Sole(s, tid);
  }

  /** Only the commit moves the version, to one that was admitted as no downgrade. */
  lemma CommitKeepsVersion(s: Sys, tid: nat, o: Outcome, dns: string)
    requires Invariant(s) && tid in s.owners && s.record.Some? && s.owners[tid].pc.Committing? && !s.past.confirmed
    ensures
      var n := HealthWork(s, tid, o, dns);
      n.record.Some? && Versions.NotOlder(n.record.value.version, s.record.value.version)
  {
    Sole(s, tid);
    var c, r := s.owners[tid].copy, s.record.value;
    assert Priced(s.past.confirmed, r) && SameLifecycle(c, r);
  }

  lemma HealthKeepsVersion(s: Sys, tid: nat, o: Outcome, dns: string)
    requires Invariant(s) && tid in s.owners && s.record.Some? && HealthPc(s.owners[tid].pc) && !s.past.confirmed
    ensures
      var n := HealthWork(s, tid, o, dns);
      n.record.Some? && Versions.NotOlder(n.record.value.version, s.record.value.version)
  {
    if s.owners[tid].pc.Committing? {
      CommitKeepsVersion(s, tid, o, dns);
    } else {
      Sole(s, tid);
      assert s.owners[tid].copy.version == s.record.value.version;
      assert HealthWork(s, tid, o, dns).record.value.version == s.record.value.version;
    }
  }

  /** The committed version did not slip, and no downgrade is confirmed. */
  ghost predicate KeepsVersion(s: Sys, n: Sys)
    requires s.record.Some?
  {
    n.record.Some? && !n.past.confirmed && Versions.NotOlder(n.record.value.version, s.record.value.version)
  }

  lemma EndKeepsVersion(s: Sys, tid: nat, o: Outcome)
    requires Invariant(s) && tid in s.owners && s.record.Some?
    ensures StopPc(s.owners[tid].pc) ==>
              var n := StopWork(s, tid, o);
              n.record.Some? && n.record.value.version == s.record.value.version
    ensures DeletePc(s.owners[tid].pc) ==>
              var n := DeleteWork(s, tid, o);
              n.record.Some? ==> n.record.value.version == s.record.value.version
  {
    Sole(s, tid);
  }

  lemma WorkKeepsVersion(s: Sys, tid: nat, o: Outcome, dns: string)
    requires Invariant(s) && tid in s.owners && s.record.Some? && !s.past.confirmed
    requires WorkStep(s, tid, o, dns).record.Some?
    ensures KeepsVersion(s, WorkStep(s, tid, o, dns))
  {
    WorkLeavesHistory(s, tid, o, dns);
    var pc := s.owners[tid].pc;
    if ProvisionPc(pc) || ActivationPc(pc) {
      StartKeepsVersion(s, tid, o);
    } else if HealthPc(pc) {
      HealthKeepsVersion(s, tid, o, dns);
    } else if StopPc(pc) || DeletePc(pc) {
      EndKeepsVersion(s, tid, o);
    } else {
      Sole(s, tid);
    }
  }

  lemma HostsKeepVersion(s: Sys, e: Event)
    requires e.HostsRequest? && Enabled(s, e) && !s.past.confirmed
    ensures KeepsVersion(s, HostsStep(s, e))
  {
  }

  /** An admission keeps the committed version and, unless confirmed, leaves the pending one unconfirmed. */
  lemma AdmissionKeepsVersion(s: Sys, e: Event)
    requires s.record.Some? && !s.past.confirmed && Admission(e) && Enabled(s, e) && Unconfirmed(e)
    ensures KeepsVersion(s, Apply(s, e))
  {
    assert Apply(s, e).record.value.version == s.record.value.version;
  }

  lemma RestKeepsVersion(s: Sys, e: Event)
    requires s.record.Some? && !s.past.confirmed && Enabled(s, e) && Unconfirmed(e) && Apply(s, e).record.Some?
    requires !Admission(e) && !e.Work? && !e.HostsRequest?
    ensures KeepsVersion(s, Apply(s, e))
  {
    assert Apply(s, e).record.value.version == s.record.value.version;
  }

  lemma StepKeepsVersion(s: Sys, e: Event)
    requires Invariant(s) && s.record.Some? && !s.past.confirmed
    requires Enabled(s, e) && Unconfirmed(e) && Apply(s, e).record.Some?
    ensures KeepsVersion(s, Apply(s, e))
  {
    if e.Work? {
      WorkKeepsVersion(s, e.tid, e.result, e.dns);
    } else if e.HostsRequest? {
      HostsKeepVersion(s, e);
    } else if Admission(e) {
      AdmissionKeepsVersion(s, e);
    } else {
      RestKeepsVersion(s, e);
    }
  }

  /** The record is there all along this run. */
  ghost predicate Remains(s: Sys, events: seq<Event>)
    decreases |events|
  {
    s.record.Some? && (events != [] ==> Enabled(s, events[0]) && Remains(Apply(s, events[0]), events[1..]))
  }

  /** As long as the record is not erased, the committed version never decreases without a confirmed downgrade. */
  lemma {:induction false} CommittedVersionNeverDecreases(s: Sys, events: seq<Event>)
    requires Reachable(s) && s.past.lock.Unbroken? && !s.past.confirmed && Remains(s, events)
    requires forall i :: 0 <= i < |events| ==> Unconfirmed(events[i])
    ensures Replay(s, events).Some? && Replay(s, events).value.record.Some?
    ensures Versions.NotOlder(Replay(s, events).value.record.value.version, s.record.value.version)
    decreases |events|
  {
    if events != [] {
      var e, rest := events[0], events[1..];
      var n := Apply(s, e);
      ReachableInv(s);
      StepKeepsVersion(s, e);
      ReachableStep(s, e);
      RemainingIsUnbroken(s, e);
      CommittedVersionNeverDecreases(n, rest);
      Versions.NotOlderIsTransitive(
        Replay(n, rest).value.record.value.version, n.record.value.version, s.record.value.version);
    }
  }

  /** An event after which there still is a record has not broken the lock. */
  lemma RemainingIsUnbroken(s: Sys, e: Event)
    requires s.past.lock.Unbroken? && Enabled(s, e) && Apply(s, e).record.Some?
    ensures Apply(s, e).past.lock.Unbroken?
  {
    if e.Work? {
      WorkLeavesHistory(s, e.tid, e.result, e.dns);
    }
  }

  // ------------------------------------------------------------------------ no dead ends

  /** The next call of goroutine 0 succeeds. */
  const GOOD: Event := Work(0, Success, "")

  const TWICE: seq<Event> := [GOOD, GOOD]

  const RESTART_AND_TERMINATE: seq<Event> := [Restart] + ([StopRequest(0, Terminated)] + (TWICE + TWICE))

  const RESUME_HEALTHY: seq<Event> :=
    [ResumeRequest(0, None, None)]
    + (TWICE + (TWICE + ([Judge(0, true, true, "")] + (TWICE + (TWICE + [GOOD])))))

  lemma ReplayCons(s: Sys, e: Event, rest: seq<Event>)
    requires Enabled(s, e)
    ensures Replay(s, [e] + rest) == Replay(Apply(s, e), rest)
  {
    assert ([e] + rest)[1..] == rest;
  }

  /** n is what one successful call of goroutine 0 makes of s. */
  ghost predicate Good(s: Sys, n: Sys) {
    0 in s.owners && WorkStep(s, 0, Success, "") == n
  }

  lemma GoodReplay(s: Sys, n: Sys, rest: seq<Event>)
    requires Good(s, n)
    ensures Replay(s, [GOOD] + rest) == Replay(n, rest)
  {
    ReplayCons(s, GOOD, rest);
  }

  lemma TwoGood(s: Sys, m: Sys, n: Sys, rest: seq<Event>)
    requires Good(s, m) && Good(m, n)
    ensures Replay(s, TWICE + rest) == Replay(n, rest)
  {
    assert TWICE + rest == [GOOD] + ([GOOD] + rest);
    GoodReplay(s, m, [GOOD] + rest);
    GoodReplay(m, n, rest);
  }

  /** The world once every container and the route were removed. */
  function Bare(w: World): World {
    w.(blue := Absent, green := Absent, stale := false, route := NoRoute, torn := false, swept := false)
  }

  lemma HaltingSucceeds(s: Sys, r: Record)
    requires s.record == Some(r) && r.op == Terminate && Busy(r.phase)
    requires s.owners == map[0 := Owner(Halting, r, 0)]
    ensures
      var n := s.(record := Some(StoppedRecord(HaltedRecord(r))), owners := map[],
                  world := Bare(s.world), past := s.past.(born := true));
      Replay(s, TWICE + TWICE) == Some(n)
  {
    var h := HaltedRecord(r);
    var w := s.world.(blue := Absent, green := Absent, stale := false);
    var s1 := s.(owners := map[0 := Owner(Halted, r, 0)], world := w);
    var s2 := s1.(record := Some(h), owners := map[0 := Owner(Unrouting, h, 0)], past := s1.past.(born := true));
    var s3 := s2.(owners := map[0 := Owner(Resting, h, 0)], world := Routed(w, NoRoute));
    var n := s3.(record := Some(StoppedRecord(h)), owners := map[], world := Bare(s.world));
    HaltingBegins(s, s1, s2, r);
    HaltingEnds(s2, s3, n, h);
    TwoGood(s, s1, s2, TWICE);
    TwoGood(s2, s3, n, []);
    assert TWICE + [] == TWICE;
  }

  lemma HaltingBegins(s: Sys, m: Sys, n: Sys, r: Record)
    requires r.op == Terminate && s.owners == map[0 := Owner(Halting, r, 0)]
    requires m == s.(owners := map[0 := Owner(Halted, r, 0)],
                     world := s.world.(blue := Absent, green := Absent, stale := false))
    requires n == m.(record := Some(HaltedRecord(r)),
                     owners := map[0 := Owner(Unrouting, HaltedRecord(r), 0)],
                     past := m.past.(born := true))
    ensures Good(s, m) && Good(m, n)
  {
    assert StopWork(s, 0, Success) == m;
    assert StopWork(m, 0, Success) == n;
  }

  lemma HaltingEnds(s: Sys, m: Sys, n: Sys, h: Record)
    requires s.record == Some(h) && h.op == Terminate && Busy(h.phase) && s.past.born
    requires s.owners == map[0 := Owner(Unrouting, h, 0)]
    requires m == s.(owners := map[0 := Owner(Resting, h, 0)], world := Routed(s.world, NoRoute))
    requires n == m.(record := Some(StoppedRecord(h)), owners := map[], world := m.world.(torn := false))
    ensures Good(s, m) && Good(m, n)
  {
    assert map[0 := Owner(Resting, h, 0)] - {0} == map[];
  }

  lemma StopIsAdmitted(s: Sys, n: Sys, r: Record)
    requires s.record.Some? && MayStop(s.record.value, Terminated) && Fresh(s, 0) && s.owners == map[]
    requires r == StoppingRecord(s.record.value, Terminated)
    requires n == s.(record := Some(r), owners := map[0 := Owner(Halting, r, 0)], fence := Abandon(s.fence),
                     past := s.past.(born := true))
    ensures Replay(s, [StopRequest(0, Terminated)] + (TWICE + TWICE)) == Replay(n, TWICE + TWICE)
  {
    assert StopStep(s, StopRequest(0, Terminated)) == n;
    ReplayCons(s, StopRequest(0, Terminated), TWICE + TWICE);
  }

  /** From every state a restart and then a fault-free Terminate end in terminated and stopped. */
  lemma TerminateAlwaysWorks(s: Sys)
    requires Reachable(s) && s.record.Some?
    requires !(s.record.value.state == Terminated && s.record.value.phase == Stopped)
    ensures Replay(s, RESTART_AND_TERMINATE).Some?
    ensures
      var n := Replay(s, RESTART_AND_TERMINATE).value;
      && Idle(n) && n.record.value.state == Terminated && n.record.value.phase == Stopped
      && n.record.value == s.record.value.(state := Terminated, phase := Stopped, op := NoOperation, target := None,
                                           targetVersion := None, targetHosts := None, targetIp := None,
                                           targetPkg := None, lastError := NoFailure)
      && n.world == Bare(s.world) && n.tombstone == Restarted(s).tombstone
  {
    var s1 := Restarted(s);
    var r := StoppingRecord(s1.record.value, Terminated);
    var s2 := s1.(record := Some(r), owners := map[0 := Owner(Halting, r, 0)], past := s1.past.(born := true));
    StopIsAdmitted(s1, s2, r);
    ReplayCons(s, Restart, [StopRequest(0, Terminated)] + (TWICE + TWICE));
    HaltingSucceeds(s2, r);
  }

  /** Nothing of this service is in flight. */
  predicate Idle(s: Sys) {
    s.record.Some? && s.owners == map[] && s.fence.checkers == map[] && s.removers == {} && s.pending == map[]
  }

  /** The world once an upgrade has made sure that Caddy serves the live slot. */
  function Isolated(w: World, r: Record): World {
    if r.op == Upgrade && !(w.route.Proxy? && w.route.slot == r.live)
    then Routed(w, Proxy(r.live, r.hosts)).(torn := false) else w
  }

  lemma ActivatingSucceeds(s: Sys, r: Record, attempt: nat, rest: seq<Event>)
    requires s.record == Some(r) && Activation(r.op) && s.past.born
    requires s.owners == map[0 := Owner(Isolating, r, attempt)]
    ensures
      var n := s.(record := Some(WaitingRecord(r)), owners := map[],
                  fence := s.fence.(checkers := s.fence.checkers[0 := Checker(attempt, r.op, s.world.nextGen)]),
                  world := Launched(Isolated(s.world, r), r));
      Replay(s, TWICE + (TWICE + rest)) == Replay(n, rest)
  {
    var w := Isolated(s.world, r);
    var s1 := s.(owners := map[0 := Owner(Clearing, r, attempt)], world := w);
    var s2 := s.(owners := map[0 := Owner(Launching, r, attempt)], world := WithBox(w, Target(r), Absent));
    ClearingSucceeds(s, s1, s2, r, attempt);
    TwoGood(s, s1, s2, TWICE + rest);
    assert Launched(s2.world, r) == Launched(w, r);
    StartingSucceeds(s2, r, attempt, rest);
  }

  lemma StartingSucceeds(s: Sys, r: Record, attempt: nat, rest: seq<Event>)
    requires s.record.Some? && s.past.born && Box(s.world, Target(r)) == Absent
    requires s.owners == map[0 := Owner(Launching, r, attempt)]
    ensures
      var n := s.(record := Some(WaitingRecord(r)), owners := map[],
                  fence := s.fence.(checkers := s.fence.checkers[0 := Checker(attempt, r.op, s.world.nextGen)]),
                  world := Launched(s.world, r));
      Replay(s, TWICE + rest) == Replay(n, rest)
  {
    var gen := s.world.nextGen;
    var m := s.(owners := map[0 := Owner(Awaiting(gen), r, attempt)], world := Launched(s.world, r));
    var n := m.(record := Some(WaitingRecord(r)), owners := map[],
                fence := s.fence.(checkers := s.fence.checkers[0 := Checker(attempt, r.op, gen)]));
    LaunchingSucceeds(s, m, n, r, attempt);
    TwoGood(s, m, n, rest);
  }

  lemma ClearingSucceeds(s: Sys, m: Sys, n: Sys, r: Record, attempt: nat)
    requires s.owners == map[0 := Owner(Isolating, r, attempt)]
    requires m == s.(owners := map[0 := Owner(Clearing, r, attempt)], world := Isolated(s.world, r))
    requires n == m.(owners := map[0 := Owner(Launching, r, attempt)], world := WithBox(m.world, Target(r), Absent))
    ensures Good(s, m) && Good(m, n)
  {
    assert ActivationWork(s, 0, Success) == m;
    assert ActivationWork(m, 0, Success) == n;
  }

  lemma LaunchingSucceeds(s: Sys, m: Sys, n: Sys, r: Record, attempt: nat)
    requires s.record.Some? && s.past.born && Box(s.world, Target(r)) == Absent
    requires s.owners == map[0 := Owner(Launching, r, attempt)]
    requires m == s.(owners := map[0 := Owner(Awaiting(s.world.nextGen), r, attempt)], world := Launched(s.world, r))
    requires
      var c := Checker(attempt, r.op, s.world.nextGen);
      n == m.(record := Some(WaitingRecord(r)), owners := map[],
              fence := m.fence.(checkers := m.fence.checkers[0 := c]))
    ensures Good(s, m) && Good(m, n)
  {
    assert m.owners - {0} == map[];
  }

  function Launched(w: World, r: Record): World {
    WithBox(w.(nextGen := w.nextGen + 1), Target(r), Present(TargetVersion(r), w.nextGen, true, false))
  }

  lemma RoutingSucceeds(s: Sys, r: Record, attempt: nat, gen: nat)
    requires s.record == Some(r) && r.op == Resume && r.dns == "" && s.past.born && Target(r) != r.live
    requires s.owners == map[0 := Owner(Resolving(gen), r, attempt)]
    ensures
      var n := s.(record := Some(RunningRecord(r)), owners := map[],
                  world := WithBox(Routed(s.world, Proxy(Target(r), RoutingHosts(r))).(torn := false), r.live, Absent));
      Replay(s, TWICE + (TWICE + [GOOD])) == Some(n)
  {
    var w := Routed(s.world, Proxy(Target(r), RoutingHosts(r)));
    var s1 := s.(owners := map[0 := Owner(Recording(gen), r, attempt)]);
    var s2 := s.(owners := map[0 := Owner(Switching(gen), r, attempt)]);
    var s3 := s.(owners := map[0 := Owner(Retiring(gen), r, attempt)], world := w);
    var s4 := s.(owners := map[0 := Owner(Committing(gen), r, attempt)], world := WithBox(w, r.live, Absent));
    ResolvingSucceeds(s, s1, s2, r, attempt, gen);
    SwitchingSucceeds(s2, s3, s4, r, attempt, gen);
    TwoGood(s, s1, s2, TWICE + [GOOD]);
    TwoGood(s2, s3, s4, [GOOD]);
    CommittingSucceeds(s4, r, attempt, gen);
  }

  lemma CommittingSucceeds(s: Sys, r: Record, attempt: nat, gen: nat)
    requires s.owners == map[0 := Owner(Committing(gen), r, attempt)] && s.past.born
    ensures Replay(s, [GOOD]) ==
            Some(s.(record := Some(RunningRecord(r)), owners := map[], world := s.world.(torn := false)))
  {
    assert s.owners - {0} == map[];
    GoodReplay(s, WorkStep(s, 0, Success, ""), []);
    assert [GOOD] + [] == [GOOD];
  }

  lemma ResolvingSucceeds(s: Sys, m: Sys, n: Sys, r: Record, attempt: nat, gen: nat)
    requires s.record == Some(r) && r.dns == "" && s.past.born
             && s.owners == map[0 := Owner(Resolving(gen), r, attempt)]
    requires m == s.(owners := map[0 := Owner(Recording(gen), r, attempt)])
    requires n == s.(owners := map[0 := Owner(Switching(gen), r, attempt)])
    ensures Good(s, m) && Good(m, n)
  {
  }

  lemma SwitchingSucceeds(s: Sys, m: Sys, n: Sys, r: Record, attempt: nat, gen: nat)
    requires r.op == Resume && s.owners == map[0 := Owner(Switching(gen), r, attempt)]
    requires m == s.(owners := map[0 := Owner(Retiring(gen), r, attempt)],
                     world := Routed(s.world, Proxy(Target(r), RoutingHosts(r))))
    requires n == m.(owners := map[0 := Owner(Committing(gen), r, attempt)], world := WithBox(m.world, r.live, Absent))
    ensures Good(s, m) && Good(m, n)
  {
  }

  /** Active and running at this version, with the traffic under the recorded names. */
  predicate RunsAt(s: Sys, version: string) {
    && s.record.Some?
    && var r := s.record.value;
       && r.state == Active && r.phase == Running && r.version == version
       && Runs(Box(s.world, r.live)) && Box(s.world, r.live).version == version
       && s.world.route == Proxy(r.live, r.hosts)
  }

  /** The record once it was resumed and went live. */
  function ResumedRecord(r: Record): Record {
    RunningRecord(RoutingRecord(WaitingRecord(ResumeRecord(r, None, None)), ""))
  }

  /** Whatever the slots held before, the other one now runs the version and the old one is empty. */
  function ResumedWorld(w: World, r: Record): World {
    var q := ResumeRecord(r, None, None);
    WithBox(Routed(Launched(w, q), Proxy(Target(q), r.hosts)).(torn := false), r.live, Absent)
  }

  /**
    A fault-free healthy Resume of any suspended or terminated service on which nothing
    is in progress ends active and running at its version, whatever containers and routes
    there were before.
   */
  lemma ResumeAlwaysWorks(s: Sys)
    requires Reachable(s) && Idle(s)
    requires s.record.value.state == Suspended || s.record.value.state == Terminated
    requires
      s.record.value.phase == Running || s.record.value.phase == Stopped || s.record.value.phase == Failed
    ensures Replay(s, RESUME_HEALTHY).Some?
    ensures
      var r, n := s.record.value, Replay(s, RESUME_HEALTHY).value;
      && RunsAt(n, r.version) && n.tombstone == s.tombstone && Idle(n)
      && n.record.value.live == (if r.live == Blue then Green else Blue)
      && n.record.value.hosts == r.hosts && n.record.value.pkg == r.pkg && n.record.value.matomo == r.matomo
      && n.record.value.ip == (if r.targetIp.Some? then r.targetIp.value else r.ip)
  {
    ReachableInv(s);
    Resumes(s);
  }

  /** The exact end of that run, which needs goroutine 0 alone. */
  lemma Resumes(s: Sys)
    requires s.record.Some? && MayResume(s.record.value) && s.past.born && s.owners == map[] && Fresh(s, 0)
    ensures Replay(s, RESUME_HEALTHY).Some?
    ensures
      var n := Replay(s, RESUME_HEALTHY).value;
      && RunsAt(n, s.record.value.version)
      && n.record == Some(ResumedRecord(s.record.value)) && n.world == ResumedWorld(s.world, s.record.value)
      && n.owners == map[] && n.fence.checkers == s.fence.checkers
      && n.tombstone == s.tombstone && n.removers == s.removers && n.pending == s.pending
  {
    var r := ResumeRecord(s.record.value, None, None);
    var f := NextAttempt(s.fence);
    var s1 := s.(record := Some(r), fence := f,
                 owners := map[0 := Owner(Isolating, r, f.latest)], past := s.past.(born := true, confirmed := false));
    var c := Checker(f.latest, Resume, s.world.nextGen);
    var s2 := s1.(record := Some(WaitingRecord(r)), owners := map[], fence := f.(checkers := f.checkers[0 := c]),
                  world := Launched(s.world, r));
    var q := RoutingRecord(WaitingRecord(r), "");
    var s3 := s2.(record := Some(q), fence := f.(current := None),
                  owners := map[0 := Owner(Resolving(c.gen), q, f.latest)]);
    var rest := [Judge(0, true, true, "")] + (TWICE + (TWICE + [GOOD]));
    ResumeIsAdmitted(s, s1, TWICE + (TWICE + rest));
    ActivatingSucceeds(s1, r, f.latest, rest);
    JudgingSucceeds(s2, s3, c, q, TWICE + (TWICE + [GOOD]));
    RoutingSucceeds(s3, q, f.latest, c.gen);
  }

  lemma ResumeIsAdmitted(s: Sys, n: Sys, rest: seq<Event>)
    requires s.record.Some? && MayResume(s.record.value) && s.owners == map[] && Fresh(s, 0)
    requires
      var r, f := ResumeRecord(s.record.value, None, None), NextAttempt(s.fence);
      n == s.(record := Some(r), fence := f,
              owners := map[0 := Owner(Isolating, r, f.latest)], past := s.past.(born := true, confirmed := false))
    ensures Replay(s, [ResumeRequest(0, None, None)] + rest) == Replay(n, rest)
  {
    assert ResumeStep(s, ResumeRequest(0, None, None)) == n;
    ReplayCons(s, ResumeRequest(0, None, None), rest);
  }

  lemma JudgingSucceeds(s: Sys, n: Sys, c: Checker, q: Record, rest: seq<Event>)
    requires 0 in s.fence.checkers && s.fence.checkers[0] == c && Timely(s, c)
    requires q == RoutingRecord(s.record.value, "") && s.past.born && s.owners == map[]
    requires n.fence.checkers == s.fence.checkers - {0}
    requires n == s.(record := Some(q), fence := s.fence.(checkers := n.fence.checkers, current := None),
                     owners := map[0 := Owner(Resolving(c.gen), q, c.attempt)])
    ensures Replay(s, [Judge(0, true, true, "")] + rest) == Replay(n, rest)
  {
    assert JudgeStep(s, Judge(0, true, true, "")) == n;
    ReplayCons(s, Judge(0, true, true, ""), rest);
  }

  lemma {:induction false} ReachableReplay(s: Sys, events: seq<Event>)
    requires Reachable(s) && Replay(s, events).Some?
    ensures Reachable(Replay(s, events).value)
    decreases |events|
  {
    if events != [] {
      ReachableStep(s, events[0]);
      ReachableReplay(Apply(s, events[0]), events[1..]);
    }
  }

  /** Terminate, unless that is done already, and resume, after a restart. */
  function WayBack(r: Record): seq<Event> {
    if r.state == Terminated && r.phase == Stopped then [Restart] + RESUME_HEALTHY
    else RESTART_AND_TERMINATE + RESUME_HEALTHY
  }

  /** From every state with a record there is a way back to running at the committed version. */
  lemma NoDeadEnds(s: Sys)
    requires Reachable(s) && s.record.Some?
    ensures Replay(s, WayBack(s.record.value)).Some?
    ensures
      var n := Replay(s, WayBack(s.record.value)).value;
      RunsAt(n, s.record.value.version) && Idle(n) && n.tombstone == Restarted(s).tombstone
  {
    if s.record.value.state == Terminated && s.record.value.phase == Stopped {
      ReachableStep(s, Restart);
      ReplayCons(s, Restart, RESUME_HEALTHY);
      ResumeAlwaysWorks(Restarted(s));
    } else {
      TerminateAlwaysWorks(s);
      ReachableReplay(s, RESTART_AND_TERMINATE);
      ReplayThen(s, RESTART_AND_TERMINATE, RESUME_HEALTHY);
      ResumeAlwaysWorks(Replay(s, RESTART_AND_TERMINATE).value);
    }
  }

  lemma {:induction false} ReplayThen(s: Sys, first: seq<Event>, rest: seq<Event>)
    requires Replay(s, first).Some?
    ensures Replay(s, first + rest) == Replay(Replay(s, first).value, rest)
    decreases |first|
  {
    if first == [] {
      assert first + rest == rest;
    } else {
      assert (first + rest)[1..] == first[1..] + rest;
      ReplayThen(Apply(s, first[0]), first[1..], rest);
    }
  }
}
