/**
  What each request ends in if nothing goes wrong: who is admitted, and which record,
  containers and route its goroutines leave.  Everything is said in terms of the request
  and the record before, not of the functions that compute the steps.
 */
module LifecycleOutcomes {
  import opened Prelude
  import opened Lifecycle
  import opened LifecycleLock
  import opened LifecycleSteps
  import opened LifecycleTheorems
  import opened LifecycleRuns
  import Versions

  // ------------------------------------------------------------------ who is admitted

  /** Nothing is in progress. */
  predicate Settled(r: Record) {
    r.phase == Running || r.phase == Stopped || r.phase == Failed
  }

  /** A first start or a resume that waits for health or has failed. */
  predicate Unfinished(r: Record) {
    (r.phase == WaitingForHealth || r.phase == Failed) && (r.op == Provision || r.op == Resume)
  }

  /** An active service at rest, waiting, or with a failed upgrade, or a start that can be replaced. */
  predicate CanUpgrade(r: Record) {
    || Unfinished(r)
    || (r.state == Active && (r.phase == Running || r.phase == Stopped || r.phase == WaitingForHealth))
    || (r.state == Active && r.phase == Failed && r.op == Upgrade)
  }

  lemma UpgradeIsAdmittedIff(s: Sys, tid: nat, q: UpgradeQuery)
    requires Fresh(s, tid)
    ensures Enabled(s, UpgradeRequest(tid, q)) <==>
            && s.record.Some?
            && var r := s.record.value;
               && CanUpgrade(r)
               && !(q.version == r.version && !q.force && (q.matomo == None || q.matomo == Some(r.matomo))
                    && r.state == Active && (r.phase == Running || r.phase == Stopped))
               && (q.confirmDowngrade
                   || (Versions.Compare(q.version, r.version).1 && Versions.Compare(q.version, r.version).0 >= 0))
  {
  }

  lemma ResumeIsAdmittedIff(s: Sys, tid: nat, pkg: Package, matomo: Option<nat>)
    requires Fresh(s, tid)
    ensures Enabled(s, ResumeRequest(tid, pkg, matomo)) <==>
            && s.record.Some? && (s.record.value.state == Suspended || s.record.value.state == Terminated)
            && Settled(s.record.value)
  {
  }

  lemma StopIsAdmittedIff(s: Sys, tid: nat, to: State)
    requires Fresh(s, tid) && to != Active
    ensures Enabled(s, StopRequest(tid, to)) <==>
            && s.record.Some?
            && var r := s.record.value;
               && (Settled(r) || r.phase == WaitingForHealth)
               && !(r.state == to && r.phase == Stopped)
               && (to == Suspended ==> r.state != Terminated || (r.op == Resume && r.phase == WaitingForHealth))
  {
  }

  lemma DeleteIsAdmittedIff(s: Sys, tid: nat)
    requires Fresh(s, tid)
    ensures Enabled(s, DeleteRequest(tid)) <==>
            s.tombstone.None? && s.record.Some? && s.record.value.state == Terminated && Settled(s.record.value)
  {
  }

  // ----------------------------------------------------------------------- an upgrade

  /** The traffic is moved, and then what the operation still has to do. */
  function Finish(op: Operation): seq<Event> {
    match op
    case Resume => TWICE + (TWICE + [GOOD])
    case Upgrade => TWICE + (TWICE + TWICE)
    case _ => TWICE + TWICE
  }

  function UpgradeRun(q: UpgradeQuery, op: Operation): seq<Event> {
    [UpgradeRequest(0, q)] + (TWICE + (TWICE + ([Judge(0, true, true, "")] + Finish(op))))
  }

  /** The operation that the upgrade request carries on. */
  function CarriedOn(r: Record): Operation {
    if Unfinished(r) then r.op else Upgrade
  }

  lemma ProvisionFinishes(s: Sys, r: Record, attempt: nat, gen: nat)
    requires s.record == Some(r) && r.op == Provision && r.dns == "" && s.past.born
    requires s.owners == map[0 := Owner(Resolving(gen), r, attempt)]
    ensures
      var n := s.(record := Some(RunningRecord(r)), owners := map[],
                  world := Routed(s.world, Proxy(Target(r), RoutingHosts(r))).(torn := false));
      Replay(s, TWICE + TWICE) == Some(n)
  {
    var s1 := s.(owners := map[0 := Owner(Recording(gen), r, attempt)]);
    var s2 := s.(owners := map[0 := Owner(Switching(gen), r, attempt)]);
    ResolvingSucceeds(s, s1, s2, r, attempt, gen);
    TwoGood(s, s1, s2, TWICE);
    ProvisionCommits(s2, r, attempt, gen);
  }

  lemma ProvisionCommits(s: Sys, r: Record, attempt: nat, gen: nat)
    requires r.op == Provision && s.past.born && s.owners == map[0 := Owner(Switching(gen), r, attempt)]
    ensures
      var n := s.(record := Some(RunningRecord(r)), owners := map[],
                  world := Routed(s.world, Proxy(Target(r), RoutingHosts(r))).(torn := false));
      Replay(s, TWICE) == Some(n)
  {
    var m := s.(owners := map[0 := Owner(Committing(gen), r, attempt)],
                world := Routed(s.world, Proxy(Target(r), RoutingHosts(r))));
    var n := m.(record := Some(RunningRecord(r)), owners := map[], world := m.world.(torn := false));
    assert HealthWork(s, 0, Success, "") == m;
    CommitEnds(m, n, r, attempt, gen);
    assert TWICE + [] == TWICE;
    TwoGood(s, m, n, []);
  }

  lemma CommitEnds(s: Sys, n: Sys, r: Record, attempt: nat, gen: nat)
    requires s.owners == map[0 := Owner(Committing(gen), r, attempt)] && s.past.born
    requires n == s.(record := Some(RunningRecord(r)), owners := map[], world := s.world.(torn := false))
    ensures Good(s, n)
  {
    assert s.owners - {0} == map[];
  }

  lemma UpgradeFinishes(s: Sys, r: Record, attempt: nat, gen: nat)
    requires s.record == Some(r) && r.op == Upgrade && r.dns == "" && s.past.born
    requires s.owners == map[0 := Owner(Resolving(gen), r, attempt)]
    ensures
      var d := DrainingRecord(r);
      var w := Routed(s.world, Proxy(Target(r), RoutingHosts(r)));
      var n := s.(record := Some(RunningRecord(d)), owners := map[],
                  world := WithBox(w, r.live, Absent).(torn := false));
      Replay(s, TWICE + (TWICE + TWICE)) == Some(n)
  {
    var d := DrainingRecord(r);
    var w := Routed(s.world, Proxy(Target(r), RoutingHosts(r)));
    var s1 := s.(owners := map[0 := Owner(Recording(gen), r, attempt)]);
    var s2 := s.(owners := map[0 := Owner(Switching(gen), r, attempt)]);
    var s3 := s.(owners := map[0 := Owner(StartingDrain(gen), r, attempt)], world := w);
    var s4 := s3.(record := Some(d), owners := map[0 := Owner(DrainingOld(gen), d, attempt)]);
    ResolvingSucceeds(s, s1, s2, r, attempt, gen);
    TwoGood(s, s1, s2, TWICE + TWICE);
    DrainStarts(s2, s3, s4, r, attempt, gen);
    TwoGood(s2, s3, s4, TWICE);
    DrainCommits(s4, d, attempt, gen);
  }

  lemma DrainCommits(s: Sys, d: Record, attempt: nat, gen: nat)
    requires s.past.born && s.owners == map[0 := Owner(DrainingOld(gen), d, attempt)]
    ensures
      var n := s.(record := Some(RunningRecord(d)), owners := map[],
                  world := WithBox(s.world, d.live, Absent).(torn := false));
      Replay(s, TWICE) == Some(n)
  {
    var m := s.(owners := map[0 := Owner(Committing(gen), d, attempt)], world := WithBox(s.world, d.live, Absent));
    var n := m.(record := Some(RunningRecord(d)), owners := map[], world := m.world.(torn := false));
    DrainEnds(s, m, d, attempt, gen);
    CommitEnds(m, n, d, attempt, gen);
    assert TWICE + [] == TWICE;
    TwoGood(s, m, n, []);
  }

  lemma DrainStarts(s: Sys, m: Sys, n: Sys, r: Record, attempt: nat, gen: nat)
    requires r.op == Upgrade && s.past.born && s.owners == map[0 := Owner(Switching(gen), r, attempt)]
    requires m == s.(owners := map[0 := Owner(StartingDrain(gen), r, attempt)],
                     world := Routed(s.world, Proxy(Target(r), RoutingHosts(r))))
    requires n == m.(record := Some(DrainingRecord(r)),
                     owners := map[0 := Owner(DrainingOld(gen), DrainingRecord(r), attempt)])
    ensures Good(s, m) && Good(m, n)
  {
    assert HealthWork(s, 0, Success, "") == m;
    assert HealthWork(m, 0, Success, "") == n;
  }

  lemma DrainEnds(s: Sys, n: Sys, d: Record, attempt: nat, gen: nat)
    requires s.owners == map[0 := Owner(DrainingOld(gen), d, attempt)]
    requires n == s.(owners := map[0 := Owner(Committing(gen), d, attempt)], world := WithBox(s.world, d.live, Absent))
    ensures Good(s, n)
  {
    assert HealthWork(s, 0, Success, "") == n;
  }

  /** After the verdict the goroutine goes on to the end of its operation. */
  lemma Finishes(s: Sys, r: Record, attempt: nat, gen: nat) returns (n: Sys)
    requires r.op == Provision || Target(r) != r.live
    requires s.record == Some(r) && Activation(r.op) && r.dns == "" && s.past.born
    requires s.owners == map[0 := Owner(Resolving(gen), r, attempt)]
    ensures Replay(s, Finish(r.op)) == Some(n)
    ensures n == s.(record := n.record, owners := map[], world := n.world)
    ensures n.record == Some(RunningRecord(if r.op == Upgrade then DrainingRecord(r) else r))
    ensures n.world.route == Proxy(Target(r), RoutingHosts(r))
    ensures Box(n.world, Target(r)) == Box(s.world, Target(r))
  {
    if r.op == Resume {
      RoutingSucceeds(s, r, attempt, gen);
    } else if r.op == Upgrade {
      UpgradeFinishes(s, r, attempt, gen);
    } else {
      ProvisionFinishes(s, r, attempt, gen);
    }
    n := Replay(s, Finish(r.op)).value;
  }

  lemma UpgradeStarts(s: Sys, n: Sys, q: UpgradeQuery, rest: seq<Event>)
    requires s.record.Some? && s.owners == map[] && Enabled(s, UpgradeRequest(0, q))
    requires
      var r, f := UpgradeRecord(s.record.value, q), NextAttempt(s.fence);
      n == s.(record := Some(r), fence := f, owners := map[0 := Owner(Isolating, r, f.latest)],
              past := s.past.(born := true, confirmed := q.confirmDowngrade))
    ensures Replay(s, [UpgradeRequest(0, q)] + rest) == Replay(n, rest)
  {
    assert UpgradeStep(s, UpgradeRequest(0, q)) == n;
    ReplayCons(s, UpgradeRequest(0, q), rest);
  }

  lemma UpgradeRuns(s: Sys, q: UpgradeQuery) returns (n: Sys)
    requires s.record.Some? && s.owners == map[] && s.past.born && Enabled(s, UpgradeRequest(0, q))
    ensures Replay(s, UpgradeRun(q, UpgradeOperation(s.record.value))) == Some(n)
    ensures n.owners == map[] && n.fence.checkers == s.fence.checkers
    ensures n.tombstone == s.tombstone && n.removers == s.removers && n.pending == s.pending
    ensures
      var u := RoutingRecord(WaitingRecord(UpgradeRecord(s.record.value, q)), "");
      && n.record == Some(RunningRecord(if u.op == Upgrade then DrainingRecord(u) else u))
      && n.world.route == Proxy(Target(u), RoutingHosts(u))
      && Box(n.world, Target(u)) == Present(q.version, s.world.nextGen, true, false)
  {
    var r := UpgradeRecord(s.record.value, q);
    var f := NextAttempt(s.fence);
    var s1 := s.(record := Some(r), fence := f, owners := map[0 := Owner(Isolating, r, f.latest)],
                 past := s.past.(born := true, confirmed := q.confirmDowngrade));
    var c := Checker(f.latest, r.op, s.world.nextGen);
    var s2 := s1.(record := Some(WaitingRecord(r)), owners := map[], fence := f.(checkers := f.checkers[0 := c]),
                  world := Launched(Isolated(s.world, r), r));
    var u := RoutingRecord(WaitingRecord(r), "");
    var s3 := s2.(record := Some(u), fence := f.(current := None),
                  owners := map[0 := Owner(Resolving(c.gen), u, f.latest)]);
    var rest := [Judge(0, true, true, "")] + Finish(r.op);
    UpgradeStarts(s, s1, q, TWICE + (TWICE + rest));
    ActivatingSucceeds(s1, r, f.latest, rest);
    assert s2.fence.checkers - {0} == f.checkers;
    JudgingSucceeds(s2, s3, c, u, Finish(r.op));
    n := Finishes(s3, u, f.latest, c.gen);
  }

  /**
    A fault-free healthy upgrade ends active and running at the requested version, with
    what the request asked for, or else what a replaced attempt was about to commit, or
    else what was recorded; in the other slot, unless it carries on a first start.
   */
  lemma UpgradeAlwaysWorks(s: Sys, q: UpgradeQuery)
    requires Reachable(s) && s.record.Some? && s.owners == map[] && Fresh(s, 0)
    requires CanUpgrade(s.record.value)
    requires
      var r := s.record.value;
      && !(q.version == r.version && !q.force && (q.matomo == None || q.matomo == Some(r.matomo))
           && r.state == Active && (r.phase == Running || r.phase == Stopped))
      && (q.confirmDowngrade
          || (Versions.Compare(q.version, r.version).1 && Versions.Compare(q.version, r.version).0 >= 0))
    ensures Replay(s, UpgradeRun(q, CarriedOn(s.record.value))).Some?
    ensures
      var r, n := s.record.value, Replay(s, UpgradeRun(q, CarriedOn(s.record.value))).value;
      var pending := r.phase == WaitingForHealth || Unfinished(r);
      var other := if r.live == Blue then Green else Blue;
      && RunsAt(n, q.version)
      && n.record.value.live == (if Unfinished(r) && r.op == Provision then r.live else other)
      && n.record.value.hosts == (if q.hosts.Some? then q.hosts.value
                                  else if pending && r.targetHosts.Some? then r.targetHosts.value else r.hosts)
      && n.record.value.ip == (if q.ip.Some? then q.ip.value
                               else if pending && r.targetIp.Some? then r.targetIp.value else r.ip)
      && n.record.value.pkg == (if q.pkg.Some? then q.pkg
                                else if pending && r.targetPkg.Some? then r.targetPkg else r.pkg)
      && n.record.value.matomo == (if q.matomo.Some? then q.matomo.value else r.matomo)
      && n.record.value.op == NoOperation && n.record.value.lastError == NoFailure
      && n.owners == map[] && n.fence.checkers == s.fence.checkers && n.tombstone == s.tombstone
  {
    ReachableInv(s);
    UpgradeIsAdmittedIff(s, 0, q);
    var n := UpgradeRuns(s, q);
  }

  // ------------------------------------------------------------------- suspending

  const RESTART_AND_SUSPEND: seq<Event> := [Restart] + ([StopRequest(0, Suspended)] + (TWICE + TWICE))

  /** What a container is once it was stopped. */
  function StoppedBox(c: Container): Container {
    if c.Present? then c.(running := false) else Absent
  }

  /** The record of a suspended service. */
  function SuspendedRecord(r: Record): Record {
    r.(state := Suspended, phase := Stopped, op := NoOperation, target := None, targetVersion := None,
       targetHosts := None, targetIp := None, targetPkg := None, lastError := NoFailure)
  }

  lemma SuspensionBegins(s: Sys, m: Sys, n: Sys, r: Record)
    requires r.op == Suspend && s.owners == map[0 := Owner(Halting, r, 0)]
    requires m == s.(owners := map[0 := Owner(Halted, r, 0)],
                     world := s.world.(blue := StoppedBox(s.world.blue), green := StoppedBox(s.world.green),
                                       stale := false))
    requires n == m.(record := Some(HaltedRecord(r)), owners := map[0 := Owner(Unrouting, HaltedRecord(r), 0)],
                     past := m.past.(born := true))
    ensures Good(s, m) && Good(m, n)
  {
    assert StopWork(s, 0, Success) == m;
    assert StopWork(m, 0, Success) == n;
  }

  lemma SuspensionEnds(s: Sys, m: Sys, n: Sys, h: Record)
    requires s.record == Some(h) && h.op == Suspend && Busy(h.phase) && s.past.born
    requires s.owners == map[0 := Owner(Unrouting, h, 0)]
    requires m == s.(owners := map[0 := Owner(Resting, h, 0)], world := Routed(s.world, Page(h.hosts)))
    requires n == m.(record := Some(StoppedRecord(h)), owners := map[], world := m.world.(torn := false))
    ensures Good(s, m) && Good(m, n)
  {
    assert map[0 := Owner(Resting, h, 0)] - {0} == map[];
  }

  lemma SuspensionIsAdmitted(s: Sys, n: Sys, r: Record, rest: seq<Event>)
    requires s.owners == map[] && Enabled(s, StopRequest(0, Suspended))
    requires r == StoppingRecord(s.record.value, Suspended)
    requires n == s.(record := Some(r), owners := map[0 := Owner(Halting, r, 0)], fence := Abandon(s.fence),
                     past := s.past.(born := true))
    ensures Replay(s, [StopRequest(0, Suspended)] + rest) == Replay(n, rest)
  {
    assert StopStep(s, StopRequest(0, Suspended)) == n;
    ReplayCons(s, StopRequest(0, Suspended), rest);
  }

  lemma SuspensionRuns(s: Sys, r: Record)
    requires s.record == Some(r) && r.op == Suspend && s.past.born && s.owners == map[0 := Owner(Halting, r, 0)]
    ensures
      var w := s.world.(blue := StoppedBox(s.world.blue), green := StoppedBox(s.world.green), stale := false);
      var n := s.(record := Some(StoppedRecord(HaltedRecord(r))), owners := map[],
                  world := Routed(w, Page(r.hosts)).(torn := false));
      Replay(s, TWICE + TWICE) == Some(n)
  {
    var h := HaltedRecord(r);
    var w := s.world.(blue := StoppedBox(s.world.blue), green := StoppedBox(s.world.green), stale := false);
    var s1 := s.(owners := map[0 := Owner(Halted, r, 0)], world := w);
    var s2 := s1.(record := Some(h), owners := map[0 := Owner(Unrouting, h, 0)]);
    SuspensionBegins(s, s1, s2, r);
    TwoGood(s, s1, s2, TWICE);
    SuspensionRests(s2, h);
  }

  lemma SuspensionRests(s: Sys, h: Record)
    requires s.record == Some(h) && h.op == Suspend && Busy(h.phase) && s.past.born
    requires s.owners == map[0 := Owner(Unrouting, h, 0)]
    ensures Replay(s, TWICE) ==
            Some(s.(record := Some(StoppedRecord(h)), owners := map[],
                    world := Routed(s.world, Page(h.hosts)).(torn := false)))
  {
    var m := s.(owners := map[0 := Owner(Resting, h, 0)], world := Routed(s.world, Page(h.hosts)));
    var n := m.(record := Some(StoppedRecord(h)), owners := map[], world := m.world.(torn := false));
    SuspensionEnds(s, m, n, h);
    assert TWICE + [] == TWICE;
    TwoGood(s, m, n, []);
  }

  /**
    A fault-free Suspend stops every container, keeps it, and shows the suspension page
    under the recorded names.
   */
  lemma SuspendWorks(s: Sys)
    requires s.record.Some? && s.owners == map[] && Fresh(s, 0) && s.past.born
    requires
      var r := s.record.value;
      && (Settled(r) || r.phase == WaitingForHealth) && !(r.state == Suspended && r.phase == Stopped)
      && (r.state != Terminated || (r.op == Resume && r.phase == WaitingForHealth))
    ensures
      var r := s.record.value;
      Replay(s, [StopRequest(0, Suspended)] + (TWICE + TWICE)) ==
      Some(s.(record := Some(SuspendedRecord(r)), fence := Abandon(s.fence),
              world := s.world.(blue := StoppedBox(s.world.blue), green := StoppedBox(s.world.green),
                                route := Page(r.hosts), torn := false, swept := false, stale := false)))
  {
    StopIsAdmittedIff(s, 0, Suspended);
    var r := StoppingRecord(s.record.value, Suspended);
    var s1 := s.(record := Some(r), owners := map[0 := Owner(Halting, r, 0)], fence := Abandon(s.fence));
    SuspensionIsAdmitted(s, s1, r, TWICE + TWICE);
    SuspensionRuns(s1, r);
    assert StoppedRecord(HaltedRecord(r)) == SuspendedRecord(s.record.value);
  }

  /** From every state with an active or suspended service: a restart, and then Suspend suspends. */
  lemma SuspendAlwaysWorks(s: Sys)
    requires Reachable(s) && s.record.Some?
    requires s.record.value.state == Active || s.record.value.state == Suspended
    requires !(s.record.value.state == Suspended && s.record.value.phase == Stopped)
    ensures Replay(s, RESTART_AND_SUSPEND).Some?
    ensures
      var r, n := s.record.value, Replay(s, RESTART_AND_SUSPEND).value;
      && Idle(n) && n.record == Some(SuspendedRecord(r)) && n.tombstone == Restarted(s).tombstone
      && n.world == s.world.(blue := StoppedBox(s.world.blue), green := StoppedBox(s.world.green),
                             route := Page(r.hosts), torn := false, swept := false, stale := false)
  {
    ReachableInv(s);
    ReplayCons(s, Restart, [StopRequest(0, Suspended)] + (TWICE + TWICE));
    SuspendWorks(Restarted(s));
  }

  // ------------------------------------------------------------------------ deleting

  const DELETE: seq<Event> := [DeleteRequest(0)] + (TWICE + (TWICE + ([GOOD] + [Sweep(0, true, true)])))

  function Deleting(s: Sys, d: Record, pc: Pc, w: World): Sys {
    s.(record := Some(d), owners := map[0 := Owner(pc, d, 0)], world := w)
  }

  lemma DeletionEmpties(s: Sys, d: Record, w: World)
    ensures
      var empty := w.(blue := Absent, green := Absent, stale := false);
      && Good(Deleting(s, d, Purging, w), Deleting(s, d, Unlisting, empty))
      && Good(Deleting(s, d, Unlisting, empty), Deleting(s, d, Destroying, Routed(empty, NoRoute)))
  {
    var empty := w.(blue := Absent, green := Absent, stale := false);
    assert DeleteWork(Deleting(s, d, Purging, w), 0, Success) == Deleting(s, d, Unlisting, empty);
    assert DeleteWork(Deleting(s, d, Unlisting, empty), 0, Success) ==
           Deleting(s, d, Destroying, Routed(empty, NoRoute));
  }

  lemma DeletionBuries(s: Sys, d: Record, w: World)
    ensures
      var gone := w.(dataset := false);
      && Good(Deleting(s, d, Destroying, w), Deleting(s, d, Burying, gone))
      && Good(Deleting(s, d, Burying, gone), Deleting(s, d, Erasing, gone).(tombstone := Some(TombDeleting)))
  {
    var gone := w.(dataset := false);
    assert DeleteWork(Deleting(s, d, Destroying, w), 0, Success) == Deleting(s, d, Burying, gone);
    assert DeleteWork(Deleting(s, d, Burying, gone), 0, Success) ==
           Deleting(s, d, Erasing, gone).(tombstone := Some(TombDeleting));
  }

  lemma DeletionErases(s: Sys, m: Sys, n: Sys, d: Record)
    requires s.owners == map[0 := Owner(Erasing, d, 0)] && s.removers == {}
    requires m == s.(record := None, owners := map[], removers := {0})
    requires n == m.(removers := {}, tombstone := Some(TombDeleted),
                     world := m.world.(route := NoRoute, swept := true))
    ensures Replay(s, [GOOD] + [Sweep(0, true, true)]) == Some(n)
  {
    assert s.owners - {0} == map[];
    assert DeleteWork(s, 0, Success) == m;
    GoodReplay(s, m, [Sweep(0, true, true)]);
    assert {0} - {0} == {};
    assert SweepStep(m, Sweep(0, true, true)) == n;
    assert [Sweep(0, true, true)] + [] == [Sweep(0, true, true)];
    ReplayCons(m, Sweep(0, true, true), []);
  }

  lemma DeletionIsAdmitted(s: Sys, n: Sys, rest: seq<Event>)
    requires s.owners == map[] && s.past.born && Enabled(s, DeleteRequest(0))
    requires n == Deleting(s, DeletingRecord(s.record.value), Purging, s.world)
    ensures Replay(s, [DeleteRequest(0)] + rest) == Replay(n, rest)
  {
    assert DeleteStep(s, DeleteRequest(0)) == n;
    ReplayCons(s, DeleteRequest(0), rest);
  }

  /** A fault-free Delete of a terminated service leaves a finished tombstone and nothing else. */
  lemma DeleteAlwaysWorks(s: Sys)
    requires Reachable(s) && s.tombstone.None? && s.owners == map[] && Fresh(s, 0)
    requires s.record.Some? && s.record.value.state == Terminated && Settled(s.record.value)
    ensures Replay(s, DELETE).Some?
    ensures
      var n := Replay(s, DELETE).value;
      && n.record.None? && n.tombstone == Some(TombDeleted) && n.owners == map[] && n.removers == {}
      && n.world.blue == Absent && n.world.green == Absent && n.world.route == NoRoute && !n.world.dataset
  {
    ReachableInv(s);
    DeleteIsAdmittedIff(s, 0);
    var d := DeletingRecord(s.record.value);
    var w1 := s.world.(blue := Absent, green := Absent, stale := false);
    var w2 := Routed(w1, NoRoute);
    var w3 := w2.(dataset := false);
    var rest := [GOOD] + [Sweep(0, true, true)];
    DeletionIsAdmitted(s, Deleting(s, d, Purging, s.world), TWICE + (TWICE + rest));
    DeletionEmpties(s, d, s.world);
    TwoGood(Deleting(s, d, Purging, s.world), Deleting(s, d, Unlisting, w1), Deleting(s, d, Destroying, w2),
            TWICE + rest);
    DeletionBuries(s, d, w2);
    var e := Deleting(s, d, Erasing, w3).(tombstone := Some(TombDeleting));
    TwoGood(Deleting(s, d, Destroying, w2), Deleting(s, d, Burying, w3), e, rest);
    var m := e.(record := None, owners := map[], removers := {0});
    DeletionErases(e, m, m.(removers := {}, tombstone := Some(TombDeleted),
                            world := m.world.(route := NoRoute, swept := true)), d);
  }

  // --------------------------------------------------------------------- provisioning

  /** The service was never stored. */
  ghost predicate Untouched(s: Sys) {
    && s.record.None? && s.tombstone.None? && s.owners == map[] && s.fence.checkers == map[] && s.removers == {}
    && s.world == NOTHING
  }

  lemma UntouchedStays(s: Sys, e: Event)
    requires Untouched(s) && Enabled(s, e)
    ensures Apply(s, e).past.born || Untouched(Apply(s, e))
  {
  }

  lemma {:induction false} UntouchedRuns(s: Sys, events: seq<Event>)
    requires s.past.born || Untouched(s)
    requires Replay(s, events).Some?
    ensures Replay(s, events).value.past.born || Untouched(Replay(s, events).value)
    decreases |events|
  {
    if events != [] {
      if s.past.born {
        BornStays(s, events[0]);
      } else {
        UntouchedStays(s, events[0]);
      }
      UntouchedRuns(Apply(s, events[0]), events[1..]);
    }
  }

  /** A service without a record and a tombstone has no containers, no route and no goroutines. */
  lemma UnknownMeansUntouched(s: Sys)
    requires Reachable(s) && s.record.None? && s.tombstone.None?
    ensures Untouched(s)
  {
    ReachableInv(s);
    var events :| Replay(INITIAL, events) == Some(s);
    UntouchedRuns(INITIAL, events);
  }

  /** The verdict, and what follows it. */
  const HEALTHY: seq<Event> := [Judge(0, true, true, "")] + (TWICE + TWICE)

  /** The admitted request and everything after it. */
  function ProvisionTail(e: Event): seq<Event> {
    [e] + (TWICE + ([GOOD] + HEALTHY))
  }

  function ProvisionRun(q: ProvisionQuery, e: Event): seq<Event> {
    [ProvisionCall(0, q)] + ([ProvisionLook(0)] + ProvisionTail(e))
  }

  /** What a first start finds or creates in the first slot. */
  function FirstBox(w: World, version: string): Container {
    if w.blue.Present? then w.blue.(running := true, adopted := w.blue.version != version)
    else Present(version, w.nextGen, true, false)
  }

  function FirstStart(w: World, version: string): World {
    w.(dataset := true, blue := FirstBox(w, version), nextGen := w.nextGen + 1)
  }

  lemma ProvisionStarts(s: Sys, r: Record, rest: seq<Event>) returns (n: Sys, c: Checker)
    requires s.record == Some(r) && r.op == Provision && r.targetVersion.Some? && s.past.born && 0 !in s.fence.checkers
    requires s.owners == map[0 := Owner(Preparing, r, 0)]
    ensures Replay(s, TWICE + ([GOOD] + rest)) == Replay(n, rest)
    ensures c == Checker(s.fence.sequence + 1, Provision, SlotGen(FirstBox(s.world, r.targetVersion.value)))
    ensures n == s.(record := Some(WaitingRecord(r)), owners := map[],
                    fence := NextAttempt(s.fence).(checkers := s.fence.checkers[0 := c]),
                    world := FirstStart(s.world, r.targetVersion.value))
  {
    var w := FirstStart(s.world, r.targetVersion.value);
    var s1 := s.(owners := map[0 := Owner(LaunchFirst, r, 0)], world := s.world.(dataset := true));
    var s2 := s.(owners := map[0 := Owner(AwaitFirst(SlotGen(w.blue)), r, 0)], world := w);
    c := Checker(s.fence.sequence + 1, Provision, SlotGen(w.blue));
    n := s.(record := Some(WaitingRecord(r)), owners := map[],
            fence := NextAttempt(s.fence).(checkers := s.fence.checkers[0 := c]), world := w);
    assert ProvisionWork(s, 0, Success) == s1;
    assert ProvisionWork(s1, 0, Success) == s2;
    TwoGood(s, s1, s2, [GOOD] + rest);
    FirstStartIsAwaited(s2, n, r, c);
    GoodReplay(s2, n, rest);
  }

  lemma FirstStartIsAwaited(s: Sys, n: Sys, r: Record, c: Checker)
    requires s.record == Some(r) && s.past.born && s.owners == map[0 := Owner(AwaitFirst(c.gen), r, 0)]
    requires c.op == Provision && c.attempt == s.fence.sequence + 1
    requires n == s.(record := Some(WaitingRecord(r)), owners := map[],
                     fence := NextAttempt(s.fence).(checkers := s.fence.checkers[0 := c]))
    ensures Good(s, n)
  {
    assert s.owners - {0} == map[];
    assert ProvisionWork(s, 0, Success) == n;
  }

  lemma ProvisionRuns(s: Sys, r: Record, rest: seq<Event>) returns (n: Sys)
    requires rest == HEALTHY
    requires s.record == Some(r) && r.op == Provision && r.target == Some(Blue) && r.targetVersion.Some? && s.past.born
    requires s.owners == map[0 := Owner(Preparing, r, 0)] && 0 !in s.fence.checkers
    ensures Replay(s, TWICE + ([GOOD] + rest)) == Some(n)
    ensures n.record == Some(RunningRecord(RoutingRecord(WaitingRecord(r), ""))) && n.owners == map[]
    ensures n.world ==
            Routed(FirstStart(s.world, r.targetVersion.value), Proxy(Target(r), RoutingHosts(r))).(torn := false)
  {
    var m, c := ProvisionStarts(s, r, rest);
    n := ProvisionIsJudged(m, r, c, rest);
  }

  lemma ProvisionIsJudged(s: Sys, r: Record, c: Checker, rest: seq<Event>) returns (n: Sys)
    requires rest == HEALTHY
    requires s.record == Some(WaitingRecord(r)) && r.op == Provision && s.past.born && s.owners == map[]
    requires 0 in s.fence.checkers && s.fence.checkers[0] == c && c.op == Provision
    requires s.fence.current == Some(c.attempt)
    ensures n.record == Some(RunningRecord(RoutingRecord(WaitingRecord(r), ""))) && n.owners == map[]
    ensures n.world == Routed(s.world, Proxy(Target(r), RoutingHosts(r))).(torn := false)
    ensures Replay(s, rest) == Some(n)
  {
    var u := RoutingRecord(WaitingRecord(r), "");
    var m := s.(record := Some(u), fence := s.fence.(checkers := s.fence.checkers - {0}, current := None),
                owners := map[0 := Owner(Resolving(c.gen), u, c.attempt)]);
    JudgingSucceeds(s, m, c, u, TWICE + TWICE);
    ProvisionFinishes(m, u, c.attempt, c.gen);
    n := m.(record := Some(RunningRecord(u)), owners := map[],
            world := Routed(m.world, Proxy(Target(u), RoutingHosts(u))).(torn := false));
  }

  lemma ProvisionIsAsked(s: Sys, n: Sys, q: ProvisionQuery, e: Event)
    requires s.tombstone.None? && Fresh(s, 0) && PassesFirstLook(s.record, q)
    requires n == s.(pending := s.pending[0 := Looked(q)])
    ensures Replay(s, ProvisionRun(q, e)) == Replay(n, ProvisionTail(e))
  {
    var m := s.(pending := s.pending[0 := Called(q)]);
    ReplayCons(s, ProvisionCall(0, q), [ProvisionLook(0)] + ProvisionTail(e));
    assert m.pending[0 := Looked(q)] == n.pending;
    ReplayCons(m, ProvisionLook(0), ProvisionTail(e));
  }

  /** A fault-free healthy provision of an unknown service ends running, as the request says. */
  lemma ProvisionAlwaysWorks(s: Sys, q: ProvisionQuery, dns: string)
    requires Reachable(s) && s.record.None? && s.tombstone.None? && Fresh(s, 0)
    ensures
      var e := ProvisionFresh(0, q.hosts, q.ip, q.version, q.pkg, q.matomo, dns);
      && Replay(s, ProvisionRun(q, e)).Some?
      && var n := Replay(s, ProvisionRun(q, e)).value;
         && RunsAt(n, q.version) && n.world.dataset && n.owners == map[]
         && n.record == Some(Record(Active, Running, NoOperation, Blue, None, q.version, None, q.hosts, None, q.ip,
                                    None, q.pkg, None, if q.matomo.Some? then q.matomo.value else 0, NoFailure, ""))
  {
    UnknownMeansUntouched(s);
    var e := ProvisionFresh(0, q.hosts, q.ip, q.version, q.pkg, q.matomo, dns);
    var s1 := s.(pending := s.pending[0 := Looked(q)]);
    ProvisionIsAsked(s, s1, q, e);
    var s2 := ProvisionFreshStep(s1, e);
    ReplayCons(s1, e, TWICE + ([GOOD] + HEALTHY));
    var n := ProvisionRuns(s2, s2.record.value, HEALTHY);
  }

  /**
    A fault-free healthy retry of a failed provision ends active and running; at the
    requested version if and only if the first slot was empty or held that version.
   */
  lemma RetryAlwaysWorks(s: Sys, q: ProvisionQuery)
    requires Reachable(s) && s.record.Some? && s.tombstone.None? && Fresh(s, 0) && s.owners == map[]
    requires
      var r := s.record.value;
      && r.phase == Failed && r.op == Provision && r.hosts == q.hosts && r.ip == q.ip && r.version == q.version
      && r.targetVersion == Some(q.version) && !q.force && (q.matomo == None || q.matomo == Some(r.matomo))
    ensures
      var e := ProvisionAgain(0, q.hosts, q.ip, q.version, q.pkg, q.matomo);
      && Replay(s, ProvisionRun(q, e)).Some?
      && var n := Replay(s, ProvisionRun(q, e)).value;
         && n.record.Some? && n.record.value.state == Active && n.record.value.phase == Running
         && n.record.value.live == Blue && n.record.value.version == q.version
         && n.record.value.matomo == s.record.value.matomo
         && Runs(n.world.blue) && n.world.route == Proxy(Blue, n.record.value.hosts) && n.owners == map[]
         && (RunsAt(n, q.version) <==> s.world.blue.Present? ==> s.world.blue.version == q.version)
  {
    ReachableInv(s);
    var n := RetryRuns(s, q, ProvisionAgain(0, q.hosts, q.ip, q.version, q.pkg, q.matomo));
  }

  lemma RetryRuns(s: Sys, q: ProvisionQuery, e: Event) returns (n: Sys)
    requires s.record.Some? && s.tombstone.None? && Fresh(s, 0) && s.owners == map[] && s.past.born
    requires PassesFirstLook(s.record, q) && e == ProvisionAgain(0, q.hosts, q.ip, q.version, q.pkg, q.matomo)
    ensures Replay(s, ProvisionRun(q, e)) == Some(n) && n.owners == map[]
    ensures
      var r := RetryRecord(s.record.value, q.pkg, q.matomo);
      && n.record == Some(RunningRecord(RoutingRecord(WaitingRecord(r), "")))
      && n.world.blue == FirstBox(s.world, s.record.value.version)
      && n.world.route == Proxy(Blue, RoutingHosts(r))
  {
    var r := RetryRecord(s.record.value, q.pkg, q.matomo);
    var s1 := s.(pending := s.pending[0 := Looked(q)]);
    ProvisionIsAsked(s, s1, q, e);
    var s2 := RetryIsAdmitted(s1, e, r);
    n := ProvisionRuns(s2, r, HEALTHY);
  }

  lemma RetryIsAdmitted(s: Sys, e: Event, r: Record) returns (n: Sys)
    requires e.ProvisionAgain? && e.tid == 0 && Enabled(s, e) && s.owners == map[] && s.past.born
    requires r == RetryRecord(s.record.value, e.pkg, e.matomo)
    ensures Replay(s, ProvisionTail(e)) == Replay(n, TWICE + ([GOOD] + HEALTHY))
    ensures n.record == Some(r) && n.past.born && n.owners == map[0 := Owner(Preparing, r, 0)] && n.fence == s.fence
    ensures n.tombstone == s.tombstone && n.world == s.world.(stale := n.world.stale)
  {
    n := ProvisionAgainStep(s, e);
    ReplayCons(s, e, TWICE + ([GOOD] + HEALTHY));
  }
}
