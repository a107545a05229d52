/**
  The manager's store follows the machines of all services: each write of an event is a
  locked section, made of the request's arguments or of the goroutine's private copy, and
  afterwards the store shows every machine's new state.
 */
module ManagerRefinement {
  import opened Prelude
  import opened Lifecycle
  import opened LifecycleLock
  import opened Sections
  import opened Fleet

  function Lookup<V>(m: map<string, V>, id: string): Option<V> {
    if id in m then Some(m[id]) else None
  }

  /** The machine of a service is in a state that this store shows. */
  ghost predicate Shows(m: Store, id: string, s: Sys) {
    && s.record == Lookup(m.services, id)
    && s.tombstone == Lookup(m.tombstones, id)
    && s.fence.current == Lookup(m.attempts, id)
    && s.fence.sequence == m.sequence
  }

  ghost predicate Linked(m: Store, f: Fleet) {
    forall id :: id in f ==> Shows(m, id, f[id])
  }

  // ----------------------------------------------------------- the section of an event

  /** What a goroutine that owns the record persists when its step succeeds. */
  function WriteOf(o: Owner, dns: string): Option<Section> {
    match o.pc
    case Failing(written) => Some(PutRecord(FailedRecord(written, StepFailure)))
    case AwaitFirst(_) => Some(PutAndIssue(WaitingRecord(o.copy)))
    case Awaiting(_) => Some(PutRecord(WaitingRecord(o.copy)))
    case Halted => Some(PutRecord(HaltedRecord(o.copy)))
    case Resting => Some(PutRecord(StoppedRecord(o.copy)))
    case Recording(_) => Some(PutRecord(o.copy.(dns := dns)))
    case StartingDrain(_) => Some(PutRecord(DrainingRecord(o.copy)))
    case Committing(_) => Some(PutRecord(RunningRecord(o.copy)))
    case Burying => Some(Entomb)
    case Erasing => Some(EraseRecord)
    case _ => None
  }

  function Written(o: Owner, result: Outcome, dns: string): Option<Section> {
    if result.Success? then WriteOf(o, dns) else None
  }

  /** The section in which an event writes, if it does. */
  function SectionOf(s: Sys, e: Event): Option<Section>
    requires Enabled(s, e)
  {
    match e
    case ProvisionFresh(_, hosts, ip, version, pkg, matomo, dns) =>
      Some(AskProvision(hosts, ip, version, pkg, matomo, dns))
    case ProvisionAgain(_, hosts, ip, version, pkg, matomo) => Some(AskProvision(hosts, ip, version, pkg, matomo, ""))
    case ResumeRequest(_, pkg, matomo) => Some(AskResume(pkg, matomo))
    case UpgradeRequest(_, query) => Some(AskUpgrade(query))
    case StopRequest(_, to) => Some(AskStop(to))
    case DeleteRequest(_) => Some(AskDelete)
    case TombstoneRequest(_) => Some(AskDelete)
    case HostsRequest(hosts, ip, dns, outcome) =>
      if outcome.HostsPersisted? then Some(AskHosts(hosts, ip, dns)) else None
    case MatomoRequest(id) => Some(AskMatomo(id))
    case RedeployRequest(hosts, ip, version, pkg, matomo) => Some(AskRedeploy(hosts, ip, version, pkg, matomo))
    case DnsUpdate(dns) => Some(PutDns(dns))
    case Judge(tid, healthy, put, dns) =>
      Some(GiveVerdict(s.fence.checkers[tid].op, s.fence.checkers[tid].attempt, healthy, put, dns))
    case Work(tid, result, dns) => Written(s.owners[tid], result, dns)
    case Sweep(_, removed, put) =>
      if put then Some(MarkTombstone(if removed then TombDeleted else TombFailed)) else None
    case _ => None
  }

  /** The store after an event of one service. */
  function StoreAfter(m: Store, id: string, s: Sys, e: Event): Store
    requires Enabled(s, e)
  {
    if Crashes(e) then Recovered(m) else Taken(m, id, SectionOf(s, e))
  }

  /** The store took this write, if there is one. */
  function Taken(m: Store, id: string, w: Option<Section>): Store {
    if w.Some? then Left(m, id, w.value, true) else m
  }

  // ------------------------------------------------------------------ its own machine

  /** The store takes the write of this event, and shows what the machine then is. */
  ghost predicate Follows(m: Store, id: string, s: Sys, e: Event)
    requires Enabled(s, e)
  {
    && (SectionOf(s, e).Some? ==> After(m, id, SectionOf(s, e).value).Some?)
    && Shows(StoreAfter(m, id, s, e), id, Apply(s, e))
  }

  lemma ProvisionFollows(m: Store, id: string, s: Sys, e: Event)
    requires Shows(m, id, s) && Enabled(s, e) && (e.ProvisionFresh? || e.ProvisionAgain?)
    ensures Follows(m, id, s, e)
  {
  }

  /** A record was stored and an attempt issued, here and there. */
  lemma IssuedShows(m: Store, id: string, s: Sys, n: Sys, r: Record)
    requires Shows(m, id, s) && n.record == Some(r) && n.tombstone == s.tombstone
    requires n.fence.sequence == s.fence.sequence + 1 && n.fence.current == Some(n.fence.sequence)
    ensures Shows(Issuing(Stored(m, id, r), id), id, n)
  {
  }

  lemma ResumeFollows(m: Store, id: string, s: Sys, e: Event)
    requires Shows(m, id, s) && Enabled(s, e) && e.ResumeRequest?
    ensures Follows(m, id, s, e)
  {
    var r := ResumeRecord(s.record.value, e.pkg, e.matomo);
    IssuedShows(m, id, s, ResumeStep(s, e), r);
    assert After(m, id, AskResume(e.pkg, e.matomo)) == Some(Issuing(Stored(m, id, r), id));
  }

  lemma UpgradeFollows(m: Store, id: string, s: Sys, e: Event)
    requires Shows(m, id, s) && Enabled(s, e) && e.UpgradeRequest?
    ensures Follows(m, id, s, e)
  {
    var r := UpgradeRecord(s.record.value, e.query);
    IssuedShows(m, id, s, UpgradeStep(s, e), r);
    assert After(m, id, AskUpgrade(e.query)) == Some(Issuing(Stored(m, id, r), id));
  }

  lemma StopFollows(m: Store, id: string, s: Sys, e: Event)
    requires Shows(m, id, s) && Enabled(s, e) && e.StopRequest?
    ensures Follows(m, id, s, e)
  {
  }

  lemma DeleteFollows(m: Store, id: string, s: Sys, e: Event)
    requires Shows(m, id, s) && Enabled(s, e) && e.DeleteRequest?
    ensures Follows(m, id, s, e)
  {
  }

  lemma TombstoneFollows(m: Store, id: string, s: Sys, e: Event)
    requires Shows(m, id, s) && Enabled(s, e) && e.TombstoneRequest?
    ensures Follows(m, id, s, e)
  {
  }

  lemma SweepFollows(m: Store, id: string, s: Sys, e: Event)
    requires Shows(m, id, s) && Enabled(s, e) && e.Sweep?
    ensures Follows(m, id, s, e)
  {
  }

  lemma HostsFollow(m: Store, id: string, s: Sys, e: Event)
    requires Shows(m, id, s) && Enabled(s, e) && e.HostsRequest? && !Crashes(e)
    ensures Follows(m, id, s, e)
  {
  }

  lemma EditFollows(m: Store, id: string, s: Sys, e: Event)
    requires Shows(m, id, s) && Enabled(s, e) && (e.MatomoRequest? || e.DnsUpdate?)
    ensures Follows(m, id, s, e)
  {
  }

  lemma RedeployFollows(m: Store, id: string, s: Sys, e: Event)
    requires Shows(m, id, s) && Enabled(s, e) && e.RedeployRequest?
    ensures Follows(m, id, s, e)
  {
  }

  lemma RequestFollows(m: Store, id: string, s: Sys, e: Event)
    requires Shows(m, id, s) && Enabled(s, e) && Admission(e)
    ensures Follows(m, id, s, e)
  {
    if e.ProvisionFresh? || e.ProvisionAgain? {
      ProvisionFollows(m, id, s, e);
    } else if e.ResumeRequest? {
      ResumeFollows(m, id, s, e);
    } else if e.UpgradeRequest? {
      UpgradeFollows(m, id, s, e);
    } else if e.StopRequest? {
      StopFollows(m, id, s, e);
    } else {
      DeleteFollows(m, id, s, e);
    }
  }

  lemma OtherRequestFollows(m: Store, id: string, s: Sys, e: Event)
    requires Shows(m, id, s) && Enabled(s, e) && !Crashes(e)
    requires !Admission(e) && !e.Work? && !e.Judge? && !e.OtherServiceAttempt?
    ensures Follows(m, id, s, e)
  {
    if e.TombstoneRequest? {
      TombstoneFollows(m, id, s, e);
    } else if e.Sweep? {
      SweepFollows(m, id, s, e);
    } else if e.HostsRequest? {
      HostsFollow(m, id, s, e);
    } else if e.RedeployRequest? {
      RedeployFollows(m, id, s, e);
    } else if e.MatomoRequest? || e.DnsUpdate? {
      EditFollows(m, id, s, e);
    }
  }

  /** The verdict of a goroutine with this attempt and operation, on the store and on the machine. */
  lemma VerdictShows(m: Store, id: string, s: Sys, e: Event)
    requires Shows(m, id, s) && e.Judge? && e.tid in s.fence.checkers
    ensures
      var c := s.fence.checkers[e.tid];
      Shows(AfterVerdict(m, id, GiveVerdict(c.op, c.attempt, e.healthy, e.put, e.dns)), id, JudgeStep(s, e))
  {
    var c := s.fence.checkers[e.tid];
    assert Timely(s, c) <==> id in m.attempts && m.attempts[id] == c.attempt && id in m.services
                             && m.services[id].op == c.op && m.services[id].phase == WaitingForHealth;
  }

  lemma VerdictFollows(m: Store, id: string, s: Sys, e: Event)
    requires Shows(m, id, s) && Enabled(s, e) && e.Judge?
    ensures Follows(m, id, s, e)
  {
    VerdictShows(m, id, s, e);
  }

  lemma CrashFollows(m: Store, id: string, s: Sys, e: Event)
    requires Shows(m, id, s) && Enabled(s, e) && Crashes(e)
    ensures Shows(Recovered(m), id, Apply(s, e)) && Shows(Recovered(m), id, Restarted(s))
  {
  }

  /** A goroutine's step persisted this record, or nothing. */
  ghost predicate Wrote(s: Sys, n: Sys, w: Option<Section>) {
    && n.fence.current == s.fence.current && n.fence.sequence == s.fence.sequence && n.tombstone == s.tombstone
    && (w.Some? ==> w.value.PutRecord?)
    && n.record == if w.Some? then Some(w.value.copy) else s.record
  }

  lemma WroteFollows(m: Store, id: string, s: Sys, n: Sys, w: Option<Section>)
    requires Shows(m, id, s) && Wrote(s, n, w)
    ensures Shows(Taken(m, id, w), id, n)
  {
  }

  lemma StartWrites(s: Sys, tid: nat, o: Outcome)
    requires tid in s.owners && ActivationPc(s.owners[tid].pc)
    ensures Wrote(s, ActivationWork(s, tid, o), Written(s.owners[tid], o, ""))
  {
  }

  lemma HealthWrites(s: Sys, tid: nat, o: Outcome, dns: string)
    requires tid in s.owners && HealthPc(s.owners[tid].pc)
    ensures Wrote(s, HealthWork(s, tid, o, dns), Written(s.owners[tid], o, dns))
  {
  }

  lemma StopWrites(s: Sys, tid: nat, o: Outcome)
    requires tid in s.owners && StopPc(s.owners[tid].pc)
    ensures Wrote(s, StopWork(s, tid, o), Written(s.owners[tid], o, ""))
  {
  }

  lemma ProvisionWorkFollows(m: Store, id: string, s: Sys, tid: nat, o: Outcome)
    requires Shows(m, id, s) && tid in s.owners && ProvisionPc(s.owners[tid].pc)
    ensures Shows(Taken(m, id, Written(s.owners[tid], o, "")), id, ProvisionWork(s, tid, o))
  {
  }

  lemma DeleteWorkFollows(m: Store, id: string, s: Sys, tid: nat, o: Outcome)
    requires Shows(m, id, s) && tid in s.owners && DeletePc(s.owners[tid].pc)
    ensures Shows(Taken(m, id, Written(s.owners[tid], o, "")), id, DeleteWork(s, tid, o))
  {
  }

  lemma WorkFollows(m: Store, id: string, s: Sys, e: Event)
    requires Shows(m, id, s) && Enabled(s, e) && e.Work?
    ensures Shows(Taken(m, id, Written(s.owners[e.tid], e.result, e.dns)), id, WorkStep(s, e.tid, e.result, e.dns))
  {
    var pc, w := s.owners[e.tid].pc, Written(s.owners[e.tid], e.result, e.dns);
    if pc.Failing? {
      WroteFollows(m, id, s, WorkStep(s, e.tid, e.result, e.dns), w);
    } else if ProvisionPc(pc) {
      ProvisionWorkFollows(m, id, s, e.tid, e.result);
    } else if ActivationPc(pc) {
      StartWrites(s, e.tid, e.result);
      WroteFollows(m, id, s, ActivationWork(s, e.tid, e.result), w);
    } else if StopPc(pc) {
      StopWrites(s, e.tid, e.result);
      WroteFollows(m, id, s, StopWork(s, e.tid, e.result), w);
    } else if DeletePc(pc) {
      DeleteWorkFollows(m, id, s, e.tid, e.result);
    } else {
      HealthWrites(s, e.tid, e.result, e.dns);
      WroteFollows(m, id, s, HealthWork(s, e.tid, e.result, e.dns), w);
    }
  }

  /** Every event of a machine that writes is a section the store admits, and the store then shows the machine. */
  lemma OwnMachineFollows(m: Store, id: string, s: Sys, e: Event)
    requires Shows(m, id, s) && Enabled(s, e) && !e.OtherServiceAttempt? && !Crashes(e)
    ensures Follows(m, id, s, e)
  {
    if Admission(e) {
      RequestFollows(m, id, s, e);
    } else if e.Work? {
      WorkFollows(m, id, s, e);
    } else if e.Judge? {
      VerdictFollows(m, id, s, e);
    } else {
      OtherRequestFollows(m, id, s, e);
    }
  }

  /** And a crash ends in the recovered store. */
  lemma OwnStoreShows(m: Store, id: string, s: Sys, e: Event)
    requires Shows(m, id, s) && Enabled(s, e) && !e.OtherServiceAttempt?
    ensures Shows(StoreAfter(m, id, s, e), id, Apply(s, e))
  {
    if Crashes(e) {
      CrashFollows(m, id, s, e);
    } else {
      OwnMachineFollows(m, id, s, e);
    }
  }

  // ----------------------------------------------------------------- all other machines

  /** No section touches the records, tombstones and attempts of another service. */
  lemma SectionIsLocal(m: Store, id: string, section: Section, other: string)
    requires After(m, id, section).Some? && other != id
    ensures
      var n := After(m, id, section).value;
      && Lookup(n.services, other) == Lookup(m.services, other)
      && Lookup(n.tombstones, other) == Lookup(m.tombstones, other)
      && Lookup(n.attempts, other) == Lookup(m.attempts, other)
  {
  }

  /** A section counts up exactly when its own machine does. */
  lemma OthersCountAlong(m: Store, f: Fleet, id: string, e: Event, other: string)
    requires Sound(f) && Linked(m, f) && Possible(f, id, e) && other in f && other != id && !Crashes(e)
    ensures Others(f[other], f[id], e).fence.sequence == StoreAfter(m, id, f[id], e).sequence
    ensures Others(f[other], f[id], e).fence.current == f[other].fence.current
  {
    OwnStoreShows(m, id, f[id], e);
    OthersMove(f[other], f[id], e);
    assert Shows(m, id, f[id]) && Shows(m, other, f[other]);
  }

  lemma OtherMachineFollows(m: Store, f: Fleet, id: string, e: Event, other: string)
    requires Sound(f) && Linked(m, f) && Possible(f, id, e) && other in f && other != id
    ensures Shows(StoreAfter(m, id, f[id], e), other, Others(f[other], f[id], e))
  {
    if Crashes(e) {
      CrashFollows(m, other, f[other], Restart);
    } else {
      OthersCountAlong(m, f, id, e, other);
      OthersKeepRecords(f[other], f[id], e);
      OwnMachineFollows(m, id, f[id], e);
      if SectionOf(f[id], e).Some? {
        SectionIsLocal(m, id, SectionOf(f[id], e).value, other);
      }
    }
  }

  lemma OthersKeepRecords(s: Sys, mine: Sys, e: Event)
    requires Enabled(mine, e) && !Crashes(e)
    ensures Others(s, mine, e).record == s.record && Others(s, mine, e).tombstone == s.tombstone
  {
  }

  // -------------------------------------------------------------------- the whole system

  lemma StoreFollowsTheFleet(m: Store, f: Fleet, id: string, e: Event)
    requires Sound(f) && Linked(m, f) && Possible(f, id, e)
    ensures Linked(StoreAfter(m, id, f[id], e), Advance(f, id, e))
  {
    OwnStoreShows(m, id, f[id], e);
    forall k | k in f ensures Shows(StoreAfter(m, id, f[id], e), k, Advance(f, id, e)[k]) {
      if k != id {
        OtherMachineFollows(m, f, id, e, k);
      }
    }
  }

  /** The store that a run of the controller leaves. */
  function StoreRun(m: Store, f: Fleet, steps: seq<Step>): Store
    requires Replayed(f, steps).Some?
    decreases |steps|
  {
    if steps == [] then m
    else
      var id, e := steps[0].id, steps[0].event;
      StoreRun(StoreAfter(m, id, f[id], e), Advance(f, id, e), steps[1..])
  }

  lemma {:induction false} RunFollows(m: Store, f: Fleet, steps: seq<Step>)
    requires Sound(f) && Linked(m, f) && Replayed(f, steps).Some?
    ensures Sound(Replayed(f, steps).value) && Linked(StoreRun(m, f, steps), Replayed(f, steps).value)
    decreases |steps|
  {
    if steps != [] {
      var id, e := steps[0].id, steps[0].event;
      AdvanceIsSound(f, id, e);
      StoreFollowsTheFleet(m, f, id, e);
      RunFollows(StoreAfter(m, id, f[id], e), Advance(f, id, e), steps[1..]);
    }
  }

  /**
    From the empty store on, whatever requests, goroutine steps, crashes and recoveries
    of whatever services make up a run: the store shows a state that each service's own
    machine reaches, and no two services share an attempt.
   */
  lemma ControllerFollowsItsMachines(f: Fleet, steps: seq<Step>)
    requires Begun(f) && Replayed(f, steps).Some?
    ensures
      var m, n := StoreRun(Store(map[], map[], map[], 0), f, steps), Replayed(f, steps).value;
      && (forall id :: id in f ==> id in n && Reachable(n[id]) && Shows(m, id, n[id]))
      && (forall a, b :: a in f && b in f && a != b && a in m.attempts && b in m.attempts ==>
            m.attempts[a] != m.attempts[b])
  {
    BegunIsSound(f);
    RunFollows(Store(map[], map[], map[], 0), f, steps);
    var m, n := StoreRun(Store(map[], map[], map[], 0), f, steps), Replayed(f, steps).value;
    RunsKeepServices(f, steps);
    forall a, b | a in f && b in f && a != b && a in m.attempts && b in m.attempts
      ensures m.attempts[a] != m.attempts[b]
    {
      assert Shows(m, a, n[a]) && Shows(m, b, n[b]) && Apart(n[a].fence, n[b].fence);
    }
  }

  lemma {:induction false} RunsKeepServices(f: Fleet, steps: seq<Step>)
    requires Replayed(f, steps).Some?
    ensures Replayed(f, steps).value.Keys == f.Keys
    decreases |steps|
  {
    if steps != [] {
      RunsKeepServices(Advance(f, steps[0].id, steps[0].event), steps[1..]);
    }
  }

  // ------------------------------------------------- what the store admits the machine does

  /** The goroutine of a request: a new one, or one that has passed the first look of Provision. */
  ghost predicate Carries(s: Sys, section: Section, tid: nat) {
    if section.AskProvision?
    then Ready(s, tid, section.hosts, section.ip, section.version, section.pkg, section.matomo)
    else Fresh(s, tid)
  }

  /** The event of an admitted request. */
  function EventOf(m: Store, id: string, section: Section, tid: nat): Event
    requires Request(section)
  {
    match section
    case AskProvision(hosts, ip, version, pkg, matomo, dns) =>
      if id !in m.services then ProvisionFresh(tid, hosts, ip, version, pkg, matomo, dns)
      else ProvisionAgain(tid, hosts, ip, version, pkg, matomo)
    case AskResume(pkg, matomo) => ResumeRequest(tid, pkg, matomo)
    case AskUpgrade(query) => UpgradeRequest(tid, query)
    case AskStop(to) => StopRequest(tid, to)
    case AskDelete => if id in m.tombstones then TombstoneRequest(tid) else DeleteRequest(tid)
  }

  predicate Request(section: Section) {
    section.AskProvision? || section.AskResume? || section.AskUpgrade? || section.AskStop? || section.AskDelete?
  }

  /** Conversely, a request that the store admits is one the machine can take. */
  lemma AdmittedRequestsAreEnabled(m: Store, id: string, s: Sys, section: Section, tid: nat)
    requires Shows(m, id, s) && Request(section) && Carries(s, section, tid) && After(m, id, section).Some?
    ensures Enabled(s, EventOf(m, id, section, tid))
    ensures After(m, id, section) == Some(StoreAfter(m, id, s, EventOf(m, id, section, tid)))
  {
  }
}
