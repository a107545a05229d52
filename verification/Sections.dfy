/**
  The locked sections of the manager (go-service/internal/service/manager.go) as steps of
  one store for all services: admissions, edits of a settled record, and the writes of
  the goroutines.
 */
module Sections {
  import opened Prelude
  import opened Lifecycle

  /** The fields of the manager that a locked section of the lifecycle reads and writes. */
  datatype Store = Store(
    services: map<string, Record>, tombstones: map<string, TombstonePhase>,
    attempts: map<string, nat>, sequence: nat)

  datatype Section =
    | AskProvision(hosts: Hosts, ip: string, version: string, pkg: Package, matomo: Option<nat>, dns: string)
    | AskResume(pkg: Package, matomo: Option<nat>)
    | AskUpgrade(query: UpgradeQuery)
    | AskStop(to: State)
    | AskDelete
    | AskMatomo(site: nat)
    | AskRedeploy(hosts: Hosts, ip: string, version: string, pkg: Package, matomo: Option<nat>)
    | AskHosts(hosts: Hosts, ip: string, dns: string)
    | GiveVerdict(op: Operation, attempt: nat, healthy: bool, put: bool, dns: string)
    // A goroutine persists its private copy; the first provision also issues its attempt.
    | PutRecord(copy: Record)
    | PutAndIssue(copy: Record)
    | PutDns(dns: string)
    // The end of Delete, and of the clean-up behind a tombstone.
    | Entomb
    | EraseRecord
    | MarkTombstone(phase: TombstonePhase)

  /** The store after a record was written. */
  function Stored(m: Store, id: string, r: Record): Store {
    m.(services := m.services[id := r])
  }

  /** The store after an attempt was issued. */
  function Issuing(m: Store, id: string): Store {
    m.(attempts := m.attempts[id := m.sequence + 1], sequence := m.sequence + 1)
  }

  function AfterDelete(m: Store, id: string): Option<Store> {
    if id in m.tombstones then
      match m.tombstones[id]
      case TombDeleted => Some(m.(services := m.services - {id}))
      case TombDeleting => None
      case TombFailed => Some(m.(tombstones := m.tombstones[id := TombDeleting]))
    else if id in m.services && MayDelete(m.services[id]) then Some(Stored(m, id, DeletingRecord(m.services[id])))
    else None
  }

  function AfterVerdict(m: Store, id: string, v: Section): Store
    requires v.GiveVerdict?
  {
    var current := id in m.attempts && m.attempts[id] == v.attempt;
    var spent := if current then m.(attempts := m.attempts - {id}) else m;
    if !current || id !in m.services || m.services[id].op != v.op || m.services[id].phase != WaitingForHealth || !v.put
    then spent
    else
      var r := m.services[id];
      Stored(spent, id, if v.healthy then RoutingRecord(r, v.dns) else FailedRecord(r, HealthFailure))
  }

  predicate Settled(m: Store, id: string, state: State) {
    id in m.services && m.services[id].state == state && m.services[id].phase == Stopped
  }

  /** What a section makes of the store if the store takes its write; None is a refusal or nothing to do. */
  function After(m: Store, id: string, section: Section): Option<Store> {
    match section
    case AskProvision(hosts, ip, version, pkg, matomo, dns) =>
      if id !in m.services then Some(Stored(m, id, NewRecord(hosts, ip, version, pkg, matomo, dns)))
      else if JudgeProvision(m.services[id], hosts, ip, version) == Retry
      then Some(Stored(m, id, RetryRecord(m.services[id], pkg, matomo)))
      else None
    case AskResume(pkg, matomo) =>
      if id in m.services && MayResume(m.services[id])
      then Some(Issuing(Stored(m, id, ResumeRecord(m.services[id], pkg, matomo)), id)) else None
    case AskUpgrade(query) =>
      if id in m.services && ValidateUpgrade(m.services[id], query) == Proceed
      then Some(Issuing(Stored(m, id, UpgradeRecord(m.services[id], query)), id)) else None
    case AskStop(to) =>
      if id in m.services && MayStop(m.services[id], to)
      then Some(Stored(m, id, StoppingRecord(m.services[id], to)).(attempts := m.attempts - {id})) else None
    case AskDelete => AfterDelete(m, id)
    case AskMatomo(site) =>
      if Settled(m, id, Suspended) then Some(Stored(m, id, m.services[id].(matomo := site))) else None
    case AskRedeploy(hosts, ip, version, pkg, matomo) =>
      if Settled(m, id, Terminated)
      then Some(Stored(m, id, RedeployedRecord(m.services[id], hosts, ip, version, pkg, matomo))) else None
    case AskHosts(hosts, ip, dns) =>
      if id in m.services && MayChangeHosts(m.services[id])
      then Some(Stored(m, id, m.services[id].(hosts := hosts, ip := ip, dns := dns))) else None
    case GiveVerdict(_, _, _, _, _) => Some(AfterVerdict(m, id, section))
    case PutRecord(copy) => Some(Stored(m, id, copy))
    case PutAndIssue(copy) => Some(Issuing(Stored(m, id, copy), id))
    case PutDns(dns) => if id in m.services then Some(Stored(m, id, m.services[id].(dns := dns))) else None
    case Entomb => Some(m.(tombstones := m.tombstones[id := TombDeleting]))
    case EraseRecord => Some(m.(services := m.services - {id}))
    case MarkTombstone(phase) => Some(m.(tombstones := m.tombstones[id := phase]))
  }

  /** The store after a section that was admitted and stored, or not. */
  function Left(m: Store, id: string, section: Section, admitted: bool): Store {
    if admitted then After(m, id, section).GetOr(m) else m
  }

  function RecoveredPhase(phase: TombstonePhase): TombstonePhase {
    if phase == TombDeleting then TombFailed else phase
  }

  /** The store of a restarted process once RecoverInterrupted is through. */
  function Recovered(m: Store): Store {
    Store(map id | id in m.services :: RecoveredRecord(m.services[id]),
          map id | id in m.tombstones :: RecoveredPhase(m.tombstones[id]), map[], 0)
  }
}
