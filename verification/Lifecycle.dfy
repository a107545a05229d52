/**
  The blue/green lifecycle of one hosted service (go-service/internal/service/manager.go),
  as a state machine over everything that outlives a single locked section: the
  persisted record, the attempt counters, the live goroutines with their private
  copies of the record, and the outside world they command.

  Every locked section, Docker call, Caddy call and store write is one event.  An
  event carries its own outcome, so a run is a sequence of events and every failure,
  partial effect, crash and interleaving is one of them.
 */
module Lifecycle {
  import opened Prelude
  import Versions

  // ------------------------------------------------------------------ the record

  datatype Slot = Blue | Green

  function Opposite(slot: Slot): Slot {
    if slot == Blue then Green else Blue
  }

  datatype State = Active | Suspended | Terminated

  datatype Phase =
    | Provisioning | Starting | WaitingForHealth | Routing | Draining
    | Running | Stopping | Stopped | Deleting | Failed

  datatype Operation = NoOperation | Provision | Resume | Upgrade | Suspend | Terminate | Delete

  datatype Failure = NoFailure | HealthFailure | RestartFailure | StepFailure

  /** A main host name and, unless it is empty, a staging host name. */
  datatype Hosts = Hosts(main: string, staging: string)

  /** Package variables; None is the nil map. */
  type Package = Option<map<string, string>>

  datatype Record = Record(
    state: State, phase: Phase, op: Operation,
    live: Slot, target: Option<Slot>,
    version: string, targetVersion: Option<string>,
    hosts: Hosts, targetHosts: Option<Hosts>,
    ip: string, targetIp: Option<string>,
    pkg: Package, targetPkg: Package,
    matomo: nat, lastError: Failure, dns: string)

  predicate Busy(phase: Phase) {
    match phase
    case Running | Stopped | Failed => false
    case _ => true
  }

  predicate Activation(op: Operation) {
    op == Provision || op == Resume || op == Upgrade
  }

  predicate ReplaceableActivation(r: Record) {
    (r.phase == WaitingForHealth || r.phase == Failed) && (r.op == Provision || r.op == Resume)
  }

  /** The lifecycle part of a record: everything but the DNS status. */
  predicate SameLifecycle(a: Record, b: Record) {
    a == b.(dns := a.dns)
  }

  function Target(r: Record): Slot {
    r.target.GetOr(Blue)
  }

  function TargetVersion(r: Record): string {
    r.targetVersion.GetOr("")
  }

  // ------------------------------------- the record written by each locked section

  datatype ProvisionQuery = ProvisionQuery(
    hosts: Hosts, ip: string, version: string, pkg: Package, matomo: Option<nat>, force: bool)

  /** The first look of Provision: anything but a missing record or a matching failed provision is reconciled. */
  predicate PassesFirstLook(record: Option<Record>, q: ProvisionQuery) {
    record.Some? ==>
      var r := record.value;
      && r.phase == Failed && r.op == Provision && r.hosts == q.hosts && r.ip == q.ip && r.version == q.version
      && TargetVersion(r) == q.version && !q.force && (q.matomo.Some? ==> r.matomo == q.matomo.value)
  }

  datatype ProvisionVerdict = AlreadyRunning | Conflict | Retry

  function JudgeProvision(r: Record, hosts: Hosts, ip: string, version: string): ProvisionVerdict {
    if r.hosts != hosts || r.ip != ip || r.version != version then Conflict
    else if r.phase == Running then AlreadyRunning
    else if Busy(r.phase) then Conflict
    else if r.phase == Failed && r.op != Provision then Conflict
    else Retry
  }

  function NewRecord(
    hosts: Hosts, ip: string, version: string, pkg: Package, matomo: Option<nat>, dns: string): Record {
    Record(Active, Provisioning, Provision, Blue, Some(Blue), version, Some(version), hosts, None, ip, None,
           pkg, None, matomo.GetOr(0), NoFailure, dns)
  }

  function RetryRecord(r: Record, pkg: Package, matomo: Option<nat>): Record {
    r.(phase := Provisioning, op := Provision, target := Some(Blue), targetVersion := Some(r.version),
       pkg := pkg, matomo := matomo.GetOr(r.matomo), lastError := NoFailure)
  }

  predicate MayResume(r: Record) {
    r.state != Active && !Busy(r.phase)
  }

  function ResumeRecord(r: Record, pkg: Package, matomo: Option<nat>): Record {
    r.(phase := Starting, op := Resume, target := Some(Opposite(r.live)), targetVersion := Some(r.version),
       targetHosts := None, targetPkg := if pkg.None? then r.pkg else pkg, matomo := matomo.GetOr(r.matomo))
  }

  datatype UpgradeQuery = UpgradeQuery(
    version: string, confirmDowngrade: bool, force: bool,
    hosts: Option<Hosts>, ip: Option<string>, pkg: Package, matomo: Option<nat>)

  datatype UpgradeVerdict = NothingToDo | Refused | Proceed

  function ValidateUpgrade(r: Record, q: UpgradeQuery): UpgradeVerdict {
    var force := q.force || (q.matomo.Some? && q.matomo.value != r.matomo);
    if r.state != Active && !ReplaceableActivation(r) then Refused
    else if r.phase == Failed && r.op != Upgrade && !ReplaceableActivation(r) then Refused
    else if Busy(r.phase) && r.phase != WaitingForHealth then Refused
    else if
      && q.version == r.version && !force && r.phase != WaitingForHealth && r.phase != Failed
      && !ReplaceableActivation(r)
    then NothingToDo
    else
      var (sign, ordered) := Versions.Compare(q.version, r.version);
      if (!ordered || sign < 0) && !q.confirmDowngrade then Refused else Proceed
  }

  function UpgradeOperation(r: Record): Operation {
    if ReplaceableActivation(r) then r.op else Upgrade
  }

  function UpgradeRecord(r: Record, q: UpgradeQuery): Record {
    var pending := r.phase == WaitingForHealth || ReplaceableActivation(r);
    var op := UpgradeOperation(r);
    r.(phase := Starting, op := op,
       target := Some(if op == Provision then r.live else Opposite(r.live)),
       targetVersion := Some(q.version),
       targetHosts := if q.hosts.None? && pending then r.targetHosts else q.hosts,
       targetIp := if q.ip.None? && pending then r.targetIp else q.ip,
       targetPkg := if q.pkg.Some? then q.pkg else if r.targetPkg.Some? && pending then r.targetPkg else r.pkg,
       matomo := q.matomo.GetOr(r.matomo))
  }

  predicate MayStop(r: Record, to: State) {
    && to != Active
    && !(r.state == to && r.phase == Stopped)
    && !(Busy(r.phase) && r.phase != WaitingForHealth)
    && (to == Suspended ==> r.state != Terminated || (r.op == Resume && r.phase == WaitingForHealth))
  }

  function StoppingRecord(r: Record, to: State): Record {
    r.(phase := Stopping, op := if to == Suspended then Suspend else Terminate, targetHosts := None)
  }

  /** The state a Stopping record is heading for. */
  function Destination(op: Operation): State {
    if op == Suspend then Suspended else Terminated
  }

  function HaltedRecord(r: Record): Record {
    r.(state := Destination(r.op), phase := Routing, lastError := NoFailure)
  }

  function Cleared(r: Record): Record {
    r.(op := NoOperation, target := None, targetVersion := None, targetHosts := None, targetIp := None,
       targetPkg := None, lastError := NoFailure)
  }

  function StoppedRecord(r: Record): Record {
    Cleared(r).(phase := Stopped)
  }

  predicate MayDelete(r: Record) {
    r.state == Terminated && !Busy(r.phase)
  }

  function DeletingRecord(r: Record): Record {
    r.(phase := Deleting, op := Delete)
  }

  function FailedRecord(r: Record, why: Failure): Record {
    r.(phase := Failed, lastError := why)
  }

  function WaitingRecord(r: Record): Record {
    r.(phase := WaitingForHealth)
  }

  function RoutingRecord(r: Record, dns: string): Record {
    r.(phase := Routing, dns := dns)
  }

  /** The host names routed when the pending activation goes live. */
  function RoutingHosts(r: Record): Hosts {
    r.targetHosts.GetOr(r.hosts)
  }

  function CommitHosts(r: Record): Record {
    r.(hosts := RoutingHosts(r), targetHosts := None, ip := r.targetIp.GetOr(r.ip), targetIp := None)
  }

  function DrainingRecord(r: Record): Record {
    CommitHosts(r).(phase := Draining)
  }

  /** The final write of finishHealth. */
  function RunningRecord(r: Record): Record {
    var c := CommitHosts(r);
    var d := if r.op == Upgrade
             then c.(live := Target(r), version := TargetVersion(r), pkg := r.targetPkg)
             else c.(state := Active, live := Target(r), version := r.targetVersion.GetOr(r.version),
                     pkg := if r.targetPkg.Some? then r.targetPkg else r.pkg);
    Cleared(d).(phase := Running)
  }

  function RecoveredRecord(r: Record): Record {
    if Busy(r.phase) then FailedRecord(r, RestartFailure) else r
  }

  /** What reconcile makes of a terminated service before it resumes it. */
  function RedeployedRecord(
    r: Record, hosts: Hosts, ip: string, version: string, pkg: Package, matomo: Option<nat>): Record {
    r.(hosts := hosts, ip := ip, version := version, pkg := pkg, matomo := matomo.GetOr(r.matomo))
  }

  predicate MayChangeHosts(r: Record) {
    (r.state == Suspended && r.phase == Stopped) || (r.state == Active && r.phase == Running)
  }

  // ------------------------------------------------------------------- the world

  /**
    A container of one slot.  `gen` numbers its creation; `adopted` records that the
    StartSlot which last started it asked for another version and found this one.
   */
  datatype Container = Absent | Present(version: string, gen: nat, running: bool, adopted: bool)

  predicate Runs(c: Container) {
    c.Present? && c.running
  }

  datatype Route = NoRoute | Page(hosts: Hosts) | Proxy(slot: Slot, hosts: Hosts)

  datatype TombstonePhase = TombDeleting | TombFailed | TombDeleted

  /** Where a goroutine that owns the record stands between two locked sections. */
  datatype Pc =
    // Provision
    | Preparing | LaunchFirst | AwaitFirst(gen: nat)
    // upgrade and Resume
    | Isolating | Clearing | Launching | Awaiting(gen: nat)
    // changeState and finishRouting
    | Halting | Halted | Unrouting | Resting
    // finishHealth, once its attempt was accepted
    | Resolving(gen: nat) | Recording(gen: nat) | Switching(gen: nat) | Retiring(gen: nat)
    | StartingDrain(gen: nat) | DrainingOld(gen: nat) | Committing(gen: nat)
    // Delete
    | Purging | Unlisting | Destroying | Burying | Erasing
    // failSync: about to persist this record as failed
    | Failing(written: Record)

  /** A goroutine in an unlocked section that will write the live record. */
  datatype Owner = Owner(pc: Pc, copy: Record, attempt: nat)

  /** finishHealth while it probes: the container generation its attempt started. */
  datatype Checker = Checker(attempt: nat, op: Operation, gen: nat)

  /** What Caddy and Docker hold for the service.  The last three fields are history. */
  datatype World = World(
    route: Route, blue: Container, green: Container, nextGen: nat, dataset: bool,
    torn: bool,  // the last host name change was cut between Caddy and the store
    swept: bool, // the clean-up behind a tombstone removed the route, and nothing routed since
    stale: bool) // a provision took over what it should not; stopping everything clears it

  /** The attempt counters, and the checkers that carry attempts.  The last two fields are history. */
  datatype Fence = Fence(
    current: Option<nat>, sequence: nat, checkers: map<nat, Checker>,
    latest: nat,         // the last attempt issued for this service
    abandoned: set<nat>) // attempts ended by a stop or a replacement

  /** A request to provision, between its checks: past the tombstone, then past the first look at the record. */
  datatype Pending = Called(query: ProvisionQuery) | Looked(query: ProvisionQuery)

  /** Whether a request ever erased a record under the goroutine that owns it. */
  datatype Lock =
    | Unbroken
    | Broken // and the process has not restarted since
    | Mended // but the process has restarted since

  /** History, read by no step of the source. */
  datatype Past = Past(
    born: bool,      // a record was persisted once
    confirmed: bool, // the pending version was admitted with confirm_downgrade
    lock: Lock)

  datatype Sys = Sys(
    record: Option<Record>, tombstone: Option<TombstonePhase>,
    fence: Fence, owners: map<nat, Owner>, removers: set<nat>, pending: map<nat, Pending>, world: World,
    past: Past)

  const NO_ATTEMPTS := Fence(None, 0, map[], 0, {})

  const NOTHING := World(NoRoute, Absent, Absent, 0, false, false, false, false)

  const INITIAL := Sys(None, None, NO_ATTEMPTS, map[], {}, map[], NOTHING, Past(false, false, Unbroken))

  /** Caddy takes a new route. */
  function Routed(w: World, route: Route): World {
    w.(route := route, swept := false)
  }

  function Box(w: World, slot: Slot): Container {
    if slot == Blue then w.blue else w.green
  }

  function WithBox(w: World, slot: Slot, c: Container): World {
    if slot == Blue then w.(blue := c) else w.(green := c)
  }

  // ------------------------------------------------------------------ the events

  datatype Outcome =
    | Success
    /** An error.  The call still reached these slots; `done` is its remaining effect. */
    | Fault(blue: bool, green: bool, done: bool)

  datatype HostsOutcome = HostsPersisted | RouteRefused | RolledBack | RollbackRefused | CrashedBetween

  datatype Event =
    | ProvisionCall(tid: nat, ask: ProvisionQuery)
    | ProvisionLook(tid: nat)
    | ProvisionFresh(
        tid: nat, hosts: Hosts, ip: string, version: string, pkg: Package, matomo: Option<nat>, dns: string)
    | ProvisionAgain(tid: nat, hosts: Hosts, ip: string, version: string, pkg: Package, matomo: Option<nat>)
    | ResumeRequest(tid: nat, pkg: Package, matomo: Option<nat>)
    | UpgradeRequest(tid: nat, query: UpgradeQuery)
    | StopRequest(tid: nat, to: State)
    | DeleteRequest(tid: nat)
    | TombstoneRequest(tid: nat)
    | HostsRequest(hosts: Hosts, ip: string, dns: string, outcome: HostsOutcome)
    | MatomoRequest(id: nat)
    | RedeployRequest(hosts: Hosts, ip: string, version: string, pkg: Package, matomo: Option<nat>)
    | DnsUpdate(dns: string)
    /** finishHealth takes its verdict under the lock; `put` is whether its write succeeds. */
    | Judge(tid: nat, healthy: bool, put: bool, dns: string)
    | Work(tid: nat, result: Outcome, dns: string)
    | Sweep(tid: nat, removed: bool, put: bool)
    | OtherServiceAttempt
    | Restart

  function Put(s: Sys, r: Record): Sys {
    s.(record := Some(r), past := s.past.(born := true))
  }

  function Own(s: Sys, tid: nat, o: Owner): Sys {
    s.(owners := s.owners[tid := o])
  }

  /** The owner ends. */
  function Leave(s: Sys, tid: nat): Sys {
    s.(owners := s.owners - {tid})
  }

  /** The owner hands over to a finishHealth goroutine. */
  function Probe(s: Sys, tid: nat, c: Checker): Sys {
    Leave(s, tid).(fence := s.fence.(checkers := s.fence.checkers[tid := c]))
  }

  /** nextHealthAttempt: a number never issued before in this process. */
  function NextAttempt(f: Fence): Fence {
    Abandon(f).(sequence := f.sequence + 1, current := Some(f.sequence + 1), latest := f.sequence + 1)
  }

  function Abandon(f: Fence): Fence {
    f.(current := None, abandoned := f.abandoned + (if f.current.Some? then {f.current.value} else {}))
  }

  // ------------------------------------------------------------------ admissions

  /** The record of an admission, whose version was confirmed or not. */
  function Admit(s: Sys, r: Record, confirmed: bool): Sys {
    s.(record := Some(r), past := s.past.(born := true, confirmed := confirmed))
  }

  /** The first locked section of Provision. */
  function LookStep(s: Sys, tid: nat): Sys
    requires tid in s.pending
  {
    var q := s.pending[tid].query;
    s.(pending := if PassesFirstLook(s.record, q) then s.pending[tid := Looked(q)] else s.pending - {tid})
  }

  function ProvisionFreshStep(s: Sys, e: Event): Sys
    requires e.ProvisionFresh?
  {
    var r := NewRecord(e.hosts, e.ip, e.version, e.pkg, e.matomo, e.dns);
    var stale := s.world.stale || Runs(s.world.blue) || Runs(s.world.green);
    Own(Admit(s, r, false).(pending := s.pending - {e.tid}, world := s.world.(stale := stale)),
        e.tid, Owner(Preparing, r, 0))
  }

  function ProvisionAgainStep(s: Sys, e: Event): Sys
    requires e.ProvisionAgain? && s.record.Some?
  {
    var r := RetryRecord(s.record.value, e.pkg, e.matomo);
    var stale := s.world.stale || s.record.value.phase == Stopped;
    Own(Admit(s, r, false).(pending := s.pending - {e.tid}, world := s.world.(stale := stale)),
        e.tid, Owner(Preparing, r, 0))
  }

  function ResumeStep(s: Sys, e: Event): Sys
    requires e.ResumeRequest? && s.record.Some?
  {
    var r := ResumeRecord(s.record.value, e.pkg, e.matomo);
    var f := NextAttempt(s.fence);
    Own(Admit(s, r, false).(fence := f), e.tid, Owner(Isolating, r, f.latest))
  }

  function UpgradeStep(s: Sys, e: Event): Sys
    requires e.UpgradeRequest? && s.record.Some?
  {
    var r := UpgradeRecord(s.record.value, e.query);
    var f := NextAttempt(s.fence);
    Own(Admit(s, r, e.query.confirmDowngrade).(fence := f), e.tid, Owner(Isolating, r, f.latest))
  }

  function StopStep(s: Sys, e: Event): Sys
    requires e.StopRequest? && s.record.Some?
  {
    var r := StoppingRecord(s.record.value, e.to);
    Own(Put(s, r).(fence := Abandon(s.fence)), e.tid, Owner(Halting, r, 0))
  }

  function DeleteStep(s: Sys, e: Event): Sys
    requires e.DeleteRequest? && s.record.Some?
  {
    var r := DeletingRecord(s.record.value);
    Own(Put(s, r), e.tid, Owner(Purging, r, 0))
  }

  /** Delete beside a tombstone: behind a finished one the live record goes, whoever owns it. */
  function TombstoneStep(s: Sys, e: Event): Sys
    requires e.TombstoneRequest? && s.tombstone.Some?
  {
    if s.tombstone.value == TombDeleted
    then s.(record := None, past := s.past.(lock := if s.owners != map[] then Broken else s.past.lock))
    else s.(tombstone := Some(TombDeleting), removers := s.removers + {e.tid})
  }

  /** What deployDomains leaves in Caddy: it routes first and persists second. */
  function HostsWorld(w: World, r: Record, hosts: Hosts, outcome: HostsOutcome): World {
    if r.hosts == hosts then w
    else
      match outcome
      case HostsPersisted => Routed(w, HostsRoute(r, hosts)).(torn := false)
      case RouteRefused => w
      case RolledBack => Routed(w, HostsRoute(r, r.hosts)).(torn := false)
      case RollbackRefused => Routed(w, HostsRoute(r, hosts)).(torn := true)
      case CrashedBetween => Routed(w, HostsRoute(r, hosts)).(torn := true)
  }

  function HostsStep(s: Sys, e: Event): Sys
    requires e.HostsRequest? && s.record.Some?
  {
    var r := s.record.value;
    var n := s.(world := HostsWorld(s.world, r, e.hosts, e.outcome));
    if e.outcome.HostsPersisted? then Put(n, r.(hosts := e.hosts, ip := e.ip, dns := e.dns))
    else if e.outcome.CrashedBetween? then Restarted(n)
    else n
  }

  function HostsRoute(r: Record, hosts: Hosts): Route {
    if r.state == Suspended then Page(hosts) else Proxy(r.live, hosts)
  }

  function RedeployStep(s: Sys, e: Event): Sys
    requires e.RedeployRequest? && s.record.Some?
  {
    var r := s.record.value;
    Put(s, RedeployedRecord(r, e.hosts, e.ip, e.version, e.pkg, e.matomo))
  }

  /** The process dies and RecoverInterrupted runs before requests are served again. */
  function Restarted(s: Sys): Sys {
    s.(owners := map[], removers := {}, pending := map[], fence := NO_ATTEMPTS,
       record := if s.record.Some? then Some(RecoveredRecord(s.record.value)) else None,
       tombstone := if s.tombstone == Some(TombDeleting) then Some(TombFailed) else s.tombstone,
       past := s.past.(lock := if s.past.lock.Broken? then Mended else s.past.lock))
  }

  // ------------------------------------------------------------------- finishHealth

  predicate Timely(s: Sys, c: Checker) {
    && s.fence.current == Some(c.attempt) && s.record.Some?
    && s.record.value.op == c.op && s.record.value.phase == WaitingForHealth
  }

  /** The result of one checker is in: its attempt, if current, is spent. */
  function Spend(f: Fence, tid: nat): Fence
    requires tid in f.checkers
  {
    f.(checkers := f.checkers - {tid},
       current := if f.current == Some(f.checkers[tid].attempt) then None else f.current)
  }

  function JudgeStep(s: Sys, e: Event): Sys
    requires e.Judge? && e.tid in s.fence.checkers
  {
    var c := s.fence.checkers[e.tid];
    var n := s.(fence := Spend(s.fence, e.tid));
    if !Timely(s, c) || !e.put then n
    else if !e.healthy then Put(n, FailedRecord(s.record.value, HealthFailure))
    else
      var r := RoutingRecord(s.record.value, e.dns);
      Own(Put(n, r), e.tid, Owner(Resolving(c.gen), r, c.attempt))
  }

  // ------------------------------------------------------- steps of an owning goroutine

  function Goto(s: Sys, tid: nat, pc: Pc): Sys
    requires tid in s.owners
  {
    Own(s, tid, s.owners[tid].(pc := pc))
  }

  /** The owner moves on, and its call leaves the world like this. */
  function GotoIn(s: Sys, tid: nat, pc: Pc, w: World): Sys
    requires tid in s.owners
  {
    Goto(s, tid, pc).(world := w)
  }

  /** The owner persists a record and goes on with it as its private copy. */
  function Write(s: Sys, tid: nat, r: Record, pc: Pc): Sys
    requires tid in s.owners
  {
    Own(Put(s, r), tid, s.owners[tid].(pc := pc, copy := r))
  }

  predicate Reached(o: Outcome, slot: Slot)
    requires o.Fault?
  {
    if slot == Blue then o.blue else o.green
  }

  /** StartSlot starts the container it finds, whatever its version, or creates one. */
  function StartedBox(c: Container, version: string, gen: nat): Container {
    if c.Present? then c.(running := true, adopted := c.version != version)
    else Present(version, gen, true, false)
  }

  function StartSlot(w: World, slot: Slot, version: string, o: Outcome): World {
    var box := StartedBox(Box(w, slot), version, w.nextGen);
    var n := w.(nextGen := w.nextGen + 1);
    if o.Success? then WithBox(n, slot, box)
    else if !Reached(o, slot) then w
    else if o.done then WithBox(n, slot, box)
    else if Box(w, slot).Present? then w
    else WithBox(n, slot, box.(running := false))
  }

  function RemoveSlot(w: World, slot: Slot, o: Outcome): World {
    if o.Success? || Reached(o, slot) then WithBox(w, slot, Absent) else w
  }

  function StopBox(c: Container): Container {
    if c.Present? then c.(running := false) else c
  }

  /** StopAll or RemoveAll: an error leaves any part of the containers untouched. */
  function HaltAll(w: World, remove: bool, o: Outcome): World {
    var blue := if remove then Absent else StopBox(w.blue);
    var green := if remove then Absent else StopBox(w.green);
    if o.Success? then w.(blue := blue, green := green, stale := false)
    else w.(blue := if o.blue then blue else w.blue, green := if o.green then green else w.green)
  }

  function SlotGen(c: Container): nat {
    if c.Present? then c.gen else 0
  }

  function WorkStep(s: Sys, tid: nat, o: Outcome, dns: string): Sys
    requires tid in s.owners
  {
    var t := s.owners[tid];
    if t.pc.Failing? then
      if o.Success? then Leave(Put(s, FailedRecord(t.pc.written, StepFailure)), tid) else Leave(s, tid)
    else if ProvisionPc(t.pc) then ProvisionWork(s, tid, o)
    else if ActivationPc(t.pc) then ActivationWork(s, tid, o)
    else if StopPc(t.pc) then StopWork(s, tid, o)
    else if DeletePc(t.pc) then DeleteWork(s, tid, o)
    else HealthWork(s, tid, o, dns)
  }

  predicate ProvisionPc(pc: Pc) {
    pc.Preparing? || pc.LaunchFirst? || pc.AwaitFirst?
  }

  function ProvisionWork(s: Sys, tid: nat, o: Outcome): Sys
    requires tid in s.owners
    requires ProvisionPc(s.owners[tid].pc)
  {
    var t := s.owners[tid];
    match t.pc
    case Preparing =>
      if o.Success? then GotoIn(s, tid, LaunchFirst, s.world.(dataset := true))
      else GotoIn(s, tid, Failing(t.copy), s.world.(dataset := s.world.dataset || o.done))
    case LaunchFirst =>
      var w := StartSlot(s.world, Blue, TargetVersion(t.copy), o);
      GotoIn(s, tid, if o.Success? then AwaitFirst(SlotGen(w.blue)) else Failing(t.copy), w)
    case AwaitFirst(gen) =>
      if o.Success? then
        var f := NextAttempt(s.fence);
        Probe(Put(s, WaitingRecord(t.copy)).(fence := f), tid, Checker(f.latest, Provision, gen))
      else Goto(s, tid, Failing(t.copy))
  }

  predicate ActivationPc(pc: Pc) {
    pc.Isolating? || pc.Clearing? || pc.Launching? || pc.Awaiting?
  }

  function ActivationWork(s: Sys, tid: nat, o: Outcome): Sys
    requires tid in s.owners
    requires ActivationPc(s.owners[tid].pc)
  {
    var t := s.owners[tid];
    match t.pc
    case Isolating =>
      // Only an upgrade first makes sure that Caddy serves the live slot.
      if o.Fault? then Goto(s, tid, Failing(t.copy))
      else if t.copy.op == Upgrade && !(s.world.route.Proxy? && s.world.route.slot == t.copy.live)
      then GotoIn(s, tid, Clearing, Routed(s.world, Proxy(t.copy.live, t.copy.hosts)).(torn := false))
      else Goto(s, tid, Clearing)
    case Clearing =>
      GotoIn(s, tid, if o.Success? then Launching else Failing(t.copy), RemoveSlot(s.world, Target(t.copy), o))
    case Launching =>
      var w := StartSlot(s.world, Target(t.copy), TargetVersion(t.copy), o);
      GotoIn(s, tid, if o.Success? then Awaiting(SlotGen(Box(w, Target(t.copy)))) else Failing(t.copy), w)
    case Awaiting(gen) =>
      if o.Success? then Probe(Put(s, WaitingRecord(t.copy)), tid, Checker(t.attempt, t.copy.op, gen))
      else Goto(s, tid, Failing(t.copy))
  }

  predicate StopPc(pc: Pc) {
    pc.Halting? || pc.Halted? || pc.Unrouting? || pc.Resting?
  }

  function StopWork(s: Sys, tid: nat, o: Outcome): Sys
    requires tid in s.owners
    requires StopPc(s.owners[tid].pc)
  {
    var t := s.owners[tid];
    match t.pc
    case Halting =>
      GotoIn(s, tid, if o.Success? then Halted else Failing(t.copy), HaltAll(s.world, t.copy.op != Suspend, o))
    case Halted =>
      if o.Success? then Write(s, tid, HaltedRecord(t.copy), Unrouting)
      else Goto(s, tid, Failing(HaltedRecord(t.copy)))
    case Unrouting =>
      // finishRouting reads the record again before it routes.
      if s.record.None? || s.record.value.op != t.copy.op || !Busy(s.record.value.phase) then Leave(s, tid)
      else if o.Fault? then Own(s, tid, Owner(Failing(s.record.value), s.record.value, t.attempt))
      else
        var r := s.record.value;
        Own(s.(world := Routed(s.world, if r.op == Suspend then Page(r.hosts) else NoRoute)),
            tid, Owner(Resting, r, t.attempt))
    case Resting =>
      if o.Success? then Leave(Put(s, StoppedRecord(t.copy)).(world := s.world.(torn := false)), tid) else Leave(s, tid)
  }

  predicate HealthPc(pc: Pc) {
    || pc.Resolving? || pc.Recording? || pc.Switching? || pc.Retiring?
    || pc.StartingDrain? || pc.DrainingOld? || pc.Committing?
  }

  function AfterSwitch(op: Operation, gen: nat): Pc {
    match op
    case Resume => Retiring(gen)
    case Upgrade => StartingDrain(gen)
    case _ => Committing(gen)
  }

  function HealthWork(s: Sys, tid: nat, o: Outcome, dns: string): Sys
    requires tid in s.owners
    requires HealthPc(s.owners[tid].pc)
  {
    var t := s.owners[tid];
    match t.pc
    case Resolving(gen) =>
      if o.Success? then Goto(s, tid, Recording(gen)) else Goto(s, tid, Failing(t.copy))
    case Recording(gen) =>
      if o.Success? then Write(s, tid, t.copy.(dns := dns), Switching(gen)) else Leave(s, tid)
    case Switching(gen) =>
      if o.Fault? then Goto(s, tid, Failing(t.copy))
      else
        GotoIn(s, tid, AfterSwitch(t.copy.op, gen), Routed(s.world, Proxy(Target(t.copy), RoutingHosts(t.copy))))
    case Retiring(gen) =>
      // A failed clean-up of the previous slot is only logged.
      GotoIn(s, tid, Committing(gen), RemoveSlot(s.world, t.copy.live, o))
    case StartingDrain(gen) =>
      if o.Success? then Write(s, tid, DrainingRecord(t.copy), DrainingOld(gen)) else Leave(s, tid)
    case DrainingOld(gen) =>
      GotoIn(s, tid, if o.Success? then Committing(gen) else Failing(t.copy), RemoveSlot(s.world, t.copy.live, o))
    case Committing(gen) =>
      if o.Success? then Leave(Put(s, RunningRecord(t.copy)).(world := s.world.(torn := false)), tid) else Leave(s, tid)
  }

  predicate DeletePc(pc: Pc) {
    pc.Purging? || pc.Unlisting? || pc.Destroying? || pc.Burying? || pc.Erasing?
  }

  function DeleteWork(s: Sys, tid: nat, o: Outcome): Sys
    requires tid in s.owners
    requires DeletePc(s.owners[tid].pc)
  {
    var t := s.owners[tid];
    match t.pc
    case Purging =>
      GotoIn(s, tid, if o.Success? then Unlisting else Failing(t.copy), HaltAll(s.world, true, o))
    case Unlisting =>
      if o.Success? then GotoIn(s, tid, Destroying, Routed(s.world, NoRoute)) else Goto(s, tid, Failing(t.copy))
    case Destroying =>
      if o.Success? then GotoIn(s, tid, Burying, s.world.(dataset := false))
      else GotoIn(s, tid, Failing(t.copy), s.world.(dataset := s.world.dataset && !o.done))
    case Burying =>
      if o.Success? then Goto(s.(tombstone := Some(TombDeleting)), tid, Erasing) else Leave(s, tid)
    case Erasing =>
      if o.Success? then Leave(s, tid).(record := None, removers := s.removers + {tid}) else Leave(s, tid)
  }

  function SweepStep(s: Sys, e: Event): Sys
    requires e.Sweep?
  {
    var n := if e.removed then s.(world := s.world.(route := NoRoute, swept := true)) else s;
    n.(removers := n.removers - {e.tid},
       tombstone := if e.put then Some(if e.removed then TombDeleted else TombFailed) else n.tombstone)
  }

  // ------------------------------------------------------------------ the machine

  /** Goroutines keep their number for life. */
  predicate Fresh(s: Sys, tid: nat) {
    tid !in s.owners && tid !in s.fence.checkers && tid !in s.removers && tid !in s.pending
  }

  /** This request has passed the tombstone and the first look. */
  predicate Ready(s: Sys, tid: nat, hosts: Hosts, ip: string, version: string, pkg: Package, matomo: Option<nat>) {
    && tid in s.pending && s.pending[tid].Looked?
    && s.pending[tid].query == ProvisionQuery(hosts, ip, version, pkg, matomo, s.pending[tid].query.force)
    && tid !in s.owners && tid !in s.fence.checkers && tid !in s.removers
  }

  predicate Enabled(s: Sys, e: Event) {
    match e
    case ProvisionCall(tid, _) => Fresh(s, tid) && s.tombstone.None?
    case ProvisionLook(tid) => tid in s.pending && s.pending[tid].Called?
    case ProvisionFresh(tid, hosts, ip, version, pkg, matomo, _) =>
      s.record.None? && Ready(s, tid, hosts, ip, version, pkg, matomo)
    case ProvisionAgain(tid, hosts, ip, version, pkg, matomo) =>
      && Ready(s, tid, hosts, ip, version, pkg, matomo) && s.record.Some?
      && JudgeProvision(s.record.value, hosts, ip, version) == Retry
    case ResumeRequest(tid, _, _) => Fresh(s, tid) && s.record.Some? && MayResume(s.record.value)
    case UpgradeRequest(tid, q) => Fresh(s, tid) && s.record.Some? && ValidateUpgrade(s.record.value, q) == Proceed
    case StopRequest(tid, to) => Fresh(s, tid) && s.record.Some? && MayStop(s.record.value, to)
    case DeleteRequest(tid) => Fresh(s, tid) && s.tombstone.None? && s.record.Some? && MayDelete(s.record.value)
    case TombstoneRequest(tid) => Fresh(s, tid) && s.tombstone.Some? && s.tombstone.value != TombDeleting
    case HostsRequest(hosts, _, _, outcome) =>
      && s.record.Some? && MayChangeHosts(s.record.value)
      && (outcome.RollbackRefused? || outcome.CrashedBetween? || outcome.RouteRefused? ==>
          s.record.value.hosts != hosts)
    case MatomoRequest(_) => s.record.Some? && s.record.value.state == Suspended && s.record.value.phase == Stopped
    case RedeployRequest(_, _, _, _, _) =>
      s.record.Some? && s.record.value.state == Terminated && s.record.value.phase == Stopped
    case DnsUpdate(_) => s.record.Some?
    case Judge(tid, _, _, _) => tid in s.fence.checkers
    case Work(tid, _, _) => tid in s.owners
    case Sweep(tid, _, _) => tid in s.removers
    case OtherServiceAttempt => true
    case Restart => true
  }

  function Apply(s: Sys, e: Event): Sys
    requires Enabled(s, e)
  {
    match e
    case ProvisionCall(tid, ask) => s.(pending := s.pending[tid := Called(ask)])
    case ProvisionLook(tid) => LookStep(s, tid)
    case ProvisionFresh(_, _, _, _, _, _, _) => ProvisionFreshStep(s, e)
    case ProvisionAgain(_, _, _, _, _, _) => ProvisionAgainStep(s, e)
    case ResumeRequest(_, _, _) => ResumeStep(s, e)
    case UpgradeRequest(_, _) => UpgradeStep(s, e)
    case StopRequest(_, _) => StopStep(s, e)
    case DeleteRequest(_) => DeleteStep(s, e)
    case TombstoneRequest(_) => TombstoneStep(s, e)
    case HostsRequest(_, _, _, _) => HostsStep(s, e)
    case MatomoRequest(id) => Put(s, s.record.value.(matomo := id))
    case RedeployRequest(_, _, _, _, _) => RedeployStep(s, e)
    case DnsUpdate(dns) => Put(s, s.record.value.(dns := dns))
    case Judge(_, _, _, _) => JudgeStep(s, e)
    case Work(tid, o, dns) => WorkStep(s, tid, o, dns)
    case Sweep(_, _, _) => SweepStep(s, e)
    case OtherServiceAttempt => s.(fence := s.fence.(sequence := s.fence.sequence + 1))
    case Restart => Restarted(s)
  }

  /** The state after a sequence of events, or None if one of them was not enabled. */
  function Replay(s: Sys, events: seq<Event>): Option<Sys>
    decreases |events|
  {
    if events == [] then Some(s)
    else if Enabled(s, events[0]) then Replay(Apply(s, events[0]), events[1..])
    else None
  }

  ghost predicate Reachable(s: Sys) {
    exists events: seq<Event> :: Replay(INITIAL, events) == Some(s)
  }
}
