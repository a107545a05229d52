/**
  What every event of the lifecycle machine keeps about record, goroutines and world, as
  long as no request has erased a record under its owner.
 */
module LifecycleInvariant {
  import opened Prelude
  import opened Lifecycle
  import opened LifecycleLock
  import Versions

  // ------------------------------------------------------------- facts about records

  ghost predicate Shaped(r: Record) {
    && (r.op == NoOperation <==> r.phase == Running || r.phase == Stopped)
    && (r.phase == Running ==> r.state == Active)
    && (r.phase == Stopped ==> r.state != Active)
    && (r.op == NoOperation ==> Cleared(r).(lastError := r.lastError) == r)
    && (Activation(r.op) ==> r.target.Some? && r.targetVersion.Some?)
    && (r.op == Upgrade ==> r.state == Active && Target(r) == Opposite(r.live))
    && (r.op == Resume ==> r.state != Active && Target(r) == Opposite(r.live))
    && (r.op == Delete ==> r.state == Terminated)
    && (r.phase == Provisioning ==> r.op == Provision)
    && (r.phase == Starting || r.phase == WaitingForHealth ==> Activation(r.op))
    && (r.phase == Draining ==> r.op == Upgrade)
    && (r.phase == Stopping ==> r.op == Suspend || r.op == Terminate)
    && (r.phase == Deleting ==> r.op == Delete)
    && (r.phase == Routing ==>
          Activation(r.op) || ((r.op == Suspend || r.op == Terminate) && r.state == Destination(r.op)))
  }

  // ------------------------------------------------------- facts about record and world

  /** The container this attempt started, running; it was adopted iff it is of another version. */
  ghost predicate Live(c: Container, gen: nat, version: string) {
    c.Present? && c.running && c.gen == gen && (c.adopted <==> c.version != version)
  }

  /** The live slot has the traffic, unless the clean-up behind a tombstone took the route. */
  ghost predicate ServesLive(w: World, r: Record) {
    w.swept || (w.route.Proxy? && w.route.slot == r.live)
  }

  ghost predicate Emptied(w: World) {
    w.blue.Absent? && w.green.Absent?
  }

  ghost predicate AtRest(w: World, state: State) {
    if state == Suspended then !Runs(w.blue) && !Runs(w.green) else Emptied(w)
  }

  /** A running service: its live container runs and receives the traffic. */
  ghost predicate RunningAgrees(w: World, r: Record) {
    && ServesLive(w, r)
    && (w.swept || (w.torn <==> w.route.hosts != r.hosts))
    && Runs(Box(w, r.live))
    && (Box(w, r.live).adopted <==> Box(w, r.live).version != r.version)
  }

  /** A stopped service: nothing runs, and visitors see the suspension page or nothing. */
  ghost predicate StoppedAgrees(w: World, r: Record) {
    && AtRest(w, r.state)
    && (r.state == Suspended ==> w.swept || (w.route.Page? && (w.torn <==> w.route.hosts != r.hosts)))
    && (r.state == Terminated ==> w.route == NoRoute)
  }

  /** How many containers may run, unless a provision took over what it should not. */
  ghost predicate Disciplined(w: World, r: Record) {
    !w.stale ==>
      && (r.state != Active ==> !Runs(Box(w, r.live)))
      && (r.op == Provision ==> r.state == Active && r.live == Blue && r.target == Some(Blue) && !Runs(w.green))
      && (!(r.state == Active && (r.op == Upgrade || r.op == Suspend || r.op == Terminate)) ==>
            !(Runs(w.blue) && Runs(w.green)))
  }

  ghost predicate Grounded(w: World, r: Record) {
    && (r.phase == Running ==> RunningAgrees(w, r))
    && (r.phase == Stopped ==> StoppedAgrees(w, r))
    && (r.phase == WaitingForHealth && r.op == Upgrade ==> ServesLive(w, r))
    && (r.phase == Failed && r.op == Upgrade && r.lastError == HealthFailure ==> ServesLive(w, r))
  }

  ghost predicate Numbered(w: World) {
    && (w.blue.Present? ==> w.blue.gen < w.nextGen)
    && (w.green.Present? ==> w.green.gen < w.nextGen)
  }

  /** An unconfirmed pending version is no downgrade of the committed one. */
  ghost predicate Priced(confirmed: bool, r: Record) {
    Activation(r.op) && !confirmed ==> Versions.NotOlder(TargetVersion(r), r.version)
  }

  ghost predicate RecordOk(w: World, confirmed: bool, r: Record) {
    Shaped(r) && Grounded(w, r) && Disciplined(w, r) && Priced(confirmed, r)
  }

  // ------------------------------------------------------------ facts about goroutines

  /** The attempt issued at this owner's admission, which no checker carries yet. */
  ghost predicate Issued(f: Fence, attempt: nat) {
    f.current == Some(attempt) && forall u :: u in f.checkers ==> f.checkers[u].attempt != attempt
  }

  ghost predicate TargetLive(w: World, c: Record, gen: nat) {
    Live(Box(w, Target(c)), gen, TargetVersion(c))
  }

  ghost predicate Switched(w: World, c: Record) {
    w.swept || w.route == Proxy(Target(c), RoutingHosts(c))
  }

  ghost predicate ProvisionOk(w: World, c: Record, pc: Pc) {
    && c.phase == Provisioning && c.target == Some(Blue)
    && (pc.AwaitFirst? ==> TargetLive(w, c, pc.gen))
  }

  ghost predicate ActivationOk(w: World, c: Record, pc: Pc) {
    && c.phase == Starting
    && (c.op == Upgrade && !pc.Isolating? ==> ServesLive(w, c))
    && (pc.Launching? ==> Box(w, Target(c)).Absent?)
    && (pc.Awaiting? ==> TargetLive(w, c, pc.gen) && !Box(w, Target(c)).adopted)
  }

  ghost predicate StopOk(w: World, c: Record, pc: Pc) {
    if pc.Halting? then c.phase == Stopping
    else if pc.Halted? then c.phase == Stopping && AtRest(w, Destination(c.op))
    else
      && c.phase == Routing && !Activation(c.op) && AtRest(w, c.state)
      && (pc.Resting? ==> if c.op == Suspend then w.swept || w.route == Page(c.hosts) else w.route == NoRoute)
  }

  ghost predicate HealthOk(w: World, c: Record, pc: Pc)
    requires HealthPc(pc)
  {
    && Activation(c.op) && TargetLive(w, c, pc.gen)
    && c.phase == (if pc.DrainingOld? || (pc.Committing? && c.op == Upgrade) then Draining else Routing)
    && (pc.Retiring? ==> c.op == Resume)
    && (pc.StartingDrain? ==> c.op == Upgrade)
    && (if pc.Resolving? || pc.Recording? || pc.Switching? then c.op == Upgrade ==> ServesLive(w, c)
        else Switched(w, c))
    && (pc.Committing? && c.op == Upgrade ==> Box(w, c.live).Absent?)
  }

  ghost predicate DeleteOk(w: World, c: Record, pc: Pc) {
    && c.phase == Deleting
    && (!pc.Purging? ==> Emptied(w))
    && (!pc.Purging? && !pc.Unlisting? ==> w.route == NoRoute)
  }

  /** failSync persists the private copy, or after StopAll the copy with its new state. */
  ghost predicate FailingOk(w: World, c: Record, written: Record) {
    written == c || (written == HaltedRecord(c) && c.phase == Stopping && AtRest(w, written.state))
  }

  ghost predicate PcOk(w: World, c: Record, pc: Pc) {
    if pc.Failing? then FailingOk(w, c, pc.written)
    else if ProvisionPc(pc) then ProvisionOk(w, c, pc)
    else if ActivationPc(pc) then ActivationOk(w, c, pc)
    else if StopPc(pc) then StopOk(w, c, pc)
    else if DeletePc(pc) then DeleteOk(w, c, pc)
    else HealthOk(w, c, pc)
  }

  ghost predicate Holds(s: Sys, o: Owner) {
    Owns(s, o) && PcOk(s.world, o.copy, o.pc) && (ActivationPc(o.pc) ==> Issued(s.fence, o.attempt))
  }

  /** At most one goroutine owns the record. */
  ghost predicate Owned(s: Sys) {
    && (forall t, u :: t in s.owners && u in s.owners ==> t == u)
    && (forall t :: t in s.owners ==> Holds(s, s.owners[t]))
  }

  /**
    A checker whose attempt is current probes the container that the record waits for;
    only behind a finished tombstone may the record it waited for be gone.
   */
  ghost predicate Checked(s: Sys, c: Checker) {
    && (Timely(s, c) ==> TargetLive(s.world, s.record.value, c.gen))
    && (s.tombstone != Some(TombDeleted) ==> Timely(s, c))
  }

  ghost predicate Distinct(f: Fence) {
    forall t, u :: t in f.checkers && u in f.checkers && t != u ==> f.checkers[t].attempt != f.checkers[u].attempt
  }

  ghost predicate Fenced(s: Sys) {
    && Counted(s.fence) && Distinct(s.fence)
    && (forall t :: t in s.fence.checkers && s.fence.current == Some(s.fence.checkers[t].attempt) ==>
          Checked(s, s.fence.checkers[t]))
  }

  /** Only the clean-up behind a tombstone takes a route away from its service. */
  ghost predicate Sweeping(s: Sys) {
    s.world.swept ==> s.tombstone.Some? && s.world.route == NoRoute
  }

  ghost predicate Invariant(s: Sys) {
    && Owned(s) && Fenced(s) && Numbered(s.world) && Sweeping(s)
    && (s.record.Some? ==> RecordOk(s.world, s.past.confirmed, s.record.value))
  }

  ghost predicate Inv(s: Sys) {
    LockInv(s) && (s.past.lock.Unbroken? ==> Invariant(s))
  }

  // ------------------------------------------------------------------- small frames

  lemma OwnedIsExclusive(s: Sys)
    requires Owned(s)
    ensures Exclusive(s)
  {
    assert forall t :: t in s.owners ==> Holds(s, s.owners[t]);
  }

  lemma Sole(s: Sys, tid: nat)
    requires Owned(s) && tid in s.owners
    ensures s.owners == map[tid := s.owners[tid]] && Holds(s, s.owners[tid])
    ensures s.owners - {tid} == map[]
  {
  }

  lemma Nobody(s: Sys)
    requires Owned(s)
    requires s.record.None? || !Busy(s.record.value.phase) || s.record.value.phase == WaitingForHealth
    ensures s.owners == map[]
  {
    assert forall t :: t in s.owners ==> Holds(s, s.owners[t]);
  }

  /** A state with one owner is Owned as soon as that owner is. */
  lemma OneOwner(s: Sys, tid: nat, o: Owner)
    requires s.owners == map[tid := o] && Holds(s, o)
    ensures Owned(s)
  {
  }

  /** A finished tombstone stays, and no other appears without its steps. */
  ghost predicate SameTomb(s: Sys, n: Sys) {
    n.tombstone == s.tombstone || (s.tombstone.None? && n.tombstone == Some(TombDeleting))
  }

  /** As long as nobody waits for health no checker is timely, so record and world may change. */
  lemma FenceHolds(s: Sys, n: Sys)
    requires Fenced(s) && n.fence == s.fence && SameTomb(s, n)
    requires s.record.Some? && s.record.value.phase != WaitingForHealth
    requires n.record.Some? && n.record.value.phase != WaitingForHealth
    ensures Fenced(n)
  {
    assert forall t :: t in s.fence.checkers && s.fence.current == Some(s.fence.checkers[t].attempt) ==>
        Checked(s, s.fence.checkers[t]);
  }

  /** The owner moves on after a call that changed the world but not the record. */
  lemma Continue(s: Sys, n: Sys, tid: nat, pc: Pc, w: World)
    requires Invariant(s) && tid in s.owners && s.record.Some?
    requires n == GotoIn(s, tid, pc, w)
    requires PcOk(w, s.owners[tid].copy, pc)
    requires ActivationPc(pc) ==> ActivationPc(s.owners[tid].pc)
    requires HealthPc(pc) ==> HealthPc(s.owners[tid].pc)
    requires Numbered(w) && Disciplined(w, s.record.value) && Sweeping(n)
    ensures Invariant(n)
  {
    Sole(s, tid);
    OneOwner(n, tid, n.owners[tid]);
    FenceHolds(s, n);
  }

  /** An unowned record outside waiting_for_health may be rewritten in one locked section. */
  lemma Rewritten(s: Sys, n: Sys, r: Record)
    requires Invariant(s) && s.owners == map[] && s.record.Some? && s.record.value.phase != WaitingForHealth
    requires n.record == Some(r) && n.fence == s.fence && n.owners == map[] && SameTomb(s, n)
    requires Numbered(n.world) && Sweeping(n) && RecordOk(n.world, n.past.confirmed, r) && r.phase != WaitingForHealth
    ensures Invariant(n)
  {
    FenceHolds(s, n);
  }

  /** The owner persists a record, or not, and ends. */
  lemma Ended(s: Sys, n: Sys, tid: nat, r: Record)
    requires Invariant(s) && tid in s.owners && r.phase != WaitingForHealth
    requires n.record == Some(r) && n.fence == s.fence && n.owners == map[] && SameTomb(s, n)
    requires Numbered(n.world) && Sweeping(n) && RecordOk(n.world, n.past.confirmed, r)
    ensures Invariant(n)
  {
    Sole(s, tid);
    FenceHolds(s, n);
  }

  /** The owner persists a record and goes on with it as its private copy. */
  lemma Advanced(s: Sys, tid: nat, r: Record, pc: Pc)
    requires Invariant(s) && tid in s.owners && Busy(r.phase) && r.phase != WaitingForHealth
    requires RecordOk(s.world, s.past.confirmed, r)
    requires PcOk(s.world, r, pc) && !ActivationPc(pc) && (HealthPc(pc) ==> HealthPc(s.owners[tid].pc))
    ensures Invariant(Write(s, tid, r, pc))
  {
    Sole(s, tid);
    var n := Write(s, tid, r, pc);
    OneOwner(n, tid, n.owners[tid]);
    FenceHolds(s, n);
  }

  /** No fact about records looks at the DNS status. */
  lemma DnsIsIrrelevant(w: World, confirmed: bool, r: Record, c: Record)
    requires RecordOk(w, confirmed, r) && SameLifecycle(c, r)
    ensures RecordOk(w, confirmed, c)
  {
  }

  lemma DrainingRecordOk(w: World, confirmed: bool, c: Record, gen: nat)
    requires RecordOk(w, confirmed, c) && PcOk(w, c, StartingDrain(gen))
    ensures RecordOk(w, confirmed, DrainingRecord(c)) && PcOk(w, DrainingRecord(c), DrainingOld(gen))
  {
  }

  /** The commit of an activation agrees with the world: the heart of the settled phases. */
  lemma RunningRecordOk(w: World, confirmed: bool, c: Record, gen: nat)
    requires RecordOk(w, confirmed, c) && PcOk(w, c, Committing(gen))
    ensures RecordOk(w.(torn := false), confirmed, RunningRecord(c))
  {
  }
}
