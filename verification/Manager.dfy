/**
  The locked sections of the lifecycle, as the manager runs them on the records of all
  services (go-service/internal/service/manager.go).  Each loads a record, changes its
  fields one after the other and stores it; its contract says field by field who is
  admitted and what is stored, and ties the new state to the step of Sections whose runs
  the Lifecycle modules study.

  Whether the store accepts a write is a parameter.
 */
module Manager {
  import opened Prelude
  import opened Lifecycle
  import opened Sections
  import Versions

  datatype Code = NotFound | Conflicting | Internal

  datatype Admission =
    | Admitted(record: Record, attempt: nat) // attempt 0: none was issued
    | Nothing(record: Record)                // the request is already fulfilled
    | Rejected(code: Code)

  datatype Removal =
    | Removing(record: Record) // the caller owns the record and removes everything
    | Retrying                 // a failed clean-up behind a tombstone starts again
    | Gone
    | NotRemoved(code: Code)

  datatype Verdict =
    | Dropped                                // superseded, abandoned or no longer waiting
    | Lost                                   // the write of the verdict failed
    | Unhealthy(record: Record)
    | Proceeding(record: Record)             // the caller owns the record and goes on to route

  datatype HostsResult =
    | Deployed(record: Record) | HostsRejected(code: Code) | RouteFailed | StoreFailed | RollbackFailed

  class Manager {
    var services: map<string, Record>
    var tombstones: map<string, TombstonePhase>
    var routes: map<string, Route>
    var healthAttempts: map<string, nat>
    var healthSequence: nat

    /** Outstanding attempts were issued, and no two services share one. */
    ghost predicate Valid()
      reads this
    {
      && (forall id :: id in healthAttempts ==> 1 <= healthAttempts[id] <= healthSequence)
      && (forall a, b :: a in healthAttempts && b in healthAttempts && a != b ==>
            healthAttempts[a] != healthAttempts[b])
    }

    /** What the lifecycle machines see of the manager. */
    ghost function Snapshot(): Store
      reads this
    {
      Store(services, tombstones, healthAttempts, healthSequence)
    }

    constructor ()
      ensures Valid()
      ensures services == map[] && tombstones == map[] && routes == map[]
              && healthAttempts == map[] && healthSequence == 0
    {
      services, tombstones, routes, healthAttempts, healthSequence := map[], map[], map[], map[], 0;
    }

    /** The result never matches an outstanding, a completed or an abandoned attempt of any service. */
    method NextHealthAttempt(id: string) returns (attempt: nat)
      requires Valid()
      modifies `healthAttempts, `healthSequence
      ensures Valid()
      ensures attempt == old(healthSequence) + 1 == healthSequence
      ensures healthAttempts == old(healthAttempts)[id := attempt]
      ensures forall other :: other in old(healthAttempts) ==> old(healthAttempts)[other] != attempt
    {
      healthSequence := healthSequence + 1;
      healthAttempts := healthAttempts[id := healthSequence];
      attempt := healthAttempts[id];
    }

    method Put(id: string, record: Record, writable: bool) returns (ok: bool)
      modifies `services
      ensures Snapshot() == Left(old(Snapshot()), id, PutRecord(record), writable)
      ensures ok <==> writable
      ensures services == if writable then old(services)[id := record] else old(services)
    {
      if writable {
        services := services[id := record];
      }
      return writable;
    }

    // ------------------------------------------------------------------- admissions

    /** The first locked section of Provision: whether the request goes on, or is reconciled. */
    method LookFirst(id: string, q: ProvisionQuery) returns (goesOn: bool)
      ensures goesOn <==> PassesFirstLook(if id in services then Some(services[id]) else None, q)
      ensures goesOn <==>
              id in services ==>
                var o := services[id];
                && o.phase == Failed && o.op == Provision && o.hosts == q.hosts && o.ip == q.ip
                && o.version == q.version
                && (o.targetVersion == Some(q.version) || (o.targetVersion.None? && q.version == ""))
                && !q.force && (q.matomo == None || q.matomo == Some(o.matomo))
    {
      if id !in services {
        return true;
      }
      var existing := services[id];
      if existing.phase == Failed && existing.op == Provision && existing.hosts == q.hosts && existing.ip == q.ip
         && existing.version == q.version && existing.targetVersion.GetOr("") == q.version && !q.force {
        return q.matomo.None? || existing.matomo == q.matomo.value;
      }
      return false;
    }

    /** The second locked section of Provision. */
    method AdmitProvision(id: string, hosts: Hosts, ip: string, version: string, pkg: Package, matomo: Option<nat>,
                          dns: string, writable: bool) returns (r: Admission)
      requires Valid()
      modifies `services
      ensures Valid()
      ensures id !in old(services) ==>
                r == if writable
                     then Admitted(Record(Active, Provisioning, Provision, Blue, Some(Blue), version, Some(version),
                                          hosts, None, ip, None, pkg, None,
                                          if matomo.Some? then matomo.value else 0, NoFailure, dns), 0)
                     else Rejected(Internal)
      ensures id in old(services) ==>
                var o := old(services)[id];
                r == if o.hosts != hosts || o.ip != ip || o.version != version then Rejected(Conflicting)
                     else if o.phase == Running then Nothing(o)
                     else if !(o.phase == Stopped || (o.phase == Failed && o.op == Provision))
                     then Rejected(Conflicting)
                     else if !writable then Rejected(Internal)
                     else
                       Admitted(o.(phase := Provisioning, op := Provision, target := Some(Blue),
                                   targetVersion := Some(version), pkg := pkg,
                                   matomo := if matomo.Some? then matomo.value else o.matomo,
                                   lastError := NoFailure), 0)
      ensures services == if r.Admitted? then old(services)[id := r.record] else old(services)
      ensures !writable ==> !r.Admitted?
      ensures Snapshot() == Left(old(Snapshot()), id, AskProvision(hosts, ip, version, pkg, matomo, dns), r.Admitted?)
      ensures r.Admitted? <==>
              After(old(Snapshot()), id, AskProvision(hosts, ip, version, pkg, matomo, dns)).Some? && writable
    {
      var service: Record;
      if id in services {
        service := services[id];
        if service.hosts != hosts || service.ip != ip || service.version != version {
          return Rejected(Conflicting);
        }
        if service.phase == Running {
          return Nothing(service);
        }
        if Busy(service.phase) || (service.phase == Failed && service.op != Provision) {
          return Rejected(Conflicting);
        }
        service := service.(pkg := pkg);
        service := service.(phase := Provisioning, op := Provision,
                            target := Some(Blue), targetVersion := Some(version));
        if matomo.Some? {
          service := service.(matomo := matomo.value);
        }
        service := service.(lastError := NoFailure);
      } else {
        service := Record(Active, Provisioning, Provision, Blue, Some(Blue), version, Some(version), hosts, None,
                          ip, None, pkg, None, 0, NoFailure, dns);
        if matomo.Some? {
          service := service.(matomo := matomo.value);
        }
      }
      var ok := Put(id, service, writable);
      return if ok then Admitted(service, 0) else Rejected(Internal);
    }

    method AdmitResume(id: string, pkg: Package, matomo: Option<nat>, writable: bool) returns (r: Admission)
      requires Valid()
      modifies `services, `healthAttempts, `healthSequence
      ensures Valid()
      ensures r.Admitted? <==>
              && id in old(services) && writable
              && (old(services)[id].state == Suspended || old(services)[id].state == Terminated)
              && (old(services)[id].phase == Running || old(services)[id].phase == Stopped
                  || old(services)[id].phase == Failed)
      ensures r.Nothing? <==>
              id in old(services) && old(services)[id].state == Active && old(services)[id].phase == Running
      ensures r.Admitted? ==>
                var o := old(services)[id];
                && r.attempt == old(healthSequence) + 1
                && r.record == o.(phase := Starting, op := Resume,
                                  target := Some(if o.live == Blue then Green else Blue),
                                  targetVersion := Some(o.version), targetHosts := None,
                                  targetPkg := if pkg.None? then o.pkg else pkg,
                                  matomo := if matomo.Some? then matomo.value else o.matomo)
      ensures r.Admitted? ==>
              services == old(services)[id := r.record] && healthAttempts == old(healthAttempts)[id := r.attempt]
      ensures !r.Admitted? ==> services == old(services) && healthAttempts == old(healthAttempts)
      ensures Snapshot() == Left(old(Snapshot()), id, AskResume(pkg, matomo), r.Admitted?)
      ensures r.Admitted? <==> After(old(Snapshot()), id, AskResume(pkg, matomo)).Some? && writable
    {
      if id !in services {
        return Rejected(NotFound);
      }
      var service := services[id];
      if service.state == Active && service.phase == Running {
        return Nothing(service);
      }
      if service.state == Active || Busy(service.phase) {
        return Rejected(Conflicting);
      }
      var packageValues := pkg;
      if packageValues.None? {
        packageValues := service.pkg;
      }
      if matomo.Some? {
        service := service.(matomo := matomo.value);
      }
      var target := Opposite(service.live);
      service := service.(phase := Starting, op := Resume,
                          target := Some(target), targetVersion := Some(service.version));
      service := service.(targetHosts := None);
      service := service.(targetPkg := packageValues);
      var ok := Put(id, service, writable);
      if !ok {
        return Rejected(Internal);
      }
      var attempt := NextHealthAttempt(id);
      return Admitted(service, attempt);
    }

    /** A first start or a resume that waits for health or has failed: an upgrade takes its place. */
    static predicate Replaces(o: Record) {
      (o.phase == WaitingForHealth || o.phase == Failed) && (o.op == Provision || o.op == Resume)
    }

    /** The version runs already, and nothing asks for another start. */
    static predicate Upgraded(o: Record, q: UpgradeQuery) {
      && o.state == Active && (o.phase == Running || o.phase == Stopped) && q.version == o.version
      && !q.force && (q.matomo == None || q.matomo == Some(o.matomo))
    }

    /** An active service at rest, waiting, or with its upgrade failed; and no silent downgrade. */
    static predicate MayUpgrade(o: Record, q: UpgradeQuery) {
      && !Upgraded(o, q)
      && (Replaces(o)
          || (o.state == Active
              && (o.phase == Running || o.phase == Stopped || o.phase == WaitingForHealth
                  || (o.phase == Failed && o.op == Upgrade))))
      && (q.confirmDowngrade
          || (Versions.Compare(q.version, o.version).1 && Versions.Compare(q.version, o.version).0 >= 0))
    }

    /** What is persisted: the request's values, or else those that a replaced attempt was about to commit. */
    static function Pending(before: Record, query: UpgradeQuery): Record {
      var taken := Replaces(before);
      var pending := before.phase == WaitingForHealth || taken;
      var other := if before.live == Blue then Green else Blue;
      before.(
        phase := Starting,
        op := if taken then before.op else Upgrade,
        target := Some(if taken && before.op == Provision then before.live else other),
        targetVersion := Some(query.version),
        targetHosts := if query.hosts.Some? then query.hosts else if pending then before.targetHosts else None,
        targetIp := if query.ip.Some? then query.ip else if pending then before.targetIp else None,
        targetPkg := if query.pkg.Some? then query.pkg
                     else if pending && before.targetPkg.Some? then before.targetPkg else before.pkg,
        matomo := if query.matomo.Some? then query.matomo.value else before.matomo)
    }

    static lemma PendingIsSpecified(before: Record, query: UpgradeQuery)
      ensures UpgradeRecord(before, query) == Pending(before, query)
    {
    }

    static lemma UpgradesAreSpecified(o: Record, q: UpgradeQuery)
      ensures ValidateUpgrade(o, q) == NothingToDo <==> Upgraded(o, q)
      ensures ValidateUpgrade(o, q) == Proceed <==> MayUpgrade(o, q)
    {
    }

    /** The second locked section of upgrade. */
    method AdmitUpgrade(id: string, query: UpgradeQuery, writable: bool) returns (r: Admission)
      requires Valid()
      modifies `services, `healthAttempts, `healthSequence
      ensures Valid()
      ensures r.Admitted? <==> id in old(services) && MayUpgrade(old(services)[id], query) && writable
      ensures r.Nothing? <==> id in old(services) && Upgraded(old(services)[id], query)
      ensures r.Admitted? ==>
                && r.attempt == old(healthSequence) + 1 && r.record.phase == Starting
                && r.record.targetVersion == Some(query.version)
                && r.record == Pending(old(services)[id], query)
      ensures r.Admitted? ==>
              services == old(services)[id := r.record] && healthAttempts == old(healthAttempts)[id := r.attempt]
      ensures !r.Admitted? ==> services == old(services) && healthAttempts == old(healthAttempts)
      ensures Snapshot() == Left(old(Snapshot()), id, AskUpgrade(query), r.Admitted?)
      ensures r.Admitted? <==> After(old(Snapshot()), id, AskUpgrade(query)).Some? && writable
    {
      if id !in services {
        return Rejected(NotFound);
      }
      var service := services[id];
      UpgradesAreSpecified(service, query);
      PendingIsSpecified(service, query);
      match ValidateUpgrade(service, query) {
        case NothingToDo => return Nothing(service);
        case Refused => return Rejected(Conflicting);
        case Proceed =>
      }
      service := Retargeted(service, query);
      var ok := Put(id, service, writable);
      if !ok {
        return Rejected(Internal);
      }
      var attempt := NextHealthAttempt(id);
      return Admitted(service, attempt);
    }

    /** The record of an admitted upgrade; a pending attempt hands on what the request leaves open. */
    static method Retargeted(before: Record, query: UpgradeQuery) returns (service: Record)
      ensures service == UpgradeRecord(before, query)
      ensures service == Pending(before, query)
    {
      PendingIsSpecified(before, query);
      service := before;
      var hosts, ip, pkg := query.hosts, query.ip, query.pkg;
      if pkg.None? {
        pkg := service.pkg;
        if service.targetPkg.Some? && (service.phase == WaitingForHealth || ReplaceableActivation(service)) {
          pkg := service.targetPkg;
        }
      }
      if service.phase == WaitingForHealth || ReplaceableActivation(service) {
        if hosts.None? {
          hosts := service.targetHosts;
        }
        if ip.None? {
          ip := service.targetIp;
        }
      }
      var operation, target := Upgrade, Opposite(service.live);
      if ReplaceableActivation(service) {
        operation := service.op;
        if operation == Provision {
          target := service.live;
        }
      }
      service := service.(phase := Starting, op := operation,
                          target := Some(target), targetVersion := Some(query.version));
      service := service.(targetHosts := hosts);
      service := service.(targetIp := ip);
      service := service.(targetPkg := pkg);
      if query.matomo.Some? {
        service := service.(matomo := query.matomo.value);
      }
    }

    /** The first locked section of changeState: from here on no health result of this service counts. */
    method AdmitStop(id: string, to: State, writable: bool) returns (r: Admission)
      requires Valid() && to != Active
      modifies `services, `healthAttempts
      ensures Valid()
      ensures r.Admitted? <==>
              && id in old(services) && writable
              && var o := old(services)[id];
                 && (o.phase == Running || o.phase == Failed || o.phase == WaitingForHealth
                     || (o.phase == Stopped && o.state != to))
                 && (to == Suspended ==>
                       o.state == Active || o.state == Suspended || (o.op == Resume && o.phase == WaitingForHealth))
      ensures r.Admitted? ==>
                && r.attempt == 0
                && r.record == old(services)[id].(phase := Stopping, targetHosts := None,
                                                  op := if to == Suspended then Suspend else Terminate)
      ensures r.Admitted? ==> services == old(services)[id := r.record] && healthAttempts == old(healthAttempts) - {id}
      ensures !r.Admitted? ==> services == old(services) && healthAttempts == old(healthAttempts)
      ensures r.Nothing? <==> id in old(services) && old(services)[id].state == to && old(services)[id].phase == Stopped
      ensures Snapshot() == Left(old(Snapshot()), id, AskStop(to), r.Admitted?)
      ensures r.Admitted? <==> After(old(Snapshot()), id, AskStop(to)).Some? && writable
    {
      if id !in services {
        return Rejected(NotFound);
      }
      var service := services[id];
      if service.state == to && service.phase == Stopped {
        return Nothing(service);
      }
      if Busy(service.phase) && service.phase != WaitingForHealth {
        return Rejected(Conflicting);
      }
      if to == Suspended {
        if service.state == Terminated && !(service.op == Resume && service.phase == WaitingForHealth) {
          return Rejected(Conflicting);
        }
      }
      service := service.(phase := Stopping, op := if to == Suspended then Suspend else Terminate);
      service := service.(targetHosts := None);
      var ok := Put(id, service, writable);
      if !ok {
        return Rejected(Internal);
      }
      healthAttempts := healthAttempts - {id};
      return Admitted(service, 0);
    }

    /** The first locked section of Delete. */
    method AdmitDelete(id: string, writable: bool) returns (r: Removal)
      requires Valid()
      modifies `services, `tombstones
      ensures Valid()
      ensures id !in old(tombstones) ==>
                && tombstones == old(tombstones) && !r.Retrying? && !r.Gone?
                && (r.Removing? <==>
                      && id in old(services) && old(services)[id].state == Terminated && writable
                      && (old(services)[id].phase == Running || old(services)[id].phase == Stopped
                          || old(services)[id].phase == Failed))
                && (r.Removing? ==> r.record == old(services)[id].(phase := Deleting, op := Delete))
                && services == if r.Removing? then old(services)[id := r.record] else old(services)
      ensures id in old(tombstones) ==>
                && (r.Gone? <==> old(tombstones)[id] == TombDeleted && writable)
                && (r.Retrying? <==> old(tombstones)[id] == TombFailed && writable)
                && services == (if r.Gone? then old(services) - {id} else old(services))
                && tombstones == (if r.Retrying? then old(tombstones)[id := TombDeleting] else old(tombstones))
      ensures Snapshot() == Left(old(Snapshot()), id, AskDelete, !r.NotRemoved?)
      ensures !r.NotRemoved? <==> After(old(Snapshot()), id, AskDelete).Some? && writable
    {
      if id in tombstones {
        if tombstones[id] == TombDeleted {
          if !writable {
            return NotRemoved(Internal);
          }
          services := services - {id};
          return Gone;
        }
        if tombstones[id] == TombDeleting {
          return NotRemoved(Conflicting);
        }
        if !writable {
          return NotRemoved(Internal);
        }
        tombstones := tombstones[id := TombDeleting];
        return Retrying;
      }
      if id !in services {
        return NotRemoved(NotFound);
      }
      var service := services[id];
      if service.state != Terminated || Busy(service.phase) {
        return NotRemoved(Conflicting);
      }
      service := service.(phase := Deleting, op := Delete);
      var ok := Put(id, service, writable);
      return if ok then Removing(service) else NotRemoved(Internal);
    }

    /**
      The last locked section of Delete: the tombstone is stored before the record goes,
      so at no point is the service known as neither.
     */
    method Bury(id: string, buriable: bool, erasable: bool) returns (ok: bool)
      modifies `services, `tombstones
      ensures Snapshot() == Left(Left(old(Snapshot()), id, Entomb, buriable), id, EraseRecord, ok)
      ensures ok <==> buriable && erasable
      ensures tombstones == if buriable then old(tombstones)[id := TombDeleting] else old(tombstones)
      ensures services == if ok then old(services) - {id} else old(services)
      ensures id in old(services) || id in old(tombstones) ==> id in services || id in tombstones
    {
      if !buriable {
        return false;
      }
      tombstones := tombstones[id := TombDeleting];
      if !erasable {
        return false;
      }
      services := services - {id};
      return true;
    }

    // ----------------------------------------------------------------- reconciliation

    /** The section of reconcile for a suspended service whose Matomo ID changed. */
    method SaveMatomo(id: string, matomo: nat, writable: bool) returns (ok: bool)
      modifies `services
      ensures ok <==>
              && id in old(services) && old(services)[id].state == Suspended && old(services)[id].phase == Stopped
              && writable
      ensures services == if ok then old(services)[id := old(services)[id].(matomo := matomo)] else old(services)
      ensures Snapshot() == Left(old(Snapshot()), id, AskMatomo(matomo), ok)
    {
      if id !in services {
        return false;
      }
      var service := services[id];
      if service.state != Suspended || service.phase != Stopped {
        return false;
      }
      service := service.(matomo := matomo);
      ok := Put(id, service, writable);
    }

    /** The section of reconcile that rewrites a terminated service before it is resumed. */
    method Redeploy(
      id: string, hosts: Hosts, ip: string, version: string, pkg: Package, matomo: Option<nat>, writable: bool)
      returns (ok: bool)
      modifies `services
      ensures ok <==>
              && id in old(services) && old(services)[id].state == Terminated && old(services)[id].phase == Stopped
              && writable
      ensures !ok ==> services == old(services)
      ensures ok ==>
                var o := old(services)[id];
                services == old(services)[id := o.(hosts := hosts, ip := ip, version := version, pkg := pkg,
                                                   matomo := if matomo.Some? then matomo.value else o.matomo)]
      ensures Snapshot() == Left(old(Snapshot()), id, AskRedeploy(hosts, ip, version, pkg, matomo), ok)
    {
      if id !in services {
        return false;
      }
      var service := services[id];
      if service.state != Terminated || service.phase != Stopped {
        return false;
      }
      if matomo.Some? {
        service := service.(matomo := matomo.value);
      }
      service := service.(hosts := hosts, ip := ip);
      service := service.(version := version, pkg := pkg);
      ok := Put(id, service, writable);
    }

    // ------------------------------------------------------------------ host names

    /** Nothing that matters for the host names changed between the two sections of deployDomains. */
    static predicate Unmoved(seen: Record, service: Record) {
      && service.state == seen.state && service.phase == seen.phase && service.live == seen.live
      && service.hosts == seen.hosts && service.ip == seen.ip
    }

    /**
      The last locked section of deployDomains: Caddy first, then the store, and Caddy
      again if the store refused.  `seen` is the record its first section read.
     */
    method DeployDomains(id: string, seen: Record, hosts: Hosts, ip: string, dns: string,
                         routable: bool, writable: bool, reversible: bool) returns (r: HostsResult)
      modifies `services, `routes
      ensures r.HostsRejected? <==>
              !(&& id in old(services)
                && ((seen.state == Suspended && seen.phase == Stopped)
                    || (seen.state == Active && seen.phase == Running))
                && var o := old(services)[id];
                   && o.state == seen.state && o.phase == seen.phase && o.live == seen.live
                   && o.hosts == seen.hosts && o.ip == seen.ip)
      ensures r.RouteFailed? <==> !r.HostsRejected? && !routable && old(services)[id].hosts != hosts
      ensures r.Deployed? <==> !r.HostsRejected? && !r.RouteFailed? && writable
      ensures r.Deployed? ==>
                var o := old(services)[id];
                && services == old(services)[id := o.(hosts := hosts, ip := ip, dns := dns)]
                && routes == if o.hosts == hosts then old(routes)
                             else old(routes)[id := if o.state == Suspended then Page(hosts) else Proxy(o.live, hosts)]
      ensures !r.Deployed? ==> services == old(services)
      ensures Snapshot() == Left(old(Snapshot()), id, AskHosts(hosts, ip, dns), r.Deployed?)
      ensures r.HostsRejected? || r.RouteFailed? ==> routes == old(routes)
      ensures r.StoreFailed? ==>
                var o := old(services)[id];
                routes == if o.hosts == hosts then old(routes)
                          else old(routes)[id := if o.state == Suspended then Page(o.hosts) else Proxy(o.live, o.hosts)]
      ensures r.RollbackFailed? ==>
                var o := old(services)[id];
                && o.hosts != hosts
                && routes == old(routes)[id := if o.state == Suspended then Page(hosts) else Proxy(o.live, hosts)]
    {
      if !MayChangeHosts(seen) || id !in services {
        return HostsRejected(if id in services then Conflicting else NotFound);
      }
      var service := services[id];
      if !Unmoved(seen, service) {
        return HostsRejected(Conflicting);
      }
      var oldHosts := service.hosts;
      if service.hosts != hosts {
        if !routable {
          return RouteFailed;
        }
        routes := routes[id := HostsRoute(service, hosts)];
      }
      service := service.(hosts := hosts, ip := ip);
      service := service.(dns := dns);
      var ok := Put(id, service, writable);
      if !ok {
        if oldHosts != hosts {
          if !reversible {
            return RollbackFailed;
          }
          routes := routes[id := HostsRoute(service, oldHosts)];
        }
        return StoreFailed;
      }
      return Deployed(service);
    }

    // ----------------------------------------------------------- results of goroutines

    /** The locked section in which finishHealth takes its verdict. */
    method JudgeHealth(id: string, op: Operation, attempt: nat, healthy: bool, dns: string, writable: bool)
      returns (v: Verdict)
      requires Valid()
      modifies `services, `healthAttempts
      ensures Valid()
      ensures
        var current := id in old(healthAttempts) && old(healthAttempts)[id] == attempt;
        && healthAttempts == (if current then old(healthAttempts) - {id} else old(healthAttempts))
        && (v.Dropped? <==> !current || id !in old(services) || old(services)[id].op != op
                            || old(services)[id].phase != WaitingForHealth)
      ensures !v.Dropped? ==>
                var o := old(services)[id];
                v == if !writable then Lost
                     else if healthy then Proceeding(o.(phase := Routing, dns := dns))
                     else Unhealthy(o.(phase := Failed, lastError := HealthFailure))
      ensures services == if v.Unhealthy? || v.Proceeding? then old(services)[id := v.record] else old(services)
      ensures Snapshot() == After(old(Snapshot()), id, GiveVerdict(op, attempt, healthy, writable, dns)).value
    {
      var current := id in healthAttempts && healthAttempts[id] == attempt;
      if current {
        healthAttempts := healthAttempts - {id};
      }
      if id !in services || !current || services[id].op != op || services[id].phase != WaitingForHealth {
        return Dropped;
      }
      var service := services[id];
      if !healthy {
        service := service.(phase := Failed, lastError := HealthFailure);
        var ok := Put(id, service, writable);
        return if ok then Unhealthy(service) else Lost;
      }
      service := service.(phase := Routing);
      service := service.(dns := dns);
      var ok := Put(id, service, writable);
      return if ok then Proceeding(service) else Lost;
    }

    /** The end of Provision: the record waits for health, and its attempt is issued in the same section. */
    method AwaitHealth(id: string, copy: Record, writable: bool) returns (attempt: Option<nat>)
      requires Valid()
      modifies `services, `healthAttempts, `healthSequence
      ensures Valid()
      ensures Snapshot() == Left(old(Snapshot()), id, PutAndIssue(WaitingRecord(copy)), writable)
      ensures attempt == if writable then Some(old(healthSequence) + 1) else None
      ensures writable ==>
                && services == old(services)[id := copy.(phase := WaitingForHealth)]
                && healthAttempts == old(healthAttempts)[id := old(healthSequence) + 1]
      ensures !writable ==> services == old(services) && healthAttempts == old(healthAttempts)
    {
      var service := copy.(phase := WaitingForHealth);
      var ok := Put(id, service, writable);
      if !ok {
        return None;
      }
      var issued := NextHealthAttempt(id);
      return Some(issued);
    }

    /** deferredService: the record that finishRouting goes on with, if it is still in this operation. */
    method Deferred(id: string, op: Operation) returns (service: Option<Record>)
      ensures service ==
              if id in services && services[id].op == op && services[id].phase != Running
                 && services[id].phase != Stopped && services[id].phase != Failed
              then Some(services[id]) else None
    {
      if id !in services {
        return None;
      }
      var record := services[id];
      return if record.op == op && Busy(record.phase) then Some(record) else None;
    }

    /** finishDelete: the route goes, and the tombstone says whether that worked. */
    method FinishDelete(id: string, removed: bool, writable: bool) returns (ok: bool)
      modifies `tombstones, `routes
      ensures ok <==> removed && writable
      ensures routes == if removed then old(routes) - {id} else old(routes)
      ensures tombstones == if !writable then old(tombstones)
                            else old(tombstones)[id := if removed then TombDeleted else TombFailed]
      ensures Snapshot() ==
              Left(old(Snapshot()), id, MarkTombstone(if removed then TombDeleted else TombFailed), writable)
    {
      if !removed {
        var _ := PutTombstone(id, TombFailed, writable);
        return false;
      }
      routes := routes - {id};
      ok := PutTombstone(id, TombDeleted, writable);
    }

    /** putTombstoneDeferred. */
    method PutTombstone(id: string, phase: TombstonePhase, writable: bool) returns (ok: bool)
      modifies `tombstones
      ensures ok <==> writable
      ensures Snapshot() == Left(old(Snapshot()), id, MarkTombstone(phase), writable)
      ensures tombstones == if writable then old(tombstones)[id := phase] else old(tombstones)
    {
      if writable {
        tombstones := tombstones[id := phase];
      }
      return writable;
    }

    /** The end of syncDNS: a status is written for the domain and address it is about, an error only over pending. */
    method PutDnsStatus(id: string, main: string, ip: string, failed: bool, dns: string, writable: bool)
      returns (ok: bool)
      modifies `services
      ensures ok <==> id in old(services) && old(services)[id].hosts.main == main && old(services)[id].ip == ip
                      && (failed ==> old(services)[id].dns == "pending") && writable
      ensures Snapshot() == Left(old(Snapshot()), id, PutDns(dns), ok)
      ensures services == if ok then old(services)[id := old(services)[id].(dns := dns)] else old(services)
    {
      if id !in services {
        return false;
      }
      var service := services[id];
      if service.hosts.main != main || service.ip != ip || (failed && service.dns != "pending") {
        return false;
      }
      ok := Put(id, service.(dns := dns), writable);
    }

    /** changeState, once the containers are stopped or removed: the new state is stored, the route comes last. */
    method Halt(id: string, copy: Record, writable: bool) returns (ok: bool)
      requires copy.op == Suspend || copy.op == Terminate
      modifies `services
      ensures ok <==> writable
      ensures Snapshot() == Left(old(Snapshot()), id, PutRecord(HaltedRecord(copy)), writable)
      ensures ok ==>
                services == old(services)[id := copy.(state := if copy.op == Suspend then Suspended else Terminated,
                                                      phase := Routing, lastError := NoFailure)]
      ensures !ok ==> services == old(services)
    {
      var service := copy.(state := if copy.op == Suspend then Suspended else Terminated, phase := Routing);
      service := service.(lastError := NoFailure);
      ok := Put(id, service, writable);
    }

    /** finishRouting, once the route is what it should be. */
    method Rest(id: string, copy: Record, writable: bool) returns (ok: bool)
      modifies `services
      ensures ok <==> writable
      ensures Snapshot() == Left(old(Snapshot()), id, PutRecord(StoppedRecord(copy)), writable)
      ensures ok ==>
                services == old(services)[id := copy.(phase := Stopped, op := NoOperation, target := None,
                                                      targetVersion := None, targetHosts := None, targetIp := None,
                                                      targetPkg := None, lastError := NoFailure)]
      ensures !ok ==> services == old(services)
    {
      var service := copy.(phase := Stopped, op := NoOperation, target := None, targetVersion := None);
      service := service.(targetHosts := None, targetIp := None, targetPkg := None, lastError := NoFailure);
      ok := Put(id, service, writable);
    }

    /** finishHealth of an upgrade, once the traffic is moved: the names are committed before the old slot goes. */
    method StartDrain(id: string, copy: Record, writable: bool) returns (ok: bool)
      modifies `services
      ensures ok <==> writable
      ensures Snapshot() == Left(old(Snapshot()), id, PutRecord(DrainingRecord(copy)), writable)
      ensures ok ==>
                services == old(services)[id := copy.(
                  phase := Draining,
                  hosts := if copy.targetHosts.Some? then copy.targetHosts.value else copy.hosts, targetHosts := None,
                  ip := if copy.targetIp.Some? then copy.targetIp.value else copy.ip, targetIp := None)]
      ensures !ok ==> services == old(services)
    {
      var service := copy;
      if service.targetHosts.Some? {
        service := service.(hosts := service.targetHosts.value, targetHosts := None);
      }
      if service.targetIp.Some? {
        service := service.(ip := service.targetIp.value, targetIp := None);
      }
      service := service.(phase := Draining);
      ok := Put(id, service, writable);
    }

    /** failSync: the private copy, marked failed, replaces the stored record. */
    method FailSync(id: string, copy: Record, writable: bool)
      modifies `services
      ensures Snapshot() == Left(old(Snapshot()), id, PutRecord(FailedRecord(copy, StepFailure)), writable)
      ensures services ==
              if writable then old(services)[id := copy.(phase := Failed, lastError := StepFailure)] else old(services)
    {
      var service := copy.(phase := Failed, lastError := StepFailure);
      var _ := Put(id, service, writable);
    }

    /** The record that finishHealth stores last, computed from its private copy. */
    static method GoLive(copy: Record) returns (service: Record)
      requires copy.op == Provision || copy.op == Resume || copy.op == Upgrade
      ensures service == RunningRecord(copy)
      ensures service.phase == Running && service.op == NoOperation && service.lastError == NoFailure
      ensures service.state == (if copy.op == Upgrade then copy.state else Active)
      ensures copy.target.Some? ==> service.live == copy.target.value
      ensures copy.targetVersion.Some? ==> service.version == copy.targetVersion.value
      ensures service.hosts == if copy.targetHosts.Some? then copy.targetHosts.value else copy.hosts
      ensures service.ip == if copy.targetIp.Some? then copy.targetIp.value else copy.ip
      ensures service.pkg == if copy.op == Upgrade || copy.targetPkg.Some? then copy.targetPkg else copy.pkg
      ensures service.matomo == copy.matomo && service.dns == copy.dns
      ensures service.target.None? && service.targetVersion.None?
      ensures service.targetHosts.None? && service.targetIp.None? && service.targetPkg.None?
    {
      service := copy;
      var target := Target(service);
      if service.targetHosts.Some? {
        service := service.(hosts := service.targetHosts.value, targetHosts := None);
      }
      if service.targetIp.Some? {
        service := service.(ip := service.targetIp.value, targetIp := None);
      }
      if service.op == Upgrade {
        service := service.(live := target, version := TargetVersion(service), pkg := service.targetPkg);
      } else {
        service := service.(state := Active, live := target);
        if service.targetVersion.Some? {
          service := service.(version := service.targetVersion.value);
        }
        if service.targetPkg.Some? {
          service := service.(pkg := service.targetPkg);
        }
      }
      service := service.(phase := Running, op := NoOperation,
                          target := None, targetVersion := None, targetHosts := None,
                          targetIp := None, targetPkg := None, lastError := NoFailure);
    }

    // ----------------------------------------------------------------------- restart

    /**
      RecoverInterrupted.  A store error may stop it halfway; without one nothing is
      left in progress.
     */
    method RecoverInterrupted() returns (ok: bool)
      modifies `services, `tombstones
      ensures services.Keys == old(services).Keys && tombstones.Keys == old(tombstones).Keys
      ensures forall id :: id in services ==>
                services[id] == old(services)[id] || services[id] == RecoveredRecord(old(services)[id])
      ensures forall id :: id in tombstones ==>
                tombstones[id] == old(tombstones)[id] || tombstones[id] == RecoveredPhase(old(tombstones)[id])
      ensures ok ==>
              services == Recovered(old(Snapshot())).services && tombstones == Recovered(old(Snapshot())).tombstones
      ensures ok ==> forall id :: id in services ==>
                var o := old(services)[id];
                services[id] == if o.phase == Running || o.phase == Stopped || o.phase == Failed then o
                                else o.(phase := Failed, lastError := RestartFailure)
      ensures ok ==> forall id :: id in tombstones ==>
                tombstones[id] == if old(tombstones)[id] == TombDeleting then TombFailed else old(tombstones)[id]
    {
      ok := RecoverServices();
      if ok {
        ok := RecoverTombstones();
      }
    }

    method RecoverServices() returns (ok: bool)
      modifies `services
      ensures services.Keys == old(services).Keys
      ensures forall id :: id in services ==>
                services[id] == old(services)[id] || services[id] == RecoveredRecord(old(services)[id])
      ensures ok ==> forall id :: id in services ==> services[id] == RecoveredRecord(old(services)[id])
    {
      var left := services.Keys;
      while left != {}
        invariant services.Keys == old(services).Keys && left <= services.Keys
        invariant forall id :: id in services ==>
                    services[id] == (if id in left then old(services)[id] else RecoveredRecord(old(services)[id]))
        decreases left
      {
        var id :| id in left;
        var service := services[id];
        if Busy(service.phase) {
          service := service.(phase := Failed, lastError := RestartFailure);
          var writable: bool := *;
          var stored := Put(id, service, writable);
          if !stored {
            return false;
          }
        }
        left := left - {id};
      }
      return true;
    }

    method RecoverTombstones() returns (ok: bool)
      modifies `tombstones
      ensures tombstones.Keys == old(tombstones).Keys
      ensures forall id :: id in tombstones ==>
                tombstones[id] == old(tombstones)[id] || tombstones[id] == RecoveredPhase(old(tombstones)[id])
      ensures ok ==> forall id :: id in tombstones ==> tombstones[id] == RecoveredPhase(old(tombstones)[id])
    {
      var left := tombstones.Keys;
      while left != {}
        invariant tombstones.Keys == old(tombstones).Keys && left <= tombstones.Keys
        invariant forall id :: id in tombstones ==>
                    tombstones[id] == if id in left then old(tombstones)[id] else RecoveredPhase(old(tombstones)[id])
        decreases left
      {
        var id :| id in left;
        if tombstones[id] == TombDeleting {
          var writable: bool := *;
          if !writable {
            return false;
          }
          tombstones := tombstones[id := TombFailed];
        }
        left := left - {id};
      }
      return true;
    }
  }
}
