/**
  The durable bulk upgrade queue as the controller runs it: one persisted job that
  submissions merge into, a worker that lets go of the lock during each upgrade, and a
  wake channel that is closed and replaced (go-service/internal/service/manager.go).
 */
module BulkQueue {
  import opened Prelude
  import opened BulkJobs
  import Lifecycle
  import MatomoIds
  import Versions

  // ------------------------------------------------------------- admitting a request

  datatype SubmitError = BadRequest | Unavailable | UnknownVersion | UnknownService | Conflict | Internal

  datatype Result<T> = Ok(value: T) | Err(error: SubmitError)

  predicate ValidVersion(version: string) {
    version != "" && forall c :: c in version ==> c !in "@/ \t\r\n"
  }

  /** whmcs- and a decimal number without leading zeros. */
  predicate ValidServiceId(id: string) {
    |id| > 6 && id[..6] == "whmcs-" && '1' <= id[6] <= '9' && Versions.AllDigits(id[6..])
  }

  /** In other words: whmcs- and a positive number, written without leading zeros. */
  lemma ServiceIdsAreNumbered(id: string)
    ensures ValidServiceId(id) <==> exists n: nat :: n > 0 && id == "whmcs-" + MatomoIds.Decimal(n)
  {
    if ValidServiceId(id) {
      MatomoIds.CanonicalRoundTrip(id[6..]);
      var n := Versions.Value(id[6..]);
      assert id == id[..6] + id[6..] == "whmcs-" + MatomoIds.Decimal(n);
    }
    forall n: nat | n > 0 && id == "whmcs-" + MatomoIds.Decimal(n) ensures ValidServiceId(id) {
      MatomoIds.DecimalRoundTrip(n);
      assert id[..6] == "whmcs-" && id[6..] == MatomoIds.Decimal(n);
    }
  }

  predicate Upgradable(req: Request, service: Service) {
    && service.state == Lifecycle.Active
    && (req.confirmDowngrade
        || (var (sign, ordered) := Versions.Compare(req.version, service.version); ordered && sign >= 0))
  }

  /** The objection to one service of a request, if there is one. */
  function ObjectionTo(req: Request, services: map<string, Service>, id: string, seen: bool): Option<SubmitError> {
    if !ValidServiceId(id) || seen then Some(BadRequest)
    else if id !in services then Some(UnknownService)
    else if !Upgradable(req, services[id]) then Some(Conflict)
    else None
  }

  function Objection(req: Request, services: map<string, Service>, n: nat): Option<SubmitError>
    requires n < |req.services|
  {
    ObjectionTo(req, services, req.services[n], req.services[n] in req.services[..n])
  }

  function Objections(req: Request, services: map<string, Service>): (r: seq<Option<SubmitError>>)
    ensures |r| == |req.services| && forall n :: 0 <= n < |r| ==> r[n] == Objection(req, services, n)
  {
    seq(|req.services|, n requires 0 <= n < |req.services| => Objection(req, services, n))
  }

  function FirstOf(objections: seq<Option<SubmitError>>): Option<SubmitError> {
    if objections == [] then None
    else if objections[0].Some? then objections[0]
    else FirstOf(objections[1..])
  }

  /** The error reported for a request before the job is loaded, if any. */
  function Refusal(req: Request, available: Option<bool>, services: map<string, Service>): Option<SubmitError> {
    if !ValidVersion(req.version) || req.services == [] then Some(BadRequest)
    else if available.None? then Some(Unavailable)
    else if !available.value then Some(UnknownVersion)
    else FirstOf(Objections(req, services))
  }

  lemma {:induction false} FirstOfIsFirst(objections: seq<Option<SubmitError>>, n: nat)
    requires n <= |objections| && forall i :: 0 <= i < n ==> objections[i].None?
    ensures FirstOf(objections) == if n == |objections| then None else FirstOf(objections[n..])
    ensures n < |objections| && objections[n].Some? ==> FirstOf(objections) == objections[n]
  {
    if n > 0 {
      FirstOfIsFirst(objections[1..], n - 1);
      assert objections[1..][n - 1..] == objections[n..];
    } else {
      assert objections[0..] == objections;
    }
  }

  lemma {:induction false} NothingSpeaksAgainst(objections: seq<Option<SubmitError>>)
    ensures FirstOf(objections).None? <==> forall i :: 0 <= i < |objections| ==> objections[i].None?
  {
    if objections != [] && objections[0].None? {
      NothingSpeaksAgainst(objections[1..]);
      assert forall i :: 1 <= i < |objections| ==> objections[i] == objections[1..][i - 1];
    }
  }

  /** A live and active service; its version is not newer, unless a downgrade is confirmed. */
  ghost predicate Takes(req: Request, services: map<string, Service>, id: string) {
    && id in services && services[id].state == Lifecycle.Active
    && (req.confirmDowngrade
        || (Versions.Compare(req.version, services[id].version).1
            && Versions.Compare(req.version, services[id].version).0 >= 0))
  }

  /** The n-th service has an ID, was not named before, and can be taken. */
  ghost predicate Sound(req: Request, services: map<string, Service>, n: nat)
    requires n < |req.services|
  {
    && ValidServiceId(req.services[n]) && Takes(req, services, req.services[n])
    && forall i :: 0 <= i < n ==> req.services[i] != req.services[n]
  }

  /** What is wrong with the n-th service, in the order of the checks. */
  ghost function Fault(req: Request, services: map<string, Service>, n: nat): SubmitError
    requires n < |req.services|
  {
    var id := req.services[n];
    if !ValidServiceId(id) || (exists i :: 0 <= i < n && req.services[i] == id) then BadRequest
    else if id !in services then UnknownService
    else Conflict
  }

  ghost predicate FirstFault(req: Request, services: map<string, Service>, n: nat)
    requires n < |req.services|
  {
    !Sound(req, services, n) && forall i :: 0 <= i < n ==> Sound(req, services, i)
  }

  ghost predicate PlainVersion(version: string) {
    && version != ""
    && forall c :: c in version ==> c != '@' && c != '/' && c != ' ' && c != '\t' && c != '\r' && c != '\n'
  }

  lemma ValidVersionsArePlain(version: string)
    ensures ValidVersion(version) <==> PlainVersion(version)
  {
    assert forall c :: c in "@/ \t\r\n" <==>
        c == '@' || c == '/' || c == ' ' || c == '\t' || c == '\r' || c == '\n';
  }

  /** A valid image that is there, and distinct, known, active services that would not be downgraded silently. */
  ghost predicate Admissible(req: Request, available: Option<bool>, services: map<string, Service>) {
    && PlainVersion(req.version) && req.services != [] && available == Some(true)
    && forall n :: 0 <= n < |req.services| ==> Sound(req, services, n)
  }

  lemma ObjectionIff(req: Request, services: map<string, Service>, n: nat)
    requires n < |req.services|
    ensures Objection(req, services, n).None? <==> Sound(req, services, n)
    ensures Objection(req, services, n).Some? ==> Objection(req, services, n).value == Fault(req, services, n)
  {
    assert req.services[n] in req.services[..n] <==> exists i :: 0 <= i < n && req.services[..n][i] == req.services[n];
    assert forall i :: 0 <= i < n ==> req.services[..n][i] == req.services[i];
  }

  lemma ObjectionsAreFaults(req: Request, services: map<string, Service>, n: nat)
    requires n < |req.services| && Objection(req, services, n).Some?
    requires forall i :: 0 <= i < n ==> Objection(req, services, i).None?
    ensures FirstFault(req, services, n) && Objection(req, services, n) == Some(Fault(req, services, n))
  {
    forall i | 0 <= i <= n ensures Objection(req, services, i).None? <==> Sound(req, services, i) {
      ObjectionIff(req, services, i);
    }
    ObjectionIff(req, services, n);
  }

  lemma {:induction false} TheFirstIsOne(objections: seq<Option<SubmitError>>)
    ensures FirstOf(objections).Some? ==>
              exists n :: 0 <= n < |objections| && objections[n] == FirstOf(objections)
                          && forall i :: 0 <= i < n ==> objections[i].None?
  {
    if objections != [] && objections[0].None? && FirstOf(objections).Some? {
      TheFirstIsOne(objections[1..]);
      var n :| 0 <= n < |objections| - 1 && objections[1..][n] == FirstOf(objections)
               && forall i :: 0 <= i < n ==> objections[1..][i].None?;
      assert objections[n + 1] == FirstOf(objections);
      assert forall i :: 1 <= i < n + 1 ==> objections[i] == objections[1..][i - 1];
    }
  }

  /** What is reported is the fault of the first service that cannot be taken. */
  lemma RefusalsAreFaults(req: Request, services: map<string, Service>)
    ensures
      var refusal := FirstOf(Objections(req, services));
      refusal.Some? ==>
        exists n :: 0 <= n < |req.services| && FirstFault(req, services, n) && refusal.value == Fault(req, services, n)
  {
    var objections := Objections(req, services);
    if FirstOf(objections).Some? {
      TheFirstIsOne(objections);
      var n :| 0 <= n < |objections| && objections[n] == FirstOf(objections)
               && forall i :: 0 <= i < n ==> objections[i].None?;
      ObjectionsAreFaults(req, services, n);
    }
  }

  /** Each error says what is wrong, in the order of the checks. */
  lemma RefusalsTellWhy(req: Request, available: Option<bool>, services: map<string, Service>)
    ensures
      var why, asked := Refusal(req, available, services), PlainVersion(req.version) && req.services != [];
      && (!asked ==> why == Some(BadRequest))
      && (asked && available == None ==> why == Some(Unavailable))
      && (asked && available == Some(false) ==> why == Some(UnknownVersion))
      && (asked && available == Some(true) && why.Some? ==>
            exists n :: 0 <= n < |req.services| && FirstFault(req, services, n) && why.value == Fault(req, services, n))
  {
    ValidVersionsArePlain(req.version);
    RefusalsAreFaults(req, services);
  }

  /** The checks, made one service after the other, admit exactly the admissible requests. */
  lemma AdmittedIffAdmissible(req: Request, available: Option<bool>, services: map<string, Service>)
    ensures Refusal(req, available, services).None? <==> Admissible(req, available, services)
  {
    ValidVersionsArePlain(req.version);
    NothingSpeaksAgainst(Objections(req, services));
    forall n | 0 <= n < |req.services|
      ensures Objections(req, services)[n].None? <==> Sound(req, services, n)
    {
      ObjectionIff(req, services, n);
    }
  }

  /** The job after a submission: merged into a running one, or else new, with the request's items alone. */
  ghost predicate Taken(before: Option<Job>, after: Job, req: Request) {
    && after.status == JobRunning
    && (if before.Some? && before.value.status == JobRunning then
          && after.id == before.value.id && after.failures == before.value.failures
          && Extends(before.value.items, after.items, req.services, req)
        else
          && after.id == req.id && after.failures == 0 && |after.items| == |req.services|
          && forall i :: 0 <= i < |req.services| ==>
               after.items[i] == Item(req.services[i], req.version, req.confirmDowngrade, Queued, ""))
    && (forall service :: service in req.services ==>
          exists i :: 0 <= i < |after.items| && Serves(after.items[i], service, req))
  }

  lemma SubmissionsAreTaken(before: Option<Job>, req: Request, available: Option<bool>, services: map<string, Service>)
    requires Refusal(req, available, services).None?
    ensures Taken(before, Submitted(before, req), req)
  {
    AdmittedIffAdmissible(req, available, services);
    MergeServesEveryService(Base(before, req).items, req.services, req);
    forall i, j | 0 <= i < j < |req.services| ensures req.services[i] != req.services[j] {
      assert Sound(req, services, j);
    }
    NewJobsHoldTheRequest(req);
  }

  // -------------------------------------------------------- the worker's two sections

  /** The first section: the persisted job, what follows, and whether the store failed. */
  function StartSection(stored: Option<Job>, services: map<string, Service>, readable: bool, writable: bool)
    : (Option<Job>, Verdict, bool)
  {
    if !readable then (stored, Rest, true)
    else if stored.None? || stored.value.status != JobRunning then (stored, Rest, false)
    else
      var (job, verdict) := Next(stored.value, services);
      if writable then (Some(job), verdict, false) else (stored, Rest, true)
  }

  /** The second section: the persisted job, whether to go on, and whether the store failed. */
  function FinishSection(stored: Option<Job>, index: nat, detail: string, readable: bool, writable: bool)
    : (Option<Job>, bool, bool)
  {
    if !readable || stored.None? then (stored, false, true)
    else if index >= |stored.value.items| || stored.value.items[index].status != Running then (stored, false, false)
    else
      var job := Finish(stored.value, index, detail);
      if writable then (Some(job), detail == "" || stored.value.failures + 1 < MAX_FAILURES, false)
      else (stored, false, true)
  }

  lemma TakenOneMore(services: seq<string>, n: nat)
    requires n < |services|
    ensures forall id :: id in services[..n + 1] <==> id in services[..n] || id == services[n]
  {
    assert services[..n + 1] == services[..n] + [services[n]];
  }

  ghost predicate StoredOk(stored: Option<Job>) {
    stored.Some? ==> JobOk(stored.value)
  }

  function Remaining(stored: Option<Job>): nat {
    if stored.Some? then Unfinished(stored.value) else 0
  }

  function Stuck(stored: Option<Job>): nat {
    if stored.Some? then Stale(stored.value) else 0
  }

  /** The first section keeps the job well formed and, if the worker goes on, leaves less to do. */
  lemma StartMakesProgress(stored: Option<Job>, services: map<string, Service>, readable: bool, writable: bool)
    requires StoredOk(stored)
    ensures
      var (n, verdict, fault) := StartSection(stored, services, readable, writable);
      && StoredOk(n)
      && (verdict.Rest? ==> fault || n.None? || n.value.status != JobRunning)
      && (verdict.Again? ==>
            Remaining(n) < Remaining(stored) || (Remaining(n) == Remaining(stored) && Stuck(n) < Stuck(stored)))
      && (verdict.Launch? ==>
            && n.Some? && n.value.status == JobRunning && verdict.index < |n.value.items|
            && n.value.items[verdict.index] == verdict.item.(status := Running, error := "")
            && Remaining(n) == Remaining(stored))
  {
    if readable && stored.Some? && stored.value.status == JobRunning && writable {
      NextIsOk(stored.value, services);
      NextMakesProgress(stored.value, services);
    }
  }

  // --------------------------------------------------------------- the job in memory

  /** The job that a locked section has loaded, changes in place and stores. */
  class Draft {
    var id: string
    var status: JobStatus
    var items: seq<Item>
    var failures: nat

    function Value(): Job
      reads this
    {
      Job(id, status, items, failures)
    }

    constructor (job: Job)
      ensures Value() == job
    {
      id, status, items, failures := job.id, job.status, job.items, job.failures;
    }

    /** mergeBulkUpgradeItems. */
    method MergeItems(req: Request)
      modifies `items
      ensures items == Merge(old(items), req.services, req)
    {
      for n := 0 to |req.services|
        invariant items == Merge(old(items), req.services[..n], req)
      {
        var service := req.services[n];
        ghost var before := items;
        var updated := false;
        var i := 0;
        while i < |items|
          invariant 0 <= i <= |items| && items == before && !updated
          invariant forall j :: 0 <= j < i ==> !(items[j].service == service && items[j].status == Queued)
        {
          if items[i].service == service && items[i].status == Queued {
            items :=
              items[i := items[i].(version := req.version, confirmDowngrade := req.confirmDowngrade, error := "")];
            updated := true;
            break;
          }
          i := i + 1;
        }
        if !updated {
          items := items + [Item(service, req.version, req.confirmDowngrade, Queued, "")];
        }
        assert req.services[..n + 1][..n] == req.services[..n];
      }
      assert req.services[..|req.services|] == req.services;
    }

    /** finishBulkUpgradeItem. */
    method FinishItem(index: nat, detail: string) returns (cancelled: bool)
      requires index < |items|
      modifies this
      ensures Value() == Finish(old(Value()), index, detail)
      ensures cancelled <==> detail != "" && old(failures) + 1 >= 3
      ensures id == old(id) && |items| == |old(items)|
      ensures items[index] == old(items)[index].(status := if detail == "" then Succeeded else Failed, error := detail)
      ensures failures == old(failures) + (if detail == "" then 0 else 1)
      ensures status == if cancelled then JobCancelled else old(status)
      ensures forall i :: 0 <= i < |items| && i != index ==>
                items[i] == if cancelled && old(items)[i].status == Queued then old(items)[i].(status := Cancelled)
                            else old(items)[i]
    {
      if detail == "" {
        items := items[index := items[index].(status := Succeeded, error := "")];
        return false;
      }
      items := items[index := items[index].(status := Failed, error := detail)];
      failures := failures + 1;
      if failures < MAX_FAILURES {
        return false;
      }
      status := JobCancelled;
      CancelRest();
      return true;
    }

    method CancelRest()
      modifies `items
      ensures items == CancelQueued(old(items)) && |items| == |old(items)|
      ensures forall i :: 0 <= i < |items| ==>
                items[i] == if old(items)[i].status == Queued then old(items)[i].(status := Cancelled)
                            else old(items)[i]
    {
      ghost var before := items;
      for i := 0 to |items|
        invariant |items| == |before|
        invariant forall j :: 0 <= j < i ==>
                    items[j] == CancelOne(before[j])
        invariant forall j :: i <= j < |items| ==> items[j] == before[j]
      {
        if items[i].status == Queued {
          items := items[i := items[i].(status := Cancelled)];
        }
      }
    }

    /** The index of the first item with this status, or -1. */
    method Find(wanted: Status) returns (index: int)
      ensures index == -1 <==> First(items, wanted) == |items|
      ensures index != -1 ==> index == First(items, wanted)
    {
      for i := 0 to |items|
        invariant forall j :: 0 <= j < i ==> items[j].status != wanted
      {
        if items[i].status == wanted {
          return i;
        }
      }
      return -1;
    }
  }

  // ------------------------------------------------------------------------ the queue

  datatype End = Idle | StoreFault | Shutdown

  /** The part of the manager that the queue uses; a channel is known by its number. */
  class Queue {
    var stored: Option<Job>
    var wake: Option<nat>  // the open channel, unless the worker was never started

    constructor ()
      ensures stored == None && wake == None
    {
      stored, wake := None, None;
    }

    ghost predicate Valid()
      reads this
    {
      StoredOk(stored)
    }

    /**
      QueueBulkUpgrade, with what it reads under the lock: whether the image is there,
      the live services, and whether the store can be read and written.
     */
    method QueueBulkUpgrade(
      req: Request, available: Option<bool>, services: map<string, Service>, readable: bool, writable: bool)
      returns (r: Result<Job>)
      requires Valid()
      modifies this
      ensures Valid()
      ensures r.Ok? <==> Refusal(req, available, services).None? && readable && writable
      ensures r.Ok? ==> r.value == Submitted(old(stored), req) && stored == Some(r.value)
      ensures r.Ok? ==> wake == if old(wake).Some? then Some(old(wake).value + 1) else None
      ensures r.Err? ==> stored == old(stored) && wake == old(wake)
      ensures r.Err? ==> r.error == Refusal(req, available, services).GetOr(Internal)
    {
      var refusal := Admit(req, available, services);
      if refusal.Some? {
        return Err(refusal.value);
      }
      if !readable {
        return Err(Internal);
      }
      r := Enqueue(req, writable);
    }

    /** The job is loaded, merged into, stored and announced. */
    method Enqueue(req: Request, writable: bool) returns (r: Result<Job>)
      requires Valid()
      modifies this
      ensures Valid()
      ensures r == if writable then Ok(Submitted(old(stored), req)) else Err(Internal)
      ensures stored == if writable then Some(Submitted(old(stored), req)) else old(stored)
      ensures wake == if writable && old(wake).Some? then Some(old(wake).value + 1) else old(wake)
    {
      var job := LoadJob(req);
      job.MergeItems(req);
      SubmittedIsOk(stored, req);
      if !writable {
        return Err(Internal);
      }
      stored := Some(job.Value());
      WakeLocked();
      return Ok(job.Value());
    }

    /** The validation loop with its set of services seen so far. */
    method CheckServices(req: Request, services: map<string, Service>) returns (refusal: Option<SubmitError>)
      ensures refusal == FirstOf(Objections(req, services))
    {
      ghost var objections := Objections(req, services);
      var seen: set<string> := {};
      for n := 0 to |req.services|
        invariant forall id :: id in seen <==> id in req.services[..n]
        invariant forall i :: 0 <= i < n ==> objections[i].None?
      {
        var id := req.services[n];
        assert objections[n] == ObjectionTo(req, services, id, id in seen);
        refusal := ObjectionTo(req, services, id, id in seen);
        if refusal.Some? {
          FirstOfIsFirst(objections, n);
          return;
        }
        seen := seen + {id};
        TakenOneMore(req.services, n);
      }
      FirstOfIsFirst(objections, |objections|);
      return None;
    }

    /** Everything that QueueBulkUpgrade checks before it loads the job. */
    method Admit(req: Request, available: Option<bool>, services: map<string, Service>)
      returns (refusal: Option<SubmitError>)
      ensures refusal == Refusal(req, available, services)
    {
      if !ValidVersion(req.version) || req.services == [] {
        return Some(BadRequest);
      }
      if available.None? {
        return Some(Unavailable);
      }
      if !available.value {
        return Some(UnknownVersion);
      }
      refusal := CheckServices(req, services);
    }

    /** The stored job, or a new one unless that is still running. */
    method LoadJob(req: Request) returns (job: Draft)
      ensures fresh(job) && job.Value() == Base(stored, req)
    {
      if stored.None? || stored.value.status == JobCompleted || stored.value.status == JobCancelled {
        job := new Draft(Job(req.id, JobRunning, [], 0));
      } else {
        job := new Draft(stored.value);
      }
    }

    /** wakeBulkUpgradeLocked: closes the current channel and opens the next. */
    method WakeLocked()
      modifies `wake
      ensures wake == if old(wake).Some? then Some(old(wake).value + 1) else None
    {
      if wake.Some? {
        wake := Some(wake.value + 1);
      }
    }

    /** The first locked section of runNextBulkUpgrade. */
    method StartNext(services: map<string, Service>, readable: bool, writable: bool)
      returns (verdict: Verdict, fault: bool)
      modifies `stored
      ensures (stored, verdict, fault) == StartSection(old(stored), services, readable, writable)
      ensures
        var running := old(stored).Some? && old(stored).value.status == JobRunning;
        && (fault <==> !readable || (running && !writable))
        && (fault || !running ==> verdict == Rest && stored == old(stored))
        && (!fault && running ==> stored.Some? && (stored.value, verdict) == Next(old(stored).value, services))
    {
      if !readable {
        return Rest, true;
      }
      if stored.None? || stored.value.status != JobRunning {
        return Rest, false;
      }
      var job := new Draft(stored.value);
      var stale := job.Find(Running);
      if stale != -1 {
        verdict := RecoverItem(job, stale, services);
      } else {
        var index := job.Find(Queued);
        if index == -1 {
          job.status := JobCompleted;
          verdict := Rest;
        } else {
          verdict := Launch(index, job.items[index]);
          job.items := job.items[index := job.items[index].(status := Running, error := "")];
        }
      }
      if !writable {
        return Rest, true;
      }
      stored, fault := Some(job.Value()), false;
    }

    /** The recovery branch: this item is marked running, but no worker runs it. */
    method RecoverItem(job: Draft, stale: nat, services: map<string, Service>) returns (verdict: Verdict)
      requires job.status == JobRunning && stale < |job.items| && stale == First(job.items, Running)
      modifies job
      ensures (job.Value(), verdict) == Next(old(job.Value()), services)
      ensures |job.items| == |old(job.items)|
      ensures job.items[stale].status == Succeeded <==> Reached(old(job.items)[stale], services)
      ensures job.items[stale].status == Failed <==> Broke(old(job.items)[stale], services)
      ensures job.items[stale].status == Queued <==>
              !Reached(old(job.items)[stale], services) && !Broke(old(job.items)[stale], services)
      ensures Broke(old(job.items)[stale], services) ==>
                var why := services[old(job.items)[stale].service].lastError;
                job.items[stale].error == if why == "" then "upgrade failed" else why
    {
      RecoveryFollowsTheService(job.Value(), services, stale);
      var item := job.items[stale];
      if item.service in services {
        var service := services[item.service];
        if service.phase == Lifecycle.Phase.Running && service.version == item.version {
          var cancelled := job.FinishItem(stale, "");
          return Again;
        }
        if service.phase == Lifecycle.Phase.Failed
           && service.lastError != RESTART_ERROR && service.lastError != CANCELED_ERROR {
          var detail := service.lastError;
          if detail == "" {
            detail := "upgrade failed";
          }
          var cancelled := job.FinishItem(stale, detail);
          return if cancelled then Rest else Again;
        }
      }
      job.items := job.items[stale := item.(status := Queued)];
      return Again;
    }

    /** The last locked section of runNextBulkUpgrade. */
    method FinishNext(index: nat, detail: string, readable: bool, writable: bool) returns (again: bool, fault: bool)
      modifies `stored
      ensures (stored, again, fault) == FinishSection(old(stored), index, detail, readable, writable)
      ensures
        var running := old(stored).Some? && index < |old(stored).value.items|
                       && old(stored).value.items[index].status == Running;
        && (fault <==> !readable || old(stored).None? || (running && !writable))
        && (again ==> running && !fault)
        && (fault || !running ==> !again && stored == old(stored))
        && (running && !fault ==> stored == Some(Finish(old(stored).value, index, detail))
                                  && (again <==> detail == "" || old(stored).value.failures + 1 < 3))
    {
      if !readable || stored.None? {
        return false, true;
      }
      var latest := new Draft(stored.value);
      if index >= |latest.items| || latest.items[index].status != Running {
        return false, false;
      }
      var cancelled := latest.FinishItem(index, detail);
      if !writable {
        return false, true;
      }
      stored := Some(latest.Value());
      return !cancelled, false;
    }

    /** The upgrade runs without the lock; then its result is recorded, unless the process stops. */
    method Settle(index: nat, calm: bool) returns (again: bool, end: End)
      requires Valid() && stored.Some? && stored.value.status == JobRunning
      requires index < |stored.value.items| && stored.value.items[index].status == Running
      modifies `stored
      ensures Valid() && stored.Some?
      ensures again ==> Remaining(stored) < old(Remaining(stored))
      ensures !again && end == Idle ==> stored.value.status != JobRunning
      ensures calm ==> end == Idle
    {
      var stopped: bool, detail: string, readable: bool, writable: bool := *, *, *, *;
      stopped, readable, writable := stopped && !calm, readable || calm, writable || calm;
      if stopped {
        return false, Shutdown;
      }
      FinishIsOk(stored.value, index, detail);
      FinishMakesProgress(stored.value, index, detail);
      var fault: bool;
      again, fault := FinishNext(index, detail, readable, writable);
      end := if fault then StoreFault else Idle;
    }

    /** runNextBulkUpgrade: whatever happens, it calls for another turn only if less is left to do. */
    method RunNext(calm: bool) returns (again: bool, end: End)
      requires Valid()
      modifies `stored
      ensures Valid()
      ensures again ==> Remaining(stored) < old(Remaining(stored))
                        || (Remaining(stored) == old(Remaining(stored)) && Stuck(stored) < old(Stuck(stored)))
      ensures !again && end == Idle ==> stored.None? || stored.value.status != JobRunning
      ensures calm ==> end == Idle
    {
      var services: map<string, Service>, readable: bool, writable: bool := *, *, *;
      readable, writable := readable || calm, writable || calm;
      StartMakesProgress(stored, services, readable, writable);
      var verdict, fault := StartNext(services, readable, writable);
      again := verdict.Again?;
      end := if fault then StoreFault else Idle;
      if verdict.Launch? {
        again, end := Settle(verdict.index, calm);
      }
    }

    /**
      The worker's inner loop, with anything that services, the store and the upgrades
      may do.  Without new submissions it ends, and without a store error or a shutdown
      (`calm`) it ends because no job is running.
     */
    method Drain(calm: bool) returns (end: End)
      requires Valid()
      modifies `stored
      ensures Valid()
      ensures end == Idle ==> stored.None? || stored.value.status != JobRunning
      ensures calm ==> end == Idle
    {
      var again := true;
      end := Idle;
      while again
        invariant Valid() && (!again && end == Idle ==> stored.None? || stored.value.status != JobRunning)
        invariant calm ==> end == Idle
        decreases again, Remaining(stored), Stuck(stored)
      {
        again, end := RunNext(calm);
      }
    }
  }

  // ------------------------------------------------------------- waiting for an upgrade

  /** What waitForBulkUpgrade decides from one look at the record; None is to keep waiting. */
  function Look(seen: Option<Service>, item: Item): Option<string> {
    if seen.None? then Some("service not found")
    else if seen.value.phase == Lifecycle.Phase.Running then
      Some(if seen.value.version == item.version then "" else "service returned to another version")
    else if seen.value.phase == Lifecycle.Phase.Failed then
      Some(if seen.value.lastError == "" then "upgrade failed" else seen.value.lastError)
    else None
  }

  /** The service is stored, and its upgrade has neither ended nor failed. */
  predicate Busy(seen: Option<Service>) {
    seen.Some? && seen.value.phase != Lifecycle.Phase.Running && seen.value.phase != Lifecycle.Phase.Failed
  }

  /** The first look that finds the service not busy. */
  predicate Decides(looks: seq<Option<Service>>, k: int) {
    0 <= k < |looks| && !Busy(looks[k]) && forall j :: 0 <= j < k ==> Busy(looks[j])
  }

  /**
    The first look at a service that is not busy decides: success is reported only if it
    is running at the version of the item, and otherwise why not.
   */
  method WaitForItem(looks: seq<Option<Service>>, item: Item) returns (detail: string)
    ensures detail == "" <==>
            exists k :: Decides(looks, k) && looks[k].Some? && looks[k].value.phase == Lifecycle.Phase.Running
                        && looks[k].value.version == item.version
    ensures forall k :: Decides(looks, k) ==>
              detail == match looks[k]
                        case None => "service not found"
                        case Some(service) =>
                          if service.phase == Lifecycle.Phase.Failed then
                            if service.lastError == "" then "upgrade failed" else service.lastError
                          else if service.version == item.version then ""
                          else "service returned to another version"
    ensures (forall k :: 0 <= k < |looks| ==> Busy(looks[k])) ==> detail == "bulk upgrade item timed out"
  {
    for k := 0 to |looks|
      invariant forall j :: 0 <= j < k ==> Busy(looks[j])
    {
      var decision := Look(looks[k], item);
      if decision.Some? {
        assert Decides(looks, k);
        return decision.value;
      }
    }
    return "bulk upgrade item timed out";
  }
}
