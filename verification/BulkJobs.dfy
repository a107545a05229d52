/**
  The persisted bulk upgrade job and what one locked section makes of it
  (go-service/internal/service/manager.go): merging a submission, recovering an item
  that a restart left running, starting the next item and settling the current one.
 */
module BulkJobs {
  import opened Prelude
  import Lifecycle

  const MAX_FAILURES := 3
  const RESTART_ERROR := "controller restarted during deferred operation"
  const CANCELED_ERROR := "context canceled"

  datatype Status = Queued | Running | Succeeded | Failed | Cancelled

  datatype Item = Item(service: string, version: string, confirmDowngrade: bool, status: Status, error: string)

  datatype JobStatus = JobRunning | JobCompleted | JobCancelled

  datatype Job = Job(id: string, status: JobStatus, items: seq<Item>, failures: nat)

  datatype Request = Request(id: string, version: string, services: seq<string>, confirmDowngrade: bool)

  /** What the queue reads of a live service record. */
  datatype Service = Service(state: Lifecycle.State, phase: Lifecycle.Phase, version: string, lastError: string)

  predicate Done(item: Item) {
    item.status == Succeeded || item.status == Failed
  }

  predicate Open(item: Item) {
    item.status == Queued || item.status == Running
  }

  // ---------------------------------------------------------------------- searching

  /** The first item with this status, or the number of items. */
  function First(items: seq<Item>, status: Status): (r: nat)
    ensures r <= |items|
    ensures forall i :: 0 <= i < r ==> items[i].status != status
    ensures r < |items| ==> items[r].status == status
  {
    if items == [] then 0
    else if items[0].status == status then 0
    else
      var r := First(items[1..], status);
      assert forall i :: 1 <= i < r + 1 ==> items[i] == items[1..][i - 1];
      r + 1
  }

  /** The first queued item of a service, or the number of items. */
  function Waiting(items: seq<Item>, service: string): (r: nat)
    ensures r <= |items|
    ensures forall i :: 0 <= i < r ==> !(items[i].service == service && items[i].status == Queued)
    ensures r < |items| ==> items[r].service == service && items[r].status == Queued
  {
    if items == [] then 0
    else if items[0].service == service && items[0].status == Queued then 0
    else
      var r := Waiting(items[1..], service);
      assert forall i :: 1 <= i < r + 1 ==> items[i] == items[1..][i - 1];
      r + 1
  }

  // ------------------------------------------------------------------------ counting

  function Count(items: seq<Item>, p: Item -> bool): (n: nat)
    ensures n <= |items|
  {
    if items == [] then 0
    else Count(items[..|items| - 1], p) + (if p(items[|items| - 1]) then 1 else 0)
  }

  function IsFailed(): Item -> bool {
    (item: Item) => item.status == Failed
  }

  function IsOpen(): Item -> bool {
    (item: Item) => Open(item)
  }

  function OpenOf(service: string): Item -> bool {
    (item: Item) => Open(item) && item.service == service
  }

  lemma {:induction false} CountUpdate(items: seq<Item>, i: nat, x: Item, p: Item -> bool)
    requires i < |items|
    ensures Count(items[i := x], p) + (if p(items[i]) then 1 else 0) == Count(items, p) + (if p(x) then 1 else 0)
  {
    var last := |items| - 1;
    if i < last {
      assert items[i := x][..last] == items[..last][i := x];
      CountUpdate(items[..last], i, x, p);
    } else {
      assert items[i := x][..last] == items[..last];
    }
  }

  lemma CountAppend(items: seq<Item>, x: Item, p: Item -> bool)
    ensures Count(items + [x], p) == Count(items, p) + (if p(x) then 1 else 0)
  {
    assert (items + [x])[..|items|] == items;
  }

  lemma {:induction false} CountPositive(items: seq<Item>, i: nat, p: Item -> bool)
    requires i < |items| && p(items[i])
    ensures Count(items, p) > 0
  {
    var last := |items| - 1;
    if i < last {
      CountPositive(items[..last], i, p);
    }
  }

  lemma {:induction false} CountZero(items: seq<Item>, p: Item -> bool)
    requires forall i :: 0 <= i < |items| ==> !p(items[i])
    ensures Count(items, p) == 0
  {
    if items != [] {
      CountZero(items[..|items| - 1], p);
    }
  }

  /** At most one item satisfies p. */
  lemma {:induction false} CountOne(items: seq<Item>, k: nat, p: Item -> bool)
    requires forall i :: 0 <= i < |items| && i != k ==> !p(items[i])
    ensures Count(items, p) <= 1
  {
    if items != [] {
      var last := |items| - 1;
      if k == last {
        CountZero(items[..last], p);
      } else {
        CountOne(items[..last], k, p);
      }
    }
  }

  // ------------------------------------------------------------- merging a submission

  function Requested(item: Item, req: Request): Item {
    item.(version := req.version, confirmDowngrade := req.confirmDowngrade, error := "")
  }

  function MergeOne(items: seq<Item>, service: string, req: Request): seq<Item> {
    var i := Waiting(items, service);
    if i < |items| then items[i := Requested(items[i], req)]
    else items + [Item(service, req.version, req.confirmDowngrade, Queued, "")]
  }

  function Merge(items: seq<Item>, services: seq<string>, req: Request): seq<Item> {
    if services == [] then items
    else MergeOne(Merge(items, services[..|services| - 1], req), services[|services| - 1], req)
  }

  /** An item that will run what the request asked for. */
  predicate Serves(item: Item, service: string, req: Request) {
    item.service == service && item.status == Queued && item.version == req.version
    && item.confirmDowngrade == req.confirmDowngrade
  }

  /** What a submission may do to the items: re-aim queued ones of its services and append queued ones. */
  ghost predicate Extends(before: seq<Item>, after: seq<Item>, services: seq<string>, req: Request) {
    && |before| <= |after| <= |before| + |services|
    && (forall i :: 0 <= i < |before| ==>
          after[i] == before[i]
          || (before[i].service in services && before[i].status == Queued && after[i] == Requested(before[i], req)))
    && (forall i :: |before| <= i < |after| ==> after[i].service in services && Serves(after[i], after[i].service, req))
  }

  /**
    A submission leaves every item that is not queued, and every other service, alone;
    afterwards each requested service waits for exactly the requested version.
   */
  lemma {:induction false} MergeServesEveryService(items: seq<Item>, services: seq<string>, req: Request)
    ensures Extends(items, Merge(items, services, req), services, req)
    ensures forall service :: service in services ==>
              exists i :: 0 <= i < |Merge(items, services, req)| && Serves(Merge(items, services, req)[i], service, req)
  {
    if services != [] {
      var last := |services| - 1;
      var service, before := services[last], Merge(items, services[..last], req);
      var after := MergeOne(before, service, req);
      MergeServesEveryService(items, services[..last], req);
      assert Serves(after[Waiting(before, service)], service, req);
      forall other | other in services
        ensures exists i :: 0 <= i < |after| && Serves(after[i], other, req)
      {
        if other != service {
          assert other in services[..last];
          var i :| 0 <= i < |before| && Serves(before[i], other, req);
          assert Serves(after[i], other, req);
        }
      }
    }
  }

  /** The item that a submission would re-aim asks for the same already. */
  ghost predicate Settled(items: seq<Item>, service: string, req: Request) {
    var i := Waiting(items, service);
    i < |items| && Serves(items[i], service, req) && items[i].error == ""
  }

  lemma MergeOneSettles(items: seq<Item>, service: string, req: Request, other: string)
    requires other == service || Settled(items, other, req)
    ensures Settled(MergeOne(items, service, req), other, req)
  {
    var n := MergeOne(items, service, req);
    var i := if other == service then Waiting(items, service) else Waiting(items, other);
    assert i < |n| && n[i].service == other && n[i].status == Queued;
    assert forall j :: 0 <= j < i ==> !(n[j].service == other && n[j].status == Queued);
  }

  lemma {:induction false} MergeSettles(items: seq<Item>, services: seq<string>, req: Request)
    ensures forall service :: service in services ==> Settled(Merge(items, services, req), service, req)
  {
    if services != [] {
      var last := |services| - 1;
      MergeSettles(items, services[..last], req);
      forall service | service in services ensures Settled(Merge(items, services, req), service, req) {
        assert service == services[last] || service in services[..last];
        MergeOneSettles(Merge(items, services[..last], req), services[last], req, service);
      }
    }
  }

  lemma {:induction false} NothingToMerge(items: seq<Item>, services: seq<string>, req: Request)
    requires forall service :: service in services ==> Settled(items, service, req)
    ensures Merge(items, services, req) == items
  {
    if services != [] {
      var last := |services| - 1;
      NothingToMerge(items, services[..last], req);
      assert Settled(items, services[last], req);
    }
  }

  /** Submitting the same request twice is submitting it once. */
  lemma MergeIsIdempotent(items: seq<Item>, services: seq<string>, req: Request)
    ensures Merge(Merge(items, services, req), services, req) == Merge(items, services, req)
  {
    MergeSettles(items, services, req);
    NothingToMerge(Merge(items, services, req), services, req);
  }

  // ---------------------------------------------------------------- settling an item

  function CancelOne(item: Item): Item {
    if item.status == Queued then item.(status := Cancelled) else item
  }

  function CancelQueued(items: seq<Item>): (r: seq<Item>)
    ensures |r| == |items| && forall i :: 0 <= i < |items| ==> r[i] == CancelOne(items[i])
  {
    seq(|items|, i requires 0 <= i < |items| => CancelOne(items[i]))
  }

  lemma {:induction false} CancelKeepsFailures(items: seq<Item>)
    ensures Count(CancelQueued(items), IsFailed()) == Count(items, IsFailed())
  {
    if items != [] {
      var last := |items| - 1;
      CancelKeepsFailures(items[..last]);
      assert CancelQueued(items)[..last] == CancelQueued(items[..last]);
    }
  }

  function Outcome(item: Item, detail: string): Item {
    item.(status := if detail == "" then Succeeded else Failed, error := detail)
  }

  /** finishBulkUpgradeItem: an empty detail is success; the third failure cancels what is queued. */
  function Finish(job: Job, index: nat, detail: string): Job
    requires index < |job.items|
  {
    var items := job.items[index := Outcome(job.items[index], detail)];
    if detail == "" then job.(items := items)
    else if job.failures + 1 < MAX_FAILURES then job.(items := items, failures := job.failures + 1)
    else job.(items := CancelQueued(items), failures := job.failures + 1, status := JobCancelled)
  }

  // ------------------------------------------------------------------ one worker step

  datatype Recovery = Finished(detail: string) | Requeue

  /** What became of an item that is marked running although no worker runs it. */
  function Recover(item: Item, services: map<string, Service>): Recovery {
    if item.service !in services then Requeue
    else
      var service := services[item.service];
      if service.phase == Lifecycle.Phase.Running && service.version == item.version then Finished("")
      else if service.phase == Lifecycle.Phase.Failed
              && service.lastError != RESTART_ERROR && service.lastError != CANCELED_ERROR
      then Finished(if service.lastError == "" then "upgrade failed" else service.lastError)
      else Requeue
  }

  function Requeued(job: Job, index: nat): Job
    requires index < |job.items|
  {
    job.(items := job.items[index := job.items[index].(status := Queued)])
  }

  function Started(job: Job, index: nat): Job
    requires index < |job.items|
  {
    job.(items := job.items[index := job.items[index].(status := Running, error := "")])
  }

  datatype Verdict =
    | Rest                          // nothing more to do
    | Again                         // call again at once
    | Launch(index: nat, item: Item) // upgrade this item, then settle it

  /** The first locked section of runNextBulkUpgrade: the job to persist and what follows. */
  function Next(job: Job, services: map<string, Service>): (r: (Job, Verdict))
    requires job.status == JobRunning
    ensures r.1.Launch? ==> r.1.index < |job.items| && r.1.item == job.items[r.1.index] && r.1.item.status == Queued
  {
    var stale := First(job.items, Running);
    if stale < |job.items| then
      match Recover(job.items[stale], services)
      case Finished(detail) =>
        var next := Finish(job, stale, detail);
        (next, if next.status == JobCancelled then Rest else Again)
      case Requeue => (Requeued(job, stale), Again)
    else
      var index := First(job.items, Queued);
      if index == |job.items| then (job.(status := JobCompleted), Rest)
      else (Started(job, index), Launch(index, job.items[index]))
  }

  /** The job that a submission is merged into. */
  function Base(job: Option<Job>, req: Request): Job {
    if job.Some? && job.value.status == JobRunning then job.value else Job(req.id, JobRunning, [], 0)
  }

  function Submitted(job: Option<Job>, req: Request): Job {
    var base := Base(job, req);
    base.(items := Merge(base.items, req.services, req))
  }

  // --------------------------------------------------------- what a recovery decides

  /** The service is stored and runs the version the item asked for. */
  predicate Reached(item: Item, services: map<string, Service>) {
    && item.service in services
    && services[item.service].phase == Lifecycle.Phase.Running && services[item.service].version == item.version
  }

  /** The service is stored and failed, and not because the controller stopped. */
  predicate Broke(item: Item, services: map<string, Service>) {
    && item.service in services && services[item.service].phase == Lifecycle.Phase.Failed
    && services[item.service].lastError != "controller restarted during deferred operation"
    && services[item.service].lastError != "context canceled"
  }

  /**
    The item that a restart left running is settled by what became of its service, and
    queued again if nothing did: succeeded means that the version runs.
   */
  lemma RecoveryFollowsTheService(job: Job, services: map<string, Service>, stale: nat)
    requires job.status == JobRunning && stale < |job.items| && job.items[stale].status == Running
    requires forall i :: 0 <= i < stale ==> job.items[i].status != Running
    ensures
      var item, (next, verdict) := job.items[stale], Next(job, services);
      && |next.items| == |job.items| && next.items[stale].service == item.service
      && next.items[stale].version == item.version
      && (next.items[stale].status == Succeeded <==> Reached(item, services))
      && (next.items[stale].status == Failed <==> Broke(item, services))
      && (next.items[stale].status == Queued <==> !Reached(item, services) && !Broke(item, services))
      && (Reached(item, services) ==> next.items[stale].error == "" && next.failures == job.failures)
      && (Broke(item, services) ==>
            && next.failures == job.failures + 1
            && next.items[stale].error ==
                 if services[item.service].lastError == "" then "upgrade failed" else services[item.service].lastError)
      && (next.status == JobCancelled <==> Broke(item, services) && job.failures + 1 >= 3)
      && (next.status == JobRunning <==> verdict == Again)
      && (forall i :: 0 <= i < |job.items| && i != stale ==>
            next.items[i] == if next.status == JobCancelled && job.items[i].status == Queued
                             then job.items[i].(status := Cancelled) else job.items[i])
  {
    FirstIs(job.items, Running, stale);
  }

  lemma FirstIs(items: seq<Item>, status: Status, k: nat)
    requires k < |items| && items[k].status == status && forall i :: 0 <= i < k ==> items[i].status != status
    ensures First(items, status) == k
  {
  }

  /** Without a running item the first queued one is started, and a job without either is completed. */
  lemma TheFirstQueuedItemIsStarted(job: Job, services: map<string, Service>)
    requires job.status == JobRunning && forall i :: 0 <= i < |job.items| ==> job.items[i].status != Running
    ensures
      var (next, verdict) := Next(job, services);
      if exists i :: 0 <= i < |job.items| && job.items[i].status == Queued then
        && verdict.Launch? && verdict.index < |job.items|
        && job.items[verdict.index].status == Queued && verdict.item == job.items[verdict.index]
        && (forall i :: 0 <= i < verdict.index ==> job.items[i].status != Queued)
        && next == job.(items := job.items[verdict.index := verdict.item.(status := Running, error := "")])
      else verdict == Rest && next == job.(status := JobCompleted)
  {
    assert First(job.items, Running) == |job.items|;
  }

  /** A new job holds one queued item for each requested service, in their order. */
  lemma {:induction false} NewJobsHoldTheRequest(req: Request)
    requires forall i, j :: 0 <= i < j < |req.services| ==> req.services[i] != req.services[j]
    ensures
      var items := Merge([], req.services, req);
      && |items| == |req.services|
      && forall i :: 0 <= i < |items| ==>
           items[i] == Item(req.services[i], req.version, req.confirmDowngrade, Queued, "")
    decreases |req.services|
  {
    if req.services != [] {
      var last := |req.services| - 1;
      var shorter := req.(services := req.services[..last]);
      NewJobsHoldTheRequest(shorter);
      MergeReadsNoList(shorter.services, req, shorter);
    }
  }

  /** Merging reads version and confirmation of the request, but not its list of services. */
  lemma {:induction false} MergeReadsNoList(services: seq<string>, a: Request, b: Request)
    requires a.version == b.version && a.confirmDowngrade == b.confirmDowngrade
    ensures Merge([], services, a) == Merge([], services, b)
  {
    if services != [] {
      MergeReadsNoList(services[..|services| - 1], a, b);
    }
  }

  // ------------------------------------------------------------------ the invariant

  /** Finished items, then at most one running item, then only queued items. */
  ghost predicate Ordered(items: seq<Item>) {
    && (forall i :: 0 <= i < |items| ==> items[i].status != Cancelled)
    && (forall i, j :: 0 <= i < j < |items| && items[j].status != Queued ==> Done(items[i]))
  }

  ghost predicate Bounded(items: seq<Item>) {
    forall service :: Count(items, OpenOf(service)) <= 2
  }

  ghost predicate JobOk(job: Job) {
    && job.failures == Count(job.items, IsFailed())
    && Bounded(job.items)
    && match job.status
       case JobRunning => job.failures < MAX_FAILURES && Ordered(job.items)
       case JobCompleted => job.failures < MAX_FAILURES && forall i :: 0 <= i < |job.items| ==> Done(job.items[i])
       case JobCancelled =>
         job.failures == MAX_FAILURES && forall i :: 0 <= i < |job.items| ==> !Open(job.items[i])
  }

  /** The explicit shape: a finished prefix, at most one running item, a queued suffix. */
  ghost predicate Shaped(items: seq<Item>, done: nat) {
    && done <= |items|
    && (forall i :: 0 <= i < done ==> Done(items[i]))
    && (done < |items| ==> Open(items[done]))
    && (forall i :: done < i < |items| ==> items[i].status == Queued)
  }

  /** The index of the first item that is not finished. */
  function Progress(items: seq<Item>): (r: nat)
    ensures r <= |items|
    ensures forall i :: 0 <= i < r ==> Done(items[i])
    ensures r < |items| ==> !Done(items[r])
  {
    if items == [] then 0
    else if !Done(items[0]) then 0
    else
      var r := Progress(items[1..]);
      assert forall i :: 1 <= i < r + 1 ==> items[i] == items[1..][i - 1];
      r + 1
  }

  lemma OrderedIsShaped(items: seq<Item>)
    ensures Ordered(items) <==> Shaped(items, Progress(items))
  {
    var done := Progress(items);
    if Ordered(items) && done < |items| {
      assert forall j :: done < j < |items| ==> items[j].status == Queued;
    }
  }

  // ------------------------------------------------------- what each section keeps

  lemma StatusesKeepBounds(items: seq<Item>, index: nat, x: Item)
    requires index < |items| && Bounded(items) && items[index].service == x.service && (Open(x) ==> Open(items[index]))
    ensures Bounded(items[index := x])
  {
    forall service ensures Count(items[index := x], OpenOf(service)) <= 2 {
      CountUpdate(items, index, x, OpenOf(service));
    }
  }

  lemma {:induction false} CancelKeepsBounds(items: seq<Item>, service: string)
    ensures Count(CancelQueued(items), OpenOf(service)) <= Count(items, OpenOf(service))
  {
    if items != [] {
      var last := |items| - 1;
      CancelKeepsBounds(items[..last], service);
      assert CancelQueued(items)[..last] == CancelQueued(items[..last]);
    }
  }

  /** In an ordered job a service without a queued item has at most its running one unfinished. */
  lemma OnlyTheRunningItemIsOpen(items: seq<Item>, service: string)
    requires Ordered(items) && Waiting(items, service) == |items|
    ensures Count(items, OpenOf(service)) <= 1
  {
    var running := First(items, Running);
    assert forall j :: running < j < |items| ==> items[j].status == Queued || Done(items[running]);
    CountOne(items, running, OpenOf(service));
  }

  lemma MergeOneKeeps(items: seq<Item>, service: string, req: Request)
    requires Ordered(items) && Bounded(items)
    ensures
      var n := MergeOne(items, service, req);
      Ordered(n) && Bounded(n) && Count(n, IsFailed()) == Count(items, IsFailed())
  {
    var i := Waiting(items, service);
    if i < |items| {
      CountUpdate(items, i, Requested(items[i], req), IsFailed());
      StatusesKeepBounds(items, i, Requested(items[i], req));
    } else {
      var x := Item(service, req.version, req.confirmDowngrade, Queued, "");
      CountAppend(items, x, IsFailed());
      OnlyTheRunningItemIsOpen(items, service);
      forall other ensures Count(items + [x], OpenOf(other)) <= 2 {
        CountAppend(items, x, OpenOf(other));
      }
    }
  }

  lemma {:induction false} MergeKeeps(items: seq<Item>, services: seq<string>, req: Request)
    requires Ordered(items) && Bounded(items)
    ensures
      var n := Merge(items, services, req);
      Ordered(n) && Bounded(n) && Count(n, IsFailed()) == Count(items, IsFailed())
  {
    if services != [] {
      var last := |services| - 1;
      MergeKeeps(items, services[..last], req);
      MergeOneKeeps(Merge(items, services[..last], req), services[last], req);
    }
  }

  lemma SubmittedIsOk(job: Option<Job>, req: Request)
    requires job.Some? ==> JobOk(job.value)
    ensures JobOk(Submitted(job, req)) && Submitted(job, req).status == JobRunning
  {
    assert Bounded([]);
    MergeKeeps(Base(job, req).items, req.services, req);
  }

  /** Settling the running item keeps the order, the failure count and the bound. */
  lemma OutcomeKeeps(items: seq<Item>, index: nat, detail: string)
    requires Ordered(items) && Bounded(items) && index < |items| && items[index].status == Running
    ensures
      var n := items[index := Outcome(items[index], detail)];
      && Ordered(n) && Bounded(n)
      && Count(n, IsFailed()) == Count(items, IsFailed()) + (if detail == "" then 0 else 1)
      && forall i :: 0 <= i < |n| ==> Done(n[i]) || n[i].status == Queued
  {
    var x := Outcome(items[index], detail);
    CountUpdate(items, index, x, IsFailed());
    StatusesKeepBounds(items, index, x);
    assert forall j :: index < j < |items| ==> items[j].status == Queued;
  }

  lemma CancelIsBounded(items: seq<Item>)
    requires Bounded(items)
    ensures Bounded(CancelQueued(items))
  {
    var cancelled := CancelQueued(items);
    forall service ensures Count(cancelled, OpenOf(service)) <= 2 {
      CancelKeepsBounds(items, service);
      assert Count(items, OpenOf(service)) <= 2;
    }
  }

  lemma CancelledAreClosed(items: seq<Item>)
    requires forall i :: 0 <= i < |items| ==> Done(items[i]) || items[i].status == Queued
    ensures forall i :: 0 <= i < |items| ==> !Open(CancelQueued(items)[i])
  {
    forall i | 0 <= i < |items| ensures !Open(CancelQueued(items)[i]) {
      assert CancelQueued(items)[i] == CancelOne(items[i]);
    }
  }

  lemma CancelledIsOk(job: Job, items: seq<Item>)
    requires job.items == CancelQueued(items) && job.status == JobCancelled && job.failures == MAX_FAILURES
    requires Bounded(items) && Count(items, IsFailed()) == MAX_FAILURES
    requires forall i :: 0 <= i < |items| ==> Done(items[i]) || items[i].status == Queued
    ensures JobOk(job)
  {
    CancelKeepsFailures(items);
    CancelIsBounded(items);
    CancelledAreClosed(items);
  }

  lemma FinishIsOk(job: Job, index: nat, detail: string)
    requires JobOk(job) && job.status == JobRunning && index < |job.items| && job.items[index].status == Running
    ensures JobOk(Finish(job, index, detail))
    ensures Finish(job, index, detail).status == JobCancelled <==> detail != "" && job.failures == MAX_FAILURES - 1
  {
    OutcomeKeeps(job.items, index, detail);
    if detail != "" && job.failures == MAX_FAILURES - 1 {
      CancelledIsOk(Finish(job, index, detail), job.items[index := Outcome(job.items[index], detail)]);
    }
  }

  lemma NextIsOk(job: Job, services: map<string, Service>)
    requires JobOk(job) && job.status == JobRunning
    ensures JobOk(Next(job, services).0)
    ensures Next(job, services).1.Rest? <==> Next(job, services).0.status != JobRunning
  {
    var stale := First(job.items, Running);
    if stale < |job.items| {
      if Recover(job.items[stale], services).Finished? {
        FinishIsOk(job, stale, Recover(job.items[stale], services).detail);
      } else {
        var x := job.items[stale].(status := Queued);
        CountUpdate(job.items, stale, x, IsFailed());
        StatusesKeepBounds(job.items, stale, x);
      }
    } else {
      var index := First(job.items, Queued);
      if index < |job.items| {
        StartedIsOk(job, index);
      }
    }
  }

  lemma StartedIsOk(job: Job, index: nat)
    requires JobOk(job) && job.status == JobRunning
    requires First(job.items, Running) == |job.items| && index == First(job.items, Queued) < |job.items|
    ensures JobOk(Started(job, index))
  {
    var x := job.items[index].(status := Running, error := "");
    CountUpdate(job.items, index, x, IsFailed());
    StatusesKeepBounds(job.items, index, x);
  }

  // ------------------------------------------------------------- a drain comes to an end

  function Unfinished(job: Job): nat {
    Count(job.items, IsOpen())
  }

  function Stale(job: Job): nat {
    if First(job.items, Running) < |job.items| then 1 else 0
  }

  lemma FinishMakesProgress(job: Job, index: nat, detail: string)
    requires index < |job.items| && Open(job.items[index])
    ensures Unfinished(Finish(job, index, detail)) < Unfinished(job)
  {
    var x := Outcome(job.items[index], detail);
    CountUpdate(job.items, index, x, IsOpen());
    CancelFinishes(job.items[index := x]);
  }

  lemma {:induction false} CancelFinishes(items: seq<Item>)
    ensures Count(CancelQueued(items), IsOpen()) <= Count(items, IsOpen())
  {
    if items != [] {
      var last := |items| - 1;
      CancelFinishes(items[..last]);
      assert CancelQueued(items)[..last] == CancelQueued(items[..last]);
    }
  }

  /** Every call that asks to be called again leaves less to do: fewer unfinished items, or no stale one. */
  lemma NextMakesProgress(job: Job, services: map<string, Service>)
    requires JobOk(job) && job.status == JobRunning
    ensures
      var (next, verdict) := Next(job, services);
      match verdict
      case Rest => Unfinished(next) == 0
      case Again =>
        Unfinished(next) < Unfinished(job) || (Unfinished(next) == Unfinished(job) && Stale(next) < Stale(job))
      case Launch(index, item) => Unfinished(next) == Unfinished(job) && Open(next.items[index])
  {
    NextIsOk(job, services);
    var (next, verdict) := Next(job, services);
    var stale := First(job.items, Running);
    if verdict.Rest? {
      CountZero(next.items, IsOpen());
    } else if verdict.Launch? {
      CountUpdate(job.items, verdict.index, next.items[verdict.index], IsOpen());
    } else if Recover(job.items[stale], services).Finished? {
      FinishMakesProgress(job, stale, Recover(job.items[stale], services).detail);
    } else {
      CountUpdate(job.items, stale, next.items[stale], IsOpen());
      assert forall i :: 0 <= i < |next.items| ==> next.items[i].status != Running by {
        assert forall j :: stale < j < |job.items| && job.items[j].status != Queued ==> Done(job.items[stale]);
      }
    }
  }
}
