/**
  The bulk upgrade queue over whole runs: submissions, the worker's two locked sections,
  the unlocked upgrade between them, store errors, shutdowns and restarts, in any order
  (go-service/internal/service/manager.go).
 */
module BulkWorker {
  import opened Prelude
  import opened BulkJobs
  import opened BulkQueue
  import Lifecycle

  // -------------------------------------------------------------------- the machine

  /** Where the worker stands between two locked sections; channels are known by their numbers. */
  datatype Worker =
    | Offline
    | Capturing                          // about to remember the open channel
    | Draining(wake: nat)
    | Upgrading(wake: nat, index: nat, item: Item, serial: nat)
    | Blocked(wake: nat, fault: bool)    // fault: the last turn ended on a store error

  datatype Sys = Sys(
    stored: Option<Job>, wake: Option<nat>, worker: Worker,
    serial: nat) // history: how many jobs were begun

  const INITIAL := Sys(None, None, Offline, 0)

  datatype Event =
    | Submit(req: Request, available: Option<bool>, services: map<string, Service>, readable: bool, writable: bool)
    | Start
    | Capture
    | Turn(services: map<string, Service>, readable: bool, writable: bool)
    | Settle(detail: string, readable: bool, writable: bool)
    | Wake
    | Shutdown
    | Restart

  predicate Enabled(s: Sys, e: Event) {
    match e
    case Submit(_, _, _, _, _) => true
    case Start => s.wake.None?
    case Capture => s.worker.Capturing? && s.wake.Some?
    case Turn(_, _, _) => s.worker.Draining?
    case Settle(_, _, _) => s.worker.Upgrading?
    case Wake => s.worker.Blocked? && s.wake.Some? && s.worker.wake < s.wake.value
    case Shutdown => true
    case Restart => true
  }

  predicate Accepted(e: Event)
    requires e.Submit?
  {
    Refusal(e.req, e.available, e.services).None? && e.readable && e.writable
  }

  function SubmitStep(s: Sys, e: Event): Sys
    requires e.Submit?
  {
    if !Accepted(e) then s
    else
      s.(stored := Some(Submitted(s.stored, e.req)),
         serial := if s.stored.Some? && s.stored.value.status == JobRunning then s.serial else s.serial + 1,
         wake := if s.wake.Some? then Some(s.wake.value + 1) else None)
  }

  function TurnStep(s: Sys, e: Event): Sys
    requires e.Turn? && s.worker.Draining?
  {
    var (stored, verdict, fault) := StartSection(s.stored, e.services, e.readable, e.writable);
    s.(stored := stored,
       worker := match verdict
                 case Rest => Blocked(s.worker.wake, fault)
                 case Again => s.worker
                 case Launch(index, item) => Upgrading(s.worker.wake, index, item, s.serial))
  }

  function SettleStep(s: Sys, e: Event): Sys
    requires e.Settle? && s.worker.Upgrading?
  {
    var (stored, again, fault) := FinishSection(s.stored, s.worker.index, e.detail, e.readable, e.writable);
    s.(stored := stored, worker := if again then Draining(s.worker.wake) else Blocked(s.worker.wake, fault))
  }

  function Apply(s: Sys, e: Event): Sys
    requires Enabled(s, e)
  {
    match e
    case Submit(_, _, _, _, _) => SubmitStep(s, e)
    case Start => s.(wake := Some(0), worker := Capturing)
    case Capture => s.(worker := Draining(s.wake.value))
    case Turn(_, _, _) => TurnStep(s, e)
    case Settle(_, _, _) => SettleStep(s, e)
    case Wake => s.(worker := Capturing)
    case Shutdown => s.(worker := Offline)
    case Restart => s.(wake := None, worker := Offline)
  }

  function Replay(s: Sys, events: seq<Event>): Option<Sys>
    decreases |events|
  {
    if events == [] then Some(s)
    else if Enabled(s, events[0]) then Replay(Apply(s, events[0]), events[1..])
    else None
  }

  ghost predicate Reachable(s: Sys) {
    exists events: seq<Event> :: Replay(INITIAL, events) == Some(s)
  }

  // -------------------------------------------------------------------- the invariant

  /** The item that the worker remembers is the running item of the same job. */
  ghost predicate Remembered(s: Sys)
    requires s.worker.Upgrading?
  {
    && s.stored.Some? && s.stored.value.status == JobRunning && s.serial == s.worker.serial
    && s.worker.index < |s.stored.value.items|
    && s.stored.value.items[s.worker.index] == s.worker.item.(status := Running, error := "")
  }

  ghost predicate Inv(s: Sys) {
    && StoredOk(s.stored)
    && (!s.worker.Offline? ==> s.wake.Some?)
    && (s.worker.Draining? || s.worker.Upgrading? || s.worker.Blocked? ==> s.worker.wake <= s.wake.value)
    && (s.worker.Upgrading? ==> Remembered(s))
    && (s.worker.Blocked? && s.wake == Some(s.worker.wake) && !s.worker.fault ==>
          s.stored.None? || s.stored.value.status != JobRunning)
  }

  /** However many services a submission merges, the item the worker upgrades stays where it is. */
  lemma SubmitKeeps(s: Sys, e: Event)
    requires Inv(s) && e.Submit?
    ensures Inv(SubmitStep(s, e)) && SubmitStep(s, e).worker == s.worker
  {
    if Accepted(e) {
      SubmittedIsOk(s.stored, e.req);
      MergeServesEveryService(Base(s.stored, e.req).items, e.req.services, e.req);
    }
  }

  lemma TurnKeeps(s: Sys, e: Event)
    requires Inv(s) && e.Turn? && s.worker.Draining?
    ensures Inv(TurnStep(s, e))
  {
    StartMakesProgress(s.stored, e.services, e.readable, e.writable);
  }

  lemma SettleKeeps(s: Sys, e: Event)
    requires Inv(s) && e.Settle? && s.worker.Upgrading?
    ensures Inv(SettleStep(s, e))
  {
    FinishIsOk(s.stored.value, s.worker.index, e.detail);
  }

  lemma StepKeeps(s: Sys, e: Event)
    requires Inv(s) && Enabled(s, e)
    ensures Inv(Apply(s, e))
  {
    match e
    case Submit(_, _, _, _, _) => SubmitKeeps(s, e);
    case Turn(_, _, _) => TurnKeeps(s, e);
    case Settle(_, _, _) => SettleKeeps(s, e);
    case _ =>
  }

  lemma {:induction false} ReplayKeeps(s: Sys, events: seq<Event>)
    requires Inv(s) && Replay(s, events).Some?
    ensures Inv(Replay(s, events).value)
    decreases |events|
  {
    if events != [] {
      StepKeeps(s, events[0]);
      ReplayKeeps(Apply(s, events[0]), events[1..]);
    }
  }

  lemma ReachableInv(s: Sys)
    requires Reachable(s)
    ensures Inv(s)
  {
    var events :| Replay(INITIAL, events) == Some(s);
    ReplayKeeps(INITIAL, events);
  }

  // ---------------------------------------------------------------------- the theorems

  /** In every reachable state the stored job has the shape, the failure count and the status it should. */
  lemma BulkJobShape(s: Sys)
    requires Reachable(s) && s.stored.Some?
    ensures
      var job := s.stored.value;
      && (job.status == JobRunning ==> Shaped(job.items, Progress(job.items)))
      && job.failures == Count(job.items, IsFailed()) <= MAX_FAILURES
      && (job.failures == MAX_FAILURES <==> job.status == JobCancelled)
      && (job.status != JobRunning ==> forall i :: 0 <= i < |job.items| ==> !Open(job.items[i]))
      && (job.status == JobCompleted ==> forall i :: 0 <= i < |job.items| ==> Done(job.items[i]))
  {
    ReachableInv(s);
    OrderedIsShaped(s.stored.value.items);
  }

  /** At most two items of a service are unfinished, restarts included. */
  lemma AtMostTwoUnfinished(s: Sys, service: string)
    requires Reachable(s) && s.stored.Some?
    ensures Count(s.stored.value.items, OpenOf(service)) <= 2
  {
    ReachableInv(s);
  }

  /**
    While an upgrade runs without the lock, the remembered index names the very item
    that was started, so the re-check after it never fails and the result lands on it.
   */
  lemma UnlockedItemIsStable(s: Sys, detail: string)
    requires Reachable(s) && s.worker.Upgrading?
    ensures Remembered(s)
    ensures
      var n := SettleStep(s, Settle(detail, true, true));
      && n.stored.Some? && n.stored.value == Finish(s.stored.value, s.worker.index, detail)
      && |n.stored.value.items| == |s.stored.value.items|
      && n.stored.value.items[s.worker.index] ==
           s.worker.item.(status := if detail == "" then Succeeded else Failed, error := detail)
  {
    ReachableInv(s);
  }

  /** Submissions, any number of them, leave a worker that upgrades and its item alone. */
  lemma {:induction false} SubmissionsKeepTheItem(s: Sys, events: seq<Event>)
    requires Reachable(s) && s.worker.Upgrading? && forall i :: 0 <= i < |events| ==> events[i].Submit?
    ensures Replay(s, events).Some?
    ensures Replay(s, events).value.worker == s.worker && Remembered(Replay(s, events).value)
    decreases |events|
  {
    ReachableInv(s);
    if events != [] {
      SubmitKeeps(s, events[0]);
      ReachableStep(s, events[0]);
      SubmissionsKeepTheItem(Apply(s, events[0]), events[1..]);
    }
  }

  /** A worker that sleeps on the open channel leaves no job running, unless its last turn met a store error. */
  lemma NoLostWakeup(s: Sys)
    requires Reachable(s) && s.worker.Blocked? && s.wake == Some(s.worker.wake) && !s.worker.fault
    ensures s.stored.Some? ==>
              s.stored.value.status != JobRunning
              && forall i :: 0 <= i < |s.stored.value.items| ==> !Open(s.stored.value.items[i])
  {
    ReachableInv(s);
  }

  /** A worker that has not met a store error can always move while a job is running. */
  lemma WorkerIsNeverStuck(s: Sys)
    requires Reachable(s) && s.stored.Some? && s.stored.value.status == JobRunning && !s.worker.Offline?
    requires s.worker.Blocked? ==> !s.worker.fault
    ensures
      || Enabled(s, Capture) || Enabled(s, Wake) || Enabled(s, Turn(map[], true, true))
      || Enabled(s, Settle("", true, true))
  {
    ReachableInv(s);
  }

  /** The worker sleeps on the open channel beside a running job. */
  ghost predicate Stranded(s: Sys) {
    && s.worker.Blocked? && s.wake == Some(s.worker.wake)
    && s.stored.Some? && s.stored.value.status == JobRunning
  }

  lemma TurnStrandsIff(s: Sys, e: Event)
    requires Inv(s) && e.Turn? && Enabled(s, e)
    ensures Stranded(TurnStep(s, e)) <==>
            && s.stored.Some? && s.stored.value.status == JobRunning && s.wake == Some(s.worker.wake)
            && !(e.readable && e.writable)
  {
    StartMakesProgress(s.stored, e.services, e.readable, e.writable);
  }

  lemma SettleStrandsIff(s: Sys, e: Event)
    requires Inv(s) && e.Settle? && Enabled(s, e)
    ensures Stranded(SettleStep(s, e)) <==> s.wake == Some(s.worker.wake) && !(e.readable && e.writable)
  {
    FinishIsOk(s.stored.value, s.worker.index, e.detail);
  }

  /**
    Exactly these events strand a job: one of the worker's two sections cannot read or
    cannot write a running job, and nothing was submitted since it last captured the
    channel.
   */
  lemma StrandsIff(s: Sys, e: Event)
    requires Reachable(s) && !Stranded(s) && Enabled(s, e)
    ensures Stranded(Apply(s, e)) <==>
            && (e.Turn? || e.Settle?) && s.stored.Some? && s.stored.value.status == JobRunning
            && s.wake == Some(s.worker.wake) && !(e.readable && e.writable)
  {
    ReachableInv(s);
    if e.Turn? {
      TurnStrandsIff(s, e);
    } else if e.Settle? {
      SettleStrandsIff(s, e);
    }
  }

  /** And exactly these end it: an accepted submission, a shutdown or a restart. */
  lemma StaysStrandedIff(s: Sys, e: Event)
    requires Reachable(s) && Stranded(s) && Enabled(s, e)
    ensures Stranded(Apply(s, e)) <==> !((e.Submit? && Accepted(e)) || e.Shutdown? || e.Restart?)
  {
  }

  /** The exception is real: after a store error the worker sleeps beside a queued item. */
  lemma StoreErrorStrandsTheJob()
    ensures exists s: Sys ::
              && Reachable(s) && s.worker.Blocked? && s.wake == Some(s.worker.wake)
              && s.stored.Some? && s.stored.value.status == JobRunning
              && |s.stored.value.items| == 1 && s.stored.value.items[0].status == Queued
  {
    var id := "whmcs-1";
    var req := Request("bulk", "2", [id], true);
    var services := map[id := Service(Lifecycle.Active, Lifecycle.Phase.Running, "1", "")];
    var submit := Submit(req, Some(true), services, true, true);
    assert Replay(INITIAL, []) == Some(INITIAL);
    ReachableStep(INITIAL, Start);
    var s1 := Apply(INITIAL, Start);
    AdmittedIffAdmissible(req, Some(true), services);
    ReachableStep(s1, submit);
    var s2 := Apply(s1, submit);
    MergeServesEveryService([], [id], req);
    ReachableStep(s2, Capture);
    var s3 := Apply(s2, Capture);
    ReachableStep(s3, Turn(map[], false, false));
    var s4 := Apply(s3, Turn(map[], false, false));
    assert s4.worker == Blocked(1, true);
  }

  // --------------------------------------------------------------- a drain has an end

  /** How many more turns the worker can take before it blocks. */
  function Fuel(s: Sys): nat {
    match s.worker
    case Draining(_) => 3 * Remaining(s.stored) + Stuck(s.stored) + 1
    case Upgrading(_, _, _, _) => 3 * Remaining(s.stored)
    case _ => 0
  }

  lemma TurnsBurnFuel(s: Sys, e: Event)
    requires Inv(s) && (e.Turn? || e.Settle?) && Enabled(s, e)
    ensures Fuel(Apply(s, e)) < Fuel(s)
  {
    if e.Turn? {
      StartMakesProgress(s.stored, e.services, e.readable, e.writable);
    } else {
      var job := s.stored.value;
      CountPositive(job.items, s.worker.index, IsOpen());
      FinishMakesProgress(job, s.worker.index, e.detail);
    }
  }

  /**
    Without new submissions the worker takes a bounded number of turns, whatever the
    upgrades, the services and the store do: at most three for each item, and two more.
   */
  lemma {:induction false} DrainEnds(s: Sys, events: seq<Event>)
    requires Reachable(s) && forall i :: 0 <= i < |events| ==> events[i].Turn? || events[i].Settle?
    requires Replay(s, events).Some?
    ensures |events| <= Fuel(s)
    ensures s.stored.Some? ==> |events| <= 3 * |s.stored.value.items| + 2
    decreases |events|
  {
    ReachableInv(s);
    if events != [] {
      TurnsBurnFuel(s, events[0]);
      ReachableStep(s, events[0]);
      DrainEnds(Apply(s, events[0]), events[1..]);
    }
  }

  // ------------------------------------------------------------------ runs as sequences

  lemma {:induction false} ReplayAppend(s: Sys, first: seq<Event>, e: Event)
    requires Replay(s, first).Some? && Enabled(Replay(s, first).value, e)
    ensures Replay(s, first + [e]) == Some(Apply(Replay(s, first).value, e))
    decreases |first|
  {
    if first == [] {
      assert [e][1..] == [];
      assert first + [e] == [e];
    } else {
      assert (first + [e])[1..] == first[1..] + [e];
      ReplayAppend(Apply(s, first[0]), first[1..], e);
    }
  }

  lemma ReachableStep(s: Sys, e: Event)
    requires Reachable(s) && Enabled(s, e)
    ensures Reachable(Apply(s, e))
  {
    var events :| Replay(INITIAL, events) == Some(s);
    ReplayAppend(INITIAL, events, e);
  }
}
