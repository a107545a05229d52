/**
  All services of one controller: they share the process, its restarts and the counter
  that numbers health attempts (go-service/internal/service/manager.go), and nothing else.
 */
module Fleet {
  import opened Prelude
  import opened Lifecycle
  import opened LifecycleTheorems

  type Fleet = map<string, Sys>

  /** What ends the process, and with it the goroutines of every service. */
  predicate Crashes(e: Event) {
    e.Restart? || (e.HostsRequest? && e.outcome.CrashedBetween?)
  }

  /** One event of one service, with what the other services see of it. */
  function Others(s: Sys, mine: Sys, e: Event): Sys
    requires Enabled(mine, e)
  {
    if Crashes(e) then Apply(s, Restart)
    else if Apply(mine, e).fence.sequence > mine.fence.sequence then Apply(s, OtherServiceAttempt)
    else s
  }

  predicate Possible(f: Fleet, id: string, e: Event) {
    id in f && Enabled(f[id], e) && !e.OtherServiceAttempt?
  }

  function Advance(f: Fleet, id: string, e: Event): (n: Fleet)
    requires Possible(f, id, e)
    ensures n.Keys == f.Keys
  {
    map k | k in f :: if k == id then Apply(f[k], e) else Others(f[k], f[id], e)
  }

  datatype Step = Step(id: string, event: Event)

  function Replayed(f: Fleet, steps: seq<Step>): Option<Fleet>
    decreases |steps|
  {
    if steps == [] then Some(f)
    else if Possible(f, steps[0].id, steps[0].event) then Replayed(Advance(f, steps[0].id, steps[0].event), steps[1..])
    else None
  }

  ghost predicate Begun(f: Fleet) {
    forall id :: id in f ==> f[id] == INITIAL
  }

  /** Every service is where its own machine could be; the counter is one; no two services share an attempt. */
  ghost predicate Sound(f: Fleet) {
    && (forall id :: id in f ==> Reachable(f[id]) && Numbering(f[id].fence))
    && (forall a, b :: a in f && b in f ==> f[a].fence.sequence == f[b].fence.sequence)
    && (forall a, b :: a in f && b in f && a != b ==> Apart(f[a].fence, f[b].fence))
  }

  ghost predicate Numbering(f: Fence) {
    f.current.Some? ==> f.current.value <= f.sequence
  }

  ghost predicate Apart(a: Fence, b: Fence) {
    a.current.Some? ==> a.current != b.current
  }

  /** The attempt counters move in only these ways. */
  ghost predicate Moves(before: Fence, after: Fence, e: Event) {
    if Crashes(e) then after.sequence == 0 && after.current.None?
    else
      || (after.sequence == before.sequence && (after.current.None? || after.current == before.current))
      || (after.sequence == before.sequence + 1
          && after.current == if e.OtherServiceAttempt? then before.current else Some(after.sequence))
  }

  lemma WorkMoves(s: Sys, e: Event)
    requires e.Work? && Enabled(s, e)
    ensures Moves(s.fence, WorkStep(s, e.tid, e.result, e.dns).fence, e)
  {
    var t := s.owners[e.tid];
    if ProvisionPc(t.pc) {
      assert Moves(s.fence, ProvisionWork(s, e.tid, e.result).fence, e);
    } else if ActivationPc(t.pc) {
      assert Moves(s.fence, ActivationWork(s, e.tid, e.result).fence, e);
    }
  }

  lemma EventMoves(s: Sys, e: Event)
    requires Enabled(s, e)
    ensures Moves(s.fence, Apply(s, e).fence, e)
  {
    if e.Work? {
      WorkMoves(s, e);
    }
  }

  lemma OthersMove(s: Sys, mine: Sys, e: Event)
    requires Reachable(s) && Enabled(mine, e) && !e.OtherServiceAttempt?
    ensures Reachable(Others(s, mine, e))
    ensures
      var n := Others(s, mine, e).fence;
      if Crashes(e) then n.sequence == 0 && n.current.None?
      else n.current == s.fence.current
           && n.sequence == s.fence.sequence + (Apply(mine, e).fence.sequence - mine.fence.sequence)
  {
    EventMoves(mine, e);
    if Crashes(e) {
      ReachableStep(s, Restart);
    } else if Apply(mine, e).fence.sequence > mine.fence.sequence {
      ReachableStep(s, OtherServiceAttempt);
    }
  }

  lemma EachAdvances(f: Fleet, id: string, e: Event, k: string)
    requires Sound(f) && Possible(f, id, e) && k in f
    ensures
      var n := Advance(f, id, e);
      && Reachable(n[k]) && Numbering(n[k].fence) && n[k].fence.sequence == n[id].fence.sequence
      && (k != id ==> if Crashes(e) then n[k].fence.current.None? else n[k].fence.current == f[k].fence.current)
  {
    EventMoves(f[id], e);
    if k == id {
      ReachableStep(f[id], e);
    } else {
      OthersMove(f[k], f[id], e);
    }
  }

  lemma PairStaysApart(f: Fleet, id: string, e: Event, a: string, b: string)
    requires Sound(f) && Possible(f, id, e) && a in f && b in f && a != b
    ensures Apart(Advance(f, id, e)[a].fence, Advance(f, id, e)[b].fence)
  {
    EventMoves(f[id], e);
    EachAdvances(f, id, e, a);
    EachAdvances(f, id, e, b);
    assert Apart(f[a].fence, f[b].fence) && Apart(f[b].fence, f[a].fence);
  }

  lemma AdvanceIsSound(f: Fleet, id: string, e: Event)
    requires Sound(f) && Possible(f, id, e)
    ensures Sound(Advance(f, id, e))
  {
    var n := Advance(f, id, e);
    forall k | k in n ensures Reachable(n[k]) && Numbering(n[k].fence) && n[k].fence.sequence == n[id].fence.sequence {
      EachAdvances(f, id, e, k);
    }
    forall a, b | a in n && b in n && a != b ensures Apart(n[a].fence, n[b].fence) {
      PairStaysApart(f, id, e, a, b);
    }
  }

  /**
    In every run of the whole controller each service is in a state that its own machine
    reaches, so every theorem about one machine holds for all services at once; and an
    outstanding attempt number belongs to one service only.
   */
  lemma {:induction false} EveryServiceFollowsItsMachine(f: Fleet, steps: seq<Step>)
    requires Sound(f) && Replayed(f, steps).Some?
    ensures Sound(Replayed(f, steps).value)
    decreases |steps|
  {
    if steps != [] {
      AdvanceIsSound(f, steps[0].id, steps[0].event);
      EveryServiceFollowsItsMachine(Advance(f, steps[0].id, steps[0].event), steps[1..]);
    }
  }

  lemma BegunIsSound(f: Fleet)
    requires Begun(f)
    ensures Sound(f)
  {
    assert Replay(INITIAL, []) == Some(INITIAL);
  }
}
