/** What creation of Matomo sites guarantees on every run, with losses and crashes anywhere. */
module MatomoTheorems {
  import opened Prelude
  import opened Matomo

  // ------------------------------------------------------------------- at most once

  /** Sites created, together with those that may still appear: never more than edits allow. */
  lemma CreationsAreBounded(s: Sys)
    requires Reachable(s)
    ensures |s.past.born| + |s.remote.adds| <= s.past.resets + (if Blank(s.row) then 0 else 1)
  {
    ReachableInv(s);
  }

  /** The saves of a run that may have blanked the row. */
  function Clearings(events: seq<Event>): nat {
    if events == [] then 0
    else Clearings(events[1..]) + (if events[0].Save? && events[0].newId.None? && !events[0].w.Refused? then 1 else 0)
  }

  lemma {:induction false} ResetsAreSaves(s: Sys, events: seq<Event>)
    requires Replay(s, events).Some?
    ensures Replay(s, events).value.past.resets <= s.past.resets + Clearings(events)
    decreases |events|
  {
    if events != [] {
      ResetsAreSaves(Apply(s, events[0]), events[1..]);
    }
  }

  /** Over any run at most one site is created, plus one for each save that left the ID blank. */
  lemma AtMostOneSiteAndOnePerClearing(events: seq<Event>)
    requires Replay(INITIAL, events).Some?
    ensures |Replay(INITIAL, events).value.past.born| <= 1 + Clearings(events)
  {
    CreationsAreBounded(Replay(INITIAL, events).value);
    ResetsAreSaves(INITIAL, events);
  }

  /** A creation request is on its way, and a save has cleared its marker. */
  lemma ClearedWhilePending() returns (s: Sys)
    ensures Reachable(s) && s.pc.Free? && s.row == Row(None, None) && s.past.resets == 1
    ensures s.remote == Remote(map[], {0}, {}) && s.past.born == map[] && s.past.issued == {0}
  {
    assert Replay(INITIAL, []) == Some(INITIAL);
    var s1 := Step(INITIAL, Begin);
    var s2 := Step(s1, Mark(0, Done));
    var s3 := Step(s2, Send(Unknown));
    s := Step(s3, Save(None, false, Done));
  }

  /** The bound is met: clearing a pending marker while its request is on the way gives two sites. */
  lemma ClearingCanDuplicate()
    ensures exists s: Sys :: Reachable(s) && |s.past.born| == 2 && s.past.resets == 1
  {
    var s4 := ClearedWhilePending();
    var s5 := Step(s4, AddArrives(0, 10));
    var s6 := Step(s5, Begin);
    var s7 := Step(s6, Mark(1, Done));
    var s8 := Step(s7, Send(Answered(11)));
    assert s8.past.born.Keys == {10, 11};
  }

  lemma Step(s: Sys, e: Event) returns (n: Sys)
    requires Reachable(s) && Enabled(s, e)
    ensures n == Apply(s, e) && Reachable(n)
  {
    n := Apply(s, e);
    var events :| Replay(INITIAL, events) == Some(s);
    ReplayAppend(INITIAL, events, e);
  }

  lemma {:induction false} ReplayAppend(s: Sys, first: seq<Event>, e: Event)
    requires Replay(s, first).Some? && Enabled(Replay(s, first).value, e)
    ensures Replay(s, first + [e]) == Some(Apply(Replay(s, first).value, e))
    decreases |first|
  {
    if first == [] {
      assert [e][1..] == [];
      assert first + [e] == [e];
    } else {
      assert (first + [e])[1..] == first[1..] + [e];
      ReplayAppend(Apply(s, first[0]), first[1..], e);
    }
  }

  // ------------------------------------------------------------------ nothing orphaned

  /**
    At every point since the row was last edited, a site that was created can be found:
    its ID is stored, or it still carries the marker that is stored.
   */
  lemma NoSiteIsOrphaned(s: Sys, k: nat)
    requires Reachable(s) && k in s.past.born && s.past.sent == Some(s.past.born[k])
    ensures
      || s.row.id == Some(k)
      || (s.row.attempt == Some(s.past.born[k]) && k in s.remote.sites && s.remote.sites[k] == Marked(s.past.born[k]))
  {
    ReachableInv(s);
  }

  /** A site loses its marker only once its ID is stored. */
  lemma MarkersGoAfterTheIdIsStored(s: Sys, e: Event, k: nat)
    requires Reachable(s) && Enabled(s, e) && k in s.past.born && s.past.sent == Some(s.past.born[k])
    requires k in s.remote.sites && s.remote.sites[k] == Marked(s.past.born[k])
    ensures k in Apply(s, e).remote.sites
    ensures Apply(s, e).remote.sites[k] != Marked(s.past.born[k]) ==> s.row.id == Some(k)
  {
    ReachableInv(s);
  }

  /** A lookup finds the one site that was created under the pending marker, and no other. */
  lemma LookupFindsExactlyThatSite(s: Sys, found: nat)
    requires Reachable(s) && s.pc.LookingUp? && Enabled(s, LookUp(Some(found)))
    ensures found in s.past.born && Some(s.past.born[found]) == s.row.attempt
    ensures forall k :: k in s.past.born && Some(s.past.born[k]) == s.row.attempt ==> k == found
  {
    ReachableInv(s);
    assert found in Carriers(s.remote.sites, s.row.attempt.value);
  }

  function Recovery(k: nat): seq<Event> {
    [Begin] + ([LookUp(Some(k))] + ([Store(Done)] + [Rename(Answered(k))]))
  }

  lemma ReplayCons(s: Sys, e: Event, rest: seq<Event>)
    requires Enabled(s, e)
    ensures Replay(s, [e] + rest) == Replay(Apply(s, e), rest)
  {
    assert ([e] + rest)[1..] == rest;
  }

  lemma OnlyCarrier(s: Sys, k: nat)
    requires Inv(s) && k in s.past.born && s.past.sent == Some(s.past.born[k]) && s.row == Row(None, s.past.sent)
    ensures Carriers(s.remote.sites, s.past.born[k]) == {k}
  {
  }

  /** However the earlier attempt ended, an undisturbed Deploy stores the ID of the site it created. */
  lemma DeployRecoversTheSite(s: Sys, k: nat)
    requires Reachable(s) && s.pc.Free? && s.row.id.None?
    requires k in s.past.born && s.past.sent == Some(s.past.born[k])
    ensures Replay(s, Recovery(k)).Some?
    ensures
      var n := Replay(s, Recovery(k)).value;
      && n.row == Row(Some(k), None) && n.remote.sites == s.remote.sites[k := Named]
      && n.past == s.past && n.remote.adds == s.remote.adds
  {
    ReachableInv(s);
    OnlyCarrier(s, k);
    var s1 := s.(pc := LookingUp);
    var s2 := s.(pc := Storing(k));
    var s3 := s.(pc := Renaming(k), row := Row(Some(k), None));
    ReplayCons(s, Begin, [LookUp(Some(k))] + ([Store(Done)] + [Rename(Answered(k))]));
    ReplayCons(s1, LookUp(Some(k)), [Store(Done)] + [Rename(Answered(k))]);
    ReplayCons(s2, Store(Done), [Rename(Answered(k))]);
    assert [Rename(Answered(k))] + [] == [Rename(Answered(k))];
    ReplayCons(s3, Rename(Answered(k)), []);
  }

  function Creation(marker: nat, k: nat): seq<Event> {
    [Begin] + ([Mark(marker, Done)] + ([Send(Answered(k))] + ([Store(Done)] + [Rename(Answered(k))])))
  }

  /** An undisturbed Deploy of a blank row creates one site, stores its ID and names it. */
  lemma DeployCreatesTheSite(s: Sys, marker: nat, k: nat)
    requires s.pc.Free? && Blank(s.row) && marker !in s.past.issued && FreshSite(s.remote, k)
    ensures Replay(s, Creation(marker, k)).Some?
    ensures
      var n := Replay(s, Creation(marker, k)).value;
      && n.row == Row(Some(k), None) && n.remote == s.remote.(sites := s.remote.sites[k := Named])
      && n.past.sends == s.past.sends + 1 && n.past.born == s.past.born[k := marker] && n.pc.Free?
  {
    var rest := [Store(Done)] + [Rename(Answered(k))];
    var s1 := s.(pc := Marking);
    var s2 := MarkStep(s1, marker, Done);
    var s3 := SendStep(s2, Answered(k));
    var s4 := StoreStep(s3, Done);
    ReplayCons(s, Begin, [Mark(marker, Done)] + ([Send(Answered(k))] + rest));
    ReplayCons(s1, Mark(marker, Done), [Send(Answered(k))] + rest);
    ReplayCons(s2, Send(Answered(k)), rest);
    ReplayCons(s3, Store(Done), [Rename(Answered(k))]);
    assert [Rename(Answered(k))] + [] == [Rename(Answered(k))];
    ReplayCons(s4, Rename(Answered(k)), []);
  }
}
