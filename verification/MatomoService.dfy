/**
  The PHP that creates and edits the Matomo site of a service
  (whmcs-plugin/modules/servers/moddhosting/lib/matomo.php and moddhosting.php), on a
  database row and a remote server whose every answer may be lost.  `calm` is whether
  every call is answered and nothing else happens meanwhile.
 */
module MatomoService {
  import opened Prelude
  import opened Matomo

  class Service {
    // The row.
    var id: Option<nat>
    var attempt: Option<nat>
    // The Matomo server, and the requests on their way to it.
    var sites: map<nat, Group>
    var adds: set<nat>
    var renames: set<nat>

    ghost var pc: Pc
    ghost var past: History

    ghost function State(): Sys
      reads this
    {
      Sys(Row(id, attempt), Remote(sites, adds, renames), pc, past)
    }

    ghost predicate Valid()
      reads this
    {
      Inv(State())
    }

    constructor ()
      ensures Valid() && State() == INITIAL
    {
      id, attempt, sites, adds, renames := None, None, map[], {}, {};
      pc, past := Free, INITIAL.past;
    }

    // ------------------------------------------------------------ what the world does

    /** Late requests arrive and other sites come and go; then the process may be dead. */
    method Meanwhile(calm: bool) returns (dead: bool)
      requires Valid()
      modifies `sites, `adds, `renames, `past, `pc
      ensures Valid()
      ensures past.issued == old(past.issued) && past.sends == old(past.sends) && past.resets == old(past.resets)
      ensures pc == if dead then Free else old(pc)
      ensures calm ==> !dead && State() == old(State())
    {
      if calm {
        return false;
      }
      dead := *;
      var more: bool, turns: nat := *, *;
      while more && turns > 0
        invariant Valid() && pc == old(pc)
        invariant past.issued == old(past.issued) && past.sends == old(past.sends) && past.resets == old(past.resets)
        decreases turns
      {
        Arrive();
        more, turns := *, turns - 1;
      }
      if dead {
        StepKeeps(State(), Crash);
        pc := Free;
      }
    }

    method Arrive()
      requires Valid()
      modifies `sites, `adds, `renames, `past
      ensures Valid()
      ensures past.issued == old(past.issued) && past.sends == old(past.sends) && past.resets == old(past.resets)
    {
      var marker: nat, site: nat, add: bool := *, *, *;
      if add && marker in adds && FreshSite(Remote(sites, adds, renames), site) {
        StepKeeps(State(), AddArrives(marker, site));
        sites, adds := sites[site := Marked(marker)], adds - {marker};
        past := past.(born := past.born[site := marker]);
      } else if site in renames {
        StepKeeps(State(), RenameArrives(site));
        sites, renames := Renamed(sites, site), renames - {site};
      } else if FreshSite(Remote(sites, adds, renames), site) {
        StepKeeps(State(), ForeignSite(site));
        sites := sites[site := Named];
      }
    }

    // ------------------------------------------------------- single calls and their fates

    static method AnyWrite(calm: bool) returns (w: Write)
      ensures calm ==> w.Done?
    {
      w := *;
      if calm {
        w := Done;
      }
    }

    method WriteMarker(marker: nat, calm: bool) returns (w: Write)
      requires Valid() && pc.Marking? && marker !in past.issued
      modifies `attempt, `pc, `past
      ensures Valid() && State() == Apply(old(State()), Mark(marker, w))
      ensures attempt == if w.Refused? then old(attempt) else Some(marker)
      ensures calm ==> w.Done?
    {
      w := AnyWrite(calm);
      StepKeeps(State(), Mark(marker, w));
      if !w.Refused? {
        attempt := Some(marker);
      }
      pc := if w.Done? then Sending(marker) else Free;
      past := past.(issued := past.issued + {marker});
    }

    /** SitesManager.addSite; `site` is the ID that an answered request gives. */
    method AddSite(marker: nat, site: nat, calm: bool) returns (d: Delivery)
      requires Valid() && pc == Sending(marker)
      modifies `sites, `adds, `pc, `past
      ensures Valid() && Enabled(old(State()), Send(d)) && State() == SendStep(old(State()), d)
      ensures d.Answered? ==> d.id == site
      ensures calm && old(FreshSite(Remote(sites, adds, renames), site)) ==> d == Answered(site)
    {
      d := *;
      if d.Answered? || calm {
        d := if FreshSite(Remote(sites, adds, renames), site) then Answered(site) else Unknown;
      }
      ghost var before, next := State(), SendStep(State(), d);
      SendKeeps(before, d);
      pc, past := next.pc, next.past;
      match d {
        case Answered(_) =>
          assert next.remote == before.remote.(sites := before.remote.sites[site := Marked(marker)]);
          sites := sites[site := Marked(marker)];
        case NotSent =>
          assert next.remote == before.remote;
        case Unknown =>
          assert next.remote == before.remote.(adds := before.remote.adds + {marker});
          adds := adds + {marker};
      }
      assert State() == next;
    }

    method ClearMarker(calm: bool)
      requires Valid() && pc.Clearing?
      modifies `attempt, `pc
      ensures Valid() && pc.Free?
      ensures attempt.None? || attempt == old(attempt)
      ensures calm ==> attempt.None?
    {
      var w := AnyWrite(calm);
      StepKeeps(State(), Clear(w));
      if !w.Refused? {
        attempt := None;
      }
      pc := Free;
    }

    method StoreId(site: nat, calm: bool) returns (w: Write)
      requires Valid() && pc == Storing(site)
      modifies `id, `attempt, `pc
      ensures Valid() && State() == Apply(old(State()), Store(w))
      ensures if w.Refused? then id == old(id) && attempt == old(attempt) else id == Some(site) && attempt.None?
      ensures calm ==> w.Done?
    {
      w := AnyWrite(calm);
      StepKeeps(State(), Store(w));
      if !w.Refused? {
        id, attempt := Some(site), None;
      }
      pc := if w.Done? then Renaming(site) else Free;
    }

    /** SitesManager.updateSite, which also replaces the marker. */
    method UpdateSite(site: nat, calm: bool) returns (d: Delivery)
      requires Valid() && pc == Renaming(site)
      modifies `sites, `renames, `pc
      ensures Valid() && State() == Apply(old(State()), Rename(d))
      ensures calm ==> d.Answered?
    {
      d := *;
      if calm {
        d := Answered(site);
      }
      StepKeeps(State(), Rename(d));
      match d {
        case Answered(_) => sites := Renamed(sites, site);
        case NotSent =>
        case Unknown => renames := renames + {site};
      }
      pc := Free;
    }

    /** SitesManager.getPatternMatchSites: the sites in any order, or no usable answer. */
    method ListSites(answered: bool) returns (listing: Option<seq<(nat, Group)>>)
      ensures listing.Some? <==> answered
      ensures listing.Some? ==>
                && (forall i :: 0 <= i < |listing.value| ==>
                      listing.value[i].0 in sites && listing.value[i].1 == sites[listing.value[i].0])
                && (forall i, j :: 0 <= i < j < |listing.value| ==> listing.value[i].0 != listing.value[j].0)
                && (forall k :: k in sites ==> exists i :: 0 <= i < |listing.value| && listing.value[i].0 == k)
    {
      if !answered {
        return None;
      }
      var rows: seq<(nat, Group)> := [];
      var left := sites.Keys;
      while left != {}
        invariant left <= sites.Keys
        invariant forall i :: 0 <= i < |rows| ==>
                            rows[i].0 in sites && rows[i].0 !in left && rows[i].1 == sites[rows[i].0]
        invariant forall i, j :: 0 <= i < j < |rows| ==> rows[i].0 != rows[j].0
        invariant forall k :: k in sites && k !in left ==> exists i :: 0 <= i < |rows| && rows[i].0 == k
        decreases left
      {
        var k :| k in left;
        ghost var before := rows;
        rows := rows + [(k, sites[k])];
        left := left - {k};
        assert rows[|rows| - 1].0 == k;
        assert forall i :: 0 <= i < |before| ==> rows[i] == before[i];
      }
      return Some(rows);
    }

    /** The site that carries the pending marker, if the lookup is answered and names exactly one. */
    method LookUpSite(answered: bool) returns (found: Option<nat>)
      requires Valid() && pc.LookingUp?
      modifies `pc
      ensures Valid() && Enabled(old(State()), LookUp(found)) && State() == Apply(old(State()), LookUp(found))
      ensures found.Some? <==> answered && |Carriers(sites, attempt.value)| == 1
    {
      found := FindCarrier(attempt.value, answered);
      StepKeeps(State(), LookUp(found));
      pc := if found.Some? then Storing(found.value) else Free;
    }

    /** The only site found under this marker, unless the lookup is not answered or names none or several. */
    method FindCarrier(marker: nat, answered: bool) returns (found: Option<nat>)
      ensures found.Some? <==> answered && |Carriers(sites, marker)| == 1
      ensures found.Some? ==> Carriers(sites, marker) == {found.value}
    {
      var listing := ListSites(answered);
      if listing.None? {
        return None;
      }
      var matches := MatchingSites(listing.value, marker);
      MatchesAreCarriers(listing.value, marker, matches);
      CountsAgree(matches, Carriers(sites, marker));
      if |matches| != 1 {
        return None;
      }
      return Some(matches[0]);
    }

    /** The loop that fills $matches. */
    static method MatchingSites(listing: seq<(nat, Group)>, marker: nat) returns (matches: seq<nat>)
      requires forall i, j :: 0 <= i < j < |listing| ==> listing[i].0 != listing[j].0
      ensures forall k :: k in matches <==> exists i :: 0 <= i < |listing| && listing[i] == (k, Marked(marker))
      ensures forall i, j :: 0 <= i < j < |matches| ==> matches[i] != matches[j]
    {
      matches := [];
      for i := 0 to |listing|
        invariant forall j, k :: 0 <= j < k < |matches| ==> matches[j] != matches[k]
        invariant forall k :: k in matches <==> exists j :: 0 <= j < i && listing[j] == (k, Marked(marker))
      {
        if listing[i].1 == Marked(marker) {
          matches := matches + [listing[i].0];
          assert listing[i] == (listing[i].0, Marked(marker));
        }
      }
    }

    /** A list without repetitions is as long as its set. */
    static lemma {:induction false} CountsAgree(list: seq<nat>, all: set<nat>)
      requires forall k :: k in list <==> k in all
      requires forall i, j :: 0 <= i < j < |list| ==> list[i] != list[j]
      ensures |list| == |all|
      decreases |list|
    {
      if list == [] {
        assert all == {};
      } else {
        var last := |list| - 1;
        assert list[last] in all;
        forall k ensures k in list[..last] <==> k in all - {list[last]} {
          assert k in list <==> k in list[..last] || k == list[last];
        }
        CountsAgree(list[..last], all - {list[last]});
      }
    }

    lemma MatchesAreCarriers(listing: seq<(nat, Group)>, marker: nat, matches: seq<nat>)
      requires forall i :: 0 <= i < |listing| ==> listing[i].0 in sites && listing[i].1 == sites[listing[i].0]
      requires forall k :: k in sites ==> exists i :: 0 <= i < |listing| && listing[i].0 == k
      requires forall k :: k in matches <==> exists i :: 0 <= i < |listing| && listing[i] == (k, Marked(marker))
      ensures forall k :: k in matches <==> k in Carriers(sites, marker)
    {
      forall k | k in Carriers(sites, marker)
        ensures k in matches
      {
        var i :| 0 <= i < |listing| && listing[i].0 == k;
        assert listing[i] == (k, Marked(marker));
      }
    }

    // ------------------------------------------------------------------ the operations

    /**
      moddhosting_matomo_id.  `locked` is whether the named lock was acquired, `usable`
      whether the settings and the domains are valid, `marker` the random marker.  An ID
      is returned only if it is the one stored; whatever happened, the row still tells
      every site created for it, and a row that was not blank is asked for no new site.
      If nothing goes wrong a stored ID is kept, a pending marker is resolved if exactly
      one site carries it, and a blank row gets the one new site.
     */
    method MatomoId(create: bool, locked: bool, usable: bool, marker: nat, site: nat, calm: bool)
      returns (r: Option<nat>, dead: bool)
      requires Valid() && pc.Free? && marker !in past.issued
      modifies this
      ensures Valid() && pc.Free?
      ensures r.Some? ==> id == r
      ensures !create || !locked || !usable ==> State() == old(State()) && (locked ==> r == id)
      ensures past.resets == old(past.resets)
      ensures past.sends <= old(past.sends) + (if old(Blank(Row(id, attempt))) then 1 else 0)
      ensures old(id).Some? ==> id == old(id)
      ensures calm && create && locked && usable ==>
                if old(id).Some? then r == old(id)
                else if old(attempt).Some? then
                  && (r.Some? <==> |old(Carriers(sites, attempt.value))| == 1)
                  && (r.Some? ==> old(Carriers(sites, attempt.value)) == {r.value} && attempt.None?)
                else
                  old(FreshSite(Remote(sites, adds, renames), site)) ==>
                    r == Some(site) && attempt.None? && past.sends == old(past.sends) + 1
      ensures calm && create && locked && usable && r.Some? && r.value in sites ==> sites[r.value] == Named
    {
      r, dead := None, false;
      if !locked {
        return;
      }
      r := id;
      if !create || !usable {
        return;
      }
      StepKeeps(State(), Begin);
      pc := Apply(State(), Begin).pc;
      if id.None? {
        r, dead := CreateOrRecover(marker, site, calm);
        if dead || r.None? {
          return;
        }
      }
      dead := Meanwhile(calm);
      if !dead {
        var answer := UpdateSite(r.value, calm);
      }
    }

    /** The part of moddhosting_matomo_id for a row without an ID. */
    method CreateOrRecover(marker: nat, newSite: nat, calm: bool) returns (r: Option<nat>, dead: bool)
      requires Valid() && id.None? && marker !in past.issued
      requires pc == if attempt.Some? then LookingUp else Marking
      modifies this
      ensures Valid() && past.resets == old(past.resets)
      ensures past.sends <= old(past.sends) + (if old(attempt).None? then 1 else 0)
      ensures r.Some? ==> id == r
      ensures pc == if r.Some? then Renaming(r.value) else Free
      ensures dead ==> r.None?
      ensures r.Some? ==> attempt.None?
      ensures calm && old(attempt).Some? ==>
                && (r.Some? <==> |old(Carriers(sites, attempt.value))| == 1)
                && (r.Some? ==> old(Carriers(sites, attempt.value)) == {r.value})
      ensures calm && old(attempt).None? && old(FreshSite(Remote(sites, adds, renames), newSite)) ==>
                r == Some(newSite) && past.sends == old(past.sends) + 1
    {
      var site: Option<nat>;
      if attempt.Some? {
        var answered: bool := *;
        site := LookUpSite(answered || calm);
        dead := false;
      } else {
        site, dead := CreateSite(marker, newSite, calm);
      }
      if site.None? {
        return None, dead;
      }
      dead := Meanwhile(calm);
      if dead {
        return None, true;
      }
      var w := StoreId(site.value, calm);
      r := if w.Done? then site else None;
    }

    /** The marker is stored, then the site is requested; only a proof that it was not sent takes it back. */
    method CreateSite(marker: nat, newSite: nat, calm: bool) returns (site: Option<nat>, dead: bool)
      requires Valid() && pc.Marking? && marker !in past.issued
      modifies this
      ensures Valid() && id == old(id) && past.resets == old(past.resets) && past.sends <= old(past.sends) + 1
      ensures pc == if site.Some? then Storing(site.value) else Free
      ensures calm && old(FreshSite(Remote(sites, adds, renames), newSite)) ==>
                site == Some(newSite) && !dead && past.sends == old(past.sends) + 1
    {
      site, dead := None, false;
      var w := WriteMarker(marker, calm);
      if !w.Done? {
        return;
      }
      dead := Meanwhile(calm);
      if dead {
        return;
      }
      var d := AddSite(marker, newSite, calm);
      if d.Answered? {
        site := Some(d.id);
      } else if d.NotSent? {
        dead := Meanwhile(calm);
        if !dead {
          ClearMarker(calm);
        }
      }
    }

    /**
      The locked save of moddhosting_save_service_config.  It drops from what it is about
      to write whatever an unchanged ID should keep.
     */
    method SaveServiceConfig(newId: Option<nat>, preservePending: bool, locked: bool, calm: bool) returns (ok: bool)
      requires Valid() && pc.Free?
      modifies `id, `attempt, `past
      ensures Valid() && pc.Free?
      ensures !locked ==> !ok && State() == old(State())
      ensures ok ==> id == newId
      ensures ok ==> attempt == if old(id) == newId && preservePending then old(attempt) else None
      ensures !ok ==>
                || (id == old(id) && attempt == old(attempt))
                || (id == newId && attempt == if old(id) == newId && preservePending then old(attempt) else None)
      ensures calm && locked ==> ok
      ensures past.resets ==
              old(past.resets) + (if old(!Blank(Row(id, attempt))) && Blank(Row(id, attempt)) then 1 else 0)
    {
      if !locked {
        return false;
      }
      var writeAttempt := true;
      var savedId := id;
      if savedId == newId && (preservePending || savedId.Some?) {
        if preservePending {
          writeAttempt := false;
        }
      }
      var w := AnyWrite(calm);
      StepKeeps(State(), Save(newId, preservePending, w));
      past := Apply(State(), Save(newId, preservePending, w)).past;
      if !w.Refused? {
        id := newId;
        if writeAttempt {
          attempt := None;
        }
      }
      return w.Done?;
    }
  }
}
