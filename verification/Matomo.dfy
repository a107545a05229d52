/**
  At-most-once creation of the Matomo site of one hosted service
  (whmcs-plugin/modules/servers/moddhosting/lib/matomo.php), as a state machine over
  the database row, the remote sites and the requests still on their way.

  A marker is persisted before the site is created under it, the site's ID is persisted
  before the marker is replaced remotely, and a marker without an ID is looked up.  Any
  response and any database answer may be lost, a request may arrive long after its
  sender gave up, and the process may die between any two steps.

  Assumed: the named lock is exclusive while its holder lives, markers are fresh, only
  this module sets groups that are markers, and a new site does not get an ID that an
  update still on its way names.
 */
module Matomo {
  import opened Prelude

  /** The two columns of the service's row. */
  datatype Row = Row(id: Option<nat>, attempt: Option<nat>)

  /** A site's group, or its name in sites of older versions: a marker or anything else. */
  datatype Group = Marked(marker: nat) | Named

  /** The sites by ID, and the requests that were sent but not answered. */
  datatype Remote = Remote(sites: map<nat, Group>, adds: set<nat>, renames: set<nat>)

  /** Where the holder of the lock stands. */
  datatype Pc =
    | Free
    | Marking
    | Sending(marker: nat)
    | Clearing
    | LookingUp
    | Storing(id: nat)
    | Renaming(id: nat)

  /** Read by no step of the source. */
  datatype History = History(
    issued: set<nat>,       // every marker ever generated
    born: map<nat, nat>,    // the marker under which each site of this module was created
    sent: Option<nat>,      // the marker of the creation requested since the row was last edited
    sends: nat,             // creation requests that may have left
    resets: nat)            // edits that blanked the row

  datatype Sys = Sys(row: Row, remote: Remote, pc: Pc, past: History)

  const INITIAL := Sys(Row(None, None), Remote(map[], {}, {}), Free, History({}, map[], None, 0, 0))

  predicate Blank(row: Row) {
    row.id.None? && row.attempt.None?
  }

  /** A database write: done, refused, or done although the answer was lost. */
  datatype Write = Done | Refused | Unheard

  datatype Delivery =
    | Answered(id: nat) // the site exists, and its ID came back
    | NotSent           // an error that proves the request never left
    | Unknown           // any other error; the request may arrive later, or never

  datatype Event =
    | Begin
    | Mark(marker: nat, w: Write)
    | Send(d: Delivery)
    | Clear(w: Write)
    | LookUp(found: Option<nat>)
    | Store(w: Write)
    | Rename(d: Delivery)
    | Crash
    | AddArrives(marker: nat, id: nat)
    | RenameArrives(id: nat)
    | Save(newId: Option<nat>, preservePending: bool, w: Write)
    | Import(id: nat)
    | ForeignSite(id: nat)

  function Carriers(sites: map<nat, Group>, marker: nat): set<nat> {
    set k | k in sites && sites[k] == Marked(marker)
  }

  predicate FreshSite(remote: Remote, id: nat) {
    id !in remote.sites && id !in remote.renames
  }

  predicate Enabled(s: Sys, e: Event) {
    match e
    case Begin => s.pc.Free?
    case Mark(m, _) => s.pc.Marking? && m !in s.past.issued
    case Send(d) => s.pc.Sending? && (d.Answered? ==> FreshSite(s.remote, d.id))
    case Clear(_) => s.pc.Clearing?
    case LookUp(found) =>
      s.pc.LookingUp? && s.row.attempt.Some?
      && (found.Some? ==> Carriers(s.remote.sites, s.row.attempt.value) == {found.value})
    case Store(_) => s.pc.Storing?
    case Rename(_) => s.pc.Renaming?
    case Crash => true
    case AddArrives(m, id) => m in s.remote.adds && FreshSite(s.remote, id)
    case RenameArrives(id) => id in s.remote.renames
    case Save(_, _, _) => s.pc.Free?
    case Import(_) => s.pc.Free? && s.row.id.None?
    case ForeignSite(id) => FreshSite(s.remote, id)
  }

  function Born(s: Sys, id: nat, marker: nat): Sys {
    s.(remote := s.remote.(sites := s.remote.sites[id := Marked(marker)]),
       past := s.past.(born := s.past.born[id := marker]))
  }

  function MarkStep(s: Sys, marker: nat, w: Write): Sys {
    var n := s.(past := s.past.(issued := s.past.issued + {marker}),
                row := if w.Refused? then s.row else s.row.(attempt := Some(marker)));
    n.(pc := if w.Done? then Sending(marker) else Free)
  }

  function SendStep(s: Sys, d: Delivery): Sys
    requires s.pc.Sending?
  {
    var m := s.pc.marker;
    var out := s.(past := s.past.(sent := Some(m), sends := s.past.sends + 1));
    match d
    case Answered(id) => Born(out, id, m).(pc := Storing(id))
    case NotSent => s.(pc := Clearing)
    case Unknown => out.(remote := s.remote.(adds := s.remote.adds + {m}), pc := Free)
  }

  function StoreStep(s: Sys, w: Write): Sys
    requires s.pc.Storing?
  {
    var n := if w.Refused? then s else s.(row := Row(Some(s.pc.id), None));
    n.(pc := if w.Done? then Renaming(s.pc.id) else Free)
  }

  function Renamed(sites: map<nat, Group>, id: nat): map<nat, Group> {
    if id in sites then sites[id := Named] else sites
  }

  function RenameStep(s: Sys, d: Delivery): Sys
    requires s.pc.Renaming?
  {
    match d
    case Answered(_) => s.(remote := s.remote.(sites := Renamed(s.remote.sites, s.pc.id)), pc := Free)
    case NotSent => s.(pc := Free)
    case Unknown => s.(remote := s.remote.(renames := s.remote.renames + {s.pc.id}), pc := Free)
  }

  /** What moddhosting_save_service_config writes: an equal ID keeps a pending marker only if asked to. */
  function SavedRow(row: Row, id: Option<nat>, preservePending: bool): Row {
    Row(id, if row.id == id && preservePending then row.attempt else None)
  }

  function SaveStep(s: Sys, id: Option<nat>, preservePending: bool, w: Write): Sys {
    var row := SavedRow(s.row, id, preservePending);
    if w.Refused? || row == s.row then s
    else s.(row := row, past := s.past.(sent := None, resets := s.past.resets + (if Blank(row) then 1 else 0)))
  }

  function Apply(s: Sys, e: Event): Sys
    requires Enabled(s, e)
  {
    match e
    case Begin =>
      s.(pc := if s.row.id.Some? then Renaming(s.row.id.value) else if s.row.attempt.Some? then LookingUp else Marking)
    case Mark(m, w) => MarkStep(s, m, w)
    case Send(d) => SendStep(s, d)
    case Clear(w) => s.(row := if w.Refused? then s.row else s.row.(attempt := None), pc := Free)
    case LookUp(found) => s.(pc := if found.Some? then Storing(found.value) else Free)
    case Store(w) => StoreStep(s, w)
    case Rename(d) => RenameStep(s, d)
    case Crash => s.(pc := Free)
    case AddArrives(m, id) =>
      var n := Born(s, id, m);
      n.(remote := n.remote.(adds := s.remote.adds - {m}))
    case RenameArrives(id) =>
      s.(remote := s.remote.(sites := Renamed(s.remote.sites, id), renames := s.remote.renames - {id}))
    case Save(id, preserve, w) => SaveStep(s, id, preserve, w)
    case Import(id) => s.(row := s.row.(id := Some(id)))
    case ForeignSite(id) => s.(remote := s.remote.(sites := s.remote.sites[id := Named]))
  }

  function Replay(s: Sys, events: seq<Event>): Option<Sys>
    decreases |events|
  {
    if events == [] then Some(s)
    else if Enabled(s, events[0]) then Replay(Apply(s, events[0]), events[1..])
    else None
  }

  ghost predicate Reachable(s: Sys) {
    exists events: seq<Event> :: Replay(INITIAL, events) == Some(s)
  }

  // -------------------------------------------------------------------- the invariant

  /** Each marker was used for at most one site or one request still on its way. */
  ghost predicate MarkersUnique(remote: Remote, past: History) {
    && (forall m :: m in remote.adds ==> m in past.issued)
    && (forall k :: k in past.born ==>
          k in remote.sites && past.born[k] in past.issued && past.born[k] !in remote.adds)
    && (forall j, k :: j in past.born && k in past.born && past.born[j] == past.born[k] ==> j == k)
    && (forall k :: k in remote.sites && remote.sites[k].Marked? ==>
          k in past.born && past.born[k] == remote.sites[k].marker)
  }

  /** The site of marker m is found by the row: its ID is stored, or its marker is stored and still on it. */
  ghost predicate Findable(row: Row, remote: Remote, m: nat, k: nat) {
    row.id == Some(k) || (row.attempt == Some(m) && k in remote.sites && remote.sites[k] == Marked(m))
  }

  ghost predicate Traced(s: Sys) {
    && (s.row.attempt.Some? ==> s.row.attempt.value in s.past.issued)
    && (s.past.sent.Some? ==>
          var m := s.past.sent.value;
          && m in s.past.issued
          && (s.row.attempt == Some(m)
              || (s.row.id.Some? && s.row.id.value in s.past.born && s.past.born[s.row.id.value] == m))
          && (forall k :: k in s.past.born && s.past.born[k] == m ==> Findable(s.row, s.remote, m, k))
          && (forall k :: k in s.remote.renames && k in s.past.born && s.past.born[k] == m ==> s.row.id == Some(k)))
  }

  ghost predicate PcOk(s: Sys) {
    match s.pc
    case Free => true
    case Marking => Blank(s.row)
    case Sending(m) =>
      && s.row == Row(None, Some(m)) && s.past.sent.None?
      && m in s.past.issued && m !in s.remote.adds && forall k :: k in s.past.born ==> s.past.born[k] != m
    case Clearing => s.row.id.None? && s.past.sent.None?
    case LookingUp => s.row.id.None? && s.row.attempt.Some?
    case Storing(k) =>
      && s.row.id.None? && s.row.attempt.Some? && k in s.past.born && s.past.born[k] == s.row.attempt.value
      && (s.past.sent.Some? ==> s.past.sent == s.row.attempt)
    case Renaming(k) => s.row.id == Some(k)
  }

  ghost predicate Counted(s: Sys) {
    && |s.past.born| + |s.remote.adds| <= s.past.sends
    && s.past.sends <= s.past.resets + (if Blank(s.row) || s.pc.Sending? || s.pc.Clearing? then 0 else 1)
  }

  ghost predicate Inv(s: Sys) {
    MarkersUnique(s.remote, s.past) && Traced(s) && PcOk(s) && Counted(s)
  }

  lemma MarkKeeps(s: Sys, marker: nat, w: Write)
    requires Inv(s) && Enabled(s, Mark(marker, w))
    ensures Inv(MarkStep(s, marker, w))
  {
  }

  lemma SendKeeps(s: Sys, d: Delivery)
    requires Inv(s) && Enabled(s, Send(d))
    ensures Inv(SendStep(s, d))
  {
    if d.Answered? {
      assert SendStep(s, d).past.born.Keys == s.past.born.Keys + {d.id};
    }
  }

  lemma StoreKeeps(s: Sys, w: Write)
    requires Inv(s) && Enabled(s, Store(w))
    ensures Inv(StoreStep(s, w))
  {
  }

  lemma AddKeeps(s: Sys, e: Event)
    requires Inv(s) && e.AddArrives? && Enabled(s, e)
    ensures Inv(Apply(s, e))
  {
    var n := Apply(s, e);
    assert n.past.born.Keys == s.past.born.Keys + {e.id};
    assert e.marker in s.remote.adds;
  }

  lemma RenameKeeps(s: Sys, e: Event)
    requires Inv(s) && (e.Rename? || e.RenameArrives?) && Enabled(s, e)
    ensures Inv(Apply(s, e))
  {
  }

  lemma SaveKeeps(s: Sys, e: Event)
    requires Inv(s) && (e.Save? || e.Import?) && Enabled(s, e)
    ensures Inv(Apply(s, e))
  {
  }

  lemma TaskKeeps(s: Sys, e: Event)
    requires Inv(s) && (e.Begin? || e.LookUp? || e.Clear? || e.Crash? || e.ForeignSite?) && Enabled(s, e)
    ensures Inv(Apply(s, e))
  {
    if e.LookUp? && e.found.Some? {
      assert e.found.value in Carriers(s.remote.sites, s.row.attempt.value);
    }
  }

  lemma StepKeeps(s: Sys, e: Event)
    requires Inv(s) && Enabled(s, e)
    ensures Inv(Apply(s, e))
  {
    match e
    case Mark(m, w) => MarkKeeps(s, m, w);
    case Send(d) => SendKeeps(s, d);
    case Store(w) => StoreKeeps(s, w);
    case AddArrives(_, _) => AddKeeps(s, e);
    case Rename(_) => RenameKeeps(s, e);
    case RenameArrives(_) => RenameKeeps(s, e);
    case Save(_, _, _) => SaveKeeps(s, e);
    case Import(_) => SaveKeeps(s, e);
    case _ => TaskKeeps(s, e);
  }

  lemma {:induction false} ReplayKeeps(s: Sys, events: seq<Event>)
    requires Inv(s) && Replay(s, events).Some?
    ensures Inv(Replay(s, events).value)
    decreases |events|
  {
    if events != [] {
      StepKeeps(s, events[0]);
      ReplayKeeps(Apply(s, events[0]), events[1..]);
    }
  }

  lemma ReachableInv(s: Sys)
    requires Reachable(s)
    ensures Inv(s)
  {
    var events :| Replay(INITIAL, events) == Some(s);
    ReplayKeeps(INITIAL, events);
  }
}
