/**
  The routing of one service as a transaction over two files and a server that has to
  accept them (go-service/internal/caddy/caddy.go).

  The files are structured values: the site file names the hosts and either a socket or
  the suspension page, the map file lists a socket for each host.  Assumed: writing back
  an old file succeeds.
 */
module Caddy {
  import opened Prelude
  import Lifecycle

  datatype Kind = Site | Map

  datatype Path = Path(id: string, kind: Kind)

  /** What the template makes of service, slot and socket name; different slots get different sockets. */
  datatype Socket = Socket(id: string, slot: Lifecycle.Slot, name: string)

  datatype Content =
    | ProxySite(hosts: seq<string>, socket: Socket)
    | SuspendedSite(hosts: seq<string>)
    | Mapping(lines: seq<(string, Socket)>)

  type Files = map<Path, Content>

  datatype Mode = Unconfigured | Proxied(socket: Socket) | Suspension

  // ---------------------------------------------------------------------- host names

  /** The main name, its www alias and, unless it is empty, the staging name. */
  function Domains(hosts: Lifecycle.Hosts): seq<string> {
    [hosts.main, "www." + hosts.main] + (if hosts.staging == "" then [] else [hosts.staging])
  }

  /** A service is reached under its main name, with and without www, and under its staging name if it has one. */
  lemma DomainsAre(hosts: Lifecycle.Hosts)
    ensures forall d :: d in Domains(hosts) <==>
              d == hosts.main || d == "www." + hosts.main || (hosts.staging != "" && d == hosts.staging)
    ensures Domains(hosts) != [] && Domains(hosts)[0] == hosts.main
  {
  }

  /** Caddy's list of host names determines the recorded names. */
  lemma DomainsDetermineHosts(a: Lifecycle.Hosts, b: Lifecycle.Hosts)
    requires Domains(a) == Domains(b)
    ensures a == b
  {
    assert Domains(a)[0] == a.main && Domains(b)[0] == b.main;
    assert a.staging != "" ==> Domains(a)[2] == a.staging;
    assert b.staging != "" ==> Domains(b)[2] == b.staging;
  }

  // ------------------------------------------------------------- the files of a route

  function Lines(hosts: seq<string>, socket: Socket): (lines: seq<(string, Socket)>)
    ensures |lines| == |hosts| && forall i :: 0 <= i < |hosts| ==> lines[i] == (hosts[i], socket)
  {
    seq(|hosts|, i requires 0 <= i < |hosts| => (hosts[i], socket))
  }

  /** An empty content removes the file. */
  function Written(files: Files, path: Path, content: Option<Content>): Files {
    if content.Some? then files[path := content.value] else files - {path}
  }

  function Replaced(files: Files, id: string, site: Option<Content>, mapping: Option<Content>): Files {
    Written(Written(files, Path(id, Site), site), Path(id, Map), mapping)
  }

  function ActiveFiles(files: Files, id: string, hosts: seq<string>, socket: Socket): Files {
    Replaced(files, id, Some(ProxySite(hosts, socket)),
             if hosts == [] then None else Some(Mapping(Lines(hosts, socket))))
  }

  function SuspendedFiles(files: Files, id: string, hosts: seq<string>): Files {
    Replaced(files, id, Some(SuspendedSite(hosts)), None)
  }

  function RemovedFiles(files: Files, id: string): Files {
    Replaced(files, id, None, None)
  }

  function ModeOf(files: Files, id: string): Mode {
    var path := Path(id, Site);
    if path !in files then Unconfigured
    else if files[path].ProxySite? then Proxied(files[path].socket)
    else Suspension
  }

  /** The two files of a service tell the same story. */
  predicate Paired(files: Files, id: string) {
    var site, mapping := Path(id, Site), Path(id, Map);
    if site in files && files[site].ProxySite? && files[site].hosts != []
    then mapping in files && files[mapping] == Mapping(Lines(files[site].hosts, files[site].socket))
    else mapping !in files && (site in files ==> !files[site].Mapping?)
  }

  /** What is written is what Status reads back, and only the files of that service change. */
  lemma RoutesReadBack(files: Files, id: string, hosts: seq<string>, socket: Socket)
    ensures ModeOf(ActiveFiles(files, id, hosts, socket), id) == Proxied(socket)
    ensures ModeOf(SuspendedFiles(files, id, hosts), id) == Suspension
    ensures ModeOf(RemovedFiles(files, id), id) == Unconfigured
    ensures Paired(ActiveFiles(files, id, hosts, socket), id)
    ensures Paired(SuspendedFiles(files, id, hosts), id)
    ensures Paired(RemovedFiles(files, id), id)
    ensures forall p :: p in files && p.id != id ==>
              && p in ActiveFiles(files, id, hosts, socket) && ActiveFiles(files, id, hosts, socket)[p] == files[p]
              && p in SuspendedFiles(files, id, hosts) && SuspendedFiles(files, id, hosts)[p] == files[p]
              && p in RemovedFiles(files, id) && RemovedFiles(files, id)[p] == files[p]
  {
    assert Path(id, Site) != Path(id, Map);
  }

  // ------------------------------------------------------------ one call and its endings

  /** Where a replacement fails; a reload may take effect although it is reported as failed. */
  datatype Point =
    | Nowhere
    | AtDirectory
    | AtSite
    | AtMap
    | AtLoad(reloaded: bool, reloadedAgain: bool)

  /** os.ReadFile: an existing file may be unreadable. */
  function Read(files: Files, path: Path, unreadable: set<Path>): Option<Content> {
    if path in files && path !in unreadable then Some(files[path]) else None
  }

  /** The directory after a call that fails at this point: what it replaced is written back as it was read. */
  function Outcome(
    files: Files, id: string, site: Option<Content>, mapping: Option<Content>, unreadable: set<Path>, point: Point)
    : Files
  {
    var first, second := Path(id, Site), Path(id, Map);
    match point
    case Nowhere => Replaced(files, id, site, mapping)
    case AtDirectory => files
    case AtSite => files
    case AtMap => Written(Written(files, first, site), first, Read(files, first, unreadable))
    case AtLoad(_, _) =>
      var restored := Written(Replaced(files, id, site, mapping), first, Read(files, first, unreadable));
      Written(restored, second, Read(files, second, unreadable))
  }

  /** What the server serves after the call. */
  function Serving(loaded: Files, files: Files, id: string, site: Option<Content>, mapping: Option<Content>,
                   unreadable: set<Path>, point: Point): Files
  {
    match point
    case Nowhere => Replaced(files, id, site, mapping)
    case AtLoad(reloaded, reloadedAgain) =>
      if reloadedAgain then Outcome(files, id, site, mapping, unreadable, point)
      else if reloaded then Replaced(files, id, site, mapping)
      else loaded
    case _ => loaded
  }

  /** A call that fails at this point has replaced this file before. */
  predicate Reached(id: string, point: Point, path: Path) {
    (path == Path(id, Site) && (point.AtMap? || point.AtLoad?)) || (path == Path(id, Map) && point.AtLoad?)
  }

  /** A failed call changes no file but one that it reached and could not read: that one is lost. */
  lemma FailuresLoseOnlyUnreadableFiles(files: Files, id: string, site: Option<Content>, mapping: Option<Content>,
                                        unreadable: set<Path>, point: Point, path: Path)
    requires !point.Nowhere?
    ensures
      var after := Outcome(files, id, site, mapping, unreadable, point);
      && (path in after <==> path in files && !(Reached(id, point, path) && path in unreadable))
      && (path in after ==> after[path] == files[path])
  {
    assert Path(id, Site) != Path(id, Map);
  }

  /**
    A failing call leaves the directory exactly as it was if and only if every existing
    file that it reaches before it fails can be read.
   */
  lemma FailuresChangeNothingIff(files: Files, id: string, site: Option<Content>, mapping: Option<Content>,
                                 unreadable: set<Path>, point: Point)
    requires !point.Nowhere?
    ensures Outcome(files, id, site, mapping, unreadable, point) == files <==>
            forall path :: path in files && Reached(id, point, path) ==> path !in unreadable
  {
    var after := Outcome(files, id, site, mapping, unreadable, point);
    if forall path :: path in files && Reached(id, point, path) ==> path !in unreadable {
      forall path ensures Same(after, files, path) {
        FailuresLoseOnlyUnreadableFiles(files, id, site, mapping, unreadable, point, path);
      }
      SameEverywhere(after, files);
    } else {
      var path :| path in files && Reached(id, point, path) && path in unreadable;
      FailuresLoseOnlyUnreadableFiles(files, id, site, mapping, unreadable, point, path);
    }
  }

  /** The loss is real: a route whose file cannot be read is gone after a rejected reload. */
  lemma UnreadableRoutesCanBeLost(id: string, hosts: seq<string>, socket: Socket)
    ensures
      var files: Files := map[Path(id, Site) := SuspendedSite(hosts)];
      var after := Outcome(files, id, Some(ProxySite(hosts, socket)), Some(Mapping(Lines(hosts, socket))),
                           {Path(id, Site)}, AtLoad(false, true));
      ModeOf(files, id) == Suspension && ModeOf(after, id) == Unconfigured
  {
    var files: Files := map[Path(id, Site) := SuspendedSite(hosts)];
    FailuresLoseOnlyUnreadableFiles(files, id, Some(ProxySite(hosts, socket)), Some(Mapping(Lines(hosts, socket))),
                                    {Path(id, Site)}, AtLoad(false, true), Path(id, Site));
  }

  /** Old contents put back one after the other. */
  function PutBack(files: Files, paths: seq<Path>, contents: seq<Option<Content>>): Files
    requires |paths| == |contents|
  {
    if paths == [] then files
    else
      var last := |paths| - 1;
      Written(PutBack(files, paths[..last], contents[..last]), paths[last], contents[last])
  }

  // ------------------------------------------------------- the process dies in between

  /** A file is renamed into place or removed; the roll back instead writes over it, which is not atomic. */
  datatype FileWrite = FileWrite(path: Path, content: Option<Content>, over: bool)

  /** What a call does to files up to its end at this point, in order, roll back included. */
  function Writes(files: Files, id: string, site: Option<Content>, mapping: Option<Content>,
                  unreadable: set<Path>, point: Point): seq<FileWrite>
  {
    var first, second := Path(id, Site), Path(id, Map);
    var there := [FileWrite(first, site, false), FileWrite(second, mapping, false)];
    var back := [FileWrite(first, Read(files, first, unreadable), true),
                 FileWrite(second, Read(files, second, unreadable), true)];
    match point
    case Nowhere => there
    case AtDirectory => []
    case AtSite => []
    case AtMap => there[..1] + back[..1]
    case AtLoad(_, _) => there + back
  }

  function Performed(files: Files, writes: seq<FileWrite>): Files {
    if writes == [] then files
    else
      var last := writes[|writes| - 1];
      Written(Performed(files, writes[..|writes| - 1]), last.path, last.content)
  }

  lemma OneMore(files: Files, writes: seq<FileWrite>, n: nat)
    requires n < |writes|
    ensures Performed(files, writes[..n + 1]) ==
            Written(Performed(files, writes[..n]), writes[n].path, writes[n].content)
  {
    assert writes[..n + 1][..n] == writes[..n];
  }

  /** All of them together are what the call leaves. */
  lemma CallsPerformTheirWrites(files: Files, id: string, site: Option<Content>, mapping: Option<Content>,
                                unreadable: set<Path>, point: Point)
    ensures Performed(files, Writes(files, id, site, mapping, unreadable, point)) ==
            Outcome(files, id, site, mapping, unreadable, point)
  {
    var writes := Writes(files, id, site, mapping, unreadable, point);
    assert writes[..|writes|] == writes && writes[..0] == [];
    if |writes| > 0 {
      OneMore(files, writes, 0);
      OneMore(files, writes, 1);
    }
    if |writes| > 2 {
      OneMore(files, writes, 2);
      OneMore(files, writes, 3);
    }
  }

  /** The process dies after n writes; in the middle of the next one, if that is written over, with any content. */
  function Died(files: Files, writes: seq<FileWrite>, n: nat, torn: Option<Content>): Files
    requires n <= |writes|
  {
    var done := Performed(files, writes[..n]);
    if n < |writes| && writes[n].over && writes[n].content.Some? && torn.Some?
    then Written(done, writes[n].path, torn)
    else done
  }

  /** This file is being rolled back when the process dies. */
  predicate Overwritten(writes: seq<FileWrite>, n: nat, path: Path) {
    n < |writes| && writes[n].over && writes[n].path == path
  }

  lemma {:induction false} WritesAreOldOrNew(
    files: Files, id: string, site: Option<Content>, mapping: Option<Content>,
    unreadable: set<Path>, point: Point, n: nat, path: Path)
    requires n <= |Writes(files, id, site, mapping, unreadable, point)|
    ensures
      var done := Performed(files, Writes(files, id, site, mapping, unreadable, point)[..n]);
      || Same(done, files, path)
      || (path.id == id && Same(done, Replaced(files, id, site, mapping), path))
      || (path.id == id && path in files && path in unreadable && path !in done)
    decreases n
  {
    if n > 0 {
      OneMore(files, Writes(files, id, site, mapping, unreadable, point), n - 1);
      WritesAreOldOrNew(files, id, site, mapping, unreadable, point, n - 1, path);
    }
  }

  /**
    Whenever the process dies, every file has its old or its new content whole, or could
    not be read and is gone, but for the one that a roll back is just writing.
   */
  lemma DeathsLeaveOldOrNew(
    files: Files, id: string, site: Option<Content>, mapping: Option<Content>,
    unreadable: set<Path>, point: Point, n: nat, torn: Option<Content>, path: Path)
    requires n <= |Writes(files, id, site, mapping, unreadable, point)|
    ensures
      var writes := Writes(files, id, site, mapping, unreadable, point);
      var died := Died(files, writes, n, torn);
      || Same(died, files, path)
      || (path.id == id && Same(died, Replaced(files, id, site, mapping), path))
      || (path.id == id && path in files && path in unreadable && path !in died)
      || (path.id == id && Overwritten(writes, n, path))
  {
    WritesAreOldOrNew(files, id, site, mapping, unreadable, point, n, path);
  }

  lemma {:induction false} OthersAreUntouched(
    files: Files, id: string, site: Option<Content>, mapping: Option<Content>,
    unreadable: set<Path>, point: Point, n: nat, path: Path)
    requires n <= |Writes(files, id, site, mapping, unreadable, point)| && path.id != id
    ensures Same(Performed(files, Writes(files, id, site, mapping, unreadable, point)[..n]), files, path)
    decreases n
  {
    if n > 0 {
      OneMore(files, Writes(files, id, site, mapping, unreadable, point), n - 1);
      OthersAreUntouched(files, id, site, mapping, unreadable, point, n - 1, path);
    }
  }

  /** Whatever a death leaves, the next call that completes leaves what it always would. */
  lemma RepeatingRepairs(
    files: Files, id: string, site: Option<Content>, mapping: Option<Content>,
    unreadable: set<Path>, point: Point, n: nat, torn: Option<Content>,
    site': Option<Content>, mapping': Option<Content>)
    requires n <= |Writes(files, id, site, mapping, unreadable, point)|
    ensures
      var died := Died(files, Writes(files, id, site, mapping, unreadable, point), n, torn);
      Replaced(died, id, site', mapping') == Replaced(files, id, site', mapping')
  {
    var writes := Writes(files, id, site, mapping, unreadable, point);
    var died := Died(files, writes, n, torn);
    forall path ensures Same(Replaced(died, id, site', mapping'), Replaced(files, id, site', mapping'), path) {
      if path.id != id {
        OthersAreUntouched(files, id, site, mapping, unreadable, point, n, path);
        assert n < |writes| ==> writes[n].path.id == id;
      } else {
        assert path.kind == Site || path.kind == Map;
      }
    }
    SameEverywhere(Replaced(died, id, site', mapping'), Replaced(files, id, site', mapping'));
  }

  /** Until then the two files of a service need not tell the same story. */
  lemma DeathsCanTearThePair(id: string, host: string, socket: Socket)
    ensures
      var files: Files := map[Path(id, Site) := SuspendedSite([host])];
      var site, mapping := Some(ProxySite([host], socket)), Some(Mapping(Lines([host], socket)));
      && Paired(files, id) && Paired(Replaced(files, id, site, mapping), id)
      && !Paired(Died(files, Writes(files, id, site, mapping, {}, Nowhere), 1, None), id)
  {
    var files: Files := map[Path(id, Site) := SuspendedSite([host])];
    var site, mapping := Some(ProxySite([host], socket)), Some(Mapping(Lines([host], socket)));
    OneMore(files, Writes(files, id, site, mapping, {}, Nowhere), 0);
    assert Path(id, Site) != Path(id, Map);
  }

  // --------------------------------------------------------------------- the roll back

  /** Both directories agree about one path. */
  predicate Same(a: Files, b: Files, p: Path) {
    (p in a <==> p in b) && (p in a ==> a[p] == b[p])
  }

  lemma SameEverywhere(a: Files, b: Files)
    requires forall p :: Same(a, b, p)
    ensures a == b
  {
    forall p ensures p in a <==> p in b {
      assert Same(a, b, p);
    }
    assert forall p :: p in a ==> Same(a, b, p);
  }

  // ------------------------------------------------------------------------ the adapter

  class Adapter {
    var files: Files
    var loaded: Files  // what the server serves

    constructor ()
      ensures files == map[] && loaded == map[]
    {
      files, loaded := map[], map[];
    }

    method ReadFile(path: Path, unreadable: set<Path>) returns (content: Option<Content>)
      ensures content == Read(files, path, unreadable)
    {
      if path !in files || path in unreadable {
        return None;
      }
      return Some(files[path]);
    }

    /** A temporary file is renamed over the path, so a failure leaves the path alone. */
    method ReplaceFile(path: Path, content: Option<Content>, fails: bool) returns (ok: bool)
      modifies `files
      ensures ok <==> !fails
      ensures files == if fails then old(files) else Written(old(files), path, content)
      ensures ok ==> Holds(files, path, content)
      ensures forall p :: p != path || !ok ==> Same(files, old(files), p)
    {
      if fails {
        return false;
      }
      if content.None? {
        files := files - {path};
      } else {
        files := files[path := content.value];
      }
      return true;
    }

    /** Validate and reload. */
    method Load(reloaded: bool)
      modifies `loaded
      ensures loaded == if reloaded then files else old(loaded)
    {
      if reloaded {
        loaded := files;
      }
    }

    /** restoreFiles. */
    method RestoreFiles(paths: seq<Path>, contents: seq<Option<Content>>)
      requires |paths| == |contents|
      modifies `files
      ensures files == PutBack(old(files), paths, contents)
    {
      for i := 0 to |paths|
        invariant files == PutBack(old(files), paths[..i], contents[..i])
      {
        if contents[i].Some? {
          files := files[paths[i] := contents[i].value];
        } else {
          files := files - {paths[i]};
        }
        assert paths[..i + 1][..i] == paths[..i] && contents[..i + 1][..i] == contents[..i];
      }
      assert paths[..|paths|] == paths && contents[..|paths|] == contents;
    }

    /** replace: both files new and loaded, or the roll back from wherever it failed. */
    method Replace(id: string, site: Option<Content>, mapping: Option<Content>, unreadable: set<Path>, point: Point)
      returns (ok: bool)
      modifies this
      ensures ok <==> point.Nowhere?
      ensures files == Outcome(old(files), id, site, mapping, unreadable, point)
      ensures loaded == Serving(old(loaded), old(files), id, site, mapping, unreadable, point)
      ensures ok ==> Holds(files, Path(id, Site), site) && Holds(files, Path(id, Map), mapping) && loaded == files
      ensures ok ==> forall p: Path :: p.id != id ==> Same(files, old(files), p)
    {
      if point.AtDirectory? {
        return false;
      }
      ghost var before := files;
      var paths := [Path(id, Site), Path(id, Map)];
      var contents := [site, mapping];
      var previous := new Option<Content>[2](_ => None);
      for i := 0 to 2
        invariant fresh(previous) && loaded == old(loaded)
        invariant files == (if i == 0 then before
                            else if i == 1 then Written(before, paths[0], site)
                            else Replaced(before, id, site, mapping))
        invariant forall j :: 0 <= j < i ==> previous[j] == Read(before, paths[j], unreadable)
        invariant (i > 0 ==> !point.AtSite?) && (i > 1 ==> !point.AtMap?)
      {
        previous[i] := ReadFile(paths[i], unreadable);
        ok := ReplaceFile(paths[i], contents[i], if i == 0 then point.AtSite? else point.AtMap?);
        if !ok {
          RestoreFiles(paths[..i], previous[..i]);
          assert i == 1 ==> previous[..1] == [previous[0]] && paths[..1] == [paths[0]];
          OnePutBack(Written(before, paths[0], site), paths[0], previous[0]);
          return;
        }
      }
      Load(point.Nowhere? || point.reloaded);
      if point.AtLoad? {
        assert previous[..] == [previous[0], previous[1]];
        RestoreFiles(paths, previous[..]);
        TwoPutBack(Replaced(before, id, site, mapping), paths[0], paths[1], previous[0], previous[1]);
        Load(point.reloadedAgain);
        return false;
      }
      return true;
    }

    method Active(
      id: string, hosts: seq<string>, slot: Lifecycle.Slot, socketName: string, unreadable: set<Path>, point: Point)
      returns (ok: bool)
      modifies this
      ensures ok <==> point.Nowhere?
      ensures ok ==> files == ActiveFiles(old(files), id, hosts, Socket(id, slot, socketName)) && loaded == files
      ensures ok ==>
                && Holds(files, Path(id, Site), Some(ProxySite(hosts, Socket(id, slot, socketName))))
                && (Path(id, Map) in files <==> hosts != [])
                && (hosts != [] ==> files[Path(id, Map)].Mapping? && |files[Path(id, Map)].lines| == |hosts|)
                && (hosts != [] ==> forall i :: 0 <= i < |hosts| ==>
                      files[Path(id, Map)].lines[i] == (hosts[i], Socket(id, slot, socketName)))
                && (forall p: Path :: p.id != id ==> Same(files, old(files), p))
      ensures !ok ==> forall p :: p !in unreadable ==> Same(files, old(files), p)
      ensures !ok ==> forall p: Path :: p.id != id ==> Same(files, old(files), p)
    {
      var socket := Socket(id, slot, socketName);
      var lines: seq<(string, Socket)> := [];
      for i := 0 to |hosts|
        invariant lines == Lines(hosts, socket)[..i]
      {
        lines := lines + [(hosts[i], socket)];
      }
      assert lines == Lines(hosts, socket);
      var site, mapping := Some(ProxySite(hosts, socket)), if lines == [] then None else Some(Mapping(lines));
      RollsBack(files, id, site, mapping, unreadable, point);
      ok := Replace(id, site, mapping, unreadable, point);
    }

    method Suspended(id: string, hosts: seq<string>, unreadable: set<Path>, point: Point) returns (ok: bool)
      modifies this
      ensures ok <==> point.Nowhere?
      ensures ok ==> files == SuspendedFiles(old(files), id, hosts) && loaded == files
      ensures ok ==> Holds(files, Path(id, Site), Some(SuspendedSite(hosts))) && Holds(files, Path(id, Map), None)
      ensures ok ==> forall p: Path :: p.id != id ==> Same(files, old(files), p)
      ensures !ok ==> forall p :: p !in unreadable ==> Same(files, old(files), p)
      ensures !ok ==> forall p: Path :: p.id != id ==> Same(files, old(files), p)
    {
      RollsBack(files, id, Some(SuspendedSite(hosts)), None, unreadable, point);
      ok := Replace(id, Some(SuspendedSite(hosts)), None, unreadable, point);
    }

    /** A route that is not there is removed without asking the server. */
    method Remove(id: string, unreadable: set<Path>, statFails: bool, point: Point) returns (ok: bool)
      modifies this
      ensures ok ==> files == RemovedFiles(old(files), id)
      ensures ok ==> Holds(files, Path(id, Site), None) && Holds(files, Path(id, Map), None)
      ensures ok ==> forall p: Path :: p.id != id ==> Same(files, old(files), p)
      ensures ok <==> (Path(id, Site) !in old(files) && Path(id, Map) !in old(files)) || (!statFails && point.Nowhere?)
      ensures ok ==> loaded == files || (files == old(files) && loaded == old(loaded))
      ensures !ok ==> forall p :: p !in unreadable ==> Same(files, old(files), p)
      ensures !ok ==> forall p: Path :: p.id != id ==> Same(files, old(files), p)
    {
      if Path(id, Site) !in files && Path(id, Map) !in files {
        return true;
      }
      if statFails {
        return false;
      }
      RollsBack(files, id, None, None, unreadable, point);
      ok := Replace(id, None, None, unreadable, point);
    }

    /** Status; None is a read error. */
    method Status(id: string, unreadable: set<Path>) returns (mode: Option<Mode>)
      ensures mode == if Path(id, Site) in files && Path(id, Site) in unreadable then None else Some(ModeOf(files, id))
    {
      if Path(id, Site) !in files {
        return Some(Unconfigured);
      }
      var content := ReadFile(Path(id, Site), unreadable);
      if content.None? {
        return None;
      }
      return Some(if content.value.ProxySite? then Proxied(content.value.socket) else Suspension);
    }
  }

  /** The file has this content, or is not there. */
  predicate Holds(files: Files, path: Path, content: Option<Content>) {
    (path in files <==> content.Some?) && (path in files ==> Some(files[path]) == content)
  }

  lemma OnePutBack(files: Files, path: Path, content: Option<Content>)
    ensures PutBack(files, [path], [content]) == Written(files, path, content)
    ensures PutBack(files, [], []) == files
  {
    assert [path][..0] == [] && [content][..0] == [];
  }

  lemma TwoPutBack(files: Files, p: Path, q: Path, a: Option<Content>, b: Option<Content>)
    ensures PutBack(files, [p, q], [a, b]) == Written(Written(files, p, a), q, b)
  {
    assert [p, q][..1] == [p] && [a, b][..1] == [a];
    OnePutBack(files, p, a);
  }

  /** A failed call leaves readable files and those of other services alone. */
  lemma RollsBack(
    files: Files, id: string, site: Option<Content>, mapping: Option<Content>, unreadable: set<Path>, point: Point)
    ensures !point.Nowhere? ==>
              forall p :: p !in unreadable || p.id != id ==>
                            Same(Outcome(files, id, site, mapping, unreadable, point), files, p)
  {
    if !point.Nowhere? {
      forall p | p !in unreadable || p.id != id
        ensures Same(Outcome(files, id, site, mapping, unreadable, point), files, p)
      {
        FailuresLoseOnlyUnreadableFiles(files, id, site, mapping, unreadable, point, p);
      }
    }
  }
}
