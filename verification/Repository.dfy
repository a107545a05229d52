/**
  The crash-atomic store under the protocols (go-service/internal/state/repository.go):
  one file for each record, written beside its place and renamed over it.  `healthy` is
  whether every call of the operating system succeeds.
 */
module Repository {
  import opened Prelude
  import Versions

  datatype Directory = Services | Tombstones

  datatype Path = Path(dir: Directory, name: string)

  type Files = map<Path, string>

  const RECORD_SUFFIX := ".toml"
  const BACKUP_SUFFIX := ".bak"
  const BULK_NAME := ".bulk-upgrade"

  datatype Outcome = Ok | Error | Crashed

  predicate HasSuffix(name: string, suffix: string) {
    |name| >= |suffix| && name[|name| - |suffix|..] == suffix
  }

  function RecordPath(dir: Directory, id: string): Path {
    Path(dir, id + RECORD_SUFFIX)
  }

  const BULK_PATH: Path := Path(Services, BULK_NAME)

  function BackupPath(path: Path): Path {
    Path(path.dir, path.name + BACKUP_SUFFIX)
  }

  // ------------------------------------------------------------------ what is stored

  /** The entries a reader can see: live records, tombstones and the bulk job. */
  datatype Entry = Live(id: string) | Tombstone(id: string) | BulkUpgrade

  function PathOf(entry: Entry): Path {
    match entry
    case Live(id) => RecordPath(Services, id)
    case Tombstone(id) => RecordPath(Tombstones, id)
    case BulkUpgrade => BULK_PATH
  }

  function Get(files: Files, entry: Entry): Option<string> {
    if PathOf(entry) in files then Some(files[PathOf(entry)]) else None
  }

  /** Only the entry may have changed, to this; temporary and backup files are not seen. */
  ghost predicate OnlyChanges(before: Files, after: Files, entry: Entry, value: Option<string>) {
    && Get(after, entry) == value
    && forall other :: other != entry ==> Get(after, other) == Get(before, other)
  }

  /** Different entries have different files. */
  lemma EntriesHaveTheirOwnFiles(a: Entry, b: Entry)
    requires a != b
    ensures PathOf(a) != PathOf(b)
  {
    RecordNames(a);
    RecordNames(b);
    if !a.BulkUpgrade? && !b.BulkUpgrade? && a.id != b.id {
      var x, y := PathOf(a).name, PathOf(b).name;
      assert x[..|x| - 5] == a.id && y[..|y| - 5] == b.id;
    }
  }

  lemma RecordNames(entry: Entry)
    ensures HasSuffix(PathOf(entry).name, RECORD_SUFFIX) <==> !entry.BulkUpgrade?
  {
    var name := PathOf(entry).name;
    if entry.BulkUpgrade? {
      assert name[|name| - 1] == 'e';
      assert RECORD_SUFFIX[4] == 'l';
      assert name[|name| - 5..][4] == 'e';
    } else {
      assert name[|name| - 5..] == RECORD_SUFFIX;
    }
  }

  /** No entry lives in a backup file. */
  lemma BackupsAreNoEntries(path: Path, entry: Entry)
    ensures PathOf(entry) != BackupPath(path)
  {
    var name, backup := PathOf(entry).name, BackupPath(path).name;
    assert backup[|backup| - 1] == 'k';
    RecordNames(entry);
    if !entry.BulkUpgrade? {
      assert name[|name| - 5..][4] == 'l';
      assert name[|name| - 1] == 'l';
    } else {
      assert name[|name| - 1] == 'e';
    }
  }

  /** The name that os.CreateTemp makes of the pattern for a path and a random number. */
  function TempPath(path: Path, random: string): Path {
    Path(path.dir, "." + path.name + ".tmp-" + random)
  }

  /** os.CreateTemp puts decimal digits for the star, such that the name is new. */
  predicate Random(files: Files, path: Path, random: string) {
    random != "" && Versions.AllDigits(random) && TempPath(path, random) !in files
  }

  /** A temporary file is neither an entry's file nor the backup of any file, and List passes it over. */
  lemma TempsAreNoEntries(path: Path, random: string, entry: Entry, other: Path)
    requires random != "" && Versions.AllDigits(random)
    ensures PathOf(entry) != TempPath(path, random) && BackupPath(other) != TempPath(path, random)
    ensures !HasSuffix(TempPath(path, random).name, RECORD_SUFFIX)
  {
    var name, temp, backup := PathOf(entry).name, TempPath(path, random).name, BackupPath(other).name;
    assert Versions.IsDigit(temp[|temp| - 1]);
    assert backup[|backup| - 1] == 'k';
    RecordNames(entry);
    if entry.BulkUpgrade? {
      assert name[|name| - 1] == 'e';
    } else {
      assert name[|name| - 5..][4] == 'l';
      assert name[|name| - 1] == 'l';
    }
    assert |temp| >= 5 ==> temp[|temp| - 5..][4] == temp[|temp| - 1];
  }

  /** The IDs that List finds: every file with the record suffix, without it. */
  function ListedIds(files: Files, dir: Directory): set<string> {
    set path | path in files && path.dir == dir && HasSuffix(path.name, RECORD_SUFFIX) :: path.name[..|path.name| - 5]
  }

  /** List sees exactly the stored records: no temporary, backup or bulk file, and none is missed. */
  lemma ListedAreStored(files: Files, id: string)
    ensures id in ListedIds(files, Services) <==> Get(files, Live(id)).Some?
    ensures id in ListedIds(files, Tombstones) <==> Get(files, Tombstone(id)).Some?
  {
    RecordNames(Live(id));
    RecordNames(Tombstone(id));
    assert (id + RECORD_SUFFIX)[..|id + RECORD_SUFFIX| - 5] == id;
    forall dir, path |
      path in files && path.dir == dir && HasSuffix(path.name, RECORD_SUFFIX) && path.name[..|path.name| - 5] == id
      ensures path == RecordPath(dir, id)
    {
      assert path.name == path.name[..|path.name| - 5] + path.name[|path.name| - 5..];
    }
    if Get(files, Live(id)).Some? {
      assert RecordPath(Services, id) in files;
    }
    if Get(files, Tombstone(id)).Some? {
      assert RecordPath(Tombstones, id) in files;
    }
  }

  /** Both directories agree about one file. */
  predicate SameFile(a: Files, b: Files, p: Path) {
    (p in a <==> p in b) && (p in a ==> a[p] == b[p])
  }

  // ----------------------------------------------------------------------- the store

  class Repository {
    var files: Files

    constructor ()
      ensures files == map[]
    {
      files := map[];
    }

    /** atomicWrite on paths: beside the path only the temporary and the backup file are touched. */
    method WriteVia(path: Path, temp: Path, content: string, backup: bool, readable: bool, healthy: bool)
      returns (r: Outcome)
      requires temp !in files && temp != path && temp != BackupPath(path) && path != BackupPath(path)
      modifies this
      ensures forall p :: p != path && p != temp && p != BackupPath(path) ==> SameFile(old(files), files, p)
      ensures r.Ok? ==> path in files && files[path] == content
      ensures r.Error? ==> SameFile(old(files), files, path)
      ensures r.Crashed? ==> SameFile(old(files), files, path) || (path in files && files[path] == content)
      ensures r != Crashed ==> temp !in files
      ensures healthy ==> r.Ok?
      ensures r.Ok? && backup && readable && path in old(files) ==>
                BackupPath(path) in files && files[BackupPath(path)] == old(files[path])
    {
      var created: bool := *;
      if !created && !healthy {
        return Error;
      }
      // A torn write leaves any content in the temporary file.
      var written: bool, torn: string, crashed: bool := *, *, *;
      written, crashed := written || healthy, crashed && !healthy;
      files := files[temp := if written then content else torn];
      if crashed {
        return Crashed;
      }
      if !written {
        files := files - {temp};
        return Error;
      }
      if backup && readable && path in files {
        ghost var between := files;
        var stopped := WriteBackup(path, healthy);
        assert SameFile(between, files, path) && SameFile(between, files, temp);
        ghost var after := files;
        if stopped.Some? && stopped.value.Error? {
          files := files - {temp};
        }
        forall p | p != path && p != temp && p != BackupPath(path) ensures SameFile(old(files), files, p) {
          assert SameFile(between, after, p);
        }
        if stopped.Some? {
          return stopped.value;
        }
      }
      ghost var ready := files;
      assert forall p :: p != path && p != temp && p != BackupPath(path) ==> SameFile(old(files), ready, p);
      r := Rename(temp, path, healthy);
      forall p | p != path && p != temp && p != BackupPath(path) ensures SameFile(old(files), files, p) {
        assert SameFile(old(files), ready, p);
      }
    }

    /**
      atomicWrite: the entry holds its old content until it holds the new one.  An error
      keeps the old, a crash keeps either, and nothing else that can be read changes.
     */
    method AtomicWrite(
      entry: Entry, content: string, backup: bool, readable: bool, random: string, healthy: bool)
      returns (r: Outcome)
      requires Random(files, PathOf(entry), random)
      modifies this
      ensures r.Ok? ==> OnlyChanges(old(files), files, entry, Some(content))
      ensures r.Error? ==> OnlyChanges(old(files), files, entry, Get(old(files), entry))
      ensures r.Crashed? ==> OnlyChanges(old(files), files, entry, Get(old(files), entry))
                             || OnlyChanges(old(files), files, entry, Some(content))
      ensures r != Crashed ==> TempPath(PathOf(entry), random) !in files
      ensures healthy ==> r.Ok?
      ensures r.Ok? && backup && readable && PathOf(entry) in old(files) ==>
                BackupPath(PathOf(entry)) in files && files[BackupPath(PathOf(entry))] == old(files[PathOf(entry)])
    {
      Invisible(files, entry, random);
      BackupsAreNoEntries(PathOf(entry), entry);
      r := WriteVia(PathOf(entry), TempPath(PathOf(entry), random), content, backup, readable, healthy);
      forall other | other != entry ensures Get(files, other) == Get(old(files), other) {
        EntriesHaveTheirOwnFiles(entry, other);
        assert SameFile(old(files), files, PathOf(other));
      }
    }

    /** The backup is not atomic; None is success. */
    method WriteBackup(path: Path, healthy: bool) returns (stopped: Option<Outcome>)
      requires path in files
      modifies this
      ensures forall p :: p != BackupPath(path) ==> SameFile(old(files), files, p)
      ensures stopped.None? ==>
                BackupPath(path) in files && files[BackupPath(path)] == old(files)[path]
      ensures stopped.Some? ==> !stopped.value.Ok?
      ensures healthy ==> stopped.None?
    {
      var written: bool, torn: string, crashed: bool := *, *, *;
      written, crashed := written || healthy, crashed && !healthy;
      files := files[BackupPath(path) := if written then files[path] else torn];
      if crashed {
        return Some(Crashed);
      }
      return if written then None else Some(Error);
    }

    /** A rename replaces the whole file or does nothing. */
    method Rename(temp: Path, path: Path, healthy: bool) returns (r: Outcome)
      requires temp in files && temp != path
      modifies this
      ensures r.Ok? ==> files == (old(files) - {temp})[path := old(files)[temp]]
      ensures r.Error? ==> files == old(files) - {temp}
      ensures r.Crashed? ==> files == old(files) || files == (old(files) - {temp})[path := old(files)[temp]]
      ensures healthy ==> r.Ok?
    {
      var renamed: bool, crashed: bool := *, *;
      renamed, crashed := renamed || healthy, crashed && !healthy;
      if renamed {
        files := (files - {temp})[path := files[temp]];
      }
      if crashed {
        return Crashed;
      }
      if !renamed {
        files := files - {temp};
      }
      return if renamed then Ok else Error;
    }

    /** DeleteLive: removing what is not there is a success. */
    method DeleteLive(id: string, healthy: bool) returns (ok: bool)
      modifies this
      ensures OnlyChanges(old(files), files, Live(id), if ok then None else Get(old(files), Live(id)))
      ensures Get(old(files), Live(id)).None? || healthy ==> ok
    {
      var path := RecordPath(Services, id);
      if path !in files {
        return true;
      }
      ok := *;
      ok := ok || healthy;
      if ok {
        files := files - {path};
        forall other | other != Live(id) ensures PathOf(other) != path {
          EntriesHaveTheirOwnFiles(Live(id), other);
        }
      }
    }

    /** Put: a live record, with a backup of the one it replaces if that can be read. */
    method Put(id: string, record: string, readable: bool, random: string, healthy: bool) returns (r: Outcome)
      requires Random(files, RecordPath(Services, id), random)
      modifies this
      ensures r.Ok? ==> OnlyChanges(old(files), files, Live(id), Some(record))
      ensures healthy ==> r.Ok?
      ensures r.Error? ==> OnlyChanges(old(files), files, Live(id), Get(old(files), Live(id)))
      ensures r.Crashed? ==> OnlyChanges(old(files), files, Live(id), Get(old(files), Live(id)))
                             || OnlyChanges(old(files), files, Live(id), Some(record))
      ensures r.Ok? && readable && Get(old(files), Live(id)).Some? ==>
                BackupPath(PathOf(Live(id))) in files
                && Some(files[BackupPath(PathOf(Live(id)))]) == Get(old(files), Live(id))
    {
      r := AtomicWrite(Live(id), record, true, readable, random, healthy);
    }

    method PutTombstone(id: string, tombstone: string, random: string, healthy: bool) returns (r: Outcome)
      requires Random(files, RecordPath(Tombstones, id), random)
      modifies this
      ensures r.Ok? ==> OnlyChanges(old(files), files, Tombstone(id), Some(tombstone))
      ensures healthy ==> r.Ok?
      ensures r.Error? ==> OnlyChanges(old(files), files, Tombstone(id), Get(old(files), Tombstone(id)))
      ensures r.Crashed? ==> OnlyChanges(old(files), files, Tombstone(id), Get(old(files), Tombstone(id)))
                             || OnlyChanges(old(files), files, Tombstone(id), Some(tombstone))
    {
      r := AtomicWrite(Tombstone(id), tombstone, false, false, random, healthy);
    }

    method PutBulkUpgrade(job: string, random: string, healthy: bool) returns (r: Outcome)
      requires Random(files, BULK_PATH, random)
      modifies this
      ensures r.Ok? ==> OnlyChanges(old(files), files, BulkUpgrade, Some(job))
      ensures healthy ==> r.Ok?
      ensures r.Error? ==> OnlyChanges(old(files), files, BulkUpgrade, Get(old(files), BulkUpgrade))
      ensures r.Crashed? ==> OnlyChanges(old(files), files, BulkUpgrade, Get(old(files), BulkUpgrade))
                             || OnlyChanges(old(files), files, BulkUpgrade, Some(job))
    {
      r := AtomicWrite(BulkUpgrade, job, false, false, random, healthy);
    }

    /**
      The end of Delete: the tombstone is in place before the record goes.  At every
      point, crashes included, an ID that was stored is still stored as one or the other.
     */
    method Bury(id: string, tombstone: string, random: string, healthy: bool) returns (ok: bool)
      requires Random(files, RecordPath(Tombstones, id), random)
      modifies this
      ensures Get(old(files), Live(id)).Some? || Get(old(files), Tombstone(id)).Some? ==>
                Get(files, Live(id)).Some? || Get(files, Tombstone(id)).Some?
      ensures ok ==> Get(files, Live(id)).None? && Get(files, Tombstone(id)) == Some(tombstone)
      ensures healthy ==> ok
    {
      var r := PutTombstone(id, tombstone, random, healthy);
      if !r.Ok? {
        return false;
      }
      ok := DeleteLive(id, healthy);
    }
  }

  /** Files that are no entry's file make no difference to a reader. */
  lemma Invisible(before: Files, entry: Entry, random: string)
    requires Random(before, PathOf(entry), random)
    ensures forall other ::
                      PathOf(other) != TempPath(PathOf(entry), random) && PathOf(other) != BackupPath(PathOf(entry))
    ensures BackupPath(PathOf(entry)) != TempPath(PathOf(entry), random)
  {
    forall other
      ensures PathOf(other) != TempPath(PathOf(entry), random) && PathOf(other) != BackupPath(PathOf(entry))
    {
      TempsAreNoEntries(PathOf(entry), random, other, PathOf(entry));
      BackupsAreNoEntries(PathOf(entry), other);
    }
    TempsAreNoEntries(PathOf(entry), random, entry, PathOf(entry));
  }
}
