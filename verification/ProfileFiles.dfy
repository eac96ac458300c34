/**
 * The file operations of configuration profiles (config_profiles/filesystem.py) over a file system
 * in which any step may fail.  Closing never fails, and other writers respect the mutation lock.
 */
module ProfileFiles {
  import opened Wrappers

  type Bytes = seq<Byte>
  type Id = string

  datatype Path =
    | Active
    | ProfilePath(id: Id)
    | BackupYaml(id: Id)
    | BackupJson(id: Id)
    | Temporary(token: string)
  {
    predicate IsBackup() {
      BackupYaml? || BackupJson?
    }
  }

  /** The identity stands for device, inode, size and modification time. */
  datatype File = File(data: Bytes, identity: int)

  datatype Snapshot = Snapshot(data: Bytes, identity: int)

  datatype Reason =
    | Applied
    | RolledBack
    | NoChange
    | Boundary
    | FileTooLarge
    | InvalidId
    | InvalidArgument
    | InvalidConfiguration
    | ConfirmationMismatch
    | ActiveChanged
    | ProfileChanged
    | DirectoryLimit
    | BackupCapacity
    | BackupInvalid
    | BackupWriteFailed
    | MutationBusy
    | FailedRestored
    | RestorationFailed

  const MAX_YAML_BYTES: nat := 256 * 1024
  const MAX_MANIFEST_BYTES: nat := 16 * 1024
  const WRITE_CHUNK: nat := 64 * 1024
  const COLLISION_ATTEMPTS: nat := 8

  datatype Replacement = Replaced | NotPublished(reason: Reason) | PublishedThenFailed

  /** Reads until the end in chunks of any size, unless there is more than allowed. */
  method ReadAll(source: Bytes, maximum: nat) returns (r: Result<Bytes, Reason>)
    ensures match r
            case Success(data) => data == source && |source| <= maximum
            case Failure(reason) => reason == FileTooLarge && |source| > maximum
  {
    var data: Bytes := [];
    while |data| < |source|
      invariant data <= source && |data| <= maximum
      decreases |source| - |data|
    {
      var limit := Min(Min(WRITE_CHUNK, maximum + 1 - |data|), |source| - |data|);
      var count: int := *;
      count := Max(1, Min(count, limit));
      data := data + source[|data|..|data| + count];
      if |data| > maximum {
        return Failure(FileTooLarge);
      }
    }
    return Success(data);
  }

  class FileSystem {
    var files: map<Path, File>
    /** What the active file held when somebody else wrote it last. */
    ghost var original: Option<Bytes>
    /** Some step has failed, was refused, or met another writer. */
    ghost var troubled: bool

    constructor (files: map<Path, File>)
      ensures this.files == files && Settled() && !troubled
    {
      this.files, troubled := files, false;
      original := if Active in files then Some(files[Active].data) else None;
    }

    /** The active file is as somebody else left it. */
    ghost predicate Settled()
      reads this
    {
      original == if Active in files then Some(files[Active].data) else None
    }

    /** Every file that was there, except temporary ones and the active one, still is what it was. */
    twostate predicate KeepsOthers()
      reads this
    {
      forall p :: p in old(files) && !p.Temporary? && p != Active ==> p in files && files[p] == old(files)[p]
    }

    /** No file has come or gone either. */
    twostate predicate AddsNothing()
      reads this
    {
      forall p :: p in files && !p.Temporary? && p != Active ==> p in old(files)
    }

    method Fails() returns (failed: bool)
      modifies this`troubled
      ensures troubled == (old(troubled) || failed)
    {
      failed := *;
      troubled := troubled || failed;
    }

    /** Directory checks, and everything else about a path that does not depend on its content. */
    method ValidatePaths() returns (ok: bool)
      modifies this`troubled
      ensures troubled == (old(troubled) || !ok)
    {
      ok := *;
      troubled := troubled || !ok;
    }

    method ReadSecureFile(path: Path, maximum: nat) returns (r: Result<Snapshot, Reason>)
      modifies this`troubled
      ensures old(troubled) ==> troubled
      ensures !troubled && path in files && |files[path].data| <= maximum ==> r.Success?
      ensures r == Failure(FileTooLarge) ==> path in files && |files[path].data| > maximum
      ensures r.Success? ==> path in files && r.value == Snapshot(files[path].data, files[path].identity) && |r.value.data| <= maximum
      ensures r.Failure? ==> r.error == Boundary || r.error == FileTooLarge
    {
      var failed := Fails();
      if failed || path !in files {
        return Failure(Boundary);
      }
      var data :- ReadAll(files[path].data, maximum);
      return Success(Snapshot(data, files[path].identity));
    }

    /** Creates an empty file, unless there is one already. */
    method CreateExclusively(path: Path) returns (created: bool)
      requires path != Active
      modifies this`files, this`troubled
      ensures old(troubled) ==> troubled
      ensures !troubled ==> (created <==> path !in old(files))
      ensures created ==> path !in old(files) && path in files && files[path].data == [] && files == old(files)[path := files[path]]
      ensures !created ==> files == old(files)
    {
      var identity: int := *;
      var failed := Fails();
      if failed || path in files {
        return false;
      }
      files := files[path := File([], identity)];
      return true;
    }

    /** Writes in pieces of any size; after a failure the file may hold any beginning of the data. */
    method WriteAll(path: Path, data: Bytes) returns (ok: bool)
      requires path in files && path != Active && files[path].data == []
      modifies this`files, this`troubled
      ensures troubled == (old(troubled) || !ok)
      ensures path in files && files == old(files)[path := files[path]]
      ensures ok ==> files[path].data == data
    {
      var written := 0;
      while written < |data|
        invariant 0 <= written <= |data|
        invariant path in files && files == old(files)[path := files[path]] && files[path].data == data[..written]
        invariant troubled == old(troubled)
      {
        var count, identity: int := *, *;
        if count <= 0 {
          troubled := true;
          return false;
        }
        var end := Min(written + count, |data|);
        files := files[path := File(data[..end], identity)];
        written := end;
      }
      return true;
    }

    method Unlink(path: Path)
      requires path != Active
      modifies this`files, this`troubled
      ensures old(troubled) ==> troubled
      ensures files == old(files) || files == old(files) - {path}
    {
      var failed := Fails();
      if !failed {
        files := files - {path};
      }
    }

    /** Creates a managed file with exactly this content, or leaves what was there alone. */
    method WriteNewFile(path: Path, data: Bytes) returns (ok: bool)
      requires path.IsBackup()
      modifies this`files, this`troubled
      ensures old(troubled) ==> troubled
      ensures !troubled && path !in old(files) ==> ok
      ensures ok ==> path !in old(files) && path in files && files[path].data == data && files == old(files)[path := files[path]]
      ensures path in old(files) ==> files == old(files)
      ensures forall p :: p != path ==> (p in files <==> p in old(files)) && (p in files ==> files[p] == old(files)[p])
    {
      var valid := ValidatePaths();
      if !valid {
        return false;
      }
      var created := CreateExclusively(path);
      if !created {
        return false;
      }
      ok := WriteAll(path, data);
      var synced := Fails();
      ok := ok && !synced && |files[path].data| == |data|;
      if !ok {
        Unlink(path);
      }
    }

    method FsyncDirectory() returns (ok: bool)
      modifies this`troubled
      ensures troubled == (old(troubled) || !ok)
    {
      ok := *;
      troubled := troubled || !ok;
    }

    /** Looks for an unused temporary name, a few times. */
    method CreateTemporary() returns (path: Option<Path>)
      modifies this`files, this`troubled
      ensures old(troubled) ==> troubled
      ensures !troubled ==> path.Some?
      ensures path.None? ==> files == old(files)
      ensures path.Some? ==>
                && path.value.Temporary? && path.value in files && files[path.value].data == []
                && path.value !in old(files) && files == old(files)[path.value := files[path.value]]
    {
      var attempts := 0;
      while attempts < COLLISION_ATTEMPTS
        invariant files == old(files) && (old(troubled) ==> troubled)
      {
        attempts := attempts + 1;
        var token: string := *;
        var candidate, identity: int := Temporary(token), *;
        var refused := Fails();
        if refused {
          return None;
        }
        if candidate !in files {
          files := files[candidate := File([], identity)];
          return Some(candidate);
        }
      }
      troubled := true;
      return None;
    }

    /** Whether the active file is still the one that is expected. */
    method ActiveIs(expected: Option<int>) returns (problem: Option<Reason>)
      modifies this`troubled
      ensures old(troubled) ==> troubled
      ensures !troubled && (expected.Some? ==> Active in files && files[Active].identity == expected.value) ==> problem.None?
      ensures problem == Some(ActiveChanged) ==> Active in files && expected.Some? && files[Active].identity != expected.value
      ensures problem.Some? ==> problem.value == Boundary || problem.value == ActiveChanged
      ensures problem.None? && expected.Some? ==> Active in files && files[Active].identity == expected.value
    {
      if expected.None? {
        return None;
      }
      var failed := Fails();
      if failed || Active !in files {
        return Some(Boundary);
      }
      return if files[Active].identity == expected.value then None else Some(ActiveChanged);
    }

    /**
     * Publishes the data in one step: the active file holds either the old or the new bytes, and
     * the outcome says which.  At most a temporary file is left behind.
     */
    method AtomicReplace(data: Bytes, expected: Option<int>) returns (outcome: Replacement)
      modifies this`files, this`troubled
      ensures old(troubled) ==> troubled
      ensures !troubled && (expected.Some? ==> Active in old(files) && old(files)[Active].identity == expected.value) ==>
                outcome == Replaced
      ensures outcome == NotPublished(ActiveChanged) ==>
                Active in old(files) && expected.Some? && old(files)[Active].identity != expected.value
      ensures KeepsOthers() && AddsNothing()
      ensures outcome.NotPublished? ==>
                && (Active in files <==> Active in old(files))
                && (Active in files ==> files[Active] == old(files)[Active])
                && (outcome.reason == Boundary || outcome.reason == ActiveChanged)
      ensures !outcome.NotPublished? ==> Active in files && files[Active].data == data
    {
      var valid := ValidatePaths();
      var before := ActiveIs(expected);
      if !valid || before.Some? {
        return NotPublished(if !valid || before.None? then Boundary else before.value);
      }
      var temporary := CreateTemporary();
      if temporary.None? {
        return NotPublished(Boundary);
      }
      var written := WriteAll(temporary.value, data);
      var unsynced := Fails();
      var after := ActiveIs(expected);
      var refused := Fails();
      if !written || unsynced || after.Some? || refused {
        Unlink(temporary.value);
        return NotPublished(if written && !unsynced && after == Some(ActiveChanged) then ActiveChanged else Boundary);
      }
      files := files[Active := files[temporary.value]] - {temporary.value};
      var directorySynced := FsyncDirectory();
      return if directorySynced then Replaced else PublishedThenFailed;
    }

    /** Somebody else may write the active file and the profiles now. */
    method OthersMayWrite()
      modifies this
      ensures Settled() || (original == old(original) && files == old(files))
      ensures old(Settled()) ==> Settled()
      ensures KeepsBackups()
      ensures old(troubled) ==> troubled
      ensures !troubled ==> files == old(files) && original == old(original)
    {
      var writes: bool := *;
      if writes {
        troubled := true;
        var written: map<Path, File> := *;
        files :=
          (map p | p in files && (p.IsBackup() || p.Temporary?) :: files[p])
          + (map p | p in written && (p == Active || p.ProfilePath?) :: written[p]);
        original := if Active in files then Some(files[Active].data) else None;
      }
    }

    twostate predicate KeepsBackups()
      reads this
    {
      && KeepsBackupFiles()
      && (forall p :: p in files && p.IsBackup() ==> p in old(files))
    }

    /** No backup file is changed or removed. */
    twostate predicate KeepsBackupFiles()
      reads this
    {
      forall p :: p in old(files) && p.IsBackup() ==> p in files && files[p] == old(files)[p]
    }

    /** An operation that has ended counts as somebody else for the next one. */
    ghost method AcceptActive()
      modifies this`original
      ensures Settled()
    {
      original := if Active in files then Some(files[Active].data) else None;
    }
  }
}
