/** Backups of the active configuration (config_profiles/manifests.py): created once, never overwritten. */
module Backups {
  import opened Wrappers
  import opened ProfileFiles

  type Digest = string

  datatype Operation = ApplyOperation | RollbackOperation

  datatype Manifest = Manifest(
    id: Id, createdAt: string, sha: Digest, byteCount: int,
    operation: Operation, targetProfile: Option<Id>, targetBackup: Option<Id>)

  /** The digest and the manifest format; a manifest may be too long to be written. */
  datatype Codec = Codec(sha: Bytes -> Digest, serialize: Manifest -> Option<Bytes>, parse: Bytes -> Option<Manifest>) {
    function Sha(data: Bytes): Digest {
      sha(data)
    }

    function Serialize(m: Manifest): Option<Bytes> {
      serialize(m)
    }

    function Parse(data: Bytes): Option<Manifest> {
      parse(data)
    }
  }

  ghost predicate RoundTrips(codec: Codec) {
    forall m :: codec.Serialize(m).Some? ==>
      |codec.Serialize(m).value| <= MAX_MANIFEST_BYTES && codec.Parse(codec.Serialize(m).value) == Some(m)
  }

  lemma SerializedIsParsed(codec: Codec, m: Manifest)
    requires RoundTrips(codec) && codec.Serialize(m).Some?
    ensures |codec.Serialize(m).value| <= MAX_MANIFEST_BYTES && codec.Parse(codec.Serialize(m).value) == Some(m)
  {
  }

  predicate Vouches(codec: Codec, m: Manifest, id: Id, data: Bytes) {
    m.id == id && m.sha == codec.Sha(data) && m.byteCount == |data|
  }

  /** The backup is whole: a load that meets no read fault returns exactly these bytes. */
  predicate IntactBackup(files: map<Path, File>, codec: Codec, id: Id, data: Bytes) {
    && BackupYaml(id) in files && files[BackupYaml(id)].data == data
    && BackupJson(id) in files
    && |files[BackupJson(id)].data| <= MAX_MANIFEST_BYTES
    && var m := codec.Parse(files[BackupJson(id)].data);
       m.Some? && Vouches(codec, m.value, id, data)
  }

  function ManagedIds(files: map<Path, File>): set<Id> {
    set p | p in files && p.IsBackup() :: p.id
  }

  /** Everything that was there is still there, and the active file is the same. */
  predicate AddsBackups(before: map<Path, File>, after: map<Path, File>) {
    && (forall p :: p in before ==> p in after && after[p] == before[p])
    && (forall p :: p in after && !p.IsBackup() ==> p in before)
  }

  twostate predicate OnlyAddsBackups(fs: FileSystem)
    reads fs
  {
    AddsBackups(old(fs.files), fs.files)
  }

  method EnsureCapacity(fs: FileSystem, maximum: nat) returns (problem: Option<Reason>)
    modifies fs`troubled
    ensures old(fs.troubled) ==> fs.troubled
    ensures !fs.troubled ==> problem == if |ManagedIds(fs.files)| >= maximum then Some(BackupCapacity) else None
    ensures problem == Some(BackupCapacity) ==> |ManagedIds(fs.files)| >= maximum
    ensures problem.None? ==> |ManagedIds(fs.files)| < maximum
    ensures problem.Some? ==> problem.value in {Boundary, DirectoryLimit, BackupCapacity}
  {
    var failed := fs.Fails();
    var tooMany := fs.Fails();
    if failed || tooMany {
      return Some(if failed then Boundary else DirectoryLimit);
    }
    return if |ManagedIds(fs.files)| >= maximum then Some(BackupCapacity) else None;
  }

  /** An identifier that no file uses yet; the clock and the random suffix are arbitrary. */
  method AvailableId(fs: FileSystem) returns (id: Option<Id>)
    modifies fs`troubled
    ensures old(fs.troubled) ==> fs.troubled
    ensures !fs.troubled ==> id.Some?
    ensures id.Some? ==> id.value !in ManagedIds(fs.files)
  {
    var attempts := 0;
    while attempts < COLLISION_ATTEMPTS
      invariant old(fs.troubled) ==> fs.troubled
    {
      attempts := attempts + 1;
      var candidate: Id := *;
      var failed := fs.Fails();
      if failed {
        return None;
      }
      if BackupYaml(candidate) !in fs.files && BackupJson(candidate) !in fs.files {
        NotManaged(fs.files, candidate);
        return Some(candidate);
      }
    }
    fs.troubled := true;
    return None;
  }

  lemma NotManaged(files: map<Path, File>, id: Id)
    requires BackupYaml(id) !in files && BackupJson(id) !in files
    ensures id !in ManagedIds(files)
  {
    forall p | p in files && p.IsBackup()
      ensures p.id != id
    {
      assert p == BackupYaml(p.id) || p == BackupJson(p.id);
    }
  }

  lemma Managed(files: map<Path, File>, id: Id)
    ensures BackupYaml(id) in files || BackupJson(id) in files ==> id in ManagedIds(files)
  {
    assert BackupYaml(id).IsBackup() && BackupYaml(id).id == id;
    assert BackupJson(id).IsBackup() && BackupJson(id).id == id;
  }

  lemma OneMoreId(before: map<Path, File>, after: map<Path, File>, id: Id)
    requires forall p :: p in after ==> p in before || p == BackupYaml(id) || p == BackupJson(id)
    ensures |ManagedIds(after)| <= |ManagedIds(before)| + 1
  {
    assert ManagedIds(after) <= ManagedIds(before) + {id};
    SubsetIsSmaller(ManagedIds(after), ManagedIds(before) + {id});
  }

  lemma {:induction false} SubsetIsSmaller(a: set<Id>, b: set<Id>)
    requires a <= b
    ensures |a| <= |b|
  {
    if a != {} {
      var x :| x in a;
      SubsetIsSmaller(a - {x}, b - {x});
    }
  }

  /** The manifest of a backup says what the backup was made for. */
  predicate Records(
    files: map<Path, File>, codec: Codec, id: Id, operation: Operation, targetProfile: Option<Id>, targetBackup: Option<Id>)
  {
    && BackupJson(id) in files
    && var m := codec.Parse(files[BackupJson(id)].data);
       m.Some? && m.value.operation == operation && m.value.targetProfile == targetProfile && m.value.targetBackup == targetBackup
  }

  /** Writes one pair of backup files, or fails; what was there before stays in any case. */
  method CreateBackup(
    fs: FileSystem, codec: Codec, source: Snapshot, operation: Operation, maximum: nat,
    targetProfile: Option<Id>, targetBackup: Option<Id>) returns (r: Result<Id, Reason>)
    requires RoundTrips(codec)
    modifies fs`files, fs`troubled
    ensures OnlyAddsBackups(fs)
    ensures old(fs.troubled) ==> fs.troubled
    ensures !fs.troubled ==>
              if |ManagedIds(old(fs.files))| >= maximum then r == Failure(BackupCapacity) && fs.files == old(fs.files) else r.Success?
    ensures r == Failure(BackupCapacity) ==> |ManagedIds(old(fs.files))| >= maximum
    ensures r.Success? ==> Records(fs.files, codec, r.value, operation, targetProfile, targetBackup)
    ensures r.Success? ==>
              && r.value !in ManagedIds(old(fs.files))
              && IntactBackup(fs.files, codec, r.value, source.data)
              && |ManagedIds(fs.files)| <= maximum
    ensures r.Failure? ==> r.error in {Boundary, DirectoryLimit, BackupCapacity, BackupWriteFailed}
  {
    var full := EnsureCapacity(fs, maximum);
    if full.Some? {
      return Failure(full.value);
    }
    var createdAt: string := *;
    var id := AvailableId(fs);
    if id.None? {
      return Failure(BackupWriteFailed);
    }
    var manifest := Manifest(
      id.value, createdAt, codec.Sha(source.data), |source.data|, operation, targetProfile, targetBackup);
    var serialized := codec.Serialize(manifest);
    if serialized.None? {
      fs.troubled := true;
      return Failure(BackupWriteFailed);
    }
    var manifestBytes := serialized.value;
    SerializedIsParsed(codec, manifest);
    Managed(fs.files, id.value);
    var yamlWritten := fs.WriteNewFile(BackupYaml(id.value), source.data);
    if !yamlWritten {
      return Failure(BackupWriteFailed);
    }
    var jsonWritten := fs.WriteNewFile(BackupJson(id.value), manifestBytes);
    if !jsonWritten {
      return Failure(BackupWriteFailed);
    }
    var synced := fs.FsyncDirectory();
    if !synced {
      return Failure(Boundary);
    }
    OneMoreId(old(fs.files), fs.files, id.value);
    return Success(id.value);
  }

  /** The backup is whole, and not too large to be read. */
  predicate Loadable(files: map<Path, File>, codec: Codec, id: Id) {
    && BackupYaml(id) in files && |files[BackupYaml(id)].data| <= MAX_YAML_BYTES
    && IntactBackup(files, codec, id, files[BackupYaml(id)].data)
  }

  /** Loads a backup whose manifest vouches for its content. */
  method LoadBackup(fs: FileSystem, codec: Codec, id: Id) returns (r: Result<Snapshot, Reason>)
    modifies fs`troubled
    ensures old(fs.troubled) ==> fs.troubled
    ensures !fs.troubled && Loadable(fs.files, codec, id) ==> r.Success?
    ensures r.Success? ==>
              && IntactBackup(fs.files, codec, id, r.value.data)
              && r.value.identity == fs.files[BackupYaml(id)].identity && |r.value.data| <= MAX_YAML_BYTES
    ensures r.Failure? ==> r.error == BackupInvalid
  {
    var manifestFile := fs.ReadSecureFile(BackupJson(id), MAX_MANIFEST_BYTES);
    var source := fs.ReadSecureFile(BackupYaml(id), MAX_YAML_BYTES);
    if manifestFile.Failure? || source.Failure? {
      return Failure(BackupInvalid);
    }
    var manifest := codec.Parse(manifestFile.value.data);
    if manifest.None? || !Vouches(codec, manifest.value, id, source.value.data) {
      return Failure(BackupInvalid);
    }
    return Success(source.value);
  }
}
