/**
 * Applying a profile and rolling back to a backup (config_profiles/service.py).  The answer tells
 * the truth about the active file, whatever faults happen and whatever validation says.
 */
module Activation {
  import opened Wrappers
  import opened ProfileFiles
  import opened Backups

  const MINIMUM_BACKUPS: int := 1
  const MAXIMUM_BACKUPS: int := 100

  /** Neither successful nor concerned with a restoration: nothing was published. */
  predicate Refuses(reason: Reason) {
    && reason != Applied && reason != RolledBack && reason != NoChange
    && reason != FailedRestored && reason != RestorationFailed
  }

  /** The answers to arguments that are refused. */
  predicate IsGuard(reason: Reason) {
    reason == InvalidId || reason == InvalidArgument || reason == ConfirmationMismatch
  }

  /** Raw and effective validation; the environment may change, so any answer is possible. */
  method Validates(fs: FileSystem, data: Bytes) returns (ok: bool)
    modifies fs`troubled
    ensures fs.troubled == (old(fs.troubled) || !ok)
  {
    ok := *;
    fs.troubled := fs.troubled || !ok;
  }

  /** The file is there and not too large. */
  predicate Fits(files: map<Path, File>, path: Path) {
    path in files && |files[path].data| <= MAX_YAML_BYTES
  }

  /** Reads a file and validates it. */
  method LoadValid(fs: FileSystem, path: Path) returns (r: Result<Snapshot, Reason>)
    modifies fs`troubled
    ensures old(fs.troubled) ==> fs.troubled
    ensures !fs.troubled && Fits(fs.files, path) ==> r.Success?
    ensures r.Success? ==> Fits(fs.files, path)
    ensures r.Failure? ==> !IsGuard(r.error)
    ensures r.Success? ==> path in fs.files && r.value == Snapshot(fs.files[path].data, fs.files[path].identity)
    ensures r.Failure? ==> Refuses(r.error)
  {
    var valid := fs.ValidatePaths();
    if !valid {
      return Failure(Boundary);
    }
    var snapshot :- fs.ReadSecureFile(path, MAX_YAML_BYTES);
    var acceptable := Validates(fs, snapshot.data);
    return if acceptable then Success(snapshot) else Failure(InvalidConfiguration);
  }

  /** Reads the active file back, compares it, and validates it once more. */
  method VerifyPublished(fs: FileSystem, expected: Bytes) returns (ok: bool)
    modifies fs`troubled
    ensures old(fs.troubled) ==> fs.troubled
    ensures !fs.troubled && Fits(fs.files, Active) && fs.files[Active].data == expected ==> ok
    ensures ok ==> Active in fs.files && fs.files[Active].data == expected
  {
    var snapshot := fs.ReadSecureFile(Active, MAX_YAML_BYTES);
    if snapshot.Failure? || snapshot.value.data != expected {
      return false;
    }
    ok := Validates(fs, snapshot.value.data);
  }

  /** What a publication leaves alone: the backups, the profiles, and what others wrote. */
  predicate Publishes(before: map<Path, File>, after: map<Path, File>) {
    && (forall p :: p in before && !p.Temporary? && p != Active ==> p in after && after[p] == before[p])
    && (forall p :: p in after && !p.Temporary? && p != Active ==> p in before)
  }

  twostate predicate OnlyPublishes(fs: FileSystem)
    reads fs
  {
    fs.original == old(fs.original) && Publishes(old(fs.files), fs.files)
  }

  method RecoverPrevious(fs: FileSystem, previous: Bytes) returns (reason: Reason)
    modifies fs`files, fs`troubled
    ensures old(fs.troubled) ==> fs.troubled
    ensures !fs.troubled && |previous| <= MAX_YAML_BYTES ==> reason == FailedRestored
    ensures OnlyPublishes(fs)
    ensures reason == FailedRestored || reason == RestorationFailed
    ensures reason == FailedRestored ==> Active in fs.files && fs.files[Active].data == previous
    ensures reason == RestorationFailed ==>
              || (Active in fs.files && fs.files[Active].data == previous)
              || ((Active in fs.files <==> Active in old(fs.files)) && (Active in fs.files ==> fs.files[Active] == old(fs.files)[Active]))
  {
    var outcome := fs.AtomicReplace(previous, None);
    if !outcome.Replaced? {
      return RestorationFailed;
    }
    var verified := VerifyPublished(fs, previous);
    return if verified then FailedRestored else RestorationFailed;
  }

  /** Publishes and verifies; once published, any problem leads to the restoration of the previous bytes. */
  method PublishWithRecovery(fs: FileSystem, replacement: Bytes, previous: Snapshot, expected: int)
    returns (failure: Option<Reason>)
    requires fs.Settled() && Active in fs.files && fs.files[Active].data == previous.data
    modifies fs`files, fs`troubled
    ensures old(fs.troubled) ==> fs.troubled
    ensures !fs.troubled && old(fs.files)[Active].identity == expected && |replacement| <= MAX_YAML_BYTES ==> failure.None?
    ensures failure == Some(ActiveChanged) ==> old(fs.files)[Active].identity != expected
    ensures failure.Some? ==> !IsGuard(failure.value)
    ensures OnlyPublishes(fs)
    ensures failure.None? ==> Active in fs.files && fs.files[Active].data == replacement
    ensures failure == Some(FailedRestored) ==> Active in fs.files && fs.files[Active].data == previous.data
    ensures failure == Some(RestorationFailed) ==>
              Active in fs.files && (fs.files[Active].data == replacement || fs.files[Active].data == previous.data)
    ensures failure.Some? && Refuses(failure.value) ==> fs.Settled()
    ensures failure.Some? ==> failure.value != Applied && failure.value != RolledBack && failure.value != NoChange
  {
    var outcome := fs.AtomicReplace(replacement, Some(expected));
    match outcome {
      case NotPublished(reason) => return Some(reason);
      case PublishedThenFailed =>
      case Replaced =>
        var verified := VerifyPublished(fs, replacement);
        if verified {
          return None;
        }
    }
    var reason := RecoverPrevious(fs, previous.data);
    return Some(reason);
  }

  /** What is true after an operation with this answer, `target` being what it was to install. */
  ghost predicate TellsTheTruth(
    files: map<Path, File>, codec: Codec, original: Option<Bytes>, target: Bytes, backup: Option<Id>, reason: Reason)
  {
    match reason
    case Applied => Installed(files, codec, original, target, backup)
    case RolledBack => Installed(files, codec, original, target, backup)
    case NoChange => Active in files && original == Some(files[Active].data) && files[Active].data == target
    case FailedRestored => Active in files && original == Some(files[Active].data)
    case RestorationFailed =>
      Active in files && original.Some? && (files[Active].data == original.value || files[Active].data == target)
    case _ => original == if Active in files then Some(files[Active].data) else None
  }

  /** The target is active, and a backup holds what was active before. */
  ghost predicate Installed(files: map<Path, File>, codec: Codec, original: Option<Bytes>, target: Bytes, backup: Option<Id>) {
    && Active in files && files[Active].data == target
    && original.Some? && backup.Some?
    && IntactBackup(files, codec, backup.value, original.value)
  }

  /** Backs up the active file and publishes the replacement: the common end of both operations. */
  method Install(
    fs: FileSystem, codec: Codec, active: Snapshot, replacement: Bytes, success: Reason, operation: Operation,
    maximum: int, targetProfile: Option<Id>, targetBackup: Option<Id>) returns (reason: Reason, backup: Option<Id>)
    requires RoundTrips(codec) && MINIMUM_BACKUPS <= maximum <= MAXIMUM_BACKUPS
    requires success == Applied || success == RolledBack
    requires fs.Settled() && Active in fs.files && active.data == fs.files[Active].data
    modifies fs`files, fs`troubled
    ensures old(fs.troubled) ==> fs.troubled
    ensures !fs.troubled && active.identity == old(fs.files)[Active].identity && |replacement| <= MAX_YAML_BYTES ==>
              reason == if |ManagedIds(old(fs.files))| >= maximum then BackupCapacity else success
    ensures !IsGuard(reason)
    ensures reason == success ==> backup.Some? && Records(fs.files, codec, backup.value, operation, targetProfile, targetBackup)
    ensures TellsTheTruth(fs.files, codec, fs.original, replacement, backup, reason)
    ensures fs.KeepsBackupFiles()
    ensures forall p :: p in old(fs.files) && p.ProfilePath? ==> p in fs.files && fs.files[p] == old(fs.files)[p]
    ensures reason != NoChange && (reason == Applied || reason == RolledBack ==> reason == success)
    ensures backup.Some? ==> backup.value !in ManagedIds(old(fs.files))
  {
    hide IntactBackup, Records, ManagedIds, Installed, RoundTrips, AddsBackups, Publishes;
    ghost var before := fs.files;
    var created := CreateBackup(fs, codec, active, operation, maximum, targetProfile, targetBackup);
    BackupKeepsFiles(before, fs.files);
    if created.Failure? {
      return created.error, None;
    }
    backup := Some(created.value);
    ghost var backedUp := fs.files;
    var failure := PublishWithRecovery(fs, replacement, active, active.identity);
    PublishingKeepsFiles(backedUp, fs.files);
    BackupStaysIntact(backedUp, fs.files, codec, created.value, active.data);
    RecordStays(backedUp, fs.files, codec, created.value, operation, targetProfile, targetBackup);
    if failure.None? {
      InstalledWithBackup(fs.files, codec, active.data, replacement, created.value);
    }
    reason := if failure.Some? then failure.value else success;
  }

  lemma BackupKeepsFiles(before: map<Path, File>, after: map<Path, File>)
    requires AddsBackups(before, after)
    ensures forall p :: p in before ==> p in after && after[p] == before[p]
    ensures Active in after ==> Active in before
  {
  }

  lemma PublishingKeepsFiles(before: map<Path, File>, after: map<Path, File>)
    requires Publishes(before, after)
    ensures forall p :: p in before && (p.IsBackup() || p.ProfilePath?) ==> p in after && after[p] == before[p]
  {
  }

  lemma InstalledWithBackup(files: map<Path, File>, codec: Codec, original: Bytes, target: Bytes, backup: Id)
    requires Active in files && files[Active].data == target && IntactBackup(files, codec, backup, original)
    ensures Installed(files, codec, Some(original), target, Some(backup))
  {
  }

  lemma BackupStaysIntact(before: map<Path, File>, after: map<Path, File>, codec: Codec, id: Id, data: Bytes)
    requires IntactBackup(before, codec, id, data)
    requires forall p :: p in before && p.IsBackup() ==> p in after && after[p] == before[p]
    ensures IntactBackup(after, codec, id, data)
  {
  }

  lemma RecordStays(
    before: map<Path, File>, after: map<Path, File>, codec: Codec, id: Id, operation: Operation, targetProfile: Option<Id>,
    targetBackup: Option<Id>)
    requires Records(before, codec, id, operation, targetProfile, targetBackup)
    requires forall p :: p in before && p.IsBackup() ==> p in after && after[p] == before[p]
    ensures Records(after, codec, id, operation, targetProfile, targetBackup)
  {
  }

  /** The two reads of a file around the moment when others may write agree. */
  predicate Unchanged(a: Snapshot, b: Snapshot) {
    a == b
  }

  /** Which of the arguments is refused first, if any; nothing else gives these answers. */
  predicate Guarded(reason: Reason, validId: bool, confirmed: bool, maximum: int) {
    if !validId then reason == InvalidId
    else if !(1 <= maximum <= 100) then reason == InvalidArgument
    else if !confirmed then reason == ConfirmationMismatch
    else !IsGuard(reason)
  }

  /** The file holds exactly this snapshot. */
  predicate Holds(files: map<Path, File>, path: Path, snapshot: Snapshot) {
    Fits(files, path) && snapshot == Snapshot(files[path].data, files[path].identity)
  }

  /** Checks the paths, takes the lock, and loads what is active and the profile. */
  method LoadProfile(fs: FileSystem, profile: Id) returns (r: Result<(Snapshot, Snapshot), Reason>)
    modifies fs`troubled
    ensures old(fs.troubled) ==> fs.troubled
    ensures r.Success? ==> Holds(fs.files, Active, r.value.0) && Holds(fs.files, ProfilePath(profile), r.value.1)
    ensures r.Failure? ==> Refuses(r.error) && !IsGuard(r.error)
    ensures !fs.troubled && Fits(fs.files, Active) && Fits(fs.files, ProfilePath(profile)) ==> r.Success?
  {
    var safe := fs.ValidatePaths();
    var locked := fs.ValidatePaths();
    if !safe || !locked {
      return Failure(if safe then MutationBusy else Boundary);
    }
    var active :- LoadValid(fs, Active);
    var candidate :- LoadValid(fs, ProfilePath(profile));
    return Success((active, candidate));
  }

  /** Reads both files again and compares them with what was loaded. */
  method RecheckProfile(fs: FileSystem, profile: Id, active: Snapshot, candidate: Snapshot) returns (problem: Option<Reason>)
    modifies fs`troubled
    ensures old(fs.troubled) ==> fs.troubled
    ensures problem.None? ==> Holds(fs.files, Active, active) && Holds(fs.files, ProfilePath(profile), candidate)
    ensures problem.Some? ==> Refuses(problem.value) && !IsGuard(problem.value)
    ensures !fs.troubled && Holds(fs.files, Active, active) && Holds(fs.files, ProfilePath(profile), candidate) ==> problem.None?
  {
    var activeNow := fs.ReadSecureFile(Active, MAX_YAML_BYTES);
    var candidateNow := fs.ReadSecureFile(ProfilePath(profile), MAX_YAML_BYTES);
    if activeNow.Failure? || candidateNow.Failure? {
      return Some(if activeNow.Failure? then activeNow.error else candidateNow.error);
    }
    if !Unchanged(active, activeNow.value) {
      return Some(ActiveChanged);
    }
    if !Unchanged(candidate, candidateNow.value) {
      return Some(ProfileChanged);
    }
    return None;
  }

  method Apply(fs: FileSystem, codec: Codec, profile: Id, confirmation: Id, maximum: int, validId: bool)
    returns (reason: Reason, backup: Option<Id>, ghost target: Bytes)
    requires RoundTrips(codec) && fs.Settled()
    modifies fs
    ensures Guarded(reason, validId, confirmation == profile, maximum)
    ensures !validId || !(1 <= maximum <= 100) || confirmation != profile ==> fs.files == old(fs.files)
    ensures old(fs.troubled) ==> fs.troubled
    ensures
      (!fs.troubled && validId && 1 <= maximum <= 100 && confirmation == profile
       && Fits(old(fs.files), Active) && Fits(old(fs.files), ProfilePath(profile))) ==>
        reason ==
          if old(fs.files)[Active].data == old(fs.files)[ProfilePath(profile)].data then NoChange
          else if |ManagedIds(old(fs.files))| >= maximum then BackupCapacity
          else Applied
    ensures reason == NoChange || reason == Applied ==> Fits(fs.files, ProfilePath(profile)) && target == fs.files[ProfilePath(profile)].data
    ensures reason == Applied ==> backup.Some? && Records(fs.files, codec, backup.value, ApplyOperation, Some(profile), None)
    ensures TellsTheTruth(fs.files, codec, fs.original, target, backup, reason)
    ensures reason == Applied ==> ProfilePath(profile) in fs.files && target == fs.files[ProfilePath(profile)].data
    ensures reason != RolledBack && fs.KeepsBackupFiles()
    ensures backup.Some? ==> backup.value !in ManagedIds(old(fs.files))
  {
    hide IntactBackup, ManagedIds, Installed, RoundTrips, Records, Vouches;
    backup, target := None, [];
    if !validId || !(MINIMUM_BACKUPS <= maximum <= MAXIMUM_BACKUPS) {
      return if !validId then InvalidId else InvalidArgument, backup, target;
    }
    if confirmation != profile {
      return ConfirmationMismatch, backup, target;
    }
    var loaded := LoadProfile(fs, profile);
    if loaded.Failure? {
      return loaded.error, backup, target;
    }
    var (active, candidate) := loaded.value;
    target := candidate.data;
    if active.data == candidate.data {
      return NoChange, backup, target;
    }
    ghost var before := fs.files;
    fs.OthersMayWrite();
    SameManagedIds(before, fs.files);
    var problem := RecheckProfile(fs, profile, active, candidate);
    if problem.Some? {
      return problem.value, backup, target;
    }
    reason, backup := Install(
      fs, codec, active, candidate.data, Applied, ApplyOperation, maximum, Some(profile), None);
  }

  lemma SameManagedIds(before: map<Path, File>, after: map<Path, File>)
    requires forall p: Path :: p.IsBackup() ==> (p in before <==> p in after)
    ensures ManagedIds(before) == ManagedIds(after)
  {
  }

  /** The backup is intact and holds exactly this snapshot. */
  predicate HoldsBackup(files: map<Path, File>, codec: Codec, id: Id, snapshot: Snapshot) {
    && IntactBackup(files, codec, id, snapshot.data)
    && |snapshot.data| <= MAX_YAML_BYTES && snapshot.identity == files[BackupYaml(id)].identity
  }

  /** Checks the paths, takes the lock, and loads what is active and the backup. */
  method LoadSelected(fs: FileSystem, codec: Codec, id: Id) returns (r: Result<(Snapshot, Snapshot), Reason>)
    modifies fs`troubled
    ensures old(fs.troubled) ==> fs.troubled
    ensures r.Success? ==> Holds(fs.files, Active, r.value.0) && HoldsBackup(fs.files, codec, id, r.value.1)
    ensures r.Failure? ==> Refuses(r.error) && !IsGuard(r.error)
    ensures !fs.troubled && Fits(fs.files, Active) && Loadable(fs.files, codec, id) ==> r.Success?
  {
    var safe := fs.ValidatePaths();
    var locked := fs.ValidatePaths();
    if !safe || !locked {
      return Failure(if safe then MutationBusy else Boundary);
    }
    var active :- LoadValid(fs, Active);
    var selected :- LoadBackup(fs, codec, id);
    var acceptable := Validates(fs, selected.data);
    return if acceptable then Success((active, selected)) else Failure(InvalidConfiguration);
  }

  /** Reads the active file and the backup again and compares them with what was loaded. */
  method RecheckSelected(fs: FileSystem, codec: Codec, id: Id, active: Snapshot, selected: Snapshot)
    returns (problem: Option<Reason>)
    modifies fs`troubled
    ensures old(fs.troubled) ==> fs.troubled
    ensures problem.None? ==> Holds(fs.files, Active, active) && HoldsBackup(fs.files, codec, id, selected)
    ensures problem.Some? ==> Refuses(problem.value) && !IsGuard(problem.value)
    ensures !fs.troubled && Holds(fs.files, Active, active) && HoldsBackup(fs.files, codec, id, selected) ==> problem.None?
  {
    var activeNow := fs.ReadSecureFile(Active, MAX_YAML_BYTES);
    var selectedNow := LoadBackup(fs, codec, id);
    if activeNow.Failure? || selectedNow.Failure? {
      return Some(if activeNow.Failure? then activeNow.error else selectedNow.error);
    }
    if !Unchanged(active, activeNow.value) {
      return Some(ActiveChanged);
    }
    if !Unchanged(selected, selectedNow.value) {
      return Some(BackupInvalid);
    }
    return None;
  }

  method Rollback(fs: FileSystem, codec: Codec, id: Id, confirmation: Id, maximum: int, validId: bool)
    returns (reason: Reason, backup: Option<Id>, ghost target: Bytes)
    requires RoundTrips(codec) && fs.Settled()
    modifies fs
    ensures Guarded(reason, validId, confirmation == id, maximum)
    ensures !validId || !(1 <= maximum <= 100) || confirmation != id ==> fs.files == old(fs.files)
    ensures old(fs.troubled) ==> fs.troubled
    ensures
      (!fs.troubled && validId && 1 <= maximum <= 100 && confirmation == id
       && Fits(old(fs.files), Active) && Loadable(old(fs.files), codec, id)) ==>
        reason == if |ManagedIds(old(fs.files))| >= maximum then BackupCapacity else RolledBack
    ensures reason == RolledBack ==> backup.Some? && Records(fs.files, codec, backup.value, RollbackOperation, None, Some(id))
    ensures TellsTheTruth(fs.files, codec, fs.original, target, backup, reason)
    ensures reason == RolledBack ==> IntactBackup(old(fs.files), codec, id, target)
    ensures reason != Applied && reason != NoChange && fs.KeepsBackupFiles()
    ensures backup.Some? ==> backup.value !in ManagedIds(old(fs.files))
  {
    hide IntactBackup, ManagedIds, Installed, RoundTrips, Records, Vouches;
    backup, target := None, [];
    if !validId || !(MINIMUM_BACKUPS <= maximum <= MAXIMUM_BACKUPS) {
      return if !validId then InvalidId else InvalidArgument, backup, target;
    }
    if confirmation != id {
      return ConfirmationMismatch, backup, target;
    }
    var loaded := LoadSelected(fs, codec, id);
    if loaded.Failure? {
      return loaded.error, backup, target;
    }
    var (active, selected) := loaded.value;
    target := selected.data;
    ghost var before := fs.files;
    fs.OthersMayWrite();
    SameManagedIds(before, fs.files);
    var problem := RecheckSelected(fs, codec, id, active, selected);
    if problem.Some? {
      return problem.value, backup, target;
    }
    reason, backup := Install(
      fs, codec, active, selected.data, RolledBack, RollbackOperation, maximum, None, Some(id));
  }

  /** Applying a profile and rolling back to the backup made for it restores the bytes of before. */
  method ApplyThenRollBack(fs: FileSystem, codec: Codec, profile: Id, maximum: int)
    returns (applied: Reason, rolledBack: Reason, ghost before: Option<Bytes>)
    requires RoundTrips(codec) && fs.Settled()
    modifies fs
    ensures applied == Applied && rolledBack == RolledBack ==>
              Active in fs.files && Some(fs.files[Active].data) == before
  {
    var backup; var again; ghost var target;
    applied, backup, target := Apply(fs, codec, profile, profile, maximum, true);
    before := fs.original;
    if applied != Applied {
      return applied, applied, before;
    }
    fs.AcceptActive();
    rolledBack, again, target := Rollback(fs, codec, backup.value, backup.value, maximum, true);
  }
}
