/** Exactly-once ingestion: the replay ledger is the recent past, and retries change nothing. */
module ExactlyOnce {
  import opened Wrappers
  import opened HealthModels
  import opened Projection
  import opened HistoryTables
  import opened Ingestion
  import opened AlertTable
  import opened IngestionSafety
  import opened IngestionRuns

  function EntriesOf(accepted: seq<HealthProjection>): (entries: seq<ReplayEntry>)
    ensures |entries| == |accepted|
    ensures forall i :: 0 <= i < |accepted| ==> entries[i] == EntryOf(accepted[i])
  {
    seq(|accepted|, i requires 0 <= i < |accepted| => EntryOf(accepted[i]))
  }

  /** The ledger and the checkpoint are a function of the accepted observations. */
  ghost predicate TracksAccepted(hash: Hash, db: Db, accepted: seq<HealthProjection>) {
    var entries := EntriesOf(accepted);
    && (forall i :: 0 <= i < |accepted| ==> ValidProjection(hash, accepted[i]))
    && Increasing(entries)
    && db.ledger == Newest(entries)
    && db.checkpoint.acceptedCount == Saturated(|accepted|)
    && db.checkpoint.last == (if entries == [] then None else Some(entries[|entries| - 1]))
  }

  lemma NewestGrows<T>(entries: seq<T>, entry: T)
    ensures Newest(Newest(entries) + [entry]) == Newest(entries + [entry])
  {
  }

  /** The checkpoint and the ledger of `after` are those of `before` with one more entry. */
  predicate EntryAppended(before: Db, after: Db, entry: ReplayEntry) {
    && after.checkpoint == Checkpoint(Some(entry), Saturated(before.checkpoint.acceptedCount + 1))
    && after.ledger == Newest(before.ledger + [entry])
  }

  lemma OneMoreEntry(accepted: seq<HealthProjection>, p: HealthProjection)
    ensures EntriesOf(accepted + [p]) == EntriesOf(accepted) + [EntryOf(p)]
  {
  }

  lemma AppendedTracks(hash: Hash, before: Db, after: Db, accepted: seq<HealthProjection>, p: HealthProjection)
    requires TracksAccepted(hash, before, accepted) && EntryAppended(before, after, EntryOf(p))
    requires ValidProjection(hash, p) && IsNew(before, p)
    ensures TracksAccepted(hash, after, accepted + [p])
  {
    hide ValidProjection, EntriesOf, Increasing, Newest;
    var entries := EntriesOf(accepted);
    OneMoreEntry(accepted, p);
    assert entries != [] ==> entries[|entries| - 1].sequence < p.sequence;
    GrowsIncreasing(entries, EntryOf(p));
    NewestGrows(entries, EntryOf(p));
  }

  lemma StepTracks(hash: Hash, db: Db, accepted: seq<HealthProjection>, p: HealthProjection)
    requires Sound(hash, db) && TracksAccepted(hash, db, accepted) && AcceptsNew(hash, db, p)
    ensures TracksAccepted(hash, Ingest(hash, db, p).db, accepted + [p])
  {
    hide ValidProjection, Ingest, Sound, AcceptsNew, TracksAccepted, IsNew, Newest;
    StepMovesCheckpoint(hash, db, p);
    AppendedTracks(hash, db, Ingest(hash, db, p).db, accepted, p);
  }

  /**
   * After every run the ledger holds exactly the newest accepted observations, 64 at most, the
   * newest of them is the checkpoint, and accepted sequences strictly increase.
   */
  lemma {:induction false} LedgerIsRecentPast(hash: Hash, stream: seq<HealthProjection>)
    ensures var run := RunAll(hash, stream); TracksAccepted(hash, run.db, run.accepted)
  {
    if stream != [] {
      var n := |stream| - 1;
      var before, p := RunAll(hash, stream[..n]), stream[n];
      LedgerIsRecentPast(hash, stream[..n]);
      RunIsSound(hash, stream[..n]);
      if AcceptsNew(hash, before.db, p) {
        StepTracks(hash, before.db, before.accepted, p);
      } else {
        IngestionKeepsTrust(hash, before.db, p);
      }
    }
  }

  // ---------- Submitting an old sequence again ----------

  lemma {:induction false} EntryIsFound(ledger: seq<ReplayEntry>, sequence: int)
    ensures match FindEntry(ledger, sequence)
            case None => forall i :: 0 <= i < |ledger| ==> ledger[i].sequence != sequence
            case Some(entry) => entry in ledger && entry.sequence == sequence
  {
    if ledger != [] {
      EntryIsFound(ledger[..|ledger| - 1], sequence);
    }
  }

  lemma OldParts(hash: Hash, db: Db, p: HealthProjection)
    requires Sound(hash, db) && ValidProjection(hash, p)
    ensures Increasing(db.ledger) && HasEveryScope(db.evaluation) && WellFormed(p)
  {
    hide SamplesOk, BaselineOk, AlertsOk, WellFormed, Readable, ReadCheckpoint;
  }

  lemma OldIsLookedUp(hash: Hash, db: Db, p: HealthProjection)
    requires Sound(hash, db) && ValidProjection(hash, p) && !IsNew(db, p)
    ensures Ingest(hash, db, p).result ==
              match FindEntry(db.ledger, p.sequence)
              case None => Rejected(Rejection(StaleSequence, false))
              case Some(entry) => if entry == EntryOf(p) then Accepted(Replayed) else Rejected(Rejection(SequenceConflict, false))
  {
    hide Sound, ValidProjection, WellFormed, HasEveryScope, Advance, FindEntry, EntryOf, Increasing;
    hide ReadCheckpoint, ValidateReplayAnchor, ReadEvaluationRows;
    OldParts(hash, db, p);
    GuardsPass(hash, db, p);
  }

  /** The answer to a sequence that is not new depends on the ledger alone. */
  lemma OldSequenceAnswer(hash: Hash, db: Db, p: HealthProjection)
    requires Sound(hash, db) && ValidProjection(hash, p) && !IsNew(db, p)
    ensures Ingest(hash, db, p).db == db
    ensures var result := Ingest(hash, db, p).result;
            && (result == Accepted(Replayed) <==> EntryOf(p) in db.ledger)
            && (result == Rejected(Rejection(StaleSequence, false)) <==>
                  forall i :: 0 <= i < |db.ledger| ==> db.ledger[i].sequence != p.sequence)
  {
    hide Sound, ValidProjection, WellFormed, HasEveryScope, Ingest, FindEntry, IsNew, DisabledButHealthy;
    OldParts(hash, db, p);
    OldIsLookedUp(hash, db, p);
    IngestionKeepsTrust(hash, db, p);
    EntryIsFound(db.ledger, p.sequence);
  }

  lemma RetainedIsInLedger(hash: Hash, db: Db, accepted: seq<HealthProjection>, i: nat)
    requires TracksAccepted(hash, db, accepted)
    requires i < |accepted| && |accepted| - REPLAY_LEDGER_CAPACITY <= i
    ensures ValidProjection(hash, accepted[i]) && !IsNew(db, accepted[i]) && EntryOf(accepted[i]) in db.ledger
  {
    hide ValidProjection;
    var entries := EntriesOf(accepted);
    var kept := |entries| - |db.ledger|;
    assert db.ledger[i - kept] == entries[i];
    assert entries[i].sequence <= entries[|entries| - 1].sequence;
  }

  /** Every observation among the last 64 accepted ones is answered with a replay, and nothing changes. */
  lemma RetainedIsReplayed(hash: Hash, stream: seq<HealthProjection>, i: nat)
    requires var accepted := RunAll(hash, stream).accepted;
             i < |accepted| && |accepted| - REPLAY_LEDGER_CAPACITY <= i
    ensures var run := RunAll(hash, stream);
            Ingest(hash, run.db, run.accepted[i]) == Ingested(run.db, Accepted(Replayed))
  {
    hide *;
    var run := RunAll(hash, stream);
    RunIsSound(hash, stream);
    LedgerIsRecentPast(hash, stream);
    RetainedIsInLedger(hash, run.db, run.accepted, i);
    OldSequenceAnswer(hash, run.db, run.accepted[i]);
  }

  // ---------- Immediate retries ----------

  /** Whatever the first answer was, an immediate retry leaves the database as it is. */
  lemma RetryChangesNothing(hash: Hash, db: Db, p: HealthProjection)
    requires Sound(hash, db)
    ensures var first := Ingest(hash, db, p);
            var second := Ingest(hash, first.db, p);
            && second.db == first.db
            && (first.result.Accepted? ==> second.result == Accepted(Replayed))
            && (first.result.Rejected? ==> second.result == first.result)
  {
    hide Sound, Ingest, ValidProjection;
    IngestionKeepsTrust(hash, db, p);
    if AcceptsNew(hash, db, p) {
      var first := Ingest(hash, db, p);
      StepMovesCheckpoint(hash, db, p);
      assert (db.ledger + [EntryOf(p)])[|db.ledger|] == EntryOf(p);
      assert first.db.ledger[|first.db.ledger| - 1] == EntryOf(p);
      OldSequenceAnswer(hash, first.db, p);
    }
  }

  lemma SubmittedTwice(hash: Hash, run: Run, p: HealthProjection)
    requires Sound(hash, run.db)
    ensures Submit(hash, Submit(hash, run, p), p) == Submit(hash, run, p)
  {
    RetryChangesNothing(hash, run.db, p);
    hide Ingest;
  }

  /** `retries[i]` extra copies directly after the i-th submission. */
  function WithRetries(stream: seq<HealthProjection>, retries: seq<nat>): seq<HealthProjection>
    requires |retries| == |stream|
  {
    if stream == [] then []
    else
      var n := |stream| - 1;
      WithRetries(stream[..n], retries[..n]) + Copies(stream[n], 1 + retries[n])
  }

  function Copies(p: HealthProjection, n: nat): seq<HealthProjection> {
    if n == 0 then [] else Copies(p, n - 1) + [p]
  }

  lemma {:induction false} CopiesCountOnce(hash: Hash, stream: seq<HealthProjection>, p: HealthProjection, n: nat)
    requires n >= 1
    ensures RunAll(hash, stream + Copies(p, n)) == RunAll(hash, stream + [p])
  {
    hide Submit, Sound;
    if n == 1 {
      assert stream + Copies(p, n) == stream + [p];
    } else {
      CopiesCountOnce(hash, stream, p, n - 1);
      assert stream + Copies(p, n) == (stream + Copies(p, n - 1)) + [p];
      RunAppends(hash, stream + Copies(p, n - 1), p);
      RunAppends(hash, stream, p);
      RunIsSound(hash, stream);
      SubmittedTwice(hash, RunAll(hash, stream), p);
    }
  }

  /** A stream with immediate retries ends in the same database as the stream without them. */
  lemma {:induction false} RetriesAreInvisible(hash: Hash, stream: seq<HealthProjection>, retries: seq<nat>)
    requires |retries| == |stream|
    ensures RunAll(hash, WithRetries(stream, retries)) == RunAll(hash, stream)
  {
    hide Submit;
    if stream != [] {
      var n := |stream| - 1;
      var before := WithRetries(stream[..n], retries[..n]);
      RetriesAreInvisible(hash, stream[..n], retries[..n]);
      CopiesCountOnce(hash, before, stream[n], 1 + retries[n]);
      RunAppends(hash, before, stream[n]);
      RunAppends(hash, stream[..n], stream[n]);
      assert stream == stream[..n] + [stream[n]];
    }
  }
}
