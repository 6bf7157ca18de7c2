/**
 The repository's update column by column (persistence/repository.py). It loads
 the row again, merges the caller's copy over what it loaded, and issues an update
 of the columns that differ. Elsewhere in the project an update replaces the whole
 row; this is exactly when it does.
 */
module Columns {
  import opened Wrappers
  import opened Jobs

  /** A column's value after an update of the columns in which `copy` differs from `loaded`. */
  function Column<T(==)>(stored: T, loaded: T, copy: T): T {
    if copy == loaded then stored else copy
  }

  /** The columns transitions change. */
  function MergeUpdate(stored: Job, loaded: Job, copy: Job): Job {
    stored.(status := Column(stored.status, loaded.status, copy.status),
            attempts := Column(stored.attempts, loaded.attempts, copy.attempts),
            resultRef := Column(stored.resultRef, loaded.resultRef, copy.resultRef),
            error := Column(stored.error, loaded.error, copy.error),
            durationMs := Column(stored.durationMs, loaded.durationMs, copy.durationMs))
  }

  predicate SameKey(a: Job, b: Job) {
    a.id == b.id && a.jobType == b.jobType && a.payload == b.payload
  }

  /** The stored row has the copy's value in every column the update leaves out. */
  predicate AgreesElsewhere(stored: Job, loaded: Job, copy: Job) {
    && (copy.status == loaded.status ==> stored.status == copy.status)
    && (copy.attempts == loaded.attempts ==> stored.attempts == copy.attempts)
    && (copy.resultRef == loaded.resultRef ==> stored.resultRef == copy.resultRef)
    && (copy.error == loaded.error ==> stored.error == copy.error)
    && (copy.durationMs == loaded.durationMs ==> stored.durationMs == copy.durationMs)
  }

  /** An update writes the whole copy if and only if the row already agrees with it in every column left out. */
  lemma UpdateIsWholeRowIff(stored: Job, loaded: Job, copy: Job)
    requires SameKey(stored, copy)
    ensures MergeUpdate(stored, loaded, copy) == copy <==> AgreesElsewhere(stored, loaded, copy)
  {
    if MergeUpdate(stored, loaded, copy) == copy {
      assert Column(stored.error, loaded.error, copy.error) == copy.error;
    }
  }

  /** So it does whenever nobody writes the row between the load and the commit. */
  lemma UpdateAloneIsWholeRow(stored: Job, copy: Job)
    requires SameKey(stored, copy)
    ensures MergeUpdate(stored, stored, copy) == copy
  {
    UpdateIsWholeRowIff(stored, stored, copy);
  }

  /**
   A success and a failure that both loaded the running row: the columns of the
   two outcomes end up in one record.
   */
  lemma OvertakenUpdateMixesColumns(running: Job) returns (won: Job, failed: Job, mixed: Job)
    requires running.status == Running && Consistent(running)
    ensures MarkSuccess(running, "ref", Some(1)) == Ok(won) && MarkFailed(running, "boom", None) == Ok(failed)
    ensures mixed == MergeUpdate(MergeUpdate(running, running, won), running, failed)
    ensures Consistent(won) && Consistent(failed)
    ensures mixed.status == Failed && mixed.resultRef == Some("ref") && !Consistent(mixed)
  {
    won, failed := MarkSuccess(running, "ref", Some(1)).value, MarkFailed(running, "boom", None).value;
    UpdateAloneIsWholeRow(running, won);
    mixed := MergeUpdate(won, running, failed);
  }
}
