/**
 * The `VerificationRepository` contract of the aggregate package, fulfilled by
 * an in-memory table of rows keyed by uuid. It keeps the observable rules of
 * the PostgreSQL adapter: rows go through `ToSQLVerification` on the way in
 * and are restored on the way out, `Update` matches the row by uuid, a missing
 * row on lookup is `VerificationNotFound`, and a failing database makes writes
 * fail with `VerificationPersistFailed` and lookups with the database's own error.
 * A lookup restores the row with the given `ReadClock`: `ReadAt(now)` is the
 * adapter as written, `KeepCreatedAt` the corrected restore.
 */
module Repository {
  import opened Prelude
  import opened Errors
  import opened Aggregate
  import opened Model

  /**
   * The table: rows by uuid, the next value of the id sequence, and the
   * failures the database reports to reads and to writes (`None` while they
   * work). Two separate faults let a write fail after a read has succeeded.
   */
  datatype StoreState = StoreState(
    rows: map<string, SqlVerification>,
    nextId: uint32,
    readFault: Option<string>,
    writeFault: Option<string>)

  /** Every row sits under its own uuid and restores to a consistent aggregate. */
  predicate WellFormed(st: StoreState) {
    forall u :: u in st.rows ==>
      st.rows[u].Uuid == u && Restore(st.rows[u]).Success? && Consistent(Restore(st.rows[u]).value)
  }

  /** The table after a write and the error the write returned. */
  datatype Write = Write(store: StoreState, err: Option<Error>)

  /**
   * `Add`: inserts the row with the next id. The uuid column is taken to be
   * unique, so a second row with the same uuid is a persist failure.
   */
  function AddOutcome(st: StoreState, v: VerificationState): (r: Write)
    ensures r.err.None? <==> st.writeFault.None? && v.uuid.value !in st.rows && st.nextId < MaxUint32
    ensures st.writeFault.Some? ==> r.err == Some(VerificationPersistFailed(st.writeFault.value))
    ensures r.err.Some? ==> r.err.value.VerificationPersistFailed? && r.store == st
    ensures r.err.None? ==> r.store == st.(
      rows := st.rows[v.uuid.value := ToSQLVerification(v).(Id := st.nextId)],
      nextId := st.nextId + 1)
  {
    if st.writeFault.Some? then Write(st, Some(VerificationPersistFailed(st.writeFault.value)))
    else if v.uuid.value in st.rows then Write(st, Some(VerificationPersistFailed("duplicate uuid")))
    else if st.nextId == MaxUint32 then Write(st, Some(VerificationPersistFailed("id sequence exhausted")))
    else Write(st.(rows := st.rows[v.uuid.value := ToSQLVerification(v).(Id := st.nextId)],
                   nextId := st.nextId + 1), None)
  }

  /**
   * `Update`: rewrites every column but the id of the row with the aggregate's
   * uuid; when no row has that uuid the statement changes nothing and succeeds.
   */
  function UpdateOutcome(st: StoreState, v: VerificationState): (r: Write)
    ensures r.err.None? <==> st.writeFault.None?
    ensures st.writeFault.Some? ==> r == Write(st, Some(VerificationPersistFailed(st.writeFault.value)))
    ensures st.writeFault.None? && v.uuid.value !in st.rows ==> r == Write(st, None)
    ensures st.writeFault.None? && v.uuid.value in st.rows ==> r == Write(st.(
      rows := st.rows[v.uuid.value := ToSQLVerification(v).(Id := st.rows[v.uuid.value].Id)]), None)
  {
    if st.writeFault.Some? then Write(st, Some(VerificationPersistFailed(st.writeFault.value)))
    else if v.uuid.value !in st.rows then Write(st, None)
    else Write(st.(rows := st.rows[v.uuid.value := ToSQLVerification(v).(Id := st.rows[v.uuid.value].Id)]), None)
  }

  /**
   * `GetByUuid`: the row restored with the clock reading `clock` gives,
   * `VerificationNotFound` when there is none, or the database's error.
   */
  function Lookup(st: StoreState, u: VerificationUuid, clock: ReadClock): (r: Result<VerificationState, Error>)
    ensures st.readFault.Some? ==> r == Failure(StorageFailure(st.readFault.value))
    ensures st.readFault.None? && u.value !in st.rows ==> r == Failure(VerificationNotFound(u.value))
    ensures st.readFault.None? && u.value in st.rows ==>
      r == ToDomainState(st.rows[u.value], ReadTime(clock, st.rows[u.value].CreatedAt))
    ensures st.readFault.None? && u.value in st.rows && clock.KeepCreatedAt? ==> r == Restore(st.rows[u.value])
    ensures WellFormed(st) && st.readFault.None? && u.value in st.rows ==>
      var row := st.rows[u.value];
      && r.Success? && Consistent(r.value) && r.value.uuid == u
      && r.value.createdAt == ReadTime(clock, row.CreatedAt)
      && ToSQLVerification(r.value) == row.(Id := 0, CreatedAt := ReadTime(clock, row.CreatedAt))
  {
    if st.readFault.Some? then Failure(StorageFailure(st.readFault.value))
    else if u.value !in st.rows then Failure(VerificationNotFound(u.value))
    else
      var row := st.rows[u.value];
      ReadTimeOnlyStampsCreatedAt(row, clock);
      ToDomainState(row, ReadTime(clock, row.CreatedAt))
  }

  /** Writes of consistent aggregates keep the table well formed. */
  lemma WritesPreserveWellFormed(st: StoreState, v: VerificationState)
    requires WellFormed(st) && Consistent(v)
    ensures WellFormed(AddOutcome(st, v).store)
    ensures WellFormed(UpdateOutcome(st, v).store)
  {
    RestoreStoredRow(v, st.nextId);
    if v.uuid.value in st.rows {
      RestoreStoredRow(v, st.rows[v.uuid.value].Id);
    }
  }

  /** The row written for a consistent aggregate restores to it, with the row's id. */
  lemma RestoreStoredRow(v: VerificationState, id: uint32)
    requires Consistent(v)
    ensures Restore(ToSQLVerification(v).(Id := id)) == Success(v.(id := VerificationId(id)))
  {
    assert ToDomainState(ToSQLVerification(v).(Id := id), v.createdAt) == Success(v.(id := VerificationId(id)));
  }

  /**
   * What was added is what is read back: the same aggregate with the id the
   * table assigned and the creation time the read clock gives.
   */
  lemma AddThenLookup(st: StoreState, v: VerificationState, clock: ReadClock)
    requires Consistent(v) && AddOutcome(st, v).err.None? && st.readFault.None?
    ensures Lookup(AddOutcome(st, v).store, v.uuid, clock) ==
      Success(v.(id := VerificationId(st.nextId), createdAt := ReadTime(clock, v.createdAt)))
  {
    var row := ToSQLVerification(v).(Id := st.nextId);
    RestoreStoredRow(v, st.nextId);
    ReadTimeOnlyStampsCreatedAt(row, clock);
  }

  /**
   * After an update of a stored uuid, reading it back gives the written
   * aggregate with the row's id and the creation time the read clock gives.
   */
  lemma UpdateThenLookup(st: StoreState, v: VerificationState, clock: ReadClock)
    requires Consistent(v) && st.readFault.None? && st.writeFault.None? && v.uuid.value in st.rows
    ensures Lookup(UpdateOutcome(st, v).store, v.uuid, clock) ==
      Success(v.(id := VerificationId(st.rows[v.uuid.value].Id), createdAt := ReadTime(clock, v.createdAt)))
  {
    var id := st.rows[v.uuid.value].Id;
    RestoreStoredRow(v, id);
    ReadTimeOnlyStampsCreatedAt(ToSQLVerification(v).(Id := id), clock);
  }

  /** The in-memory table. */
  class VerificationRepository {
    var rows: map<string, SqlVerification>
    var nextId: uint32
    var readFault: Option<string>
    var writeFault: Option<string>

    /**
     * `NewVerificationRepository` wraps a database that already exists, so the
     * table starts with whatever `initial` holds: rows earlier runs left, the
     * sequence where they left it, and the database's current faults.
     */
    constructor (initial: StoreState)
      ensures State() == initial
    {
      rows, nextId, readFault, writeFault := initial.rows, initial.nextId, initial.readFault, initial.writeFault;
    }

    function State(): StoreState
      reads this
    {
      StoreState(rows, nextId, readFault, writeFault)
    }

    /** The environment making reads and writes fail (`Some`) or work again (`None`). */
    method SetFaults(read: Option<string>, write: Option<string>)
      modifies this
      ensures State() == old(State()).(readFault := read, writeFault := write)
    {
      readFault, writeFault := read, write;
    }

    method Add(v: Verification) returns (err: Option<Error>)
      modifies this
      ensures Write(State(), err) == AddOutcome(old(State()), v.State())
    {
      if writeFault.Some? {
        return Some(VerificationPersistFailed(writeFault.value));
      }
      var row := ToSQLVerification(v.State());
      if row.Uuid in rows {
        return Some(VerificationPersistFailed("duplicate uuid"));
      }
      if nextId == MaxUint32 {
        return Some(VerificationPersistFailed("id sequence exhausted"));
      }
      rows := rows[row.Uuid := row.(Id := nextId)];
      nextId := nextId + 1;
      return None;
    }

    method Update(v: Verification) returns (err: Option<Error>)
      modifies this
      ensures Write(State(), err) == UpdateOutcome(old(State()), v.State())
    {
      if writeFault.Some? {
        return Some(VerificationPersistFailed(writeFault.value));
      }
      var row := ToSQLVerification(v.State());
      if row.Uuid in rows {
        rows := rows[row.Uuid := row.(Id := rows[row.Uuid].Id)];
      }
      return None;
    }

    /**
     * Reads only: the table is not in any frame of this method. As in the
     * adapter, the row is rebuilt with the clock reading `now`.
     */
    method GetByUuid(u: VerificationUuid, now: Instant) returns (v: Verification?, err: Option<Error>)
      ensures v != null <==> Lookup(State(), u, ReadAt(now)).Success?
      ensures v != null ==> fresh(v) && v.State() == Lookup(State(), u, ReadAt(now)).value && err == None
      ensures v == null ==> err == Some(Lookup(State(), u, ReadAt(now)).error)
    {
      if readFault.Some? {
        return null, Some(StorageFailure(readFault.value));
      }
      if u.value !in rows {
        return null, Some(VerificationNotFound(u.value));
      }
      v, err := ToDomainVerification(rows[u.value], now);
    }
  }
}
