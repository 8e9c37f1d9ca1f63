/**
 * The database row of a verification and the two conversions of
 * internal/infrastructure/persistence/postgres/model.
 */
module Model {
  import opened Prelude
  import opened Errors
  import opened Aggregate

  /** `SqlVerification`: the columns of the verifications table, all plain values. */
  datatype SqlVerification = SqlVerification(
    Id: uint32,
    Uuid: string,
    Kind: string,
    Description: string,
    Status: string,
    DeclineReason: string,
    CreatedAt: Instant)

  /** `ToSQLVerification`: the aggregate's values as a row; `Id` is left zero for the database to assign. */
  function ToSQLVerification(v: VerificationState): (row: SqlVerification)
    ensures row.Id == 0 && row.Uuid == v.uuid.value && row.Kind == v.kind.Value()
    ensures row.Description == v.description.value && row.Status == v.status.Value()
    ensures row.DeclineReason == v.declineReason.value && row.CreatedAt == v.createdAt
  {
    var row := SqlVerification(0, v.uuid.value, v.kind.Value(), v.description.value, v.status.Value(), "", v.createdAt);
    if v.declineReason.value != "" then row.(DeclineReason := v.declineReason.value) else row
  }

  /**
   * `ToDomainVerification`, with `now` the clock reading `NewVerification` takes:
   * an invalid uuid, kind or description fails wrapped as a restoring failure,
   * an invalid status fails unwrapped, and the decline reason is copied as it is
   * (the error `WithDeclineReason` returns for an empty one is ignored).
   */
  function ToDomainState(row: SqlVerification, now: Instant): (r: Result<VerificationState, Error>)
    ensures Create(row.Uuid, row.Kind, row.Description, now).Failure? ==>
      r == Failure(RestoringFailed(Create(row.Uuid, row.Kind, row.Description, now).error))
    ensures Create(row.Uuid, row.Kind, row.Description, now).Success? && row.Status !in StatusValues ==>
      r == Failure(InvalidVerificationStatus)
    ensures r.Success? <==> Create(row.Uuid, row.Kind, row.Description, now).Success? && row.Status in StatusValues
    ensures r.Success? ==>
      && r.value.id == VerificationId(row.Id)
      && r.value.uuid.value == row.Uuid && r.value.kind.Value() == row.Kind
      && r.value.description.value == row.Description && r.value.status.Value() == row.Status
      && r.value.declineReason.value == row.DeclineReason
      && r.value.createdAt == now
  {
    match Create(row.Uuid, row.Kind, row.Description, now)
    case Failure(e) => Failure(RestoringFailed(e))
    case Success(created) =>
      var withStatus := WithStatusStep(created.(id := VerificationId(row.Id)), row.Status);
      if withStatus.err.Some? then Failure(withStatus.err.value)
      else
        var withReason := WithDeclineReasonStep(withStatus.state, row.DeclineReason);
        // a non-empty reason is always accepted, so this error is never returned
        if row.DeclineReason != "" && withReason.err.Some? then Failure(EmptyDeclineReason)
        else Success(withReason.state)
  }

  /** `ToDomainVerification` step by step: build, then `WithId`, `WithStatus`, `WithDeclineReason`. */
  method ToDomainVerification(row: SqlVerification, now: Instant) returns (v: Verification?, err: Option<Error>)
    ensures v != null <==> ToDomainState(row, now).Success?
    ensures v != null ==> fresh(v) && v.State() == ToDomainState(row, now).value && err == None
    ensures v == null ==> err == Some(ToDomainState(row, now).error)
  {
    var verification, e := NewVerification(row.Uuid, row.Kind, row.Description, now);
    if verification == null {
      return null, Some(RestoringFailed(e.value));
    }
    verification.WithId(row.Id);
    e := verification.WithStatus(row.Status);
    if e.Some? {
      return null, e;
    }
    e := verification.WithDeclineReason(row.DeclineReason);
    if row.DeclineReason != "" && e.Some? {
      return null, e;
    }
    return verification, None;
  }

  /**
   * Writing an aggregate and reading it back keeps uuid, kind, description,
   * status and decline reason; the id becomes zero and the creation time is the
   * clock reading of the restore.
   */
  lemma RoundTrip(v: VerificationState, now: Instant)
    requires Consistent(v)
    ensures ToDomainState(ToSQLVerification(v), now) == Success(v.(id := VerificationId(0), createdAt := now))
  {
    ValueObjectsRoundTrip(v.kind, v.status);
  }

  /** Reading a row and writing it back gives the same row, except for the id and the creation time. */
  lemma RowRoundTrip(row: SqlVerification, now: Instant)
    requires ToDomainState(row, now).Success?
    ensures ToSQLVerification(ToDomainState(row, now).value) == row.(Id := 0, CreatedAt := now)
  {
  }

  /** A restored row is a consistent aggregate exactly when it has a decline reason iff it is declined. */
  lemma RestoredConsistency(row: SqlVerification, now: Instant)
    requires ToDomainState(row, now).Success?
    ensures Consistent(ToDomainState(row, now).value) <==> (row.DeclineReason != "" <==> row.Status == DeclinedValue)
  {
  }

  /**
   * The discrepancy: the restored aggregate carries the clock reading of the
   * restore, so writing it back (as `Update` does after `Approve` or `Decline`)
   * replaces the row's creation time.
   */
  lemma ReloadResetsCreatedAt(row: SqlVerification, now: Instant)
    requires ToDomainState(row, now).Success? && now != row.CreatedAt
    ensures ToSQLVerification(ToDomainState(row, now).value).CreatedAt != row.CreatedAt
  {
  }

  /** The corrected restore: the row's own creation time is the clock reading `NewVerification` is given. */
  function Restore(row: SqlVerification): (r: Result<VerificationState, Error>)
    ensures r.Success? ==> r.value.createdAt == row.CreatedAt && ToSQLVerification(r.value) == row.(Id := 0)
  {
    ToDomainState(row, row.CreatedAt)
  }

  /** With the corrected restore the round trip is exact but for the id, in both directions. */
  lemma RestoreRoundTrip(v: VerificationState, row: SqlVerification)
    requires Consistent(v)
    ensures Restore(ToSQLVerification(v)) == Success(v.(id := VerificationId(0)))
    ensures Restore(row).Success? ==> ToSQLVerification(Restore(row).value) == row.(Id := 0)
  {
    RoundTrip(v, v.createdAt);
  }

  /**
   * The clock reading a restore stamps as the creation time: the time of the
   * read, as `ToDomainVerification` does through `NewVerification`, or the
   * row's own creation time, as the corrected `Restore` does.
   */
  datatype ReadClock = ReadAt(now: Instant) | KeepCreatedAt

  function ReadTime(clock: ReadClock, createdAt: Instant): Instant {
    match clock
    case ReadAt(now) => now
    case KeepCreatedAt => createdAt
  }

  /**
   * The two restores differ only in the creation time: whether a row restores
   * does not depend on the clock, and the restored aggregates agree on every
   * other field.
   */
  lemma ReadTimeOnlyStampsCreatedAt(row: SqlVerification, clock: ReadClock)
    ensures ToDomainState(row, ReadTime(clock, row.CreatedAt)).Success? <==> Restore(row).Success?
    ensures Restore(row).Success? ==>
      ToDomainState(row, ReadTime(clock, row.CreatedAt)) == Success(Restore(row).value.(createdAt := ReadTime(clock, row.CreatedAt)))
  {
    var now := ReadTime(clock, row.CreatedAt);
    if Restore(row).Success? {
      var r, k := ToDomainState(row, now).value, Restore(row).value;
      ValueObjectsRoundTrip(r.kind, r.status);
      ValueObjectsRoundTrip(k.kind, k.status);
      assert r.kind == k.kind && r.status == k.status;
    }
  }
}
