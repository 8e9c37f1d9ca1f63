/**
 * The domain services of internal/domain/verification/service. Each validates,
 * loads, transitions and persists, and stops at the first error. The
 * functions say what each service call does to the table and returns; the
 * methods do it through the repository and the aggregate and are proved
 * against them.
 */
module Service {
  import opened Prelude
  import opened Errors
  import opened Aggregate
  import opened Model
  import opened Repository
  import Uuid

  /**
   * `CreateVerificationService.Create`: builds the aggregate from the uuid's
   * string form and adds it. The source passes `kind` and `description` to
   * `NewVerification` in its own (uuid, kind, description) order, so the kind
   * is checked first.
   */
  function CreateOutcome(st: StoreState, u: Uuid.UUID, description: string, kind: string, now: Instant): (r: Write)
    ensures kind != IdentityValue && kind != DocumentValue ==> r == Write(st, Some(InvalidVerificationKind))
    ensures (kind == IdentityValue || kind == DocumentValue) && description == "" ==>
      r == Write(st, Some(EmptyDescription))
    ensures (kind == IdentityValue || kind == DocumentValue) && description != "" ==>
      r == AddOutcome(st, Create(Uuid.UuidString(u), kind, description, now).value)
    ensures r.err.None? ==> r.store.rows == st.rows[Uuid.UuidString(u) :=
      SqlVerification(st.nextId, Uuid.UuidString(u), kind, description, DraftValue, "", now)]
  {
    match Create(Uuid.UuidString(u), kind, description, now)
    case Failure(e) => Write(st, Some(e))
    case Success(v) => AddOutcome(st, v)
  }

  /**
   * `ApproveVerificationService.Approve`, with the aggregate loaded through
   * `Lookup` under `clock` (`ReadAt(now)` in the service as written).
   */
  function ApproveOutcome(st: StoreState, uuid: string, clock: ReadClock): (r: Write)
    ensures !Uuid.ValidUuid(uuid) ==> r == Write(st, Some(InvalidVerificationUuid(uuid)))
    ensures Uuid.ValidUuid(uuid) && Lookup(st, VerificationUuid(uuid), clock).Failure? ==>
      r == Write(st, Some(Lookup(st, VerificationUuid(uuid), clock).error))
    ensures Uuid.ValidUuid(uuid) && Lookup(st, VerificationUuid(uuid), clock).Success? ==>
      var loaded := Lookup(st, VerificationUuid(uuid), clock).value;
      if loaded.status != Draft then r == Write(st, Some(AlreadyProcessed))
      else r == UpdateOutcome(st, loaded.(status := Approved))
  {
    match NewVerificationUuid(uuid)
    case Failure(e) => Write(st, Some(e))
    case Success(verificationUuid) =>
      match Lookup(st, verificationUuid, clock)
      case Failure(e) => Write(st, Some(e))
      case Success(loaded) =>
        var step := ApproveStep(loaded);
        if step.err.Some? then Write(st, step.err) else UpdateOutcome(st, step.state)
  }

  /** `DeclineVerificationService.Decline`, loading through `Lookup` under `clock`. */
  function DeclineOutcome(st: StoreState, uuid: string, declineReason: string, clock: ReadClock): (r: Write)
    ensures !Uuid.ValidUuid(uuid) ==> r == Write(st, Some(InvalidVerificationUuid(uuid)))
    ensures Uuid.ValidUuid(uuid) && Lookup(st, VerificationUuid(uuid), clock).Failure? ==>
      r == Write(st, Some(Lookup(st, VerificationUuid(uuid), clock).error))
    ensures Uuid.ValidUuid(uuid) && Lookup(st, VerificationUuid(uuid), clock).Success? ==>
      var loaded := Lookup(st, VerificationUuid(uuid), clock).value;
      if loaded.status != Draft then r == Write(st, Some(AlreadyProcessed))
      else if declineReason == "" then r == Write(st, Some(EmptyDeclineReason))
      else r == UpdateOutcome(st, loaded.(status := Declined, declineReason := VerificationDeclineReason(declineReason)))
  {
    match NewVerificationUuid(uuid)
    case Failure(e) => Write(st, Some(e))
    case Success(verificationUuid) =>
      match Lookup(st, verificationUuid, clock)
      case Failure(e) => Write(st, Some(e))
      case Success(loaded) =>
        var step := DeclineStep(loaded, declineReason);
        if step.err.Some? then Write(st, step.err) else UpdateOutcome(st, step.state)
  }

  /** An approval can succeed on this table: the stored row is a draft and the database works. */
  predicate ApprovableIn(st: StoreState, uuid: string)
  {
    Uuid.ValidUuid(uuid) && st.readFault.None? && st.writeFault.None?
    && uuid in st.rows && st.rows[uuid].Status == DraftValue
  }

  /**
   * Approval succeeds exactly on a stored draft while the database works; a
   * failed approval leaves the table as it was, and a successful one rewrites
   * only that row: its status, and its creation time as the read clock gives it.
   */
  lemma ApproveWritesOnlyAfterTransition(st: StoreState, uuid: string, clock: ReadClock)
    requires WellFormed(st)
    ensures var r := ApproveOutcome(st, uuid, clock);
      && (r.err.None? <==> ApprovableIn(st, uuid))
      && (r.err.Some? ==> r.store == st)
      && (r.err.None? ==>
            var row := st.rows[uuid];
            r.store == st.(rows := st.rows[uuid := row.(Status := ApprovedValue, CreatedAt := ReadTime(clock, row.CreatedAt))]))
  {
    if Uuid.ValidUuid(uuid) && st.readFault.None? && uuid in st.rows {
      assert Lookup(st, VerificationUuid(uuid), clock).Success?;
    }
  }

  /** A decline can succeed: a stored draft, a non-empty reason, and a working database. */
  predicate DeclinableIn(st: StoreState, uuid: string, declineReason: string)
  {
    ApprovableIn(st, uuid) && declineReason != ""
  }

  /**
   * Declining succeeds exactly on a stored draft with a non-empty reason while
   * the database works; a failure leaves the table as it was, and a success
   * rewrites only that row: status, reason, and the creation time the read clock gives.
   */
  lemma DeclineWritesOnlyAfterTransition(st: StoreState, uuid: string, declineReason: string, clock: ReadClock)
    requires WellFormed(st)
    ensures var r := DeclineOutcome(st, uuid, declineReason, clock);
      && (r.err.None? <==> DeclinableIn(st, uuid, declineReason))
      && (r.err.Some? ==> r.store == st)
      && (r.err.None? ==>
            var row := st.rows[uuid];
            r.store == st.(rows := st.rows[uuid := row.(Status := DeclinedValue, DeclineReason := declineReason,
                                                      CreatedAt := ReadTime(clock, row.CreatedAt))]))
  {
    if Uuid.ValidUuid(uuid) && st.readFault.None? && uuid in st.rows {
      assert Lookup(st, VerificationUuid(uuid), clock).Success?;
    }
  }

  /** With the corrected read, a successful approval changes nothing but the row's status. */
  lemma ApproveKeepsCreatedAt(st: StoreState, uuid: string)
    requires WellFormed(st) && ApprovableIn(st, uuid)
    ensures ApproveOutcome(st, uuid, KeepCreatedAt)
         == Write(st.(rows := st.rows[uuid := st.rows[uuid].(Status := ApprovedValue)]), None)
  {
    ApproveWritesOnlyAfterTransition(st, uuid, KeepCreatedAt);
  }

  /** With the corrected read, a successful decline changes only the row's status and reason. */
  lemma DeclineKeepsCreatedAt(st: StoreState, uuid: string, declineReason: string)
    requires WellFormed(st) && DeclinableIn(st, uuid, declineReason)
    ensures DeclineOutcome(st, uuid, declineReason, KeepCreatedAt)
         == Write(st.(rows := st.rows[uuid := st.rows[uuid].(Status := DeclinedValue, DeclineReason := declineReason)]), None)
  {
    DeclineWritesOnlyAfterTransition(st, uuid, declineReason, KeepCreatedAt);
  }

  /**
   * As written, a successful approval at clock reading `now` also stores
   * `now` as the row's creation time, so the row differs from the status-only
   * update whenever `now` is not the original creation time.
   */
  lemma ApproveRewritesCreatedAt(st: StoreState, uuid: string, now: Instant)
    requires WellFormed(st) && ApprovableIn(st, uuid)
    ensures var r := ApproveOutcome(st, uuid, ReadAt(now));
      && r.err.None? && uuid in r.store.rows && r.store.rows[uuid].CreatedAt == now
      && (now != st.rows[uuid].CreatedAt ==> r.store.rows[uuid] != st.rows[uuid].(Status := ApprovedValue))
  {
    ApproveWritesOnlyAfterTransition(st, uuid, ReadAt(now));
  }

  /** As written, a successful decline at clock reading `now` stores `now` as the creation time. */
  lemma DeclineRewritesCreatedAt(st: StoreState, uuid: string, declineReason: string, now: Instant)
    requires WellFormed(st) && DeclinableIn(st, uuid, declineReason)
    ensures var r := DeclineOutcome(st, uuid, declineReason, ReadAt(now));
      && r.err.None? && uuid in r.store.rows && r.store.rows[uuid].CreatedAt == now
      && (now != st.rows[uuid].CreatedAt ==>
            r.store.rows[uuid] != st.rows[uuid].(Status := DeclinedValue, DeclineReason := declineReason))
  {
    DeclineWritesOnlyAfterTransition(st, uuid, declineReason, ReadAt(now));
  }

  /**
   * A write failing after a successful read reaches the caller: on a stored
   * draft while only writes fail, approval reports `VerificationPersistFailed`.
   */
  lemma ApproveReportsWriteFault(st: StoreState, uuid: string, clock: ReadClock)
    requires WellFormed(st) && st.readFault.None? && st.writeFault.Some?
    requires uuid in st.rows && st.rows[uuid].Status == DraftValue
    ensures ApproveOutcome(st, uuid, clock) == Write(st, Some(VerificationPersistFailed(st.writeFault.value)))
  {
    assert Lookup(st, VerificationUuid(uuid), clock).Success?;
  }

  /** The same for declining with a non-empty reason. */
  lemma DeclineReportsWriteFault(st: StoreState, uuid: string, declineReason: string, clock: ReadClock)
    requires WellFormed(st) && st.readFault.None? && st.writeFault.Some?
    requires uuid in st.rows && st.rows[uuid].Status == DraftValue && declineReason != ""
    ensures DeclineOutcome(st, uuid, declineReason, clock) == Write(st, Some(VerificationPersistFailed(st.writeFault.value)))
  {
    assert Lookup(st, VerificationUuid(uuid), clock).Success?;
  }

  /** Each service keeps the table well formed. */
  lemma CreatePreservesWellFormed(st: StoreState, u: Uuid.UUID, description: string, kind: string, now: Instant)
    requires WellFormed(st)
    ensures WellFormed(CreateOutcome(st, u, description, kind, now).store)
  {
    var c := Create(Uuid.UuidString(u), kind, description, now);
    if c.Success? {
      WritesPreserveWellFormed(st, c.value);
    }
  }

  lemma ApprovePreservesWellFormed(st: StoreState, uuid: string, clock: ReadClock)
    requires WellFormed(st)
    ensures WellFormed(ApproveOutcome(st, uuid, clock).store)
  {
    if Uuid.ValidUuid(uuid) && Lookup(st, VerificationUuid(uuid), clock).Success? {
      WritesPreserveWellFormed(st, ApproveStep(Lookup(st, VerificationUuid(uuid), clock).value).state);
    }
  }

  lemma DeclinePreservesWellFormed(st: StoreState, uuid: string, declineReason: string, clock: ReadClock)
    requires WellFormed(st)
    ensures WellFormed(DeclineOutcome(st, uuid, declineReason, clock).store)
  {
    if Uuid.ValidUuid(uuid) && Lookup(st, VerificationUuid(uuid), clock).Success? {
      WritesPreserveWellFormed(st, DeclineStep(Lookup(st, VerificationUuid(uuid), clock).value, declineReason).state);
    }
  }

  datatype CreateVerificationService = CreateVerificationService(verificationRepository: VerificationRepository) {
    method Create(u: Uuid.UUID, description: string, kind: string, now: Instant) returns (err: Option<Error>)
      modifies verificationRepository
      ensures Write(verificationRepository.State(), err)
           == CreateOutcome(old(verificationRepository.State()), u, description, kind, now)
    {
      var verification, e := NewVerification(Uuid.UuidString(u), kind, description, now);
      if verification == null {
        return e;
      }
      err := verificationRepository.Add(verification);
    }
  }

  datatype ApproveVerificationService = ApproveVerificationService(verificationRepository: VerificationRepository) {
    method Approve(uuid: string, now: Instant) returns (err: Option<Error>)
      modifies verificationRepository
      ensures Write(verificationRepository.State(), err) == ApproveOutcome(old(verificationRepository.State()), uuid, ReadAt(now))
    {
      var verificationUuid := NewVerificationUuid(uuid);
      if verificationUuid.Failure? {
        return Some(verificationUuid.error);
      }
      var verification, e := verificationRepository.GetByUuid(verificationUuid.value, now);
      if verification == null {
        return e;
      }
      e := verification.Approve();
      if e.Some? {
        return e;
      }
      err := verificationRepository.Update(verification);
    }
  }

  datatype DeclineVerificationService = DeclineVerificationService(verificationRepository: VerificationRepository) {
    method Decline(uuid: string, declineReason: string, now: Instant) returns (err: Option<Error>)
      modifies verificationRepository
      ensures Write(verificationRepository.State(), err)
           == DeclineOutcome(old(verificationRepository.State()), uuid, declineReason, ReadAt(now))
    {
      var verificationUuid := NewVerificationUuid(uuid);
      if verificationUuid.Failure? {
        return Some(verificationUuid.error);
      }
      var verification, e := verificationRepository.GetByUuid(verificationUuid.value, now);
      if verification == null {
        return e;
      }
      e := verification.Decline(declineReason);
      if e.Some? {
        return e;
      }
      err := verificationRepository.Update(verification);
    }
  }
}
