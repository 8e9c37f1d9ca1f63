/**
 * The query side of application/verification/query: one query, looking a
 * verification up by its uuid string. `OtherQuery` stands for any other Go
 * type implementing `bus.Query`.
 */
module Query {
  import opened Prelude
  import opened Errors
  import opened Aggregate
  import opened Model
  import opened Repository
  import Uuid

  type QueryType = string

  const GetVerificationByUUIDQueryType: QueryType := "get_by_uuid.verification.query"

  datatype Query =
    | GetVerificationByUUIDQuery(uuid: string)
    | OtherQuery(queryType: QueryType)
  {
    /** `Type()` of the `bus.Query` interface: the query's tag, which another query type can borrow. */
    function Type(): (t: QueryType)
      ensures t == GetVerificationByUUIDQueryType <==>
        GetVerificationByUUIDQuery? || (OtherQuery? && queryType == GetVerificationByUUIDQueryType)
    {
      match this
      case GetVerificationByUUIDQuery(_) => GetVerificationByUUIDQueryType
      case OtherQuery(t) => t
    }
  }

  /**
   * The answer `Handle` gives over a table: another query type is refused,
   * then the uuid string is validated, then the table is read under `clock`.
   */
  function Answer(st: StoreState, q: Query, clock: ReadClock): (r: Result<VerificationState, Error>)
    ensures q.OtherQuery? ==> r == Failure(UnexpectedQuery(q.queryType))
    ensures q.GetVerificationByUUIDQuery? && !Uuid.ValidUuid(q.uuid) ==>
      r == Failure(InvalidVerificationUuid(q.uuid))
    ensures q.GetVerificationByUUIDQuery? && Uuid.ValidUuid(q.uuid) ==>
      r == Lookup(st, VerificationUuid(q.uuid), clock)
  {
    match q
    case OtherQuery(t) => Failure(UnexpectedQuery(t))
    case GetVerificationByUUIDQuery(uuid) =>
      var verificationUuid :- NewVerificationUuid(uuid);
      Lookup(st, verificationUuid, clock)
  }

  /**
   * On a working, well-formed table a query for a stored uuid is answered
   * with a consistent aggregate carrying exactly that uuid, the row's id and
   * the creation time the read clock gives, and every failure is one of the
   * four the handler can pass on.
   */
  lemma AnswerIsStoredVerification(st: StoreState, q: Query, clock: ReadClock)
    requires WellFormed(st)
    ensures var r := Answer(st, q, clock);
      && (r.Success? <==> q.GetVerificationByUUIDQuery? && st.readFault.None? && q.uuid in st.rows)
      && (r.Success? ==> Consistent(r.value) && r.value.uuid.value == q.uuid
                         && r.value.id == VerificationId(st.rows[q.uuid].Id)
                         && r.value.createdAt == ReadTime(clock, st.rows[q.uuid].CreatedAt))
      && (r.Failure? ==> r.error.UnexpectedQuery? || r.error.InvalidVerificationUuid?
                         || r.error.StorageFailure? || r.error.VerificationNotFound?)
  {
    if q.GetVerificationByUUIDQuery? && st.readFault.None? && q.uuid in st.rows {
      assert Uuid.ValidUuid(st.rows[q.uuid].Uuid);
    }
  }

  datatype QueryHandler = GetVerificationByUUIDQueryHandler(verificationRepository: VerificationRepository) {
    /**
     * Reads the table only, rebuilding the row at clock reading `now`; the
     * aggregate handed back is a new object.
     */
    method Handle(q: Query, now: Instant) returns (v: Verification?, err: Option<Error>)
      ensures v != null <==> Answer(verificationRepository.State(), q, ReadAt(now)).Success?
      ensures v != null ==> fresh(v) && v.State() == Answer(verificationRepository.State(), q, ReadAt(now)).value && err == None
      ensures v == null ==> err == Some(Answer(verificationRepository.State(), q, ReadAt(now)).error)
    {
      if !q.GetVerificationByUUIDQuery? {
        return null, Some(UnexpectedQuery(q.Type()));
      }
      var verificationUuid := NewVerificationUuid(q.uuid);
      if verificationUuid.Failure? {
        return null, Some(verificationUuid.error);
      }
      v, err := verificationRepository.GetByUuid(verificationUuid.value, now);
    }
  }
}
