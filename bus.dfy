/**
 * The in-memory buses of infrastructure/bus and the wiring of
 * cmd/api/bootstrap: a map from type tag to handler, routing on `Type()`.
 */
module Bus {
  import opened Prelude
  import opened Errors
  import opened Aggregate
  import opened Model
  import opened Repository
  import opened Service
  import opened Command
  import opened Query
  import Uuid

  /**
   * `InMemoryCommandBus.Dispatch` over the routed handler's table: an
   * unregistered tag is CommandHandlerNotFound and nothing is written; a
   * registered one is that handler's outcome, whatever the command is.
   */
  function DispatchOutcome(handlers: map<CommandType, CommandHandler>, st: StoreState, cmd: Command, now: Instant): (r: Write)
    ensures cmd.Type() !in handlers ==> r == Write(st, Some(CommandHandlerNotFound(cmd.Type())))
    ensures cmd.Type() in handlers ==> r == HandleOutcome(handlers[cmd.Type()], st, cmd, now)
  {
    if cmd.Type() in handlers then HandleOutcome(handlers[cmd.Type()], st, cmd, now)
    else Write(st, Some(CommandHandlerNotFound(cmd.Type())))
  }

  /** `QueryBus.Ask` over the routed handler's table, read at clock reading `now`. */
  function AskOutcome(handlers: map<QueryType, QueryHandler>, st: StoreState, q: Query, now: Instant): (r: Result<VerificationState, Error>)
    ensures q.Type() !in handlers ==> r == Failure(QueryHandlerNotFound(q.Type()))
    ensures q.Type() in handlers ==> r == Answer(st, q, ReadAt(now))
  {
    if q.Type() in handlers then Answer(st, q, ReadAt(now)) else Failure(QueryHandlerNotFound(q.Type()))
  }

  /** The command handlers `Run` registers, all over one repository. */
  function BootstrapCommandHandlers(repo: VerificationRepository): map<CommandType, CommandHandler> {
    map[CreateVerificationCommandType := CreateVerificationCommandHandler(CreateVerificationService(repo)),
        ApproveVerificationCommandType := ApproveVerificationCommandHandler(ApproveVerificationService(repo)),
        DeclineVerificationCommandType := DeclineVerificationCommandHandler(DeclineVerificationService(repo))]
  }

  /** The query handlers `Run` registers. */
  function BootstrapQueryHandlers(repo: VerificationRepository): map<QueryType, QueryHandler> {
    map[GetVerificationByUUIDQueryType := GetVerificationByUUIDQueryHandler(repo)]
  }

  /**
   * With the bootstrap wiring each of the three commands reaches its own
   * service on the shared table; any other command is refused, as unexpected
   * when its tag is one of the three and as unroutable otherwise.
   */
  lemma BootstrapRoutes(repo: VerificationRepository, st: StoreState, cmd: Command, now: Instant)
    ensures var hs := BootstrapCommandHandlers(repo);
      && (cmd.Type() in hs ==> hs[cmd.Type()].Repository() == repo)
      && DispatchOutcome(hs, st, cmd, now) == match cmd
        case CreateVerificationCommand(u, description, kind) => CreateOutcome(st, u, description, kind, now)
        case ApproveVerificationCommand(uuid) => ApproveOutcome(st, uuid, ReadAt(now))
        case DeclineVerificationCommand(uuid, declineReason) => DeclineOutcome(st, uuid, declineReason, ReadAt(now))
        case OtherCommand(t) =>
          if t in {CreateVerificationCommandType, ApproveVerificationCommandType, DeclineVerificationCommandType}
          then Write(st, Some(UnexpectedCommand(t)))
          else Write(st, Some(CommandHandlerNotFound(t)))
  {
    if !cmd.OtherCommand? {
      var zero: Uuid.UUID := seq(16, _ => 0);
      CommandTypesIdentify(cmd, CreateVerificationCommand(zero, "", ""));
      CommandTypesIdentify(cmd, ApproveVerificationCommand(""));
      CommandTypesIdentify(cmd, DeclineVerificationCommand("", ""));
    }
  }

  /** With the bootstrap wiring the lookup query is answered from the shared table. */
  lemma BootstrapAnswers(repo: VerificationRepository, st: StoreState, q: Query, now: Instant)
    ensures AskOutcome(BootstrapQueryHandlers(repo), st, q, now) ==
      if q.Type() == GetVerificationByUUIDQueryType then Answer(st, q, ReadAt(now))
      else Failure(QueryHandlerNotFound(q.Type()))
  {
  }

  /**
   * A walk through the wired service, each step at its own clock reading, on
   * any working table that does not hold the uuid yet: a verification created
   * through the command bus at `t0` can be approved by its uuid string at
   * `t1`, cannot then be declined at `t2`, and the query bus at `t3` reports
   * it approved with the id the sequence stood at. Each read stamps its own
   * clock reading, so the approval has stored `t1` as the creation time and
   * the query reports `t3`. Every other row is left as it was.
   */
  lemma CreateApproveDecline(repo: VerificationRepository, st: StoreState, u: Uuid.UUID, description: string,
                             reason: string, t0: Instant, t1: Instant, t2: Instant, t3: Instant)
    requires st.readFault.None? && st.writeFault.None? && st.nextId < MaxUint32
    requires Uuid.UuidString(u) !in st.rows && description != ""
    ensures
      var hs := BootstrapCommandHandlers(repo);
      var s := Uuid.UuidString(u);
      var created := DispatchOutcome(hs, st, CreateVerificationCommand(u, description, IdentityValue), t0);
      var approved := DispatchOutcome(hs, created.store, ApproveVerificationCommand(s), t1);
      var declined := DispatchOutcome(hs, approved.store, DeclineVerificationCommand(s, reason), t2);
      && created.err == None && approved.err == None
      && declined == Write(approved.store, Some(AlreadyProcessed))
      && s in declined.store.rows && declined.store.rows[s].CreatedAt == t1
      && (forall k :: k in st.rows ==> k in declined.store.rows && declined.store.rows[k] == st.rows[k])
      && AskOutcome(BootstrapQueryHandlers(repo), declined.store, GetVerificationByUUIDQuery(s), t3) ==
         Success(VerificationState(VerificationId(st.nextId), VerificationUuid(s), Identity,
                                   VerificationDescription(description), Approved, NoDeclineReason, t3))
  {
    var s := Uuid.UuidString(u);
    BootstrapRoutes(repo, st, CreateVerificationCommand(u, description, IdentityValue), t0);
    var created := CreateOutcome(st, u, description, IdentityValue, t0);
    var v := Create(s, IdentityValue, description, t0).value;
    var id := VerificationId(st.nextId);
    AddThenLookup(st, v, ReadAt(t1));
    assert Lookup(created.store, VerificationUuid(s), ReadAt(t1)) == Success(v.(id := id, createdAt := t1));
    BootstrapRoutes(repo, created.store, ApproveVerificationCommand(s), t1);
    var approved := ApproveOutcome(created.store, s, ReadAt(t1));
    var a := v.(id := id, createdAt := t1, status := Approved);
    assert approved == UpdateOutcome(created.store, a);
    UpdateThenLookup(created.store, a, ReadAt(t2));
    assert Lookup(approved.store, VerificationUuid(s), ReadAt(t2)) == Success(a.(createdAt := t2));
    BootstrapRoutes(repo, approved.store, DeclineVerificationCommand(s, reason), t2);
    UpdateThenLookup(created.store, a, ReadAt(t3));
    BootstrapAnswers(repo, approved.store, GetVerificationByUUIDQuery(s), t3);
  }

  class InMemoryCommandBus {
    var handlers: map<CommandType, CommandHandler>

    constructor ()
      ensures handlers == map[]
    {
      handlers := map[];
    }

    /** A second registration under the same tag replaces the first. */
    method Register(commandType: CommandType, handler: CommandHandler)
      modifies this
      ensures handlers == old(handlers)[commandType := handler]
    {
      handlers := handlers[commandType := handler];
    }

    /** Writes only the table of the handler the tag routes to. */
    method Dispatch(cmd: Command, now: Instant) returns (err: Option<Error>)
      modifies if cmd.Type() in handlers then {handlers[cmd.Type()].Repository()} else {}
      ensures handlers == old(handlers)
      ensures cmd.Type() !in handlers ==> err == Some(CommandHandlerNotFound(cmd.Type()))
      ensures cmd.Type() in handlers ==>
        var repo := handlers[cmd.Type()].Repository();
        Write(repo.State(), err) == DispatchOutcome(handlers, old(repo.State()), cmd, now)
    {
      if cmd.Type() !in handlers {
        return Some(CommandHandlerNotFound(cmd.Type()));
      }
      var handler := handlers[cmd.Type()];
      err := handler.Handle(cmd, now);
    }
  }

  class QueryBus {
    var handlers: map<QueryType, QueryHandler>

    constructor ()
      ensures handlers == map[]
    {
      handlers := map[];
    }

    method Register(queryType: QueryType, handler: QueryHandler)
      modifies this
      ensures handlers == old(handlers)[queryType := handler]
    {
      handlers := handlers[queryType := handler];
    }

    method Ask(q: Query, now: Instant) returns (v: Verification?, err: Option<Error>)
      ensures q.Type() !in handlers ==> v == null && err == Some(QueryHandlerNotFound(q.Type()))
      ensures q.Type() in handlers ==>
        var st := handlers[q.Type()].verificationRepository.State();
        && (v != null <==> AskOutcome(handlers, st, q, now).Success?)
        && (v != null ==> fresh(v) && v.State() == AskOutcome(handlers, st, q, now).value && err == None)
        && (v == null ==> err == Some(AskOutcome(handlers, st, q, now).error))
    {
      if q.Type() !in handlers {
        return null, Some(QueryHandlerNotFound(q.Type()));
      }
      var handler := handlers[q.Type()];
      v, err := handler.Handle(q, now);
    }
  }

  /** `Run`'s wiring: one new repository over the database's `initial` table behind every handler of both buses. */
  method Bootstrap(initial: StoreState) returns (commandBus: InMemoryCommandBus, queryBus: QueryBus, repo: VerificationRepository)
    ensures fresh(commandBus) && fresh(queryBus) && fresh(repo)
    ensures repo.State() == initial
    ensures commandBus.handlers == BootstrapCommandHandlers(repo)
    ensures queryBus.handlers == BootstrapQueryHandlers(repo)
  {
    commandBus := new InMemoryCommandBus();
    queryBus := new QueryBus();
    repo := new VerificationRepository(initial);
    commandBus.Register(CreateVerificationCommandType, CreateVerificationCommandHandler(CreateVerificationService(repo)));
    commandBus.Register(ApproveVerificationCommandType, ApproveVerificationCommandHandler(ApproveVerificationService(repo)));
    commandBus.Register(DeclineVerificationCommandType, DeclineVerificationCommandHandler(DeclineVerificationService(repo)));
    queryBus.Register(GetVerificationByUUIDQueryType, GetVerificationByUUIDQueryHandler(repo));
  }
}
