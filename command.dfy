/**
 * The command side of application/verification/command: the three commands,
 * their type tags and the handlers that unpack a command and call their
 * domain service. A Go handler receives the `bus.Command` interface and
 * type-asserts it; here a command is one value of a closed datatype, and
 * `OtherCommand` stands for any other Go type implementing `bus.Command`
 * (whose `Type()` may even coincide with one of the three tags).
 */
module Command {
  import opened Prelude
  import opened Errors
  import opened Aggregate
  import opened Model
  import opened Repository
  import opened Service
  import Uuid

  type CommandType = string

  const CreateVerificationCommandType: CommandType := "create.verification.command"
  const ApproveVerificationCommandType: CommandType := "approve.verification.command"
  const DeclineVerificationCommandType: CommandType := "decline.verification.command"

  datatype Command =
    | CreateVerificationCommand(verificationUuid: Uuid.UUID, description: string, kind: string)
    | ApproveVerificationCommand(uuid: string)
    | DeclineVerificationCommand(uuid: string, declineReason: string)
    | OtherCommand(commandType: CommandType)
  {
    /**
     * `Type()` of the `bus.Command` interface: each of the three commands
     * carries its own tag, and only another command type can borrow one.
     */
    function Type(): (t: CommandType)
      ensures !OtherCommand? ==>
        t in {CreateVerificationCommandType, ApproveVerificationCommandType, DeclineVerificationCommandType}
      ensures t == CreateVerificationCommandType <==>
        CreateVerificationCommand? || (OtherCommand? && commandType == CreateVerificationCommandType)
      ensures t == ApproveVerificationCommandType <==>
        ApproveVerificationCommand? || (OtherCommand? && commandType == ApproveVerificationCommandType)
      ensures t == DeclineVerificationCommandType <==>
        DeclineVerificationCommand? || (OtherCommand? && commandType == DeclineVerificationCommandType)
    {
      assert CreateVerificationCommandType[0] == 'c';
      assert ApproveVerificationCommandType[0] == 'a';
      assert DeclineVerificationCommandType[0] == 'd';
      match this
      case CreateVerificationCommand(_, _, _) => CreateVerificationCommandType
      case ApproveVerificationCommand(_) => ApproveVerificationCommandType
      case DeclineVerificationCommand(_, _) => DeclineVerificationCommandType
      case OtherCommand(t) => t
    }
  }

  /** The three tags tell the three commands apart. */
  lemma CommandTypesIdentify(c: Command, d: Command)
    requires !c.OtherCommand? && !d.OtherCommand?
    ensures c.Type() == d.Type() <==>
      (c.CreateVerificationCommand? && d.CreateVerificationCommand?) ||
      (c.ApproveVerificationCommand? && d.ApproveVerificationCommand?) ||
      (c.DeclineVerificationCommand? && d.DeclineVerificationCommand?)
  {
    assert CreateVerificationCommandType[0] == 'c';
    assert ApproveVerificationCommandType[0] == 'a';
    assert DeclineVerificationCommandType[0] == 'd';
  }

  datatype CommandHandler =
    | CreateVerificationCommandHandler(createVerificationService: CreateVerificationService)
    | ApproveVerificationCommandHandler(approveVerificationService: ApproveVerificationService)
    | DeclineVerificationCommandHandler(declineVerificationService: DeclineVerificationService)
  {
    /** The table the handler's service writes to. */
    function Repository(): VerificationRepository {
      match this
      case CreateVerificationCommandHandler(s) => s.verificationRepository
      case ApproveVerificationCommandHandler(s) => s.verificationRepository
      case DeclineVerificationCommandHandler(s) => s.verificationRepository
    }

    /** The command this handler's type assertion accepts. */
    predicate Accepts(cmd: Command) {
      match this
      case CreateVerificationCommandHandler(_) => cmd.CreateVerificationCommand?
      case ApproveVerificationCommandHandler(_) => cmd.ApproveVerificationCommand?
      case DeclineVerificationCommandHandler(_) => cmd.DeclineVerificationCommand?
    }

    method Handle(cmd: Command, now: Instant) returns (err: Option<Error>)
      modifies Repository()
      ensures Write(Repository().State(), err) == HandleOutcome(this, old(Repository().State()), cmd, now)
    {
      match this
      case CreateVerificationCommandHandler(s) =>
        if !cmd.CreateVerificationCommand? {
          return Some(UnexpectedCommand(cmd.Type()));
        }
        err := s.Create(cmd.verificationUuid, cmd.description, cmd.kind, now);
      case ApproveVerificationCommandHandler(s) =>
        if !cmd.ApproveVerificationCommand? {
          return Some(UnexpectedCommand(cmd.Type()));
        }
        err := s.Approve(cmd.uuid, now);
      case DeclineVerificationCommandHandler(s) =>
        if !cmd.DeclineVerificationCommand? {
          return Some(UnexpectedCommand(cmd.Type()));
        }
        err := s.Decline(cmd.uuid, cmd.declineReason, now);
    }
  }

  /**
   * What `Handle` does to the handler's table: a command of another type is
   * refused with UnexpectedCommand and the table is untouched; an accepted one
   * is the service call on the command's fields, with approve and decline
   * reading the stored row at clock reading `now` as the adapter does.
   */
  function HandleOutcome(h: CommandHandler, st: StoreState, cmd: Command, now: Instant): (r: Write)
    ensures !h.Accepts(cmd) ==> r == Write(st, Some(UnexpectedCommand(cmd.Type())))
    ensures cmd.CreateVerificationCommand? && h.Accepts(cmd) ==>
      r == CreateOutcome(st, cmd.verificationUuid, cmd.description, cmd.kind, now)
    ensures cmd.ApproveVerificationCommand? && h.Accepts(cmd) ==> r == ApproveOutcome(st, cmd.uuid, ReadAt(now))
    ensures cmd.DeclineVerificationCommand? && h.Accepts(cmd) ==> r == DeclineOutcome(st, cmd.uuid, cmd.declineReason, ReadAt(now))
  {
    if !h.Accepts(cmd) then Write(st, Some(UnexpectedCommand(cmd.Type())))
    else match cmd
      case CreateVerificationCommand(u, description, kind) => CreateOutcome(st, u, description, kind, now)
      case ApproveVerificationCommand(uuid) => ApproveOutcome(st, uuid, ReadAt(now))
      case DeclineVerificationCommand(uuid, declineReason) => DeclineOutcome(st, uuid, declineReason, ReadAt(now))
  }

  /** A handler never leaves its table ill formed, whatever it is handed. */
  lemma HandlePreservesWellFormed(h: CommandHandler, st: StoreState, cmd: Command, now: Instant)
    requires WellFormed(st)
    ensures WellFormed(HandleOutcome(h, st, cmd, now).store)
  {
    match cmd
    case CreateVerificationCommand(u, description, kind) =>
      CreatePreservesWellFormed(st, u, description, kind, now);
    case ApproveVerificationCommand(uuid) =>
      ApprovePreservesWellFormed(st, uuid, ReadAt(now));
    case DeclineVerificationCommand(uuid, declineReason) =>
      DeclinePreservesWellFormed(st, uuid, declineReason, ReadAt(now));
    case OtherCommand(_) =>
  }
}
