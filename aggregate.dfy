/**
 * The verification aggregate of internal/domain/verification/aggregate: the
 * self-validating value objects, the aggregate with its three-state machine
 * (draft, then approved or declined, both final), and the setters used when an
 * aggregate is rebuilt from storage.
 *
 * The pure functions over `VerificationState` state what each operation does;
 * the class `Verification` holds the same fields and its methods, which update
 * them in place as the Go pointer receivers do, are proved against those functions.
 */
module Aggregate {
  import opened Prelude
  import opened Errors
  import Uuid

  // ---------------------------------------------------------------------------
  // Value objects

  /** The storage-assigned numeric key; zero until the aggregate is restored from storage. */
  datatype VerificationId = VerificationId(value: uint32)

  datatype VerificationUuid = VerificationUuid(value: string)

  /** Admits exactly the strings `uuid.Parse` accepts, keeping the string as given. */
  function NewVerificationUuid(value: string): (r: Result<VerificationUuid, Error>)
    ensures r.Success? <==> Uuid.ValidUuid(value)
    ensures r.Success? ==> r.value.value == value
    ensures r.Failure? ==> r.error == InvalidVerificationUuid(value)
  {
    if !Uuid.ValidUuid(value) then Failure(InvalidVerificationUuid(value))
    else Success(VerificationUuid(value))
  }

  const IdentityValue: string := "identity"
  const DocumentValue: string := "document"

  datatype VerificationKind = Identity | Document {
    function Value(): string {
      match this
      case Identity => IdentityValue
      case Document => DocumentValue
    }
  }

  function NewVerificationKind(value: string): (r: Result<VerificationKind, Error>)
    ensures r.Success? <==> value == IdentityValue || value == DocumentValue
    ensures r.Success? ==> r.value.Value() == value
    ensures r.Failure? ==> r.error == InvalidVerificationKind
  {
    if value != IdentityValue && value != DocumentValue then Failure(InvalidVerificationKind)
    else if value == IdentityValue then Success(Identity)
    else Success(Document)
  }

  datatype VerificationDescription = VerificationDescription(value: string)

  function NewVerificationDescription(value: string): (r: Result<VerificationDescription, Error>)
    ensures r.Success? <==> value != ""
    ensures r.Success? ==> r.value.value == value
    ensures r.Failure? ==> r.error == EmptyDescription
  {
    if value == "" then Failure(EmptyDescription) else Success(VerificationDescription(value))
  }

  const DraftValue: string := "draft"
  const ApprovedValue: string := "approved"
  const DeclinedValue: string := "declined"

  /** The list `NewVerificationStatus` looks the candidate up in. */
  const StatusValues: seq<string> := [DraftValue, ApprovedValue, DeclinedValue]

  datatype VerificationStatus = Draft | Approved | Declined {
    function Value(): string {
      match this
      case Draft => DraftValue
      case Approved => ApprovedValue
      case Declined => DeclinedValue
    }
  }

  function NewVerificationStatus(value: string): (r: Result<VerificationStatus, Error>)
    ensures r.Success? <==> value == DraftValue || value == ApprovedValue || value == DeclinedValue
    ensures r.Success? ==> r.value.Value() == value
    ensures r.Failure? ==> r.error == InvalidVerificationStatus
  {
    if value !in StatusValues then Failure(InvalidVerificationStatus)
    else if value == DraftValue then Success(Draft)
    else if value == ApprovedValue then Success(Approved)
    else Success(Declined)
  }

  datatype VerificationDeclineReason = VerificationDeclineReason(value: string)

  /** The zero value the aggregate holds until it is declined. */
  const NoDeclineReason: VerificationDeclineReason := VerificationDeclineReason("")

  function NewVerificationDeclineReason(value: string): (r: Result<VerificationDeclineReason, Error>)
    ensures r.Success? <==> value != ""
    ensures r.Success? ==> r.value.value == value
    ensures r.Failure? ==> r.error == EmptyDeclineReason
  {
    if value == "" then Failure(EmptyDeclineReason) else Success(VerificationDeclineReason(value))
  }

  /** The text form of every enumerated value object is admitted again and yields the same value. */
  lemma ValueObjectsRoundTrip(k: VerificationKind, s: VerificationStatus)
    ensures NewVerificationKind(k.Value()) == Success(k)
    ensures NewVerificationStatus(s.Value()) == Success(s)
    ensures forall t: VerificationStatus :: t.Value() == s.Value() ==> t == s
  {
  }

  // ---------------------------------------------------------------------------
  // The aggregate's state and its operations as functions

  /** A reading of the clock (`time.Now()`), kept opaque. */
  datatype Instant = Instant(unixNano: int)

  datatype VerificationState = VerificationState(
    id: VerificationId,
    uuid: VerificationUuid,
    kind: VerificationKind,
    description: VerificationDescription,
    status: VerificationStatus,
    declineReason: VerificationDeclineReason,
    createdAt: Instant)

  /** What every aggregate built by `NewVerification` and changed by `Approve`/`Decline` satisfies. */
  predicate Consistent(s: VerificationState) {
    && Uuid.ValidUuid(s.uuid.value)
    && s.description.value != ""
    && (s.declineReason.value != "" <==> s.status == Declined)
  }

  /** The fields no transition may touch. */
  predicate SameIdentity(s: VerificationState, t: VerificationState) {
    s.id == t.id && s.uuid == t.uuid && s.kind == t.kind &&
    s.description == t.description && s.createdAt == t.createdAt
  }

  /**
   * `NewVerification`: validates the uuid, then the kind, then the description,
   * and fails with the first error; otherwise a draft with no decline reason.
   */
  function Create(uuid: string, kind: string, description: string, now: Instant): (r: Result<VerificationState, Error>)
    ensures r.Success? <==>
      Uuid.ValidUuid(uuid) && (kind == IdentityValue || kind == DocumentValue) && description != ""
    ensures !Uuid.ValidUuid(uuid) ==> r == Failure(InvalidVerificationUuid(uuid))
    ensures Uuid.ValidUuid(uuid) && kind != IdentityValue && kind != DocumentValue ==>
      r == Failure(InvalidVerificationKind)
    ensures Uuid.ValidUuid(uuid) && (kind == IdentityValue || kind == DocumentValue) && description == "" ==>
      r == Failure(EmptyDescription)
    ensures r.Success? ==>
      && r.value.uuid.value == uuid && r.value.kind.Value() == kind && r.value.description.value == description
      && r.value.status == Draft && r.value.declineReason == NoDeclineReason
      && r.value.id == VerificationId(0) && r.value.createdAt == now
      && Consistent(r.value)
  {
    var u :- NewVerificationUuid(uuid);
    var k :- NewVerificationKind(kind);
    var d :- NewVerificationDescription(description);
    Success(VerificationState(VerificationId(0), u, k, d, Draft, NoDeclineReason, now))
  }

  /** The state after an operation and the error it returned (`None` for a nil error). */
  datatype Step = Step(state: VerificationState, err: Option<Error>)

  /** `Approve`: only a draft can be approved; otherwise AlreadyProcessed and no change. */
  function ApproveStep(s: VerificationState): (r: Step)
    ensures r.err.None? <==> s.status == Draft
    ensures r.err.Some? ==> r == Step(s, Some(AlreadyProcessed))
    ensures r.err.None? ==> r.state == s.(status := Approved)
  {
    if s.status != Draft then Step(s, Some(AlreadyProcessed))
    else Step(s.(status := Approved), None)
  }

  /**
   * `Decline`: the status is checked before the reason, so a processed
   * aggregate reports AlreadyProcessed even for an empty reason; an empty
   * reason on a draft fails without touching anything.
   */
  function DeclineStep(s: VerificationState, reason: string): (r: Step)
    ensures r.err.None? <==> s.status == Draft && reason != ""
    ensures s.status != Draft ==> r == Step(s, Some(AlreadyProcessed))
    ensures s.status == Draft && reason == "" ==> r == Step(s, Some(EmptyDeclineReason))
    ensures r.err.None? ==>
      r.state == s.(status := Declined, declineReason := VerificationDeclineReason(reason))
  {
    if s.status != Draft then Step(s, Some(AlreadyProcessed))
    else match NewVerificationDeclineReason(reason)
      case Failure(e) => Step(s, Some(e))
      case Success(d) => Step(s.(declineReason := d).(status := Declined), None)
  }

  /** `WithStatus`: restores any valid status regardless of transitions; an invalid one changes nothing. */
  function WithStatusStep(s: VerificationState, status: string): (r: Step)
    ensures r.err.None? <==> status in StatusValues
    ensures r.err.Some? ==> r == Step(s, Some(InvalidVerificationStatus))
    ensures r.err.None? ==> r.state == s.(status := r.state.status) && r.state.status.Value() == status
  {
    match NewVerificationStatus(status)
    case Failure(e) => Step(s, Some(e))
    case Success(st) => Step(s.(status := st), None)
  }

  /** `WithDeclineReason`: sets a non-empty reason; an empty one is an error and keeps the old reason. */
  function WithDeclineReasonStep(s: VerificationState, reason: string): (r: Step)
    ensures r.err.None? <==> reason != ""
    ensures r.err.Some? ==> r == Step(s, Some(EmptyDeclineReason))
    ensures r.err.None? ==> r.state == s.(declineReason := VerificationDeclineReason(reason))
  {
    match NewVerificationDeclineReason(reason)
    case Failure(e) => Step(s, Some(e))
    case Success(d) => Step(s.(declineReason := d), None)
  }

  // ---------------------------------------------------------------------------
  // The state machine over sequences of operations

  datatype Operation = ApproveOp | DeclineOp(reason: string)

  function Apply(s: VerificationState, op: Operation): Step {
    match op
    case ApproveOp => ApproveStep(s)
    case DeclineOp(reason) => DeclineStep(s, reason)
  }

  /** The state after applying the operations in order, each to the state the previous one left. */
  function Run(s: VerificationState, ops: seq<Operation>): VerificationState
    decreases |ops|
  {
    if ops == [] then s else Run(Apply(s, ops[0]).state, ops[1..])
  }

  /** How many of the operations succeeded. */
  function Successes(s: VerificationState, ops: seq<Operation>): nat
    decreases |ops|
  {
    if ops == [] then 0
    else (if Apply(s, ops[0]).err.None? then 1 else 0) + Successes(Apply(s, ops[0]).state, ops[1..])
  }

  /** Every operation keeps the invariants and the identity fields. */
  lemma {:induction false} RunPreservesInvariants(s: VerificationState, ops: seq<Operation>)
    requires Consistent(s)
    ensures Consistent(Run(s, ops)) && SameIdentity(s, Run(s, ops))
    decreases |ops|
  {
    if ops != [] {
      RunPreservesInvariants(Apply(s, ops[0]).state, ops[1..]);
    }
  }

  /** Approved and declined are final: nothing changes them and every operation fails. */
  lemma {:induction false} ProcessedIsFinal(s: VerificationState, ops: seq<Operation>)
    requires s.status != Draft
    ensures Run(s, ops) == s && Successes(s, ops) == 0
    decreases |ops|
  {
    if ops != [] {
      ProcessedIsFinal(s, ops[1..]);
    }
  }

  /** At most one operation ever succeeds, and one has exactly when the status left draft. */
  lemma {:induction false} AtMostOneTransition(s: VerificationState, ops: seq<Operation>)
    requires s.status == Draft
    ensures Successes(s, ops) <= 1
    ensures Successes(s, ops) == 0 <==> Run(s, ops).status == Draft
    decreases |ops|
  {
    if ops != [] {
      var step := Apply(s, ops[0]);
      if step.err.None? {
        ProcessedIsFinal(step.state, ops[1..]);
      } else {
        AtMostOneTransition(step.state, ops[1..]);
      }
    }
  }

  /**
   * For every aggregate `NewVerification` builds and every sequence of
   * `Approve`/`Decline` calls: the decline reason is set exactly when the status
   * is declined, identity fields never change, and at most one call succeeds.
   */
  lemma Lifecycle(uuid: string, kind: string, description: string, now: Instant, ops: seq<Operation>)
    requires Create(uuid, kind, description, now).Success?
    ensures var s0 := Create(uuid, kind, description, now).value;
      && Consistent(Run(s0, ops)) && SameIdentity(s0, Run(s0, ops))
      && Successes(s0, ops) <= 1
  {
    var s0 := Create(uuid, kind, description, now).value;
    RunPreservesInvariants(s0, ops);
    AtMostOneTransition(s0, ops);
  }

  // ---------------------------------------------------------------------------
  // The aggregate object

  class Verification {
    var id: VerificationId
    const uuid: VerificationUuid
    const kind: VerificationKind
    const description: VerificationDescription
    var status: VerificationStatus
    var declineReason: VerificationDeclineReason
    const createdAt: Instant

    /** The struct literal of `NewVerification`, and of restoring from a stored state. */
    constructor (s: VerificationState)
      ensures State() == s
    {
      id, uuid, kind, description := s.id, s.uuid, s.kind, s.description;
      status, declineReason, createdAt := s.status, s.declineReason, s.createdAt;
    }

    /** The values the getters (`Id()`, `Uuid()`, ... `CreatedAt()`) return. */
    function State(): VerificationState
      reads this
    {
      VerificationState(id, uuid, kind, description, status, declineReason, createdAt)
    }

    method WithId(value: uint32)
      modifies this`id
      ensures State() == old(State()).(id := VerificationId(value))
    {
      id := VerificationId(value);
    }

    method WithDeclineReason(reason: string) returns (err: Option<Error>)
      modifies this`declineReason
      ensures Step(State(), err) == WithDeclineReasonStep(old(State()), reason)
    {
      var r := NewVerificationDeclineReason(reason);
      if r.Failure? {
        return Some(r.error);
      }
      declineReason := r.value;
      return None;
    }

    method WithStatus(value: string) returns (err: Option<Error>)
      modifies this`status
      ensures Step(State(), err) == WithStatusStep(old(State()), value)
    {
      var r := NewVerificationStatus(value);
      if r.Failure? {
        return Some(r.error);
      }
      status := r.value;
      return None;
    }

    method Decline(reason: string) returns (err: Option<Error>)
      modifies this`status, this`declineReason
      ensures Step(State(), err) == DeclineStep(old(State()), reason)
    {
      if status != Draft {
        return Some(AlreadyProcessed);
      }
      var r := NewVerificationDeclineReason(reason);
      if r.Failure? {
        return Some(r.error);
      }
      declineReason := r.value;
      // the source re-validates the literal "declined", which always succeeds
      status := Declined;
      return None;
    }

    method Approve() returns (err: Option<Error>)
      modifies this`status
      ensures Step(State(), err) == ApproveStep(old(State()))
    {
      if status != Draft {
        return Some(AlreadyProcessed);
      }
      status := Approved;
      return None;
    }
  }

  /** `NewVerification`, with the clock reading passed in. */
  method NewVerification(uuid: string, kind: string, description: string, now: Instant)
    returns (v: Verification?, err: Option<Error>)
    ensures v != null <==> Create(uuid, kind, description, now).Success?
    ensures v != null ==> fresh(v) && v.State() == Create(uuid, kind, description, now).value && err == None
    ensures v == null ==> err == Some(Create(uuid, kind, description, now).error)
  {
    var u := NewVerificationUuid(uuid);
    if u.Failure? {
      return null, Some(u.error);
    }
    var k := NewVerificationKind(kind);
    if k.Failure? {
      return null, Some(k.error);
    }
    var d := NewVerificationDescription(description);
    if d.Failure? {
      return null, Some(d.error);
    }
    // the source validates the literal "draft" here, which always succeeds
    v := new Verification(VerificationState(VerificationId(0), u.value, k.value, d.value, Draft, NoDeclineReason, now));
    err := None;
  }

  /**
   * Create, approve, then decline one object: the decline fails and leaves the
   * approval in place, with no decline reason recorded.
   */
  method Scenario(u: Uuid.UUID, now: Instant) returns (v: Verification, approveErr: Option<Error>, declineErr: Option<Error>)
    ensures approveErr == None && declineErr == Some(AlreadyProcessed)
    ensures v.State() == VerificationState(VerificationId(0), VerificationUuid(Uuid.UuidString(u)), Identity,
      VerificationDescription("Fancy verification document description"), Approved, NoDeclineReason, now)
  {
    var created, err := NewVerification(Uuid.UuidString(u), IdentityValue, "Fancy verification document description", now);
    assert err == None && created != null;
    v := created;
    approveErr := v.Approve();
    declineErr := v.Decline("x");
  }
}
