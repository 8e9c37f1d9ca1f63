/**
 * The errors of the service. Each Go sentinel (`errors.New`) is one constructor;
 * where the source wraps a sentinel with `fmt.Errorf`, the constructor carries
 * the text it adds. Where the sentinel is wrapped with `%w`, `errors.Is` against
 * it corresponds to testing the constructor (`e.AlreadyProcessed?`); where it is
 * only formatted with `%s`, as for the persist failure and the restoring
 * failure, `errors.Is` matches the wrapped cause and not the sentinel.
 */
module Errors {

  datatype Error =
      // domain/verification/aggregate
    | InvalidVerificationUuid(value: string)   // "%w: %s" with the rejected string
    | InvalidVerificationKind
    | EmptyDescription
    | InvalidVerificationStatus
    | EmptyDeclineReason
    | AlreadyProcessed
      // persistence adapter
    | VerificationPersistFailed(cause: string)  // "%s: %w": errors.Is matches only the database cause
    | VerificationNotFound(uuid: string)       // "%w: %s" with the looked-up uuid
    | StorageFailure(cause: string)            // a database error passed through as is
      // persistence/postgres/model: the message names the restoring failure,
      // while "%s: %w" makes errors.Is match only the wrapped cause
    | RestoringFailed(reason: Error)
      // application/shared/bus
    | UnexpectedCommand(commandType: string)
    | CommandHandlerNotFound(commandType: string)
    | UnexpectedQuery(queryType: string)
    | QueryHandlerNotFound(queryType: string)
}
