/** Vocabulary shared by every component: identifiers, optional values, the
    error codes of back/internal/domain/shared/errors.go and the closed enums. */
module Types {

  /** A UUID, kept as the number it spells so that it can be compared. Zero is uuid.Nil. */
  type Id = nat
  const NIL: Id := 0

  datatype Option<+T> = None | Some(value: T) {
    function GetOr(default: T): T {
      if Some? then value else default
    }
  }

  datatype Code =
    | ValidationFailed
    | QuotaLimitReached
    | TaskNotFound
    | TaskAlreadyDone
    | CompletedTaskFrozen
    | HasActiveSubtasks
    | OrphanedNode
    | DuplicateLink
    | SelfLink
    | NestingNotAllowed
    | NotASubtask
    | XPAlreadyGranted
    | SessionExpired
    | UserNotFound

  /** What a use case answers: a value, or the code the client renders. */
  datatype Result<+T> = Ok(value: T) | Err(code: Code) {
    predicate IsFailure() {
      Err?
    }

    function PropagateFailure<U>(): Result<U>
      requires Err?
    {
      Err(code)
    }

    function Extract(): T
      requires Ok?
    {
      value
    }
  }

  datatype Quadrant = ImportantUrgent | ImportantNotUrgent | NotImportantUrgent | NotImportantNotUrgent

  datatype Plan = Free | Pro | SelfHosted
}
