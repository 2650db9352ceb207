/** Identifiers, outcomes and error values shared by every component. */
module Common {

  /** A UUID. Canonical text form is assumed throughout, so equal ids have equal keys. */
  type Uuid = nat

  /** The all-zero UUID, which every repository refuses. */
  const NIL: Uuid := 0

  /** Milliseconds on one monotone clock. */
  type Time = int

  datatype Option<+T> = None | Some(value: T)

  datatype Result<+T, +E> = Ok(value: T) | Err(error: E)

  datatype SqlError = UniqueViolation | ForeignKeyViolation | CheckViolation

  datatype Error =
    | InvalidConversationID
    | ConversationNotFound
    | SequenceNotInitialized
    | InvalidParticipantID
    | ParticipantNotFound
    | InvalidParameters
    | Sql(error: SqlError)
    | Unavailable

  /**
   What can happen to one command sent to Postgres or Redis: it is executed and answered,
   it never reaches the server, or it is executed but the answer is lost.
   */
  datatype Fault = Fine | Refused | ReplyLost
}
