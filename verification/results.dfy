/** Outcome types shared by every stage of the interceptor chain, and the
    errors the chain itself can raise. */
module Results {

  datatype Option<+T> = None | Some(value: T)

  /** The error kinds a stage can report: the three wiring errors of the
      terminal stage (the per-call carrier lacks what the operation needs),
      and an error any other stage reports for reasons of its own. */
  datatype Error =
    | PacketNotFound
    | PacketsNotFound
    | CallbackNotFound
    | StageError(reason: string)

  /** The text of each error: the terminal stage's fixed wording for the
      three wiring errors, and a stage's own text, kept verbatim, otherwise. */
  function Message(e: Error): string
  {
    match e
    case PacketNotFound => "packet not found in context"
    case PacketsNotFound => "packets not found in context"
    case CallbackNotFound => "callback not found in context"
    case StageError(reason) => reason
  }

  /** What a read operation hands back: a value, or an error and no value. */
  datatype Result<+T> = Ok(value: T) | Err(error: Error)

  /** What a stage decides on the write path before its next stage runs:
      pass a (possibly rewritten) value on, drop it without error, or fail. */
  datatype Verdict<+T> = Forward(value: T) | Drop | Reject(error: Error)

  /** What a write operation produces: every value handed to the carrier's
      write callback, in call order, and the error the operation returned. */
  datatype WriteOutcome<+T> = WriteOutcome(delivered: seq<T>, err: Option<Error>)
}
