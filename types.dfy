/** Shapes shared by the chat front end: the records of types.ts as values. */
module Types {

  /** A value that may be absent (`undefined` / `null` in the front end). */
  datatype Option<+T> = None | Some(value: T)

  /** The outcome of an operation that may throw: a value, or the error thrown. */
  datatype Result<+T, +E> = Success(value: T) | Failure(error: E)

  /** Who wrote a turn of the conversation. */
  datatype Role = User | Model

  /** A user-supplied file, already encoded: `data` is the base64 payload. */
  datatype Attachment = Attachment(name: string, mimeType: string, data: string)

  /** A web source the model cited for its answer. */
  datatype Citation = Citation(title: string, uri: string)

  /**
   * One turn of the conversation. The wall-clock `timestamp` is an opaque
   * number supplied by the caller; `groundingUrls` is only ever set on a
   * successful model answer and `attachment` only on a user turn.
   */
  datatype Message = Message(
    role: Role,
    text: string,
    timestamp: nat,
    groundingUrls: Option<seq<Citation>>,
    attachment: Option<Attachment>)
}
