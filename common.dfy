/** Values shared by the chat widget's controller, its SDK facade and its
    real-time transport adapter. */
module Common {

  datatype Option<+T> = None | Some(value: T) {
    function GetOr(default: T): T {
      match this
      case Some(v) => v
      case None => default
    }
  }

  /** An error as a rejected promise or a thrown exception carries it. */
  datatype Err = Err(message: string)

  /** What calling a method of, or reading a property of, `undefined`
      throws. */
  const TypeError: Err := Err("TypeError")

  datatype Outcome<+E> = Pass | Fail(error: E)

  datatype Result<+R, +E> = Success(value: R) | Failure(error: E)

  /** A chat message as the conversation's message collection holds it:
      `received` is the server-assigned receipt time in fractional seconds. */
  datatype Message = Message(id: string, authorId: string, text: string, received: real)

  /** JavaScript truthiness of an optional string: `undefined` and `""` are falsy. */
  predicate TruthyString(s: Option<string>) {
    s.Some? && s.value != ""
  }
}
