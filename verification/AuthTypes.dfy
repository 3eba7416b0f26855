/** The values that travel through the authentication pipeline. */
module AuthTypes {

  datatype Option<+T> = None | Some(value: T)

  datatype PromptType = Question | Secret

  datatype MessageType = Info | Error

  datatype PromptFrom = FromPamModule | FromAuthService

  /** An event exchanged between the checkpass child and its parent. */
  datatype PamEvent =
    | ErrorEvent(text: string)
    | PromptRequest(secret: bool, text: string)
    | PromptReply(result: bool, text: string)
    | MessageEvent(isError: bool, text: string)
    | Complete(isComplete: bool, authResult: bool, text: string)

  /** A queued message: the tagged union `AuthMsg`. */
  datatype AuthMsg =
    | Prompt(text: string, promptType: PromptType, from: PromptFrom)
    | Message(text: string, messageType: MessageType)
    | Completion(authRes: bool)

  /** Where a queued message came from.  The program does not store this; it is
      the provenance the end-to-end theorems speak about.  Runs of the checkpass
      child are numbered in the order they are forked. */
  datatype Source =
    | PamEventOf(run: nat)
    | EndOfRun(run: nat)
    | ServiceSession(sid: string)

  /** An entry of the message queue. */
  datatype Entry = Entry(msg: AuthMsg, src: Source)
}
