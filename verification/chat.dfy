/**
 The record shapes shared by every conversational backend: the canonical
 response each operation returns, the role-tagged transcript entry, and the
 small failure vocabulary the backends report instead of throwing.
 */
module Chat {

  /** `T | null` in the gateway's types. */
  datatype Option<+T> = None | Some(value: T)

  /** A backend operation either answers or is rejected. */
  datatype Result<+R, +E> = Success(value: R) | Failure(error: E)

  /** Why a backend operation was rejected. */
  datatype Rejection =
    | NotStarted      // a transcript-keeping backend asked to continue before `start`
    | UpstreamFailed  // the completion endpoint could not be reached or its body not parsed

  /** The canonical response: all six fields are always present, and "no
      image" is expressed as `None` (null) or, by one backend, as "". */
  datatype ChatResponse = ChatResponse(
    id: string,
    characterId: string,
    chatId: string,
    imageRelativePath: Option<string>,
    srcName: string,
    text: string
  )

  /** One transcript entry; the role is a free string on the wire. */
  datatype Message = Message(role: string, content: string)

  const SystemRole: string := "system"
  const UserRole: string := "user"

  function SystemMessage(content: string): Message {
    Message(SystemRole, content)
  }

  function UserMessage(content: string): Message {
    Message(UserRole, content)
  }
}
