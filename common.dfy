/** Values shared by the services and the components of the study assistant. */
module Common {

  datatype Option<+T> = None | Some(value: T)

  /** One octet of a byte buffer. */
  type Byte = x: int | 0 <= x < 256

  /** The finalised record of one exchange of the mock interview. */
  datatype InterviewTurn = InterviewTurn(user: string, model: string)

  /** Who wrote a chat message. */
  datatype Role = User | Model

  datatype ChatMessage = ChatMessage(role: Role, text: string)
}
