/** Identifiers, limits and error values shared by all components. */
module Types {
  import opened Bytes

  datatype Option<+T> = None | Some(value: T)

  datatype Result<+T, +E> = Ok(value: T) | Err(error: E) {
    predicate IsFailure() { Err? }
    function PropagateFailure<U>(): Result<U, E> requires Err? { Err(error) }
    function Extract(): T requires Ok? { value }
  }

  type AgentId = u128
  type SessionId = u128
  type HandlerId = u128
  type TypeId = u32
  type AttributeId = u16

  /** The all-zero identity reserved for the CA, and the all-zero handler of operations without one. */
  const CA: AgentId := 0
  const NO_HANDLER: HandlerId := 0

  const HEADER_LEN := 148
  const TAG_LEN := 16
  const SIGNATURE_LEN := 64
  const MAX_PLAINTEXT_LEN := 4096
  const MAX_FRAME_LEN := HEADER_LEN + MAX_PLAINTEXT_LEN + TAG_LEN + SIGNATURE_LEN
  const MAX_ATTRIBUTES := 16
  const MAX_CLAUSES := 8
  const MAX_ATTRIBUTE_BYTES := 64
  const MAX_VALUE_BYTES := 3072

  datatype MessageType = SetEnvironment | SubscribePermanent | Publish | PublicationResponse | Subscribe

  datatype Error =
    | Malformed | UnsupportedVersion | Oversized | BadSignature | Replay | CryptoFailure
    | WrongRecipient | WrongMessageType | WrongHandler | RandomFailure | Capacity
    | UnauthorizedEnvironment
}
