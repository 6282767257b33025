/** The values the broker, the replay log and the connection handler exchange. */
module Model {
  /** A topic name is a Go string, that is, a sequence of bytes. */
  datatype Name = Name(bytes: seq<bv8>)

  const EMPTY_NAME := Name([])

  /** A connection's identifier is a ULID, a 128-bit number no two connections share. */
  type ClientId = nat

  /** Chosen by the client; the server only echoes it. */
  type RequestId = string

  const SHARD_COUNT: nat := 32
  const SUBSCRIBER_QUEUE_SIZE: nat := 100
  const REPLAY_BUFFER_SIZE: nat := 100
  const MAX_TOPICS_LIMIT: nat := 10000
  const MAX_SUBSCRIBERS_PER_TOPIC: nat := 50000

  datatype Option<+T> = None | Some(value: T)

  datatype Message = Message(id: string, payload: string)

  /** The errors the broker returns to its callers. */
  datatype BrokerError =
    | TopicNameEmpty
    | MaxTopicsReached
    | TopicAlreadyExists
    | TopicNotFound
    | MaxSubscribers
    | PersistFailed

  datatype ErrorCode = INVALID_MESSAGE | TOPIC_NOT_FOUND | INTERNAL_ERROR

  datatype ErrorText =
    | TopicNameRequired
    | MessageRequired
    | UnknownMessageType
    | TopicDoesNotExist
    | FromBroker(error: BrokerError)

  datatype AckInfo = Subscribed | Unsubscribed | Published

  /**
   What the server offers to a client's queue: the "message", "info", "ack", "pong" and "error" frames. A message frame
   of a fan-out holds its message. One of a replay points to the loop's variable: it was sent in round `round` of a loop
   over `replay`, and shows what the variable holds when it is written.
   */
  datatype ServerMessage =
    | Delivery(topic: Name, message: Message)
    | Replayed(topic: Name, replay: seq<Message>, round: nat)
    | TopicDeleted(topic: Name)
    | Ack(requestId: RequestId, topic: Name, info: AckInfo)
    | Pong(requestId: RequestId)
    | Error(requestId: RequestId, code: ErrorCode, text: ErrorText)

  datatype MessageType = Subscribe | Unsubscribe | Publish | Ping | Other

  /** A request as decoded from the connection; a field the request type does not use may hold anything. */
  datatype ClientMessage = ClientMessage(
    messageType: MessageType,
    topicName: Name,
    lastNMessages: int,
    requestId: RequestId,
    messageData: Option<Message>)

  /** The frames that answer a request; fan-out, replay and info frames do not. */
  predicate IsResponse(frame: ServerMessage) {
    frame.Ack? || frame.Pong? || frame.Error?
  }

  predicate IsMessage(frame: ServerMessage) {
    frame.Delivery? || frame.Replayed?
  }

  predicate IsDelivery(frame: ServerMessage, topic: Name) {
    IsMessage(frame) && frame.topic == topic
  }

  /** The frame as the write loop encodes it when the request that sent it is over: the variable keeps its last value. */
  function Shown(frame: ServerMessage): ServerMessage {
    if frame.Replayed? && frame.replay != [] then Delivery(frame.topic, frame.replay[|frame.replay| - 1]) else frame
  }
}
