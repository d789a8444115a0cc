/**
 * Construction of the message/message-key pair built from one decoded frame,
 * and the two publishes that follow it.
 */
module Records {
  import opened Wrappers
  import opened Models

  const MessagesTopic: string := "messages"
  const MessageKeysTopic: string := "message_keys"

  /** What a connection is bound to once it is admitted: the room from the path and the token's user. */
  datatype Connection = Connection(roomUUID: Uuid, userUUID: Uuid)

  /** The serialized payload of a publish, kept as the record it encodes. */
  datatype Record = Message(message: MessageDB) | MessageKey(key: MessageKeyDB)

  /** One call of the bus client's publish: a topic and its payload. */
  datatype Publish = Publish(topic: string, record: Record)

  /** The record's own identifier: `message_uuid` of a message, `message_key_uuid` of a key. */
  function IdOf(p: Publish): Uuid
  {
    match p.record
    case Message(m) => m.messageUUID
    case MessageKey(k) => k.messageKeyUUID
  }

  /**
   * `m` and `k` are the two publishes one frame `req` yields on connection `conn`:
   * the message on "messages", the key on "message_keys", the key pointing at the
   * message, both naming the frame's device, the ciphertexts copied verbatim, and
   * the message carrying the connection's room and user.
   */
  predicate Linked(conn: Connection, req: MessageRequest, m: Publish, k: Publish)
  {
    && m.topic == MessagesTopic && m.record.Message?
    && k.topic == MessageKeysTopic && k.record.MessageKey?
    && k.record.key.messageUUID == m.record.message.messageUUID
    && m.record.message.roomUUID == conn.roomUUID
    && m.record.message.senderUUID == Some(conn.userUUID)
    && m.record.message.senderDeviceUUID == req.deviceUUID
    && k.record.key.deviceUUID == req.deviceUUID
    && m.record.message.encryptedText == req.encryptedText
    && k.record.key.encryptedKey == req.encryptedKey
  }

  function NewMessage(messageUUID: Uuid, conn: Connection, req: MessageRequest): MessageDB
  {
    MessageDB(messageUUID, conn.roomUUID, Some(conn.userUUID), req.deviceUUID, req.encryptedText)
  }

  function NewMessageKey(messageKeyUUID: Uuid, messageUUID: Uuid, req: MessageRequest): MessageKeyDB
  {
    MessageKeyDB(messageKeyUUID, messageUUID, req.deviceUUID, req.encryptedKey)
  }

  /**
   * The two publishes of one loop iteration, with the two fresh identifiers the
   * generator hands out in that iteration: `id` for the message, `id + 1` for the key.
   */
  function PairFor(conn: Connection, req: MessageRequest, id: Uuid): (p: seq<Publish>)
    ensures |p| == 2
    ensures Linked(conn, req, p[0], p[1])
    ensures IdOf(p[0]) == id && IdOf(p[1]) == id + 1
  {
    var message := NewMessage(id, conn, req);
    var messageKey := NewMessageKey(id + 1, message.messageUUID, req);
    [Publish(MessagesTopic, Message(message)), Publish(MessageKeysTopic, MessageKey(messageKey))]
  }
}
