/**
 * The records of internal/models: what a client sends in one WebSocket frame,
 * and the two rows derived from it that are published on the bus.
 * Timestamps (`created_at`, `updated_at`) are clock reads and are not modelled.
 */
module Models {
  import opened Wrappers

  /** A 128-bit UUID, taken as an opaque identifier. */
  type Uuid = nat

  type Bytes = seq<bv8>

  /** The JSON object `{device_uuid, encrypted_text, encrypted_key}` of one inbound frame. */
  datatype MessageRequest = MessageRequest(
    deviceUUID: Uuid,
    encryptedText: string,
    encryptedKey: string)

  /** A row of the `messages` table; `senderUUID` is a nullable pointer in the source. */
  datatype MessageDB = MessageDB(
    messageUUID: Uuid,
    roomUUID: Uuid,
    senderUUID: Option<Uuid>,
    senderDeviceUUID: Uuid,
    encryptedText: string)

  /** A row of the `message_keys` table, pointing at its message through `messageUUID`. */
  datatype MessageKeyDB = MessageKeyDB(
    messageKeyUUID: Uuid,
    messageUUID: Uuid,
    deviceUUID: Uuid,
    encryptedKey: string)
}
