# Room WebSocket bridge — a Dafny model

This project models the handler behind `GET /websocket/{room-uuid}` of the chat gateway
(`NewRoomWebSocketHandler`). The handler authenticates a caller with a bearer token and
reads the room id from the path. It asks the room access validator whether the caller
may join, then upgrades the request to a WebSocket. After that it reads frames until
the connection fails. Each frame that decodes as a `MessageRequest` becomes a
`MessageDB` row and a `MessageKeyDB` row. Both are published on the NATS bus: the
message on topic `messages`, then the key on topic `message_keys`.

Layout:

- `wrappers.dfy` — `Option`.
- `models.dfy` — the request and the two rows (`Models`).
- `records.dfy` — building the pair from one frame, the two topics, and the `Linked` relation
  that says what a correct pair is (`Records`).
- `session.dfy` — the read loop as a specification (`Session`). `Decoded` gives the
  requests that are acted on: undecodable frames are skipped and reading stops at the
  first read error. `Pairs` gives the publish log for those requests. Lemmas cover stop
  and skip, the layout of the log, linkage, id freshness and per-topic counts.
- `handler.dfy` — the collaborators as oracles and the pre-upgrade decision procedure
  `Admit` (`Handler`). `Handle` is the whole handler as a function. `ServeWebSocket`
  is the handler as the source runs it: early returns and then a `while` loop with
  `break` and `continue`. It is proved equal to `Handle`, and lemmas state the
  status mapping, the order of the checks and the session properties.

The collaborators are fields of type arrow in `Collaborators`:

- the token parser's `GetFromHeader` and `Parse`;
- `uuid.Parse` of the path parameter;
- `ValidateAccess(user, room)`;
- whether `Upgrader.Upgrade` succeeds;
- `json.Unmarshal` into a `MessageRequest`.

The client side of a connection is a `seq<FrameEvent>` (`ReadErr | Frame(bytes)`). The
UUID generator is a counter that starts at `firstId`. Each decoded frame draws two ids,
the message's first and then the key's, in the order the source calls `uuid.New()`.
`Response.trail` lists the checks the handler attempted, in order, so the order of the
checks can be stated. On success, the status recorded is 101, which the upgrade
handshake writes.

## Model

| member | source | states |
|---|---|---|
| `Records.PairFor` | internal/handlers/websocket.go:96-125 | one decoded frame gives exactly two publishes, the message on "messages" then the key on "message_keys"; the key's `MessageUUID` is the message's; both carry the frame's device; text and key are copied verbatim; room and sender come from the connection; the two ids are the next two from the generator |
| `Session.Decoded` | internal/handlers/websocket.go:85-94 | each read event contributes at most one request |
| `Session.Pairs` | internal/handlers/websocket.go:96-125 | the log for N requests has exactly 2N entries |
| `Session.DecodedAppend` | internal/handlers/websocket.go:85-94 | while no read error has occurred, frames are handled one at a time, independently of each other |
| `Session.DecodedSnoc` | internal/handlers/websocket.go:85-94 | reading one more frame on an open connection adds that frame's request when it decodes and nothing when it does not |
| `Session.ReadErrorEndsSession` | internal/handlers/websocket.go:85-89 | the loop stops at the first read error: nothing after it is processed |
| `Session.UndecodableFrameSkipped` | internal/handlers/websocket.go:91-94 | a frame that fails to decode adds nothing and does not end the loop: removing it changes nothing |
| `Session.PairsAppend` | internal/handlers/websocket.go:96-125 | the log grows by appending, with generator ids carrying on from the previous pair |
| `Session.PairAt` | internal/handlers/websocket.go:96-125 | the k-th decoded frame yields log entries 2k and 2k+1, with ids firstId+2k and firstId+2k+1 |
| `Session.LogEntryAt` | internal/handlers/websocket.go:97-125 | entry i has id firstId+i; even entries are messages linked to the following key, odd entries keys linked to the preceding message |
| `Session.PairsLinked` | internal/handlers/websocket.go:97-115 | for every decoded frame, its key record references its message record, and both carry that frame's device and ciphertexts |
| `Session.IdsDistinct` | internal/handlers/websocket.go:98-109 | with a fresh-id generator, all record ids published on one connection are pairwise distinct and none predates the generator's start |
| `Session.ConnectionConstant` | internal/handlers/websocket.go:97-101 | every message published on a connection has that connection's room and sender |
| `Session.PublishesPerTopic` | internal/handlers/websocket.go:117-125 | N decoded frames give exactly N publishes on "messages", N on "message_keys", and none on any other topic |
| `Handler.Admit` | internal/handlers/websocket.go:52-81 | the checks run in the fixed order header, token, room id, access, upgrade, and stop at the first failure; that failing check decides the status: 400 for the first three, 403 for access, 500 for the upgrade; the trail ends within the first three checks exactly when the token or the room id fails, at the access check exactly when the identified caller is refused, and the request is admitted exactly when access is granted and the upgrade succeeds |
| `Handler.Handle` | internal/handlers/websocket.go:50-127 | the whole handler as a function: status 101 exactly when upgraded; an upgraded connection is closed on exit; anything published implies an upgrade; the checks attempted are a non-empty prefix of the fixed order (the finer status and session properties are the lemmas below) |
| `Handler.ServeWebSocket` | internal/handlers/websocket.go:50-127 | the handler with its early returns and read loop produces exactly the outcome `Handle` specifies: the status, the checks attempted, the publish log and the closed flag |
| `Handler.BadRequest` | internal/handlers/websocket.go:52-68 | status 400 if and only if header extraction, token parsing or room-id parsing fails; then no access check, no upgrade, no publish |
| `Handler.ParsingOrder` | internal/handlers/websocket.go:52-71 | the token is parsed only after the header gave one, the room id only after the token parsed, and access is checked only after both |
| `Handler.Forbidden` | internal/handlers/websocket.go:71-74 | status 403 if and only if the caller is identified and the validator refuses; then no upgrade is attempted and nothing is published |
| `Handler.UpgradeFailure` | internal/handlers/websocket.go:77-81 | status 500 if and only if all checks passed and the upgrade failed; then nothing is published and there is no connection |
| `Handler.UpgradeOnlyAfterAccess` | internal/handlers/websocket.go:71-77 | an upgrade is attempted only for an identified caller whom the validator admitted |
| `Handler.ClosedOnEveryExit` | internal/handlers/websocket.go:77-89 | the connection is upgraded exactly when every check passes; an upgraded connection is closed when the handler returns; a request that is not upgraded ends with 400, 403 or 500 and publishes nothing |
| `Handler.SessionPublishes` | internal/handlers/websocket.go:85-126 | on an upgraded connection: 2N publishes for N decoded frames, N per topic; each pair linked; every message has the path's room and the token's user; all record ids distinct |
| `Handler.ReadErrorStopsHandler` | internal/handlers/websocket.go:85-89 | the outcome does not depend on anything sent after the first read error |
| `Handler.UndecodableFramesIgnored` | internal/handlers/websocket.go:91-94 | inserting an undecodable frame anywhere leaves the outcome, and so the valid frames' publishes, unchanged |
| `Handler.TokenDeviceIgnored` | internal/handlers/websocket.go:57 | the device in the token is discarded: the outcome is the same whatever device the token names |
| `Handler.OneFrameThenDisconnect` | internal/handlers/websocket.go:85-125 | one valid frame followed by a disconnect gives one publish on each topic, linked by `MessageUUID` |
| `Handler.JunkThenValidFrame` | internal/handlers/websocket.go:85-125 | an undecodable frame followed by a valid one gives exactly the valid frame's pair, and the session is not ended by the bad frame |

## Left out

- Upgrader configuration: the buffer sizes (1024) and the `CheckOrigin` that accepts every origin (internal/handlers/websocket.go:44-48). These belong to the WebSocket library; the upgrade is modelled only as a success oracle.
- The `WriteHeader(500)` after a failed upgrade (internal/handlers/websocket.go:79) is recorded only as the status 500. Whether the library has already written a response is library behaviour and is not modelled.
- NATS transport: `nc.Publish` is modelled as appending to the publish log. Its error result, which the source ignores, is not modelled.
- `json.Marshal` of the two rows is treated as total, so the guards at internal/handlers/websocket.go:118 and 123 always pass in the model. A failed marshal would drop that one publish and keep the loop running.
- `json.Unmarshal`, `uuid.Parse`, `chi.URLParam` and the token parser are opaque oracles. Their byte- and text-level behaviour is not modelled.
- Timestamps (`CreatedAt`, `UpdatedAt`) are not modelled. `time.Now()` is read separately for `CreatedAt` and `UpdatedAt` (internal/handlers/websocket.go:103-104, 113-114), so the two need not be equal.
- `uuid.New()` is a counter, so the model proves distinctness that real random UUIDs have only with overwhelming probability. The 128-bit width is not modelled: ids are unbounded naturals.
- The message type returned by `ReadMessage` is ignored by the source and is not modelled.
- Request contexts and their cancellation, per-connection concurrency, and blocking reads are not modelled. Each connection is one finite sequence of read events. The end of that sequence stands for the read error that ends every real session.
