/**
 * The HTTP handler of `GET /websocket/{room-uuid}`: five checks in a fixed order,
 * each ending the request with a status on failure, then the read/decode/publish
 * loop over the upgraded connection.
 */
module Handler {
  import opened Wrappers
  import opened Models
  import opened Records
  import opened Session

  const StatusSwitchingProtocols := 101
  const StatusBadRequest := 400
  const StatusForbidden := 403
  const StatusInternalServerError := 500

  /** Request headers, shaped as Go's `http.Header`. */
  type Header = map<string, seq<string>>

  /** The parts of the upgrade request the handler reads: its headers and the `room-uuid` path parameter. */
  datatype Request = Request(header: Header, roomParam: string)

  /** What a parsed token yields: the user and the device it was issued to. */
  datatype Claims = Claims(userUUID: Uuid, deviceUUID: Uuid)

  /**
   * The collaborators the handler consults, each as an oracle:
   * the token parser's `GetFromHeader` and `Parse`, UUID parsing of the path parameter,
   * the room access validator (user, room), whether the protocol upgrade succeeds,
   * and JSON decoding of a frame.
   */
  datatype Collaborators = Collaborators(
    getFromHeader: Header -> Option<string>,
    parse: string -> Option<Claims>,
    parseUUID: string -> Option<Uuid>,
    validateAccess: (Uuid, Uuid) -> bool,
    upgrade: Request -> bool,
    unmarshal: Unmarshal)

  /** The steps taken before streaming, named by the collaborator each one consults. */
  datatype Check = ReadHeader | ParseToken | ParseRoom | CheckAccess | Upgrade

  const CheckOrder: seq<Check> := [ReadHeader, ParseToken, ParseRoom, CheckAccess, Upgrade]

  /** The end of the pre-upgrade phase: a status, or a connection bound to a room and a user. */
  datatype Admission =
    | Refused(status: int, trail: seq<Check>)
    | Admitted(conn: Connection, trail: seq<Check>)

  /**
   * What the handler produced: the status written, the checks attempted in order,
   * whether the connection was upgraded, what was published, and whether the
   * connection was closed.
   */
  datatype Response = Response(status: int, trail: seq<Check>, upgraded: bool, log: seq<Publish>, closed: bool)

  /**
   * The pre-upgrade decision procedure. The checks run in `CheckOrder` and stop at the
   * first one that fails; that check alone decides the status: 400 for the header,
   * the token or the room id, 403 for access, 500 for the upgrade.
   */
  function Admit(c: Collaborators, r: Request): (a: Admission)
    ensures 1 <= |a.trail| && a.trail <= CheckOrder
    ensures a.Admitted? ==> a.trail == CheckOrder
    ensures a.Refused? ==> (a.status == StatusBadRequest <==> |a.trail| <= 3)
    ensures a.Refused? ==> (a.status == StatusForbidden <==> |a.trail| == 4)
    ensures a.Refused? ==> (a.status == StatusInternalServerError <==> |a.trail| == 5)
    ensures a.Refused? && |a.trail| <= 3 <==> !Identified(c, r)
    ensures a.Refused? && |a.trail| == 4 <==> Identified(c, r) && !AccessGranted(c, r)
    ensures a.Admitted? <==> Identified(c, r) && AccessGranted(c, r) && c.upgrade(r)
  {
    match c.getFromHeader(r.header)
    case None => Refused(StatusBadRequest, CheckOrder[..1])
    case Some(token) =>
      match c.parse(token)
      case None => Refused(StatusBadRequest, CheckOrder[..2])
      case Some(claims) =>
        match c.parseUUID(r.roomParam)
        case None => Refused(StatusBadRequest, CheckOrder[..3])
        case Some(room) =>
          if !c.validateAccess(claims.userUUID, room) then Refused(StatusForbidden, CheckOrder[..4])
          else if !c.upgrade(r) then Refused(StatusInternalServerError, CheckOrder)
          else Admitted(Connection(room, claims.userUUID), CheckOrder)
  }

  /** The whole handler: a status before the upgrade, or the session's publishes after it. */
  function Handle(c: Collaborators, r: Request, events: seq<FrameEvent>, firstId: Uuid): (resp: Response)
    ensures resp.status == StatusSwitchingProtocols <==> resp.upgraded
    ensures resp.upgraded ==> resp.closed
    ensures resp.log != [] ==> resp.upgraded
    ensures resp.trail <= CheckOrder && resp.trail != []
  {
    match Admit(c, r)
    case Refused(status, trail) => Response(status, trail, false, [], false)
    case Admitted(conn, trail) =>
      Response(StatusSwitchingProtocols, trail, true, Pairs(conn, Decoded(c.unmarshal, events), firstId), true)
  }

  /**
   * The handler as the source runs it: early returns that write a status, then a loop
   * that reads `events` one by one, breaks on a read error, skips a frame that fails to
   * decode, and otherwise builds the pair (drawing two ids from the generator, which
   * starts at `firstId`) and publishes the message and then the key.
   */
  method ServeWebSocket(c: Collaborators, r: Request, events: seq<FrameEvent>, firstId: Uuid) returns (resp: Response)
    ensures resp == Handle(c, r, events, firstId)
  {
    var trail := [ReadHeader];
    var token := c.getFromHeader(r.header);
    if token.None? {
      return Response(StatusBadRequest, trail, false, [], false);
    }
    trail := trail + [ParseToken];
    var claims := c.parse(token.value);
    if claims.None? {
      return Response(StatusBadRequest, trail, false, [], false);
    }
    var userUUID := claims.value.userUUID;
    trail := trail + [ParseRoom];
    var roomUUID := c.parseUUID(r.roomParam);
    if roomUUID.None? {
      return Response(StatusBadRequest, trail, false, [], false);
    }
    trail := trail + [CheckAccess];
    if !c.validateAccess(userUUID, roomUUID.value) {
      return Response(StatusForbidden, trail, false, [], false);
    }
    trail := trail + [Upgrade];
    if !c.upgrade(r) {
      return Response(StatusInternalServerError, trail, false, [], false);
    }
    var conn := Connection(roomUUID.value, userUUID);

    var log: seq<Publish> := [];
    var nextId := firstId;
    var i := 0;
    while i < |events|
      invariant 0 <= i <= |events|
      invariant ReadErr !in events[..i]
      invariant log == Pairs(conn, Decoded(c.unmarshal, events[..i]), firstId)
      invariant nextId == firstId + |log|
    {
      if events[i].ReadErr? {
        assert events == events[..i] + [ReadErr] + events[i + 1..];
        ReadErrorEndsSession(c.unmarshal, events[..i], events[i + 1..]);
        break;
      }
      var b := events[i].payload;
      ghost var before := Decoded(c.unmarshal, events[..i]);
      assert events[..i + 1] == events[..i] + [Frame(b)];
      DecodedSnoc(c.unmarshal, events[..i], b);
      i := i + 1;
      var req := c.unmarshal(b);
      if req.None? {
        assert Decoded(c.unmarshal, events[..i]) == before + [] == before;
        continue;
      }
      var message := NewMessage(nextId, conn, req.value);
      var messageKey := NewMessageKey(nextId + 1, message.messageUUID, req.value);
      ghost var pair := PairFor(conn, req.value, nextId);
      nextId := nextId + 2;
      log := log + [Publish(MessagesTopic, Message(message))];
      log := log + [Publish(MessageKeysTopic, MessageKey(messageKey))];
      PairsAppend(conn, before, [req.value], firstId);
      assert Pairs(conn, [req.value], firstId + 2 * |before|) == pair + Pairs(conn, [], firstId + 2 * |before| + 2);
      assert Decoded(c.unmarshal, events[..i]) == before + [req.value];
    }
    if i == |events| {
      assert events[..i] == events;
    }
    resp := Response(StatusSwitchingProtocols, trail, true, log, true);
  }

  // ---------------------------------------------------------------------------
  // Properties of the handler

  /** The user of the request's token, when the header yields a token and the token parses. */
  function TokenUser(c: Collaborators, r: Request): Option<Uuid>
  {
    match c.getFromHeader(r.header)
    case None => None
    case Some(token) =>
      match c.parse(token)
      case None => None
      case Some(claims) => Some(claims.userUUID)
  }

  /** A token that resolves and a room id that parses: what every check after the third needs. */
  predicate Identified(c: Collaborators, r: Request)
  {
    TokenUser(c, r).Some? && c.parseUUID(r.roomParam).Some?
  }

  /** The caller may join the room named in the path. */
  predicate AccessGranted(c: Collaborators, r: Request)
    requires Identified(c, r)
  {
    c.validateAccess(TokenUser(c, r).value, c.parseUUID(r.roomParam).value)
  }

  /** 400 exactly when the header, the token or the room id fails; then nothing is upgraded or published. */
  lemma BadRequest(c: Collaborators, r: Request, events: seq<FrameEvent>, firstId: Uuid)
    ensures var resp := Handle(c, r, events, firstId);
      (resp.status == StatusBadRequest <==> !Identified(c, r))
      && (resp.status == StatusBadRequest ==>
            !resp.upgraded && resp.log == [] && CheckAccess !in resp.trail && Upgrade !in resp.trail)
  {
  }

  /** The three parsing checks run in order: the token only after the header, the room id only after the token. */
  lemma ParsingOrder(c: Collaborators, r: Request, events: seq<FrameEvent>, firstId: Uuid)
    ensures var resp := Handle(c, r, events, firstId);
      (ParseToken in resp.trail ==> c.getFromHeader(r.header).Some?)
      && (ParseRoom in resp.trail ==> TokenUser(c, r).Some?)
      && (CheckAccess in resp.trail ==> Identified(c, r))
  {
  }

  /** 403 exactly when the caller is identified and the validator refuses; no upgrade is attempted. */
  lemma Forbidden(c: Collaborators, r: Request, events: seq<FrameEvent>, firstId: Uuid)
    ensures var resp := Handle(c, r, events, firstId);
      (resp.status == StatusForbidden <==> Identified(c, r) && !AccessGranted(c, r))
      && (resp.status == StatusForbidden ==> Upgrade !in resp.trail && !resp.upgraded && resp.log == [])
  {
  }

  /** 500 exactly when every check passed but the upgrade failed; nothing is published. */
  lemma UpgradeFailure(c: Collaborators, r: Request, events: seq<FrameEvent>, firstId: Uuid)
    ensures var resp := Handle(c, r, events, firstId);
      (resp.status == StatusInternalServerError <==> Identified(c, r) && AccessGranted(c, r) && !c.upgrade(r))
      && (resp.status == StatusInternalServerError ==> !resp.upgraded && resp.log == [] && !resp.closed)
  {
  }

  /** An upgrade is attempted only for an identified caller whom the validator admitted. */
  lemma UpgradeOnlyAfterAccess(c: Collaborators, r: Request, events: seq<FrameEvent>, firstId: Uuid)
    ensures var resp := Handle(c, r, events, firstId);
      Upgrade in resp.trail ==> Identified(c, r) && AccessGranted(c, r)
  {
  }

  /**
   * Once upgraded, the connection is closed on exit; a request that is not upgraded
   * ends with 400, 403 or 500, publishes nothing and has no connection to close.
   */
  lemma ClosedOnEveryExit(c: Collaborators, r: Request, events: seq<FrameEvent>, firstId: Uuid)
    ensures var resp := Handle(c, r, events, firstId);
      (resp.upgraded <==> Identified(c, r) && AccessGranted(c, r) && c.upgrade(r))
      && (resp.upgraded ==> resp.closed && resp.status == StatusSwitchingProtocols)
      && (!resp.upgraded ==>
            !resp.closed && resp.log == []
            && resp.status in {StatusBadRequest, StatusForbidden, StatusInternalServerError})
  {
  }

  /**
   * On an upgraded connection: two publishes per decoded frame, as many on "messages" as
   * on "message_keys"; each pair linked and built from its frame; every message carrying
   * the room from the path and the token's user; every record id distinct.
   */
  lemma SessionPublishes(c: Collaborators, r: Request, events: seq<FrameEvent>, firstId: Uuid)
    requires Handle(c, r, events, firstId).upgraded
    ensures Identified(c, r)
    ensures var log := Handle(c, r, events, firstId).log;
      var reqs := Decoded(c.unmarshal, events);
      var conn := Connection(c.parseUUID(r.roomParam).value, TokenUser(c, r).value);
      && |log| == 2 * |reqs|
      && CountTopic(log, MessagesTopic) == |reqs|
      && CountTopic(log, MessageKeysTopic) == |reqs|
      && (forall k :: 0 <= k < |reqs| ==> Linked(conn, reqs[k], log[2 * k], log[2 * k + 1]))
      && (forall i :: 0 <= i < |log| && log[i].record.Message? ==>
            log[i].record.message.roomUUID == conn.roomUUID
            && log[i].record.message.senderUUID == Some(conn.userUUID))
      && (forall i, j :: 0 <= i < j < |log| ==> IdOf(log[i]) != IdOf(log[j]))
  {
    var reqs := Decoded(c.unmarshal, events);
    var conn := Connection(c.parseUUID(r.roomParam).value, TokenUser(c, r).value);
    PublishesPerTopic(conn, reqs, firstId, MessagesTopic);
    PairsLinked(conn, reqs, firstId);
    ConnectionConstant(conn, reqs, firstId);
    IdsDistinct(conn, reqs, firstId);
  }

  /** The handler's outcome does not depend on anything the client sends after the first read error. */
  lemma ReadErrorStopsHandler(c: Collaborators, r: Request, pre: seq<FrameEvent>, post: seq<FrameEvent>, firstId: Uuid)
    ensures Handle(c, r, pre + [ReadErr] + post, firstId) == Handle(c, r, pre, firstId)
  {
    ReadErrorEndsSession(c.unmarshal, pre, post);
  }

  /** Frames that fail to decode can be inserted anywhere without changing the outcome. */
  lemma UndecodableFramesIgnored(c: Collaborators, r: Request, pre: seq<FrameEvent>, b: Bytes, post: seq<FrameEvent>, firstId: Uuid)
    requires c.unmarshal(b).None?
    ensures Handle(c, r, pre + [Frame(b)] + post, firstId) == Handle(c, r, pre + post, firstId)
  {
    UndecodableFrameSkipped(c.unmarshal, pre, b, post);
  }

  /** The claims a token parser returns, with the device replaced by `d`. */
  function WithDevice(claims: Option<Claims>, d: Uuid): Option<Claims>
  {
    match claims
    case None => None
    case Some(cl) => Some(cl.(deviceUUID := d))
  }

  /** The device carried by the token is discarded: the outcome is the same whatever device it names. */
  lemma TokenDeviceIgnored(c: Collaborators, r: Request, events: seq<FrameEvent>, firstId: Uuid, d: Uuid)
    ensures Handle(c.(parse := t => WithDevice(c.parse(t), d)), r, events, firstId) == Handle(c, r, events, firstId)
  {
  }

  /** A valid frame and then a disconnect: one publish on each topic, the key linked to the message. */
  lemma OneFrameThenDisconnect(c: Collaborators, r: Request, b: Bytes, req: MessageRequest, firstId: Uuid)
    requires Admit(c, r).Admitted? && c.unmarshal(b) == Some(req)
    ensures var log := Handle(c, r, [Frame(b), ReadErr], firstId).log;
      && |log| == 2
      && CountTopic(log, MessagesTopic) == 1 && CountTopic(log, MessageKeysTopic) == 1
      && Linked(Admit(c, r).conn, req, log[0], log[1])
  {
    var events := [Frame(b), ReadErr];
    assert events[1..] == [ReadErr];
    assert Decoded(c.unmarshal, events) == [req];
    PublishesPerTopic(Admit(c, r).conn, [req], firstId, MessagesTopic);
  }

  /** An undecodable blob followed by one valid frame: exactly one pair, and the session goes on. */
  lemma JunkThenValidFrame(c: Collaborators, r: Request, junk: Bytes, b: Bytes, req: MessageRequest, firstId: Uuid)
    requires Admit(c, r).Admitted? && c.unmarshal(junk).None? && c.unmarshal(b) == Some(req)
    ensures var resp := Handle(c, r, [Frame(junk), Frame(b)], firstId);
      && resp.upgraded && resp.closed
      && resp.log == PairFor(Admit(c, r).conn, req, firstId)
  {
    var events := [Frame(junk), Frame(b)];
    assert events[1..] == [Frame(b)] && events[1..][1..] == [];
    assert Decoded(c.unmarshal, events) == [req];
  }
}
