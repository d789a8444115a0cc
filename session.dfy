/**
 * The read loop of an admitted connection, as a specification: which frames are
 * decoded (`Decoded`) and what is published for them (`Pairs`).
 */
module Session {
  import opened Wrappers
  import opened Models
  import opened Records

  /** One result of reading the connection: a transport error (a disconnect included) or a data frame. */
  datatype FrameEvent = ReadErr | Frame(payload: Bytes)

  /** The JSON decoder, an opaque partial function from bytes to a request. */
  type Unmarshal = Bytes -> Option<MessageRequest>

  /** The requests a single frame contributes: none when it does not decode, else the decoded one. */
  function FrameRequests(unmarshal: Unmarshal, b: Bytes): seq<MessageRequest>
  {
    match unmarshal(b)
    case None => []
    case Some(req) => [req]
  }

  /**
   * The requests the loop acts on, in arrival order: frames that fail to decode
   * are skipped, and nothing at or after the first read error is looked at.
   */
  function Decoded(unmarshal: Unmarshal, events: seq<FrameEvent>): (reqs: seq<MessageRequest>)
    ensures |reqs| <= |events|
  {
    if events == [] then []
    else match events[0]
      case ReadErr => []
      case Frame(b) => FrameRequests(unmarshal, b) + Decoded(unmarshal, events[1..])
  }

  /**
   * The publish log for requests `reqs` on connection `conn` when the id generator
   * starts at `firstId`: one message/key pair per request, in order.
   */
  function Pairs(conn: Connection, reqs: seq<MessageRequest>, firstId: Uuid): (log: seq<Publish>)
    ensures |log| == 2 * |reqs|
    decreases |reqs|
  {
    if reqs == [] then [] else PairFor(conn, reqs[0], firstId) + Pairs(conn, reqs[1..], firstId + 2)
  }

  /** The number of publishes on `topic`. */
  function CountTopic(log: seq<Publish>, topic: string): nat
  {
    if log == [] then 0 else (if log[0].topic == topic then 1 else 0) + CountTopic(log[1..], topic)
  }

  // ---------------------------------------------------------------------------
  // Stop on a transport error, skip on a decode error

  /** Before any read error, decoding distributes over concatenation. */
  lemma {:induction false} DecodedAppend(unmarshal: Unmarshal, pre: seq<FrameEvent>, post: seq<FrameEvent>)
    requires ReadErr !in pre
    ensures Decoded(unmarshal, pre + post) == Decoded(unmarshal, pre) + Decoded(unmarshal, post)
  {
    if pre == [] {
      assert pre + post == post;
    } else {
      assert (pre + post)[0] == pre[0];
      assert (pre + post)[1..] == pre[1..] + post;
      DecodedAppend(unmarshal, pre[1..], post);
    }
  }

  /** The first read error ends the session: nothing after it is decoded. */
  lemma {:induction false} ReadErrorEndsSession(unmarshal: Unmarshal, pre: seq<FrameEvent>, post: seq<FrameEvent>)
    ensures Decoded(unmarshal, pre + [ReadErr] + post) == Decoded(unmarshal, pre)
  {
    var events := pre + [ReadErr] + post;
    if pre == [] {
      assert events[0] == ReadErr;
    } else {
      assert events[0] == pre[0];
      if pre[0] != ReadErr {
        assert events[1..] == pre[1..] + [ReadErr] + post;
        ReadErrorEndsSession(unmarshal, pre[1..], post);
      }
    }
  }

  /** A frame that fails to decode can be removed without changing what is decoded. */
  lemma {:induction false} UndecodableFrameSkipped(unmarshal: Unmarshal, pre: seq<FrameEvent>, b: Bytes, post: seq<FrameEvent>)
    requires unmarshal(b).None?
    ensures Decoded(unmarshal, pre + [Frame(b)] + post) == Decoded(unmarshal, pre + post)
  {
    var events := pre + [Frame(b)] + post;
    if pre == [] {
      assert events[0] == Frame(b) && events[1..] == post;
      assert pre + post == post;
    } else {
      assert events[0] == pre[0] && (pre + post)[0] == pre[0];
      assert events[1..] == pre[1..] + [Frame(b)] + post;
      assert (pre + post)[1..] == pre[1..] + post;
      UndecodableFrameSkipped(unmarshal, pre[1..], b, post);
    }
  }

  /** One more frame read while the connection is still open adds at most its own request. */
  lemma DecodedSnoc(unmarshal: Unmarshal, pre: seq<FrameEvent>, b: Bytes)
    requires ReadErr !in pre
    ensures Decoded(unmarshal, pre + [Frame(b)]) == Decoded(unmarshal, pre) + FrameRequests(unmarshal, b)
  {
    DecodedAppend(unmarshal, pre, [Frame(b)]);
    assert Decoded(unmarshal, [Frame(b)]) == FrameRequests(unmarshal, b) + Decoded(unmarshal, []);
  }

  // ---------------------------------------------------------------------------
  // Shape of the publish log

  /** The log of a longer request list extends the log of its prefix, ids continuing where they left off. */
  lemma {:induction false} PairsAppend(conn: Connection, a: seq<MessageRequest>, b: seq<MessageRequest>, firstId: Uuid)
    ensures Pairs(conn, a + b, firstId) == Pairs(conn, a, firstId) + Pairs(conn, b, firstId + 2 * |a|)
  {
    if a == [] {
      assert a + b == b;
    } else {
      assert (a + b)[0] == a[0];
      assert (a + b)[1..] == a[1..] + b;
      PairsAppend(conn, a[1..], b, firstId + 2);
    }
  }

  /** The k-th request yields entries 2k and 2k+1, with ids firstId + 2k and firstId + 2k + 1. */
  lemma {:induction false} PairAt(conn: Connection, reqs: seq<MessageRequest>, firstId: Uuid, k: nat)
    requires k < |reqs|
    ensures Pairs(conn, reqs, firstId)[2 * k] == PairFor(conn, reqs[k], firstId + 2 * k)[0]
    ensures Pairs(conn, reqs, firstId)[2 * k + 1] == PairFor(conn, reqs[k], firstId + 2 * k)[1]
  {
    var log := Pairs(conn, reqs, firstId);
    assert log == PairFor(conn, reqs[0], firstId) + Pairs(conn, reqs[1..], firstId + 2);
    if k > 0 {
      PairAt(conn, reqs[1..], firstId + 2, k - 1);
    }
  }

  /**
   * Entry i of the log: even entries are messages on "messages", odd entries keys on
   * "message_keys", and the generator's ids appear in log order.
   */
  lemma LogEntryAt(conn: Connection, reqs: seq<MessageRequest>, firstId: Uuid, i: nat)
    requires i < 2 * |reqs|
    ensures IdOf(Pairs(conn, reqs, firstId)[i]) == firstId + i
    ensures i % 2 == 0 ==> Linked(conn, reqs[i / 2], Pairs(conn, reqs, firstId)[i], Pairs(conn, reqs, firstId)[i + 1])
    ensures i % 2 == 1 ==> Linked(conn, reqs[i / 2], Pairs(conn, reqs, firstId)[i - 1], Pairs(conn, reqs, firstId)[i])
  {
    PairAt(conn, reqs, firstId, i / 2);
  }

  /** Each pair is linked: the key at 2k+1 references the message at 2k, both built from request k. */
  lemma {:induction false} PairsLinked(conn: Connection, reqs: seq<MessageRequest>, firstId: Uuid)
    ensures forall k :: 0 <= k < |reqs| ==>
      Linked(conn, reqs[k], Pairs(conn, reqs, firstId)[2 * k], Pairs(conn, reqs, firstId)[2 * k + 1])
  {
    forall k | 0 <= k < |reqs|
      ensures Linked(conn, reqs[k], Pairs(conn, reqs, firstId)[2 * k], Pairs(conn, reqs, firstId)[2 * k + 1])
    {
      PairAt(conn, reqs, firstId, k);
    }
  }

  /** With a fresh-id generator, every record published on a connection has its own identifier. */
  lemma {:induction false} IdsDistinct(conn: Connection, reqs: seq<MessageRequest>, firstId: Uuid)
    ensures var log := Pairs(conn, reqs, firstId);
      forall i, j :: 0 <= i < j < |log| ==> IdOf(log[i]) != IdOf(log[j])
    ensures var log := Pairs(conn, reqs, firstId);
      forall i :: 0 <= i < |log| ==> IdOf(log[i]) >= firstId
  {
    var log := Pairs(conn, reqs, firstId);
    forall i | 0 <= i < |log| ensures IdOf(log[i]) == firstId + i {
      LogEntryAt(conn, reqs, firstId, i);
    }
  }

  /** Every message published on a connection carries the connection's room and user. */
  lemma {:induction false} ConnectionConstant(conn: Connection, reqs: seq<MessageRequest>, firstId: Uuid)
    ensures var log := Pairs(conn, reqs, firstId);
      forall i :: 0 <= i < |log| && log[i].record.Message? ==>
        log[i].record.message.roomUUID == conn.roomUUID && log[i].record.message.senderUUID == Some(conn.userUUID)
  {
    var log := Pairs(conn, reqs, firstId);
    forall i | 0 <= i < |log| && log[i].record.Message?
      ensures log[i].record.message.roomUUID == conn.roomUUID && log[i].record.message.senderUUID == Some(conn.userUUID)
    {
      LogEntryAt(conn, reqs, firstId, i);
    }
  }

  lemma {:induction false} CountTopicAppend(a: seq<Publish>, b: seq<Publish>, topic: string)
    ensures CountTopic(a + b, topic) == CountTopic(a, topic) + CountTopic(b, topic)
  {
    if a == [] {
      assert a + b == b;
    } else {
      assert (a + b)[0] == a[0];
      assert (a + b)[1..] == a[1..] + b;
      CountTopicAppend(a[1..], b, topic);
    }
  }

  /** N requests give exactly N publishes on "messages" and N on "message_keys", and no other topic. */
  lemma {:induction false} PublishesPerTopic(conn: Connection, reqs: seq<MessageRequest>, firstId: Uuid, topic: string)
    ensures CountTopic(Pairs(conn, reqs, firstId), MessagesTopic) == |reqs|
    ensures CountTopic(Pairs(conn, reqs, firstId), MessageKeysTopic) == |reqs|
    ensures topic != MessagesTopic && topic != MessageKeysTopic ==> CountTopic(Pairs(conn, reqs, firstId), topic) == 0
  {
    if reqs != [] {
      var pair := PairFor(conn, reqs[0], firstId);
      var rest := Pairs(conn, reqs[1..], firstId + 2);
      PublishesPerTopic(conn, reqs[1..], firstId + 2, topic);
      CountTopicAppend(pair, rest, MessagesTopic);
      CountTopicAppend(pair, rest, MessageKeysTopic);
      CountTopicAppend(pair, rest, topic);
      assert pair[1..][1..] == [];
    }
  }
}
