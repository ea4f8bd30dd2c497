/**
 * The relay process's shared state and its socket and HTTP handlers, as a
 * class whose fields the handlers update in place.
 */
module RelayServer {
  import opened JsValues
  import opened Protocol
  import RelayProperties

  class Relay {
    /** `activeConnections`: connection id to its joined session. */
    var sessions: map<ConnId, Session>
    /** Socket.IO's rooms, as (room, connection) pairs. */
    var membership: set<(string, ConnId)>

    function State(): RelayState
      reads this
    {
      RelayState(sessions, membership)
    }

    ghost predicate Valid()
      reads this
    {
      Protocol.Valid(State())
    }

    constructor ()
      ensures Valid() && State() == EmptyState
    {
      sessions := map[];
      membership := {};
    }

    /** The connections a broadcast to `room` reaches now. */
    function RoomMembers(room: string): (m: set<ConnId>)
      reads this
      ensures forall c :: c in m <==> (room, c) in membership
    {
      Members(State(), room)
    }

    /** `join_order_room` from connection `conn`. */
    method JoinOrderRoom(conn: ConnId, req: JoinRequest) returns (effects: seq<Effect>)
      requires Valid()
      modifies this
      ensures Valid()
      ensures JoinResult(State(), effects) == JoinStep(old(State()), conn, req)
    {
      RelayProperties.JoinPreservesValid(State(), conn, req);
      if !JoinAccepted(req) {
        effects := [ToSender(Error(JoinFieldsRequired))];
        return;
      }
      var room := RoomName(req.orderId);
      membership := membership + {(room, conn)};
      sessions := sessions[conn := Session(room, req.userId, req.platform, req.msgType)];
      effects := [ToSender(JoinedOrderRoom(room, req.userId))];
    }

    /** `send_order_message` from connection `conn`. It reads the registry
        and the rooms and changes neither. */
    method SendOrderMessage(conn: ConnId, message: JsValue, hasCallback: bool, now: int)
      returns (effects: seq<Effect>)
      ensures effects == SendStep(State(), conn, message, hasCallback, now)
    {
      if conn !in sessions {
        effects := [ToSender(Error(JoinBeforeSending))];
        return;
      }
      var info := sessions[conn];
      if !Truthy(message) {
        effects := if hasCallback then [Acknowledge(AckError(MessageRequired))] else [];
        return;
      }
      var record := SocketRecord(info, message, now);
      effects := [Broadcast(info.room, RoomMembers(info.room), record)];
      if hasCallback {
        effects := effects + [Acknowledge(AckSuccess)];
      }
      if PersistedPlatform(info.platform) {
        effects := effects + [Persist(record)];
      }
    }

    /** `disconnect` of connection `conn`. */
    method Disconnect(conn: ConnId)
      requires Valid()
      modifies this
      ensures Valid()
      ensures State() == DisconnectStep(old(State()), conn)
    {
      RelayProperties.DisconnectPreservesValid(State(), conn);
      if conn in sessions {
        sessions := sessions - {conn};
      }
      membership := set p | p in membership && p.1 != conn;
    }

    /** `POST /api/send-order-message`. It reads the rooms and changes nothing. */
    method PostSendOrderMessage(body: HttpBody, idNow: int, stampNow: int) returns (effects: seq<Effect>)
      ensures effects == HttpEffects(State(), body, idNow, stampNow)
    {
      var resp := HttpSendOrderMessage(body, idNow, stampNow);
      if resp.HttpError? {
        effects := [Respond(resp)];
        return;
      }
      effects := [Broadcast(resp.data.room, RoomMembers(resp.data.room), resp.data), Respond(resp)];
    }
  }

  /** Two clients join order "42"; the first says "hi". Both receive the
      message from "u1", the first gets its acknowledgment, and the message
      is handed to the store with platform "web". */
  method TwoClientsChat(a: ConnId, b: ConnId, now: int) returns (effects: seq<Effect>)
    requires a != b
    ensures var record := SocketMessage(0, Str("u1"), Str("chat-message"), Payload(Str("hi"), Str("u1")), now, Str("web"));
      effects == [Broadcast("order_42", {a, b}, record), Acknowledge(AckSuccess), Persist(record)]
  {
    var relay := new Relay();
    var joinedA := relay.JoinOrderRoom(a, JoinRequest(Str("42"), Str("u1"), Undefined, Undefined));
    var joinedB := relay.JoinOrderRoom(b, JoinRequest(Str("42"), Str("u2"), Undefined, Undefined));
    assert relay.sessions[a].room == "order_42";
    assert relay.RoomMembers("order_42") == {a, b};
    effects := relay.SendOrderMessage(a, Str("hi"), true, now);
  }
}
