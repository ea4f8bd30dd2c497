/**
 * The order-chat relay as a state machine on values: the registry of joined
 * connections (`activeConnections`), Socket.IO's room membership, and the
 * effects each handler produces, in the order it produces them.
 */
module Protocol {
  import opened JsValues

  /** The transport's identifier of a live connection (`socket.id`). */
  type ConnId = string

  datatype Option<T> = None | Some(value: T)

  // Constants of the handlers.
  const RoomPrefix: string := "order_"
  const JoinFieldsRequired: string := "Order ID and User ID are required"
  const JoinBeforeSending: string := "Join a room before sending messages"
  const MessageRequired: string := "Message content is required"
  const HttpFieldsRequired: string := "Order ID, User ID, and message are required"
  const HttpSent: string := "Order message sent successfully"
  const DefaultType: string := "chat-message"
  const DefaultSocketPlatform: string := "web"
  const ServerPlatform: string := "server"
  const SocketMessageId: int := 0

  /** What `join_order_room` stores for a connection: `{room, userId, platform, type}`. */
  datatype Session = Session(room: string, userId: JsValue, platform: JsValue, msgType: JsValue)

  /** The payload of `join_order_room`; a property the client left out is `Undefined`. */
  datatype JoinRequest = JoinRequest(orderId: JsValue, userId: JsValue, platform: JsValue, msgType: JsValue)

  /** The body of `POST /api/send-order-message`. */
  datatype HttpBody = HttpBody(orderId: JsValue, userId: JsValue, message: JsValue, platform: JsValue, msgType: JsValue)

  /** `JSON.stringify({ message, sender_id })`, kept as the pair it encodes. */
  datatype Payload = Payload(message: JsValue, senderId: JsValue)

  /** The two shapes of a `new_order_message` event. Timestamps are milliseconds. */
  datatype OrderMessage =
    | SocketMessage(id: int, senderId: JsValue, msgType: JsValue, json: Payload, timestamp: int, platform: JsValue)
    | ServerMessage(serverId: string, room: string, userId: JsValue, message: JsValue,
                    msgType: JsValue, timestamp: int, platform: JsValue)

  /** Events emitted to the sending socket only. */
  datatype SenderEvent = Error(message: string) | JoinedOrderRoom(room: string, userId: JsValue)

  /** What a `send_order_message` acknowledgment callback receives. */
  datatype Ack = AckError(error: string) | AckSuccess

  datatype HttpResponse =
    | HttpError(status: nat, error: string)
    | HttpOk(status: nat, success: bool, message: string, data: OrderMessage)

  /** One observable effect of a handler. A broadcast names the room and the
      connections that are its members at the instant of the call. */
  datatype Effect =
    | ToSender(event: SenderEvent)
    | Broadcast(room: string, recipients: set<ConnId>, message: OrderMessage)
    | Acknowledge(ack: Ack)
    | Persist(record: OrderMessage)
    | Respond(response: HttpResponse)

  /** `activeConnections` together with the rooms' member sets, the latter as
      (room, connection) pairs. */
  datatype RelayState = RelayState(sessions: map<ConnId, Session>, membership: set<(string, ConnId)>)

  const EmptyState: RelayState := RelayState(map[], {})

  /** The registry's invariant: every joined connection is a member of the room
      its entry names, and every member of a room is a joined connection. */
  ghost predicate Valid(st: RelayState) {
    && (forall c :: c in st.sessions ==> (st.sessions[c].room, c) in st.membership)
    && (forall r, c :: (r, c) in st.membership ==> c in st.sessions)
  }

  function Lookup(st: RelayState, conn: ConnId): (s: Option<Session>)
    ensures s.Some? <==> conn in st.sessions
    ensures s.Some? ==> s.value == st.sessions[conn]
  {
    if conn in st.sessions then Some(st.sessions[conn]) else None
  }

  /** The connections `io.to(room)` reaches. */
  function Members(st: RelayState, room: string): (m: set<ConnId>)
    ensures forall c :: c in m <==> (room, c) in st.membership
  {
    set p | p in st.membership && p.0 == room :: p.1
  }

  /** The room of an order: `order_${orderId}`. */
  function RoomName(orderId: JsValue): (room: string)
    ensures |room| >= |RoomPrefix| && room[..|RoomPrefix|] == RoomPrefix
    ensures room[|RoomPrefix|..] == ToJsString(orderId)
  {
    RoomPrefix + ToJsString(orderId)
  }

  // ---------------------------------------------------------------- join

  datatype JoinResult = JoinResult(state: RelayState, effects: seq<Effect>)

  predicate JoinAccepted(req: JoinRequest) {
    Truthy(req.orderId) && Truthy(req.userId)
  }

  /** The `join_order_room` handler. */
  function JoinStep(st: RelayState, conn: ConnId, req: JoinRequest): (r: JoinResult)
    ensures |r.effects| == 1 && r.effects[0].ToSender?
  {
    if !JoinAccepted(req) then
      JoinResult(st, [ToSender(Error(JoinFieldsRequired))])
    else
      var room := RoomName(req.orderId);
      var st' := RelayState(st.sessions[conn := Session(room, req.userId, req.platform, req.msgType)],
                            st.membership + {(room, conn)});
      JoinResult(st', [ToSender(JoinedOrderRoom(room, req.userId))])
  }

  // ---------------------------------------------------------------- send

  /** The `messageData` record built for a socket message. */
  function SocketRecord(s: Session, message: JsValue, now: int): (m: OrderMessage)
    ensures m.SocketMessage? && m.id == SocketMessageId && m.timestamp == now
    ensures m.senderId == s.userId && m.json == Payload(message, s.userId)
    ensures Truthy(m.msgType) && Truthy(m.platform)
    ensures Truthy(s.msgType) ==> m.msgType == s.msgType
    ensures Truthy(s.platform) ==> m.platform == s.platform
    ensures !Truthy(s.msgType) ==> m.msgType == Str(DefaultType)
    ensures !Truthy(s.platform) ==> m.platform == Str(DefaultSocketPlatform)
  {
    SocketMessage(SocketMessageId, s.userId, Or(s.msgType, Str(DefaultType)),
                  Payload(message, s.userId), now, Or(s.platform, Str(DefaultSocketPlatform)))
  }

  /** `platform !== 'server'`, a strict comparison. */
  predicate PersistedPlatform(platform: JsValue)
    ensures PersistedPlatform(platform) <==> !(platform.Str? && platform.s == ServerPlatform)
  {
    platform != Str(ServerPlatform)
  }

  /** The `send_order_message` handler; `hasCallback` says whether the client
      passed an acknowledgment callback, `now` is the clock reading. */
  function SendStep(st: RelayState, conn: ConnId, message: JsValue, hasCallback: bool, now: int): (effects: seq<Effect>)
    ensures |effects| <= 3
    ensures |effects| > 0 && effects[0].Broadcast? <==> conn in st.sessions && Truthy(message)
    ensures forall i :: 0 < i < |effects| ==> !effects[i].Broadcast?
    ensures forall i :: 0 <= i < |effects| && effects[i].ToSender? ==> effects == [ToSender(Error(JoinBeforeSending))]
  {
    if conn !in st.sessions then
      [ToSender(Error(JoinBeforeSending))]
    else
      var info := st.sessions[conn];
      if !Truthy(message) then
        if hasCallback then [Acknowledge(AckError(MessageRequired))] else []
      else
        var record := SocketRecord(info, message, now);
        [Broadcast(info.room, Members(st, info.room), record)]
        + (if hasCallback then [Acknowledge(AckSuccess)] else [])
        + (if PersistedPlatform(info.platform) then [Persist(record)] else [])
  }

  // ---------------------------------------------------------------- disconnect

  /** The `disconnect` handler, together with Socket.IO's own removal of a
      closed socket from every room it was in. */
  function DisconnectStep(st: RelayState, conn: ConnId): (st': RelayState)
    ensures conn !in st'.sessions
    ensures st'.sessions.Keys == st.sessions.Keys - {conn}
    ensures forall c :: c != conn && c in st.sessions ==> st'.sessions[c] == st.sessions[c]
    ensures forall r, c :: (r, c) in st'.membership <==> (r, c) in st.membership && c != conn
  {
    var membership := set p | p in st.membership && p.1 != conn;
    if conn in st.sessions then RelayState(st.sessions - {conn}, membership)
    else RelayState(st.sessions, membership)
  }

  // ---------------------------------------------------------------- HTTP

  /** A destructuring default `{ x = d }`: it applies only to `undefined`. */
  function DefaultIfUndefined(v: JsValue, d: string): (r: JsValue)
    ensures v != Undefined ==> r == v
    ensures v == Undefined ==> r == Str(d)
    ensures r != Undefined
  {
    if v.Undefined? then Str(d) else v
  }

  /** The `/api/send-order-message` handler's response. `idNow` is the
      `Date.now()` reading, `stampNow` the `new Date()` one. */
  function HttpSendOrderMessage(body: HttpBody, idNow: int, stampNow: int): (resp: HttpResponse)
    ensures resp.HttpError? <==> !Truthy(body.orderId) || !Truthy(body.userId) || !Truthy(body.message)
    ensures resp.HttpError? ==> resp.status == 400 && resp.error == HttpFieldsRequired
    ensures resp.HttpOk? ==> resp.status == 200 && resp.success && resp.message == HttpSent && resp.data.ServerMessage?
  {
    var platform := DefaultIfUndefined(body.platform, ServerPlatform);
    var msgType := DefaultIfUndefined(body.msgType, DefaultType);
    if !Truthy(body.orderId) || !Truthy(body.userId) || !Truthy(body.message) then
      HttpError(400, HttpFieldsRequired)
    else
      var room := RoomName(body.orderId);
      var data := ServerMessage(NumberToString(idNow), room, body.userId, body.message, msgType, stampNow, platform);
      HttpOk(200, true, HttpSent, data)
  }

  /** Everything the HTTP handler does: on success it broadcasts to the room's
      current members, then responds. It reads the membership and changes nothing. */
  function HttpEffects(st: RelayState, body: HttpBody, idNow: int, stampNow: int): (effects: seq<Effect>)
    ensures 1 <= |effects| <= 2
    ensures effects[|effects| - 1] == Respond(HttpSendOrderMessage(body, idNow, stampNow))
    ensures |effects| == 2 <==> HttpSendOrderMessage(body, idNow, stampNow).HttpOk?
    ensures |effects| == 2 ==>
      var data := HttpSendOrderMessage(body, idNow, stampNow).data;
      effects[0] == Broadcast(data.room, Members(st, data.room), data)
  {
    var resp := HttpSendOrderMessage(body, idNow, stampNow);
    if resp.HttpError? then [Respond(resp)]
    else [Broadcast(resp.data.room, Members(st, resp.data.room), resp.data), Respond(resp)]
  }

  /** Whether a handler asked the store to save a message. */
  predicate RequestsPersistence(effects: seq<Effect>) {
    exists e :: e in effects && e.Persist?
  }
}
