/**
 * What the relay's handlers promise, proved about the transition functions
 * of module Protocol.
 */
module RelayProperties {
  import opened JsValues
  import opened Protocol

  // ---------------------------------------------------------------- rooms

  /** Two string order ids share a room only if they are the same id. */
  lemma RoomNameInjectiveOnStrings(a: string, b: string)
    ensures RoomName(Str(a)) == RoomName(Str(b)) ==> a == b
  {
  }

  /** Two numeric order ids share a room only if they are the same number. */
  lemma RoomNameInjectiveOnNumbers(m: int, n: int)
    ensures RoomName(Num(m)) == RoomName(Num(n)) ==> m == n
  {
    var rm, rn := RoomName(Num(m)), RoomName(Num(n));
    assert rm[|RoomPrefix|..] == NumberToString(m) && rn[|RoomPrefix|..] == NumberToString(n);
    NumberToStringInjective(m, n);
  }

  /** The numeric order id 42 and the string order id "42" name one room. */
  lemma NumericAndStringIdsShareRoom()
    ensures RoomName(Num(42)) == RoomName(Str("42")) == "order_42"
  {
  }

  // ---------------------------------------------------------------- invariant

  lemma JoinPreservesValid(st: RelayState, conn: ConnId, req: JoinRequest)
    requires Valid(st)
    ensures Valid(JoinStep(st, conn, req).state)
  {
  }

  lemma DisconnectPreservesValid(st: RelayState, conn: ConnId)
    requires Valid(st)
    ensures Valid(DisconnectStep(st, conn))
  {
  }

  // ---------------------------------------------------------------- join

  /** A join without a truthy order id or user id answers the sender with
      an error and changes neither the registry nor any room. */
  lemma JoinRejected(st: RelayState, conn: ConnId, req: JoinRequest)
    requires !Truthy(req.orderId) || !Truthy(req.userId)
    ensures JoinStep(st, conn, req).state == st
    ensures JoinStep(st, conn, req).effects == [ToSender(Error(JoinFieldsRequired))]
  {
  }

  /** A valid join records exactly the requested session under the
      connection (replacing any earlier one), adds the connection to its
      room and nothing else, and answers the sender with the room and user. */
  lemma JoinAcceptedRecordsSession(st: RelayState, conn: ConnId, req: JoinRequest)
    requires JoinAccepted(req)
    ensures var r := JoinStep(st, conn, req);
      && Lookup(r.state, conn) == Some(Session(RoomName(req.orderId), req.userId, req.platform, req.msgType))
      && (forall c :: c != conn ==> Lookup(r.state, c) == Lookup(st, c))
      && Members(r.state, RoomName(req.orderId)) == Members(st, RoomName(req.orderId)) + {conn}
      && (forall room :: room != RoomName(req.orderId) ==> Members(r.state, room) == Members(st, room))
      && r.effects == [ToSender(JoinedOrderRoom(RoomName(req.orderId), req.userId))]
  {
  }

  /** A join is accepted exactly when the order id and the user id are both
      truthy, and only an accepted join changes the state. */
  lemma JoinOutcomeIff(st: RelayState, conn: ConnId, req: JoinRequest)
    ensures JoinStep(st, conn, req).effects[0].event.JoinedOrderRoom? <==> Truthy(req.orderId) && Truthy(req.userId)
    ensures JoinStep(st, conn, req).state == st || JoinAccepted(req)
  {
  }

  /** The last valid join of a connection decides its registry entry,
      whatever the earlier join said. */
  lemma LastJoinWins(st: RelayState, conn: ConnId, first: JoinRequest, second: JoinRequest)
    requires JoinAccepted(second)
    ensures var st2 := JoinStep(JoinStep(st, conn, first).state, conn, second).state;
      Lookup(st2, conn) == Some(Session(RoomName(second.orderId), second.userId, second.platform, second.msgType))
  {
  }

  /** Re-joining with another order re-points the registry entry but does not
      take the connection out of the first room: it is then a member of both
      rooms (and receives both rooms' broadcasts) while the registry names one. */
  lemma RejoinKeepsEarlierRoom(st: RelayState, conn: ConnId, first: JoinRequest, second: JoinRequest)
    requires JoinAccepted(first) && JoinAccepted(second)
    requires RoomName(first.orderId) != RoomName(second.orderId)
    ensures var st2 := JoinStep(JoinStep(st, conn, first).state, conn, second).state;
      && Lookup(st2, conn).Some?
      && Lookup(st2, conn).value.room == RoomName(second.orderId)
      && conn in Members(st2, RoomName(first.orderId))
      && conn in Members(st2, RoomName(second.orderId))
  {
  }

  // ---------------------------------------------------------------- send

  /** A connection without a registry entry is told to join first; nothing
      is broadcast, acknowledged or persisted. */
  lemma SendBeforeJoin(st: RelayState, conn: ConnId, message: JsValue, hasCallback: bool, now: int)
    requires Lookup(st, conn).None?
    ensures SendStep(st, conn, message, hasCallback, now) == [ToSender(Error(JoinBeforeSending))]
    ensures !RequestsPersistence(SendStep(st, conn, message, hasCallback, now))
  {
  }

  /** A joined connection sending falsy content gets the error through its
      callback (if it passed one) and nothing else happens. */
  lemma SendEmptyMessage(st: RelayState, conn: ConnId, message: JsValue, hasCallback: bool, now: int)
    requires Lookup(st, conn).Some? && !Truthy(message)
    ensures SendStep(st, conn, message, hasCallback, now)
         == if hasCallback then [Acknowledge(AckError(MessageRequired))] else []
    ensures !RequestsPersistence(SendStep(st, conn, message, hasCallback, now))
  {
  }

  /** A successful send broadcasts one record to the stored room's current
      members first, then acknowledges success (if there is a callback), and
      any persistence request comes last and carries the very same record. */
  lemma SendDelivers(st: RelayState, conn: ConnId, message: JsValue, hasCallback: bool, now: int)
    requires Lookup(st, conn).Some? && Truthy(message)
    ensures var s := st.sessions[conn];
      var effects := SendStep(st, conn, message, hasCallback, now);
      && |effects| >= 1
      && effects[0].Broadcast?
      && effects[0].room == s.room
      && effects[0].recipients == Members(st, s.room)
      && effects[0].message == SocketMessage(0, s.userId, Or(s.msgType, Str("chat-message")),
                                             Payload(message, s.userId), now, Or(s.platform, Str("web")))
      && (forall i :: 0 < i < |effects| ==> !effects[i].Broadcast?)
      && (hasCallback <==> |effects| >= 2 && effects[1] == Acknowledge(AckSuccess))
      && (forall i :: 0 <= i < |effects| && effects[i].Persist? ==>
            i == |effects| - 1 && effects[i].record == effects[0].message)
      && |effects| == (if hasCallback then 2 else 1) + (if s.platform != Str("server") then 1 else 0)
      && (s.platform != Str("server") ==> effects[|effects| - 1] == Persist(effects[0].message))
  {
  }

  /** Persistence is requested exactly for a successful send whose stored
      platform is not the string "server". */
  lemma PersistIff(st: RelayState, conn: ConnId, message: JsValue, hasCallback: bool, now: int)
    ensures RequestsPersistence(SendStep(st, conn, message, hasCallback, now))
       <==> conn in st.sessions && Truthy(message) && st.sessions[conn].platform != Str("server")
  {
    var effects := SendStep(st, conn, message, hasCallback, now);
    if conn in st.sessions && Truthy(message) && st.sessions[conn].platform != Str("server") {
      assert effects[|effects| - 1].Persist?;
    }
  }

  /** A session joined without a platform is shown as "web" in the record
      and is persisted; one joined with platform "" is too. */
  lemma UnsetPlatformPersistedAsWeb(st: RelayState, conn: ConnId, message: JsValue, hasCallback: bool, now: int)
    requires Lookup(st, conn).Some? && Truthy(message)
    requires !Truthy(st.sessions[conn].platform)
    ensures var effects := SendStep(st, conn, message, hasCallback, now);
      && effects[0].message.platform == Str("web")
      && effects[|effects| - 1] == Persist(effects[0].message)
  {
  }

  /** The socket path does not exclude the sender: a joined sender is among
      the recipients of its own broadcast. */
  lemma SenderReceivesOwnBroadcast(st: RelayState, conn: ConnId, message: JsValue, hasCallback: bool, now: int)
    requires Valid(st) && Lookup(st, conn).Some? && Truthy(message)
    ensures conn in SendStep(st, conn, message, hasCallback, now)[0].recipients
  {
  }

  // ---------------------------------------------------------------- disconnect

  /** Disconnecting removes the registry entry and every room membership of
      the connection, and leaves every other connection as it was. */
  lemma DisconnectRemoves(st: RelayState, conn: ConnId)
    ensures var st' := DisconnectStep(st, conn);
      && Lookup(st', conn).None?
      && (forall room :: Members(st', room) == Members(st, room) - {conn})
      && (forall c :: c != conn ==> Lookup(st', c) == Lookup(st, c))
  {
  }

  /** Disconnecting a connection that never joined changes nothing. */
  lemma DisconnectUnknownIsNoop(st: RelayState, conn: ConnId)
    requires Valid(st) && conn !in st.sessions
    ensures DisconnectStep(st, conn) == st
  {
  }

  /** A second disconnect signal is a no-op. */
  lemma DisconnectIdempotent(st: RelayState, conn: ConnId)
    ensures DisconnectStep(DisconnectStep(st, conn), conn) == DisconnectStep(st, conn)
  {
  }

  // ---------------------------------------------------------------- HTTP

  /** A request missing a truthy order id, user id or message gets a 400 and
      nothing is broadcast. */
  lemma HttpRejected(st: RelayState, body: HttpBody, idNow: int, stampNow: int)
    requires !Truthy(body.orderId) || !Truthy(body.userId) || !Truthy(body.message)
    ensures HttpEffects(st, body, idNow, stampNow) == [Respond(HttpError(400, "Order ID, User ID, and message are required"))]
  {
  }

  /** A complete request broadcasts one server message to the members of
      `order_<orderId>` and returns it with a 200; the platform defaults to
      "server" and the type to "chat-message" only when left undefined. */
  lemma HttpAccepted(st: RelayState, body: HttpBody, idNow: int, stampNow: int)
    requires Truthy(body.orderId) && Truthy(body.userId) && Truthy(body.message)
    ensures var effects := HttpEffects(st, body, idNow, stampNow);
      var room := RoomName(body.orderId);
      var data := ServerMessage(NumberToString(idNow), room, body.userId, body.message,
                                if body.msgType == Undefined then Str("chat-message") else body.msgType,
                                stampNow,
                                if body.platform == Undefined then Str("server") else body.platform);
      effects == [Broadcast(room, Members(st, room), data),
                  Respond(HttpOk(200, true, "Order message sent successfully", data))]
  {
  }

  /** The HTTP path never asks the store to save anything, whatever the
      platform in the body says. */
  lemma HttpNeverPersists(st: RelayState, body: HttpBody, idNow: int, stampNow: int)
    ensures !RequestsPersistence(HttpEffects(st, body, idNow, stampNow))
  {
  }

  /** A connection joined to an order's room receives what the backend posts
      for that order. */
  lemma HttpReachesJoinedConnections(st: RelayState, conn: ConnId, body: HttpBody, idNow: int, stampNow: int)
    requires Valid(st) && conn in st.sessions && st.sessions[conn].room == RoomName(body.orderId)
    requires Truthy(body.orderId) && Truthy(body.userId) && Truthy(body.message)
    ensures var effects := HttpEffects(st, body, idNow, stampNow);
      effects[0].Broadcast? && conn in effects[0].recipients
  {
  }
}
