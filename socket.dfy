/**
 * The real-time layer: a server that must be initialised before it emits,
 * a token check on every handshake, one personal room per connection, any
 * number of transaction rooms, and emit helpers that reach exactly one room.
 * Delivery is modelled as appending the message to the inbox of every
 * socket it reaches.
 */
module Socket {
  import opened Common

  /** An event payload: a plain object. Dates are carried as millisecond numbers. */
  type Payload = map<string, JVal>

  datatype Message = Message(event: string, data: Payload)

  /** The verified token's claims the handshake reads. */
  datatype Session = Session(sub: JVal, userId: JVal, sid: JVal)

  function UserRoom(userId: string): (r: string)
    ensures StartsWith(r, "user:")
  {
    "user:" + userId
  }

  function TransactionRoom(transactionId: string): (r: string)
    ensures StartsWith(r, "transaction:")
  {
    "transaction:" + transactionId
  }

  /** Room names determine what they were built from, and the two kinds never meet. */
  lemma RoomNamesDistinct(a: string, b: string)
    ensures UserRoom(a) == UserRoom(b) ==> a == b
    ensures TransactionRoom(a) == TransactionRoom(b) ==> a == b
    ensures UserRoom(a) != TransactionRoom(b)
  {
    assert UserRoom(a)[0] == 'u' && TransactionRoom(b)[0] == 't';
    if UserRoom(a) == UserRoom(b) {
      assert a == UserRoom(a)[5..] && b == UserRoom(b)[5..];
    }
    if TransactionRoom(a) == TransactionRoom(b) {
      assert a == TransactionRoom(a)[12..] && b == TransactionRoom(b)[12..];
    }
  }

  /** Whether an emit to `room` that skips `sender` reaches socket `s`. */
  predicate Reaches(rooms: map<nat, set<string>>, s: nat, room: string, sender: Option<nat>)
  {
    s in rooms && room in rooms[s] && sender != Some(s)
  }

  /**
   * `io.to(room).emit(...)` (no sender) or `socket.to(room).emit(...)`:
   * the message is appended for the room's members and for no one else.
   */
  function Deliver(inbox: map<nat, seq<Message>>, rooms: map<nat, set<string>>, room: string,
                   sender: Option<nat>, m: Message): (r: map<nat, seq<Message>>)
    ensures r.Keys == inbox.Keys
    ensures forall s :: s in inbox && Reaches(rooms, s, room, sender) ==> r[s] == inbox[s] + [m]
    ensures forall s :: s in inbox && !Reaches(rooms, s, room, sender) ==> r[s] == inbox[s]
  {
    map s | s in inbox :: if Reaches(rooms, s, room, sender) then inbox[s] + [m] else inbox[s]
  }

  /** `{id: Date.now().toString(), timestamp: new Date(), ...notification}`. */
  function NotificationData(notification: Payload, now: nat): (d: Payload)
    ensures d.Keys == notification.Keys + {"id", "timestamp"}
    ensures forall k :: k in notification ==> d[k] == notification[k]
    ensures "id" !in notification ==> d["id"] == JStr(NatToString(now))
    ensures "timestamp" !in notification ==> d["timestamp"] == JNum(now)
  {
    map["id" := JStr(NatToString(now)), "timestamp" := JNum(now)] + notification
  }

  /** `{transactionId, status, timestamp: new Date(), ...additionalData}`. */
  function StatusChangeData(transactionId: string, status: JVal, additional: Payload, now: int): (d: Payload)
    ensures d.Keys == additional.Keys + {"transactionId", "status", "timestamp"}
    ensures forall k :: k in additional ==> d[k] == additional[k]
    ensures "status" !in additional ==> d["status"] == status
    ensures "transactionId" !in additional ==> d["transactionId"] == JStr(transactionId)
  {
    map["transactionId" := JStr(transactionId), "status" := status, "timestamp" := JNum(now)] + additional
  }

  /** `{transactionId, ...paymentData, timestamp: new Date()}`: the timestamp always wins. */
  function PaymentUpdateData(transactionId: string, paymentData: Payload, now: int): (d: Payload)
    ensures d.Keys == paymentData.Keys + {"transactionId", "timestamp"}
    ensures d["timestamp"] == JNum(now)
    ensures forall k :: k in paymentData && k != "timestamp" ==> d[k] == paymentData[k]
    ensures "transactionId" !in paymentData ==> d["transactionId"] == JStr(transactionId)
  {
    (map["transactionId" := JStr(transactionId)] + paymentData)["timestamp" := JNum(now)]
  }

  datatype Connection = Connected(socket: nat) | Rejected(reason: string)

  /** The handshake middleware's decision, before any room is joined. */
  function Handshake(token: JVal, session: Option<Session>): (r: Option<string>)
    ensures !Truthy(token) ==> r == Some("Authentication token required")
    ensures Truthy(token) && session.None? ==> r == Some("Invalid authentication token")
    ensures r.None? <==> Truthy(token) && session.Some?
  {
    if !Truthy(token) then Some("Authentication token required")
    else if session.None? then Some("Invalid authentication token")
    else None
  }

  datatype IoHandle = Io | NotInitialized(message: string)

  /**
   * Every room a socket is in is its own personal room or a transaction
   * room: it is put in the first on connection and only ever joins the others.
   */
  predicate RoomsShaped(rooms: map<nat, set<string>>, userOf: map<nat, JVal>)
  {
    forall s, r :: s in rooms && s in userOf && r in rooms[s] ==>
      r == UserRoom(Render(userOf[s])) || StartsWith(r, "transaction:")
  }

  /** Joining a transaction room keeps the rooms' shape. */
  lemma JoinKeepsShape(rooms: map<nat, set<string>>, userOf: map<nat, JVal>, s: nat, room: string)
    requires RoomsShaped(rooms, userOf) && s in rooms && StartsWith(room, "transaction:")
    ensures RoomsShaped(rooms[s := rooms[s] + {room}], userOf)
  {
  }

  /**
   * Leaving a transaction room keeps the rooms' shape and every socket's
   * personal room, whose name is never a transaction room's.
   */
  lemma LeaveKeepsShape(rooms: map<nat, set<string>>, userOf: map<nat, JVal>, s: nat, transactionId: string)
    requires RoomsShaped(rooms, userOf) && s in rooms && rooms.Keys == userOf.Keys
    requires forall t :: t in rooms ==> UserRoom(Render(userOf[t])) in rooms[t]
    ensures var after := rooms[s := rooms[s] - {TransactionRoom(transactionId)}];
      && RoomsShaped(after, userOf)
      && forall t :: t in after ==> UserRoom(Render(userOf[t])) in after[t]
  {
    forall t | t in rooms
      ensures UserRoom(Render(userOf[t])) != TransactionRoom(transactionId)
    {
      RoomNamesDistinct(Render(userOf[t]), transactionId);
    }
  }

  /** The socket server singleton and the sockets connected to it. */
  class SocketServer {
    /** `io !== null`. */
    var initialized: bool
    /** `socket.userId` of each connected socket. */
    var userOf: map<nat, JVal>
    var rooms: map<nat, set<string>>
    var inbox: map<nat, seq<Message>>
    var nextId: nat

    /**
     * Every socket is registered in all three maps, ids are below the next
     * one to hand out, every socket stays in its personal room, and its other
     * rooms are all transaction rooms.
     */
    ghost predicate Valid()
      reads this
    {
      && rooms.Keys == userOf.Keys && inbox.Keys == userOf.Keys
      && (forall s :: s in userOf ==> s < nextId)
      && (forall s :: s in rooms ==> UserRoom(Render(userOf[s])) in rooms[s])
      && RoomsShaped(rooms, userOf)
      && (!initialized ==> userOf == map[])
    }

    /** The module as loaded: `io = null`. */
    constructor ()
      ensures Valid() && !initialized && userOf == map[] && nextId == 0
    {
      initialized := false;
      userOf, rooms, inbox := map[], map[], map[];
      nextId := 0;
    }

    /** `initializeSocket(server)`: a new server, with no sockets connected to it yet. */
    method Initialize()
      modifies this
      ensures Valid() && initialized
      ensures userOf == map[] && rooms == map[] && inbox == map[] && nextId == old(nextId)
    {
      initialized := true;
      userOf, rooms, inbox := map[], map[], map[];
    }

    /** `getIO()`: the server, or the error thrown before initialisation. */
    method GetIO() returns (r: IoHandle)
      ensures r.Io? <==> initialized
      ensures r.NotInitialized? ==> r.message == "Socket.io not initialized. Call initializeSocket first."
    {
      if !initialized {
        return NotInitialized("Socket.io not initialized. Call initializeSocket first.");
      }
      r := Io;
    }

    /**
     * A client handshake: rejected without a token or with one that fails
     * verification; otherwise the socket joins exactly its personal room.
     */
    method Connect(token: JVal, session: Option<Session>) returns (r: Connection)
      requires Valid() && initialized
      modifies this
      ensures Valid() && initialized
      ensures Handshake(token, session).Some? ==>
        r == Rejected(Handshake(token, session).value) && userOf == old(userOf) && rooms == old(rooms)
        && inbox == old(inbox) && nextId == old(nextId)
      ensures Handshake(token, session).None? ==>
        var id := Or(session.value.sub, session.value.userId);
        r == Connected(old(nextId)) && old(nextId) !in old(userOf)
        && userOf == old(userOf)[old(nextId) := id]
        && rooms == old(rooms)[old(nextId) := {UserRoom(Render(id))}]
        && inbox == old(inbox)[old(nextId) := []] && nextId == old(nextId) + 1
    {
      var reason := Handshake(token, session);
      if reason.Some? {
        return Rejected(reason.value);
      }
      var id := Or(session.value.sub, session.value.userId);
      r := Connected(nextId);
      userOf := userOf[nextId := id];
      rooms := rooms[nextId := {UserRoom(Render(id))}];
      inbox := inbox[nextId := []];
      nextId := nextId + 1;
    }

    /**
     * `join-transaction`: no access check; the socket joins the room and the
     * room's other members are told.
     */
    method JoinTransaction(s: nat, transactionId: JVal, now: int)
      requires Valid() && s in rooms
      modifies this
      ensures Valid()
      ensures var room := TransactionRoom(Render(transactionId));
        && rooms == old(rooms)[s := old(rooms)[s] + {room}]
        && inbox == Deliver(old(inbox), rooms, room, Some(s),
             Message("user-joined-transaction",
               map["userId" := userOf[s], "transactionId" := transactionId, "timestamp" := JNum(now)]))
      ensures userOf == old(userOf) && initialized == old(initialized) && nextId == old(nextId)
    {
      var room := TransactionRoom(Render(transactionId));
      JoinKeepsShape(rooms, userOf, s, room);
      rooms := rooms[s := rooms[s] + {room}];
      inbox := Deliver(inbox, rooms, room, Some(s),
        Message("user-joined-transaction",
          map["userId" := userOf[s], "transactionId" := transactionId, "timestamp" := JNum(now)]));
    }

    /**
     * `leave-transaction`: the socket leaves the room (never its personal
     * room, whose name cannot be a transaction room) and the rest are told.
     */
    method LeaveTransaction(s: nat, transactionId: JVal, now: int)
      requires Valid() && s in rooms
      modifies this
      ensures Valid()
      ensures var room := TransactionRoom(Render(transactionId));
        && rooms == old(rooms)[s := old(rooms)[s] - {room}]
        && inbox == Deliver(old(inbox), rooms, room, Some(s),
             Message("user-left-transaction",
               map["userId" := userOf[s], "transactionId" := transactionId, "timestamp" := JNum(now)]))
      ensures userOf == old(userOf) && initialized == old(initialized) && nextId == old(nextId)
    {
      var room := TransactionRoom(Render(transactionId));
      LeaveKeepsShape(rooms, userOf, s, Render(transactionId));
      rooms := rooms[s := rooms[s] - {room}];
      inbox := Deliver(inbox, rooms, room, Some(s),
        Message("user-left-transaction",
          map["userId" := userOf[s], "transactionId" := transactionId, "timestamp" := JNum(now)]));
    }

    /** `typing` / `stop-typing`: relayed to the room's other members only. */
    method Typing(s: nat, transactionId: JVal, stopped: bool)
      requires Valid() && s in rooms
      modifies this
      ensures Valid()
      ensures rooms == old(rooms) && userOf == old(userOf) && initialized == old(initialized) && nextId == old(nextId)
      ensures inbox == Deliver(old(inbox), rooms, TransactionRoom(Render(transactionId)), Some(s),
        Message(if stopped then "user-stopped-typing" else "user-typing",
          map["userId" := userOf[s], "transactionId" := transactionId]))
    {
      inbox := Deliver(inbox, rooms, TransactionRoom(Render(transactionId)), Some(s),
        Message(if stopped then "user-stopped-typing" else "user-typing",
          map["userId" := userOf[s], "transactionId" := transactionId]));
    }

    /** Emit to one room from the server; nothing happens before initialisation. */
    method EmitToRoom(room: string, m: Message)
      requires Valid()
      modifies this
      ensures Valid()
      ensures inbox == (if old(initialized) then Deliver(old(inbox), rooms, room, None, m) else old(inbox))
      ensures rooms == old(rooms) && userOf == old(userOf) && initialized == old(initialized) && nextId == old(nextId)
    {
      if !initialized {
        return;
      }
      inbox := Deliver(inbox, rooms, room, None, m);
    }

    /** `emitToTransaction(transactionId, event, data)`. */
    method EmitToTransaction(transactionId: string, event: string, data: Payload)
      requires Valid()
      modifies this
      ensures Valid()
      ensures inbox == (if old(initialized) then Deliver(old(inbox), rooms, TransactionRoom(transactionId), None, Message(event, data)) else old(inbox))
      ensures rooms == old(rooms) && userOf == old(userOf) && initialized == old(initialized) && nextId == old(nextId)
    {
      EmitToRoom(TransactionRoom(transactionId), Message(event, data));
    }

    /** `emitToUser(userId, event, data)`. */
    method EmitToUser(userId: string, event: string, data: Payload)
      requires Valid()
      modifies this
      ensures Valid()
      ensures inbox == (if old(initialized) then Deliver(old(inbox), rooms, UserRoom(userId), None, Message(event, data)) else old(inbox))
      ensures rooms == old(rooms) && userOf == old(userOf) && initialized == old(initialized) && nextId == old(nextId)
      ensures forall s :: s in inbox && Render(userOf[s]) != userId ==> inbox[s] == old(inbox)[s]
    {
      EmitToRoom(UserRoom(userId), Message(event, data));
      forall s | s in inbox && Render(userOf[s]) != userId
        ensures inbox[s] == old(inbox)[s]
      {
        if old(initialized) {
          UserEmitIsolated(old(inbox), rooms, userOf, userId, Message(event, data), s);
        }
      }
    }

    /** `sendNotification(userId, notification)`. */
    method SendNotification(userId: string, notification: Payload, now: nat)
      requires Valid()
      modifies this
      ensures Valid()
      ensures inbox == (if old(initialized)
        then Deliver(old(inbox), rooms, UserRoom(userId), None, Message("notification", NotificationData(notification, now)))
        else old(inbox))
      ensures rooms == old(rooms) && userOf == old(userOf) && initialized == old(initialized) && nextId == old(nextId)
    {
      EmitToRoom(UserRoom(userId), Message("notification", NotificationData(notification, now)));
    }

    /** `emitTransactionUpdate(transactionId, transaction)`. */
    method EmitTransactionUpdate(transactionId: string, transaction: JVal, now: int)
      requires Valid()
      modifies this
      ensures Valid()
      ensures inbox == (if old(initialized)
        then Deliver(old(inbox), rooms, TransactionRoom(transactionId), None,
          Message("transaction-updated",
            map["transactionId" := JStr(transactionId), "transaction" := transaction, "timestamp" := JNum(now)]))
        else old(inbox))
      ensures rooms == old(rooms) && userOf == old(userOf) && initialized == old(initialized) && nextId == old(nextId)
    {
      EmitToRoom(TransactionRoom(transactionId), Message("transaction-updated",
        map["transactionId" := JStr(transactionId), "transaction" := transaction, "timestamp" := JNum(now)]));
    }

    /** `emitStatusChange(transactionId, status, additionalData)`. */
    method EmitStatusChange(transactionId: string, status: JVal, additional: Payload, now: int)
      requires Valid()
      modifies this
      ensures Valid()
      ensures inbox == (if old(initialized)
        then Deliver(old(inbox), rooms, TransactionRoom(transactionId), None,
          Message("transaction-status-changed", StatusChangeData(transactionId, status, additional, now)))
        else old(inbox))
      ensures rooms == old(rooms) && userOf == old(userOf) && initialized == old(initialized) && nextId == old(nextId)
    {
      EmitToRoom(TransactionRoom(transactionId),
        Message("transaction-status-changed", StatusChangeData(transactionId, status, additional, now)));
    }

    /** `emitPaymentUpdate(transactionId, paymentData)`. */
    method EmitPaymentUpdate(transactionId: string, paymentData: Payload, now: int)
      requires Valid()
      modifies this
      ensures Valid()
      ensures inbox == (if old(initialized)
        then Deliver(old(inbox), rooms, TransactionRoom(transactionId), None,
          Message("payment-updated", PaymentUpdateData(transactionId, paymentData, now)))
        else old(inbox))
      ensures rooms == old(rooms) && userOf == old(userOf) && initialized == old(initialized) && nextId == old(nextId)
    {
      EmitToRoom(TransactionRoom(transactionId),
        Message("payment-updated", PaymentUpdateData(transactionId, paymentData, now)));
    }

    /** `broadcast(event, data)`: every connected socket once initialised. */
    method Broadcast(event: string, data: Payload)
      requires Valid()
      modifies this
      ensures Valid()
      ensures old(initialized) ==> inbox == (map s | s in old(inbox) :: old(inbox)[s] + [Message(event, data)])
      ensures !old(initialized) ==> inbox == old(inbox)
      ensures rooms == old(rooms) && userOf == old(userOf) && initialized == old(initialized) && nextId == old(nextId)
    {
      if !initialized {
        return;
      }
      inbox := map s | s in inbox :: inbox[s] + [Message(event, data)];
    }
  }

  /**
   * Rooms isolate: an emit to a transaction room leaves the inbox of every
   * socket outside that room as it was, and a personal-room emit never reaches
   * a socket through its transaction rooms.
   */
  lemma TransactionEmitIsolated(inbox: map<nat, seq<Message>>, rooms: map<nat, set<string>>,
                                a: string, m: Message, s: nat)
    requires s in inbox && s in rooms && TransactionRoom(a) !in rooms[s]
    ensures Deliver(inbox, rooms, TransactionRoom(a), None, m)[s] == inbox[s]
  {
  }

  /** A personal-room emit reaches the sockets of that user and of no other user. */
  lemma UserEmitIsolated(inbox: map<nat, seq<Message>>, rooms: map<nat, set<string>>,
                         userOf: map<nat, JVal>, u: string, m: Message, s: nat)
    requires s in inbox && s in rooms && s in userOf
    requires RoomsShaped(rooms, userOf)
    requires Render(userOf[s]) != u
    ensures Deliver(inbox, rooms, UserRoom(u), None, m)[s] == inbox[s]
  {
    var mine, target := Render(userOf[s]), UserRoom(u);
    RoomNamesDistinct(mine, u);
    assert !StartsWith(target, "transaction:") by {
      assert target[0] == 'u';
    }
    assert target !in rooms[s];
    assert !Reaches(rooms, s, target, None);
  }

  /** A joining socket is not told about its own join. */
  lemma SenderNotNotified(inbox: map<nat, seq<Message>>, rooms: map<nat, set<string>>, room: string, s: nat, m: Message)
    requires s in inbox
    ensures Deliver(inbox, rooms, room, Some(s), m)[s] == inbox[s]
  {
  }

  /** A notification's own `id` and `timestamp` override the generated ones. */
  lemma NotificationOverrides(notification: Payload, now: nat)
    requires "id" in notification && "timestamp" in notification
    ensures NotificationData(notification, now) == notification
  {
  }
}
