/** The realtime broker of the server: the `connectedUsers` registry and the fan-out of
    `send_message` and `typing` events to the connected sockets (backend/server.js). */
module SocketServer {
  import opened Common
  import opened ChatTypes

  /** Socket ids are chosen by the transport; every new connection gets a fresh one. */
  type SocketId = nat

  /** What the broker emits to a socket. */
  datatype ServerEvent =
    | NewMessage(message: Message)
    | UserTyping(chatId: string, isTyping: bool, userId: Option<string>)

  /** `after` is `before` with `event` appended to the outbox of every socket in `targets`
      and every other outbox untouched. */
  ghost predicate Delivered(before: map<SocketId, seq<ServerEvent>>, after: map<SocketId, seq<ServerEvent>>,
                            targets: set<SocketId>, event: ServerEvent)
  {
    && after.Keys == before.Keys
    && (forall s :: s in before && s in targets ==> after[s] == before[s] + [event])
    && (forall s :: s in before && s !in targets ==> after[s] == before[s])
  }

  /** Appends `event` to the outbox of every socket in `targets`. */
  function Fanout(outbox: map<SocketId, seq<ServerEvent>>, targets: set<SocketId>, event: ServerEvent)
    : (r: map<SocketId, seq<ServerEvent>>)
    ensures Delivered(outbox, r, targets, event)
  {
    map s | s in outbox :: if s in targets then outbox[s] + [event] else outbox[s]
  }

  class Broker {
    /** `connectedUsers`: user id to the socket that registered last for that user. */
    var connectedUsers: map<string, SocketId>
    /** The handshake `userId` of every socket ever accepted (absent when the query had none). */
    var handshake: map<SocketId, Option<string>>
    /** The sockets that have not disconnected; `io.emit` reaches exactly these. */
    var open: set<SocketId>
    /** Everything emitted to each socket so far, in order. */
    var outbox: map<SocketId, seq<ServerEvent>>

    /** Every registry entry points at an open socket whose handshake named that user. */
    ghost predicate Valid()
      reads this
    {
      && open <= handshake.Keys
      && outbox.Keys == handshake.Keys
      && forall u :: u in connectedUsers ==>
           u != "" && connectedUsers[u] in open && handshake[connectedUsers[u]] == Some(u)
    }

    constructor ()
      ensures Valid()
      ensures connectedUsers == map[] && handshake == map[] && open == {} && outbox == map[]
    {
      connectedUsers, handshake, open, outbox := map[], map[], {}, map[];
    }

    /** `connection`: a truthy handshake userId maps that user to the new socket, replacing any earlier
        socket; without one the registry is unchanged. */
    method Connect(socket: SocketId, userId: Option<string>)
      requires Valid() && socket !in handshake
      modifies this
      ensures Valid()
      ensures handshake == old(handshake)[socket := userId]
      ensures open == old(open) + {socket}
      ensures outbox == old(outbox)[socket := []]
      ensures Truthy(userId) ==> connectedUsers == old(connectedUsers)[userId.value := socket]
      ensures !Truthy(userId) ==> connectedUsers == old(connectedUsers)
    {
      handshake := handshake[socket := userId];
      open := open + {socket};
      outbox := outbox[socket := []];
      if Truthy(userId) {
        connectedUsers := connectedUsers[userId.value := socket];
      }
    }

    /** `disconnect`: closes the socket and deletes its user's registry key unconditionally, even when
        that key now points at a newer socket of the same user. */
    method Disconnect(socket: SocketId)
      requires Valid() && socket in open
      modifies this
      ensures Valid()
      ensures open == old(open) - {socket}
      ensures handshake == old(handshake) && outbox == old(outbox)
      ensures Truthy(handshake[socket]) ==> connectedUsers == old(connectedUsers) - {handshake[socket].value}
      ensures !Truthy(handshake[socket]) ==> connectedUsers == old(connectedUsers)
    {
      open := open - {socket};
      var userId := handshake[socket];
      if Truthy(userId) {
        connectedUsers := connectedUsers - {userId.value};
      }
    }

    /** `send_message`: `new_message` with the identical payload goes to every open socket, the sender
        included. The registry is untouched. */
    method SendMessage(from: SocketId, message: Message)
      requires Valid() && from in open
      modifies this
      ensures Valid()
      ensures Delivered(old(outbox), outbox, open, NewMessage(message))
      ensures from in open && outbox[from] == old(outbox)[from] + [NewMessage(message)]
      ensures connectedUsers == old(connectedUsers) && handshake == old(handshake) && open == old(open)
    {
      outbox := Fanout(outbox, open, NewMessage(message));
    }

    /** `typing`: `user_typing` with the sender's handshake userId added goes to every open socket except
        the sender's own. The registry is untouched. */
    method Typing(from: SocketId, chatId: string, isTyping: bool)
      requires Valid() && from in open
      modifies this
      ensures Valid()
      ensures connectedUsers == old(connectedUsers) && handshake == old(handshake) && open == old(open)
      ensures Delivered(old(outbox), outbox, open - {from}, UserTyping(chatId, isTyping, handshake[from]))
      ensures outbox[from] == old(outbox)[from]
    {
      outbox := Fanout(outbox, open - {from}, UserTyping(chatId, isTyping, handshake[from]));
    }
  }

  /** A user reconnects (socket 2 replaces socket 1 in the registry), then the stale socket 1 disconnects:
      the user's key is gone although socket 2 is still open, so the live socket is no longer registered. */
  method StaleDisconnectEvictsNewer(user: string) returns (broker: Broker)
    requires user != ""
    ensures broker.Valid()
    ensures 2 in broker.open && broker.handshake[2] == Some(user)
    ensures user !in broker.connectedUsers
  {
    broker := new Broker();
    broker.Connect(1, Some(user));
    broker.Connect(2, Some(user));
    assert broker.connectedUsers[user] == 2;
    broker.Disconnect(1);
  }

  /** After a reconnect the superseded socket 1 is still open, so a `send_message` from the new
      socket 2 still reaches it: superseding a registration does not stop dispatch to the old socket. */
  method SupersededSocketStillReceives(user: string, m: Message) returns (broker: Broker)
    requires user != ""
    ensures broker.Valid()
    ensures user in broker.connectedUsers && broker.connectedUsers[user] == 2
    ensures 1 in broker.outbox && broker.outbox[1] == [NewMessage(m)]
    ensures 2 in broker.outbox && broker.outbox[2] == [NewMessage(m)]
  {
    broker := new Broker();
    broker.Connect(1, Some(user));
    broker.Connect(2, Some(user));
    broker.SendMessage(2, m);
  }
}
