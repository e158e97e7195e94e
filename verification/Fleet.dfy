/** The socket objects of a server, and the state machine's view of them. */
module Fleet {
  import opened ServerState
  import K = Socket

  /** The sockets' objects are among `parts`, and no two sockets share any. */
  ghost predicate Apart(clients: map<Id, K.Socket>, parts: set<object>)
    reads parts
  {
    && (forall id | id in clients :: clients[id] in parts && clients[id].Repr <= parts)
    && (forall i, j | i in clients && j in clients && i != j :: clients[i].Repr !! clients[j].Repr)
  }

  /** A client's socket is as the state machine has it. */
  ghost predicate Recorded(socket: K.Socket, registry: Registry, id: Id)
    reads socket, socket.Repr
  {
    && id in registry.sessions && socket.Valid()
    && registry.sessions[id] == Client(socket.opts, socket.state)
  }

  ghost predicate Ready(clients: map<Id, K.Socket>, registry: Registry, parts: set<object>)
    reads parts
  {
    && Apart(clients, parts)
    && clients.Keys == registry.clients
    && (forall id | id in clients :: Recorded(clients[id], registry, id))
  }

  /** ... and the server's own objects are none of theirs. */
  ghost predicate Owned(own: set<object>, clients: map<Id, K.Socket>, registry: Registry, parts: set<object>)
    reads parts
  {
    own !! parts && Ready(clients, registry, parts)
  }

  lemma SocketRecorded(clients: map<Id, K.Socket>, registry: Registry, parts: set<object>, id: Id)
    requires Ready(clients, registry, parts) && id in clients
    ensures Recorded(clients[id], registry, id) && clients[id].events == clients[id].state.log.events
    ensures clients[id].wsTransport != null <==> OnWebSocket(registry, id)
  {}

  lemma RemoveReady(clients: map<Id, K.Socket>, registry: Registry, parts: set<object>, id: Id)
    requires Ready(clients, registry, parts)
    ensures Ready(clients - {id}, registry.(clients := registry.clients - {id}), parts)
  {}

  /** One socket is apart for a step; the others, with the objects `rest`, are in order. */
  ghost predicate OneApart(own: set<object>, clients: map<Id, K.Socket>, registry: Registry, rest: set<object>, id: Id)
    reads rest
  {
    && own !! rest && id in clients && id in registry.clients && id in registry.sessions
    && registry.sessions[id].opts == clients[id].opts
    && Ready(clients - {id}, registry.(clients := registry.clients - {id}), rest)
  }

  lemma TakeOut(own: set<object>, clients: map<Id, K.Socket>, registry: Registry, parts: set<object>, id: Id)
    requires Owned(own, clients, registry, parts) && id in clients
    ensures var socket := clients[id];
            && Recorded(socket, registry, id) && socket.Repr <= parts && own !! socket.Repr
            && OneApart(own, clients, registry, parts - socket.Repr, id)
            && parts - socket.Repr + socket.Repr == parts
  {}

  /** With one socket more, new or back again. */
  lemma JoinReady(clients: map<Id, K.Socket>, registry: Registry, parts: set<object>,
                  id: Id, socket: K.Socket, registry': Registry)
    requires Ready(clients, registry, parts) && id !in registry.clients
    requires socket.Valid() && socket.Repr !! parts
    requires registry'.clients == registry.clients + {id}
    requires registry'.sessions == registry.sessions[id := Client(socket.opts, socket.state)]
    ensures Ready(clients[id := socket], registry', parts + socket.Repr) && Recorded(socket, registry', id)
  {}

  /** It comes back as it is now. */
  lemma PutBack(own: set<object>, clients: map<Id, K.Socket>, registry: Registry, rest: set<object>, id: Id)
    requires OneApart(own, clients, registry, rest, id)
    requires var socket := clients[id]; socket.Valid() && socket.Repr !! rest && own !! socket.Repr
    ensures var socket := clients[id];
            var moved := registry.(sessions := registry.sessions[id := Client(socket.opts, socket.state)]);
            Owned(own, clients, moved, rest + socket.Repr) && Recorded(socket, moved, id)
  {
    var socket := clients[id];
    var moved := registry.(sessions := registry.sessions[id := Client(socket.opts, socket.state)]);
    JoinReady(clients - {id}, registry.(clients := registry.clients - {id}), rest, id, socket, moved);
    assert (clients - {id})[id := socket] == clients;
  }
}
