/**
 The registry of live sockets and the interpreter of the effects an actor returns.
 Each connection is served as if it alone read the list of effects.
 */
module SocketEffects {
  import opened Common

  type Actor = string
  type Id = string

  const MAX_CONNECTIONS_PER_ACTOR: nat := 128

  datatype Outbound = Message(text: Value) | Close(code: nat, reason: string)

  datatype Connection = Connection(id: Id, tags: seq<string>, metadata: Value)

  /** `queue` is everything ever sent to the socket's outbound channel. */
  datatype Socket = Socket(connection: Connection, queue: seq<Outbound>, open: bool, trigger: Option<string>)

  datatype Effect =
    | Send(id: Id, message: Value)
    | Broadcast(message: Value, except: seq<Id>, tags: seq<string>)
    | CloseSocket(id: Id, code: nat, reason: string)
    | Reject(id: Id, code: nat, reason: string)
    | SetMetadata(id: Id, metadata: Value)
    | SetTags(id: Id, tags: seq<string>)

  type Sockets = map<Id, Socket>

  datatype Event =
    | Connect(connection: Connection)
    | Received(id: Id, message: Value)
    | Disconnect(connection: Connection, code: nat)

  // ----- one connection ---------------------------------------------------------------------

  /** Who a broadcast reaches. */
  predicate Reaches(effect: Effect, id: Id, open: bool, tags: seq<string>)
    requires effect.Broadcast?
  {
    open && id !in effect.except && forall tag :: tag in effect.tags ==> tag in tags
  }

  /** What one effect does to one socket. */
  function Affect(effect: Effect, s: Socket): Socket {
    match effect
    case Send(id, message) => if id == s.connection.id then s.(queue := s.queue + [Message(message)]) else s
    case Broadcast(message, _, _) =>
      if Reaches(effect, s.connection.id, s.open, s.connection.tags) then s.(queue := s.queue + [Message(message)])
      else s
    case CloseSocket(id, code, reason) => if id == s.connection.id then s.(queue := s.queue + [Close(code, reason)])
      else s
    case Reject(id, code, reason) => if id == s.connection.id then s.(queue := s.queue + [Close(code, reason)]) else s
    case SetMetadata(id, metadata) =>
      if id == s.connection.id then s.(connection := s.connection.(metadata := metadata)) else s
    case SetTags(id, tags) => if id == s.connection.id then s.(connection := s.connection.(tags := tags)) else s
  }

  function AffectAll(effects: seq<Effect>, s: Socket): Socket {
    if effects == [] then s else Affect(effects[|effects| - 1], AffectAll(effects[..|effects| - 1], s))
  }

  // ----- what a connection gets, read off the list -------------------------------------------------

  /** The tags a connection has after some effects: those set last, if any. */
  function TagsAfter(effects: seq<Effect>, id: Id, tags: seq<string>): seq<string> {
    if effects == [] then tags
    else
      var last := effects[|effects| - 1];
      if last.SetTags? && last.id == id then last.tags else TagsAfter(effects[..|effects| - 1], id, tags)
  }

  function MetadataAfter(effects: seq<Effect>, id: Id, metadata: Value): Value {
    if effects == [] then metadata
    else
      var last := effects[|effects| - 1];
      if last.SetMetadata? && last.id == id then last.metadata
      else MetadataAfter(effects[..|effects| - 1], id, metadata)
  }

  /** What an effect puts into the queue of a connection with these tags. */
  function Delivery(effect: Effect, id: Id, open: bool, tags: seq<string>): seq<Outbound> {
    match effect
    case Send(to, message) => if to == id then [Message(message)] else []
    case Broadcast(message, _, _) => if Reaches(effect, id, open, tags) then [Message(message)] else []
    case CloseSocket(to, code, reason) => if to == id then [Close(code, reason)] else []
    case Reject(to, code, reason) => if to == id then [Close(code, reason)] else []
    case _ => []
  }

  /** The first `n` effects, each delivered with the tags set before it. */
  function Deliveries(effects: seq<Effect>, n: nat, id: Id, open: bool, tags: seq<string>): seq<Outbound>
    requires n <= |effects|
  {
    if n == 0 then []
    else
      Deliveries(effects, n - 1, id, open, tags)
      + Delivery(effects[n - 1], id, open, TagsAfter(effects[..n - 1], id, tags))
  }

  /** One effect, part by part. */
  lemma OneEffect(effect: Effect, s: Socket)
    ensures var id, t := s.connection.id, Affect(effect, s);
            && t.connection.id == id && t.open == s.open && t.trigger == s.trigger
            && t.queue == s.queue + Delivery(effect, id, s.open, s.connection.tags)
            && t.connection.tags == (if effect.SetTags? && effect.id == id then effect.tags else s.connection.tags)
            && t.connection.metadata == (if effect.SetMetadata? && effect.id == id then effect.metadata
                 else s.connection.metadata)
  {
    assert s.queue + [] == s.queue;
  }

  /** A broadcast is one message for every open connection that is not excluded and has all
      the tags asked for, and nothing for any other. */
  lemma BroadcastReaches(message: Value, except: seq<Id>, tags: seq<string>, s: Socket)
    ensures Affect(Broadcast(message, except, tags), s)
            == if s.open && s.connection.id !in except
                  && (forall i :: 0 <= i < |tags| ==> tags[i] in s.connection.tags)
               then s.(queue := s.queue + [Message(message)]) else s
  {}

  /** Any other effect concerns the connection it names and no other: a message or a close is
      queued for it last, or its tags or metadata are the new ones. */
  lemma NamedConnectionIsAffected(effect: Effect, s: Socket)
    requires !effect.Broadcast?
    ensures if effect.id != s.connection.id then Affect(effect, s) == s
            else
              match effect
              case Send(_, message) => Affect(effect, s) == s.(queue := s.queue + [Message(message)])
              case CloseSocket(_, code, reason) => Affect(effect, s) == s.(queue := s.queue + [Close(code, reason)])
              case Reject(_, code, reason) => Affect(effect, s) == s.(queue := s.queue + [Close(code, reason)])
              case SetMetadata(id, metadata) =>
                Affect(effect, s) == s.(connection := Connection(id, s.connection.tags, metadata))
              case SetTags(id, tags) =>
                Affect(effect, s) == s.(connection := Connection(id, tags, s.connection.metadata))
  {}

  /** The fold is what can be read off the list: deliveries in order, the tags and
      metadata set last, nothing else. */
  lemma {:induction false} FoldReadsTheList(effects: seq<Effect>, n: nat, s: Socket)
    requires n <= |effects|
    ensures var id := s.connection.id;
            AffectAll(effects[..n], s)
            == Socket(Connection(id, TagsAfter(effects[..n], id, s.connection.tags),
                                 MetadataAfter(effects[..n], id, s.connection.metadata)),
                      s.queue + Deliveries(effects, n, id, s.open, s.connection.tags), s.open, s.trigger)
  {
    hide Affect, Delivery;
    if n > 0 {
      FoldReadsTheList(effects, n - 1, s);
      assert effects[..n][..n - 1] == effects[..n - 1];
      OneEffect(effects[n - 1], AffectAll(effects[..n - 1], s));
    }
  }

  // ----- the registry ----------------------------------------------------------------------------------

  /** One to 128 sockets, each under its own id. */
  predicate Full(sockets: Sockets) {
    0 < |sockets| <= MAX_CONNECTIONS_PER_ACTOR && Named(sockets)
  }

  predicate Named(sockets: Sockets) {
    forall id :: id in sockets ==> sockets[id].connection.id == id
  }

  /** Every socket of an actor reads the effects for itself. */
  function MapAll(effects: seq<Effect>, sockets: Sockets): Sockets {
    map id | id in sockets :: AffectAll(effects, sockets[id])
  }

  function MapOne(effect: Effect, sockets: Sockets): Sockets {
    map id | id in sockets :: Affect(effect, sockets[id])
  }

  lemma MapKeepsFull(effect: Effect, sockets: Sockets)
    requires Full(sockets)
    ensures Full(MapOne(effect, sockets))
  {
    assert MapOne(effect, sockets).Keys == sockets.Keys;
  }

  lemma MapMore(effects: seq<Effect>, i: nat, sockets: Sockets)
    requires i < |effects|
    ensures MapOne(effects[i], MapAll(effects[..i], sockets)) == MapAll(effects[..i + 1], sockets)
  {
    assert effects[..i + 1][..i] == effects[..i];
  }

  lemma MapNone(sockets: Sockets)
    ensures MapAll([], sockets) == sockets
  {}

  /** An effect for one connection looks it up by id. */
  function Addressed(effect: Effect, sockets: Sockets): (r: Sockets)
    requires !effect.Broadcast? && Named(sockets)
    ensures r == MapOne(effect, sockets)
  {
    if effect.id in sockets then sockets[effect.id := Affect(effect, sockets[effect.id])] else sockets
  }

  /** A broadcast visits the sockets in whatever order the map yields them. */
  method SendToAll(effect: Effect, sockets: Sockets) returns (r: Sockets)
    requires effect.Broadcast?
    ensures r == MapOne(effect, sockets)
  {
    r := sockets;
    var rest := sockets.Keys;
    while rest != {}
      invariant rest <= sockets.Keys && r.Keys == sockets.Keys
      invariant forall id :: id in sockets ==> r[id] == if id in rest then sockets[id] else Affect(effect, sockets[id])
      decreases |rest|
    {
      var id :| id in rest;
      rest := rest - {id};
      if Reaches(effect, sockets[id].connection.id, sockets[id].open, sockets[id].connection.tags) {
        r := r[id := r[id].(queue := r[id].queue + [Message(effect.message)])];
      }
    }
  }

  class SocketRegistry {
    var entries: map<Actor, Sockets>

    /** No actor has more than 128 connections, and none an empty entry. */
    ghost predicate Valid()
      reads this
    {
      forall a :: a in entries ==> Full(entries[a])
    }

    constructor ()
      ensures Valid() && entries == map[]
    {
      entries := map[];
    }

    function Of(actor: Actor): Sockets
      reads this
    {
      if actor in entries then entries[actor] else map[]
    }

    method Insert(actor: Actor, connection: Connection, trigger: Option<string>) returns (ok: bool)
      requires Valid()
      modifies this
      ensures Valid()
      ensures ok <==> |old(Of(actor))| < MAX_CONNECTIONS_PER_ACTOR
      ensures !ok ==> entries == old(entries)
      ensures ok ==>
                entries == old(entries)[actor := old(Of(actor))[connection.id := Socket(connection, [], false,
                  trigger)]]
    {
      var connections := Of(actor);
      if |connections| >= MAX_CONNECTIONS_PER_ACTOR {
        return false;
      }
      var added := connections[connection.id := Socket(connection, [], false, trigger)];
      assert added.Keys == connections.Keys + {connection.id};
      assert Full(added) by { assert connection.id in added.Keys; }
      entries := entries[actor := added];
      return true;
    }

    method Remove(actor: Actor, id: Id) returns (removed: Option<Connection>)
      requires Valid()
      modifies this
      ensures Valid()
      ensures Of(actor) == old(Of(actor)) - {id} && forall a :: a != actor ==> Of(a) == old(Of(a))
      ensures removed == if id in old(Of(actor)) then Some(old(Of(actor))[id].connection) else None
    {
      if actor !in entries {
        return None;
      }
      var connections := entries[actor];
      removed := if id in connections then Some(connections[id].connection) else None;
      connections := connections - {id};
      assert connections.Keys == entries[actor].Keys - {id};
      if connections == map[] {
        entries := entries - {actor};
      } else {
        assert Full(connections) by { assert connections.Keys != {}; }
        entries := entries[actor := connections];
      }
    }

    method Activate(actor: Actor, id: Id)
      requires Valid()
      modifies this
      ensures Valid() && entries.Keys == old(entries.Keys) && forall a :: a != actor ==> Of(a) == old(Of(a))
      ensures Of(actor) == if id in old(Of(actor)) then old(Of(actor))[id := old(Of(actor))[id].(open := true)]
              else old(Of(actor))
    {
      if actor in entries && id in entries[actor] {
        Update(actor, id, entries[actor][id].(open := true));
      }
    }

    method Update(actor: Actor, id: Id, s: Socket)
      requires Valid() && actor in entries && id in entries[actor] && s.connection.id == id
      modifies this
      ensures Valid() && entries == old(entries)[actor := old(entries)[actor][id := s]]
    {
      var updated := entries[actor][id := s];
      assert Full(updated) by { assert updated.Keys == entries[actor].Keys; }
      entries := entries[actor := updated];
    }
  
    /** The open connections, in the order the map yields them. */
    method Connections(actor: Actor) returns (open: seq<Connection>)
      requires Valid()
      ensures forall c :: c in open <==>
              exists id :: id in Of(actor) && Of(actor)[id].open && Of(actor)[id].connection == c
      ensures forall i, j :: 0 <= i < j < |open| ==> open[i].id != open[j].id
    {
      open := [];
      var sockets := Of(actor);
      var rest := sockets.Keys;
      assert Named(sockets);
      while rest != {}
        invariant rest <= sockets.Keys
        invariant forall c :: c in open <==>
                  exists id :: id in sockets && id !in rest && sockets[id].open && sockets[id].connection == c
        invariant forall i :: 0 <= i < |open| ==> open[i].id in sockets && open[i].id !in rest
        invariant forall i, j :: 0 <= i < j < |open| ==> open[i].id != open[j].id
        decreases |rest|
      {
        var id :| id in rest;
        rest := rest - {id};
        if sockets[id].open {
          open := open + [sockets[id].connection];
        }
      }
    }

    /** `prepare_event`: the connections an actor sees are the open ones, with the one that
        is connecting and without the one that is gone; a disconnect carries the tags and
        metadata the registry had for it. */
    method PrepareEvent(actor: Actor, event: Event) returns (prepared: Event, connections: seq<Connection>)
      requires Valid()
      modifies this
      ensures Valid() && forall a :: a != actor ==> Of(a) == old(Of(a))
      ensures Of(actor) == if event.Disconnect? then old(Of(actor)) - {event.connection.id} else old(Of(actor))
      ensures prepared == if event.Disconnect? && event.connection.id in old(Of(actor))
                          then event.(connection := old(Of(actor))[event.connection.id].connection) else event
      ensures forall c :: c in connections <==>
                (event.Connect? && c == event.connection) || exists id ::
                  id in Of(actor) && Of(actor)[id].open && Of(actor)[id].connection == c
    {
      prepared := event;
      if event.Disconnect? {
        var removed := Remove(actor, event.connection.id);
        if removed.Some? {
          prepared := Disconnect(removed.value, event.code);
        }
      }
      connections := Connections(actor);
      if event.Connect? {
        connections := connections + [event.connection];
      }
    }

    /** `apply_one`: whatever order the sockets are visited in, each reads the effect for
        itself. */
    method ApplyOne(actor: Actor, effect: Effect)
      requires Valid()
      modifies this
      ensures Valid() && entries.Keys == old(entries.Keys) && Of(actor) == MapOne(effect, old(Of(actor)))
      ensures forall a :: a != actor ==> Of(a) == old(Of(a))
    {
      if actor !in entries {
        return;
      }
      MapKeepsFull(effect, entries[actor]);
      assert Named(entries[actor]);
      hide MapOne, Full, Affect;
      var sockets;
      if effect.Broadcast? {
        sockets := SendToAll(effect, entries[actor]);
      } else {
        sockets := Addressed(effect, entries[actor]);
      }
      entries := entries[actor := sockets];
    }

    /** `apply`: other actors are untouched, and every socket of this one ends as if it
        alone had read the list. */
    method Apply(actor: Actor, effects: seq<Effect>)
      requires Valid()
      modifies this
      ensures Valid() && entries.Keys == old(entries.Keys) && Of(actor) == MapAll(effects, old(Of(actor)))
      ensures forall a :: a != actor ==> Of(a) == old(Of(a))
    {
      MapNone(Of(actor));
      for i := 0 to |effects|
        invariant Valid() && entries.Keys == old(entries.Keys) && Of(actor) == MapAll(effects[..i], old(Of(actor)))
        invariant forall a :: a != actor ==> Of(a) == old(Of(a))
      {
        ApplyOne(actor, effects[i]);
        MapMore(effects, i, old(Of(actor)));
      }
      assert effects[..|effects|] == effects;
    }
  }
}
