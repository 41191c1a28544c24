/**
 The three caches of one actor's state on the executor's side: the set of actors the
 Rust host believes resident, the supervisor's map of workers, and the instance inside
 a worker's runtime. State is left out of a command for a believed resident and sent
 again when the supervisor answers `state_required`.
 */
module Executor {
  import opened Common
  import Protocol

  type Key = string

  const MAX_RESIDENT_ACTORS: nat := 32
  const MAX_BELIEVED_RESIDENTS: nat := 4096

  /** `runs` counts how often the command reached customer code. */
  datatype Reply =
    | Succeeded(result: Value, state: Value)
    | Failed(runs: nat)
    | StateRequired
    | Disconnected(runs: nat)

  /** A worker thread with its runtime's instance. */
  datatype Worker = Worker(instance: Option<Value>)

  datatype Resident = Resident(worker: Option<Worker>, lastCompletedAt: int)

  /** A command as sent: `state` is there unless `residentOnly`. */
  datatype Command = Command(key: Key, request: Protocol.Request, state: Option<Value>, residentOnly: bool)

  // ----- the runtime inside a worker ----------------------------------------------------------

  /** `ActorRuntime.handle`: an existing instance wins over supplied state. */
  function Handle(customer: Protocol.Customer, worker: Worker, command: Command): (r: (Worker, Reply))
    ensures r.1.StateRequired? <==> command.residentOnly && worker.instance.None?
    ensures r.1.StateRequired? ==> r.0 == worker
    ensures r.0.instance.Some? <==> r.1.Succeeded?
    ensures r.1.Succeeded? ==>
              && r.0.instance == Some(r.1.state)
              && customer(if worker.instance.Some? then worker.instance else command.state, command.request)
                 == Protocol.Done(r.1.result, r.1.state)
  {
    if worker.instance.None? && command.residentOnly then (worker, StateRequired)
    else
      var base := if worker.instance.Some? then worker.instance else command.state;
      match customer(base, command.request)
      case Done(result, next) => (Worker(Some(next)), Succeeded(result, next))
      case Threw => (Worker(None), Failed(1))
  }

  // ----- the supervisor ---------------------------------------------------------------------------

  predicate HasInstance(actors: map<Key, Resident>, key: Key) {
    key in actors && actors[key].worker.Some? && actors[key].worker.value.instance.Some?
  }

  function Instance(actors: map<Key, Resident>, key: Key): Value
    requires HasInstance(actors, key)
  {
    actors[key].worker.value.instance.value
  }

  function Lookup(held: map<Key, Value>, key: Key): Option<Value> {
    if key in held then Some(held[key]) else None
  }

  /** Every resident instance is the state its host holds. */
  ghost predicate Coherent(actors: map<Key, Resident>, held: map<Key, Value>) {
    forall key :: HasInstance(actors, key) ==> key in held && held[key] == Instance(actors, key)
  }

  /** Instances may have gone; a new one can only be that of this actor, after a success. */
  ghost predicate Gains(before: map<Key, Resident>, after: map<Key, Resident>, key: Key, success: bool) {
    forall k :: HasInstance(after, k) ==> HasInstance(before, k) || (k == key && success)
  }

  /** The map is what it was with some idle entries gone. */
  predicate OnlyEvicts(before: map<Key, Resident>, after: map<Key, Resident>, busy: set<Key>) {
    && (forall k :: k in after ==> k in before && after[k] == before[k])
    && (forall k :: k in before && k in busy ==> k in after)
  }

  /** The state a command runs on: a resident instance wins over what was sent. */
  function Base(actors: map<Key, Resident>, command: Command): Option<Value> {
    if HasInstance(actors, command.key) then Some(Instance(actors, command.key)) else command.state
  }

  /** One command and its reply, seen on the map of workers. */
  ghost predicate Serves(customer: Protocol.Customer, before: map<Key, Resident>, after: map<Key, Resident>,
                         command: Command, crash: bool, reply: Reply) {
    && (forall k :: k != command.key && k in after ==> k in before && after[k] == before[k])
    && if command.residentOnly && !HasInstance(before, command.key) then reply == StateRequired && after == before
       else if reply == Failed(0) then after == before
       else
         && (HasInstance(after, command.key) <==> reply.Succeeded?)
         && (reply.Succeeded? ==> Instance(after, command.key) == reply.state)
         && match customer(Base(before, command), command.request)
            case Done(result, state) => reply == if crash then Failed(1) else Succeeded(result, state)
            case Threw => reply == Failed(1)
  }

  lemma ServesNewActor(customer: Protocol.Customer, before: map<Key, Resident>, placed: map<Key, Resident>,
                       after: map<Key, Resident>,
                       command: Command, crash: bool, reply: Reply)
    requires command.key !in before && !HasInstance(placed, command.key)
    requires !command.residentOnly && reply != Failed(0)
    requires forall k :: k != command.key && k in placed ==> k in before && placed[k] == before[k]
    requires Serves(customer, placed, after, command, crash, reply)
    ensures Serves(customer, before, after, command, crash, reply)
  {}

  lemma ServesNobody(customer: Protocol.Customer, actors: map<Key, Resident>, command: Command, crash: bool,
                     reply: Reply)
    requires command.key !in actors && reply == if command.residentOnly then StateRequired else Failed(0)
    ensures Serves(customer, actors, actors, command, crash, reply)
  {}

  /** A resident instance wins over whatever state the command carries. */
  lemma InstanceWins(customer: Protocol.Customer, before: map<Key, Resident>, after: map<Key, Resident>,
                     command: Command, reply: Reply)
    requires Serves(customer, before, after, command, false, reply) && reply != Failed(0)
    requires HasInstance(before, command.key)
    ensures match customer(Some(before[command.key].worker.value.instance.value), command.request)
            case Done(result, next) =>
              reply == Succeeded(result, next) && HasInstance(after, command.key)
                && Instance(after, command.key) == next
            case Threw => reply == Failed(1) && !HasInstance(after, command.key)
  {}

  /** State is required exactly of a command without it for an actor without an instance. */
  lemma RequiresIff(customer: Protocol.Customer, before: map<Key, Resident>, after: map<Key, Resident>,
                    command: Command, crash: bool, reply: Reply)
    requires Serves(customer, before, after, command, crash, reply)
    ensures reply.StateRequired? <==> command.residentOnly && !HasInstance(before, command.key)
    ensures !reply.Disconnected?
  {}

  /** The command carries what the host holds, or nothing but the claim of residency. */
  predicate Honest(command: Command, held: map<Key, Value>) {
    !command.residentOnly ==> command.state == Lookup(held, command.key)
  }

  lemma ServesWhatIsHeld(customer: Protocol.Customer, before: map<Key, Resident>, after: map<Key, Resident>,
                         command: Command,
                         crash: bool, reply: Reply, held: map<Key, Value>)
    requires Serves(customer, before, after, command, crash, reply) && Coherent(before, held) && Honest(command, held)
    ensures !reply.Succeeded? ==> Coherent(after, held)
    ensures reply.Succeeded? ==>
              && customer(Lookup(held, command.key), command.request) == Protocol.Done(reply.result, reply.state)
              && Coherent(after, held[command.key := reply.state])
    ensures reply.StateRequired? ==> command.residentOnly
    ensures reply.Succeeded? ==> !crash
    ensures reply.Failed? ==>
              && reply.runs <= 1
              && (reply.runs == 1 ==>
                    && !HasInstance(after, command.key)
                    && (crash || customer(Lookup(held, command.key), command.request).Threw?))
  {
    assert HasInstance(before, command.key) ==> Base(before, command) == Lookup(held, command.key);
  }

  class ActorWorkerSupervisor {
    var actors: map<Key, Resident>

    /** At most 32 workers, and every one that is kept has its instance. */
    predicate Valid()
      reads this
    {
      && |actors| <= MAX_RESIDENT_ACTORS
      && forall k :: k in actors && actors[k].worker.Some? ==> actors[k].worker.value.instance.Some?
    }

    constructor ()
      ensures actors == map[] && Valid()
    {
      actors := map[];
    }

    /** Frees a place if the map is full, by dropping the idle worker that completed
        longest ago. `busy` are the actors with a command under way. */
    method MakeRoomForActor(busy: set<Key>) returns (ok: bool)
      requires Valid()
      modifies this
      ensures ok <==> |old(actors)| < MAX_RESIDENT_ACTORS || exists k :: k in old(actors) && k !in busy
      ensures Valid() && OnlyEvicts(old(actors), actors, busy)
      ensures ok ==> |actors| == if |old(actors)| < MAX_RESIDENT_ACTORS then |old(actors)| else |old(actors)| - 1
      ensures !ok || |old(actors)| < MAX_RESIDENT_ACTORS ==> actors == old(actors)
      ensures forall k, j :: k in old(actors) && k !in actors && j in actors && j !in busy ==>
                old(actors)[k].lastCompletedAt <= actors[j].lastCompletedAt
    {
      if |actors| < MAX_RESIDENT_ACTORS {
        return true;
      }
      var idle: Option<Key> := None;
      var rest := actors.Keys;
      while rest != {}
        invariant rest <= actors.Keys
        invariant idle.None? ==> forall k :: k in actors && k !in rest ==> k in busy
        invariant idle.Some? ==> idle.value in actors && idle.value !in busy
        invariant idle.Some? ==> forall k :: k in actors && k !in rest && k !in busy ==>
                    actors[idle.value].lastCompletedAt <= actors[k].lastCompletedAt
        decreases |rest|
      {
        var k :| k in rest;
        rest := rest - {k};
        if k !in busy && (idle.None? || actors[k].lastCompletedAt < actors[idle.value].lastCompletedAt) {
          idle := Some(k);
        }
      }
      if idle.None? {
        return false;
      }
      RemovedKeys(actors, idle.value);
      actors := actors - {idle.value};
      return true;
    }

    /** `ActorWorkerSupervisor.execute`. */
    method Execute(customer: Protocol.Customer, command: Command, busy: set<Key>, now: int, crash: bool)
      returns (reply: Reply)
      requires Valid() && command.key !in busy
      modifies this
      ensures Valid()
      ensures Serves(customer, old(actors), actors, command, crash, reply)
      ensures reply == Failed(0) <==>
                && !command.residentOnly && command.key !in old(actors)
                && |old(actors)| >= MAX_RESIDENT_ACTORS && old(actors).Keys <= busy
      ensures reply == Failed(0) ==> |busy| >= MAX_RESIDENT_ACTORS
      ensures |actors| >= |old(actors)| && forall k :: k in old(actors) && k in busy ==> k in actors
      ensures command.key in old(actors) ==> actors.Keys == old(actors.Keys)
    {
      hide Serves;
      if command.key !in actors {
        if command.residentOnly {
          ServesNobody(customer, actors, command, crash, StateRequired);
          return StateRequired;
        }
        var room := MakeRoomForActor(busy);
        if !room {
          AllBusy(actors.Keys, busy);
          ServesNobody(customer, actors, command, crash, Failed(0));
          return Failed(0);
        }
        AddedKey(actors, command.key, Resident(None, now));
        actors := actors[command.key := Resident(None, now)];
        ghost var placed := actors;
        reply := ExecuteResident(customer, command, now, crash);
        ServesNewActor(customer, old(actors), placed, actors, command, crash, reply);
      } else {
        reply := ExecuteResident(customer, command, now, crash);
      }
    }

    /** `ResidentActorWorker.execute`. `crash` is the worker dying while customer code runs. */
    method ExecuteResident(customer: Protocol.Customer, command: Command, now: int, crash: bool) returns (reply: Reply)
      requires Valid() && command.key in actors
      modifies this
      ensures Valid() && actors.Keys == old(actors.Keys)
      ensures Serves(customer, old(actors), actors, command, crash, reply)
      ensures reply != Failed(0)
      ensures !reply.StateRequired? ==> actors[command.key].lastCompletedAt == now
    {
      var worker := actors[command.key].worker;
      if worker.None? {
        if command.residentOnly {
          return StateRequired;
        }
        worker := Some(Worker(None));
      }
      var (after, answer) := Handle(customer, worker.value, command);
      reply := if crash && !answer.StateRequired? then Failed(1) else answer;
      var kept := if reply.Failed? then None else Some(after);
      UpdatedKey(actors, command.key, Resident(kept, now));
      actors := actors[command.key := Resident(kept, now)];
    }

    /** The idle timer fires: `removeIfCurrent`. */
    method RemoveIfIdle(key: Key, busy: set<Key>)
      requires Valid()
      modifies this
      ensures Valid() && actors == if key in busy then old(actors) else old(actors) - {key}
    {
      if key !in busy {
        Evict(key);
      }
    }

    method Evict(key: Key)
      requires Valid()
      modifies this
      ensures Valid() && actors == old(actors) - {key}
    {
      if key in actors {
        RemovedKeys(actors, key);
        actors := actors - {key};
      }
    }
  }

  lemma {:induction false} AllBusy(keys: set<Key>, busy: set<Key>)
    requires keys <= busy
    ensures |keys| <= |busy|
  {
    if keys != {} {
      var k :| k in keys;
      AllBusy(keys - {k}, busy - {k});
    }
  }

  lemma RemovedKeys(m: map<Key, Resident>, key: Key)
    requires key in m
    ensures |m - {key}| == |m| - 1
  {
    assert (m - {key}).Keys == m.Keys - {key};
  }

  lemma AddedKey(m: map<Key, Resident>, key: Key, r: Resident)
    requires key !in m
    ensures |m[key := r]| == |m| + 1
  {
    assert m[key := r].Keys == m.Keys + {key};
  }

  lemma UpdatedKey(m: map<Key, Resident>, key: Key, r: Resident)
    requires key in m
    ensures |m[key := r]| == |m|
  {
    assert m[key := r].Keys == m.Keys;
  }

  // ----- the Rust side ------------------------------------------------------------------------------

  /** A command that exceeds the message limit is not sent. */
  datatype Limits = Limits(bareTooLarge: bool, fullTooLarge: bool)

  /** The connection is kept, or lost before the command arrives or before its reply does. */
  datatype Link = Kept | LostBefore | LostAfter

  /** What surrounds an exchange: the limits, the actors with a command under way, whether
      the worker dies while customer code runs, whether its reply is too large to be sent
      back, and the connection during its commands. */
  datatype Setting = Setting(limits: Limits, busy: set<Key>, crash: bool, replyTooLarge: bool, first: Link,
                             second: Link)

  /** The only ways a command fails before customer code: it is too large to send, or
      every place is taken by a busy worker. */
  predicate Refused(e: Setting) {
    e.limits.bareTooLarge || e.limits.fullTooLarge || |e.busy| >= MAX_RESIDENT_ACTORS
  }

  predicate TooLarge(command: Command, limits: Limits) {
    if command.residentOnly then limits.bareTooLarge else limits.fullTooLarge
  }

  /** How often a command that got this reply reached customer code. */
  function RunsOf(reply: Reply): nat {
    match reply
    case Succeeded(_, _) => 1
    case Failed(runs) => runs
    case StateRequired => 0
    case Disconnected(runs) => runs
  }

  /** A believed resident is sent no state at first, and the state only in a second
      command; everybody else is sent the state in the only one. */
  predicate Elides(sent: seq<Command>, resident: bool, state: Option<Value>) {
    && |sent| <= (if resident then 2 else 1)
    && forall i :: 0 <= i < |sent| ==>
         if resident && i == 0 then sent[i].residentOnly && sent[i].state.None?
         else !sent[i].residentOnly && sent[i].state == state
  }

  /** A command reaches the customer process. */
  predicate Arrives(command: Command, e: Setting, link: Link, connected: bool) {
    connected && !TooLarge(command, e.limits) && link != LostBefore
  }

  /** What an exchange for an actor writes, by whether it is believed resident and whether it
      has an instance. */
  function Written(key: Key, request: Protocol.Request, state: Option<Value>, resident: bool, has: bool, e: Setting,
                   connected: bool): seq<Command> {
    var first := Command(key, request, if resident then None else state, resident);
    var second := Command(key, request, state, false);
    if !Arrives(first, e, e.first, connected) then []
    else if resident && !has && e.first == Kept && Arrives(second, e, e.second, true) then [first, second]
    else [first]
  }

  /** State is left out of the first command exactly for a believed resident; and when no
      command is too large or lost, a second one is written exactly for a believed resident
      without an instance. */
  lemma WrittenElides(key: Key, request: Protocol.Request, state: Option<Value>, resident: bool, has: bool, e: Setting,
                      connected: bool)
    ensures var written := Written(key, request, state, resident, has, e, connected);
            && Elides(written, resident, state) && (|written| == 2 ==> resident && !has)
            && (connected && !e.limits.bareTooLarge && !e.limits.fullTooLarge && e.first == Kept && e.second == Kept ==>
                  |written| == if resident && !has then 2 else 1)
            && (connected && resident && !e.limits.bareTooLarge && e.first != LostBefore ==> |written| >= 1)
            && ((if resident then e.limits.bareTooLarge else e.limits.fullTooLarge) ==> written == [])
            && (e.limits.fullTooLarge ==> |written| <= 1)
            && (!connected || e.first == LostBefore ==> written == [])
            && (|written| == 2 ==> e.first == Kept && e.second != LostBefore)
  {}

  class JsActorExecutor {
    var residents: set<Key>
    /** Every command written to the customer process. */
    var sent: seq<Command>
    /** A lost connection is never made again. */
    var connected: bool
    const supervisor: ActorWorkerSupervisor

    ghost predicate Valid()
      reads this, supervisor
    {
      supervisor.Valid() && |residents| <= MAX_BELIEVED_RESIDENTS
    }

    /** As long as commands can arrive, instances are what the hosts hold. */
    ghost predicate InStep(held: map<Key, Value>)
      reads this, supervisor
    {
      connected ==> Coherent(supervisor.actors, held)
    }

    constructor ()
      ensures Valid() && residents == {} && connected && supervisor.actors == map[] && fresh(supervisor)
    {
      residents := {};
      sent := [];
      connected := true;
      supervisor := new ActorWorkerSupervisor();
    }

    /** Residency elision preserves meaning. Whatever the host believes and whatever was
        evicted, a success is what customer code makes of the supplied state itself,
        provided instances are what their hosts hold; customer code runs at most once
        because `state_required` is answered only before it runs; and instances are
        again what the hosts hold when this host adopts the returned state. */
    method ExchangeWithState(customer: Protocol.Customer, key: Key, request: Protocol.Request,
                             ghost held: map<Key, Value>, state: Option<Value>, e: Setting, now: int)
      returns (reply: Reply)
      requires Valid() && key !in e.busy && InStep(held) && state == Lookup(held, key)
      modifies this, supervisor
      ensures Valid() && !reply.StateRequired? && (connected ==> old(connected))
      ensures residents == if !reply.Succeeded? then old(residents) - {key}
                           else if |old(residents) - {key}| >= MAX_BELIEVED_RESIDENTS then {key}
                           else old(residents) + {key}
      ensures sent == old(sent) + Written(key, request, state, key in old(residents),
                                          HasInstance(old(supervisor.actors), key), e, old(connected))
      ensures Replies(customer, state, request, e, old(connected), connected, reply)
      ensures InStep(if reply.Succeeded? then held[key := reply.state] else held)
      ensures connected ==> Gains(old(supervisor.actors), supervisor.actors, key, reply.Succeeded?)
    {
      hide Coherent, Written, Replies, Gains;
      var resident := key in residents;
      residents := residents - {key};
      ghost var others := residents;
      reply := Ask(customer, key, request, held, state, resident, e, now);
      if reply.Succeeded? {
        Believe(key);
        assert old(residents) + {key} == others + {key};
      }
    }

    /** The actor counts as resident; a full set is cleared first. */
    method Believe(key: Key)
      modifies this`residents
      ensures residents == if |old(residents)| >= MAX_BELIEVED_RESIDENTS then {key} else old(residents) + {key}
    {
      if |residents| >= MAX_BELIEVED_RESIDENTS {
        residents := {};
      }
      residents := residents + {key};
    }

    /** The first command, and the second one if the actor was not resident after all. */
    method Ask(customer: Protocol.Customer, key: Key, request: Protocol.Request, ghost held: map<Key, Value>,
               state: Option<Value>, resident: bool, e: Setting, now: int)
      returns (reply: Reply)
      requires Valid() && key !in e.busy && InStep(held) && state == Lookup(held, key)
      modifies this`sent, this`connected, supervisor
      ensures Valid() && !reply.StateRequired? && (connected ==> old(connected))
      ensures sent == old(sent) + Written(key, request, state, resident, HasInstance(old(supervisor.actors), key), e,
                                          old(connected))
      ensures Replies(customer, state, request, e, old(connected), connected, reply)
      ensures InStep(if reply.Succeeded? then held[key := reply.state] else held)
      ensures connected ==> Gains(old(supervisor.actors), supervisor.actors, key, reply.Succeeded?)
    {
      hide Coherent, Refused, Gains;
      var command := Command(key, request, if resident then None else state, resident);
      reply := Exchange(customer, command, held, e, e.first, now);
      if resident && reply.StateRequired? {
        var second := Command(key, request, state, false);
        ghost var actors := supervisor.actors;
        reply := Exchange(customer, second, held, e, e.second, now);
        GainsOnce(old(supervisor.actors), actors, supervisor.actors, key, reply.Succeeded?);
      }
    }

    /** One command and its reply. */
    method Exchange(customer: Protocol.Customer, command: Command, ghost held: map<Key, Value>, e: Setting,
                    link: Link, now: int)
      returns (reply: Reply)
      requires Valid() && command.key !in e.busy && InStep(held) && Honest(command, held)
      modifies this`sent, this`connected, supervisor
      ensures Valid() && sent == old(sent) + if Arrives(command, e, link, old(connected)) then [command] else []
      ensures reply.StateRequired? <==>
                && Arrives(command, e, link, old(connected)) && link == Kept
                && command.residentOnly && !HasInstance(old(supervisor.actors), command.key)
      ensures TooLarge(command, e.limits) ==> reply == Failed(0) && sent == old(sent)
      ensures connected == (old(connected) && !reply.Disconnected?)
      ensures reply.Disconnected? ==> RunsOf(reply) <= 1 && (old(connected) ==> link != Kept)
      ensures !reply.StateRequired? && !reply.Disconnected? ==>
                Answers(customer, Lookup(held, command.key), command.request, e, reply)
      ensures InStep(if reply.Succeeded? then held[command.key := reply.state] else held)
      ensures connected ==> Gains(old(supervisor.actors), supervisor.actors, command.key, reply.Succeeded?)
      ensures reply.Failed? && RunsOf(reply) == 1 ==> !HasInstance(supervisor.actors, command.key)
    {
      hide Coherent, Refused, Gains, Answers;
      GainsNothing(supervisor.actors, command.key);
      if TooLarge(command, e.limits) {
        TooLargeIsAnswered(customer, command, held, e);
        return Failed(0);
      }
      if !connected || link == LostBefore {
        connected := false;
        return Disconnected(0);
      }
      sent := sent + [command];
      reply := HandleCommand(customer, command, held, e, now);
      if link == LostAfter {
        connected := false;
        return Disconnected(RunsOf(reply));
      }
    }

    /** The customer process handles a command that has arrived. A reply too large to be sent
        back becomes a failure, and its actor is evicted. */
    method HandleCommand(customer: Protocol.Customer, command: Command, ghost held: map<Key, Value>, e: Setting,
                         now: int)
      returns (reply: Reply)
      requires Valid() && command.key !in e.busy && Coherent(supervisor.actors, held) && Honest(command, held)
      modifies supervisor
      ensures Valid() && !reply.Disconnected? && RunsOf(reply) <= 1
      ensures reply.StateRequired? <==> command.residentOnly && !HasInstance(old(supervisor.actors), command.key)
      ensures !reply.StateRequired? ==> Answers(customer, Lookup(held, command.key), command.request, e, reply)
      ensures Coherent(supervisor.actors, if reply.Succeeded? then held[command.key := reply.state] else held)
      ensures Gains(old(supervisor.actors), supervisor.actors, command.key, reply.Succeeded?)
      ensures reply.Failed? && RunsOf(reply) == 1 ==> !HasInstance(supervisor.actors, command.key)
    {
      hide Coherent, Serves, Refused, Gains;
      ghost var before := supervisor.actors;
      reply := supervisor.Execute(customer, command, e.busy, now, e.crash);
      ServesWhatIsHeld(customer, before, supervisor.actors, command, e.crash, reply, held);
      ServesGains(customer, before, supervisor.actors, command, e.crash, reply);
      RequiresIff(customer, before, supervisor.actors, command, e.crash, reply);
      NoRoomIsRefused(e, reply);
      if e.replyTooLarge && !reply.StateRequired? {
        ghost var actors := supervisor.actors;
        supervisor.Evict(command.key);
        EvictionKeepsStep(actors, command.key, held, reply);
        EvictionUngains(before, actors, command.key);
        reply := Failed(RunsOf(reply));
      }
    }

    /** The host drops an actor it can no longer vouch for. */
    method Evict(key: Key, link: Link)
      requires Valid()
      modifies this`residents, this`connected, supervisor
      ensures Valid() && residents == old(residents) - {key} && connected == (old(connected) && link == Kept)
      ensures connected ==> supervisor.actors == old(supervisor.actors) - {key}
    {
      residents := residents - {key};
      if connected && link != LostBefore {
        supervisor.Evict(key);
      }
      connected := connected && link == Kept;
    }
  }

  /** A reply that arrived: customer code on the held state, or a failure with its cause. */
  predicate Answers(customer: Protocol.Customer, state: Option<Value>, request: Protocol.Request, e: Setting,
                    reply: Reply) {
    match reply
    case Succeeded(result, next) =>
      customer(state, request) == Protocol.Done(result, next) && !e.crash && !e.replyTooLarge
    case Failed(runs) =>
      if runs == 0 then Refused(e) else runs == 1 && (e.crash || e.replyTooLarge || customer(state, request).Threw?)
    case _ => false
  }

  /** What an exchange replies: an answer, or that the connection is gone, which it then
      stays. Either way customer code ran at most once. */
  predicate Replies(customer: Protocol.Customer, state: Option<Value>, request: Protocol.Request, e: Setting,
                    before: bool, after: bool, reply: Reply) {
    if reply.Disconnected? then RunsOf(reply) <= 1 && !after && (before ==> e.first != Kept || e.second != Kept)
    else after == before && Answers(customer, state, request, e, reply)
  }

  lemma ServesGains(customer: Protocol.Customer, before: map<Key, Resident>, after: map<Key, Resident>,
                    command: Command, crash: bool, reply: Reply)
    requires Serves(customer, before, after, command, crash, reply)
    ensures Gains(before, after, command.key, reply.Succeeded?)
  {}

  lemma GainsNothing(actors: map<Key, Resident>, key: Key)
    ensures Gains(actors, actors, key, false)
  {}

  lemma GainsOnce(before: map<Key, Resident>, between: map<Key, Resident>, after: map<Key, Resident>, key: Key,
                  success: bool)
    requires Gains(before, between, key, false)
    ensures Gains(between, after, key, success) ==> Gains(before, after, key, success)
  {}

  lemma EvictionUngains(before: map<Key, Resident>, after: map<Key, Resident>, key: Key)
    requires Gains(before, after, key, true)
    ensures Gains(before, after - {key}, key, false)
  {
    forall k | HasInstance(after - {key}, k) ensures HasInstance(before, k) {
      assert HasInstance(after, k);
    }
  }

  /** Evicting the actor undoes what its command did to the instances. */
  lemma EvictionKeepsStep(actors: map<Key, Resident>, key: Key, held: map<Key, Value>, reply: Reply)
    requires Coherent(actors, if reply.Succeeded? then held[key := reply.state] else held)
    ensures Coherent(actors - {key}, held)
  {
    if reply.Succeeded? {
      EvictionForgets(actors, key, held, reply.state);
    } else {
      FewerAreCoherent(actors, key, held);
    }
  }

  lemma TooLargeIsAnswered(customer: Protocol.Customer, command: Command, held: map<Key, Value>, e: Setting)
    requires TooLarge(command, e.limits)
    ensures Answers(customer, Lookup(held, command.key), command.request, e, Failed(0))
  {}

  lemma NoRoomIsRefused(e: Setting, reply: Reply)
    requires reply == Failed(0) ==> |e.busy| >= MAX_RESIDENT_ACTORS
    ensures reply == Failed(0) ==> Refused(e)
  {}

  // ----- whole runs ------------------------------------------------------------------------------------

  /** What happens to an executor: a host's exchange, which adopts the returned state or
      evicts, an eviction by the host, or an idle timeout. */
  datatype Operation =
    | Ask(key: Key, request: Protocol.Request, setting: Setting, adopt: bool, eviction: Link)
    | Drop(key: Key, link: Link)
    | Timeout(key: Key, busy: set<Key>)

  /** The connection survives the operation. */
  predicate Survives(op: Operation) {
    match op
    case Ask(_, _, e, _, eviction) => e.first == Kept && e.second == Kept && eviction == Kept
    case Drop(_, link) => link == Kept
    case Timeout(_, _) => true
  }

  /** One of the first `n` operations lost the connection. */
  predicate Lost(ops: seq<Operation>, n: nat)
    requires n <= |ops|
  {
    n > 0 && (!Survives(ops[n - 1]) || Lost(ops, n - 1))
  }

  /** What the hosts hold after some operations: the adopted states, nothing else. */
  function Held(ops: seq<Operation>, replies: seq<Reply>): map<Key, Value>
    requires |replies| == |ops|
  {
    if ops == [] then map[]
    else
      var n := |ops| - 1;
      HeldAfter(Held(ops[..n], replies[..n]), ops[n], replies[n])
  }

  function HeldAfter(held: map<Key, Value>, op: Operation, reply: Reply): map<Key, Value> {
    if op.Ask? && op.adopt && reply.Succeeded? then held[op.key := reply.state] else held
  }

  /** A success is what an executor re-hydrated from the held state gives; anything else
      is a refusal before customer code, its own error, a crash, a reply too large to send
      back, or a lost connection. */
  predicate Explained(customer: Protocol.Customer, held: map<Key, Value>, op: Operation, reply: Reply) {
    op.Ask? ==>
      if reply.Disconnected? then RunsOf(reply) <= 1
      else Answers(customer, Lookup(held, op.key), op.request, op.setting, reply)
  }

  /** Any sequence of exchanges, evictions and timeouts over any actors: every success is
      that of an executor re-hydrated from the held state on each command, every failure
      has one of its causes, and no connection is reported lost before one was. */
  method Serve(customer: Protocol.Customer, ops: seq<Operation>) returns (replies: seq<Reply>)
    requires forall i :: 0 <= i < |ops| && ops[i].Ask? ==> ops[i].key !in ops[i].setting.busy
    ensures |replies| == |ops|
    ensures forall i :: 0 <= i < |ops| ==> Explained(customer, Held(ops[..i], replies[..i]), ops[i], replies[i])
    ensures forall i :: 0 <= i < |ops| && replies[i].Disconnected? ==> Lost(ops, i + 1)
  {
    hide Explained, Coherent, Survives, HeldAfter;
    var executor := new JsActorExecutor();
    EmptyIsCoherent();
    replies := [];
    var held: map<Key, Value> := map[];
    for i := 0 to |ops|
      invariant |replies| == i && held == Held(ops[..i], replies)
      invariant executor.Valid() && executor.InStep(held)
      invariant fresh(executor) && fresh(executor.supervisor)
      invariant forall j :: 0 <= j < i ==> Explained(customer, Held(ops[..j], replies[..j]), ops[j], replies[j])
      invariant executor.connected || Lost(ops, i)
      invariant forall j :: 0 <= j < i && replies[j].Disconnected? ==> Lost(ops, j + 1)
    {
      var reply := Perform(customer, executor, ops[i], held, i);
      held := HeldAfter(held, ops[i], reply);
      assert ops[..i + 1][..i] == ops[..i] && (replies + [reply])[..i] == replies;
      assert forall j :: 0 <= j < i ==> (replies + [reply])[..j] == replies[..j];
      replies := replies + [reply];
    }
    assert ops[..|ops|] == ops;
  }

  method Perform(customer: Protocol.Customer, executor: JsActorExecutor, op: Operation, held: map<Key, Value>,
                 now: int) returns (reply: Reply)
    requires executor.Valid() && executor.InStep(held)
    requires op.Ask? ==> op.key !in op.setting.busy
    modifies executor, executor.supervisor
    ensures executor.Valid() && executor.InStep(HeldAfter(held, op, reply))
    ensures Explained(customer, held, op, reply)
    ensures old(executor.connected) && Survives(op) ==> executor.connected && !reply.Disconnected?
  {
    hide Coherent, Answers;
    reply := Failed(0);
    match op {
      case Ask(key, request, e, adopt, eviction) =>
        reply := executor.ExchangeWithState(customer, key, request, held, Lookup(held, key), e, now);
        if reply.Succeeded? && !adopt {
          ghost var actors := executor.supervisor.actors;
          executor.Evict(key, eviction);
          if executor.connected {
            EvictionForgets(actors, key, held, reply.state);
          }
        }
      case Drop(key, link) =>
        ghost var actors := executor.supervisor.actors;
        executor.Evict(key, link);
        if executor.connected {
          FewerAreCoherent(actors, key, held);
        }
      case Timeout(key, busy) =>
        ghost var actors := executor.supervisor.actors;
        executor.supervisor.RemoveIfIdle(key, busy);
        if executor.connected {
          FewerAreCoherent(actors, key, held);
        }
    }
  }

  lemma EmptyIsCoherent()
    ensures Coherent(map[], map[])
  {}

  lemma FewerAreCoherent(actors: map<Key, Resident>, key: Key, held: map<Key, Value>)
    requires Coherent(actors, held)
    ensures Coherent(actors - {key}, held)
  {
    forall k | HasInstance(actors - {key}, k) ensures k in held && held[k] == Instance(actors - {key}, k) {
      assert HasInstance(actors, k);
    }
  }

  lemma EvictionForgets(actors: map<Key, Resident>, key: Key, held: map<Key, Value>, state: Value)
    requires Coherent(actors, held[key := state])
    ensures Coherent(actors - {key}, held)
  {
    forall k | HasInstance(actors - {key}, k) ensures k in held && held[k] == Instance(actors - {key}, k) {
      assert HasInstance(actors, k);
    }
  }
}
