/**
 One admitted call of a host process as the code runs it, with everything outside the
 process (the object store, the control plane, the executor, the clock) answering
 through parameters and everything it sends recorded in a log. The cached state it
 leaves behind is related to the commit protocol's own steps.
 */
module ActorHost {
  import opened Common
  import opened Protocol
  import I = ProtocolInvariant

  datatype Effect =
    | RanActor(state: Option<Value>)
    | EvictedActor
    | AskedTicket(epoch: nat, version: nat)
    | Uploaded(ticket: Ticket, snapshot: Snapshot)
    | AskedCommit(epoch: nat, version: nat, objectName: string, request: string)

  datatype Answer = Answer(version: nat, nextWrite: Option<Ticket>)

  /** What the rest of the world answers to one call, `None` for an error. `encodes` is
      the verdict of the snapshot's own validation (an object within the size limit). */
  datatype World = World(
    loaded: Option<Snapshot>,
    resolved: Option<Answer>,
    executed: Option<(Value, Value)>,
    ticketUsable: bool,
    prepared: Option<Ticket>,
    encodes: bool,
    stored: bool,
    committed: Option<Answer>)

  datatype Ending = Answered(result: Value) | ActorFailed | Unknown | HostError

  /** `take_or_load_state`. */
  function Taken(cached: Option<Cached>, cap: Capability, loaded: Option<Snapshot>): Option<Cached> {
    if cached.Some? && cached.value.epoch == cap.epoch then cached
    else if cap.version == 0 then if cap.objectName.None? then Some(NewCached(cap.epoch)) else None
    else if cap.objectName.Some? && loaded.Some? && LoadChecks(cap, loaded.value)
    then Some(FromLoaded(cap.epoch, cap.version, loaded.value)) else None
  }

  /** A commit answer the host accepts. */
  predicate Accepted(c: Cached, answer: Option<Answer>) {
    c.pending.Some? && answer.Some? && answer.value.version == c.pending.value.snapshot.version
  }

  /** The state a call works on: taken, with a pending commit settled. */
  function Settled(c: Cached, answer: Option<Answer>): Cached {
    if Accepted(c, answer) then Promote(c, answer.value.nextWrite) else c
  }

  /** The ticket the call writes with: the cached one if it is for the next version and
      not about to expire, else a prepared one. */
  function ChosenTicket(c: Cached, w: World): Option<Ticket> {
    if c.nextWrite.Some? && c.nextWrite.value.version == c.version + 1 && w.ticketUsable then c.nextWrite
    else w.prepared
  }

  /** Publication goes through: a right ticket, a valid snapshot, a stored object, an
      accepted commit. */
  predicate Publishes(c: Cached, w: World) {
    && c.version < U64_MAX
    && ChosenTicket(c, w).Some? && ChosenTicket(c, w).value.version == c.version + 1
    && w.encodes && w.stored && w.committed.Some? && w.committed.value.version == c.version + 1
  }

  /** The upload was stored under a right ticket. */
  predicate Stores(c: Cached, w: World) {
    SendsUpload(c, w) && w.stored
  }

  /** A failed publication leaves the version and state alone and uses up the cached
      ticket; the snapshot is left pending exactly if it was stored. */
  predicate LeftBehind(c: Cached, d: Cached, w: World, snapshot: Snapshot) {
    && d == c.(nextWrite := d.nextWrite, pending := d.pending)
    && d.pending == (if Stores(c, w) then Some(Pending(snapshot, ChosenTicket(c, w).value)) else None)
    && d.nextWrite == (if c.version < U64_MAX then None else c.nextWrite)
  }

  /** What settling a pending commit sends. */
  function SettlingMessages(c: Cached): seq<Effect> {
    if c.pending.None? then []
    else [AskedCommit(c.epoch, c.version, c.pending.value.ticket.objectName, c.pending.value.snapshot.request)]
  }

  /** A ticket is asked for exactly if the held one is missing, of another version or about
      to expire. */
  function TicketMessages(c: Cached, w: World): seq<Effect> {
    if c.nextWrite.Some? && c.nextWrite.value.version == c.version + 1 && w.ticketUsable then []
    else [AskedTicket(c.epoch, c.version)]
  }

  /** The snapshot goes out under a ticket for its version. */
  predicate SendsUpload(c: Cached, w: World) {
    && c.version < U64_MAX && w.encodes
    && ChosenTicket(c, w).Some? && ChosenTicket(c, w).value.version == c.version + 1
  }

  /** What a publication sends: perhaps a ticket request, then the upload, then the commit of
      the very object that was uploaded. */
  function PublicationMessages(c: Cached, snapshot: Snapshot, w: World): seq<Effect> {
    if c.version >= U64_MAX then [] else
      TicketMessages(c, w)
      + (if SendsUpload(c, w) then [Uploaded(ChosenTicket(c, w).value, snapshot)] else [])
      + (if SendsUpload(c, w) && w.stored
         then [AskedCommit(c.epoch, c.version, ChosenTicket(c, w).value.objectName, snapshot.request)] else [])
  }

  /** What a call with the settled state `c` in hand sends. */
  function CallMessages(c: Cached, request: Request, w: World): seq<Effect> {
    if c.pending.Some? || Replays(c, request) then []
    else if w.executed.None? then [RanActor(c.state)] + if request.kind == Method then [EvictedActor] else []
    else
      var (result, next) := w.executed.value;
      if c.state == Some(next) then [RanActor(c.state)]
      else
        [RanActor(c.state)] + PublicationMessages(c, NextSnapshot(c, request, result, next), w)
        + if Publishes(c, w) then [] else [EvictedActor]
  }

  /** Everything that a call sends on a course of events, in order. */
  function SentIn(k: Course, request: Request): seq<Effect> {
    if TakenIn(k).None? then []
    else SettlingMessages(TakenIn(k).value) + CallMessages(SettledIn(k), request, k.world)
  }

  class Host {
    var cachedState: map<string, Cached>
    var log: seq<Effect>

    constructor ()
      ensures cachedState == map[] && log == []
    {
      cachedState := map[];
      log := [];
    }

    function Get(actor: string): Option<Cached>
      reads this
    {
      if actor in cachedState then Some(cachedState[actor]) else None
    }

    method TakeOrLoadState(actor: string, cap: Capability, loaded: Option<Snapshot>) returns (c: Option<Cached>)
      modifies this`cachedState
      ensures cachedState == old(cachedState) - {actor}
      ensures c == Taken(old(Get(actor)), cap, loaded)
    {
      var cached := Get(actor);
      cachedState := cachedState - {actor};
      if cached.Some? && cached.value.epoch == cap.epoch {
        return cached;
      }
      if cap.version == 0 {
        return if cap.objectName.None? then Some(NewCached(cap.epoch)) else None;
      }
      if cap.objectName.None? || loaded.None? {
        return None;
      }
      var snapshot := loaded.value;
      if snapshot.version != cap.version || snapshot.epoch > cap.epoch {
        return None;
      }
      return Some(Cached(cap.epoch, cap.version, Some(snapshot.state), Some(snapshot.request), Some(snapshot.result),
                         None, None));
    }

    /** Settles a pending commit, field by field as the code does; an error leaves it pending. */
    method FinishPendingCommit(cached: Cached, answer: Option<Answer>) returns (c: Cached, ok: bool)
      modifies this`log
      ensures ok <==> cached.pending.None? || Accepted(cached, answer)
      ensures c == Settled(cached, answer)
      ensures log == old(log) + SettlingMessages(cached)
    {
      c := cached;
      if c.pending.None? {
        return c, true;
      }
      var pending := c.pending.value;
      log := log + [AskedCommit(c.epoch, c.version, pending.ticket.objectName, pending.snapshot.request)];
      if answer.None? || answer.value.version != pending.snapshot.version {
        return c, false;
      }
      c := c.(pending := None);
      c := c.(version := pending.snapshot.version);
      c := c.(state := Some(pending.snapshot.state));
      c := c.(lastRequest := Some(pending.snapshot.request));
      c := c.(lastResult := Some(pending.snapshot.result));
      c := c.(nextWrite := answer.value.nextWrite);
      return c, true;
    }
  
    /** `publish_result_once`. */
    method PublishResult(cached: Cached, request: Request, result: Value, next: Value, w: World)
      returns (c: Cached, ok: bool)
      requires cached.pending.None?
      modifies this`log
      ensures ok <==> Publishes(cached, w)
      ensures ok ==> c == Cached(cached.epoch, cached.version + 1, Some(next), Some(request.id),
                                 Some(Persisted(request, result)),
                                 w.committed.value.nextWrite, None)
      ensures !ok ==> LeftBehind(cached, c, w, NextSnapshot(cached, request, result, next))
      ensures log == old(log) + PublicationMessages(cached, NextSnapshot(cached, request, result, next), w)
    {
      c := cached;
      if c.version >= U64_MAX {
        return c, false;
      }
      var chosen := c.nextWrite;
      c := c.(nextWrite := None);
      if chosen.None? || chosen.value.version != c.version + 1 || !w.ticketUsable {
        log := log + [AskedTicket(c.epoch, c.version)];
        chosen := w.prepared;
      }
      if chosen.None? || chosen.value.version != c.version + 1 {
        return c, false;
      }
      if !w.encodes {
        return c, false;
      }
      var snapshot := Snapshot(c.version + 1, c.epoch, request.id, next, Persisted(request, result));
      log := log + [Uploaded(chosen.value, snapshot)];
      if !w.stored {
        return c, false;
      }
      c := c.(pending := Some(Pending(snapshot, chosen.value)));
      c, ok := FinishPendingCommit(c, w.committed);
    }

    /** `invoke_actor_once` and `handle_socket_event_once`, after admission. */
    method Call(actor: string, cap: Capability, request: Request, w: World) returns (outcome: Ending)
      modifies this
      ensures forall k :: k != actor ==> Get(k) == old(Get(k))
      ensures Concludes(Course(old(Get(actor)), cap, w), request, outcome, Get(actor))
      ensures log == old(log) + SentIn(Course(old(Get(actor)), cap, w), request)
    {
      hide Taken, CallMessages, Publishes, ChosenTicket, LeftBehind;
      var taken := TakeOrLoadState(actor, cap, w.loaded);
      if taken.None? {
        return HostError;
      }
      var c, ok := FinishPendingCommit(taken.value, w.resolved);
      if !ok {
        NothingMore(c, request, w);
        cachedState := cachedState[actor := c];
        return Unknown;
      }
      outcome := CallSettled(actor, c, request, w);
    }

    /** The rest of the call, with the state in hand and nothing pending. */
    method CallSettled(actor: string, c: Cached, request: Request, w: World) returns (outcome: Ending)
      requires c.pending.None?
      modifies this
      ensures Get(actor).Some? && cachedState == old(cachedState)[actor := Get(actor).value]
      ensures outcome != HostError && Results(c, request, w, outcome, Get(actor).value)
      ensures log == old(log) + CallMessages(c, request, w)
    {
      hide PublicationMessages, LeftBehind, Publishes;
      if request.kind == Method && Replayed(c, request.id).Some? {
        cachedState := cachedState[actor := c];
        return Answered(Replayed(c, request.id).value);
      }
      log := log + [RanActor(c.state)];
      if w.executed.None? {
        if request.kind == Method {
          log := log + [EvictedActor];
        }
        cachedState := cachedState[actor := c];
        return ActorFailed;
      }
      var (result, next) := w.executed.value;
      if c.state == Some(next) {
        cachedState := cachedState[actor := c];
        return Answered(result);
      }
      var d, published := PublishResult(c, request, result, next, w);
      if !published {
        log := log + [EvictedActor];
      }
      cachedState := cachedState[actor := d];
      return if published then Answered(result) else Unknown;
    }
  }

  lemma NothingMore(c: Cached, request: Request, w: World)
    requires c.pending.Some?
    ensures CallMessages(c, request, w) == []
  {}

  /** A method whose result is already the cached one. */
  predicate Replays(c: Cached, request: Request) {
    request.kind == Method && Replayed(c, request.id).Some?
  }

  /** How a call that got hold of the settled state `c` ends, and what it puts back. */
  predicate Results(c: Cached, request: Request, w: World, outcome: Ending, d: Cached) {
    if c.pending.Some? then outcome == Unknown && d == c
    else if Replays(c, request) then outcome == Answered(Replayed(c, request.id).value) && d == c
    else if w.executed.None? then outcome == ActorFailed && d == c
    else
      var (result, next) := w.executed.value;
      if c.state == Some(next) then outcome == Answered(result) && d == c
      else if Publishes(c, w) then
        var published := FromLoaded(c.epoch, c.version + 1, NextSnapshot(c, request, result, next));
        outcome == Answered(result) && d == published.(nextWrite := w.committed.value.nextWrite)
      else outcome == Unknown && LeftBehind(c, d, w, NextSnapshot(c, request, result, next))
  }

  /** A whole call: what its actor had cached, the capability it came with, and what the
      world answered. */
  datatype Course = Course(start: Option<Cached>, cap: Capability, world: World)

  function TakenIn(k: Course): Option<Cached> {
    Taken(k.start, k.cap, k.world.loaded)
  }

  function SettledIn(k: Course): Cached
    requires TakenIn(k).Some?
  {
    Settled(TakenIn(k).value, k.world.resolved)
  }

  /** How a course of events ends, and what is in the cache then. */
  predicate Concludes(k: Course, request: Request, outcome: Ending, cache: Option<Cached>) {
    if TakenIn(k).None? then outcome == HostError && cache.None?
    else cache.Some? && Results(SettledIn(k), request, k.world, outcome, cache.value)
  }

  /** It ends in one way only. */
  lemma CoursesEndOneWay(k: Course, request: Request, o: Ending, c: Option<Cached>, p: Ending, d: Option<Cached>)
    requires Concludes(k, request, o, c) && Concludes(k, request, p, d)
    ensures o == p && c == d
  {}

  // ----- what a call sends ---------------------------------------------------------------------------

  /** The call runs customer code, and publishes what comes back. */
  predicate RunsIn(k: Course, request: Request) {
    TakenIn(k).Some? && SettledIn(k).pending.None? && !Replays(SettledIn(k), request)
  }

  predicate PublishesIn(k: Course, request: Request) {
    RunsIn(k, request) && k.world.executed.Some? && SettledIn(k).state != Some(k.world.executed.value.1)
  }

  /** Customer code is run at most once, on the settled state, after at most one message; and
      exactly in calls that neither replay nor wait for a pending commit. */
  lemma OneRunAtMost(k: Course, request: Request)
    ensures var sent := SentIn(k, request);
            && (forall i :: 0 <= i < |sent| && sent[i].RanActor? ==>
                  && RunsIn(k, request) && sent[i] == RanActor(SettledIn(k).state)
                  && i == if TakenIn(k).value.pending.Some? then 1 else 0)
            && (RunsIn(k, request) ==> RanActor(SettledIn(k).state) in sent)
  {
    hide Taken, Publishes, SendsUpload, ChosenTicket;
  }

  /** Uploads, in the order of the messages: at most one, of the next snapshot, under the
      chosen ticket, exactly if the call publishes with a right ticket and a valid
      snapshot. */
  lemma OneUploadAtMost(k: Course, request: Request)
    ensures var sent := SentIn(k, request);
            && (forall i :: 0 <= i < |sent| && sent[i].Uploaded? ==>
                  && PublishesIn(k, request) && SendsUpload(SettledIn(k), k.world)
                  && sent[i] == Uploaded(ChosenTicket(SettledIn(k), k.world).value,
                                         NextSnapshot(SettledIn(k), request, k.world.executed.value.0,
                                                      k.world.executed.value.1))
                  && forall j :: 0 <= j < |sent| && sent[j].Uploaded? ==> j == i)
            && (PublishesIn(k, request) && SendsUpload(SettledIn(k), k.world) ==>
                  exists i :: 0 <= i < |sent| && sent[i].Uploaded?)
  {
    hide Taken, Publishes, ChosenTicket;
    var sent := SentIn(k, request);
    if PublishesIn(k, request) && SendsUpload(SettledIn(k), k.world) {
      var i := |SettlingMessages(TakenIn(k).value)| + 1 + |TicketMessages(SettledIn(k), k.world)|;
      assert sent[i].Uploaded?;
    }
  }

  /** At this place of a list of messages: a commit comes right after the upload of the very
      object it names, and an upload that was stored is followed by one. */
  predicate Paired(sent: seq<Effect>, i: nat, c: Cached, stored: bool)
    requires i < |sent|
  {
    && (sent[i].AskedCommit? ==>
          && i > 0 && sent[i - 1].Uploaded? && stored
          && sent[i] == AskedCommit(c.epoch, c.version, sent[i - 1].ticket.objectName, sent[i - 1].snapshot.request))
    && (sent[i].Uploaded? && stored ==> i + 1 < |sent| && sent[i + 1].AskedCommit?)
  }

  lemma PairedInPublication(c: Cached, snapshot: Snapshot, w: World, i: nat)
    requires i < |PublicationMessages(c, snapshot, w)|
    ensures Paired(PublicationMessages(c, snapshot, w), i, c, w.stored)
  {}

  /** Messages that are no uploads and no commits, before or after, change nothing. */
  lemma PairedInside(before: Effect, sent: seq<Effect>, after: seq<Effect>, i: nat, c: Cached, stored: bool)
    requires i < |sent| && Paired(sent, i, c, stored)
    ensures Paired([before] + sent + after, i + 1, c, stored)
  {
    var all := [before] + sent + after;
    assert all[i + 1] == sent[i];
    assert i > 0 ==> all[i] == sent[i - 1];
    assert i + 1 < |sent| ==> all[i + 2] == sent[i + 1];
  }

  lemma PairedInCall(c: Cached, request: Request, w: World, i: nat)
    requires i < |CallMessages(c, request, w)|
    ensures Paired(CallMessages(c, request, w), i, c, w.stored)
  {
    hide PublicationMessages, Publishes;
    if w.executed.Some? && c.state != Some(w.executed.value.1) {
      var snapshot := NextSnapshot(c, request, w.executed.value.0, w.executed.value.1);
      var sent := PublicationMessages(c, snapshot, w);
      if 0 < i <= |sent| {
        PairedInPublication(c, snapshot, w, i - 1);
        PairedInside(RanActor(c.state), sent, if Publishes(c, w) then [] else [EvictedActor], i - 1, c, w.stored);
      }
    }
  }

  /** Every commit that a call asks for, but that of a pending one it found, comes right
      after the upload of the very object it names; an upload that was stored is followed
      by one. */
  lemma CommitsNameTheUpload(k: Course, request: Request, i: nat)
    requires i < |SentIn(k, request)|
    ensures var sent := SentIn(k, request);
            if i == 0 && TakenIn(k).value.pending.Some? then sent[i].AskedCommit?
            else Paired(sent, i, SettledIn(k), k.world.stored)
  {
    hide Taken, CallMessages, Accepted, Paired;
    var first, rest := SettlingMessages(TakenIn(k).value), CallMessages(SettledIn(k), request, k.world);
    if |first| <= i {
      PairedInCall(SettledIn(k), request, k.world, i - |first|);
      if first == [] {
        assert SentIn(k, request) == rest;
      } else {
        assert SentIn(k, request) == [first[0]] + rest + [];
        PairedInside(first[0], rest, [], i - 1, SettledIn(k), k.world.stored);
      }
    }
  }

  /** A ticket is asked for exactly by a publication whose held ticket will not do. */
  lemma TicketAskedIff(k: Course, request: Request)
    ensures (exists i :: 0 <= i < |SentIn(k, request)| && SentIn(k, request)[i].AskedTicket?) <==>
              && PublishesIn(k, request) && SettledIn(k).version < U64_MAX
              && var ticket := SettledIn(k).nextWrite;
              ticket.None? || ticket.value.version != SettledIn(k).version + 1 || !k.world.ticketUsable
  {
    hide Taken, Publishes, SendsUpload, ChosenTicket;
    var sent := SentIn(k, request);
    if PublishesIn(k, request) && SettledIn(k).version < U64_MAX && TicketMessages(SettledIn(k), k.world) != [] {
      assert sent[|SettlingMessages(TakenIn(k).value)| + 1].AskedTicket?;
    }
  }

  /** A held ticket is used exactly if it is for the next version and usable, else a prepared
      one; and a publication goes through exactly if every answer on its way, the ticket,
      the encoding, the store's and the commit's, is right for the next version. */
  lemma PublishesIff(c: Cached, w: World)
    ensures var held := c.nextWrite.Some? && c.nextWrite.value.version == c.version + 1 && w.ticketUsable;
            var ticket := if held then c.nextWrite else w.prepared;
            && ChosenTicket(c, w) == ticket
            && (Publishes(c, w) <==>
                  && c.version + 1 <= U64_MAX && ticket.Some? && ticket.value.version == c.version + 1
                  && w.encodes && w.stored && w.committed.Some? && w.committed.value.version == c.version + 1)
            && (Publishes(c, w) ==> Stores(c, w))
  {}

  lemma PublicationKeepsTheActor(c: Cached, snapshot: Snapshot, w: World)
    ensures EvictedActor !in PublicationMessages(c, snapshot, w)
  {}

  /** The messages give up the instance exactly if `gives`, and then last. */
  predicate GivesUp(sent: seq<Effect>, gives: bool) {
    if gives then sent != [] && sent[|sent| - 1] == EvictedActor && EvictedActor !in sent[..|sent| - 1]
    else EvictedActor !in sent
  }

  lemma GivenUpInCall(c: Cached, request: Request, w: World)
    ensures GivesUp(CallMessages(c, request, w),
                    && c.pending.None? && !Replays(c, request)
                    && if w.executed.None? then request.kind == Method
                       else c.state != Some(w.executed.value.1) && !Publishes(c, w))
  {
    hide PublicationMessages, Publishes;
    if w.executed.Some? {
      PublicationKeepsTheActor(c, NextSnapshot(c, request, w.executed.value.0, w.executed.value.1), w);
    }
  }

  /** The instance is given up exactly by a method whose execution failed and by any call whose
      publication did not go through, and then last. */
  lemma EvictedIff(k: Course, request: Request)
    ensures GivesUp(SentIn(k, request),
                    || (RunsIn(k, request) && k.world.executed.None? && request.kind == Method)
                    || (PublishesIn(k, request) && !Publishes(SettledIn(k), k.world)))
  {
    hide Taken, Accepted, Publishes, CallMessages;
    if TakenIn(k).Some? {
      var first, rest := SettlingMessages(TakenIn(k).value), CallMessages(SettledIn(k), request, k.world);
      GivenUpInCall(SettledIn(k), request, k.world);
      if rest != [] {
        assert (first + rest)[..|first + rest| - 1] == first + rest[..|rest| - 1];
      }
    }
  }

  // ----- what a call starts from --------------------------------------------------------------------

  /** The cached state of the capability's epoch; else a new one for version 0; else the
      downloaded snapshot of exactly that version and of no later epoch; else an error. */
  lemma TakenIff(k: Course)
    ensures var cached, cap, loaded := k.start, k.cap, k.world.loaded;
            if cached.Some? && cached.value.epoch == cap.epoch then TakenIn(k) == cached
            else if cap.version == 0 then
              TakenIn(k) == if cap.objectName.Some? then None
                else Some(Cached(cap.epoch, 0, None, None, None, None, None))
            else if cap.objectName.Some? && loaded.Some? && loaded.value.version == cap.version
                    && loaded.value.epoch <= cap.epoch then
              TakenIn(k) == Some(Cached(cap.epoch, loaded.value.version, Some(loaded.value.state),
                                        Some(loaded.value.request), Some(loaded.value.result), None, None))
            else TakenIn(k) == None
  {}

  /** With nothing pending the taken state is settled as it is; a pending commit is settled
      exactly by an answer for its own version, and then its snapshot is the state. */
  lemma SettledIff(k: Course)
    requires TakenIn(k).Some?
    ensures var c, answer := TakenIn(k).value, k.world.resolved;
            if c.pending.Some? && answer.Some? && answer.value.version == c.pending.value.snapshot.version then
              var s := c.pending.value.snapshot;
              SettledIn(k) == Cached(c.epoch, s.version, Some(s.state), Some(s.request), Some(s.result),
                                     answer.value.nextWrite, None)
            else SettledIn(k) == c
  {
    hide Taken;
  }

  // ----- the same steps as the protocol's ----------------------------------------------------------

  /** The code and the protocol start a call with the same cached state: the one in the
      map, a new one, or the one that loading gives. */
  lemma TakenAsInTheProtocol(p: Process, attempt: nat, request: Request, cap: Capability, call: nat,
                             loaded: Option<Snapshot>)
    requires cap.version == 0 <==> cap.objectName.None?
    ensures var phase := Begun(p, attempt, request, cap, call).phase;
            Taken(p.cache, cap, loaded) ==
            if !phase.Loading? then Some(phase.cached)
            else if loaded.Some? && LoadChecks(phase.cap, loaded.value)
            then Some(FromLoaded(cap.epoch, cap.version, loaded.value))
            else None
  {}

  // ----- with truthful stores ----------------------------------------------------------------------

  /** The pending object really is the committed one of its version. */
  predicate Acknowledged(l: Ledger, c: Cached) {
    c.pending.Some? && c.version < |l.committed| && l.committed[c.version] == c.pending.value.ticket.objectName
  }

  /** In the ledger as it is when the call ends, accepted commits are committed and a
      stored upload is the object under its name. */
  predicate Truthful(l: Ledger, taken: Cached, request: Request, w: World) {
    && (Accepted(taken, w.resolved) ==> Acknowledged(l, taken))
    && var c := Settled(taken, w.resolved);
    w.executed.Some? && ChosenTicket(c, w).Some? && w.encodes && w.stored ==>
      && var snapshot := NextSnapshot(c, request, w.executed.value.0, w.executed.value.1);
      var name := ChosenTicket(c, w).value.objectName;
      && name in l.store && l.store[name] == snapshot
      && (Publishes(c, w) ==> Acknowledged(l, c.(pending := Some(Pending(snapshot, ChosenTicket(c, w).value)))))
  }

  lemma SettledOk(l: Ledger, taken: Cached, request: Request, w: World)
    requires I.HistoryOk(l) && I.CachedOk(l, taken) && Truthful(l, taken, request, w)
    ensures I.CachedOk(l, Settled(taken, w.resolved))
  {
    if Accepted(taken, w.resolved) {
      assert I.SnapshotAt(l, taken.version + 1) == Some(taken.pending.value.snapshot);
    }
  }

  /** Whatever fails on the way, the state a call puts back is the committed snapshot of
      its version with at most a stored next one pending; and an answered call leaves
      nothing pending: its outcome is durable. */
  lemma CallLeavesCommittedState(l: Ledger, k: Course, request: Request, outcome: Ending, cache: Option<Cached>)
    requires I.HistoryOk(l) && Concludes(k, request, outcome, cache)
    requires TakenIn(k).Some? ==> I.CachedOk(l, TakenIn(k).value) && Truthful(l, TakenIn(k).value, request, k.world)
    ensures cache.Some? ==> I.CachedOk(l, cache.value)
    ensures outcome.Answered? ==>
              cache.Some? && cache.value.pending.None? && cache.value.state == I.StateAt(l, cache.value.version)
  {
    if cache.Some? {
      var c, w := SettledIn(k), k.world;
      SettledOk(l, TakenIn(k).value, request, w);
      if w.executed.Some? && Publishes(c, w) && cache.value != c {
        var snapshot := NextSnapshot(c, request, w.executed.value.0, w.executed.value.1);
        assert I.SnapshotAt(l, c.version + 1) == Some(snapshot);
      }
    }
  }
}
