/**
 The converse of `HostCalls`: calls of the code happen in the protocol. Whatever course of
 events the stores, the control plane and the executor can give an idle process as they
 stand in a reachable state, the protocol has steps that end the call with the reply and
 the cached state that the code ends with.
 */
module HostRuns {
  import opened Common
  import opened Protocol
  import opened ProtocolInvariant
  import opened ProtocolSteps
  import opened ProtocolSafety
  import opened ProtocolWitness
  import P = Placement
  import H = ActorHost
  import K = HostCalls

  /** The attempt is answered as the course says. */
  predicate EndsAs(t: System, pid: nat, attempt: nat, request: Request, k: H.Course, r: Reply) {
    && pid in t.processes && r in t.replies && r.attempt == attempt
    && H.Concludes(k, request, K.EndingOf(r), t.processes[pid].cache)
  }

  /** The call has got hold of the state that the course settles. */
  predicate Holds(k: H.Course, c: Cached) {
    H.TakenIn(k).Some? && H.SettledIn(k) == c
  }

  lemma FreshCall(calls: set<nat>) returns (n: nat)
    ensures forall x :: x in calls ==> x < n
    decreases |calls|
  {
    if calls == {} {
      n := 0;
    } else {
      var x :| x in calls;
      var m := FreshCall(calls - {x});
      assert forall y :: y in calls ==> y == x || y in calls - {x};
      n := if m > x then m else x + 1;
    }
  }

  // ----- publication -----------------------------------------------------------------------------

  /** A confirmation names the version, and its ticket a fresh object for the one after. */
  predicate MayGrant(s: System, answer: H.Answer, version: nat) {
    && answer.version == version
    && (answer.nextWrite.Some? ==>
         answer.nextWrite.value.version == version + 1 && answer.nextWrite.value.objectName !in s.holders)
  }

  function NameOf(ticket: Option<Ticket>): Option<string> {
    if ticket.None? then None else Some(ticket.value.objectName)
  }

  /** A confirmed commit takes the lead. */
  predicate CanCommit(s: System, p: Process, c: Cached, w: H.World) {
    H.Publishes(c, w) ==> Leads(s, p, c) && MayGrant(s, w.committed.value, c.version + 1)
  }

  /** What publication takes. An upload under a ticket the host already holds takes neither
      ownership nor a lease; a new ticket takes both. */
  predicate CanPublish(s: System, p: Process, c: Cached, w: H.World) {
    H.Stores(c, w) ==>
      && (H.ChosenTicket(c, w) != c.nextWrite ==>
            Owns(s, p, c) && H.ChosenTicket(c, w).value.objectName !in s.holders)
      && CanCommit(s, p, c, w)
      && (H.Publishes(c, w) ==> NameOf(w.committed.value.nextWrite) != Some(H.ChosenTicket(c, w).value.objectName))
  }

  /** Without a stored upload, publication fails at once as far as anybody can tell. */
  lemma FailsUnstored(customer: Customer, s: System, pid: nat, k: H.Course) returns (t: System, r: Reply)
    requires Reachable(customer, s) && pid in s.processes && s.processes[pid].phase.Executed?
    requires var phase := s.processes[pid].phase;
             Holds(k, phase.cached) && K.RanOn(k, phase.request, phase.work) && !H.Stores(phase.cached, k.world)
    ensures Reachable(customer, t)
    ensures EndsAs(t, pid, s.processes[pid].phase.attempt, s.processes[pid].phase.request, k, r)
  {
    hide Reachable, HostOnly;
    OneMoreAction(customer, s, pid, PublishFails);
    t := Act(customer, s, pid, PublishFails);
    r := OutcomeUnknown(s.processes[pid].phase.attempt);
    assert !H.Publishes(s.processes[pid].phase.cached, k.world);
  }

  /** The state with a snapshot pending under a ticket. */
  function WithPending(p: Process, ticket: Ticket): Cached
    requires p.phase.Executed?
  {
    p.phase.cached.(nextWrite := None, pending := Some(Pending(SnapshotOf(p.phase.cached, p.phase.work), ticket)))
  }

  /** The upload is stored and its commit call sent. */
  predicate Stored(s: System, t: System, pid: nat, ticket: Ticket)
    requires pid in s.processes && s.processes[pid].phase.Executed?
  {
    var p := s.processes[pid];
    var c := WithPending(p, ticket);
    && t.leases == s.leases && t.now == s.now && t.replies == s.replies && t.ledger.row == s.ledger.row
    && t.holders.Keys == s.holders.Keys + {ticket.objectName}
    && pid in t.processes && t.processes[pid].phase.Committing?
    && var call := t.processes[pid].phase.call;
    && t.processes[pid] == p.(phase := Committing(p.phase.attempt, p.phase.request, c, p.phase.work, call))
    && call in t.calls && t.calls[call] == CommitCall(pid, CommitOf(p, c), Sent)
  }

  lemma StoreWithHeld(customer: Customer, s: System, pid: nat) returns (t: System)
    requires Reachable(customer, s) && CanAct(customer, s, pid, UseTicket)
    ensures Reachable(customer, t) && Stored(s, t, pid, s.processes[pid].phase.cached.nextWrite.value)
  {
    hide Reachable, Inv, CachedOk, CapOk, LinkOk, RunningOk, UnansweredOk;
    ReachableInv(customer, s);
    ProcessFacts(customer, s, pid);
    var name := s.processes[pid].phase.cached.nextWrite.value.objectName;
    HeldNameIsUnused(customer, s, name);
    UnusedIsNotStored(customer, s, name);
    var call := FreshCall(s.calls.Keys);
    t := UseStep(customer, s, pid);
    t := LandSteps(customer, t, pid, call);
  }

  lemma StoreWithNew(customer: Customer, s: System, pid: nat, name: string) returns (t: System)
    requires Reachable(customer, s) && pid in s.processes && s.processes[pid].phase.Executed? && name !in s.holders
    requires Owns(s, s.processes[pid], s.processes[pid].phase.cached)
    ensures Reachable(customer, t) && Stored(s, t, pid, Ticket(s.processes[pid].phase.cached.version + 1, name))
  {
    hide Reachable, Inv, CachedOk, CapOk, LinkOk, RunningOk, UnansweredOk;
    ReachableInv(customer, s);
    ProcessFacts(customer, s, pid);
    NewNameIsUnused(customer, s, name);
    var call := FreshCall(s.calls.Keys);
    t := SendSteps(customer, s, pid, call, name);
    t := LandSteps(customer, t, pid, call + 1);
  }

  lemma StoreSteps(customer: Customer, s: System, pid: nat, w: H.World) returns (t: System)
    requires Reachable(customer, s) && pid in s.processes && s.processes[pid].phase.Executed?
    requires var c := s.processes[pid].phase.cached; H.Stores(c, w) && CanPublish(s, s.processes[pid], c, w)
    ensures Reachable(customer, t) && Stored(s, t, pid, H.ChosenTicket(s.processes[pid].phase.cached, w).value)
  {
    hide Reachable, Stored, Owns;
    var c := s.processes[pid].phase.cached;
    if H.ChosenTicket(c, w) == c.nextWrite {
      t := StoreWithHeld(customer, s, pid);
    } else {
      t := StoreWithNew(customer, s, pid, H.ChosenTicket(c, w).value.objectName);
    }
  }

  lemma UnusedIsNotStored(customer: Customer, s: System, name: string)
    requires Inv(customer, s) && name !in s.puts
    ensures name !in s.ledger.store
  {
    hide Inv, HeadOk, HistoryOk, PutsOk, CapsOk;
    LedgerFacts(customer, s);
  }

  lemma UseStep(customer: Customer, s: System, pid: nat) returns (t: System)
    requires Reachable(customer, s) && CanAct(customer, s, pid, UseTicket)
    ensures Reachable(customer, t)
    ensures var p := s.processes[pid];
            var c, ticket := p.phase.cached.(nextWrite := None), p.phase.cached.nextWrite.value;
            var snapshot := SnapshotOf(c, p.phase.work);
            && pid in t.processes
            && t == s.(puts := s.puts[ticket.objectName := Put(snapshot, p.phase.work)],
                       holders := s.holders[ticket.objectName := Spent],
                       processes := s.processes[pid := t.processes[pid]])
            && t.processes[pid]
               == p.(phase := Uploading(p.phase.work.attempt, p.phase.work.request, c, p.phase.work, snapshot, ticket))
  {
    hide Reachable;
    OneMoreAction(customer, s, pid, UseTicket);
    t := Act(customer, s, pid, UseTicket);
  }

  /** The upload of the course is pending and its commit call sent. */
  predicate AwaitsCommit(s: System, pid: nat, k: H.Course) {
    && pid in s.processes && s.processes[pid].phase.Committing? && H.TakenIn(k).Some?
    && var p, c := s.processes[pid], H.SettledIn(k);
    && K.RanOn(k, p.phase.request, p.phase.work) && H.Stores(c, k.world)
    && p.phase.cached == c.(nextWrite := None, pending := Some(Pending(SnapshotOf(c, p.phase.work),
                                                                       H.ChosenTicket(c, k.world).value)))
    && p.phase.call in s.calls && s.calls[p.phase.call] == CommitCall(pid, CommitOf(p, p.phase.cached), Sent)
  }

  /** From a stored upload, the commit is confirmed or its answer is lost. */
  lemma FromCommitting(customer: Customer, s: System, pid: nat, k: H.Course) returns (t: System, r: Reply)
    requires Reachable(customer, s) && AwaitsCommit(s, pid, k)
             && CanCommit(s, s.processes[pid], H.SettledIn(k), k.world)
    ensures Reachable(customer, t)
    ensures EndsAs(t, pid, s.processes[pid].phase.attempt, s.processes[pid].phase.request, k, r)
  {
    hide Reachable, HostOnly;
    var phase := s.processes[pid].phase;
    if H.Publishes(H.SettledIn(k), k.world) {
      t := CommitSteps(customer, s, pid, NameOf(k.world.committed.value.nextWrite));
      r := Completed(phase.attempt, phase.request, phase.cached.version + 1, phase.work.result, Some(phase.work.next),
                     ByCommit);
    } else {
      OneMoreAction(customer, s, pid, PublishFails);
      t := Act(customer, s, pid, PublishFails);
      r := OutcomeUnknown(phase.attempt);
    }
  }

  lemma StoredAwaits(s: System, t: System, pid: nat, k: H.Course)
    requires pid in s.processes && s.processes[pid].phase.Executed?
    requires var phase := s.processes[pid].phase;
             && Holds(k, phase.cached) && K.RanOn(k, phase.request, phase.work) && H.Stores(phase.cached, k.world)
             && CanPublish(s, s.processes[pid], phase.cached, k.world)
             && Stored(s, t, pid, H.ChosenTicket(phase.cached, k.world).value)
    ensures AwaitsCommit(t, pid, k) && CanCommit(t, t.processes[pid], H.SettledIn(k), k.world)
    ensures t.processes[pid].phase.attempt == s.processes[pid].phase.attempt
            && t.processes[pid].phase.request == s.processes[pid].phase.request
  {}

  lemma FromExecuted(customer: Customer, s: System, pid: nat, k: H.Course) returns (t: System, r: Reply)
    requires Reachable(customer, s) && pid in s.processes && s.processes[pid].phase.Executed?
    requires var phase := s.processes[pid].phase;
             && Holds(k, phase.cached) && K.RanOn(k, phase.request, phase.work)
             && CanPublish(s, s.processes[pid], phase.cached, k.world)
    ensures Reachable(customer, t)
    ensures EndsAs(t, pid, s.processes[pid].phase.attempt, s.processes[pid].phase.request, k, r)
  {
    hide Reachable, EndsAs, Stored, CanPublish;
    if H.Stores(s.processes[pid].phase.cached, k.world) {
      var t0 := StoreSteps(customer, s, pid, k.world);
      StoredAwaits(s, t0, pid, k);
      t, r := FromCommitting(customer, t0, pid, k);
    } else {
      t, r := FailsUnstored(customer, s, pid, k);
    }
  }

  // ----- execution ---------------------------------------------------------------------------------

  /** What a worker holds: its instance and the commands under way. */
  datatype Engine = Engine(instance: Option<Value>, strays: seq<Request>)

  function EngineOf(p: Process): Engine {
    Engine(p.instance, p.strays)
  }

  /** What a worker may do by itself: be evicted, or finish a stray. */
  datatype Move = Evict | Finish(stray: nat, result: Value, next: Value)

  predicate Drifts(customer: Customer, e: Engine, moves: seq<Move>, f: Engine)
    decreases |moves|
  {
    if moves == [] then e == f
    else
      match moves[0]
      case Evict => Drifts(customer, Engine(None, []), moves[1..], f)
      case Finish(i, result, next) =>
        && i < |e.strays| && customer(e.instance, e.strays[i]) == Done(result, next)
        && Drifts(customer, Engine(Some(next), Without(e.strays, i)), moves[1..], f)
  }

  /** A command on supplied state gets this answer, its own or a stray's. */
  predicate Gives(customer: Customer, e: Engine, supplied: Option<Value>, request: Request, result: Value,
                  next: Value) {
    || customer(if e.instance.Some? || e.strays != [] then e.instance else supplied, request) == Done(result, next)
    || exists i :: 0 <= i < |e.strays| && customer(e.instance, e.strays[i]) == Done(result, next)
  }

  /** The call runs. */
  predicate MustRun(c: Cached, request: Request, w: H.World) {
    c.pending.None? && !H.Replays(c, request) && w.executed.Some?
  }

  /** The executor can give this answer, perhaps after some moves of its own. */
  ghost predicate CanReturn(customer: Customer, e: Engine, c: Cached, request: Request, w: H.World) {
    MustRun(c, request, w) ==>
      exists moves, f ::
        Drifts(customer, e, moves, f) && Gives(customer, f, c.state, request, w.executed.value.0, w.executed.value.1)
  }

  function WithEngine(p: Process, e: Engine): Process {
    p.(instance := e.instance, strays := e.strays)
  }

  lemma {:induction false} DriftSteps(customer: Customer, s: System, pid: nat, moves: seq<Move>, f: Engine)
    returns (t: System)
    requires Reachable(customer, s) && pid in s.processes
    requires Drifts(customer, EngineOf(s.processes[pid]), moves, f)
    ensures Reachable(customer, t) && t == s.(processes := s.processes[pid := WithEngine(s.processes[pid], f)])
    decreases |moves|
  {
    hide Reachable;
    if moves == [] {
      t := s;
      assert s.processes[pid := WithEngine(s.processes[pid], f)] == s.processes;
    } else {
      var u := MoveStep(customer, s, pid, moves[0]);
      t := DriftSteps(customer, u, pid, moves[1..], f);
      assert u.processes[pid := WithEngine(u.processes[pid], f)] == s.processes[pid := WithEngine(s.processes[pid], f)];
    }
  }

  lemma MoveStep(customer: Customer, s: System, pid: nat, move: Move) returns (t: System)
    requires Reachable(customer, s) && pid in s.processes
    requires var p := s.processes[pid];
             move.Finish? ==>
               && move.stray < |p.strays|
               && customer(p.instance, p.strays[move.stray]) == Done(move.result, move.next)
    ensures Reachable(customer, t)
    ensures var p := s.processes[pid];
            var e := if move.Evict? then Engine(None, []) else Engine(Some(move.next), Without(p.strays, move.stray));
            t == s.(processes := s.processes[pid := WithEngine(p, e)])
  {
    hide Reachable;
    var action := if move.Evict? then InstanceEvicted else StrayReturns(move.stray, move.result, move.next);
    OneMoreAction(customer, s, pid, action);
    t := Act(customer, s, pid, action);
  }

  /** The waiting command is answered. */
  lemma AnswerStep(customer: Customer, s: System, pid: nat, result: Value, next: Value) returns (t: System)
    requires Reachable(customer, s) && pid in s.processes && s.processes[pid].phase.Ready?
    requires !MustReplay(s.processes[pid].phase)
    requires var p := s.processes[pid];
             Gives(customer, EngineOf(p), p.phase.cached.state, p.phase.request, result, next)
    ensures Reachable(customer, t) && pid in t.processes
    ensures t == s.(processes := s.processes[pid := t.processes[pid]], replies := t.replies)
    ensures var p, q := s.processes[pid], t.processes[pid];
            && q.host == p.host && q.session == p.session && q.region == p.region
            && if p.phase.cached.state == Some(next) then
                 && q.phase.Idle? && q.cache == Some(p.phase.cached)
                 && Completed(p.phase.attempt, p.phase.request, p.phase.cached.version, result, Some(next), ByNoChange)
                    in t.replies
               else
                 && q.phase.Executed? && q.phase.attempt == p.phase.attempt && q.phase.request == p.phase.request
                 && q.phase.cached == p.phase.cached && q.phase.work.request == p.phase.request
                 && q.phase.work.result == result && q.phase.work.next == next
  {
    hide Reachable, HostOnly;
    var p := s.processes[pid];
    var action := Execute(result, next);
    if customer(ExecutionBase(p, p.phase.cached.state), p.phase.request) != Done(result, next) {
      var i :| 0 <= i < |p.strays| && customer(p.instance, p.strays[i]) == Done(result, next);
      action := StrayAnswers(i, result, next);
    }
    OneMoreAction(customer, s, pid, action);
    t := Act(customer, s, pid, action);
  }

  lemma AnswersAtOnce(customer: Customer, s: System, pid: nat, k: H.Course) returns (t: System, r: Reply)
    requires Reachable(customer, s) && pid in s.processes && s.processes[pid].phase.Ready?
    requires var p := s.processes[pid];
             && Holds(k, p.phase.cached) && p.phase.cached.pending.None?
             && (H.Replays(p.phase.cached, p.phase.request) || k.world.executed.None?)
    ensures Reachable(customer, t)
    ensures EndsAs(t, pid, s.processes[pid].phase.attempt, s.processes[pid].phase.request, k, r)
  {
    hide Reachable, HostOnly;
    var phase := s.processes[pid].phase;
    if H.Replays(phase.cached, phase.request) {
      OneMoreAction(customer, s, pid, Replay);
      t := Act(customer, s, pid, Replay);
      r := Completed(phase.attempt, phase.request, phase.cached.version, Replayed(phase.cached, phase.request.id).value,
                     phase.cached.state, ByReplay);
    } else {
      OneMoreAction(customer, s, pid, ExecuteFails(false));
      t := Act(customer, s, pid, ExecuteFails(false));
      r := Failed(phase.attempt);
    }
  }

  /** The call runs, changes its state and publishes it. */
  predicate MustPublish(c: Cached, request: Request, w: H.World) {
    MustRun(c, request, w) && c.state != Some(w.executed.value.1)
  }

  lemma FromReady(customer: Customer, s: System, pid: nat, k: H.Course) returns (t: System, r: Reply)
    requires Reachable(customer, s) && pid in s.processes && s.processes[pid].phase.Ready?
    requires var p := s.processes[pid];
             && Holds(k, p.phase.cached) && p.phase.cached.pending.None?
             && CanReturn(customer, EngineOf(p), p.phase.cached, p.phase.request, k.world)
             && (MustPublish(p.phase.cached, p.phase.request, k.world) ==> CanPublish(s, p, p.phase.cached, k.world))
    ensures Reachable(customer, t)
    ensures EndsAs(t, pid, s.processes[pid].phase.attempt, s.processes[pid].phase.request, k, r)
  {
    hide Reachable, Drifts, Gives;
    var phase := s.processes[pid].phase;
    if MustRun(phase.cached, phase.request, k.world) {
      var (result, next) := k.world.executed.value;
      var moves, f :| Drifts(customer, EngineOf(s.processes[pid]), moves, f)
                      && Gives(customer, f, phase.cached.state, phase.request, result, next);
      var u := DriftSteps(customer, s, pid, moves, f);
      u := AnswerStep(customer, u, pid, result, next);
      if phase.cached.state == Some(next) {
        t := u;
        r := Completed(phase.attempt, phase.request, phase.cached.version, result, Some(next), ByNoChange);
      } else {
        t, r := FromExecuted(customer, u, pid, k);
      }
    } else {
      t, r := AnswersAtOnce(customer, s, pid, k);
    }
  }

  // ----- a pending commit ----------------------------------------------------------------------------

  /** The row is already at the pending object: the commit went through and its reply was
      lost. Under a live lease the read back confirms it, whoever owns the row now. */
  predicate WentThrough(s: System, p: Process, c: Cached) {
    c.pending.Some? && MayCall(s, p, c) && s.ledger.row.Some? && P.IsReplayed(s.ledger.row.value, CommitOf(p, c))
  }

  /** The stores once the pending commit is confirmed, as far as publication looks at them. */
  function Confirmed(s: System, p: Process, c: Cached, ticket: Option<Ticket>): System
    requires c.pending.Some? && s.ledger.row.Some?
  {
    var row := if Leads(s, p, c) then P.Advance(s.ledger.row.value, CommitOf(p, c)) else s.ledger.row.value;
    var holders := if ticket.None? then s.holders else s.holders[ticket.value.objectName := Spent];
    s.(ledger := s.ledger.(row := Some(row)), holders := holders)
  }

  /** The pending commit can be confirmed: it wins, or it went through before. */
  predicate CanConfirm(s: System, p: Process, taken: Cached, answer: H.Answer) {
    (Leads(s, p, taken) || WentThrough(s, p, taken)) && MayGrant(s, answer, taken.version + 1)
  }

  /** What the stores, the control plane and the executor can give as they stand. */
  ghost predicate CanGive(customer: Customer, s: System, p: Process, k: H.Course, request: Request) {
    && (k.world.loaded.Some? && k.cap.version > 0 && !(k.start.Some? && k.start.value.epoch == k.cap.epoch) ==>
          && k.cap.objectName.Some? && k.cap.objectName.value in s.ledger.store
          && k.world.loaded.value == s.ledger.store[k.cap.objectName.value])
    && (H.TakenIn(k).Some? ==>
          var taken, c := H.TakenIn(k).value, H.SettledIn(k);
          && CanReturn(customer, EngineOf(p), c, request, k.world)
          && if H.Accepted(taken, k.world.resolved) then
               && CanConfirm(s, p, taken, k.world.resolved.value)
               && (MustPublish(c, request, k.world) ==>
                     CanPublish(Confirmed(s, p, taken, k.world.resolved.value.nextWrite), p, c, k.world))
             else
               MustPublish(c, request, k.world) ==> CanPublish(s, p, c, k.world))
  }

  /** Publication looks at the row, the leases, the clock and the names, and at no more. */
  predicate SameToPublication(s: System, t: System) {
    t.ledger.row == s.ledger.row && t.leases == s.leases && t.now == s.now && t.holders.Keys == s.holders.Keys
  }

  lemma PublishesAlike(s: System, t: System, p: Process, q: Process, c: Cached, w: H.World)
    requires CanPublish(s, p, c, w)
    requires SameToPublication(s, t)
    requires q.host == p.host && q.session == p.session && q.region == p.region
    ensures CanPublish(t, q, c, w)
  {}

  /** After the lease check the call is answered, by the update or by the read back. */
  lemma ConfirmSteps(customer: Customer, s: System, pid: nat, ticket: Option<Ticket>) returns (t: System)
    requires Reachable(customer, s) && pid in s.processes && s.processes[pid].phase.Resolving?
    requires var p := s.processes[pid];
             && p.phase.cached.pending.Some?
             && p.phase.cached.pending.value.snapshot.version == p.phase.cached.version + 1
             && p.phase.call in s.calls && s.calls[p.phase.call] == CommitCall(pid, CommitOf(p, p.phase.cached), Sent)
             && CanConfirm(s, p, p.phase.cached, H.Answer(p.phase.cached.version + 1, ticket))
    ensures Reachable(customer, t) && pid in t.processes
    ensures var p := s.processes[pid];
            var u := Confirmed(s, p, p.phase.cached, ticket);
            && SameToPublication(u, t)
            && t.processes[pid]
               == p.(phase := Ready(p.phase.attempt, p.phase.request, Promote(p.phase.cached, ticket)))
  {
    hide Reachable;
    var p := s.processes[pid];
    var call := p.phase.call;
    t := CheckStep(customer, s, call);
    if Leads(s, p, p.phase.cached) {
      t := GrantStep(customer, t, pid, call, NameOf(ticket));
    } else {
      t := ReadBackSteps(customer, t, pid, call, NameOf(ticket));
    }
    t := ResolveStep(customer, t, pid);
  }

  /** The update misses, and the separate read finds the commit done. */
  lemma ReadBackSteps(customer: Customer, s: System, pid: nat, call: nat, minted: Option<string>) returns (t: System)
    requires Reachable(customer, s) && call in s.calls && s.calls[call].CommitCall? && s.calls[call].stage == Checked
    requires var c := s.calls[call].commit;
             s.ledger.row.Some? && P.IsReplayed(s.ledger.row.value, c) && c.expected < I64_MAX && FreshName(s, minted)
    ensures Reachable(customer, t)
    ensures var c := s.calls[call].commit;
            var granted := CommitCall(s.calls[call].process, c,
                                      Granted(c.expected + 1, MintedTicket(c.expected + 2, minted)));
            && t == s.(calls := s.calls[call := granted], holders := t.holders)
            && t.holders == if minted.None? then s.holders else s.holders[minted.value := InReply(call)]
  {
    hide Reachable;
    OneMoreEvent(customer, s, TryCommit(call, None));
    var u := Happen(s, TryCommit(call, None));
    OneMoreEvent(customer, u, ReadBack(call, minted));
    t := Happen(u, ReadBack(call, minted));
    assert t.calls == s.calls[call := t.calls[call]];
  }

  lemma ResolveStep(customer: Customer, s: System, pid: nat) returns (t: System)
    requires Reachable(customer, s) && CanAct(customer, s, pid, ResolveOk)
    ensures Reachable(customer, t) && t.ledger == s.ledger && t.leases == s.leases && t.now == s.now
    ensures var p := s.processes[pid];
            var ticket := s.calls[p.phase.call].stage.ticket;
            && t.holders == (if ticket.None? then s.holders else s.holders[ticket.value.objectName := InCache(pid)])
            && t.processes
               == s.processes[pid := p.(phase := Ready(p.phase.attempt, p.phase.request,
                                                       Promote(p.phase.cached, ticket)))]
  {
    hide Reachable;
    OneMoreAction(customer, s, pid, ResolveOk);
    t := Act(customer, s, pid, ResolveOk);
  }

  lemma FromResolving(customer: Customer, s: System, pid: nat, k: H.Course) returns (t: System, r: Reply)
    requires Reachable(customer, s) && pid in s.processes && s.processes[pid].phase.Resolving?
    requires var p := s.processes[pid];
             && H.TakenIn(k) == Some(p.phase.cached) && CanGive(customer, s, p, k, p.phase.request)
             && p.phase.cached.pending.Some?
             && p.phase.cached.pending.value.snapshot.version == p.phase.cached.version + 1
             && p.phase.call in s.calls && s.calls[p.phase.call] == CommitCall(pid, CommitOf(p, p.phase.cached), Sent)
    ensures Reachable(customer, t)
    ensures EndsAs(t, pid, s.processes[pid].phase.attempt, s.processes[pid].phase.request, k, r)
  {
    hide Reachable, CanReturn, CanPublish, EndsAs;
    var p := s.processes[pid];
    if H.Accepted(p.phase.cached, k.world.resolved) {
      var ticket := k.world.resolved.value.nextWrite;
      var u := ConfirmSteps(customer, s, pid, ticket);
      if MustPublish(H.SettledIn(k), p.phase.request, k.world) {
        PublishesAlike(Confirmed(s, p, p.phase.cached, ticket), u, p, u.processes[pid], H.SettledIn(k), k.world);
      }
      t, r := FromReady(customer, u, pid, k);
    } else {
      t, r := StaysUnresolved(customer, s, pid, k);
    }
  }

  lemma StaysUnresolved(customer: Customer, s: System, pid: nat, k: H.Course) returns (t: System, r: Reply)
    requires Reachable(customer, s) && pid in s.processes && s.processes[pid].phase.Resolving?
    requires var phase := s.processes[pid].phase;
             Holds(k, phase.cached) && phase.cached.pending.Some?
    ensures Reachable(customer, t)
    ensures EndsAs(t, pid, s.processes[pid].phase.attempt, s.processes[pid].phase.request, k, r)
  {
    hide Reachable, HostOnly;
    OneMoreAction(customer, s, pid, ResolveFails);
    t := Act(customer, s, pid, ResolveFails);
    r := OutcomeUnknown(s.processes[pid].phase.attempt);
  }

  // ----- admission --------------------------------------------------------------------------------------

  lemma TakeUp(customer: Customer, s: System, pid: nat, request: Request, cap: Capability) returns (t: System)
    requires Reachable(customer, s) && pid in s.processes && s.processes[pid].phase.Idle?
    requires cap in s.caps && cap.host == s.processes[pid].host
    ensures Reachable(customer, t) && t.ledger == s.ledger && t.leases == s.leases && t.now == s.now
            && t.holders == s.holders
    ensures pid in t.processes
    ensures var q := t.processes[pid];
            && q == s.processes[pid].(phase := q.phase, cache := None, epoch := Some(cap.epoch))
            && var call := if q.phase.Resolving? then q.phase.call else 0;
            && q.phase == Begun(s.processes[pid], |s.attempts|, request, cap, call).phase
            && (q.phase.Resolving? ==>
                  call in t.calls && t.calls[call] == CommitCall(pid, CommitOf(q, q.phase.cached), Sent))
  {
    hide Reachable;
    var call := FreshCall(s.calls.Keys);
    OneMoreAction(customer, s, pid, Begin(request, cap, call));
    t := Act(customer, s, pid, Begin(request, cap, call));
  }

  lemma FromLoading(customer: Customer, s: System, pid: nat, k: H.Course) returns (t: System, r: Reply)
    requires Reachable(customer, s) && pid in s.processes && s.processes[pid].phase.Loading?
    requires var p := s.processes[pid];
             && p.cache.None? && p.phase.cap == k.cap && k.cap.version > 0
             && !(k.start.Some? && k.start.value.epoch == k.cap.epoch)
             && CanGive(customer, s, p, k, p.phase.request)
    ensures Reachable(customer, t)
    ensures EndsAs(t, pid, s.processes[pid].phase.attempt, s.processes[pid].phase.request, k, r)
  {
    hide Reachable, Inv;
    var p := s.processes[pid];
    if k.world.loaded.Some? {
      ReachableInv(customer, s);
      LoadedSnapshotsCheckOut(customer, s, pid);
      var u := LoadStep(customer, s, pid);
      t, r := FromReady(customer, u, pid, k);
    } else {
      t, r := LoadingFails(customer, s, pid, k);
    }
  }

  lemma LoadStep(customer: Customer, s: System, pid: nat) returns (t: System)
    requires Reachable(customer, s) && CanAct(customer, s, pid, Load)
    ensures Reachable(customer, t)
    ensures var p := s.processes[pid];
            var c := FromLoaded(p.phase.cap.epoch, p.phase.cap.version, s.ledger.store[p.phase.cap.objectName.value]);
            t == s.(processes := s.processes[pid := p.(phase := Ready(p.phase.attempt, p.phase.request, c))])
  {
    hide Reachable;
    OneMoreAction(customer, s, pid, Load);
    t := Act(customer, s, pid, Load);
  }

  lemma LoadingFails(customer: Customer, s: System, pid: nat, k: H.Course) returns (t: System, r: Reply)
    requires Reachable(customer, s) && pid in s.processes && s.processes[pid].phase.Loading?
             && s.processes[pid].cache.None?
    requires H.TakenIn(k).None?
    ensures Reachable(customer, t)
    ensures EndsAs(t, pid, s.processes[pid].phase.attempt, s.processes[pid].phase.request, k, r)
  {
    hide Reachable, HostOnly;
    OneMoreAction(customer, s, pid, LoadFails);
    t := Act(customer, s, pid, LoadFails);
    r := Unavailable(s.processes[pid].phase.attempt);
  }

  /** Every course of events that can be given to an idle process, as the stores, the control
      plane and the executor stand in a reachable state, happens: the protocol has steps
      that take up the call as its next attempt and end it with the reply and the cached
      state of `ActorHost.Host.Call` on that course. */
  lemma EveryHostCallCanHappen(customer: Customer, s: System, pid: nat, request: Request, k: H.Course)
    returns (t: System, r: Reply)
    requires Reachable(customer, s) && pid in s.processes && s.processes[pid].phase.Idle?
    requires k.cap in s.caps && k.cap.host == s.processes[pid].host && k.start == s.processes[pid].cache
    requires CanGive(customer, s, s.processes[pid], k, request)
    ensures Reachable(customer, t) && EndsAs(t, pid, |s.attempts|, request, k, r)
  {
    hide Reachable, EndsAs, Inv, CanReturn, CanPublish;
    ReachableInv(customer, s);
    StartFacts(customer, s, pid, k.cap);
    var u := TakeUp(customer, s, pid, request, k.cap);
    GivenAlike(customer, s, u, s.processes[pid], u.processes[pid], k, request);
    match u.processes[pid].phase
    case Resolving(_, _, _, _) => t, r := FromResolving(customer, u, pid, k);
    case Ready(_, _, _) => t, r := FromReady(customer, u, pid, k);
    case Loading(_, _, _) => t, r := FromLoading(customer, u, pid, k);
  }

  /** Taking up the call changes nothing that the answers depend on. */
  lemma GivenAlike(customer: Customer, s: System, t: System, p: Process, q: Process, k: H.Course, request: Request)
    requires CanGive(customer, s, p, k, request)
    requires t.ledger == s.ledger && t.leases == s.leases && t.now == s.now && t.holders == s.holders
    requires q.host == p.host && q.session == p.session && q.region == p.region && EngineOf(q) == EngineOf(p)
    ensures CanGive(customer, t, q, k, request)
  {
    hide CanReturn, CanConfirm, MustPublish, CanPublish, Confirmed;
    if H.TakenIn(k).Some? && MustPublish(H.SettledIn(k), request, k.world) {
      var taken := H.TakenIn(k).value;
      if H.Accepted(taken, k.world.resolved) {
        var ticket := k.world.resolved.value.nextWrite;
        ConfirmsAlike(s, t, p, q, taken, k.world.resolved.value);
        PublishesAlike(Confirmed(s, p, taken, ticket), Confirmed(t, q, taken, ticket), p, q, H.SettledIn(k), k.world);
      } else {
        PublishesAlike(s, t, p, q, H.SettledIn(k), k.world);
      }
    } else if H.TakenIn(k).Some? && H.Accepted(H.TakenIn(k).value, k.world.resolved) {
      ConfirmsAlike(s, t, p, q, H.TakenIn(k).value, k.world.resolved.value);
    }
  }

  lemma ConfirmsAlike(s: System, t: System, p: Process, q: Process, c: Cached, answer: H.Answer)
    requires CanConfirm(s, p, c, answer) && c.pending.Some?
    requires t.ledger == s.ledger && t.leases == s.leases && t.now == s.now && t.holders == s.holders
    requires q.host == p.host && q.session == p.session
    ensures CanConfirm(t, q, c, answer)
    ensures s.ledger.row.Some? && t.ledger.row.Some?
    ensures SameToPublication(Confirmed(s, p, c, answer.nextWrite), Confirmed(t, q, c, answer.nextWrite))
  {
    hide Leads, MayCall, P.IsReplayed, SameToPublication, Confirmed;
    LeadsAlike(s, t, p, q, c);
    ConfirmedAlike(s, t, p, q, c, answer.nextWrite);
  }

  lemma ConfirmedAlike(s: System, t: System, p: Process, q: Process, c: Cached, ticket: Option<Ticket>)
    requires c.pending.Some? && s.ledger.row.Some?
    requires t.ledger == s.ledger && t.leases == s.leases && t.now == s.now && t.holders == s.holders
    requires q.host == p.host && q.session == p.session
    ensures SameToPublication(Confirmed(s, p, c, ticket), Confirmed(t, q, c, ticket))
  {
    hide Leads, P.Advance;
    LeadsAlike(s, t, p, q, c);
  }

  lemma LeadsAlike(s: System, t: System, p: Process, q: Process, c: Cached)
    requires t.ledger == s.ledger && t.leases == s.leases && t.now == s.now
    requires q.host == p.host && q.session == p.session
    ensures MayCall(t, q, c) == MayCall(s, p, c) && Leads(t, q, c) == Leads(s, p, c)
    ensures Leads(s, p, c) ==> s.ledger.row.Some?
    ensures c.pending.Some? ==> CommitOf(q, c) == CommitOf(p, c)
  {}

  lemma StartFacts(customer: Customer, s: System, pid: nat, cap: Capability)
    requires Inv(customer, s) && pid in s.processes && cap in s.caps
    ensures cap.version == 0 <==> cap.objectName.None?
    ensures var c := s.processes[pid].cache;
            c.Some? && c.value.pending.Some? ==> c.value.pending.value.snapshot.version == c.value.version + 1
  {
    hide Inv, HeadOk, StoreOk, PutsOk, HistoryOk;
    ProcessFacts(customer, s, pid);
    LedgerFacts(customer, s);
    assert CapOk(s.ledger, cap);
  }

  /** A method whose commit is pending can be retried to its end, whether that commit never
      arrived or went through and its reply was lost: the caller is told the result of
      the pending snapshot, and that snapshot is the cached state. */
  lemma RetryCanSucceed(customer: Customer, s: System, pid: nat, request: Request, cap: Capability)
    returns (t: System, r: Reply)
    requires Reachable(customer, s) && pid in s.processes && s.processes[pid].phase.Idle?
    requires cap in s.caps && cap.host == s.processes[pid].host && CacheHit(s.processes[pid], cap)
    requires var c := s.processes[pid].cache.value;
             && c.pending.Some? && request.kind == Method && request.id == c.pending.value.snapshot.request
             && (Leads(s, s.processes[pid], c) || WentThrough(s, s.processes[pid], c))
    ensures Reachable(customer, t) && pid in t.processes && r in t.replies
    ensures var c := s.processes[pid].cache.value;
            && r.Completed? && r.attempt == |s.attempts| && r.result == c.pending.value.snapshot.result
            && t.processes[pid].cache == Some(Promote(c, None))
  {
    hide Reachable, Inv, CanReturn, CanPublish;
    ReachableInv(customer, s);
    StartFacts(customer, s, pid, cap);
    var c := s.processes[pid].cache.value;
    var w := K.SILENT.(resolved := Some(H.Answer(c.version + 1, None)));
    var k := H.Course(Some(c), cap, w);
    RunsNothing(customer, EngineOf(s.processes[pid]), H.SettledIn(k), request, w);
    t, r := EveryHostCallCanHappen(customer, s, pid, request, k);
  }

  lemma RunsNothing(customer: Customer, e: Engine, c: Cached, request: Request, w: H.World)
    requires w.executed.None?
    ensures CanReturn(customer, e, c, request, w) && !MustPublish(c, request, w)
  {}
}
