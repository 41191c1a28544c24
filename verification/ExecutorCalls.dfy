/**
 The executor inside the commit protocol. One executor serves all actors of a host, each
 with its own protocol. In clean runs the states that hosts hold in those protocols are
 the states that the executor's instances must have; an exchange of the code is then a
 step of the protocol, and a step of the protocol the outcome of an exchange.
 */
module ExecutorCalls {
  import opened Common
  import opened Protocol
  import A = ProtocolAgreement
  import E = Executor

  /** The process was reached by a clean run of its actor's protocol, and the worker has
      nothing of a cancelled call under way. */
  ghost predicate Clean(customer: Customer, p: Process) {
    && p.strays == []
    && exists steps, pid :: FromRun(customer, steps, pid, p)
  }

  ghost predicate FromRun(customer: Customer, steps: seq<Step>, pid: nat, p: Process) {
    && After(customer, steps).Some? && A.EveryStep(customer, steps, A.CleanStep)
    && pid in After(customer, steps).value.processes && After(customer, steps).value.processes[pid] == p
  }

  ghost predicate AllClean(customer: Customer, processes: map<E.Key, Process>) {
    forall key :: key in processes ==> Clean(customer, processes[key])
  }

  /** The state that the host of a process holds: the one its call works on, the one its
      customer code returned, or the cached one. With none of these nobody vouches for the
      instance, and the next clean call finds it to be the state it loads. */
  function HeldBy(p: Process): Option<Value> {
    match p.phase
    case Idle => if p.cache.Some? then p.cache.value.state else p.instance
    case Loading(_, _, _) => p.instance
    case Resolving(_, _, c, _) => c.state
    case Ready(_, _, c) => c.state
    case _ => Some(p.phase.work.next)
  }

  function HeldStates(processes: map<E.Key, Process>): map<E.Key, Value> {
    map key | key in processes && HeldBy(processes[key]).Some? :: HeldBy(processes[key]).value
  }

  /** An instance that is there is the one of the actor's process. The protocol may still
      show one that was evicted: `InstanceEvicted` can follow at any time. */
  predicate Shown(actors: map<E.Key, E.Resident>, processes: map<E.Key, Process>) {
    forall key :: key in actors && E.HasInstance(actors, key) ==>
      key in processes && processes[key].instance == Some(E.Instance(actors, key))
  }

  lemma CleanAgrees(customer: Customer, p: Process)
    requires Clean(customer, p)
    ensures A.Agrees(p)
  {
    hide A.Agrees, A.EveryStep, A.CleanStep, After;
    var steps, pid :| FromRun(customer, steps, pid, p);
    A.RunsAgreeIffClean(customer, steps);
    assert A.Agreement(After(customer, steps).value);
  }

  lemma AgreedIsHeld(p: Process)
    requires A.Agrees(p) && p.strays == [] && p.instance.Some?
    ensures HeldBy(p) == p.instance
  {}

  /** The executor's instances are the states held in the protocols. */
  lemma ShownIsCoherent(customer: Customer, actors: map<E.Key, E.Resident>, processes: map<E.Key, Process>)
    requires AllClean(customer, processes) && Shown(actors, processes)
    ensures E.Coherent(actors, HeldStates(processes))
  {
    hide A.Agrees, Clean, HeldBy;
    forall key | E.HasInstance(actors, key)
      ensures key in HeldStates(processes) && HeldStates(processes)[key] == E.Instance(actors, key)
    {
      assert Clean(customer, processes[key]);
      CleanAgrees(customer, processes[key]);
      NothingUnderWay(customer, processes[key]);
      AgreedIsHeld(processes[key]);
    }
  }

  lemma NothingUnderWay(customer: Customer, p: Process)
    requires Clean(customer, p)
    ensures p.strays == []
  {}

  /** The protocol's step for a reply. */
  function ActionOf(reply: E.Reply): Action {
    if reply.Succeeded? then Execute(reply.result, reply.state) else ExecuteFails(true)
  }

  /** Nothing stands in the way of the exchange. */
  predicate Calm(e: E.Setting) {
    !E.Refused(e) && !e.crash && !e.replyTooLarge && e.first == E.Kept && e.second == E.Kept
  }

  /** The actor's process is about to run its request. */
  predicate AboutToRun(s: System, pid: nat, processes: map<E.Key, Process>, key: E.Key) {
    && pid in s.processes && s.processes[pid].phase.Ready? && !MustReplay(s.processes[pid].phase)
    && key in processes && processes[key] == s.processes[pid]
  }

  /** In step with its executor, the process can take the step for any reply; and a reply
      that nothing stood in the way of is the success that the protocol allows. */
  lemma ReplyIsAStep(customer: Customer, s: System, pid: nat, e: E.Setting, before: bool, after: bool, reply: E.Reply)
    requires pid in s.processes && s.processes[pid].phase.Ready? && !MustReplay(s.processes[pid].phase)
    requires var phase := s.processes[pid].phase;
             && A.Agrees(s.processes[pid])
             && E.Replies(customer, phase.cached.state, phase.request, e, before, after, reply)
    ensures CanAct(customer, s, pid, ActionOf(reply))
    ensures Act(customer, s, pid, ActionOf(reply)).processes[pid].instance
            == if reply.Succeeded? then Some(reply.state) else s.processes[pid].instance
    ensures before && Calm(e) ==>
              forall result, next :: CanAct(customer, s, pid, Execute(result, next)) ==>
                reply == E.Succeeded(result, next)
  {
    hide E.Refused, HostOnly;
  }

  lemma ShownAfter(before: map<E.Key, E.Resident>, after: map<E.Key, E.Resident>, processes: map<E.Key, Process>,
                   held: map<E.Key, Value>, key: E.Key, reply: E.Reply, q: Process)
    requires Shown(before, processes) && key in processes
    requires E.Coherent(before, held) && E.Gains(before, after, key, reply.Succeeded?)
    requires E.Coherent(after, if reply.Succeeded? then held[key := reply.state] else held)
    requires q.instance == if reply.Succeeded? then Some(reply.state) else processes[key].instance
    ensures Shown(after, processes[key := q])
  {
    var updated := processes[key := q];
    forall k | k in after && E.HasInstance(after, k)
      ensures k in updated && updated[k].instance == Some(E.Instance(after, k))
    {
      if k != key || !reply.Succeeded? {
        assert E.HasInstance(before, k) && E.Instance(before, k) == held[k] == E.Instance(after, k);
      }
    }
  }

  /** An exchange with residency elision, for a process about to run, is the protocol's step
      for its reply; and if nothing stands in the way, each success that the protocol
      allows is the reply. */
  method ExchangeInProtocol(customer: Customer, executor: E.JsActorExecutor, s: System, pid: nat,
                            ghost processes: map<E.Key, Process>, key: E.Key, e: E.Setting, now: int)
    returns (reply: E.Reply)
    requires executor.Valid() && key !in e.busy && AboutToRun(s, pid, processes, key)
    requires AllClean(customer, processes)
    requires executor.connected ==> Shown(executor.supervisor.actors, processes)
    modifies executor, executor.supervisor
    ensures executor.Valid()
    ensures CanAct(customer, s, pid, ActionOf(reply))
    ensures executor.connected ==>
              Shown(executor.supervisor.actors,
                    processes[key := Act(customer, s, pid, ActionOf(reply)).processes[pid]])
    ensures old(executor.connected) && Calm(e) ==>
              forall result, next :: CanAct(customer, s, pid, Execute(result, next)) ==>
                reply == E.Succeeded(result, next)
  {
    hide A.Agrees, Clean, Shown, E.Coherent, E.Elides, E.Gains, E.Replies, CanAct, Act, Calm, HeldStates, ActionOf;
    var phase := s.processes[pid].phase;
    ghost var before := executor.supervisor.actors;
    ghost var held := HeldStates(processes);
    if executor.connected {
      ShownIsCoherent(customer, before, processes);
    }
    CleanAgrees(customer, s.processes[pid]);
    StateIsHeld(processes, key);
    reply := executor.ExchangeWithState(customer, key, phase.request, held, phase.cached.state, e, now);
    ReplyIsAStep(customer, s, pid, e, old(executor.connected), executor.connected, reply);
    if executor.connected {
      ShownAfter(before, executor.supervisor.actors, processes, held, key, reply,
                 Act(customer, s, pid, ActionOf(reply)).processes[pid]);
    }
  }

  lemma StateIsHeld(processes: map<E.Key, Process>, key: E.Key)
    requires key in processes && processes[key].phase.Ready?
    ensures E.Lookup(HeldStates(processes), key) == processes[key].phase.cached.state
  {}

  /** Eviction by the host, after a failed publication or method, is the protocol's. */
  lemma EvictionIsShown(actors: map<E.Key, E.Resident>, processes: map<E.Key, Process>, key: E.Key)
    requires Shown(actors, processes) && key in processes
    ensures Shown(actors - {key}, processes[key := Evicted(processes[key])])
  {
    forall k | k in actors - {key} && E.HasInstance(actors - {key}, k)
      ensures k in processes && processes[k].instance == Some(E.Instance(actors - {key}, k))
    {
      assert E.HasInstance(actors, k);
    }
  }
}
