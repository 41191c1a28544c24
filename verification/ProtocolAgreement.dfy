/**
 Runs in which the executor can be trusted. A resident JavaScript instance runs on its
 own state and ignores what the host supplies, and the reply of a command whose call was
 cancelled answers whichever command waits next. So a call that gets hold of its state
 must find the instance to be that state and nothing else under way. It may not when an
 earlier call left an instance or a command behind with no cached state to vouch for it:
 a cached state of another epoch was dropped, or a call was cancelled. The steps that
 break agreement are characterised exactly; a run without them is clean, and its durable
 history is one sequential execution of the requests its hosts took up.
 */
module ProtocolAgreement {
  import opened Common
  import opened Protocol
  import opened ProtocolInvariant
  import opened ProtocolSteps
  import opened ProtocolSafety

  // ----- runs restricted by a condition on their steps -----------------------------------------

  /** A call that gets hold of its state finds the executor in step with it. */
  predicate CleanStep(s: System, step: Step) {
    step.Host? && step.pid in s.processes ==> CleanAction(s.ledger.store, s.processes[step.pid], step.action)
  }

  /** The state is that of a new object, or is loaded; one in the cache is in step. */
  predicate CleanAction(store: map<string, Snapshot>, p: Process, action: Action) {
    match action
    case Begin(_, cap, _) => CacheHit(p, cap) || cap.version > 0 || InStep(p, None)
    case Load =>
      p.phase.Loading? && p.phase.cap.objectName.Some? && p.phase.cap.objectName.value in store ==>
        InStep(p, Some(store[p.phase.cap.objectName.value].state))
    case _ => true
  }

  /** Nothing is under way at the worker, and its instance, if any, has this state. */
  predicate InStep(p: Process, state: Option<Value>) {
    p.strays == [] && (p.instance.Some? ==> p.instance == state)
  }

  /** Every step of the run meets a condition in the state it starts from. */
  predicate EveryStep(customer: Customer, steps: seq<Step>, condition: (System, Step) -> bool)
    requires After(customer, steps).Some?
  {
    steps != [] ==>
      && condition(After(customer, steps[..|steps| - 1]).value, steps[|steps| - 1])
      && EveryStep(customer, steps[..|steps| - 1], condition)
  }

  // ----- agreement ------------------------------------------------------------------------------

  /** The executor is in step with the state its host holds; a host without a cached state
      holds none before its next call gets it. */
  predicate Agrees(p: Process) {
    match p.phase
    case Idle => p.cache.Some? ==> Settles(p, p.cache.value)
    case Loading(_, _, _) => true
    case Resolving(_, _, c, _) => Settles(p, c)
    case Ready(_, _, c) => c.pending.None? && InStep(p, c.state)
    case Executed(_, _, _, work) => Faithful(work) && InStep(p, Some(work.next))
    case Preparing(_, _, _, work, _) => Faithful(work) && InStep(p, Some(work.next))
    case Uploading(_, _, _, work, snapshot, _) =>
      Faithful(work) && InStep(p, Some(work.next)) && snapshot.state == work.next
    case Committing(_, _, c, work, _) =>
      && Faithful(work) && InStep(p, Some(work.next))
      && c.pending.Some? && c.pending.value.snapshot.state == work.next
  }

  /** In step with a cached state; while a commit is pending there is no instance. */
  predicate Settles(p: Process, c: Cached) {
    InStep(p, c.state) && (c.pending.Some? ==> p.instance.None?)
  }

  /** The call was answered by its own customer code, on the state its host supplied. */
  predicate Faithful(work: Work) {
    work.base == work.held && work.ran == work.request
  }

  predicate Agreement(s: System) {
    && (forall pid :: pid in s.processes ==> Agrees(s.processes[pid]))
    && (forall n :: n in s.puts ==> Faithful(s.puts[n].work))
  }

  // ----- every clean step keeps agreement ---------------------------------------------------------

  lemma BegunAgrees(store: map<string, Snapshot>, p: Process, attempt: nat, request: Request, cap: Capability,
                    call: nat)
    requires p.phase.Idle? && Agrees(p)
    ensures Agrees(Begun(p, attempt, request, cap, call)) <==> CleanAction(store, p, Begin(request, cap, call))
  {}

  lemma RanAgrees(p: Process, result: Value, next: Value)
    requires p.phase.Ready? && Agrees(p)
    ensures Agrees(Ran(p, p.phase.request, result, next))
  {}

  lemma ObtainAgrees(customer: Customer, s: System, pid: nat, action: Action)
    requires !IsPublication(action) && !IsExecution(action) && CanAct(customer, s, pid, action)
    requires Agrees(s.processes[pid]) && (!s.processes[pid].phase.Idle? ==> s.processes[pid].cache.None?)
    ensures Agrees(Obtain(customer, s, pid, action).processes[pid])
            <==> CleanAction(s.ledger.store, s.processes[pid], action)
  {
    hide Begun, HostOnly, Consume, Finish, WithPhase;
    if action.Begin? {
      BegunAgrees(s.ledger.store, s.processes[pid], |s.attempts|, action.request, action.cap, action.call);
    }
  }

  /** Whatever happens at the executor keeps agreement, cancellation included: what it
      leaves behind matters to the next call that gets hold of its state. */
  lemma RunAgrees(customer: Customer, s: System, pid: nat, action: Action)
    requires IsExecution(action) && CanAct(customer, s, pid, action)
    requires Agrees(s.processes[pid]) && (!s.processes[pid].phase.Idle? ==> s.processes[pid].cache.None?)
    ensures Agrees(Run(customer, s, pid, action).processes[pid])
  {
    hide Ran, HostOnly, Finish, ExecutionBase, Faithful, MustReplay;
    match action
    case Execute(result, next) => RanAgrees(s.processes[pid], result, next);
    case StrayAnswers(_, _, _) => assert false;
    case _ =>
  }

  lemma PublishAgrees(customer: Customer, s: System, pid: nat, action: Action)
    requires IsPublication(action) && CanAct(customer, s, pid, action)
    requires Agrees(s.processes[pid])
    ensures var t := Publish(customer, s, pid, action);
            && Agrees(t.processes[pid])
            && (forall n :: n in t.puts && n !in s.puts ==> Faithful(t.puts[n].work))
  {
    hide HostOnly, StartUpload, Consume, Finish;
  }

  lemma ActAgrees(customer: Customer, s: System, pid: nat, action: Action)
    requires CanAct(customer, s, pid, action)
    requires Agrees(s.processes[pid]) && (!s.processes[pid].phase.Idle? ==> s.processes[pid].cache.None?)
    ensures var t := Act(customer, s, pid, action);
            && (Agrees(t.processes[pid]) <==> CleanAction(s.ledger.store, s.processes[pid], action))
            && (forall n :: n in t.puts && n !in s.puts ==> Faithful(t.puts[n].work))
  {
    hide Agrees, CanAct, Faithful, Obtain, Run, Publish;
    if IsPublication(action) {
      PublishAgrees(customer, s, pid, action);
    } else if IsExecution(action) {
      RunAgrees(customer, s, pid, action);
    } else {
      ObtainAgrees(customer, s, pid, action);
    }
  }

  lemma EmptyHanded(customer: Customer, s: System, pid: nat)
    requires Inv(customer, s) && pid in s.processes
    ensures !s.processes[pid].phase.Idle? ==> s.processes[pid].cache.None?
  {
    hide Inv;
    ProcessFacts(customer, s, pid);
  }

  lemma ActorExists(customer: Customer, s: System, pid: nat, action: Action)
    requires CanAct(customer, s, pid, action)
    ensures pid in s.processes
  {}

  /** Nothing but the acting process can lose agreement. */
  lemma ActionKeepsAgreement(customer: Customer, s: System, pid: nat, action: Action)
    requires Inv(customer, s) && CanAct(customer, s, pid, action) && Agreement(s)
    ensures Agreement(Act(customer, s, pid, action)) <==> CleanStep(s, Host(pid, action))
  {
    hide Inv, CanAct, Act, CleanAction, Agrees, Grows, RowFollows, Faithful;
    ActorExists(customer, s, pid, action);
    EmptyHanded(customer, s, pid);
    ActAgrees(customer, s, pid, action);
    ActionOnlyAdds(customer, s, pid, action);
  }

  lemma EventKeepsAgreement(s: System, event: Event)
    requires CanHappen(s, event) && Agreement(s)
    ensures Agreement(Happen(s, event))
  {
    hide Happen, LedgerAfter;
    EventProcesses(s, event);
    EventChanges(s, event);
  }

  /** The world starts processes and changes nothing inside one. */
  lemma EventProcesses(s: System, event: Event)
    requires CanHappen(s, event)
    ensures Happen(s, event).processes ==
            if event.Spawn?
            then s.processes[event.pid := NewProcess(event.host, event.session, event.region)]
            else s.processes
  {
    hide WithStage, Grant, Wins, ApplyTryCommit, ApplyReadBack, ApplyIssueTicket, ApplyCheckLease, FreshName,
         ApplyClaim;
  }

  /** From a state in which executors agree with their hosts, a step keeps them
      agreeing exactly if it is clean. */
  lemma AgreementIffClean(customer: Customer, s: System, step: Step)
    requires Inv(customer, s) && Enabled(customer, s, step) && Agreement(s)
    ensures Agreement(Apply(customer, s, step)) <==> CleanStep(s, step)
  {
    hide Inv, CanAct, CanHappen, Act, Happen, Agreement, CleanAction;
    match step
    case World(event) => EventKeepsAgreement(s, event);
    case Host(pid, action) => ActionKeepsAgreement(customer, s, pid, action);
  }

  /** A command whose call is cancelled while it runs goes on at the worker: if nothing else
      happens it returns what customer code makes of the state its host had supplied. */
  lemma CancelledCommandGoesOn(customer: Customer, s: System, pid: nat, result: Value, next: Value)
    requires Agreement(s) && pid in s.processes && s.processes[pid].phase.Ready?
    ensures CanAct(customer, s, pid, Cancel(true))
    ensures var phase, t := s.processes[pid].phase, Act(customer, s, pid, Cancel(true));
            && t.processes[pid].phase.Idle? && t.processes[pid].cache == s.processes[pid].cache
            && (CanAct(customer, t, pid, StrayReturns(0, result, next)) <==>
                  customer(phase.cached.state, phase.request) == Done(result, next))
  {
    assert Agrees(s.processes[pid]);
    hide HostOnly, Agreement;
  }

  lemma WithoutOne(strays: seq<Request>, i: nat)
    requires i < |strays|
    ensures multiset(Without(strays, i)) == multiset(strays) - multiset{strays[i]}
  {
    assert strays == strays[..i] + [strays[i]] + strays[i + 1..];
  }

  /** Each command that a cancelled call left at the worker returns once: the one that returns
      is gone, and the waiting command that it answers, or that is cancelled, takes its place
      among them. Eviction ends them all. */
  lemma CommandsReturnOnce(customer: Customer, s: System, pid: nat, action: Action)
    requires IsExecution(action) && CanAct(customer, s, pid, action)
    ensures var p, q := s.processes[pid], Run(customer, s, pid, action).processes[pid];
            match action
            case StrayReturns(i, _, _) => multiset(q.strays) == multiset(p.strays) - multiset{p.strays[i]}
            case StrayAnswers(i, _, _) =>
              multiset(q.strays) == multiset(p.strays) - multiset{p.strays[i]} + multiset{p.phase.request}
            case Cancel(sent) =>
              multiset(q.strays) == multiset(p.strays) + if sent then multiset{p.phase.request} else multiset{}
            case InstanceEvicted => q.strays == []
            case ExecuteFails(keepInstance) => q.strays == if keepInstance then p.strays else []
            case Execute(_, _) => q.strays == p.strays
  {
    hide HostOnly, MustReplay, ExecutionBase, Without;
    if action.StrayReturns? || action.StrayAnswers? {
      WithoutOne(s.processes[pid].strays, action.stray);
    }
  }

  /** In particular a failed load keeps agreement: the instance it may leave behind matters
      only to the next call that loads. */
  lemma FailedLoadsAreHarmless(customer: Customer, s: System, pid: nat)
    requires Inv(customer, s) && CanAct(customer, s, pid, LoadFails) && Agreement(s)
    ensures Agreement(Act(customer, s, pid, LoadFails))
  {
    hide Inv, CanAct, Act, Agreement;
    AgreementIffClean(customer, s, Host(pid, LoadFails));
  }

  /** Executors agree with their hosts all along a run exactly if the run is clean. */
  lemma {:induction false} RunsAgreeIffClean(customer: Customer, steps: seq<Step>)
    requires After(customer, steps).Some?
    ensures AlwaysAgreed(customer, steps) <==> EveryStep(customer, steps, CleanStep)
  {
    hide Enabled, Apply, Inv, Agreement, CleanStep;
    if steps == [] {
      EmptyAgrees();
    } else {
      var shorter := steps[..|steps| - 1];
      RunsAgreeIffClean(customer, shorter);
      RunKeeps(customer, shorter);
      if AlwaysAgreed(customer, shorter) {
        AgreementIffClean(customer, After(customer, shorter).value, steps[|steps| - 1]);
      }
    }
  }

  /** Agreement held in every state of the run. */
  predicate AlwaysAgreed(customer: Customer, steps: seq<Step>)
    requires After(customer, steps).Some?
  {
    Agreement(After(customer, steps).value) && (steps != [] ==> AlwaysAgreed(customer, steps[..|steps| - 1]))
  }

  lemma EmptyAgrees()
    ensures Agreement(Initial())
  {}

  // ----- linear durable history -----------------------------------------------------------------------

  /** Version `v + 1` is what customer code made of exactly the state committed at `v` and
      of the request its call was taken up for; a method did not repeat the request of `v`. */
  predicate Extends(customer: Customer, s: System, v: nat)
    requires v < |s.ledger.committed|
  {
    && s.ledger.committed[v] in s.puts
    && SnapshotAt(s.ledger, v + 1).Some? && SnapshotAt(s.ledger, v + 1).value.version == v + 1
    && ProducedBy(customer, StateAt(s.ledger, v), CommittedRequest(s, v), SnapshotAt(s.ledger, v + 1).value)
    && (CommittedRequest(s, v).kind == Method ==> RequestAt(s.ledger, v) != Some(CommittedRequest(s, v).id))
  }

  /** In every clean run, with any number of hosts, transfers, lost replies and stale
      capabilities, every committed version extends the one below it by the request of one
      call that a host took up, and no call made two versions. */
  lemma LinearHistory(customer: Customer, steps: seq<Step>)
    requires After(customer, steps).Some? && EveryStep(customer, steps, CleanStep)
    ensures var s := After(customer, steps).value;
            && (forall v :: 0 <= v < |s.ledger.committed| ==> Extends(customer, s, v))
            && MadeByCalls(s, Begins(steps))
  {
    RunsAgreeIffClean(customer, steps);
    RunKeeps(customer, steps);
    CommitsAreCalls(customer, steps);
    hide After, EveryStep, Inv, Begins;
    var s := After(customer, steps).value;
    LedgerFacts(customer, s);
    forall v | 0 <= v < |s.ledger.committed| ensures Extends(customer, s, v) {
      FaithfulPutExtends(customer, s, v);
    }
  }

  lemma FaithfulPutExtends(customer: Customer, s: System, v: nat)
    requires HistoryOk(s.ledger) && StoreOk(s.ledger.store, s.puts) && PutsOk(customer, s.ledger, s.puts)
    requires v < |s.ledger.committed| && (forall n :: n in s.puts ==> Faithful(s.puts[n].work))
    ensures Extends(customer, s, v)
  {
    var put := s.puts[s.ledger.committed[v]];
    assert PutOk(customer, s.ledger, put) && Faithful(put.work);
  }

  /** What customer code makes of a list of requests, each on the state before it. */
  function RunInOrder(customer: Customer, requests: seq<Request>): Option<Value> {
    if requests == [] then None
    else
      var ran := customer(RunInOrder(customer, requests[..|requests| - 1]), requests[|requests| - 1]);
      if ran.Done? then Some(ran.next) else None
  }

  /** The requests of the first `n` versions. */
  function CommittedRequests(s: System, n: nat): (requests: seq<Request>)
    requires n <= |s.ledger.committed| && Uploaded(s)
    ensures |requests| == n && forall i :: 0 <= i < n ==> requests[i] == CommittedRequest(s, i)
  {
    if n == 0 then [] else CommittedRequests(s, n - 1) + [CommittedRequest(s, n - 1)]
  }

  /** A history in which every version extends the one below is one sequential execution
      of its requests, in version order. */
  lemma {:induction false} Sequential(customer: Customer, s: System, n: nat)
    requires n <= |s.ledger.committed| && Uploaded(s)
    requires forall v :: 0 <= v < |s.ledger.committed| ==> Extends(customer, s, v)
    ensures RunInOrder(customer, CommittedRequests(s, n)) == StateAt(s.ledger, n)
  {
    hide RunInOrder, Extends, StateAt;
    RunOfNone(customer, s);
    if n > 0 {
      Sequential(customer, s, n - 1);
      assert Extends(customer, s, n - 1);
      RunOneMore(customer, s, n - 1);
    }
  }

  lemma RunOfNone(customer: Customer, s: System)
    ensures RunInOrder(customer, []) == StateAt(s.ledger, 0)
  {}

  lemma RunOneMore(customer: Customer, s: System, n: nat)
    requires n < |s.ledger.committed| && Uploaded(s) && Extends(customer, s, n)
    requires RunInOrder(customer, CommittedRequests(s, n)) == StateAt(s.ledger, n)
    ensures RunInOrder(customer, CommittedRequests(s, n + 1)) == StateAt(s.ledger, n + 1)
  {
    RunOfAppended(customer, CommittedRequests(s, n), CommittedRequest(s, n));
    hide RunInOrder, CommittedRequest;
  }

  lemma RunOfAppended(customer: Customer, requests: seq<Request>, last: Request)
    ensures var ran := customer(RunInOrder(customer, requests), last);
            RunInOrder(customer, requests + [last]) == if ran.Done? then Some(ran.next) else None
  {
    assert (requests + [last])[..|requests|] == requests;
  }

  /** So the durable state of a clean run is that of running exactly the committed
      requests, in version order, one after the other. */
  lemma HistoryIsSequential(customer: Customer, steps: seq<Step>)
    requires After(customer, steps).Some? && EveryStep(customer, steps, CleanStep)
    ensures var s := After(customer, steps).value;
            && MadeByCalls(s, Begins(steps))
            && RunInOrder(customer, CommittedRequests(s, |s.ledger.committed|)) == HeadState(s.ledger)
  {
    hide After, EveryStep, Inv, RunInOrder, Begins, Extends, PutsOk, CapsOk;
    LinearHistory(customer, steps);
    RunKeeps(customer, steps);
    var s := After(customer, steps).value;
    LedgerFacts(customer, s);
    assert HeadState(s.ledger) == StateAt(s.ledger, |s.ledger.committed|);
    Sequential(customer, s, |s.ledger.committed|);
  }
}
