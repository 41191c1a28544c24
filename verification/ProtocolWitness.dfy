/**
 Runs that exist. A host that owns the row under a live lease can always carry an
 executed call through to its reply; and a process that re-acquires an object at a
 later epoch can commit a version that does not extend the one below it.
 */
module ProtocolWitness {
  import opened Common
  import opened Protocol
  import opened ProtocolInvariant
  import opened ProtocolSteps
  import opened ProtocolSafety
  import opened ProtocolAgreement
  import P = Placement
  import L = Leases

  ghost predicate Reachable(customer: Customer, s: System) {
    exists steps :: After(customer, steps) == Some(s)
  }

  lemma OneMore(customer: Customer, s: System, step: Step)
    requires Reachable(customer, s) && Enabled(customer, s, step)
    ensures Reachable(customer, Apply(customer, s, step))
  {
    hide Enabled, Apply;
    var steps :| After(customer, steps) == Some(s);
    assert (steps + [step])[..|steps + [step]| - 1] == steps;
    assert After(customer, steps + [step]) == Some(Apply(customer, s, step));
  }

  lemma OneMoreEvent(customer: Customer, s: System, event: Event)
    requires Reachable(customer, s) && CanHappen(s, event)
    ensures Reachable(customer, Happen(s, event))
  {
    hide CanHappen, Happen;
    OneMore(customer, s, World(event));
  }

  lemma OneMoreAction(customer: Customer, s: System, pid: nat, action: Action)
    requires Reachable(customer, s) && CanAct(customer, s, pid, action)
    ensures Reachable(customer, Act(customer, s, pid, action))
  {
    hide CanAct, Act;
    OneMore(customer, s, Host(pid, action));
  }

  // ----- an executed call can complete --------------------------------------------------------

  /** The process's lease is live, and the numbers of a call for this state fit. */
  predicate MayCall(s: System, p: Process, c: Cached) {
    && p.host in s.leases && s.leases[p.host].session == p.session && s.leases[p.host].expires > s.now
    && c.version < I64_MAX && c.epoch <= I64_MAX
  }

  /** The process owns the row at its cached version, under a live lease: its commit wins. */
  predicate Leads(s: System, p: Process, c: Cached) {
    && MayCall(s, p, c) && s.ledger.row.Some?
    && var row := s.ledger.row.value;
    row.owner == p.host && row.epoch == c.epoch && row.version == c.version
  }

  /** And it is in the row's region: it also gets tickets. */
  predicate Owns(s: System, p: Process, c: Cached) {
    Leads(s, p, c) && s.ledger.row.value.region == p.region
  }

  /** Nothing but calls, names, uploads and one process differ. */
  predicate Aside(s: System, t: System, pid: nat) {
    && t.ledger == s.ledger && t.leases == s.leases && t.now == s.now && t.caps == s.caps && t.replies == s.replies
    && pid in t.processes && t.processes == s.processes[pid := t.processes[pid]]
  }

  lemma AskSteps(customer: Customer, s: System, pid: nat, call: nat) returns (t: System)
    requires Reachable(customer, s) && pid in s.processes && s.processes[pid].phase.Executed? && call !in s.calls
    requires Owns(s, s.processes[pid], s.processes[pid].phase.cached)
    ensures Reachable(customer, t) && Aside(s, t, pid) && t.holders == s.holders && t.puts == s.puts
    ensures var p := s.processes[pid];
            var c := p.phase.cached.(nextWrite := None);
            var commit := P.Commit(p.host, p.session, c.epoch, c.version, "", p.phase.request.id);
            && t.calls == s.calls[call := PrepareCall(pid, commit, p.region, Checked)]
            && t.processes[pid]
               == p.(phase := Preparing(p.phase.attempt, p.phase.request, c, p.phase.work, call))
  {
    hide Reachable;
    OneMoreAction(customer, s, pid, AskTicket(call));
    t := Act(customer, s, pid, AskTicket(call));
    OneMoreEvent(customer, t, CheckLease(call));
    t := Happen(t, CheckLease(call));
  }

  lemma TicketSteps(customer: Customer, s: System, pid: nat, name: string) returns (t: System)
    requires Reachable(customer, s) && pid in s.processes && s.processes[pid].phase.Preparing? && name !in s.holders
    requires Owns(s, s.processes[pid], s.processes[pid].phase.cached)
    requires var phase := s.processes[pid].phase;
             && phase.call in s.calls && s.calls[phase.call].PrepareCall? && s.calls[phase.call].stage == Checked
             && s.calls[phase.call].region == s.processes[pid].region
             && P.Matches(s.ledger.row.value, s.calls[phase.call].commit)
    ensures Reachable(customer, t) && Aside(s, t, pid) && t.calls.Keys == s.calls.Keys
    ensures t.holders == s.holders[name := Spent]
    ensures var p := s.processes[pid];
            var snapshot := SnapshotOf(p.phase.cached, p.phase.work);
            && t.puts == s.puts[name := Put(snapshot, p.phase.work)]
            && t.processes[pid]
               == p.(phase := Uploading(p.phase.work.attempt, p.phase.work.request, p.phase.cached, p.phase.work,
                                        snapshot,
                                        Ticket(p.phase.cached.version + 1, name)))
  {
    hide Reachable;
    t := IssueStep(customer, s, pid, name);
    OneMoreAction(customer, t, pid, TicketArrives);
    t := Act(customer, t, pid, TicketArrives);
    assert t.holders == s.holders[name := Spent];
    assert t.calls.Keys == s.calls.Keys;
  }

  lemma IssueStep(customer: Customer, s: System, pid: nat, name: string) returns (t: System)
    requires Reachable(customer, s) && pid in s.processes && s.processes[pid].phase.Preparing? && name !in s.holders
    requires Owns(s, s.processes[pid], s.processes[pid].phase.cached)
    requires var phase := s.processes[pid].phase;
             && phase.call in s.calls && s.calls[phase.call].PrepareCall? && s.calls[phase.call].stage == Checked
             && s.calls[phase.call].region == s.processes[pid].region
             && P.Matches(s.ledger.row.value, s.calls[phase.call].commit)
    ensures Reachable(customer, t)
    ensures var call := s.processes[pid].phase.call;
            var version := s.processes[pid].phase.cached.version;
            t == s.(calls := s.calls[call := s.calls[call].(stage := Granted(version,
              Some(Ticket(version + 1, name))))],
                    holders := s.holders[name := InReply(call)])
  {
    hide Reachable;
    var call := s.processes[pid].phase.call;
    OneMoreEvent(customer, s, IssueTicket(call, Some(name)));
    t := Happen(s, IssueTicket(call, Some(name)));
  }

  /** A ticket is asked for and granted, and the upload sent. */
  lemma SendSteps(customer: Customer, s: System, pid: nat, ask: nat, name: string) returns (t: System)
    requires Reachable(customer, s) && pid in s.processes && s.processes[pid].phase.Executed?
    requires ask !in s.calls && name !in s.holders
    requires Owns(s, s.processes[pid], s.processes[pid].phase.cached)
    ensures Reachable(customer, t) && Aside(s, t, pid) && t.calls.Keys == s.calls.Keys + {ask}
    ensures t.holders == s.holders[name := Spent]
    ensures var p := s.processes[pid];
            var c := p.phase.cached.(nextWrite := None);
            var snapshot := SnapshotOf(c, p.phase.work);
            && t.puts == s.puts[name := Put(snapshot, p.phase.work)]
            && t.processes[pid]
               == p.(phase := Uploading(p.phase.work.attempt, p.phase.work.request, c, p.phase.work, snapshot,
                                        Ticket(c.version + 1, name)))
  {
    hide Reachable;
    t := AskSteps(customer, s, pid, ask);
    t := TicketSteps(customer, t, pid, name);
  }

  /** The upload lands and becomes pending; that needs neither ownership nor a lease. */
  lemma LandSteps(customer: Customer, s: System, pid: nat, call: nat) returns (t: System)
    requires Reachable(customer, s) && pid in s.processes && s.processes[pid].phase.Uploading? && call !in s.calls
    requires s.processes[pid].phase.ticket.objectName in s.puts
             && s.processes[pid].phase.ticket.objectName !in s.ledger.store
    ensures Reachable(customer, t) && t.holders == s.holders && t.puts == s.puts
    ensures var p := s.processes[pid];
            var name := p.phase.ticket.objectName;
            var c := p.phase.cached.(pending := Some(Pending(p.phase.snapshot, p.phase.ticket)));
            && Aside(s.(ledger := s.ledger.(store := s.ledger.store[name := s.puts[name].snapshot])), t, pid)
            && t.calls == s.calls[call := CommitCall(pid, CommitOf(p, c), Sent)]
            && t.processes[pid] == p.(phase := Committing(p.phase.attempt, p.phase.request, c, p.phase.work, call))
  {
    hide Reachable;
    OneMoreEvent(customer, s, PutLands(s.processes[pid].phase.ticket.objectName));
    t := Happen(s, PutLands(s.processes[pid].phase.ticket.objectName));
    OneMoreAction(customer, t, pid, UploadDone(call));
    t := Act(customer, t, pid, UploadDone(call));
  }

  /** A commit call passes the lease check. */
  lemma CheckStep(customer: Customer, s: System, call: nat) returns (t: System)
    requires Reachable(customer, s) && call in s.calls && s.calls[call].CommitCall? && s.calls[call].stage == Sent
    requires Leased(s, s.calls[call].commit)
    requires s.calls[call].commit.expected < I64_MAX && s.calls[call].commit.epoch <= I64_MAX
    ensures Reachable(customer, t)
    ensures t == s.(calls := s.calls[call := CommitCall(s.calls[call].process, s.calls[call].commit, Checked)])
  {
    hide Reachable;
    OneMoreEvent(customer, s, CheckLease(call));
    t := Happen(s, CheckLease(call));
  }

  /** The ticket that a fresh name, if any, makes for a version. */
  function MintedTicket(version: nat, minted: Option<string>): Option<Ticket> {
    if minted.None? then None else Some(Ticket(version, minted.value))
  }

  lemma CommitSteps(customer: Customer, s: System, pid: nat, minted: Option<string>) returns (t: System)
    requires Reachable(customer, s) && pid in s.processes && s.processes[pid].phase.Committing? && FreshName(s, minted)
    requires var phase := s.processes[pid].phase;
             && phase.cached.pending.Some? && phase.cached.pending.value.snapshot.version == phase.cached.version + 1
             && phase.call in s.calls
             && s.calls[phase.call] == CommitCall(pid, CommitOf(s.processes[pid], phase.cached), Sent)
    requires Leads(s, s.processes[pid], s.processes[pid].phase.cached)
    ensures Reachable(customer, t) && t.puts == s.puts && t.calls.Keys == s.calls.Keys
    ensures minted.None? ==> t.holders == s.holders
    ensures var p := s.processes[pid];
            var promoted := Promote(p.phase.cached, MintedTicket(p.phase.cached.version + 2, minted));
            var reply := Completed(p.phase.attempt, p.phase.request, promoted.version, p.phase.work.result,
                                   promoted.state, ByCommit);
            && Aside(Advanced(s, s.calls[p.phase.call].commit).(replies := s.replies + {reply}), t, pid)
            && t.processes[pid] == p.(phase := Idle, cache := Some(promoted))
  {
    hide Reachable;
    var call := s.processes[pid].phase.call;
    t := CheckStep(customer, s, call);
    t := GrantStep(customer, t, pid, call, minted);
    t := CommitOkStep(customer, t, pid);
  }

  lemma CommitOkStep(customer: Customer, s: System, pid: nat) returns (t: System)
    requires Reachable(customer, s) && CanAct(customer, s, pid, CommitOk)
    ensures Reachable(customer, t) && t.puts == s.puts && t.calls.Keys == s.calls.Keys
    ensures s.calls[s.processes[pid].phase.call].stage.ticket.None? ==> t.holders == s.holders
    ensures var p := s.processes[pid];
            var promoted := Promote(p.phase.cached, s.calls[p.phase.call].stage.ticket);
            var reply := Completed(p.phase.attempt, p.phase.request, promoted.version, p.phase.work.result,
                                   promoted.state, ByCommit);
            && Aside(s.(replies := s.replies + {reply}), t, pid)
            && t.processes[pid] == p.(phase := Idle, cache := Some(promoted))
  {
    hide Reachable;
    OneMoreAction(customer, s, pid, CommitOk);
    t := Act(customer, s, pid, CommitOk);
  }

  /** A checked commit call of the row's owner wins. */
  lemma GrantStep(customer: Customer, s: System, pid: nat, call: nat, minted: Option<string>) returns (t: System)
    requires Reachable(customer, s) && pid in s.processes && FreshName(s, minted)
    requires call in s.calls && s.calls[call].CommitCall? && s.calls[call].stage == Checked
             && Wins(s, s.calls[call].commit)
    ensures Reachable(customer, t)
    ensures var c := s.calls[call].commit;
            var granted := CommitCall(s.calls[call].process, c,
                                      Granted(c.expected + 1, MintedTicket(c.expected + 2, minted)));
            && t == Advanced(s, c).(calls := s.calls[call := granted], holders := t.holders)
            && t.holders == if minted.None? then s.holders else s.holders[minted.value := InReply(call)]
  {
    hide Reachable;
    OneMoreEvent(customer, s, TryCommit(call, minted));
    t := Happen(s, TryCommit(call, minted));
  }

  lemma ReachableInv(customer: Customer, s: System)
    requires Reachable(customer, s)
    ensures Inv(customer, s)
  {
    hide Inv, After;
    var steps :| After(customer, steps) == Some(s);
    RunKeeps(customer, steps);
  }

  lemma NewNameIsUnused(customer: Customer, s: System, name: string)
    requires Inv(customer, s) && name !in s.holders
    ensures name !in s.puts && name !in s.ledger.store
  {
    hide HeadOk, HistoryOk, PutsOk, CapsOk, CallsOk, ProcessesOk, LinksOk, CallersOk, RepliesOk;
    hide CallTicketsOk, ProcessTicketsOk, AttemptsOk;
  }

  /** The ledger after version `c.version + 1` was committed under a name. */
  function Extended(l: Ledger, name: string, snapshot: Snapshot): Ledger
    requires l.row.Some?
  {
    Ledger(Some(l.row.value.(version := l.row.value.version + 1, objectName := Some(name),
                             lastRequest := Some(snapshot.request))),
           l.committed + [name], l.owners, l.store[name := snapshot])
  }

  /** From any reachable state in which customer code has returned at a host that owns
      the row under a live lease, the call can complete: the head moves to exactly the
      snapshot of that execution, the reply carries its result, and the host's cached
      state is the new head. */
  lemma ExecutedCallCanComplete(customer: Customer, s: System, pid: nat, ask: nat, commit: nat, name: string)
    returns (t: System)
    requires Reachable(customer, s) && pid in s.processes && s.processes[pid].phase.Executed?
    requires Owns(s, s.processes[pid], s.processes[pid].phase.cached)
    requires ask !in s.calls && commit !in s.calls && ask != commit && name !in s.holders
    ensures Reachable(customer, t) && t.leases == s.leases && t.now == s.now && t.caps == s.caps
    ensures t.calls.Keys == s.calls.Keys + {ask, commit} && t.holders == s.holders[name := Spent]
    ensures var p := s.processes[pid];
            var snapshot := SnapshotOf(p.phase.cached, p.phase.work);
            && t.ledger == Extended(s.ledger, name, snapshot)
            && t.puts == s.puts[name := Put(snapshot, p.phase.work)]
            && t.processes == s.processes[pid := p.(phase := Idle,
                                                    cache := Some(FromLoaded(snapshot.epoch, snapshot.version,
                                                      snapshot)))]
            && Completed(p.phase.attempt, p.phase.request, snapshot.version, p.phase.work.result,
                         Some(p.phase.work.next), ByCommit)
               in t.replies
  {
    hide Reachable, Inv, CachedOk, CapOk, LinkOk, ProcessTicketOk, RunningOk, UnansweredOk;
    ReachableInv(customer, s);
    ProcessFacts(customer, s, pid);
    NewNameIsUnused(customer, s, name);
    t := SendSteps(customer, s, pid, ask, name);
    t := LastSteps(customer, t, pid, commit);
  }

  lemma LastSteps(customer: Customer, s: System, pid: nat, call: nat) returns (t: System)
    requires Reachable(customer, s) && pid in s.processes && s.processes[pid].phase.Uploading? && call !in s.calls
    requires Owns(s, s.processes[pid], s.processes[pid].phase.cached)
    requires var phase := s.processes[pid].phase;
             && phase.ticket.objectName !in s.ledger.store && phase.snapshot == SnapshotOf(phase.cached, phase.work)
             && phase.ticket.objectName in s.puts && s.puts[phase.ticket.objectName].snapshot == phase.snapshot
             && phase.work.request == phase.request
    ensures Reachable(customer, t) && t.leases == s.leases && t.now == s.now && t.caps == s.caps
    ensures t.calls.Keys == s.calls.Keys + {call} && t.holders == s.holders && t.puts == s.puts
    ensures var p := s.processes[pid];
            var snapshot := p.phase.snapshot;
            && t.ledger == Extended(s.ledger, p.phase.ticket.objectName, snapshot)
            && t.processes == s.processes[pid := p.(phase := Idle,
                                                    cache := Some(FromLoaded(snapshot.epoch, snapshot.version,
                                                      snapshot)))]
            && Completed(p.phase.attempt, p.phase.request, snapshot.version, p.phase.work.result,
                         Some(snapshot.state), ByCommit)
               in t.replies
  {
    hide Reachable;
    t := LandSteps(customer, s, pid, call);
    t := CommitSteps(customer, t, pid, None);
  }

  // ----- one whole turn of an owner whose cached state, if any, is of another epoch ----------------------

  /** The owner of the row, idle, without a cached state of the row's epoch. */
  predicate Stranger(s: System, pid: nat) {
    && pid in s.processes && s.processes[pid].phase.Idle? && s.ledger.row.Some?
    && Owns(s, s.processes[pid], NewCached(s.ledger.row.value.epoch).(version := s.ledger.row.value.version))
    && !CacheHit(s.processes[pid], CapabilityOf(s.ledger.row.value))
  }

  /** It takes a request with the row's current capability and loads the head. */
  lemma TakeSteps(customer: Customer, s: System, pid: nat, request: Request, call: nat) returns (t: System)
    requires Reachable(customer, s) && Stranger(s, pid) && call !in s.calls
    ensures Reachable(customer, t) && t == s.(caps := t.caps, attempts := t.attempts, processes := t.processes)
    ensures pid in t.processes && t.processes == s.processes[pid := t.processes[pid]]
    ensures var p, q := s.processes[pid], t.processes[pid];
            && q.phase.Ready? && q.phase.request == request && q.phase.cached.state == HeadState(s.ledger)
            && q.phase.cached.version == s.ledger.row.value.version && q.phase.cached.epoch == s.ledger.row.value.epoch
            && (s.ledger.row.value.lastRequest != Some(request.id) ==> !MustReplay(q.phase))
            && q == p.(phase := q.phase, cache := None, epoch := Some(s.ledger.row.value.epoch))
  {
    hide Reachable, HistoryOk, PutsOk, StoreOk, CapsOk, Inv;
    ReachableInv(customer, s);
    LedgerFacts(customer, s);
    t := BeginSteps(customer, s, pid, request, call);
    if s.ledger.row.value.version != 0 {
      ReachableInv(customer, t);
      LoadedSnapshotsCheckOut(customer, t, pid);
      OneMoreAction(customer, t, pid, Load);
      t := Act(customer, t, pid, Load);
    }
  }

  lemma BeginSteps(customer: Customer, s: System, pid: nat, request: Request, call: nat) returns (t: System)
    requires Reachable(customer, s) && Stranger(s, pid) && call !in s.calls
    ensures Reachable(customer, t) && t == s.(caps := t.caps, attempts := t.attempts, processes := t.processes)
    ensures t.processes
            == s.processes[pid := Begun(s.processes[pid], |s.attempts|, request, CapabilityOf(s.ledger.row.value),
                                        call)]
  {
    hide Reachable;
    var cap := CapabilityOf(s.ledger.row.value);
    OneMoreEvent(customer, s, IssueCapability);
    t := Happen(s, IssueCapability);
    OneMoreAction(customer, t, pid, Begin(request, cap, call));
    t := Act(customer, t, pid, Begin(request, cap, call));
  }

  /** The request runs on the instance if there is one, else on the head state, and is
      committed on top of the head either way. */
  lemma Turn(customer: Customer, s: System, pid: nat, request: Request, calls: seq<nat>, name: string)
    returns (t: System)
    requires Reachable(customer, s) && Stranger(s, pid) && s.ledger.row.value.lastRequest != Some(request.id)
    requires |calls| == 2 && calls[0] !in s.calls && calls[1] !in s.calls && calls[0] != calls[1] && name !in s.holders
    requires var ran := customer(ExecutionBase(s.processes[pid], HeadState(s.ledger)), request);
             ran.Done? && Some(ran.next) != HeadState(s.ledger)
    ensures Reachable(customer, t) && t.leases == s.leases && t.now == s.now
    ensures t.calls.Keys == s.calls.Keys + {calls[0], calls[1]} && t.holders == s.holders[name := Spent]
    ensures pid in t.processes && t.processes == s.processes[pid := t.processes[pid]]
    ensures var p, q := s.processes[pid], t.processes[pid];
            var row := s.ledger.row.value;
            var ran := customer(ExecutionBase(p, HeadState(s.ledger)), request);
            && t.ledger == Extended(s.ledger, name,
                                    Snapshot(row.version + 1, row.epoch, request.id, ran.next,
                                             Persisted(request, ran.result)))
            && q == p.(phase := Idle, cache := q.cache, epoch := q.epoch, instance := Some(ran.next))
            && q.cache.Some? && q.cache.value.epoch == row.epoch && q.cache.value.state == Some(ran.next)
            && q.cache.value.version == row.version + 1 && q.cache.value.pending.None? && q.epoch == Some(row.epoch)
            && name in t.puts && t.puts[name].work.request == request
            && (forall n :: n in s.puts && n != name ==> n in t.puts && t.puts[n] == s.puts[n])
  {
    hide Reachable;
    t := TakeSteps(customer, s, pid, request, calls[0]);
    var ran := customer(ExecutionBase(s.processes[pid], HeadState(s.ledger)), request);
    OneMoreAction(customer, t, pid, Execute(ran.result, ran.next));
    t := Act(customer, t, pid, Execute(ran.result, ran.next));
    t := ExecutedCallCanComplete(customer, t, pid, calls[0], calls[1], name);
  }

  // ----- re-acquisition at a later epoch breaks the history ---------------------------------------------

  /** Customer code that appends the request to its state and returns it. */
  function Append(base: Option<Value>, request: Request): Outcome {
    Done(request.body, (if base.Some? then base.value else "") + request.body)
  }

  function Started(host: string): Process {
    NewProcess(host, "session", "us")
  }

  predicate BothLeased(s: System) {
    && "a" in s.leases && s.leases["a"].session == "session" && s.leases["a"].expires > s.now
    && "b" in s.leases && s.leases["b"].session == "session" && s.leases["b"].expires > s.now
  }

  lemma RegionIsValid()
    ensures P.ValidRegion("us")
  {
    ByteLengthOfAscii("us");
  }

  lemma Opening() returns (s: System)
    ensures Reachable(Append, s) && BothLeased(s)
    ensures s.processes == map[0 := Started("a"), 1 := Started("b")]
    ensures s.ledger == Ledger(Some(P.FirstRow("a", "us")), [], ["a"], map[]) && s.calls == map[] && s.holders == map[]
  {
    hide Reachable;
    RegionIsValid();
    s := Initial();
    assert Reachable(Append, s) by { StartIsReachable(); }
    var events := [Spawn(0, "a", "session", "us"), Spawn(1, "b", "session", "us"),
                   RegisterLease(L.Request("a", "session", "", 1000)),
                   RegisterLease(L.Request("b", "session", "", 1000)),
                   Claim(None, "a", "us")];
    OneMoreEvent(Append, s, events[0]);
    s := Happen(s, events[0]);
    OneMoreEvent(Append, s, events[1]);
    s := Happen(s, events[1]);
    OneMoreEvent(Append, s, events[2]);
    s := Happen(s, events[2]);
    OneMoreEvent(Append, s, events[3]);
    s := Happen(s, events[3]);
    OneMoreEvent(Append, s, events[4]);
    s := Happen(s, events[4]);
  }

  lemma StartIsReachable()
    ensures Reachable(Append, Initial())
  {
    assert After(Append, []) == Some(Initial());
  }

  /** Ownership moves to another host. */
  lemma Handover(s: System, owner: string) returns (t: System)
    requires Reachable(Append, s) && s.ledger.row.Some? && s.ledger.row.value.owner != owner
    requires s.ledger.row.value.region == "us" && s.ledger.row.value.epoch < I64_MAX
    ensures Reachable(Append, t)
    ensures t == s.(ledger := s.ledger.(row := Some(P.Transfer(s.ledger.row.value, owner)),
                                        owners := s.ledger.owners + [owner]))
  {
    hide Reachable;
    RegionIsValid();
    OneMoreEvent(Append, s, Claim(s.ledger.row, owner, "us"));
    t := Happen(s, Claim(s.ledger.row, owner, "us"));
  }

  function Req(id: string, body: string): Request {
    Request(id, Method, body)
  }

  /** Process 0 belongs to host a and has run at epoch 1, leaving "x" in its instance. */
  predicate Resident(p: Process) {
    && p == Process("a", "session", "us", p.epoch, p.cache, Idle, Some("x"), [])
    && p.cache.Some? && p.cache.value.epoch == 1
  }

  function FirstLedger(): Ledger {
    Ledger(Some(P.Row("a", 1, "us", 1, Some("n1"), Some("1"))), ["n1"], ["a"],
           map["n1" := Snapshot(1, 1, "1", "x", "x")])
  }

  function SecondLedger(): Ledger {
    Ledger(Some(P.Row("b", 2, "us", 2, Some("n2"), Some("2"))), ["n1", "n2"], ["a", "b"],
           map["n1" := Snapshot(1, 1, "1", "x", "x"), "n2" := Snapshot(2, 2, "2", "xy", "y")])
  }

  function ThirdLedger(): Ledger {
    Ledger(Some(P.Row("a", 3, "us", 3, Some("n3"), Some("3"))), ["n1", "n2", "n3"], ["a", "b", "a"],
           map["n1" := Snapshot(1, 1, "1", "x", "x"), "n2" := Snapshot(2, 2, "2", "xy", "y"),
               "n3" := Snapshot(3, 3, "3", "xz", "z")])
  }

  lemma FirstTurn() returns (s: System)
    ensures Reachable(Append, s) && BothLeased(s) && s.ledger == FirstLedger()
    ensures s.processes.Keys == {0, 1} && Resident(s.processes[0]) && s.processes[1] == Started("b")
    ensures s.processes[0].cache.value.version == 1 && s.processes[0].cache.value.state == Some("x")
            && s.processes[0].cache.value.pending.None?
    ensures s.calls.Keys == {0, 1} && s.holders.Keys == {"n1"}
  {
    hide Reachable;
    s := Opening();
    assert Append(None, Req("1", "x")) == Done("x", "x");
    s := Turn(Append, s, 0, Req("1", "x"), [0, 1], "n1");
  }

  lemma SecondTurn() returns (s: System)
    ensures Reachable(Append, s) && BothLeased(s) && s.ledger == SecondLedger()
    ensures s.processes.Keys == {0, 1} && Resident(s.processes[0])
    ensures s.calls.Keys == {0, 1, 2, 3} && s.holders.Keys == {"n1", "n2"}
  {
    hide Reachable, Resident;
    s := FirstTurn();
    s := Handover(s, "b");
    assert HeadState(s.ledger) == Some("x");
    assert Append(Some("x"), Req("2", "y")) == Done("y", "xy");
    s := Turn(Append, s, 1, Req("2", "y"), [2, 3], "n2");
    assert s.ledger.committed == ["n1", "n2"];
  }

  lemma ThirdTurn() returns (s: System)
    ensures Reachable(Append, s) && s.ledger == ThirdLedger()
    ensures "n3" in s.puts && s.puts["n3"].work.request == Req("3", "z")
  {
    hide Reachable;
    s := SecondTurn();
    s := Handover(s, "a");
    assert HeadState(s.ledger) == Some("xy");
    assert Append(Some("x"), Req("3", "z")) == Done("z", "xz");
    s := Turn(Append, s, 0, Req("3", "z"), [4, 5], "n3");
    assert s.ledger.committed == ["n1", "n2", "n3"] && s.ledger.owners == ["a", "b", "a"];
  }

  /** Host a commits "x", host b extends it to "xy", and host a, owner again at epoch 3,
      loads "xy" but runs its old instance: version 3 is "xz", while its request makes
      "xyz" of version 2. */
  lemma ReacquisitionForksHistory() returns (s: System)
    ensures Reachable(Append, s) && s.ledger.committed == ["n1", "n2", "n3"] && Uploaded(s)
    ensures StateAt(s.ledger, 1) == Some("x") && StateAt(s.ledger, 2) == Some("xy")
            && StateAt(s.ledger, 3) == Some("xz")
    ensures CommittedRequest(s, 2) == Req("3", "z") && !Extends(Append, s, 2)
  {
    hide Reachable;
    s := ThirdTurn();
    StoredIsUploaded(s);
    assert Append(Some("xy"), Req("3", "z")) == Done("z", "xyz");
    assert "xyz" != "xz";
  }

  lemma StoredIsUploaded(s: System)
    requires Reachable(Append, s)
    ensures Uploaded(s)
  {
    hide Reachable, Inv, HeadOk, PutsOk, CapsOk;
    ReachableInv(Append, s);
    LedgerFacts(Append, s);
  }

  // ----- a call cancelled after it ran breaks it within one epoch ------------------------------------------

  function SocketEvent(id: string, body: string): Request {
    Request(id, Socket, body)
  }

  /** A socket event finds "x" in the cache and is about to run. */
  lemma EventTaken() returns (s: System)
    ensures Reachable(Append, s) && BothLeased(s) && s.ledger == FirstLedger()
    ensures 0 in s.processes
    ensures var p := s.processes[0];
            && p == Process("a", "session", "us", Some(1), None, p.phase, Some("x"), [])
            && p.phase.Ready? && p.phase.request == SocketEvent("2", "y") && p.phase.cached.state == Some("x")
    ensures s.calls.Keys == {0, 1} && s.holders.Keys == {"n1"}
  {
    hide Reachable;
    s := FirstTurn();
    var cap := CapabilityOf(s.ledger.row.value);
    OneMoreEvent(Append, s, IssueCapability);
    s := Happen(s, IssueCapability);
    OneMoreAction(Append, s, 0, Begin(SocketEvent("2", "y"), cap, 2));
    s := Act(Append, s, 0, Begin(SocketEvent("2", "y"), cap, 2));
  }

  /** It runs to "xy", and its call is cancelled before anything is published: the instance
      stays, the cached state is gone. */
  lemma CancelledAfterRun() returns (s: System)
    ensures Reachable(Append, s) && BothLeased(s) && s.ledger == FirstLedger()
    ensures 0 in s.processes && s.processes[0] == Process("a", "session", "us", Some(1), None, Idle, Some("xy"), [])
    ensures s.calls.Keys == {0, 1} && s.holders.Keys == {"n1"}
  {
    hide Reachable;
    s := EventTaken();
    assert Append(Some("x"), SocketEvent("2", "y")) == Done("y", "xy");
    OneMoreAction(Append, s, 0, Execute("y", "xy"));
    s := Act(Append, s, 0, Execute("y", "xy"));
    OneMoreAction(Append, s, 0, Cancel(false));
    s := Act(Append, s, 0, Cancel(false));
  }

  /** Its call is cancelled while its customer code runs: the command stays at the worker. */
  lemma CancelledDuringRun() returns (s: System)
    ensures Reachable(Append, s) && BothLeased(s) && s.ledger == FirstLedger()
    ensures 0 in s.processes
    ensures s.processes[0] == Process("a", "session", "us", Some(1), None, Idle, Some("x"), [SocketEvent("2", "y")])
    ensures s.calls.Keys == {0, 1} && s.holders.Keys == {"n1"}
  {
    hide Reachable;
    s := EventTaken();
    OneMoreAction(Append, s, 0, Cancel(true));
    s := Act(Append, s, 0, Cancel(true));
  }

  /** After a call was cancelled between its run and its publication, the next request loads
      "x" but runs the instance left behind: version 2 is "xyz", with the effect of an event
      that was never committed, while its request makes "xz" of version 1. One host, one
      epoch. */
  lemma CancellationForksHistory() returns (s: System)
    ensures Reachable(Append, s) && s.ledger.committed == ["n1", "n2"] && s.ledger.owners == ["a"] && Uploaded(s)
    ensures StateAt(s.ledger, 1) == Some("x") && StateAt(s.ledger, 2) == Some("xyz")
    ensures CommittedRequest(s, 1) == Req("3", "z") && !Extends(Append, s, 1)
  {
    hide Reachable;
    s := CancelledAfterRun();
    assert HeadState(s.ledger) == Some("x");
    assert Append(Some("xy"), Req("3", "z")) == Done("z", "xyz");
    s := Turn(Append, s, 0, Req("3", "z"), [2, 3], "n2");
    assert s.ledger.committed == ["n1", "n2"];
    StoredIsUploaded(s);
    assert Append(Some("x"), Req("3", "z")) == Done("z", "xz");
    assert "xyz" != "xz";
  }

  /** After a call was cancelled while its customer code ran, the next request is answered
      by what that code returns: its caller is told "y", the result of the event, and
      version 2 is the event's "xy" under the request's name. */
  lemma CancellationSwapsReplies() returns (s: System)
    ensures Reachable(Append, s) && s.ledger.committed == ["n1", "n2"] && s.ledger.owners == ["a"] && Uploaded(s)
    ensures StateAt(s.ledger, 1) == Some("x") && StateAt(s.ledger, 2) == Some("xy")
    ensures CommittedRequest(s, 1) == Req("3", "z") && !Extends(Append, s, 1)
    ensures exists r :: r in s.replies && r.Completed? && r.request == Req("3", "z") && r.result == "y"
  {
    hide Reachable;
    s := CancelledDuringRun();
    assert HeadState(s.ledger) == Some("x");
    s := TakeSteps(Append, s, 0, Req("3", "z"), 2);
    s := AnsweredByStray(s);
    var phase := s.processes[0].phase;
    s := ExecutedCallCanComplete(Append, s, 0, 2, 3, "n2");
    assert s.ledger.committed == ["n1", "n2"];
    StoredIsUploaded(s);
    assert Append(Some("x"), Req("3", "z")) == Done("z", "xz");
    assert "xy" != "xz";
    assert Completed(phase.attempt, Req("3", "z"), 2, "y", Some("xy"), ByCommit) in s.replies;
  }

  lemma AnsweredByStray(s: System) returns (t: System)
    requires Reachable(Append, s) && 0 in s.processes && s.processes[0].phase.Ready?
             && !MustReplay(s.processes[0].phase)
    requires s.processes[0].strays == [SocketEvent("2", "y")] && s.processes[0].instance == Some("x")
    requires s.processes[0].phase.cached.state == Some("x")
    ensures Reachable(Append, t) && t == s.(processes := t.processes)
    ensures 0 in t.processes && t.processes == s.processes[0 := t.processes[0]]
    ensures var p, q := s.processes[0], t.processes[0];
            && q.host == p.host && q.session == p.session && q.region == p.region
            && q.phase.Executed? && q.phase.request == p.phase.request && q.phase.cached == p.phase.cached
            && q.phase.work.request == p.phase.request && q.phase.work.result == "y" && q.phase.work.next == "xy"
  {
    hide Reachable;
    assert Append(Some("x"), SocketEvent("2", "y")) == Done("y", "xy");
    OneMoreAction(Append, s, 0, StrayAnswers(0, "y", "xy"));
    t := Act(Append, s, 0, StrayAnswers(0, "y", "xy"));
  }
}
