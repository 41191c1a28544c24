/**
 The ownership and commit protocol for one storage key, as atomic steps over one
 shared state: the placement row and its statements, the create-only snapshot store,
 the lease table, control-plane calls in flight, and any number of host processes
 that each hold at most one cached actor state and run at most one admitted call.

 A control-plane call, an upload, a capability: each keeps existing after the host
 gave up on it, so a lost reply, a late statement and a stale capability are all
 ordinary interleavings of these steps.
 */
module Protocol {
  import opened Common
  import P = Placement
  import L = Leases

  // ----- values ----------------------------------------------------------------

  datatype Kind = Method | Socket

  datatype Request = Request(id: string, kind: Kind, body: Value)

  /** What customer code does with a request. */
  datatype Outcome = Done(result: Value, next: Value) | Threw

  /** Customer code, from the instance state (`None` for a new instance). */
  type Customer = (Option<Value>, Request) -> Outcome

  datatype Snapshot = Snapshot(version: nat, epoch: nat, request: string, state: Value, result: Value)

  /** What a call got from the executor: `held` is the state its host supplied, `ran` the
      request whose customer code answered, `base` the state that code ran on, `result` and
      `next` what came back. */
  datatype Work = Work(
    attempt: nat,
    request: Request,
    held: Option<Value>,
    ran: Request,
    base: Option<Value>,
    result: Value,
    next: Value)

  /** An upload and the execution it came from. */
  datatype Put = Put(snapshot: Snapshot, work: Work)

  /** An invocation target: it stays usable however old it is. */
  datatype Capability = Capability(host: string, epoch: nat, version: nat, objectName: Option<string>)

  datatype Ticket = Ticket(version: nat, objectName: string)

  /** The single place that may still use a ticket's object name. */
  datatype Holder = InReply(call: nat) | InCache(process: nat) | Spent

  datatype Pending = Pending(snapshot: Snapshot, ticket: Ticket)

  datatype Cached = Cached(
    epoch: nat,
    version: nat,
    state: Option<Value>,
    lastRequest: Option<string>,
    lastResult: Option<Value>,
    nextWrite: Option<Ticket>,
    pending: Option<Pending>)

  // ----- control-plane calls ------------------------------------------------------

  datatype Stage =
    | Sent                                            // not yet looked at
    | Checked                                         // the lease was active when read
    | Missed                                          // the conditional update matched no row
    | Granted(version: nat, ticket: Option<Ticket>)   // answered, the reply is on its way
    | Closed                                          // refused, or the reply was consumed

  datatype Call =
    | CommitCall(process: nat, commit: P.Commit, stage: Stage)
    | PrepareCall(process: nat, commit: P.Commit, region: string, stage: Stage)

  // ----- host processes --------------------------------------------------------------

  datatype Phase =
    | Idle
    | Loading(attempt: nat, request: Request, cap: Capability)
    | Resolving(attempt: nat, request: Request, cached: Cached, call: nat)
    | Ready(attempt: nat, request: Request, cached: Cached)
    | Executed(attempt: nat, request: Request, cached: Cached, work: Work)
    | Preparing(attempt: nat, request: Request, cached: Cached, work: Work, call: nat)
    | Uploading(attempt: nat, request: Request, cached: Cached, work: Work, snapshot: Snapshot, ticket: Ticket)
    | Committing(attempt: nat, request: Request, cached: Cached, work: Work, call: nat)

  /** `instance` is the state of the JavaScript instance, if one is resident. `strays` are
      commands still under way at the worker although their calls were cancelled: the
      worker handles messages concurrently and has one slot for the caller to answer, so
      what a stray returns answers whichever command is waiting then. */
  datatype Process = Process(
    host: string,
    session: string,
    region: string,
    epoch: Option<nat>,
    cache: Option<Cached>,
    phase: Phase,
    instance: Option<Value>,
    strays: seq<Request>)

  /** What a completed reply rests on. */
  datatype Basis = ByCommit | ByReplay | ByNoChange

  datatype Reply =
    | Completed(attempt: nat, request: Request, version: nat, result: Value, state: Option<Value>, basis: Basis)
    | Failed(attempt: nat)
    | OutcomeUnknown(attempt: nat)
    | Unavailable(attempt: nat)

  // ----- the whole system --------------------------------------------------------------

  /** The placement row and the snapshot store, with their history: the snapshot
      name of each version and the owner of each epoch. No step reads the history. */
  datatype Ledger = Ledger(
    row: Option<P.Row>,
    committed: seq<string>,
    owners: seq<string>,
    store: map<string, Snapshot>)

  /** A call that a host took up. */
  datatype Attempt = Attempt(process: nat, request: Request)

  /** `attempts` numbers the calls hosts take up; `holders` remembers the one user of
      each minted object name. Steps look at them only to pick fresh numbers and names. */
  datatype System = System(
    ledger: Ledger,
    attempts: seq<Attempt>,
    holders: map<string, Holder>,
    puts: map<string, Put>,
    leases: L.Table,
    now: nat,
    caps: set<Capability>,
    calls: map<nat, Call>,
    processes: map<nat, Process>,
    replies: set<Reply>)

  function Initial(): System {
    System(Ledger(None, [], [], map[]), [], map[], map[], map[], 0, {}, map[], map[], {})
  }

  /** What the stores, the control plane and the network do. */
  datatype Event =
    | Tick(to: nat)
    | RegisterLease(lease: L.Request)
    | UnregisterLease(host: string, session: string)
    | Claim(expected: Option<P.Row>, owner: string, region: string)
    | IssueCapability
    | Spawn(pid: nat, host: string, session: string, region: string)
    | CheckLease(call: nat)
    | TryCommit(call: nat, minted: Option<string>)
    | ReadBack(call: nat, minted: Option<string>)
    | IssueTicket(call: nat, minted: Option<string>)
    | PutLands(name: string)

  /** What one host process does. */
  datatype Action =
    | Begin(request: Request, cap: Capability, call: nat)
    | Load
    | LoadFails
    | ResolveOk
    | ResolveFails
    | Replay
    | Execute(result: Value, next: Value)
    | ExecuteFails(keepInstance: bool)
    | UseTicket
    | AskTicket(call: nat)
    | TicketArrives
    | UploadDone(call: nat)
    | CommitOk
    | PublishFails
    | Cancel(sent: bool)                                   // the caller went away
    | StrayReturns(stray: nat, result: Value, next: Value)   // and nobody waits
    | StrayAnswers(stray: nat, result: Value, next: Value)   // to the command waiting now
    | InstanceEvicted

  datatype Step = World(event: Event) | Host(pid: nat, action: Action)

  // ----- host-side functions ------------------------------------------------------------

  /** `CachedActorState::new`. */
  function NewCached(epoch: nat): Cached {
    Cached(epoch, 0, None, None, None, None, None)
  }

  /** `CachedActorState::from_loaded`, when its two checks pass. */
  function FromLoaded(epoch: nat, version: nat, snapshot: Snapshot): Cached {
    Cached(epoch, version, Some(snapshot.state), Some(snapshot.request), Some(snapshot.result), None, None)
  }

  predicate LoadChecks(cap: Capability, snapshot: Snapshot) {
    snapshot.version == cap.version && snapshot.epoch <= cap.epoch
  }

  /** `CachedActorState::replay`. */
  function Replayed(c: Cached, request: string): Option<Value> {
    if c.lastRequest == Some(request) then c.lastResult else None
  }

  /** The end of `finish_pending_commit`: the pending snapshot becomes the cached state. */
  function Promote(c: Cached, nextWrite: Option<Ticket>): Cached
    requires c.pending.Some?
  {
    var s := c.pending.value.snapshot;
    Cached(c.epoch, s.version, Some(s.state), Some(s.request), Some(s.result), nextWrite, None)
  }

  /** What a method persists as its result; socket events persist null. */
  function Persisted(r: Request, result: Value): Value {
    if r.kind == Method then result else NULL
  }

  /** The snapshot that a request's result and next state make on top of a cached state. */
  function NextSnapshot(c: Cached, request: Request, result: Value, next: Value): Snapshot {
    Snapshot(c.version + 1, c.epoch, request.id, next, Persisted(request, result))
  }

  /** The snapshot an execution publishes. */
  function SnapshotOf(c: Cached, work: Work): Snapshot {
    NextSnapshot(c, work.request, work.result, work.next)
  }

  function CommitOf(p: Process, c: Cached): P.Commit
    requires c.pending.Some?
  {
    P.Commit(p.host, p.session, c.epoch, c.version, c.pending.value.ticket.objectName, c.pending.value.snapshot.request)
  }

  // ----- state updates ---------------------------------------------------------------------

  /** A host's own steps touch no other process, leave the ledger alone and take no
      reply back. */
  predicate HostOnly(s: System, t: System, pid: nat) {
    && t.ledger == s.ledger && t.caps == s.caps && s.replies <= t.replies
    && pid in t.processes && t.processes == s.processes[pid := t.processes[pid]]
  }

  function WithProcess(s: System, pid: nat, p: Process): System {
    s.(processes := s.processes[pid := p])
  }

  function WithPhase(s: System, pid: nat, phase: Phase): (t: System)
    requires pid in s.processes
    ensures HostOnly(s, t, pid) && t.puts == s.puts && t.processes[pid] == s.processes[pid].(phase := phase)
  {
    WithProcess(s, pid, s.processes[pid].(phase := phase))
  }

  /** The call ends: its cached state goes back into the map and a reply leaves. */
  function Finish(s: System, pid: nat, c: Cached, reply: Reply): (t: System)
    requires pid in s.processes
    ensures HostOnly(s, t, pid) && t.puts == s.puts
            && t.processes[pid] == s.processes[pid].(phase := Idle, cache := Some(c))
  {
    WithProcess(s, pid, s.processes[pid].(phase := Idle, cache := Some(c))).(replies := s.replies + {reply})
  }

  predicate SameCall(k: Call, l: Call) {
    k.CommitCall? == l.CommitCall? && k.process == l.process && k.commit == l.commit
  }

  /** A statement for one call touches that call, and at most mints a name for it. */
  predicate CallOnly(s: System, t: System, call: nat) {
    && call in s.calls && call in t.calls && SameCall(s.calls[call], t.calls[call])
    && t == s.(calls := s.calls[call := t.calls[call]], holders := t.holders)
  }

  function WithStage(s: System, call: nat, stage: Stage): (t: System)
    requires call in s.calls
    ensures CallOnly(s, t, call) && t.calls[call].stage == stage
  {
    s.(calls := s.calls[call := s.calls[call].(stage := stage)])
  }

  /** The call is answered; a fresh name, if any, becomes its next write ticket. */
  function Grant(s: System, call: nat, version: nat, minted: Option<string>): (t: System)
    requires call in s.calls
    ensures CallOnly(s, t, call) && t.calls[call].stage.Granted? && t.calls[call].stage.version == version
  {
    if minted.None? then WithStage(s, call, Granted(version, None))
    else WithStage(s, call, Granted(version, Some(Ticket(version + 1, minted.value))))
         .(holders := s.holders[minted.value := InReply(call)])
  }

  /** The host consumes an answered call; its ticket, if any, moves to the host. */
  function Consume(s: System, call: nat, pid: nat): (t: System)
    requires pid in s.processes && call in s.calls && s.calls[call].stage.Granted?
    ensures HostOnly(s, t, pid) && t.puts == s.puts && t.processes == s.processes
  {
    var ticket := s.calls[call].stage.ticket;
    var closed := WithStage(s, call, Closed);
    if ticket.None? then closed
    else closed.(holders := s.holders[ticket.value.objectName := InCache(pid)])
  }

  /** The upload leaves the host and its object name is used up. */
  function SendPut(s: System, name: string, put: Put): System {
    s.(puts := s.puts[name := put], holders := s.holders[name := Spent])
  }

  function CapabilityOf(row: P.Row): Capability {
    Capability(row.owner, row.epoch, row.version, row.objectName)
  }

  /** The lease condition of the conditional update. */
  predicate Leased(s: System, c: P.Commit) {
    c.owner in s.leases && s.leases[c.owner].session == c.session && s.leases[c.owner].expires > s.now
  }

  /** The state customer code runs on: a resident instance wins over supplied state, also
      one that a stray made and that has no state yet. */
  function ExecutionBase(p: Process, supplied: Option<Value>): Option<Value> {
    if p.instance.Some? || p.strays != [] then p.instance else supplied
  }

  function NewProcess(host: string, session: string, region: string): Process {
    Process(host, session, region, None, None, Idle, None, [])
  }

  predicate FreshName(s: System, minted: Option<string>) {
    minted.Some? ==> minted.value !in s.holders
  }

  // ----- when a step can happen ------------------------------------------------------------

  predicate CanHappen(s: System, event: Event) {
    match event
    case Tick(to) => s.now <= to
    case IssueCapability => s.ledger.row.Some?
    case Spawn(pid, _, _, _) => pid !in s.processes
    case CheckLease(call) => call in s.calls && s.calls[call].stage == Sent
    case TryCommit(call, minted) =>
      call in s.calls && s.calls[call].CommitCall? && s.calls[call].stage == Checked && FreshName(s, minted)
    case ReadBack(call, minted) =>
      call in s.calls && s.calls[call].CommitCall? && s.calls[call].stage == Missed && FreshName(s, minted)
    case IssueTicket(call, minted) =>
      call in s.calls && s.calls[call].PrepareCall? && s.calls[call].stage == Checked && FreshName(s, minted)
    case PutLands(name) => name in s.puts
    case _ => true
  }

  /** A method whose result is already the cached one is not run again. */
  predicate MustReplay(phase: Phase)
    requires phase.Ready?
  {
    phase.request.kind == Method && Replayed(phase.cached, phase.request.id).Some?
  }

  /** The commit was confirmed with the version the host expects. */
  predicate Answered(s: System, call: nat, c: Cached) {
    && c.pending.Some?
    && call in s.calls && s.calls[call].stage.Granted?
    && s.calls[call].stage.version == c.pending.value.snapshot.version
  }

  predicate CanAct(customer: Customer, s: System, pid: nat, action: Action) {
    && pid in s.processes
    && var p := s.processes[pid];
    match action
    case Begin(_, cap, call) => p.phase == Idle && cap in s.caps && cap.host == p.host && call !in s.calls
    case Load =>
      && p.phase.Loading?
      && p.phase.cap.objectName.Some? && p.phase.cap.objectName.value in s.ledger.store
      && LoadChecks(p.phase.cap, s.ledger.store[p.phase.cap.objectName.value])
    case LoadFails => p.phase.Loading?
    case ResolveOk => p.phase.Resolving? && Answered(s, p.phase.call, p.phase.cached)
    case ResolveFails => p.phase.Resolving?
    case Replay => p.phase.Ready? && MustReplay(p.phase)
    case Execute(result, next) =>
      && p.phase.Ready? && !MustReplay(p.phase)
      && customer(ExecutionBase(p, p.phase.cached.state), p.phase.request) == Done(result, next)
    case ExecuteFails(_) => p.phase.Ready? && !MustReplay(p.phase)
    case UseTicket =>
      && p.phase.Executed? && p.phase.cached.version < U64_MAX && p.phase.cached.nextWrite.Some?
      && p.phase.cached.nextWrite.value.version == p.phase.cached.version + 1
    case AskTicket(call) => p.phase.Executed? && p.phase.cached.version < U64_MAX && call !in s.calls
    case TicketArrives =>
      && p.phase.Preparing?
      && p.phase.call in s.calls && s.calls[p.phase.call].stage.Granted?
      && s.calls[p.phase.call].stage.ticket.Some?
      && s.calls[p.phase.call].stage.ticket.value.version == p.phase.cached.version + 1
    case UploadDone(call) =>
      && p.phase.Uploading? && call !in s.calls
      && p.phase.ticket.objectName in s.ledger.store
    case CommitOk => p.phase.Committing? && Answered(s, p.phase.call, p.phase.cached)
    case PublishFails => p.phase.Executed? || p.phase.Preparing? || p.phase.Uploading? || p.phase.Committing?
    case Cancel(sent) => p.phase != Idle && (sent ==> p.phase.Ready?)
    case StrayReturns(i, result, next) => i < |p.strays| && customer(p.instance, p.strays[i]) == Done(result, next)
    case StrayAnswers(i, result, next) =>
      && p.phase.Ready? && !MustReplay(p.phase)
      && i < |p.strays| && customer(p.instance, p.strays[i]) == Done(result, next)
    case InstanceEvicted => true
  }

  predicate Enabled(customer: Customer, s: System, step: Step) {
    match step
    case World(event) => CanHappen(s, event)
    case Host(pid, action) => CanAct(customer, s, pid, action)
  }

  // ----- what a step does --------------------------------------------------------------------

  function Apply(customer: Customer, s: System, step: Step): System
    requires Enabled(customer, s, step)
  {
    match step
    case World(event) => Happen(s, event)
    case Host(pid, action) => Act(customer, s, pid, action)
  }

  function Happen(s: System, event: Event): System
    requires CanHappen(s, event)
  {
    match event
    case Tick(to) => s.(now := to)
    case RegisterLease(lease) => s.(leases := L.Register(s.leases, s.now, lease))
    case UnregisterLease(host, session) => s.(leases := L.Unregister(s.leases, host, session))
    case Claim(expected, owner, region) => ApplyClaim(s, expected, owner, region)
    case IssueCapability => s.(caps := s.caps + {CapabilityOf(s.ledger.row.value)})
    case Spawn(pid, host, session, region) =>
      WithProcess(s, pid, NewProcess(host, session, region))
    case CheckLease(call) => ApplyCheckLease(s, call)
    case TryCommit(call, minted) => ApplyTryCommit(s, call, minted)
    case ReadBack(call, minted) => ApplyReadBack(s, call, minted)
    case IssueTicket(call, minted) => ApplyIssueTicket(s, call, minted)
    case PutLands(name) =>
      if name in s.ledger.store then s
      else s.(ledger := s.ledger.(store := s.ledger.store[name := s.puts[name].snapshot]))
  }

  /** The two actions that send an upload. */
  predicate IsUpload(action: Action) {
    action.UseTicket? || action.TicketArrives?
  }

  function Act(customer: Customer, s: System, pid: nat, action: Action): (t: System)
    requires CanAct(customer, s, pid, action)
    ensures HostOnly(s, t, pid) && (!IsUpload(action) ==> t.puts == s.puts)
  {
    if IsPublication(action) then Publish(customer, s, pid, action)
    else if IsExecution(action) then Run(customer, s, pid, action)
    else Obtain(customer, s, pid, action)
  }

  /** The actions between a successful execution and the reply. */
  predicate IsPublication(action: Action) {
    || action.UseTicket? || action.AskTicket? || action.TicketArrives?
    || action.UploadDone? || action.CommitOk? || action.PublishFails?
  }

  predicate IsExecution(action: Action) {
    || action.Execute? || action.ExecuteFails? || action.InstanceEvicted?
    || action.Cancel? || action.StrayReturns? || action.StrayAnswers?
  }

  /** Admission: get hold of the state and settle a pending commit. */
  function Obtain(customer: Customer, s: System, pid: nat, action: Action): (t: System)
    requires !IsPublication(action) && !IsExecution(action) && CanAct(customer, s, pid, action)
    ensures HostOnly(s, t, pid) && t.puts == s.puts
  {
    var phase := s.processes[pid].phase;
    match action
    case Begin(request, cap, call) => ApplyBegin(s, pid, request, cap, call)
    case Load =>
      WithPhase(s, pid, Ready(phase.attempt, phase.request,
                              FromLoaded(phase.cap.epoch, phase.cap.version,
                                         s.ledger.store[phase.cap.objectName.value])))
    case LoadFails =>
      WithPhase(s, pid, Idle).(replies := s.replies + {Unavailable(phase.attempt)})
    case ResolveOk =>
      WithPhase(Consume(s, phase.call, pid), pid,
                Ready(phase.attempt, phase.request, Promote(phase.cached, s.calls[phase.call].stage.ticket)))
    case ResolveFails => Finish(s, pid, phase.cached, OutcomeUnknown(phase.attempt))
    case Replay =>
      Finish(s, pid, phase.cached,
             Completed(phase.attempt, phase.request, phase.cached.version,
                       Replayed(phase.cached, phase.request.id).value, phase.cached.state, ByReplay))
  }

  /** What happens at the executor. */
  function Run(customer: Customer, s: System, pid: nat, action: Action): (t: System)
    requires IsExecution(action) && CanAct(customer, s, pid, action)
    ensures HostOnly(s, t, pid) && t.puts == s.puts
  {
    var p := s.processes[pid];
    match action
    case Execute(result, next) => ApplyExecute(s, pid, Ran(p, p.phase.request, result, next), result, next)
    case ExecuteFails(keepInstance) => ApplyExecuteFails(s, pid, keepInstance)
    case InstanceEvicted => WithProcess(s, pid, Evicted(p))
    case Cancel(sent) => WithProcess(s, pid, Cancelled(p, sent))
    case StrayReturns(i, _, next) => WithProcess(s, pid, p.(instance := Some(next), strays := Without(p.strays, i)))
    case StrayAnswers(i, result, next) => ApplyExecute(s, pid, Misanswered(p, i, result, next), result, next)
  }

  /** `publish_result`: ticket, upload, commit. */
  function Publish(customer: Customer, s: System, pid: nat, action: Action): (t: System)
    requires IsPublication(action) && CanAct(customer, s, pid, action)
    ensures HostOnly(s, t, pid) && (!IsUpload(action) ==> t.puts == s.puts)
  {
    var p := s.processes[pid];
    var phase := p.phase;
    match action
    case UseTicket =>
      StartUpload(s, pid, phase.cached.nextWrite.value, phase.cached.(nextWrite := None), phase.work)
    case AskTicket(call) => ApplyAskTicket(s, pid, call)
    case TicketArrives =>
      StartUpload(Consume(s, phase.call, pid), pid, s.calls[phase.call].stage.ticket.value, phase.cached, phase.work)
    case UploadDone(call) => ApplyUploadDone(s, pid, call)
    case CommitOk =>
      var promoted := Promote(phase.cached, s.calls[phase.call].stage.ticket);
      Finish(Consume(s, phase.call, pid), pid, promoted,
             Completed(phase.attempt, phase.request, promoted.version, phase.work.result, promoted.state, ByCommit))
    case PublishFails =>
      Finish(WithProcess(s, pid, Evicted(p)), pid,
             if phase.Executed? && phase.cached.version < U64_MAX
             then phase.cached.(nextWrite := None) else phase.cached,
             OutcomeUnknown(phase.attempt))
  }

  /** `require_active_host`, and the version bound of the call. */
  function ApplyCheckLease(s: System, call: nat): (t: System)
    requires call in s.calls
    ensures CallOnly(s, t, call) && !t.calls[call].stage.Granted?
  {
    var c := s.calls[call].commit;
    WithStage(s, call, if Leased(s, c) && c.expected < I64_MAX && c.epoch <= I64_MAX then Checked else Closed)
  }

  /** No usable ticket: ask the control plane for one. */
  function ApplyAskTicket(s: System, pid: nat, call: nat): (t: System)
    requires pid in s.processes && s.processes[pid].phase.Executed?
    ensures HostOnly(s, t, pid) && t.puts == s.puts
  {
    var p := s.processes[pid];
    var c := p.phase.cached.(nextWrite := None);
    var ask := P.Commit(p.host, p.session, c.epoch, c.version, "", p.phase.request.id);
    WithPhase(s, pid, Preparing(p.phase.attempt, p.phase.request, c, p.phase.work, call))
    .(calls := s.calls[call := PrepareCall(pid, ask, p.region, Sent)])
  }

  /** The store has the object, written now or before: the commit becomes pending. */
  function ApplyUploadDone(s: System, pid: nat, call: nat): (t: System)
    requires pid in s.processes && s.processes[pid].phase.Uploading?
    ensures HostOnly(s, t, pid) && t.puts == s.puts
  {
    var p := s.processes[pid];
    var c := p.phase.cached.(pending := Some(Pending(p.phase.snapshot, p.phase.ticket)));
    WithPhase(s, pid, Committing(p.phase.attempt, p.phase.request, c, p.phase.work, call))
    .(calls := s.calls[call := CommitCall(pid, CommitOf(p, c), Sent)])
  }

  /** One claim statement; an acquired row starts a new epoch. */
  function ApplyClaim(s: System, expected: Option<P.Row>, owner: string, region: string): (t: System)
    ensures t == s.(ledger := t.ledger)
  {
    var answer := P.PostgresClaim(s.ledger.row, expected, owner, region);
    s.(ledger := s.ledger.(row := P.AfterClaim(s.ledger.row, answer),
                           owners := if answer.Acquired? then s.ledger.owners + [owner] else s.ledger.owners))
  }

  /** The conditional update matches the row. */
  predicate Wins(s: System, c: P.Commit) {
    s.ledger.row.Some? && Leased(s, c) && P.Matches(s.ledger.row.value, c)
  }

  /** The head moves to the snapshot the commit names. */
  function Advanced(s: System, c: P.Commit): System
    requires s.ledger.row.Some?
  {
    s.(ledger := s.ledger.(row := Some(P.Advance(s.ledger.row.value, c)),
                           committed := s.ledger.committed + [c.objectName]))
  }

  /** The conditional update, guarded by owner, epoch, version and live lease. */
  function ApplyTryCommit(s: System, call: nat, minted: Option<string>): (t: System)
    requires call in s.calls
    ensures var c := s.calls[call].commit;
            if Wins(s, c)
            then CallOnly(Advanced(s, c), t, call) && t.calls[call].stage.Granted?
              && t.calls[call].stage.version == c.expected + 1
            else CallOnly(s, t, call) && !t.calls[call].stage.Granted?
  {
    var c := s.calls[call].commit;
    if Wins(s, c) then
      Grant(Advanced(s, c), call, c.expected + 1, minted)
    else
      WithStage(s, call, Missed)
  }

  /** The separate read after a missed update. */
  function ApplyReadBack(s: System, call: nat, minted: Option<string>): (t: System)
    requires call in s.calls
    ensures CallOnly(s, t, call)
    ensures t.calls[call].stage.Granted? ==>
              && s.ledger.row.Some? && P.IsReplayed(s.ledger.row.value, s.calls[call].commit)
              && t.calls[call].stage.version == s.ledger.row.value.version
  {
    var c := s.calls[call].commit;
    if s.ledger.row.Some? && P.IsReplayed(s.ledger.row.value, c) then Grant(s, call, s.ledger.row.value.version, minted)
    else WithStage(s, call, Closed)
  }

  /** `prepare_state_write` after its lease check. */
  function ApplyIssueTicket(s: System, call: nat, minted: Option<string>): (t: System)
    requires call in s.calls && s.calls[call].PrepareCall?
    ensures CallOnly(s, t, call)
  {
    var k := s.calls[call];
    if && s.ledger.row.Some? && P.Matches(s.ledger.row.value, k.commit) && s.ledger.row.value.region == k.region
    then Grant(s, call, k.commit.expected, minted)
    else WithStage(s, call, Closed)
  }

  /** The call finds its host's cached state in the map. */
  predicate CacheHit(p: Process, cap: Capability) {
    p.cache.Some? && p.cache.value.epoch == cap.epoch
  }

  /** With the state in hand: resolve a pending commit first, if there is one. */
  function Holding(attempt: nat, request: Request, c: Cached, call: nat): Phase {
    if c.pending.None? then Ready(attempt, request, c) else Resolving(attempt, request, c, call)
  }

  /** `take_or_load_state`: a cached state of another epoch is dropped. */
  function Begun(p: Process, attempt: nat, request: Request, cap: Capability, call: nat): (q: Process)
    ensures q.phase.Resolving? ==> CacheHit(p, cap) && q.phase.cached == p.cache.value && p.cache.value.pending.Some?
  {
    p.(cache := None,
       epoch := Some(cap.epoch),
       phase :=
         if CacheHit(p, cap) then Holding(attempt, request, p.cache.value, call)
         else if cap.version == 0 then Ready(attempt, request, NewCached(cap.epoch))
         else Loading(attempt, request, cap))
  }

  function ApplyBegin(s: System, pid: nat, request: Request, cap: Capability, call: nat): (t: System)
    requires pid in s.processes
    ensures HostOnly(s, t, pid) && t.puts == s.puts
  {
    var q := Begun(s.processes[pid], |s.attempts|, request, cap, call);
    var t := WithProcess(s, pid, q).(attempts := s.attempts + [Attempt(pid, request)]);
    if q.phase.Resolving? then t.(calls := s.calls[call := CommitCall(pid, CommitOf(q, q.phase.cached), Sent)]) else t
  }

  /** Eviction terminates the worker, with its instance and all it has under way. */
  function Evicted(p: Process): Process {
    p.(instance := None, strays := [])
  }

  /** The call is dropped. A command already sent goes on at the worker, on the instance it
      found or hydrated. */
  function Cancelled(p: Process, sent: bool): Process
    requires sent ==> p.phase.Ready?
  {
    if sent then
      p.(phase := Idle,
         instance := ExecutionBase(p, p.phase.cached.state),
         strays := p.strays + [p.phase.request])
    else
      p.(phase := Idle)
  }

  function Without(strays: seq<Request>, i: nat): seq<Request>
    requires i < |strays|
  {
    strays[..i] + strays[i + 1..]
  }

  /** A stray's reply is taken for that of the waiting command, which becomes a stray. */
  function Misanswered(p: Process, i: nat, result: Value, next: Value): Process
    requires p.phase.Ready? && i < |p.strays|
  {
    Ran(p, p.strays[i], result, next).(strays := Without(p.strays, i) + [p.phase.request])
  }

  /** A successful exchange, answered by the customer code of `ran`. An unchanged state
      goes back into the map at once. */
  function Ran(p: Process, ran: Request, result: Value, next: Value): Process
    requires p.phase.Ready?
  {
    var phase := p.phase;
    if phase.cached.state == Some(next) then p.(instance := Some(next), phase := Idle, cache := Some(phase.cached))
    else
      var base := ExecutionBase(p, phase.cached.state);
      var work := Work(phase.attempt, phase.request, phase.cached.state, ran, base, result, next);
      p.(instance := Some(next), phase := Executed(phase.attempt, phase.request, phase.cached, work))
  }

  function ApplyExecute(s: System, pid: nat, q: Process, result: Value, next: Value): (t: System)
    requires pid in s.processes && s.processes[pid].phase.Ready?
    ensures HostOnly(s, t, pid) && t.puts == s.puts && t.processes[pid] == q
    ensures t.calls == s.calls && t.attempts == s.attempts
  {
    var phase := s.processes[pid].phase;
    var t := WithProcess(s, pid, q);
    if phase.cached.state == Some(next)
    then t.(replies := s.replies + {Completed(phase.attempt, phase.request, phase.cached.version, result, Some(next),
                                              ByNoChange)})
    else t
  }

  /** A failed exchange: the state goes back unchanged. */
  function ApplyExecuteFails(s: System, pid: nat, keepInstance: bool): (t: System)
    requires pid in s.processes && s.processes[pid].phase.Ready?
    ensures HostOnly(s, t, pid) && t.puts == s.puts
    ensures t.calls == s.calls && t.attempts == s.attempts
  {
    var p := s.processes[pid];
    Finish(WithProcess(s, pid, if keepInstance then p else Evicted(p)), pid, p.phase.cached, Failed(p.phase.attempt))
  }

  /** The call's own snapshot leaves for the object its ticket names. */
  function StartUpload(s: System, pid: nat, ticket: Ticket, c: Cached, work: Work): (t: System)
    requires pid in s.processes
    ensures HostOnly(s, t, pid) && t.puts == s.puts[ticket.objectName := Put(SnapshotOf(c, work), work)]
    ensures t.processes[pid]
            == s.processes[pid].(phase := Uploading(work.attempt, work.request, c, work, SnapshotOf(c, work), ticket))
  {
    WithPhase(SendPut(s, ticket.objectName, Put(SnapshotOf(c, work), work)), pid,
              Uploading(work.attempt, work.request, c, work, SnapshotOf(c, work), ticket))
  }

  // ----- runs ---------------------------------------------------------------------------------

  /** The state after a run, or `None` when some step was not enabled. */
  function After(customer: Customer, steps: seq<Step>): Option<System> {
    if steps == [] then Some(Initial())
    else
      var before := After(customer, steps[..|steps| - 1]);
      var step := steps[|steps| - 1];
      if before.Some? && Enabled(customer, before.value, step) then Some(Apply(customer, before.value, step)) else None
  }
}
