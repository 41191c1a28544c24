/**
 What every reachable state of the commit protocol satisfies, with no hypothesis on
 hosts, executors, cancellations or timing. Each part names just the components it
 speaks about, so a step only has to argue about the parts it changes.
 */
module ProtocolInvariant {
  import opened Common
  import opened Protocol

  // ----- the durable history ---------------------------------------------------------

  /** The snapshot committed at a version. */
  function SnapshotAt(l: Ledger, v: nat): Option<Snapshot> {
    if 0 < v <= |l.committed| && l.committed[v - 1] in l.store then Some(l.store[l.committed[v - 1]]) else None
  }

  function StateAt(l: Ledger, v: nat): Option<Value> {
    var x := SnapshotAt(l, v);
    if x.Some? then Some(x.value.state) else None
  }

  function RequestAt(l: Ledger, v: nat): Option<string> {
    var x := SnapshotAt(l, v);
    if x.Some? then Some(x.value.request) else None
  }

  function ResultAt(l: Ledger, v: nat): Option<Value> {
    var x := SnapshotAt(l, v);
    if x.Some? then Some(x.value.result) else None
  }

  /** The row is the tip of the history. */
  predicate HeadOk(l: Ledger) {
    match l.row
    case None => l.committed == [] && l.owners == []
    case Some(row) =>
      && row.version == |l.committed|
      && row.epoch == |l.owners| && |l.owners| > 0 && row.owner == l.owners[|l.owners| - 1]
      && row.objectName == (if row.version == 0 then None else Some(l.committed[row.version - 1]))
      && row.lastRequest == RequestAt(l, row.version)
  }

  /** Version `i + 1` is a stored snapshot that says so itself. */
  predicate HistoryOk(l: Ledger) {
    forall i :: 0 <= i < |l.committed| ==>
      && l.committed[i] in l.store
      && l.store[l.committed[i]].version == i + 1
      && 1 <= l.store[l.committed[i]].epoch <= |l.owners|
  }

  predicate StoreOk(store: map<string, Snapshot>, puts: map<string, Put>) {
    forall n :: n in store ==> n in puts && store[n] == puts[n].snapshot
  }

  /** The snapshot is what customer code made of `base`. */
  predicate ProducedBy(customer: Customer, base: Option<Value>, request: Request, snapshot: Snapshot) {
    var ran := customer(base, request);
    && ran.Done?
    && snapshot.state == ran.next
    && snapshot.result == Persisted(request, ran.result)
    && snapshot.request == request.id
  }

  /** Customer code really returned what an execution records. */
  predicate Returned(customer: Customer, work: Work) {
    customer(work.base, work.ran) == Done(work.result, work.next)
  }

  /** An upload is what its execution returned, on top of the state committed just below
      its version, and a method never extends a snapshot of its own request. */
  predicate PutOk(customer: Customer, l: Ledger, put: Put) {
    && 1 <= put.snapshot.version <= |l.committed| + 1
    && 1 <= put.snapshot.epoch <= |l.owners|
    && put.snapshot.request == put.work.request.id
    && put.snapshot.state == put.work.next
    && put.snapshot.result == Persisted(put.work.request, put.work.result)
    && put.work.held == StateAt(l, put.snapshot.version - 1)
    && (put.work.request.kind == Method ==> RequestAt(l, put.snapshot.version - 1) != Some(put.work.request.id))
    && Returned(customer, put.work)
  }

  predicate PutsOk(customer: Customer, l: Ledger, puts: map<string, Put>) {
    forall n :: n in puts ==> PutOk(customer, l, puts[n])
  }

  /** A capability was the row at some time, however old it is. */
  predicate CapOk(l: Ledger, cap: Capability) {
    && 1 <= cap.epoch <= |l.owners| && cap.host == l.owners[cap.epoch - 1]
    && cap.version <= |l.committed|
    && cap.objectName == (if cap.version == 0 then None else Some(l.committed[cap.version - 1]))
    && (cap.version > 0 ==>
          l.committed[cap.version - 1] in l.store && l.store[l.committed[cap.version - 1]].epoch <= cap.epoch)
  }

  predicate CapsOk(l: Ledger, caps: set<Capability>) {
    forall cap :: cap in caps ==> CapOk(l, cap)
  }

  // ----- host caches ---------------------------------------------------------------------

  /** A cached state is the committed snapshot of its version; a pending commit is
      an uploaded snapshot one version above it. */
  predicate CachedOk(l: Ledger, c: Cached) {
    && c.version <= |l.committed| && 1 <= c.epoch <= |l.owners|
    && c.state == StateAt(l, c.version)
    && c.lastRequest == RequestAt(l, c.version)
    && c.lastResult == ResultAt(l, c.version)
    && (c.pending.Some? ==> PendingOk(l, c, c.pending.value))
  }

  predicate PendingOk(l: Ledger, c: Cached, pending: Pending) {
    && pending.snapshot.version == c.version + 1 == pending.ticket.version
    && pending.snapshot.epoch == c.epoch
    && pending.ticket.objectName in l.store
    && l.store[pending.ticket.objectName] == pending.snapshot
  }

  predicate HasCached(phase: Phase) {
    !phase.Idle? && !phase.Loading?
  }

  /** The phase is past a successful execution. */
  predicate HasWork(phase: Phase) {
    phase.Executed? || phase.Preparing? || phase.Uploading? || phase.Committing?
  }

  predicate WorkOk(customer: Customer, phase: Phase)
    requires HasWork(phase)
  {
    && phase.work.attempt == phase.attempt && phase.work.request == phase.request
    && phase.work.held == phase.cached.state
    && (phase.request.kind == Method ==> phase.cached.lastRequest != Some(phase.request.id))
    && Returned(customer, phase.work)
  }

  predicate ProcessOk(customer: Customer, l: Ledger, p: Process) {
    && (p.cache.Some? ==> CachedOk(l, p.cache.value))
    && (!p.phase.Idle? ==> p.cache.None?)
    && (HasCached(p.phase) ==>
          && CachedOk(l, p.phase.cached)
          && (p.phase.cached.pending.Some? <==> p.phase.Resolving? || p.phase.Committing?))
    && (HasWork(p.phase) ==> WorkOk(customer, p.phase))
    && (p.phase.Preparing? || p.phase.Uploading? || p.phase.Committing? ==> p.phase.cached.nextWrite.None?)
    && (p.phase.Loading? ==> CapOk(l, p.phase.cap) && p.phase.cap.version > 0)
  }

  predicate ProcessesOk(customer: Customer, l: Ledger, processes: map<nat, Process>) {
    forall pid :: pid in processes ==> ProcessOk(customer, l, processes[pid])
  }

  // ----- calls in flight -----------------------------------------------------------------------

  predicate CallOk(l: Ledger, k: Call) {
    && k.commit.expected <= |l.committed|
    && (k.CommitCall? ==>
          && k.commit.objectName in l.store
          && var snapshot := l.store[k.commit.objectName];
          snapshot.version == k.commit.expected + 1 && snapshot.request == k.commit.request
            && snapshot.epoch == k.commit.epoch)
    && (k.stage.Checked? || k.stage.Missed? || (k.stage.Granted? && k.CommitCall?) ==> k.commit.expected < I64_MAX)
    && (k.stage.Granted? && k.CommitCall? ==>
          k.stage.version == k.commit.expected + 1 <= |l.committed|
            && l.committed[k.commit.expected] == k.commit.objectName)
  }

  predicate CallsOk(l: Ledger, calls: map<nat, Call>) {
    forall id :: id in calls ==> CallOk(l, calls[id])
  }

  /** What a phase waits for is really its own. */
  predicate LinkOk(calls: map<nat, Call>, puts: map<string, Put>, pid: nat, phase: Phase) {
    match phase
    case Resolving(_, _, c, call) => CallFor(calls, call, pid, c)
    case Committing(_, _, c, work, call) =>
      && CallFor(calls, call, pid, c)
      && c.pending.value.ticket.objectName in puts
      && puts[c.pending.value.ticket.objectName] == Put(c.pending.value.snapshot, work)
    case Preparing(_, _, _, _, call) =>
      call in calls && calls[call].PrepareCall? && calls[call].process == pid
    case Uploading(_, _, c, work, snapshot, ticket) =>
      && ticket.version == c.version + 1 && snapshot == SnapshotOf(c, work)
      && ticket.objectName in puts && puts[ticket.objectName] == Put(snapshot, work)
    case _ => true
  }

  /** The call in flight is the commit of exactly this pending snapshot. */
  predicate CallFor(calls: map<nat, Call>, call: nat, pid: nat, c: Cached) {
    && c.pending.Some?
    && call in calls && calls[call].CommitCall? && calls[call].process == pid
    && calls[call].commit.expected == c.version
    && calls[call].commit.objectName == c.pending.value.ticket.objectName
  }

  predicate LinksOk(calls: map<nat, Call>, puts: map<string, Put>, processes: map<nat, Process>) {
    forall pid :: pid in processes ==> LinkOk(calls, puts, pid, processes[pid].phase)
  }

  /** A call carries its process's own host and session. */
  predicate CallersOk(calls: map<nat, Call>, processes: map<nat, Process>) {
    forall id :: id in calls ==>
      && calls[id].process in processes
      && calls[id].commit.owner == processes[calls[id].process].host
      && calls[id].commit.session == processes[calls[id].process].session
  }

  // ----- replies ----------------------------------------------------------------------------------

  /** A completed reply reports a state that is durable at the reported version. */
  predicate ReplyOk(l: Ledger, r: Reply) {
    r.Completed? ==> 0 < r.version <= |l.committed| && r.state == StateAt(l, r.version) && r.state.Some?
  }

  predicate RepliesOk(l: Ledger, replies: set<Reply>) {
    forall r :: r in replies ==> ReplyOk(l, r)
  }

  // ----- tickets: each minted name has one user ---------------------------------------------------

  predicate Holds(holders: map<string, Holder>, name: string, holder: Holder) {
    name in holders && holders[name] == holder
  }

  predicate SpentOk(holders: map<string, Holder>, puts: map<string, Put>) {
    forall n :: n in puts ==> Holds(holders, n, Spent)
  }

  predicate CallTicketOk(holders: map<string, Holder>, id: nat, k: Call) {
    k.stage.Granted? && k.stage.ticket.Some? ==>
      Holds(holders, k.stage.ticket.value.objectName, InReply(id))
        && k.stage.ticket.value.version == k.stage.version + 1
  }

  predicate CallTicketsOk(holders: map<string, Holder>, calls: map<nat, Call>) {
    forall id :: id in calls ==> CallTicketOk(holders, id, calls[id])
  }

  predicate CacheTicketOk(holders: map<string, Holder>, pid: nat, c: Cached) {
    c.nextWrite.Some? ==> Holds(holders, c.nextWrite.value.objectName, InCache(pid))
  }

  predicate ProcessTicketOk(holders: map<string, Holder>, pid: nat, p: Process) {
    && (p.cache.Some? ==> CacheTicketOk(holders, pid, p.cache.value))
    && (HasCached(p.phase) ==> CacheTicketOk(holders, pid, p.phase.cached))
  }

  predicate ProcessTicketsOk(holders: map<string, Holder>, processes: map<nat, Process>) {
    forall pid :: pid in processes ==> ProcessTicketOk(holders, pid, processes[pid])
  }

  // ----- attempts: each belongs to one process and is answered once -----------------------------------

  predicate NoUpload(puts: map<string, Put>, attempt: nat) {
    forall n :: n in puts ==> puts[n].work.attempt != attempt
  }

  /** A running attempt is its process's and its request's, and uploads at most once. */
  predicate RunningOk(attempts: seq<Attempt>, puts: map<string, Put>, pid: nat, phase: Phase) {
    !phase.Idle? ==>
      && phase.attempt < |attempts| && attempts[phase.attempt] == Attempt(pid, phase.request)
      && (!phase.Uploading? && !phase.Committing? ==> NoUpload(puts, phase.attempt))
  }

  predicate UnansweredOk(replies: set<Reply>, phase: Phase) {
    !phase.Idle? ==> forall r :: r in replies ==> r.attempt != phase.attempt
  }

  /** An upload belongs to an attempt to serve exactly its request. */
  predicate AttemptOf(attempts: seq<Attempt>, work: Work) {
    work.attempt < |attempts| && attempts[work.attempt].request == work.request
  }

  /** No attempt has two uploads. */
  predicate OneUploadEach(puts: map<string, Put>) {
    forall m, n :: m in puts && n in puts && puts[m].work.attempt == puts[n].work.attempt ==> m == n
  }

  predicate AttemptsOk(attempts: seq<Attempt>, puts: map<string, Put>, processes: map<nat, Process>,
                       replies: set<Reply>) {
    && (forall n :: n in puts ==> AttemptOf(attempts, puts[n].work)) && OneUploadEach(puts)
    && (forall pid :: pid in processes ==> RunningOk(attempts, puts, pid, processes[pid].phase))
    && (forall pid :: pid in processes ==> UnansweredOk(replies, processes[pid].phase))
    && (forall r :: r in replies ==>
         r.attempt < |attempts| && (r.Completed? ==> attempts[r.attempt].request == r.request))
    && (forall r :: r in replies ==> (r.Failed? || r.Unavailable? ==> NoUpload(puts, r.attempt)))
  }

  // ----- all of it ----------------------------------------------------------------------------------------

  predicate Inv(customer: Customer, s: System) {
    && HeadOk(s.ledger) && HistoryOk(s.ledger) && StoreOk(s.ledger.store, s.puts)
    && PutsOk(customer, s.ledger, s.puts)
    && CapsOk(s.ledger, s.caps)
    && CallsOk(s.ledger, s.calls)
    && ProcessesOk(customer, s.ledger, s.processes)
    && RepliesOk(s.ledger, s.replies)
    && LinksOk(s.calls, s.puts, s.processes)
    && CallersOk(s.calls, s.processes)
    && SpentOk(s.holders, s.puts) && CallTicketsOk(s.holders, s.calls) && ProcessTicketsOk(s.holders, s.processes)
    && AttemptsOk(s.attempts, s.puts, s.processes, s.replies)
  }

  // ----- growth: what a longer history keeps -----------------------------------------------------------------

  predicate Grows(l: Ledger, m: Ledger) {
    && l.committed <= m.committed && l.owners <= m.owners
    && (forall n :: n in l.store ==> n in m.store && m.store[n] == l.store[n])
  }

  lemma SnapshotsStay(l: Ledger, m: Ledger, v: nat)
    requires HistoryOk(l) && Grows(l, m) && v <= |l.committed|
    ensures SnapshotAt(m, v) == SnapshotAt(l, v)
  {
    assert v > 0 ==> m.committed[v - 1] == l.committed[v - 1];
  }

  lemma CachedStays(l: Ledger, m: Ledger, c: Cached)
    requires HistoryOk(l) && Grows(l, m) && CachedOk(l, c)
    ensures CachedOk(m, c)
  {
    SnapshotsStay(l, m, c.version);
  }

  lemma CapStays(l: Ledger, m: Ledger, cap: Capability)
    requires Grows(l, m) && CapOk(l, cap)
    ensures CapOk(m, cap)
  {
    assert cap.version > 0 ==> m.committed[cap.version - 1] == l.committed[cap.version - 1];
  }

  lemma ProcessStays(customer: Customer, l: Ledger, m: Ledger, p: Process)
    requires HistoryOk(l) && Grows(l, m) && ProcessOk(customer, l, p)
    ensures ProcessOk(customer, m, p)
  {
    if p.cache.Some? { CachedStays(l, m, p.cache.value); }
    if HasCached(p.phase) { CachedStays(l, m, p.phase.cached); }
    if p.phase.Loading? { CapStays(l, m, p.phase.cap); }
  }

  lemma CallStays(l: Ledger, m: Ledger, k: Call)
    requires Grows(l, m) && CallOk(l, k)
    ensures CallOk(m, k)
  {}

  /** Everything that speaks about the ledger survives its growth. */
  lemma GrowthKeeps(customer: Customer, s: System, m: Ledger)
    requires Inv(customer, s) && Grows(s.ledger, m)
    ensures PutsOk(customer, m, s.puts) && CapsOk(m, s.caps) && CallsOk(m, s.calls)
    ensures ProcessesOk(customer, m, s.processes) && RepliesOk(m, s.replies)
  {
    hide HeadOk, StoreOk, LinksOk, CallersOk, SpentOk, CallTicketsOk, ProcessTicketsOk, AttemptsOk;
    hide CapOk, CallOk, ProcessOk, Returned;
    forall n | n in s.puts ensures PutOk(customer, m, s.puts[n]) {
      SnapshotsStay(s.ledger, m, s.puts[n].snapshot.version - 1);
    }
    forall cap | cap in s.caps ensures CapOk(m, cap) { CapStays(s.ledger, m, cap); }
    forall id | id in s.calls ensures CallOk(m, s.calls[id]) { CallStays(s.ledger, m, s.calls[id]); }
    forall pid | pid in s.processes ensures ProcessOk(customer, m, s.processes[pid]) {
      ProcessStays(customer, s.ledger, m, s.processes[pid]);
    }
    forall r | r in s.replies ensures ReplyOk(m, r) {
      if r.Completed? { SnapshotsStay(s.ledger, m, r.version); }
    }
  }
}
