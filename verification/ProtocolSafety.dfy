/**
 What the commit protocol guarantees over every run, whatever hosts, executors,
 networks and clocks do.
 */
module ProtocolSafety {
  import opened Common
  import opened Protocol
  import opened ProtocolInvariant
  import opened ProtocolSteps
  import P = Placement

  // ----- tickets --------------------------------------------------------------------------------

  function UploadTicket(customer: Customer, s: System, pid: nat, action: Action): Ticket
    requires IsUpload(action) && CanAct(customer, s, pid, action)
  {
    var phase := s.processes[pid].phase;
    if action.UseTicket? then phase.cached.nextWrite.value else s.calls[phase.call].stage.ticket.value
  }

  /** A name that a cache or an answered call still holds has not been uploaded. */
  lemma HeldNameIsUnused(customer: Customer, s: System, name: string)
    requires Inv(customer, s) && name in s.holders && s.holders[name] != Spent
    ensures name !in s.puts
  {
    hide HeadOk, HistoryOk, StoreOk, PutsOk, CapsOk, CallsOk, ProcessesOk, LinksOk, CallersOk, RepliesOk;
    hide CallTicketsOk, ProcessTicketsOk, AttemptsOk;
  }

  /** Every upload goes to a name that no upload has used before, so a ticket is
      used at most once and a name receives one content. */
  lemma UploadsAreFirst(customer: Customer, s: System, pid: nat, action: Action)
    requires Inv(customer, s) && IsUpload(action) && CanAct(customer, s, pid, action)
    ensures UploadTicket(customer, s, pid, action).objectName !in s.puts
    ensures forall n :: n in s.puts ==>
            n in Act(customer, s, pid, action).puts && Act(customer, s, pid, action).puts[n] == s.puts[n]
  {
    hide Inv, HostOnly;
    ProcessFacts(customer, s, pid);
    var phase := s.processes[pid].phase;
    if action.TicketArrives? {
      CallFacts(customer, s, phase.call);
    }
    HeldNameIsUnused(customer, s, UploadTicket(customer, s, pid, action).objectName);
  }

  /** When the store reports the object present, written now or already existing, its
      content is exactly the snapshot in this call's hands: the next version of the state
      it held, with the state and result its own execution returned. */
  lemma StoredObjectIsOwn(customer: Customer, s: System, pid: nat, call: nat)
    requires Inv(customer, s) && CanAct(customer, s, pid, UploadDone(call))
    ensures var phase := s.processes[pid].phase;
            && s.ledger.store[phase.ticket.objectName] == phase.snapshot
            && phase.snapshot == Snapshot(phase.cached.version + 1, phase.cached.epoch, phase.request.id,
                                          phase.work.next,
                                          Persisted(phase.request, phase.work.result))
            && phase.work.attempt == phase.attempt && Returned(customer, phase.work)
  {
    hide Inv, HeadOk, HistoryOk, CapsOk, PutsOk;
    ProcessFacts(customer, s, pid);
    LedgerFacts(customer, s);
  }

  // ----- runs only add ----------------------------------------------------------------------

  predicate RowFollows(l: Ledger, m: Ledger) {
    l.row.Some? ==> m.row.Some? && P.Follows(l.row.value, m.row.value)
  }

  /** Snapshots, uploads, replies and committed versions are never taken back. */
  predicate OnlyAdds(s: System, t: System) {
    && Grows(s.ledger, t.ledger) && RowFollows(s.ledger, t.ledger)
    && (forall n :: n in s.puts ==> n in t.puts && t.puts[n] == s.puts[n])
    && s.replies <= t.replies
  }

  lemma ActionOnlyAdds(customer: Customer, s: System, pid: nat, action: Action)
    requires Inv(customer, s) && CanAct(customer, s, pid, action)
    ensures OnlyAdds(s, Act(customer, s, pid, action))
  {
    hide Inv, CanAct, Act;
    if IsUpload(action) {
      UploadsAreFirst(customer, s, pid, action);
    }
  }

  /** Claims, matching commits and landing uploads are all that changes the ledger. */
  function LedgerAfter(s: System, event: Event): Ledger
    requires CanHappen(s, event)
  {
    match event
    case Claim(expected, owner, region) =>
      ClaimedLedger(s.ledger, owner, P.PostgresClaim(s.ledger.row, expected, owner, region))
    case TryCommit(call, _) => if Wins(s, s.calls[call].commit) then Advanced(s, s.calls[call].commit).ledger
      else s.ledger
    case PutLands(name) =>
      if name in s.ledger.store then s.ledger else s.ledger.(store := s.ledger.store[name := s.puts[name].snapshot])
    case _ => s.ledger
  }

  lemma EventChanges(s: System, event: Event)
    requires CanHappen(s, event)
    ensures Happen(s, event).ledger == LedgerAfter(s, event)
    ensures Happen(s, event).puts == s.puts && Happen(s, event).replies == s.replies
            && Happen(s, event).attempts == s.attempts
  {
    hide WithStage, Grant, Wins, ApplyTryCommit, ApplyReadBack, ApplyIssueTicket, ApplyCheckLease, FreshName;
    hide P.PostgresClaim, P.AfterClaim, P.IsReplayed;
  }

  lemma LedgerGrows(customer: Customer, s: System, event: Event)
    requires Inv(customer, s) && CanHappen(s, event)
    ensures Grows(s.ledger, LedgerAfter(s, event)) && RowFollows(s.ledger, LedgerAfter(s, event))
  {
    hide Inv, HistoryOk, StoreOk, PutsOk, CapsOk, Leased, FreshName;
    LedgerFacts(customer, s);
  }

  lemma EventOnlyAdds(customer: Customer, s: System, event: Event)
    requires Inv(customer, s) && CanHappen(s, event)
    ensures OnlyAdds(s, Happen(s, event))
  {
    hide Inv, Happen, LedgerAfter, CanHappen;
    EventChanges(s, event);
    LedgerGrows(customer, s, event);
  }

  lemma {:induction false} PrefixRuns(customer: Customer, steps: seq<Step>, i: nat)
    requires After(customer, steps).Some? && i <= |steps|
    ensures After(customer, steps[..i]).Some?
  {
    if i < |steps| {
      var shorter := steps[..|steps| - 1];
      PrefixRuns(customer, shorter, i);
      assert shorter[..i] == steps[..i];
    } else {
      assert steps[..i] == steps;
    }
  }

  /** Over any run, a later state keeps all that an earlier state had made durable:
      no committed version is ever replaced, no snapshot or upload changes, the
      home region is fixed, and an epoch determines its owner. */
  lemma {:induction false} RunOnlyAdds(customer: Customer, steps: seq<Step>, i: nat)
    requires After(customer, steps).Some? && i <= |steps|
    ensures After(customer, steps[..i]).Some?
    ensures OnlyAdds(After(customer, steps[..i]).value, After(customer, steps).value)
  {
    hide Enabled, Apply, Inv;
    PrefixRuns(customer, steps, i);
    if i < |steps| {
      var shorter := steps[..|steps| - 1];
      assert shorter[..i] == steps[..i];
      RunOnlyAdds(customer, shorter, i);
      RunKeeps(customer, shorter);
      StepOnlyAdds(customer, After(customer, shorter).value, steps[|steps| - 1]);
    } else {
      assert steps[..i] == steps;
    }
  }

  lemma StepOnlyAdds(customer: Customer, s: System, step: Step)
    requires Inv(customer, s) && Enabled(customer, s, step)
    ensures OnlyAdds(s, Apply(customer, s, step))
  {
    hide Inv, CanAct, CanHappen, Act, Happen, OnlyAdds;
    match step
    case World(event) => EventOnlyAdds(customer, s, event);
    case Host(pid, action) => ActionOnlyAdds(customer, s, pid, action);
  }

  // ----- the head -----------------------------------------------------------------------------

  /** The state an actor has at a row, read from the store. */
  function HeadState(l: Ledger): Option<Value> {
    if l.row.Some? && l.row.value.objectName.Some? && l.row.value.objectName.value in l.store
    then Some(l.store[l.row.value.objectName.value].state) else None
  }

  /** A row's head is an upload that one execution of one request made, by a host that
      held exactly `held` and supplied it to its executor; a method never extends a
      snapshot of its own request. */
  predicate HeadMadeFrom(customer: Customer, s: System, row: P.Row, held: Option<Value>, lastRequest: Option<string>) {
    && row.objectName.Some? && row.objectName.value in s.ledger.store && row.objectName.value in s.puts
    && var put := s.puts[row.objectName.value];
    && s.ledger.store[row.objectName.value] == put.snapshot
    && row.lastRequest == Some(put.snapshot.request)
    && put.snapshot.version == row.version && put.snapshot.epoch == row.epoch
    && put.work.held == held
    && put.work.request.id == put.snapshot.request
    && (put.work.request.kind == Method ==> lastRequest != Some(put.snapshot.request))
    && put.snapshot.state == put.work.next && Returned(customer, put.work)
  }

  /** Whenever the head moves, it is one conditional update of the current owner at
      the current epoch while that owner's session lease is unexpired, it moves by one
      version, and the new head was made from the state of the old one. */
  lemma HeadAdvances(customer: Customer, s: System, event: Event)
    requires Inv(customer, s) && CanHappen(s, event) && s.ledger.row.Some?
    requires Happen(s, event).ledger.row != s.ledger.row && !event.Claim?
    ensures event.TryCommit? && var c := s.calls[event.call].commit;
            var row := s.ledger.row.value;
            var after := Happen(s, event).ledger.row;
            && c.owner == row.owner && c.epoch == row.epoch && c.expected == row.version
            && c.owner in s.leases && s.leases[c.owner].session == c.session && s.leases[c.owner].expires > s.now
            && after == Some(row.(version := row.version + 1, objectName := Some(c.objectName),
                                  lastRequest := Some(c.request)))
            && HeadMadeFrom(customer, s, after.value, HeadState(s.ledger), row.lastRequest)
  {
    EventChanges(s, event);
    hide Inv, Happen, CapsOk, PutsOk, FreshName, Advanced;
    assert event.TryCommit?;
    CommitAdvances(customer, s, event.call);
  }

  lemma CommitAdvances(customer: Customer, s: System, call: nat)
    requires Inv(customer, s) && call in s.calls && s.calls[call].CommitCall? && s.ledger.row.Some?
    requires P.Matches(s.ledger.row.value, s.calls[call].commit)
    ensures var c := s.calls[call].commit;
            var row := s.ledger.row.value;
            var after := Advanced(s, c).ledger.row;
            && after == Some(row.(version := row.version + 1, objectName := Some(c.objectName),
                                  lastRequest := Some(c.request)))
            && HeadMadeFrom(customer, s, after.value, HeadState(s.ledger), row.lastRequest)
  {
    hide Inv, CapsOk;
    LedgerFacts(customer, s);
    CallFacts(customer, s, call);
    assert PutOk(customer, s.ledger, s.puts[s.calls[call].commit.objectName]);
  }

  /** Ownership changes one epoch at a time and takes the head along unchanged; a
      commit call of any other epoch than the row's never changes the row. */
  lemma EpochsFence(s: System, event: Event)
    requires CanHappen(s, event) && s.ledger.row.Some?
    ensures var row := s.ledger.row.value;
            var after := Happen(s, event).ledger.row;
            && after.Some?
            && (after.value.owner != row.owner <==> after.value.epoch != row.epoch)
            && (after.value.owner != row.owner ==>
                  after.value == row.(owner := after.value.owner, epoch := row.epoch + 1))
            && (event.TryCommit? && s.calls[event.call].commit.epoch != row.epoch ==> after.value == row)
  {
    EventChanges(s, event);
    hide Happen, Leased, FreshName;
  }

  /** Over every run, whatever is cancelled or re-acquired: version `i + 1` is the one
      upload under its name, made by a host that held exactly the state of version `i`;
      no two versions share a name; a method never extends its own request; and the
      row names the last version, its snapshot and that snapshot's request. */
  lemma DurableHistory(customer: Customer, steps: seq<Step>)
    requires After(customer, steps).Some?
    ensures var s := After(customer, steps).value;
            && (forall i :: 0 <= i < |s.ledger.committed| ==> ExtendsHeld(s, i))
            && (forall i, j :: 0 <= i < j < |s.ledger.committed| ==> s.ledger.committed[i] != s.ledger.committed[j])
            && (s.ledger.row.Some? ==>
                  && s.ledger.row.value.version == |s.ledger.committed|
                  && s.ledger.row.value.lastRequest == RequestAt(s.ledger, |s.ledger.committed|))
  {
    RunKeeps(customer, steps);
    hide After, Inv, CapsOk;
    var s := After(customer, steps).value;
    LedgerFacts(customer, s);
    forall i | 0 <= i < |s.ledger.committed| ensures ExtendsHeld(s, i) {
      assert PutOk(customer, s.ledger, s.puts[s.ledger.committed[i]]);
    }
  }

  predicate ExtendsHeld(s: System, i: nat)
    requires i < |s.ledger.committed|
  {
    var name := s.ledger.committed[i];
    && name in s.ledger.store && name in s.puts && s.ledger.store[name] == s.puts[name].snapshot
    && s.puts[name].snapshot.version == i + 1
    && s.puts[name].work.held == StateAt(s.ledger, i)
    && s.puts[name].work.request.id == s.puts[name].snapshot.request
    && (s.puts[name].work.request.kind == Method ==> RequestAt(s.ledger, i) != Some(s.puts[name].snapshot.request))
  }

  // ----- attempts ---------------------------------------------------------------------------------

  /** The calls that hosts took up in a run, in order: its `Begin` steps. */
  function Begins(steps: seq<Step>): seq<Attempt> {
    if steps == [] then []
    else
      var last := steps[|steps| - 1];
      Begins(steps[..|steps| - 1])
      + if last.Host? && last.action.Begin? then [Attempt(last.pid, last.action.request)] else []
  }

  lemma StepAttempts(customer: Customer, s: System, step: Step)
    requires Enabled(customer, s, step)
    ensures Apply(customer, s, step).attempts
            == s.attempts + if step.Host? && step.action.Begin? then [Attempt(step.pid, step.action.request)] else []
  {
    hide CanHappen, CanAct, Happen, Obtain, Run, Publish, LedgerAfter;
    match step
    case World(event) => EventChanges(s, event);
    case Host(pid, action) =>
      if IsPublication(action) {
        PublicationAttempts(customer, s, pid, action);
      } else if IsExecution(action) {
        ExecutionAttempts(customer, s, pid, action);
      } else {
        AdmissionAttempts(customer, s, pid, action);
      }
  }

  lemma PublicationAttempts(customer: Customer, s: System, pid: nat, action: Action)
    requires IsPublication(action) && CanAct(customer, s, pid, action)
    ensures Publish(customer, s, pid, action).attempts == s.attempts
  {
    hide HostOnly, SnapshotOf, Promote;
  }

  lemma ExecutionAttempts(customer: Customer, s: System, pid: nat, action: Action)
    requires IsExecution(action) && CanAct(customer, s, pid, action)
    ensures Run(customer, s, pid, action).attempts == s.attempts
  {
    hide HostOnly, MustReplay, ApplyExecute, ApplyExecuteFails, Ran, Misanswered, Cancelled, Evicted, Without;
  }

  lemma AdmissionAttempts(customer: Customer, s: System, pid: nat, action: Action)
    requires !IsPublication(action) && !IsExecution(action) && CanAct(customer, s, pid, action)
    ensures Obtain(customer, s, pid, action).attempts
            == s.attempts + if action.Begin? then [Attempt(pid, action.request)] else []
  {
    hide HostOnly, Begun, Promote, FromLoaded;
  }

  /** The history of attempts is exactly what the run's `Begin` steps asked for. */
  lemma {:induction false} AttemptsAreBegins(customer: Customer, steps: seq<Step>)
    requires After(customer, steps).Some?
    ensures After(customer, steps).value.attempts == Begins(steps)
  {
    hide Enabled, Apply;
    if steps != [] {
      AttemptsAreBegins(customer, steps[..|steps| - 1]);
      StepAttempts(customer, After(customer, steps[..|steps| - 1]).value, steps[|steps| - 1]);
    }
  }

  /** The request that version `i + 1` was executed for. */
  function CommittedRequest(s: System, i: nat): Request
    requires i < |s.ledger.committed| && s.ledger.committed[i] in s.puts
  {
    s.puts[s.ledger.committed[i]].work.request
  }

  /** The attempt that made version `i + 1`. */
  function CommittedAttempt(s: System, i: nat): nat
    requires i < |s.ledger.committed| && s.ledger.committed[i] in s.puts
  {
    s.puts[s.ledger.committed[i]].work.attempt
  }

  /** Every version has its upload. */
  predicate Uploaded(s: System) {
    forall i :: 0 <= i < |s.ledger.committed| ==> s.ledger.committed[i] in s.puts
  }

  /** Every version was made by one of the calls, for exactly its request, and no call made
      two versions. */
  predicate MadeByCalls(s: System, calls: seq<Attempt>) {
    && Uploaded(s)
    && (forall i :: 0 <= i < |s.ledger.committed| ==>
          CommittedAttempt(s, i) < |calls| && calls[CommittedAttempt(s, i)].request == CommittedRequest(s, i))
    && (forall i, j :: 0 <= i < j < |s.ledger.committed| ==> CommittedAttempt(s, i) != CommittedAttempt(s, j))
  }

  /** Over every run each committed version was made by one call that a host took up for
      exactly that request, and no call made two versions. */
  lemma CommitsAreCalls(customer: Customer, steps: seq<Step>)
    requires After(customer, steps).Some?
    ensures MadeByCalls(After(customer, steps).value, Begins(steps))
  {
    hide After, Inv, Begins, MadeByCalls;
    AttemptsAreBegins(customer, steps);
    RunKeeps(customer, steps);
    MadeByAttempts(customer, After(customer, steps).value);
  }

  lemma MadeByAttempts(customer: Customer, s: System)
    requires Inv(customer, s)
    ensures MadeByCalls(s, s.attempts)
  {
    hide Inv, CapsOk, PutsOk, HeadOk;
    LedgerFacts(customer, s);
    UploadFacts(customer, s);
    forall i, j | 0 <= i < j < |s.ledger.committed| ensures CommittedAttempt(s, i) != CommittedAttempt(s, j) {
      assert s.ledger.store[s.ledger.committed[i]].version != s.ledger.store[s.ledger.committed[j]].version;
    }
  }

  lemma UploadFacts(customer: Customer, s: System)
    requires Inv(customer, s)
    ensures OneUploadEach(s.puts) && forall n :: n in s.puts ==> AttemptOf(s.attempts, s.puts[n].work)
  {
    hide HeadOk, HistoryOk, StoreOk, PutsOk, CapsOk, CallsOk, ProcessesOk, LinksOk, CallersOk, RepliesOk;
    hide SpentOk, CallTicketsOk, ProcessTicketsOk, OneUploadEach, AttemptOf;
  }

  // ----- acknowledgements -------------------------------------------------------------------------

  /** A commit call is answered positively only by a statement that sees, or makes,
      exactly its version, object and request the head of the row at that moment. */
  lemma AnswerNamesTheHead(customer: Customer, s: System, event: Event, call: nat)
    requires Inv(customer, s) && CanHappen(s, event)
    requires call in s.calls && s.calls[call].CommitCall? && !s.calls[call].stage.Granted?
    requires call in Happen(s, event).calls && Happen(s, event).calls[call].stage.Granted?
    ensures var c := s.calls[call].commit;
            var row := Happen(s, event).ledger.row;
            && row.Some? && row.value.version == c.expected + 1
            && row.value.objectName == Some(c.objectName) && row.value.lastRequest == Some(c.request)
            && Happen(s, event).calls[call].stage.version == row.value.version
  {
    hide Inv, FreshName, WithStage, Grant, ApplyTryCommit, ApplyReadBack, ApplyIssueTicket, ApplyCheckLease, ApplyClaim;
    CallFacts(customer, s, call);
  }

  /** And the host acts on it only if its own pending snapshot is that version, for
      ever after: the object is the committed one at that version. */
  lemma ConfirmedPendingIsCommitted(customer: Customer, s: System, pid: nat, action: Action)
    requires Inv(customer, s) && (action.ResolveOk? || action.CommitOk?) && CanAct(customer, s, pid, action)
    ensures var c := s.processes[pid].phase.cached;
            && c.pending.value.snapshot.version == c.version + 1 <= |s.ledger.committed|
            && s.ledger.committed[c.version] == c.pending.value.ticket.objectName
            && SnapshotAt(s.ledger, c.version + 1) == Some(c.pending.value.snapshot)
  {
    hide Inv;
    ProcessFacts(customer, s, pid);
    CallFacts(customer, s, s.processes[pid].phase.call);
  }

  // ----- host caches ------------------------------------------------------------------------------

  /** The cached state, request and result are those of the committed snapshot of its
      version; a pending commit is an already stored snapshot one version above. */
  predicate CommittedCache(l: Ledger, c: Cached) {
    && c.version <= |l.committed|
    && (c.version == 0 ==> c.state.None? && c.lastRequest.None? && c.lastResult.None?)
    && (c.version > 0 ==>
          && l.committed[c.version - 1] in l.store
          && var snapshot := l.store[l.committed[c.version - 1]];
          && snapshot.version == c.version
          && c.state == Some(snapshot.state)
          && c.lastRequest == Some(snapshot.request)
          && c.lastResult == Some(snapshot.result))
    && (c.pending.Some? ==>
          && c.pending.value.snapshot.version == c.version + 1
          && c.pending.value.ticket.objectName in l.store
          && l.store[c.pending.value.ticket.objectName] == c.pending.value.snapshot)
  }

  lemma CachedIsCommitted(l: Ledger, c: Cached)
    requires HistoryOk(l) && CachedOk(l, c)
    ensures CommittedCache(l, c)
  {}

  /** Every cached state of every reachable state is such. */
  lemma CacheIsCommitted(customer: Customer, steps: seq<Step>, pid: nat)
    requires After(customer, steps).Some? && pid in After(customer, steps).value.processes
    ensures var s := After(customer, steps).value;
            var p := s.processes[pid];
            && (p.cache.Some? ==> CommittedCache(s.ledger, p.cache.value))
            && (HasCached(p.phase) ==> CommittedCache(s.ledger, p.phase.cached))
  {
    hide Inv, After, HeadOk, HistoryOk, StoreOk, PutsOk, CapsOk, CommittedCache, CachedOk, CapOk, WorkOk;
    RunKeeps(customer, steps);
    var s := After(customer, steps).value;
    ProcessFacts(customer, s, pid);
    LedgerFacts(customer, s);
    if s.processes[pid].cache.Some? {
      CachedIsCommitted(s.ledger, s.processes[pid].cache.value);
    }
    if HasCached(s.processes[pid].phase) {
      CachedIsCommitted(s.ledger, s.processes[pid].phase.cached);
    }
  }

  /** The two checks made on a downloaded snapshot cannot fail: however old the
      capability is, it names the snapshot of its version and no newer epoch's. */
  lemma LoadedSnapshotsCheckOut(customer: Customer, s: System, pid: nat)
    requires Inv(customer, s) && pid in s.processes && s.processes[pid].phase.Loading?
    ensures CanAct(customer, s, pid, Load)
    ensures var cap := s.processes[pid].phase.cap;
            && cap.objectName.Some? && cap.objectName.value in s.ledger.store
            && s.ledger.store[cap.objectName.value].version == cap.version
            && s.ledger.store[cap.objectName.value].epoch <= cap.epoch
  {
    hide Inv, HeadOk, StoreOk, PutsOk, CapsOk;
    ProcessFacts(customer, s, pid);
    LedgerFacts(customer, s);
  }

  // ----- retries and replies -----------------------------------------------------------------------

  /** The host must answer a method from its cache, with this version, result and state. */
  ghost predicate MustAnswer(customer: Customer, s: System, pid: nat, attempt: nat, request: Request,
                             stored: Snapshot) {
    && (forall result, next :: !CanAct(customer, s, pid, Execute(result, next)))
    && !CanAct(customer, s, pid, ExecuteFails(true)) && !CanAct(customer, s, pid, ExecuteFails(false))
    && CanAct(customer, s, pid, Replay)
    && Completed(attempt, request, stored.version, stored.result, Some(stored.state), ByReplay)
       in Act(customer, s, pid, Replay).replies
  }

  lemma ResolvedPhase(customer: Customer, s: System, pid: nat)
    requires CanAct(customer, s, pid, ResolveOk)
    ensures var phase := s.processes[pid].phase;
            var t := Act(customer, s, pid, ResolveOk);
            && pid in t.processes
            && t.processes[pid].phase
               == Ready(phase.attempt, phase.request, Promote(phase.cached, s.calls[phase.call].stage.ticket))
  {}

  lemma CachedAnswer(customer: Customer, s: System, pid: nat)
    requires pid in s.processes && s.processes[pid].phase.Ready? && MustReplay(s.processes[pid].phase)
    ensures var phase := s.processes[pid].phase;
            forall stored: Snapshot ::
              (phase.cached.version == stored.version && phase.cached.lastResult == Some(stored.result)
               && phase.cached.state == Some(stored.state)) ==>
              MustAnswer(customer, s, pid, phase.attempt, phase.request, stored)
  {}

  /** Retrying the method whose commit is pending: once the commit is confirmed the
      host cannot execute it again, and answers with the stored result. */
  lemma RetryReplays(customer: Customer, s: System, pid: nat)
    requires CanAct(customer, s, pid, ResolveOk)
    requires s.processes[pid].phase.request.kind == Method
    requires s.processes[pid].phase.cached.pending.value.snapshot.request == s.processes[pid].phase.request.id
    ensures var phase := s.processes[pid].phase;
            MustAnswer(customer, Act(customer, s, pid, ResolveOk), pid, phase.attempt, phase.request,
                       phase.cached.pending.value.snapshot)
  {
    ResolvedPhase(customer, s, pid);
    hide Act, MustAnswer;
    CachedAnswer(customer, Act(customer, s, pid, ResolveOk), pid);
  }

  /** Over any run: a completed reply reports a state that is durable at the version
      it reports, and a definite failure means the attempt uploaded, and so
      committed, nothing. */
  lemma RepliesAreDurable(customer: Customer, steps: seq<Step>, r: Reply)
    requires After(customer, steps).Some? && r in After(customer, steps).value.replies
    ensures var s := After(customer, steps).value;
            && (r.Completed? ==>
                  && 0 < r.version <= |s.ledger.committed|
                  && s.ledger.committed[r.version - 1] in s.ledger.store
                  && r.state == Some(s.ledger.store[s.ledger.committed[r.version - 1]].state))
            && (r.Failed? || r.Unavailable? ==>
                  forall i :: 0 <= i < |s.ledger.committed| ==>
                    s.ledger.committed[i] in s.puts && s.puts[s.ledger.committed[i]].work.attempt != r.attempt)
  {
    RunKeeps(customer, steps);
    var s := After(customer, steps).value;
    LedgerFacts(customer, s);
    assert ReplyOk(s.ledger, r) && (r.Failed? || r.Unavailable? ==> NoUpload(s.puts, r.attempt));
  }

  // ----- instances -----------------------------------------------------------------------------------

  /** Customer code returned this state, for some request on some state. */
  ghost predicate WasReturned(customer: Customer, state: Value) {
    exists base, request, result :: customer(base, request) == Done(result, state)
  }

  /** An instance is a state that customer code returned, or a committed one it was given. */
  ghost predicate InstanceOk(customer: Customer, l: Ledger, instance: Option<Value>) {
    instance.Some? ==>
      WasReturned(customer, instance.value) || exists v: nat :: v <= |l.committed| && StateAt(l, v) == instance
  }

  ghost predicate InstancesOk(customer: Customer, s: System) {
    forall pid :: pid in s.processes ==> InstanceOk(customer, s.ledger, s.processes[pid].instance)
  }

  lemma InstanceStays(customer: Customer, l: Ledger, m: Ledger, instance: Option<Value>)
    requires InstanceOk(customer, l, instance) && HistoryOk(l) && Grows(l, m)
    ensures InstanceOk(customer, m, instance)
  {
    if instance.Some? && !WasReturned(customer, instance.value) {
      var v: nat :| v <= |l.committed| && StateAt(l, v) == instance;
      SnapshotsStay(l, m, v);
      assert StateAt(m, v) == instance;
    }
  }

  lemma ActionInstance(customer: Customer, s: System, pid: nat, action: Action)
    requires Inv(customer, s) && CanAct(customer, s, pid, action)
    requires InstanceOk(customer, s.ledger, s.processes[pid].instance)
    ensures InstanceOk(customer, s.ledger, Act(customer, s, pid, action).processes[pid].instance)
  {
    hide Inv, CanAct, Obtain, Run, Publish, InstanceOk;
    NoInstance(customer, s.ledger);
    if IsPublication(action) {
      PublicationInstance(customer, s, pid, action);
    } else if IsExecution(action) {
      ExecutionInstance(customer, s, pid, action);
    } else {
      AdmissionInstance(customer, s, pid, action);
    }
  }

  lemma NoInstance(customer: Customer, l: Ledger)
    ensures InstanceOk(customer, l, None)
  {}

  lemma PublicationInstance(customer: Customer, s: System, pid: nat, action: Action)
    requires IsPublication(action) && CanAct(customer, s, pid, action)
    ensures var p, q := s.processes[pid], Publish(customer, s, pid, action).processes[pid];
            q.instance == p.instance || q.instance == None
  {
    hide HostOnly, SnapshotOf, Promote;
  }

  lemma AdmissionInstance(customer: Customer, s: System, pid: nat, action: Action)
    requires !IsPublication(action) && !IsExecution(action) && CanAct(customer, s, pid, action)
    ensures Obtain(customer, s, pid, action).processes[pid].instance == s.processes[pid].instance
  {
    hide HostOnly, Promote, FromLoaded, Holding;
  }

  lemma ExecutionInstance(customer: Customer, s: System, pid: nat, action: Action)
    requires Inv(customer, s) && IsExecution(action) && CanAct(customer, s, pid, action)
    requires InstanceOk(customer, s.ledger, s.processes[pid].instance)
    ensures InstanceOk(customer, s.ledger, Run(customer, s, pid, action).processes[pid].instance)
  {
    hide Inv, CanAct, Run, WasReturned, StateAt;
    ActingExists(customer, s, pid, action);
    ProcessFacts(customer, s, pid);
    NextInstance(customer, s, pid, action);
  }

  lemma NextInstance(customer: Customer, s: System, pid: nat, action: Action)
    requires IsExecution(action) && CanAct(customer, s, pid, action)
    ensures var p, q := s.processes[pid], Run(customer, s, pid, action).processes[pid];
            || q.instance == p.instance || q.instance.None? || WasReturned(customer, q.instance.value)
            || (p.phase.Ready? && q.instance == p.phase.cached.state)
  {
    hide HostOnly, MustReplay;
    if action.Execute? || action.StrayReturns? || action.StrayAnswers? {
      assert Run(customer, s, pid, action).processes[pid].instance == Some(action.next);
    }
  }

  lemma StepInstances(customer: Customer, s: System, step: Step)
    requires Inv(customer, s) && Enabled(customer, s, step) && InstancesOk(customer, s)
    ensures InstancesOk(customer, Apply(customer, s, step))
  {
    hide Inv, CanAct, CanHappen, Act, Happen, InstanceOk, HeadOk, StoreOk, PutsOk, CapsOk, RowFollows, Grows;
    LedgerFacts(customer, s);
    StepOnlyAdds(customer, s, step);
    var t := Apply(customer, s, step);
    forall pid | pid in t.processes ensures InstanceOk(customer, t.ledger, t.processes[pid].instance) {
      if step.Host? && step.pid == pid {
        ActingExists(customer, s, pid, step.action);
        ActionInstance(customer, s, pid, step.action);
      } else {
        NoInstance(customer, t.ledger);
        if step.World? {
          NewProcessesAreEmpty(s, step.event);
        }
        if pid in s.processes && t.processes[pid] == s.processes[pid] {
          InstanceStays(customer, s.ledger, t.ledger, s.processes[pid].instance);
        }
      }
    }
  }

  lemma ActingExists(customer: Customer, s: System, pid: nat, action: Action)
    requires CanAct(customer, s, pid, action)
    ensures pid in s.processes
  {}

  lemma NewProcessesAreEmpty(s: System, event: Event)
    requires CanHappen(s, event)
    ensures forall pid :: pid in Happen(s, event).processes ==>
              || (pid in s.processes && Happen(s, event).processes[pid] == s.processes[pid])
              || Happen(s, event).processes[pid].instance.None?
  {
    hide WithStage, Grant, Wins, ApplyTryCommit, ApplyReadBack, ApplyIssueTicket, ApplyCheckLease, ApplyClaim;
  }

  /** Over every run, whatever was cancelled or answered by the wrong command, a resident
      instance is a state that customer code returned or that was committed. */
  lemma {:induction false} InstancesAreReal(customer: Customer, steps: seq<Step>)
    requires After(customer, steps).Some?
    ensures InstancesOk(customer, After(customer, steps).value)
  {
    hide Enabled, Apply, Inv, InstanceOk;
    if steps != [] {
      var shorter := steps[..|steps| - 1];
      InstancesAreReal(customer, shorter);
      RunKeeps(customer, shorter);
      StepInstances(customer, After(customer, shorter).value, steps[|steps| - 1]);
    }
  }
}
