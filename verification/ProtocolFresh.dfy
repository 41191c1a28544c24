/**
 Runs in which each host process serves one epoch, has a host id of its own and never
 has a call cancelled. They are clean, and there a host's cached version is the
 database's, or one behind with exactly the pending object in front of it.
 */
module ProtocolFresh {
  import opened Common
  import opened Protocol
  import opened ProtocolInvariant
  import opened ProtocolSteps
  import opened ProtocolSafety
  import opened ProtocolAgreement
  import P = Placement

  /** No call is cancelled, a process is used at one epoch only, and no two
      processes share a host id. */
  predicate SteadyStep(s: System, step: Step) {
    match step
    case Host(_, Cancel(_)) => false
    case Host(pid, Begin(_, cap, _)) =>
      pid in s.processes && s.processes[pid].epoch.Some? ==> s.processes[pid].epoch == Some(cap.epoch)
    case World(Spawn(_, host, _, _)) => forall q :: q in s.processes ==> s.processes[q].host != host
    case _ => true
  }

  // ----- what the rest of the system can tell about a process -----------------------------------

  /** The epoch, version and pending object name of the state a process holds. */
  datatype View = Nothing | View(epoch: nat, version: nat, pending: Option<string>)

  function ViewOfCached(c: Cached): View {
    View(c.epoch, c.version, if c.pending.Some? then Some(c.pending.value.ticket.objectName) else None)
  }

  function ViewOf(p: Process): View {
    if p.cache.Some? then ViewOfCached(p.cache.value)
    else if HasCached(p.phase) then ViewOfCached(p.phase.cached)
    else Nothing
  }

  /** Whatever a process holds belongs to its one epoch. */
  predicate EpochOk(caps: set<Capability>, p: Process) {
    && (p.cache.Some? ==> p.phase.Idle?) && p.strays == []
    && (p.epoch.None? ==> p.cache.None? && p.phase.Idle?)
    && (ViewOf(p).Nothing? ==> p.instance.None?)
    && (ViewOf(p).View? ==> p.epoch == Some(ViewOf(p).epoch))
    && (p.phase.Loading? ==> p.epoch == Some(p.phase.cap.epoch) && p.phase.cap in caps && p.phase.cap.host == p.host)
  }

  // ----- the freshness invariant -------------------------------------------------------------------

  /** The head was committed at the row's own epoch. */
  predicate MadeNow(l: Ledger) {
    l.row.Some? && SnapshotAt(l, l.row.value.version).Some?
      && SnapshotAt(l, l.row.value.version).value.epoch == l.row.value.epoch
  }

  /** The row is where the view is, or one ahead at exactly its pending object. */
  predicate UpToDate(l: Ledger, v: View) {
    l.row.Some? && v.View? && l.row.value.epoch == v.epoch ==>
      || l.row.value.version == v.version
      || (v.pending.Some? && l.row.value.version == v.version + 1 && l.row.value.objectName == v.pending)
  }

  predicate OwnerOk(l: Ledger, p: Process) {
    p.epoch.Some? ==> 1 <= p.epoch.value <= |l.owners| && l.owners[p.epoch.value - 1] == p.host
  }

  predicate PeopleOk(s: System) {
    && (forall pid, q :: pid in s.processes && q in s.processes && s.processes[pid].host == s.processes[q].host ==>
         pid == q)
    && (forall pid :: pid in s.processes ==> EpochOk(s.caps, s.processes[pid]) && OwnerOk(s.ledger, s.processes[pid]))
  }

  predicate ViewsOk(s: System) {
    forall pid :: pid in s.processes ==> UpToDate(s.ledger, ViewOf(s.processes[pid]))
  }

  /** A capability of the row's epoch is current until that epoch's owner commits. */
  predicate CapsFresh(s: System) {
    && (forall cap :: cap in s.caps && s.ledger.row.Some? && cap.epoch == s.ledger.row.value.epoch ==>
          cap.version == s.ledger.row.value.version || MadeNow(s.ledger))
    && (MadeNow(s.ledger) ==> exists pid :: pid in s.processes && Made(s.ledger.row.value, s.processes[pid]))
  }

  predicate Made(row: P.Row, p: Process) {
    p.host == row.owner && ViewOf(p).View? && ViewOf(p).epoch == row.epoch
  }

  /** A commit call is for a version its process has passed, or for its pending object. */
  predicate CallBehind(k: Call, v: View) {
    k.CommitCall? ==>
      && v.View? && v.epoch == k.commit.epoch
      && (k.commit.expected < v.version || (k.commit.expected == v.version && v.pending == Some(k.commit.objectName)))
  }

  predicate CallsBehind(s: System) {
    forall id :: id in s.calls ==>
      s.calls[id].process in s.processes && CallBehind(s.calls[id], ViewOf(s.processes[s.calls[id].process]))
  }

  predicate Fresh(s: System) {
    PeopleOk(s) && ViewsOk(s) && CapsFresh(s) && CallsBehind(s)
  }

  // ----- how one action moves its process's view -------------------------------------------------------

  /** The four ways a view moves. */
  predicate Moves(l: Ledger, caps: set<Capability>, p: Process, v: View, w: View) {
    || v == w
    || (v.Nothing? && w.View? && w.pending.None? && exists cap :: cap in caps && cap == CapFor(p, w, cap.objectName))
    || (v.View? && v.pending.Some? && w == View(v.epoch, v.version + 1, None) && v.version + 1 <= |l.committed|)
    || (v.View? && v.pending.None? && w.View? && w == v.(pending := w.pending))
  }

  function CapFor(p: Process, w: View, objectName: Option<string>): Capability
    requires w.View?
  {
    Capability(p.host, w.epoch, w.version, objectName)
  }

  /** An action starts at most one commit call, for the object then pending. */
  predicate CallsFollow(before: map<nat, Call>, after: map<nat, Call>, pid: nat, w: View) {
    forall id :: id in after ==>
      (id in before && SameCall(before[id], after[id])) || (after[id].process == pid && CallFollows(after[id], w))
  }

  predicate CallFollows(k: Call, w: View) {
    k.CommitCall? ==>
      w.View? && k.commit.epoch == w.epoch && k.commit.expected == w.version && Some(k.commit.objectName) == w.pending
  }

  /** What an action does to its process, seen from outside. */
  predicate Acts(s: System, p: Process, q: Process) {
    && q.host == p.host && EpochOk(s.caps, q)
    && (|| q.epoch == p.epoch
        || (q.epoch.Some? && exists cap :: cap in s.caps && cap.host == p.host && cap.epoch == q.epoch.value))
    && Moves(s.ledger, s.caps, p, ViewOf(p), ViewOf(q))
  }

  /** The pending snapshot is the next version, and that version is committed. */
  predicate Confirmed(l: Ledger, c: Cached) {
    c.pending.Some? && c.pending.value.snapshot.version == c.version + 1 <= |l.committed|
  }

  lemma BegunActs(s: System, p: Process, attempt: nat, request: Request, cap: Capability, call: nat)
    requires p.phase.Idle? && EpochOk(s.caps, p) && cap in s.caps && cap.host == p.host
    requires p.epoch.Some? ==> p.epoch == Some(cap.epoch)
    ensures Acts(s, p, Begun(p, attempt, request, cap, call))
  {
    assert cap == CapFor(p, View(cap.epoch, cap.version, None), cap.objectName);
  }

  lemma ObtainActs(customer: Customer, s: System, pid: nat, action: Action)
    requires !IsPublication(action) && !IsExecution(action) && CanAct(customer, s, pid, action)
    requires EpochOk(s.caps, s.processes[pid]) && SteadyStep(s, Host(pid, action))
    requires action.ResolveOk? ==> Confirmed(s.ledger, s.processes[pid].phase.cached)
    ensures Acts(s, s.processes[pid], Obtain(customer, s, pid, action).processes[pid])
  {
    hide HostOnly, Begun, Replayed, MustReplay;
    var p := s.processes[pid];
    if action.Begin? {
      BegunActs(s, p, |s.attempts|, action.request, action.cap, action.call);
    } else if action.Load? {
      assert p.phase.cap == CapFor(p, View(p.phase.cap.epoch, p.phase.cap.version, None), p.phase.cap.objectName);
    }
  }

  lemma RunActs(customer: Customer, s: System, pid: nat, action: Action)
    requires IsExecution(action) && !action.Cancel? && CanAct(customer, s, pid, action)
    requires EpochOk(s.caps, s.processes[pid])
    ensures Acts(s, s.processes[pid], Run(customer, s, pid, action).processes[pid])
  {
    hide HostOnly, Ran, MustReplay, Finish;
    if action.Execute? {
      RanActs(s, s.processes[pid], s.processes[pid].phase.request, action.result, action.next);
    }
  }

  lemma RanActs(s: System, p: Process, ran: Request, result: Value, next: Value)
    requires p.phase.Ready? && EpochOk(s.caps, p)
    ensures Acts(s, p, Ran(p, ran, result, next))
  {}

  lemma PublishActs(customer: Customer, s: System, pid: nat, action: Action)
    requires IsPublication(action) && CanAct(customer, s, pid, action)
    requires EpochOk(s.caps, s.processes[pid])
    requires action.CommitOk? ==> Confirmed(s.ledger, s.processes[pid].phase.cached)
    requires action.UploadDone? ==> s.processes[pid].phase.cached.pending.None?
    ensures Acts(s, s.processes[pid], Publish(customer, s, pid, action).processes[pid])
  {
    hide HostOnly, SnapshotOf, CommitOf, ApplyUploadDone, ApplyAskTicket, StartUpload, Consume, Finish;
    if action.UploadDone? {
      UploadDoneActs(s, pid, action.call);
    } else if action.AskTicket? {
      AskTicketActs(s, pid, action.call);
    }
  }

  lemma AskTicketActs(s: System, pid: nat, call: nat)
    requires pid in s.processes && s.processes[pid].phase.Executed? && EpochOk(s.caps, s.processes[pid])
    ensures Acts(s, s.processes[pid], ApplyAskTicket(s, pid, call).processes[pid])
  {
    hide HostOnly;
  }

  lemma UploadDoneActs(s: System, pid: nat, call: nat)
    requires pid in s.processes && s.processes[pid].phase.Uploading? && EpochOk(s.caps, s.processes[pid])
    requires s.processes[pid].phase.cached.pending.None?
    ensures Acts(s, s.processes[pid], ApplyUploadDone(s, pid, call).processes[pid])
  {
    hide HostOnly, CommitOf;
  }

  lemma ObtainCalls(customer: Customer, s: System, pid: nat, action: Action)
    requires !IsPublication(action) && !IsExecution(action) && CanAct(customer, s, pid, action)
    ensures var t := Obtain(customer, s, pid, action);
            CallsFollow(s.calls, t.calls, pid, ViewOf(t.processes[pid]))
  {
    hide HostOnly, Replayed, MustReplay, ApplyBegin, Promote, FromLoaded, CallFollows;
    if action.Begin? {
      BeginCalls(s, pid, action.request, action.cap, action.call);
    }
  }

  lemma BeginCalls(s: System, pid: nat, request: Request, cap: Capability, call: nat)
    requires pid in s.processes && call !in s.calls
    ensures var t := ApplyBegin(s, pid, request, cap, call);
            CallsFollow(s.calls, t.calls, pid, ViewOf(t.processes[pid]))
  {
    hide HostOnly;
  }

  lemma RunCalls(customer: Customer, s: System, pid: nat, action: Action)
    requires IsExecution(action) && CanAct(customer, s, pid, action)
    ensures Run(customer, s, pid, action).calls == s.calls
  {
    hide HostOnly, MustReplay, ApplyExecute, ApplyExecuteFails, Ran, Misanswered, Cancelled, Evicted, Without;
  }

  lemma PublishCalls(customer: Customer, s: System, pid: nat, action: Action)
    requires IsPublication(action) && CanAct(customer, s, pid, action) && s.processes[pid].cache.None?
    ensures var t := Publish(customer, s, pid, action);
            CallsFollow(s.calls, t.calls, pid, ViewOf(t.processes[pid]))
  {
    hide HostOnly, SnapshotOf;
  }

  lemma ActionActs(customer: Customer, s: System, pid: nat, action: Action)
    requires Inv(customer, s) && CanAct(customer, s, pid, action)
    requires EpochOk(s.caps, s.processes[pid]) && SteadyStep(s, Host(pid, action))
    ensures var t := Act(customer, s, pid, action);
            && Acts(s, s.processes[pid], t.processes[pid])
            && CallsFollow(s.calls, t.calls, pid, ViewOf(t.processes[pid]))
  {
    hide Inv, Acts, CallsFollow, Obtain, Run, Publish, EpochOk, ViewOf;
    ProcessFacts(customer, s, pid);
    if action.ResolveOk? || action.CommitOk? {
      ConfirmedPendingIsCommitted(customer, s, pid, action);
    }
    if IsPublication(action) {
      PublishActs(customer, s, pid, action);
      PublishCalls(customer, s, pid, action);
    } else if IsExecution(action) {
      RunActs(customer, s, pid, action);
      RunCalls(customer, s, pid, action);
      SameCallsFollow(s.calls, pid, ViewOf(Run(customer, s, pid, action).processes[pid]));
    } else {
      ObtainActs(customer, s, pid, action);
      ObtainCalls(customer, s, pid, action);
    }
  }

  lemma SameCallsFollow(calls: map<nat, Call>, pid: nat, w: View)
    ensures CallsFollow(calls, calls, pid, w)
  {}

  // ----- every steady step keeps freshness --------------------------------------------------------------

  /** A process that starts from a capability of the row's epoch starts at the row:
      only that epoch's owner could have moved it, and that is this very process. */
  lemma StartsAtTheRow(s: System, pid: nat, cap: Capability)
    requires PeopleOk(s) && CapsFresh(s) && pid in s.processes && ViewOf(s.processes[pid]).Nothing?
    requires HeadOk(s.ledger) && cap in s.caps && CapOk(s.ledger, cap) && cap.host == s.processes[pid].host
    requires s.ledger.row.Some? && s.ledger.row.value.epoch == cap.epoch
    ensures cap.version == s.ledger.row.value.version
  {
    hide EpochOk, PeopleOk, ViewOf;
    if MadeNow(s.ledger) {
      OwnerHoldsState(s, pid);
    }
  }

  lemma OwnerHoldsState(s: System, pid: nat)
    requires PeopleOk(s) && CapsFresh(s) && MadeNow(s.ledger)
    requires pid in s.processes && s.processes[pid].host == s.ledger.row.value.owner
    ensures ViewOf(s.processes[pid]).View?
  {
    hide EpochOk, OwnerOk, ViewOf;
    var q :| q in s.processes && Made(s.ledger.row.value, s.processes[q]);
    assert s.processes[q].host == s.processes[pid].host;
  }

  lemma MovesUpToDate(customer: Customer, s: System, pid: nat, w: View)
    requires Inv(customer, s) && Fresh(s) && pid in s.processes
    requires Moves(s.ledger, s.caps, s.processes[pid], ViewOf(s.processes[pid]), w)
    ensures UpToDate(s.ledger, w)
    ensures ViewOf(s.processes[pid]).View? ==> w.View? && w.epoch == ViewOf(s.processes[pid]).epoch
  {
    hide Inv, PeopleOk, CapsFresh, CallsBehind, HistoryOk, StoreOk, PutsOk, ViewOf;
    LedgerFacts(customer, s);
    var p := s.processes[pid];
    if ViewOf(p).Nothing? && w.View? {
      var cap :| cap in s.caps && cap == CapFor(p, w, cap.objectName);
      if s.ledger.row.Some? && s.ledger.row.value.epoch == cap.epoch {
        StartsAtTheRow(s, pid, cap);
      }
    }
  }

  lemma ActingKeepsPeople(customer: Customer, s: System, t: System, pid: nat)
    requires Inv(customer, s) && PeopleOk(s) && pid in s.processes && HostOnly(s, t, pid)
    requires Acts(s, s.processes[pid], t.processes[pid])
    ensures PeopleOk(t)
  {
    hide Inv, EpochOk, Moves, ViewOf, HeadOk, HistoryOk, StoreOk, PutsOk;
    LedgerFacts(customer, s);
    var p, q := s.processes[pid], t.processes[pid];
    if q.epoch != p.epoch {
      var cap :| cap in s.caps && cap.host == p.host && cap.epoch == q.epoch.value;
      assert CapOk(s.ledger, cap);
    }
  }

  lemma ActingKeepsCalls(s: System, t: System, pid: nat)
    requires CallsBehind(s) && pid in s.processes && HostOnly(s, t, pid)
    requires Acts(s, s.processes[pid], t.processes[pid])
    requires CallsFollow(s.calls, t.calls, pid, ViewOf(t.processes[pid]))
    ensures CallsBehind(t)
  {
    hide EpochOk, ViewOf;
  }

  lemma ActingKeepsCaps(s: System, t: System, pid: nat)
    requires CapsFresh(s) && pid in s.processes && HostOnly(s, t, pid)
    requires Acts(s, s.processes[pid], t.processes[pid])
    requires ViewOf(s.processes[pid]).View? ==>
               ViewOf(t.processes[pid]).View? && ViewOf(t.processes[pid]).epoch == ViewOf(s.processes[pid]).epoch
    ensures CapsFresh(t)
  {
    hide EpochOk, Moves, ViewOf;
    if MadeNow(s.ledger) {
      var q :| q in s.processes && Made(s.ledger.row.value, s.processes[q]);
      assert q in t.processes && Made(s.ledger.row.value, t.processes[q]);
    }
  }

  lemma ActorIsKnown(customer: Customer, s: System, pid: nat, action: Action)
    requires Fresh(s) && CanAct(customer, s, pid, action)
    ensures pid in s.processes && EpochOk(s.caps, s.processes[pid])
  {
    hide EpochOk;
  }

  lemma ActionKeepsFresh(customer: Customer, s: System, pid: nat, action: Action)
    requires Inv(customer, s) && Fresh(s) && CanAct(customer, s, pid, action) && SteadyStep(s, Host(pid, action))
    ensures Fresh(Act(customer, s, pid, action))
  {
    hide Inv, CanAct, SteadyStep, Act, PeopleOk, CapsFresh, CallsBehind, EpochOk, Moves, ViewOf, CallsFollow, UpToDate;
    ActorIsKnown(customer, s, pid, action);
    var t := Act(customer, s, pid, action);
    ActionActs(customer, s, pid, action);
    MovesUpToDate(customer, s, pid, ViewOf(t.processes[pid]));
    ActingKeepsPeople(customer, s, t, pid);
    ActingKeepsCalls(s, t, pid);
    ActingKeepsCaps(s, t, pid);
  }

  // ----- events --------------------------------------------------------------------------------------------

  /** A winning commit moves the row to its process's pending object. */
  lemma WinnerIsPending(customer: Customer, s: System, call: nat)
    requires Inv(customer, s) && Fresh(s) && call in s.calls && s.calls[call].CommitCall?
             && Wins(s, s.calls[call].commit)
    ensures var k := s.calls[call];
            && k.process in s.processes && Made(s.ledger.row.value, s.processes[k.process])
            && k.commit.expected == ViewOf(s.processes[k.process]).version
            && ViewOf(s.processes[k.process]).pending == Some(k.commit.objectName)
  {
    hide Inv, PeopleOk, CapsFresh, ViewOf;
    CallFacts(customer, s, call);
    assert UpToDate(s.ledger, ViewOf(s.processes[s.calls[call].process]));
  }

  lemma CommitKeepsViews(customer: Customer, s: System, call: nat)
    requires Inv(customer, s) && Fresh(s) && call in s.calls && s.calls[call].CommitCall?
             && Wins(s, s.calls[call].commit)
    ensures ViewsOk(Advanced(s, s.calls[call].commit))
  {
    hide Inv, PeopleOk, CapsFresh, CallsBehind, ViewOf;
    WinnerIsPending(customer, s, call);
    var t := Advanced(s, s.calls[call].commit);
    forall q | q in s.processes ensures UpToDate(t.ledger, ViewOf(t.processes[q])) {
      if ViewOf(s.processes[q]).View? && ViewOf(s.processes[q]).epoch == s.ledger.row.value.epoch {
        SameEpochSameProcess(s, q, s.calls[call].process);
      }
    }
  }

  lemma CommitKeepsCaps(customer: Customer, s: System, call: nat)
    requires Inv(customer, s) && Fresh(s) && call in s.calls && s.calls[call].CommitCall?
             && Wins(s, s.calls[call].commit)
    ensures CapsFresh(Advanced(s, s.calls[call].commit))
  {
    hide Inv, PeopleOk, CapsFresh, CallsBehind, ViewOf, PutsOk, StoreOk, CapsOk;
    WinnerIsPending(customer, s, call);
    LedgerFacts(customer, s);
    CallFacts(customer, s, call);
    var t := Advanced(s, s.calls[call].commit);
    assert MadeNow(t.ledger);
    assert Made(t.ledger.row.value, t.processes[s.calls[call].process]);
    MadeNowIsFresh(t, s.calls[call].process);
  }

  lemma MadeNowIsFresh(s: System, pid: nat)
    requires MadeNow(s.ledger) && pid in s.processes && Made(s.ledger.row.value, s.processes[pid])
    ensures CapsFresh(s)
  {}

  /** People and calls only look at owners that stay. */
  lemma LongerLedger(s: System, t: System)
    requires PeopleOk(s) && CallsBehind(s) && t.processes == s.processes && t.calls == s.calls && t.caps == s.caps
    requires s.ledger.owners <= t.ledger.owners
    ensures PeopleOk(t) && CallsBehind(t)
  {
    hide EpochOk, ViewOf;
  }

  lemma CommitKeepsFresh(customer: Customer, s: System, call: nat)
    requires Inv(customer, s) && Fresh(s) && call in s.calls && s.calls[call].CommitCall?
             && Wins(s, s.calls[call].commit)
    ensures Fresh(Advanced(s, s.calls[call].commit))
  {
    hide Inv, PeopleOk, CapsFresh, CallsBehind, ViewsOk;
    CommitKeepsViews(customer, s, call);
    CommitKeepsCaps(customer, s, call);
    LongerLedger(s, Advanced(s, s.calls[call].commit));
  }

  lemma SameEpochSameProcess(s: System, q: nat, r: nat)
    requires PeopleOk(s) && q in s.processes && r in s.processes
    requires ViewOf(s.processes[q]).View? && ViewOf(s.processes[r]).View?
    requires ViewOf(s.processes[q]).epoch == ViewOf(s.processes[r]).epoch
    ensures q == r
  {
    assert EpochOk(s.caps, s.processes[q]) && OwnerOk(s.ledger, s.processes[q]);
    assert EpochOk(s.caps, s.processes[r]) && OwnerOk(s.ledger, s.processes[r]);
  }

  /** A claim leaves the row alone or opens an epoch nobody has yet. */
  lemma ClaimKeepsFresh(customer: Customer, s: System, expected: Option<P.Row>, owner: string, region: string)
    requires Inv(customer, s) && Fresh(s)
    ensures Fresh(ApplyClaim(s, expected, owner, region))
  {
    hide Inv, PeopleOk, CallsBehind, HistoryOk, StoreOk, PutsOk;
    LedgerFacts(customer, s);
    var t := ApplyClaim(s, expected, owner, region);
    LongerLedger(s, t);
    if t.ledger != s.ledger {
      NewEpochIsFresh(customer, s, t);
    }
  }

  lemma NewEpochIsFresh(customer: Customer, s: System, t: System)
    requires HeadOk(s.ledger) && HistoryOk(s.ledger) && CapsOk(s.ledger, s.caps) && PeopleOk(s)
    requires t == s.(ledger := t.ledger) && t.ledger.row.Some? && t.ledger.row.value.epoch == |s.ledger.owners| + 1
    requires t.ledger.committed == s.ledger.committed && t.ledger.store == s.ledger.store
    ensures ViewsOk(t) && CapsFresh(t)
  {}

  lemma SameCallsFresh(s: System, t: System)
    requires Fresh(s) && t.ledger == s.ledger && t.processes == s.processes && t.caps == s.caps
    requires forall id :: id in t.calls ==> id in s.calls && SameCall(s.calls[id], t.calls[id])
    ensures Fresh(t)
  {
    hide EpochOk, OwnerOk, ViewOf, UpToDate, MadeNow;
  }

  lemma IssueKeepsFresh(s: System)
    requires Fresh(s) && s.ledger.row.Some?
    ensures Fresh(s.(caps := s.caps + {CapabilityOf(s.ledger.row.value)}))
  {
    hide OwnerOk, ViewOf, UpToDate, MadeNow;
  }

  lemma SpawnKeepsFresh(s: System, pid: nat, p: Process)
    requires Fresh(s) && pid !in s.processes && forall q :: q in s.processes ==> s.processes[q].host != p.host
    requires p.epoch.None? && p.cache.None? && p.phase.Idle? && p.instance.None? && p.strays == []
    ensures Fresh(WithProcess(s, pid, p))
  {
    if MadeNow(s.ledger) {
      var q :| q in s.processes && Made(s.ledger.row.value, s.processes[q]);
      assert WithProcess(s, pid, p).processes[q] == s.processes[q];
    }
  }

  lemma LandingKeepsFresh(customer: Customer, s: System, name: string)
    requires Inv(customer, s) && Fresh(s) && name in s.puts && name !in s.ledger.store
    ensures Fresh(s.(ledger := s.ledger.(store := s.ledger.store[name := s.puts[name].snapshot])))
  {
    hide Inv, PeopleOk, CallsBehind, StoreOk, PutsOk, ViewOf;
    LedgerFacts(customer, s);
    var t := s.(ledger := s.ledger.(store := s.ledger.store[name := s.puts[name].snapshot]));
    LongerLedger(s, t);
    SnapshotsStay(s.ledger, t.ledger, |s.ledger.committed|);
  }

  lemma EventKeepsFresh(customer: Customer, s: System, event: Event)
    requires Inv(customer, s) && Fresh(s) && CanHappen(s, event) && SteadyStep(s, World(event))
    ensures Fresh(Happen(s, event))
  {
    hide Inv, Fresh, Advanced, ApplyTryCommit, ApplyClaim, ApplyReadBack, ApplyIssueTicket, ApplyCheckLease,
         FreshName, Wins;
    var t := Happen(s, event);
    match event
    case Claim(expected, owner, region) => ClaimKeepsFresh(customer, s, expected, owner, region);
    case IssueCapability => IssueKeepsFresh(s);
    case Spawn(pid, host, session, region) =>
      SpawnKeepsFresh(s, pid, NewProcess(host, session, region));
    case TryCommit(call, minted) => TryCommitKeepsFresh(customer, s, call, minted);
    case PutLands(name) =>
      if name !in s.ledger.store {
        LandingKeepsFresh(customer, s, name);
      }
    case _ => SameCallsFresh(s, t);
  }

  lemma TryCommitKeepsFresh(customer: Customer, s: System, call: nat, minted: Option<string>)
    requires Inv(customer, s) && Fresh(s) && call in s.calls && s.calls[call].CommitCall?
    ensures Fresh(ApplyTryCommit(s, call, minted))
  {
    hide Inv, Fresh, ApplyTryCommit, P.Matches, Leased;
    var t := ApplyTryCommit(s, call, minted);
    if Wins(s, s.calls[call].commit) {
      CommitKeepsFresh(customer, s, call);
      SameCallsFresh(Advanced(s, s.calls[call].commit), t);
    } else {
      SameCallsFresh(s, t);
    }
  }

  lemma StepKeepsFresh(customer: Customer, s: System, step: Step)
    requires Inv(customer, s) && Fresh(s) && Enabled(customer, s, step) && SteadyStep(s, step)
    ensures Fresh(Apply(customer, s, step))
  {
    hide Inv, Fresh, CanAct, CanHappen, Act, Happen, SteadyStep;
    match step
    case World(event) => EventKeepsFresh(customer, s, event);
    case Host(pid, action) => ActionKeepsFresh(customer, s, pid, action);
  }

  // ----- whole runs -------------------------------------------------------------------------------------------

  /** A process that serves one epoch finds no instance when it has no cached state. */
  lemma SteadyIsClean(customer: Customer, s: System, step: Step)
    requires Fresh(s) && Enabled(customer, s, step) && SteadyStep(s, step)
    ensures CleanStep(s, step)
  {
    if step.Host? && step.pid in s.processes {
      assert EpochOk(s.caps, s.processes[step.pid]);
    }
  }

  /** Every run of single-epoch processes with their own host ids and no cancelled
      call is clean, so its executors agree with their hosts and its durable history
      is sequential. */
  lemma {:induction false} SteadyRunsAreClean(customer: Customer, steps: seq<Step>)
    requires After(customer, steps).Some? && EveryStep(customer, steps, SteadyStep)
    ensures EveryStep(customer, steps, CleanStep)
    ensures Fresh(After(customer, steps).value)
  {
    hide Enabled, Apply, Inv, Fresh, Agreement, CleanStep, SteadyStep;
    if steps == [] {
      EmptyIsFresh();
    } else {
      var shorter := steps[..|steps| - 1];
      var s := After(customer, shorter).value;
      SteadyRunsAreClean(customer, shorter);
      RunKeeps(customer, shorter);
      SteadyIsClean(customer, s, steps[|steps| - 1]);
      StepKeepsFresh(customer, s, steps[|steps| - 1]);
    }
  }

  lemma EmptyIsFresh()
    ensures Fresh(Initial())
  {}

  /** Host cache freshness: in every such run, while the row is at the epoch of a
      host's cached state, the database version is the cached one, or is one ahead
      and names exactly the pending object. */
  lemma CacheIsFresh(customer: Customer, steps: seq<Step>, pid: nat)
    requires After(customer, steps).Some? && EveryStep(customer, steps, SteadyStep)
    requires pid in After(customer, steps).value.processes && After(customer, steps).value.ledger.row.Some?
    requires var p := After(customer, steps).value.processes[pid]; p.cache.Some? || HasCached(p.phase)
    ensures var s := After(customer, steps).value;
            var p := s.processes[pid];
            var c := if p.cache.Some? then p.cache.value else p.phase.cached;
            var row := s.ledger.row.value;
            row.epoch == c.epoch ==>
              || row.version == c.version
              || (c.pending.Some? && row.version == c.version + 1
                   && row.objectName == Some(c.pending.value.ticket.objectName))
  {
    SteadyRunsAreClean(customer, steps);
    hide After, EveryStep, PeopleOk, CapsFresh, CallsBehind;
    assert UpToDate(After(customer, steps).value.ledger, ViewOf(After(customer, steps).value.processes[pid]));
  }
}
