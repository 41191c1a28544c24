/**
 What the control plane lets through, over every run and in the fields of its tables: which
 calls pass the lease check, which get a ticket or a confirmation, and which claims
 acquire the object.
 */
module ProtocolControl {
  import opened Common
  import opened Protocol
  import opened ProtocolInvariant
  import opened ProtocolSteps
  import opened ProtocolSafety
  import P = Placement
  import L = Leases

  // ----- the lease check --------------------------------------------------------------------------

  /** The lease table has an unexpired lease of this host for this session. */
  predicate HasLease(s: System, host: string, session: string) {
    host in s.leases && s.leases[host].session == session && s.leases[host].expires > s.now
  }

  /** The call got past the lease check and has not been refused or consumed. */
  predicate Passed(k: Call) {
    k.stage.Checked? || k.stage.Missed? || k.stage.Granted?
  }

  predicate Unread(s: System, call: nat) {
    call in s.calls && s.calls[call].stage.Sent?
  }

  /** A call keeps its contents, is never unread again, and passes only if `may` says so. */
  predicate Moves(before: map<nat, Call>, after: map<nat, Call>, call: nat, may: bool) {
    && call in after
    && if call in before then
         && SameCall(before[call], after[call])
         && (after[call].stage.Sent? ==> before[call].stage.Sent?)
         && (Passed(after[call]) && !Passed(before[call]) ==> may)
       else after[call].stage.Sent?
  }

  /** The control plane looks at an unread call whose session has an unexpired lease. */
  predicate MayPass(s: System, call: nat) {
    && Unread(s, call)
    && var c := s.calls[call].commit;
    HasLease(s, c.owner, c.session) && c.expected < I64_MAX && c.epoch <= I64_MAX
  }

  /** A call passes in one step only, the control plane's look at the lease table. */
  lemma EventMoves(s: System, event: Event, call: nat)
    requires CanHappen(s, event) && call in s.calls
    ensures Moves(s.calls, Happen(s, event).calls, call, MayPass(s, call))
  {
    hide FreshName, P.IsReplayed, P.Matches;
    match event
    case CheckLease(_) =>
    case TryCommit(_, _) => hide ApplyTryCommit, Wins;
    case ReadBack(_, _) => hide ApplyReadBack;
    case IssueTicket(_, _) => hide ApplyIssueTicket;
    case _ => hide ApplyCheckLease, ApplyTryCommit, ApplyReadBack, ApplyIssueTicket;
  }

  lemma EventKeepsCalls(s: System, event: Event)
    requires CanHappen(s, event)
    ensures Happen(s, event).calls.Keys == s.calls.Keys
  {
    hide FreshName, Wins, ApplyCheckLease, ApplyTryCommit, ApplyReadBack, ApplyIssueTicket, ApplyClaim;
  }

  /** Hosts send new calls and consume answered ones; they pass none. */
  lemma ActionMoves(customer: Customer, s: System, pid: nat, action: Action, call: nat)
    requires CanAct(customer, s, pid, action)
    ensures call in s.calls || call in Act(customer, s, pid, action).calls ==>
              Moves(s.calls, Act(customer, s, pid, action).calls, call, false)
  {
    hide CanAct, Obtain, Run, Publish, Moves;
    if IsPublication(action) {
      PublicationMoves(customer, s, pid, action, call);
    } else if IsExecution(action) {
      ExecutionMoves(customer, s, pid, action);
      StandStill(s.calls, call);
    } else {
      AdmissionMoves(customer, s, pid, action, call);
    }
  }

  lemma StandStill(calls: map<nat, Call>, call: nat)
    ensures call in calls ==> Moves(calls, calls, call, false)
  {}

  lemma PublicationMoves(customer: Customer, s: System, pid: nat, action: Action, call: nat)
    requires IsPublication(action) && CanAct(customer, s, pid, action)
    ensures call in s.calls || call in Publish(customer, s, pid, action).calls ==>
              Moves(s.calls, Publish(customer, s, pid, action).calls, call, false)
  {
    hide Publish, CanAct;
    PublicationCalls(customer, s, pid, action);
  }

  /** A publication sends a call, or closes the one it waits for, or does neither. */
  lemma PublicationCalls(customer: Customer, s: System, pid: nat, action: Action)
    requires IsPublication(action) && CanAct(customer, s, pid, action)
    ensures var calls, phase := Publish(customer, s, pid, action).calls, s.processes[pid].phase;
            match action
            case AskTicket(call) =>
              call !in s.calls && call in calls && calls == s.calls[call := calls[call]] && calls[call].stage.Sent?
            case UploadDone(call) =>
              call !in s.calls && call in calls && calls == s.calls[call := calls[call]] && calls[call].stage.Sent?
            case TicketArrives =>
              phase.Preparing? && phase.call in s.calls
                && calls == s.calls[phase.call := s.calls[phase.call].(stage := Closed)]
            case CommitOk =>
              phase.Committing? && phase.call in s.calls
                && calls == s.calls[phase.call := s.calls[phase.call].(stage := Closed)]
            case UseTicket => calls == s.calls
            case PublishFails => calls == s.calls
  {
    hide HostOnly, SnapshotOf, Promote;
  }

  lemma ExecutionMoves(customer: Customer, s: System, pid: nat, action: Action)
    requires IsExecution(action) && CanAct(customer, s, pid, action)
    ensures Run(customer, s, pid, action).calls == s.calls
  {
    hide HostOnly, MustReplay, ExecutionBase, Ran, Misanswered;
  }

  lemma AdmissionMoves(customer: Customer, s: System, pid: nat, action: Action, call: nat)
    requires !IsPublication(action) && !IsExecution(action) && CanAct(customer, s, pid, action)
    ensures call in s.calls || call in Obtain(customer, s, pid, action).calls ==>
              Moves(s.calls, Obtain(customer, s, pid, action).calls, call, false)
  {
    hide HostOnly, MustReplay, Promote, FromLoaded, LoadChecks;
  }

  /** The state before step `i` of a run. */
  function Before(customer: Customer, steps: seq<Step>, i: nat): System
    requires After(customer, steps).Some? && i <= |steps|
  {
    PrefixRuns(customer, steps, i);
    After(customer, steps[..i]).value
  }

  lemma AtTheStart(customer: Customer, steps: seq<Step>)
    requires After(customer, steps).Some?
    ensures Before(customer, steps, 0) == Initial()
  {
    assert steps[..0] == [];
  }

  lemma StepBetween(customer: Customer, steps: seq<Step>, i: nat)
    requires After(customer, steps).Some? && i < |steps|
    ensures Enabled(customer, Before(customer, steps, i), steps[i])
    ensures Before(customer, steps, i + 1) == Apply(customer, Before(customer, steps, i), steps[i])
  {
    hide Enabled, Apply;
    PrefixRuns(customer, steps, i);
    PrefixRuns(customer, steps, i + 1);
    assert steps[..i + 1][..i] == steps[..i];
  }

  lemma StepMoves(customer: Customer, s: System, step: Step, call: nat)
    requires Enabled(customer, s, step)
    ensures call in s.calls || call in Apply(customer, s, step).calls ==>
              Moves(s.calls, Apply(customer, s, step).calls, call, MayPass(s, call))
  {
    hide CanAct, CanHappen, Act, Happen, MayPass;
    match step
    case World(event) =>
      EventKeepsCalls(s, event);
      if call in s.calls {
        EventMoves(s, event, call);
      }
    case Host(pid, action) => ActionMoves(customer, s, pid, action, call);
  }

  /** At this moment of the run the call was sent and unread, and its session had an
      unexpired lease. */
  predicate LeasedMoment(customer: Customer, steps: seq<Step>, i: nat, call: nat, k: Call)
    requires After(customer, steps).Some?
  {
    && i < |steps|
    && var s := Before(customer, steps, i);
    Unread(s, call) && SameCall(s.calls[call], k) && HasLease(s, k.commit.owner, k.commit.session)
  }

  /** Over every run, a call that is being worked on or was answered had, at a moment after
      it was sent, an unexpired lease of its own host and session in the table. */
  lemma {:induction false} PassedCallsHadALease(customer: Customer, steps: seq<Step>, n: nat, call: nat)
    requires After(customer, steps).Some? && n <= |steps|
    requires call in Before(customer, steps, n).calls && Passed(Before(customer, steps, n).calls[call])
    ensures exists i :: 0 <= i < n && LeasedMoment(customer, steps, i, call, Before(customer, steps, n).calls[call])
    decreases n
  {
    hide Enabled, Apply;
    AtTheStart(customer, steps);
    if n > 0 {
      var s := Before(customer, steps, n - 1);
      StepBetween(customer, steps, n - 1);
      StepMoves(customer, s, steps[n - 1], call);
      if call in s.calls && Passed(s.calls[call]) {
        PassedCallsHadALease(customer, steps, n - 1, call);
        var i :| 0 <= i < n - 1 && LeasedMoment(customer, steps, i, call, s.calls[call]);
        assert LeasedMoment(customer, steps, i, call, Before(customer, steps, n).calls[call]);
      } else {
        assert LeasedMoment(customer, steps, n - 1, call, Before(customer, steps, n).calls[call]);
      }
    }
  }

  /** And a call whose session has no such lease as long as it is unread gets no ticket and
      no confirmation, however long the run goes on. */
  lemma {:induction false} UnleasedCallsGetNothing(customer: Customer, steps: seq<Step>, i: nat, n: nat, call: nat)
    requires After(customer, steps).Some? && i <= n <= |steps| && Unread(Before(customer, steps, i), call)
    requires var c := Before(customer, steps, i).calls[call].commit;
             forall j :: i <= j < n ==> !HasLease(Before(customer, steps, j), c.owner, c.session)
    ensures var s := Before(customer, steps, n);
            && call in s.calls && SameCall(s.calls[call], Before(customer, steps, i).calls[call])
            && !Passed(s.calls[call])
    decreases n
  {
    hide Enabled, Apply;
    if i < n {
      UnleasedCallsGetNothing(customer, steps, i, n - 1, call);
      StepBetween(customer, steps, n - 1);
      StepMoves(customer, Before(customer, steps, n - 1), steps[n - 1], call);
    }
  }

  // ----- tickets and confirmations ------------------------------------------------------------------

  /** The row is this host's, at this epoch and version. */
  predicate RowIs(row: Option<P.Row>, host: string, epoch: nat, version: nat) {
    row.Some? && row.value.owner == host && row.value.epoch == epoch && row.value.version == version
  }

  /** An unread call is checked exactly if its session has an unexpired lease and its numbers
      fit; otherwise it is refused. */
  lemma CheckIff(s: System, call: nat)
    requires CanHappen(s, CheckLease(call))
    ensures var c, t := s.calls[call].commit, Happen(s, CheckLease(call));
            && t.ledger == s.ledger && call in t.calls
            && t.calls[call].stage
               == if HasLease(s, c.owner, c.session) && c.expected < I64_MAX && c.epoch <= I64_MAX then Checked
                  else Closed
  {}

  /** A checked request for a ticket is granted exactly if the row is its host's at its epoch
      and version, in the host's own region; the ticket is for the version after. */
  lemma TicketIff(s: System, call: nat, minted: Option<string>)
    requires CanHappen(s, IssueTicket(call, minted))
    ensures var k, t := s.calls[call], Happen(s, IssueTicket(call, minted));
            && t.ledger == s.ledger && call in t.calls
            && t.calls[call].stage
               == if RowIs(s.ledger.row, k.commit.owner, k.commit.epoch, k.commit.expected)
                     && s.ledger.row.value.region == k.region
                  then Granted(k.commit.expected,
                               if minted.None? then None else Some(Ticket(k.commit.expected + 1, minted.value)))
                  else Closed
  {}

  /** A checked commit moves the head exactly if the row is its host's at its epoch and
      version while the session's lease is unexpired. */
  lemma CommitIff(s: System, call: nat, minted: Option<string>)
    requires CanHappen(s, TryCommit(call, minted))
    ensures var c, t := s.calls[call].commit, Happen(s, TryCommit(call, minted));
            && call in t.calls
            && if RowIs(s.ledger.row, c.owner, c.epoch, c.expected) && HasLease(s, c.owner, c.session) then
                 && t.calls[call].stage
                    == Granted(c.expected + 1,
                               if minted.None? then None else Some(Ticket(c.expected + 2, minted.value)))
                 && t.ledger == s.ledger.(row := Some(P.Row(c.owner, c.epoch, s.ledger.row.value.region,
                                                            c.expected + 1, Some(c.objectName), Some(c.request))),
                                          committed := s.ledger.committed + [c.objectName])
               else t.calls[call].stage == Missed && t.ledger == s.ledger
  {}

  /** A missed commit is confirmed exactly if it is the head already. */
  lemma ReadBackIff(s: System, call: nat, minted: Option<string>)
    requires CanHappen(s, ReadBack(call, minted)) && s.calls[call].commit.expected < U64_MAX
    ensures var c, t := s.calls[call].commit, Happen(s, ReadBack(call, minted));
            && t.ledger == s.ledger && call in t.calls
            && t.calls[call].stage
               == if s.ledger.row.Some? && s.ledger.row.value.version == c.expected + 1
                     && s.ledger.row.value.objectName == Some(c.objectName)
                     && s.ledger.row.value.lastRequest == Some(c.request)
                  then Granted(c.expected + 1,
                               if minted.None? then None else Some(Ticket(c.expected + 2, minted.value)))
                  else Closed
  {}

  // ----- claims -----------------------------------------------------------------------------------------

  /** The epoch that a claim's expected row names; 0 for a claim that expects no row. */
  function Named(expected: Option<P.Row>): nat {
    if expected.None? then 0 else expected.value.epoch
  }

  /** The epoch of the row; 0 while there is none. */
  function EpochOf(s: System): nat {
    if s.ledger.row.None? then 0 else s.ledger.row.value.epoch
  }

  /** Step `i` is a claim that acquires the object. */
  predicate Acquires(customer: Customer, steps: seq<Step>, i: nat)
    requires After(customer, steps).Some?
  {
    && i < |steps| && steps[i].World? && steps[i].event.Claim?
    && EpochOf(Before(customer, steps, i)) != EpochOf(Before(customer, steps, i + 1))
  }

  /** A claim does nothing unless it names the row's own epoch, owner and region, and then
      at most opens the next epoch. */
  lemma ClaimChanges(s: System, expected: Option<P.Row>, owner: string, region: string)
    ensures var t := Happen(s, Claim(expected, owner, region));
            || t == s
            || (&& s.ledger.row.None? && expected.None? && EpochOf(t) == 1)
            || (&& s.ledger.row.Some? && expected.Some?
                && expected.value.epoch == s.ledger.row.value.epoch
                && expected.value.owner == s.ledger.row.value.owner != owner
                && expected.value.region == s.ledger.row.value.region == region
                && EpochOf(t) == EpochOf(s) + 1)
  {}

  lemma EpochsRise(customer: Customer, steps: seq<Step>, i: nat, j: nat)
    requires After(customer, steps).Some? && i <= j <= |steps|
    ensures EpochOf(Before(customer, steps, i)) <= EpochOf(Before(customer, steps, j))
  {
    hide After;
    PrefixRuns(customer, steps, j);
    RunOnlyAdds(customer, steps[..j], i);
    assert steps[..j][..i] == steps[..i];
  }

  /** Over every run, of all claims that name the same epoch at most one acquires the object. */
  lemma OneClaimPerEpoch(customer: Customer, steps: seq<Step>, i: nat, j: nat)
    requires After(customer, steps).Some? && i < j && Acquires(customer, steps, i) && Acquires(customer, steps, j)
    ensures Named(steps[i].event.expected) < Named(steps[j].event.expected)
  {
    hide After, Before, Happen;
    ClaimAt(customer, steps, i);
    ClaimAt(customer, steps, j);
    EpochsRise(customer, steps, i + 1, j);
  }

  lemma ClaimAt(customer: Customer, steps: seq<Step>, i: nat)
    requires After(customer, steps).Some? && i < |steps| && steps[i].World? && steps[i].event.Claim?
    ensures var s, t := Before(customer, steps, i), Before(customer, steps, i + 1);
            t == s || (Named(steps[i].event.expected) == EpochOf(s) && EpochOf(t) == EpochOf(s) + 1)
  {
    hide After, Before, Happen;
    StepBetween(customer, steps, i);
    ClaimChanges(Before(customer, steps, i), steps[i].event.expected, steps[i].event.owner, steps[i].event.region);
  }

  /** And a claim that names an epoch already left changes nothing at all. */
  lemma LeftEpochsAreNotClaimed(customer: Customer, steps: seq<Step>, i: nat, j: nat)
    requires After(customer, steps).Some? && i <= j < |steps| && steps[j].World? && steps[j].event.Claim?
    requires Named(steps[j].event.expected) < EpochOf(Before(customer, steps, i))
    ensures Before(customer, steps, j + 1) == Before(customer, steps, j)
  {
    hide After, Before, Happen;
    ClaimAt(customer, steps, j);
    EpochsRise(customer, steps, i, j);
  }

  // ----- the lease table ----------------------------------------------------------------------------------

  /** The registrations and unregistrations of a run, with the store clock at each. */
  function LeaseEvents(customer: Customer, steps: seq<Step>): seq<L.Event>
    requires After(customer, steps).Some?
  {
    if steps == [] then []
    else
      var shorter, last := steps[..|steps| - 1], steps[|steps| - 1];
      LeaseEvents(customer, shorter)
      + match last
        case World(RegisterLease(lease)) => [L.Registering(After(customer, shorter).value.now, lease)]
        case World(UnregisterLease(host, session)) =>
          [L.Unregistering(After(customer, shorter).value.now, host, session)]
        case _ => []
  }

  /** The store clock: the last tick. */
  function Clock(steps: seq<Step>): nat {
    if steps == [] then 0
    else
      match steps[|steps| - 1]
      case World(Tick(to)) => to
      case _ => Clock(steps[..|steps| - 1])
  }

  lemma ActionLeases(customer: Customer, s: System, pid: nat, action: Action)
    requires CanAct(customer, s, pid, action)
    ensures Act(customer, s, pid, action).leases == s.leases && Act(customer, s, pid, action).now == s.now
  {
    hide CanAct, Obtain, Run, Publish;
    if IsPublication(action) {
      PublicationLeases(customer, s, pid, action);
    } else if IsExecution(action) {
      ExecutionLeases(customer, s, pid, action);
    } else {
      AdmissionLeases(customer, s, pid, action);
    }
  }

  lemma PublicationLeases(customer: Customer, s: System, pid: nat, action: Action)
    requires IsPublication(action) && CanAct(customer, s, pid, action)
    ensures var t := Publish(customer, s, pid, action); t.leases == s.leases && t.now == s.now
  {
    hide HostOnly, SnapshotOf, Promote;
  }

  lemma ExecutionLeases(customer: Customer, s: System, pid: nat, action: Action)
    requires IsExecution(action) && CanAct(customer, s, pid, action)
    ensures var t := Run(customer, s, pid, action); t.leases == s.leases && t.now == s.now
  {
    hide HostOnly, MustReplay, ExecutionBase, Ran, Misanswered;
  }

  lemma AdmissionLeases(customer: Customer, s: System, pid: nat, action: Action)
    requires !IsPublication(action) && !IsExecution(action) && CanAct(customer, s, pid, action)
    ensures var t := Obtain(customer, s, pid, action); t.leases == s.leases && t.now == s.now
  {
    hide HostOnly, MustReplay, Promote, FromLoaded, LoadChecks;
  }

  lemma EventLeases(s: System, event: Event)
    requires CanHappen(s, event)
    ensures var t := Happen(s, event);
            && t.now == (if event.Tick? then event.to else s.now)
            && t.leases == match event
                           case RegisterLease(lease) => L.Step(s.leases, L.Registering(s.now, lease))
                           case UnregisterLease(host, session) =>
                             L.Step(s.leases, L.Unregistering(s.now, host, session))
                           case _ => s.leases
  {
    hide ApplyCheckLease, ApplyTryCommit, ApplyReadBack, ApplyIssueTicket, ApplyClaim, FreshName, L.Register,
         L.Unregister;
  }

  /** In every run the lease table is what its registrations and unregistrations make of an
      empty one on a clock that never runs backwards, so all that `Leases` says of such runs
      holds of the protocol's. */
  lemma {:induction false} LeaseTableFollows(customer: Customer, steps: seq<Step>)
    requires After(customer, steps).Some?
    ensures var s, events := After(customer, steps).value, LeaseEvents(customer, steps);
            && s.leases == L.TableAfter(map[], events, |events|) && s.now == Clock(steps)
            && L.Monotone(events) && forall i :: 0 <= i < |events| ==> events[i].at <= s.now
  {
    hide CanAct, CanHappen, Act, Happen, L.Step;
    if steps != [] {
      var shorter, last := steps[..|steps| - 1], steps[|steps| - 1];
      var s := After(customer, shorter).value;
      var before, events := LeaseEvents(customer, shorter), LeaseEvents(customer, steps);
      LeaseTableFollows(customer, shorter);
      L.SameBeginning(map[], before, events, |before|);
      match last {
        case World(event) =>
          EventLeases(s, event);
          ClockRises(s, event);
        case Host(pid, action) => ActionLeases(customer, s, pid, action);
      }
    }
  }

  lemma ClockRises(s: System, event: Event)
    requires CanHappen(s, event)
    ensures s.now <= Happen(s, event).now
  {
    hide ApplyCheckLease, ApplyTryCommit, ApplyReadBack, ApplyIssueTicket, ApplyClaim, FreshName;
  }
}
