/**
 What callers are told. In a clean run a completed reply carries what customer code made
 of the caller's own request on the durable state: on the version just below, if the
 request committed one, or on the version itself, if it changed nothing. Only a replayed
 method is answered from the result stored with the version it had committed.
 */
module ProtocolReplies {
  import opened Common
  import opened Protocol
  import opened ProtocolInvariant
  import opened ProtocolSteps
  import opened ProtocolSafety
  import opened ProtocolAgreement

  /** Customer code on a version's state gives this result and this other version's state. */
  predicate Gives(customer: Customer, l: Ledger, from: nat, request: Request, result: Value, to: nat) {
    StateAt(l, to).Some? && customer(StateAt(l, from), request) == Done(result, StateAt(l, to).value)
  }

  /** What a completed reply reports is true, by its basis. */
  predicate Told(customer: Customer, l: Ledger, puts: map<string, Put>, r: Reply) {
    r.Completed? ==>
      0 < r.version <= |l.committed| &&
      match r.basis
      case ByCommit =>
        && Gives(customer, l, r.version - 1, r.request, r.result, r.version)
        && l.committed[r.version - 1] in puts && puts[l.committed[r.version - 1]].work.attempt == r.attempt
      case ByNoChange => Gives(customer, l, r.version, r.request, r.result, r.version)
      case ByReplay =>
        r.request.kind == Method && RequestAt(l, r.version) == Some(r.request.id)
          && ResultAt(l, r.version) == Some(r.result)
  }

  predicate AllTold(customer: Customer, s: System) {
    forall r :: r in s.replies ==> Told(customer, s.ledger, s.puts, r)
  }

  lemma ToldStays(customer: Customer, l: Ledger, m: Ledger, puts: map<string, Put>, more: map<string, Put>, r: Reply)
    requires HistoryOk(l) && Grows(l, m) && Told(customer, l, puts, r)
    requires forall n :: n in puts ==> n in more && more[n] == puts[n]
    ensures Told(customer, m, more, r)
  {
    if r.Completed? {
      SnapshotsStay(l, m, r.version);
      SnapshotsStay(l, m, r.version - 1);
    }
  }

  /** The reply an action issues, if it completes a call. */
  predicate Issues(s: System, t: System, r: Reply) {
    forall q :: q in t.replies && q.Completed? ==> q in s.replies || q == r
  }

  lemma ReplayTells(customer: Customer, s: System, pid: nat) returns (r: Reply)
    requires Inv(customer, s) && CanAct(customer, s, pid, Replay)
    ensures Issues(s, Act(customer, s, pid, Replay), r) && Told(customer, s.ledger, s.puts, r)
  {
    hide Inv, HostOnly, HeadOk, StoreOk, PutsOk, CapsOk;
    ProcessFacts(customer, s, pid);
    LedgerFacts(customer, s);
    var phase := s.processes[pid].phase;
    r := Completed(phase.attempt, phase.request, phase.cached.version, Replayed(phase.cached, phase.request.id).value,
                   phase.cached.state, ByReplay);
  }

  lemma CommitTells(customer: Customer, s: System, pid: nat) returns (r: Reply)
    requires Inv(customer, s) && CanAct(customer, s, pid, CommitOk) && Agrees(s.processes[pid])
    ensures Issues(s, Act(customer, s, pid, CommitOk), r) && Told(customer, s.ledger, s.puts, r)
  {
    hide Inv, HostOnly;
    ProcessFacts(customer, s, pid);
    ConfirmedPendingIsCommitted(customer, s, pid, CommitOk);
    var phase := s.processes[pid].phase;
    r := Completed(phase.attempt, phase.request, phase.cached.version + 1, phase.work.result,
                   Some(phase.cached.pending.value.snapshot.state), ByCommit);
  }

  lemma ExecutionTells(customer: Customer, s: System, pid: nat, result: Value, next: Value) returns (r: Reply)
    requires Inv(customer, s) && CanAct(customer, s, pid, Execute(result, next)) && Agrees(s.processes[pid])
    ensures Issues(s, Act(customer, s, pid, Execute(result, next)), r)
    ensures s.processes[pid].phase.cached.state == Some(next) ==> Told(customer, s.ledger, s.puts, r)
    ensures s.processes[pid].phase.cached.state != Some(next) ==> r in s.replies || !r.Completed?
  {
    hide Inv, HostOnly, Ran, HeadOk, StoreOk, PutsOk, CapsOk;
    ProcessFacts(customer, s, pid);
    LedgerFacts(customer, s);
    var phase := s.processes[pid].phase;
    r := if phase.cached.state == Some(next)
         then Completed(phase.attempt, phase.request, phase.cached.version, result, Some(next), ByNoChange)
         else Failed(0);
  }

  /** No other action completes a call. */
  lemma OthersTellNothing(customer: Customer, s: System, pid: nat, action: Action)
    requires CanAct(customer, s, pid, action)
    requires !action.Replay? && !action.CommitOk? && !action.Execute? && !action.StrayAnswers?
    ensures forall r :: r in Act(customer, s, pid, action).replies && r.Completed? ==> r in s.replies
  {
    hide CanAct, Obtain, Run, Publish;
    if IsPublication(action) {
      PublicationTellsNothing(customer, s, pid, action);
    } else if IsExecution(action) {
      FailureTellsNothing(customer, s, pid, action);
    } else {
      AdmissionTellsNothing(customer, s, pid, action);
    }
  }

  lemma PublicationTellsNothing(customer: Customer, s: System, pid: nat, action: Action)
    requires IsPublication(action) && CanAct(customer, s, pid, action) && !action.CommitOk?
    ensures forall r :: r in Publish(customer, s, pid, action).replies && r.Completed? ==> r in s.replies
  {
    hide HostOnly, SnapshotOf;
  }

  lemma FailureTellsNothing(customer: Customer, s: System, pid: nat, action: Action)
    requires IsExecution(action) && CanAct(customer, s, pid, action) && !action.Execute? && !action.StrayAnswers?
    ensures forall r :: r in Run(customer, s, pid, action).replies && r.Completed? ==> r in s.replies
  {
    hide HostOnly;
  }

  lemma AdmissionTellsNothing(customer: Customer, s: System, pid: nat, action: Action)
    requires !IsPublication(action) && !IsExecution(action) && CanAct(customer, s, pid, action) && !action.Replay?
    ensures forall r :: r in Obtain(customer, s, pid, action).replies && r.Completed? ==> r in s.replies
  {
    hide HostOnly, Begun;
  }

  /** A waiting command of an agreeing process has no stray beside it. */
  lemma NobodyElseAnswers(p: Process)
    requires Agrees(p) && p.phase.Ready?
    ensures p.strays == []
  {}

  lemma StrayIsThere(customer: Customer, s: System, pid: nat, action: Action)
    requires CanAct(customer, s, pid, action) && action.StrayAnswers?
    ensures s.processes[pid].phase.Ready? && s.processes[pid].strays != []
  {}

  lemma ActionTells(customer: Customer, s: System, pid: nat, action: Action) returns (r: Reply)
    requires Inv(customer, s) && Agreement(s) && CanAct(customer, s, pid, action)
    ensures Issues(s, Act(customer, s, pid, action), r)
    ensures r in s.replies || !r.Completed? || Told(customer, s.ledger, s.puts, r)
  {
    hide Inv, CanAct, Act, Agrees, Told;
    ActorExists(customer, s, pid, action);
    match action
    case Replay => r := ReplayTells(customer, s, pid);
    case CommitOk => r := CommitTells(customer, s, pid);
    case Execute(result, next) => r := ExecutionTells(customer, s, pid, result, next);
    case StrayAnswers(_, _, _) =>
      StrayIsThere(customer, s, pid, action);
      NobodyElseAnswers(s.processes[pid]);
    case _ =>
      OthersTellNothing(customer, s, pid, action);
      r := Failed(0);
  }

  lemma StepTells(customer: Customer, s: System, step: Step)
    requires Inv(customer, s) && Agreement(s) && Enabled(customer, s, step) && AllTold(customer, s)
    ensures AllTold(customer, Apply(customer, s, step))
  {
    hide Inv, CanAct, CanHappen, Act, Happen, Agreement, Told, HeadOk, HistoryOk, StoreOk, PutsOk, CapsOk,
         LedgerAfter, Grows, RowFollows;
    LedgerFacts(customer, s);
    StepOnlyAdds(customer, s, step);
    var t := Apply(customer, s, step);
    var issued := Failed(0);
    match step {
      case Host(pid, action) => issued := ActionTells(customer, s, pid, action);
      case World(event) => EventChanges(s, event);
    }
    forall r | r in t.replies ensures Told(customer, t.ledger, t.puts, r) {
      if r.Completed? {
        ToldStays(customer, s.ledger, t.ledger, s.puts, t.puts, r);
      } else {
        NothingToTell(customer, t.ledger, t.puts, r);
      }
    }
  }

  lemma NothingToTell(customer: Customer, l: Ledger, puts: map<string, Put>, r: Reply)
    requires !r.Completed?
    ensures Told(customer, l, puts, r)
  {}

  /** In every clean run every completed reply tells the truth, to the call whose request it
      answers. */
  lemma {:induction false} RepliesTellTheTruth(customer: Customer, steps: seq<Step>)
    requires After(customer, steps).Some? && EveryStep(customer, steps, CleanStep)
    ensures AllTold(customer, After(customer, steps).value)
    ensures forall r :: r in After(customer, steps).value.replies && r.Completed? ==>
              r.attempt < |Begins(steps)| && Begins(steps)[r.attempt].request == r.request
  {
    hide Enabled, Apply, Inv, Agreement, CleanStep, Told, Begins;
    AttemptsAreBegins(customer, steps);
    RunKeeps(customer, steps);
    AnswersTheirCallers(customer, After(customer, steps).value);
    if steps != [] {
      var shorter := steps[..|steps| - 1];
      RepliesTellTheTruth(customer, shorter);
      RunsAgreeIffClean(customer, shorter);
      RunKeeps(customer, shorter);
      StepTells(customer, After(customer, shorter).value, steps[|steps| - 1]);
    }
  }

  lemma AnswersTheirCallers(customer: Customer, s: System)
    requires Inv(customer, s)
    ensures forall r :: r in s.replies && r.Completed? ==>
            r.attempt < |s.attempts| && s.attempts[r.attempt].request == r.request
  {
    hide HeadOk, HistoryOk, StoreOk, PutsOk, CapsOk, CallsOk, ProcessesOk, LinksOk, CallersOk, RepliesOk;
    hide SpentOk, CallTicketsOk, ProcessTicketsOk, OneUploadEach, AttemptOf, RunningOk, UnansweredOk, NoUpload;
  }

  // ----- retries ----------------------------------------------------------------------------------------

  /** Version `v` is the upload of this execution: its stored result is what the execution
      returned for a method, and null for a socket event. */
  predicate StoredFrom(s: System, v: nat, work: Work) {
    && 0 < v <= |s.ledger.committed|
    && var name := s.ledger.committed[v - 1];
    && name in s.puts && s.puts[name].work == work && name in s.ledger.store
    && s.ledger.store[name].request == work.request.id && s.ledger.store[name].state == work.next
    && s.ledger.store[name].result == (match work.request.kind case Method => work.result case Socket => NULL)
  }

  /** Over every run, each version stores what one execution returned. */
  lemma EveryVersionIsStored(customer: Customer, steps: seq<Step>, v: nat)
    requires After(customer, steps).Some? && 0 < v <= |After(customer, steps).value.ledger.committed|
    ensures var s := After(customer, steps).value;
            exists work :: StoredFrom(s, v, work) && customer(work.base, work.ran) == Done(work.result, work.next)
  {
    hide After, Inv, HeadOk, CapsOk;
    RunKeeps(customer, steps);
    var s := After(customer, steps).value;
    LedgerFacts(customer, s);
    var name := s.ledger.committed[v - 1];
    assert name in s.ledger.store && PutOk(customer, s.ledger, s.puts[name]);
    assert StoredFrom(s, v, s.puts[name].work);
  }

  /** Over every run, a method that is answered by replay gets what the execution stored with
      its version returned, and that execution was of a request with its own id. */
  lemma RetryIsToldItsResult(customer: Customer, steps: seq<Step>, pid: nat) returns (work: Work)
    requires After(customer, steps).Some? && CanAct(customer, After(customer, steps).value, pid, Replay)
    ensures var s := After(customer, steps).value;
            var phase := s.processes[pid].phase;
            && StoredFrom(s, phase.cached.version, work) && work.request.id == phase.request.id
            && customer(work.base, work.ran) == Done(work.result, work.next)
            && Completed(phase.attempt, phase.request, phase.cached.version,
                         if work.request.kind == Method then work.result else NULL, Some(work.next), ByReplay)
               in Act(customer, s, pid, Replay).replies
  {
    hide After, Inv, HeadOk, StoreOk, PutsOk, CapsOk;
    RunKeeps(customer, steps);
    var s := After(customer, steps).value;
    ProcessFacts(customer, s, pid);
    LedgerFacts(customer, s);
    var phase := s.processes[pid].phase;
    EveryVersionIsStored(customer, steps, phase.cached.version);
    work :| StoredFrom(s, phase.cached.version, work) && customer(work.base, work.ran) == Done(work.result, work.next);
  }
}
