/**
 Every call of the commit protocol is a call of the code. Over any run, what a process
 sees between taking up a call and answering it is a course of events; the call ends,
 with its reply and its cached state, exactly as that course makes `ActorHost` end, and
 the stores it saw told the truth.
 */
module HostCalls {
  import opened Common
  import opened Protocol
  import opened ProtocolInvariant
  import opened ProtocolSteps
  import opened ProtocolSafety
  import A = ProtocolAgreement
  import H = ActorHost

  const SILENT: H.World := H.World(None, None, None, false, None, false, false, None)

  /** The answer that a granted call carries. */
  function AnswerOf(stage: Stage): H.Answer
    requires stage.Granted?
  {
    H.Answer(stage.version, stage.ticket)
  }

  /** What a process has seen of the world once it has taken an action. */
  function Observe(customer: Customer, s: System, pid: nat, action: Action, k: H.Course): H.Course
    requires CanAct(customer, s, pid, action)
  {
    var p := s.processes[pid];
    var w := k.world;
    match action
    case Begin(_, cap, _) => H.Course(p.cache, cap, SILENT)
    case Load => k.(world := w.(loaded := Some(s.ledger.store[p.phase.cap.objectName.value])))
    case ResolveOk => k.(world := w.(resolved := Some(AnswerOf(s.calls[p.phase.call].stage))))
    case Execute(result, next) => k.(world := w.(executed := Some((result, next))))
    case StrayAnswers(_, result, next) => k.(world := w.(executed := Some((result, next))))
    case UseTicket => k.(world := w.(ticketUsable := true, encodes := true))
    case TicketArrives => k.(world := w.(prepared := s.calls[p.phase.call].stage.ticket, encodes := true))
    case UploadDone(_) => k.(world := w.(stored := true))
    case CommitOk => k.(world := w.(committed := Some(AnswerOf(s.calls[p.phase.call].stage))))
    case _ => k
  }

  /** Nothing of a publication has been seen. */
  predicate Unpublished(w: H.World) {
    !w.ticketUsable && w.prepared.None? && !w.encodes && !w.stored && w.committed.None?
  }

  /** The settled state was run, not replayed, and changed. */
  predicate RanOn(k: H.Course, request: Request, work: Work)
    requires H.TakenIn(k).Some?
  {
    var c := H.SettledIn(k);
    && c.pending.None? && !H.Replays(c, request)
    && k.world.executed == Some((work.result, work.next)) && c.state != Some(work.next) && work.request == request
  }

  /** The upload goes out under a right ticket. */
  predicate SendsWith(k: H.Course, ticket: Ticket)
    requires H.TakenIn(k).Some?
  {
    var c := H.SettledIn(k);
    && H.ChosenTicket(c, k.world) == Some(ticket) && ticket.version == c.version + 1 && c.version < U64_MAX
    && k.world.encodes && k.world.committed.None?
  }

  /** The process is where the code is after this much of the course. */
  predicate Tracks(phase: Phase, k: H.Course) {
    match phase
    case Idle => true
    case Loading(_, _, cap) =>
      k.cap == cap && cap.version > 0 && !(k.start.Some? && k.start.value.epoch == cap.epoch) && k.world == SILENT
    case Resolving(_, _, c, _) => H.TakenIn(k) == Some(c) && c.pending.Some? && k.world == SILENT
    case Ready(_, _, c) =>
      H.TakenIn(k).Some? && H.SettledIn(k) == c && c.pending.None? && k.world.executed.None? && Unpublished(k.world)
    case Executed(_, request, c, work) =>
      H.TakenIn(k).Some? && H.SettledIn(k) == c && RanOn(k, request, work) && Unpublished(k.world)
    case Preparing(_, request, c, work, _) =>
      && H.TakenIn(k).Some? && H.SettledIn(k).(nextWrite := None) == c && c.version < U64_MAX
      && RanOn(k, request, work) && Unpublished(k.world)
    case Uploading(_, request, c, work, snapshot, ticket) =>
      && H.TakenIn(k).Some? && H.SettledIn(k).(nextWrite := None) == c && RanOn(k, request, work)
      && SendsWith(k, ticket) && !k.world.stored && snapshot == SnapshotOf(H.SettledIn(k), work)
    case Committing(_, request, c, work, _) =>
      && H.TakenIn(k).Some? && RanOn(k, request, work) && c.pending.Some?
      && SendsWith(k, c.pending.value.ticket) && k.world.stored
      && c == H.SettledIn(k).(nextWrite := None,
                              pending := Some(Pending(SnapshotOf(H.SettledIn(k), work), c.pending.value.ticket)))
  }

  /** How the caller sees a reply. */
  function EndingOf(r: Reply): H.Ending {
    match r
    case Completed(_, _, _, result, _, _) => H.Answered(result)
    case Failed(_) => H.ActorFailed
    case OutcomeUnknown(_) => H.Unknown
    case Unavailable(_) => H.HostError
  }

  /** The action answers the call that the process runs. */
  predicate Finishes(s: System, pid: nat, action: Action)
    requires pid in s.processes
  {
    var phase := s.processes[pid].phase;
    || action.LoadFails? || action.ResolveFails? || action.Replay? || action.ExecuteFails? || action.CommitOk?
         || action.PublishFails?
    || ((action.Execute? || action.StrayAnswers?) && phase.Ready? && phase.cached.state == Some(action.next))
  }

  /** A reply for an attempt. */
  predicate Answered(t: System, attempt: nat, request: Request, k: H.Course, cache: Option<Cached>) {
    exists r :: r in t.replies && r.attempt == attempt && H.Concludes(k, request, EndingOf(r), cache)
  }

  // ----- admission -------------------------------------------------------------------------------

  /** What the invariant adds: a busy process has an empty cache, and loads something. */
  predicate Sane(p: Process) {
    && (p.cache.Some? ==> p.phase.Idle?)
    && (p.phase.Loading? ==> p.phase.cap.objectName.Some?)
  }

  lemma BegunTracks(p: Process, attempt: nat, request: Request, cap: Capability, call: nat)
    requires cap.version == 0 <==> cap.objectName.None?
    ensures Tracks(Begun(p, attempt, request, cap, call).phase, H.Course(p.cache, cap, SILENT))
  {}

  lemma AdmissionTracks(customer: Customer, s: System, pid: nat, action: Action, k: H.Course)
    requires !IsPublication(action) && !IsExecution(action) && CanAct(customer, s, pid, action)
    requires Tracks(s.processes[pid].phase, k) && Sane(s.processes[pid])
    requires action.Begin? ==> (action.cap.version == 0 <==> action.cap.objectName.None?)
    ensures Tracks(Obtain(customer, s, pid, action).processes[pid].phase, Observe(customer, s, pid, action, k))
  {
    hide HostOnly, Begun, Consume, Finish, WithPhase;
    if action.Begin? {
      BegunTracks(s.processes[pid], |s.attempts|, action.request, action.cap, action.call);
    }
  }

  lemma AdmissionAnswers(customer: Customer, s: System, pid: nat, action: Action, k: H.Course)
    requires action.LoadFails? || action.ResolveFails? || action.Replay?
    requires CanAct(customer, s, pid, action) && Tracks(s.processes[pid].phase, k) && Sane(s.processes[pid])
    ensures var phase, t := s.processes[pid].phase, Obtain(customer, s, pid, action);
            Answered(t, phase.attempt, phase.request, Observe(customer, s, pid, action, k), t.processes[pid].cache)
  {
    hide HostOnly;
    var phase, t := s.processes[pid].phase, Obtain(customer, s, pid, action);
    var r :=
      if action.LoadFails? then Unavailable(phase.attempt)
      else if action.ResolveFails? then OutcomeUnknown(phase.attempt)
      else Completed(phase.attempt, phase.request, phase.cached.version, Replayed(phase.cached, phase.request.id).value,
                     phase.cached.state, ByReplay);
    assert r in t.replies;
    assert H.Concludes(k, phase.request, EndingOf(r), t.processes[pid].cache);
  }

  // ----- execution ---------------------------------------------------------------------------------

  lemma ExecutionTracks(customer: Customer, s: System, pid: nat, action: Action, k: H.Course)
    requires IsExecution(action) && CanAct(customer, s, pid, action) && Tracks(s.processes[pid].phase, k)
    ensures Tracks(Run(customer, s, pid, action).processes[pid].phase, Observe(customer, s, pid, action, k))
  {
    hide HostOnly, Finish;
  }

  lemma ExecutionAnswers(customer: Customer, s: System, pid: nat, action: Action, k: H.Course)
    requires action.Execute? || action.StrayAnswers? || action.ExecuteFails?
    requires CanAct(customer, s, pid, action) && Finishes(s, pid, action)
    requires Tracks(s.processes[pid].phase, k)
    ensures var phase, t := s.processes[pid].phase, Run(customer, s, pid, action);
            Answered(t, phase.attempt, phase.request, Observe(customer, s, pid, action, k), t.processes[pid].cache)
  {
    hide HostOnly;
    var phase, t := s.processes[pid].phase, Run(customer, s, pid, action);
    var r := if action.ExecuteFails? then Failed(phase.attempt)
             else Completed(phase.attempt, phase.request, phase.cached.version, action.result, Some(action.next),
                            ByNoChange);
    assert r in t.replies;
    assert H.Concludes(Observe(customer, s, pid, action, k), phase.request, EndingOf(r), t.processes[pid].cache);
  }

  // ----- publication ---------------------------------------------------------------------------------

  lemma PublicationTracks(customer: Customer, s: System, pid: nat, action: Action, k: H.Course)
    requires IsPublication(action) && CanAct(customer, s, pid, action) && Tracks(s.processes[pid].phase, k)
    requires s.processes[pid].phase.Executed? || s.processes[pid].phase.Preparing? ==>
               s.processes[pid].phase.work.attempt == s.processes[pid].phase.attempt
    ensures Tracks(Publish(customer, s, pid, action).processes[pid].phase, Observe(customer, s, pid, action, k))
  {
    hide HostOnly, StartUpload, Consume, Finish, WithPhase;
  }

  lemma CommitAnswers(customer: Customer, s: System, pid: nat, k: H.Course)
    requires CanAct(customer, s, pid, CommitOk) && Tracks(s.processes[pid].phase, k)
    ensures var phase, t := s.processes[pid].phase, Publish(customer, s, pid, CommitOk);
            Answered(t, phase.attempt, phase.request, Observe(customer, s, pid, CommitOk, k), t.processes[pid].cache)
  {
    hide HostOnly;
    var phase, t := s.processes[pid].phase, Publish(customer, s, pid, CommitOk);
    var promoted := Promote(phase.cached, s.calls[phase.call].stage.ticket);
    var r := Completed(phase.attempt, phase.request, promoted.version, phase.work.result, promoted.state, ByCommit);
    assert r in t.replies;
    assert H.Publishes(H.SettledIn(k), Observe(customer, s, pid, CommitOk, k).world);
    assert H.Concludes(Observe(customer, s, pid, CommitOk, k), phase.request, EndingOf(r), t.processes[pid].cache);
  }

  lemma FailureAnswers(customer: Customer, s: System, pid: nat, k: H.Course)
    requires CanAct(customer, s, pid, PublishFails) && Tracks(s.processes[pid].phase, k)
    ensures var phase, t := s.processes[pid].phase, Publish(customer, s, pid, PublishFails);
            Answered(t, phase.attempt, phase.request, Observe(customer, s, pid, PublishFails, k),
                     t.processes[pid].cache)
  {
    hide HostOnly;
    var phase, t := s.processes[pid].phase, Publish(customer, s, pid, PublishFails);
    var r := OutcomeUnknown(phase.attempt);
    assert r in t.replies;
    assert !H.Publishes(H.SettledIn(k), k.world);
    assert H.Concludes(k, phase.request, EndingOf(r), t.processes[pid].cache);
  }

  // ----- what the course shows is true -------------------------------------------------------------------

  /** What the call started from was committed, and what it saw of the stores since is so. */
  predicate Truth(l: Ledger, request: Request, k: H.Course) {
    H.TakenIn(k).Some? ==> CachedOk(l, H.TakenIn(k).value) && H.Truthful(l, H.TakenIn(k).value, request, k.world)
  }

  lemma TruthStays(l: Ledger, m: Ledger, request: Request, k: H.Course)
    requires HistoryOk(l) && Grows(l, m) && Truth(l, request, k)
    ensures Truth(m, request, k)
  {
    if H.TakenIn(k).Some? {
      CachedStays(l, m, H.TakenIn(k).value);
    }
  }

  /** A course in which nothing has been confirmed or stored yet. */
  lemma NothingSeen(l: Ledger, request: Request, k: H.Course)
    requires k.world.resolved.None? && !k.world.stored
    requires H.TakenIn(k).Some? ==> CachedOk(l, H.TakenIn(k).value)
    ensures Truth(l, request, k)
  {}

  lemma StartIsTrue(customer: Customer, s: System, pid: nat, request: Request, cap: Capability, call: nat)
    requires Inv(customer, s) && CanAct(customer, s, pid, Begin(request, cap, call))
    ensures Truth(s.ledger, request, H.Course(s.processes[pid].cache, cap, SILENT))
    ensures cap.version == 0 <==> cap.objectName.None?
  {
    hide Inv, HeadOk, StoreOk, PutsOk;
    ProcessFacts(customer, s, pid);
    LedgerFacts(customer, s);
    assert CapOk(s.ledger, cap);
    NothingSeen(s.ledger, request, H.Course(s.processes[pid].cache, cap, SILENT));
  }

  lemma LoadIsTrue(customer: Customer, s: System, pid: nat, k: H.Course)
    requires Inv(customer, s) && CanAct(customer, s, pid, Load) && Tracks(s.processes[pid].phase, k)
    ensures Truth(s.ledger, s.processes[pid].phase.request, Observe(customer, s, pid, Load, k))
  {
    hide Inv, HeadOk, StoreOk, PutsOk, CapsOk;
    ProcessFacts(customer, s, pid);
    LedgerFacts(customer, s);
    NothingSeen(s.ledger, s.processes[pid].phase.request, Observe(customer, s, pid, Load, k));
  }

  lemma ConfirmationIsTrue(customer: Customer, s: System, pid: nat, action: Action, k: H.Course)
    requires action.ResolveOk? || action.CommitOk?
    requires Inv(customer, s) && CanAct(customer, s, pid, action) && Tracks(s.processes[pid].phase, k)
    requires Truth(s.ledger, s.processes[pid].phase.request, k)
    ensures Truth(s.ledger, s.processes[pid].phase.request, Observe(customer, s, pid, action, k))
  {
    hide Inv, CachedOk;
    ConfirmedPendingIsCommitted(customer, s, pid, action);
  }

  lemma StorageIsTrue(customer: Customer, s: System, pid: nat, call: nat, k: H.Course)
    requires Inv(customer, s) && CanAct(customer, s, pid, UploadDone(call)) && Tracks(s.processes[pid].phase, k)
    requires Truth(s.ledger, s.processes[pid].phase.request, k)
    ensures Truth(s.ledger, s.processes[pid].phase.request, Observe(customer, s, pid, UploadDone(call), k))
  {
    hide Inv, CachedOk;
    StoredObjectIsOwn(customer, s, pid, call);
  }

  /** Whatever else is seen says nothing about the stores. */
  lemma OthersAreTrue(customer: Customer, s: System, pid: nat, action: Action, k: H.Course)
    requires !action.Begin? && !action.Load? && !action.ResolveOk? && !action.CommitOk? && !action.UploadDone?
    requires CanAct(customer, s, pid, action) && Tracks(s.processes[pid].phase, k) && !s.processes[pid].phase.Idle?
    requires Truth(s.ledger, s.processes[pid].phase.request, k)
    ensures Truth(s.ledger, s.processes[pid].phase.request, Observe(customer, s, pid, action, k))
  {
    hide CachedOk;
  }

  // ----- whole runs -------------------------------------------------------------------------------------------

  /** The process is in the middle of a call that follows a true course. */
  predicate Follows(s: System, pid: nat, k: H.Course) {
    pid in s.processes && !s.processes[pid].phase.Idle? ==>
      Tracks(s.processes[pid].phase, k) && Truth(s.ledger, s.processes[pid].phase.request, k)
  }

  lemma SaneFacts(customer: Customer, s: System, pid: nat)
    requires Inv(customer, s) && pid in s.processes
    ensures Sane(s.processes[pid])
    ensures HasWork(s.processes[pid].phase) ==> s.processes[pid].phase.work.attempt == s.processes[pid].phase.attempt
  {
    hide Inv;
    ProcessFacts(customer, s, pid);
  }

  lemma ActionIsTrue(customer: Customer, s: System, pid: nat, action: Action, k: H.Course)
    requires Inv(customer, s) && CanAct(customer, s, pid, action) && Follows(s, pid, k)
    requires !action.Begin? && !s.processes[pid].phase.Idle?
    ensures Truth(s.ledger, s.processes[pid].phase.request, Observe(customer, s, pid, action, k))
  {
    hide Inv, Tracks, Truth, Observe;
    match action
    case Load => LoadIsTrue(customer, s, pid, k);
    case ResolveOk => ConfirmationIsTrue(customer, s, pid, action, k);
    case CommitOk => ConfirmationIsTrue(customer, s, pid, action, k);
    case UploadDone(call) => StorageIsTrue(customer, s, pid, call, k);
    case _ => OthersAreTrue(customer, s, pid, action, k);
  }

  lemma ActionTracks(customer: Customer, s: System, pid: nat, action: Action, k: H.Course)
    requires Inv(customer, s) && CanAct(customer, s, pid, action) && Follows(s, pid, k)
    ensures Tracks(Act(customer, s, pid, action).processes[pid].phase, Observe(customer, s, pid, action, k))
  {
    assert Tracks(s.processes[pid].phase, k);
    hide Inv, Tracks, Truth, Observe, Obtain, Run, Publish;
    SaneFacts(customer, s, pid);
    if IsPublication(action) {
      PublicationTracks(customer, s, pid, action, k);
    } else if IsExecution(action) {
      ExecutionTracks(customer, s, pid, action, k);
    } else {
      if action.Begin? {
        StartIsTrue(customer, s, pid, action.request, action.cap, action.call);
      }
      AdmissionTracks(customer, s, pid, action, k);
    }
  }

  /** A call keeps its request to the end. */
  lemma RequestStays(customer: Customer, s: System, pid: nat, action: Action)
    requires CanAct(customer, s, pid, action)
    requires HasWork(s.processes[pid].phase) ==> s.processes[pid].phase.work.request == s.processes[pid].phase.request
    ensures var before, after := s.processes[pid].phase, Act(customer, s, pid, action).processes[pid].phase;
            !after.Idle? ==> if action.Begin? then after.request == action.request
              else !before.Idle? && after.request == before.request
  {
    hide CanAct, Obtain, Run, Publish;
    if IsPublication(action) {
      PublicationRequest(customer, s, pid, action);
    } else if IsExecution(action) {
      ExecutionRequest(customer, s, pid, action);
    } else {
      AdmissionRequest(customer, s, pid, action);
    }
  }

  lemma PublicationRequest(customer: Customer, s: System, pid: nat, action: Action)
    requires IsPublication(action) && CanAct(customer, s, pid, action)
    requires HasWork(s.processes[pid].phase) ==> s.processes[pid].phase.work.request == s.processes[pid].phase.request
    ensures var before, after := s.processes[pid].phase, Publish(customer, s, pid, action).processes[pid].phase;
            !after.Idle? ==> !before.Idle? && after.request == before.request
  {
    hide HostOnly, Consume, Finish, WithPhase, StartUpload, Answered, SnapshotOf;
  }

  lemma ExecutionRequest(customer: Customer, s: System, pid: nat, action: Action)
    requires IsExecution(action) && CanAct(customer, s, pid, action)
    ensures var before, after := s.processes[pid].phase, Run(customer, s, pid, action).processes[pid].phase;
            !after.Idle? ==> !before.Idle? && after.request == before.request
  {
    hide HostOnly, Finish, MustReplay, ExecutionBase, Without;
  }

  lemma AdmissionRequest(customer: Customer, s: System, pid: nat, action: Action)
    requires !IsPublication(action) && !IsExecution(action) && CanAct(customer, s, pid, action)
    ensures var before, after := s.processes[pid].phase, Obtain(customer, s, pid, action).processes[pid].phase;
            !after.Idle? ==> if action.Begin? then after.request == action.request
              else !before.Idle? && after.request == before.request
  {
    hide HostOnly, Consume, Finish, WithPhase, MustReplay, LoadChecks;
  }

  lemma ActionFollows(customer: Customer, s: System, pid: nat, action: Action, k: H.Course)
    requires Inv(customer, s) && CanAct(customer, s, pid, action) && Follows(s, pid, k)
    ensures Follows(Act(customer, s, pid, action), pid, Observe(customer, s, pid, action, k))
  {
    hide Inv, CanAct, Act, Tracks, Truth, Observe;
    A.ActorExists(customer, s, pid, action);
    WorkFacts(customer, s, pid);
    RequestStays(customer, s, pid, action);
    ActionTracks(customer, s, pid, action, k);
    if action.Begin? {
      StartIsTrue(customer, s, pid, action.request, action.cap, action.call);
      FreshCourse(customer, s, pid, action, k);
    } else if !s.processes[pid].phase.Idle? {
      ActionIsTrue(customer, s, pid, action, k);
    }
  }

  lemma FreshCourse(customer: Customer, s: System, pid: nat, action: Action, k: H.Course)
    requires CanAct(customer, s, pid, action) && action.Begin?
    ensures Observe(customer, s, pid, action, k) == H.Course(s.processes[pid].cache, action.cap, SILENT)
  {}

  lemma WorkFacts(customer: Customer, s: System, pid: nat)
    requires Inv(customer, s) && pid in s.processes
    ensures HasWork(s.processes[pid].phase) ==> s.processes[pid].phase.work.request == s.processes[pid].phase.request
  {
    hide Inv;
    ProcessFacts(customer, s, pid);
  }

  /** What a process sees in a step of the run. */
  function Seen(customer: Customer, s: System, step: Step, pid: nat, k: H.Course): H.Course
    requires Enabled(customer, s, step)
  {
    if step.Host? && step.pid == pid then Observe(customer, s, pid, step.action, k) else k
  }

  lemma StepFollows(customer: Customer, s: System, step: Step, pid: nat, k: H.Course)
    requires Inv(customer, s) && Enabled(customer, s, step) && Follows(s, pid, k)
    ensures Follows(Apply(customer, s, step), pid, Seen(customer, s, step, pid, k))
  {
    hide Inv, CanAct, CanHappen, Act, Happen, Tracks, Truth, Observe, HeadOk, HistoryOk, StoreOk, PutsOk, CapsOk,
         LedgerAfter;
    hide Grows, RowFollows;
    LedgerFacts(customer, s);
    match step
    case World(event) =>
      A.EventProcesses(s, event);
      EventOnlyAdds(customer, s, event);
      if pid in s.processes && !s.processes[pid].phase.Idle? {
        TruthStays(s.ledger, Happen(s, event).ledger, s.processes[pid].phase.request, k);
      }
    case Host(q, action) =>
      if q == pid {
        ActionFollows(customer, s, pid, action, k);
      }
  }

  /** What a process has seen of its current call in a run. */
  function Watched(customer: Customer, steps: seq<Step>, pid: nat): H.Course
    requires After(customer, steps).Some?
  {
    if steps == [] then H.Course(None, Capability("", 0, 0, None), SILENT)
    else
      var shorter := steps[..|steps| - 1];
      Seen(customer, After(customer, shorter).value, steps[|steps| - 1], pid, Watched(customer, shorter, pid))
  }

  lemma {:induction false} RunFollows(customer: Customer, steps: seq<Step>, pid: nat)
    requires After(customer, steps).Some?
    ensures Follows(After(customer, steps).value, pid, Watched(customer, steps, pid))
  {
    hide Enabled, Apply, Inv, Tracks, Truth, Seen;
    if steps != [] {
      var shorter := steps[..|steps| - 1];
      RunFollows(customer, shorter, pid);
      RunKeeps(customer, shorter);
      StepFollows(customer, After(customer, shorter).value, steps[|steps| - 1], pid, Watched(customer, shorter, pid));
    }
  }

  lemma FinishAnswers(customer: Customer, s: System, pid: nat, action: Action, k: H.Course)
    requires Inv(customer, s) && CanAct(customer, s, pid, action) && Finishes(s, pid, action)
             && Tracks(s.processes[pid].phase, k)
    ensures !s.processes[pid].phase.Idle?
    ensures var phase, t := s.processes[pid].phase, Act(customer, s, pid, action);
            Answered(t, phase.attempt, phase.request, Observe(customer, s, pid, action, k), t.processes[pid].cache)
  {
    hide Inv, CanAct, Tracks, Answered, Observe, Obtain, Run, Publish;
    A.ActorExists(customer, s, pid, action);
    BusyWhenFinishing(customer, s, pid, action);
    SaneFacts(customer, s, pid);
    match action
    case CommitOk => CommitAnswers(customer, s, pid, k);
    case PublishFails => FailureAnswers(customer, s, pid, k);
    case Execute(_, _) => ExecutionAnswers(customer, s, pid, action, k);
    case StrayAnswers(_, _, _) => ExecutionAnswers(customer, s, pid, action, k);
    case ExecuteFails(_) => ExecutionAnswers(customer, s, pid, action, k);
    case LoadFails => AdmissionAnswers(customer, s, pid, action, k);
    case ResolveFails => AdmissionAnswers(customer, s, pid, action, k);
    case Replay => AdmissionAnswers(customer, s, pid, action, k);
    case _ =>
  }

  /** Over every run, whenever a process answers a call, the reply and the cached state it
      leaves are those of `ActorHost.Host.Call` on the course of events the process saw:
      the code and the protocol do the same. And that course was true, so what holds of
      the code with truthful stores holds. */
  lemma EveryCallIsAHostCall(customer: Customer, steps: seq<Step>, pid: nat, action: Action)
    requires After(customer, steps).Some? && CanAct(customer, After(customer, steps).value, pid, action)
    requires Finishes(After(customer, steps).value, pid, action)
    ensures var s := After(customer, steps).value;
            var phase, t := s.processes[pid].phase, Act(customer, s, pid, action);
            var k := Observe(customer, s, pid, action, Watched(customer, steps, pid));
            && !phase.Idle?
            && Answered(t, phase.attempt, phase.request, k, t.processes[pid].cache)
            && Truth(t.ledger, phase.request, k)
  {
    hide After, Inv, Tracks, Truth, Answered, Observe, Act, CanAct, Watched, Finishes;
    var s := After(customer, steps).value;
    RunKeeps(customer, steps);
    RunFollows(customer, steps, pid);
    A.ActorExists(customer, s, pid, action);
    BusyWhenFinishing(customer, s, pid, action);
    FinishAnswers(customer, s, pid, action, Watched(customer, steps, pid));
    ActionIsTrue(customer, s, pid, action, Watched(customer, steps, pid));
  }

  lemma BusyWhenFinishing(customer: Customer, s: System, pid: nat, action: Action)
    requires CanAct(customer, s, pid, action) && Finishes(s, pid, action)
    ensures !s.processes[pid].phase.Idle? && !action.Begin?
  {}

  // ----- retries -------------------------------------------------------------------------------------------------

  /** The call is a method whose own commit was pending when it started. */
  predicate Retries(k: H.Course, request: Request) {
    && request.kind == Method
    && k.start.Some? && k.start.value.epoch == k.cap.epoch && k.start.value.pending.Some?
    && k.start.value.pending.value.snapshot.request == request.id
  }

  lemma RetryWaits(phase: Phase, k: H.Course)
    requires !phase.Idle? && Tracks(phase, k) && Retries(k, phase.request)
    ensures phase.Resolving? || (phase.Ready? && MustReplay(phase))
    ensures phase.Ready? ==>
              Replayed(phase.cached, phase.request.id) == Some(k.start.value.pending.value.snapshot.result)
  {}

  /** Over every run, a call that retries the method whose commit is pending never runs it
      again and uploads nothing, however often commit replies were lost. */
  lemma RetriesNeverRun(customer: Customer, steps: seq<Step>, pid: nat)
    requires After(customer, steps).Some? && pid in After(customer, steps).value.processes
    requires var phase := After(customer, steps).value.processes[pid].phase;
             !phase.Idle? && Retries(Watched(customer, steps, pid), phase.request)
    ensures var s := After(customer, steps).value;
            && NoUpload(s.puts, s.processes[pid].phase.attempt)
            && forall result, next :: !CanAct(customer, s, pid, Execute(result, next))
  {
    hide After, Inv, Watched, Truth, Tracks, CanAct, ProcessOk, LinkOk, ProcessTicketOk, UnansweredOk, NoUpload;
    RunFollows(customer, steps, pid);
    RunKeeps(customer, steps);
    var s := After(customer, steps).value;
    ProcessFacts(customer, s, pid);
    RetryWaits(s.processes[pid].phase, Watched(customer, steps, pid));
    WaitingCannotRun(customer, s, pid);
  }

  lemma WaitingCannotRun(customer: Customer, s: System, pid: nat)
    requires pid in s.processes
    requires s.processes[pid].phase.Resolving? || (s.processes[pid].phase.Ready? && MustReplay(s.processes[pid].phase))
    ensures forall result, next :: !CanAct(customer, s, pid, Execute(result, next))
  {}

  /** And when it is answered, it is told that the outcome is unknown, or the result of the
      pending snapshot. */
  lemma RetriesGetTheStoredResult(customer: Customer, steps: seq<Step>, pid: nat, action: Action, r: Reply)
    requires After(customer, steps).Some? && CanAct(customer, After(customer, steps).value, pid, action)
    requires var phase := After(customer, steps).value.processes[pid].phase;
             !phase.Idle? && Retries(Watched(customer, steps, pid), phase.request) && r.attempt == phase.attempt
    requires r in Act(customer, After(customer, steps).value, pid, action).replies
    ensures || r.OutcomeUnknown?
            || (r.Completed? && r.result == Watched(customer, steps, pid).start.value.pending.value.snapshot.result)
  {
    hide After, Inv, Watched, Truth, Tracks, Act, CanAct, ProcessOk, LinkOk, ProcessTicketOk, RunningOk;
    RunFollows(customer, steps, pid);
    RunKeeps(customer, steps);
    var s := After(customer, steps).value;
    A.ActorExists(customer, s, pid, action);
    ProcessFacts(customer, s, pid);
    RetryWaits(s.processes[pid].phase, Watched(customer, steps, pid));
    OnlyReplyOfARetry(customer, s, pid, action, r);
  }

  lemma OnlyReplyOfARetry(customer: Customer, s: System, pid: nat, action: Action, r: Reply)
    requires CanAct(customer, s, pid, action) && r in Act(customer, s, pid, action).replies && r !in s.replies
    requires s.processes[pid].phase.Resolving? || (s.processes[pid].phase.Ready? && MustReplay(s.processes[pid].phase))
    ensures || r.OutcomeUnknown?
            || (r.Completed? && s.processes[pid].phase.Ready?
                && Some(r.result) == Replayed(s.processes[pid].phase.cached, s.processes[pid].phase.request.id))
  {
    hide HostOnly, Begun, Ran, Promote, FromLoaded, StartUpload, Answered;
  }
}
