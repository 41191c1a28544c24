/**
 Every step of the commit protocol keeps the invariant. The first half says when a
 small update (one process, one call, one reply, one ticket, one upload, a longer
 ledger) is harmless; the second half takes every step apart into such updates.
 */
module ProtocolSteps {
  import opened Common
  import opened Protocol
  import opened ProtocolInvariant
  import P = Placement

  // ----- small updates ---------------------------------------------------------------------

  /** One process moves on. */
  lemma SetProcess(customer: Customer, s: System, pid: nat, p: Process)
    requires Inv(customer, s)
    requires pid in s.processes ==> p.host == s.processes[pid].host && p.session == s.processes[pid].session
    requires ProcessOk(customer, s.ledger, p) && LinkOk(s.calls, s.puts, pid, p.phase)
    requires ProcessTicketOk(s.holders, pid, p)
    requires RunningOk(s.attempts, s.puts, pid, p.phase) && UnansweredOk(s.replies, p.phase)
    ensures Inv(customer, WithProcess(s, pid, p))
  {
    hide HeadOk, HistoryOk, StoreOk, PutsOk, CapsOk, CallsOk, RepliesOk, SpentOk, CallTicketsOk;
    hide ProcessOk, LinkOk, ProcessTicketOk, RunningOk, UnansweredOk;
  }

  /** A reply leaves for an attempt nobody runs any more. */
  lemma AddReply(customer: Customer, s: System, r: Reply)
    requires Inv(customer, s) && ReplyOk(s.ledger, r)
    requires r.attempt < |s.attempts| && (r.Completed? ==> s.attempts[r.attempt].request == r.request)
    requires var pid := s.attempts[r.attempt].process; pid in s.processes ==> s.processes[pid].phase.Idle?
    requires r.Failed? || r.Unavailable? ==> NoUpload(s.puts, r.attempt)
    ensures Inv(customer, s.(replies := s.replies + {r}))
  {
    hide HeadOk, HistoryOk, StoreOk, PutsOk, CapsOk, CallsOk, ProcessesOk, SpentOk, CallTicketsOk, LinksOk, CallersOk,
         ProcessTicketsOk;
    hide ReplyOk, NoUpload;
  }

  lemma AddAttempt(customer: Customer, s: System, a: Attempt)
    requires Inv(customer, s)
    ensures Inv(customer, s.(attempts := s.attempts + [a]))
  {
    hide HeadOk, HistoryOk, StoreOk, PutsOk, CapsOk, CallsOk, ProcessesOk, SpentOk, CallTicketsOk, LinksOk, CallersOk,
         ProcessTicketsOk, RepliesOk;
    hide NoUpload, UnansweredOk;
  }

  /** A call is sent, or an existing one moves on. */
  lemma SetCall(customer: Customer, s: System, call: nat, k: Call)
    requires Inv(customer, s)
    requires call in s.calls ==> SameCall(k, s.calls[call])
    requires CallOk(s.ledger, k) && CallTicketOk(s.holders, call, k)
    requires k.process in s.processes && k.commit.owner == s.processes[k.process].host
             && k.commit.session == s.processes[k.process].session
    ensures Inv(customer, s.(calls := s.calls[call := k]))
  {
    hide HeadOk, HistoryOk, StoreOk, PutsOk, CapsOk, ProcessesOk, SpentOk, ProcessTicketsOk, RepliesOk, AttemptsOk;
    hide CallOk, CallTicketOk;
  }

  /** A name nobody can use any more, or a new one, gets its next holder. */
  lemma SetHolder(customer: Customer, s: System, name: string, holder: Holder)
    requires Inv(customer, s)
    requires name in s.holders ==> s.holders[name].InReply? && s.holders[name].call in s.calls
                                   && !s.calls[s.holders[name].call].stage.Granted?
    ensures Inv(customer, s.(holders := s.holders[name := holder]))
  {
    hide HeadOk, HistoryOk, StoreOk, PutsOk, CapsOk, CallsOk, ProcessesOk, LinksOk, CallersOk, RepliesOk, AttemptsOk;
  }

  /** The process may upload: it has executed and alone holds the name. */
  predicate MayUpload(s: System, name: string, pid: nat, put: Put, q: Process) {
    && pid in s.processes && Holds(s.holders, name, InCache(pid))
    && var p := s.processes[pid];
    && p.cache.None? && (p.phase.Executed? || p.phase.Preparing?) && p.phase.cached.nextWrite.None?
    && put.work.attempt == p.phase.attempt && put.work.request == p.phase.request
    && q == p.(phase := q.phase)
    && q.phase.Uploading? && q.phase.attempt == p.phase.attempt && q.phase.request == p.phase.request
    && q.phase.cached.nextWrite.None?
  }

  /** The process that alone holds a name spends it on its upload. */
  lemma SpendName(customer: Customer, s: System, name: string, pid: nat, put: Put, q: Process)
    requires Inv(customer, s) && MayUpload(s, name, pid, put, q) && PutOk(customer, s.ledger, put)
    requires ProcessOk(customer, s.ledger, q) && LinkOk(s.calls, s.puts[name := put], pid, q.phase)
    ensures name !in s.puts
    ensures Inv(customer, WithProcess(SendPut(s, name, put), pid, q))
  {
    hide HeadOk, HistoryOk, StoreOk, PutsOk, CapsOk, CallsOk, ProcessesOk, LinksOk, RepliesOk;
    hide SpentOk, CallTicketsOk, ProcessTicketsOk, AttemptsOk, PutOk, ProcessOk, LinkOk;
    SpendTickets(s, name, pid, put, q);
    SpendAttempt(s, name, pid, put, q);
    SpendPut(customer, s, name, put, pid, q);
  }

  lemma SpendPut(customer: Customer, s: System, name: string, put: Put, pid: nat, q: Process)
    requires name !in s.puts && PutOk(customer, s.ledger, put)
    requires StoreOk(s.ledger.store, s.puts) && PutsOk(customer, s.ledger, s.puts)
             && LinksOk(s.calls, s.puts, s.processes)
    requires ProcessesOk(customer, s.ledger, s.processes)
    requires ProcessOk(customer, s.ledger, q) && LinkOk(s.calls, s.puts[name := put], pid, q.phase)
    ensures var puts, processes := s.puts[name := put], s.processes[pid := q];
            && StoreOk(s.ledger.store, puts) && PutsOk(customer, s.ledger, puts) && LinksOk(s.calls, puts, processes)
            && ProcessesOk(customer, s.ledger, processes)
  {
    hide PutOk, ProcessOk;
    forall r | r in s.processes && r != pid ensures LinkOk(s.calls, s.puts[name := put], r, s.processes[r].phase) {
      assert LinkOk(s.calls, s.puts, r, s.processes[r].phase);
    }
  }

  lemma SpendTickets(s: System, name: string, pid: nat, put: Put, q: Process)
    requires SpentOk(s.holders, s.puts) && CallTicketsOk(s.holders, s.calls) && ProcessTicketsOk(s.holders, s.processes)
    requires MayUpload(s, name, pid, put, q)
    ensures name !in s.puts
    ensures var t := WithProcess(SendPut(s, name, put), pid, q);
            SpentOk(t.holders, t.puts) && CallTicketsOk(t.holders, t.calls) && ProcessTicketsOk(t.holders, t.processes)
  {}

  lemma SpendAttempt(s: System, name: string, pid: nat, put: Put, q: Process)
    requires AttemptsOk(s.attempts, s.puts, s.processes, s.replies) && MayUpload(s, name, pid, put, q)
    ensures AttemptsOk(s.attempts, s.puts[name := put], s.processes[pid := q], s.replies)
  {
    assert RunningOk(s.attempts, s.puts, pid, s.processes[pid].phase);
    assert UnansweredOk(s.replies, s.processes[pid].phase);
    forall r | r in s.processes && r != pid
      ensures RunningOk(s.attempts, s.puts[name := put], r, s.processes[r].phase)
    {
      assert RunningOk(s.attempts, s.puts, r, s.processes[r].phase);
    }
  }

  /** The ledger grows into another well-formed ledger. */
  lemma SetLedger(customer: Customer, s: System, m: Ledger)
    requires Inv(customer, s) && Grows(s.ledger, m)
    requires HeadOk(m) && HistoryOk(m) && StoreOk(m.store, s.puts)
    ensures Inv(customer, s.(ledger := m))
  {
    GrowthKeeps(customer, s, m);
    hide HeadOk, HistoryOk, StoreOk, PutsOk, CapsOk, CallsOk, ProcessesOk, LinksOk, CallersOk, RepliesOk, AttemptsOk,
         Grows;
    hide SpentOk, CallTicketsOk, ProcessTicketsOk;
  }

  // ----- reading the invariant ---------------------------------------------------------------

  lemma ProcessFacts(customer: Customer, s: System, pid: nat)
    requires Inv(customer, s) && pid in s.processes
    ensures var p := s.processes[pid];
            && ProcessOk(customer, s.ledger, p) && LinkOk(s.calls, s.puts, pid, p.phase)
            && ProcessTicketOk(s.holders, pid, p)
            && RunningOk(s.attempts, s.puts, pid, p.phase) && UnansweredOk(s.replies, p.phase)
  {
    hide HeadOk, HistoryOk, StoreOk, PutsOk, CapsOk, CallsOk, RepliesOk, SpentOk, CallTicketsOk;
    hide ProcessOk, LinkOk, ProcessTicketOk, RunningOk, UnansweredOk;
  }

  lemma CallFacts(customer: Customer, s: System, call: nat)
    requires Inv(customer, s) && call in s.calls
    ensures var k := s.calls[call];
            && CallOk(s.ledger, k) && CallTicketOk(s.holders, call, k)
            && k.process in s.processes
            && k.commit.owner == s.processes[k.process].host && k.commit.session == s.processes[k.process].session
  {
    hide HeadOk, HistoryOk, StoreOk, PutsOk, CapsOk, RepliesOk, SpentOk, ProcessesOk, LinksOk, ProcessTicketsOk,
         AttemptsOk;
    hide CallOk, CallTicketOk;
  }

  lemma LedgerFacts(customer: Customer, s: System)
    requires Inv(customer, s)
    ensures HeadOk(s.ledger) && HistoryOk(s.ledger) && StoreOk(s.ledger.store, s.puts)
    ensures PutsOk(customer, s.ledger, s.puts) && CapsOk(s.ledger, s.caps)
  {
    hide HeadOk, HistoryOk, StoreOk, PutsOk, CapsOk, CallsOk, ProcessesOk, LinksOk, CallersOk, RepliesOk, AttemptsOk;
    hide SpentOk, CallTicketsOk, ProcessTicketsOk;
  }

  // ----- the stores and the control plane -------------------------------------------------------

  function ClaimedLedger(l: Ledger, owner: string, answer: P.Claimed): Ledger {
    l.(row := P.AfterClaim(l.row, answer), owners := if answer.Acquired? then l.owners + [owner] else l.owners)
  }

  lemma ClaimGrows(l: Ledger, expected: Option<P.Row>, owner: string, region: string)
    requires HeadOk(l) && HistoryOk(l)
    ensures var m := ClaimedLedger(l, owner, P.PostgresClaim(l.row, expected, owner, region));
            Grows(l, m) && HeadOk(m) && HistoryOk(m)
  {
    var m := ClaimedLedger(l, owner, P.PostgresClaim(l.row, expected, owner, region));
    SnapshotsStay(l, m, |l.committed|);
  }

  lemma ClaimKeeps(customer: Customer, s: System, expected: Option<P.Row>, owner: string, region: string)
    requires Inv(customer, s)
    ensures Inv(customer, ApplyClaim(s, expected, owner, region))
  {
    hide Inv, HeadOk, HistoryOk, Grows, PutsOk, CapsOk, StoreOk;
    LedgerFacts(customer, s);
    ClaimGrows(s.ledger, expected, owner, region);
    SetLedger(customer, s, ClaimedLedger(s.ledger, owner, P.PostgresClaim(s.ledger.row, expected, owner, region)));
  }

  lemma IssueCapabilityKeeps(customer: Customer, s: System)
    requires Inv(customer, s) && s.ledger.row.Some?
    ensures Inv(customer, s.(caps := s.caps + {CapabilityOf(s.ledger.row.value)}))
  {
    assert CapOk(s.ledger, CapabilityOf(s.ledger.row.value)) by { LedgerFacts(customer, s); }
    hide HeadOk, HistoryOk, StoreOk, PutsOk, CallsOk, ProcessesOk, LinksOk, CallersOk, RepliesOk, AttemptsOk;
    hide SpentOk, CallTicketsOk, ProcessTicketsOk, CapOk;
  }

  lemma PutLandsKeeps(customer: Customer, s: System, name: string)
    requires Inv(customer, s) && name in s.puts && name !in s.ledger.store
    ensures Inv(customer, s.(ledger := s.ledger.(store := s.ledger.store[name := s.puts[name].snapshot])))
  {
    hide Inv, PutsOk, CapsOk;
    LedgerFacts(customer, s);
    var m := s.ledger.(store := s.ledger.store[name := s.puts[name].snapshot]);
    SnapshotsStay(s.ledger, m, |s.ledger.committed|);
    SetLedger(customer, s, m);
  }

  /** A call moves on without an answer. */
  lemma StageKeeps(customer: Customer, s: System, call: nat, stage: Stage)
    requires Inv(customer, s) && call in s.calls
    requires !stage.Granted? && (stage.Checked? || stage.Missed? ==> s.calls[call].commit.expected < I64_MAX)
    ensures Inv(customer, WithStage(s, call, stage))
  {
    hide Inv;
    CallFacts(customer, s, call);
    SetCall(customer, s, call, s.calls[call].(stage := stage));
  }

  /** A call is answered, possibly with a new ticket. */
  lemma GrantKeeps(customer: Customer, s: System, call: nat, version: nat, minted: Option<string>)
    requires Inv(customer, s) && call in s.calls && FreshName(s, minted)
    requires s.calls[call].CommitCall? ==>
               var c := s.calls[call].commit;
               && version == c.expected + 1 <= |s.ledger.committed| && s.ledger.committed[c.expected] == c.objectName
               && c.expected < I64_MAX
    ensures Inv(customer, Grant(s, call, version, minted))
  {
    hide Inv;
    CallFacts(customer, s, call);
    var t := s;
    if minted.Some? {
      SetHolder(customer, s, minted.value, InReply(call));
      t := s.(holders := s.holders[minted.value := InReply(call)]);
    }
    SetCall(customer, t, call, Grant(s, call, version, minted).calls[call]);
    assert Grant(s, call, version, minted) == t.(calls := t.calls[call := Grant(s, call, version, minted).calls[call]]);
  }

  lemma TryCommitKeeps(customer: Customer, s: System, call: nat, minted: Option<string>)
    requires Inv(customer, s) && CanHappen(s, TryCommit(call, minted))
    ensures Inv(customer, ApplyTryCommit(s, call, minted))
  {
    hide Inv;
    var c := s.calls[call].commit;
    CallFacts(customer, s, call);
    if Wins(s, c) {
      AdvanceKeeps(customer, s, call);
      GrantKeeps(customer, Advanced(s, c), call, c.expected + 1, minted);
    } else {
      StageKeeps(customer, s, call, Missed);
    }
  }

  /** The head advances to the snapshot a matching commit call names. */
  lemma AdvanceGrows(l: Ledger, k: Call)
    requires HeadOk(l) && HistoryOk(l) && k.CommitCall? && CallOk(l, k)
    requires l.row.Some? && P.Matches(l.row.value, k.commit)
    ensures var m := l.(row := Some(P.Advance(l.row.value, k.commit)),
                        committed := l.committed + [k.commit.objectName]);
            Grows(l, m) && HeadOk(m) && HistoryOk(m) && |m.committed| == k.commit.expected + 1
  {}

  lemma AdvanceKeeps(customer: Customer, s: System, call: nat)
    requires Inv(customer, s) && call in s.calls && s.calls[call].CommitCall?
    requires s.ledger.row.Some? && P.Matches(s.ledger.row.value, s.calls[call].commit)
    ensures var c := s.calls[call].commit;
            var t := Advanced(s, c);
            && Inv(customer, t) && |t.ledger.committed| == c.expected + 1
            && t.ledger.committed[c.expected] == c.objectName
  {
    hide Inv, HeadOk, HistoryOk, Grows, PutsOk, CapsOk, StoreOk, CallOk;
    LedgerFacts(customer, s);
    CallFacts(customer, s, call);
    AdvanceGrows(s.ledger, s.calls[call]);
    SetLedger(customer, s, Advanced(s, s.calls[call].commit).ledger);
  }

  lemma ReadBackKeeps(customer: Customer, s: System, call: nat, minted: Option<string>)
    requires Inv(customer, s) && CanHappen(s, ReadBack(call, minted))
    ensures Inv(customer, ApplyReadBack(s, call, minted))
  {
    hide Inv, HistoryOk, StoreOk, PutsOk, CapsOk;
    var c := s.calls[call].commit;
    CallFacts(customer, s, call);
    LedgerFacts(customer, s);
    if s.ledger.row.Some? && P.IsReplayed(s.ledger.row.value, c) {
      GrantKeeps(customer, s, call, s.ledger.row.value.version, minted);
    } else {
      StageKeeps(customer, s, call, Closed);
    }
  }

  lemma IssueTicketKeeps(customer: Customer, s: System, call: nat, minted: Option<string>)
    requires Inv(customer, s) && call in s.calls && s.calls[call].PrepareCall? && FreshName(s, minted)
    ensures Inv(customer, ApplyIssueTicket(s, call, minted))
  {
    hide Inv;
    var k := s.calls[call];
    if s.ledger.row.Some? && P.Matches(s.ledger.row.value, k.commit) && s.ledger.row.value.region == k.region {
      GrantKeeps(customer, s, call, k.commit.expected, minted);
    } else {
      StageKeeps(customer, s, call, Closed);
    }
  }

  // ----- one admitted call of a host process --------------------------------------------------------

  /** The executor changes its instance or what it has under way. */
  lemma InstanceKeeps(customer: Customer, s: System, pid: nat, instance: Option<Value>, strays: seq<Request>)
    requires Inv(customer, s) && pid in s.processes
    ensures Inv(customer, WithProcess(s, pid, s.processes[pid].(instance := instance, strays := strays)))
  {
    hide Inv;
    ProcessFacts(customer, s, pid);
    SetProcess(customer, s, pid, s.processes[pid].(instance := instance, strays := strays));
  }

  /** The call ends with a reply and puts its cached state back. */
  lemma FinishKeeps(customer: Customer, s: System, pid: nat, c: Cached, reply: Reply)
    requires Inv(customer, s) && pid in s.processes && !s.processes[pid].phase.Idle?
    requires CachedOk(s.ledger, c) && CacheTicketOk(s.holders, pid, c)
    requires ReplyOk(s.ledger, reply) && reply.attempt == s.processes[pid].phase.attempt
    requires reply.Failed? || reply.Unavailable? ==> s.processes[pid].phase.Ready?
    requires reply.Completed? ==> reply.request == s.processes[pid].phase.request
    ensures Inv(customer, Finish(s, pid, c, reply))
  {
    hide Inv;
    ProcessFacts(customer, s, pid);
    var p := s.processes[pid].(phase := Idle, cache := Some(c));
    SetProcess(customer, s, pid, p);
    AddReply(customer, WithProcess(s, pid, p), reply);
  }

  lemma LoadFailsKeeps(customer: Customer, s: System, pid: nat)
    requires Inv(customer, s) && pid in s.processes && !s.processes[pid].phase.Idle? && s.processes[pid].phase.Loading?
    ensures Inv(customer, WithPhase(s, pid,
                                    Idle).(replies := s.replies + {Unavailable(s.processes[pid].phase.attempt)}))
  {
    hide Inv;
    ProcessFacts(customer, s, pid);
    var t := WithPhase(s, pid, Idle);
    SetProcess(customer, s, pid, s.processes[pid].(phase := Idle));
    AddReply(customer, t, Unavailable(s.processes[pid].phase.attempt));
  }

  /** The cached state a call starts with is good. */
  lemma BegunOk(customer: Customer, l: Ledger, p: Process, attempt: nat, request: Request, cap: Capability, call: nat)
    requires HistoryOk(l) && ProcessOk(customer, l, p) && p.phase.Idle? && CapOk(l, cap)
    ensures var q := Begun(p, attempt, request, cap, call);
            && ProcessOk(customer, l, q)
            && (q.phase.Resolving? ==> CallOk(l, CommitCall(0, CommitOf(q, q.phase.cached), Sent)))
  {}

  lemma BeginKeeps(customer: Customer, s: System, pid: nat, request: Request, cap: Capability, call: nat)
    requires Inv(customer, s) && CanAct(customer, s, pid, Begin(request, cap, call))
    ensures Inv(customer, ApplyBegin(s, pid, request, cap, call))
  {
    hide Inv, HeadOk, HistoryOk, StoreOk, PutsOk, ReplyOk, ProcessOk, HostOnly;
    ProcessFacts(customer, s, pid);
    LedgerFacts(customer, s);
    var q := Begun(s.processes[pid], |s.attempts|, request, cap, call);
    BegunOk(customer, s.ledger, s.processes[pid], |s.attempts|, request, cap, call);
    NewAttempt(customer, s, pid);
    AddAttempt(customer, s, Attempt(pid, request));
    var t := s.(attempts := s.attempts + [Attempt(pid, request)]);
    if q.phase.Resolving? {
      var k := CommitCall(pid, CommitOf(q, q.phase.cached), Sent);
      SetCall(customer, t, call, k);
      t := t.(calls := s.calls[call := k]);
    }
    SetProcess(customer, t, pid, q);
  }

  /** A number not yet given out has no upload and no reply. */
  lemma NewAttempt(customer: Customer, s: System, pid: nat)
    requires Inv(customer, s)
    ensures NoUpload(s.puts, |s.attempts|) && forall r :: r in s.replies ==> r.attempt != |s.attempts|
  {
    hide HeadOk, HistoryOk, StoreOk, PutsOk, CapsOk, CallsOk, ProcessesOk, LinksOk, CallersOk, RepliesOk;
    hide SpentOk, CallTicketsOk, ProcessTicketsOk, RunningOk, UnansweredOk;
  }

  lemma LoadKeeps(customer: Customer, s: System, pid: nat)
    requires Inv(customer, s) && CanAct(customer, s, pid, Load)
    ensures Inv(customer, Act(customer, s, pid, Load))
  {
    hide Inv, HeadOk, StoreOk, PutsOk, CapsOk;
    ProcessFacts(customer, s, pid);
    LedgerFacts(customer, s);
    var phase := s.processes[pid].phase;
    var c := FromLoaded(phase.cap.epoch, phase.cap.version, s.ledger.store[phase.cap.objectName.value]);
    assert CachedOk(s.ledger, c);
    SetProcess(customer, s, pid, s.processes[pid].(phase := Ready(phase.attempt, phase.request, c)));
  }

  /** The answered call is closed and its ticket, if any, is now the host's. */
  lemma ConsumeKeeps(customer: Customer, s: System, call: nat, pid: nat)
    requires Inv(customer, s) && pid in s.processes && call in s.calls && s.calls[call].stage.Granted?
    ensures Inv(customer, Consume(s, call, pid))
    ensures var ticket := s.calls[call].stage.ticket;
            ticket.Some? ==> Holds(Consume(s, call, pid).holders, ticket.value.objectName, InCache(pid))
  {
    hide Inv;
    CallFacts(customer, s, call);
    var ticket := s.calls[call].stage.ticket;
    var closed := WithStage(s, call, Closed);
    StageKeeps(customer, s, call, Closed);
    if ticket.Some? {
      SetHolder(customer, closed, ticket.value.objectName, InCache(pid));
    }
  }

  /** The confirmed pending snapshot is the committed one, so its promotion is good. */
  lemma PromotedOk(l: Ledger, calls: map<nat, Call>, call: nat, pid: nat, c: Cached, nextWrite: Option<Ticket>)
    requires HistoryOk(l) && CachedOk(l, c) && CallFor(calls, call, pid, c)
    requires CallOk(l, calls[call]) && calls[call].stage.Granted?
    ensures CachedOk(l, Promote(c, nextWrite))
  {
    assert SnapshotAt(l, c.version + 1) == Some(c.pending.value.snapshot);
  }

  lemma ResolveOkKeeps(customer: Customer, s: System, pid: nat)
    requires Inv(customer, s) && CanAct(customer, s, pid, ResolveOk)
    ensures Inv(customer, Act(customer, s, pid, ResolveOk))
  {
    hide Inv, HeadOk, HistoryOk, StoreOk, PutsOk, CapsOk;
    ProcessFacts(customer, s, pid);
    LedgerFacts(customer, s);
    var phase := s.processes[pid].phase;
    CallFacts(customer, s, phase.call);
    var nextWrite := s.calls[phase.call].stage.ticket;
    PromotedOk(s.ledger, s.calls, phase.call, pid, phase.cached, nextWrite);
    ConsumeKeeps(customer, s, phase.call, pid);
    SetProcess(customer, Consume(s, phase.call, pid), pid,
               s.processes[pid].(phase := Ready(phase.attempt, phase.request, Promote(phase.cached, nextWrite))));
  }

  lemma CommitOkKeeps(customer: Customer, s: System, pid: nat)
    requires Inv(customer, s) && CanAct(customer, s, pid, CommitOk)
    ensures Inv(customer, Act(customer, s, pid, CommitOk))
  {
    hide Inv, HeadOk, HistoryOk, StoreOk, PutsOk, CapsOk;
    ProcessFacts(customer, s, pid);
    LedgerFacts(customer, s);
    var phase := s.processes[pid].phase;
    CallFacts(customer, s, phase.call);
    var c := Promote(phase.cached, s.calls[phase.call].stage.ticket);
    PromotedOk(s.ledger, s.calls, phase.call, pid, phase.cached, c.nextWrite);
    ConsumeKeeps(customer, s, phase.call, pid);
    var t := Consume(s, phase.call, pid);
    FinishKeeps(customer, t, pid, c,
                Completed(phase.attempt, phase.request, c.version, phase.work.result, c.state, ByCommit));
  }

  lemma ResolveFailsKeeps(customer: Customer, s: System, pid: nat)
    requires Inv(customer, s) && CanAct(customer, s, pid, ResolveFails)
    ensures Inv(customer, Act(customer, s, pid, ResolveFails))
  {
    hide Inv;
    ProcessFacts(customer, s, pid);
    var phase := s.processes[pid].phase;
    FinishKeeps(customer, s, pid, phase.cached, OutcomeUnknown(phase.attempt));
  }

  lemma ReplayKeeps(customer: Customer, s: System, pid: nat)
    requires Inv(customer, s) && CanAct(customer, s, pid, Replay)
    ensures Inv(customer, Act(customer, s, pid, Replay))
  {
    hide Inv, HeadOk, StoreOk, PutsOk, CapsOk;
    ProcessFacts(customer, s, pid);
    LedgerFacts(customer, s);
    var phase := s.processes[pid].phase;
    FinishKeeps(customer, s, pid, phase.cached,
                Completed(phase.attempt, phase.request, phase.cached.version,
                          Replayed(phase.cached, phase.request.id).value, phase.cached.state, ByReplay));
  }

  /** A call gets an answer, its own or a stray's. */
  lemma ExecuteKeeps(customer: Customer, s: System, pid: nat, ran: Request, strays: seq<Request>, result: Value,
                     next: Value)
    requires Inv(customer, s) && pid in s.processes && s.processes[pid].phase.Ready?
             && !MustReplay(s.processes[pid].phase)
    requires customer(ExecutionBase(s.processes[pid], s.processes[pid].phase.cached.state), ran) == Done(result, next)
    ensures Inv(customer, ApplyExecute(s, pid, Ran(s.processes[pid], ran, result, next).(strays := strays), result,
                                       next))
  {
    hide Inv, HeadOk, StoreOk, PutsOk, CapsOk;
    ProcessFacts(customer, s, pid);
    LedgerFacts(customer, s);
    var phase := s.processes[pid].phase;
    var q := Ran(s.processes[pid], ran, result, next).(strays := strays);
    SetProcess(customer, s, pid, q);
    if phase.cached.state == Some(next) {
      AddReply(customer, WithProcess(s, pid, q),
               Completed(phase.attempt, phase.request, phase.cached.version, result, Some(next), ByNoChange));
    }
  }

  lemma ExecuteFailsKeeps(customer: Customer, s: System, pid: nat, keepInstance: bool)
    requires Inv(customer, s) && CanAct(customer, s, pid, ExecuteFails(keepInstance))
    ensures Inv(customer, Act(customer, s, pid, ExecuteFails(keepInstance)))
  {
    hide Inv;
    ProcessFacts(customer, s, pid);
    var p := s.processes[pid];
    var q := if keepInstance then p else Evicted(p);
    InstanceKeeps(customer, s, pid, q.instance, q.strays);
    FinishKeeps(customer, WithProcess(s, pid, q), pid, p.phase.cached, Failed(p.phase.attempt));
  }

  lemma PublishFailsKeeps(customer: Customer, s: System, pid: nat)
    requires Inv(customer, s) && CanAct(customer, s, pid, PublishFails)
    ensures Inv(customer, Act(customer, s, pid, PublishFails))
  {
    hide Inv;
    ProcessFacts(customer, s, pid);
    var p := s.processes[pid];
    InstanceKeeps(customer, s, pid, None, []);
    var c := p.phase.cached;
    FinishKeeps(customer, WithProcess(s, pid, Evicted(p)), pid,
                if p.phase.Executed? && c.version < U64_MAX then c.(nextWrite := None) else c,
                OutcomeUnknown(p.phase.attempt));
  }

  lemma CancelKeeps(customer: Customer, s: System, pid: nat, sent: bool)
    requires Inv(customer, s) && CanAct(customer, s, pid, Cancel(sent))
    ensures Inv(customer, Act(customer, s, pid, Cancel(sent)))
  {
    hide Inv;
    ProcessFacts(customer, s, pid);
    SetProcess(customer, s, pid, Cancelled(s.processes[pid], sent));
  }

  /** The upload of an executed call is what its host held, run once. */
  lemma MadePutOk(customer: Customer, l: Ledger, c: Cached, work: Work)
    requires HistoryOk(l) && CachedOk(l, c) && work.held == c.state && Returned(customer, work)
    requires work.request.kind == Method ==> c.lastRequest != Some(work.request.id)
    ensures PutOk(customer, l, Put(SnapshotOf(c, work), work))
  {}

  lemma StartUploadKeeps(customer: Customer, s: System, pid: nat, ticket: Ticket)
    requires Inv(customer, s) && pid in s.processes && Holds(s.holders, ticket.objectName, InCache(pid))
    requires var phase := s.processes[pid].phase;
             && (phase.Executed? || phase.Preparing?) && phase.cached.nextWrite.None?
             && ticket.version == phase.cached.version + 1
    ensures var phase := s.processes[pid].phase;
            Inv(customer, StartUpload(s, pid, ticket, phase.cached, phase.work))
  {
    hide Inv, HeadOk, StoreOk, PutsOk, CapsOk;
    ProcessFacts(customer, s, pid);
    LedgerFacts(customer, s);
    var p := s.processes[pid];
    var c, work := p.phase.cached, p.phase.work;
    var put := Put(SnapshotOf(c, work), work);
    MadePutOk(customer, s.ledger, c, work);
    var q := p.(phase := Uploading(work.attempt, work.request, c, work, put.snapshot, ticket));
    SpendName(customer, s, ticket.objectName, pid, put, q);
  }

  lemma UseTicketKeeps(customer: Customer, s: System, pid: nat)
    requires Inv(customer, s) && CanAct(customer, s, pid, UseTicket)
    ensures Inv(customer, Act(customer, s, pid, UseTicket))
  {
    hide Inv;
    ProcessFacts(customer, s, pid);
    var p := s.processes[pid];
    var q := p.(phase := Executed(p.phase.attempt, p.phase.request, p.phase.cached.(nextWrite := None), p.phase.work));
    SetProcess(customer, s, pid, q);
    var t := WithProcess(s, pid, q);
    var ticket := p.phase.cached.nextWrite.value;
    StartUploadKeeps(customer, t, pid, ticket);
    var last := q.(phase := Uploading(p.phase.work.attempt, p.phase.work.request, q.phase.cached, p.phase.work,
                                      SnapshotOf(q.phase.cached, p.phase.work), ticket));
    assert t.processes[pid := last] == s.processes[pid := last];
  }

  lemma AskTicketKeeps(customer: Customer, s: System, pid: nat, call: nat)
    requires Inv(customer, s) && CanAct(customer, s, pid, AskTicket(call))
    ensures Inv(customer, Act(customer, s, pid, AskTicket(call)))
  {
    hide Inv;
    ProcessFacts(customer, s, pid);
    var p := s.processes[pid];
    var c := p.phase.cached.(nextWrite := None);
    var k := PrepareCall(pid, P.Commit(p.host, p.session, c.epoch, c.version, "", p.phase.request.id), p.region, Sent);
    SetCall(customer, s, call, k);
    var t := s.(calls := s.calls[call := k]);
    SetProcess(customer, t, pid,
               p.(phase := Preparing(p.phase.attempt, p.phase.request, c, p.phase.work, call)));
  }

  lemma TicketArrivesKeeps(customer: Customer, s: System, pid: nat)
    requires Inv(customer, s) && CanAct(customer, s, pid, TicketArrives)
    ensures Inv(customer, Act(customer, s, pid, TicketArrives))
  {
    hide Inv;
    ProcessFacts(customer, s, pid);
    var phase := s.processes[pid].phase;
    ConsumeKeeps(customer, s, phase.call, pid);
    StartUploadKeeps(customer, Consume(s, phase.call, pid), pid, s.calls[phase.call].stage.ticket.value);
  }

  /** A stored upload becomes the pending commit, and its commit call is in order. */
  lemma UploadedOk(customer: Customer, l: Ledger, puts: map<string, Put>, pid: nat, p: Process)
    requires p.phase.Uploading? && p.phase.ticket.objectName in l.store
    requires StoreOk(l.store, puts)
    requires CachedOk(l, p.phase.cached) && LinkOk(map[], puts, pid, p.phase) && WorkOk(customer, p.phase)
    ensures l.store[p.phase.ticket.objectName] == p.phase.snapshot
    ensures var c := p.phase.cached.(pending := Some(Pending(p.phase.snapshot, p.phase.ticket)));
            CachedOk(l, c) && CallOk(l, CommitCall(pid, CommitOf(p, c), Sent))
  {}

  lemma UploadDoneKeeps(customer: Customer, s: System, pid: nat, call: nat)
    requires Inv(customer, s) && CanAct(customer, s, pid, UploadDone(call))
    ensures Inv(customer, Act(customer, s, pid, UploadDone(call)))
  {
    hide Inv, HeadOk, HistoryOk, CapsOk, StoreOk, PutsOk, CachedOk, CallOk, ReplyOk, CapOk;
    ProcessFacts(customer, s, pid);
    LedgerFacts(customer, s);
    var p := s.processes[pid];
    UploadedOk(customer, s.ledger, s.puts, pid, p);
    var c := p.phase.cached.(pending := Some(Pending(p.phase.snapshot, p.phase.ticket)));
    var k := CommitCall(pid, CommitOf(p, c), Sent);
    SetCall(customer, s, call, k);
    var t := s.(calls := s.calls[call := k]);
    SetProcess(customer, t, pid, p.(phase := Committing(p.phase.attempt, p.phase.request, c, p.phase.work, call)));
  }

  // ----- every step ------------------------------------------------------------------------------------

  lemma EventKeeps(customer: Customer, s: System, event: Event)
    requires Inv(customer, s) && CanHappen(s, event)
    ensures Inv(customer, Happen(s, event))
  {
    hide HeadOk, HistoryOk, StoreOk, PutsOk, CapsOk, CallsOk, ProcessesOk, LinksOk, CallersOk, RepliesOk;
    hide SpentOk, CallTicketsOk, ProcessTicketsOk, AttemptsOk;
    match event
    case Tick(_) =>
    case RegisterLease(_) =>
    case UnregisterLease(_, _) =>
    case Spawn(pid, host, session, region) =>
      SetProcess(customer, s, pid, NewProcess(host, session, region));
    case CheckLease(call) =>
      var c := s.calls[call].commit;
      StageKeeps(customer, s, call, if Leased(s, c) && c.expected < I64_MAX && c.epoch <= I64_MAX then Checked
        else Closed);
    case TryCommit(call, minted) => TryCommitKeeps(customer, s, call, minted);
    case ReadBack(call, minted) => ReadBackKeeps(customer, s, call, minted);
    case IssueTicket(call, minted) => IssueTicketKeeps(customer, s, call, minted);
    case Claim(expected, owner, region) => ClaimKeeps(customer, s, expected, owner, region);
    case IssueCapability => IssueCapabilityKeeps(customer, s);
    case PutLands(name) =>
      if name !in s.ledger.store {
        PutLandsKeeps(customer, s, name);
      }
  }

  lemma ActionKeeps(customer: Customer, s: System, pid: nat, action: Action)
    requires Inv(customer, s) && CanAct(customer, s, pid, action)
    ensures Inv(customer, Act(customer, s, pid, action))
  {
    hide Inv;
    match action
    case Begin(request, cap, call) => BeginKeeps(customer, s, pid, request, cap, call);
    case Load => LoadKeeps(customer, s, pid);
    case LoadFails => LoadFailsKeeps(customer, s, pid);
    case ResolveOk => ResolveOkKeeps(customer, s, pid);
    case ResolveFails => ResolveFailsKeeps(customer, s, pid);
    case Replay => ReplayKeeps(customer, s, pid);
    case Execute(result, next) =>
      ExecuteKeeps(customer, s, pid, s.processes[pid].phase.request, s.processes[pid].strays, result, next);
    case ExecuteFails(keepInstance) => ExecuteFailsKeeps(customer, s, pid, keepInstance);
    case UseTicket => UseTicketKeeps(customer, s, pid);
    case AskTicket(call) => AskTicketKeeps(customer, s, pid, call);
    case TicketArrives => TicketArrivesKeeps(customer, s, pid);
    case UploadDone(call) => UploadDoneKeeps(customer, s, pid, call);
    case CommitOk => CommitOkKeeps(customer, s, pid);
    case PublishFails => PublishFailsKeeps(customer, s, pid);
    case InstanceEvicted => InstanceKeeps(customer, s, pid, None, []);
    case Cancel(sent) => CancelKeeps(customer, s, pid, sent);
    case StrayReturns(i, _, next) => InstanceKeeps(customer, s, pid, Some(next), Without(s.processes[pid].strays, i));
    case StrayAnswers(i, result, next) =>
      var p := s.processes[pid];
      ExecuteKeeps(customer, s, pid, p.strays[i], Without(p.strays, i) + [p.phase.request], result, next);
  }

  /** Every step keeps the invariant. */
  lemma StepKeeps(customer: Customer, s: System, step: Step)
    requires Inv(customer, s) && Enabled(customer, s, step)
    ensures Inv(customer, Apply(customer, s, step))
  {
    hide Inv, CanAct, CanHappen, Act, Happen;
    match step
    case World(event) => EventKeeps(customer, s, event);
    case Host(pid, action) => ActionKeeps(customer, s, pid, action);
  }

  /** Every reachable state satisfies the invariant. */
  lemma {:induction false} RunKeeps(customer: Customer, steps: seq<Step>)
    requires After(customer, steps).Some?
    ensures Inv(customer, After(customer, steps).value)
  {
    if steps != [] {
      RunKeeps(customer, steps[..|steps| - 1]);
      StepKeeps(customer, After(customer, steps[..|steps| - 1]).value, steps[|steps| - 1]);
    }
  }
}
