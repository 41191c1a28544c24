/**
 The pool of persistent provider processes. A caller leases a process, writes one
 command line and reads one reply line, and may be cancelled at any await; the peer
 answers each line of its input, however it is cut into chunks, with one line.
 */
module ProviderPool {
  import opened Common
  import C = ProviderCommands

  const MAX_PROCESSES: nat := 2

  /** A caller's command in a pipe, perhaps cut off by cancellation. */
  datatype Line = Line(caller: nat, complete: bool)

  /** `to` and `from` are the process's unread input and output; `lessee` is the caller
      that holds the process, if any. */
  datatype Process = Process(busy: bool, to: seq<Line>, from: seq<Line>, lessee: Option<nat>)

  datatype Pool = Pool(processes: map<nat, Process>, nextProcess: nat, nextCaller: nat, delivered: set<(nat, Line)>)

  const START: Pool := Pool(map[], 0, 0, {})

  datatype Step =
    | Create                          // `pool.get` starts a process for a new caller
    | Reuse(pid: nat)                 // `pool.get` recycles one for a new caller
    | Write(pid: nat)                 // the command is written
    | WritePart(pid: nat)             // cancelled or failed in the middle of writing
    | Answer(pid: nat)                // the provider reads a command and writes its reply
    | Read(pid: nat, decodes: bool)   // the caller reads a reply line
    | ReadPart(pid: nat)              // part of a reply is read and no more of it arrives
    | Release(pid: nat)               // the lease drops: finished, failed or cancelled
    | Exit(pid: nat)                  // the process ends by itself

  predicate Leased(s: Pool, pid: nat) {
    pid in s.processes && s.processes[pid].lessee.Some?
  }

  predicate Enabled(s: Pool, step: Step) {
    match step
    case Create => |s.processes| < MAX_PROCESSES
    case Reuse(pid) => pid in s.processes && s.processes[pid].lessee.None? && !s.processes[pid].busy
    case Write(pid) => Leased(s, pid) && !s.processes[pid].busy
    case WritePart(pid) => Leased(s, pid) && !s.processes[pid].busy
    case Answer(pid) => pid in s.processes && s.processes[pid].to != [] && s.processes[pid].to[0].complete
    case Read(pid, _) => Leased(s, pid) && s.processes[pid].busy && s.processes[pid].from != []
      && s.processes[pid].from[0].complete
    case ReadPart(pid) => Leased(s, pid) && s.processes[pid].busy && s.processes[pid].from != []
    case Release(pid) => Leased(s, pid)
    case Exit(pid) => pid in s.processes
  }

  function Set(s: Pool, pid: nat, p: Process): Pool {
    s.(processes := s.processes[pid := p])
  }

  function Apply(s: Pool, step: Step): Pool
    requires Enabled(s, step)
  {
    match step
    case Create =>
      Set(s, s.nextProcess, Process(false, [], [], Some(s.nextCaller)))
      .(nextProcess := s.nextProcess + 1, nextCaller := s.nextCaller + 1)
    case Reuse(pid) => Set(s, pid, s.processes[pid].(lessee := Some(s.nextCaller))).(nextCaller := s.nextCaller + 1)
    case Write(pid) =>
      var p := s.processes[pid];
      Set(s, pid, p.(busy := true, to := p.to + [Line(p.lessee.value, true)]))
    case WritePart(pid) =>
      var p := s.processes[pid];
      Set(s, pid, p.(busy := true, to := p.to + [Line(p.lessee.value, false)]))
    case Answer(pid) =>
      var p := s.processes[pid];
      Set(s, pid, p.(to := p.to[1..], from := p.from + [p.to[0]]))
    case Read(pid, decodes) =>
      var p := s.processes[pid];
      var read := Set(s, pid, p.(busy := !decodes, from := p.from[1..]));
      if decodes then read.(delivered := s.delivered + {(p.lessee.value, p.from[0])}) else read
    case ReadPart(pid) =>
      var p := s.processes[pid];
      Set(s, pid, p.(from := [p.from[0].(complete := false)] + p.from[1..]))
    case Release(pid) =>
      if s.processes[pid].busy then s.(processes := s.processes - {pid})
      else Set(s, pid, s.processes[pid].(lessee := None))
    case Exit(pid) => s.(processes := s.processes - {pid})
  }

  /** A process that is not busy has empty pipes; a busy one has at most its lessee's own
      command or the reply to it in them. */
  predicate ProcessOk(p: Process) {
    if !p.busy then p.to == [] && p.from == []
    else p.lessee.Some? && |p.to| + |p.from| <= 1 && forall l :: l in p.to + p.from ==> l.caller == p.lessee.value
  }

  predicate PoolOk(s: Pool) {
    && |s.processes| <= MAX_PROCESSES
    && (forall pid :: pid in s.processes ==> pid < s.nextProcess && ProcessOk(s.processes[pid]))
    && (forall d :: d in s.delivered ==> d.1 == Line(d.0, true))
  }

  lemma Removed(m: map<nat, Process>, pid: nat)
    requires pid in m
    ensures |m - {pid}| == |m| - 1
  {
    assert (m - {pid}).Keys == m.Keys - {pid};
  }

  lemma Replaced(m: map<nat, Process>, pid: nat, p: Process)
    ensures |m[pid := p]| == |m| + if pid in m then 0 else 1
  {
    assert m[pid := p].Keys == m.Keys + {pid};
  }

  /** What an action leaves of its process is in order. */
  lemma ProcessStaysOk(s: Pool, step: Step)
    requires PoolOk(s) && Enabled(s, step) && !step.Create?
    ensures step.pid in Apply(s, step).processes ==> ProcessOk(Apply(s, step).processes[step.pid])
  {}

  /** An action touches one process and delivers only the lessee's own reply. */
  lemma StepTouches(s: Pool, step: Step)
    requires PoolOk(s) && Enabled(s, step) && !step.Create?
    ensures var t := Apply(s, step);
            && t.nextProcess == s.nextProcess
            && t.processes == (if step.pid in t.processes then s.processes[step.pid := t.processes[step.pid]]
                 else s.processes - {step.pid})
            && (forall d :: d in t.delivered && d !in s.delivered ==> d.1 == Line(d.0, true))
  {
    assert ProcessOk(s.processes[step.pid]);
    hide PoolOk;
  }

  lemma StepKeeps(s: Pool, step: Step)
    requires PoolOk(s) && Enabled(s, step)
    ensures PoolOk(Apply(s, step))
  {
    hide ProcessOk;
    if step.Create? {
      var p := Process(false, [], [], Some(s.nextCaller));
      NewProcessOk(s.nextCaller);
      Replaced(s.processes, s.nextProcess, p);
    } else {
      assert step.pid in s.processes;
      ProcessStaysOk(s, step);
      StepTouches(s, step);
      hide Enabled, Apply;
      var t := Apply(s, step);
      if step.pid in t.processes {
        Replaced(s.processes, step.pid, t.processes[step.pid]);
      } else {
        Removed(s.processes, step.pid);
      }
    }
  }

  lemma NewProcessOk(caller: nat)
    ensures ProcessOk(Process(false, [], [], Some(caller)))
  {}

  predicate Runs(s: Pool, steps: seq<Step>, t: Pool)
    decreases |steps|
  {
    if steps == [] then s == t else Enabled(s, steps[0]) && Runs(Apply(s, steps[0]), steps[1..], t)
  }

  lemma {:induction false} RunKeeps(s: Pool, steps: seq<Step>, t: Pool)
    requires PoolOk(s) && Runs(s, steps, t)
    ensures PoolOk(t)
    decreases |steps|
  {
    if steps != [] {
      StepKeeps(s, steps[0]);
      RunKeeps(Apply(s, steps[0]), steps[1..], t);
    }
  }

  /** However callers are cancelled, every reply that is returned is the complete line
      the provider wrote for that caller's own command. */
  lemma RepliesArePaired(steps: seq<Step>, t: Pool)
    requires Runs(START, steps, t)
    ensures forall caller, line :: (caller, line) in t.delivered ==> line == Line(caller, true)
    ensures forall pid :: pid in t.processes && t.processes[pid].lessee.None? ==>
            t.processes[pid].to == t.processes[pid].from == []
  {
    RunKeeps(START, steps, t);
  }

  // ----- what a lease is ------------------------------------------------------------------------------

  /** Callers have numbers of their own, and each leases one process at most. */
  ghost predicate LeasesOk(s: Pool) {
    && (forall pid :: Leased(s, pid) ==> s.processes[pid].lessee.value < s.nextCaller)
    && (forall p, q :: Leased(s, p) && Leased(s, q) && s.processes[p].lessee == s.processes[q].lessee ==> p == q)
  }

  lemma StepKeepsLeases(s: Pool, step: Step)
    requires PoolOk(s) && LeasesOk(s) && Enabled(s, step)
    ensures LeasesOk(Apply(s, step))
  {
    hide ProcessOk, PoolOk, Enabled, Apply;
    var t := Apply(s, step);
    CallersRise(s, step);
    forall pid | Leased(t, pid)
      ensures t.processes[pid].lessee.value < t.nextCaller
      ensures if Leased(s, pid) then t.processes[pid].lessee == s.processes[pid].lessee
              else t.processes[pid].lessee == Some(s.nextCaller) && BeginsAt(s, step) == pid
    {
      if Leased(s, pid) {
        LeasesStay(s, step, pid);
      } else {
        LeasesBegin(s, step, pid);
      }
    }
  }

  /** The process that a lease beginning now is of. */
  function BeginsAt(s: Pool, step: Step): nat {
    if step.Reuse? then step.pid else s.nextProcess
  }

  lemma CallersRise(s: Pool, step: Step)
    requires Enabled(s, step)
    ensures s.nextCaller <= Apply(s, step).nextCaller
  {}

  lemma {:induction false} RunKeepsLeases(s: Pool, steps: seq<Step>, t: Pool)
    requires PoolOk(s) && LeasesOk(s) && Runs(s, steps, t)
    ensures LeasesOk(t)
    decreases |steps|
  {
    if steps != [] {
      hide PoolOk, LeasesOk, Enabled, Apply;
      StepKeeps(s, steps[0]);
      StepKeepsLeases(s, steps[0]);
      RunKeepsLeases(Apply(s, steps[0]), steps[1..], t);
    }
  }

  /** In every run no two processes serve one caller. */
  lemma OneProcessPerCaller(steps: seq<Step>, s: Pool)
    requires Runs(START, steps, s)
    ensures LeasesOk(s)
  {
    RunKeepsLeases(START, steps, s);
  }

  /** Nobody but its lessee has a process, until the lessee gives it up or the process ends. */
  lemma LeasesStay(s: Pool, step: Step, pid: nat)
    requires Enabled(s, step) && PoolOk(s) && Leased(s, pid)
    ensures var t := Apply(s, step);
            if step == Release(pid) || step == Exit(pid)
            then !Leased(t, pid) && (step == Exit(pid) ==> pid !in t.processes)
            else Leased(t, pid) && t.processes[pid].lessee == s.processes[pid].lessee
  {
    hide ProcessOk;
  }

  /** A lease begins with a new process or with an idle one, goes to a caller that never had
      one, and finds empty pipes. */
  lemma LeasesBegin(s: Pool, step: Step, pid: nat)
    requires Enabled(s, step) && PoolOk(s) && !Leased(s, pid)
    ensures var t := Apply(s, step);
            && (Leased(t, pid) <==> step == Reuse(pid) || (step == Create && pid == s.nextProcess))
            && (Leased(t, pid) ==>
                  t.processes[pid] == Process(false, [], [], Some(s.nextCaller)) && t.nextCaller == s.nextCaller + 1)
  {
    if pid in s.processes {
      assert ProcessOk(s.processes[pid]);
    }
  }

  // ----- who is answered ----------------------------------------------------------------------------------

  /** Only part of this caller's command was written, or only part of its reply read. */
  predicate Broken(p: Process, caller: nat) {
    && p.busy && p.lessee == Some(caller)
    && (|| (p.to == [Line(caller, false)] && p.from == [])
        || (p.to == [] && p.from == [Line(caller, false)]))
  }

  /** In every run, a caller whose complete reply is in its process's pipe and can be decoded
      gets exactly that reply, and its process has empty pipes and is not busy. A reply
      that cannot be decoded is not delivered, and the process stays busy. */
  lemma DecodedReplyIsDelivered(steps: seq<Step>, s: Pool, pid: nat, decodes: bool)
    requires Runs(START, steps, s) && Enabled(s, Read(pid, decodes))
    ensures var caller := s.processes[pid].lessee.value;
            var t := Apply(s, Read(pid, decodes));
            && t.delivered == (if decodes then s.delivered + {(caller, Line(caller, true))} else s.delivered)
            && pid in t.processes && t.processes[pid] == Process(!decodes, [], [], Some(caller))
  {
    RunKeeps(START, steps, s);
    var p := s.processes[pid];
    assert ProcessOk(p) && p.from[0] in p.to + p.from;
    hide PoolOk, Runs;
    assert p.from == [Line(p.lessee.value, true)] && p.from[1..] == [] && p.to == [];
  }

  /** When the lease drops, a process that is not busy is kept for the next caller and a busy
      one is gone. */
  lemma ReleaseKeepsTheIdle(s: Pool, pid: nat)
    requires Enabled(s, Release(pid))
    ensures var t := Apply(s, Release(pid));
            if s.processes[pid].busy then pid !in t.processes
            else pid in t.processes && t.processes[pid] == s.processes[pid].(lessee := None) && Enabled(t, Reuse(pid))
  {}

  /** A caller that leases an idle process can always write its command, have it answered and
      read the reply. */
  lemma LesseeIsServed(steps: seq<Step>, s: Pool, pid: nat)
    requires Runs(START, steps, s) && Enabled(s, Write(pid))
    ensures var t := Apply(s, Write(pid));
            && Enabled(t, Answer(pid))
            && var u := Apply(t, Answer(pid));
            && Enabled(u, Read(pid, true))
            && u.processes[pid].from == [Line(s.processes[pid].lessee.value, true)]
  {
    RunKeeps(START, steps, s);
    assert ProcessOk(s.processes[pid]);
  }

  lemma PartsBreak(steps: seq<Step>, s: Pool, pid: nat, step: Step)
    requires Runs(START, steps, s) && Enabled(s, step) && (step == WritePart(pid) || step == ReadPart(pid))
    ensures Broken(Apply(s, step).processes[pid], s.processes[pid].lessee.value)
  {
    RunKeeps(START, steps, s);
    var p := s.processes[pid];
    assert ProcessOk(p);
    if step == ReadPart(pid) {
      assert p.from[0] in p.to + p.from && p.from[1..] == [] && p.to == [];
    }
  }

  /** In every run, a caller that was cut off in the middle of a command or of a reply is not
      answered any more: whatever happens, its process stays as it is until the lease drops,
      and then it is gone. */
  lemma CutOffIsNotAnswered(before: seq<Step>, s: Pool, pid: nat, step: Step, after: seq<Step>, t: Pool)
    requires Runs(START, before, s) && Enabled(s, step) && (step == WritePart(pid) || step == ReadPart(pid))
    requires Runs(Apply(s, step), after, t)
    requires forall i :: 0 <= i < |after| ==> after[i] != Release(pid) && after[i] != Exit(pid)
    ensures var caller := s.processes[pid].lessee.value;
            && pid in t.processes && Broken(t.processes[pid], caller)
            && Apply(t, Release(pid)).processes == t.processes - {pid}
            && forall line :: (caller, line) in t.delivered ==> (caller, line) in s.delivered
  {
    hide LeasesOk, PoolOk, ProcessOk, Broken, Runs;
    RunKeeps(START, before, s);
    OneProcessPerCaller(before, s);
    StepKeeps(s, step);
    StepKeepsLeases(s, step);
    PartsBreak(before, s, pid, step);
    BrokenIsNotAnswered(Apply(s, step), pid, s.processes[pid].lessee.value, after, t);
  }

  lemma {:induction false} BrokenIsNotAnswered(s: Pool, pid: nat, caller: nat, steps: seq<Step>, t: Pool)
    requires pid in s.processes && Broken(s.processes[pid], caller) && Runs(s, steps, t)
    requires forall i :: 0 <= i < |steps| ==> steps[i] != Release(pid) && steps[i] != Exit(pid)
    requires LeasesOk(s) && PoolOk(s)
    ensures pid in t.processes && t.processes[pid] == s.processes[pid]
    ensures Apply(t, Release(pid)).processes == t.processes - {pid}
    ensures forall line :: (caller, line) in t.delivered ==> (caller, line) in s.delivered
    decreases |steps|
  {
    if steps != [] {
      var u := Apply(s, steps[0]);
      assert steps[0] != Release(pid) && steps[0] != Exit(pid);
      StepKeeps(s, steps[0]);
      StepKeepsLeases(s, steps[0]);
      BrokenStays(s, steps[0], pid, caller);
      BrokenIsNotAnswered(u, pid, caller, steps[1..], t);
    }
  }

  lemma BrokenStays(s: Pool, step: Step, pid: nat, caller: nat)
    requires pid in s.processes && Broken(s.processes[pid], caller) && Enabled(s, step)
    requires step != Release(pid) && step != Exit(pid) && LeasesOk(s) && PoolOk(s)
    ensures pid in Apply(s, step).processes && Apply(s, step).processes[pid] == s.processes[pid]
    ensures forall line :: (caller, line) in Apply(s, step).delivered ==> (caller, line) in s.delivered
  {
    assert Leased(s, pid);
  }

  // ----- the text in the pipe ---------------------------------------------------------------------

  /** A command is one line that fits. */
  predicate Sendable(text: string) {
    !C.HasNewline(text) && ByteLength(text) <= C.MAX_COMMAND_BYTES
  }

  /** What stands in the pipe to the provider: whole commands, and what was written of one
      that was cut off. */
  function PipeText(to: seq<Line>, command: nat -> string, part: string): string {
    if to == [] then ""
    else (if to[0].complete then command(to[0].caller) + "\n" else part) + PipeText(to[1..], command, part)
  }

  /** The commands that the provider will read: the complete ones. */
  function Readable(to: seq<Line>, command: nat -> string): seq<string> {
    if to == [] then [] else (if to[0].complete then [command(to[0].caller)] else []) + Readable(to[1..], command)
  }

  /** In every run the provider, splitting its input into documents, reads exactly the
      complete commands in the pipe: answering line by line is what it does. */
  lemma ProviderReadsLines(steps: seq<Step>, t: Pool, pid: nat, command: nat -> string, part: string)
    requires Runs(START, steps, t) && pid in t.processes && !C.HasNewline(part)
    requires forall caller :: Sendable(command(caller))
    ensures C.Documents(PipeText(t.processes[pid].to, command, part)).0 == Readable(t.processes[pid].to, command)
  {
    RunKeeps(START, steps, t);
    var to := t.processes[pid].to;
    assert ProcessOk(t.processes[pid]) && |to| <= 1;
    if to == [] {
      C.Leftover("");
    } else {
      assert to[1..] == [];
      if to[0].complete {
        assert PipeText(to, command, part) == C.Terminated([command(to[0].caller)]) + "";
        C.CutOffLinesAreNoDocuments([command(to[0].caller)], "");
      } else {
        assert PipeText(to, command, part) == part;
        C.Leftover(part);
      }
    }
  }
}
