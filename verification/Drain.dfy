/**
 The drain barrier of a host: `accepting` and `active` are read and written one atomic
 operation at a time, by any number of invocations in any interleaving with `drain`.
 Method calls are detached from their callers; a socket event is awaited by its caller
 and can be dropped while its customer code runs. When the connection to the executor is
 lost, the commands that are out fail while their customer code runs on.
 */
module Drain {

  datatype Kind = Method | Connect | Message | Disconnect

  /** Where an invocation is between its atomic operations. */
  datatype Stage =
    | Validated    // passed the first look at `accepting`, not yet counted
    | Counted      // counted in `active`, waiting for its actor's gate
    | AtExecutor   // passed the second look, customer code may run
    | Abandoned    // dropped and no longer counted, but customer code runs on
    | Ended

  datatype Invocation = Invocation(kind: Kind, stage: Stage)

  /** `drained` remembers that some `drain` returned Ok; `connected` is the connection to
      the executor. */
  datatype Host = Host(
    accepting: bool,
    active: int,
    stopped: bool,
    drained: bool,
    connected: bool,
    invocations: seq<Invocation>)

  datatype Step =
    | Arrive(kind: Kind)    // `validate_operation`
    | Begin(id: nat)        // `begin_activity`
    | Proceed(id: nat)      // admitted by the gate, second look at `accepting`
    | Leave(id: nat)        // the activity guard drops with no customer code left running
    | Cancel(id: nat)       // it drops because a socket event's caller went away
    | Sever                 // the reader of executor replies ends
    | Lose(id: nat)         // a command that was out then fails, and its guard drops
    | Return(id: nat)       // abandoned customer code comes to its end
    | StopAccepting         // `drain` stores false
    | SeeIdle               // `drain` loads `active` and it is zero

  const START: Host := Host(true, 0, false, false, true, [])

  predicate IsCounted(invocation: Invocation) {
    invocation.stage == Counted || invocation.stage == AtExecutor
  }

  predicate At(h: Host, id: nat, stage: Stage) {
    id < |h.invocations| && h.invocations[id].stage == stage
  }

  function Moved(h: Host, id: nat, stage: Stage): seq<Invocation>
    requires id < |h.invocations|
  {
    h.invocations[id := h.invocations[id].(stage := stage)]
  }

  predicate Enabled(h: Host, step: Step) {
    match step
    case Arrive(_) => true
    case Begin(id) => At(h, id, Validated)
    case Proceed(id) => At(h, id, Counted)
    case Leave(id) => At(h, id, Counted) || At(h, id, AtExecutor)
    case Cancel(id) => At(h, id, AtExecutor) && h.invocations[id].kind != Method
    case Sever => true
    case Lose(id) => At(h, id, AtExecutor) && !h.connected
    case Return(id) => At(h, id, Abandoned)
    case StopAccepting => true
    case SeeIdle => h.stopped && h.active == 0
  }

  /** `rechecks` says whether admission is followed by a second look at `accepting`. */
  function Apply(rechecks: bool, h: Host, step: Step): Host
    requires Enabled(h, step)
  {
    match step
    case Arrive(kind) =>
      if kind == Disconnect || h.accepting then h.(invocations := h.invocations + [Invocation(kind, Validated)]) else h
    case Begin(id) => h.(active := h.active + 1, invocations := Moved(h, id, Counted))
    case Proceed(id) =>
      if !rechecks || h.invocations[id].kind == Disconnect || h.accepting
      then h.(invocations := Moved(h, id, AtExecutor))
      else h.(active := h.active - 1, invocations := Moved(h, id, Ended))
    case Leave(id) => h.(active := h.active - 1, invocations := Moved(h, id, Ended))
    case Cancel(id) => h.(active := h.active - 1, invocations := Moved(h, id, Abandoned))
    case Sever => h.(connected := false)
    case Lose(id) => h.(active := h.active - 1, invocations := Moved(h, id, Abandoned))
    case Return(id) => h.(invocations := Moved(h, id, Ended))
    case StopAccepting => h.(accepting := false, stopped := true)
    case SeeIdle => h.(drained := true)
  }

  predicate Runs(rechecks: bool, h: Host, steps: seq<Step>, t: Host)
    decreases |steps|
  {
    if steps == [] then h == t
    else Enabled(h, steps[0]) && Runs(rechecks, Apply(rechecks, h, steps[0]), steps[1..], t)
  }

  /** Customer code of the invocation may be running. */
  predicate AtCustomer(invocation: Invocation) {
    invocation.stage == AtExecutor || invocation.stage == Abandoned
  }

  /** A drained host runs no customer code of a method, connect or message. */
  predicate Barrier(h: Host) {
    h.drained ==> forall id :: 0 <= id < |h.invocations| && AtCustomer(h.invocations[id]) ==>
      h.invocations[id].kind == Disconnect
  }

  // ----- counting -------------------------------------------------------------------------------

  function CountedIn(s: seq<Invocation>): nat {
    if s == [] then 0 else (if IsCounted(s[0]) then 1 else 0) + CountedIn(s[1..])
  }

  lemma {:induction false} CountAppended(s: seq<Invocation>, x: Invocation)
    ensures CountedIn(s + [x]) == CountedIn(s) + if IsCounted(x) then 1 else 0
  {
    if s == [] {
      assert s + [x] == [x];
    } else {
      assert (s + [x])[1..] == s[1..] + [x];
      CountAppended(s[1..], x);
    }
  }

  lemma {:induction false} CountUpdated(s: seq<Invocation>, id: nat, x: Invocation)
    requires id < |s|
    ensures CountedIn(s[id := x]) == CountedIn(s) - (if IsCounted(s[id]) then 1 else 0) + (if IsCounted(x) then 1
            else 0)
  {
    if id == 0 {
      assert s[id := x][1..] == s[1..];
    } else {
      assert s[id := x][1..] == s[1..][id - 1 := x];
      CountUpdated(s[1..], id - 1, x);
    }
  }

  lemma {:induction false} NoneCounted(s: seq<Invocation>, id: nat)
    requires CountedIn(s) == 0 && id < |s|
    ensures !IsCounted(s[id])
  {
    if id > 0 {
      NoneCounted(s[1..], id - 1);
    }
  }

  // ----- what the counter and the second look do guarantee ------------------------------------------

  /** No counted invocation but a disconnect is past the second look. */
  predicate NoneAdmitted(h: Host) {
    forall id :: 0 <= id < |h.invocations| && h.invocations[id].stage == AtExecutor ==>
      h.invocations[id].kind == Disconnect
  }

  /** While the executor is connected, no method is abandoned. */
  predicate MethodsAttended(h: Host) {
    h.connected ==> forall id :: 0 <= id < |h.invocations| && h.invocations[id].stage == Abandoned ==>
      h.invocations[id].kind != Method
  }

  /** `active` is exactly the number of counted invocations, and a drained host accepts
      nothing and lets only disconnects past the second look. */
  predicate Inv(h: Host) {
    && h.active == CountedIn(h.invocations) && MethodsAttended(h)
    && (h.stopped ==> !h.accepting) && (h.drained ==> h.stopped && NoneAdmitted(h))
  }

  lemma StepCounts(h: Host, step: Step)
    requires h.active == CountedIn(h.invocations) && Enabled(h, step)
    ensures Apply(true, h, step).active == CountedIn(Apply(true, h, step).invocations)
  {
    hide CountedIn;
    match step
    case Arrive(kind) => CountAppended(h.invocations, Invocation(kind, Validated));
    case Begin(id) => CountUpdated(h.invocations, id, h.invocations[id].(stage := Counted));
    case Proceed(id) =>
      CountUpdated(h.invocations, id, h.invocations[id].(stage := AtExecutor));
      CountUpdated(h.invocations, id, h.invocations[id].(stage := Ended));
    case Leave(id) => CountUpdated(h.invocations, id, h.invocations[id].(stage := Ended));
    case Cancel(id) => CountUpdated(h.invocations, id, h.invocations[id].(stage := Abandoned));
    case Sever =>
    case Lose(id) => CountUpdated(h.invocations, id, h.invocations[id].(stage := Abandoned));
    case Return(id) => CountUpdated(h.invocations, id, h.invocations[id].(stage := Ended));
    case StopAccepting =>
    case SeeIdle =>
  }

  lemma StepKeeps(h: Host, step: Step)
    requires Inv(h) && Enabled(h, step)
    ensures Inv(Apply(true, h, step))
    ensures h.drained ==> Apply(true, h, step).drained
  {
    hide CountedIn;
    StepCounts(h, step);
    if step.SeeIdle? {
      forall id | 0 <= id < |h.invocations| ensures h.invocations[id].stage != AtExecutor {
        NoneCounted(h.invocations, id);
      }
    }
  }

  lemma {:induction false} RunKeeps(h: Host, steps: seq<Step>, t: Host)
    requires Inv(h) && Runs(true, h, steps, t)
    ensures Inv(t) && (h.drained ==> t.drained)
    decreases |steps|
  {
    if steps != [] {
      StepKeeps(h, steps[0]);
      RunKeeps(Apply(true, h, steps[0]), steps[1..], t);
    }
  }

  // ----- who gets in ---------------------------------------------------------------------------------

  predicate Stops(steps: seq<Step>) {
    exists i :: 0 <= i < |steps| && steps[i].StopAccepting?
  }

  lemma {:induction false} AcceptsUntilStopped(rechecks: bool, h: Host, steps: seq<Step>, t: Host)
    requires Runs(rechecks, h, steps, t)
    ensures t.accepting <==> h.accepting && !Stops(steps)
    decreases |steps|
  {
    if steps != [] {
      AcceptsUntilStopped(rechecks, Apply(rechecks, h, steps[0]), steps[1..], t);
      assert Stops(steps) <==> steps[0].StopAccepting? || Stops(steps[1..]) by { StopsLater(steps); }
    }
  }

  lemma StopsLater(steps: seq<Step>)
    requires steps != []
    ensures Stops(steps) <==> steps[0].StopAccepting? || Stops(steps[1..])
  {
    if Stops(steps[1..]) {
      var i :| 0 <= i < |steps[1..]| && steps[1..][i].StopAccepting?;
      assert steps[i + 1].StopAccepting?;
    }
    if Stops(steps) && !steps[0].StopAccepting? {
      var i :| 0 <= i < |steps| && steps[i].StopAccepting?;
      assert steps[1..][i - 1].StopAccepting?;
    }
  }

  /** In every run an arriving invocation of any kind is taken up exactly if no drain has begun
      or it is a disconnect, which gets in and past the second look at any time. */
  lemma ArrivalIff(steps: seq<Step>, h: Host, kind: Kind)
    requires Runs(true, START, steps, h)
    ensures Apply(true, h, Arrive(kind)).invocations
            == if kind == Disconnect || !Stops(steps) then h.invocations + [Invocation(kind, Validated)]
               else h.invocations
  {
    AcceptsUntilStopped(true, START, steps, h);
  }

  /** A counted invocation gets to the executor under the same condition; otherwise it ends
      and is no longer counted. */
  lemma SecondLookIff(steps: seq<Step>, h: Host, id: nat)
    requires Runs(true, START, steps, h) && At(h, id, Counted)
    ensures var t := Apply(true, h, Proceed(id));
            if h.invocations[id].kind == Disconnect || !Stops(steps) then At(t, id, AtExecutor) && t.active == h.active
            else At(t, id, Ended) && t.active == h.active - 1
  {
    AcceptsUntilStopped(true, START, steps, h);
  }

  /** Abandoned customer code that comes to its end runs no more. */
  lemma AbandonedCodeEnds(h: Host, id: nat)
    requires At(h, id, Abandoned)
    ensures !AtCustomer(Apply(true, h, Return(id)).invocations[id])
  {}

  /** `drain` returns Ok exactly when it has begun and no invocation is counted. */
  lemma DrainReturnsIff(steps: seq<Step>, h: Host)
    requires Runs(true, START, steps, h)
    ensures Enabled(h, SeeIdle) <==>
            Stops(steps) && forall id :: 0 <= id < |h.invocations| ==> !IsCounted(h.invocations[id])
  {
    RunKeeps(START, steps, h);
    hide CountedIn;
    StoppedIff(true, START, steps, h);
    if CountedIn(h.invocations) == 0 {
      forall id | 0 <= id < |h.invocations| ensures !IsCounted(h.invocations[id]) {
        NoneCounted(h.invocations, id);
      }
    } else {
      SomeCounted(h.invocations);
    }
  }

  lemma {:induction false} SomeCounted(s: seq<Invocation>)
    requires CountedIn(s) > 0
    ensures exists id :: 0 <= id < |s| && IsCounted(s[id])
  {
    if !IsCounted(s[0]) {
      SomeCounted(s[1..]);
      var id :| 0 <= id < |s[1..]| && IsCounted(s[1..][id]);
      assert IsCounted(s[id + 1]);
    }
  }

  lemma {:induction false} StoppedIff(rechecks: bool, h: Host, steps: seq<Step>, t: Host)
    requires Runs(rechecks, h, steps, t)
    ensures t.stopped <==> h.stopped || Stops(steps)
    decreases |steps|
  {
    if steps != [] {
      StoppedIff(rechecks, Apply(rechecks, h, steps[0]), steps[1..], t);
      StopsLater(steps);
    }
  }

  // ----- the barrier ----------------------------------------------------------------------------------

  /** A method, connect or message was given up at the executor and its customer code
      still runs. */
  predicate CodeAbandoned(h: Host) {
    exists id :: 0 <= id < |h.invocations| && h.invocations[id].stage == Abandoned
      && h.invocations[id].kind != Disconnect
  }

  /** Once `drain` has returned Ok, then and ever after, in any interleaving: customer code
      of a method, connect or message runs exactly if its invocation was given up while it
      ran, and that of a method only if the executor's connection was lost. No invocation
      reaches the executor any more. */
  lemma DrainBarrier(before: seq<Step>, after: seq<Step>, h: Host, t: Host)
    requires Runs(true, START, before, h) && h.drained && Runs(true, h, after, t)
    ensures t.drained && NoneAdmitted(t) && MethodsAttended(t)
    ensures Barrier(t) <==> !CodeAbandoned(t)
  {
    RunKeeps(START, before, h);
    RunKeeps(h, after, t);
  }

  /** The run drops no connect or message at the executor. */
  predicate Attended(rechecks: bool, h: Host, steps: seq<Step>)
    decreases |steps|
  {
    steps != [] && Enabled(h, steps[0]) ==>
      && (steps[0].Cancel? ==> h.invocations[steps[0].id].kind == Disconnect)
      && Attended(rechecks, Apply(rechecks, h, steps[0]), steps[1..])
  }

  /** The run keeps the executor connected. */
  predicate Unsevered(steps: seq<Step>) {
    forall i :: 0 <= i < |steps| ==> !steps[i].Sever?
  }

  lemma {:induction false} AttendedRuns(h: Host, steps: seq<Step>, t: Host)
    requires Runs(true, h, steps, t) && Attended(true, h, steps) && Unsevered(steps)
    requires h.connected && !CodeAbandoned(h)
    ensures !CodeAbandoned(t)
    decreases |steps|
  {
    if steps != [] {
      AttendedRuns(Apply(true, h, steps[0]), steps[1..], t);
    }
  }

  /** What an operator can arrange: that events are never dropped at the executor, and that
      the executor stays connected. */
  predicate Allowed(rechecks: bool, drops: bool, severs: bool, steps: seq<Step>, t: Host) {
    && Runs(rechecks, START, steps, t)
    && (drops || Attended(rechecks, START, steps)) && (severs || Unsevered(steps))
  }

  /** The barrier holds in all runs exactly if invocations look at `accepting` again after
      admission, no connect or message is dropped at the executor, and the executor's
      connection is not lost. */
  lemma BarrierIff(rechecks: bool, drops: bool, severs: bool)
    ensures (forall steps, t :: Allowed(rechecks, drops, severs, steps, t) ==> Barrier(t))
            <==> rechecks && !drops && !severs
  {
    if rechecks && !drops && !severs {
      forall steps, t | Allowed(true, false, false, steps, t) ensures Barrier(t) {
        RunKeeps(START, steps, t);
        AttendedRuns(START, steps, t);
      }
    } else {
      var steps, t := BrokenBarrier(rechecks, drops, severs);
      assert Allowed(rechecks, drops, severs, steps, t);
    }
  }

  lemma BrokenBarrier(rechecks: bool, drops: bool, severs: bool) returns (steps: seq<Step>, t: Host)
    requires !rechecks || drops || severs
    ensures Allowed(rechecks, drops, severs, steps, t) && !Barrier(t)
  {
    hide Runs, Attended, Unsevered, Barrier;
    if !rechecks {
      steps, t := LateArrival();
    } else if drops {
      steps, t := AbandonedMessage();
    } else {
      steps, t := AbandonedMethod();
    }
  }

  /** A run given step by step. */
  lemma FiveSteps(rechecks: bool, a: Step, b: Step, c: Step, d: Step, e: Step, h1: Host, h2: Host, h3: Host, h4: Host,
                  t: Host)
    requires Enabled(START, a) && h1 == Apply(rechecks, START, a)
    requires Enabled(h1, b) && h2 == Apply(rechecks, h1, b)
    requires Enabled(h2, c) && h3 == Apply(rechecks, h2, c)
    requires Enabled(h3, d) && h4 == Apply(rechecks, h3, d)
    requires Enabled(h4, e) && t == Apply(rechecks, h4, e)
    ensures Runs(rechecks, START, [a, b, c, d, e], t)
  {
    assert Runs(rechecks, t, [], t);
    assert Runs(rechecks, h4, [e], t) by { assert [e][1..] == []; }
    assert Runs(rechecks, h3, [d, e], t) by { assert [d, e][1..] == [e]; }
    assert Runs(rechecks, h2, [c, d, e], t) by { assert [c, d, e][1..] == [d, e]; }
    assert Runs(rechecks, h1, [b, c, d, e], t) by { assert [b, c, d, e][1..] == [c, d, e]; }
    assert [a, b, c, d, e][1..] == [b, c, d, e];
  }

  /** Without the second look, a call validated before the drain is counted after it. */
  lemma LateArrival() returns (steps: seq<Step>, t: Host)
    ensures Runs(false, START, steps, t) && Attended(false, START, steps) && Unsevered(steps) && !Barrier(t)
  {
    hide Runs, Attended;
    var h1 := Apply(false, START, Arrive(Method));
    var h2 := Apply(false, h1, StopAccepting);
    var h3 := Apply(false, h2, SeeIdle);
    var h4 := Apply(false, h3, Begin(0));
    t := Apply(false, h4, Proceed(0));
    steps := [Arrive(Method), StopAccepting, SeeIdle, Begin(0), Proceed(0)];
    FiveSteps(false, Arrive(Method), StopAccepting, SeeIdle, Begin(0), Proceed(0), h1, h2, h3, h4, t);
    NoCancelIsAttended(false, START, steps, t);
    assert t.invocations[0] == Invocation(Method, AtExecutor);
  }

  lemma {:induction false} NoCancelIsAttended(rechecks: bool, h: Host, steps: seq<Step>, t: Host)
    requires Runs(rechecks, h, steps, t) && forall i :: 0 <= i < |steps| ==> !steps[i].Cancel?
    ensures Attended(rechecks, h, steps)
    decreases |steps|
  {
    if steps != [] {
      NoCancelIsAttended(rechecks, Apply(rechecks, h, steps[0]), steps[1..], t);
    }
  }

  /** With it, a message whose caller goes away while `onMessage` runs is not counted any
      more: the drain sees an idle host while customer code is still running. */
  lemma AbandonedMessage() returns (steps: seq<Step>, t: Host)
    ensures Runs(true, START, steps, t) && Unsevered(steps) && !Barrier(t)
  {
    hide Runs, Attended;
    var h1 := Apply(true, START, Arrive(Message));
    var h2 := Apply(true, h1, Begin(0));
    var h3 := Apply(true, h2, Proceed(0));
    var h4 := Apply(true, h3, Cancel(0));
    var h5 := Apply(true, h4, StopAccepting);
    t := Apply(true, h5, SeeIdle);
    var most := [Arrive(Message), Begin(0), Proceed(0), Cancel(0), StopAccepting];
    steps := most + [SeeIdle];
    FiveSteps(true, Arrive(Message), Begin(0), Proceed(0), Cancel(0), StopAccepting, h1, h2, h3, h4, h5);
    OneMore(true, START, most, h5, SeeIdle);
    assert t.invocations[0] == Invocation(Message, Abandoned);
  }

  /** Nor is a method whose command was out when the executor's connection was lost. */
  lemma AbandonedMethod() returns (steps: seq<Step>, t: Host)
    ensures Runs(true, START, steps, t) && Attended(true, START, steps) && !Barrier(t)
  {
    hide Runs, Attended;
    var h1 := Apply(true, START, Arrive(Method));
    var h2 := Apply(true, h1, Begin(0));
    var h3 := Apply(true, h2, Proceed(0));
    var h4 := Apply(true, h3, Sever);
    var h5 := Apply(true, h4, Lose(0));
    var h6 := Apply(true, h5, StopAccepting);
    t := Apply(true, h6, SeeIdle);
    var most := [Arrive(Method), Begin(0), Proceed(0), Sever, Lose(0)];
    steps := most + [StopAccepting] + [SeeIdle];
    FiveSteps(true, Arrive(Method), Begin(0), Proceed(0), Sever, Lose(0), h1, h2, h3, h4, h5);
    OneMore(true, START, most, h5, StopAccepting);
    OneMore(true, START, most + [StopAccepting], h6, SeeIdle);
    NoCancelIsAttended(true, START, steps, t);
    assert t.invocations[0] == Invocation(Method, Abandoned);
  }

  lemma {:induction false} OneMore(rechecks: bool, h: Host, steps: seq<Step>, t: Host, step: Step)
    requires Runs(rechecks, h, steps, t) && Enabled(t, step)
    ensures Runs(rechecks, h, steps + [step], Apply(rechecks, t, step))
    decreases |steps|
  {
    if steps == [] {
      assert steps + [step] == [step] && [step][1..] == [];
    } else {
      assert (steps + [step])[1..] == steps[1..] + [step];
      OneMore(rechecks, Apply(rechecks, h, steps[0]), steps[1..], t, step);
    }
  }
}
