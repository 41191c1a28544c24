/**
 Per-actor admission through a map of weakly held gates. A gate lives as long as some
 invocation holds it; dead gates are purged from the map and made anew. In any
 interleaving this behaves like one permanent gate per actor.
 */
module Gates {
  type Key = string

  const MAX_ADMITTED: nat := 33

  datatype Stage =
    | Looked     // holds the gate, has not asked for a permit
    | Waiting    // holds a permit, waits for the gate's mutex
    | Running    // holds the guard

  datatype Invocation = Invocation(key: Key, stage: Stage)

  type Invocations = map<nat, Invocation>

  /** The atomic operations of `admit` and of a guard's, or a cancelled future's, drop. */
  datatype Step =
    | Look(id: nat, key: Key)
    | AskPermit(id: nat)
    | Lock(id: nat)
    | Drop(id: nat)

  // ----- the simple form: one permanent gate per actor ---------------------------------------

  function Admitted(s: Invocations, key: Key): set<nat> {
    set id | id in s && s[id].key == key && s[id].stage != Looked
  }

  function Actors(s: Invocations): set<Key> {
    set id | id in s :: s[id].key
  }

  predicate Occupied(s: Invocations, key: Key) {
    exists id :: id in s && s[id].key == key && s[id].stage == Running
  }

  function Simple(s: Invocations, step: Step): Invocations {
    match step
    case Look(id, key) => if id in s then s else s[id := Invocation(key, Looked)]
    case AskPermit(id) =>
      if id !in s || s[id].stage != Looked then s
      else if |Admitted(s, s[id].key)| < MAX_ADMITTED then s[id := s[id].(stage := Waiting)]
      else s - {id}
    case Lock(id) =>
      if id in s && s[id].stage == Waiting && !Occupied(s, s[id].key) then s[id := s[id].(stage := Running)] else s
    case Drop(id) => s - {id}
  }

  function SimpleRun(steps: seq<Step>): Invocations {
    if steps == [] then map[] else Simple(SimpleRun(steps[..|steps| - 1]), steps[|steps| - 1])
  }

  predicate OneGuard(s: Invocations) {
    forall i, j :: i in s && j in s && s[i].stage == Running && s[j].stage == Running && s[i].key == s[j].key ==> i == j
  }

  ghost predicate Capped(s: Invocations) {
    forall key :: |Admitted(s, key)| <= MAX_ADMITTED
  }

  /** At most one guard and at most 33 admitted invocations for each actor. */
  ghost predicate Exclusive(s: Invocations) {
    OneGuard(s) && Capped(s)
  }

  lemma StepKeepsOneGuard(s: Invocations, step: Step)
    requires OneGuard(s)
    ensures OneGuard(Simple(s, step))
  {}

  lemma StepKeepsCap(s: Invocations, step: Step)
    requires Capped(s)
    ensures Capped(Simple(s, step))
  {
    forall key ensures |Admitted(Simple(s, step), key)| <= MAX_ADMITTED {
      if Admits(s, step, key) {
        NewlyAdmitted(s, step.id);
      } else {
        NoneAdmitted(s, step, key);
        Subset(Admitted(Simple(s, step), key), Admitted(s, key));
      }
    }
  }

  /** The step gives an invocation of this actor a permit. */
  predicate Admits(s: Invocations, step: Step, key: Key) {
    && step.AskPermit? && step.id in s && s[step.id].stage == Looked && s[step.id].key == key
    && |Admitted(s, key)| < MAX_ADMITTED
  }

  lemma NewlyAdmitted(s: Invocations, id: nat)
    requires id in s && s[id].stage == Looked && |Admitted(s, s[id].key)| < MAX_ADMITTED
    ensures |Admitted(Simple(s, AskPermit(id)), s[id].key)| <= MAX_ADMITTED
  {
    assert Admitted(Simple(s, AskPermit(id)), s[id].key) == Admitted(s, s[id].key) + {id};
  }

  lemma NoneAdmitted(s: Invocations, step: Step, key: Key)
    requires !Admits(s, step, key)
    ensures Admitted(Simple(s, step), key) <= Admitted(s, key)
  {
    hide Occupied;
    forall id | id in Admitted(Simple(s, step), key) ensures id in Admitted(s, key) {
      assert id in s;
    }
  }

  lemma {:induction false} Subset(a: set<nat>, b: set<nat>)
    requires a <= b
    ensures |a| <= |b|
  {
    if a != {} {
      var x :| x in a;
      Subset(a - {x}, b - {x});
    }
  }

  /** In every run an invocation that asks is admitted exactly if fewer than 33 of its actor
      are: the 33rd is, the 34th is turned away, and others stay as they were. */
  lemma AdmittedIff(steps: seq<Step>, id: nat)
    requires id in SimpleRun(steps) && SimpleRun(steps)[id].stage == Looked
    ensures var s, t := SimpleRun(steps), SimpleRun(steps + [AskPermit(id)]);
            && (if |Admitted(s, s[id].key)| <= 32 then id in t && t[id] == Invocation(s[id].key, Waiting) else id !in t)
            && forall other :: other != id ==> (other in t <==> other in s) && (other in s ==> t[other] == s[other])
  {
    assert (steps + [AskPermit(id)])[..|steps|] == steps;
  }

  /** In every run a new invocation gets its actor's gate, and one that is dropped is
      forgotten; the others stay as they were. */
  lemma LooksAndDrops(steps: seq<Step>, id: nat, key: Key)
    ensures id !in SimpleRun(steps) ==>
              SimpleRun(steps + [Look(id, key)]) == SimpleRun(steps)[id := Invocation(key, Looked)]
    ensures id in SimpleRun(steps) ==> SimpleRun(steps + [Look(id, key)]) == SimpleRun(steps)
    ensures SimpleRun(steps + [Drop(id)]) == SimpleRun(steps) - {id}
  {
    assert (steps + [Look(id, key)])[..|steps|] == steps && (steps + [Drop(id)])[..|steps|] == steps;
  }

  /** In every run an admitted invocation gets the guard exactly if none of its actor runs. */
  lemma GuardedIff(steps: seq<Step>, id: nat)
    requires id in SimpleRun(steps) && SimpleRun(steps)[id].stage == Waiting
    ensures var s, t := SimpleRun(steps), SimpleRun(steps + [Lock(id)]);
            && id in t
            && (t[id].stage == Running <==>
                  forall other :: other in s && s[other].key == s[id].key ==> s[other].stage != Running)
  {
    assert (steps + [Lock(id)])[..|steps|] == steps;
  }

  /** And dropping the guard makes it free. */
  lemma DroppedGuardIsFree(steps: seq<Step>, running: nat, waiting: nat)
    requires var s := SimpleRun(steps);
             && running in s && s[running].stage == Running
             && waiting in s && s[waiting].stage == Waiting && s[waiting].key == s[running].key
    ensures var t := SimpleRun(steps + [Drop(running), Lock(waiting)]);
            waiting in t && t[waiting].stage == Running
  {
    RunsAreExclusive(steps);
    var dropped := steps + [Drop(running)];
    assert dropped[..|steps|] == steps;
    assert steps + [Drop(running), Lock(waiting)] == dropped + [Lock(waiting)];
    GuardedIff(dropped, waiting);
  }

  lemma {:induction false} RunsAreExclusive(steps: seq<Step>)
    ensures Exclusive(SimpleRun(steps))
  {
    if steps != [] {
      RunsAreExclusive(steps[..|steps| - 1]);
      StepKeepsOneGuard(SimpleRun(steps[..|steps| - 1]), steps[|steps| - 1]);
      StepKeepsCap(SimpleRun(steps[..|steps| - 1]), steps[|steps| - 1]);
    }
  }

  // ----- the weak map -------------------------------------------------------------------------------

  /** A gate's holders all belong to the actor the map lists it for. */
  predicate GatesOk(locks: map<Key, nat>, held: map<nat, nat>, invocations: Invocations, nextGate: nat) {
    && held.Keys == invocations.Keys
    && (forall id :: id in held ==> invocations[id].key in locks && locks[invocations[id].key] == held[id])
    && (forall k, l :: k in locks && l in locks && locks[k] == locks[l] ==> k == l)
    && (forall k :: k in locks ==> locks[k] < nextGate)
  }

  /** A listed gate is held exactly if its actor has an invocation, so purging keeps order. */
  lemma PurgedOk(locks: map<Key, nat>, held: map<nat, nat>, invocations: Invocations, nextGate: nat,
                 purged: map<Key, nat>)
    requires GatesOk(locks, held, invocations, nextGate)
    requires purged == map k | k in locks && (exists id :: id in held && held[id] == locks[k]) :: locks[k]
    ensures GatesOk(purged, held, invocations, nextGate) && purged.Keys == Actors(invocations)
  {
    forall k | k in locks ensures (exists id :: id in held && held[id] == locks[k]) <==> k in Actors(invocations) {
      if id :| id in held && held[id] == locks[k] {
        assert invocations[id].key == k;
      }
      if k in Actors(invocations) {
        var id :| id in invocations && invocations[id].key == k;
        assert held[id] == locks[k];
      }
    }
  }

  lemma StagedOk(locks: map<Key, nat>, held: map<nat, nat>, invocations: Invocations, nextGate: nat, id: nat,
                 stage: Stage)
    requires GatesOk(locks, held, invocations, nextGate) && id in invocations
    ensures held.Keys == invocations.Keys
    ensures GatesOk(locks, held, invocations[id := invocations[id].(stage := stage)], nextGate)
  {}

  lemma GatedOk(locks: map<Key, nat>, held: map<nat, nat>, invocations: Invocations, nextGate: nat, id: nat, key: Key)
    requires GatesOk(locks, held, invocations, nextGate) && id !in invocations
    ensures var gated := if key in locks then locks else locks[key := nextGate];
            GatesOk(gated, held[id := gated[key]], invocations[id := Invocation(key, Looked)],
                    if key in locks then nextGate else nextGate + 1)
  {}

  class ActorExecutionLocks {
    /** The map of weak references. */
    var locks: map<Key, nat>
    /** The gate each invocation holds strongly. */
    var held: map<nat, nat>
    var invocations: Invocations
    var nextGate: nat

    ghost predicate Valid()
      reads this
    {
      GatesOk(locks, held, invocations, nextGate)
    }

    constructor ()
      ensures Valid() && invocations == map[]
    {
      locks, held, invocations, nextGate := map[], map[], map[], 0;
    }

    /** `strong_count() > 0`. */
    predicate Alive(gate: nat)
      reads this
    {
      exists id :: id in held && held[id] == gate
    }

    /** The permits taken from a gate's semaphore. */
    function Permits(gate: nat): set<nat>
      reads this
      requires held.Keys == invocations.Keys
    {
      set id | id in held && held[id] == gate && invocations[id].stage != Looked
    }

    predicate Locked(gate: nat)
      reads this
      requires held.Keys == invocations.Keys
    {
      exists id :: id in held && held[id] == gate && invocations[id].stage == Running
    }

    /** A gate that is held counts exactly the invocations of its actor. */
    lemma GateIsItsActors(id: nat)
      requires Valid() && id in invocations
      ensures Permits(held[id]) == Admitted(invocations, invocations[id].key)
      ensures Locked(held[id]) <==> Occupied(invocations, invocations[id].key)
    {
      forall j | j in held ensures held[j] == held[id] <==> invocations[j].key == invocations[id].key {}
      if Occupied(invocations, invocations[id].key) {
        var j :| j in invocations && invocations[j].key == invocations[id].key && invocations[j].stage == Running;
        assert j in held && held[j] == held[id];
      }
    }

    /** Gates that nobody holds leave the map: what stays are those of actors with an
        invocation. */
    method Purge()
      requires Valid()
      modifies this`locks
      ensures Valid() && locks.Keys == Actors(invocations)
    {
      hide GatesOk, Actors;
      ghost var before := locks;
      locks := map k | k in locks && Alive(locks[k]) :: locks[k];
      PurgedOk(before, held, invocations, nextGate, locks);
    }

    /** `gate`: purge dead gates, then upgrade the actor's gate or make a new one. */
    method Gate(id: nat, key: Key)
      requires Valid() && id !in invocations
      modifies this
      ensures Valid() && invocations == old(invocations)[id := Invocation(key, Looked)]
      ensures locks.Keys == Actors(old(invocations)) + {key}
    {
      hide GatesOk, Actors;
      Purge();
      GatedOk(locks, held, invocations, nextGate, id, key);
      if key !in locks {
        locks := locks[key := nextGate];
        nextGate := nextGate + 1;
      }
      held := held[id := locks[key]];
      invocations := invocations[id := Invocation(key, Looked)];
    }

    method AskPermit(id: nat)
      requires Valid() && id in invocations && invocations[id].stage == Looked
      modifies this
      ensures Valid() && invocations == Simple(old(invocations), Step.AskPermit(id))
    {
      GateIsItsActors(id);
      StagedOk(locks, held, invocations, nextGate, id, Waiting);
      hide GatesOk;
      if |Permits(held[id])| < MAX_ADMITTED {
        invocations := invocations[id := invocations[id].(stage := Waiting)];
      } else {
        Release(id);
      }
    }

    method Lock(id: nat)
      requires Valid() && id in invocations && invocations[id].stage == Waiting
      modifies this
      ensures Valid() && invocations == Simple(old(invocations), Step.Lock(id))
    {
      GateIsItsActors(id);
      StagedOk(locks, held, invocations, nextGate, id, Running);
      hide GatesOk, Occupied;
      if !Locked(held[id]) {
        invocations := invocations[id := invocations[id].(stage := Running)];
      }
    }

    method Release(id: nat)
      requires Valid()
      modifies this
      ensures Valid() && invocations == old(invocations) - {id}
    {
      held := held - {id};
      invocations := invocations - {id};
    }
  }

  /** Any interleaving of operations on the weak map gives what the permanent gates give,
      so at any time at most one guard per actor exists and at most 33 are admitted. */
  method Interleave(steps: seq<Step>) returns (trace: seq<Invocations>)
    ensures |trace| == |steps| + 1
    ensures forall i :: 0 <= i <= |steps| ==> trace[i] == SimpleRun(steps[..i]) && Exclusive(trace[i])
  {
    var locks := new ActorExecutionLocks();
    trace := [locks.invocations];
    RunsAreExclusive(steps[..0]);
    for i := 0 to |steps|
      invariant locks.Valid() && fresh(locks) && locks.invocations == SimpleRun(steps[..i])
      invariant |trace| == i + 1
      invariant forall j :: 0 <= j <= i ==> trace[j] == SimpleRun(steps[..j]) && Exclusive(trace[j])
    {
      Perform(locks, steps[i]);
      assert steps[..i + 1][..i] == steps[..i];
      RunsAreExclusive(steps[..i + 1]);
      trace := trace + [locks.invocations];
    }
  }

  method Perform(locks: ActorExecutionLocks, step: Step)
    requires locks.Valid()
    modifies locks
    ensures locks.Valid() && locks.invocations == Simple(old(locks.invocations), step)
  {
    match step {
      case Look(id, key) =>
        if id !in locks.invocations {
          locks.Gate(id, key);
        }
      case AskPermit(id) =>
        if id in locks.invocations && locks.invocations[id].stage == Looked {
          locks.AskPermit(id);
        }
      case Lock(id) =>
        if id in locks.invocations && locks.invocations[id].stage == Waiting {
          locks.Lock(id);
        }
      case Drop(id) => locks.Release(id);
    }
  }
}
