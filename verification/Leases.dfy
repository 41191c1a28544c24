/**
 Host leases: a row per host, stamped with the store's own clock. Registration is
 refused while a different session's lease is still running.
 */
module Leases {
  import opened Common

  const MAX_LEASE_MS: nat := 60_000

  datatype Lease = Lease(session: string, route: string, expires: nat)
  datatype Request = Request(host: string, session: string, route: string, duration: nat)
  type Table = map<string, Lease>

  function Find(table: Table, host: string): Option<Lease> {
    if host in table then Some(table[host]) else None
  }

  /** `HostLeaseStatus::is_active`. */
  predicate Active(lease: Option<Lease>, now: nat) {
    lease.Some? && lease.value.expires > now
  }

  predicate ValidDuration(duration: nat) {
    0 < duration <= MAX_LEASE_MS
  }

  /** The conflict clause of the upsert. */
  predicate MayRegister(table: Table, now: nat, r: Request) {
    && ValidDuration(r.duration)
    && now + r.duration <= U64_MAX
    && (r.host in table ==> table[r.host].session == r.session || table[r.host].expires <= now)
  }

  function Register(table: Table, now: nat, r: Request): Table {
    if MayRegister(table, now, r) then table[r.host := Lease(r.session, r.route, now + r.duration)] else table
  }

  function Unregister(table: Table, host: string, session: string): Table {
    if host in table && table[host].session == session then table - {host} else table
  }

  // ----- the file-backed store ---------------------------------------------------

  class LocalHostLeaseStore {
    var leases: Table

    constructor ()
      ensures leases == map[]
    {
      leases := map[];
    }

    method RegisterLease(r: Request, now: nat) returns (lease: Option<Lease>)
      modifies this
      ensures leases == Register(old(leases), now, r)
      ensures lease.Some? <==> MayRegister(old(leases), now, r)
      ensures lease.Some? ==> lease == Find(leases, r.host) && lease.value.expires == now + r.duration
    {
      if r.duration == 0 || r.duration > MAX_LEASE_MS {
        return None;
      }
      if r.host in leases {
        var current := leases[r.host];
        if current.session != r.session && current.expires > now {
          return None;
        }
      }
      if now + r.duration > U64_MAX {
        return None;
      }
      var stamped := Lease(r.session, r.route, now + r.duration);
      leases := leases[r.host := stamped];
      return Some(stamped);
    }

    method UnregisterLease(host: string, session: string)
      modifies this
      ensures leases == Unregister(old(leases), host, session)
    {
      if host !in leases {
        return;
      }
      if leases[host].session != session {
        return;
      }
      leases := map h | h in leases && h != host :: leases[h];
    }

    method LeaseStatus(host: string, now: nat) returns (lease: Option<Lease>, active: bool)
      ensures lease == Find(leases, host)
      ensures active <==> host in leases && now < leases[host].expires
    {
      lease := if host in leases then Some(leases[host]) else None;
      active := Active(lease, now);
    }
  }

  // ----- exclusion over whole runs --------------------------------------------------

  datatype Event =
    | Registering(at: nat, request: Request)
    | Unregistering(at: nat, host: string, session: string)

  function Step(table: Table, e: Event): Table {
    match e
    case Registering(at, r) => Register(table, at, r)
    case Unregistering(_, host, session) => Unregister(table, host, session)
  }

  /** The table after the first `n` events of a run. */
  function TableAfter(start: Table, events: seq<Event>, n: nat): Table
    requires n <= |events|
  {
    if n == 0 then start else Step(TableAfter(start, events, n - 1), events[n - 1])
  }

  /** The store clock never runs backwards. */
  predicate Monotone(events: seq<Event>) {
    forall i, j :: 0 <= i < j < |events| ==> events[i].at <= events[j].at
  }

  /** The host is free for a session: no other session has an unexpired lease of it. */
  predicate FreeFor(table: Table, host: string, session: string, now: nat) {
    host !in table || table[host].session == session || table[host].expires <= now
  }

  /** At any point of any run, registration gives the session the lease up to the store clock
      plus its duration exactly if the host is free for it and the duration is from 1 to
      60000 and fits; so an expired lease is taken over. Otherwise the table stays. */
  lemma RegistrationAt(start: Table, events: seq<Event>, i: nat)
    requires i < |events| && events[i].Registering?
    ensures var before, after, r := TableAfter(start, events, i), TableAfter(start, events, i + 1), events[i].request;
            if FreeFor(before, r.host, r.session, events[i].at) && 1 <= r.duration <= 60_000
               && events[i].at + r.duration <= U64_MAX
            then after == before[r.host := Lease(r.session, r.route, events[i].at + r.duration)]
            else after == before
  {}

  /** At any point of any run, unregistration removes the session's own lease, expired or not,
      and nothing else. */
  lemma UnregistrationAt(start: Table, events: seq<Event>, i: nat)
    requires i < |events| && events[i].Unregistering?
    ensures var before, after := TableAfter(start, events, i), TableAfter(start, events, i + 1);
            && (forall h :: h in after <==>
                 h in before && !(h == events[i].host && before[h].session == events[i].session))
            && (forall h :: h in after ==> after[h] == before[h])
  {}

  /** Once a session has unregistered, the next session to ask gets the host, whatever
      others did to other hosts in between. */
  lemma UnregisteredHostIsFree(start: Table, events: seq<Event>, i: nat, j: nat)
    requires i < j < |events| && events[i].Unregistering? && events[j].Registering?
    requires events[j].request.host == events[i].host && 1 <= events[j].request.duration <= 60_000
             && events[j].at + events[j].request.duration <= U64_MAX
    requires FreeFor(TableAfter(start, events, i), events[i].host, events[i].session, events[i].at) && Monotone(events)
    requires forall k :: i < k < j ==> HostOf(events[k]) != events[i].host
    ensures var r := events[j].request;
            Find(TableAfter(start, events, j + 1), r.host) == Some(Lease(r.session, r.route, events[j].at + r.duration))
  {
    var host := events[i].host;
    UnregistrationAt(start, events, i);
    OtherHosts(start, events, i + 1, j, host);
    RegistrationAt(start, events, j);
  }

  function HostOf(e: Event): string {
    match e
    case Registering(_, r) => r.host
    case Unregistering(_, host, _) => host
  }

  lemma {:induction false} OtherHosts(start: Table, events: seq<Event>, i: nat, j: nat, host: string)
    requires i <= j <= |events| && forall k :: i <= k < j ==> HostOf(events[k]) != host
    ensures Find(TableAfter(start, events, j), host) == Find(TableAfter(start, events, i), host)
    decreases j
  {
    if i < j {
      OtherHosts(start, events, i, j - 1, host);
    }
  }

  /** Event `k` finds the session's lease already expired, or is that session's
      own unregistration. */
  predicate Surrenders(start: Table, events: seq<Event>, k: nat, host: string, session: string) {
    && k < |events|
    && var lease := Find(TableAfter(start, events, k), host);
    && lease.Some?
    && lease.value.session == session
    && (lease.value.expires <= events[k].at || events[k] == Unregistering(events[k].at, host, session))
  }

  /** Whenever a host's lease leaves a session in any run, that session had let it
      expire on the store clock or had unregistered itself: no other session ever
      takes over or removes a running lease. */
  lemma {:induction false} LeaseLeavesOnlyBySurrender(start: Table, events: seq<Event>, i: nat, j: nat, host: string,
                                                      session: string)
    requires i <= j <= |events|
    requires host in TableAfter(start, events, i) && TableAfter(start, events, i)[host].session == session
    ensures || (host in TableAfter(start, events, j) && TableAfter(start, events, j)[host].session == session)
            || exists k :: i <= k < j && Surrenders(start, events, k, host, session)
    decreases j - i
  {
    if i < j {
      if host in TableAfter(start, events, i + 1) && TableAfter(start, events, i + 1)[host].session == session {
        LeaseLeavesOnlyBySurrender(start, events, i + 1, j, host, session);
      } else {
        assert Surrenders(start, events, i, host, session);
      }
    }
  }

  /** While the clock stays below the stamped expiry and the holder itself does
      nothing, the row is exactly as it was, whatever the other sessions try. */
  lemma {:induction false} RunningLeaseIsUntouched(start: Table, events: seq<Event>, i: nat, j: nat, host: string)
    requires i <= j <= |events| && Monotone(events)
    requires host in TableAfter(start, events, i)
    requires var lease := TableAfter(start, events, i)[host];
             && (i < j ==> events[j - 1].at < lease.expires)
             && forall k :: i <= k < j ==> !ActsFor(events[k], host, lease.session)
    ensures Find(TableAfter(start, events, j), host) == Find(TableAfter(start, events, i), host)
    decreases j - i
  {
    if i < j {
      assert events[i].at <= events[j - 1].at;
      assert !ActsFor(events[i], host, TableAfter(start, events, i)[host].session);
      RunningLeaseIsUntouched(start, events, i + 1, j, host);
    }
  }

  predicate ActsFor(e: Event, host: string, session: string) {
    match e
    case Registering(_, r) => r.host == host && r.session == session
    case Unregistering(_, h, s) => h == host && s == session
  }

  /** Event `k` is an unregistration by a session that no longer has the host's lease. */
  predicate StaleUnregister(start: Table, events: seq<Event>, k: nat) {
    && k < |events| && events[k].Unregistering?
    && var lease := Find(TableAfter(start, events, k), events[k].host);
    lease.Some? && lease.value.session != events[k].session
  }

  /** A stale session that unregisters late might as well not have: the rest of the run
      goes exactly as without it. */
  lemma {:induction false} StaleUnregisterLeavesNoTrace(start: Table, events: seq<Event>, k: nat, n: nat)
    requires StaleUnregister(start, events, k) && k < n <= |events|
    ensures TableAfter(start, events, n) == TableAfter(start, events[..k] + events[k + 1..], n - 1)
    decreases n
  {
    var without := events[..k] + events[k + 1..];
    if n == k + 1 {
      SameBeginning(start, events, without, k);
    } else {
      StaleUnregisterLeavesNoTrace(start, events, k, n - 1);
      assert without[n - 2] == events[n - 1];
    }
  }

  lemma {:induction false} SameBeginning(start: Table, events: seq<Event>, others: seq<Event>, n: nat)
    requires n <= |events| && n <= |others| && forall i :: 0 <= i < n ==> events[i] == others[i]
    ensures TableAfter(start, events, n) == TableAfter(start, others, n)
  {
    if n > 0 {
      SameBeginning(start, events, others, n - 1);
    }
  }

  /** Event `i` is a registration of the host that the store accepts. */
  predicate Accepts(start: Table, events: seq<Event>, i: nat, host: string, session: string, duration: nat) {
    && i < |events| && events[i].Registering?
    && events[i].request.host == host && events[i].request.session == session && events[i].request.duration == duration
    && MayRegister(TableAfter(start, events, i), events[i].at, events[i].request)
  }

  /** A holder that only renews, always for the same duration, keeps its row until the
      store clock reaches the expiry of a renewal, whatever the other sessions try. */
  lemma {:induction false} HolderKeepsRow(start: Table, events: seq<Event>, i: nat, j: nat, host: string,
                                          session: string, duration: nat)
    requires Monotone(events) && i < j <= |events| && Accepts(start, events, i, host, session, duration)
    requires forall k :: i < k < j ==> events[k].at < events[i].at + duration
    requires forall k :: i < k < j && ActsFor(events[k], host, session) ==>
             events[k].Registering? && events[k].request.duration == duration
    ensures var lease := Find(TableAfter(start, events, j), host);
            lease.Some? && lease.value.session == session && lease.value.expires >= events[i].at + duration
    decreases j
  {
    if i + 1 < j {
      HolderKeepsRow(start, events, i, j - 1, host, session, duration);
      assert events[i].at <= events[j - 1].at;
    }
  }
}
