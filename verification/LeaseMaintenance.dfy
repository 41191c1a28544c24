/**
 How a host keeps and fences its own lease. Times are real milliseconds on one axis;
 the host's and the store's clocks read whole milliseconds of it, each with its own
 constant offset.
 */
module LeaseMaintenance {
  import opened Common
  import L = Leases

  /** A clock reading: whole milliseconds, rounded down, of a shifted axis. A clock that
      rounds to the nearest millisecond is one that is shifted by half of one. */
  function Reading(t: real, offset: real): int {
    (t + offset).Floor
  }

  /** The offsets of the two clocks, and the duration the host asks for. */
  datatype Setting = Setting(host: real, store: real, duration: nat)

  /** One renewal: the host samples its clock, the store stamps the row, the reply
      arrives, the timer is anchored and the clock sampled again. */
  datatype Renewal = Renewal(start: real, stamp: real, anchor: real, sample: real)

  predicate InOrder(r: Renewal) {
    r.start <= r.stamp <= r.anchor <= r.sample
  }

  /** Whole milliseconds left when the clock is sampled again. */
  function Remaining(c: Setting, r: Renewal): int {
    Reading(r.start, c.host) + c.duration - Reading(r.sample, c.host)
  }

  /** Where the timer is set. */
  function Deadline(c: Setting, r: Renewal): real {
    r.anchor + Remaining(c, r) as real
  }

  /** `renew_once_with_deadline` after the store accepted: it returns the deadline, or an
      error if the window is over already or does not fit. */
  predicate Confirms(c: Setting, r: Renewal) {
    InOrder(r) && Reading(r.start, c.host) + c.duration <= U64_MAX && Remaining(c, r) > 0
  }

  /** A renewal is confirmed exactly if its window has not gone by when the reply arrives: its
      deadline is later than that. */
  lemma ConfirmedIff(c: Setting, r: Renewal)
    requires r.start <= r.stamp <= r.anchor <= r.sample
    ensures Confirms(c, r) <==> (r.start + c.host).Floor + c.duration <= U64_MAX && Deadline(c, r) > r.anchor
  {}

  /** The expiry the store stamps on the row. */
  function Stamped(c: Setting, r: Renewal): int {
    Reading(r.stamp, c.store) + c.duration
  }

  /** The instant from which the store's clock reads the stamped expiry or more. */
  function StoreExpiry(c: Setting, r: Renewal): real {
    Stamped(c, r) as real - c.store
  }

  /** The row is expired for the store exactly from that instant on. */
  lemma ExpiryIsWhenTheRowLapses(c: Setting, r: Renewal, t: real)
    ensures Reading(t, c.store) >= Stamped(c, r) <==> t >= StoreExpiry(c, r)
  {
    assert (t + c.store).Floor >= Stamped(c, r) <==> t + c.store >= Stamped(c, r) as real;
  }

  /** For any offsets and delays, the adopted deadline is less than one millisecond
      beyond the start of the request plus the duration. */
  lemma DeadlineBound(c: Setting, r: Renewal)
    requires Confirms(c, r)
    ensures Deadline(c, r) < r.start + c.duration as real + 1.0
  {
    assert Reading(r.start, c.host) as real <= r.start + c.host;
    assert Reading(r.sample, c.host) as real > r.sample + c.host - 1.0;
  }

  predicate Whole(t: real) {
    t == t.Floor as real
  }

  /** In whole milliseconds it is at most that, and no later than the store's expiry. */
  lemma WholeDeadlineBound(c: Setting, r: Renewal)
    requires Confirms(c, r) && Whole(r.start + c.host) && Whole(r.sample + c.host)
    ensures Deadline(c, r) <= r.start + c.duration as real
    ensures Whole(r.stamp + c.store) ==> Deadline(c, r) <= StoreExpiry(c, r)
  {}

  /** How far beyond the store's expiry the deadline may reach: two milliseconds, less the
      time the request took to be stamped. */
  function Slack(r: Renewal): real {
    2.0 - (r.stamp - r.start)
  }

  lemma DeadlineMeetsExpiry(c: Setting, r: Renewal)
    requires Confirms(c, r)
    ensures Deadline(c, r) < StoreExpiry(c, r) + Slack(r)
  {
    DeadlineBound(c, r);
    assert Reading(r.stamp, c.store) as real > r.stamp + c.store - 1.0;
  }

  /** A renewal whose request took `delay` to be stamped and whose local deadline is
      the last to lapse. */
  predicate Late(c: Setting, r: Renewal, delay: real) {
    Confirms(c, r) && r.stamp - r.start == delay && Deadline(c, r) > StoreExpiry(c, r)
  }

  /** The local window always lapses at or before the stamped expiry exactly if the
      request took at least two milliseconds to reach the store. */
  lemma LapsesFirstIffTwoMilliseconds(delay: real)
    requires delay >= 0.0
    ensures (forall c, r :: !Late(c, r, delay)) <==> delay >= 2.0
  {
    if delay >= 2.0 {
      forall c, r ensures !Late(c, r, delay) {
        if Confirms(c, r) && r.stamp - r.start == delay {
          DeadlineMeetsExpiry(c, r);
        }
      }
    } else {
      var _, _ := LateRenewal(delay);
    }
  }

  /** Sampled just after a tick, stamped and answered just before one. */
  lemma LateRenewal(delay: real) returns (c: Setting, r: Renewal)
    requires 0.0 <= delay < 2.0
    ensures Late(c, r, delay)
  {
    var slack := (2.0 - delay) / 4.0;
    c := Setting(0.0, 3.0 - slack - delay, 1000);
    r := Renewal(0.0, delay, 3.0 - slack, 3.0 - slack);
    assert (3.0 - slack).Floor == 2;
  }

  // ----- the loop --------------------------------------------------------------------------------

  /** What a renewal in flight has come to. */
  datatype Progress = InFlight | RenewalFailed | Confirmed(renewal: Renewal)

  /** One time the renewal loop is polled: whether it is told to stop, whether the
      renewal interval has elapsed since it last began to wait, and the renewal. */
  datatype Poll = Poll(at: real, shutdown: bool, elapsed: bool, progress: Progress)

  /** `renewal` is the one whose deadline is in force. */
  datatype Loop = Loop(renewal: Renewal, renewing: bool, running: bool, lost: bool)

  /** The two biased selects: stop first, then the deadline, then progress. */
  function Polled(c: Setting, t: Loop, p: Poll): Loop {
    if !t.running then t
    else if p.shutdown then t.(running := false)
    else if p.at >= Deadline(c, t.renewal) then t.(running := false, lost := true)
    else if !t.renewing then t.(renewing := p.elapsed)
    else match p.progress
         case InFlight => t
         case RenewalFailed => t.(renewing := false)
         case Confirmed(renewal) => t.(renewing := false, renewal := renewal)
  }

  function After(c: Setting, initial: Renewal, polls: seq<Poll>): Loop {
    if polls == [] then Loop(initial, false, true, false)
    else Polled(c, After(c, initial, polls[..|polls| - 1]), polls[|polls| - 1])
  }

  /** A poll adopts a new renewal. */
  predicate Adopts(c: Setting, initial: Renewal, polls: seq<Poll>, i: nat)
    requires i < |polls|
  {
    var t := After(c, initial, polls[..i]);
    t.running && t.renewing && !polls[i].shutdown && polls[i].at < Deadline(c, t.renewal)
      && polls[i].progress.Confirmed?
  }

  /** The renewal in force changes by adoption and by nothing else: failures never move
      the deadline. */
  lemma OnlyAdoptionMovesTheDeadline(c: Setting, initial: Renewal, polls: seq<Poll>, i: nat)
    requires i < |polls|
    ensures After(c, initial, polls[..i + 1]).renewal ==
            if Adopts(c, initial, polls, i) then polls[i].progress.renewal else After(c, initial, polls[..i]).renewal
  {
    assert polls[..i + 1][..i] == polls[..i];
  }

  /** Once the deadline in force has passed unadopted, renewal is over: the loop reports the
      lease lost, or was told to stop, and adopts nothing ever after. */
  lemma {:induction false} NoAdoptionAfterTheDeadline(c: Setting, initial: Renewal, polls: seq<Poll>, i: nat, j: nat)
    requires i <= j < |polls| && polls[i].at >= Deadline(c, After(c, initial, polls[..i]).renewal)
    ensures !Adopts(c, initial, polls, j)
    ensures var t := After(c, initial, polls[..j + 1]);
            !t.running && t.renewal == After(c, initial, polls[..i]).renewal
    ensures After(c, initial, polls[..i]).running && !polls[i].shutdown ==> After(c, initial, polls[..j + 1]).lost
    decreases j
  {
    assert polls[..j + 1][..j] == polls[..j];
    if i < j {
      NoAdoptionAfterTheDeadline(c, initial, polls, i, j - 1);
    }
  }

  // ----- a host that renews in time -------------------------------------------------------------------

  /** The loop comes to none of its ends at these polls: it is not told to stop, and the
      deadline of the renewal in force has not come. */
  predicate InTime(c: Setting, r: Renewal, polls: seq<Poll>) {
    forall i :: 0 <= i < |polls| ==> !polls[i].shutdown && polls[i].at < Deadline(c, r)
  }

  lemma {:induction false} AfterMore(c: Setting, initial: Renewal, polls: seq<Poll>, p: Poll)
    ensures After(c, initial, polls + [p]) == Polled(c, After(c, initial, polls), p)
  {
    assert (polls + [p])[..|polls|] == polls;
  }

  /** Polls at which nothing happens leave the loop as it is: the interval has not elapsed,
      or the request is still under way. */
  lemma {:induction false} Waiting(c: Setting, initial: Renewal, polls: seq<Poll>, more: seq<Poll>)
    requires var t := After(c, initial, polls);
             && t.running && InTime(c, t.renewal, more)
             && forall i :: 0 <= i < |more| ==> if t.renewing then more[i].progress.InFlight? else !more[i].elapsed
    ensures After(c, initial, polls + more) == After(c, initial, polls)
    decreases |more|
  {
    if more == [] {
      assert polls + more == polls;
    } else {
      var n := |more| - 1;
      Waiting(c, initial, polls, more[..n]);
      assert polls + more == (polls + more[..n]) + [more[n]];
      AfterMore(c, initial, polls + more[..n], more[n]);
    }
  }

  /** One round of the loop: it waits, the interval elapses, the request is under way, and
      comes to an end. */
  datatype Round = Round(waits: seq<Poll>, elapses: Poll, flight: seq<Poll>, ends: Poll)

  function PollsOf(r: Round): seq<Poll> {
    r.waits + [r.elapses] + r.flight + [r.ends]
  }

  function AllPolls(rounds: seq<Round>): seq<Poll> {
    if rounds == [] then [] else AllPolls(rounds[..|rounds| - 1]) + PollsOf(rounds[|rounds| - 1])
  }

  /** The renewal confirmed last. */
  function LastConfirmed(initial: Renewal, rounds: seq<Round>): Renewal {
    if rounds == [] then initial
    else
      var last := rounds[|rounds| - 1];
      if last.ends.progress.Confirmed? then last.ends.progress.renewal
      else LastConfirmed(initial, rounds[..|rounds| - 1])
  }

  predicate IsRound(r: Round) {
    && (forall i :: 0 <= i < |r.waits| ==> !r.waits[i].elapsed) && r.elapses.elapsed
    && (forall i :: 0 <= i < |r.flight| ==> r.flight[i].progress.InFlight?) && !r.ends.progress.InFlight?
  }

  /** Every round is over before the deadline of the renewal confirmed last before it. */
  predicate Punctual(c: Setting, initial: Renewal, rounds: seq<Round>) {
    forall k :: 0 <= k < |rounds| ==>
      IsRound(rounds[k]) && InTime(c, LastConfirmed(initial, rounds[..k]), PollsOf(rounds[k]))
  }

  /** In any state of a waiting loop, a request that is made once the interval has elapsed and
      that is confirmed before the deadline is in force afterwards; one that fails leaves
      the renewal that was. */
  lemma RoundIsAdopted(c: Setting, initial: Renewal, polls: seq<Poll>, r: Round)
    requires var t := After(c, initial, polls);
             t.running && !t.renewing && IsRound(r) && InTime(c, t.renewal, PollsOf(r))
    ensures var t := After(c, initial, polls);
            After(c, initial, polls + PollsOf(r))
            == t.(renewal := if r.ends.progress.Confirmed? then r.ends.progress.renewal else t.renewal)
  {
    hide After, Polled, InTime, PollsOf;
    var t := After(c, initial, polls);
    PartsInTime(c, t.renewal, r);
    var waited := polls + r.waits + [r.elapses];
    Waiting(c, initial, polls, r.waits);
    StartsRequest(c, initial, polls + r.waits, r.elapses);
    Waiting(c, initial, waited, r.flight);
    EndsRequest(c, initial, waited + r.flight, r.ends);
    assert polls + PollsOf(r) == waited + r.flight + [r.ends] by { PartsOf(polls, r); }
  }

  lemma PartsOf(polls: seq<Poll>, r: Round)
    ensures polls + PollsOf(r) == polls + r.waits + [r.elapses] + r.flight + [r.ends]
  {}

  lemma PartsInTime(c: Setting, renewal: Renewal, r: Round)
    requires InTime(c, renewal, PollsOf(r))
    ensures InTime(c, renewal, r.waits) && InTime(c, renewal, r.flight)
    ensures InTime(c, renewal, [r.elapses]) && InTime(c, renewal, [r.ends])
  {
    var all := PollsOf(r);
    assert forall i :: 0 <= i < |r.waits| ==> all[i] == r.waits[i];
    assert forall i :: 0 <= i < |r.flight| ==> all[|r.waits| + 1 + i] == r.flight[i];
    assert all[|r.waits|] == r.elapses && all[|all| - 1] == r.ends;
  }

  lemma StartsRequest(c: Setting, initial: Renewal, polls: seq<Poll>, p: Poll)
    requires var t := After(c, initial, polls); t.running && !t.renewing && InTime(c, t.renewal, [p]) && p.elapsed
    ensures After(c, initial, polls + [p]) == After(c, initial, polls).(renewing := true)
  {
    AfterMore(c, initial, polls, p);
    assert [p][0] == p;
  }

  lemma EndsRequest(c: Setting, initial: Renewal, polls: seq<Poll>, p: Poll)
    requires var t := After(c, initial, polls); t.running && t.renewing && InTime(c, t.renewal, [p])
    requires !p.progress.InFlight?
    ensures var t := After(c, initial, polls);
            After(c, initial, polls + [p])
            == t.(renewing := false, renewal := if p.progress.Confirmed? then p.progress.renewal else t.renewal)
  {
    AfterMore(c, initial, polls, p);
    assert [p][0] == p;
  }

  /** A host whose renewals each end before the deadline in force never loses its lease: the
      loop goes on waiting, with the renewal confirmed last in force. */
  lemma {:induction false} PunctualLoopRunsOn(c: Setting, initial: Renewal, rounds: seq<Round>)
    requires Punctual(c, initial, rounds)
    ensures After(c, initial, AllPolls(rounds)) == Loop(LastConfirmed(initial, rounds), false, true, false)
  {
    if rounds != [] {
      var n := |rounds| - 1;
      assert forall k :: 0 <= k < n ==> rounds[..n][..k] == rounds[..k];
      PunctualLoopRunsOn(c, initial, rounds[..n]);
      RoundIsAdopted(c, initial, AllPolls(rounds[..n]), rounds[n]);
    }
  }

  /** The loop comes to none of its ends at poll `i`. */
  predicate GoesOn(c: Setting, initial: Renewal, polls: seq<Poll>, i: nat)
    requires i < |polls|
  {
    !polls[i].shutdown && polls[i].at < Deadline(c, After(c, initial, polls[..i]).renewal)
  }

  /** Poll `i` is the first at which the loop comes to an end, and the deadline is why. */
  predicate LosesAt(c: Setting, initial: Renewal, polls: seq<Poll>, i: nat)
    requires i < |polls|
  {
    && (forall k :: 0 <= k < i ==> GoesOn(c, initial, polls, k))
    && !polls[i].shutdown && polls[i].at >= Deadline(c, After(c, initial, polls[..i]).renewal)
  }

  lemma {:induction false} RunningIff(c: Setting, initial: Renewal, polls: seq<Poll>, n: nat)
    requires n <= |polls|
    ensures After(c, initial, polls[..n]).running <==> forall i :: 0 <= i < n ==> GoesOn(c, initial, polls, i)
  {
    if n > 0 {
      RunningIff(c, initial, polls, n - 1);
      assert polls[..n][..n - 1] == polls[..n - 1] && polls[..n][n - 1] == polls[n - 1];
      assert After(c, initial, polls[..n]).running
             <==> After(c, initial, polls[..n - 1]).running && GoesOn(c, initial, polls, n - 1);
    }
  }

  /** And the lease is reported lost exactly if the loop, not told to stop before, is polled at
      or after the deadline in force. */
  lemma {:induction false} LostIff(c: Setting, initial: Renewal, polls: seq<Poll>, n: nat)
    requires n <= |polls|
    ensures After(c, initial, polls[..n]).lost <==> exists i :: 0 <= i < n && LosesAt(c, initial, polls, i)
  {
    hide LosesAt, GoesOn;
    if n > 0 {
      LostIff(c, initial, polls, n - 1);
      LosesOnce(c, initial, polls, n - 1);
    }
  }

  lemma LosesOnce(c: Setting, initial: Renewal, polls: seq<Poll>, n: nat)
    requires n < |polls|
    ensures After(c, initial, polls[..n + 1]).lost <==>
            After(c, initial, polls[..n]).lost || LosesAt(c, initial, polls, n)
  {
    RunningIff(c, initial, polls, n);
    assert polls[..n + 1][..n] == polls[..n];
  }

  // ----- self-fencing ------------------------------------------------------------------------------

  /** The loop is given renewals that this host really made, each finished when it is
      looked at; anything else is a failure to the code. */
  predicate Genuine(c: Setting, initial: Renewal, polls: seq<Poll>) {
    && Confirms(c, initial)
    && forall i :: 0 <= i < |polls| && polls[i].progress.Confirmed? ==>
         Confirms(c, polls[i].progress.renewal) && polls[i].progress.renewal.sample <= polls[i].at
  }

  /** The renewal in force is the initial one or one that a poll delivered. */
  lemma {:induction false} InForce(c: Setting, initial: Renewal, polls: seq<Poll>)
    requires Genuine(c, initial, polls)
    ensures Confirms(c, After(c, initial, polls).renewal)
    ensures var r := After(c, initial, polls).renewal;
            r == initial || exists i :: 0 <= i < |polls| && polls[i].progress == Confirmed(r)
  {
    if polls != [] {
      InForce(c, initial, polls[..|polls| - 1]);
    }
  }

  /** Self-fencing: a poll that leaves the loop running comes before the expiry that the
      store stamped for the very renewal in force, plus its slack: less than two
      milliseconds past that expiry, and before it if the stamp took two. */
  lemma RunningIsLeased(c: Setting, initial: Renewal, polls: seq<Poll>, i: nat)
    requires Genuine(c, initial, polls) && i < |polls| && After(c, initial, polls[..i + 1]).running
    ensures var r := After(c, initial, polls[..i]).renewal;
            polls[i].at < StoreExpiry(c, r) + Slack(r) && Slack(r) <= 2.0
  {
    assert polls[..i + 1][..i] == polls[..i];
    InForce(c, initial, polls[..i]);
    DeadlineMeetsExpiry(c, After(c, initial, polls[..i]).renewal);
  }

  /** Event `e` of the store is the registration that a renewal got accepted. */
  predicate StampedBy(c: Setting, r: Renewal, table: L.Table, events: seq<L.Event>, e: nat, host: string,
                      session: string) {
    L.Accepts(table, events, e, host, session, c.duration) && events[e].at == Reading(r.stamp, c.store)
  }

  /** And so the row is still this session's. Take any state of the store up to the slack
      before a poll that leaves the loop running: if this session has done nothing but
      renew, no other session has the host's lease there, and it has not expired. */
  lemma RunningHostHasItsRow(c: Setting, initial: Renewal, polls: seq<Poll>, i: nat,
                             table: L.Table, events: seq<L.Event>, e: nat, n: nat, host: string, session: string)
    requires Genuine(c, initial, polls) && i < |polls| && After(c, initial, polls[..i + 1]).running
    requires L.Monotone(events) && e < n <= |events|
    requires StampedBy(c, After(c, initial, polls[..i]).renewal, table, events, e, host, session)
    requires forall k :: e < k < n && L.ActsFor(events[k], host, session) ==>
               events[k].Registering? && events[k].request.duration == c.duration
    requires var r := After(c, initial, polls[..i]).renewal;
             forall k :: e < k < n ==> events[k].at <= Reading(polls[i].at - Slack(r), c.store)
    ensures var lease := L.Find(L.TableAfter(table, events, n), host);
            && lease.Some? && lease.value.session == session
            && lease.value.expires > Reading(polls[i].at - Slack(After(c, initial, polls[..i]).renewal), c.store)
  {
    var r := After(c, initial, polls[..i]).renewal;
    RunningIsLeased(c, initial, polls, i);
    ExpiryIsWhenTheRowLapses(c, r, polls[i].at - Slack(r));
    L.HolderKeepsRow(table, events, e, n, host, session, c.duration);
  }

  /** `renew_until_stopped`: the loop over polls of its two selects. */
  method RenewUntilStopped(c: Setting, initial: Renewal, polls: seq<Poll>)
    returns (renewal: Renewal, lost: bool, stopped: bool)
    ensures var t := After(c, initial, polls);
            renewal == t.renewal && lost == t.lost && stopped == !t.running
  {
    renewal, lost, stopped := initial, false, false;
    var renewing := false;
    for i := 0 to |polls|
      invariant Loop(renewal, renewing, !stopped, lost) == After(c, initial, polls[..i])
    {
      assert polls[..i + 1][..i] == polls[..i];
      var poll := polls[i];
      if stopped {
        continue;
      }
      if poll.shutdown {
        stopped := true;
        continue;
      }
      if poll.at >= Deadline(c, renewal) {
        lost, stopped := true, true;
        continue;
      }
      if !renewing {
        renewing := poll.elapsed;
      } else {
        match poll.progress {
          case InFlight =>
          case RenewalFailed => renewing := false;
          case Confirmed(next) =>
            renewal := next;
            renewing := false;
        }
      }
    }
    assert polls[..|polls|] == polls;
  }
}
