/**
 Placement rows: who owns an object, at which epoch, and which snapshot is its
 durable head. Both stores are given as functions from a row to the next row, and
 the in-memory one also as the class that mutates its map.
 */
module Placement {
  import opened Common

  datatype Row = Row(
    owner: string,
    epoch: nat,
    region: string,
    version: nat,
    objectName: Option<string>,
    lastRequest: Option<string>)

  datatype Commit = Commit(
    owner: string,
    session: string,
    epoch: nat,
    expected: nat,
    objectName: string,
    request: string)

  datatype Claimed = Acquired(row: Row) | Current(row: Row) | ClaimFailed
  datatype Committed = Committed(row: Row) | Superseded(row: Row) | CommitFailed

  predicate ValidRegion(region: string) {
    && 0 < ByteLength(region) <= 64
    && forall i :: 0 <= i < |region| ==>
         'a' <= region[i] <= 'z' || '0' <= region[i] <= '9' || region[i] in "._-"
  }

  predicate ValidStorageKey(key: string) {
    && 0 < ByteLength(key) <= 255
    && key != "." && key != ".."
    && forall i :: 0 <= i < |key| ==> key[i] != '/' && key[i] != '\\' && !IsControl(key[i])
  }

  predicate ValidCommit(key: string, c: Commit) {
    && ValidStorageKey(key)
    && c.owner != "" && c.session != "" && c.epoch > 0
    && 0 < ByteLength(c.objectName) <= 1024
    && 0 < ByteLength(c.request) <= 255
  }

  /** `is_replayed_commit`. */
  predicate IsReplayed(row: Row, c: Commit) {
    && row.version == SaturatingIncrement(c.expected)
    && row.objectName == Some(c.objectName)
    && row.lastRequest == Some(c.request)
  }

  /** The owner, epoch and version guard shared by both stores. */
  predicate Matches(row: Row, c: Commit) {
    row.owner == c.owner && row.epoch == c.epoch && row.version == c.expected
  }

  function FirstRow(owner: string, region: string): Row {
    Row(owner, 1, region, 0, None, None)
  }

  function Advance(row: Row, c: Commit): Row {
    row.(version := row.version + 1, objectName := Some(c.objectName), lastRequest := Some(c.request))
  }

  function Transfer(row: Row, owner: string): Row {
    row.(owner := owner, epoch := row.epoch + 1)
  }

  // ----- the in-memory store ------------------------------------------------

  function LocalClaim(row: Option<Row>, expected: Option<Row>, owner: string, region: string): Claimed {
    if !ValidRegion(region) then ClaimFailed
    else if row.None? then
      if expected.None? then Acquired(FirstRow(owner, region)) else ClaimFailed
    else if expected == row then
      if row.value.region != region then ClaimFailed
      else if row.value.owner == owner then Current(row.value)
      else if row.value.epoch >= U64_MAX then ClaimFailed
      else Acquired(Transfer(row.value, owner))
    else Current(row.value)
  }

  /** Replay is tested before the guard. */
  function LocalCommit(row: Option<Row>, c: Commit): Committed {
    if row.None? then CommitFailed
    else if IsReplayed(row.value, c) then Committed(row.value)
    else if !Matches(row.value, c) then Superseded(row.value)
    else if row.value.version >= U64_MAX then CommitFailed
    else Committed(Advance(row.value, c))
  }

  // ----- the PostgreSQL store, when no other statement runs in between -------

  /** Epochs and versions are BIGINT: what does not fit fails before the statement, an
      increment that overflows fails in it. */
  function PostgresClaim(row: Option<Row>, expected: Option<Row>, owner: string, region: string): Claimed {
    if !ValidRegion(region) then ClaimFailed
    else if expected.None? then
      if row.None? then Acquired(FirstRow(owner, region)) else Current(row.value)
    else if expected.value.region != region then ClaimFailed
    else if expected.value.owner == owner then
      if row.None? then ClaimFailed else Current(row.value)
    else if expected.value.epoch > I64_MAX then ClaimFailed
    else if row.None? then ClaimFailed
    else if !SameOwnership(row.value, expected.value) then Current(row.value)
    else if row.value.epoch >= I64_MAX then ClaimFailed
    else Acquired(Transfer(row.value, owner))
  }

  predicate SameOwnership(row: Row, expected: Row) {
    row.owner == expected.owner && row.epoch == expected.epoch && row.region == expected.region
  }

  /** The epoch and the expected version of a commit fit a BIGINT. */
  predicate Fits(c: Commit) {
    c.epoch <= I64_MAX && c.expected <= I64_MAX
  }

  /** The update is tried first; a miss is followed by a read that tests replay. */
  function PostgresCommit(row: Option<Row>, leased: bool, c: Commit): Committed {
    if !Fits(c) || row.None? then CommitFailed
    else if leased && Matches(row.value, c) then
      if row.value.version >= I64_MAX then CommitFailed else Committed(Advance(row.value, c))
    else if IsReplayed(row.value, c) then Committed(row.value)
    else Superseded(row.value)
  }

  /** The row a claim or commit leaves behind. */
  function AfterClaim(row: Option<Row>, answer: Claimed): Option<Row> {
    if answer.Acquired? then Some(answer.row) else row
  }

  function AfterCommit(row: Option<Row>, answer: Committed): Option<Row> {
    if answer.Committed? then Some(answer.row) else row
  }

  // ----- where the two stores agree -------------------------------------------

  /** A row that PostgreSQL can hold. */
  predicate Storable(row: Row) {
    row.epoch <= I64_MAX && row.version <= I64_MAX
  }

  /** With a live lease the order of the replay test and the update is unobservable
      on every storable row exactly for expected versions below the BIGINT maximum and
      epochs up to it; beyond, PostgreSQL fails where the in-memory store answers. */
  lemma CommitOrderAgreesBelowMaximum(c: Commit)
    requires c.expected <= U64_MAX
    ensures c.expected < I64_MAX && c.epoch <= I64_MAX <==>
            forall row: Row :: Storable(row) ==> LocalCommit(Some(row), c) == PostgresCommit(Some(row), true, c)
  {
    if c.expected >= I64_MAX || c.epoch > I64_MAX {
      var row := Row(c.owner, if Fits(c) then c.epoch else 0, "r", if Fits(c) then c.expected else 0, None, None);
      assert Storable(row) && !LocalCommit(Some(row), c).CommitFailed?;
      assert PostgresCommit(Some(row), true, c) == CommitFailed;
    }
  }

  /** The order alone, on rows of the whole u64 range: testing replay first or last is
      the same exactly below the u64 maximum, where the saturated replay test answers
      for a row that the update would also have matched. */
  lemma ReplayOrderAgreesBelowMaximum(c: Commit)
    requires c.expected <= U64_MAX
    ensures c.expected < U64_MAX <==> forall row: Row :: !(IsReplayed(row, c) && Matches(row, c))
  {
    if c.expected == U64_MAX {
      var row := Row(c.owner, c.epoch, "r", U64_MAX, Some(c.objectName), Some(c.request));
      assert IsReplayed(row, c) && Matches(row, c);
    }
  }

  /** A lost lease can only turn an advance into a refusal, never into a
      different advance, and replayed answers survive it. */
  lemma LostLeaseNeverAdvances(row: Option<Row>, c: Commit)
    ensures AfterCommit(row, PostgresCommit(row, false, c)) == row
    ensures PostgresCommit(row, false, c).Committed? <==> Fits(c) && row.Some? && IsReplayed(row.value, c)
  {}

  /** The row of another owner, at the next epoch, with its head unchanged. */
  predicate TakenOver(row: Row, owner: string, after: Row) {
    after == Row(owner, row.epoch + 1, row.region, row.version, row.objectName, row.lastRequest)
  }

  /** In the row's own fields, a PostgreSQL claim acquires exactly if there is no row and none
      is expected, or the row has the expected owner, epoch and region, that region is the
      claimant's and the owner is another. */
  lemma PostgresAcquiresIff(row: Option<Row>, expected: Option<Row>, owner: string, region: string)
    ensures var answer := PostgresClaim(row, expected, owner, region);
            && (answer.Acquired? <==>
                  && ValidRegion(region)
                  && if row.None? || expected.None? then row.None? && expected.None? else
                       && row.value.owner == expected.value.owner != owner
                       && row.value.epoch == expected.value.epoch < I64_MAX
                       && row.value.region == expected.value.region == region)
            && (answer.Acquired? && row.Some? ==> TakenOver(row.value, owner, answer.row))
            && (answer.Acquired? && row.None? ==> answer.row == Row(owner, 1, region, 0, None, None))
            && (answer.Current? ==> row == Some(answer.row))
  {}

  /** An in-memory claim acquires exactly if the whole row is the expected one. */
  lemma LocalAcquiresIff(row: Option<Row>, expected: Option<Row>, owner: string, region: string)
    ensures var answer := LocalClaim(row, expected, owner, region);
            && (answer.Acquired? <==>
                  && ValidRegion(region) && row == expected
                  && (row.Some? ==>
                        row.value.owner != owner && row.value.epoch < U64_MAX && row.value.region == region))
            && (answer.Acquired? && row.Some? ==> TakenOver(row.value, owner, answer.row))
            && (answer.Acquired? && row.None? ==> answer.row == Row(owner, 1, region, 0, None, None))
            && (answer.Current? ==> row == Some(answer.row))
  {}

  /** The commit is the row's head already. */
  predicate IsHead(row: Row, c: Commit) {
    && row.version == (if c.expected < U64_MAX then c.expected + 1 else U64_MAX)
    && row.objectName == Some(c.objectName) && row.lastRequest == Some(c.request)
  }

  /** The commit is its owner's, for the version the row has. */
  predicate IsNext(row: Row, c: Commit) {
    row.owner == c.owner && row.epoch == c.epoch && row.version == c.expected
  }

  /** The row with this commit as its head. */
  function Moved(row: Row, c: Commit): Row {
    Row(row.owner, row.epoch, row.region, row.version + 1, Some(c.objectName), Some(c.request))
  }

  /** In the row's own fields, an in-memory commit is confirmed exactly if it is the head
      already, and then nothing changes, or it is the next one of the row's owner, and then
      it is the head. */
  lemma LocalCommittedIff(row: Row, c: Commit)
    ensures LocalCommit(Some(row), c)
            == if IsHead(row, c) then Committed(row)
               else if !IsNext(row, c) then Superseded(row)
               else if row.version < U64_MAX then Committed(Moved(row, c)) else CommitFailed
  {}

  /** A PostgreSQL commit likewise, with a live lease for the second, and as far as its
      numbers fit a BIGINT. */
  lemma PostgresCommittedIff(row: Row, leased: bool, c: Commit)
    requires row.version <= I64_MAX
    ensures PostgresCommit(Some(row), leased, c)
            == if c.epoch > I64_MAX || c.expected > I64_MAX then CommitFailed
               else if IsHead(row, c) then Committed(row)
               else if !leased || !IsNext(row, c) then Superseded(row)
               else if row.version < I64_MAX then Committed(Moved(row, c)) else CommitFailed
  {}

  // ----- what is refused before any row is looked at -------------------------------------------

  /** Regions are 1 to 64 lower-case letters, digits, dots, underscores and dashes. */
  lemma {:induction false} ValidRegionIff(region: string)
    ensures ValidRegion(region) <==>
            && 1 <= |region| <= 64
            && forall i :: 0 <= i < |region| ==>
                 97 <= region[i] as int <= 122 || 48 <= region[i] as int <= 57 || region[i] in {'.', '_', '-'}
  {
    assert forall c: char :: c in "._-" <==> c in {'.', '_', '-'} by { Punctuation(); }
    if forall i :: 0 <= i < |region| ==> 'a' <= region[i] <= 'z' || '0' <= region[i] <= '9' || region[i] in "._-" {
      ByteLengthOfAscii(region);
    }
  }

  lemma Punctuation()
    ensures forall c: char :: c in "._-" <==> c in {'.', '_', '-'}
  {
    assert "._-"[0] == '.' && "._-"[1] == '_' && "._-"[2] == '-';
  }

  /** A storage key names one entry of a directory: not empty, not the directory or its
      parent, at most 255 bytes, with no separators and no control characters. */
  lemma InvalidStorageKeys(key: string, i: nat)
    ensures !ValidStorageKey("") && !ValidStorageKey(".") && !ValidStorageKey("..")
    ensures ByteLength(key) > 255 ==> !ValidStorageKey(key)
    ensures i < |key| && (key[i] == '/' || key[i] == '\\' || IsControl(key[i])) ==> !ValidStorageKey(key)
  {}

  /** A commit for such a key, or of an object whose name is empty or has more than 1024
      bytes, is refused. */
  lemma IllFormedCommits(key: string, c: Commit)
    ensures !ValidStorageKey(key) || c.objectName == "" || ByteLength(c.objectName) > 1024 ==> !ValidCommit(key, c)
  {}

  /** The claims of the two stores differ exactly where PostgreSQL ignores the state
      head, at the BIGINT maximum, and where only one of them looks at a stale
      expectation's region. */
  lemma ClaimsAgree(row: Option<Row>, expected: Option<Row>, owner: string, region: string)
    requires ValidRegion(region) && (row.Some? ==> Storable(row.value))
    ensures LocalClaim(row, expected, owner, region) == PostgresClaim(row, expected, owner, region) <==>
            row.None? || expected.None? ||
            (if expected == row then
               row.value.region != region || row.value.owner == owner || row.value.epoch < I64_MAX
             else
               expected.value.region == region &&
               (expected.value.owner == owner
                || (&& expected.value.epoch <= I64_MAX
                    && !(&& row.value.owner == expected.value.owner && row.value.epoch == expected.value.epoch
                         && row.value.region == expected.value.region))))
  {}

  /** A head that moved between the read and the claim: PostgreSQL transfers and
      keeps the new head, the in-memory store reports the current row. */
  lemma ClaimsDisagree()
    ensures exists row, expected ::
              && LocalClaim(Some(row), Some(expected), "host-b", "us-east") == Current(row)
              && PostgresClaim(Some(row), Some(expected), "host-b", "us-east") == Acquired(Transfer(row, "host-b"))
  {
    var expected := FirstRow("host-a", "us-east");
    var row := expected.(version := 1, objectName := Some("o"), lastRequest := Some("r"));
    assert ByteLength("us-east") == 7 by { ByteLengthOfAscii("us-east"); }
    assert LocalClaim(Some(row), Some(expected), "host-b", "us-east") == Current(row);
    assert PostgresClaim(Some(row), Some(expected), "host-b", "us-east") == Acquired(Transfer(row, "host-b"));
  }

  // ----- the class --------------------------------------------------------------

  class LocalObjectPlacementStore {
    var placements: map<string, Row>

    constructor ()
      ensures placements == map[]
    {
      placements := map[];
    }

    function Get(key: string): (r: Option<Row>)
      reads this
      ensures r.Some? <==> key in placements
      ensures r.Some? ==> r.value == placements[key]
    {
      if key in placements then Some(placements[key]) else None
    }

    method Claim(key: string, expected: Option<Row>, owner: string, region: string) returns (answer: Claimed)
      modifies this
      ensures answer == LocalClaim(old(Get(key)), expected, owner, region)
      ensures Get(key) == AfterClaim(old(Get(key)), answer)
      ensures forall k :: k != key ==> Get(k) == old(Get(k))
    {
      if !ValidRegion(region) {
        return ClaimFailed;
      }
      if key !in placements {
        if expected.Some? {
          return ClaimFailed;
        }
        var row := Row(owner, 1, region, 0, None, None);
        placements := placements[key := row];
        return Acquired(row);
      }
      var current := placements[key];
      if expected != Some(current) {
        return Current(current);
      }
      if current.region != region {
        return ClaimFailed;
      }
      if current.owner == owner {
        return Current(current);
      }
      if current.epoch >= U64_MAX {
        return ClaimFailed;
      }
      var row := Row(owner, current.epoch + 1, region, current.version, current.objectName, current.lastRequest);
      placements := placements[key := row];
      return Acquired(row);
    }

    method CommitState(key: string, c: Commit) returns (answer: Committed)
      modifies this
      ensures answer == if ValidCommit(key, c) then LocalCommit(old(Get(key)), c) else CommitFailed
      ensures Get(key) == AfterCommit(old(Get(key)), answer)
      ensures forall k :: k != key ==> Get(k) == old(Get(k))
    {
      if !ValidCommit(key, c) || key !in placements {
        return CommitFailed;
      }
      var current := placements[key];
      if IsReplayed(current, c) {
        return Committed(current);
      }
      if current.owner != c.owner || current.epoch != c.epoch || current.version != c.expected {
        return Superseded(current);
      }
      if current.version >= U64_MAX {
        return CommitFailed;
      }
      var next := current;
      next := next.(version := next.version + 1);
      next := next.(objectName := Some(c.objectName));
      next := next.(lastRequest := Some(c.request));
      placements := placements[key := next];
      return Committed(next);
    }
  }

  // ----- epoch fencing over whole runs of the in-memory store -------------------

  datatype Operation =
    | ClaimOp(expected: Option<Row>, owner: string, region: string)
    | CommitOp(commit: Commit)

  function Perform(row: Option<Row>, op: Operation): Option<Row> {
    match op
    case ClaimOp(expected, owner, region) => AfterClaim(row, LocalClaim(row, expected, owner, region))
    case CommitOp(c) => AfterCommit(row, LocalCommit(row, c))
  }

  /** The row after each prefix of a run. */
  function RowAfter(ops: seq<Operation>): Option<Row> {
    if ops == [] then None else Perform(RowAfter(ops[..|ops| - 1]), ops[|ops| - 1])
  }

  /** What every later row keeps of an earlier one. */
  predicate Follows(earlier: Row, later: Row) {
    && earlier.region == later.region
    && earlier.epoch <= later.epoch
    && earlier.version <= later.version
    && (earlier.epoch == later.epoch ==> earlier.owner == later.owner)
    && (earlier.version == later.version ==>
          earlier.objectName == later.objectName && earlier.lastRequest == later.lastRequest)
  }

  /** Over every run: the row never disappears, the home region is fixed, an
      epoch determines its owner, a version determines its snapshot. */
  lemma {:induction false} RowsFollow(ops: seq<Operation>, i: nat)
    requires i <= |ops|
    requires RowAfter(ops[..i]).Some?
    ensures RowAfter(ops).Some? && Follows(RowAfter(ops[..i]).value, RowAfter(ops).value)
  {
    if i == |ops| {
      assert ops[..i] == ops;
    } else {
      var shorter := ops[..|ops| - 1];
      assert shorter[..i] == ops[..i];
      RowsFollow(shorter, i);
    }
  }

  /** At any point of a run an acquired row and a confirmed head are what the store holds from
      then on, and any other answer leaves the row as it was. */
  lemma AnswersAreStored(ops: seq<Operation>, expected: Option<Row>, owner: string, region: string, c: Commit)
    ensures var answer := LocalClaim(RowAfter(ops), expected, owner, region);
            RowAfter(ops + [ClaimOp(expected, owner, region)])
            == if answer.Acquired? then Some(answer.row) else RowAfter(ops)
    ensures var answer := LocalCommit(RowAfter(ops), c);
            RowAfter(ops + [CommitOp(c)]) == if answer.Committed? then Some(answer.row) else RowAfter(ops)
  {
    assert (ops + [ClaimOp(expected, owner, region)])[..|ops|] == ops && (ops + [CommitOp(c)])[..|ops|] == ops;
  }

  /** Ownership changes one epoch at a time, and a commit that carries an epoch
      other than the current one changes nothing. */
  lemma EpochsFence(ops: seq<Operation>, op: Operation)
    requires RowAfter(ops).Some?
    ensures var before, after := RowAfter(ops).value, RowAfter(ops + [op]);
            && after.Some?
            && (after.value.owner != before.owner ==>
                 after.value.epoch == before.epoch + 1 && after.value.version == before.version)
            && (after.value.epoch != before.epoch ==> after.value.owner != before.owner)
            && (op.CommitOp? && op.commit.epoch != before.epoch ==> after.value == before)
            && (after.value.version != before.version ==> after.value.version == before.version + 1)
  {
    assert (ops + [op])[..|ops + [op]| - 1] == ops;
  }
}
