/**
 * The point repository of app/internal/repository/point.go: a table of
 * counters, one row per level, and the optimistic-locking decrement that
 * reads a row, refuses when no points remain, and writes `remaining - 1`
 * back only if the row still carries the version it was read with,
 * retrying a bounded number of times when a competing worker got there first.
 *
 * The row's `updated_at` timestamp is modelled as a version number that
 * every successful conditional write advances by one. Competing workers are
 * not threads: each round of the retry loop takes a `Round` from an oracle
 * sequence that says whether the read fails, whether a rival commits its own
 * decrement between our read and our write, and whether our write fails.
 */
module PointRepository {
  import opened Wrappers

  /** A row of the points table: the points left and the row's version stamp. */
  datatype Row = Row(remaining: int, version: nat)

  /** The points table, keyed by level name. */
  type Rows = map<string, Row>

  /** The row as one successful decrement leaves it. */
  function AfterWrite(row: Row): Row {
    Row(row.remaining - 1, row.version + 1)
  }

  /** The errors decreasePoint returns. */
  datatype RepoError =
    | ReadError           // the select failed (including: no row for the level)
    | NotEnoughPoints     // the row read shows remaining <= 0
    | WriteError          // the conditional update failed
    | MaxAttemptsReached  // every allowed attempt lost the race

  /** What became of the transaction decreasePoint begins. */
  datatype TxState = Open | Committed | RolledBack

  /** The world's behaviour during one round of the retry loop. */
  datatype Round = Round(readFails: bool, rival: bool, writeFails: bool)

  /** A round in which nothing goes wrong and nobody competes. */
  const Quiet := Round(false, false, false)

  /** The round the call meets on its attempt number i + 1; past the oracle, rounds are quiet. */
  function RoundAt(env: seq<Round>, i: nat): (rd: Round)
    ensures rd.rival ==> i < |env|
    ensures i >= |env| ==> rd == Quiet
  {
    if i < |env| then env[i] else Quiet
  }

  /** The result of one conditional write: the rows it affected and the table after it. */
  datatype CasResult = CasResult(affected: nat, rows: Rows)

  /**
   * `UPDATE points SET remaining = newRemaining WHERE updated_at = expectedVersion AND level = level`:
   * it touches the level's row exactly when that row still has the expected version.
   */
  function Cas(rows: Rows, level: string, newRemaining: int, expectedVersion: nat): (r: CasResult)
    ensures r.affected <= 1
    ensures r.affected == 1 <==> level in rows && rows[level].version == expectedVersion
    ensures r.affected == 0 ==> r.rows == rows
    ensures r.affected == 1 ==> r.rows == rows[level := Row(newRemaining, expectedVersion + 1)]
  {
    if level in rows && rows[level].version == expectedVersion then
      CasResult(1, rows[level := Row(newRemaining, expectedVersion + 1)])
    else
      CasResult(0, rows)
  }

  /**
   * The table as our conditional write finds it, given that we read `rows`:
   * unchanged, or with the decrement of a rival that read the same row and
   * committed first.
   */
  function Interfered(rows: Rows, level: string, rd: Round): Rows
    requires level in rows
  {
    if rd.rival then Cas(rows, level, rows[level].remaining - 1, rows[level].version).rows else rows
  }

  /** How one round of the loop ends. */
  datatype Status = Failed(err: RepoError) | Won | Lost

  /** The end of one round, the table after it, and whether it issued our conditional write. */
  datatype StepResult = StepResult(status: Status, rows: Rows, wrote: bool)

  /** One round of the loop body of decreasePoint: read, check, conditional write. */
  function Step(rows: Rows, level: string, rd: Round): (r: StepResult)
    ensures r.status == Failed(ReadError) <==> rd.readFails || level !in rows
    ensures r.status == Failed(NotEnoughPoints) <==> !rd.readFails && level in rows && rows[level].remaining <= 0
    ensures r.wrote <==> !rd.readFails && level in rows && rows[level].remaining >= 1
    ensures !r.wrote ==> r.rows == rows
    ensures r.status == Failed(WriteError) <==> r.wrote && rd.writeFails
    ensures r.wrote && !rd.writeFails ==>
              (r.status == Won <==> Cas(Interfered(rows, level, rd), level, rows[level].remaining - 1, rows[level].version).affected == 1)
    ensures r.status == Won <==> r.wrote && !rd.writeFails && !rd.rival
    ensures r.status == Lost <==> r.wrote && !rd.writeFails && rd.rival
    ensures r.status == Won || r.status == Lost ==> r.rows == rows[level := AfterWrite(rows[level])]
    ensures r.status == Failed(WriteError) ==> r.rows == Interfered(rows, level, rd)
  {
    if rd.readFails || level !in rows then StepResult(Failed(ReadError), rows, false)
    else
      var point := rows[level];
      if point.remaining <= 0 then StepResult(Failed(NotEnoughPoints), rows, false)
      else
        var seen := Interfered(rows, level, rd);
        if rd.writeFails then StepResult(Failed(WriteError), seen, true)
        else
          var cas := Cas(seen, level, point.remaining - 1, point.version);
          StepResult(if cas.affected == 1 then Won else Lost, cas.rows, true)
  }

  /**
   * Everything one call of decreasePoint leaves behind. `rivalCommits` counts the
   * decrements competing workers committed on the row while the call was running.
   */
  datatype Outcome = Outcome(err: Option<RepoError>, rows: Rows, tx: TxState, readCount: nat, writeCount: nat,
                             rivalCommits: nat)

  /** The table after n whole decrements of the level's row, each advancing its version. */
  function Lowered(rows: Rows, level: string, n: nat): (r: Rows)
    ensures level !in rows || n == 0 ==> r == rows
  {
    if level in rows then
      var row := rows[level];
      if n == 0 then
        assert rows[level := Row(row.remaining - n, row.version + n)] == rows;
        rows
      else rows[level := Row(row.remaining - n, row.version + n)]
    else rows
  }

  /** One decrement followed by n more is n + 1 decrements. */
  lemma LoweredAfterWrite(rows: Rows, level: string, n: nat)
    requires level in rows
    ensures Lowered(rows[level := AfterWrite(rows[level])], level, n) == Lowered(rows, level, n + 1)
  {
  }

  /** The rows other than the level's are as they were, and no row appears or disappears. */
  ghost predicate OthersUnchanged(before: Rows, after: Rows, level: string) {
    after.Keys == before.Keys && forall l :: l in before && l != level ==> after[l] == before[l]
  }

  /**
   * The call decreasePoint(level) from its attempt number i + 1 on, against table
   * `rows`, with retry bound maxAttempt and oracle env. `readCount`, `writeCount`
   * and `rivalCommits` count the selects, our conditional writes and the rivals'
   * commits, from the call's first attempt.
   */
  function Decrease(rows: Rows, level: string, maxAttempt: nat, env: seq<Round>, i: nat): (o: Outcome)
    // at least one read, one per round; a conditional write in every round but possibly the last
    ensures i < o.readCount && o.readCount - 1 <= o.writeCount <= o.readCount
    // the first round: a failed read or an empty counter ends the call with no write
    ensures RoundAt(env, i).readFails || level !in rows ==> o == Outcome(Some(ReadError), rows, RolledBack, i + 1, i, i)
    ensures !RoundAt(env, i).readFails && level in rows && rows[level].remaining <= 0 ==>
              o == Outcome(Some(NotEnoughPoints), rows, RolledBack, i + 1, i, i)
    // every round but the last lost the race and nothing failed in it
    ensures forall j :: i <= j < o.readCount - 1 ==>
              RoundAt(env, j).rival && !RoundAt(env, j).readFails && !RoundAt(env, j).writeFails
    // the error names what happened in the last round
    ensures o.err == Some(WriteError) ==> RoundAt(env, o.readCount - 1).writeFails && o.writeCount == o.readCount
    ensures o.err == Some(ReadError) || o.err == Some(NotEnoughPoints) ==> o.writeCount == o.readCount - 1
    // success exactly when committed; giving up exactly when the transaction is left open
    ensures o.err.None? <==> o.tx == Committed
    ensures o.err == Some(MaxAttemptsReached) <==> o.tx == Open
    ensures o.err == Some(MaxAttemptsReached) ==> o.readCount == maxAttempt
    // bounded retries
    ensures i < maxAttempt ==> o.readCount <= maxAttempt
    ensures maxAttempt == 0 ==> o.err != Some(MaxAttemptsReached)
    // only the level's row changes, by whole decrements that each advance the version
    ensures OthersUnchanged(rows, o.rows, level)
    ensures level in rows ==>
              && o.rows[level].remaining <= rows[level].remaining
              && o.rows[level].remaining + o.rows[level].version == rows[level].remaining + rows[level].version
              && (rows[level].remaining >= 0 ==> o.rows[level].remaining >= 0)
    // a success is backed by a decrement of its own
    ensures o.err.None? ==> level in rows && o.rows[level].remaining < rows[level].remaining
    // no lost update: every point taken is our one success or one rival commit
    ensures level in rows ==>
              rows[level].remaining - o.rows[level].remaining == (if o.err.None? then 1 else 0) + (o.rivalCommits - i)
    decreases |env| - i
  {
    var rd := RoundAt(env, i);
    var s := Step(rows, level, rd);
    var rivals := i + if s.wrote && rd.rival then 1 else 0;
    match s.status
    case Failed(e) => Outcome(Some(e), s.rows, RolledBack, i + 1, if s.wrote then i + 1 else i, rivals)
    case Won => Outcome(None, s.rows, Committed, i + 1, i + 1, rivals)
    case Lost =>
      if i + 1 == maxAttempt then Outcome(Some(MaxAttemptsReached), s.rows, Open, i + 1, i + 1, rivals)
      else Decrease(s.rows, level, maxAttempt, env, i + 1)
  }

  /**
   * Outcome o ends as its last round ends: that round, met on the table after
   * o.readCount - 1 - i lost rounds, fixes the table, our write, the transaction
   * and the error, and each round's rival commit is counted once.
   */
  ghost predicate EndsAsLastRound(rows: Rows, level: string, env: seq<Round>, i: nat, o: Outcome)
    requires i < o.readCount
  {
    var rd := RoundAt(env, o.readCount - 1);
    var last := Step(Lowered(rows, level, o.readCount - 1 - i), level, rd);
    && o.rows == last.rows
    && o.writeCount == (if last.wrote then o.readCount else o.readCount - 1)
    && (last.status.Failed? <==> o.tx == RolledBack)
    && (last.status.Failed? ==> o.err == Some(last.status.err))
    && (last.status == Won <==> o.err.None?)
    && (last.status == Lost <==> o.err == Some(MaxAttemptsReached))
    && o.rivalCommits == o.readCount - 1 + (if last.wrote && rd.rival then 1 else 0)
  }

  /**
   * Every call is a run of lost rounds followed by one last round, and it ends
   * exactly as that round ends: a read error, an empty counter or a write error
   * there is the call's error with the transaction rolled back, a won race is
   * its success, and a lost one is "maximum attempts reached".
   */
  lemma {:induction false} DecreaseEndsAsLastRound(rows: Rows, level: string, maxAttempt: nat, env: seq<Round>, i: nat)
    ensures EndsAsLastRound(rows, level, env, i, Decrease(rows, level, maxAttempt, env, i))
    decreases |env| - i
  {
    var s := Step(rows, level, RoundAt(env, i));
    if s.status == Lost && i + 1 != maxAttempt {
      DecreaseEndsAsLastRound(s.rows, level, maxAttempt, env, i + 1);
      LostRoundThenRest(rows, level, maxAttempt, env, i);
    } else {
      LastRoundIsFirst(rows, level, maxAttempt, env, i);
    }
  }

  /** A call whose first round ends it ends as that round does. */
  lemma LastRoundIsFirst(rows: Rows, level: string, maxAttempt: nat, env: seq<Round>, i: nat)
    requires var s := Step(rows, level, RoundAt(env, i)); !(s.status == Lost && i + 1 != maxAttempt)
    ensures EndsAsLastRound(rows, level, env, i, Decrease(rows, level, maxAttempt, env, i))
  {
    var rd := RoundAt(env, i);
    var s := Step(rows, level, rd);
    var o := Decrease(rows, level, maxAttempt, env, i);
    assert o.readCount == i + 1;
    assert Lowered(rows, level, o.readCount - 1 - i) == rows;
  }

  /** After a lost round, the rest of the call ending as its last round means the whole call does. */
  lemma LostRoundThenRest(rows: Rows, level: string, maxAttempt: nat, env: seq<Round>, i: nat)
    requires var s := Step(rows, level, RoundAt(env, i)); s.status == Lost && i + 1 != maxAttempt
    requires var s := Step(rows, level, RoundAt(env, i));
             EndsAsLastRound(s.rows, level, env, i + 1, Decrease(s.rows, level, maxAttempt, env, i + 1))
    ensures EndsAsLastRound(rows, level, env, i, Decrease(rows, level, maxAttempt, env, i))
  {
    var s := Step(rows, level, RoundAt(env, i));
    var o := Decrease(s.rows, level, maxAttempt, env, i + 1);
    assert Decrease(rows, level, maxAttempt, env, i) == o;
    LoweredAfterWrite(rows, level, o.readCount - 1 - (i + 1));
  }

  /**
   * What ends a call, read off its last round: success needs a clean, uncontested
   * round; a failed read is a read error and a failed write a write error, both
   * rolled back; giving up follows a lost race; an empty counter is the counter
   * as the rivals of the earlier rounds left it.
   */
  lemma CallEndsOnLastRound(rows: Rows, level: string, maxAttempt: nat, env: seq<Round>)
    ensures var o := Decrease(rows, level, maxAttempt, env, 0);
            var last := RoundAt(env, o.readCount - 1);
            && (o.err.None? ==> !last.readFails && !last.writeFails && !last.rival)
            && (last.readFails ==> o.err == Some(ReadError) && o.tx == RolledBack)
            && (!last.readFails && last.writeFails && o.writeCount == o.readCount ==>
                  o.err == Some(WriteError) && o.tx == RolledBack)
            && (o.err == Some(MaxAttemptsReached) ==> last.rival && !last.writeFails)
            && (o.err == Some(NotEnoughPoints) ==> level in rows && rows[level].remaining - (o.readCount - 1) <= 0)
  {
    DecreaseEndsAsLastRound(rows, level, maxAttempt, env, 0);
  }

  /** With points left and nobody competing, one call commits on its first attempt. */
  lemma UncontendedDecrement(rows: Rows, level: string, maxAttempt: nat, env: seq<Round>)
    requires level in rows && rows[level].remaining >= 1
    requires RoundAt(env, 0) == Quiet
    ensures Decrease(rows, level, maxAttempt, env, 0)
            == Outcome(None, rows[level := AfterWrite(rows[level])], Committed, 1, 1, 0)
  {
  }

  /**
   * A caller that loses every race from attempt i + 1 up to maxAttempt = k makes
   * exactly k reads in all and then gives up with the transaction left open; each
   * lost round is a rival's decrement, so the counter has dropped by k - i.
   */
  lemma {:induction false} LoseEveryRace(rows: Rows, level: string, k: nat, env: seq<Round>, i: nat)
    requires i < k <= |env|
    requires forall j :: i <= j < k ==> env[j] == Round(false, true, false)
    requires level in rows && rows[level].remaining >= k - i
    ensures var o := Decrease(rows, level, k, env, i);
            && o.err == Some(MaxAttemptsReached) && o.tx == Open && o.readCount == k && o.writeCount == k
            && o.rivalCommits == k && o.rows == Lowered(rows, level, k - i)
    decreases k - i
  {
    var next := rows[level := AfterWrite(rows[level])];
    assert Step(rows, level, env[i]) == StepResult(Lost, next, true);
    if i + 1 < k {
      LoseEveryRace(next, level, k, env, i + 1);
      LoweredAfterWrite(rows, level, k - i - 1);
    }
  }

  /** One call of decreasePoint, on a level, meeting the given rounds. */
  datatype Call = Call(level: string, env: seq<Round>)

  /** The table after a sequence of calls, each starting where the previous one ended. */
  function Replay(rows: Rows, maxAttempt: nat, calls: seq<Call>): Rows
    decreases |calls|
  {
    if calls == [] then rows
    else Replay(Decrease(rows, calls[0].level, maxAttempt, calls[0].env, 0).rows, maxAttempt, calls[1..])
  }

  /** How many of the calls on `level` returned no error. */
  function Granted(rows: Rows, maxAttempt: nat, calls: seq<Call>, level: string): nat
    decreases |calls|
  {
    if calls == [] then 0
    else
      var o := Decrease(rows, calls[0].level, maxAttempt, calls[0].env, 0);
      (if calls[0].level == level && o.err.None? then 1 else 0) + Granted(o.rows, maxAttempt, calls[1..], level)
  }

  /** How many decrements rivals committed on `level` while the calls on it were running. */
  function RivalCommits(rows: Rows, maxAttempt: nat, calls: seq<Call>, level: string): nat
    decreases |calls|
  {
    if calls == [] then 0
    else
      var o := Decrease(rows, calls[0].level, maxAttempt, calls[0].env, 0);
      (if calls[0].level == level then o.rivalCommits else 0) + RivalCommits(o.rows, maxAttempt, calls[1..], level)
  }

  ghost predicate NonNegative(rows: Rows) {
    forall l :: l in rows ==> rows[l].remaining >= 0
  }

  /** Starting from counters that are all at least 0, no sequence of calls drives one below 0. */
  lemma {:induction false} ReplayKeepsNonNegative(rows: Rows, maxAttempt: nat, calls: seq<Call>)
    requires NonNegative(rows)
    ensures NonNegative(Replay(rows, maxAttempt, calls))
    decreases |calls|
  {
    if calls != [] {
      var o := Decrease(rows, calls[0].level, maxAttempt, calls[0].env, 0);
      assert NonNegative(o.rows);
      ReplayKeepsNonNegative(o.rows, maxAttempt, calls[1..]);
    }
  }

  /**
   * No lost update: across any sequence of calls, every advance of a row's version
   * is one unit taken off its counter, and the units taken are exactly the calls'
   * successes plus the rivals' commits, each counted once.
   */
  lemma {:induction false} ReplayLosesNoUpdate(rows: Rows, maxAttempt: nat, calls: seq<Call>, level: string)
    requires level in rows
    ensures var after := Replay(rows, maxAttempt, calls);
            && level in after
            && after[level].remaining + after[level].version == rows[level].remaining + rows[level].version
            && Granted(rows, maxAttempt, calls, level) + RivalCommits(rows, maxAttempt, calls, level)
               == rows[level].remaining - after[level].remaining
    decreases |calls|
  {
    if calls != [] {
      var o := Decrease(rows, calls[0].level, maxAttempt, calls[0].env, 0);
      assert level in o.rows;
      ReplayLosesNoUpdate(o.rows, maxAttempt, calls[1..], level);
    }
  }

  /**
   * Points are never oversold: the successful calls on a level and the rivals'
   * commits on it together never outnumber its starting points.
   */
  lemma {:induction false} NoOversell(rows: Rows, maxAttempt: nat, calls: seq<Call>, level: string)
    requires NonNegative(rows) && level in rows
    ensures Granted(rows, maxAttempt, calls, level) + RivalCommits(rows, maxAttempt, calls, level) <= rows[level].remaining
  {
    ReplayKeepsNonNegative(rows, maxAttempt, calls);
    ReplayLosesNoUpdate(rows, maxAttempt, calls, level);
  }

  /** The counter store behind `repository.db` (and the transaction `tx` reads through). */
  class PointStore {
    var rows: Rows

    constructor (rows: Rows)
      ensures this.rows == rows
    {
      this.rows := rows;
    }

    /** `SELECT * FROM points WHERE level = ? LIMIT 1`: the row, or None when there is none. */
    method First(level: string) returns (row: Option<Row>)
      ensures row.Some? <==> level in rows
      ensures row.Some? ==> row.value == rows[level]
    {
      row := if level in rows then Some(rows[level]) else None;
    }

    /** The conditional update; returns the number of rows it affected. */
    method ConditionalSet(level: string, newRemaining: int, expectedVersion: nat) returns (affected: nat)
      modifies this
      ensures CasResult(affected, rows) == Cas(old(rows), level, newRemaining, expectedVersion)
    {
      var r := Cas(rows, level, newRemaining, expectedVersion);
      affected, rows := r.affected, r.rows;
    }
  }

  /** pointRepository: the store and the retry bound (the wait between attempts is not modelled). */
  class PointRepository {
    const db: PointStore
    const maxAttempt: nat

    constructor (db: PointStore, maxAttempt: nat)
      ensures this.db == db && this.maxAttempt == maxAttempt
    {
      this.db := db;
      this.maxAttempt := maxAttempt;
    }

    method DecreaseBronzePoint(env: seq<Round>) returns (err: Option<RepoError>)
      modifies db
      ensures var o := Decrease(old(db.rows), "bronze", maxAttempt, env, 0); err == o.err && db.rows == o.rows
    {
      var tx, readCount, writeCount;
      ghost var rivalCommits;
      err, tx, readCount, writeCount, rivalCommits := DecreasePoint("bronze", env);
    }

    method DecreaseSilverPoint(env: seq<Round>) returns (err: Option<RepoError>)
      modifies db
      ensures var o := Decrease(old(db.rows), "silver", maxAttempt, env, 0); err == o.err && db.rows == o.rows
    {
      var tx, readCount, writeCount;
      ghost var rivalCommits;
      err, tx, readCount, writeCount, rivalCommits := DecreasePoint("silver", env);
    }

    method DecreaseGoldPoint(env: seq<Round>) returns (err: Option<RepoError>)
      modifies db
      ensures var o := Decrease(old(db.rows), "gold", maxAttempt, env, 0); err == o.err && db.rows == o.rows
    {
      var tx, readCount, writeCount;
      ghost var rivalCommits;
      err, tx, readCount, writeCount, rivalCommits := DecreasePoint("gold", env);
    }

    /**
     * decreasePoint: begin a transaction, then loop: read the level's row through
     * the transaction, refuse if it has no points, write remaining - 1 through the
     * store guarded by the version just read, commit on one affected row, give up
     * (without rolling back) once attempt reaches maxAttempt, else try again.
     */
    method DecreasePoint(level: string, env: seq<Round>)
      returns (err: Option<RepoError>, tx: TxState, readCount: nat, writeCount: nat, ghost rivalCommits: nat)
      modifies db
      ensures Outcome(err, db.rows, tx, readCount, writeCount, rivalCommits) == Decrease(old(db.rows), level, maxAttempt, env, 0)
    {
      var attempt: nat := 1;
      tx := Open;
      readCount, writeCount, rivalCommits := 0, 0, 0;
      while true
        invariant attempt >= 1 && readCount == attempt - 1 && writeCount == attempt - 1 && rivalCommits == attempt - 1
        invariant Decrease(db.rows, level, maxAttempt, env, attempt - 1) == Decrease(old(db.rows), level, maxAttempt, env, 0)
        decreases |env| - (attempt - 1)
      {
        var rd := RoundAt(env, attempt - 1);
        ghost var before := db.rows;

        readCount := readCount + 1;
        var found := db.First(level);
        if rd.readFails || found.None? {
          assert Step(before, level, rd) == StepResult(Failed(ReadError), before, false);
          tx, err := RolledBack, Some(ReadError);
          return;
        }
        var point := found.value;

        if point.remaining <= 0 {
          assert Step(before, level, rd) == StepResult(Failed(NotEnoughPoints), before, false);
          tx, err := RolledBack, Some(NotEnoughPoints);
          return;
        }

        var remaining := point.remaining - 1;

        if rd.rival {
          // a competing worker that read the same row commits its decrement first
          var rivalAffected := db.ConditionalSet(level, remaining, point.version);
          rivalCommits := rivalCommits + 1;
        }

        writeCount := writeCount + 1;
        assert db.rows == Interfered(before, level, rd);
        if rd.writeFails {
          assert Step(before, level, rd) == StepResult(Failed(WriteError), db.rows, true);
          tx, err := RolledBack, Some(WriteError);
          return;
        }
        var affected := db.ConditionalSet(level, remaining, point.version);

        if affected == 1 {
          assert Step(before, level, rd) == StepResult(Won, db.rows, true);
          tx, err := Committed, None;
          return;
        }

        assert Step(before, level, rd) == StepResult(Lost, db.rows, true);
        if attempt == maxAttempt {
          err := Some(MaxAttemptsReached);
          return;
        }

        attempt := attempt + 1;
      }
    }
  }
}
