/**
 * One-time refresh tokens and activation codes
 * (packages/identity/src/postgres/stores.ts): the rows, each store statement as
 * one atomic step, and what every interleaving of those steps guarantees.
 * Hashes stand for the tokens they were computed from.
 */
module RefreshTokens {
  datatype Row = Row(userId: string, expiresAt: int, consumed: bool)

  type Table = map<string, Row>

  datatype Consumption = Accepted(userId: string) | Reused(userId: string) | Invalid

  /** One statement or transaction; `now` is the database clock it reads. */
  datatype Step =
    | Purge(now: int)
    | Insert(userId: string, hash: string, expiresAt: int)
    | Consume(hash: string, now: int)
    | Revoke(userId: string)

  function WithoutExpired(table: Table, now: int): Table {
    map h | h in table && table[h].expiresAt >= now :: table[h]
  }

  function WithoutUser(table: Table, userId: string): Table {
    map h | h in table && table[h].userId != userId :: table[h]
  }

  /** The answer to a presented token: a consumed row answers before an expired one. */
  function Answer(table: Table, hash: string, now: int): Consumption {
    if hash !in table then Invalid
    else if table[hash].consumed then Reused(table[hash].userId)
    else if table[hash].expiresAt < now then Invalid
    else Accepted(table[hash].userId)
  }

  function AfterConsume(table: Table, hash: string, now: int): Table {
    match Answer(table, hash, now)
    case Accepted(_) => table[hash := table[hash].(consumed := true)]
    case Reused(userId) => WithoutUser(table, userId)
    case Invalid => table - {hash}
  }

  /** An insert of a stored hash violates the primary key and changes nothing. */
  function Next(table: Table, step: Step): Table {
    match step
    case Purge(now) => WithoutExpired(table, now)
    case Insert(userId, hash, expiresAt) =>
      if hash in table then table else table[hash := Row(userId, expiresAt, false)]
    case Consume(hash, now) => AfterConsume(table, hash, now)
    case Revoke(userId) => WithoutUser(table, userId)
  }

  function TableAt(table: Table, steps: seq<Step>, k: nat): Table
    requires k <= |steps|
  {
    if k == 0 then table else Next(TableAt(table, steps, k - 1), steps[k - 1])
  }

  /** What the consume at position `k` of the run answers. */
  function AnswerAt(table: Table, steps: seq<Step>, k: nat): Consumption
    requires k < |steps| && steps[k].Consume?
  {
    Answer(TableAt(table, steps, k), steps[k].hash, steps[k].now)
  }

  /** Every inserted hash is new: neither stored at the start nor inserted before. */
  ghost predicate FreshHashes(table: Table, steps: seq<Step>) {
    && (forall k | 0 <= k < |steps| :: steps[k].Insert? ==> steps[k].hash !in table)
    && (forall i, k | 0 <= i < k < |steps| :: (steps[i].Insert? && steps[k].Insert?) ==> steps[i].hash != steps[k].hash)
  }

  /** A run stays fresh exactly as long as each token inserted next was neither stored at the start nor inserted before. */
  lemma FreshNextIff(table: Table, steps: seq<Step>, step: Step)
    ensures FreshHashes(table, []) && FreshHashes(table, steps + [step]) <==>
            FreshHashes(table, steps)
            && (step.Insert? ==>
                  step.hash !in table && forall i | 0 <= i < |steps| :: steps[i].Insert? ==> steps[i].hash != step.hash)
  {
    var all := steps + [step];
    assert forall k | 0 <= k < |steps| :: all[k] == steps[k];
    assert all[|steps|] == step;
  }

  lemma {:induction false} StoredWasInserted(table: Table, steps: seq<Step>, k: nat, h: string)
    requires k <= |steps| && h in TableAt(table, steps, k)
    ensures h in table || exists i :: 0 <= i < k && steps[i].Insert? && steps[i].hash == h
  {
    if k > 0 && h in TableAt(table, steps, k - 1) {
      StoredWasInserted(table, steps, k - 1, h);
    }
  }

  /** A hash that has been stored is never inserted again. */
  lemma StoredIsNotReinserted(table: Table, steps: seq<Step>, k: nat, h: string)
    requires FreshHashes(table, steps) && k <= |steps| && h in TableAt(table, steps, k)
    ensures forall j | k <= j < |steps| :: steps[j].Insert? ==> steps[j].hash != h
  {
  }

  /* ------------------------- when a row leaves the table ------------------------ */

  /** The step deletes the row whatever its own hash: purge, revocation, or reuse of a sibling. */
  predicate Removes(table: Table, step: Step, row: Row) {
    match step
    case Purge(now) => row.expiresAt < now
    case Insert(_, _, _) => false
    case Consume(hash, now) => Answer(table, hash, now) == Reused(row.userId)
    case Revoke(userId) => userId == row.userId
  }

  /** The step ends a live token: its row is removed, or it is presented. */
  predicate Kills(table: Table, step: Step, hash: string, row: Row) {
    Removes(table, step, row) || (step.Consume? && step.hash == hash)
  }

  lemma {:induction false} GoneStaysGone(table: Table, steps: seq<Step>, start: nat, end: nat, h: string)
    requires start <= end <= |steps| && h !in TableAt(table, steps, start)
    requires forall j | start <= j < end :: steps[j].Insert? ==> steps[j].hash != h
    ensures h !in TableAt(table, steps, end)
    decreases end
  {
    if start < end {
      GoneStaysGone(table, steps, start, end - 1, h);
    }
  }

  lemma LiveStep(table: Table, step: Step, h: string, row: Row)
    requires h in table ==> table[h] == row || table[h] == row.(consumed := true)
    requires !row.consumed && (step.Insert? ==> step.hash != h)
    ensures var after := Next(table, step);
            && (h in after && !after[h].consumed <==>
                h in table && !table[h].consumed && !Kills(table, step, h, row))
            && (h in after ==> after[h] == row || after[h] == row.(consumed := true))
  {
  }

  ghost predicate Undisturbed(table: Table, steps: seq<Step>, start: nat, end: nat, h: string, row: Row)
    requires start <= end <= |steps|
  {
    forall k | start <= k < end :: !Kills(TableAt(table, steps, k), steps[k], h, row)
  }

  lemma UndisturbedStep(table: Table, steps: seq<Step>, start: nat, end: nat, h: string, row: Row)
    requires start < end <= |steps|
    ensures Undisturbed(table, steps, start, end, h, row) <==>
            Undisturbed(table, steps, start, end - 1, h, row)
            && !Kills(TableAt(table, steps, end - 1), steps[end - 1], h, row)
  {
  }

  /** From the moment a row is stored unconsumed it stays exactly as long as nothing kills it. */
  lemma {:induction false} LiveIff(table: Table, steps: seq<Step>, start: nat, end: nat, h: string)
    requires start <= end <= |steps|
    requires forall j | start <= j < end :: steps[j].Insert? ==> steps[j].hash != h
    requires h in TableAt(table, steps, start) && !TableAt(table, steps, start)[h].consumed
    ensures var row, now := TableAt(table, steps, start)[h], TableAt(table, steps, end);
            && (h in now && !now[h].consumed <==> Undisturbed(table, steps, start, end, h, row))
            && (h in now ==> now[h] == row || now[h] == row.(consumed := true))
    decreases end
  {
    if start < end {
      var row, last := TableAt(table, steps, start)[h], TableAt(table, steps, end - 1);
      LiveIff(table, steps, start, end - 1, h);
      UndisturbedStep(table, steps, start, end, h, row);
      LiveStep(last, steps[end - 1], h, row);
    }
  }

  /**
   * A token is accepted exactly when it is presented in time and nothing has
   * happened to it since it was issued: not presented before, not purged, and
   * its user neither revoked nor caught in a reuse.
   */
  lemma AcceptedIff(table: Table, steps: seq<Step>, i: nat, j: nat)
    requires FreshHashes(table, steps) && i < j < |steps|
    requires steps[i].Insert? && steps[j].Consume? && steps[j].hash == steps[i].hash
    ensures var row := Row(steps[i].userId, steps[i].expiresAt, false);
            && (AnswerAt(table, steps, j) == Accepted(row.userId) <==>
                steps[j].now <= row.expiresAt && Undisturbed(table, steps, i + 1, j, steps[i].hash, row))
            && (AnswerAt(table, steps, j).Accepted? ==> AnswerAt(table, steps, j).userId == row.userId)
  {
    var h := steps[i].hash;
    if h in TableAt(table, steps, i) {
      StoredIsNotReinserted(table, steps, i, h);
    }
    assert TableAt(table, steps, i + 1) == Next(TableAt(table, steps, i), steps[i]);
    StoredIsNotReinserted(table, steps, i + 1, h);
    LiveIff(table, steps, i + 1, j, h);
  }

  /* ------------------------------ replay detection ------------------------------ */

  ghost predicate EvidenceKept(table: Table, steps: seq<Step>, start: nat, end: nat, row: Row)
    requires start <= end <= |steps|
  {
    forall k | start <= k < end :: !Removes(TableAt(table, steps, k), steps[k], row)
  }

  lemma EvidenceStep(table: Table, steps: seq<Step>, start: nat, end: nat, row: Row)
    requires start < end <= |steps|
    ensures EvidenceKept(table, steps, start, end, row) <==>
            EvidenceKept(table, steps, start, end - 1, row)
            && !Removes(TableAt(table, steps, end - 1), steps[end - 1], row)
  {
  }

  lemma SpentStep(table: Table, step: Step, h: string, row: Row)
    requires h in table ==> table[h] == row
    requires row.consumed && (step.Insert? ==> step.hash != h)
    ensures var after := Next(table, step);
            && (h in after <==> h in table && !Removes(table, step, row))
            && (h in after ==> after[h] == row)
  {
  }

  lemma {:induction false} EvidenceIff(table: Table, steps: seq<Step>, start: nat, end: nat, h: string)
    requires start <= end <= |steps|
    requires forall j | start <= j < end :: steps[j].Insert? ==> steps[j].hash != h
    requires h in TableAt(table, steps, start) && TableAt(table, steps, start)[h].consumed
    ensures var row, now := TableAt(table, steps, start)[h], TableAt(table, steps, end);
            && (h in now <==> EvidenceKept(table, steps, start, end, row))
            && (h in now ==> now[h] == row)
    decreases end
  {
    if start < end {
      var row, last := TableAt(table, steps, start)[h], TableAt(table, steps, end - 1);
      EvidenceIff(table, steps, start, end - 1, h);
      EvidenceStep(table, steps, start, end, row);
      SpentStep(last, steps[end - 1], h, row);
    }
  }

  /**
   * After a token was accepted once, presenting it again is answered "reused",
   * even past its expiry, for as long as its consumed row is kept: until a purge
   * after its expiry, or until its user's rows were already deleted. It is never
   * accepted a second time.
   */
  lemma ReplayIsCaught(table: Table, steps: seq<Step>, i: nat, j: nat)
    requires FreshHashes(table, steps) && i < j < |steps|
    requires steps[i].Consume? && steps[j].Consume? && steps[i].hash == steps[j].hash
    requires AnswerAt(table, steps, i).Accepted?
    ensures var row := TableAt(table, steps, i)[steps[i].hash].(consumed := true);
            AnswerAt(table, steps, j)
            == if EvidenceKept(table, steps, i + 1, j, row) then Reused(AnswerAt(table, steps, i).userId) else Invalid
  {
    StoredIsNotReinserted(table, steps, i + 1, steps[i].hash);
    EvidenceIff(table, steps, i + 1, j, steps[i].hash);
  }

  /**
   * A revocation, or a detected reuse, is final: whatever its user held at that
   * point is answered "invalid" ever after.
   */
  lemma RevocationIsFinal(table: Table, steps: seq<Step>, i: nat, j: nat, userId: string)
    requires FreshHashes(table, steps) && i < j < |steps| && steps[j].Consume?
    requires steps[i] == Revoke(userId) || (steps[i].Consume? && AnswerAt(table, steps, i) == Reused(userId))
    requires var h := steps[j].hash;
             h in TableAt(table, steps, i) && TableAt(table, steps, i)[h].userId == userId
    ensures AnswerAt(table, steps, j) == Invalid
  {
    var h := steps[j].hash;
    StoredIsNotReinserted(table, steps, i, h);
    assert TableAt(table, steps, i + 1) == WithoutUser(TableAt(table, steps, i), userId);
    GoneStaysGone(table, steps, i + 1, j, h);
  }

  /** A user's own rows are all that a revocation or a reuse takes away. */
  lemma OthersSurviveRevocation(table: Table, step: Step, userId: string, h: string)
    requires step == Revoke(userId) || (step.Consume? && Answer(table, step.hash, step.now) == Reused(userId))
    ensures h in Next(table, step) <==> h in table && table[h].userId != userId
    ensures h in Next(table, step) ==> Next(table, step)[h] == table[h]
  {
  }

  /* ---------------------------------- the store --------------------------------- */

  class RefreshTokenStore {
    var rows: Table

    constructor ()
      ensures rows == map[]
    {
      rows := map[];
    }

    /** Purges what has expired, then records the token; both are steps of the run. */
    method Insert(userId: string, hash: string, expiresAt: int, now: int) returns (stored: bool)
      modifies this
      ensures rows == TableAt(old(rows), [Purge(now), Step.Insert(userId, hash, expiresAt)], 2)
      ensures stored <==> hash !in WithoutExpired(old(rows), now)
    {
      ghost var steps := [Purge(now), Step.Insert(userId, hash, expiresAt)];
      assert TableAt(rows, steps, 1) == Next(TableAt(rows, steps, 0), steps[0]);
      rows := map h | h in rows && rows[h].expiresAt >= now :: rows[h];
      stored := hash !in rows;
      if stored {
        rows := rows[hash := Row(userId, expiresAt, false)];
      }
    }

    method Consume(hash: string, now: int) returns (answer: Consumption)
      modifies this
      ensures answer == Answer(old(rows), hash, now)
      ensures rows == Next(old(rows), Step.Consume(hash, now))
    {
      if hash !in rows {
        answer := Invalid;
        assert rows - {hash} == rows;
      } else if rows[hash].consumed {
        answer := Reused(rows[hash].userId);
        RevokeAllForUser(rows[hash].userId);
      } else if rows[hash].expiresAt < now {
        rows := rows - {hash};
        answer := Invalid;
      } else {
        answer := Accepted(rows[hash].userId);
        rows := rows[hash := rows[hash].(consumed := true)];
      }
    }

    method RevokeAllForUser(userId: string)
      modifies this
      ensures rows == Next(old(rows), Revoke(userId))
    {
      rows := map h | h in rows && rows[h].userId != userId :: rows[h];
    }
  }
}
