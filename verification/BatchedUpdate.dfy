/** `scripts/helper.py`: an UPDATE repeated in batches until it touches no row. */
module BatchedUpdate {
  import opened Sql

  /** The rows that the statement's subquery selects. */
  function Candidates<V>(rows: map<Uuid, V>, needs: V -> bool): set<Uuid> {
    set r | r in rows && needs(rows[r])
  }

  function Touched<V>(rows: map<Uuid, V>, batch: set<Uuid>, update: V -> V): map<Uuid, V> {
    map r | r in rows :: if r in batch then update(rows[r]) else rows[r]
  }

  /** The same statement without a limit. */
  function UpdatedAtOnce<V>(rows: map<Uuid, V>, needs: V -> bool, update: V -> V): map<Uuid, V> {
    Touched(rows, Candidates(rows, needs), update)
  }

  /** A touched row no longer needs the update, as the helper's documentation asks of statements. */
  ghost predicate LeavesAfterUpdate<V(!new)>(needs: V -> bool, update: V -> V) {
    forall v :: needs(v) ==> !needs(update(v))
  }

  /** The table while the loop runs: the rows of `done` were touched, each of them once. */
  ghost predicate Progress<V>(before: map<Uuid, V>, done: set<Uuid>, rows: map<Uuid, V>, needs: V -> bool,
                              update: V -> V) {
    && done <= Candidates(before, needs)
    && rows == Touched(before, done, update)
    && Candidates(rows, needs) == Candidates(before, needs) - done
  }

  /** A batch takes its rows out of the candidates, and adds up with the earlier batches. */
  lemma BatchAdds<V(!new)>(before: map<Uuid, V>, done: set<Uuid>, rows: map<Uuid, V>, batch: set<Uuid>,
                           needs: V -> bool, update: V -> V)
    requires LeavesAfterUpdate(needs, update)
    requires Progress(before, done, rows, needs, update) && batch <= Candidates(rows, needs)
    ensures Progress(before, done + batch, Touched(rows, batch, update), needs, update)
    ensures |done + batch| == |done| + |batch|
    ensures |Candidates(Touched(rows, batch, update), needs)| == |Candidates(rows, needs)| - |batch|
  {
    hide Touched, Candidates, LeavesAfterUpdate;
    BatchLeaves(rows, batch, needs, update);
    TouchedInTwoSteps(before, done, batch, update);
    assert Candidates(before, needs) - done - batch == Candidates(before, needs) - (done + batch);
    assert |Candidates(rows, needs) - batch| == |Candidates(rows, needs)| - |batch|;
  }

  lemma BatchLeaves<V(!new)>(rows: map<Uuid, V>, batch: set<Uuid>, needs: V -> bool, update: V -> V)
    requires LeavesAfterUpdate(needs, update) && batch <= Candidates(rows, needs)
    ensures Candidates(Touched(rows, batch, update), needs) == Candidates(rows, needs) - batch
  {
  }

  lemma TouchedInTwoSteps<V>(before: map<Uuid, V>, done: set<Uuid>, batch: set<Uuid>, update: V -> V)
    requires done !! batch
    ensures Touched(Touched(before, done, update), batch, update) == Touched(before, done + batch, update)
  {
  }

  lemma NothingDone<V>(before: map<Uuid, V>, needs: V -> bool, update: V -> V)
    ensures Progress(before, {}, before, needs, update)
  {
    assert Touched(before, {}, update) == before;
  }

  lemma NothingLeft<V>(before: map<Uuid, V>, done: set<Uuid>, rows: map<Uuid, V>, needs: V -> bool, update: V -> V)
    requires Progress(before, done, rows, needs, update) && |Candidates(rows, needs)| == 0
    ensures rows == UpdatedAtOnce(before, needs, update) && |done| == |Candidates(before, needs)|
  {
    hide Touched, Candidates;
    assert Candidates(rows, needs) == {};
    assert done == Candidates(before, needs);
  }

  /** The batches so far were full, or the last one took the last rows. */
  /** Every row that needed the update has it, once, and every other is as it was. */
  ghost predicate IsUpdated<V>(before: map<Uuid, V>, after: map<Uuid, V>, needs: V -> bool, update: V -> V) {
    && after.Keys == before.Keys
    && forall r | r in before ::
         (needs(before[r]) ==> after[r] == update(before[r])) && (!needs(before[r]) ==> after[r] == before[r])
  }

  lemma UpdatedAtOnceIs<V>(before: map<Uuid, V>, needs: V -> bool, update: V -> V)
    ensures IsUpdated(before, UpdatedAtOnce(before, needs, update), needs, update)
    ensures Candidates(before, needs) == set r | r in before && needs(before[r])
  {
  }

  predicate Fills(total: nat, batches: nat, size: nat, left: nat) {
    total == batches * size || (left == 0 && total <= batches * size < total + size)
  }

  lemma OneMoreBatch(total: nat, batches: nat, size: nat, left: nat, n: nat)
    requires Fills(total, batches, size, left) && 0 < n == if left <= size then left else size
    ensures Fills(total + n, batches + 1, size, left - n)
  {
    assert (batches + 1) * size == batches * size + size;
  }

  lemma NoBatchYet(size: nat, left: nat)
    ensures Fills(0, 0, size, left)
  {
  }

  /** The number of batches is that of the batches that the total fills, the last one perhaps in part. */
  lemma FilledUp(total: nat, batches: nat, size: nat)
    requires Fills(total, batches, size, 0) && size > 0
    ensures batches == (total + size - 1) / size
  {
    var x := total + size - 1;
    var d := batches - x / size;
    assert d * size == batches * size - x / size * size;
    assert x == x / size * size + x % size;
    MultipleIsLarge(d, size);
  }

  lemma MultipleIsLarge(d: int, size: nat)
    ensures d >= 1 ==> d * size >= size
    ensures d <= -1 ==> d * size + size <= 0
  {
    if d >= 1 {
      assert d * size == (d - 1) * size + size;
    } else if d <= -1 {
      assert d * size + size == (d + 1) * size;
    }
  }

  class Table<V> {
    var rows: map<Uuid, V>

    constructor (rows: map<Uuid, V>)
      ensures this.rows == rows
    {
      this.rows := rows;
    }

    /** SELECT id ... LIMIT limit, in whatever order the rows come. */
    method Select(needs: V -> bool, limit: nat) returns (batch: set<Uuid>)
      ensures batch <= Candidates(rows, needs)
      ensures |batch| == if |Candidates(rows, needs)| <= limit then |Candidates(rows, needs)| else limit
    {
      var rest := Candidates(rows, needs);
      batch := {};
      while rest != {} && |batch| < limit
        invariant batch !! rest && batch + rest == Candidates(rows, needs) && |batch| <= limit
        decreases rest
      {
        var r :| r in rest;
        rest, batch := rest - {r}, batch + {r};
      }
      assert |batch + rest| == |batch| + |rest|;
    }

    /** One execution of the statement; the result is its row count. */
    method Execute(needs: V -> bool, update: V -> V, limit: nat) returns (rowsUpdated: nat, ghost batch: set<Uuid>)
      modifies this
      ensures batch <= Candidates(old(rows), needs) && rowsUpdated == |batch|
      ensures rowsUpdated == if |Candidates(old(rows), needs)| <= limit then |Candidates(old(rows), needs)| else limit
      ensures rows == Touched(old(rows), batch, update) && (batch == {} ==> rows == old(rows))
    {
      var selected := Select(needs, limit);
      rows := Touched(rows, selected, update);
      rowsUpdated, batch := |selected|, selected;
    }
  }

  /** One turn of the loop: as many rows as the limit allows are updated and leave the candidates. */
  method RunBatch<V(!new)>(table: Table<V>, needs: V -> bool, update: V -> V, limit: nat,
                           ghost before: map<Uuid, V>, ghost done: set<Uuid>)
    returns (rowsUpdated: nat, ghost after: set<Uuid>)
    requires LeavesAfterUpdate(needs, update)
    requires Progress(before, done, table.rows, needs, update)
    modifies table
    ensures Progress(before, after, table.rows, needs, update)
    ensures |after| == |done| + rowsUpdated
    ensures |Candidates(table.rows, needs)| == |Candidates(old(table.rows), needs)| - rowsUpdated
    ensures var left := |Candidates(old(table.rows), needs)|; rowsUpdated == if left <= limit then left else limit
    ensures rowsUpdated == 0 ==> table.rows == old(table.rows)
  {
    hide Progress, Touched, Candidates, LeavesAfterUpdate;
    ghost var batch: set<Uuid>;
    ghost var rows := table.rows;
    rowsUpdated, batch := table.Execute(needs, update, limit);
    BatchAdds(before, done, rows, batch, needs, update);
    after := done + batch;
  }

  /** Whichever rows each batch picks, the loop ends with the table that one unlimited update gives,
      returns the number of rows that needed it, and takes as many batches as that number fills.
      With a batch size of 0 it does nothing. */
  method RunBatchedUpdate<V(!new)>(table: Table<V>, needs: V -> bool, update: V -> V, batchSize: nat)
    returns (totalUpdated: nat, batchNumber: nat)
    requires LeavesAfterUpdate(needs, update)
    modifies table
    ensures batchSize == 0 ==> table.rows == old(table.rows) && totalUpdated == batchNumber == 0
    ensures batchSize > 0 ==> table.rows == UpdatedAtOnce(old(table.rows), needs, update)
    ensures batchSize > 0 ==> IsUpdated(old(table.rows), table.rows, needs, update)
    ensures batchSize > 0 ==> totalUpdated == |set r | r in old(table.rows) && needs(old(table.rows)[r])|
    ensures batchSize > 0 ==> batchNumber == (totalUpdated + batchSize - 1) / batchSize
  {
    hide Progress, Touched, Candidates, LeavesAfterUpdate, Fills, UpdatedAtOnce, IsUpdated;
    ghost var before := table.rows;
    ghost var done: set<Uuid> := {};
    totalUpdated, batchNumber := 0, 0;
    NothingDone(before, needs, update);
    ghost var left := |Candidates(before, needs)|;
    NoBatchYet(batchSize, left);
    while true
      invariant Progress(before, done, table.rows, needs, update)
      invariant totalUpdated == |done| && left == |Candidates(table.rows, needs)|
      invariant batchSize == 0 ==> table.rows == before && totalUpdated == batchNumber == 0
      invariant Fills(totalUpdated, batchNumber, batchSize, left)
      decreases left
    {
      var rowsUpdated: nat;
      rowsUpdated, done := RunBatch(table, needs, update, batchSize, before, done);
      if rowsUpdated == 0 {
        break;
      }
      OneMoreBatch(totalUpdated, batchNumber, batchSize, left, rowsUpdated);
      batchNumber := batchNumber + 1;
      totalUpdated := totalUpdated + rowsUpdated;
      left := left - rowsUpdated;
    }
    if batchSize > 0 {
      NothingLeft(before, done, table.rows, needs, update);
      UpdatedAtOnceIs(before, needs, update);
      FilledUp(totalUpdated, batchNumber, batchSize);
    }
  }
}
