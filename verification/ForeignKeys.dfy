/** Deleting rows that other rows refer to: ON DELETE CASCADE, ON DELETE SET NULL and no action. */
module ForeignKeys {
  import opened Sql

  /** A row of organizations, or of another table. */
  datatype Key = OfOrganization(id: Uuid) | OfTable(table: string, id: Uuid)

  datatype Action = NoAction | Cascade | SetNull

  datatype Reference = Reference(to: Key, onDelete: Action)

  /** Rows with the references they hold. */
  type Rows = map<Key, set<Reference>>

  /** The row is deleted along with a row it refers to. */
  predicate Follows(rows: Rows, r: Key, gone: set<Key>) {
    r in rows && exists f :: f in rows[r] && f.onDelete.Cascade? && f.to in gone
  }

  function Step(rows: Rows, gone: set<Key>): (more: set<Key>)
    ensures gone <= more
  {
    gone + set r | r in rows && Follows(rows, r, gone)
  }

  /** Everything that a deletion takes along. */
  function Deleted(rows: Rows, gone: set<Key>): set<Key>
    decreases rows.Keys - gone
  {
    var more := Step(rows, gone);
    if more == gone then gone
    else
      assert rows.Keys - more < rows.Keys - gone;
      Deleted(rows, more)
  }

  /** With a row, the set has every row that refers to it with a cascade. */
  ghost predicate IsCascaded(rows: Rows, gone: set<Key>) {
    forall r, f :: r in rows && f in rows[r] && f.onDelete == Cascade && f.to in gone ==> r in gone
  }

  lemma CascadedIff(rows: Rows, gone: set<Key>)
    ensures IsCascaded(rows, gone) <==> Step(rows, gone) == gone
  {
    if IsCascaded(rows, gone) {
      forall r | r in rows && Follows(rows, r, gone) ensures r in gone {
        var f :| f in rows[r] && f.onDelete.Cascade? && f.to in gone;
      }
    }
    if Step(rows, gone) == gone {
      forall r, f | r in rows && f in rows[r] && f.onDelete == Cascade && f.to in gone ensures r in gone {
        assert Follows(rows, r, gone);
      }
    }
  }

  /** It is the least set that holds the deleted rows and, with a row, all that follow it. */
  lemma DeletedIsLeast(rows: Rows, targets: set<Key>, any: set<Key>)
    ensures targets <= Deleted(rows, targets) && IsCascaded(rows, Deleted(rows, targets))
    ensures targets <= any && IsCascaded(rows, any) ==> Deleted(rows, targets) <= any
  {
    hide IsCascaded;
    DeletedIsFixed(rows, targets, any);
    CascadedIff(rows, Deleted(rows, targets));
    CascadedIff(rows, any);
  }

  lemma {:induction false} DeletedIsFixed(rows: Rows, gone: set<Key>, any: set<Key>)
    ensures gone <= Deleted(rows, gone) && Step(rows, Deleted(rows, gone)) == Deleted(rows, gone)
    ensures gone <= any && Step(rows, any) == any ==> Deleted(rows, gone) <= any
    decreases rows.Keys - gone
  {
    var more := Step(rows, gone);
    if more != gone {
      assert rows.Keys - more < rows.Keys - gone;
      DeletedIsFixed(rows, more, any);
      if gone <= any && Step(rows, any) == any {
        StepGrows(rows, gone, any);
      }
    }
  }

  lemma StepGrows(rows: Rows, a: set<Key>, b: set<Key>)
    requires a <= b
    ensures Step(rows, a) <= Step(rows, b)
  {
    forall r | r in rows && Follows(rows, r, a) ensures Follows(rows, r, b) {
      var f :| f in rows[r] && f.onDelete.Cascade? && f.to in a;
      assert f.to in b;
    }
  }

  /** A row that stays refers, without an action, to one that goes. */
  predicate IsBlocked(rows: Rows, gone: set<Key>) {
    exists r :: r in rows && r !in gone && HoldsOn(rows[r], gone)
  }

  predicate HoldsOn(references: set<Reference>, gone: set<Key>) {
    exists f :: f in references && f.onDelete.NoAction? && f.to in gone
  }

  /** The rows that stay, without the references that were set to NULL. */
  function Remaining(rows: Rows, gone: set<Key>): Rows {
    map r | r in rows && r !in gone :: set f | f in rows[r] && f.to !in gone
  }

  /** Only references that are set to NULL are lost by the rows that stay. */
  lemma OnlyNulledAreLost(rows: Rows, targets: set<Key>)
    requires var gone := Deleted(rows, targets); !IsBlocked(rows, gone)
    ensures var gone := Deleted(rows, targets);
      forall r, f :: r in rows && r !in gone && f in rows[r] && f !in Remaining(rows, gone)[r] ==> f.onDelete.SetNull?
  {
    var gone := Deleted(rows, targets);
    DeletedIsFixed(rows, targets, gone);
    forall r, f | r in rows && r !in gone && f in rows[r] && f !in Remaining(rows, gone)[r]
      ensures f.onDelete.SetNull?
    {
      assert f.to in gone;
      assert r !in Step(rows, gone) && !Follows(rows, r, gone);
      assert !HoldsOn(rows[r], gone);
    }
  }

  /** DELETE: what follows goes along, and a row that holds on stops it. */
  method Delete(rows: Rows, targets: set<Key>) returns (after: Rows, ok: bool)
    ensures ok <==> !IsBlocked(rows, Deleted(rows, targets))
    ensures after == if ok then Remaining(rows, Deleted(rows, targets)) else rows
  {
    hide IsBlocked, Remaining, Step;
    DeletedUnrolls(rows, targets);
    var gone := targets;
    var more := Step(rows, gone);
    while more != gone
      invariant more == Step(rows, gone)
      invariant Deleted(rows, gone) == Deleted(rows, targets)
      decreases rows.Keys - gone
    {
      StepIsProgress(rows, gone);
      DeletedUnrolls(rows, gone);
      gone := more;
      more := Step(rows, gone);
    }
    DeletedUnrolls(rows, gone);
    ok := !IsBlocked(rows, gone);
    after := if ok then Remaining(rows, gone) else rows;
  }

  lemma DeletedUnrolls(rows: Rows, gone: set<Key>)
    ensures Deleted(rows, gone) == if Step(rows, gone) == gone then gone else Deleted(rows, Step(rows, gone))
  {
  }

  lemma StepIsProgress(rows: Rows, gone: set<Key>)
    requires Step(rows, gone) != gone
    ensures rows.Keys - Step(rows, gone) < rows.Keys - gone
  {
  }

  /** A row stops the deletion exactly if it stays and refers, without an action, to one that goes. */
  lemma BlockedIff(rows: Rows, gone: set<Key>)
    ensures IsBlocked(rows, gone) <==>
      exists r, f :: r in rows && r !in gone && f in rows[r] && f.onDelete == NoAction && f.to in gone
  {
  }

  /** The rows that stay keep exactly their references to rows that stay. */
  lemma RemainingIff(rows: Rows, gone: set<Key>)
    ensures forall r :: r in Remaining(rows, gone) <==> r in rows && r !in gone
    ensures forall r, f :: r in Remaining(rows, gone) ==>
      (f in Remaining(rows, gone)[r] <==> f in rows[r] && f.to !in gone)
  {
  }

  lemma NothingDeleted(rows: Rows)
    ensures Deleted(rows, {}) == {} && !IsBlocked(rows, {})
  {
    assert Step(rows, {}) == {};
  }
}
