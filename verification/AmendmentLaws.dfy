/** Amendment linking over whole runs: which rows end up current, and where the supersedes links lead. */
module AmendmentLaws {
  import opened Optional
  import opened Amendments
  import Sorting

  // ---- one run ----

  /** Groups and their order do not depend on the columns linking writes. */
  lemma {:induction false} SameRowsSameOrder(a: Db, b: Db)
    requires SameRows(a, b) && References(a)
    ensures forall s :: Group(a, s) == Group(b, s)
    ensures forall s :: Amended(a, s) <==> Amended(b, s)
    ensures forall t | t in a.txs :: TxKey(a, t) == TxKey(b, t)
    ensures forall s, t | t in a.txs ::
          (IsNewest(a, s, t) <==> IsNewest(b, s, t)) && (IsOldest(a, s, t) <==> IsOldest(b, s, t))
  {
    forall s ensures Group(a, s) == Group(b, s) {
    }
    forall t | t in a.txs ensures TxKey(a, t) == TxKey(b, t) {
    }
    forall s ensures Amended(a, s) <==> Amended(b, s) {
      assert Group(a, s) == Group(b, s);
      if Amended(a, s) {
        var t, u :| t in Group(a, s) && u in Group(a, s) && a.txs[t].filing != a.txs[u].filing;
        assert b.txs[t].filing != b.txs[u].filing;
      }
      if Amended(b, s) {
        var t, u :| t in Group(b, s) && u in Group(b, s) && b.txs[t].filing != b.txs[u].filing;
        assert a.txs[t].filing != a.txs[u].filing;
      }
    }
    forall s, t | t in a.txs
      ensures (IsNewest(a, s, t) <==> IsNewest(b, s, t)) && (IsOldest(a, s, t) <==> IsOldest(b, s, t))
    {
      assert Group(a, s) == Group(b, s);
    }
  }

  /** Under sound tables the row order does not matter: exactly the newest row becomes current. */
  lemma {:induction false} RowOrderIrrelevant(db: Db, s: SourceId, rows: seq<TxId>)
    requires Sound(db) && Lists(rows, Group(db, s)) && rows != []
    ensures forall t | t in rows :: t in db.txs
    ensures ResolvedByRows(db, rows).txs == ResolvedTxs(db, s)
    ensures var ordered := SortedRows(db, rows);
            |ordered| == |rows| && IsNewest(db, s, ordered[|ordered| - 1]) && IsOldest(db, s, ordered[0])
  {
    hide Sorting.Sort;
    assert forall t | t in rows :: t in Group(db, s);
    SortedEnds(db, s, rows);
    SortedMembers(db, rows);
    var ordered := SortedRows(db, rows);
    FlaggedIsResolved(db, s, rows, ordered[|ordered| - 1]);
  }

  /** The flag a linking run gives a row. */
  function LinkedFlag(db: Db, t: TxId): bool
    requires t in db.txs
  {
    var tx := db.txs[t];
    if tx.source.Some? && Amended(db, tx.source.value) then IsNewest(db, tx.source.value, t) else tx.isCurrent
  }

  /** The rows after the groups of `done` are resolved. */
  function LinkedRows(db: Db, done: seq<SourceId>): map<TxId, Tx> {
    map t | t in db.txs ::
      if db.txs[t].source.Some? && db.txs[t].source.value in done
      then db.txs[t].(isCurrent := LinkedFlag(db, t)) else db.txs[t]
  }

  lemma {:induction false} ResolvedReferences(db: Db, rows: seq<TxId>)
    requires References(db) && rows != [] && forall t | t in rows :: t in db.txs
    ensures References(ResolvedByRows(db, rows))
  {
    hide Sorting.Sort;
    SortedMembers(db, rows);
    assert SortedRows(db, rows)[0] in rows;
  }

  lemma {:induction false} LinkedReferences(db: Db, order: seq<SourceId>, scan: map<SourceId, seq<TxId>>)
    requires References(db)
    requires forall s | s in order :: s in scan && forall t | t in scan[s] :: t in db.txs
    ensures References(LinkedByRows(db, order, scan))
  {
    hide ResolvedByRows, References;
    if order != [] {
      var n := |order| - 1;
      LinkedReferences(db, order[..n], scan);
      LinkedKeys(db, order[..n], scan);
      if |scan[order[n]]| >= 2 {
        ResolvedReferences(LinkedByRows(db, order[..n], scan), scan[order[n]]);
      }
    }
  }

  /** Part of a run: what the earlier groups left is still sound and has the same rows. */
  lemma {:induction false} LinkedSound(db: Db, order: seq<SourceId>, scan: map<SourceId, seq<TxId>>, i: nat)
    requires Sound(db) && ValidScan(db, order, scan) && i <= |order|
    ensures forall s | s in order :: s in scan && forall t | t in scan[s] :: t in db.txs
    ensures Sound(LinkedByRows(db, order[..i], scan)) && SameRows(db, LinkedByRows(db, order[..i], scan))
  {
    ScanRows(db, order, scan);
    LinkedKeys(db, order[..i], scan);
    LinkedReferences(db, order[..i], scan);
    SoundSameRows(db, LinkedByRows(db, order[..i], scan));
  }

  lemma {:induction false} LinkedRowsStep(db: Db, before: Db, done: seq<SourceId>, s: SourceId)
    requires References(db) && SameRows(db, before) && before.txs == LinkedRows(db, done) && Amended(db, s)
    ensures ResolvedTxs(before, s) == LinkedRows(db, done + [s])
  {
    hide Amended, IsNewest, References;
    SameRowsSameOrder(db, before);
  }

  /** A whole run gives every row of an amended group its canonical flag and leaves the others. */
  lemma {:induction false} LinkedTxs(db: Db, order: seq<SourceId>, scan: map<SourceId, seq<TxId>>, i: nat)
    requires Sound(db) && ValidScan(db, order, scan) && i <= |order|
    ensures forall s | s in order :: s in scan && forall t | t in scan[s] :: t in db.txs
    ensures LinkedByRows(db, order[..i], scan).txs == LinkedRows(db, order[..i])
  {
    hide ResolvedByRows, LinkedRows, ResolvedTxs, SameRows, Sound, ValidScan, Amended, Lists, References;
    LinkedSound(db, order, scan, i);
    if i == 0 {
      NothingLinked(db);
    } else {
      LinkedTxs(db, order, scan, i - 1);
      LinkedSound(db, order, scan, i - 1);
      GroupResolved(db, order, scan, i - 1);
      SoundReferences(db);
      assert order[..i][..i - 1] == order[..i - 1];
      assert order[..i] == order[..i - 1] + [order[i - 1]];
      LinkedRowsStep(db, LinkedByRows(db, order[..i - 1], scan), order[..i - 1], order[i - 1]);
    }
  }

  lemma {:induction false} SoundReferences(db: Db)
    requires Sound(db)
    ensures References(db)
  {
  }

  lemma {:induction false} NothingLinked(db: Db)
    ensures LinkedRows(db, []) == db.txs
  {
  }

  /** Resolving the next group from the state the earlier ones left. */
  lemma {:induction false} GroupResolved(db: Db, order: seq<SourceId>, scan: map<SourceId, seq<TxId>>, i: nat)
    requires Sound(db) && ValidScan(db, order, scan) && i < |order|
    ensures order[i] in scan && |scan[order[i]]| >= 2 && Amended(db, order[i])
    ensures forall s | s in order :: s in scan && forall t | t in scan[s] :: t in db.txs
    ensures var before := LinkedByRows(db, order[..i], scan);
            var rows := scan[order[i]];
            && Sound(before) && Lists(rows, Group(before, order[i]))
            && (forall t | t in rows :: t in before.txs)
            && ResolvedByRows(before, rows).txs == ResolvedTxs(before, order[i])
  {
    hide ResolvedByRows, ResolvedTxs, DistinctKeys, OneRowPerFiling;
    var s := order[i];
    assert s in order;
    LinkedSound(db, order, scan, i);
    var before := LinkedByRows(db, order[..i], scan);
    SameRowsSameOrder(db, before);
    AmendedHasRows(db, s, scan[s]);
    RowOrderIrrelevant(before, s, scan[s]);
  }

  lemma {:induction false} AmendedHasRows(db: Db, s: SourceId, rows: seq<TxId>)
    requires Amended(db, s) && Lists(rows, Group(db, s))
    ensures |rows| >= 2
  {
    var t, u :| t in Group(db, s) && u in Group(db, s) && db.txs[t].filing != db.txs[u].filing;
    assert t in rows && u in rows;
  }

  lemma {:induction false} SoundSameRows(a: Db, b: Db)
    requires Sound(a) && SameRows(a, b)
    requires forall f | f in b.filings && b.filings[f].supersedes.Some? :: b.filings[f].supersedes.value in b.filings
    ensures Sound(b)
  {
  }
}
