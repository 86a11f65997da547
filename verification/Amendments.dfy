/** Linking House PTR amendments (`ingest/amendments.py`). */
module Amendments {
  import opened Optional
  import Sorting

  type FilingId = string
  type SourceId = string
  type TxId = nat

  /** `filedDate` and `firstSeen` are days and seconds on the calendar. */
  datatype Filing = Filing(filedDate: Option<nat>, firstSeen: nat, supersedes: Option<FilingId>)

  datatype Tx = Tx(filing: FilingId, source: Option<SourceId>, isCurrent: bool)

  datatype Db = Db(filings: map<FilingId, Filing>, txs: map<TxId, Tx>)

  // ---- the order of filings ----

  /** The sort key; a missing filed date sorts as the earliest date there is. */
  function KeyOf(f: Filing): Sorting.Key {
    (match f.filedDate case None => 0.0 case Some(d) => 1.0 + d as real, f.firstSeen as real)
  }

  predicate Before(a: Sorting.Key, b: Sorting.Key) {
    Sorting.Le(a, b) && a != b
  }

  /** `f` was filed before `g`: on an earlier day, a missing date being before every day, or on the same
      day and seen earlier. */
  predicate Earlier(f: Filing, g: Filing) {
    if f.filedDate == g.filedDate then f.firstSeen < g.firstSeen
    else f.filedDate.None? || (g.filedDate.Some? && f.filedDate.value < g.filedDate.value)
  }

  lemma {:induction false} EarlierIff(f: Filing, g: Filing)
    ensures Before(KeyOf(f), KeyOf(g)) <==> Earlier(f, g)
    ensures KeyOf(f) == KeyOf(g) <==> f.filedDate == g.filedDate && f.firstSeen == g.firstSeen
  {
    assert KeyOf(f).0 == KeyOf(g).0 <==> f.filedDate == g.filedDate;
    assert KeyOf(f).1 == KeyOf(g).1 <==> f.firstSeen == g.firstSeen;
  }

  function TxKey(db: Db, t: TxId): Sorting.Key {
    if t in db.txs && db.txs[t].filing in db.filings then KeyOf(db.filings[db.txs[t].filing]) else (0.0, 0.0)
  }

  // ---- what the tables guarantee ----

  /** Foreign keys. */
  predicate References(db: Db) {
    && (forall t | t in db.txs :: db.txs[t].filing in db.filings)
    && (forall f | f in db.filings && db.filings[f].supersedes.Some? :: db.filings[f].supersedes.value in db.filings)
  }

  /** Two filings that share a source id have different sort keys; unrelated ones may share theirs. */
  predicate DistinctKeys(db: Db) {
    forall t, u | t in db.txs && u in db.txs && db.txs[t].source.Some? && db.txs[t].source == db.txs[u].source
                  && db.txs[t].filing != db.txs[u].filing :: TxKey(db, t) != TxKey(db, u)
  }

  /** A filing lists a source id once. */
  predicate OneRowPerFiling(db: Db) {
    forall t, u | t in db.txs && u in db.txs && db.txs[t].source.Some? && db.txs[t].source == db.txs[u].source
                  && db.txs[t].filing == db.txs[u].filing :: t == u
  }

  predicate Sound(db: Db) {
    References(db) && DistinctKeys(db) && OneRowPerFiling(db)
  }

  // ---- groups ----

  function Group(db: Db, s: SourceId): set<TxId> {
    set t | t in db.txs && db.txs[t].source == Some(s)
  }

  /** The source id stands on transactions of more than one filing. */
  predicate Amended(db: Db, s: SourceId) {
    exists t, u | t in Group(db, s) && u in Group(db, s) :: db.txs[t].filing != db.txs[u].filing
  }

  predicate IsNewest(db: Db, s: SourceId, t: TxId) {
    t in Group(db, s) && forall u | u in Group(db, s) :: Sorting.Le(TxKey(db, u), TxKey(db, t))
  }

  predicate IsOldest(db: Db, s: SourceId, t: TxId) {
    t in Group(db, s) && forall u | u in Group(db, s) :: Sorting.Le(TxKey(db, t), TxKey(db, u))
  }

  /** The filing of row `t` was filed before that of row `u`. */
  predicate FiledBefore(db: Db, t: TxId, u: TxId)
    requires References(db) && t in db.txs && u in db.txs
  {
    Earlier(db.filings[db.txs[t].filing], db.filings[db.txs[u].filing])
  }

  /** Every other row of the group was filed before this one. */
  predicate IsLatest(db: Db, s: SourceId, t: TxId)
    requires References(db)
  {
    t in Group(db, s) && forall u | u in Group(db, s) && u != t :: FiledBefore(db, u, t)
  }

  predicate IsEarliest(db: Db, s: SourceId, t: TxId)
    requires References(db)
  {
    t in Group(db, s) && forall u | u in Group(db, s) && u != t :: FiledBefore(db, t, u)
  }

  lemma {:induction false} KeysByFiling(db: Db, t: TxId, u: TxId)
    requires References(db) && t in db.txs && u in db.txs
    ensures Before(TxKey(db, t), TxKey(db, u)) <==> FiledBefore(db, t, u)
  {
    hide KeyOf, Earlier, Before;
    EarlierIff(db.filings[db.txs[t].filing], db.filings[db.txs[u].filing]);
  }

  lemma {:induction false} KeysApart(db: Db, s: SourceId, t: TxId, u: TxId)
    requires Sound(db) && t in Group(db, s) && u in Group(db, s) && t != u
    ensures TxKey(db, t) != TxKey(db, u)
  {
    hide TxKey;
  }

  /** Under sound tables the sort's newest and oldest rows are those filed last and first. */
  lemma {:induction false} NewestIsLatest(db: Db, s: SourceId, t: TxId)
    requires Sound(db)
    ensures IsNewest(db, s, t) <==> IsLatest(db, s, t)
    ensures IsOldest(db, s, t) <==> IsEarliest(db, s, t)
  {
    hide TxKey, FiledBefore, DistinctKeys, OneRowPerFiling;
    if t in Group(db, s) {
      forall u | u in Group(db, s) && u != t
        ensures Sorting.Le(TxKey(db, u), TxKey(db, t)) <==> FiledBefore(db, u, t)
        ensures Sorting.Le(TxKey(db, t), TxKey(db, u)) <==> FiledBefore(db, t, u)
      {
        KeysApart(db, s, t, u);
        KeysByFiling(db, t, u);
        KeysByFiling(db, u, t);
      }
      assert Sorting.Le(TxKey(db, t), TxKey(db, t));
    }
  }

  // ---- resolving one group ----

  /** Exactly the newest row of the group is current; no other group is touched. */
  function ResolvedTxs(db: Db, s: SourceId): map<TxId, Tx> {
    map t | t in db.txs ::
      if db.txs[t].source == Some(s) then db.txs[t].(isCurrent := IsNewest(db, s, t)) else db.txs[t]
  }

  function WithLink(filings: map<FilingId, Filing>, f: FilingId, g: FilingId): map<FilingId, Filing> {
    if f != g && f in filings && filings[f].supersedes.None?
    then filings[f := filings[f].(supersedes := Some(g))]
    else filings
  }

  /** The rows whose flag differs. */
  function Changed(before: map<TxId, Tx>, after: map<TxId, Tx>): set<TxId> {
    set t | t in before && t in after && before[t].isCurrent != after[t].isCurrent
  }

  /** The rows of a query, in whatever order the database returns them. */
  ghost predicate Lists(rows: seq<TxId>, ts: set<TxId>) {
    && (forall i, j | 0 <= i < j < |rows| :: rows[i] != rows[j])
    && (forall t :: t in rows <==> t in ts)
  }

  lemma {:induction false} LeTotal(a: Sorting.Key, b: Sorting.Key)
    ensures Sorting.Le(a, b) || Sorting.Le(b, a)
    ensures Sorting.Le(a, b) && Sorting.Le(b, a) ==> a == b
  {
  }

  /** Under sound tables the newest row of a group is unique. */
  lemma {:induction false} NewestUnique(db: Db, s: SourceId, t: TxId, u: TxId)
    requires Sound(db) && IsNewest(db, s, t) && IsNewest(db, s, u)
    ensures t == u
  {
    assert TxKey(db, t) == TxKey(db, u);
  }

  lemma {:induction false} OldestUnique(db: Db, s: SourceId, t: TxId, u: TxId)
    requires Sound(db) && IsOldest(db, s, t) && IsOldest(db, s, u)
    ensures t == u
  {
    assert TxKey(db, t) == TxKey(db, u);
  }

  function KeyFunction(db: Db): TxId -> Sorting.Key {
    (t: TxId) => TxKey(db, t)
  }

  /** The last and the first of the sorted rows are the newest and the oldest. */
  lemma {:induction false} SortedEnds(db: Db, s: SourceId, rows: seq<TxId>)
    requires Lists(rows, Group(db, s)) && rows != []
    ensures var ordered := SortedRows(db, rows);
            |ordered| == |rows| && IsNewest(db, s, ordered[|ordered| - 1]) && IsOldest(db, s, ordered[0])
  {
    var ordered := SortedRows(db, rows);
    SortedMembers(db, rows);
    Sorting.SortSorts(rows, KeyFunction(db));
    forall t ensures t in ordered <==> t in Group(db, s) {
      assert t in ordered <==> t in rows;
    }
    var last := |ordered| - 1;
    assert ordered[last] in ordered && ordered[0] in ordered;
    forall u | u in Group(db, s)
      ensures Sorting.Le(TxKey(db, u), TxKey(db, ordered[last])) && Sorting.Le(TxKey(db, ordered[0]), TxKey(db, u))
    {
      assert u in ordered;
      var i :| 0 <= i < |ordered| && ordered[i] == u;
      assert i < last ==> Sorting.Le(KeyFunction(db)(ordered[i]), KeyFunction(db)(ordered[last]));
      assert 0 < i ==> Sorting.Le(KeyFunction(db)(ordered[0]), KeyFunction(db)(ordered[i]));
    }
  }

  function SortedRows(db: Db, rows: seq<TxId>): seq<TxId> {
    Sorting.Sort(rows, KeyFunction(db))
  }

  /** What one group's resolution does, for rows returned in a given order: ties between filings
      with one key go to the row returned last. */
  function ResolvedByRows(db: Db, rows: seq<TxId>): Db
    requires rows != [] && forall t | t in rows :: t in db.txs
  {
    Sorting.SortSorts(rows, KeyFunction(db));
    var ordered := SortedRows(db, rows);
    SortedMembers(db, rows);
    var newest, oldest := ordered[|ordered| - 1], ordered[0];
    Db(WithLink(db.filings, db.txs[newest].filing, db.txs[oldest].filing), Flagged(db.txs, rows, newest))
  }

  lemma {:induction false} SortedMembers(db: Db, rows: seq<TxId>)
    ensures |SortedRows(db, rows)| == |rows|
    ensures forall t :: t in SortedRows(db, rows) <==> t in rows
  {
    Sorting.SortSorts(rows, KeyFunction(db));
    forall t ensures t in SortedRows(db, rows) <==> t in rows {
      assert t in multiset(SortedRows(db, rows)) <==> t in multiset(rows);
    }
  }

  class Store {
    var filings: map<FilingId, Filing>
    var txs: map<TxId, Tx>

    function View(): Db
      reads this
    {
      Db(filings, txs)
    }

    constructor ()
      ensures View() == Db(map[], map[])
    {
      filings, txs := map[], map[];
    }

    /** Resolves one source id, its rows given in any order. */
    method ResolveGroup(rows: seq<TxId>) returns (updated: nat)
      requires forall t | t in rows :: t in txs
      requires forall i, j | 0 <= i < j < |rows| :: rows[i] != rows[j]
      modifies this
      ensures if |rows| < 2 then View() == old(View()) else View() == ResolvedByRows(old(View()), rows)
      ensures updated == |Changed(old(txs), txs)|
    {
      hide Sorting.Sort, TxKey;
      if |rows| < 2 {
        NothingChanged(txs);
        return 0;
      }
      ghost var db := View();
      var ordered := SortedRows(View(), rows);
      SortedMembers(View(), rows);
      var newestTx := ordered[|ordered| - 1];
      var newestFiling, oldestFiling := txs[newestTx].filing, txs[ordered[0]].filing;
      updated := 0;
      NothingFlagged(txs, rows, newestTx);
      for i := 0 to |rows|
        invariant filings == db.filings
        invariant txs == Flagged(db.txs, rows[..i], newestTx)
        invariant updated == |Changed(db.txs, txs)|
      {
        var t := rows[i];
        FlaggedStep(db.txs, rows, i, newestTx);
        var shouldBeCurrent := t == newestTx;
        if txs[t].isCurrent != shouldBeCurrent {
          txs := txs[t := txs[t].(isCurrent := shouldBeCurrent)];
          updated := updated + 1;
        }
      }
      assert rows[..|rows|] == rows;
      if newestFiling != oldestFiling {
        if newestFiling in filings && filings[newestFiling].supersedes.None? {
          filings := filings[newestFiling := filings[newestFiling].(supersedes := Some(oldestFiling))];
        }
      }
    }

    /** One linking run; `order` is the order of the amended source ids and `scan` that of the
        rows of each, as the database returns them. */
    method LinkAmendments(order: seq<SourceId>, scan: map<SourceId, seq<TxId>>) returns (updated: nat)
      requires ValidScan(View(), order, scan)
      modifies this
      ensures View() == LinkedByRows(old(View()), order, scan)
      ensures updated == |Changed(old(txs), txs)|
    {
      hide ResolvedByRows, Changed;
      updated := 0;
      ghost var db := View();
      NothingChanged(txs);
      ScanRows(db, order, scan);
      for i := 0 to |order|
        invariant View() == LinkedByRows(db, order[..i], scan)
        invariant updated == |Changed(db.txs, txs)|
      {
        LinkStep(db, order, scan, i);
        assert order[..i + 1][..i] == order[..i];
        var more := ResolveGroup(scan[order[i]]);
        updated := updated + more;
      }
      assert order[..|order|] == order;
    }
  }

  /** The flags after the rows so far. */
  function Flagged(txs: map<TxId, Tx>, rows: seq<TxId>, newest: TxId): map<TxId, Tx> {
    map t | t in txs :: if t in rows then txs[t].(isCurrent := t == newest) else txs[t]
  }

  lemma {:induction false} NothingFlagged(txs: map<TxId, Tx>, rows: seq<TxId>, newest: TxId)
    ensures Flagged(txs, rows[..0], newest) == txs && Changed(txs, txs) == {}
  {
  }

  lemma {:induction false} FlaggedSnoc(txs: map<TxId, Tx>, rows: seq<TxId>, t: TxId, newest: TxId)
    requires t in txs && t !in rows
    ensures var before, after := Flagged(txs, rows, newest), Flagged(txs, rows + [t], newest);
            before[t] == txs[t] && after == before[t := txs[t].(isCurrent := t == newest)]
  {
  }

  lemma {:induction false} ChangedUpdate(txs: map<TxId, Tx>, before: map<TxId, Tx>, t: TxId, flag: bool)
    requires txs.Keys == before.Keys && t in txs && before[t] == txs[t]
    ensures var after := before[t := txs[t].(isCurrent := flag)];
            && (txs[t].isCurrent == flag ==> after == before)
            && (txs[t].isCurrent != flag ==> |Changed(txs, after)| == |Changed(txs, before)| + 1)
  {
    var after := before[t := txs[t].(isCurrent := flag)];
    if txs[t].isCurrent != flag {
      assert Changed(txs, after) == Changed(txs, before) + {t};
      assert t !in Changed(txs, before);
    }
  }

  lemma {:induction false} FlaggedStep(txs: map<TxId, Tx>, rows: seq<TxId>, i: nat, newest: TxId)
    requires i < |rows| && (forall t | t in rows :: t in txs)
    requires forall i, j | 0 <= i < j < |rows| :: rows[i] != rows[j]
    ensures var before, after := Flagged(txs, rows[..i], newest), Flagged(txs, rows[..i + 1], newest);
            var t := rows[i];
            && t in before && before[t] == txs[t]
            && after == before[t := txs[t].(isCurrent := t == newest)]
            && (txs[t].isCurrent == (t == newest) ==> after == before)
            && (txs[t].isCurrent != (t == newest) ==> |Changed(txs, after)| == |Changed(txs, before)| + 1)
  {
    var t := rows[i];
    assert rows[..i + 1] == rows[..i] + [t];
    FlaggedSnoc(txs, rows[..i], t, newest);
    ChangedUpdate(txs, Flagged(txs, rows[..i], newest), t, t == newest);
  }

  lemma {:induction false} FlaggedIsResolved(db: Db, s: SourceId, rows: seq<TxId>, newest: TxId)
    requires Sound(db) && Lists(rows, Group(db, s)) && IsNewest(db, s, newest)
    ensures Flagged(db.txs, rows, newest) == ResolvedTxs(db, s)
  {
    forall t | t in db.txs && db.txs[t].source == Some(s) ensures IsNewest(db, s, t) <==> t == newest {
      if IsNewest(db, s, t) {
        NewestUnique(db, s, t, newest);
      }
    }
    forall t | t in db.txs ensures t in rows <==> db.txs[t].source == Some(s) {
      assert t in Group(db, s) <==> db.txs[t].source == Some(s);
    }
  }

  lemma {:induction false} NothingChanged(txs: map<TxId, Tx>)
    ensures Changed(txs, txs) == {}
  {
  }

  // ---- a whole linking run ----

  /** The columns that linking never changes. */
  predicate SameRows(a: Db, b: Db) {
    && a.txs.Keys == b.txs.Keys && a.filings.Keys == b.filings.Keys
    && (forall t | t in a.txs :: a.txs[t].filing == b.txs[t].filing && a.txs[t].source == b.txs[t].source)
    && (forall f | f in a.filings :: KeyOf(a.filings[f]) == KeyOf(b.filings[f]))
  }

  /** `order` lists the amended source ids once each, `scan` the rows of each. */
  ghost predicate ValidScan(db: Db, order: seq<SourceId>, scan: map<SourceId, seq<TxId>>) {
    && (forall i, j | 0 <= i < j < |order| :: order[i] != order[j])
    && (forall s :: s in order <==> Amended(db, s))
    && (forall s | s in order :: s in scan && Lists(scan[s], Group(db, s)))
  }

  ghost function LinkedByRows(db: Db, order: seq<SourceId>, scan: map<SourceId, seq<TxId>>): Db
    requires forall s | s in order :: s in scan && forall t | t in scan[s] :: t in db.txs
    decreases |order|, 0
  {
    if order == [] then db
    else
      var n := |order| - 1;
      var before := LinkedByRows(db, order[..n], scan);
      var rows := scan[order[n]];
      LinkedKeys(db, order[..n], scan);
      if |rows| < 2 then before else ResolvedByRows(before, rows)
  }

  lemma {:induction false} ResolvedSameRows(db: Db, rows: seq<TxId>)
    requires rows != [] && forall t | t in rows :: t in db.txs
    ensures SameRows(db, ResolvedByRows(db, rows))
  {
  }

  lemma {:induction false} LinkedKeys(db: Db, order: seq<SourceId>, scan: map<SourceId, seq<TxId>>)
    requires forall s | s in order :: s in scan && forall t | t in scan[s] :: t in db.txs
    ensures SameRows(db, LinkedByRows(db, order, scan))
    decreases |order|, 1
  {
    hide ResolvedByRows;
    if order != [] {
      var n := |order| - 1;
      LinkedKeys(db, order[..n], scan);
      var before := LinkedByRows(db, order[..n], scan);
      if |scan[order[n]]| >= 2 {
        ResolvedSameRows(before, scan[order[n]]);
      }
    }
  }

  lemma {:induction false} ScanRows(db: Db, order: seq<SourceId>, scan: map<SourceId, seq<TxId>>)
    requires ValidScan(db, order, scan)
    ensures forall s | s in order :: s in scan && forall t | t in scan[s] :: t in db.txs
  {
    forall s | s in order ensures s in scan && forall t | t in scan[s] :: t in db.txs {
      assert Lists(scan[s], Group(db, s));
    }
  }

  /** Only rows of the resolved groups change. */
  lemma {:induction false} LinkedOthers(db: Db, order: seq<SourceId>, scan: map<SourceId, seq<TxId>>, t: TxId)
    requires forall s | s in order :: s in scan && Lists(scan[s], Group(db, s))
    requires forall s | s in order :: s in scan && forall u | u in scan[s] :: u in db.txs
    requires t in db.txs && forall s | s in order :: db.txs[t].source != Some(s)
    ensures var after := LinkedByRows(db, order, scan); t in after.txs && after.txs[t] == db.txs[t]
  {
    if order != [] {
      var n := |order| - 1;
      LinkedOthers(db, order[..n], scan, t);
      LinkedKeys(db, order[..n], scan);
      assert order[n] in order && Lists(scan[order[n]], Group(db, order[n]));
      assert t !in scan[order[n]];
    }
  }

  lemma {:induction false} ResolvedOnlyRows(db: Db, rows: seq<TxId>)
    requires rows != [] && forall t | t in rows :: t in db.txs
    ensures forall t | t in Changed(db.txs, ResolvedByRows(db, rows).txs) :: t in rows
  {
  }

  /** Changes in disjoint groups add up. */
  lemma {:induction false} ChangesAdd(a: map<TxId, Tx>, b: map<TxId, Tx>, c: map<TxId, Tx>, rows: set<TxId>)
    requires a.Keys == b.Keys == c.Keys
    requires forall t | t in rows && t in a :: a[t] == b[t]
    requires forall t | t in Changed(b, c) :: t in rows
    ensures |Changed(a, c)| == |Changed(a, b)| + |Changed(b, c)|
  {
    assert Changed(a, c) == Changed(a, b) + Changed(b, c);
    assert Changed(a, b) !! Changed(b, c);
  }

  lemma {:induction false} LinkStep(db: Db, order: seq<SourceId>, scan: map<SourceId, seq<TxId>>, i: nat)
    requires ValidScan(db, order, scan) && i < |order|
    ensures forall s | s in order :: s in scan && forall t | t in scan[s] :: t in db.txs
    ensures var before := LinkedByRows(db, order[..i], scan);
            var rows := scan[order[i]];
            && (forall t | t in rows :: t in before.txs)
            && (forall j, k | 0 <= j < k < |rows| :: rows[j] != rows[k])
            && var after := if |rows| < 2 then before else ResolvedByRows(before, rows);
               && LinkedByRows(db, order[..i + 1], scan) == after
               && |Changed(db.txs, after.txs)| == |Changed(db.txs, before.txs)| + |Changed(before.txs, after.txs)|
  {
    hide ResolvedByRows, Amended;
    ScanRows(db, order, scan);
    var before := LinkedByRows(db, order[..i], scan);
    var rows := scan[order[i]];
    assert order[i] in order && Lists(rows, Group(db, order[i]));
    LinkedKeys(db, order[..i], scan);
    assert order[..i + 1][..i] == order[..i];
    forall t | t in rows ensures before.txs[t] == db.txs[t] {
      assert t in Group(db, order[i]);
      LinkedOthers(db, order[..i], scan, t);
    }
    if |rows| < 2 {
      NothingChanged(before.txs);
    } else {
      ResolvedOnlyRows(before, rows);
      ResolvedSameRows(before, rows);
      var group := Group(db, order[i]);
      ChangesAdd(db.txs, before.txs, ResolvedByRows(before, rows).txs, group);
    }
  }
}
