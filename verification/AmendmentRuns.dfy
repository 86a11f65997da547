/** Any interleaving of inserts and linking runs (`ingest/amendments.py`). */
module AmendmentRuns {
  import opened Optional
  import opened Amendments
  import opened AmendmentLaws
  import Sorting

  // ---- runs ----

  /** A filing is detected; a parsed row is stored; a linking run with its query orders. */
  datatype Event =
    | AddFiling(id: FilingId, filedDate: Option<nat>, firstSeen: nat)
    | AddTx(tx: TxId, filing: FilingId, source: Option<SourceId>)
    | Link(order: seq<SourceId>, scan: map<SourceId, seq<TxId>>)

  ghost predicate Enabled(db: Db, e: Event) {
    match e
    case AddFiling(id, _, _) => id !in db.filings
    case AddTx(tx, filing, _) => tx !in db.txs && filing in db.filings
    case Link(order, scan) => ValidScan(db, order, scan)
  }

  ghost function Next(db: Db, e: Event): Db
    requires Enabled(db, e)
  {
    match e
    case AddFiling(id, filedDate, firstSeen) => db.(filings := db.filings[id := Filing(filedDate, firstSeen, None)])
    case AddTx(tx, filing, source) => db.(txs := db.txs[tx := Tx(filing, source, true)])
    case Link(order, scan) => ScanRows(db, order, scan); LinkedByRows(db, order, scan)
  }

  const EMPTY := Db(map[], map[])

  /** The tables stay sound: keys are distinct and a filing lists a source id once. */
  ghost predicate IsRun(states: seq<Db>, events: seq<Event>) {
    && |states| == |events| + 1 && states[0] == EMPTY
    && (forall i | 0 <= i < |states| :: Sound(states[i]))
    && forall i | 0 <= i < |events| :: Enabled(states[i], events[i]) && states[i + 1] == Next(states[i], events[i])
  }

  // ---- what every step keeps ----

  /** A row that is not current belongs to an amended group and is not its newest row. */
  predicate FalseMeansOutdated(db: Db) {
    forall t | t in db.txs && !db.txs[t].isCurrent ::
      db.txs[t].source.Some? && Amended(db, db.txs[t].source.value) && !IsNewest(db, db.txs[t].source.value, t)
  }

  /** Every supersedes link leads to a filing with a strictly smaller key. */
  predicate LinksGoBack(db: Db) {
    forall f | f in db.filings && db.filings[f].supersedes.Some? ::
      db.filings[f].supersedes.value in db.filings
      && Before(KeyOf(db.filings[db.filings[f].supersedes.value]), KeyOf(db.filings[f]))
  }

  /** Nothing disappears, no false flag turns true, no link changes. */
  predicate Monotone(a: Db, b: Db) {
    && a.txs.Keys <= b.txs.Keys && a.filings.Keys <= b.filings.Keys
    && (forall t | t in a.txs ::
          a.txs[t].filing == b.txs[t].filing && a.txs[t].source == b.txs[t].source
          && (!a.txs[t].isCurrent ==> !b.txs[t].isCurrent))
    && (forall f | f in a.filings ::
          KeyOf(a.filings[f]) == KeyOf(b.filings[f])
          && (a.filings[f].supersedes.Some? ==> b.filings[f].supersedes == a.filings[f].supersedes))
  }

  /** Growing tables keep a row outdated. */
  lemma {:induction false} OutdatedStays(a: Db, b: Db, s: SourceId, t: TxId)
    requires Monotone(a, b) && References(a) && t in a.txs
    requires Amended(a, s) && !IsNewest(a, s, t) && a.txs[t].source == Some(s)
    ensures Amended(b, s) && !IsNewest(b, s, t)
  {
    var x, y :| x in Group(a, s) && y in Group(a, s) && a.txs[x].filing != a.txs[y].filing;
    assert x in Group(b, s) && y in Group(b, s) && b.txs[x].filing != b.txs[y].filing;
    assert t in Group(a, s);
    var u :| u in Group(a, s) && !Sorting.Le(TxKey(a, u), TxKey(a, t));
    assert u in Group(b, s) && TxKey(b, u) == TxKey(a, u) && TxKey(b, t) == TxKey(a, t);
  }

  /** What resolving a group writes, by its newest and its oldest row. */
  lemma {:induction false} ResolvedParts(db: Db, s: SourceId, rows: seq<TxId>) returns (newest: TxId, oldest: TxId)
    requires Sound(db) && Amended(db, s) && Lists(rows, Group(db, s)) && rows != []
    ensures forall t | t in rows :: t in db.txs
    ensures newest in db.txs && oldest in db.txs && IsNewest(db, s, newest) && IsOldest(db, s, oldest)
    ensures ResolvedByRows(db, rows)
            == Db(WithLink(db.filings, db.txs[newest].filing, db.txs[oldest].filing), ResolvedTxs(db, s))
  {
    hide SortedRows, ResolvedTxs, IsNewest, IsOldest, Sound, Amended, WithLink;
    RowOrderIrrelevant(db, s, rows);
    SortedMembers(db, rows);
    var ordered := SortedRows(db, rows);
    newest, oldest := ordered[|ordered| - 1], ordered[0];
  }

  lemma {:induction false} ResolvedLinks(db: Db, s: SourceId, rows: seq<TxId>)
    requires Sound(db) && LinksGoBack(db) && Amended(db, s) && Lists(rows, Group(db, s)) && rows != []
    ensures forall t | t in rows :: t in db.txs
    ensures var after := ResolvedByRows(db, rows);
            && LinksGoBack(after)
            && (forall f | f in db.filings && db.filings[f].supersedes.Some? ::
                  f in after.filings && after.filings[f].supersedes == db.filings[f].supersedes)
            && HasLink(after, s)
  {
    hide ResolvedByRows, ResolvedTxs, DistinctKeys, OneRowPerFiling, Amended, Lists, HasLink, IsNewest, IsOldest;
    var newest, oldest := ResolvedParts(db, s, rows);
    NewestAndOldestDiffer(db, s, newest, oldest);
    ResolvedSameRows(db, rows);
    NewestHasLink(db, s, rows, newest, oldest);
  }

  lemma {:induction false} NewestHasLink(db: Db, s: SourceId, rows: seq<TxId>, newest: TxId, oldest: TxId)
    requires Sound(db) && rows != [] && forall t | t in rows :: t in db.txs
    requires newest in db.txs && oldest in db.txs && IsNewest(db, s, newest)
    requires db.txs[newest].filing != db.txs[oldest].filing
    requires ResolvedByRows(db, rows).filings == WithLink(db.filings, db.txs[newest].filing, db.txs[oldest].filing)
    ensures HasLink(ResolvedByRows(db, rows), s)
  {
    hide ResolvedByRows, ResolvedTxs, DistinctKeys, OneRowPerFiling, IsNewest, IsOldest;
    var after := ResolvedByRows(db, rows);
    ResolvedSameRows(db, rows);
    SameRowsSameOrder(db, after);
    forall t | t in after.txs && IsNewest(after, s, t)
      ensures after.txs[t].filing in after.filings && after.filings[after.txs[t].filing].supersedes.Some?
    {
      NewestUnique(db, s, t, newest);
    }
  }

  /** The newest row's filing of the group already supersedes some filing. */
  predicate HasLink(db: Db, s: SourceId) {
    forall t | t in db.txs && IsNewest(db, s, t) ::
      db.txs[t].filing in db.filings && db.filings[db.txs[t].filing].supersedes.Some?
  }

  /** In an amended group the newest and the oldest row stand in different filings, in key order. */
  lemma {:induction false} NewestAndOldestDiffer(db: Db, s: SourceId, newest: TxId, oldest: TxId)
    requires Sound(db) && Amended(db, s) && IsNewest(db, s, newest) && IsOldest(db, s, oldest)
    ensures db.txs[newest].filing != db.txs[oldest].filing
    ensures Before(TxKey(db, oldest), TxKey(db, newest))
  {
    var t, u :| t in Group(db, s) && u in Group(db, s) && db.txs[t].filing != db.txs[u].filing;
    assert TxKey(db, t) != TxKey(db, u);
    assert Sorting.Le(TxKey(db, oldest), TxKey(db, t)) && Sorting.Le(TxKey(db, t), TxKey(db, newest));
    assert Sorting.Le(TxKey(db, oldest), TxKey(db, u)) && Sorting.Le(TxKey(db, u), TxKey(db, newest));
  }

  /** Links over a run: still going back, never rewritten. */
  lemma {:induction false} LinkedLinks(db: Db, order: seq<SourceId>, scan: map<SourceId, seq<TxId>>, i: nat)
    requires Sound(db) && LinksGoBack(db) && ValidScan(db, order, scan) && i <= |order|
    ensures forall s | s in order :: s in scan && forall t | t in scan[s] :: t in db.txs
    ensures var after := LinkedByRows(db, order[..i], scan);
            LinksGoBack(after)
            && forall f | f in db.filings && db.filings[f].supersedes.Some? ::
                 f in after.filings && after.filings[f].supersedes == db.filings[f].supersedes
    ensures forall s | s in order[..i] :: HasLink(LinkedByRows(db, order[..i], scan), s)
  {
    hide ResolvedByRows, LinksGoBack, DistinctKeys, OneRowPerFiling, Lists, Amended, HasLink;
    LinkedSound(db, order, scan, i);
    if i > 0 {
      LinkedLinks(db, order, scan, i - 1);
      LinkedSound(db, order, scan, i - 1);
      GroupResolved(db, order, scan, i - 1);
      var before := LinkedByRows(db, order[..i - 1], scan);
      assert order[..i][..i - 1] == order[..i - 1];
      GroupStillAmended(db, before, order[i - 1]);
      ResolvedLinks(before, order[i - 1], scan[order[i - 1]]);
      ResolvedSameRows(before, scan[order[i - 1]]);
      var after := LinkedByRows(db, order[..i], scan);
      forall s | s in order[..i] ensures HasLink(after, s) {
        if s != order[i - 1] {
          assert s in order[..i - 1];
          HasLinkStays(before, after, s);
        }
      }
    }
  }

  lemma {:induction false} HasLinkStays(a: Db, b: Db, s: SourceId)
    requires References(a) && SameRows(a, b) && HasLink(a, s)
    requires forall f | f in a.filings && a.filings[f].supersedes.Some? ::
          b.filings[f].supersedes == a.filings[f].supersedes
    ensures HasLink(b, s)
  {
    hide IsNewest;
    SameRowsSameOrder(a, b);
    forall t | t in b.txs && IsNewest(b, s, t)
      ensures b.txs[t].filing in b.filings && b.filings[b.txs[t].filing].supersedes.Some?
    {
      assert t in a.txs && IsNewest(a, s, t);
    }
  }

  lemma {:induction false} GroupStillAmended(db: Db, before: Db, s: SourceId)
    requires References(db) && SameRows(db, before) && Amended(db, s)
    ensures Amended(before, s)
  {
    SameRowsSameOrder(db, before);
  }

  lemma {:induction false} LinkMonotone(db: Db, order: seq<SourceId>, scan: map<SourceId, seq<TxId>>)
    requires Sound(db) && LinksGoBack(db) && FalseMeansOutdated(db) && ValidScan(db, order, scan)
    ensures forall s | s in order :: s in scan && forall t | t in scan[s] :: t in db.txs
    ensures var after := LinkedByRows(db, order, scan);
            Monotone(db, after) && LinksGoBack(after) && FalseMeansOutdated(after)
  {
    hide LinksGoBack, DistinctKeys, OneRowPerFiling, Amended, IsNewest, LinkedByRows, Lists;
    assert order[..|order|] == order;
    LinkedSound(db, order, scan, |order|);
    LinkedTxs(db, order, scan, |order|);
    LinkedLinks(db, order, scan, |order|);
    var after := LinkedByRows(db, order, scan);
    SameRowsSameOrder(db, after);
  }

  lemma {:induction false} NextKeeps(db: Db, e: Event)
    requires Sound(db) && LinksGoBack(db) && FalseMeansOutdated(db) && Enabled(db, e) && Sound(Next(db, e))
    ensures Monotone(db, Next(db, e)) && LinksGoBack(Next(db, e)) && FalseMeansOutdated(Next(db, e))
  {
    match e
    case Link(order, scan) => LinkMonotone(db, order, scan);
    case _ => InsertKeeps(db, e);
  }

  lemma {:induction false} InsertKeeps(db: Db, e: Event)
    requires Sound(db) && LinksGoBack(db) && FalseMeansOutdated(db) && Enabled(db, e) && !e.Link?
    ensures Monotone(db, Next(db, e)) && LinksGoBack(Next(db, e)) && FalseMeansOutdated(Next(db, e))
  {
    hide Amended, IsNewest;
    var after := Next(db, e);
    assert Monotone(db, after);
    forall t | t in after.txs && !after.txs[t].isCurrent
      ensures after.txs[t].source.Some? && Amended(after, after.txs[t].source.value)
              && !IsNewest(after, after.txs[t].source.value, t)
    {
      assert t in db.txs && !db.txs[t].isCurrent;
      OutdatedStays(db, after, db.txs[t].source.value, t);
    }
  }

  lemma {:induction false} RunKeeps(states: seq<Db>, events: seq<Event>, n: nat)
    requires IsRun(states, events) && n < |states|
    ensures LinksGoBack(states[n]) && FalseMeansOutdated(states[n])
  {
    hide Next, Enabled, Sound;
    if n == 0 {
      EmptyKeeps();
    } else {
      RunKeeps(states, events, n - 1);
      assert Enabled(states[n - 1], events[n - 1]) && states[n] == Next(states[n - 1], events[n - 1]);
      NextKeeps(states[n - 1], events[n - 1]);
    }
  }

  lemma {:induction false} EmptyKeeps()
    ensures LinksGoBack(EMPTY) && FalseMeansOutdated(EMPTY)
  {
  }

  /** Over a whole run: nothing disappears, a row turned false never turns true again, and
      supersedes links are write-once. */
  lemma {:induction false} RunMonotone(states: seq<Db>, events: seq<Event>, m: nat, n: nat)
    requires IsRun(states, events) && m <= n < |states|
    ensures Monotone(states[m], states[n])
  {
    hide Next, Enabled, Sound;
    if m < n {
      RunMonotone(states, events, m, n - 1);
      RunKeeps(states, events, n - 1);
      assert Enabled(states[n - 1], events[n - 1]) && states[n] == Next(states[n - 1], events[n - 1]);
      NextKeeps(states[n - 1], events[n - 1]);
    }
  }

  // ---- after a linking run ----

  /** The flag that depends on the rows only. */
  function CanonicalFlag(db: Db, t: TxId): bool
    requires t in db.txs
  {
    var source := db.txs[t].source;
    source.Some? && Amended(db, source.value) ==> IsNewest(db, source.value, t)
  }

  predicate AllCanonical(db: Db) {
    forall t | t in db.txs :: db.txs[t].isCurrent == CanonicalFlag(db, t)
  }

  lemma {:induction false} FlagsAfterLink(states: seq<Db>, events: seq<Event>, n: nat)
    requires IsRun(states, events) && n < |events| && events[n].Link?
    ensures AllCanonical(states[n + 1])
  {
    hide LinksGoBack, Amended, IsNewest, LinkedByRows, References, DistinctKeys, OneRowPerFiling, Lists;
    RunKeeps(states, events, n);
    var db, after := states[n], states[n + 1];
    assert Enabled(db, events[n]) && after == Next(db, events[n]);
    var order, scan := events[n].order, events[n].scan;
    assert order[..|order|] == order;
    LinkedSound(db, order, scan, |order|);
    LinkedTxs(db, order, scan, |order|);
    SameRowsSameOrder(db, after);
  }

  /** Confluence: after a linking run the flags depend only on the set of rows, however the inserts
      and the earlier linking runs were interleaved and whatever order the queries returned. */
  lemma {:induction false} Confluence(states: seq<Db>, events: seq<Event>, n: nat, states': seq<Db>,
                                      events': seq<Event>, n': nat)
    requires IsRun(states, events) && n < |events| && events[n].Link?
    requires IsRun(states', events') && n' < |events'| && events'[n'].Link?
    requires SameRows(states[n + 1], states'[n' + 1])
    ensures states[n + 1].txs == states'[n' + 1].txs
  {
    hide Next, Enabled, Amended, IsNewest;
    FlagsAfterLink(states, events, n);
    FlagsAfterLink(states', events', n');
    var a, b := states[n + 1], states'[n' + 1];
    assert Sound(a);
    SameRowsSameOrder(a, b);
    forall t | t in a.txs ensures a.txs[t] == b.txs[t] {
      assert a.txs[t].isCurrent == b.txs[t].isCurrent;
    }
  }

  /** After a linking run an amended group has exactly one current row, its newest. */
  lemma {:induction false} ExactlyOneCurrent(states: seq<Db>, events: seq<Event>, n: nat, s: SourceId)
    returns (newest: TxId)
    requires IsRun(states, events) && n < |events| && events[n].Link? && Amended(states[n + 1], s)
    ensures var db := states[n + 1];
            && IsNewest(db, s, newest)
            && forall t | t in Group(db, s) :: db.txs[t].isCurrent <==> t == newest
  {
    hide Next, Enabled;
    FlagsAfterLink(states, events, n);
    var db := states[n + 1];
    assert Sound(db);
    newest := NewestExists(db, s);
    forall t | t in Group(db, s) ensures db.txs[t].isCurrent <==> t == newest {
      assert db.txs[t].isCurrent == CanonicalFlag(db, t);
      if IsNewest(db, s, t) {
        NewestUnique(db, s, t, newest);
      }
    }
  }

  /** Confluence in the columns themselves: after a linking run a row of an amended group is current if
      and only if every other row of the group was filed before it. */
  lemma {:induction false} CurrentIsLatest(states: seq<Db>, events: seq<Event>, n: nat, s: SourceId, t: TxId)
    requires IsRun(states, events) && n < |events| && events[n].Link? && Amended(states[n + 1], s)
    requires t in Group(states[n + 1], s)
    ensures References(states[n + 1])
    ensures states[n + 1].txs[t].isCurrent <==> IsLatest(states[n + 1], s, t)
  {
    hide Next, Enabled, IsNewest, IsLatest, IsOldest, IsEarliest;
    FlagsAfterLink(states, events, n);
    var db := states[n + 1];
    assert Sound(db);
    var newest := ExactlyOneCurrent(states, events, n, s);
    NewestIsLatest(db, s, t);
    if IsNewest(db, s, t) {
      NewestUnique(db, s, t, newest);
    }
  }

  lemma {:induction false} NewestExists(db: Db, s: SourceId) returns (t: TxId)
    requires Amended(db, s)
    ensures IsNewest(db, s, t)
  {
    var rest := Group(db, s);
    var x, y :| x in Group(db, s) && y in Group(db, s) && db.txs[x].filing != db.txs[y].filing;
    t := x;
    rest := rest - {x};
    while rest != {}
      invariant t in Group(db, s) && rest <= Group(db, s)
      invariant forall u | u in Group(db, s) && u !in rest :: Sorting.Le(TxKey(db, u), TxKey(db, t))
      decreases rest
    {
      var u :| u in rest;
      LeTotal(TxKey(db, u), TxKey(db, t));
      if Sorting.Le(TxKey(db, t), TxKey(db, u)) {
        t := u;
      }
      rest := rest - {u};
    }
  }

  /** A group resolved as it already stands. */
  lemma {:induction false} ResolveIdle(db: Db, s: SourceId, rows: seq<TxId>)
    requires Sound(db) && AllCanonical(db) && Amended(db, s) && HasLink(db, s) && Lists(rows, Group(db, s))
    requires rows != []
    ensures forall t | t in rows :: t in db.txs
    ensures ResolvedByRows(db, rows) == db
  {
    hide ResolvedByRows, Sound, Lists, IsNewest, IsOldest, Amended;
    var newest, oldest := ResolvedParts(db, s, rows);
    forall t | t in db.txs ensures ResolvedTxs(db, s)[t] == db.txs[t] {
      assert db.txs[t].isCurrent == CanonicalFlag(db, t);
    }
    assert ResolvedTxs(db, s) == db.txs;
  }

  lemma {:induction false} LinkIdle(db: Db, order: seq<SourceId>, scan: map<SourceId, seq<TxId>>, i: nat)
    requires Sound(db) && AllCanonical(db) && ValidScan(db, order, scan) && i <= |order|
    requires forall s | Amended(db, s) :: HasLink(db, s)
    ensures forall s | s in order :: s in scan && forall t | t in scan[s] :: t in db.txs
    ensures LinkedByRows(db, order[..i], scan) == db
  {
    hide ResolvedByRows, AllCanonical, HasLink, DistinctKeys, OneRowPerFiling;
    ScanRows(db, order, scan);
    if i > 0 {
      LinkIdle(db, order, scan, i - 1);
      assert order[..i][..i - 1] == order[..i - 1];
      var s := order[i - 1];
      assert s in order;
      AmendedHasRows(db, s, scan[s]);
      ResolveIdle(db, s, scan[s]);
    }
  }

  /** An immediate second linking run changes nothing, whatever order its queries return: it
      reports 0 updated rows and writes no link. */
  lemma {:induction false} SecondRunIdle(states: seq<Db>, events: seq<Event>, n: nat,
                                         order: seq<SourceId>, scan: map<SourceId, seq<TxId>>)
    requires IsRun(states, events) && n < |events| && events[n].Link?
    requires ValidScan(states[n + 1], order, scan)
    ensures Enabled(states[n + 1], Link(order, scan)) && Next(states[n + 1], Link(order, scan)) == states[n + 1]
  {
    hide AllCanonical, HasLink, DistinctKeys, OneRowPerFiling, LinkedByRows, LinksGoBack, Amended, References, Lists;
    FlagsAfterLink(states, events, n);
    RunKeeps(states, events, n);
    var db, after := states[n], states[n + 1];
    assert Enabled(db, events[n]) && after == Next(db, events[n]);
    var first, firstScan := events[n].order, events[n].scan;
    assert first[..|first|] == first;
    LinkedLinks(db, first, firstScan, |first|);
    LinkedSound(db, first, firstScan, |first|);
    SameRowsSameOrder(db, after);
    forall s | Amended(after, s) ensures HasLink(after, s) {
      assert s in first;
    }
    assert Sound(after);
    LinkIdle(after, order, scan, |order|);
    assert order[..|order|] == order;
  }

  // ---- ties ----

  /** The elements of a finite set, in some order. */
  ghost function Listing<T(!new)>(ts: set<T>): (xs: seq<T>)
    ensures forall t :: t in xs <==> t in ts
    ensures forall i, j | 0 <= i < j < |xs| :: xs[i] != xs[j]
  {
    if ts == {} then []
    else
      var t :| t in ts;
      [t] + Listing(ts - {t})
  }

  /** The flags one group's resolution leaves, for rows returned in a given order. */
  function FlagsAfter(db: Db, rows: seq<TxId>): map<TxId, Tx> {
    if rows != [] && forall t | t in rows :: t in db.txs then ResolvedByRows(db, rows).txs else db.txs
  }

  ghost predicate FlagsDetermined(db: Db, s: SourceId) {
    forall rows, rows' | Lists(rows, Group(db, s)) && Lists(rows', Group(db, s)) ::
          FlagsAfter(db, rows) == FlagsAfter(db, rows')
  }

  /** Any of the rows tied for newest becomes current when the query returns it last. */
  lemma {:induction false} TieGoesToLast(db: Db, s: SourceId, t: TxId) returns (rows: seq<TxId>)
    requires IsNewest(db, s, t)
    ensures Lists(rows, Group(db, s))
    ensures forall u | u in Group(db, s) :: u in FlagsAfter(db, rows) && (FlagsAfter(db, rows)[u].isCurrent <==> u == t)
  {
    hide Sorting.Sort, TxKey, Sorting.Le;
    var others := Listing(Group(db, s) - {t});
    rows := others + [t];
    Sorting.SortLast(others, t, KeyFunction(db));
    SortedMembers(db, rows);
    assert SortedRows(db, rows)[|rows| - 1] == t;
  }

  lemma {:induction false} NewestLast(db: Db, s: SourceId, rows: seq<TxId>) returns (newest: TxId)
    requires Lists(rows, Group(db, s)) && rows != []
    ensures IsNewest(db, s, newest) && FlagsAfter(db, rows) == Flagged(db.txs, rows, newest)
  {
    hide Sorting.Sort, TxKey;
    SortedEnds(db, s, rows);
    SortedMembers(db, rows);
    assert forall t | t in rows :: t in Group(db, s);
    newest := SortedRows(db, rows)[|rows| - 1];
  }

  /** The flags of a group do not depend on the order of the query rows exactly when one row alone is
      newest, whatever else the tables hold. */
  lemma {:induction false} FlagsDeterminedIff(db: Db, s: SourceId)
    ensures FlagsDetermined(db, s) <==> forall t, u | IsNewest(db, s, t) && IsNewest(db, s, u) :: t == u
  {
    hide IsNewest, Group, ResolvedByRows, FlagsAfter;
    if FlagsDetermined(db, s) {
      forall t, u | IsNewest(db, s, t) && IsNewest(db, s, u) ensures t == u {
        var ts := TieGoesToLast(db, s, t);
        var us := TieGoesToLast(db, s, u);
        NewestInGroup(db, s, t);
        assert FlagsAfter(db, ts) == FlagsAfter(db, us);
      }
    }
    if forall t, u | IsNewest(db, s, t) && IsNewest(db, s, u) :: t == u {
      forall rows, rows' | Lists(rows, Group(db, s)) && Lists(rows', Group(db, s))
        ensures FlagsAfter(db, rows) == FlagsAfter(db, rows')
      {
        FlagsAgree(db, s, rows, rows');
      }
    }
  }

  lemma {:induction false} NewestInGroup(db: Db, s: SourceId, t: TxId)
    requires IsNewest(db, s, t)
    ensures t in Group(db, s)
  {
  }

  lemma {:induction false} HeadListed(rows: seq<TxId>, ts: set<TxId>)
    requires Lists(rows, ts) && rows != []
    ensures rows[0] in ts
  {
    assert rows[0] in rows;
  }

  lemma {:induction false} FlagsAgree(db: Db, s: SourceId, rows: seq<TxId>, rows': seq<TxId>)
    requires Lists(rows, Group(db, s)) && Lists(rows', Group(db, s))
    requires forall t, u | IsNewest(db, s, t) && IsNewest(db, s, u) :: t == u
    ensures FlagsAfter(db, rows) == FlagsAfter(db, rows')
  {
    hide IsNewest, Group, FlagsAfter;
    if rows == [] {
      if rows' != [] {
        HeadListed(rows', Group(db, s));
      }
    } else {
      HeadListed(rows, Group(db, s));
      assert rows' != [];
      var t := NewestLast(db, s, rows);
      var u := NewestLast(db, s, rows');
      assert Flagged(db.txs, rows, t) == Flagged(db.txs, rows', t);
    }
  }

  // ---- supersedes links ----

  /** The group of `s` would link filing `f` to filing `g`. */
  predicate Corrects(db: Db, s: SourceId, f: FilingId, g: FilingId) {
    && Amended(db, s)
    && (exists t :: t in db.txs && IsNewest(db, s, t) && db.txs[t].filing == f)
    && (exists u :: u in db.txs && IsOldest(db, s, u) && db.txs[u].filing == g)
  }

  lemma {:induction false} CorrectsOne(db: Db, s: SourceId, f: FilingId, g: FilingId, f': FilingId, g': FilingId)
    requires Sound(db) && Corrects(db, s, f, g) && Corrects(db, s, f', g')
    ensures f == f' && g == g'
  {
    hide Sound, IsNewest, IsOldest, Amended;
    var t :| t in db.txs && IsNewest(db, s, t) && db.txs[t].filing == f;
    var t' :| t' in db.txs && IsNewest(db, s, t') && db.txs[t'].filing == f';
    NewestUnique(db, s, t, t');
    var u :| u in db.txs && IsOldest(db, s, u) && db.txs[u].filing == g;
    var u' :| u' in db.txs && IsOldest(db, s, u') && db.txs[u'].filing == g';
    OldestUnique(db, s, u, u');
  }

  /** Where the group of `s` would link `f`, if anywhere. */
  ghost function Correction(db: Db, s: SourceId, f: FilingId): (r: Option<FilingId>)
    ensures r.Some? ==> Corrects(db, s, f, r.value)
    ensures r.None? ==> forall g :: !Corrects(db, s, f, g)
  {
    if exists g :: Corrects(db, s, f, g) then
      var g :| Corrects(db, s, f, g);
      Some(g)
    else None
  }

  /** The filing the first group of `done` that corrects `f` links it to. */
  ghost function FirstCorrected(db: Db, done: seq<SourceId>, f: FilingId): Option<FilingId> {
    if done == [] then None
    else
      var before := FirstCorrected(db, done[..|done| - 1], f);
      if before.Some? then before else Correction(db, done[|done| - 1], f)
  }

  /** A run links an unlinked filing to what the first group that corrects it says. */
  lemma {:induction false} LinkIsFirst(db: Db, order: seq<SourceId>, scan: map<SourceId, seq<TxId>>, i: nat,
                                       f: FilingId)
    requires Sound(db) && ValidScan(db, order, scan) && i <= |order|
    requires f in db.filings && db.filings[f].supersedes.None?
    ensures forall s | s in order :: s in scan && forall t | t in scan[s] :: t in db.txs
    ensures var after := LinkedByRows(db, order[..i], scan);
            f in after.filings && after.filings[f].supersedes == FirstCorrected(db, order[..i], f)
  {
    hide ResolvedByRows, DistinctKeys, OneRowPerFiling, Amended, IsNewest, IsOldest, Corrects, Sound;
    ScanRows(db, order, scan);
    if i > 0 {
      LinkIsFirst(db, order, scan, i - 1, f);
      LinkedSound(db, order, scan, i - 1);
      GroupResolved(db, order, scan, i - 1);
      assert order[..i][..i - 1] == order[..i - 1];
      var before, s := LinkedByRows(db, order[..i - 1], scan), order[i - 1];
      var newest, oldest := ResolvedCorrects(db, before, s, scan[s]);
      var c := Correction(db, s, f);
      if c.Some? {
        CorrectsOne(db, s, f, c.value, newest, oldest);
      }
    }
  }

  /** Resolving a group in the middle of a run sets the link the group said at the start. */
  lemma {:induction false} ResolvedCorrects(db: Db, before: Db, s: SourceId, rows: seq<TxId>)
    returns (f: FilingId, g: FilingId)
    requires Sound(db) && Sound(before) && SameRows(db, before)
    requires Amended(db, s) && Lists(rows, Group(before, s)) && rows != []
    ensures forall t | t in rows :: t in before.txs
    ensures Corrects(db, s, f, g) && f != g && ResolvedByRows(before, rows).filings == WithLink(before.filings, f, g)
  {
    hide ResolvedByRows, DistinctKeys, OneRowPerFiling, Amended, IsNewest, IsOldest, Lists;
    SameRowsSameOrder(db, before);
    var newest, oldest := ResolvedParts(before, s, rows);
    NewestAndOldestDiffer(before, s, newest, oldest);
    f, g := db.txs[newest].filing, db.txs[oldest].filing;
  }

  ghost predicate LinkDetermined(db: Db, f: FilingId) {
    forall order, scan, order', scan' | ValidScan(db, order, scan) && ValidScan(db, order', scan') ::
      LinkAfter(db, order, scan, f) == LinkAfter(db, order', scan', f)
  }

  /** The link of a filing after a run. */
  ghost function LinkAfter(db: Db, order: seq<SourceId>, scan: map<SourceId, seq<TxId>>, f: FilingId): Option<FilingId>
    requires ValidScan(db, order, scan)
  {
    ScanRows(db, order, scan);
    var after := LinkedByRows(db, order, scan);
    if f in after.filings then after.filings[f].supersedes else None
  }

  lemma {:induction false} LinkAfterIs(db: Db, order: seq<SourceId>, scan: map<SourceId, seq<TxId>>, f: FilingId)
    requires Sound(db) && ValidScan(db, order, scan) && f in db.filings && db.filings[f].supersedes.None?
    ensures LinkAfter(db, order, scan, f) == FirstCorrected(db, order, f)
  {
    hide Sound, ValidScan, LinkedByRows, FirstCorrected;
    LinkIsFirst(db, order, scan, |order|, f);
    assert order[..|order|] == order;
  }

  /** The filing holds the row filed last in the group. */
  ghost predicate FiledLast(db: Db, s: SourceId, f: FilingId)
    requires References(db)
  {
    exists t :: t in db.txs && IsLatest(db, s, t) && db.txs[t].filing == f
  }

  ghost predicate FiledFirst(db: Db, s: SourceId, g: FilingId)
    requires References(db)
  {
    exists u :: u in db.txs && IsEarliest(db, s, u) && db.txs[u].filing == g
  }

  lemma {:induction false} CorrectsIff(db: Db, s: SourceId, f: FilingId, g: FilingId)
    requires Sound(db)
    ensures Corrects(db, s, f, g) <==> Amended(db, s) && FiledLast(db, s, f) && FiledFirst(db, s, g)
  {
    hide IsNewest, IsLatest, IsOldest, IsEarliest, Amended;
    forall t ensures IsNewest(db, s, t) <==> IsLatest(db, s, t)
             ensures IsOldest(db, s, t) <==> IsEarliest(db, s, t)
    {
      NewestIsLatest(db, s, t);
    }
  }

  /** The link target in the columns themselves: a filing without a link is linked by a run to the filing
      filed first in an amended group in which it was filed last, or keeps no link when there is no such
      group. */
  lemma {:induction false} LinksToFirstFiled(db: Db, order: seq<SourceId>, scan: map<SourceId, seq<TxId>>, f: FilingId)
    requires Sound(db) && ValidScan(db, order, scan) && f in db.filings && db.filings[f].supersedes.None?
    ensures match LinkAfter(db, order, scan, f)
            case Some(g) => exists s :: s in order && FiledLast(db, s, f) && FiledFirst(db, s, g)
            case None => forall s | s in order :: !FiledLast(db, s, f)
  {
    hide Sound, LinkedByRows, FirstCorrected, LinkAfter, FiledLast, FiledFirst, Amended, Lists;
    SoundReferences(db);
    LinkAfterIs(db, order, scan, f);
    FirstCorrectedSays(db, order, f);
    forall s, g ensures Corrects(db, s, f, g) <==> Amended(db, s) && FiledLast(db, s, f) && FiledFirst(db, s, g) {
      CorrectsIff(db, s, f, g);
    }
    if LinkAfter(db, order, scan, f).None? {
      forall s | s in order ensures !FiledLast(db, s, f) {
        if FiledLast(db, s, f) {
          var g := SomeFirst(db, s);
        }
      }
    }
  }

  /** Every amended group has a filing filed first. */
  lemma {:induction false} SomeFirst(db: Db, s: SourceId) returns (g: FilingId)
    requires Sound(db) && Amended(db, s)
    ensures FiledFirst(db, s, g)
  {
    hide IsNewest, IsOldest, IsEarliest, IsLatest, Sorting.Sort, TxKey;
    var rows := Listing(Group(db, s));
    var x, y :| x in Group(db, s) && y in Group(db, s) && db.txs[x].filing != db.txs[y].filing;
    assert x in rows;
    SortedEnds(db, s, rows);
    var oldest := SortedRows(db, rows)[0];
    NewestIsLatest(db, s, oldest);
    OldestInGroup(db, s, oldest);
    g := db.txs[oldest].filing;
  }

  lemma {:induction false} OldestInGroup(db: Db, s: SourceId, t: TxId)
    requires IsOldest(db, s, t)
    ensures t in db.txs
  {
  }

  lemma {:induction false} FirstCorrectedSays(db: Db, done: seq<SourceId>, f: FilingId)
    ensures var g := FirstCorrected(db, done, f);
            && (g.Some? ==> exists s :: s in done && Corrects(db, s, f, g.value))
            && (g.None? ==> forall s, g' | s in done :: !Corrects(db, s, f, g'))
  {
    hide Corrects;
    if done != [] {
      FirstCorrectedSays(db, done[..|done| - 1], f);
      assert done == done[..|done| - 1] + [done[|done| - 1]];
    }
  }

  lemma {:induction false} FirstCorrectedHead(db: Db, done: seq<SourceId>, f: FilingId, g: FilingId)
    requires Sound(db) && done != [] && Corrects(db, done[0], f, g)
    ensures FirstCorrected(db, done, f) == Some(g)
  {
    hide Corrects, Sound;
    if |done| > 1 {
      FirstCorrectedHead(db, done[..|done| - 1], f, g);
    } else {
      assert Correction(db, done[0], f).Some?;
      CorrectsOne(db, done[0], f, g, f, Correction(db, done[0], f).value);
    }
  }

  /** A run that takes the group of `s` first. */
  lemma {:induction false} RunFrom(db: Db, s: SourceId) returns (order: seq<SourceId>, scan: map<SourceId, seq<TxId>>)
    requires Amended(db, s)
    ensures ValidScan(db, order, scan) && order != [] && order[0] == s
  {
    hide Amended, Group, Listing, AmendedIds;
    var ids := AmendedIds(db);
    AmendedIdsAre(db);
    order := [s] + Listing(ids - {s});
    scan := map x | x in ids :: Listing(Group(db, x));
  }

  function AmendedIds(db: Db): set<SourceId> {
    set t | t in db.txs && db.txs[t].source.Some? && Amended(db, db.txs[t].source.value) :: db.txs[t].source.value
  }

  lemma {:induction false} AmendedIdsAre(db: Db)
    ensures forall s :: s in AmendedIds(db) <==> Amended(db, s)
  {
    forall s | Amended(db, s) ensures s in AmendedIds(db) {
      var t, u :| t in Group(db, s) && u in Group(db, s) && db.txs[t].filing != db.txs[u].filing;
      assert db.txs[t].source == Some(s);
    }
  }

  /** The link a run gives an unlinked filing does not depend on the order of the groups and of their
      rows exactly when all amended groups whose newest row it holds have their oldest row in one
      filing. */
  lemma {:induction false} LinkDeterminedIff(db: Db, f: FilingId)
    requires Sound(db) && f in db.filings && db.filings[f].supersedes.None?
    ensures LinkDetermined(db, f) <==> forall s, g, s', g' | Corrects(db, s, f, g) && Corrects(db, s', f, g') :: g == g'
  {
    hide Corrects, Sound, ValidScan, LinkAfter, FirstCorrected;
    if LinkDetermined(db, f) {
      forall s, g, s', g' | Corrects(db, s, f, g) && Corrects(db, s', f, g') ensures g == g' {
        LinkedFrom(db, f, s, g, s', g');
      }
    }
    if forall s, g, s', g' | Corrects(db, s, f, g) && Corrects(db, s', f, g') :: g == g' {
      forall order, scan, order', scan' | ValidScan(db, order, scan) && ValidScan(db, order', scan')
        ensures LinkAfter(db, order, scan, f) == LinkAfter(db, order', scan', f)
      {
        LinkAfterIs(db, order, scan, f);
        LinkAfterIs(db, order', scan', f);
        FirstCorrectedSays(db, order, f);
        FirstCorrectedSays(db, order', f);
        SameGroups(db, order, scan, order', scan');
      }
    }
  }

  lemma {:induction false} SameGroups(db: Db, order: seq<SourceId>, scan: map<SourceId, seq<TxId>>,
                                      order': seq<SourceId>, scan': map<SourceId, seq<TxId>>)
    requires ValidScan(db, order, scan) && ValidScan(db, order', scan')
    ensures forall s :: s in order <==> s in order'
  {
  }

  lemma {:induction false} LinkedFrom(db: Db, f: FilingId, s: SourceId, g: FilingId, s': SourceId, g': FilingId)
    requires Sound(db) && f in db.filings && db.filings[f].supersedes.None? && LinkDetermined(db, f)
    requires Corrects(db, s, f, g) && Corrects(db, s', f, g')
    ensures g == g'
  {
    hide Sound, ValidScan, LinkAfter, FirstCorrected, IsNewest, IsOldest, Amended;
    var order, scan := RunFrom(db, s);
    var order', scan' := RunFrom(db, s');
    LinkAfterIs(db, order, scan, f);
    LinkAfterIs(db, order', scan', f);
    FirstCorrectedHead(db, order, f, g);
    FirstCorrectedHead(db, order', f, g');
  }

  /** An amendment that corrects rows of two filings: the order of the source ids decides which of
      them it supersedes. */
  lemma {:induction false} LinksDependOnOrder(db: Db, a: TxId, b: TxId, c1: TxId, c2: TxId)
    requires Sound(db) && |{a, b, c1, c2}| == 4
    requires db.txs == map[a := Tx("A", Some("x"), true), b := Tx("B", Some("y"), true),
                           c1 := Tx("C", Some("x"), true), c2 := Tx("C", Some("y"), true)]
    requires db.filings == map["A" := Filing(Some(1), 0, None), "B" := Filing(Some(2), 0, None),
                               "C" := Filing(Some(3), 0, None)]
    ensures ResolvedByRows(ResolvedByRows(db, [a, c1]), [b, c2]).filings["C"].supersedes == Some("A")
    ensures ResolvedByRows(ResolvedByRows(db, [b, c2]), [a, c1]).filings["C"].supersedes == Some("B")
  {
    hide ResolvedByRows, Sound, TxKey, Flagged;
    KeyByDate(db, a, c1);
    KeyByDate(db, b, c2);
    TwoRows(db, a, c1);
    TwoRows(db, b, c2);
    var xFirst, yFirst := ResolvedByRows(db, [a, c1]), ResolvedByRows(db, [b, c2]);
    ResolvedSameRows(db, [a, c1]);
    ResolvedSameRows(db, [b, c2]);
    KeyByDate(xFirst, b, c2);
    KeyByDate(yFirst, a, c1);
    TwoRows(xFirst, b, c2);
    TwoRows(yFirst, a, c1);
  }

  lemma {:induction false} KeyByDate(db: Db, t: TxId, u: TxId)
    requires t in db.txs && u in db.txs && db.txs[t].filing in db.filings && db.txs[u].filing in db.filings
    requires db.filings[db.txs[t].filing].filedDate.Some? && db.filings[db.txs[u].filing].filedDate.Some?
    requires db.filings[db.txs[t].filing].filedDate.value < db.filings[db.txs[u].filing].filedDate.value
    ensures Sorting.Le(TxKey(db, t), TxKey(db, u))
  {
  }

  lemma {:induction false} TwoRows(db: Db, t: TxId, u: TxId)
    requires t in db.txs && u in db.txs && Sorting.Le(TxKey(db, t), TxKey(db, u))
    ensures ResolvedByRows(db, [t, u])
            == Db(WithLink(db.filings, db.txs[u].filing, db.txs[t].filing), Flagged(db.txs, [t, u], u))
  {
    hide Flagged, WithLink, TxKey, SortedRows;
    InKeyOrder(db, t, u);
  }

  lemma {:induction false} InKeyOrder(db: Db, t: TxId, u: TxId)
    requires Sorting.Le(TxKey(db, t), TxKey(db, u))
    ensures SortedRows(db, [t, u]) == [t, u]
  {
    var key := KeyFunction(db);
    assert Sorting.Le(key(t), key(u));
    Sorting.SortOfSorted([t, u], key);
  }

  // ---- supersedes links ----

  /** A chain of supersedes links. */
  predicate Chain(db: Db, fs: seq<FilingId>) {
    && (forall i | 0 <= i < |fs| :: fs[i] in db.filings)
    && forall i | 0 <= i < |fs| - 1 :: db.filings[fs[i]].supersedes == Some(fs[i + 1])
  }

  lemma {:induction false} ChainGoesBack(db: Db, fs: seq<FilingId>, i: nat, j: nat)
    requires LinksGoBack(db) && Chain(db, fs) && i < j < |fs|
    ensures Before(KeyOf(db.filings[fs[j]]), KeyOf(db.filings[fs[i]]))
  {
    if i + 1 < j {
      ChainGoesBack(db, fs, i, j - 1);
    }
    assert db.filings[fs[j - 1]].supersedes == Some(fs[j]);
  }

  lemma {:induction false} DistinctLength(fs: seq<FilingId>, all: set<FilingId>)
    requires forall i, j | 0 <= i < j < |fs| :: fs[i] != fs[j]
    requires forall i | 0 <= i < |fs| :: fs[i] in all
    ensures |fs| <= |all|
  {
    if fs != [] {
      DistinctLength(fs[1..], all - {fs[0]});
    }
  }

  /** At every point of every run the supersedes links form no cycle: a chain never meets a filing
      twice, so it ends after at most as many links as there are filings. */
  lemma {:induction false} ChainsEnd(states: seq<Db>, events: seq<Event>, n: nat, fs: seq<FilingId>)
    requires IsRun(states, events) && n < |states| && Chain(states[n], fs)
    ensures forall i, j | 0 <= i < j < |fs| :: fs[i] != fs[j]
    ensures |fs| <= |states[n].filings|
  {
    RunKeeps(states, events, n);
    forall i, j | 0 <= i < j < |fs| ensures fs[i] != fs[j] {
      ChainGoesBack(states[n], fs, i, j);
    }
    DistinctLength(fs, states[n].filings.Keys);
  }
}
