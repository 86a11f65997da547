/** Two linking sessions that overlap (`ingest/tickers.py` run by the collector and by a catch-up at the
    same time): both read the tables before either commits. */
module TickerOverlap {
  import opened Optional
  import opened Issues
  import opened TickerLinks

  /** Committing a session that read `base` and worked it into `after`, when the tables have become
      `current`: its new rows are inserted and the transactions it changed are updated. No constraint
      but the primary keys stands in the way. */
  function Commit(current: Db, base: Db, after: Db): Db
    requires base.tickerMap <= after.tickerMap && base.issues <= after.issues
  {
    Db(map id | id in current.txs :: Updated(current, base, after, id),
       current.instruments + (after.instruments - base.instruments.Keys),
       current.tickerMap + after.tickerMap[|base.tickerMap|..],
       current.issues + after.issues[|base.issues|..])
  }

  function Updated(current: Db, base: Db, after: Db, id: TxId): Tx
    requires id in current.txs
  {
    if id in base.txs && id in after.txs && after.txs[id] != base.txs[id] then after.txs[id] else current.txs[id]
  }

  // ---- what a batch adds ----


  /** The CIKs a batch needs and the tables lack. */
  ghost function MissingCiks(db: Db, pending: seq<TxId>, refs: Refs): set<string> {
    set id | id in pending && NeedsCik(db, id, refs) :: Resolve(db.txs[id], refs).value.cik
  }

  ghost predicate NeedsCik(db: Db, id: TxId, refs: Refs) {
    id in db.txs && Resolve(db.txs[id], refs).Some? && !HasCik(db, Resolve(db.txs[id], refs).value.cik)
  }

  /** The tickers a batch finds missing for instruments the tables have. */
  ghost function MissingPairs(db: Db, pending: seq<TxId>, refs: Refs): set<(InstrumentId, string)> {
    set id | id in pending && NeedsPair(db, id, refs) :: PairOf(db, Resolve(db.txs[id], refs).value)
  }

  ghost predicate NeedsPair(db: Db, id: TxId, refs: Refs) {
    && id in db.txs && Resolve(db.txs[id], refs).Some? && HasCik(db, Resolve(db.txs[id], refs).value.cik)
    && PairOf(db, Resolve(db.txs[id], refs).value) !in db.tickerMap
  }

  ghost function PairOf(db: Db, c: Company): (InstrumentId, string)
    requires HasCik(db, c.cik)
  {
    (InstrumentOf(db, c.cik), c.ticker)
  }

  /** The transactions a batch flags. */
  function Unmatched(db: Db, pending: seq<TxId>, refs: Refs): set<TxId> {
    set id | id in pending && id in db.txs && Resolve(db.txs[id], refs).None? && !HasOpenIssue(db.issues, id)
  }

  predicate IssueAddedFor(issue: Issue, flagged: set<TxId>) {
    !issue.resolved && issue.subject in flagged
  }

  ghost predicate PairAdded(p: (InstrumentId, string), db: Db, after: Db, missing: set<(InstrumentId, string)>) {
    p.0 in after.instruments && (p.0 in db.instruments ==> p in missing)
  }

  predicate CikAdded(i: Instrument, missing: set<string>) {
    i.cik.Some? && i.cik.value in missing
  }

  /** A batch adds nothing but that. */
  ghost predicate AddsOnly(db: Db, after: Db, ciks: set<string>, pairs: set<(InstrumentId, string)>,
                           flagged: set<TxId>)
  {
    && db.tickerMap <= after.tickerMap && db.issues <= after.issues
    && (forall i | i in after.instruments && i !in db.instruments :: CikAdded(after.instruments[i], ciks))
    && (forall k | |db.tickerMap| <= k < |after.tickerMap| :: PairAdded(after.tickerMap[k], db, after, pairs))
    && (forall k | |db.issues| <= k < |after.issues| :: IssueAddedFor(after.issues[k], flagged))
  }

  lemma {:induction false} MoreAllowed(db: Db, pending: seq<TxId>, refs: Refs, n: nat)
    requires n <= |pending|
    ensures MissingCiks(db, pending[..n], refs) <= MissingCiks(db, pending, refs)
    ensures MissingPairs(db, pending[..n], refs) <= MissingPairs(db, pending, refs)
    ensures Unmatched(db, pending[..n], refs) <= Unmatched(db, pending, refs)
  {
    hide NeedsCik, NeedsPair, PairOf, Resolve, HasOpenIssue;
  }

  lemma {:induction false} AllowMore(db: Db, after: Db, ciks: set<string>, pairs: set<(InstrumentId, string)>,
                                     flagged: set<TxId>, ciks': set<string>, pairs': set<(InstrumentId, string)>,
                                     flagged': set<TxId>)
    requires AddsOnly(db, after, ciks, pairs, flagged) && ciks <= ciks' && pairs <= pairs' && flagged <= flagged'
    ensures AddsOnly(db, after, ciks', pairs', flagged')
  {
  }

  lemma {:induction false} BatchAddsOnly(db: Db, pending: seq<TxId>, refs: Refs,
                                         newId: set<InstrumentId> -> InstrumentId)
    requires Selected(db, pending) && Inv(db) && Fresh(newId)
    ensures AddsOnly(db, LinkAll(db, pending, refs, newId).0, MissingCiks(db, pending, refs),
                     MissingPairs(db, pending, refs), Unmatched(db, pending, refs))
  {
    hide LinkOne, Inv, Resolve, AddsOnly, MissingCiks, MissingPairs, Unmatched, HasOpenIssue, Settled;
    if pending == [] {
      NothingAdded(db, refs);
    } else {
      var n := |pending| - 1;
      LastSelected(db, pending);
      BatchAddsOnly(db, pending[..n], refs, newId);
      BatchDoes(db, pending[..n], refs, newId);
      var before := LinkAll(db, pending[..n], refs, newId).0;
      MoreAllowed(db, pending, refs, n);
      AllowMore(db, before, MissingCiks(db, pending[..n], refs), MissingPairs(db, pending[..n], refs),
                Unmatched(db, pending[..n], refs), MissingCiks(db, pending, refs), MissingPairs(db, pending, refs),
                Unmatched(db, pending, refs));
      assert HasOpenIssue(before.issues, pending[n]) <==> HasOpenIssue(db.issues, pending[n]);
      OneAddsOnly(db, pending, refs, newId, before);
    }
  }

  lemma {:induction false} NothingAdded(db: Db, refs: Refs)
    ensures AddsOnly(db, db, MissingCiks(db, [], refs), MissingPairs(db, [], refs), Unmatched(db, [], refs))
  {
  }

  /** The last transaction of a batch. */
  lemma {:induction false} OneAddsOnly(db: Db, pending: seq<TxId>, refs: Refs, newId: set<InstrumentId> -> InstrumentId,
                                       before: Db)
    requires pending != [] && Inv(before) && Grown(db, before) && Fresh(newId)
    requires var id := pending[|pending| - 1];
             && id in db.txs && id in before.txs && before.txs[id] == db.txs[id]
             && (HasOpenIssue(before.issues, id) <==> HasOpenIssue(db.issues, id))
    requires AddsOnly(db, before, MissingCiks(db, pending, refs), MissingPairs(db, pending, refs),
                      Unmatched(db, pending, refs))
    ensures AddsOnly(db, LinkOne(before, pending[|pending| - 1], refs, newId).0, MissingCiks(db, pending, refs),
                     MissingPairs(db, pending, refs), Unmatched(db, pending, refs))
  {
    hide Resolve, HasOpenIssue, MissingCiks, MissingPairs, Unmatched;
    var id := pending[|pending| - 1];
    match Resolve(db.txs[id], refs)
    case None => NewlyFlagged(db, pending, refs);
    case Some(c) =>
      NewCompany(db, before, pending, refs, c);
      var i := if HasCik(before, c.cik) then InstrumentOf(before, c.cik) else newId(before.instruments.Keys);
  }

  lemma {:induction false} NewlyFlagged(db: Db, pending: seq<TxId>, refs: Refs)
    requires pending != [] && pending[|pending| - 1] in db.txs && Resolve(db.txs[pending[|pending| - 1]], refs).None?
    ensures !HasOpenIssue(db.issues, pending[|pending| - 1]) ==> pending[|pending| - 1] in Unmatched(db, pending, refs)
  {
  }

  /** What the tables lack for a company in the middle of a batch they lacked before it, or the batch
      has brought a new instrument. */
  lemma {:induction false} NewCompany(db: Db, before: Db, pending: seq<TxId>, refs: Refs, c: Company)
    requires pending != [] && Inv(before) && Grown(db, before)
    requires pending[|pending| - 1] in db.txs && Resolve(db.txs[pending[|pending| - 1]], refs) == Some(c)
    ensures !HasCik(before, c.cik) ==> c.cik in MissingCiks(db, pending, refs)
    ensures HasCik(before, c.cik) && PairOf(before, c) !in before.tickerMap && PairOf(before, c).0 in db.instruments ==>
              PairOf(before, c) in MissingPairs(db, pending, refs)
  {
    hide Resolve, HasOpenIssue, PairsUnique, OneOpenIssue;
    var id := pending[|pending| - 1];
    if !HasCik(before, c.cik) {
      KnownStays(db, before, c.cik);
      assert NeedsCik(db, id, refs);
    } else if PairOf(before, c) !in before.tickerMap && PairOf(before, c).0 in db.instruments {
      var i := InstrumentOf(before, c.cik);
      assert db.instruments[i].cik == Some(c.cik);
      assert HasCik(db, c.cik);
      OnlyInstrument(before, c.cik, InstrumentOf(db, c.cik));
      assert NeedsPair(db, id, refs);
    }
  }

  lemma {:induction false} KnownStays(db: Db, after: Db, cik: string)
    requires Grown(db, after)
    ensures HasCik(db, cik) ==> HasCik(after, cik)
  {
    hide HasOpenIssue;
    if HasCik(db, cik) {
      var i := InstrumentOf(db, cik);
      assert after.instruments[i].cik == Some(cik);
    }
  }

  /** And it does add all of that. */
  ghost predicate AddsAll(db: Db, after: Db, ciks: set<string>, pairs: set<(InstrumentId, string)>,
                          flagged: set<TxId>)
  {
    && db.tickerMap <= after.tickerMap && db.issues <= after.issues
    && (forall cik | cik in ciks ::
          exists i | i in after.instruments :: i !in db.instruments && after.instruments[i].cik == Some(cik))
    && (forall p | p in pairs :: p in after.tickerMap[|db.tickerMap|..])
    && (forall id | id in flagged :: Issue(id, false) in after.issues[|db.issues|..])
  }

  lemma {:induction false} BatchAddsAll(db: Db, pending: seq<TxId>, refs: Refs,
                                        newId: set<InstrumentId> -> InstrumentId)
    requires Selected(db, pending) && Inv(db) && Fresh(newId)
    ensures var after := LinkAll(db, pending, refs, newId).0;
            AddsAll(db, after, MissingCiks(db, pending, refs), MissingPairs(db, pending, refs),
                    Unmatched(db, pending, refs))
  {
    hide LinkOne, LinkAll, Resolve, HasOpenIssue, CiksUnique, PairsUnique, OneOpenIssue;
    BatchAddsOnly(db, pending, refs, newId);
    BatchDoes(db, pending, refs, newId);
    var after := LinkAll(db, pending, refs, newId).0;
    forall cik | cik in MissingCiks(db, pending, refs)
      ensures exists i | i in after.instruments :: i !in db.instruments && after.instruments[i].cik == Some(cik)
    {
      var id :| id in pending && NeedsCik(db, id, refs) && Resolve(db.txs[id], refs).value.cik == cik;
      Linked(db, after, id, refs);
      NewInstrument(db, after, id, Resolve(db.txs[id], refs).value);
    }
    forall p | p in MissingPairs(db, pending, refs) ensures p in after.tickerMap[|db.tickerMap|..] {
      var id :| id in pending && NeedsPair(db, id, refs) && PairOf(db, Resolve(db.txs[id], refs).value) == p;
      Linked(db, after, id, refs);
      NewPair(db, after, id, Resolve(db.txs[id], refs).value);
    }
    forall id | id in Unmatched(db, pending, refs) ensures Issue(id, false) in after.issues[|db.issues|..] {
      assert Settled(db, after, id, refs);
      NewIssue(db.issues, after.issues, id);
    }
  }

  lemma {:induction false} Linked(db: Db, after: Db, id: TxId, refs: Refs)
    requires id in db.txs && Settled(db, after, id, refs) && Resolve(db.txs[id], refs).Some?
    ensures LinkedTo(after, id, Resolve(db.txs[id], refs).value)
  {
    hide Resolve;
  }

  lemma {:induction false} NewInstrument(db: Db, after: Db, id: TxId, c: Company)
    requires Grown(db, after) && LinkedTo(after, id, c) && !HasCik(db, c.cik)
    ensures var i := after.txs[id].instrument.value;
            i in after.instruments && i !in db.instruments && after.instruments[i].cik == Some(c.cik)
  {
  }

  lemma {:induction false} NewPair(db: Db, after: Db, id: TxId, c: Company)
    requires Grown(db, after) && Inv(after) && LinkedTo(after, id, c) && HasCik(db, c.cik)
    requires db.tickerMap <= after.tickerMap && PairOf(db, c) !in db.tickerMap
    ensures after.txs[id].instrument == Some(InstrumentOf(db, c.cik))
    ensures PairOf(db, c) in after.tickerMap[|db.tickerMap|..]
  {
    OnlyInstrument(after, c.cik, InstrumentOf(db, c.cik));
    OnlyInstrument(after, c.cik, after.txs[id].instrument.value);
    var k :| 0 <= k < |after.tickerMap| && after.tickerMap[k] == PairOf(db, c);
    assert k >= |db.tickerMap|;
    assert after.tickerMap[|db.tickerMap|..][k - |db.tickerMap|] == PairOf(db, c);
  }

  lemma {:induction false} NotBefore(issues: seq<Issue>, id: TxId)
    requires !HasOpenIssue(issues, id)
    ensures forall k | 0 <= k < |issues| :: issues[k] != Issue(id, false)
  {
  }

  lemma {:induction false} NewIssue(issues: seq<Issue>, after: seq<Issue>, id: TxId)
    requires issues <= after && !HasOpenIssue(issues, id) && HasOpenIssue(after, id)
    ensures Issue(id, false) in after[|issues|..]
  {
    var k :| 0 <= k < |after| && after[k] == Issue(id, false);
    NotBefore(issues, id);
    assert after[|issues|..][k - |issues|] == Issue(id, false);
  }

  // ---- merging ----

  /** New instruments of two sessions have different ids, as UUIDs do. */
  predicate Apart(db: Db, a: Db, b: Db) {
    (a.instruments.Keys - db.instruments.Keys) !! (b.instruments.Keys - db.instruments.Keys)
  }

  lemma {:induction false} IssuesMerge(issues: seq<Issue>, a: seq<Issue>, b: seq<Issue>, fa: set<TxId>, fb: set<TxId>)
    requires issues <= a && issues <= b && OneOpenIssue(a) && OneOpenIssue(b)
    requires forall k | |issues| <= k < |a| :: IssueAddedFor(a[k], fa)
    requires forall k | |issues| <= k < |b| :: IssueAddedFor(b[k], fb)
    requires forall id | id in fa :: Issue(id, false) in a[|issues|..]
    requires forall id | id in fb :: Issue(id, false) in b[|issues|..]
    ensures OneOpenIssue(a + b[|issues|..]) <==> fa !! fb
  {
    var n, m := |issues|, a + b[|issues|..];
    if id :| id in fa && id in fb {
      var i :| 0 <= i < |a[n..]| && a[n..][i] == Issue(id, false);
      var j :| 0 <= j < |b[n..]| && b[n..][j] == Issue(id, false);
      assert m[n + i] == Issue(id, false) && m[|a| + j] == Issue(id, false);
      assert !OneOpenIssue(m);
    } else {
      forall i, j | 0 <= i < j < |m|
        ensures m[i].subject == m[j].subject ==> m[i].resolved || m[j].resolved
      {
        if j >= |a| {
          assert m[j] == b[n + j - |a|];
          if i >= |a| {
            assert m[i] == b[n + i - |a|];
          } else if i < n {
            assert m[i] == b[i];
          } else {
            assert IssueAddedFor(a[i], fa) && IssueAddedFor(b[n + j - |a|], fb);
          }
        }
      }
    }
  }

  lemma {:induction false} PairsMerge(db: Db, a: Db, b: Db, pa: set<(InstrumentId, string)>,
                                      pb: set<(InstrumentId, string)>)
    requires db.tickerMap <= a.tickerMap && db.tickerMap <= b.tickerMap && Apart(db, a, b)
    requires PairsUnique(a.tickerMap) && PairsUnique(b.tickerMap)
    requires forall k | |db.tickerMap| <= k < |a.tickerMap| :: PairAdded(a.tickerMap[k], db, a, pa)
    requires forall k | |db.tickerMap| <= k < |b.tickerMap| :: PairAdded(b.tickerMap[k], db, b, pb)
    requires forall p | p in pa :: p in a.tickerMap[|db.tickerMap|..]
    requires forall p | p in pb :: p in b.tickerMap[|db.tickerMap|..]
    ensures PairsUnique(a.tickerMap + b.tickerMap[|db.tickerMap|..]) <==> pa !! pb
  {
    hide PairsUnique;
    var n, x, y := |db.tickerMap|, a.tickerMap, b.tickerMap;
    ListsMerge(db.tickerMap, x, y);
    if p :| p in x[n..] && p in y[n..] {
      var i :| 0 <= i < |x[n..]| && x[n..][i] == p;
      var j :| 0 <= j < |y[n..]| && y[n..][j] == p;
      assert x[n + i] == p && y[n + j] == p;
      assert PairAdded(x[n + i], db, a, pa) && PairAdded(y[n + j], db, b, pb);
      OldInstrument(db, a, b, p.0);
      assert p in pa && p in pb;
    } else {
      forall p ensures !(p in pa && p in pb) {
      }
    }
  }

  lemma {:induction false} OldInstrument(db: Db, a: Db, b: Db, i: InstrumentId)
    requires Apart(db, a, b) && i in a.instruments && i in b.instruments
    ensures i in db.instruments
  {
    var newA, newB := a.instruments.Keys - db.instruments.Keys, b.instruments.Keys - db.instruments.Keys;
    assert !(i in newA && i in newB);
  }

  /** Two extensions of one list: together they repeat nothing exactly when their new parts share nothing. */
  lemma {:induction false} ListsMerge(base: seq<(InstrumentId, string)>, x: seq<(InstrumentId, string)>,
                                      y: seq<(InstrumentId, string)>)
    requires base <= x && base <= y && PairsUnique(x) && PairsUnique(y)
    ensures PairsUnique(x + y[|base|..]) <==> forall p | p in x[|base|..] :: p !in y[|base|..]
  {
    var n, m := |base|, x + y[|base|..];
    if p :| p in x[n..] && p in y[n..] {
      var i :| 0 <= i < |x[n..]| && x[n..][i] == p;
      var j :| 0 <= j < |y[n..]| && y[n..][j] == p;
      assert m[n + i] == p && m[|x| + j] == p;
      assert !PairsUnique(m);
    } else {
      forall i, j | 0 <= i < j < |m| ensures m[i] != m[j] {
        if j >= |x| {
          var k := n + j - |x|;
          assert m[j] == y[k] && y[n..][k - n] == y[k];
          assert y[k] in y[n..];
          if i >= |x| {
            assert m[i] == y[n + i - |x|];
          } else if i < n {
            assert m[i] == y[i];
          } else {
            assert x[n..][i - n] == x[i];
            assert x[i] in x[n..];
          }
        }
      }
    }
  }

  lemma {:induction false} CiksMerge(db: Db, a: Db, b: Db, ca: set<string>, cb: set<string>)
    requires Grown(db, a) && Grown(db, b) && CiksUnique(a.instruments) && CiksUnique(b.instruments) && Apart(db, a, b)
    requires forall i | i in a.instruments && i !in db.instruments :: CikAdded(a.instruments[i], ca)
    requires forall i | i in b.instruments && i !in db.instruments :: CikAdded(b.instruments[i], cb)
    requires forall cik | cik in ca ::
               exists i | i in a.instruments :: i !in db.instruments && a.instruments[i].cik == Some(cik)
    requires forall cik | cik in cb ::
               exists i | i in b.instruments :: i !in db.instruments && b.instruments[i].cik == Some(cik)
    ensures CiksUnique(a.instruments + (b.instruments - db.instruments.Keys)) <==> ca !! cb
  {
    hide HasOpenIssue;
    var m := a.instruments + (b.instruments - db.instruments.Keys);
    if cik :| cik in ca && cik in cb {
      var i :| i in a.instruments && i !in db.instruments && a.instruments[i].cik == Some(cik);
      var j :| j in b.instruments && j !in db.instruments && b.instruments[j].cik == Some(cik);
      assert m[i].cik == m[j].cik && i != j;
      assert !CiksUnique(m);
    } else {
      forall i, j | i in m && j in m && m[i].cik.Some?
        ensures m[i].cik == m[j].cik ==> i == j
      {
        if i in a.instruments && j !in a.instruments {
          MixedPair(db, a, b, ca, cb, i, j);
        } else if j in a.instruments && i !in a.instruments {
          MixedPair(db, a, b, ca, cb, j, i);
        }
      }
    }
  }

  /** An instrument of the first session or of the tables, and a new one of the second, differ in CIK. */
  lemma {:induction false} MixedPair(db: Db, a: Db, b: Db, ca: set<string>, cb: set<string>,
                                     i: InstrumentId, j: InstrumentId)
    requires Grown(db, a) && Grown(db, b) && CiksUnique(b.instruments) && ca !! cb
    requires i in a.instruments && j in b.instruments && j !in db.instruments
    requires i !in db.instruments ==> CikAdded(a.instruments[i], ca)
    requires CikAdded(b.instruments[j], cb)
    ensures a.instruments[i].cik != b.instruments[j].cik
  {
    hide HasOpenIssue;
    if i in db.instruments {
      assert b.instruments[i] == db.instruments[i] == a.instruments[i];
      assert i != j;
    }
  }

  /** Two overlapping batches keep CIKs, (instrument, ticker) pairs and open issues unique if and only if
      they do not both miss a CIK, do not both miss a ticker of an instrument, and do not both flag a
      transaction. */
  lemma {:induction false} OverlapKeepsIff(db: Db, pa: seq<TxId>, ra: Refs, newA: set<InstrumentId> -> InstrumentId,
                                           pb: seq<TxId>, rb: Refs, newB: set<InstrumentId> -> InstrumentId)
    requires Inv(db) && Selected(db, pa) && Selected(db, pb) && Fresh(newA) && Fresh(newB)
    requires Apart(db, LinkAll(db, pa, ra, newA).0, LinkAll(db, pb, rb, newB).0)
    ensures var a, b := LinkAll(db, pa, ra, newA).0, LinkAll(db, pb, rb, newB).0;
            && db.tickerMap <= b.tickerMap && db.issues <= b.issues
            && (Inv(Commit(a, db, b)) <==>
                  && MissingCiks(db, pa, ra) !! MissingCiks(db, pb, rb)
                  && MissingPairs(db, pa, ra) !! MissingPairs(db, pb, rb)
                  && Unmatched(db, pa, ra) !! Unmatched(db, pb, rb))
  {
    hide LinkAll, MissingCiks, MissingPairs, Unmatched, Updated, Grown, Apart, CiksUnique, PairsUnique, OneOpenIssue;
    hide PairAdded, IssueAddedFor, CikAdded, HasOpenIssue;
    var a, b := LinkAll(db, pa, ra, newA).0, LinkAll(db, pb, rb, newB).0;
    BatchGrows(db, pa, ra, newA);
    BatchGrows(db, pb, rb, newB);
    CiksMerge(db, a, b, MissingCiks(db, pa, ra), MissingCiks(db, pb, rb));
    PairsMerge(db, a, b, MissingPairs(db, pa, ra), MissingPairs(db, pb, rb));
    IssuesMerge(db.issues, a.issues, b.issues, Unmatched(db, pa, ra), Unmatched(db, pb, rb));
  }

  lemma {:induction false} BatchGrows(db: Db, pending: seq<TxId>, refs: Refs, newId: set<InstrumentId> -> InstrumentId)
    requires Selected(db, pending) && Inv(db) && Fresh(newId)
    ensures var after := LinkAll(db, pending, refs, newId).0;
            var ciks, pairs, flagged := MissingCiks(db, pending, refs), MissingPairs(db, pending, refs),
                                        Unmatched(db, pending, refs);
            && Inv(after) && Grown(db, after) && AddsOnly(db, after, ciks, pairs, flagged)
            && AddsAll(db, after, ciks, pairs, flagged)
  {
    hide LinkAll, MissingCiks, MissingPairs, Unmatched, Grown, AddsOnly, AddsAll, Inv;
    BatchAddsOnly(db, pending, refs, newId);
    BatchAddsAll(db, pending, refs, newId);
    BatchDoes(db, pending, refs, newId);
  }

  /** Transactions of the two batches that resolve to one CIK end with one instrument if and only if the
      tables had it before. */
  lemma {:induction false} OverlapShareIff(db: Db, pa: seq<TxId>, ra: Refs, newA: set<InstrumentId> -> InstrumentId,
                                           pb: seq<TxId>, rb: Refs, newB: set<InstrumentId> -> InstrumentId,
                                           x: TxId, y: TxId)
    requires Inv(db) && Selected(db, pa) && Selected(db, pb) && Fresh(newA) && Fresh(newB)
    requires Apart(db, LinkAll(db, pa, ra, newA).0, LinkAll(db, pb, rb, newB).0)
    requires x in pa && x !in pb && y in pb && x in db.txs && y in db.txs
    requires Resolve(db.txs[x], ra).Some? && Resolve(db.txs[y], rb).Some?
    requires Resolve(db.txs[x], ra).value.cik == Resolve(db.txs[y], rb).value.cik
    ensures var a, b := LinkAll(db, pa, ra, newA).0, LinkAll(db, pb, rb, newB).0;
            && db.tickerMap <= b.tickerMap && db.issues <= b.issues
            && (var both := Commit(a, db, b);
                x in both.txs && y in both.txs
                && (both.txs[x].instrument == both.txs[y].instrument <==> HasCik(db, Resolve(db.txs[x], ra).value.cik)))
  {
    hide LinkAll, Resolve, MissingCiks, MissingPairs, Unmatched, AddsAll, PairsUnique, OneOpenIssue, HasOpenIssue;
    var a, b := LinkAll(db, pa, ra, newA).0, LinkAll(db, pb, rb, newB).0;
    BatchDoes(db, pa, ra, newA);
    BatchDoes(db, pb, rb, newB);
    BatchAddsOnly(db, pb, rb, newB);
    assert Settled(db, a, x, ra) && Settled(db, b, y, rb);
    SharedIff(db, a, b, x, Resolve(db.txs[x], ra).value, y, Resolve(db.txs[y], rb).value);
  }

  lemma {:induction false} SharedIff(db: Db, a: Db, b: Db, x: TxId, c: Company, y: TxId, d: Company)
    requires Grown(db, a) && Grown(db, b) && CiksUnique(a.instruments) && CiksUnique(b.instruments) && Apart(db, a, b)
    requires LinkedTo(a, x, c) && LinkedTo(b, y, d) && c.cik == d.cik
    ensures a.txs[x].instrument == b.txs[y].instrument <==> HasCik(db, c.cik)
  {
    hide HasOpenIssue;
    var i, j := a.txs[x].instrument.value, b.txs[y].instrument.value;
    if HasCik(db, c.cik) {
      var k := InstrumentOf(db, c.cik);
      assert a.instruments[k] == db.instruments[k] == b.instruments[k];
      assert i == k && j == k;
    } else {
      assert i in a.instruments.Keys - db.instruments.Keys;
      assert j in b.instruments.Keys - db.instruments.Keys;
    }
  }
}
