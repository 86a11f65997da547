/** Linking transactions to instruments (`ingest/tickers.py`). One session reads the tables into
    caches, works on the caches, and adds rows as it goes. */
module TickerLinks {
  import opened Optional
  import opened Issues
  import opened Scheduler
  import Text

  /** UUIDs, in their text form. */
  type TxId = string

  type InstrumentId = string

  datatype Company = Company(cik: string, ticker: string, title: string)

  datatype Tx = Tx(ticker: Option<string>, description: string, instrument: Option<InstrumentId>)

  datatype Instrument = Instrument(primaryTicker: string, cik: Option<string>, name: string)

  datatype Db = Db(txs: map<TxId, Tx>, instruments: map<InstrumentId, Instrument>,
                   tickerMap: seq<(InstrumentId, string)>, issues: seq<Issue>)

  // ---- resolving a transaction ----

  datatype Override = Override(ticker: Option<string>, cik: Option<string>, reason: string)

  datatype MatchType = OnTicker | OnDescription

  /** The reference data of one run; the fuzzy match on company names is a given function. */
  datatype Refs = Refs(overrides: map<(MatchType, string), Override>, byTicker: map<string, Company>,
                       byDescription: string -> Option<Company>)

  function Normalize(ticker: string): string {
    Text.Upper(Text.Strip(ticker))
  }

  const TEN_ZEROS := "0000000000"

  /** `s.zfill(10)`; a leading sign stays in front of the zeros. */
  function Zfill10(s: string): string {
    if |s| >= 10 then s
    else if s != "" && s[0] in {'+', '-'} then [s[0]] + TEN_ZEROS[|s|..] + s[1..]
    else TEN_ZEROS[|s|..] + s
  }

  function CompanyFromOverride(o: Override, refs: Refs): Option<Company> {
    match o.ticker
    case None => None
    case Some(ticker) =>
      if Normalize(ticker) in refs.byTicker then Some(refs.byTicker[Normalize(ticker)])
      else Some(Company(Zfill10(if o.cik.Some? then o.cik.value else ""), Normalize(ticker), o.reason))
  }

  function Resolve(tx: Tx, refs: Refs): Option<Company> {
    var hasTicker := tx.ticker.Some? && tx.ticker.value != "";
    var ticker := if hasTicker then Normalize(tx.ticker.value) else "";
    if hasTicker && (OnTicker, ticker) in refs.overrides then
      CompanyFromOverride(refs.overrides[(OnTicker, ticker)], refs)
    else if hasTicker && ticker in refs.byTicker then Some(refs.byTicker[ticker])
    else if (OnDescription, Text.Strip(tx.description)) in refs.overrides then
      CompanyFromOverride(refs.overrides[(OnDescription, Text.Strip(tx.description))], refs)
    else refs.byDescription(tx.description)
  }

  // ---- one transaction, on the tables alone ----

  ghost predicate HasCik(db: Db, cik: string) {
    exists i :: i in db.instruments && db.instruments[i].cik == Some(cik)
  }

  ghost function InstrumentOf(db: Db, cik: string): (i: InstrumentId)
    requires HasCik(db, cik)
    ensures i in db.instruments && db.instruments[i].cik == Some(cik)
  {
    var i :| i in db.instruments && db.instruments[i].cik == Some(cik);
    i
  }

  /** An id no instrument has yet, as `uuid4` gives. */
  ghost predicate Fresh(newId: set<InstrumentId> -> InstrumentId) {
    forall used :: newId(used) !in used
  }

  function WithIssue(db: Db, id: TxId): Db {
    db.(issues := FlaggedAs(db.issues, id))
  }

  function WithInstrument(db: Db, i: InstrumentId, c: Company): Db {
    db.(instruments := db.instruments[i := Instrument(c.ticker, Some(c.cik), c.title)])
  }

  function WithTicker(db: Db, i: InstrumentId, ticker: string): Db {
    if (i, ticker) in db.tickerMap then db else db.(tickerMap := db.tickerMap + [(i, ticker)])
  }

  function WithLink(db: Db, id: TxId, i: InstrumentId, ticker: string): Db
    requires id in db.txs
  {
    var tx := db.txs[id];
    db.(txs := db.txs[id := Tx(if tx.ticker.None? then Some(ticker) else tx.ticker, tx.description, Some(i))])
  }

  /** Links a transaction to the instrument of its company, creating that and its ticker if the
      tables lack them; flags one without a company, unless it is flagged already. */
  ghost function LinkOne(db: Db, id: TxId, refs: Refs, newId: set<InstrumentId> -> InstrumentId): (Db, bool)
    requires id in db.txs
  {
    match Resolve(db.txs[id], refs)
    case None => (WithIssue(db, id), false)
    case Some(c) =>
      var found := HasCik(db, c.cik);
      var i := if found then InstrumentOf(db, c.cik) else newId(db.instruments.Keys);
      var known := if found then db else WithInstrument(db, i, c);
      (WithLink(WithTicker(known, i, c.ticker), id, i, c.ticker), true)
  }

  ghost function LinkAll(db: Db, pending: seq<TxId>, refs: Refs,
                         newId: set<InstrumentId> -> InstrumentId): (r: (Db, nat))
    requires forall id | id in pending :: id in db.txs
    ensures r.0.txs.Keys == db.txs.Keys
  {
    if pending == [] then (db, 0)
    else
      var n := |pending| - 1;
      var (before, linked) := LinkAll(db, pending[..n], refs, newId);
      var (after, ok) := LinkOne(before, pending[n], refs, newId);
      (after, if ok then linked + 1 else linked)
  }

  // ---- the invariant of the tables ----

  ghost predicate CiksUnique(instruments: map<InstrumentId, Instrument>) {
    forall i, j |
      i in instruments && j in instruments && instruments[i].cik.Some? && instruments[i].cik == instruments[j].cik ::
      i == j
  }

  predicate PairsUnique(tickerMap: seq<(InstrumentId, string)>) {
    forall i, j | 0 <= i < j < |tickerMap| :: tickerMap[i] != tickerMap[j]
  }

  ghost predicate Inv(db: Db) {
    CiksUnique(db.instruments) && PairsUnique(db.tickerMap) && OneOpenIssue(db.issues)
  }

  // ---- the session ----

  class Session {
    var txs: map<TxId, Tx>
    var instruments: map<InstrumentId, Instrument>
    var tickerMap: seq<(InstrumentId, string)>
    var issues: seq<Issue>
    var instrumentByCik: map<string, InstrumentId>
    var tickerMapKeys: set<(InstrumentId, string)>
    var alreadyFlagged: set<TxId>

    function View(): Db
      reads this
    {
      Db(txs, instruments, tickerMap, issues)
    }

    /** The caches hold what the stored and added rows say, no more and no less. */
    ghost predicate Mirrors()
      reads this
    {
      && (forall cik | cik in instrumentByCik ::
            instrumentByCik[cik] in instruments && instruments[instrumentByCik[cik]].cik == Some(cik))
      && (forall i | i in instruments && instruments[i].cik.Some? :: instruments[i].cik.value in instrumentByCik)
      && (forall p :: p in tickerMapKeys <==> p in tickerMap)
      && (forall id :: id in alreadyFlagged <==> HasOpenIssue(issues, id))
    }

    constructor (db: Db)
      requires Inv(db)
      ensures View() == db && Mirrors()
    {
      txs, instruments, tickerMap, issues := db.txs, db.instruments, db.tickerMap, db.issues;
      alreadyFlagged := Flagged(db.issues);
      tickerMapKeys := set p | p in db.tickerMap;
      instrumentByCik := map i | i in db.instruments && db.instruments[i].cik.Some? :: db.instruments[i].cik.value := i;
      new;
      forall id ensures id in alreadyFlagged <==> HasOpenIssue(issues, id) {
        FlaggedMember(issues, id);
      }
    }

    method FlagUnmatched(id: TxId)
      requires Mirrors()
      modifies `issues, `alreadyFlagged
      ensures View() == WithIssue(old(View()), id) && Mirrors()
    {
      if id !in alreadyFlagged {
        IssueAdded(issues, id);
        issues := issues + [Issue(id, false)];
        alreadyFlagged := alreadyFlagged + {id};
      }
    }

    /** The cached instrument of a company, or a new one. */
    method InstrumentFor(c: Company, newId: set<InstrumentId> -> InstrumentId) returns (i: InstrumentId)
      requires Mirrors() && CiksUnique(instruments) && Fresh(newId)
      modifies `instruments, `instrumentByCik
      ensures Mirrors()
      ensures var before := old(View());
              var found := HasCik(before, c.cik);
              && i == (if found then InstrumentOf(before, c.cik) else newId(before.instruments.Keys))
              && View() == (if found then before else WithInstrument(before, i, c))
    {
      if c.cik in instrumentByCik {
        i := instrumentByCik[c.cik];
        OnlyInstrument(View(), c.cik, i);
      } else {
        i := newId(instruments.Keys);
        instruments := instruments[i := Instrument(c.ticker, Some(c.cik), c.title)];
        instrumentByCik := instrumentByCik[c.cik := i];
      }
    }

    method KnowTicker(i: InstrumentId, ticker: string)
      requires Mirrors()
      modifies `tickerMap, `tickerMapKeys
      ensures View() == WithTicker(old(View()), i, ticker) && Mirrors()
    {
      if (i, ticker) !in tickerMapKeys {
        tickerMap := tickerMap + [(i, ticker)];
        tickerMapKeys := tickerMapKeys + {(i, ticker)};
      }
    }

    method LinkTx(id: TxId, refs: Refs, newId: set<InstrumentId> -> InstrumentId) returns (ok: bool)
      requires id in txs && Inv(View()) && Mirrors() && Fresh(newId)
      modifies this
      ensures (View(), ok) == LinkOne(old(View()), id, refs, newId)
      ensures Inv(View()) && Mirrors()
    {
      hide Resolve, CiksUnique, PairsUnique, OneOpenIssue, HasCik, WithInstrument, WithTicker, WithIssue;
      LinkOneKeeps(View(), id, refs, newId);
      var company := Resolve(txs[id], refs);
      if company.None? {
        FlagUnmatched(id);
        return false;
      }
      var c := company.value;
      var instrumentId := InstrumentFor(c, newId);
      KnowTicker(instrumentId, c.ticker);
      var tx := txs[id];
      txs := txs[id := Tx(if tx.ticker.None? then Some(c.ticker) else tx.ticker, tx.description, Some(instrumentId))];
      return true;
    }

    /** Over a whole batch the caches mirror the tables, and the result is what table lookups alone
        would give. */
    method LinkPending(pending: seq<TxId>, refs: Refs, newId: set<InstrumentId> -> InstrumentId) returns (linked: nat)
      requires (forall id | id in pending :: id in txs) && Inv(View()) && Mirrors() && Fresh(newId)
      modifies this
      ensures (View(), linked) == LinkAll(old(View()), pending, refs, newId)
      ensures Inv(View()) && Mirrors()
    {
      hide LinkOne, Inv;
      linked := 0;
      for i := 0 to |pending|
        invariant (View(), linked) == LinkAll(old(View()), pending[..i], refs, newId)
        invariant Inv(View()) && Mirrors()
      {
        assert pending[..i + 1][..i] == pending[..i];
        assert pending[i] in pending;
        var ok := LinkTx(pending[i], refs, newId);
        if ok {
          linked := linked + 1;
        }
      }
      assert pending[..|pending|] == pending;
    }
  }

  lemma {:induction false} OnlyInstrument(db: Db, cik: string, i: InstrumentId)
    requires CiksUnique(db.instruments) && i in db.instruments && db.instruments[i].cik == Some(cik)
    ensures HasCik(db, cik) && InstrumentOf(db, cik) == i
  {
  }

  // ---- what linking does ----

  /** Rows are only ever added: instruments keep their data, tickers and open issues stay. */
  ghost predicate Grown(db: Db, db': Db) {
    && (forall i | i in db.instruments :: i in db'.instruments && db'.instruments[i] == db.instruments[i])
    && (forall p | p in db.tickerMap :: p in db'.tickerMap)
    && (forall x | HasOpenIssue(db.issues, x) :: HasOpenIssue(db'.issues, x))
  }

  /** The transaction is linked to the one instrument of the CIK, which is known by the ticker. */
  predicate LinkedTo(db: Db, id: TxId, c: Company) {
    && id in db.txs && db.txs[id].instrument.Some?
    && var i := db.txs[id].instrument.value;
       i in db.instruments && db.instruments[i].cik == Some(c.cik) && (i, c.ticker) in db.tickerMap
  }

  /** Linked when it resolves to a company, flagged and otherwise unchanged when it does not. */
  predicate Settled(db: Db, after: Db, id: TxId, refs: Refs)
    requires id in db.txs
  {
    id in after.txs
    && match Resolve(db.txs[id], refs)
       case None => after.txs[id] == db.txs[id] && HasOpenIssue(after.issues, id)
       case Some(c) =>
         && LinkedTo(after, id, c) && after.txs[id].description == db.txs[id].description
         && after.txs[id].ticker == (if db.txs[id].ticker.None? then Some(c.ticker) else db.txs[id].ticker)
  }

  /** An instrument that was not there before is that of a company the transaction resolves to. */
  predicate IsCompanyOf(i: Instrument, tx: Tx, refs: Refs) {
    && Resolve(tx, refs).Some?
    && var c := Resolve(tx, refs).value;
       i == Instrument(c.ticker, Some(c.cik), c.title)
  }

  ghost predicate Described(i: InstrumentId, db: Db, after: Db, pending: seq<TxId>, refs: Refs)
    requires i in after.instruments
  {
    exists id | id in pending && id in db.txs :: IsCompanyOf(after.instruments[i], db.txs[id], refs)
  }

  ghost predicate NewAreDescribed(db: Db, after: Db, pending: seq<TxId>, refs: Refs) {
    forall i | i in after.instruments && i !in db.instruments :: Described(i, db, after, pending, refs)
  }

  lemma {:induction false} LinkOneKeeps(db: Db, id: TxId, refs: Refs, newId: set<InstrumentId> -> InstrumentId)
    requires id in db.txs && Inv(db) && Fresh(newId)
    ensures Inv(LinkOne(db, id, refs, newId).0)
  {
    if Resolve(db.txs[id], refs).None? && !HasOpenIssue(db.issues, id) {
      FlagIssue(db.issues, id);
    }
  }

  /** What linking one transaction leaves behind. */
  ghost predicate OneDid(db: Db, id: TxId, refs: Refs, after: Db, ok: bool)
    requires id in db.txs
  {
    && Inv(after) && Grown(db, after) && after.txs.Keys == db.txs.Keys && Settled(db, after, id, refs)
    && (ok <==> Resolve(db.txs[id], refs).Some?)
    && (forall x | x in db.txs && x != id :: after.txs[x] == db.txs[x])
    && (forall i | i in after.instruments && i !in db.instruments ::
          IsCompanyOf(after.instruments[i], db.txs[id], refs))
    && (forall x | x != id || ok :: HasOpenIssue(after.issues, x) <==> HasOpenIssue(db.issues, x))
  }

  lemma {:induction false} LinkOneDoes(db: Db, id: TxId, refs: Refs, newId: set<InstrumentId> -> InstrumentId)
    requires id in db.txs && Inv(db) && Fresh(newId)
    ensures var (after, ok) := LinkOne(db, id, refs, newId); OneDid(db, id, refs, after, ok)
  {
    hide Resolve, Inv, LinkOne, OneDid;
    match Resolve(db.txs[id], refs)
    case None => FlagOneDoes(db, id, refs, newId);
    case Some(c) => LinkCompanyDoes(db, id, refs, newId, c);
  }

  lemma {:induction false} FlagOneDoes(db: Db, id: TxId, refs: Refs, newId: set<InstrumentId> -> InstrumentId)
    requires id in db.txs && Inv(db) && Fresh(newId) && Resolve(db.txs[id], refs).None?
    ensures var (after, ok) := LinkOne(db, id, refs, newId); OneDid(db, id, refs, after, ok)
  {
    hide Resolve, Inv;
    LinkOneKeeps(db, id, refs, newId);
    IssueAdded(db.issues, id);
  }

  lemma {:induction false} LinkCompanyDoes(db: Db, id: TxId, refs: Refs, newId: set<InstrumentId> -> InstrumentId,
                                           c: Company)
    requires id in db.txs && Inv(db) && Fresh(newId) && Resolve(db.txs[id], refs) == Some(c)
    ensures var (after, ok) := LinkOne(db, id, refs, newId); OneDid(db, id, refs, after, ok)
  {
    hide Resolve, Inv, HasOpenIssue;
    LinkOneKeeps(db, id, refs, newId);
    var i := if HasCik(db, c.cik) then InstrumentOf(db, c.cik) else newId(db.instruments.Keys);
    var known := if HasCik(db, c.cik) then db else WithInstrument(db, i, c);
    TickerAdded(known, i, c.ticker);
  }

  lemma {:induction false} TickerAdded(db: Db, i: InstrumentId, ticker: string)
    ensures (i, ticker) in WithTicker(db, i, ticker).tickerMap
    ensures forall p | p in db.tickerMap :: p in WithTicker(db, i, ticker).tickerMap
  {
  }

  ghost predicate Selected(db: Db, pending: seq<TxId>) {
    && (forall id | id in pending :: id in db.txs && db.txs[id].instrument.None?)
    && (forall i, j | 0 <= i < j < |pending| :: pending[i] != pending[j])
  }

  /** What a batch leaves behind. */
  ghost predicate BatchDid(db: Db, pending: seq<TxId>, refs: Refs, after: Db, linked: nat) {
    && Inv(after) && Grown(db, after) && after.txs.Keys == db.txs.Keys
    && (forall id | id in pending && id in db.txs :: Settled(db, after, id, refs))
    && (forall id | id in db.txs && id !in pending :: id in after.txs && after.txs[id] == db.txs[id])
    && (forall id | id !in pending :: HasOpenIssue(after.issues, id) <==> HasOpenIssue(db.issues, id))
    && NewAreDescribed(db, after, pending, refs) && linked == |Resolvable(db, pending, refs)|
  }

  function Resolvable(db: Db, pending: seq<TxId>, refs: Refs): set<TxId> {
    set id | id in pending && id in db.txs && Resolve(db.txs[id], refs).Some?
  }

  /** A batch settles every selected transaction, touches no other, keeps CIKs, (instrument, ticker)
      pairs and open issues unique, and reports the number linked. */
  lemma {:induction false} BatchDoes(db: Db, pending: seq<TxId>, refs: Refs, newId: set<InstrumentId> -> InstrumentId)
    requires Selected(db, pending) && Inv(db) && Fresh(newId)
    ensures var (after, linked) := LinkAll(db, pending, refs, newId);
            BatchDid(db, pending, refs, after, linked)
  {
    hide LinkOne, Inv, Resolve, BatchDid;
    if pending == [] {
      EmptyBatch(db, refs);
    } else {
      var n := |pending| - 1;
      LastSelected(db, pending);
      BatchDoes(db, pending[..n], refs, newId);
      var (before, linked) := LinkAll(db, pending[..n], refs, newId);
      BatchKept(db, pending[..n], refs, before, linked);
      LinkOneDoes(before, pending[n], refs, newId);
      var (after, ok) := LinkOne(before, pending[n], refs, newId);
      BatchOneMore(db, pending, refs, before, linked, after, ok);
    }
  }

  lemma {:induction false} BatchKept(db: Db, pending: seq<TxId>, refs: Refs, after: Db, linked: nat)
    requires BatchDid(db, pending, refs, after, linked)
    ensures Inv(after)
  {
  }

  lemma {:induction false} EmptyBatch(db: Db, refs: Refs)
    requires Inv(db)
    ensures BatchDid(db, [], refs, db, 0)
  {
    hide Inv;
    assert Resolvable(db, [], refs) == {};
  }

  lemma {:induction false} BatchOneMore(db: Db, pending: seq<TxId>, refs: Refs, before: Db, linked: nat, after: Db,
                                        ok: bool)
    requires pending != [] && Selected(db, pending)
    requires BatchDid(db, pending[..|pending| - 1], refs, before, linked)
    requires pending[|pending| - 1] in before.txs && OneDid(before, pending[|pending| - 1], refs, after, ok)
    ensures BatchDid(db, pending, refs, after, if ok then linked + 1 else linked)
  {
    hide Inv, Resolve, HasOpenIssue, Settled, Grown, Resolvable, Selected, IsCompanyOf, NewAreDescribed;
    var n := |pending| - 1;
    LastSelected(db, pending);
    assert pending == pending[..n] + [pending[n]];
    GrownTwice(db, before, after);
    AllSettled(db, pending, refs, before, after);
    ResolvableMore(db, pending, refs);
    DescribedMore(db, pending, refs, before, after);
  }

  lemma {:induction false} DescribedMore(db: Db, pending: seq<TxId>, refs: Refs, before: Db, after: Db)
    requires pending != [] && Selected(db, pending) && Grown(before, after)
    requires NewAreDescribed(db, before, pending[..|pending| - 1], refs)
    requires pending[|pending| - 1] in before.txs
    requires before.txs[pending[|pending| - 1]] == db.txs[pending[|pending| - 1]]
    requires forall i | i in after.instruments && i !in before.instruments ::
          IsCompanyOf(after.instruments[i], before.txs[pending[|pending| - 1]], refs)
    ensures NewAreDescribed(db, after, pending, refs)
  {
    hide IsCompanyOf, HasOpenIssue;
    var n := |pending| - 1;
    forall i | i in after.instruments && i !in db.instruments ensures Described(i, db, after, pending, refs) {
      if i in before.instruments {
        assert Described(i, db, before, pending[..n], refs);
        var id :| id in pending[..n] && id in db.txs && IsCompanyOf(before.instruments[i], db.txs[id], refs);
        assert id in pending;
      } else {
        assert pending[n] in pending;
      }
    }
  }

  lemma {:induction false} LastSelected(db: Db, pending: seq<TxId>)
    requires pending != [] && Selected(db, pending)
    ensures var n := |pending| - 1;
            pending[n] in db.txs && pending[n] !in pending[..n] && Selected(db, pending[..n])
  {
  }

  lemma {:induction false} AllSettled(db: Db, pending: seq<TxId>, refs: Refs, before: Db, after: Db)
    requires pending != [] && Selected(db, pending) && Grown(before, after)
    requires forall id | id in pending[..|pending| - 1] && id in db.txs :: Settled(db, before, id, refs)
    requires pending[|pending| - 1] in before.txs
    requires before.txs[pending[|pending| - 1]] == db.txs[pending[|pending| - 1]]
    requires Settled(before, after, pending[|pending| - 1], refs)
    requires forall x | x in before.txs && x != pending[|pending| - 1] ::
          x in after.txs && after.txs[x] == before.txs[x]
    ensures forall id | id in pending && id in db.txs :: Settled(db, after, id, refs)
  {
    hide Settled, Grown;
    var n := |pending| - 1;
    LastSelected(db, pending);
    SettledSame(db, before, after, pending[n], refs);
    forall x | x in pending && x in db.txs ensures Settled(db, after, x, refs) {
      if x != pending[n] {
        assert x in pending[..n];
        SettledIn(db, before, x, refs);
        SettledStays(db, before, after, x, refs);
      }
    }
  }

  lemma {:induction false} SettledIn(db: Db, before: Db, id: TxId, refs: Refs)
    requires id in db.txs && Settled(db, before, id, refs)
    ensures id in before.txs
  {
  }

  lemma {:induction false} ResolvableMore(db: Db, pending: seq<TxId>, refs: Refs)
    requires pending != [] && Selected(db, pending)
    ensures var n := |pending| - 1;
            |Resolvable(db, pending, refs)|
            == |Resolvable(db, pending[..n], refs)| + if Resolve(db.txs[pending[n]], refs).Some? then 1 else 0
  {
    hide Resolve;
    var n := |pending| - 1;
    LastSelected(db, pending);
    assert pending == pending[..n] + [pending[n]];
    assert Resolvable(db, pending, refs)
        == Resolvable(db, pending[..n], refs) + if Resolve(db.txs[pending[n]], refs).Some? then {pending[n]} else {};
  }

  lemma {:induction false} GrownTwice(a: Db, b: Db, c: Db)
    requires Grown(a, b) && Grown(b, c)
    ensures Grown(a, c)
  {
    hide HasOpenIssue;
  }

  lemma {:induction false} SettledSame(db: Db, before: Db, after: Db, id: TxId, refs: Refs)
    requires id in db.txs && id in before.txs && before.txs[id] == db.txs[id] && Settled(before, after, id, refs)
    ensures Settled(db, after, id, refs)
  {
    hide Resolve, HasOpenIssue, LinkedTo;
  }

  lemma {:induction false} SettledStays(db: Db, before: Db, after: Db, id: TxId, refs: Refs)
    requires id in db.txs && Settled(db, before, id, refs) && Grown(before, after)
    requires id in after.txs && after.txs[id] == before.txs[id]
    ensures Settled(db, after, id, refs)
  {
    hide Resolve, HasOpenIssue;
  }

  // ---- any number of batches ----

  datatype Step = Batch(pending: seq<TxId>, refs: Refs) | Arrive(id: TxId, tx: Tx)

  /** The reference data may differ from batch to batch; new transactions arrive unlinked. */
  ghost predicate Next(db: Db, step: Step, newId: set<InstrumentId> -> InstrumentId, db': Db) {
    match step
    case Batch(pending, refs) => Selected(db, pending) && db' == LinkAll(db, pending, refs, newId).0
    case Arrive(id, tx) =>
      id !in db.txs && tx.instrument.None? && db' == db.(txs := db.txs[id := tx])
  }

  ghost predicate Run(dbs: seq<Db>, steps: seq<Step>, newId: set<InstrumentId> -> InstrumentId) {
    && |dbs| == |steps| + 1 && Inv(dbs[0]) && Fresh(newId)
    && forall i | 0 <= i < |steps| :: Next(dbs[i], steps[i], newId, dbs[i + 1])
  }

  lemma {:induction false} StepKeeps(db: Db, step: Step, newId: set<InstrumentId> -> InstrumentId, db': Db)
    requires Inv(db) && Fresh(newId) && Next(db, step, newId, db')
    ensures Inv(db') && Grown(db, db')
    ensures forall id | id in db.txs && db.txs[id].instrument.Some? :: id in db'.txs && db'.txs[id] == db.txs[id]
  {
    hide LinkAll, HasOpenIssue, CiksUnique, PairsUnique, OneOpenIssue;
    if step.Batch? {
      BatchDoes(db, step.pending, step.refs, newId);
    }
  }

  /** Any number of batches keeps every CIK on one instrument, every (instrument, ticker) pair in one
      row, and at most one open issue per transaction; nothing added is ever taken away. */
  lemma {:induction false} RunKeeps(dbs: seq<Db>, steps: seq<Step>, newId: set<InstrumentId> -> InstrumentId, i: nat,
                                    j: nat)
    requires Run(dbs, steps, newId) && i <= j < |dbs|
    ensures Inv(dbs[j]) && Grown(dbs[i], dbs[j])
    ensures forall id | id in dbs[i].txs && dbs[i].txs[id].instrument.Some? ::
              id in dbs[j].txs && dbs[j].txs[id] == dbs[i].txs[id]
    decreases j
  {
    hide Inv, Next, HasOpenIssue;
    if j > 0 {
      RunKeeps(dbs, steps, newId, if i < j then i else j - 1, j - 1);
      assert Next(dbs[j - 1], steps[j - 1], newId, dbs[j - 1 + 1]);
      StepKeeps(dbs[j - 1], steps[j - 1], newId, dbs[j]);
    }
  }

  /** A transaction selected by batch `k` that resolves to a company is linked from then on. */
  lemma {:induction false} StaysLinked(dbs: seq<Db>, steps: seq<Step>, newId: set<InstrumentId> -> InstrumentId,
                                       k: nat, id: TxId, n: nat)
    requires Run(dbs, steps, newId) && k < |steps| && k < n <= |steps|
    requires steps[k].Batch? && id in steps[k].pending && id in dbs[k].txs
    requires Resolve(dbs[k].txs[id], steps[k].refs).Some?
    ensures LinkedTo(dbs[n], id, Resolve(dbs[k].txs[id], steps[k].refs).value)
  {
    hide Inv, Resolve, LinkAll, HasOpenIssue;
    RunKeeps(dbs, steps, newId, k, k);
    assert Next(dbs[k], steps[k], newId, dbs[k + 1]);
    BatchDoes(dbs[k], steps[k].pending, steps[k].refs, newId);
    assert Settled(dbs[k], dbs[k + 1], id, steps[k].refs);
    RunKeeps(dbs, steps, newId, k + 1, n);
  }

  /** Transactions that resolve to the same CIK, in whatever batches and under whatever reference
      data, end up with the same instrument; those of different CIKs with different ones. */
  lemma {:induction false} InstrumentPerCik(dbs: seq<Db>, steps: seq<Step>, newId: set<InstrumentId> -> InstrumentId,
                                            k: nat, a: TxId, l: nat, b: TxId)
    requires Run(dbs, steps, newId) && k < |steps| && l < |steps|
    requires steps[k].Batch? && a in steps[k].pending && a in dbs[k].txs && Resolve(dbs[k].txs[a], steps[k].refs).Some?
    requires steps[l].Batch? && b in steps[l].pending && b in dbs[l].txs && Resolve(dbs[l].txs[b], steps[l].refs).Some?
    ensures var last := dbs[|steps|];
            && a in last.txs && b in last.txs
            && (last.txs[a].instrument == last.txs[b].instrument
                <==> Resolve(dbs[k].txs[a], steps[k].refs).value.cik == Resolve(dbs[l].txs[b], steps[l].refs).value.cik)
  {
    hide Resolve, Next, Inv;
    StaysLinked(dbs, steps, newId, k, a, |steps|);
    StaysLinked(dbs, steps, newId, l, b, |steps|);
    LastKeeps(dbs, steps, newId);
    OneInstrument(dbs[|steps|], a, Resolve(dbs[k].txs[a], steps[k].refs).value, b,
                  Resolve(dbs[l].txs[b], steps[l].refs).value);
  }

  lemma {:induction false} OneInstrument(db: Db, a: TxId, c: Company, b: TxId, d: Company)
    requires Inv(db) && LinkedTo(db, a, c) && LinkedTo(db, b, d)
    ensures db.txs[a].instrument == db.txs[b].instrument <==> c.cik == d.cik
  {
    var i, j := db.txs[a].instrument.value, db.txs[b].instrument.value;
    assert db.instruments[i].cik == Some(c.cik) && db.instruments[j].cik == Some(d.cik);
    assert CiksUnique(db.instruments);
  }

  lemma {:induction false} LastKeeps(dbs: seq<Db>, steps: seq<Step>, newId: set<InstrumentId> -> InstrumentId)
    requires Run(dbs, steps, newId)
    ensures Inv(dbs[|steps|])
  {
    RunKeeps(dbs, steps, newId, |steps|, |steps|);
  }

  function CikText(o: Override): string {
    if o.cik.Some? then o.cik.value else ""
  }

  /** The override that decides a transaction: the one of its ticker, or that of its description when
      neither an override nor the reference data knows the ticker. */
  predicate Overridden(tx: Tx, o: Override, refs: Refs) {
    var byTicker := HasTicker(tx) && (OnTicker, Normalize(tx.ticker.value)) in refs.overrides;
    var listed := HasTicker(tx) && Normalize(tx.ticker.value) in refs.byTicker;
    || (byTicker && refs.overrides[(OnTicker, Normalize(tx.ticker.value))] == o)
    || (!byTicker && !listed && (OnDescription, Text.Strip(tx.description)) in refs.overrides
        && refs.overrides[(OnDescription, Text.Strip(tx.description))] == o)
  }

  predicate HasTicker(tx: Tx) {
    tx.ticker.Some? && tx.ticker.value != ""
  }

  /** The override names a ticker the reference data does not list. */
  predicate Unlisted(o: Override, refs: Refs) {
    o.ticker.Some? && Normalize(o.ticker.value) !in refs.byTicker
  }

  lemma {:induction false} OverrideDecides(tx: Tx, o: Override, refs: Refs)
    requires Overridden(tx, o, refs)
    ensures Resolve(tx, refs) == CompanyFromOverride(o, refs)
  {
    hide Normalize, CompanyFromOverride;
  }

  /** Transactions resolved by overrides of unlisted tickers end with one instrument exactly when the
      zero-filled CIK texts agree, so all overrides without a CIK share one, however different. */
  lemma {:induction false} OverridesShareIff(dbs: seq<Db>, steps: seq<Step>, newId: set<InstrumentId> -> InstrumentId,
                                             k: nat, a: TxId, oa: Override, l: nat, b: TxId, ob: Override)
    requires Run(dbs, steps, newId) && k < |steps| && l < |steps|
    requires steps[k].Batch? && a in steps[k].pending && a in dbs[k].txs
    requires steps[l].Batch? && b in steps[l].pending && b in dbs[l].txs
    requires Unlisted(oa, steps[k].refs)
    requires Overridden(dbs[k].txs[a], oa, steps[k].refs)
    requires Unlisted(ob, steps[l].refs)
    requires Overridden(dbs[l].txs[b], ob, steps[l].refs)
    ensures var last := dbs[|steps|];
            && a in last.txs && b in last.txs
            && (last.txs[a].instrument == last.txs[b].instrument <==> Zfill10(CikText(oa)) == Zfill10(CikText(ob)))
            && (oa.cik.None? && ob.cik.None? ==> last.txs[a].instrument == last.txs[b].instrument)
  {
    hide Zfill10, Normalize;
    OverrideDecides(dbs[k].txs[a], oa, steps[k].refs);
    OverrideDecides(dbs[l].txs[b], ob, steps[l].refs);
    InstrumentPerCik(dbs, steps, newId, k, a, l, b);
  }

  // ---- the scheduler ----

  function Pending(db: Db): set<TxId> {
    set id | id in db.txs && db.txs[id].instrument.None?
  }

  function QueueOf(db: Db): Queue<TxId> {
    Queue(Pending(db), Flagged(db.issues))
  }

  function NoTiers(id: TxId): nat {
    0
  }

  /** A batch is a run in the scheduler's sense: every selected transaction leaves the backlog or is
      flagged. A resolved one keeps an old flag, which no longer matters. */
  lemma {:induction false} BatchRan(db: Db, pending: seq<TxId>, refs: Refs, newId: set<InstrumentId> -> InstrumentId)
    requires Selected(db, pending) && Inv(db) && Fresh(newId)
    ensures Ran(QueueOf(db), Members(pending), QueueOf(LinkAll(db, pending, refs, newId).0))
  {
    hide LinkAll, Resolve, Inv, Flagged, HasOpenIssue, Grown, LinkedTo;
    BatchDoes(db, pending, refs, newId);
    var after := LinkAll(db, pending, refs, newId).0;
    forall id ensures id in Flagged(db.issues) <==> HasOpenIssue(db.issues, id)
              ensures id in Flagged(after.issues) <==> HasOpenIssue(after.issues, id) {
      FlaggedMember(db.issues, id);
      FlaggedMember(after.issues, id);
    }
    forall id | id in Pending(after)
      ensures id in Flagged(after.issues) <==> id in Flagged(db.issues) || id in Members(pending)
    {
      if id in pending {
        assert Settled(db, after, id, refs);
        PendingUnresolved(db, after, id, refs);
      }
    }
    forall id | id in Pending(after) ensures id in Pending(db) {
      if id in pending {
        assert id in db.txs;
      }
    }
  }

  lemma {:induction false} PendingUnresolved(db: Db, after: Db, id: TxId, refs: Refs)
    requires id in db.txs && Settled(db, after, id, refs) && id in Pending(after)
    ensures HasOpenIssue(after.issues, id)
  {
    hide Resolve, HasOpenIssue;
  }

  /** With no arrivals every untried transaction is attempted within `ceil(u / size)` batches, however
      many permanently unmatched ones there are. */
  lemma {:induction false} LinkNoStarvation(dbs: seq<Db>, batches: seq<seq<TxId>>, refs: seq<Refs>,
                                            newId: set<InstrumentId> -> InstrumentId, size: nat)
    requires |dbs| == |batches| + 1 == |refs| + 1 && size > 0 && Inv(dbs[0]) && Fresh(newId)
    requires forall i | 0 <= i < |batches| ::
               Selected(dbs[i], batches[i]) && IsBatch(QueueOf(dbs[i]), NoTiers, size, Members(batches[i]))
    requires forall i | 0 <= i < |batches| ::
               Selected(dbs[i], batches[i]) && dbs[i + 1] == LinkAll(dbs[i], batches[i], refs[i], newId).0
    ensures var tried := seq(|batches|, i requires 0 <= i < |batches| => Members(batches[i]));
            Untried(QueueOf(dbs[0])) <= Attempted(tried) <==> |batches| >= CeilDiv(|Untried(QueueOf(dbs[0]))|, size)
  {
    hide LinkAll, Inv, Selected, IsBatch, Ran, QueueOf, Untried;
    var tried := seq(|batches|, i requires 0 <= i < |batches| => Members(batches[i]));
    var qs := seq(|dbs|, i requires 0 <= i < |dbs| => QueueOf(dbs[i]));
    var n := 0;
    while n < |batches|
      invariant n <= |batches| && Inv(dbs[n])
      invariant forall i | 0 <= i < n :: IsBatch(qs[i], NoTiers, size, tried[i]) && Ran(qs[i], tried[i], qs[i + 1])
    {
      BatchRan(dbs[n], batches[n], refs[n], newId);
      BatchKeepsInv(dbs[n], batches[n], refs[n], newId);
      n := n + 1;
    }
    assert Runs(qs, tried, NoTiers, size);
    EveryItemAttempted(qs, tried, NoTiers, size, |batches|);
    assert tried[..|batches|] == tried;
  }

  lemma {:induction false} BatchKeepsInv(db: Db, pending: seq<TxId>, refs: Refs,
                                         newId: set<InstrumentId> -> InstrumentId)
    requires Selected(db, pending) && Inv(db) && Fresh(newId)
    ensures Inv(LinkAll(db, pending, refs, newId).0)
  {
    BatchDoes(db, pending, refs, newId);
  }
}
