/** What a batch makes of a transaction, from its ticker, its description and the reference data. */
module TickerResolution {
  import opened Optional
  import opened Issues
  import opened TickerLinks
  import Text

  /** A ticker, or a description, less the white space around it. */
  function Key(raw: string): string {
    Text.Upper(Text.Strip(raw))
  }

  /** `p` is `s`, filled up to ten characters with zeros after its sign if it has one. */
  predicate IsPadded(s: string, p: string) {
    var sign := if s != "" && s[0] in {'+', '-'} then 1 else 0;
    if |s| >= 10 then p == s
    else
      && |p| == 10 && p[..sign] == s[..sign] && p[10 - |s| + sign..] == s[sign..]
      && forall i | sign <= i < 10 - |s| + sign :: p[i] == '0'
  }

  lemma {:induction false} ZfillPads(s: string)
    ensures IsPadded(s, Zfill10(s))
  {
  }

  /** There is one such text. */
  lemma {:induction false} PaddedOnce(s: string, p: string, q: string)
    requires IsPadded(s, p) && IsPadded(s, q)
    ensures p == q
  {
    if |s| < 10 {
      var sign := if s != "" && s[0] in {'+', '-'} then 1 else 0;
      var end := 10 - |s| + sign;
      forall i | 0 <= i < 10 ensures p[i] == q[i] {
        if i < sign {
          assert p[..sign][i] == q[..sign][i];
        } else if i >= end {
          assert p[end..][i - end] == q[end..][i - end];
        }
      }
    }
  }

  /** Flagged as unmatched, and otherwise as it was. */
  predicate LeftUnmatched(db: Db, after: Db, id: TxId)
    requires id in db.txs && id in after.txs
  {
    after.txs[id] == db.txs[id] && HasOpenIssue(after.issues, id)
  }

  /** Linked to the one instrument with the CIK, which is known by the ticker; its own ticker is kept. */
  predicate Joined(db: Db, after: Db, id: TxId, cik: string, ticker: string)
    requires id in db.txs && id in after.txs
  {
    && after.txs[id].instrument.Some? && after.txs[id].description == db.txs[id].description
    && after.txs[id].ticker == (if db.txs[id].ticker.Some? then db.txs[id].ticker else Some(ticker))
    && var i := after.txs[id].instrument.value;
       && i in after.instruments && after.instruments[i].cik == Some(cik) && (i, ticker) in after.tickerMap
       && forall j | j in after.instruments && after.instruments[j].cik == Some(cik) :: j == i
  }

  /** What an override does: without a ticker it leaves the transaction unmatched; a listed ticker stands for
      its company; an unlisted one for a company of the override's own, with the CIK zero-filled. */
  ghost predicate Obeys(db: Db, after: Db, id: TxId, o: Override, refs: Refs)
    requires id in db.txs && id in after.txs
  {
    if o.ticker.None? then LeftUnmatched(db, after, id)
    else
      var ticker := Key(o.ticker.value);
      if ticker in refs.byTicker then Joined(db, after, id, refs.byTicker[ticker].cik, refs.byTicker[ticker].ticker)
      else
        exists cik | IsPadded(if o.cik.Some? then o.cik.value else "", cik) :: Joined(db, after, id, cik, ticker)
  }

  /** The four sources in their order: an override of the ticker, the reference data on the ticker, an
      override of the description, and the fuzzy match of the description. */
  ghost predicate Decided(db: Db, after: Db, id: TxId, refs: Refs)
    requires id in db.txs && id in after.txs
  {
    var tx := db.txs[id];
    var ticker := if tx.ticker.Some? then Key(tx.ticker.value) else "";
    var hasTicker := tx.ticker.Some? && tx.ticker.value != "";
    if hasTicker && (OnTicker, ticker) in refs.overrides then
      Obeys(db, after, id, refs.overrides[(OnTicker, ticker)], refs)
    else if hasTicker && ticker in refs.byTicker then
      Joined(db, after, id, refs.byTicker[ticker].cik, refs.byTicker[ticker].ticker)
    else if (OnDescription, Text.Strip(tx.description)) in refs.overrides then
      Obeys(db, after, id, refs.overrides[(OnDescription, Text.Strip(tx.description))], refs)
    else
      match refs.byDescription(tx.description)
      case None => LeftUnmatched(db, after, id)
      case Some(c) => Joined(db, after, id, c.cik, c.ticker)
  }

  /** After a batch every selected transaction is linked or left unmatched as the four sources decide. */
  lemma {:induction false} BatchDecides(db: Db, pending: seq<TxId>, refs: Refs,
                                        newId: set<InstrumentId> -> InstrumentId, id: TxId)
    requires Selected(db, pending) && Inv(db) && Fresh(newId) && id in pending
    ensures var after := LinkAll(db, pending, refs, newId).0;
            id in db.txs && id in after.txs && Decided(db, after, id, refs)
  {
    hide LinkAll, HasOpenIssue, Text.Upper, Text.Strip, Zfill10, IsPadded;
    BatchDoes(db, pending, refs, newId);
    var after := LinkAll(db, pending, refs, newId).0;
    assert Settled(db, after, id, refs);
    SettledDecided(db, after, id, refs);
  }

  lemma {:induction false} LinkedJoins(db: Db, after: Db, id: TxId, refs: Refs, c: Company)
    requires id in db.txs && Inv(after) && Settled(db, after, id, refs) && Resolve(db.txs[id], refs) == Some(c)
    ensures id in after.txs && Joined(db, after, id, c.cik, c.ticker)
  {
    hide Resolve, HasOpenIssue, OneOpenIssue, PairsUnique;
  }

  lemma {:induction false} CompanyObeys(db: Db, after: Db, id: TxId, o: Override, refs: Refs)
    requires id in db.txs && id in after.txs
    requires match CompanyFromOverride(o, refs)
             case None => LeftUnmatched(db, after, id)
             case Some(c) => Joined(db, after, id, c.cik, c.ticker)
    ensures Obeys(db, after, id, o, refs)
  {
    hide LeftUnmatched, Joined, Zfill10, IsPadded, Text.Upper, Text.Strip;
    ZfillPads(if o.cik.Some? then o.cik.value else "");
  }

  lemma {:induction false} SettledDecided(db: Db, after: Db, id: TxId, refs: Refs)
    requires id in db.txs && Inv(after) && Settled(db, after, id, refs)
    ensures Decided(db, after, id, refs)
  {
    hide Inv, LinkedTo, HasOpenIssue, Joined, CompanyFromOverride, Obeys, Text.Upper, Text.Strip;
    if Resolve(db.txs[id], refs).Some? {
      LinkedJoins(db, after, id, refs, Resolve(db.txs[id], refs).value);
    }
    forall o | CompanyFromOverride(o, refs) == Resolve(db.txs[id], refs) ensures Obeys(db, after, id, o, refs) {
      CompanyObeys(db, after, id, o, refs);
    }
  }
}
