/** Recording newly observed filings (`ingest/house.py`, `ingest/senate.py`): live syncs and
    backfills of both chambers insert into one `filings` table without any lock between them. */
module Insertion {
  import opened Optional

  type FilingId = string

  /** An index entry; dates count days, times seconds. */
  datatype Entry =
    | House(docId: string, filer: string, filingType: string, filedDate: Option<int>)
    | Senate(reportUuid: string, filer: string, electronic: bool, filedDate: Option<int>)

  function IdOf(e: Entry): FilingId {
    match e
    case House(docId, _, _, _) => "house:" + docId
    case Senate(uuid, _, _, _) => "senate:" + uuid
  }

  datatype Row = Row(entry: Entry, firstSeenAt: int, precision: nat, format: string, parseStatus: string)

  type Table = map<FilingId, Row>

  const DAY := 86_400
  const UNKNOWN_DATE_PRECISION := 315_360_000

  /** A live sync stamps its own clock; a backfill the filed date, or "now" when there is none. */
  datatype Origin = Live(now: int, precision: nat) | Backfill(clock: Entry -> int)

  function FirstSeenFor(origin: Origin, e: Entry): (int, nat) {
    match origin
    case Live(now, precision) => (now, precision)
    case Backfill(clock) =>
      if e.filedDate.None? then (clock(e), UNKNOWN_DATE_PRECISION) else (e.filedDate.value * DAY, DAY)
  }

  function RowFor(origin: Origin, e: Entry): Row {
    var (at, precision) := FirstSeenFor(origin, e);
    match e
    case House(_, _, _, _) => Row(e, at, precision, "unknown", "pending")
    case Senate(_, _, electronic, _) =>
      if electronic then Row(e, at, precision, "electronic", "pending")
      else Row(e, at, precision, "paper", "paper_deferred")
  }

  function Ids(entries: seq<Entry>): set<FilingId> {
    set e | e in entries :: IdOf(e)
  }

  function IdSeq(entries: seq<Entry>): seq<FilingId> {
    seq(|entries|, i requires 0 <= i < |entries| => IdOf(entries[i]))
  }

  // ---- new_entries ----

  /** The entries that are neither stored already nor repeated earlier in the list. */
  function Fresh(entries: seq<Entry>, existing: set<FilingId>): seq<Entry> {
    if entries == [] then []
    else
      var n := |entries| - 1;
      var before, e := Fresh(entries[..n], existing), entries[n];
      if IdOf(e) in existing || IdOf(e) in Ids(entries[..n]) then before else before + [e]
  }

  method NewEntries(entries: seq<Entry>, existing: set<FilingId>) returns (result: seq<Entry>)
    ensures result == Fresh(entries, existing)
  {
    var seen: set<FilingId> := {};
    result := [];
    for i := 0 to |entries|
      invariant result == Fresh(entries[..i], existing)
      invariant seen == Ids(entries[..i]) - existing
    {
      var id := IdOf(entries[i]);
      assert entries[..i + 1][..i] == entries[..i];
      IdsPrefix(entries, i);
      if id in existing || id in seen {
        continue;
      }
      seen := seen + {id};
      result := result + [entries[i]];
    }
    assert entries[..|entries|] == entries;
  }

  lemma {:induction false} IdsPrefix(entries: seq<Entry>, i: nat)
    requires i < |entries|
    ensures Ids(entries[..i + 1]) == Ids(entries[..i]) + {IdOf(entries[i])}
  {
    assert entries[..i + 1] == entries[..i] + [entries[i]];
  }

  /** Where an id first occurs. */
  function FirstIndex(entries: seq<Entry>, id: FilingId): (i: nat)
    requires id in Ids(entries)
    ensures i < |entries| && IdOf(entries[i]) == id && id !in Ids(entries[..i])
  {
    var n := |entries| - 1;
    IdsPrefix(entries, n);
    assert entries[..n + 1] == entries;
    if id in Ids(entries[..n]) then
      var i := FirstIndex(entries[..n], id);
      assert entries[..n][..i] == entries[..i];
      i
    else n
  }

  lemma {:induction false} PrefixMembers(entries: seq<Entry>, n: nat)
    requires n <= |entries|
    ensures forall i | 0 <= i < n :: IdOf(entries[i]) in Ids(entries[..n])
  {
    forall i | 0 <= i < n ensures IdOf(entries[i]) in Ids(entries[..n]) {
      assert entries[..n][i] == entries[i];
    }
  }

  lemma {:induction false} FirstIndexPrefix(entries: seq<Entry>, n: nat, id: FilingId)
    requires n <= |entries| && id in Ids(entries[..n])
    ensures id in Ids(entries) && FirstIndex(entries, id) == FirstIndex(entries[..n], id)
  {
    var i := FirstIndex(entries[..n], id);
    assert entries[..n][..i] == entries[..i];
    PrefixMembers(entries, |entries|);
    assert entries[..|entries|] == entries;
    var j := FirstIndex(entries, id);
    PrefixMembers(entries, i);
    PrefixMembers(entries, j);
  }

  /** `new_entries` keeps, in list order, the first occurrence of every id not stored yet, and
      nothing else. */
  lemma {:induction false} FreshIsFirstOccurrences(entries: seq<Entry>, existing: set<FilingId>)
    ensures var r := Fresh(entries, existing);
            && Ids(r) == Ids(entries) - existing
            && (forall k | 0 <= k < |r| ::
                IdOf(r[k]) in Ids(entries) && entries[FirstIndex(entries, IdOf(r[k]))] == r[k])
            && (forall k, l | 0 <= k < l < |r| :: FirstIndex(entries, IdOf(r[k])) < FirstIndex(entries, IdOf(r[l])))
  {
    if entries != [] {
      var n := |entries| - 1;
      var e, before := entries[n], Fresh(entries[..n], existing);
      FreshIsFirstOccurrences(entries[..n], existing);
      IdsPrefix(entries, n);
      assert entries[..n + 1] == entries;
      forall k | 0 <= k < |before| ensures IdOf(before[k]) in Ids(entries[..n])
                                   ensures FirstIndex(entries, IdOf(before[k]))
                                        == FirstIndex(entries[..n], IdOf(before[k])) {
        FirstIndexPrefix(entries, n, IdOf(before[k]));
      }
      var r := Fresh(entries, existing);
      assert r != before ==> r == before + [e] && Ids(r) == Ids(before) + {IdOf(e)};
      assert r != before ==> FirstIndex(entries, IdOf(e)) == n;
    }
  }

  predicate IdsDistinct(entries: seq<Entry>) {
    forall k, l | 0 <= k < l < |entries| :: IdOf(entries[k]) != IdOf(entries[l])
  }

  lemma {:induction false} FreshDistinct(entries: seq<Entry>, existing: set<FilingId>)
    ensures IdsDistinct(Fresh(entries, existing))
  {
    FreshIsFirstOccurrences(entries, existing);
  }

  /** A list of distinct ids, less its last entry. */
  lemma {:induction false} LastOfDistinct(entries: seq<Entry>)
    requires entries != [] && IdsDistinct(entries)
    ensures var n := |entries| - 1;
            && IdsDistinct(entries[..n]) && IdOf(entries[n]) !in Ids(entries[..n])
            && Ids(entries) == Ids(entries[..n]) + {IdOf(entries[n])}
  {
    IdsPrefix(entries, |entries| - 1);
    assert entries[..|entries|] == entries;
  }

  // ---- INSERT ... ON CONFLICT DO NOTHING RETURNING ----

  predicate Grown(before: Table, after: Table) {
    forall id | id in before :: id in after && after[id] == before[id]
  }

  function WithRows(table: Table, entries: seq<Entry>, origin: Origin): Table {
    if entries == [] then table
    else
      var n := |entries| - 1;
      var before := WithRows(table, entries[..n], origin);
      if IdOf(entries[n]) in before then before else before[IdOf(entries[n]) := RowFor(origin, entries[n])]
  }

  /** The entries whose rows were inserted by this statement: those RETURNING reports. */
  function Winners(table: Table, toInsert: seq<Entry>): seq<Entry> {
    if toInsert == [] then []
    else
      var n := |toInsert| - 1;
      Winners(table, toInsert[..n]) + if IdOf(toInsert[n]) in table then [] else [toInsert[n]]
  }

  /** The second half of a call: insert what the first half found missing. */
  function InsertMissing(table: Table, existing: set<FilingId>, entries: seq<Entry>, origin: Origin)
    : (Table, seq<Entry>)
  {
    var toInsert := Fresh(entries, existing);
    (WithRows(table, toInsert, origin), Winners(table, toInsert))
  }

  /** A call nobody interrupts. */
  function InsertAll(table: Table, entries: seq<Entry>, origin: Origin): (Table, seq<Entry>) {
    InsertMissing(table, Ids(entries) * table.Keys, entries, origin)
  }

  class Filings {
    var rows: Table

    constructor ()
      ensures rows == map[]
    {
      rows := map[];
    }

    method InsertOnConflictDoNothing(toInsert: seq<Entry>, origin: Origin) returns (insertedIds: set<FilingId>)
      modifies this
      ensures rows == WithRows(old(rows), toInsert, origin)
      ensures insertedIds == Ids(toInsert) - old(rows).Keys
    {
      insertedIds := {};
      for i := 0 to |toInsert|
        invariant rows == WithRows(old(rows), toInsert[..i], origin)
        invariant rows.Keys == old(rows).Keys + Ids(toInsert[..i])
        invariant insertedIds == Ids(toInsert[..i]) - old(rows).Keys
      {
        assert toInsert[..i + 1][..i] == toInsert[..i];
        IdsPrefix(toInsert, i);
        var id := IdOf(toInsert[i]);
        if id !in rows {
          rows := rows[id := RowFor(origin, toInsert[i])];
          insertedIds := insertedIds + {id};
        }
      }
      assert toInsert[..|toInsert|] == toInsert;
    }

    method InsertNewFilings(entries: seq<Entry>, origin: Origin) returns (inserted: seq<Entry>)
      modifies this
      ensures (rows, inserted) == InsertAll(old(rows), entries, origin)
    {
      var existing := Ids(entries) * rows.Keys;
      var toInsert := NewEntries(entries, existing);
      inserted := [];
      if toInsert == [] {
        return;
      }
      var insertedIds := InsertOnConflictDoNothing(toInsert, origin);
      for i := 0 to |toInsert|
        invariant inserted == Winners(old(rows), toInsert[..i])
      {
        assert toInsert[..i + 1][..i] == toInsert[..i];
        assert toInsert[i] in toInsert;
        if IdOf(toInsert[i]) in insertedIds {
          inserted := inserted + [toInsert[i]];
        }
      }
      assert toInsert[..|toInsert|] == toInsert;
    }
  }

  /** What a new row holds: the id of its chamber, the stamp of its origin, and the status of its kind. A
      backfilled filing is seen at the start of its filed day, to the day; one without a date when the
      backfill ran, to ten years. Only an electronic Senate report is known to be electronic from the index. */
  predicate IsNewRow(row: Row, e: Entry, id: FilingId, origin: Origin) {
    && row.entry == e
    && (match e
        case House(docId, _, _, _) => id == "house:" + docId && row.format == "unknown" && row.parseStatus == "pending"
        case Senate(uuid, _, electronic, _) =>
          && id == "senate:" + uuid
          && row.format == (if electronic then "electronic" else "paper")
          && row.parseStatus == (if electronic then "pending" else "paper_deferred"))
    && match origin
       case Live(now, precision) => row.firstSeenAt == now && row.precision == precision
       case Backfill(clock) =>
         match e.filedDate
         case Some(day) => row.firstSeenAt == day * 24 * 60 * 60 && row.precision == 24 * 60 * 60
         case None => row.firstSeenAt == clock(e) && row.precision == 10 * 365 * 24 * 60 * 60
  }

  /** However stale its snapshot, a call adds for each of its ids the table lacks the row of the first entry
      with that id, changes no row, and returns the entries whose rows it added. */
  lemma {:induction false} InsertedRow(table: Table, existing: set<FilingId>, entries: seq<Entry>, origin: Origin,
                                       id: FilingId)
    requires existing <= table.Keys
    ensures var (after, inserted) := InsertMissing(table, existing, entries, origin);
            && (id in table ==> id in after && after[id] == table[id])
            && (id in after && id !in table ==>
                  && id in Ids(entries) && entries[FirstIndex(entries, id)] in inserted
                  && IsNewRow(after[id], entries[FirstIndex(entries, id)], id, origin))
            && (id in Ids(entries) ==> id in after)
  {
    hide Winners, IsNewRow, WithRows, Fresh, IdOf, RowFor, FirstIndex;
    var toInsert := Fresh(entries, existing);
    FreshIsFirstOccurrences(entries, existing);
    FreshDistinct(entries, existing);
    WithRowsAdds(table, toInsert, origin);
    var after := WithRows(table, toInsert, origin);
    if id in after && id !in table {
      var k :| 0 <= k < |toInsert| && IdOf(toInsert[k]) == id;
      NewRowIs(toInsert[k], origin);
      WinnerIn(table, toInsert, k);
    }
  }

  lemma {:induction false} NewRowIs(e: Entry, origin: Origin)
    ensures IsNewRow(RowFor(origin, e), e, IdOf(e), origin)
  {
    assert e.filedDate.Some? ==> e.filedDate.value * 24 * 60 * 60 == e.filedDate.value * 86_400;
  }

  lemma {:induction false} WinnerIn(table: Table, toInsert: seq<Entry>, k: nat)
    requires k < |toInsert| && IdOf(toInsert[k]) !in table
    ensures toInsert[k] in Winners(table, toInsert)
  {
    var n := |toInsert| - 1;
    if k < n {
      WinnerIn(table, toInsert[..n], k);
    }
  }

  predicate RowsOf(t: Table, table: Table, entries: seq<Entry>, origin: Origin) {
    forall k | 0 <= k < |entries| && IdOf(entries[k]) !in table ::
      IdOf(entries[k]) in t && t[IdOf(entries[k])] == RowFor(origin, entries[k])
  }

  lemma {:induction false} WithRowsAdds(table: Table, entries: seq<Entry>, origin: Origin)
    requires IdsDistinct(entries)
    ensures var t := WithRows(table, entries, origin);
            t.Keys == table.Keys + Ids(entries) && Grown(table, t) && RowsOf(t, table, entries, origin)
  {
    if entries == [] {
      assert Ids(entries) == {};
    } else {
      var n := |entries| - 1;
      var before := WithRows(table, entries[..n], origin);
      WithRowsAdds(table, entries[..n], origin);
      LastOfDistinct(entries);
      PrefixMembers(entries, n);
      RowsOfOneMore(before, table, entries, origin);
    }
  }

  lemma {:induction false} RowsOfOneMore(t: Table, table: Table, entries: seq<Entry>, origin: Origin)
    requires entries != [] && IdsDistinct(entries) && RowsOf(t, table, entries[..|entries| - 1], origin)
    ensures RowsOf(t[IdOf(entries[|entries| - 1]) := RowFor(origin, entries[|entries| - 1])], table, entries, origin)
    ensures IdOf(entries[|entries| - 1]) in table ==> RowsOf(t, table, entries, origin)
  {
    hide RowFor, IdOf;
    assert forall k | 0 <= k < |entries| - 1 :: entries[..|entries| - 1][k] == entries[k];
  }

  lemma {:induction false} SetAsBag<T>(a: set<T>, x: T)
    requires x !in a
    ensures multiset(a + {x}) == multiset(a) + multiset{x}
  {
  }

  lemma {:induction false} IdSeqAppend(entries: seq<Entry>, e: Entry)
    ensures multiset(IdSeq(entries + [e])) == multiset(IdSeq(entries)) + multiset{IdOf(e)}
    ensures Ids(entries + [e]) == Ids(entries) + {IdOf(e)}
  {
    assert IdSeq(entries + [e]) == IdSeq(entries) + [IdOf(e)];
  }

  lemma {:induction false} WinnersAre(table: Table, toInsert: seq<Entry>)
    requires IdsDistinct(toInsert)
    ensures multiset(IdSeq(Winners(table, toInsert))) == multiset(Ids(toInsert) - table.Keys)
    ensures Ids(Winners(table, toInsert)) == Ids(toInsert) - table.Keys
  {
    hide Ids, IdSeq, IdOf, IdsDistinct;
    if toInsert == [] {
      NoIds();
    } else {
      var n := |toInsert| - 1;
      var before, e := Winners(table, toInsert[..n]), toInsert[n];
      LastOfDistinct(toInsert);
      WinnersAre(table, toInsert[..n]);
      if IdOf(e) !in table {
        IdSeqAppend(before, e);
        SetAsBag(Ids(before), IdOf(e));
        assert Ids(toInsert) - table.Keys == Ids(before) + {IdOf(e)};
      } else {
        assert Ids(toInsert) - table.Keys == Ids(before);
        assert before + [] == before;
      }
    }
  }

  lemma {:induction false} NoIds()
    ensures Ids([]) == {} && IdSeq([]) == []
  {
  }

  // ---- any interleaving of calls ----

  datatype Call = Call(entries: seq<Entry>, origin: Origin)

  /** Between its read and its insert a call holds a snapshot that other calls make stale. */
  datatype Phase = Waiting | HasRead(existing: set<FilingId>) | Done(inserted: seq<Entry>) | Aborted

  datatype State = State(table: Table, phases: seq<Phase>)

  datatype Step = Read | Insert | Abort

  ghost predicate Init(calls: seq<Call>, table: Table, s: State) {
    s.table == table && |s.phases| == |calls| && forall c | 0 <= c < |calls| :: s.phases[c] == Waiting
  }

  /** One call takes a step; the insert statement and its commit are atomic, and a call that fails
      before its commit leaves nothing behind. */
  ghost predicate Next(calls: seq<Call>, s: State, c: nat, step: Step, s': State) {
    && c < |calls| == |s.phases|
    && match step
       case Read =>
         s.phases[c] == Waiting
         && s' == State(s.table, s.phases[c := HasRead(Ids(calls[c].entries) * s.table.Keys)])
       case Insert =>
         s.phases[c].HasRead?
         && var (table, inserted) := InsertMissing(s.table, s.phases[c].existing, calls[c].entries, calls[c].origin);
            s' == State(table, s.phases[c := Done(inserted)])
       case Abort =>
         (s.phases[c].Waiting? || s.phases[c].HasRead?) && s' == State(s.table, s.phases[c := Aborted])
  }

  ghost predicate Run(calls: seq<Call>, table: Table, states: seq<State>) {
    && states != [] && Init(calls, table, states[0])
    && forall i | 0 <= i < |states| - 1 :: Moves(calls, states[i], states[i + 1])
  }

  ghost predicate Moves(calls: seq<Call>, s: State, s': State) {
    exists c: nat, step :: Next(calls, s, c, step, s')
  }

  function Returned(p: Phase): multiset<FilingId> {
    if p.Done? then multiset(IdSeq(p.inserted)) else multiset{}
  }

  /** Every id every call has returned so far, with multiplicity. */
  function AllReturned(phases: seq<Phase>): multiset<FilingId> {
    if phases == [] then multiset{}
    else AllReturned(phases[..|phases| - 1]) + Returned(phases[|phases| - 1])
  }

  /** The row of an id is the one made from that call's first entry with it. */
  predicate Inserted(calls: seq<Call>, s: State, c: nat, id: FilingId) {
    && c < |calls| == |s.phases| && s.phases[c].Done? && id in Ids(s.phases[c].inserted)
    && id in Ids(calls[c].entries) && id in s.table
    && s.table[id] == RowFor(calls[c].origin, calls[c].entries[FirstIndex(calls[c].entries, id)])
  }

  predicate PhaseOk(call: Call, p: Phase, table: Table) {
    && (p.HasRead? ==> p.existing <= table.Keys)
    && (p.Done? ==> Ids(call.entries) <= table.Keys)
  }

  ghost predicate Inv(calls: seq<Call>, table: Table, s: State) {
    && |s.phases| == |calls|
    && Grown(table, s.table)
    && (forall c | 0 <= c < |calls| :: PhaseOk(calls[c], s.phases[c], s.table))
    && AllReturned(s.phases) == multiset(s.table.Keys - table.Keys)
    && Attributed(calls, table, s)
  }

  /** Some call inserted every row that was not there to begin with. */
  ghost predicate Attributed(calls: seq<Call>, table: Table, s: State) {
    forall id | id in s.table && id !in table :: exists c: nat :: Inserted(calls, s, c, id)
  }

  lemma {:induction false} NothingYet(p: Phase)
    requires !p.Done?
    ensures Returned(p) == multiset{}
  {
  }

  lemma {:induction false} ReturnedUpdate(phases: seq<Phase>, c: nat, p: Phase)
    requires c < |phases| && !phases[c].Done?
    ensures AllReturned(phases[c := p]) == AllReturned(phases) + Returned(p)
  {
    hide Returned;
    NothingYet(phases[c]);
    var n := |phases| - 1;
    if c < n {
      ReturnedUpdate(phases[..n], c, p);
      assert phases[c := p][..n] == phases[..n][c := p];
    } else {
      assert phases[c := p][..n] == phases[..n];
    }
  }

  lemma {:induction false} NothingReturned(phases: seq<Phase>)
    requires forall c | 0 <= c < |phases| :: phases[c] == Waiting
    ensures AllReturned(phases) == multiset{}
  {
    if phases != [] {
      NothingReturned(phases[..|phases| - 1]);
    }
  }

  /** What one insert adds: a call's own ids are all present afterwards, and it returns exactly the
      ones nobody had inserted before, each once. */
  lemma {:induction false} InsertAdds(table: Table, existing: set<FilingId>, entries: seq<Entry>, origin: Origin)
    requires existing <= table.Keys
    ensures var (after, inserted) := InsertMissing(table, existing, entries, origin);
            && Grown(table, after) && Ids(entries) <= after.Keys
            && Ids(inserted) == after.Keys - table.Keys <= Ids(entries)
            && multiset(IdSeq(inserted)) == multiset(after.Keys - table.Keys)
            && (forall id | id in after && id !in table ::
                  id in Ids(entries) && after[id] == RowFor(origin, entries[FirstIndex(entries, id)]))
  {
    var toInsert := Fresh(entries, existing);
    var after := WithRows(table, toInsert, origin);
    FreshDistinct(entries, existing);
    FreshIsFirstOccurrences(entries, existing);
    WithRowsAdds(table, toInsert, origin);
    WinnersAre(table, toInsert);
    assert after.Keys - table.Keys == Ids(toInsert) - table.Keys;
    forall id | id in after && id !in table
      ensures id in Ids(entries) && after[id] == RowFor(origin, entries[FirstIndex(entries, id)])
    {
      assert id in Ids(toInsert);
      var e :| e in toInsert && IdOf(e) == id;
      var k :| 0 <= k < |toInsert| && toInsert[k] == e;
    }
  }

  lemma {:induction false} InsertedStays(calls: seq<Call>, s: State, c: nat, p: Phase, t: Table, d: nat, id: FilingId)
    requires Inserted(calls, s, d, id) && c < |s.phases| && !s.phases[c].Done? && Grown(s.table, t)
    ensures Inserted(calls, State(t, s.phases[c := p]), d, id)
  {
    hide Ids, RowFor;
  }

  lemma {:induction false} AttributedStays(calls: seq<Call>, table: Table, s: State, c: nat, p: Phase)
    requires Attributed(calls, table, s) && c < |s.phases| && !s.phases[c].Done?
    ensures Attributed(calls, table, State(s.table, s.phases[c := p]))
  {
    hide Inserted;
    var s' := State(s.table, s.phases[c := p]);
    forall id | id in s.table && id !in table ensures exists d: nat :: Inserted(calls, s', d, id) {
      var d: nat :| Inserted(calls, s, d, id);
      InsertedStays(calls, s, c, p, s.table, d, id);
    }
  }

  lemma {:induction false} AttributedAfterInsert(calls: seq<Call>, table: Table, s: State, c: nat, s': State)
    requires Attributed(calls, table, s) && Next(calls, s, c, Insert, s') && s.phases[c].existing <= s.table.Keys
    ensures Attributed(calls, table, s')
  {
    hide Inserted, InsertMissing, Ids, IdSeq, RowFor;
    InsertAdds(s.table, s.phases[c].existing, calls[c].entries, calls[c].origin);
    forall id | id in s'.table && id !in table ensures exists d: nat :: Inserted(calls, s', d, id) {
      if id in s.table {
        var d: nat :| Inserted(calls, s, d, id);
        InsertedStays(calls, s, c, s'.phases[c], s'.table, d, id);
      } else {
        assert id in s'.table.Keys - s.table.Keys;
        InsertedNow(calls, s', c, id);
      }
    }
  }

  lemma {:induction false} PhasesStay(calls: seq<Call>, table: Table, s: State, t: Table)
    requires Inv(calls, table, s) && Grown(s.table, t)
    ensures Grown(table, t) && forall c | 0 <= c < |calls| :: PhaseOk(calls[c], s.phases[c], t)
  {
    hide Ids, Attributed, AllReturned;
    assert s.table.Keys <= t.Keys;
    assert forall c | 0 <= c < |calls| :: PhaseOk(calls[c], s.phases[c], s.table);
  }

  lemma {:induction false} InsertKeepsInv(calls: seq<Call>, table: Table, s: State, c: nat, s': State)
    requires Inv(calls, table, s) && Next(calls, s, c, Insert, s')
    ensures Inv(calls, table, s') && Grown(s.table, s'.table)
  {
    hide InsertMissing, AllReturned, Ids, RowFor, IdSeq, Attributed;
    assert PhaseOk(calls[c], s.phases[c], s.table);
    InsertAdds(s.table, s.phases[c].existing, calls[c].entries, calls[c].origin);
    PhasesStay(calls, table, s, s'.table);
    ReturnedUpdate(s.phases, c, s'.phases[c]);
    NewIds(table.Keys, s.table.Keys, s'.table.Keys);
    AttributedAfterInsert(calls, table, s, c, s');
  }

  lemma {:induction false} InsertedNow(calls: seq<Call>, s: State, c: nat, id: FilingId)
    requires c < |calls| == |s.phases| && s.phases[c].Done? && id in Ids(s.phases[c].inserted)
    requires id in Ids(calls[c].entries) && id in s.table
    requires s.table[id] == RowFor(calls[c].origin, calls[c].entries[FirstIndex(calls[c].entries, id)])
    ensures Inserted(calls, s, c, id)
  {
  }

  lemma {:induction false} NewIds<T>(a: set<T>, b: set<T>, c: set<T>)
    requires a <= b <= c
    ensures multiset(c - a) == multiset(b - a) + multiset(c - b)
  {
  }

  lemma {:induction false} StepKeepsInv(calls: seq<Call>, table: Table, s: State, c: nat, step: Step, s': State)
    requires Inv(calls, table, s) && Next(calls, s, c, step, s')
    ensures Inv(calls, table, s') && Grown(s.table, s'.table)
  {
    hide InsertMissing, AllReturned, Ids, RowFor, Attributed;
    if step.Insert? {
      InsertKeepsInv(calls, table, s, c, s');
    } else {
      ReturnedUpdate(s.phases, c, s'.phases[c]);
      AttributedStays(calls, table, s, c, s'.phases[c]);
    }
  }

  lemma {:induction false} RunKeepsInv(calls: seq<Call>, table: Table, states: seq<State>, i: nat)
    requires Run(calls, table, states) && i < |states|
    ensures Inv(calls, table, states[i])
  {
    hide Inv, Next;
    if i == 0 {
      InitInv(calls, table, states[0]);
    } else {
      RunKeepsInv(calls, table, states, i - 1);
      assert Moves(calls, states[i - 1], states[i - 1 + 1]);
      var c: nat, step :| Next(calls, states[i - 1], c, step, states[i]);
      StepKeepsInv(calls, table, states[i - 1], c, step, states[i]);
    }
  }

  lemma {:induction false} InitInv(calls: seq<Call>, table: Table, s: State)
    requires Init(calls, table, s)
    ensures Inv(calls, table, s)
  {
    NothingReturned(s.phases);
    assert table.Keys - table.Keys == {};
  }

  /** A row once stored is never changed or removed, whoever comes later. */
  lemma {:induction false} RowsNeverChange(calls: seq<Call>, table: Table, states: seq<State>, i: nat, j: nat)
    requires Run(calls, table, states) && i <= j < |states|
    ensures Grown(states[i].table, states[j].table)
    decreases j - i
  {
    hide Inv, Next;
    if i < j {
      RowsNeverChange(calls, table, states, i, j - 1);
      RunKeepsInv(calls, table, states, j - 1);
      assert Moves(calls, states[j - 1], states[j - 1 + 1]);
      var c: nat, step :| Next(calls, states[j - 1], c, step, states[j]);
      StepKeepsInv(calls, table, states[j - 1], c, step, states[j]);
    }
  }

  lemma {:induction false} ReturnedOnce(phases: seq<Phase>, c: nat, id: FilingId)
    requires c < |phases|
    ensures AllReturned(phases)[id] >= Returned(phases[c])[id]
  {
    hide Returned;
    var n := |phases| - 1;
    if c < n {
      ReturnedOnce(phases[..n], c, id);
    }
  }

  lemma {:induction false} ReturnedTwice(phases: seq<Phase>, c: nat, d: nat, id: FilingId)
    requires c < d < |phases|
    ensures AllReturned(phases)[id] >= Returned(phases[c])[id] + Returned(phases[d])[id]
  {
    hide Returned;
    var n := |phases| - 1;
    if d < n {
      ReturnedTwice(phases[..n], c, d, id);
    } else {
      ReturnedOnce(phases[..n], c, id);
    }
  }

  /** Exactly-once insertion, at every moment of every interleaving: a filing is returned by exactly
      one call, once, if it is stored and was not to begin with, and by none otherwise; that call's
      own first entry and clock made the row; and a call that returns leaves all it fetched stored. */
  lemma {:induction false} ExactlyOnce(calls: seq<Call>, table: Table, states: seq<State>, i: nat, id: FilingId)
    requires Run(calls, table, states) && i < |states|
    ensures var s := states[i];
            && |s.phases| == |calls|
            && AllReturned(s.phases)[id] == (if id in s.table && id !in table then 1 else 0)
            && (forall c | 0 <= c < |calls| && s.phases[c].Done? && id in Ids(calls[c].entries) :: id in s.table)
            && (id in s.table && id !in table ==>
                  exists c: nat :: Inserted(calls, s, c, id) && OnlyReturnedBy(s.phases, c, id))
  {
    hide Run, Ids, RowFor, IdSeq, AllReturned, OnlyReturnedBy;
    RunKeepsInv(calls, table, states, i);
    var s := states[i];
    assert forall c | 0 <= c < |calls| :: PhaseOk(calls[c], s.phases[c], s.table);
    if id in s.table && id !in table {
      var c: nat :| Inserted(calls, s, c, id);
      MemberReturned(s.phases[c].inserted, id);
      ReturnedBy(s.phases, c, id);
    }
  }

  predicate OnlyReturnedBy(phases: seq<Phase>, c: nat, id: FilingId) {
    && c < |phases| && Returned(phases[c])[id] == 1
    && forall d | 0 <= d < |phases| && d != c :: Returned(phases[d])[id] == 0
  }

  lemma {:induction false} ReturnedBy(phases: seq<Phase>, c: nat, id: FilingId)
    requires c < |phases| && Returned(phases[c])[id] >= 1 >= AllReturned(phases)[id]
    ensures OnlyReturnedBy(phases, c, id)
  {
    hide Returned, AllReturned;
    ReturnedOnce(phases, c, id);
    forall d | 0 <= d < |phases| && d != c ensures Returned(phases[d])[id] == 0 {
      if d < c {
        ReturnedTwice(phases, d, c, id);
      } else {
        ReturnedTwice(phases, c, d, id);
      }
    }
  }

  lemma {:induction false} MemberReturned(inserted: seq<Entry>, id: FilingId)
    requires id in Ids(inserted)
    ensures multiset(IdSeq(inserted))[id] >= 1
  {
    var e :| e in inserted && IdOf(e) == id;
    var k :| 0 <= k < |inserted| && inserted[k] == e;
    assert IdSeq(inserted)[k] == id;
    assert id in multiset(IdSeq(inserted));
  }

  /** The two chambers never meet: a House id is never a Senate one. */
  lemma {:induction false} ChambersApart(e: Entry, f: Entry)
    requires IdOf(e) == IdOf(f)
    ensures e.House? <==> f.House?
    ensures e.House? ==> e.docId == f.docId
    ensures e.Senate? ==> e.reportUuid == f.reportUuid
  {
    assert IdOf(e)[0] == IdOf(f)[0];
    if e.House? {
      assert IdOf(e)[6..] == e.docId && IdOf(f)[6..] == f.docId;
    } else {
      assert IdOf(e)[7..] == e.reportUuid && IdOf(f)[7..] == f.reportUuid;
    }
  }
}
