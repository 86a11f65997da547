/** The community archive (`ingest/community_archive.py`): imports, re-matching against our own
    filings, and the survivorship report. */
module Community {
  import opened Optional

  datatype Record = Record(source: string, externalId: Option<string>, content: string)

  datatype Row = Row(record: Record, matched: Option<string>)

  /** `(source, dedup_key)`, unique in the table. */
  type Key = (string, string)

  type Table = map<Key, Row>

  /** The content hash of a record, as a given function. */
  type Hash = Record -> string

  function KeyOf(r: Record, hash: Hash): Key {
    (r.source, hash(r))
  }

  predicate Known(externalId: Option<string>, filings: set<string>) {
    externalId.Some? && externalId.value != "" && externalId.value in filings
  }

  function RowFor(r: Record, filings: set<string>): Row {
    Row(r, if Known(r.externalId, filings) then r.externalId else None)
  }

  // ---- importing ----

  /** Adds each record whose key is not there yet, in order. */
  function Imported(table: Table, records: seq<Record>, hash: Hash, filings: set<string>): Table {
    if records == [] then table
    else
      var r := records[|records| - 1];
      var before := Imported(table, records[..|records| - 1], hash, filings);
      if KeyOf(r, hash) in before then before else before[KeyOf(r, hash) := RowFor(r, filings)]
  }

  lemma {:induction false} ImportedConcat(table: Table, a: seq<Record>, b: seq<Record>, hash: Hash,
                                          filings: set<string>)
    ensures Imported(table, a + b, hash, filings) == Imported(Imported(table, a, hash, filings), b, hash, filings)
    decreases |b|
  {
    if b == [] {
      assert a + b == a;
    } else {
      ImportedConcat(table, a, b[..|b| - 1], hash, filings);
      assert (a + b)[..|a + b| - 1] == a + b[..|b| - 1];
    }
  }

  function KeysOf(records: seq<Record>, hash: Hash): set<Key> {
    set r | r in records :: KeyOf(r, hash)
  }

  lemma {:induction false} KeysSnoc(records: seq<Record>, hash: Hash)
    requires records != []
    ensures KeysOf(records, hash) == KeysOf(records[..|records| - 1], hash) + {KeyOf(records[|records| - 1], hash)}
  {
    assert records == records[..|records| - 1] + [records[|records| - 1]];
  }

  /** Where a key first occurs. */
  function FirstIndex(records: seq<Record>, k: Key, hash: Hash): (i: nat)
    requires k in KeysOf(records, hash)
    ensures i < |records| && KeyOf(records[i], hash) == k && forall j | 0 <= j < i :: KeyOf(records[j], hash) != k
  {
    var n := |records| - 1;
    KeysSnoc(records, hash);
    if k in KeysOf(records[..n], hash) then FirstIndex(records[..n], k, hash)
    else
      assert forall j | 0 <= j < n :: records[j] in records[..n];
      n
  }

  /** The row names its external id as matched exactly when that is not empty and one of our filings. */
  predicate MatchedRight(row: Row, filings: set<string>) {
    var id := row.record.externalId;
    row.matched == if id.Some? && id.value != "" && id.value in filings then id else None
  }

  /** An import keeps every stored row, adds one row per new key, and that row is made from the first
      record with the key, under its source and hash. */
  lemma {:induction false} ImportedIs(table: Table, records: seq<Record>, hash: Hash, filings: set<string>)
    ensures var t := Imported(table, records, hash, filings);
            && t.Keys == table.Keys + KeysOf(records, hash)
            && (forall k | k in table :: t[k] == table[k])
            && (forall k | k in t && k !in table ::
                  && k in KeysOf(records, hash) && t[k].record == records[FirstIndex(records, k, hash)]
                  && k == (t[k].record.source, hash(t[k].record)) && MatchedRight(t[k], filings))
  {
    if records == [] {
      assert KeysOf(records, hash) == {};
    } else {
      var n := |records| - 1;
      ImportedIs(table, records[..n], hash, filings);
      KeysSnoc(records, hash);
    }
  }

  /** Importing the same records again, whatever filings have arrived since, adds nothing. */
  lemma {:induction false} ReimportIdle(table: Table, records: seq<Record>, hash: Hash, filings: set<string>,
                                        later: set<string>)
    ensures var t := Imported(table, records, hash, filings);
            Imported(t, records, hash, later) == t
  {
    var t := Imported(table, records, hash, filings);
    ImportedIs(table, records, hash, filings);
    ImportedIs(t, records, hash, later);
  }

  class Archive {
    var table: Table

    constructor ()
      ensures table == map[]
    {
      table := map[];
    }

    /** One session: reads the stored keys of `source`, then adds the rows all at once. */
    method ImportChunk(chunk: seq<Record>, source: string, hash: Hash, filings: set<string>) returns (count: nat)
      requires forall r | r in chunk :: r.source == source
      modifies this
      ensures table == Imported(old(table), chunk, hash, filings)
      ensures count == |table| - |old(table)|
    {
      hide Imported, RowFor, Adding;
      var existingKeys := set k | k in table && k.0 == source :: k.1;
      var seenInBatch: set<string> := {};
      var rows: Table := map[];
      NothingAdded(table, source, hash, filings);
      for i := 0 to |chunk|
        invariant table == old(table)
        invariant Adding(table, chunk[..i], source, hash, filings, seenInBatch, rows)
      {
        assert chunk[i] in chunk;
        var key := hash(chunk[i]);
        InExisting(table, source, key);
        if key in existingKeys || key in seenInBatch {
          SkipRow(table, chunk, i, source, hash, filings, seenInBatch, rows);
          continue;
        }
        AddRow(table, chunk, i, source, hash, filings, seenInBatch, rows);
        seenInBatch := seenInBatch + {key};
        rows := rows[(source, key) := RowFor(chunk[i], filings)];
      }
      assert chunk[..|chunk|] == chunk;
      AllAdded(table, chunk, source, hash, filings, seenInBatch, rows);
      table := table + rows;
      count := |rows|;
    }

    /** The same table and the same total for every chunk size. */
    method ImportRecords(records: seq<Record>, source: string, hash: Hash, filings: set<string>,
                         chunkSize: nat) returns (imported: nat)
      requires chunkSize > 0 && forall r | r in records :: r.source == source
      modifies this
      ensures table == Imported(old(table), records, hash, filings)
      ensures imported == |table| - |old(table)|
    {
      imported := 0;
      var start := 0;
      while start < |records|
        invariant start <= |records|
        invariant table == Imported(old(table), records[..start], hash, filings)
        invariant imported == |table| - |old(table)|
      {
        var end := if start + chunkSize <= |records| then start + chunkSize else |records|;
        var n := ImportChunk(records[start..end], source, hash, filings);
        imported := imported + n;
        ImportedConcat(old(table), records[..start], records[start..end], hash, filings);
        assert records[..end] == records[..start] + records[start..end];
        start := end;
      }
      assert records[..start] == records;
    }

    /** Re-checks every row still missing a match. */
    method RematchUnmatched(filings: set<string>) returns (updated: nat)
      modifies this
      ensures table == Rematched(old(table), filings)
      ensures updated == |NewlyMatched(old(table), filings)|
    {
      hide Known, Rechecked, Rematched, NewlyMatched;
      var pending := Unmatched(table);
      NothingRechecked(table, filings);
      ghost var before := table;
      updated := 0;
      while pending != {}
        invariant Rechecked(before, filings, pending, table, updated)
        decreases |pending|
      {
        var k :| k in pending;
        RecheckOne(before, filings, pending, table, updated, k);
        if Known(table[k].record.externalId, filings) {
          table := table[k := table[k].(matched := table[k].record.externalId)];
          updated := updated + 1;
        }
        pending := pending - {k};
      }
      AllRechecked(before, filings, table, updated);
    }

    /** Counts, per source, the distinct pairs of external id and matched id. */
    method SurvivorshipReport() returns (report: map<string, (nat, nat)>)
      ensures forall s :: s in report <==> ExternalIds(table, s) != {}
      ensures forall s | s in report :: report[s] == (|MatchedOf(Triples(table), s)|, |UnmatchedOf(Triples(table), s)|)
    {
      hide Triples, Of, MatchedOf, UnmatchedOf, ExternalIds, Counted;
      var rows := Triples(table);
      NothingCounted();
      ghost var done: set<Triple> := {};
      ghost var all := rows;
      report := map[];
      while rows != {}
        invariant rows + done == all && rows !! done
        invariant Counted(report, done)
        decreases |rows|
      {
        var r :| r in rows;
        rows := rows - {r};
        CountOneMore(report, done, r);
        var bucket := if r.0 in report then report[r.0] else (0, 0);
        report := report[r.0 := if r.2.Some? then (bucket.0 + 1, bucket.1) else (bucket.0, bucket.1 + 1)];
        done := done + {r};
      }
      assert done == all;
      AllCounted(report, table);
    }
  }

  /** The rows collected so far would complete the import of the records seen so far. */
  ghost predicate Adding(table: Table, records: seq<Record>, source: string, hash: Hash, filings: set<string>,
                         seen: set<string>, rows: Table)
  {
    && table + rows == Imported(table, records, hash, filings)
    && rows.Keys !! table.Keys
    && (forall s :: s in seen <==> (source, s) in rows)
  }

  lemma {:induction false} NothingAdded(table: Table, source: string, hash: Hash, filings: set<string>)
    ensures Adding(table, [], source, hash, filings, {}, map[])
  {
    assert table + map[] == table;
  }

  lemma {:induction false} SkipRow(table: Table, chunk: seq<Record>, i: nat, source: string, hash: Hash,
                                   filings: set<string>,
                                   seen: set<string>, rows: Table)
    requires i < |chunk| && chunk[i].source == source && Adding(table, chunk[..i], source, hash, filings, seen, rows)
    requires (source, hash(chunk[i])) in table || hash(chunk[i]) in seen
    ensures Adding(table, chunk[..i + 1], source, hash, filings, seen, rows)
  {
    assert chunk[..i + 1][..i] == chunk[..i];
    assert KeyOf(chunk[i], hash) in table + rows;
  }

  lemma {:induction false} AddRow(table: Table, chunk: seq<Record>, i: nat, source: string, hash: Hash,
                                  filings: set<string>,
                                  seen: set<string>, rows: Table)
    requires i < |chunk| && chunk[i].source == source && Adding(table, chunk[..i], source, hash, filings, seen, rows)
    requires (source, hash(chunk[i])) !in table && hash(chunk[i]) !in seen
    ensures Adding(table, chunk[..i + 1], source, hash, filings, seen + {hash(chunk[i])},
                   rows[(source, hash(chunk[i])) := RowFor(chunk[i], filings)])
  {
    hide RowFor;
    var k, row := KeyOf(chunk[i], hash), RowFor(chunk[i], filings);
    assert chunk[..i + 1][..i] == chunk[..i];
    assert k !in table + rows;
    assert table + rows[k := row] == (table + rows)[k := row];
  }

  lemma {:induction false} AllAdded(table: Table, chunk: seq<Record>, source: string, hash: Hash, filings: set<string>,
                                    seen: set<string>, rows: Table)
    requires Adding(table, chunk, source, hash, filings, seen, rows)
    ensures table + rows == Imported(table, chunk, hash, filings) && |table + rows| == |table| + |rows|
  {
    AddedSize(table, rows);
  }

  lemma {:induction false} InExisting(table: Table, source: string, key: string)
    ensures (key in set k | k in table && k.0 == source :: k.1) <==> (source, key) in table
  {
    if (source, key) in table {
      var k := (source, key);
      assert k in table && k.0 == source && k.1 == key;
    }
  }

  lemma {:induction false} AddedSize(table: Table, rows: Table)
    requires rows.Keys !! table.Keys
    ensures |table + rows| == |table| + |rows|
  {
    assert (table + rows).Keys == table.Keys + rows.Keys;
    assert |table + rows| == |(table + rows).Keys|;
    assert |table| == |table.Keys| && |rows| == |rows.Keys|;
  }

  // ---- matching ----

  function Rematched(table: Table, filings: set<string>): Table {
    map k | k in table ::
      if table[k].matched.None?
            && Known(table[k].record.externalId, filings) then table[k].(matched := table[k].record.externalId)
      else table[k]
  }

  function NewlyMatched(table: Table, filings: set<string>): set<Key> {
    set k | k in table && table[k].matched.None? && Known(table[k].record.externalId, filings)
  }

  /** The rows `rematch_unmatched` looks at. */
  function Unmatched(table: Table): set<Key> {
    set k | k in table && table[k].matched.None? && table[k].record.externalId.Some?
  }

  /** The rows no longer pending are as a re-match leaves them; the pending ones are untouched. */
  ghost predicate Rechecked(before: Table, filings: set<string>, pending: set<Key>, now: Table, updated: nat) {
    && pending <= Unmatched(before) && now.Keys == before.Keys
    && (forall k | k in before :: now[k] == if k in pending then before[k] else Rematched(before, filings)[k])
    && updated == |NewlyMatched(before, filings) - pending|
  }

  lemma {:induction false} NothingRechecked(table: Table, filings: set<string>)
    ensures Rechecked(table, filings, Unmatched(table), table, 0)
  {
    assert NewlyMatched(table, filings) - Unmatched(table) == {};
  }

  lemma {:induction false} RecheckOne(before: Table, filings: set<string>, pending: set<Key>, now: Table,
                                      updated: nat, k: Key)
    requires Rechecked(before, filings, pending, now, updated) && k in pending
    ensures k in now
    ensures var known := Known(now[k].record.externalId, filings);
            Rechecked(before, filings, pending - {k},
                      if known then now[k := now[k].(matched := now[k].record.externalId)] else now,
                      if known then updated + 1 else updated)
  {
    hide Known;
    var all := NewlyMatched(before, filings);
    assert all - (pending - {k}) == (all - pending) + if k in all then {k} else {};
  }

  lemma {:induction false} AllRechecked(before: Table, filings: set<string>, now: Table, updated: nat)
    requires Rechecked(before, filings, {}, now, updated)
    ensures now == Rematched(before, filings) && updated == |NewlyMatched(before, filings)|
  {
    assert NewlyMatched(before, filings) - {} == NewlyMatched(before, filings);
  }

  /** A match names the row's own external id, and that filing exists. */
  predicate MatchesSound(table: Table, filings: set<string>) {
    forall k | k in table && table[k].matched.Some? ::
      && table[k].matched == table[k].record.externalId
      && table[k].matched.value != "" && table[k].matched.value in filings
  }

  predicate MatchesExact(table: Table, filings: set<string>) {
    forall k | k in table :: MatchedRight(table[k], filings)
  }

  /** Matches stay sound through imports, re-matching and newly arriving filings. */
  lemma {:induction false} MatchesStaySound(table: Table, records: seq<Record>, hash: Hash, filings: set<string>,
                                            more: set<string>)
    requires MatchesSound(table, filings)
    ensures MatchesSound(Imported(table, records, hash, filings), filings)
    ensures MatchesSound(Rematched(table, filings), filings)
    ensures MatchesSound(table, filings + more)
  {
    ImportedIs(table, records, hash, filings);
  }

  /** After a re-match a row is matched if and only if its filing is among ours, and a second one
      finds nothing to do. */
  lemma {:induction false} RematchedExact(table: Table, filings: set<string>)
    requires MatchesSound(table, filings)
    ensures MatchesExact(Rematched(table, filings), filings)
    ensures NewlyMatched(Rematched(table, filings), filings) == {}
  {
  }

  /** Re-matching commutes with importing: nothing is lost by importing before the filings arrive. */
  lemma {:induction false} ImportThenRematch(table: Table, records: seq<Record>, hash: Hash, filings: set<string>,
                                             more: set<string>)
    ensures Rematched(Imported(table, records, hash, filings), filings + more)
         == Imported(Rematched(table, filings + more), records, hash, filings + more)
  {
    var early := Imported(table, records, hash, filings);
    var late := Imported(Rematched(table, filings + more), records, hash, filings + more);
    ImportedIs(table, records, hash, filings);
    ImportedIs(Rematched(table, filings + more), records, hash, filings + more);
    forall k | k in early ensures Rematched(early, filings + more)[k] == late[k] {
    }
  }

  // ---- survivorship ----

  type Triple = (string, string, Option<string>)

  /** `SELECT DISTINCT source, external id, matched id`, for rows with an external id. */
  function Triples(table: Table): set<Triple> {
    set k | k in table && table[k].record.externalId.Some? ::
      (table[k].record.source, table[k].record.externalId.value, table[k].matched)
  }

  function Of(triples: set<Triple>, source: string): set<Triple> {
    set t | t in triples && t.0 == source
  }

  function MatchedOf(triples: set<Triple>, source: string): set<Triple> {
    set t | t in triples && t.0 == source && t.2.Some?
  }

  function UnmatchedOf(triples: set<Triple>, source: string): set<Triple> {
    set t | t in triples && t.0 == source && t.2.None?
  }

  ghost predicate Counted(report: map<string, (nat, nat)>, done: set<Triple>) {
    && (forall s :: s in report <==> Of(done, s) != {})
    && (forall s | s in report :: report[s] == (|MatchedOf(done, s)|, |UnmatchedOf(done, s)|))
  }

  lemma {:induction false} NothingCounted()
    ensures Counted(map[], {})
  {
  }

  lemma {:induction false} AllCounted(report: map<string, (nat, nat)>, table: Table)
    requires Counted(report, Triples(table))
    ensures forall s :: s in report <==> ExternalIds(table, s) != {}
    ensures forall s | s in report :: report[s] == (|MatchedOf(Triples(table), s)|, |UnmatchedOf(Triples(table), s)|)
  {
    hide Triples, Of, MatchedOf, UnmatchedOf, ExternalIds;
    forall s ensures s in report <==> ExternalIds(table, s) != {} {
      SourcesNamed(table, s);
    }
  }

  lemma {:induction false} OneMoreAt(done: set<Triple>, r: Triple, s: string)
    requires r !in done
    ensures Of(done + {r}, s) == if s == r.0 then Of(done, s) + {r} else Of(done, s)
    ensures |MatchedOf(done + {r}, s)| == |MatchedOf(done, s)| + (if s == r.0 && r.2.Some? then 1 else 0)
    ensures |UnmatchedOf(done + {r}, s)| == |UnmatchedOf(done, s)| + (if s == r.0 && r.2.None? then 1 else 0)
    ensures Of(done, s) == {} ==> |MatchedOf(done, s)| == 0 && |UnmatchedOf(done, s)| == 0
  {
    hide Of, MatchedOf, UnmatchedOf;
    OfMore(done, r, s);
    MatchedMore(done, r, s);
    UnmatchedMore(done, r, s);
    if Of(done, s) == {} {
      NoneOf(done, s);
    }
  }

  lemma {:induction false} NoneOf(done: set<Triple>, s: string)
    requires Of(done, s) == {}
    ensures MatchedOf(done, s) == {} && UnmatchedOf(done, s) == {}
  {
    assert MatchedOf(done, s) <= Of(done, s) && UnmatchedOf(done, s) <= Of(done, s);
  }

  lemma {:induction false} OfMore(done: set<Triple>, r: Triple, s: string)
    requires r !in done
    ensures Of(done + {r}, s) == if s == r.0 then Of(done, s) + {r} else Of(done, s)
  {
  }

  lemma {:induction false} MatchedMore(done: set<Triple>, r: Triple, s: string)
    requires r !in done
    ensures MatchedOf(done + {r}, s) == if s == r.0 && r.2.Some? then MatchedOf(done, s) + {r} else MatchedOf(done, s)
    ensures r !in MatchedOf(done, s)
  {
  }

  lemma {:induction false} UnmatchedMore(done: set<Triple>, r: Triple, s: string)
    requires r !in done
    ensures UnmatchedOf(done + {r}, s)
         == if s == r.0 && r.2.None? then UnmatchedOf(done, s) + {r} else UnmatchedOf(done, s)
    ensures r !in UnmatchedOf(done, s)
  {
  }

  lemma {:induction false} CountOneMore(report: map<string, (nat, nat)>, done: set<Triple>, r: Triple)
    requires Counted(report, done) && r !in done
    ensures var bucket := if r.0 in report then report[r.0] else (0, 0);
            Counted(report[r.0 := if r.2.Some? then (bucket.0 + 1, bucket.1) else (bucket.0, bucket.1 + 1)], done + {r})
  {
    hide Of, MatchedOf, UnmatchedOf;
    var bucket := if r.0 in report then report[r.0] else (0, 0);
    var report' := report[r.0 := if r.2.Some? then (bucket.0 + 1, bucket.1) else (bucket.0, bucket.1 + 1)];
    forall s ensures (s in report' <==> Of(done + {r}, s) != {})
                     && (s in report' ==> report'[s] == (|MatchedOf(done + {r}, s)|, |UnmatchedOf(done + {r}, s)|)) {
      OneMoreAt(done, r, s);
    }
  }

  /** The distinct external filing ids a source has recorded. */
  function ExternalIds(table: Table, source: string): set<string> {
    set k | k in table && table[k].record.source == source && table[k].record.externalId.Some? ::
          table[k].record.externalId.value
  }

  function IdsOf(triples: set<Triple>): set<string> {
    set t | t in triples :: t.1
  }

  lemma {:induction false} SourcesNamed(table: Table, source: string)
    ensures IdsOf(Of(Triples(table), source)) == ExternalIds(table, source)
    ensures Of(Triples(table), source) != {} <==> ExternalIds(table, source) != {}
  {
    var ts, ids := Of(Triples(table), source), ExternalIds(table, source);
    forall id | id in ids ensures id in IdsOf(ts) {
      var k :| k in table && table[k].record.source == source && table[k].record.externalId == Some(id);
      assert (source, id, table[k].matched) in ts;
    }
    forall t | t in ts ensures t.1 in ids {
      var k :| k in table && table[k].record.externalId.Some?
            && t == (table[k].record.source, table[k].record.externalId.value, table[k].matched);
    }
    if t :| t in ts {
      assert t.1 in IdsOf(ts);
    }
  }

  predicate OnePerId(triples: set<Triple>) {
    forall t, u | t in triples && u in triples && t.1 == u.1 :: t == u
  }

  lemma {:induction false} IdsSize(triples: set<Triple>)
    requires OnePerId(triples)
    ensures |IdsOf(triples)| == |triples|
  {
    if triples == {} {
      assert IdsOf(triples) == {};
    } else {
      var t :| t in triples;
      IdsSize(triples - {t});
      assert IdsOf(triples) == IdsOf(triples - {t}) + {t.1};
    }
  }

  /** What a source's triples are while matches are sound. */
  lemma {:induction false} TriplesSound(table: Table, filings: set<string>, source: string)
    requires MatchesSound(table, filings)
    ensures OnePerId(MatchedOf(Triples(table), source)) && OnePerId(UnmatchedOf(Triples(table), source))
    ensures IdsOf(MatchedOf(Triples(table), source)) + IdsOf(UnmatchedOf(Triples(table), source))
         == ExternalIds(table, source)
  {
    var ts := Triples(table);
    forall t | t in MatchedOf(ts, source) ensures t.2 == Some(t.1) {
      var k :| k in table && table[k].record.externalId.Some?
            && t == (table[k].record.source, table[k].record.externalId.value, table[k].matched);
    }
    SourcesNamed(table, source);
    assert Of(ts, source) == MatchedOf(ts, source) + UnmatchedOf(ts, source);
    IdsOfUnion(MatchedOf(ts, source), UnmatchedOf(ts, source));
  }

  lemma {:induction false} IdsOfUnion(a: set<Triple>, b: set<Triple>)
    ensures IdsOf(a + b) == IdsOf(a) + IdsOf(b)
  {
  }

  /** The ids a source has both a matched and an unmatched row of: they are counted twice. */
  function CountedTwice(table: Table, source: string): set<string> {
    IdsOf(MatchedOf(Triples(table), source)) * IdsOf(UnmatchedOf(Triples(table), source))
  }

  /** The two counts of a source add up to its distinct external ids exactly when no id has both a
      matched and an unmatched row. */
  lemma {:induction false} CountsPartitionIff(table: Table, filings: set<string>, source: string)
    requires MatchesSound(table, filings)
    ensures var ts := Triples(table);
            (|MatchedOf(ts, source)| + |UnmatchedOf(ts, source)| == |ExternalIds(table, source)| <==>
                  CountedTwice(table, source) == {})
  {
    hide MatchedOf, UnmatchedOf, Triples, IdsOf, OnePerId, ExternalIds, MatchesSound;
    var m, u := MatchedOf(Triples(table), source), UnmatchedOf(Triples(table), source);
    TriplesSound(table, filings, source);
    IdsSize(m);
    IdsSize(u);
    UnionSize(IdsOf(m), IdsOf(u));
  }

  lemma {:induction false} UnionSize(a: set<string>, b: set<string>)
    ensures |a| + |b| == |a + b| + |a * b|
  {
    assert a + b == a + (b - a);
    assert b == (b - a) + a * b;
  }

  /** A report right after a re-match: "matched" counts the source's distinct filings we have,
      "unmatched" those we do not, and none is counted twice. */
  lemma {:induction false} ReportAfterRematch(table: Table, filings: set<string>, source: string)
    requires MatchesSound(table, filings)
    ensures var after := Rematched(table, filings);
            var ts, ids := Triples(after), ExternalIds(after, source);
            && ids == ExternalIds(table, source)
            && |MatchedOf(ts, source)| == |set id | id in ids && id != "" && id in filings|
            && |UnmatchedOf(ts, source)| == |set id | id in ids && !(id != "" && id in filings)|
            && |MatchedOf(ts, source)| + |UnmatchedOf(ts, source)| == |ids|
  {
    var after := Rematched(table, filings);
    RematchedExact(table, filings);
    MatchesStaySound(table, [], (r: Record) => "", filings, {});
    var ts, ids := Triples(after), ExternalIds(after, source);
    var have := set id | id in ids && id != "" && id in filings;
    var lack := set id | id in ids && !(id != "" && id in filings);
    SameExternalIds(table, filings, source);
    MatchedIds(after, filings, source);
    TriplesSound(after, filings, source);
    IdsSize(MatchedOf(ts, source));
    IdsSize(UnmatchedOf(ts, source));
    assert ids == have + lack && have * lack == {};
  }

  lemma {:induction false} SameExternalIds(table: Table, filings: set<string>, source: string)
    ensures ExternalIds(Rematched(table, filings), source) == ExternalIds(table, source)
  {
    var after := Rematched(table, filings);
    forall id | id in ExternalIds(table, source) ensures id in ExternalIds(after, source) {
      var k :| k in table && table[k].record.source == source && table[k].record.externalId == Some(id);
      assert k in after && after[k].record == table[k].record;
    }
    forall id | id in ExternalIds(after, source) ensures id in ExternalIds(table, source) {
      var k :| k in after && after[k].record.source == source && after[k].record.externalId == Some(id);
      assert k in table && after[k].record == table[k].record;
    }
  }

  lemma {:induction false} MatchedIds(table: Table, filings: set<string>, source: string)
    requires MatchesExact(table, filings)
    ensures var ts, ids := Triples(table), ExternalIds(table, source);
            && IdsOf(MatchedOf(ts, source)) == (set id | id in ids && id != "" && id in filings)
            && IdsOf(UnmatchedOf(ts, source)) == (set id | id in ids && !(id != "" && id in filings))
  {
    hide Triples, ExternalIds;
    var ts, ids := Triples(table), ExternalIds(table, source);
    forall t | t in ts && t.0 == source ensures t.1 in ids && (t.2.Some? <==> t.1 != "" && t.1 in filings) {
      TripleMatched(table, filings, t);
    }
    forall id | id in ids
      ensures id in IdsOf(if id != "" && id in filings then MatchedOf(ts, source) else UnmatchedOf(ts, source))
    {
      var t := TripleOf(table, source, id);
      TripleMatched(table, filings, t);
      assert t in MatchedOf(ts, source) || t in UnmatchedOf(ts, source);
    }
  }

  lemma {:induction false} TripleMatched(table: Table, filings: set<string>, t: Triple)
    requires MatchesExact(table, filings) && t in Triples(table)
    ensures t.2.Some? <==> t.1 != "" && t.1 in filings
    ensures t.1 in ExternalIds(table, t.0)
  {
    var k :| k in table && table[k].record.externalId.Some?
          && t == (table[k].record.source, table[k].record.externalId.value, table[k].matched);
  }

  lemma {:induction false} TripleOf(table: Table, source: string, id: string) returns (t: Triple)
    requires id in ExternalIds(table, source)
    ensures t in Triples(table) && t.0 == source && t.1 == id
  {
    var k :| k in table && table[k].record.source == source && table[k].record.externalId == Some(id);
    t := (source, id, table[k].matched);
  }
}
