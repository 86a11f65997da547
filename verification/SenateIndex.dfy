/** Fetching the Senate index page by page (`sources/senate.py`) and inserting it in chunks
    (`ingest/senate.py`). */
module SenateIndex {
  import opened Optional
  import opened Insertion
  import Scheduler
  import Text

  // ---- fetch_ptr_index ----

  datatype RawRow = RawRow(firstName: string, lastName: string, office: string, linkHtml: string, submitted: string)

  /** A parse either succeeds or raises. */
  datatype Outcome<+T> = Ok(value: T) | Raised

  /** The link pattern (report uuid, electronic or not) and the date pattern, as given functions of
      the text. */
  datatype Reader = Reader(report: string -> Option<(string, bool)>, day: string -> Option<int>)

  function ParseDate(raw: string, reader: Reader): Outcome<Option<int>> {
    if Text.Strip(raw) == "" then Ok(None)
    else
      match reader.day(Text.Strip(raw))
      case Some(d) => Ok(Some(d))
      case None => Raised
  }

  function EntryOf(row: RawRow, uuid: string, electronic: bool, filedDate: Option<int>): Entry {
    Senate(uuid, Text.Strip(Text.Strip(row.firstName) + " " + Text.Strip(row.lastName)), electronic, filedDate)
  }

  /** One more row: dropped without a report link; linked with a malformed date, the parse raises. */
  function Appended(before: Outcome<seq<Entry>>, row: RawRow, reader: Reader): Outcome<seq<Entry>> {
    match before
    case Raised => Raised
    case Ok(entries) =>
      match reader.report(row.linkHtml)
      case None => Ok(entries)
      case Some((uuid, electronic)) =>
        match ParseDate(row.submitted, reader)
        case Raised => Raised
        case Ok(filedDate) => Ok(entries + [EntryOf(row, uuid, electronic, filedDate)])
  }

  /** The entries of a list of rows, in order. */
  function EntriesOf(rows: seq<RawRow>, reader: Reader): Outcome<seq<Entry>> {
    if rows == [] then Ok([])
    else Appended(EntriesOf(rows[..|rows| - 1], reader), rows[|rows| - 1], reader)
  }

  method ParseRows(rows: seq<RawRow>, reader: Reader) returns (r: Outcome<seq<Entry>>)
    ensures r == EntriesOf(rows, reader)
  {
    var entries := [];
    for i := 0 to |rows|
      invariant EntriesOf(rows[..i], reader) == Ok(entries)
    {
      assert rows[..i + 1][..i] == rows[..i];
      EntriesRaise(rows, i + 1, reader);
      var report := reader.report(rows[i].linkHtml);
      if report.None? {
        continue;
      }
      var filedDate := ParseDate(rows[i].submitted, reader);
      if filedDate.Raised? {
        return Raised;
      }
      entries := entries + [EntryOf(rows[i], report.value.0, report.value.1, filedDate.value)];
    }
    assert rows[..|rows|] == rows;
    r := Ok(entries);
  }

  /** Nothing after a malformed row rescues the parse. */
  lemma {:induction false} EntriesRaise(rows: seq<RawRow>, n: nat, reader: Reader)
    requires n <= |rows|
    ensures EntriesOf(rows[..n], reader).Raised? ==> EntriesOf(rows, reader).Raised?
    decreases |rows|
  {
    if n == |rows| {
      assert rows[..n] == rows;
    } else {
      EntriesRaise(rows[..|rows| - 1], n, reader);
      assert rows[..|rows| - 1][..n] == rows[..n];
    }
  }

  // ---- what the parse yields ----

  /** A row that links to a report, and its submission date is malformed. */
  predicate Malformed(row: RawRow, reader: Reader) {
    && reader.report(row.linkHtml).Some? && Text.Strip(row.submitted) != ""
    && reader.day(Text.Strip(row.submitted)).None?
  }

  /** The rows before `n` that link to a report. */
  function LinkedBefore(rows: seq<RawRow>, n: nat, reader: Reader): set<nat>
    requires n <= |rows|
  {
    set i: nat | i < n && reader.report(rows[i].linkHtml).Some?
  }

  /** The entry of a linked row: the report of its link, its two names, and its date if it has one. */
  predicate IsEntryOf(e: Entry, row: RawRow, reader: Reader) {
    && e.Senate? && reader.report(row.linkHtml) == Some((e.reportUuid, e.electronic))
    && e.filer == Text.Strip(Text.Strip(row.firstName) + " " + Text.Strip(row.lastName))
    && e.filedDate == (if Text.Strip(row.submitted) == "" then None else reader.day(Text.Strip(row.submitted)))
  }

  predicate EntriesAre(entries: seq<Entry>, rows: seq<RawRow>, reader: Reader) {
    && |entries| == |LinkedBefore(rows, |rows|, reader)|
    && forall i | 0 <= i < |rows| && reader.report(rows[i].linkHtml).Some? ::
         var k := |LinkedBefore(rows, i, reader)|;
         k < |entries| && IsEntryOf(entries[k], rows[i], reader)
  }

  lemma {:induction false} LinkedPrefix(rows: seq<RawRow>, m: nat, n: nat, reader: Reader)
    requires n <= m <= |rows|
    ensures LinkedBefore(rows[..m], n, reader) == LinkedBefore(rows, n, reader)
  {
  }

  lemma {:induction false} LinkedMore(rows: seq<RawRow>, n: nat, reader: Reader)
    requires n < |rows|
    ensures |LinkedBefore(rows, n + 1, reader)|
            == |LinkedBefore(rows, n, reader)| + if reader.report(rows[n].linkHtml).Some? then 1 else 0
  {
    assert LinkedBefore(rows, n + 1, reader)
        == LinkedBefore(rows, n, reader) + if reader.report(rows[n].linkHtml).Some? then {n} else {};
  }

  /** A parse raises exactly when a linked row has a malformed date. Otherwise its k-th entry is that of the
      k-th linked row. */
  lemma {:induction false} EntriesOfRows(rows: seq<RawRow>, reader: Reader)
    ensures EntriesOf(rows, reader).Raised? <==> exists i | 0 <= i < |rows| :: Malformed(rows[i], reader)
    ensures EntriesOf(rows, reader).Ok? ==> EntriesAre(EntriesOf(rows, reader).value, rows, reader)
  {
    hide Text.Strip, IsEntryOf, LinkedBefore, EntryOf;
    if rows == [] {
      NoneLinked(reader);
    } else {
      var n := |rows| - 1;
      var before, row := EntriesOf(rows[..n], reader), rows[n];
      EntriesOfRows(rows[..n], reader);
      if i :| 0 <= i < n && Malformed(rows[..n][i], reader) {
        assert Malformed(rows[i], reader);
      }
      if i :| 0 <= i < |rows| && Malformed(rows[i], reader) {
        assert i < n ==> Malformed(rows[..n][i], reader);
      }
      if before.Ok? && !Malformed(row, reader) {
        OneMoreEntry(before.value, rows, reader);
      }
    }
  }

  lemma {:induction false} NoneLinked(reader: Reader)
    ensures LinkedBefore([], 0, reader) == {}
  {
  }

  lemma {:induction false} OneMoreEntry(entries: seq<Entry>, rows: seq<RawRow>, reader: Reader)
    requires rows != [] && EntriesAre(entries, rows[..|rows| - 1], reader) && !Malformed(rows[|rows| - 1], reader)
    ensures var after := Appended(Ok(entries), rows[|rows| - 1], reader);
            after.Ok? && EntriesAre(after.value, rows, reader)
  {
    hide Text.Strip, LinkedBefore, IsEntryOf;
    var n := |rows| - 1;
    var after := Appended(Ok(entries), rows[n], reader);
    LinkedMore(rows, n, reader);
    LinkedPrefix(rows, n, n, reader);
    NewEntryIs(rows[n], reader);
    forall i | 0 <= i < |rows| && reader.report(rows[i].linkHtml).Some?
      ensures |LinkedBefore(rows, i, reader)| < |after.value|
      ensures IsEntryOf(after.value[|LinkedBefore(rows, i, reader)|], rows[i], reader)
    {
      if i < n {
        assert rows[..n][i] == rows[i];
        LinkedPrefix(rows, n, i, reader);
      }
    }
  }

  lemma {:induction false} NewEntryIs(row: RawRow, reader: Reader)
    requires reader.report(row.linkHtml).Some? ==> !Malformed(row, reader)
    ensures reader.report(row.linkHtml).Some? ==>
              && ParseDate(row.submitted, reader).Ok?
              && IsEntryOf(EntryOf(row, reader.report(row.linkHtml).value.0, reader.report(row.linkHtml).value.1,
                                   ParseDate(row.submitted, reader).value), row, reader)
  {
    hide Text.Strip;
  }

  function Sequenced(a: Outcome<seq<Entry>>, b: Outcome<seq<Entry>>): Outcome<seq<Entry>> {
    if a.Ok? && b.Ok? then Ok(a.value + b.value) else Raised
  }

  lemma {:induction false} EntriesConcat(a: seq<RawRow>, b: seq<RawRow>, reader: Reader)
    ensures EntriesOf(a + b, reader) == Sequenced(EntriesOf(a, reader), EntriesOf(b, reader))
    decreases |b|
  {
    if b == [] {
      assert a + b == a;
      assert EntriesOf(a, reader).Ok? ==> EntriesOf(a, reader).value + [] == EntriesOf(a, reader).value;
    } else {
      var n := |b| - 1;
      EntriesConcat(a, b[..n], reader);
      assert (a + b)[..|a + b| - 1] == a + b[..n];
      AppendedSequenced(EntriesOf(a, reader), EntriesOf(b[..n], reader), b[n], reader);
    }
  }

  lemma {:induction false} AppendedSequenced(a: Outcome<seq<Entry>>, b: Outcome<seq<Entry>>, row: RawRow,
                                             reader: Reader)
    ensures Appended(Sequenced(a, b), row, reader) == Sequenced(a, Appended(b, row, reader))
  {
    if a.Ok? && b.Ok? && Appended(b, row, reader).Ok? && reader.report(row.linkHtml).Some? {
      var (uuid, electronic) := reader.report(row.linkHtml).value;
      var e := EntryOf(row, uuid, electronic, ParseDate(row.submitted, reader).value);
      assert (a.value + b.value) + [e] == a.value + (b.value + [e]);
    }
  }

  /** What the site returns for one request: the rows from `start` on, at most `length` of them. */
  function PageOf(server: seq<RawRow>, start: nat, length: nat): seq<RawRow> {
    if start >= |server| then []
    else if start + length <= |server| then server[start..start + length]
    else server[start..]
  }

  /** However many rows of a page are dropped, the fetch ends after `floor(n / size) + 1` requests
      with the parse of the whole list; a malformed date anywhere makes it raise. */
  method FetchPtrIndex(server: seq<RawRow>, pageSize: nat, reader: Reader)
    returns (r: Outcome<seq<Entry>>, requests: nat)
    requires pageSize > 0
    ensures r == EntriesOf(server, reader)
    ensures requests <= |server| / pageSize + 1
    ensures r.Ok? ==> requests == |server| / pageSize + 1
  {
    hide EntriesOf;
    var entries := [];
    var start := 0;
    requests := 0;
    NoRows(reader);
    while true
      invariant start <= |server| && requests * pageSize == start
      invariant EntriesOf(server[..start], reader) == Ok(entries)
      decreases |server| - start
    {
      var rawRows := PageOf(server, start, pageSize);
      RequestBound(requests, |server|, pageSize);
      requests := requests + 1;
      PageExtends(server, start, pageSize, reader);
      var page := ParseRows(rawRows, reader);
      if page.Raised? {
        return Raised, requests;
      }
      entries := entries + page.value;
      if |rawRows| < pageSize {
        return Ok(entries), requests;
      }
      start := start + pageSize;
    }
  }

  lemma {:induction false} NoRows(reader: Reader)
    ensures EntriesOf([], reader) == Ok([])
  {
  }

  /** One more page extends the part of the list already read; a short one completes it. */
  lemma {:induction false} PageExtends(server: seq<RawRow>, start: nat, length: nat, reader: Reader)
    requires start <= |server|
    ensures var page := PageOf(server, start, length);
            var end := start + |page|;
            && end <= |server| && |page| <= length && (|page| < length ==> end == |server| && server[..end] == server)
            && EntriesOf(server[..end], reader)
                 == Sequenced(EntriesOf(server[..start], reader), EntriesOf(page, reader))
            && (EntriesOf(server[..end], reader).Raised? ==> EntriesOf(server, reader).Raised?)
  {
    hide EntriesOf;
    var page := PageOf(server, start, length);
    var end := start + |page|;
    assert server[..end] == server[..start] + page;
    EntriesConcat(server[..start], page, reader);
    EntriesRaise(server, end, reader);
  }

  lemma {:induction false} RequestBound(k: nat, n: nat, size: nat)
    requires size > 0 && k * size <= n
    ensures k <= n / size
    ensures n < k * size + size ==> k == n / size
    ensures (k + 1) * size == k * size + size
  {
    var q := n / size;
    assert q * size <= n < q * size + size;
    if k > q {
      NextMultiple(q, k, size);
    } else if k < q {
      NextMultiple(k, q, size);
    }
  }

  lemma {:induction false} NextMultiple(a: nat, b: nat, size: nat)
    requires a < b
    ensures a * size + size <= b * size
  {
    Scheduler.MulMonotone(a + 1, b, size);
    assert (a + 1) * size == a * size + size;
  }

  // ---- chunked insertion ----

  lemma {:induction false} FreshAgree(entries: seq<Entry>, a: set<FilingId>, b: set<FilingId>)
    requires forall id | id in Ids(entries) :: id in a <==> id in b
    ensures Fresh(entries, a) == Fresh(entries, b)
  {
    if entries != [] {
      IdsPrefix(entries, |entries| - 1);
      assert entries[..|entries|] == entries;
      FreshAgree(entries[..|entries| - 1], a, b);
    }
  }

  lemma {:induction false} WithRowsKeys(table: Table, entries: seq<Entry>, origin: Origin)
    ensures WithRows(table, entries, origin).Keys == table.Keys + Ids(entries)
  {
    if entries != [] {
      WithRowsKeys(table, entries[..|entries| - 1], origin);
      IdsPrefix(entries, |entries| - 1);
      assert entries[..|entries|] == entries;
    }
  }

  /** Dropping repeats and stored ids before inserting changes nothing. */
  lemma {:induction false} WithRowsFresh(table: Table, entries: seq<Entry>, existing: set<FilingId>, origin: Origin)
    requires existing <= table.Keys
    ensures WithRows(table, Fresh(entries, existing), origin) == WithRows(table, entries, origin)
  {
    if entries != [] {
      var n := |entries| - 1;
      WithRowsFresh(table, entries[..n], existing, origin);
      WithRowsKeys(table, entries[..n], origin);
      var before := Fresh(entries[..n], existing);
      assert (before + [entries[n]])[..|before|] == before;
    }
  }

  lemma {:induction false} WinnersAll(table: Table, toInsert: seq<Entry>)
    requires Ids(toInsert) !! table.Keys
    ensures Winners(table, toInsert) == toInsert
  {
    if toInsert != [] {
      var n := |toInsert| - 1;
      IdsPrefix(toInsert, n);
      assert toInsert[..n + 1] == toInsert == toInsert[..n] + [toInsert[n]];
      WinnersAll(table, toInsert[..n]);
    }
  }

  /** An uninterrupted call is the sequential "add if absent", and returns what it added. */
  lemma {:induction false} InsertAllIs(table: Table, entries: seq<Entry>, origin: Origin)
    ensures InsertAll(table, entries, origin) == (WithRows(table, entries, origin), Fresh(entries, table.Keys))
  {
    hide Fresh, Winners, WithRows;
    var existing := Ids(entries) * table.Keys;
    FreshAgree(entries, existing, table.Keys);
    WithRowsFresh(table, entries, existing, origin);
    FreshIsFirstOccurrences(entries, table.Keys);
    WinnersAll(table, Fresh(entries, table.Keys));
  }

  lemma {:induction false} WithRowsConcat(table: Table, a: seq<Entry>, b: seq<Entry>, origin: Origin)
    ensures WithRows(table, a + b, origin) == WithRows(WithRows(table, a, origin), b, origin)
    decreases |b|
  {
    if b == [] {
      assert a + b == a;
    } else {
      WithRowsConcat(table, a, b[..|b| - 1], origin);
      assert (a + b)[..|a + b| - 1] == a + b[..|b| - 1];
    }
  }

  lemma {:induction false} IdsConcat(a: seq<Entry>, b: seq<Entry>)
    ensures Ids(a + b) == Ids(a) + Ids(b)
  {
    forall id ensures id in Ids(a + b) <==> id in Ids(a) + Ids(b) {
      if id in Ids(a) {
        var e :| e in a && IdOf(e) == id;
        assert e in a + b;
      }
      if id in Ids(b) {
        var e :| e in b && IdOf(e) == id;
        assert e in a + b;
      }
    }
  }

  lemma {:induction false} FreshSnoc(entries: seq<Entry>, e: Entry, existing: set<FilingId>)
    ensures Fresh(entries + [e], existing)
         == if IdOf(e) in existing || IdOf(e) in Ids(entries) then Fresh(entries, existing)
            else Fresh(entries, existing) + [e]
  {
    hide Ids, IdOf;
    assert (entries + [e])[..|entries|] == entries;
  }

  lemma {:induction false} FreshConcat(a: seq<Entry>, b: seq<Entry>, existing: set<FilingId>)
    ensures Fresh(a + b, existing) == Fresh(a, existing) + Fresh(b, existing + Ids(a))
    decreases |b|
  {
    hide Fresh, Ids, IdOf;
    if b == [] {
      assert a + b == a;
      FreshOfNone(existing + Ids(a));
    } else {
      var init, e := b[..|b| - 1], b[|b| - 1];
      assert b == init + [e] && a + b == (a + init) + [e];
      FreshConcat(a, init, existing);
      IdsConcat(a, init);
      FreshSnoc(a + init, e, existing);
      FreshSnoc(init, e, existing + Ids(a));
    }
  }

  lemma {:induction false} FreshOfNone(existing: set<FilingId>)
    ensures Fresh([], existing) == []
  {
  }

  /** Two inserts in a row are one insert of the joined list: same rows, same new filings. */
  lemma {:induction false} InsertConcat(table: Table, a: seq<Entry>, b: seq<Entry>, origin: Origin)
    ensures var (t1, new1) := InsertAll(table, a, origin);
            var (t2, new2) := InsertAll(t1, b, origin);
            InsertAll(table, a + b, origin) == (t2, new1 + new2)
  {
    hide Fresh, WithRows, InsertAll;
    var t1 := WithRows(table, a, origin);
    InsertAllIs(table, a, origin);
    InsertAllIs(t1, b, origin);
    InsertAllIs(table, a + b, origin);
    WithRowsConcat(table, a, b, origin);
    WithRowsKeys(table, a, origin);
    FreshConcat(a, b, table.Keys);
  }

  /** Inserting a list is inserting it without its repeats. */
  lemma {:induction false} InsertDeduplicated(table: Table, entries: seq<Entry>, origin: Origin)
    ensures InsertAll(table, entries, origin) == InsertAll(table, Fresh(entries, {}), origin)
  {
    hide WithRows, InsertAll;
    InsertAllIs(table, entries, origin);
    InsertAllIs(table, Fresh(entries, {}), origin);
    WithRowsFresh(table, entries, {}, origin);
    FreshTwice(entries, table.Keys);
  }

  lemma {:induction false} FreshTwice(entries: seq<Entry>, existing: set<FilingId>)
    ensures Fresh(Fresh(entries, {}), existing) == Fresh(entries, existing)
  {
    if entries != [] {
      var n := |entries| - 1;
      var before, e := Fresh(entries[..n], {}), entries[n];
      FreshTwice(entries[..n], existing);
      FreshIsFirstOccurrences(entries[..n], {});
      assert (before + [e])[..|before|] == before;
    }
  }

  /** A backfill in chunks of any size stores the same rows, and reports the same total, as one
      insert of the whole list. */
  method BackfillInChunks(filings: Filings, entries: seq<Entry>, origin: Origin, size: nat) returns (newCount: nat)
    requires size > 0
    modifies filings
    ensures filings.rows == InsertAll(old(filings.rows), entries, origin).0
    ensures newCount == |InsertAll(old(filings.rows), entries, origin).1|
  {
    hide InsertAll;
    ghost var table := filings.rows;
    newCount := 0;
    var start := 0;
    NoEntries(table, origin);
    while start < |entries|
      invariant start <= |entries|
      invariant filings.rows == InsertAll(table, entries[..start], origin).0
      invariant newCount == |InsertAll(table, entries[..start], origin).1|
    {
      var end := if start + size <= |entries| then start + size else |entries|;
      var inserted := filings.InsertNewFilings(entries[start..end], origin);
      newCount := newCount + |inserted|;
      InsertConcat(table, entries[..start], entries[start..end], origin);
      assert entries[..end] == entries[..start] + entries[start..end];
      start := end;
    }
    assert entries[..start] == entries;
  }

  lemma {:induction false} NoEntries(table: Table, origin: Origin)
    ensures InsertAll(table, [], origin) == (table, [])
  {
  }

  /** A second run over the same list inserts nothing. */
  lemma {:induction false} SecondInsertIdle(table: Table, entries: seq<Entry>, origin: Origin, later: Origin)
    ensures var t := InsertAll(table, entries, origin).0;
            InsertAll(t, entries, later) == (t, [])
  {
    hide InsertAll, WithRows, Fresh;
    InsertAllIs(table, entries, origin);
    var t := WithRows(table, entries, origin);
    WithRowsKeys(table, entries, origin);
    InsertAllIs(t, entries, later);
    NothingFresh(entries, t.Keys);
    WithRowsFresh(t, entries, t.Keys, later);
    WithNoRows(t, later);
  }

  lemma {:induction false} WithNoRows(table: Table, origin: Origin)
    ensures WithRows(table, [], origin) == table
  {
  }

  lemma {:induction false} NothingFresh(entries: seq<Entry>, existing: set<FilingId>)
    requires Ids(entries) <= existing
    ensures Fresh(entries, existing) == []
  {
    if entries != [] {
      var n := |entries| - 1;
      IdsPrefix(entries, n);
      assert entries[..n + 1] == entries;
      NothingFresh(entries[..n], existing);
    }
  }
}
