/** The life of a House filing after it is archived: parsing (`ingest/house_ptrs.py`), re-parsing
    (`ingest/reparse_failed_house_ptrs.py`) and import of transcripts (`ingest/transcribed_ptrs.py`). */
module Lifecycle {
  import opened Optional
  import PtrParser
  import PtrPass
  import opened Lines
  import opened Transcripts

  datatype Format = Unknown | Electronic | Scanned | PaperForm

  datatype Status = Pending | Parsed | Failed | PaperDeferred

  datatype Filing = Filing(house: bool, filingType: string, rawKey: Option<string>, format: Format, status: Status)

  datatype Tx = FromForm(tx: PtrParser.ParsedTransaction) | FromTranscript(row: TranscribedRow)

  datatype IssueKind = ParseFailed | UnknownTxType

  datatype Issue = Issue(filing: FilingId, kind: IssueKind, resolved: bool)

  type Rows = map<nat, Tx>

  /** `txs` holds the rows of a filing by `row_index`: the key (filing, row index) is unique. */
  datatype Db = Db(filings: map<FilingId, Filing>, txs: map<FilingId, Rows>,
                   provenance: map<FilingId, map<nat, Provenance>>, issues: seq<Issue>)

  function RowsOf(db: Db, id: FilingId): Rows {
    if id in db.txs then db.txs[id] else map[]
  }

  predicate IsPtr(f: Filing) {
    f.house && f.filingType == "P"
  }

  // ---- saving a parse ----

  /** The parser's rules, the bucket (`None` when the download or the text extraction raises), on
      which documents the parser itself raises (a strike price of commas only) and which ISO dates
      are real calendar days. */
  datatype Site = Site(read: string -> Option<seq<seq<Word>>>, rules: PtrParser.Rules,
                       raises: seq<seq<Word>> -> bool, isDay: string -> bool)

  predicate IsDay(date: Option<string>, isDay: string -> bool) {
    date.Some? ==> isDay(date.value)
  }

  predicate DaysReal(t: PtrParser.ParsedTransaction, isDay: string -> bool) {
    IsDay(t.option.expiry, isDay) && IsDay(t.txDate, isDay) && IsDay(t.notifDate, isDay)
  }

  predicate AllDaysReal(ts: seq<PtrParser.ParsedTransaction>, isDay: string -> bool) {
    forall i | 0 <= i < |ts| && ts[i].txType.Some? :: DaysReal(ts[i], isDay)
  }

  function TypedRows(ts: seq<PtrParser.ParsedTransaction>): Rows {
    if ts == [] then map[]
    else
      var t := ts[|ts| - 1];
      var before := TypedRows(ts[..|ts| - 1]);
      if t.txType.None? then before else before[t.rowIndex := FromForm(t)]
  }

  /** Two typed rows of one list claim the same row index. */
  predicate Clash(ts: seq<PtrParser.ParsedTransaction>) {
    ts != []
    && var t := ts[|ts| - 1];
       Clash(ts[..|ts| - 1]) || (t.txType.Some? && t.rowIndex in TypedRows(ts[..|ts| - 1]))
  }

  function UntypedIssues(id: FilingId, ts: seq<PtrParser.ParsedTransaction>): seq<Issue> {
    if ts == [] then []
    else
      UntypedIssues(id, ts[..|ts| - 1])
      + if ts[|ts| - 1].txType.None? then [Issue(id, UnknownTxType, false)] else []
  }

  function Resolved(issues: seq<Issue>, id: FilingId): (r: seq<Issue>)
    ensures |r| == |issues|
    ensures forall i | 0 <= i < |issues| ::
              r[i] == if issues[i].filing == id && issues[i].kind == ParseFailed then Issue(id, ParseFailed, true)
                      else issues[i]
  {
    seq(|issues|, i requires 0 <= i < |issues| =>
      if issues[i].filing == id && issues[i].kind == ParseFailed then Issue(id, ParseFailed, true) else issues[i])
  }

  datatype SaveOutcome = Saved | Conflict | BadDate

  /** `_save_transactions`, and with `resolving` also `_save_and_resolve`: one session, so a bad date
      or a key conflict leaves nothing behind. */
  function Save(db: Db, id: FilingId, ts: seq<PtrParser.ParsedTransaction>, resolving: bool,
                isDay: string -> bool): (Db, SaveOutcome) {
    if id !in db.filings then (db, Saved)
    else if !AllDaysReal(ts, isDay) then (db, BadDate)
    else if Clash(ts) || TypedRows(ts).Keys * RowsOf(db, id).Keys != {} then (db, Conflict)
    else
      var issues := db.issues + UntypedIssues(id, ts);
      (db.(filings := db.filings[id := db.filings[id].(format := Electronic, status := Parsed)],
           txs := db.txs[id := RowsOf(db, id) + TypedRows(ts)],
           issues := if resolving then Resolved(issues, id) else issues), Saved)
  }

  function MarkedDeferred(db: Db, id: FilingId): Db {
    if id !in db.filings then db
    else db.(filings := db.filings[id := db.filings[id].(format := Scanned, status := PaperDeferred)])
  }

  function MarkedFailed(db: Db, id: FilingId): Db {
    var filings :=
      if id in db.filings then db.filings[id := db.filings[id].(format := Electronic, status := Failed)]
      else db.filings;
    db.(filings := filings, issues := db.issues + [Issue(id, ParseFailed, false)])
  }

  // ---- one filing of each run ----

  datatype Outcome = Success | Failure | Skipped | Crashed

  function OutcomeOf(r: SaveOutcome): Outcome {
    match r
    case Saved => Success
    case Conflict => Skipped
    case BadDate => Crashed
  }

  function ParseOne(db: Db, id: FilingId, key: string, site: Site): (Db, Outcome) {
    match site.read(key)
    case None => (MarkedFailed(db, id), Failure)
    case Some(pages) =>
      if !PtrParser.IsElectronic(pages) then (MarkedDeferred(db, id), Failure)
      else if site.raises(pages) then (db, Crashed)
      else
        var ts := PtrPass.Parsed(pages, site.rules);
        if ts == [] then (MarkedFailed(db, id), Failure)
        else
          var (after, r) := Save(db, id, ts, false, site.isDay);
          (after, OutcomeOf(r))
  }

  /** A filing that still does not parse is left as it was. */
  function ReparseOne(db: Db, id: FilingId, key: string, status: Status, site: Site): (Db, Outcome) {
    match site.read(key)
    case None => (db, Failure)
    case Some(pages) =>
      if status == PaperDeferred && !PtrParser.IsElectronic(pages) then (db, Failure)
      else if site.raises(pages) then (db, Crashed)
      else
        var ts := PtrPass.Parsed(pages, site.rules);
        if ts == [] then (db, Failure)
        else
          var (after, r) := Save(db, id, ts, true, site.isDay);
          (after, OutcomeOf(r))
  }

  function TranscriptRows(rows: seq<TranscribedRow>): Rows {
    if rows == [] then map[]
    else
      var n := |rows| - 1;
      if rows[n].txType.None? then TranscriptRows(rows[..n])
      else TranscriptRows(rows[..n])[n := FromTranscript(rows[n])]
  }

  function ProvenanceOf(rows: seq<TranscribedRow>, file: string): map<nat, Provenance> {
    if rows == [] then map[]
    else
      var n := |rows| - 1;
      if rows[n].txType.None? then ProvenanceOf(rows[..n], file)
      else ProvenanceOf(rows[..n], file)[n := Provenance(rows[n].confidence, rows[n].review, rows[n].note, file)]
  }

  function UntypedTranscript(id: FilingId, rows: seq<TranscribedRow>): seq<Issue> {
    if rows == [] then []
    else
      UntypedTranscript(id, rows[..|rows| - 1])
      + if rows[|rows| - 1].txType.None? then [Issue(id, UnknownTxType, false)] else []
  }

  /** Which filings an import leaves alone. */
  predicate SkipsImport(db: Db, id: FilingId) {
    id !in db.filings || db.filings[id].status !in {PaperDeferred, Failed} || RowsOf(db, id) != map[]
  }

  function ImportOne(db: Db, id: FilingId, rows: seq<TranscribedRow>, file: string): Db {
    if SkipsImport(db, id) then db
    else
      db.(filings := db.filings[id := db.filings[id].(status := Parsed)],
          txs := db.txs[id := TranscriptRows(rows)],
          provenance := db.provenance[id := ProvenanceOf(rows, file)],
          issues := db.issues + UntypedTranscript(id, rows))
  }

  // ---- whole runs ----

  type Selection = seq<(FilingId, string)>

  datatype ParseRun = ParseRun(db: Db, parsed: seq<FilingId>, crashed: bool)

  /** A run over the selected filings; an exception of the parser or an unreal date aborts it there
      and then. */
  function RunParse(db: Db, selected: Selection, site: Site): ParseRun {
    if selected == [] then ParseRun(db, [], false)
    else
      var before := RunParse(db, selected[..|selected| - 1], site);
      if before.crashed then before
      else
        var (id, key) := selected[|selected| - 1];
        var (after, outcome) := ParseOne(before.db, id, key, site);
        ParseRun(after, if outcome == Success then before.parsed + [id] else before.parsed, outcome == Crashed)
  }

  datatype ReparseRun = ReparseRun(db: Db, nowParsed: nat, stillFailed: nat, crashed: bool)

  function RunReparse(db: Db, selected: seq<(FilingId, string, Status)>, site: Site): ReparseRun {
    if selected == [] then ReparseRun(db, 0, 0, false)
    else
      var before := RunReparse(db, selected[..|selected| - 1], site);
      if before.crashed then before
      else
        var (id, key, status) := selected[|selected| - 1];
        var (after, outcome) := ReparseOne(before.db, id, key, status, site);
        ReparseRun(after, if outcome == Success then before.nowParsed + 1 else before.nowParsed,
                   if outcome == Failure then before.stillFailed + 1 else before.stillFailed, outcome == Crashed)
  }

  datatype ImportRun = ImportRun(db: Db, imported: nat, added: nat, skipped: nat)

  /** `csv.ids` in sorted order; a filing named only by empty rows is imported with no rows. */
  function RunImport(db: Db, order: seq<FilingId>, csv: Transcript, file: string): ImportRun {
    if order == [] then ImportRun(db, 0, 0, 0)
    else
      var before := RunImport(db, order[..|order| - 1], csv, file);
      var id := order[|order| - 1];
      if SkipsImport(before.db, id) then before.(skipped := before.skipped + 1)
      else
        var rows := csv.RowsOf(id);
        ImportRun(ImportOne(before.db, id, rows, file),
                  before.imported + 1, before.added + |TranscriptRows(rows)|, before.skipped)
  }

  class Store {
    var filings: map<FilingId, Filing>
    var txs: map<FilingId, Rows>
    var provenance: map<FilingId, map<nat, Provenance>>
    var issues: seq<Issue>

    function View(): Db
      reads this
    {
      Db(filings, txs, provenance, issues)
    }

    constructor ()
      ensures View() == Db(map[], map[], map[], [])
    {
      filings, txs, provenance, issues := map[], map[], map[], [];
    }

    /** The rows and issues are collected first and committed together. */
    method SaveTransactions(id: FilingId, ts: seq<PtrParser.ParsedTransaction>, resolving: bool,
                            isDay: string -> bool) returns (r: SaveOutcome)
      modifies this
      ensures (View(), r) == Save(old(View()), id, ts, resolving, isDay)
    {
      if id !in filings {
        return Saved;
      }
      var rows: Rows := map[];
      var newIssues: seq<Issue> := [];
      var clash := false;
      for i := 0 to |ts|
        invariant rows == TypedRows(ts[..i]) && newIssues == UntypedIssues(id, ts[..i]) && clash == Clash(ts[..i])
        invariant AllDaysReal(ts[..i], isDay)
      {
        assert ts[..i + 1][..i] == ts[..i];
        if ts[i].txType.None? {
          newIssues := newIssues + [Issue(id, UnknownTxType, false)];
          continue;
        }
        if !DaysReal(ts[i], isDay) {
          return BadDate;
        }
        clash := clash || ts[i].rowIndex in rows;
        rows := rows[ts[i].rowIndex := FromForm(ts[i])];
      }
      assert ts[..|ts|] == ts;
      var stored := if id in txs then txs[id] else map[];
      if clash || rows.Keys * stored.Keys != {} {
        return Conflict;
      }
      filings := filings[id := filings[id].(format := Electronic, status := Parsed)];
      txs := txs[id := stored + rows];
      issues := issues + newIssues;
      if resolving {
        ResolveParseFailed(id);
      }
      return Saved;
    }

    method ResolveParseFailed(id: FilingId)
      modifies `issues
      ensures issues == Resolved(old(issues), id)
    {
      ghost var before := issues;
      for i := 0 to |issues|
        invariant |issues| == |before|
        invariant forall j | 0 <= j < i :: issues[j] == Resolved(before, id)[j]
        invariant forall j | i <= j < |before| :: issues[j] == before[j]
      {
        if issues[i].filing == id && issues[i].kind == ParseFailed && !issues[i].resolved {
          issues := issues[i := issues[i].(resolved := true)];
        }
      }
    }

    method MarkPaperDeferred(id: FilingId)
      modifies `filings
      ensures View() == MarkedDeferred(old(View()), id)
    {
      if id in filings {
        filings := filings[id := filings[id].(format := Scanned, status := PaperDeferred)];
      }
    }

    method MarkFailed(id: FilingId)
      modifies `filings, `issues
      ensures View() == MarkedFailed(old(View()), id)
    {
      if id in filings {
        filings := filings[id := filings[id].(format := Electronic, status := Failed)];
      }
      issues := issues + [Issue(id, ParseFailed, false)];
    }

    method ParsePending(selected: Selection, site: Site) returns (parsed: seq<FilingId>, crashed: bool)
      modifies this
      ensures ParseRun(View(), parsed, crashed) == RunParse(old(View()), selected, site)
    {
      hide Save, MarkedFailed, MarkedDeferred, PtrPass.Parsed, PtrParser.IsElectronic;
      parsed := [];
      for i := 0 to |selected|
        invariant ParseRun(View(), parsed, false) == RunParse(old(View()), selected[..i], site)
      {
        assert selected[..i + 1][..i] == selected[..i];
        RunParseCrashed(old(View()), selected, i + 1, site);
        var (id, key) := selected[i];
        var content := site.read(key);
        if content.None? {
          MarkFailed(id);
          continue;
        }
        if !PtrParser.IsElectronic(content.value) {
          MarkPaperDeferred(id);
          continue;
        }
        if site.raises(content.value) {
          return parsed, true;
        }
        var transactions := PtrPass.ParsePtrTransactions(content.value, site.rules);
        if transactions == [] {
          MarkFailed(id);
          continue;
        }
        var r := SaveTransactions(id, transactions, false, site.isDay);
        if r == BadDate {
          return parsed, true;
        }
        if r == Saved {
          parsed := parsed + [id];
        }
      }
      assert selected[..|selected|] == selected;
      crashed := false;
    }

    method ReparseFailed(selected: seq<(FilingId, string, Status)>, site: Site)
      returns (nowParsed: nat, stillFailed: nat, crashed: bool)
      modifies this
      ensures ReparseRun(View(), nowParsed, stillFailed, crashed) == RunReparse(old(View()), selected, site)
    {
      hide Save, PtrPass.Parsed, PtrParser.IsElectronic;
      nowParsed, stillFailed := 0, 0;
      for i := 0 to |selected|
        invariant ReparseRun(View(), nowParsed, stillFailed, false) == RunReparse(old(View()), selected[..i], site)
      {
        assert selected[..i + 1][..i] == selected[..i];
        RunReparseCrashed(old(View()), selected, i + 1, site);
        var (id, key, status) := selected[i];
        var content := site.read(key);
        if content.None? || (status == PaperDeferred && !PtrParser.IsElectronic(content.value)) {
          stillFailed := stillFailed + 1;
          continue;
        }
        if site.raises(content.value) {
          return nowParsed, stillFailed, true;
        }
        var transactions := PtrPass.ParsePtrTransactions(content.value, site.rules);
        if transactions == [] {
          stillFailed := stillFailed + 1;
          continue;
        }
        var r := SaveTransactions(id, transactions, true, site.isDay);
        if r == BadDate {
          return nowParsed, stillFailed, true;
        }
        if r == Saved {
          nowParsed := nowParsed + 1;
        }
      }
      assert selected[..|selected|] == selected;
      crashed := false;
    }

    method ImportTranscript(order: seq<FilingId>, csv: Transcript, file: string)
      returns (imported: nat, added: nat, skipped: nat)
      modifies this
      ensures ImportRun(View(), imported, added, skipped) == RunImport(old(View()), order, csv, file)
    {
      imported, added, skipped := 0, 0, 0;
      for i := 0 to |order|
        invariant ImportRun(View(), imported, added, skipped) == RunImport(old(View()), order[..i], csv, file)
      {
        assert order[..i + 1][..i] == order[..i];
        var id := order[i];
        if SkipsImport(View(), id) {
          skipped := skipped + 1;
          continue;
        }
        var n := ImportFiling(id, csv.RowsOf(id), file);
        added := added + n;
        imported := imported + 1;
      }
      assert order[..|order|] == order;
    }

    method ImportFiling(id: FilingId, rows: seq<TranscribedRow>, file: string) returns (added: nat)
      requires !SkipsImport(View(), id)
      modifies this
      ensures View() == ImportOne(old(View()), id, rows, file)
      ensures added == |TranscriptRows(rows)|
    {
      added := 0;
      var newRows: Rows := map[];
      var sources: map<nat, Provenance> := map[];
      for i := 0 to |rows|
        invariant newRows == TranscriptRows(rows[..i]) && added == |newRows|
        invariant forall k | k in newRows :: k < i
        invariant sources == ProvenanceOf(rows[..i], file)
        invariant issues == old(issues) + UntypedTranscript(id, rows[..i])
        invariant filings == old(filings) && txs == old(txs) && provenance == old(provenance)
      {
        assert rows[..i + 1][..i] == rows[..i];
        if rows[i].txType.None? {
          issues := issues + [Issue(id, UnknownTxType, false)];
          continue;
        }
        newRows := newRows[i := FromTranscript(rows[i])];
        sources := sources[i := Provenance(rows[i].confidence, rows[i].review, rows[i].note, file)];
        added := added + 1;
      }
      assert rows[..|rows|] == rows;
      txs := txs[id := newRows];
      provenance := provenance[id := sources];
      filings := filings[id := filings[id].(status := Parsed)];
    }
  }

  lemma {:induction false} RunParseCrashed(db: Db, selected: Selection, n: nat, site: Site)
    requires n <= |selected|
    ensures RunParse(db, selected[..n], site).crashed ==>
          RunParse(db, selected, site) == RunParse(db, selected[..n], site)
    decreases |selected|
  {
    hide ParseOne;
    if n == |selected| {
      assert selected[..n] == selected;
    } else {
      var m := |selected| - 1;
      RunParseCrashed(db, selected[..m], n, site);
      assert selected[..m][..n] == selected[..n];
    }
  }

  lemma {:induction false} RunReparseCrashed(db: Db, selected: seq<(FilingId, string, Status)>, n: nat, site: Site)
    requires n <= |selected|
    ensures RunReparse(db, selected[..n], site).crashed ==>
          RunReparse(db, selected, site) == RunReparse(db, selected[..n], site)
    decreases |selected|
  {
    hide ReparseOne;
    if n == |selected| {
      assert selected[..n] == selected;
    } else {
      var m := |selected| - 1;
      RunReparseCrashed(db, selected[..m], n, site);
      assert selected[..m][..n] == selected[..n];
    }
  }
}
