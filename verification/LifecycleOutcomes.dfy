/** What becomes of a House PTR, from its content alone: which mark a parse leaves, which rows and which
    issues, and the same for re-parses and imports. */
module LifecycleOutcomes {
  import opened Optional
  import opened Lines
  import opened Lifecycle
  import opened LifecycleLaws
  import opened Transcripts
  import PtrParser
  import PtrPass
  import PtrWords

  // ---- what is behind a key ----

  /** Some line of some page has the words of the form's columns. */
  predicate HasHeaderRow(pages: seq<seq<Word>>) {
    exists i | 0 <= i < |pages| :: HasHeaderLine(Lines.Grouped(pages[i]))
  }

  predicate HasHeaderLine(lines: seq<Line>) {
    exists i | 0 <= i < |lines| :: PtrWords.HasColumnWords(lines[i])
  }

  lemma {:induction false} HeaderLineIff(lines: seq<Line>)
    ensures PtrParser.FirstHeader(lines).Some? <==> HasHeaderLine(lines)
  {
    hide PtrParser.HeaderBounds, PtrWords.HasColumnWords;
    if lines != [] {
      PtrWords.ColumnsIff(lines[0]);
      HeaderLineIff(lines[1..]);
      if i :| 0 <= i < |lines[1..]| && PtrWords.HasColumnWords(lines[1..][i]) {
        assert lines[i + 1] == lines[1..][i];
      }
      if i :| 0 <= i < |lines| && PtrWords.HasColumnWords(lines[i]) {
        assert i > 0 ==> lines[1..][i - 1] == lines[i];
      }
    }
  }

  /** A document counts as electronic exactly when it has a header row. */
  lemma {:induction false} ElectronicIff(pages: seq<seq<Word>>)
    ensures PtrParser.IsElectronic(pages) <==> HasHeaderRow(pages)
  {
    hide PtrParser.FirstHeader, HasHeaderLine, Lines.Grouped;
    if pages != [] {
      HeaderLineIff(Lines.Grouped(pages[0]));
      ElectronicIff(pages[1..]);
      if i :| 0 <= i < |pages[1..]| && HasHeaderLine(Lines.Grouped(pages[1..][i])) {
        assert pages[i + 1] == pages[1..][i];
      }
      if i :| 0 <= i < |pages| && HasHeaderLine(Lines.Grouped(pages[i])) {
        assert i > 0 ==> pages[1..][i - 1] == pages[i];
      }
    }
  }

  function Transactions(key: string, site: Site): seq<PtrParser.ParsedTransaction> {
    if site.read(key).Some? then PtrPass.Parsed(site.read(key).value, site.rules) else []
  }

  predicate NoDay(date: Option<string>, isDay: string -> bool) {
    date.Some? && !isDay(date.value)
  }

  /** A transaction of known type has a date that is no calendar day. */
  predicate HasBadDay(ts: seq<PtrParser.ParsedTransaction>, isDay: string -> bool) {
    exists i | 0 <= i < |ts| ::
      && ts[i].txType.Some?
      && (NoDay(ts[i].txDate, isDay) || NoDay(ts[i].notifDate, isDay) || NoDay(ts[i].option.expiry, isDay))
  }

  lemma {:induction false} DaysRealIff(ts: seq<PtrParser.ParsedTransaction>, isDay: string -> bool)
    ensures AllDaysReal(ts, isDay) <==> !HasBadDay(ts, isDay)
  {
  }

  /** The content was read and has no header row. */
  predicate IsScan(key: string, site: Site) {
    site.read(key).Some? && !HasHeaderRow(site.read(key).value)
  }

  /** The content was read and has a header row. */
  predicate IsForm(key: string, site: Site) {
    site.read(key).Some? && HasHeaderRow(site.read(key).value)
  }

  /** The read failed, or a form yields no transaction. */
  predicate YieldsNothing(key: string, site: Site) {
    site.read(key).None?
    || (IsForm(key, site) && !site.raises(site.read(key).value) && Transactions(key, site) == [])
  }

  /** The parser raises on a form, or a date stops the save. */
  predicate Stops(key: string, site: Site) {
    IsForm(key, site) && (site.raises(site.read(key).value) || HasBadDay(Transactions(key, site), site.isDay))
  }

  predicate Reads(key: string, site: Site) {
    && IsForm(key, site) && !site.raises(site.read(key).value) && Transactions(key, site) != []
    && !HasBadDay(Transactions(key, site), site.isDay)
  }

  function Copies(issue: Issue, n: nat): seq<Issue> {
    seq(n, _ => issue)
  }

  function Untyped(ts: seq<PtrParser.ParsedTransaction>): set<nat> {
    set i: nat | i < |ts| && ts[i].txType.None?
  }

  lemma {:induction false} UntypedIssuesAre(id: FilingId, ts: seq<PtrParser.ParsedTransaction>)
    ensures UntypedIssues(id, ts) == Copies(Issue(id, UnknownTxType, false), |Untyped(ts)|)
  {
    if ts != [] {
      var n := |ts| - 1;
      UntypedIssuesAre(id, ts[..n]);
      assert Untyped(ts) == Untyped(ts[..n]) + if ts[n].txType.None? then {n} else {};
    }
  }

  // ---- one parse ----

  /** What a parse of a pending filing leaves, by its content. */
  ghost predicate Marked(db: Db, after: Db, id: FilingId, key: string, site: Site)
    requires id in db.filings
  {
    var f := db.filings[id];
    id in after.filings
    && match after.filings[id].status
       case PaperDeferred => IsScan(key, site) && after.filings[id] == f.(format := Scanned, status := PaperDeferred)
       case Failed => YieldsNothing(key, site) && after.filings[id] == f.(format := Electronic, status := Failed)
       case Parsed =>
         && Reads(key, site) && after.filings[id] == f.(format := Electronic, status := Parsed)
         && RowsAre(RowsOf(after, id), Transactions(key, site))
       case Pending => Stops(key, site) && after.filings[id] == f
  }

  /** The issues it files: one when nothing came of the form, one for each transaction without a type. */
  function NewIssues(id: FilingId, key: string, site: Site): seq<Issue> {
    if YieldsNothing(key, site) then [Issue(id, ParseFailed, false)]
    else if Reads(key, site) then Copies(Issue(id, UnknownTxType, false), |Untyped(Transactions(key, site))|)
    else []
  }

  lemma {:induction false} OneOfFour(key: string, site: Site)
    ensures IsScan(key, site) || YieldsNothing(key, site) || Stops(key, site) || Reads(key, site)
    ensures Stops(key, site) ==> !IsScan(key, site) && !YieldsNothing(key, site) && !Reads(key, site)
    ensures Reads(key, site) ==> !IsScan(key, site) && !YieldsNothing(key, site)
    ensures IsScan(key, site) ==> !YieldsNothing(key, site)
  {
    hide HasHeaderRow, PtrPass.Parsed;
  }

  /** A parse of a selected pending filing defers it as a scan exactly when content without a header row
      was read, marks it failed with one open issue exactly when the read failed or a form yielded
      nothing, parses it exactly when the form reads, and leaves all as it was when it aborts. */
  lemma {:induction false} ParseMarks(db: Db, id: FilingId, key: string, site: Site)
    requires Inv(db) && SelectedForParse(db, id, key)
    ensures var (after, outcome) := ParseOne(db, id, key, site);
            && Marked(db, after, id, key, site)
            && after.issues == db.issues + NewIssues(id, key, site)
            && (outcome == Crashed <==> Stops(key, site)) && (outcome == Crashed ==> after == db)
            && (outcome == Success <==> Reads(key, site))
  {
    hide PtrPass.Parsed, HasHeaderRow, PtrParser.IsElectronic, TypedRows, AllDaysReal, HasBadDay, Clash, UntypedIssues;
    hide RowsAre, Untyped;
    assert RowsOk(db, id) && FilingOk(db.filings[id]);
    assert db.issues + [] == db.issues;
    if site.read(key).Some? {
      var pages := site.read(key).value;
      var ts := PtrPass.Parsed(pages, site.rules);
      ElectronicIff(pages);
      DaysRealIff(ts, site.isDay);
      ParserRows(pages, site.rules);
      UntypedIssuesAre(id, ts);
      assert RowsOf(db, id) + TypedRows(ts) == TypedRows(ts);
      NothingBad(site.isDay);
    }
  }

  lemma {:induction false} NothingBad(isDay: string -> bool)
    ensures !HasBadDay([], isDay)
  {
  }

  // ---- a whole parse run ----

  function AllNewIssues(selected: Selection, site: Site): seq<Issue> {
    if selected == [] then []
    else
      var n := |selected| - 1;
      AllNewIssues(selected[..n], site) + NewIssues(selected[n].0, selected[n].1, site)
  }

  /** The filings whose forms read, in the order of the selection. */
  function Read(selected: Selection, site: Site): seq<FilingId> {
    if selected == [] then []
    else
      var n := |selected| - 1;
      Read(selected[..n], site) + if Reads(selected[n].1, site) then [selected[n].0] else []
  }

  /** Up to the first filing that aborts it a run leaves every selected filing as its content says, files
      exactly their issues, and lists those whose forms read. */
  lemma {:induction false} RunMarks(db: Db, selected: Selection, site: Site, n: nat)
    requires Inv(db) && IsSelection(db, selected) && n <= |selected|
    requires forall i | 0 <= i < n :: !Stops(selected[i].1, site)
    ensures var r := RunParse(db, selected[..n], site);
            && !r.crashed && Inv(r.db) && r.db.issues == db.issues + AllNewIssues(selected[..n], site)
            && r.parsed == Read(selected[..n], site)
            && (forall i | 0 <= i < n ::
                  selected[i].0 in db.filings && Marked(db, r.db, selected[i].0, selected[i].1, site))
            && (forall f | f !in IdsOf(selected[..n]) :: SameAt(db, r.db, f))
  {
    hide ParseOne, Inv, Marked, Stops, Reads, NewIssues, SameAt, SelectedForParse;
    var r := RunParse(db, selected[..n], site);
    SelectedThere(db, selected);
    if n == 0 {
      assert selected[..0] == [];
      assert db.issues + [] == db.issues;
      AllSame(db);
    } else {
      RunMarks(db, selected, site, n - 1);
      var before := RunParse(db, selected[..n - 1], site).db;
      var (id, key) := selected[n - 1];
      assert selected[..n][..n - 1] == selected[..n - 1];
      NotYet(selected, n - 1, db);
      KeptSelected(db, before, id, key);
      MarkOne(db, before, id, key, site);
      var after := ParseOne(before, id, key, site).0;
      assert r.db == after;
      forall i | 0 <= i < n ensures Marked(db, after, selected[i].0, selected[i].1, site) {
        if i < n - 1 {
          MarkedStays(db, before, after, selected[i].0, selected[i].1, site);
        }
      }
      IdsOfSnoc(selected[..n]);
      forall f | f !in IdsOf(selected[..n]) ensures SameAt(db, after, f) {
        SameTwice(db, before, after, f);
      }
    }
  }

  /** There it stops, with what it has stored. */
  lemma {:induction false} RunStops(db: Db, selected: Selection, site: Site, n: nat)
    requires Inv(db) && IsSelection(db, selected) && n < |selected|
    requires (forall i | 0 <= i < n :: !Stops(selected[i].1, site)) && Stops(selected[n].1, site)
    ensures var r := RunParse(db, selected, site); r.crashed && r.db == RunParse(db, selected[..n], site).db
  {
    hide ParseOne, Inv, Marked, Stops, NewIssues, SameAt, SelectedForParse;
    RunMarks(db, selected, site, n);
    var r := RunParse(db, selected[..n], site);
    var (id, key) := selected[n];
    NotYet(selected, n, db);
    KeptSelected(db, r.db, id, key);
    ParseMarks(r.db, id, key, site);
    assert selected[..n + 1][..n] == selected[..n];
    RunParseCrashed(db, selected, n + 1, site);
  }

  lemma {:induction false} SelectedThere(db: Db, selected: Selection)
    requires IsSelection(db, selected)
    ensures forall i | 0 <= i < |selected| :: selected[i].0 in db.filings
  {
  }

  lemma {:induction false} AllSame(db: Db)
    ensures forall f :: SameAt(db, db, f)
  {
  }

  lemma {:induction false} SameTwice(a: Db, b: Db, c: Db, f: FilingId)
    requires SameAt(a, b, f) && SameAt(b, c, f)
    ensures SameAt(a, c, f)
  {
  }

  /** The filings before one in a selection are others. */
  lemma {:induction false} NotYet(selected: Selection, n: nat, db: Db)
    requires IsSelection(db, selected) && n < |selected|
    ensures selected[n].0 !in IdsOf(selected[..n]) && SelectedForParse(db, selected[n].0, selected[n].1)
    ensures forall i | 0 <= i < n :: selected[i].0 != selected[n].0
  {
  }

  lemma {:induction false} KeptSelected(db: Db, before: Db, id: FilingId, key: string)
    requires SelectedForParse(db, id, key) && SameAt(db, before, id)
    ensures SelectedForParse(before, id, key)
  {
  }

  lemma {:induction false} MarkedStays(db: Db, before: Db, after: Db, id: FilingId, key: string, site: Site)
    requires id in db.filings && Marked(db, before, id, key, site) && SameAt(before, after, id)
    ensures Marked(db, after, id, key, site)
  {
    hide IsScan, YieldsNothing, Reads, Stops, RowsAre;
  }

  lemma {:induction false} MarkOne(db: Db, before: Db, id: FilingId, key: string, site: Site)
    requires Inv(before) && SelectedForParse(before, id, key) && !Stops(key, site)
    requires id in db.filings && SameAt(db, before, id)
    ensures var (after, outcome) := ParseOne(before, id, key, site);
            && outcome != Crashed && Inv(after) && Marked(db, after, id, key, site)
            && (outcome == Success <==> Reads(key, site))
            && after.issues == before.issues + NewIssues(id, key, site)
            && forall f | f != id :: SameAt(before, after, f)
  {
    hide ParseOne, Inv, NewIssues, IsScan, YieldsNothing, Reads, Stops, RowsAre;
    ParseMarks(before, id, key, site);
    ParseEffect(before, id, key, site);
  }

  // ---- one re-parse ----

  /** What a re-parse makes of a filing that was selected with status `was`: a scan stays deferred. */
  predicate ComesToNothing(key: string, was: Status, site: Site) {
    match site.read(key)
    case None => true
    case Some(pages) =>
      || (was == PaperDeferred && !HasHeaderRow(pages))
      || (!site.raises(pages) && Transactions(key, site) == [])
  }

  predicate ResaveStops(key: string, was: Status, site: Site) {
    && site.read(key).Some? && (was == PaperDeferred ==> HasHeaderRow(site.read(key).value))
    && (site.raises(site.read(key).value) || HasBadDay(Transactions(key, site), site.isDay))
  }

  /** A re-parse leaves no mark: all stays as it was, unless the form reads. Then the filing is parsed and
      electronic, its rows are the form's, every parse-failed issue of it is resolved, one issue is filed
      for each transaction without a type, and no other issue changes. */
  lemma {:induction false} ReparseMarks(db: Db, id: FilingId, key: string, was: Status, site: Site)
    requires Inv(db) && SelectedForReparse(db, id, key, was)
    ensures var (after, outcome) := ReparseOne(db, id, key, was, site);
            var ts := Transactions(key, site);
            && (outcome == Failure <==> ComesToNothing(key, was, site))
            && (outcome == Crashed <==> ResaveStops(key, was, site))
            && (outcome != Success ==> after == db)
            && (outcome == Success ==>
                  && after.filings == db.filings[id := db.filings[id].(format := Electronic, status := Parsed)]
                  && RowsAre(RowsOf(after, id), ts)
                  && |after.issues| == |db.issues| + |Untyped(ts)|
                  && (forall i | 0 <= i < |db.issues| ::
                        after.issues[i] == if db.issues[i].filing == id && db.issues[i].kind == ParseFailed
                                           then Issue(id, ParseFailed, true) else db.issues[i])
                  && (forall i | |db.issues| <= i < |after.issues| ::
                        after.issues[i] == Issue(id, UnknownTxType, false)))
            && outcome != Skipped
  {
    hide PtrPass.Parsed, HasHeaderRow, PtrParser.IsElectronic, TypedRows, AllDaysReal, HasBadDay, Clash, UntypedIssues;
    hide RowsAre, Untyped;
    assert RowsOk(db, id) && FilingOk(db.filings[id]);
    if site.read(key).Some? {
      var pages := site.read(key).value;
      var ts := PtrPass.Parsed(pages, site.rules);
      ElectronicIff(pages);
      DaysRealIff(ts, site.isDay);
      ParserRows(pages, site.rules);
      UntypedIssuesAre(id, ts);
      assert RowsOf(db, id) + TypedRows(ts) == TypedRows(ts);
      NothingBad(site.isDay);
    }
  }

  // ---- a whole re-parse run ----

  type Reselection = seq<(FilingId, string, Status)>

  predicate IsReselection(db: Db, selected: Reselection) {
    && (forall i | 0 <= i < |selected| :: SelectedForReparse(db, selected[i].0, selected[i].1, selected[i].2))
    && (forall i, j | 0 <= i < j < |selected| :: selected[i].0 != selected[j].0)
  }

  /** The positions of the filings that come to nothing once more. */
  function Failing(selected: Reselection, site: Site): set<nat> {
    set i: nat | i < |selected| && ComesToNothing(selected[i].1, selected[i].2, site)
  }

  lemma {:induction false} OneMoreFailing(selected: Reselection, site: Site)
    requires selected != []
    ensures var n := |selected| - 1;
            |Failing(selected, site)|
              == |Failing(selected[..n], site)| + (if ComesToNothing(selected[n].1, selected[n].2, site) then 1 else 0)
  {
    hide ComesToNothing;
    var n := |selected| - 1;
    assert Failing(selected, site)
           == Failing(selected[..n], site) + if ComesToNothing(selected[n].1, selected[n].2, site) then {n} else {};
  }

  /** A filing of the run is as it was when it comes to nothing again, and else parsed with its form's rows. */
  ghost predicate Remarked(db: Db, after: Db, id: FilingId, key: string, was: Status, site: Site)
    requires id in db.filings
  {
    if ComesToNothing(key, was, site) then SameAt(db, after, id)
    else
      && id in after.filings
      && after.filings[id] == db.filings[id].(format := Electronic, status := Parsed)
      && RowsAre(RowsOf(after, id), Transactions(key, site))
  }

  /** A re-parse run that nothing stops counts the filings that come to nothing and the others, leaves
      each of the first as it was and parses each of the others, and touches no other filing. */
  lemma {:induction false} ReparseRunMarks(db: Db, selected: Reselection, site: Site)
    requires Inv(db) && IsReselection(db, selected)
    requires forall i | 0 <= i < |selected| :: !ResaveStops(selected[i].1, selected[i].2, site)
    ensures var r := RunReparse(db, selected, site);
            && !r.crashed && Inv(r.db)
            && r.stillFailed == |Failing(selected, site)| && r.nowParsed + r.stillFailed == |selected|
            && (forall i | 0 <= i < |selected| ::
                  selected[i].0 in db.filings
                  && Remarked(db, r.db, selected[i].0, selected[i].1, selected[i].2, site))
            && (forall f | f !in Reselected(selected) :: SameAt(db, r.db, f))
  {
    hide ReparseOne, Inv, Remarked, ResaveStops, SameAt, SelectedForReparse, Failing, Reselected;
    if selected == [] {
      NoneReparsed(site);
      AllSame(db);
    } else {
      var n := |selected| - 1;
      ReparseRunMarks(db, selected[..n], site);
      OneMoreFailing(selected, site);
      ReselectedSnoc(selected, db);
      var before := RunReparse(db, selected[..n], site).db;
      var (id, key, was) := selected[n];
      KeptReselected(db, before, id, key, was);
      RemarkOne(db, before, id, key, was, site);
      var after := ReparseOne(before, id, key, was, site).0;
      forall i | 0 <= i < |selected|
        ensures selected[i].0 in db.filings
        ensures Remarked(db, after, selected[i].0, selected[i].1, selected[i].2, site)
      {
        if i < n {
          assert selected[..n][i] == selected[i];
          RemarkedStays(db, before, after, selected[i].0, selected[i].1, selected[i].2, site);
        }
      }
      forall f | f !in Reselected(selected) ensures SameAt(db, after, f) {
        SameTwice(db, before, after, f);
      }
    }
  }

  function Reselected(selected: Reselection): set<FilingId> {
    set i | 0 <= i < |selected| :: selected[i].0
  }

  lemma {:induction false} NoneReparsed(site: Site)
    ensures Failing([], site) == {} && Reselected([]) == {}
  {
  }

  lemma {:induction false} ReselectedSnoc(selected: Reselection, db: Db)
    requires selected != [] && IsReselection(db, selected)
    ensures var n := |selected| - 1;
            && Reselected(selected) == Reselected(selected[..n]) + {selected[n].0}
            && selected[n].0 !in Reselected(selected[..n]) && IsReselection(db, selected[..n])
            && SelectedForReparse(db, selected[n].0, selected[n].1, selected[n].2)
            && forall i | 0 <= i < n :: selected[i].0 != selected[n].0
  {
    var n := |selected| - 1;
    assert selected == selected[..n] + [selected[n]];
  }

  lemma {:induction false} KeptReselected(db: Db, before: Db, id: FilingId, key: string, was: Status)
    requires SelectedForReparse(db, id, key, was) && SameAt(db, before, id)
    ensures SelectedForReparse(before, id, key, was) && id in db.filings
  {
  }

  lemma {:induction false} RemarkedStays(db: Db, before: Db, after: Db, id: FilingId, key: string, was: Status,
                                         site: Site)
    requires id in db.filings && Remarked(db, before, id, key, was, site) && SameAt(before, after, id)
    ensures Remarked(db, after, id, key, was, site)
  {
    hide ComesToNothing, RowsAre;
  }

  lemma {:induction false} RemarkOne(db: Db, before: Db, id: FilingId, key: string, was: Status, site: Site)
    requires Inv(before) && SelectedForReparse(before, id, key, was) && !ResaveStops(key, was, site)
    requires id in db.filings && SameAt(db, before, id)
    ensures var (after, outcome) := ReparseOne(before, id, key, was, site);
            && Inv(after) && Remarked(db, after, id, key, was, site)
            && outcome == (if ComesToNothing(key, was, site) then Failure else Success)
            && forall f | f != id :: SameAt(before, after, f)
  {
    hide ReparseOne, Inv, ComesToNothing, ResaveStops, RowsAre;
    ReparseMarks(before, id, key, was, site);
    ReparseEffect(before, id, key, was, site);
  }

  // ---- one import ----

  function TypedRowNumbers(rows: seq<TranscribedRow>): set<nat> {
    set i: nat | i < |rows| && rows[i].txType.Some?
  }

  function UntypedRowNumbers(rows: seq<TranscribedRow>): set<nat> {
    set i: nat | i < |rows| && rows[i].txType.None?
  }

  lemma {:induction false} UntypedTranscriptIs(id: FilingId, rows: seq<TranscribedRow>)
    ensures UntypedTranscript(id, rows) == Copies(Issue(id, UnknownTxType, false), |UntypedRowNumbers(rows)|)
  {
    if rows != [] {
      var n := |rows| - 1;
      UntypedTranscriptIs(id, rows[..n]);
      assert UntypedRowNumbers(rows) == UntypedRowNumbers(rows[..n]) + if rows[n].txType.None? then {n} else {};
    }
  }

  lemma {:induction false} RowNumbersAre(rows: seq<TranscribedRow>, file: string)
    ensures TranscriptRows(rows).Keys == TypedRowNumbers(rows)
    ensures ProvenanceOf(rows, file).Keys == TypedRowNumbers(rows)
  {
    if rows != [] {
      var n := |rows| - 1;
      RowNumbersAre(rows[..n], file);
      assert TypedRowNumbers(rows) == TypedRowNumbers(rows[..n]) + if rows[n].txType.Some? then {n} else {};
    }
  }

  lemma {:induction false} RowCount(rows: seq<TranscribedRow>)
    ensures |TranscriptRows(rows)| == |TypedRowNumbers(rows)|
  {
    hide TranscriptRows, TypedRowNumbers;
    RowNumbersAre(rows, "");
    assert |TranscriptRows(rows)| == |TranscriptRows(rows).Keys|;
  }

  lemma {:induction false} ProvenanceIs(rows: seq<TranscribedRow>, file: string, k: nat)
    requires k in TypedRowNumbers(rows)
    ensures k in TranscriptRows(rows) && TranscriptRows(rows)[k] == FromTranscript(rows[k])
    ensures k in ProvenanceOf(rows, file)
    ensures ProvenanceOf(rows, file)[k] == Provenance(rows[k].confidence, rows[k].review, rows[k].note, file)
  {
    var n := |rows| - 1;
    RowNumbersAre(rows[..n], file);
    if k < n {
      ProvenanceIs(rows[..n], file, k);
    }
  }

  /** An import takes a filing that is deferred or failed and has no rows, and no other. It becomes parsed
      and keeps its format; each row of known type is stored under its position with its confidence,
      review, note and file, and one issue is filed for each of the others. */
  lemma {:induction false} ImportMarks(db: Db, id: FilingId, rows: seq<TranscribedRow>, file: string)
    ensures var after := ImportOne(db, id, rows, file);
            if id in db.filings && db.filings[id].status in {PaperDeferred, Failed} && RowsOf(db, id) == map[]
            then
              && after.filings == db.filings[id := db.filings[id].(status := Parsed)]
              && RowsOf(after, id).Keys == SourcesOf(after, id).Keys == TypedRowNumbers(rows)
              && (forall k | k in RowsOf(after, id) ::
                    && k < |rows| && RowsOf(after, id)[k] == FromTranscript(rows[k])
                    && SourcesOf(after, id)[k] == Provenance(rows[k].confidence, rows[k].review, rows[k].note, file))
              && after.issues == db.issues + Copies(Issue(id, UnknownTxType, false), |UntypedRowNumbers(rows)|)
            else after == db
  {
    hide TranscriptRows, ProvenanceOf, UntypedTranscript;
    UntypedTranscriptIs(id, rows);
    RowNumbersAre(rows, file);
    forall k | k in TypedRowNumbers(rows)
      ensures TranscriptRows(rows)[k] == FromTranscript(rows[k])
      ensures ProvenanceOf(rows, file)[k] == Provenance(rows[k].confidence, rows[k].review, rows[k].note, file)
    {
      ProvenanceIs(rows, file, k);
    }
  }

  /** The positions of the filings an import takes. */
  function Taken(db: Db, order: seq<FilingId>): set<nat> {
    set i: nat | i < |order| && !SkipsImport(db, order[i])
  }

  /** The rows an import of a file adds, over the filings it takes. */
  function RowsAdded(db: Db, order: seq<FilingId>, csv: Transcript): nat {
    if order == [] then 0
    else
      var n := |order| - 1;
      RowsAdded(db, order[..n], csv)
      + if SkipsImport(db, order[n]) then 0 else |TypedRowNumbers(csv.RowsOf(order[n]))|
  }

  lemma {:induction false} OneMoreTaken(db: Db, order: seq<FilingId>)
    requires order != []
    ensures var n := |order| - 1;
            |Taken(db, order)| == |Taken(db, order[..n])| + (if SkipsImport(db, order[n]) then 0 else 1)
  {
    hide SkipsImport;
    var n := |order| - 1;
    assert Taken(db, order) == Taken(db, order[..n]) + if SkipsImport(db, order[n]) then {} else {n};
  }

  /** The three counters of an import: filings taken, rows stored for them, filings left alone. */
  lemma {:induction false} ImportCounters(db: Db, order: seq<FilingId>, csv: Transcript, file: string)
    requires forall i, j | 0 <= i < j < |order| :: order[i] != order[j]
    ensures var r := RunImport(db, order, csv, file);
            && r.imported == |Taken(db, order)| && r.imported + r.skipped == |order|
            && r.added == RowsAdded(db, order, csv)
            && forall f | f !in order :: SameAt(db, r.db, f)
  {
    hide SkipsImport, ImportOne, TranscriptRows, TypedRowNumbers, Taken, SameAt;
    AllSame(db);
    if order == [] {
      NoneTaken(db);
    } else {
      var n := |order| - 1;
      var id := order[n];
      var before, r := RunImport(db, order[..n], csv, file), RunImport(db, order, csv, file);
      ImportCounters(db, order[..n], csv, file);
      OneMoreTaken(db, order);
      LastIsNew(order);
      SameSkips(db, before.db, id);
      RowCount(csv.RowsOf(id));
      forall f | f !in order ensures SameAt(db, r.db, f) {
        InPrefix(order, n, f);
        ImportElsewhere(before.db, id, csv.RowsOf(id), file, f);
        SameTwice(db, before.db, r.db, f);
      }
    }
  }

  lemma {:induction false} NoneTaken(db: Db)
    ensures Taken(db, []) == {}
  {
  }

  lemma {:induction false} LastIsNew(order: seq<FilingId>)
    requires order != []
    requires forall i, j | 0 <= i < j < |order| :: order[i] != order[j]
    ensures order[|order| - 1] !in order[..|order| - 1]
  {
  }

  lemma {:induction false} InPrefix(order: seq<FilingId>, n: nat, f: FilingId)
    requires n < |order| && f !in order
    ensures f !in order[..n] && f != order[n]
  {
  }

  lemma {:induction false} SameSkips(db: Db, before: Db, id: FilingId)
    requires SameAt(db, before, id)
    ensures SkipsImport(before, id) <==> SkipsImport(db, id)
  {
  }

  lemma {:induction false} ImportElsewhere(db: Db, id: FilingId, rows: seq<TranscribedRow>, file: string, f: FilingId)
    requires f != id
    ensures SameAt(db, ImportOne(db, id, rows, file), f) && SameAt(db, db, f)
  {
    hide TranscriptRows, ProvenanceOf, UntypedTranscript;
  }
}
