/** What every run of the pipeline keeps about House PTRs, and what a whole run does. */
module LifecycleLaws {
  import opened Optional
  import opened Lines
  import opened Lifecycle
  import opened Transcripts
  import PtrParser
  import PtrPass
  import PtrLaws
  import Scheduler

  // ---- the state machine ----

  /** One filing's worth of one run, or an arrival. */
  datatype Step =
    | Insert(id: FilingId, filing: Filing)
    | Archive(id: FilingId, key: string)
    | Parse(id: FilingId, key: string, site: Site)
    | Reparse(id: FilingId, key: string, was: Status, site: Site)
    | Import(id: FilingId, rows: seq<TranscribedRow>, file: string)

  /** The runs that select from the table do so one at a time, so a filing still is as selected. */
  predicate Next(db: Db, step: Step, db': Db) {
    match step
    case Insert(id, filing) =>
      && id !in db.filings && filing.rawKey.None? && filing.status in {Pending, PaperDeferred}
      && (IsPtr(filing) ==> filing.format == Unknown && filing.status == Pending)
      && db' == db.(filings := db.filings[id := filing])
    case Archive(id, key) =>
      && id in db.filings && db.filings[id].rawKey.None?
      && db' == db.(filings := db.filings[id := db.filings[id].(rawKey := Some(key))])
    case Parse(id, key, site) =>
      SelectedForParse(db, id, key) && db' == ParseOne(db, id, key, site).0
    case Reparse(id, key, was, site) =>
      SelectedForReparse(db, id, key, was) && db' == ReparseOne(db, id, key, was, site).0
    case Import(id, rows, file) =>
      db' == ImportOne(db, id, rows, file)
  }

  predicate SelectedForParse(db: Db, id: FilingId, key: string) {
    && id in db.filings && db.filings[id].house && db.filings[id].filingType == "P"
    && db.filings[id].format == Unknown && db.filings[id].rawKey == Some(key)
  }

  predicate SelectedForReparse(db: Db, id: FilingId, key: string, was: Status) {
    && id in db.filings && db.filings[id].house && db.filings[id].filingType == "P"
    && db.filings[id].rawKey == Some(key) && db.filings[id].status == was && was in {Failed, PaperDeferred}
  }

  // ---- the invariant ----

  predicate FilingOk(f: Filing) {
    IsPtr(f) ==>
      && (f.format == Unknown <==> f.status == Pending)
      && (f.status == Failed ==> f.format == Electronic)
      && (f.status == PaperDeferred ==> f.format == Scanned)
      && (f.status == Parsed ==> f.format == Electronic || f.format == Scanned)
  }

  function SourcesOf(db: Db, id: FilingId): map<nat, Provenance> {
    if id in db.provenance then db.provenance[id] else map[]
  }

  /** Rows belong to parsed filings; a row is transcribed exactly when its provenance says so, and a
      parsed PTR still called scanned has transcribed rows only. */
  predicate RowsOk(db: Db, id: FilingId) {
    && (id in db.filings && IsPtr(db.filings[id]) && db.filings[id].status == Parsed
        && db.filings[id].format == Scanned ==>
          RowsOf(db, id).Keys <= SourcesOf(db, id).Keys)
    && (RowsOf(db, id) != map[] ==> id in db.filings && db.filings[id].status == Parsed)
    && SourcesOf(db, id).Keys <= RowsOf(db, id).Keys
    && (forall k | k in RowsOf(db, id) :: RowsOf(db, id)[k].FromTranscript? <==> k in SourcesOf(db, id))
  }

  ghost predicate Inv(db: Db) {
    && (forall id | id in db.filings :: FilingOk(db.filings[id]))
    && (forall id :: RowsOk(db, id))
  }

  /** No filing but `id` differs. */
  ghost predicate OthersSame(db: Db, db': Db, id: FilingId) {
    forall f | f != id :: SameAt(db, db', f)
  }

  predicate SameAt(db: Db, db': Db, f: FilingId) {
    && (f in db'.filings <==> f in db.filings) && (f in db.filings ==> db'.filings[f] == db.filings[f])
    && RowsOf(db', f) == RowsOf(db, f) && SourcesOf(db', f) == SourcesOf(db, f)
  }

  lemma {:induction false} InvElsewhere(db: Db, db': Db, id: FilingId)
    requires Inv(db) && OthersSame(db, db', id)
    requires id in db'.filings ==> FilingOk(db'.filings[id])
    requires RowsOk(db', id)
    ensures Inv(db')
  {
    hide FilingOk;
    forall f ensures RowsOk(db', f) && (f in db'.filings ==> FilingOk(db'.filings[f])) {
      assert RowsOk(db, f);
      assert f != id ==> SameAt(db, db', f);
    }
  }

  // ---- saves ----

  /** One row for each typed transaction, under its position. */
  ghost predicate RowsAre(rows: Rows, ts: seq<PtrParser.ParsedTransaction>) {
    && (forall k: nat :: k in rows <==> k < |ts| && ts[k].txType.Some?)
    && (forall k | k in rows :: rows[k] == FromForm(ts[k]))
  }

  lemma {:induction false} TypedRowsAt(ts: seq<PtrParser.ParsedTransaction>)
    requires forall i | 0 <= i < |ts| :: ts[i].rowIndex == i
    ensures !Clash(ts) && RowsAre(TypedRows(ts), ts)
  {
    if ts != [] {
      var before := ts[..|ts| - 1];
      assert forall i | 0 <= i < |before| :: before[i] == ts[i];
      TypedRowsAt(before);
    }
  }

  lemma {:induction false} ParserRows(pages: seq<seq<Word>>, rules: PtrParser.Rules)
    ensures var ts := PtrPass.Parsed(pages, rules); !Clash(ts) && RowsAre(TypedRows(ts), ts)
  {
    hide PtrPass.Parsed, TypedRows, Clash, RowsAre;
    var ts := PtrPass.Parsed(pages, rules);
    forall i | 0 <= i < |ts| ensures ts[i].rowIndex == i {
      PtrLaws.ParsedRowIndex(pages, rules, i);
    }
    TypedRowsAt(ts);
  }

  lemma {:induction false} NoUntyped(id: FilingId, ts: seq<PtrParser.ParsedTransaction>)
    requires forall i | 0 <= i < |ts| :: ts[i].txType.Some?
    ensures UntypedIssues(id, ts) == []
  {
    if ts != [] {
      NoUntyped(id, ts[..|ts| - 1]);
    }
  }

  /** A save of the parser's output never conflicts on a filing that has no rows yet. */
  lemma {:induction false} SaveStores(db: Db, id: FilingId, pages: seq<seq<Word>>, rules: PtrParser.Rules,
                                      resolving: bool, isDay: string -> bool)
    requires id in db.filings && RowsOf(db, id) == map[]
    ensures var ts := PtrPass.Parsed(pages, rules);
            var (after, r) := Save(db, id, ts, resolving, isDay);
            && (r == BadDate <==> !AllDaysReal(ts, isDay))
            && (r == BadDate ==> after == db)
            && (r != BadDate ==> r == Saved && RowsOf(after, id) == TypedRows(ts)
                                 && after.filings
                                    == db.filings[id := db.filings[id].(format := Electronic, status := Parsed)]
                                 && after.provenance == db.provenance)
            && OthersSame(db, after, id)
  {
    hide PtrPass.Parsed, TypedRows, Clash, AllDaysReal, Resolved, UntypedIssues, RowsAre;
    ParserRows(pages, rules);
    var ts := PtrPass.Parsed(pages, rules);
    assert RowsOf(db, id) + TypedRows(ts) == TypedRows(ts);
  }

  /** When the detected columns are in order, saving a parsed form stores one row for each of its
      transactions, under its position, and files no unknown-type issue. */
  lemma {:induction false} SavedFormComplete(db: Db, id: FilingId, pages: seq<seq<Word>>, rules: PtrParser.Rules,
                                             isDay: string -> bool)
    requires PtrLaws.TypeZoneClear(PtrParser.DetectColumnBounds(pages))
    requires id in db.filings && RowsOf(db, id) == map[]
    requires AllDaysReal(PtrPass.Parsed(pages, rules), isDay)
    ensures var ts := PtrPass.Parsed(pages, rules);
            var (after, r) := Save(db, id, ts, false, isDay);
            && r == Saved && after.issues == db.issues
            && (forall k: nat :: k in RowsOf(after, id) <==> k < |ts|)
            && (forall k | k in RowsOf(after, id) :: RowsOf(after, id)[k] == FromForm(ts[k]))
  {
    hide PtrPass.Parsed, TypedRows, Clash, PtrLaws.TypeZoneClear, PtrParser.DetectColumnBounds, AllDaysReal;
    PtrLaws.ParsedTypesKnown(pages, rules);
    ParserRows(pages, rules);
    var ts := PtrPass.Parsed(pages, rules);
    NoUntyped(id, ts);
    SaveStores(db, id, pages, rules, false, isDay);
    assert db.issues + [] == db.issues;
  }

  predicate AllFromForm(rows: Rows) {
    forall k | k in rows :: rows[k].FromForm?
  }

  lemma {:induction false} FormRows(pages: seq<seq<Word>>, rules: PtrParser.Rules)
    ensures AllFromForm(TypedRows(PtrPass.Parsed(pages, rules)))
  {
    hide PtrPass.Parsed, TypedRows, Clash;
    ParserRows(pages, rules);
  }

  lemma {:induction false} TranscriptRowsAt(rows: seq<TranscribedRow>, file: string)
    ensures ProvenanceOf(rows, file).Keys == TranscriptRows(rows).Keys
    ensures forall k: nat :: k in TranscriptRows(rows) <==> k < |rows| && rows[k].txType.Some?
    ensures forall k | k in TranscriptRows(rows) :: TranscriptRows(rows)[k] == FromTranscript(rows[k])
  {
    if rows != [] {
      TranscriptRowsAt(rows[..|rows| - 1], file);
    }
  }

  // ---- every step ----

  function FormRowsOf(key: string, site: Site): Rows {
    if site.read(key).Some? then TypedRows(PtrPass.Parsed(site.read(key).value, site.rules)) else map[]
  }

  /** The rows a step stores for the filing it saves. */
  function SavedRows(step: Step): Rows {
    match step
    case Parse(_, key, site) => FormRowsOf(key, site)
    case Reparse(_, key, _, site) => FormRowsOf(key, site)
    case Import(_, rows, _) => TranscriptRows(rows)
    case _ => map[]
  }

  function StatusOf(db: Db, id: FilingId): Option<Status> {
    if id in db.filings then Some(db.filings[id].status) else None
  }

  /** What a step does to the filing it names; no other filing is touched. */
  ghost predicate Effect(db: Db, step: Step, db': Db) {
    && OthersSame(db, db', step.id)
    && (StatusOf(db, step.id) == Some(Parsed) ==> Untouched(db, db', step.id))
    && (StatusOf(db, step.id) != Some(Parsed) && !step.Insert? ==>
          if StatusOf(db', step.id) == Some(Parsed) then RowsOf(db', step.id) == SavedRows(step)
          else RowsOf(db', step.id) == RowsOf(db, step.id))
  }

  /** A filing's status, format, rows and provenance are the same. */
  predicate Untouched(db: Db, db': Db, id: FilingId) {
    && id in db.filings && id in db'.filings
    && db'.filings[id].status == db.filings[id].status && db'.filings[id].format == db.filings[id].format
    && RowsOf(db', id) == RowsOf(db, id) && SourcesOf(db', id) == SourcesOf(db, id)
  }

  /** A failed parse leaves a mark on a filing without rows. */
  lemma {:induction false} MarkEffect(db: Db, id: FilingId, marked: Db)
    requires Inv(db) && id in db.filings && RowsOf(db, id) == map[]
    requires marked == MarkedFailed(db, id) || marked == MarkedDeferred(db, id)
    ensures Inv(marked) && OthersSame(db, marked, id)
    ensures StatusOf(marked, id) in {Some(Failed), Some(PaperDeferred)} && RowsOf(marked, id) == map[]
  {
    assert RowsOk(db, id) && FilingOk(db.filings[id]);
    InvElsewhere(db, marked, id);
  }

  lemma {:induction false} SaveEffect(db: Db, id: FilingId, pages: seq<seq<Word>>, rules: PtrParser.Rules,
                                      resolving: bool, isDay: string -> bool)
    requires Inv(db) && id in db.filings && RowsOf(db, id) == map[]
    ensures var ts := PtrPass.Parsed(pages, rules);
            var (after, r) := Save(db, id, ts, resolving, isDay);
            && Inv(after) && OthersSame(db, after, id) && r != Conflict && (r == BadDate ==> after == db)
            && (r == Saved ==> StatusOf(after, id) == Some(Parsed) && RowsOf(after, id) == TypedRows(ts))
  {
    hide PtrPass.Parsed, TypedRows, Save, AllDaysReal;
    assert RowsOk(db, id) && FilingOk(db.filings[id]);
    SaveStores(db, id, pages, rules, resolving, isDay);
    FormRows(pages, rules);
    InvElsewhere(db, Save(db, id, PtrPass.Parsed(pages, rules), resolving, isDay).0, id);
  }

  lemma {:induction false} NoRowsYet(db: Db, id: FilingId)
    requires Inv(db) && id in db.filings && IsPtr(db.filings[id])
    requires db.filings[id].format == Unknown || db.filings[id].status != Parsed
    ensures RowsOf(db, id) == map[] && StatusOf(db, id) != Some(Parsed)
  {
    assert RowsOk(db, id) && FilingOk(db.filings[id]);
  }

  lemma {:induction false} ParseEffect(db: Db, id: FilingId, key: string, site: Site)
    requires Inv(db) && SelectedForParse(db, id, key)
    ensures var db' := ParseOne(db, id, key, site).0;
            Inv(db') && Effect(db, Parse(id, key, site), db') && ParseOne(db, id, key, site).1 != Skipped
  {
    hide PtrPass.Parsed, PtrParser.IsElectronic, TypedRows, Save, AllDaysReal, Inv, MarkedFailed, MarkedDeferred;
    hide RowsOf;
    NoRowsYet(db, id);
    MarkEffect(db, id, MarkedFailed(db, id));
    MarkEffect(db, id, MarkedDeferred(db, id));
    if site.read(key).Some? {
      SaveEffect(db, id, site.read(key).value, site.rules, false, site.isDay);
    }
  }

  lemma {:induction false} ReparseEffect(db: Db, id: FilingId, key: string, was: Status, site: Site)
    requires Inv(db) && SelectedForReparse(db, id, key, was)
    ensures var db' := ReparseOne(db, id, key, was, site).0;
            Inv(db') && Effect(db, Reparse(id, key, was, site), db') && ReparseOne(db, id, key, was, site).1 != Skipped
  {
    hide PtrPass.Parsed, PtrParser.IsElectronic, TypedRows, Save, AllDaysReal, Inv, RowsOf;
    NoRowsYet(db, id);
    if site.read(key).Some? {
      SaveEffect(db, id, site.read(key).value, site.rules, true, site.isDay);
    }
  }

  lemma {:induction false} ImportEffect(db: Db, id: FilingId, rows: seq<TranscribedRow>, file: string)
    requires Inv(db)
    ensures var db' := ImportOne(db, id, rows, file);
            Inv(db') && Effect(db, Import(id, rows, file), db')
  {
    hide TranscriptRows, ProvenanceOf, UntypedTranscript;
    assert RowsOk(db, id);
    assert id in db.filings ==> FilingOk(db.filings[id]);
    TranscriptRowsAt(rows, file);
    InvElsewhere(db, ImportOne(db, id, rows, file), id);
  }

  lemma {:induction false} ArrivalEffect(db: Db, step: Step, db': Db)
    requires Inv(db) && Next(db, step, db') && (step.Insert? || step.Archive?)
    ensures Inv(db') && Effect(db, step, db')
  {
    assert RowsOk(db, step.id);
    assert step.id in db.filings ==> FilingOk(db.filings[step.id]);
    InvElsewhere(db, db', step.id);
  }

  lemma {:induction false} StepKeepsInv(db: Db, step: Step, db': Db)
    requires Inv(db) && Next(db, step, db')
    ensures Inv(db') && Effect(db, step, db')
  {
    hide Inv, Effect, ParseOne, ReparseOne, ImportOne;
    match step
    case Insert(_, _) => ArrivalEffect(db, step, db');
    case Archive(_, _) => ArrivalEffect(db, step, db');
    case Parse(id, key, site) => ParseEffect(db, id, key, site);
    case Reparse(id, key, was, site) => ReparseEffect(db, id, key, was, site);
    case Import(id, rows, file) => ImportEffect(db, id, rows, file);
  }

  // ---- whole runs ----

  ghost predicate Run(dbs: seq<Db>, steps: seq<Step>) {
    && |dbs| == |steps| + 1 && Inv(dbs[0])
    && forall i | 0 <= i < |steps| :: Next(dbs[i], steps[i], dbs[i + 1])
  }

  /** Through any sequence of insertions, archivings, parses, re-parses and imports: a PTR's format is
      unknown exactly while it is pending, and only parsed filings have rows. */
  lemma {:induction false} RunKeepsInv(dbs: seq<Db>, steps: seq<Step>, i: nat)
    requires Run(dbs, steps) && i < |dbs|
    ensures Inv(dbs[i])
  {
    hide Inv, Next;
    if i > 0 {
      RunKeepsInv(dbs, steps, i - 1);
      assert Next(dbs[i - 1], steps[i - 1], dbs[i - 1 + 1]);
      StepKeepsInv(dbs[i - 1], steps[i - 1], dbs[i]);
    }
  }

  /** Parsed is never left, and a parsed filing's rows never change. */
  lemma {:induction false} ParsedIsFinal(dbs: seq<Db>, steps: seq<Step>, i: nat, j: nat, id: FilingId)
    requires Run(dbs, steps) && i <= j < |dbs| && StatusOf(dbs[i], id) == Some(Parsed)
    ensures Untouched(dbs[i], dbs[j], id)
    decreases j - i
  {
    hide Inv, Next;
    if i < j {
      ParsedIsFinal(dbs, steps, i, j - 1, id);
      RunKeepsInv(dbs, steps, j - 1);
      assert Next(dbs[j - 1], steps[j - 1], dbs[j - 1 + 1]);
      StepKeepsInv(dbs[j - 1], steps[j - 1], dbs[j]);
      assert steps[j - 1].id != id ==> SameAt(dbs[j - 1], dbs[j], id);
    }
  }

  /** Step `i` is the save that parsed the filing. */
  predicate SavedAt(dbs: seq<Db>, steps: seq<Step>, i: nat, id: FilingId)
    requires i < |steps| && |dbs| == |steps| + 1
  {
    && steps[i].id == id && (steps[i].Parse? || steps[i].Reparse? || steps[i].Import?)
    && StatusOf(dbs[i], id) != Some(Parsed) && StatusOf(dbs[i + 1], id) == Some(Parsed)
  }

  /** A filing that is parsed in the end, and was absent or not parsed at first, was saved by
      exactly one step; its rows are that step's rows, all of them, and nothing else. */
  lemma {:induction false} RowsFromOneSave(dbs: seq<Db>, steps: seq<Step>, id: FilingId) returns (i: nat)
    requires Run(dbs, steps) && StatusOf(dbs[0], id) != Some(Parsed) && StatusOf(dbs[|steps|], id) == Some(Parsed)
    ensures i < |steps| && SavedAt(dbs, steps, i, id)
    ensures RowsOf(dbs[i], id) == map[] && RowsOf(dbs[|steps|], id) == SavedRows(steps[i])
    ensures forall k: nat | k < |steps| && SavedAt(dbs, steps, k, id) :: k == i
  {
    hide Inv, Next, SavedRows;
    i := FirstParsed(dbs, steps, id);
    RunKeepsInv(dbs, steps, i);
    assert Next(dbs[i], steps[i], dbs[i + 1]);
    StepKeepsInv(dbs[i], steps[i], dbs[i + 1]);
    SavingStep(dbs[i], steps[i], dbs[i + 1], id);
    ParsedIsFinal(dbs, steps, i + 1, |steps|, id);
    forall k: nat | i < k < |steps| ensures StatusOf(dbs[k], id) == Some(Parsed) {
      ParsedIsFinal(dbs, steps, i + 1, k, id);
    }
  }

  lemma {:induction false} FirstParsed(dbs: seq<Db>, steps: seq<Step>, id: FilingId) returns (i: nat)
    requires |dbs| == |steps| + 1 && StatusOf(dbs[0], id) != Some(Parsed) && StatusOf(dbs[|steps|], id) == Some(Parsed)
    ensures i < |steps| && StatusOf(dbs[i + 1], id) == Some(Parsed)
    ensures forall k | 0 <= k <= i :: StatusOf(dbs[k], id) != Some(Parsed)
  {
    i := 0;
    while StatusOf(dbs[i + 1], id) != Some(Parsed)
      invariant i < |steps| && forall k | 0 <= k <= i :: StatusOf(dbs[k], id) != Some(Parsed)
      decreases |steps| - i
    {
      i := i + 1;
    }
  }

  lemma {:induction false} SavingStep(db: Db, step: Step, db': Db, id: FilingId)
    requires Inv(db) && Next(db, step, db') && Effect(db, step, db')
    requires StatusOf(db, id) != Some(Parsed) && StatusOf(db', id) == Some(Parsed)
    ensures step.id == id && (step.Parse? || step.Reparse? || step.Import?)
    ensures RowsOf(db, id) == map[] && RowsOf(db', id) == SavedRows(step)
  {
    hide SavedRows, ParseOne, ReparseOne, ImportOne;
    assert RowsOk(db, id);
    assert step.id != id ==> SameAt(db, db', id);
  }

  // ---- one parse run ----

  function PendingParse(db: Db): set<FilingId> {
    set f | f in db.filings && db.filings[f].house && db.filings[f].filingType == "P"
          && db.filings[f].format == Unknown && db.filings[f].rawKey.Some?
  }

  function IdsOf(selected: Selection): set<FilingId> {
    set s | s in selected :: s.0
  }

  ghost predicate IsSelection(db: Db, selected: Selection) {
    && (forall i | 0 <= i < |selected| :: SelectedForParse(db, selected[i].0, selected[i].1))
    && (forall i, j | 0 <= i < j < |selected| :: selected[i].0 != selected[j].0)
  }

  /** The parser raises on the form behind a key, or the form has a date that is no calendar day. */
  predicate Aborts(key: string, site: Site) {
    && site.read(key).Some? && PtrParser.IsElectronic(site.read(key).value)
    && (site.raises(site.read(key).value)
        || !AllDaysReal(PtrPass.Parsed(site.read(key).value, site.rules), site.isDay))
  }

  ghost predicate RunDid(db: Db, selected: Selection, site: Site, r: ParseRun) {
    && Inv(r.db)
    && (r.crashed <==> exists i | 0 <= i < |selected| :: Aborts(selected[i].1, site))
    && (!r.crashed ==> PendingParse(r.db) == PendingParse(db) - IdsOf(selected))
    && (forall f | f !in IdsOf(selected) ::
          (f in r.db.filings <==> f in db.filings) && (f in db.filings ==> r.db.filings[f] == db.filings[f]))
    && (forall f :: f in r.parsed <==> f in IdsOf(selected) && StatusOf(r.db, f) == Some(Parsed))
  }

  lemma {:induction false} IdsOfSnoc(selected: Selection)
    requires selected != []
    ensures IdsOf(selected) == IdsOf(selected[..|selected| - 1]) + {selected[|selected| - 1].0}
  {
    assert selected == selected[..|selected| - 1] + [selected[|selected| - 1]];
  }

  lemma {:induction false} LastIsNew(db: Db, selected: Selection)
    requires selected != [] && IsSelection(db, selected)
    ensures selected[|selected| - 1].0 !in IdsOf(selected[..|selected| - 1])
    ensures IsSelection(db, selected[..|selected| - 1])
  {
  }

  lemma {:induction false} ParseOutcome(db: Db, id: FilingId, key: string, site: Site)
    requires Inv(db) && SelectedForParse(db, id, key)
    ensures var (after, outcome) := ParseOne(db, id, key, site);
            && (outcome == Crashed <==> Aborts(key, site))
            && (outcome == Success <==> StatusOf(after, id) == Some(Parsed))
            && (outcome != Crashed ==> id in after.filings && after.filings[id].format != Unknown)
            && (forall f | f != id ::
                  (f in after.filings <==> f in db.filings) && (f in db.filings ==> after.filings[f] == db.filings[f]))
  {
    hide PtrPass.Parsed, PtrParser.IsElectronic, TypedRows, Save, AllDaysReal;
    assert RowsOk(db, id) && FilingOk(db.filings[id]);
    if site.read(key).Some? {
      SaveStores(db, id, site.read(key).value, site.rules, false, site.isDay);
      EmptyDaysReal(site.isDay);
    }
  }

  lemma {:induction false} EmptyDaysReal(isDay: string -> bool)
    ensures AllDaysReal([], isDay)
  {
  }

  /** A run takes every selected filing off the backlog unless the parser raises on a selected form
      or that has a date that is no calendar day, which aborts it; the ids it returns are those now
      parsed; others are untouched. */
  lemma {:induction false} ParseRunDoes(db: Db, selected: Selection, site: Site)
    requires Inv(db) && IsSelection(db, selected)
    ensures RunDid(db, selected, site, RunParse(db, selected, site))
  {
    hide ParseOne, Aborts, Inv, RunDid, IsSelection;
    if selected == [] {
      EmptyRunDid(db, site);
    } else {
      LastIsNew(db, selected);
      ParseRunDoes(db, selected[..|selected| - 1], site);
      RunOneMore(db, selected, site);
    }
  }

  lemma {:induction false} EmptyRunDid(db: Db, site: Site)
    requires Inv(db)
    ensures RunDid(db, [], site, ParseRun(db, [], false))
  {
    assert IdsOf([]) == {};
  }

  lemma {:induction false} RunOneMore(db: Db, selected: Selection, site: Site)
    requires selected != [] && IsSelection(db, selected)
    requires RunDid(db, selected[..|selected| - 1], site, RunParse(db, selected[..|selected| - 1], site))
    ensures RunDid(db, selected, site, RunParse(db, selected, site))
  {
    hide ParseOne, Aborts, Inv, IsSelection, SelectedForParse, PendingParse, IdsOf;
    var n := |selected| - 1;
    var (id, key) := selected[n];
    var before, r := RunParse(db, selected[..n], site), RunParse(db, selected, site);
    IdsOfSnoc(selected);
    LastIsNew(db, selected);
    AbortsSnoc(selected, site);
    StillSelected(db, selected, site, before);
    assert |selected[..n]| == n;
    if !before.crashed {
      ParseEffect(before.db, id, key, site);
      ParseOutcome(before.db, id, key, site);
      if !r.crashed {
        PendingAfter(before.db, r.db, id);
      }
    }
  }

  lemma {:induction false} StillSelected(db: Db, selected: Selection, site: Site, before: ParseRun)
    requires selected != [] && IsSelection(db, selected)
    requires RunDid(db, selected[..|selected| - 1], site, before)
    ensures var (id, key) := selected[|selected| - 1];
            SelectedForParse(before.db, id, key) && StatusOf(before.db, id) == Some(Pending)
  {
    hide Aborts, Inv, PendingParse;
    var (id, key) := selected[|selected| - 1];
    LastIsNew(db, selected);
    assert SelectedForParse(db, id, key);
    PendingNotParsed(before.db, id);
  }

  lemma {:induction false} PendingAfter(db: Db, after: Db, id: FilingId)
    requires forall f | f != id ::
               (f in after.filings <==> f in db.filings) && (f in db.filings ==> after.filings[f] == db.filings[f])
    requires id in after.filings && after.filings[id].format != Unknown
    ensures PendingParse(after) == PendingParse(db) - {id}
  {
  }

  lemma {:induction false} PendingNotParsed(db: Db, id: FilingId)
    requires Inv(db) && id in db.filings && IsPtr(db.filings[id]) && db.filings[id].format == Unknown
    ensures StatusOf(db, id) == Some(Pending)
  {
    assert FilingOk(db.filings[id]);
  }

  lemma {:induction false} AbortsSnoc(selected: Selection, site: Site)
    requires selected != []
    ensures var n := |selected| - 1;
            (exists i | 0 <= i < n + 1 :: Aborts(selected[i].1, site))
            <==> (exists i | 0 <= i < n :: Aborts(selected[..n][i].1, site)) || Aborts(selected[n].1, site)
  {
    hide Aborts;
    var n := |selected| - 1;
    if i :| 0 <= i < n + 1 && Aborts(selected[i].1, site) {
      if i < n {
        assert selected[..n][i] == selected[i];
      }
    }
  }

  // ---- draining the parse backlog ----

  function CountPendingParse(db: Db): nat {
    |PendingParse(db)|
  }

  /** The filings a query without `ORDER BY` yields, in whatever order. */
  ghost predicate Scans(db: Db, scan: Selection) {
    IsSelection(db, scan) && IdsOf(scan) == PendingParse(db)
  }

  function Batch(scan: Selection, size: nat): Selection {
    if |scan| <= size then scan else scan[..size]
  }

  lemma {:induction false} SelectionSize(db: Db, selected: Selection)
    requires IsSelection(db, selected)
    ensures |IdsOf(selected)| == |selected|
  {
    if selected != [] {
      IdsOfSnoc(selected);
      LastIsNew(db, selected);
      SelectionSize(db, selected[..|selected| - 1]);
    }
  }

  /** Every selected filing leaves the backlog, so a run shrinks it by a batch. */
  lemma {:induction false} ParseRunShrinks(db: Db, scan: Selection, size: nat, site: Site)
    requires Inv(db) && Scans(db, scan)
    requires forall s | s in scan :: !Aborts(s.1, site)
    ensures var r := RunParse(db, Batch(scan, size), site);
            && Inv(r.db) && !r.crashed
            && CountPendingParse(r.db) == CountPendingParse(db) - Scheduler.Min(size, CountPendingParse(db))
  {
    hide RunParse, Aborts, Inv, IsSelection, Batch, PendingParse, Scans;
    var batch := Batch(scan, size);
    BatchSelects(db, scan, size);
    ParseRunDoes(db, batch, site);
    var r := RunParse(db, batch, site);
    assert forall i | 0 <= i < |batch| :: batch[i] in batch;
    assert PendingParse(db) == PendingParse(r.db) + IdsOf(batch);
  }

  lemma {:induction false} BatchSelects(db: Db, scan: Selection, size: nat)
    requires Scans(db, scan)
    ensures var batch := Batch(scan, size);
            && IsSelection(db, batch) && (forall s | s in batch :: s in scan)
            && IdsOf(batch) <= PendingParse(db) && |IdsOf(batch)| == Scheduler.Min(size, |PendingParse(db)|)
  {
    hide SelectedForParse, PendingParse;
    var batch := Batch(scan, size);
    SelectionSize(db, scan);
    SelectionSize(db, batch);
  }

  /** What is pending later was pending before, under the same key. */
  predicate PendingFrom(db: Db, later: Db) {
    forall f | f in PendingParse(later) :: f in PendingParse(db) && later.filings[f] == db.filings[f]
  }

  /** No form behind a pending filing aborts a run. */
  predicate NoneAborts(db: Db, site: Site) {
    forall f | f in PendingParse(db) :: !Aborts(db.filings[f].rawKey.value, site)
  }

  lemma {:induction false} ParseRunPending(db: Db, scan: Selection, size: nat, site: Site)
    requires Inv(db) && Scans(db, scan) && NoneAborts(db, site)
    ensures var r := RunParse(db, Batch(scan, size), site);
            && Inv(r.db) && !r.crashed && NoneAborts(r.db, site)
            && CountPendingParse(r.db) == CountPendingParse(db) - Scheduler.Min(size, CountPendingParse(db))
  {
    hide RunParse, Aborts, Inv, IsSelection, Batch, Scans;
    forall s | s in scan ensures !Aborts(s.1, site) {
      ScannedKey(db, scan, s);
    }
    ParseRunShrinks(db, scan, size, site);
    BatchSelects(db, scan, size);
    ParseRunDoes(db, Batch(scan, size), site);
    var r := RunParse(db, Batch(scan, size), site);
    assert PendingFrom(db, r.db);
  }

  lemma {:induction false} ScannedKey(db: Db, scan: Selection, s: (FilingId, string))
    requires Scans(db, scan) && s in scan
    ensures s.0 in PendingParse(db) && db.filings[s.0].rawKey == Some(s.1)
  {
    var i :| 0 <= i < |scan| && scan[i] == s;
    assert SelectedForParse(db, scan[i].0, scan[i].1);
  }

  /** Draining the parse backlog `size` filings at a time ends with nothing pending, after exactly
      `ceil(p / size)` steps, when none of the forms pending at first aborts a run. */
  lemma {:induction false} ParseDrainEmpties(dbs: seq<Db>, step: Db -> (Db, nat), scan: Db -> Selection, size: nat,
                                             site: Site)
    requires size > 0 && Scheduler.Drained(dbs, CountPendingParse, step) && Inv(dbs[0]) && NoneAborts(dbs[0], site)
    requires CountPendingParse(dbs[|dbs| - 1]) == 0
             || (|dbs| > 1 && CountPendingParse(dbs[|dbs| - 1]) >= CountPendingParse(dbs[|dbs| - 2]))
    requires forall i | 0 <= i < |dbs| - 1 ::
               Scans(dbs[i], scan(dbs[i])) && step(dbs[i]).0 == RunParse(dbs[i], Batch(scan(dbs[i]), size), site).db
    ensures PendingParse(dbs[|dbs| - 1]) == {}
    ensures |dbs| - 1 == Scheduler.CeilDiv(CountPendingParse(dbs[0]), size)
  {
    hide RunParse, Aborts, Inv, Scans, PendingParse, Batch, NoneAborts;
    var n := 0;
    while n < |dbs| - 1
      invariant n <= |dbs| - 1 && Inv(dbs[n]) && NoneAborts(dbs[n], site)
      invariant forall i | 0 <= i < n ::
                  CountPendingParse(dbs[i + 1])
                       == CountPendingParse(dbs[i]) - Scheduler.Min(size, CountPendingParse(dbs[i]))
    {
      assert dbs[n + 1] == step(dbs[n]).0;
      ParseRunPending(dbs[n], scan(dbs[n]), size, site);
      n := n + 1;
    }
    assert Scheduler.Shrinks(dbs, CountPendingParse, size);
    Scheduler.DrainEmpties(dbs, CountPendingParse, step, size);
  }

  // ---- imports ----

  /** An imported PTR ends as "parsed" and "scanned" exactly when it was deferred as paper: one whose
      parse had failed stays "electronic". */
  lemma {:induction false} ImportedFormat(db: Db, id: FilingId, rows: seq<TranscribedRow>, file: string)
    requires Inv(db) && !SkipsImport(db, id) && IsPtr(db.filings[id])
    ensures var after := ImportOne(db, id, rows, file).filings[id];
            after.status == Parsed && (after.format == Scanned <==> db.filings[id].status == PaperDeferred)
  {
    assert FilingOk(db.filings[id]);
  }

  lemma {:induction false} ImportSettles(db: Db, order: seq<FilingId>, csv: Transcript, file: string)
    ensures forall id | id in order :: SkipsImport(RunImport(db, order, csv, file).db, id)
  {
    if order != [] {
      var n := |order| - 1;
      ImportSettles(db, order[..n], csv, file);
      var before := RunImport(db, order[..n], csv, file).db;
      forall id | id in order ensures SkipsImport(RunImport(db, order, csv, file).db, id) {
        assert id in order[..n] || id == order[n];
      }
    }
  }

  lemma {:induction false} AllSkipped(db: Db, order: seq<FilingId>, csv: Transcript, file: string)
    requires forall id | id in order :: SkipsImport(db, id)
    ensures RunImport(db, order, csv, file) == ImportRun(db, 0, 0, |order|)
  {
    if order != [] {
      AllSkipped(db, order[..|order| - 1], csv, file);
    }
  }

  /** Importing the same file again changes nothing and skips every filing it names. */
  lemma {:induction false} SecondImportIdle(db: Db, order: seq<FilingId>, csv: Transcript, file: string)
    ensures var first := RunImport(db, order, csv, file);
            && first.imported + first.skipped == |order|
            && RunImport(first.db, order, csv, file) == ImportRun(first.db, 0, 0, |order|)
  {
    hide SkipsImport, ImportOne;
    ImportSettles(db, order, csv, file);
    AllSkipped(RunImport(db, order, csv, file).db, order, csv, file);
    ImportCounts(db, order, csv, file);
  }

  lemma {:induction false} ImportCounts(db: Db, order: seq<FilingId>, csv: Transcript, file: string)
    ensures var r := RunImport(db, order, csv, file); r.imported + r.skipped == |order|
  {
    hide SkipsImport, ImportOne;
    if order != [] {
      ImportCounts(db, order[..|order| - 1], csv, file);
    }
  }

  // ---- overlapping runs ----

  /** When two overlapping runs parsed the same form, the second save conflicts and changes nothing,
      provided the form has a row of known type. */
  lemma {:induction false} SecondSaveConflicts(db: Db, id: FilingId, ts: seq<PtrParser.ParsedTransaction>,
                                               resolving: bool, isDay: string -> bool)
    requires Save(db, id, ts, resolving, isDay).1 == Saved && id in db.filings && TypedRows(ts) != map[]
    ensures var after := Save(db, id, ts, resolving, isDay).0;
            Save(after, id, ts, resolving, isDay) == (after, Conflict)
  {
    hide AllDaysReal, Clash, UntypedIssues, Resolved, TypedRows;
    var after := Save(db, id, ts, resolving, isDay).0;
    assert after.txs[id] == RowsOf(db, id) + TypedRows(ts);
    var k :| k in TypedRows(ts);
    assert k in RowsOf(after, id);
    assert k in TypedRows(ts).Keys * RowsOf(after, id).Keys;
  }

  /** Recording a failure keeps the invariant exactly when the filing has no rows. */
  lemma {:induction false} StaleFailureIff(db: Db, id: FilingId)
    requires Inv(db) && id in db.filings
    ensures Inv(MarkedFailed(db, id)) <==> RowsOf(db, id) == map[]
  {
    assert RowsOk(db, id) && FilingOk(db.filings[id]);
    var after := MarkedFailed(db, id);
    if RowsOf(db, id) == map[] {
      InvElsewhere(db, after, id);
    } else {
      assert !RowsOk(after, id);
    }
  }

  lemma {:induction false} StaleDeferralIff(db: Db, id: FilingId)
    requires Inv(db) && id in db.filings
    ensures Inv(MarkedDeferred(db, id)) <==> RowsOf(db, id) == map[]
  {
    assert RowsOk(db, id) && FilingOk(db.filings[id]);
    var after := MarkedDeferred(db, id);
    if RowsOf(db, id) == map[] {
      InvElsewhere(db, after, id);
    } else {
      assert !RowsOk(after, id);
    }
  }

  /** The run marks the filing as failed or deferred: no content, no header row or no transactions. */
  predicate Marks(key: string, site: Site) {
    match site.read(key)
    case None => true
    case Some(pages) =>
      !PtrParser.IsElectronic(pages) || (!site.raises(pages) && PtrPass.Parsed(pages, site.rules) == [])
  }

  /** Saving parsed rows keeps the invariant whatever has become of the filing meanwhile. */
  lemma {:induction false} SaveKeepsInv(db: Db, id: FilingId, pages: seq<seq<Word>>, rules: PtrParser.Rules,
                                        resolving: bool, isDay: string -> bool)
    requires Inv(db) && id in db.filings
    ensures Inv(Save(db, id, PtrPass.Parsed(pages, rules), resolving, isDay).0)
  {
    hide PtrPass.Parsed, TypedRows, Clash, AllDaysReal, Resolved, UntypedIssues;
    FormRows(pages, rules);
    assert RowsOk(db, id) && FilingOk(db.filings[id]);
    var ts := PtrPass.Parsed(pages, rules);
    var (after, r) := Save(db, id, ts, resolving, isDay);
    if r == Saved {
      assert RowsOf(after, id) == RowsOf(db, id) + TypedRows(ts);
      forall k | k in RowsOf(after, id) ensures RowsOf(after, id)[k].FromTranscript? <==> k in SourcesOf(db, id) {
        assert k !in TypedRows(ts).Keys * RowsOf(db, id).Keys;
      }
    }
    InvElsewhere(db, after, id);
  }

  /** A parse of a filing that was selected some time ago, and may have been saved, re-parsed or
      imported since, keeps the invariant exactly when it does not mark a filing that has rows. */
  lemma {:induction false} StaleParseIff(db: Db, id: FilingId, key: string, site: Site)
    requires Inv(db) && id in db.filings
    ensures Inv(ParseOne(db, id, key, site).0) <==> RowsOf(db, id) == map[] || !Marks(key, site)
  {
    hide PtrPass.Parsed, PtrParser.IsElectronic, Save, MarkedFailed, MarkedDeferred, Inv;
    StaleFailureIff(db, id);
    StaleDeferralIff(db, id);
    if site.read(key).Some? {
      SaveKeepsInv(db, id, site.read(key).value, site.rules, false, site.isDay);
    }
  }

  /** A re-parse of a filing selected with status `was` comes to a save. */
  predicate Resaves(key: string, was: Status, site: Site) {
    match site.read(key)
    case None => false
    case Some(pages) =>
      && (was == PaperDeferred ==> PtrParser.IsElectronic(pages)) && !site.raises(pages)
      && PtrPass.Parsed(pages, site.rules) != [] && AllDaysReal(PtrPass.Parsed(pages, site.rules), site.isDay)
  }

  lemma {:induction false} ResaveEffect(db: Db, id: FilingId, key: string, was: Status, site: Site)
    requires Inv(db) && id in db.filings
    ensures var (after, rows) := (ReparseOne(db, id, key, was, site).0, FormRowsOf(key, site));
            && Inv(after) && OthersSame(db, after, id)
            && (if Resaves(key, was, site) && rows.Keys * RowsOf(db, id).Keys == {}
                then && after.filings == db.filings[id := db.filings[id].(format := Electronic, status := Parsed)]
                     && RowsOf(after, id) == RowsOf(db, id) + rows && after.provenance == db.provenance
                else after == db)
  {
    hide PtrPass.Parsed, PtrParser.IsElectronic, TypedRows, AllDaysReal, Clash, Inv, Resolved, UntypedIssues;
    if site.read(key).Some? {
      SaveKeepsInv(db, id, site.read(key).value, site.rules, true, site.isDay);
      ParserRows(site.read(key).value, site.rules);
    }
  }

  /** A re-parse of a filing that has been parsed since it was selected, by an import say, keeps the
      invariant, and leaves the filing alone if and only if it does not come to a save, or one of its
      row numbers is taken, or it has no row to add to a filing already electronic; otherwise its rows
      join those the filing has. */
  lemma {:induction false} StaleReparseIff(db: Db, id: FilingId, key: string, was: Status, site: Site)
    requires Inv(db) && StatusOf(db, id) == Some(Parsed)
    ensures var (after, rows) := (ReparseOne(db, id, key, was, site).0, FormRowsOf(key, site));
            && Inv(after) && OthersSame(db, after, id)
            && (Untouched(db, after, id) <==>
                  || !Resaves(key, was, site) || rows.Keys * RowsOf(db, id).Keys != {}
                  || (rows == map[] && db.filings[id].format == Electronic))
            && (!Untouched(db, after, id) ==> RowsOf(after, id) == RowsOf(db, id) + rows)
  {
    hide ReparseOne, FormRowsOf, Resaves, Inv;
    ResaveEffect(db, id, key, was, site);
    var rows := FormRowsOf(key, site);
    if k :| k in rows && k !in RowsOf(db, id) {
      assert k in RowsOf(db, id) + rows;
    }
    if rows.Keys * RowsOf(db, id).Keys == {} && rows != map[] {
      var k :| k in rows;
      assert k !in rows.Keys * RowsOf(db, id).Keys;
    }
    assert RowsOf(db, id) + map[] == RowsOf(db, id);
  }

  /** A re-parse that reaches a filing parsed since it was selected. */
  predicate StaleReparse(db: Db, step: Step, db': Db) {
    && step.Reparse? && StatusOf(db, step.id) == Some(Parsed)
    && db' == ReparseOne(db, step.id, step.key, step.was, step.site).0
  }

  /** Any sequence of steps in which re-parses may be stale. */
  ghost predicate LooseRun(dbs: seq<Db>, steps: seq<Step>) {
    && |dbs| == |steps| + 1 && Inv(dbs[0])
    && forall i | 0 <= i < |steps| ::
         Next(dbs[i], steps[i], dbs[i + 1]) || StaleReparse(dbs[i], steps[i], dbs[i + 1])
  }

  /** A stale re-parse that comes to a save, its row numbers all free, with something to change. */
  predicate AddsTo(db: Db, step: Step, id: FilingId) {
    && step.Reparse? && step.id == id && StatusOf(db, id) == Some(Parsed) && Resaves(step.key, step.was, step.site)
    && FormRowsOf(step.key, step.site).Keys * RowsOf(db, id).Keys == {}
    && (FormRowsOf(step.key, step.site) != map[] || db.filings[id].format != Electronic)
  }

  /** A parsed filing stays parsed and keeps its rows and provenance; only an electronic format is final. */
  predicate Kept(db: Db, db': Db, id: FilingId) {
    && StatusOf(db, id) == Some(Parsed) && StatusOf(db', id) == Some(Parsed)
    && (forall k | k in RowsOf(db, id) :: k in RowsOf(db', id) && RowsOf(db', id)[k] == RowsOf(db, id)[k])
    && SourcesOf(db', id) == SourcesOf(db, id)
    && (db'.filings[id].format == db.filings[id].format || db'.filings[id].format == Electronic)
  }

  lemma {:induction false} LooseStep(db: Db, step: Step, db': Db, id: FilingId)
    requires Inv(db) && (Next(db, step, db') || StaleReparse(db, step, db'))
    ensures Inv(db')
    ensures StatusOf(db, id) == Some(Parsed) ==>
          Kept(db, db', id) && (Untouched(db, db', id) <==> !AddsTo(db, step, id))
  {
    hide Inv, Resaves, FormRowsOf, ReparseOne, ImportOne, ParseOne;
    if StaleReparse(db, step, db') {
      StaleReparseIff(db, step.id, step.key, step.was, step.site);
      ResaveEffect(db, step.id, step.key, step.was, step.site);
      JoinKeeps(RowsOf(db, step.id), FormRowsOf(step.key, step.site));
    } else {
      StepKeepsInv(db, step, db');
      FreshStep(db, step, db', id);
    }
    assert step.id != id ==> SameAt(db, db', id);
  }

  lemma {:induction false} FreshStep(db: Db, step: Step, db': Db, id: FilingId)
    requires Next(db, step, db')
    ensures !AddsTo(db, step, id)
  {
    hide ReparseOne, ImportOne, ParseOne, Resaves, FormRowsOf;
  }

  lemma {:induction false} JoinKeeps(rows: Rows, more: Rows)
    ensures more.Keys * rows.Keys == {} ==> forall k | k in rows :: k in rows + more && (rows + more)[k] == rows[k]
  {
    if more.Keys * rows.Keys == {} {
      forall k | k in rows ensures k !in more {
        assert k !in more.Keys * rows.Keys;
      }
    }
  }

  lemma {:induction false} KeptTwice(a: Db, b: Db, c: Db, id: FilingId)
    requires Kept(a, b, id) && Kept(b, c, id)
    ensures Kept(a, c, id)
    ensures Untouched(a, c, id) <==> Untouched(a, b, id) && Untouched(b, c, id)
  {
    if Untouched(a, c, id) {
      assert RowsOf(b, id).Keys == RowsOf(a, id).Keys;
      assert RowsOf(b, id) == RowsOf(a, id);
    }
  }

  /** Through any sequence of steps, stale re-parses among them, parsed is never left and no row of a
      parsed filing is lost or changed; and its status, format, rows and provenance stay exactly as they
      are if and only if no stale re-parse adds to it. */
  lemma {:induction false} ParsedIsFinalIff(dbs: seq<Db>, steps: seq<Step>, i: nat, j: nat, id: FilingId)
    requires LooseRun(dbs, steps) && i <= j < |dbs| && StatusOf(dbs[i], id) == Some(Parsed)
    ensures Inv(dbs[j]) && Kept(dbs[i], dbs[j], id)
    ensures Untouched(dbs[i], dbs[j], id) <==> forall m | i <= m < j :: !AddsTo(dbs[m], steps[m], id)
    decreases j
  {
    hide Inv, Next, StaleReparse, AddsTo;
    LooseKeepsInv(dbs, steps, j);
    if i < j {
      ParsedIsFinalIff(dbs, steps, i, j - 1, id);
      assert Next(dbs[j - 1], steps[j - 1], dbs[j - 1 + 1]) || StaleReparse(dbs[j - 1], steps[j - 1], dbs[j - 1 + 1]);
      LooseStep(dbs[j - 1], steps[j - 1], dbs[j], id);
      KeptTwice(dbs[i], dbs[j - 1], dbs[j], id);
    }
  }

  lemma {:induction false} LooseKeepsInv(dbs: seq<Db>, steps: seq<Step>, j: nat)
    requires LooseRun(dbs, steps) && j < |dbs|
    ensures Inv(dbs[j])
  {
    hide Inv, Next, StaleReparse;
    if j > 0 {
      LooseKeepsInv(dbs, steps, j - 1);
      assert Next(dbs[j - 1], steps[j - 1], dbs[j - 1 + 1]) || StaleReparse(dbs[j - 1], steps[j - 1], dbs[j - 1 + 1]);
      LooseStep(dbs[j - 1], steps[j - 1], dbs[j], steps[j - 1].id);
    }
  }

  /** Two runs that selected the same pending filing, the second reaching it after the first is done:
      the invariant is lost exactly when the first saved rows and the second, with a failed download
      say, marks the filing. */
  lemma {:induction false} OverlappingRuns(db: Db, id: FilingId, key: string, first: Site, second: Site)
    requires Inv(db) && SelectedForParse(db, id, key)
    ensures var one := RunParse(db, [(id, key)], first).db;
            var two := RunParse(one, [(id, key)], second).db;
            && (Inv(two) <==> RowsOf(one, id) == map[] || !Marks(key, second))
            && (RowsOf(one, id) != map[] <==>
                  !Marks(key, first) && !Aborts(key, first)
                  && TypedRows(PtrPass.Parsed(first.read(key).value, first.rules)) != map[])
  {
    hide ParseOne, Marks, Aborts, Inv, PtrPass.Parsed, TypedRows;
    var one := ParseOne(db, id, key, first).0;
    SingleRun(db, id, key, first);
    SingleRun(one, id, key, second);
    ParseEffect(db, id, key, first);
    FirstRows(db, id, key, first);
    StaleParseIff(one, id, key, second);
  }

  lemma {:induction false} SingleRun(db: Db, id: FilingId, key: string, site: Site)
    ensures RunParse(db, [(id, key)], site).db == ParseOne(db, id, key, site).0
  {
    hide ParseOne;
    assert [(id, key)][..0] == [];
  }

  lemma {:induction false} FirstRows(db: Db, id: FilingId, key: string, site: Site)
    requires Inv(db) && SelectedForParse(db, id, key)
    ensures var one := ParseOne(db, id, key, site).0;
            && id in one.filings
            && (RowsOf(one, id) != map[] <==>
                  && !Marks(key, site) && !Aborts(key, site)
                  && TypedRows(PtrPass.Parsed(site.read(key).value, site.rules)) != map[])
  {
    hide PtrPass.Parsed, PtrParser.IsElectronic, TypedRows, Save, AllDaysReal;
    assert RowsOk(db, id) && FilingOk(db.filings[id]);
    if site.read(key).Some? {
      SaveStores(db, id, site.read(key).value, site.rules, false, site.isDay);
    }
  }
}
