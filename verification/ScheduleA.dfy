/** Schedule A of House annual reports (`parse_schedule_a`, `parsers/house_fd.py`). */
module ScheduleA {
  import opened Optional
  import opened Text
  import opened Money
  import opened Lines
  import AssetNames
  import P = PtrParser

  datatype Columns = Columns(ownerX: real, valueX: real, incomeTypeX: real, incomeX: real, txX: real)

  const COLUMN_MARGIN: real := 3.0

  // ---- recognising lines ----

  /** "a", "b", ... if the line is a "Schedule X:" heading, in either encoding of the form. */
  function ScheduleLetter(line: Line): Option<string> {
    if |line| < 2 || !EndsWith(line[1].text, ":") then None
    else
      var first := line[0].text;
      if Lower(first) == "schedule"
         || (|first| > 1 && first[0] in "Ss" && forall i | 1 <= i < |first| :: first[i] == NUL)
      then Some(Lower(StripColons(line[1].text)))
      else None
  }

  function LowerTexts(line: Line): seq<string> {
    seq(|line|, i requires 0 <= i < |line| => Lower(line[i].text))
  }

  /** `x0` of the words spelled `word`, left to right. */
  function Occurrences(line: Line, word: string): seq<real> {
    if line == [] then []
    else (if Lower(line[0].text) == word then [line[0].x0] else []) + Occurrences(line[1..], word)
  }

  function HeaderColumns(line: Line): Option<Columns> {
    var words := LowerTexts(line);
    if words == [] || words[0] != "asset" || "owner" !in words || "value" !in words then None
    else
      var owners, values := Occurrences(line, "owner"), Occurrences(line, "value");
      var incomes, txs := Occurrences(line, "income"), Occurrences(line, "tx.");
      if txs == [] || |incomes| < 2 || owners == [] || values == [] then None
      else
        Some(Columns(owners[0] - COLUMN_MARGIN, values[0] - COLUMN_MARGIN, incomes[0] - COLUMN_MARGIN,
                     incomes[1] - COLUMN_MARGIN, txs[0] - COLUMN_MARGIN))
  }

  /** The second header line, or a footnote. */
  predicate IsSkipped(line: Line) {
    var text := P.LineText(line);
    StartsWith(Lower(text), "type(s)") || StartsWith(Lower(text), "http") || StartsWith(text, "*")
  }

  const ANNOTATIONS: seq<string> := ["description", "location", "subholding", "comments", "filing"]

  predicate IsWordChar(c: char) {
    IsDigit(c) || 'a' <= c <= 'z' || 'A' <= c <= 'Z' || c == '_'
  }

  /** `^(word)\b` */
  predicate BeginsWithWord(text: string, word: string) {
    StartsWith(text, word) && (|text| == |word| || !IsWordChar(text[|word|]))
  }

  predicate IsAnnotation(text: string) {
    NUL in text || exists i | 0 <= i < |ANNOTATIONS| :: BeginsWithWord(Lower(text), ANNOTATIONS[i])
  }

  /** `^\$[\d,]+$` */
  predicate IsDollars(text: string) {
    |text| > 1 && text[0] == '$' && forall i | 1 <= i < |text| :: IsDigit(text[i]) || text[i] == ','
  }

  /** The value words open a new value; a lone "$250,000" only closes a wrapped one. */
  predicate StartsValue(texts: seq<string>) {
    texts != []
    && (Lower(texts[0]) in ["none", "undetermined", "over", "spouse/dc"]
        || (IsDollars(texts[0]) && |texts| > 1 && texts[1] == "-"))
  }

  datatype Column = AssetColumn | OwnerColumn | ValueColumn | IncomeTypeColumn | IncomeColumn

  predicate Stands(x: real, c: Columns, column: Column) {
    match column
    case AssetColumn => x < c.ownerX
    case OwnerColumn => c.ownerX <= x < c.valueX
    case ValueColumn => c.valueX <= x < c.incomeTypeX
    case IncomeTypeColumn => c.incomeTypeX <= x < c.incomeX
    case IncomeColumn => c.incomeX <= x < c.txX
  }

  /** The texts of a line's words in one column. */
  function In(line: Line, c: Columns, column: Column): seq<string> {
    if line == [] then []
    else (if Stands(line[0].x0, c, column) then [line[0].text] else []) + In(line[1..], c, column)
  }

  predicate OnlyGlyphs(line: Line, c: Columns) {
    && In(line, c, AssetColumn) == [] && In(line, c, OwnerColumn) == [] && In(line, c, ValueColumn) == []
    && In(line, c, IncomeTypeColumn) == [] && In(line, c, IncomeColumn) == []
  }

  function OwnerCode(line: Line, c: Columns): Option<string> {
    var owner := In(line, c, OwnerColumn);
    if owner != [] && P.IsOwnerCode(owner[0]) then Some(Upper(owner[0])) else None
  }

  // ---- rows ----

  datatype RowData = RowData(
    asset: seq<string>, owner: Option<string>, value: seq<string>, incomeType: seq<string>, income: seq<string>)

  const EMPTY_ROW := RowData([], None, [], [], [])

  /** A value band that still awaits its upper half. */
  predicate ValueOpen(value: seq<string>) {
    value != [] && EndsWith(value[|value| - 1], "-")
  }

  function WithLine(r: RowData, line: Line, c: Columns): RowData {
    RowData(r.asset + In(line, c, AssetColumn),
            if OwnerCode(line, c).Some? then OwnerCode(line, c) else r.owner,
            r.value + In(line, c, ValueColumn),
            r.incomeType + In(line, c, IncomeTypeColumn),
            r.income + In(line, c, IncomeColumn))
  }

  datatype ParsedHolding = ParsedHolding(
    rowIndex: nat, owner: P.Owner, asset: string, ticker: Option<string>, assetType: Option<string>,
    valueRaw: string, valueMin: Option<real>, valueMax: Option<real>,
    incomeType: Option<string>, incomeRaw: Option<string>)

  function OrNone(text: string): Option<string> {
    if text == "" then None else Some(text)
  }

  function Finalize(r: RowData, rowIndex: nat): ParsedHolding {
    var description := Strip(Join(r.asset));
    var (ticker, assetType) := AssetNames.TickerAndType(description);
    var valueRaw := Strip(Join(r.value));
    var (low, high) := ParseAmountRange(valueRaw);
    ParsedHolding(rowIndex, P.OwnerOf(r.owner), description, ticker, assetType, valueRaw, low, high,
                  OrNone(Strip(Join(r.incomeType))), OrNone(Strip(Join(r.income))))
  }

  function FinalizeAll(rows: seq<RowData>, base: nat): (hs: seq<ParsedHolding>)
    ensures |hs| == |rows|
  {
    if rows == [] then [] else [Finalize(rows[0], base)] + FinalizeAll(rows[1..], base + 1)
  }

  class Row {
    var asset: seq<string>
    var owner: Option<string>
    var value: seq<string>
    var incomeType: seq<string>
    var income: seq<string>

    function View(): RowData
      reads this
    {
      RowData(asset, owner, value, incomeType, income)
    }

    constructor ()
      ensures View() == EMPTY_ROW
    {
      asset, owner, value, incomeType, income := [], None, [], [], [];
    }

    method AddLine(line: Line, c: Columns)
      modifies this
      ensures View() == WithLine(old(View()), line, c)
    {
      asset := asset + In(line, c, AssetColumn);
      var code := OwnerCode(line, c);
      if code.Some? {
        owner := code;
      }
      value := value + In(line, c, ValueColumn);
      incomeType := incomeType + In(line, c, IncomeTypeColumn);
      income := income + In(line, c, IncomeColumn);
    }
  }

  // ---- the first Schedule A section ----

  function AllLines(pages: seq<seq<Word>>): seq<Line> {
    if pages == [] then [] else Grouped(pages[0]) + AllLines(pages[1..])
  }

  /** The lines under a Schedule A heading, up to the next heading of another schedule. */
  function Section(lines: seq<Line>, inA: bool): seq<Line> {
    if lines == [] then []
    else
      match ScheduleLetter(lines[0])
      case Some(letter) => if inA && letter != "a" then [] else Section(lines[1..], letter == "a")
      case None => (if inA then [lines[0]] else []) + Section(lines[1..], inA)
  }

  // ---- which lines of the section contribute ----

  /** A line that contributes to a holding: the columns in force and whether it opens a row. */
  datatype Entry = Entry(line: Line, cols: Columns, opens: bool)

  /** What the classification of the next line depends on: `open` is the value collected by the
      row being read, if there is one. */
  datatype Mode = Mode(cols: Option<Columns>, inAnnotation: bool, open: Option<seq<string>>)

  const BEGIN := Mode(None, false, None)

  predicate OpensRow(m: Mode, line: Line, c: Columns) {
    || m.open.None?
    || (StartsValue(In(line, c, ValueColumn)) && !ValueOpen(m.open.value))
    || (OwnerCode(line, c).Some? && !m.inAnnotation)
  }

  function Classify(m: Mode, line: Line): (Mode, Option<Entry>)
    requires line != []
  {
    if HeaderColumns(line).Some? then (m.(cols := HeaderColumns(line)), None)
    else if m.cols.None? || IsSkipped(line) then (m, None)
    else if IsAnnotation(line[0].text) then (m.(inAnnotation := true), None)
    else
      var c := m.cols.value;
      if OnlyGlyphs(line, c) then (m, None)
      else
        var value := In(line, c, ValueColumn);
        if OpensRow(m, line, c) then
          (m.(inAnnotation := false, open := Some(value)), Some(Entry(line, c, true)))
        else if m.inAnnotation then (m, None)
        else (m.(open := Some(m.open.value + value)), Some(Entry(line, c, false)))
  }

  predicate NonEmpty(lines: seq<Line>) {
    forall i | 0 <= i < |lines| :: lines[i] != []
  }

  function Entries(m: Mode, lines: seq<Line>): seq<Entry>
    requires NonEmpty(lines)
    decreases |lines|
  {
    if lines == [] then []
    else
      var (m', e) := Classify(m, lines[0]);
      (if e.Some? then [e.value] else []) + Entries(m', lines[1..])
  }

  /** The rows: one per opening entry, each with the entries up to the next opening one. */
  function RowsFrom(entries: seq<Entry>, current: Option<RowData>): seq<RowData> {
    if entries == [] then Flushed(current)
    else
      var e := entries[0];
      if e.opens || current.None?
      then Flushed(current) + RowsFrom(entries[1..], Some(WithLine(EMPTY_ROW, e.line, e.cols)))
      else RowsFrom(entries[1..], Some(WithLine(current.value, e.line, e.cols)))
  }

  /** A finished row is kept when it holds an asset or a value. */
  function Flushed(current: Option<RowData>): seq<RowData> {
    if current.Some? && (current.value.asset != [] || current.value.value != []) then [current.value] else []
  }

  function SectionRows(pages: seq<seq<Word>>): seq<RowData>
  {
    var lines := Section(AllLines(pages), false);
    AllLinesNonEmpty(pages);
    SectionNonEmpty(AllLines(pages), false);
    RowsFrom(Entries(BEGIN, lines), None)
  }

  /** The meaning of a whole report. */
  function Holdings(pages: seq<seq<Word>>): seq<ParsedHolding> {
    FinalizeAll(SectionRows(pages), 0)
  }

  lemma {:induction false} AllLinesNonEmpty(pages: seq<seq<Word>>)
    ensures NonEmpty(AllLines(pages))
  {
    if pages != [] {
      AllLinesNonEmpty(pages[1..]);
      GroupedIsClustering(pages[0]);
      forall i | 0 <= i < |Grouped(pages[0])| ensures Grouped(pages[0])[i] != [] {
        assert Grouped(pages[0])[i] in Grouped(pages[0]);
      }
    }
  }

  lemma {:induction false} SectionNonEmpty(lines: seq<Line>, inA: bool)
    requires NonEmpty(lines)
    ensures NonEmpty(Section(lines, inA))
  {
    hide ScheduleLetter;
    if lines != [] {
      var letter := ScheduleLetter(lines[0]);
      if letter.None? {
        SectionNonEmpty(lines[1..], inA);
      } else {
        SectionNonEmpty(lines[1..], letter.value == "a");
      }
    }
  }

  // ---- the pass ----

  function ViewOf(current: Row?): Option<RowData>
    reads current
  {
    if current == null then None else Some(current.View())
  }

  function ModeOf(cols: Option<Columns>, inAnnotation: bool, current: Option<RowData>): Mode {
    Mode(cols, inAnnotation, if current.None? then None else Some(current.value.value))
  }

  /** With `hs` finished, `current` open and `rest` to come, the pass ends with the report's holdings. */
  ghost predicate OnTrack(hs: seq<ParsedHolding>, current: Option<RowData>, m: Mode, inA: bool, rest: seq<Line>,
                          pages: seq<seq<Word>>)
  {
    && NonEmpty(rest) && NonEmpty(Section(rest, inA))
    && Holdings(pages) == hs + FinalizeAll(RowsFrom(Entries(m, Section(rest, inA)), current), |hs|)
  }

  lemma {:induction false} FinalizeConcat(x: seq<RowData>, y: seq<RowData>, base: nat)
    ensures FinalizeAll(x + y, base) == FinalizeAll(x, base) + FinalizeAll(y, base + |x|)
  {
    hide Finalize;
    if x == [] {
      assert x + y == y;
    } else {
      assert (x + y)[1..] == x[1..] + y;
      FinalizeConcat(x[1..], y, base + 1);
    }
  }

  lemma {:induction false} Begin(pages: seq<seq<Word>>)
    ensures OnTrack([], None, BEGIN, false, AllLines(pages[0..]), pages)
  {
    hide Section, AllLines, Entries, RowsFrom, FinalizeAll, Holdings;
    assert pages[0..] == pages;
    AllLinesNonEmpty(pages);
    SectionNonEmpty(AllLines(pages), false);
    BeginHoldings(pages);
  }

  lemma {:induction false} BeginHoldings(pages: seq<seq<Word>>)
    requires NonEmpty(Section(AllLines(pages), false))
    ensures Holdings(pages)
            == [] + FinalizeAll(RowsFrom(Entries(BEGIN, Section(AllLines(pages), false)), None), 0)
  {
    hide Section, AllLines, Entries, RowsFrom, FinalizeAll;
    assert [] + Holdings(pages) == Holdings(pages);
  }

  lemma {:induction false} NextPage(pages: seq<seq<Word>>, p: nat, lines: seq<Line>)
    requires p < |pages| && lines == Grouped(pages[p])
    ensures AllLines(pages[p..]) == lines[0..] + AllLines(pages[p + 1..])
  {
    assert pages[p..][1..] == pages[p + 1..];
    assert lines[0..] == lines;
  }

  /** Reading line `k` of a page: what is left is that line followed by the rest. */
  lemma {:induction false} SplitLine(lines: seq<Line>, k: nat, later: seq<Line>)
    requires k < |lines|
    ensures lines[k..] + later == [lines[k]] + (lines[k + 1..] + later)
  {
  }

  lemma {:induction false} AtHeading(hs: seq<ParsedHolding>, current: Option<RowData>, m: Mode, inA: bool,
                                     line: Line, rest: seq<Line>, pages: seq<seq<Word>>)
    requires OnTrack(hs, current, m, inA, [line] + rest, pages) && ScheduleLetter(line).Some?
    ensures var letter := ScheduleLetter(line).value;
            if inA && letter != "a" then Holdings(pages) == hs + FinalizeAll(Flushed(current), |hs|)
            else OnTrack(hs, current, m, letter == "a", rest, pages)
  {
    hide ScheduleLetter, Holdings, FinalizeAll, Classify, Flushed;
    assert ([line] + rest)[1..] == rest;
    TailNonEmpty(line, rest);
  }

  lemma {:induction false} TailNonEmpty(line: Line, rest: seq<Line>)
    requires NonEmpty([line] + rest)
    ensures line != [] && NonEmpty(rest)
  {
    assert ([line] + rest)[0] == line;
    forall i | 0 <= i < |rest| ensures rest[i] != [] {
      assert ([line] + rest)[i + 1] == rest[i];
    }
  }

  lemma {:induction false} BeforeSection(hs: seq<ParsedHolding>, current: Option<RowData>, m: Mode,
                                         line: Line, rest: seq<Line>, pages: seq<seq<Word>>)
    requires OnTrack(hs, current, m, false, [line] + rest, pages) && ScheduleLetter(line).None?
    ensures OnTrack(hs, current, m, false, rest, pages)
  {
    hide ScheduleLetter, Holdings, FinalizeAll, Classify, Flushed, RowsFrom, Entries;
    assert ([line] + rest)[1..] == rest;
    TailNonEmpty(line, rest);
    assert [] + Section(rest, false) == Section(rest, false);
    assert Section([line] + rest, false) == Section(rest, false);
  }

  lemma {:induction false} EntriesUnfold(m: Mode, line: Line, rest: seq<Line>)
    requires line != [] && NonEmpty(rest)
    ensures NonEmpty([line] + rest)
    ensures var (m', e) := Classify(m, line);
            Entries(m, [line] + rest) == (if e.Some? then [e.value] else []) + Entries(m', rest)
  {
    hide Classify;
    var lines := [line] + rest;
    assert lines[1..] == rest;
    forall i | 0 <= i < |lines| ensures lines[i] != [] {
      assert i > 0 ==> lines[i] == rest[i - 1];
    }
  }

  /** A line of the section, kept or not. */
  lemma {:induction false} InSection(hs: seq<ParsedHolding>, current: Option<RowData>, m: Mode,
                                     line: Line, rest: seq<Line>, pages: seq<seq<Word>>)
    requires OnTrack(hs, current, m, true, [line] + rest, pages) && ScheduleLetter(line).None? && line != []
    ensures NonEmpty(rest) && NonEmpty(Section(rest, true))
    ensures var (m', e) := Classify(m, line);
            Holdings(pages)
            == hs + FinalizeAll(
                      RowsFrom((if e.Some? then [e.value] else []) + Entries(m', Section(rest, true)), current),
                      |hs|)
  {
    hide ScheduleLetter, Holdings, FinalizeAll, Classify, Flushed, RowsFrom, Entries;
    assert ([line] + rest)[1..] == rest;
    TailNonEmpty(line, rest);
    SectionNonEmpty(rest, true);
    assert Section([line] + rest, true) == [line] + Section(rest, true);
    EntriesUnfold(m, line, Section(rest, true));
  }

  lemma {:induction false} NotKept(hs: seq<ParsedHolding>, current: Option<RowData>, m: Mode,
                                   line: Line, rest: seq<Line>, pages: seq<seq<Word>>)
    requires OnTrack(hs, current, m, true, [line] + rest, pages) && ScheduleLetter(line).None? && line != []
    requires Classify(m, line).1.None?
    ensures OnTrack(hs, current, Classify(m, line).0, true, rest, pages)
  {
    hide ScheduleLetter, Holdings, FinalizeAll, Classify, Flushed, RowsFrom, Entries, Section;
    InSection(hs, current, m, line, rest, pages);
    var tail := Entries(Classify(m, line).0, Section(rest, true));
    assert [] + tail == tail;
  }

  lemma {:induction false} RowsUnfold(e: Entry, tail: seq<Entry>, current: Option<RowData>)
    ensures RowsFrom([e] + tail, current)
            == if e.opens || current.None?
               then Flushed(current) + RowsFrom(tail, Some(WithLine(EMPTY_ROW, e.line, e.cols)))
               else RowsFrom(tail, Some(WithLine(current.value, e.line, e.cols)))
  {
    hide WithLine, Flushed;
    assert ([e] + tail)[1..] == tail;
  }

  lemma {:induction false} Opens(hs: seq<ParsedHolding>, current: Option<RowData>, m: Mode, c: Columns,
                                 line: Line, rest: seq<Line>, pages: seq<seq<Word>>)
    requires OnTrack(hs, current, m, true, [line] + rest, pages) && ScheduleLetter(line).None? && line != []
    requires Classify(m, line).1 == Some(Entry(line, c, true))
    ensures OnTrack(hs + FinalizeAll(Flushed(current), |hs|), Some(WithLine(EMPTY_ROW, line, c)),
                    Classify(m, line).0, true, rest, pages)
  {
    hide ScheduleLetter, Holdings, FinalizeAll, Classify, Flushed, RowsFrom, Entries, Section, WithLine;
    InSection(hs, current, m, line, rest, pages);
    var tail := Entries(Classify(m, line).0, Section(rest, true));
    RowsUnfold(Entry(line, c, true), tail, current);
    var rows := RowsFrom(tail, Some(WithLine(EMPTY_ROW, line, c)));
    FinalizeConcat(Flushed(current), rows, |hs|);
    Assoc(hs, FinalizeAll(Flushed(current), |hs|), FinalizeAll(rows, |hs| + |Flushed(current)|));
  }

  lemma {:induction false} Continues(hs: seq<ParsedHolding>, r: RowData, m: Mode, c: Columns,
                                     line: Line, rest: seq<Line>, pages: seq<seq<Word>>)
    requires OnTrack(hs, Some(r), m, true, [line] + rest, pages) && ScheduleLetter(line).None? && line != []
    requires Classify(m, line).1 == Some(Entry(line, c, false))
    ensures OnTrack(hs, Some(WithLine(r, line, c)), Classify(m, line).0, true, rest, pages)
  {
    hide ScheduleLetter, Holdings, FinalizeAll, Classify, Flushed, RowsFrom, Entries, Section, WithLine;
    InSection(hs, Some(r), m, line, rest, pages);
    RowsUnfold(Entry(line, c, false), Entries(Classify(m, line).0, Section(rest, true)), Some(r));
  }

  lemma {:induction false} AtEnd(hs: seq<ParsedHolding>, current: Option<RowData>, m: Mode, inA: bool,
                                 pages: seq<seq<Word>>)
    requires OnTrack(hs, current, m, inA, AllLines(pages[|pages|..]), pages)
    ensures Holdings(pages) == hs + FinalizeAll(Flushed(current), |hs|)
  {
    hide Holdings, FinalizeAll, Flushed;
    assert AllLines(pages[|pages|..]) == [];
  }

  lemma {:induction false} FlushedOne(r: RowData, base: nat)
    ensures FinalizeAll([r], base) == [Finalize(r, base)] && FinalizeAll([], base) == []
  {
    hide Finalize;
  }

  method Flush(holdings: seq<ParsedHolding>, current: Row?) returns (flushed: seq<ParsedHolding>)
    ensures flushed == holdings + FinalizeAll(Flushed(ViewOf(current)), |holdings|)
  {
    hide Finalize;
    flushed := holdings;
    if current != null && (current.asset != [] || current.value != []) {
      FlushedOne(current.View(), |holdings|);
      flushed := flushed + [Finalize(current.View(), |holdings|)];
    }
  }

  method ParseScheduleA(pages: seq<seq<Word>>) returns (holdings: seq<ParsedHolding>)
    ensures holdings == Holdings(pages)
  {
    hide OnTrack, Holdings, AllLines, ScheduleLetter, HeaderColumns, IsSkipped, IsAnnotation, Grouped, FinalizeAll;
    hide Flushed, WithLine, In, StartsValue, ValueOpen, OwnerCode, OnlyGlyphs;
    holdings := [];
    var cols: Option<Columns> := None;
    var inA := false;
    var inAnnotation := false;
    var current: Row? := null;
    Begin(pages);
    for p := 0 to |pages|
      invariant current != null ==> fresh(current)
      invariant OnTrack(holdings, ViewOf(current), ModeOf(cols, inAnnotation, ViewOf(current)), inA,
                        AllLines(pages[p..]), pages)
    {
      var lines := GroupLines(pages[p]);
      ghost var later := AllLines(pages[p + 1..]);
      NextPage(pages, p, lines);
      for k := 0 to |lines|
        invariant current != null ==> fresh(current)
        invariant OnTrack(holdings, ViewOf(current), ModeOf(cols, inAnnotation, ViewOf(current)), inA,
                          lines[k..] + later, pages)
      {
        var line := lines[k];
        ghost var rest := lines[k + 1..] + later;
        ghost var open := ViewOf(current);
        ghost var m := ModeOf(cols, inAnnotation, open);
        SplitLine(lines, k, later);
        var letter := ScheduleLetter(line);
        if letter.Some? {
          AtHeading(holdings, open, m, inA, line, rest, pages);
          if inA && letter.value != "a" {
            holdings := Flush(holdings, current);
            return;
          }
          inA := letter.value == "a";
          continue;
        }
        if !inA {
          BeforeSection(holdings, open, m, line, rest, pages);
          continue;
        }
        LineNotEmpty(holdings, open, m, inA, line, rest, pages);
        var header := HeaderColumns(line);
        if header.Some? {
          NotKept(holdings, open, m, line, rest, pages);
          cols := header;
          continue;
        }
        if cols.None? || IsSkipped(line) {
          NotKept(holdings, open, m, line, rest, pages);
          continue;
        }
        if IsAnnotation(line[0].text) {
          NotKept(holdings, open, m, line, rest, pages);
          inAnnotation := true;
          continue;
        }
        var c := cols.value;
        if OnlyGlyphs(line, c) {
          NotKept(holdings, open, m, line, rest, pages);
          continue;
        }
        var ownerCode := OwnerCode(line, c).Some?;
        var opensValue := StartsValue(In(line, c, ValueColumn)) && (current == null || !ValueOpen(current.value));
        var newRow := current == null || opensValue || (ownerCode && !inAnnotation);
        if newRow {
          Opens(holdings, open, m, c, line, rest, pages);
          holdings := Flush(holdings, current);
          current := new Row();
          inAnnotation := false;
          EmptyRowValue(line, c);
        } else if inAnnotation {
          NotKept(holdings, open, m, line, rest, pages);
          continue;
        } else {
          Continues(holdings, current.View(), m, c, line, rest, pages);
          RowValue(current.View(), line, c);
        }
        current.AddLine(line, c);
      }
      assert lines[|lines|..] + later == later;
    }
    AtEnd(holdings, ViewOf(current), ModeOf(cols, inAnnotation, ViewOf(current)), inA, pages);
    holdings := Flush(holdings, current);
  }

  lemma {:induction false} RowValue(r: RowData, line: Line, c: Columns)
    ensures WithLine(r, line, c).value == r.value + In(line, c, ValueColumn)
  {
  }

  lemma {:induction false} EmptyRowValue(line: Line, c: Columns)
    ensures WithLine(EMPTY_ROW, line, c).value == In(line, c, ValueColumn)
  {
  }

  lemma {:induction false} LineNotEmpty(hs: seq<ParsedHolding>, current: Option<RowData>, m: Mode, inA: bool,
                                        line: Line, rest: seq<Line>, pages: seq<seq<Word>>)
    requires OnTrack(hs, current, m, inA, [line] + rest, pages)
    ensures line != []
  {
    hide Holdings, FinalizeAll, RowsFrom, Entries, Section;
    TailNonEmpty(line, rest);
  }
}
