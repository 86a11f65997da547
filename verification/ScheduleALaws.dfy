/** Laws of the Schedule A pass: conservation, annotation runs, and the layout round trip. */
module ScheduleALaws {
  import opened Optional
  import opened Text
  import opened Money
  import opened Lines
  import opened ScheduleA
  import P = PtrParser

  // ---- conservation ----

  /** The two columns whose words are never dropped with a row. */
  predicate Conserved(column: Column) {
    column == AssetColumn || column == ValueColumn
  }

  function CellsOf(r: RowData, column: Column): seq<string>
    requires Conserved(column)
  {
    if column == AssetColumn then r.asset else r.value
  }

  function Collected(rows: seq<RowData>, column: Column): seq<string>
    requires Conserved(column)
  {
    if rows == [] then [] else CellsOf(rows[0], column) + Collected(rows[1..], column)
  }

  function EntryTexts(entries: seq<Entry>, column: Column): seq<string> {
    if entries == [] then [] else In(entries[0].line, entries[0].cols, column) + EntryTexts(entries[1..], column)
  }

  function OpenCells(current: Option<RowData>, column: Column): seq<string>
    requires Conserved(column)
  {
    match current case None => [] case Some(r) => CellsOf(r, column)
  }

  lemma {:induction false} CollectedConcat(x: seq<RowData>, y: seq<RowData>, column: Column)
    requires Conserved(column)
    ensures Collected(x + y, column) == Collected(x, column) + Collected(y, column)
  {
    if x == [] {
      assert x + y == y;
    } else {
      assert (x + y)[1..] == x[1..] + y;
      CollectedConcat(x[1..], y, column);
    }
  }

  lemma {:induction false} FlushedCells(current: Option<RowData>, column: Column)
    requires Conserved(column)
    ensures Collected(Flushed(current), column) == OpenCells(current, column)
  {
    if current.Some? {
      assert CellsOf(current.value, column) + [] == CellsOf(current.value, column);
    }
  }

  lemma {:induction false} RowsConserve(entries: seq<Entry>, current: Option<RowData>, column: Column)
    requires Conserved(column)
    ensures Collected(RowsFrom(entries, current), column) == OpenCells(current, column) + EntryTexts(entries, column)
  {
    hide In, OwnerCode, Flushed;
    FlushedCells(current, column);
    if entries != [] {
      var e := entries[0];
      var words := In(e.line, e.cols, column);
      if e.opens || current.None? {
        var row := WithLine(EMPTY_ROW, e.line, e.cols);
        RowsConserve(entries[1..], Some(row), column);
        CollectedConcat(Flushed(current), RowsFrom(entries[1..], Some(row)), column);
        assert CellsOf(row, column) == [] + words == words;
      } else {
        var row := WithLine(current.value, e.line, e.cols);
        RowsConserve(entries[1..], Some(row), column);
        assert CellsOf(row, column) == OpenCells(current, column) + words;
        Assoc(OpenCells(current, column), words, EntryTexts(entries[1..], column));
      }
    }
  }

  /** Holdings are numbered 0, 1, 2, ... and each is read from its own row. */
  lemma {:induction false} HoldingAt(rows: seq<RowData>, base: nat, i: nat)
    requires i < |rows|
    ensures FinalizeAll(rows, base)[i] == Finalize(rows[i], base + i)
    ensures FinalizeAll(rows, base)[i].rowIndex == base + i
  {
    if i > 0 {
      HoldingAt(rows[1..], base + 1, i - 1);
    }
  }

  // ---- which lines contribute ----

  /** The columns in force at line `k`: those of the last header row before it. */
  function ColumnsAt(lines: seq<Line>, k: nat): Option<Columns>
    requires k <= |lines|
  {
    if k == 0 then None
    else if HeaderColumns(lines[k - 1]).Some? then HeaderColumns(lines[k - 1])
    else ColumnsAt(lines, k - 1)
  }

  /** Line `k` stands under a header row, and is neither one itself nor skipped. */
  predicate InTable(lines: seq<Line>, k: nat)
    requires NonEmpty(lines) && k < |lines|
  {
    ColumnsAt(lines, k).Some? && HeaderColumns(lines[k]).None? && !IsSkipped(lines[k])
  }

  predicate Annotates(lines: seq<Line>, k: nat)
    requires NonEmpty(lines) && k < |lines|
  {
    InTable(lines, k) && IsAnnotation(lines[k][0].text)
  }

  /** Line `k` has words in the columns and does not begin an annotation. */
  predicate RowLine(lines: seq<Line>, k: nat)
    requires NonEmpty(lines) && k < |lines|
  {
    InTable(lines, k) && !IsAnnotation(lines[k][0].text) && !OnlyGlyphs(lines[k], ColumnsAt(lines, k).value)
  }

  /** Line `k` opens a row: there is none yet, or it starts a value and the value read is complete, or
      it has an owner code and stands outside an annotation run. */
  predicate Opens(lines: seq<Line>, k: nat)
    requires NonEmpty(lines) && k < |lines|
    decreases k, 2
  {
    RowLine(lines, k)
    && var c := ColumnsAt(lines, k).value;
       || !SomeRow(lines, k)
       || (StartsValue(In(lines[k], c, ValueColumn)) && !ValueOpen(ValueSoFar(lines, k)))
       || (OwnerCode(lines[k], c).Some? && !InRun(lines, k))
  }

  predicate SomeRow(lines: seq<Line>, k: nat)
    requires NonEmpty(lines) && k <= |lines|
    decreases k, 0
  {
    exists j | 0 <= j < k :: Opens(lines, j)
  }

  /** Some line before `k` began an annotation and no line since has opened a row. */
  predicate InRun(lines: seq<Line>, k: nat)
    requires NonEmpty(lines) && k <= |lines|
    decreases k, 0
  {
    exists j | 0 <= j < k :: Annotates(lines, j) && forall i | j < i < k :: !Opens(lines, i)
  }

  /** Line `k` contributes to a holding. */
  predicate Contributes(lines: seq<Line>, k: nat)
    requires NonEmpty(lines) && k < |lines|
    decreases k, 3
  {
    RowLine(lines, k) && (Opens(lines, k) || !InRun(lines, k))
  }

  /** The value words of the contributing lines since the last one before `k` that opened a row. */
  function ValueSoFar(lines: seq<Line>, k: nat): seq<string>
    requires NonEmpty(lines) && k <= |lines|
    decreases k, 0
  {
    if k == 0 then []
    else
      var before := if Opens(lines, k - 1) then [] else ValueSoFar(lines, k - 1);
      before
      + if Contributes(lines, k - 1) then In(lines[k - 1], ColumnsAt(lines, k - 1).value, ValueColumn) else []
  }

  /** The pass's own state at line `k`. */
  function ModeAt(lines: seq<Line>, k: nat): Mode
    requires NonEmpty(lines) && k <= |lines|
  {
    if k == 0 then BEGIN else Classify(ModeAt(lines, k - 1), lines[k - 1]).0
  }

  predicate ModeIs(lines: seq<Line>, k: nat)
    requires NonEmpty(lines) && k <= |lines|
  {
    && ModeAt(lines, k).cols == ColumnsAt(lines, k) && ModeAt(lines, k).inAnnotation == InRun(lines, k)
    && ModeAt(lines, k).open == if SomeRow(lines, k) then Some(ValueSoFar(lines, k)) else None
  }

  /** How the pass classifies line `k`. */
  predicate ClassifiedAs(lines: seq<Line>, k: nat)
    requires NonEmpty(lines) && k < |lines|
  {
    Classify(ModeAt(lines, k), lines[k]).1
    == if Contributes(lines, k) then Some(Entry(lines[k], ColumnsAt(lines, k).value, Opens(lines, k))) else None
  }

  lemma {:induction false} RunExtends(lines: seq<Line>, k: nat)
    requires NonEmpty(lines) && k < |lines|
    ensures InRun(lines, k + 1) <==> Annotates(lines, k) || (!Opens(lines, k) && InRun(lines, k))
    ensures SomeRow(lines, k + 1) <==> SomeRow(lines, k) || Opens(lines, k)
  {
    hide Opens, Annotates;
    if InRun(lines, k) && !Opens(lines, k) {
      var j :| 0 <= j < k && Annotates(lines, j) && forall i | j < i < k :: !Opens(lines, i);
      assert forall i | j < i < k + 1 :: !Opens(lines, i);
    }
  }

  lemma {:induction false} ValueExtends(lines: seq<Line>, k: nat)
    requires NonEmpty(lines) && k < |lines|
    ensures ValueSoFar(lines, k + 1)
         == if !Contributes(lines, k) then ValueSoFar(lines, k)
            else
              var words := In(lines[k], ColumnsAt(lines, k).value, ValueColumn);
              if Opens(lines, k) then words else ValueSoFar(lines, k) + words
    ensures Opens(lines, k) ==> Contributes(lines, k)
  {
    hide In, StartsValue, OwnerCode, ValueOpen, HeaderColumns, IsSkipped, IsAnnotation, OnlyGlyphs;
    assert ValueSoFar(lines, k) + [] == ValueSoFar(lines, k);
    if Contributes(lines, k) {
      var words := In(lines[k], ColumnsAt(lines, k).value, ValueColumn);
      assert [] + words == words;
    }
  }

  lemma {:induction false} Extends(lines: seq<Line>, k: nat)
    requires NonEmpty(lines) && k < |lines| && ModeIs(lines, k)
    ensures ModeIs(lines, k + 1) && ClassifiedAs(lines, k)
  {
    hide HeaderColumns, IsSkipped, IsAnnotation, OnlyGlyphs, In, InRun, SomeRow, StartsValue, ValueOpen, OwnerCode;
    hide ValueSoFar;
    RunExtends(lines, k);
    ValueExtends(lines, k);
    var m, after := ModeAt(lines, k), ModeAt(lines, k + 1);
    assert after == Classify(m, lines[k]).0;
    assert after.cols == ColumnsAt(lines, k + 1);
    if RowLine(lines, k) {
      assert OpensRow(m, lines[k], m.cols.value) == Opens(lines, k);
    }
    assert after.inAnnotation == InRun(lines, k + 1);
    assert after.open == if SomeRow(lines, k + 1) then Some(ValueSoFar(lines, k + 1)) else None;
    assert ClassifiedAs(lines, k);
  }

  lemma {:induction false} AlwaysModeIs(lines: seq<Line>, k: nat)
    requires NonEmpty(lines) && k <= |lines|
    ensures ModeIs(lines, k)
  {
    hide ModeIs, ClassifiedAs;
    if k == 0 {
      NothingRead(lines);
    } else {
      AlwaysModeIs(lines, k - 1);
      Extends(lines, k - 1);
    }
  }

  lemma {:induction false} NothingRead(lines: seq<Line>)
    requires NonEmpty(lines)
    ensures ModeIs(lines, 0)
  {
  }

  /** The pass is inside an annotation run exactly when some earlier line began an annotation and no
      line since has opened a row. */
  lemma {:induction false} AnnotationRun(lines: seq<Line>, k: nat)
    requires NonEmpty(lines) && k <= |lines|
    ensures ModeAt(lines, k).inAnnotation <==> InRun(lines, k)
  {
    hide InRun;
    AlwaysModeIs(lines, k);
  }

  /** The entries of the contributing lines from `k` on. */
  function Contributions(lines: seq<Line>, k: nat): seq<Entry>
    requires NonEmpty(lines) && k <= |lines|
    decreases |lines| - k
  {
    if k == |lines| then []
    else
      (if Contributes(lines, k) then [Entry(lines[k], ColumnsAt(lines, k).value, Opens(lines, k))] else [])
      + Contributions(lines, k + 1)
  }

  /** The pass reads exactly the contributing lines, and opens rows where they do. */
  lemma {:induction false} EntriesContribute(lines: seq<Line>, k: nat)
    requires NonEmpty(lines) && k <= |lines|
    ensures Entries(ModeAt(lines, k), lines[k..]) == Contributions(lines, k)
    decreases |lines| - k
  {
    hide Classify, Contributes, Opens, ColumnsAt;
    if k < |lines| {
      AlwaysModeIs(lines, k);
      ContributionRead(lines, k);
      EntriesContribute(lines, k + 1);
      assert lines[k..][1..] == lines[k + 1..];
    }
  }

  lemma {:induction false} ContributionRead(lines: seq<Line>, k: nat)
    requires NonEmpty(lines) && k < |lines| && ModeIs(lines, k)
    ensures ClassifiedAs(lines, k)
  {
    hide ModeIs, ClassifiedAs;
    Extends(lines, k);
  }

  /** The words the contributing lines from `k` on show in a column. */
  function ContributedWords(lines: seq<Line>, k: nat, column: Column): seq<string>
    requires NonEmpty(lines) && k <= |lines|
    decreases |lines| - k
  {
    if k == |lines| then []
    else
      (if Contributes(lines, k) then In(lines[k], ColumnsAt(lines, k).value, column) else [])
      + ContributedWords(lines, k + 1, column)
  }

  lemma {:induction false} ContributedTexts(lines: seq<Line>, k: nat, column: Column)
    requires NonEmpty(lines) && k <= |lines|
    ensures EntryTexts(Contributions(lines, k), column) == ContributedWords(lines, k, column)
    decreases |lines| - k
  {
    hide Contributes, Opens, ColumnsAt, In;
    if k < |lines| {
      ContributedTexts(lines, k + 1, column);
      if Contributes(lines, k) {
        assert Contributions(lines, k)[1..] == Contributions(lines, k + 1);
      } else {
        assert [] + Contributions(lines, k + 1) == Contributions(lines, k + 1);
        assert [] + ContributedWords(lines, k + 1, column) == ContributedWords(lines, k + 1, column);
      }
    }
  }

  /** The lines of the first Schedule A section of a report. */
  function SectionOf(pages: seq<seq<Word>>): (lines: seq<Line>)
    ensures NonEmpty(lines)
  {
    AllLinesNonEmpty(pages);
    SectionNonEmpty(AllLines(pages), false);
    Section(AllLines(pages), false)
  }

  /** Every asset and value word of the contributing lines of the first Schedule A section lands in
      exactly one holding, in reading order, and no other word does. A line contributes when it has
      words in the columns of the last header row, is no header row, second header line, footnote or
      annotation, and opens a row or stands outside an annotation run. */
  lemma {:induction false} SectionConserved(pages: seq<seq<Word>>, column: Column)
    requires Conserved(column)
    ensures Collected(SectionRows(pages), column) == ContributedWords(SectionOf(pages), 0, column)
  {
    hide RowsFrom, Collected, EntryTexts, AllLines, Section, Entries, Contributions, ContributedWords;
    var lines := SectionOf(pages);
    EntriesContribute(lines, 0);
    assert lines[0..] == lines;
    RowsConserve(Entries(BEGIN, lines), None, column);
    ContributedTexts(lines, 0, column);
    assert [] + ContributedWords(lines, 0, column) == ContributedWords(lines, 0, column);
  }
}
