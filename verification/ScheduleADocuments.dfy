/** A report for every list of holdings: the Schedule A round trip leaves nothing out. */
module ScheduleADocuments {
  import opened Optional
  import opened Text
  import opened Lines
  import opened ScheduleA
  import opened ScheduleALayout
  import opened ScheduleAWords
  import D = PtrDocuments
  import L = PtrLayout
  import P = PtrParser
  import W = PtrWords

  // ---- words on a line ----

  datatype Cell = Cell(text: string, column: Column)

  /** The words of the form's header row that name a column, and where they stand. */
  const HEADER_ROW: seq<string> := ["Asset", "Owner", "Value", "Income", "Income", "Tx."]

  const HEADER_ROW_X: seq<real> := [20.0, 203.0, 253.0, 353.0, 453.0, 553.0]

  const COLUMNS := Columns(200.0, 250.0, 350.0, 450.0, 550.0)

  function Left(column: Column): real {
    match column
    case AssetColumn => 20.0
    case OwnerColumn => 200.0
    case ValueColumn => 250.0
    case IncomeTypeColumn => 350.0
    case IncomeColumn => 450.0
  }

  /** The heading of a schedule, in scrambled case until 2022, since then with NULs. */
  function Heading(letter: string, p: D.Print, top: real): Line {
    [Word(if p == D.Plain then "scHeDuLe" else "S" + D.Nuls(7), 20.0, top), Word(letter + ":", 60.0, top)]
  }

  /** The second line of the header row. */
  function SecondRow(): Line {
    [Word("Type(s)", 353.0, 8.0)]
  }

  /** A comment under a holding. */
  function CommentLine(p: D.Print, top: real): Line {
    [Word(if p == D.Plain then "comments:" else "C" + D.Nuls(7) + ":", 20.0, top), Word("none", 80.0, top)]
  }

  function HeaderRow(): Line {
    seq(|HEADER_ROW|, i requires 0 <= i < |HEADER_ROW| => Word(HEADER_ROW[i], HEADER_ROW_X[i], 4.0))
  }

  /** The cells as words, the first of them the `k`-th of its line. */
  function Show(cells: seq<Cell>, k: nat, top: real): (line: Line)
    ensures |line| == |cells|
  {
    seq(|cells|, i requires 0 <= i < |cells| =>
      Word(cells[i].text, Left(cells[i].column) + D.Offset(k + i), top))
  }

  function CellsIn(column: Column, texts: seq<string>): seq<Cell> {
    seq(|texts|, i requires 0 <= i < |texts| => Cell(texts[i], column))
  }

  function TextsIn(cells: seq<Cell>, column: Column): seq<string> {
    if cells == [] then []
    else (if cells[0].column == column then [cells[0].text] else []) + TextsIn(cells[1..], column)
  }

  lemma {:induction false} TextsInConcat(x: seq<Cell>, y: seq<Cell>, column: Column)
    ensures TextsIn(x + y, column) == TextsIn(x, column) + TextsIn(y, column)
  {
    if x == [] {
      assert x + y == y;
    } else {
      assert (x + y)[1..] == x[1..] + y;
      TextsInConcat(x[1..], y, column);
    }
  }

  lemma {:induction false} TextsInCells(column: Column, texts: seq<string>, other: Column)
    ensures TextsIn(CellsIn(column, texts), other) == if other == column then texts else []
  {
    if texts != [] {
      assert CellsIn(column, texts)[1..] == CellsIn(column, texts[1..]);
      TextsInCells(column, texts[1..], other);
    }
  }

  /** Each cell stands in its column. */
  lemma {:induction false} InShow(cells: seq<Cell>, k: nat, top: real, column: Column)
    ensures In(Show(cells, k, top), COLUMNS, column) == TextsIn(cells, column)
    decreases |cells|
  {
    if cells != [] {
      assert 0.0 <= D.Offset(k) < 1.0;
      assert Show(cells, k, top)[1..] == Show(cells[1..], k + 1, top);
      InShow(cells[1..], k + 1, top, column);
    }
  }

  predicate Ascending(cells: seq<Cell>) {
    forall i, j | 0 <= i < j < |cells| :: Left(cells[i].column) <= Left(cells[j].column)
  }

  lemma {:induction false} ShowOrdered(cells: seq<Cell>, k: nat, top: real)
    requires Ascending(cells)
    ensures StrictlyOrdered(Show(cells, k, top))
  {
    var line := Show(cells, k, top);
    forall i, j | 0 <= i < j < |line| ensures line[i].x0 < line[j].x0 {
      D.OffsetGrows(k + i, k + j);
    }
  }

  // ---- one holding ----

  function CellsOf(h: Holding): seq<Cell> {
    CellsIn(AssetColumn, h.asset)
    + (CellsIn(OwnerColumn, L.OwnerTexts(h.owner))
       + (CellsIn(ValueColumn, ValueWords(h.value))
          + (CellsIn(IncomeTypeColumn, h.incomeType) + CellsIn(IncomeColumn, h.income))))
  }

  /** The line of the holding reads like no heading, header row, footnote or annotation. */
  predicate Printable(h: Holding) {
    ValidHolding(h) && Plain(Show(CellsOf(h), 0, 0.0))
  }

  lemma {:induction false} CellsShow(h: Holding, column: Column)
    ensures TextsIn(CellsOf(h), column)
         == match column
            case AssetColumn => h.asset
            case OwnerColumn => L.OwnerTexts(h.owner)
            case ValueColumn => ValueWords(h.value)
            case IncomeTypeColumn => h.incomeType
            case IncomeColumn => h.income
  {
    hide ValueWords, L.OwnerTexts, TextsIn, CellsIn;
    var a, o := CellsIn(AssetColumn, h.asset), CellsIn(OwnerColumn, L.OwnerTexts(h.owner));
    var v := CellsIn(ValueColumn, ValueWords(h.value));
    var t, i := CellsIn(IncomeTypeColumn, h.incomeType), CellsIn(IncomeColumn, h.income);
    TextsInConcat(a, o + (v + (t + i)), column);
    TextsInConcat(o, v + (t + i), column);
    TextsInConcat(v, t + i, column);
    TextsInConcat(t, i, column);
    TextsInCells(AssetColumn, h.asset, column);
    TextsInCells(OwnerColumn, L.OwnerTexts(h.owner), column);
    TextsInCells(ValueColumn, ValueWords(h.value), column);
    TextsInCells(IncomeTypeColumn, h.incomeType, column);
    TextsInCells(IncomeColumn, h.income, column);
  }

  lemma {:induction false} AscendingConcat(x: seq<Cell>, y: seq<Cell>)
    requires Ascending(x) && Ascending(y)
    requires forall i, j | 0 <= i < |x| && 0 <= j < |y| :: Left(x[i].column) <= Left(y[j].column)
    ensures Ascending(x + y)
  {
    var z := x + y;
    forall i, j | 0 <= i < j < |z| ensures Left(z[i].column) <= Left(z[j].column) {
      if i < |x| && j >= |x| {
        assert z[i] == x[i] && z[j] == y[j - |x|];
      }
    }
  }

  lemma {:induction false} CellsAscend(h: Holding)
    ensures Ascending(CellsOf(h))
  {
    hide ValueWords, L.OwnerTexts;
    var a, o := CellsIn(AssetColumn, h.asset), CellsIn(OwnerColumn, L.OwnerTexts(h.owner));
    var v := CellsIn(ValueColumn, ValueWords(h.value));
    var t, i := CellsIn(IncomeTypeColumn, h.incomeType), CellsIn(IncomeColumn, h.income);
    AscendingConcat(t, i);
    AscendingConcat(v, t + i);
    AscendingConcat(o, v + (t + i));
    AscendingConcat(a, o + (v + (t + i)));
  }

  function RowTop(k: nat): real {
    8.0 * k as real + 12.0
  }

  function RowLine(h: Holding, k: nat): Line {
    Show(CellsOf(h), 0, RowTop(k))
  }

  function LayoutOf(h: Holding, k: nat, p: D.Print): Layout {
    Layout(Shown(RowLine(h, k), h.asset, ValueWords(h.value), h.incomeType, h.income), [],
           [CommentLine(p, RowTop(k) + 4.0)])
  }

  lemma {:induction false} CommentIs(p: D.Print, top: real)
    ensures IsNote(CommentLine(p, top)) && StrictlyOrdered(CommentLine(p, top)) && D.AllAt(CommentLine(p, top), top)
  {
    hide StartsInAnyCase, Spelled, SpelledTwice;
    var text := CommentLine(p, top)[0].text;
    assert text[0] == (if p == D.Plain then 'c' else 'C');
    if p == D.Plain {
      assert Lower("comments:"[..8]) == "comments";
    } else {
      assert text[1] == NUL;
    }
    OtherInitial(text, "schedule");
    OtherInitial(text, "asset");
    OtherStart(text, "type(s)");
    OtherStart(text, "http");
    OtherStart(text, "*");
  }

  lemma {:induction false} OtherInitial(text: string, name: string)
    requires text != "" && name != "" && LowerChar(text[0]) != name[0]
    ensures Lower(text) != name
  {
    assert Lower(text)[0] == LowerChar(text[0]);
  }

  lemma {:induction false} OtherStart(text: string, prefix: string)
    requires text != "" && prefix != "" && LowerChar(text[0]) != prefix[0]
    ensures !StartsInAnyCase(text, prefix)
  {
    if |prefix| <= |text| {
      assert Lower(text[..|prefix|])[0] == LowerChar(text[0]);
    }
  }

  // ---- the height of a line has no say ----

  predicate SameButTop(x: Line, y: Line) {
    |x| == |y| && forall i | 0 <= i < |x| :: x[i].text == y[i].text && x[i].x0 == y[i].x0
  }

  lemma {:induction false} PlainAtAnyHeight(x: Line, y: Line)
    requires SameButTop(x, y) && Plain(x)
    ensures Plain(y)
  {
    hide IsSkippedWord, IsAnnotationWord, PrintsSchedule, Lower;
    if i :| 0 <= i < |y| && Lower(y[i].text) == "owner" {
      assert Lower(x[i].text) == "owner";
    }
  }

  lemma {:induction false} ValueStarts(v: Value)
    ensures StartsValue(ValueWords(v))
  {
    match v
    case NoValue => assert Lower("None") == "none";
    case Undetermined => assert Lower("Undetermined") == "undetermined";
    case Closed(low, _) => DollarsStart(low);
    case Over(_) => ValueWordsStart();
    case SpouseOver(_) => ValueWordsStart();
  }

  lemma {:induction false} LayoutIs(h: Holding, k: nat, p: D.Print)
    requires Printable(h)
    ensures LaidOut(h, LayoutOf(h, k, p), COLUMNS)
  {
    hide Plain, CellsOf, ValueWords, StartsValue, In, RowTop, L.OwnerTexts, IsNote, CommentLine;
    var l := LayoutOf(h, k, p);
    CommentIs(p, RowTop(k) + 4.0);
    PlainAtAnyHeight(Show(CellsOf(h), 0, 0.0), RowLine(h, k));
    forall column ensures In(l.first.line, COLUMNS, column) == TextsIn(CellsOf(h), column) {
      InShow(CellsOf(h), 0, RowTop(k), column);
    }
    CellsShow(h, AssetColumn);
    CellsShow(h, OwnerColumn);
    CellsShow(h, ValueColumn);
    CellsShow(h, IncomeTypeColumn);
    CellsShow(h, IncomeColumn);
    ValueStarts(h.value);
    assert h.asset + [] == h.asset && ValueWords(h.value) + [] == ValueWords(h.value);
    assert h.incomeType + [] == h.incomeType && h.income + [] == h.income;
  }

  // ---- the whole page ----

  function Layouts(hs: seq<Holding>, k: nat, p: D.Print): (ls: seq<Layout>)
    ensures |ls| == |hs|
  {
    if hs == [] then [] else [LayoutOf(hs[0], k, p)] + Layouts(hs[1..], k + 1, p)
  }

  lemma {:induction false} LayoutAt(hs: seq<Holding>, k: nat, i: nat, p: D.Print)
    requires i < |hs|
    ensures Layouts(hs, k, p)[i] == LayoutOf(hs[i], k + i, p)
    decreases i
  {
    hide LayoutOf;
    if i > 0 {
      LayoutAt(hs[1..], k + 1, i - 1, p);
    }
  }

  lemma {:induction false} AllLayouts(hs: seq<Holding>, p: D.Print)
    requires forall h | h in hs :: Printable(h)
    ensures AllLaidOut(hs, Layouts(hs, 0, p), COLUMNS)
  {
    hide LaidOut, LayoutOf, Layouts, Plain, CellsOf;
    forall i | 0 <= i < |hs| ensures ValidHolding(hs[i]) && LaidOut(hs[i], Layouts(hs, 0, p)[i], COLUMNS) {
      assert Printable(hs[i]);
      LayoutAt(hs, 0, i, p);
      LayoutIs(hs[i], i, p);
    }
  }

  lemma {:induction false} TwoLines(h: Holding, k: nat, p: D.Print)
    ensures LayoutLines(LayoutOf(h, k, p)) == [RowLine(h, k), CommentLine(p, RowTop(k) + 4.0)]
  {
  }

  /** One line under another, each on its own height. */
  lemma {:induction false} OnTop(line: Line, top: real, rest: seq<Line>)
    requires line != [] && StrictlyOrdered(line) && D.AllAt(line, top) && D.Stacked(rest, top + 4.0)
    ensures D.Stacked([line] + rest, top)
  {
    hide StrictlyOrdered;
    assert line[0].top == top;
    assert ([line] + rest)[1..] == rest;
  }

  lemma {:induction false} BodyStacked(hs: seq<Holding>, k: nat, p: D.Print, rest: seq<Line>)
    requires (forall h | h in hs :: Printable(h)) && D.Stacked(rest, RowTop(k + |hs|))
    ensures D.Stacked(LayoutsBody(Layouts(hs, k, p)) + rest, RowTop(k))
    decreases |hs|
  {
    hide Printable, D.Stacked, LayoutOf, LayoutLines, RowLine, CommentLine, StrictlyOrdered, D.AllAt, IsNote;
    if hs == [] {
      assert LayoutsBody(Layouts(hs, k, p)) + rest == rest;
    } else {
      var h, later := hs[0], LayoutsBody(Layouts(hs[1..], k + 1, p)) + rest;
      var row, comment := RowLine(h, k), CommentLine(p, RowTop(k) + 4.0);
      BodyStacked(hs[1..], k + 1, p, rest);
      assert RowTop(k + 1) == RowTop(k) + 8.0;
      TwoLines(h, k, p);
      RowStands(h, k);
      CommentIs(p, RowTop(k) + 4.0);
      CommentNotEmpty(p, RowTop(k) + 4.0);
      OnTop(comment, RowTop(k) + 4.0, later);
      OnTop(row, RowTop(k), [comment] + later);
      assert LayoutsBody(Layouts(hs, k, p)) + rest == [row] + ([comment] + later);
    }
  }

  lemma {:induction false} CommentNotEmpty(p: D.Print, top: real)
    ensures CommentLine(p, top) != []
  {
  }

  lemma {:induction false} RowStands(h: Holding, k: nat)
    requires Printable(h)
    ensures RowLine(h, k) != [] && StrictlyOrdered(RowLine(h, k)) && D.AllAt(RowLine(h, k), RowTop(k))
  {
    hide CellsOf, RowTop, D.Offset;
    CellsAscend(h);
    ShowOrdered(CellsOf(h), 0, RowTop(k));
    assert Show(CellsOf(h), 0, 0.0) != [];
  }

  lemma {:induction false} HeadingIs(letter: char, p: D.Print, top: real)
    requires letter in "AB"
    ensures var line := Heading([letter], p, top);
            && line != [] && IsHeading(line) && StrictlyOrdered(line) && D.AllAt(line, top)
            && IsHeadingOf(line, if letter == 'A' then "a" else "b")
            && (IsHeadingOf(line, "a") <==> letter == 'A')
  {
    var line := Heading([letter], p, top);
    assert Lower("scHeDuLe") == "schedule";
    assert line[1].text == [letter] + ":" && line[1].text[..1] == [letter];
    assert Lower([letter]) == if letter == 'A' then "a" else "b";
    assert "a" != "b" by { assert "a"[0] != "b"[0]; }
  }

  const LOWER_ROW: seq<string> := ["asset", "owner", "value", "income", "income", "tx."]

  lemma {:induction false} HeaderTexts(i: nat)
    requires i < |HEADER_ROW|
    ensures HeaderRow()[i].text == HEADER_ROW[i] && Lower(HEADER_ROW[i]) == LOWER_ROW[i]
  {
    assert Lower("Asset") == "asset" && Lower("Owner") == "owner" && Lower("Value") == "value";
    assert Lower("Income") == "income" && Lower("Tx.") == "tx.";
  }

  /** Where `word` stands among the words of the header row from the `i`-th on. */
  function Positions(word: string, i: nat): seq<real>
    requires i <= |LOWER_ROW|
    decreases |LOWER_ROW| - i
  {
    if i == |LOWER_ROW| then []
    else (if LOWER_ROW[i] == word then [HEADER_ROW_X[i]] else []) + Positions(word, i + 1)
  }

  lemma {:induction false} HeaderOccurrences(word: string, i: nat)
    requires i <= |HEADER_ROW|
    ensures Occurrences(HeaderRow()[i..], word) == Positions(word, i)
    decreases |HEADER_ROW| - i
  {
    hide Lower;
    if i < |HEADER_ROW| {
      HeaderTexts(i);
      HeaderOccurrences(word, i + 1);
      assert HeaderRow()[i..][1..] == HeaderRow()[i + 1..];
    }
  }

  lemma {:induction false} HeaderPositions(word: string)
    requires word in {"owner", "value", "income", "tx."}
    ensures var xs := Occurrences(HeaderRow(), word);
            if word == "owner" then xs == [203.0]
            else if word == "value" then xs == [253.0]
            else if word == "income" then xs == [353.0, 453.0]
            else xs == [553.0]
  {
    HeaderOccurrences(word, 0);
    assert HeaderRow()[0..] == HeaderRow();
    assert "asset"[0] == 'a' && "owner"[0] == 'o' && "value"[0] == 'v' && "income"[0] == 'i' && "tx."[0] == 't';
    assert Positions(word, 6) == [];
    assert Positions(word, 5) == if word == "tx." then [553.0] else [];
    assert Positions(word, 4) == (if word == "income" then [453.0] else []) + Positions(word, 5);
    assert Positions(word, 3) == (if word == "income" then [353.0] else []) + Positions(word, 4);
    assert Positions(word, 2) == (if word == "value" then [253.0] else []) + Positions(word, 3);
    assert Positions(word, 1) == (if word == "owner" then [203.0] else []) + Positions(word, 2);
    assert Positions(word, 0) == [] + Positions(word, 1);
  }

  lemma {:induction false} HeaderRowIs()
    ensures HeaderRow() != [] && !IsHeading(HeaderRow()) && HeaderColumns(HeaderRow()) == Some(COLUMNS)
    ensures StrictlyOrdered(HeaderRow()) && D.AllAt(HeaderRow(), 4.0)
  {
    hide Lower, Occurrences;
    var row := HeaderRow();
    forall i: nat | i < 6 ensures LowerTexts(row)[i] == LOWER_ROW[i] {
      HeaderTexts(i);
    }
    assert LowerTexts(row)[0] == "asset" && LowerTexts(row)[1] == "owner" && LowerTexts(row)[2] == "value";
    assert row[1].text == "Owner" && "Owner"[4] == 'r';
    HeaderPositions("owner");
    HeaderPositions("value");
    HeaderPositions("income");
    HeaderPositions("tx.");
  }

  lemma {:induction false} SecondRowIs()
    ensures Idle(SecondRow(), COLUMNS) && StrictlyOrdered(SecondRow()) && D.AllAt(SecondRow(), 8.0) && SecondRow() != []
  {
    hide Spelled, SpelledTwice;
    assert Lower("Type(s)"[..7]) == "type(s)";
    assert "Type(s)"[0] == 'T' && "asset"[0] == 'a' && "schedule"[0] == 's';
    OtherInitial("Type(s)", "asset");
  }

  /** What follows the section: the next schedule's heading, and lines like those of a holding. */
  function Outro(p: D.Print, top: real): seq<Line> {
    [Heading("B", p, top), Show([Cell("Stray", AssetColumn), Cell("None", ValueColumn)], 0, top + 4.0)]
  }

  lemma {:induction false} OutroStacked(p: D.Print, top: real)
    ensures D.Stacked(Outro(p, top), top)
  {
    hide D.Stacked, Heading, IsHeading, IsHeadingOf;
    var cells := [Cell("Stray", AssetColumn), Cell("None", ValueColumn)];
    ShowOrdered(cells, 0, top + 4.0);
    NothingStacked(top + 8.0);
    OnTop(Show(cells, 0, top + 4.0), top + 4.0, []);
    HeadingIs('B', p, top);
    assert [Show(cells, 0, top + 4.0)] + [] == [Outro(p, top)[1]];
    OnTop(Heading("B", p, top), top, [Outro(p, top)[1]]);
    assert [Heading("B", p, top)] + [Outro(p, top)[1]] == Outro(p, top);
  }

  lemma {:induction false} NothingStacked(from: real)
    ensures D.Stacked([], from)
  {
  }

  function PageOf(hs: seq<Holding>, p: D.Print): Page {
    var lines := [Heading("A", p, 0.0)] + ([HeaderRow()] + ([SecondRow()]
                 + (LayoutsBody(Layouts(hs, 0, p)) + Outro(p, RowTop(|hs|)))));
    Page(lines, Flatten(lines))
  }

  lemma {:induction false} PageIsValid(hs: seq<Holding>, p: D.Print)
    requires forall h | h in hs :: Printable(h)
    ensures ValidPage(PageOf(hs, p))
  {
    hide Printable, LayoutsBody, Layouts, Heading, HeaderRow, SecondRow, Outro, StrictlyOrdered, Separated, Flatten;
    hide D.AllAt, D.Stacked, IsHeading, IsHeadingOf, HeaderColumns, Idle;
    var outro := Outro(p, RowTop(|hs|));
    var body := LayoutsBody(Layouts(hs, 0, p)) + outro;
    OutroStacked(p, RowTop(|hs|));
    BodyStacked(hs, 0, p, outro);
    SecondRowIs();
    HeaderRowIs();
    HeadingIs('A', p, 0.0);
    assert RowTop(0) == 12.0;
    OnTop(SecondRow(), 8.0, body);
    OnTop(HeaderRow(), 4.0, [SecondRow()] + body);
    OnTop(Heading("A", p, 0.0), 0.0, [HeaderRow()] + ([SecondRow()] + body));
    D.StackedSeparated(PageOf(hs, p).lines, 0.0);
  }

  /** Every list of holdings whose lines read like no heading, header row, footnote or annotation has a
      report that parses to exactly that list, with its headings and labels printed either way, a comment
      under each holding, and the next schedule below. */
  lemma {:induction false} EveryListHasAReport(hs: seq<Holding>, p: D.Print) returns (pages: seq<Page>)
    requires forall h | h in hs :: Printable(h)
    ensures pages == [PageOf(hs, p)] && ValidPage(pages[0])
    ensures Holdings(WordsOf(pages)) == AllExpected(hs, 0)
  {
    hide Printable, LayoutsBody, Layouts, Heading, HeaderRow, SecondRow, ValidPage, AllLaidOut, Holdings, AllExpected;
    hide IsHeading, IsHeadingOf, HeaderColumns, Flatten, RowTop, Idle, Show;
    pages := [PageOf(hs, p)];
    PageIsValid(hs, p);
    AllLayouts(hs, p);
    HeadingIs('A', p, 0.0);
    HeadingIs('B', p, RowTop(|hs|));
    HeaderRowIs();
    SecondRowIs();
    var row, under, body := HeaderRow(), [SecondRow()], LayoutsBody(Layouts(hs, 0, p));
    var heading, outro := Heading("A", p, 0.0), Outro(p, RowTop(|hs|));
    assert pages[1..] == [];
    assert LinesOf(pages) == PageOf(hs, p).lines + [];
    OneSection(heading, row, under, body, outro);
    ScheduleRoundTrip(hs, Layouts(hs, 0, p), COLUMNS, [], heading, [], row, under, outro, pages);
  }

  lemma {:induction false} OneSection(heading: Line, row: Line, under: seq<Line>, body: seq<Line>, outro: seq<Line>)
    ensures [heading] + ([row] + (under + (body + outro)))
         == [] + ([heading] + (([] + ([row] + (under + body))) + outro))
  {
  }
}
