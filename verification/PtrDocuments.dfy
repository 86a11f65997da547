/** A document for every list of transactions: the PTR round trip leaves nothing out. */
module PtrDocuments {
  import opened Optional
  import opened Text
  import opened Lines
  import opened PtrParser
  import opened PtrPass
  import opened PtrWords
  import opened PtrLaws
  import opened PtrLayout

  // ---- words on a line ----

  /** Where the header words of the 2026 form stand, in the order of `HEADER_WORDS`. */
  const HEADER_X: seq<real> := [20.0, 58.0, 103.0, 263.0, 328.0, 383.0, 448.0, 527.0]

  function HeaderRow(): Line {
    seq(|HEADER_WORDS|, i requires 0 <= i < |HEADER_WORDS| => Word(HEADER_WORDS[i], HEADER_X[i], 0.0))
  }

  /** Where the cells of a column begin. */
  function Left(z: Zone): real {
    match z
    case IdZone => 20.0
    case OwnerZone => 56.0
    case AssetZone => 101.0
    case TypeZone => 261.0
    case DateZone => 326.0
    case NotifZone => 381.0
    case AmountZone => 446.0
    case Outside => 600.0
  }

  /** 0, 1/2, 3/4, ...: room for any number of words in one unit. */
  function Offset(i: nat): (r: real)
    ensures 0.0 <= r < 1.0
  {
    if i == 0 then 0.0 else (Offset(i - 1) + 1.0) / 2.0
  }

  lemma {:induction false} OffsetGrows(i: nat, j: nat)
    requires i < j
    ensures Offset(i) < Offset(j)
  {
    if i < j - 1 {
      OffsetGrows(i, j - 1);
    }
  }

  function Show(cells: seq<Cell>, top: real): Line {
    seq(|cells|, i requires 0 <= i < |cells| => Word(cells[i].text, Left(cells[i].zone) + Offset(i), top))
  }

  predicate Ascending(cells: seq<Cell>) {
    forall i, j | 0 <= i < j < |cells| :: Left(cells[i].zone) <= Left(cells[j].zone)
  }

  lemma {:induction false} ShowOrdered(cells: seq<Cell>, top: real)
    requires Ascending(cells)
    ensures StrictlyOrdered(Show(cells, top))
  {
    var line := Show(cells, top);
    forall i, j | 0 <= i < j < |line| ensures line[i].x0 < line[j].x0 {
      OffsetGrows(i, j);
    }
  }

  lemma {:induction false} ShowPlaced(cells: seq<Cell>, top: real)
    ensures Placed(Show(cells, top), cells, DEFAULT_BOUNDS)
  {
    forall i | 0 <= i < |cells| ensures ZoneOf(Show(cells, top)[i].x0, DEFAULT_BOUNDS) == cells[i].zone {
      assert 0.0 <= Offset(i) < 1.0;
    }
  }

  lemma {:induction false} ColumnsAscend(t: Trade, asset: seq<string>, amount: seq<string>, n: nat)
    requires n <= |COLUMNS|
    ensures var cells := ColumnCells(t, asset, amount, COLUMNS[..n]);
            Ascending(cells) && forall i | 0 <= i < |cells| :: cells[i].zone in COLUMNS[..n]
  {
    hide StartTexts;
    if n > 0 {
      ColumnsAscend(t, asset, amount, n - 1);
      assert COLUMNS[..n][..n - 1] == COLUMNS[..n - 1];
      assert COLUMNS[..n] == COLUMNS[..n - 1] + [COLUMNS[n - 1]];
      LeftAscends(n - 1);
    }
  }

  lemma {:induction false} LeftAscends(n: nat)
    requires n < |COLUMNS|
    ensures forall z | z in COLUMNS[..n] :: Left(z) < Left(COLUMNS[n])
  {
    forall z | z in COLUMNS[..n] ensures Left(z) < Left(COLUMNS[n]) {
      var k :| 0 <= k < n && COLUMNS[k] == z;
    }
  }

  // ---- one transaction ----

  function RowCells(t: Trade): seq<Cell> {
    StartCells(t, t.asset, BandWords(t.amount))
  }

  /** How the form prints its labels: the names in scrambled case until 2022, since then the initial and
      NULs for the other letters. */
  datatype Print = Plain | Encoded

  function Nuls(n: nat): string {
    seq(n, _ => NUL)
  }

  function LabelWord(l: Label, p: Print): string {
    match (l, p)
    case (Filing, Plain) => "FiLing"
    case (Filing, Encoded) => "F" + Nuls(5)
    case (Subholding, Plain) => "suBHoLDing"
    case (Subholding, Encoded) => "S" + Nuls(9)
    case (Description, Plain) => "DescriPtion:"
    case (Description, Encoded) => "D" + Nuls(10) + ":"
    case (Location, Plain) => "Location:"
    case (Location, Encoded) => "L" + Nuls(7) + ":"
  }

  /** The line "Filing Status: New" under a transaction. */
  function StatusWords(p: Print): seq<string> {
    [LabelWord(Filing, p), if p == Plain then "status:" else "S" + Nuls(5) + ":", "New"]
  }

  function DescriptionWords(t: Trade, p: Print): seq<string> {
    [LabelWord(Description, p)] + t.description
  }

  /** Annotation lines stand under the asset. */
  function NoteLine(words: seq<string>, top: real): Line {
    Show(CellsOf(AssetZone, words), top)
  }

  predicate BodyText(words: seq<string>) {
    !IsHeading(words) && !IsFooterLine(Join(words))
  }

  function CellTexts(cells: seq<Cell>): seq<string> {
    seq(|cells|, i requires 0 <= i < |cells| => cells[i].text)
  }

  /** No line of the transaction reads like a heading or the footer. */
  predicate Printable(t: Trade, p: Print) {
    && ValidTrade(t) && BodyText(CellTexts(RowCells(t)))
    && (t.description != [] ==> BodyText(DescriptionWords(t, p)))
    && forall w | w in t.description :: ContentWord(w)
  }

  lemma {:induction false} LabelWordPrints(l: Label, p: Print)
    ensures PrintsPlain(LabelWord(l, p), LabelName(l)) || PrintsEncoded(LabelWord(l, p), LabelName(l))
    ensures forall m :: IsLabel(LabelWord(l, p), m) <==> m == l
  {
    hide IsLabel;
    var text := LabelWord(l, p);
    if p == Plain {
      PlainLabel(l);
    } else {
      assert text[1] == NUL;
    }
    PrintedLabelReads(text, l);
    forall m ensures IsLabel(text, m) <==> m == l {
      LabelIff(text, m);
    }
  }

  lemma {:induction false} PlainLabel(l: Label)
    ensures PrintsPlain(LabelWord(l, Plain), LabelName(l))
  {
    match l
    case Filing => assert Lower("FiLing"[..6]) == "filing";
    case Subholding => assert Lower("suBHoLDing"[..10]) == "subholding";
    case Description => assert Lower("DescriPtion:"[..11]) == "description";
    case Location => assert Lower("Location:"[..8]) == "location";
  }

  function RowTop(k: nat): real {
    12.0 * (k as real + 1.0)
  }

  function StatusNote(k: nat, p: Print): Note {
    Note(NoteLine(StatusWords(p), RowTop(k) + 4.0), Some(Filing), StatusWords(p)[1..])
  }

  function DescriptionNote(t: Trade, k: nat, p: Print): Note {
    Note(NoteLine(DescriptionWords(t, p), RowTop(k) + 8.0), Some(Description), t.description)
  }

  function Notes(t: Trade, k: nat, p: Print): seq<Note> {
    [StatusNote(k, p)] + if t.description == [] then [] else [DescriptionNote(t, k, p)]
  }

  function LayoutOf(t: Trade, k: nat, p: Print): Layout {
    Layout(Show(RowCells(t), RowTop(k)), RowCells(t), t.asset, BandWords(t.amount), [], Notes(t, k, p))
  }

  lemma {:induction false} ShownTexts(cells: seq<Cell>, top: real)
    ensures Texts(Show(cells, top)) == CellTexts(cells)
  {
  }

  lemma {:induction false} NoteTexts(words: seq<string>, top: real)
    ensures Texts(NoteLine(words, top)) == words
  {
  }

  lemma {:induction false} RowNotEmpty(t: Trade)
    ensures RowCells(t) != []
  {
    hide StartTexts, InZone, ColumnCells;
    ColumnsComplete(TypeZone);
    StartColumn(t, t.asset, BandWords(t.amount), COLUMNS, TypeZone);
    assert InZone(RowCells(t), TypeZone) != [] by { TypeNotEmpty(t); }
    NoCells(TypeZone);
  }

  lemma {:induction false} NoCells(z: Zone)
    ensures InZone([], z) == []
  {
  }

  lemma {:induction false} TypeNotEmpty(t: Trade)
    ensures StartTexts(t, t.asset, BandWords(t.amount), TypeZone) != []
  {
  }

  /** A line under the asset, with a label as its first word. */
  lemma {:induction false} NoteShows(words: seq<string>, l: Label, p: Print, top: real)
    requires words != [] && words[0] == LabelWord(l, p)
    ensures ShowsNote(Note(NoteLine(words, top), Some(l), words[1..]), DEFAULT_BOUNDS)
  {
    hide IsLabel, StartsTransaction, LabelWord;
    LabelWordPrints(l, p);
    NoteStartsNothing(words, top);
    NoteTexts(words, top);
  }

  lemma {:induction false} NoteStartsNothing(words: seq<string>, top: real)
    ensures !StartsTransaction(NoteLine(words, top), DEFAULT_BOUNDS)
  {
    hide IsTypeLetter;
    forall i | 0 <= i < |words| ensures NoteLine(words, top)[i].x0 < 260.0 {
      assert Offset(i) < 1.0;
    }
  }

  /** Annotation lines: the status alone, then the description, then a line without a label. */
  lemma {:induction false} StatusOnly(s: Note)
    requires s.tag == Some(Filing)
    ensures NoteLines([s]) == [s.line] && DescribedByWords([s], false) && DescriptionText([s], false) == []
  {
    assert [s][1..] == [];
  }

  lemma {:induction false} OneNote(s: Note, n: Note)
    requires s.tag == Some(Filing) && n.tag == Some(Description) && forall w | w in n.words :: ContentWord(w)
    ensures NoteLines([s, n]) == [s.line, n.line] && DescribedByWords([s, n], false)
    ensures DescriptionText([s, n], false) == n.words
  {
    hide ContentWord;
    assert [s, n][1..] == [n] && [n][1..] == [];
    assert NoteLines([n]) == [n.line] && DescribedByWords([n], false);
    assert n.words + [] == n.words;
    assert DescriptionText([], true) == [];
    assert DescriptionText([n], false) == n.words;
    assert [] + n.words == n.words;
  }

  lemma {:induction false} OneMoreNote(m: Note)
    requires m.tag == None && forall w | w in m.words :: ContentWord(w)
    ensures NoteLines([m]) == [m.line] && DescribedByWords([m], true) && DescriptionText([m], true) == m.words
  {
    hide ContentWord;
    assert [m][1..] == [];
    assert m.words + [] == m.words;
  }

  lemma {:induction false} TwoNotes(s: Note, n: Note, m: Note)
    requires s.tag == Some(Filing) && n.tag == Some(Description) && m.tag == None
    requires forall w | w in n.words + m.words :: ContentWord(w)
    ensures NoteLines([s, n, m]) == [s.line, n.line, m.line] && DescribedByWords([s, n, m], false)
    ensures DescriptionText([s, n, m], false) == n.words + m.words
  {
    hide ContentWord;
    assert [s, n, m][1..] == [n, m] && [n, m][1..] == [m];
    assert forall w | w in n.words :: w in n.words + m.words;
    assert forall w | w in m.words :: w in n.words + m.words;
    OneMoreNote(m);
    assert NoteLines([n, m]) == [n.line, m.line] && DescribedByWords([n, m], false);
    assert DescriptionText([n, m], false) == n.words + m.words;
    assert [] + (n.words + m.words) == n.words + m.words;
  }

  lemma {:induction false} LayoutIs(t: Trade, k: nat, p: Print)
    requires Printable(t, p)
    ensures LaidOut(t, LayoutOf(t, k, p), DEFAULT_BOUNDS)
  {
    hide StartCells, Placed, ShowsStart, ShowsNote, BodyText, ContentWord, RowTop, NoteLine, LabelWord;
    var l := LayoutOf(t, k, p);
    ShowPlaced(RowCells(t), RowTop(k));
    StartCellsShow(t, t.asset, BandWords(t.amount));
    NoteShows(StatusWords(p), Filing, p, RowTop(k) + 4.0);
    assert l.asset + [] == t.asset && l.amount + [] == BandWords(t.amount);
    if t.description == [] {
      StatusOnly(l.notes[0]);
      assert l.notes == [l.notes[0]];
    } else {
      NoteShows(DescriptionWords(t, p), Description, p, RowTop(k) + 8.0);
      assert DescriptionWords(t, p)[1..] == t.description;
      OneNote(l.notes[0], l.notes[1]);
      assert l.notes == [l.notes[0], l.notes[1]];
    }
  }

  // ---- the whole page ----

  /** Lines of words of one height each, every line at least four points under the one before. */
  predicate Stacked(lines: seq<Line>, from: real) {
    lines == []
    || (lines[0] != [] && StrictlyOrdered(lines[0]) && AllAt(lines[0], lines[0][0].top) && lines[0][0].top >= from
        && Stacked(lines[1..], lines[0][0].top + 4.0))
  }

  predicate AllAt(line: Line, top: real) {
    forall w | w in line :: w.top == top
  }

  lemma {:induction false} StackedBelow(lines: seq<Line>, from: real)
    requires Stacked(lines, from)
    ensures forall l, w | l in lines && w in l :: w.top >= from
  {
    hide StrictlyOrdered;
    if lines != [] {
      StackedBelow(lines[1..], lines[0][0].top + 4.0);
      assert lines == [lines[0]] + lines[1..];
    }
  }

  lemma {:induction false} StackedSeparated(lines: seq<Line>, from: real)
    requires Stacked(lines, from)
    ensures Separated(lines)
  {
    hide StrictlyOrdered, WithinTolerance, Above;
    if lines != [] {
      var rest, top := lines[1..], lines[0][0].top;
      StackedSeparated(rest, top + 4.0);
      StackedBelow(rest, top + 4.0);
      assert lines == [lines[0]] + rest;
      SameHeight(lines[0], top);
      forall i, j | 0 <= i < j < |lines| ensures Above(lines[i], lines[j]) {
        assert lines[j] == rest[j - 1] && lines[j] in rest;
        if i > 0 {
          assert lines[i] == rest[i - 1] && Above(rest[i - 1], rest[j - 1]);
        } else {
          BelowRow(lines[0], top, lines[j]);
        }
      }
    }
  }

  lemma {:induction false} SameHeight(line: Line, top: real)
    requires AllAt(line, top)
    ensures WithinTolerance(line)
  {
  }

  lemma {:induction false} BelowRow(line: Line, top: real, below: Line)
    requires AllAt(line, top) && forall w | w in below :: w.top >= top + 4.0
    ensures Above(line, below)
  {
  }

  lemma {:induction false} ShownStack(cells: seq<Cell>, top: real, from: real, rest: seq<Line>)
    requires cells != [] && Ascending(cells) && from <= top && Stacked(rest, top + 4.0)
    ensures Stacked([Show(cells, top)] + rest, from)
  {
    hide StrictlyOrdered, Ascending;
    ShowOrdered(cells, top);
    assert ([Show(cells, top)] + rest)[1..] == rest;
  }

  function Layouts(ts: seq<Trade>, k: nat, p: Print): (ls: seq<Layout>)
    ensures |ls| == |ts|
  {
    if ts == [] then [] else [LayoutOf(ts[0], k, p)] + Layouts(ts[1..], k + 1, p)
  }

  lemma {:induction false} LayoutAt(ts: seq<Trade>, k: nat, i: nat, p: Print)
    requires i < |ts|
    ensures Layouts(ts, k, p)[i] == LayoutOf(ts[i], k + i, p)
    decreases i
  {
    hide LayoutOf;
    if i > 0 {
      LayoutAt(ts[1..], k + 1, i - 1, p);
    }
  }

  /** The lines of a transaction, and any that follow further down. */
  lemma {:induction false} BodyStacked(ts: seq<Trade>, k: nat, p: Print, from: real, rest: seq<Line>)
    requires from <= RowTop(k) && (forall t | t in ts :: Printable(t, p)) && Stacked(rest, RowTop(k + |ts|))
    ensures Stacked(LayoutsBody(Layouts(ts, k, p)) + rest, from)
    ensures forall l | l in LayoutsBody(Layouts(ts, k, p)) :: BodyText(Texts(l))
    decreases |ts|
  {
    hide BodyText, StartCells, ValidTrade, ContentWord, Show, Stacked, LayoutOf, LayoutLines, Texts, RowTop;
    if ts == [] {
      assert LayoutsBody(Layouts(ts, k, p)) + rest == rest;
      LaterStack(rest, from, RowTop(k));
    } else {
      var t, later := ts[0], LayoutsBody(Layouts(ts[1..], k + 1, p));
      assert ts == [t] + ts[1..];
      Tops(k);
      BodyStacked(ts[1..], k + 1, p, RowTop(k + 1), rest);
      BlockStacked(t, k, p, from, later + rest);
      var lines := LayoutLines(LayoutOf(t, k, p));
      assert LayoutsBody(Layouts(ts, k, p)) == lines + later;
      assert (lines + later) + rest == lines + (later + rest);
      forall x | x in LayoutsBody(Layouts(ts, k, p)) ensures BodyText(Texts(x)) {
        assert x in lines || x in later;
      }
    }
  }

  lemma {:induction false} Tops(k: nat)
    ensures RowTop(k + 1) == RowTop(k) + 12.0
  {
  }

  lemma {:induction false} LaterStack(lines: seq<Line>, from: real, later: real)
    requires Stacked(lines, later) && from <= later
    ensures Stacked(lines, from)
  {
  }

  lemma {:induction false} BlockLines(t: Trade, k: nat, p: Print)
    ensures LayoutLines(LayoutOf(t, k, p))
         == [Show(RowCells(t), RowTop(k)), StatusNote(k, p).line]
            + if t.description == [] then [] else [DescriptionNote(t, k, p).line]
  {
    hide Show, NoteLine, RowCells, RowTop, StatusWords, DescriptionWords;
    var s, n := StatusNote(k, p), DescriptionNote(t, k, p);
    assert [s][1..] == [] && [s, n][1..] == [n] && [n][1..] == [];
    assert NoteLines([s]) == [s.line] && NoteLines([n]) == [n.line] && NoteLines([s, n]) == [s.line, n.line];
    assert Notes(t, k, p) == if t.description == [] then [s] else [s, n];
  }

  lemma {:induction false} BlockStacked(t: Trade, k: nat, p: Print, from: real, rest: seq<Line>)
    requires Printable(t, p) && from <= RowTop(k) && Stacked(rest, RowTop(k) + 12.0)
    ensures Stacked(LayoutLines(LayoutOf(t, k, p)) + rest, from)
    ensures forall l | l in LayoutLines(LayoutOf(t, k, p)) :: BodyText(Texts(l))
  {
    hide BodyText, ValidTrade, ContentWord, RowCells, Stacked, Show, RowTop, Ascending, LayoutOf, LayoutLines;
    hide StatusWords, LabelWord, NoteLine;
    var top := RowTop(k);
    var row, status := Show(RowCells(t), top), NoteLine(StatusWords(p), top + 4.0);
    BlockLines(t, k, p);
    ShownTexts(RowCells(t), top);
    NoteTexts(StatusWords(p), top + 4.0);
    StatusIsBody(p);
    RowAscends(t);
    var below := rest;
    if t.description == [] {
      LaterStack(rest, top + 8.0, top + 12.0);
    } else {
      var note := NoteLine(DescriptionWords(t, p), top + 8.0);
      NoteTexts(DescriptionWords(t, p), top + 8.0);
      NoteStack(DescriptionWords(t, p), top + 8.0, rest);
      below := [note] + rest;
    }
    NoteStack(StatusWords(p), top + 4.0, below);
    ShownStack(RowCells(t), top, from, [status] + below);
    assert LayoutLines(LayoutOf(t, k, p)) + rest == [row] + ([status] + below);
  }

  lemma {:induction false} NoteStack(words: seq<string>, top: real, rest: seq<Line>)
    requires words != [] && Stacked(rest, top + 4.0)
    ensures Stacked([NoteLine(words, top)] + rest, top)
  {
    hide Stacked, Show;
    ShownStack(CellsOf(AssetZone, words), top, top, rest);
  }

  lemma {:induction false} NoNames(words: seq<string>, name: string, c: char)
    requires c in name && forall w | w in words :: c !in Lower(w)
    ensures !Names(words, name)
  {
    hide Contains;
    forall i | 0 <= i < |words| ensures !Contains(Lower(words[i]), name) {
      assert words[i] in words;
      LacksChar(Lower(words[i]), name, c);
    }
  }

  lemma {:induction false} JoinLacks(words: seq<string>, c: char)
    requires c != ' ' && forall w | w in words :: c !in w
    ensures c !in Join(words)
  {
    if |words| > 1 {
      assert forall w | w in words[1..] :: w in words;
      JoinLacks(words[1..], c);
      assert words[0] in words;
    } else if |words| == 1 {
      assert words[0] in words;
    }
  }

  lemma {:induction false} StatusIsBody(p: Print)
    ensures BodyText(StatusWords(p)) && StatusWords(p) != []
  {
    hide Names, Contains, Join;
    var words := StatusWords(p);
    StatusLetters(p);
    assert "owner"[0] == 'o' && "notification"[1] == 'o' && "cap."[0] == 'c' && "$200?"[0] == '$';
    NoNames(words, "owner", 'o');
    NoNames(words, "notification", 'o');
    NoNames(words, "cap.", 'c');
    NoNames(words, "$200?", '$');
    JoinLacks(words, 'o');
    assert FOOTER_MARKER[|FOOTER_MARKER| - 3] == 'o';
    LacksChar(Join(words), FOOTER_MARKER, 'o');
  }

  /** A word without the letters a heading or the footer would need. */
  predicate Quiet(w: string) {
    'o' !in w && 'o' !in Lower(w) && 'c' !in Lower(w) && '$' !in Lower(w)
  }

  lemma {:induction false} StatusLetters(p: Print)
    ensures forall w | w in StatusWords(p) :: Quiet(w)
  {
    if p == Plain {
      PlainStatusLetters();
    } else {
      EncodedStatusLetters();
    }
  }

  lemma {:induction false} PlainStatusLetters()
    ensures Quiet("FiLing") && Quiet("status:") && Quiet("New")
  {
  }

  lemma {:induction false} EncodedStatusLetters()
    ensures Quiet("F" + Nuls(5)) && Quiet("S" + Nuls(5) + ":") && Quiet("New")
  {
  }

  lemma {:induction false} RowAscends(t: Trade)
    ensures RowCells(t) != [] && Ascending(RowCells(t))
  {
    hide StartTexts, ColumnCells;
    RowNotEmpty(t);
    ColumnsAscend(t, t.asset, BandWords(t.amount), |COLUMNS|);
    assert COLUMNS[..|COLUMNS|] == COLUMNS;
  }

  function BodyItems(lines: seq<Line>): (items: seq<Item>)
    ensures |items| == |lines| && forall i | 0 <= i < |lines| :: items[i] == BodyLine(lines[i])
    ensures ItemLines(items) == lines && BodyLines(items) == lines
  {
    if lines == [] then []
    else
      var items := [BodyLine(lines[0])] + BodyItems(lines[1..]);
      assert items[1..] == BodyItems(lines[1..]);
      items
  }

  // ---- the rest of the form ----

  /** The second header row as it stands on the 2026 form. */
  const SECOND_ROW_X: seq<real> := [263.0, 383.0, 527.0, 560.0]

  function SecondRow(): Line {
    seq(|SECOND_ROW|, i requires 0 <= i < |SECOND_ROW| => Word(SECOND_ROW[i], SECOND_ROW_X[i], 4.0))
  }

  /** The third row of the heading. */
  function ThirdRow(): Line {
    [Word("$200?", 560.0, 8.0)]
  }

  const FOOTER_WORDS: seq<string> :=
    ["*", "For", "the", "complete", "list", "of", "asset", "type", "abbreviations,"]

  function FooterLine(top: real): Line {
    NoteLine(FOOTER_WORDS, top)
  }

  /** Below the footer anything may stand, even what would start a transaction elsewhere. */
  function UnderFooter(top: real): Line {
    Show([Cell(TypeZone, "P")], top)
  }

  function Footer(top: real): seq<Line> {
    [FooterLine(top), UnderFooter(top + 4.0)]
  }

  function HeadItems(): seq<Item> {
    [Heading(HeaderRow()), BodyLine(SecondRow()), Heading(ThirdRow())]
  }

  function PageOf(ts: seq<Trade>, p: Print): Page {
    var body, footer := LayoutsBody(Layouts(ts, 0, p)), Footer(RowTop(|ts|));
    Page(HeadItems() + BodyItems(body), footer, Flatten(ItemLines(HeadItems() + BodyItems(body)) + footer))
  }

  lemma {:induction false} HeaderRowIs()
    ensures IsHeaderRow(HeaderRow()) && StrictlyOrdered(HeaderRow()) && HeaderRowBounds(HeaderRow()) == DEFAULT_BOUNDS
    ensures AllAt(HeaderRow(), 0.0) && HeaderRow() != [] && HeaderRow()[2].x0 == 103.0
  {
    hide Lower;
  }

  lemma {:induction false} SecondRowIs()
    ensures Texts(SecondRow()) == SECOND_ROW && SecondRow() != [] && StrictlyOrdered(SecondRow())
    ensures AllAt(SecondRow(), 4.0)
    ensures !StartsTransaction(SecondRow(), DEFAULT_BOUNDS)
    ensures BodyText(Texts(SecondRow()))
    ensures forall l :: !IsLabel(SecondRow()[0].text, l)
    ensures forall w | w in SECOND_ROW :: ContentWord(w)
  {
    hide IsHeaderLine, IsFooterLine, LineText, AnnotationLabel, ContentWord, IsLabel, IsHeading;
    var row := SecondRow();
    assert Texts(row) == SECOND_ROW;
    SecondRowLetters();
    SecondHeaderRowHarmlessIff(START, row, DEFAULT_BOUNDS, Rules(_ => NO_OPTION));
    SecondRowContent(row, DEFAULT_BOUNDS);
    SecondRowWords();
    HeadingIff(row);
    LineTextIs(row);
    NoLabelIff(row[0].text);
  }

  lemma {:induction false} LineTextIs(line: Line)
    ensures LineText(line) == Join(Texts(line))
  {
  }

  lemma {:induction false} SecondRowLetters()
    ensures forall w | w in SECOND_ROW :: !IsTypeLetter(w)
  {
    forall i | 0 <= i < |SECOND_ROW| ensures !IsTypeLetter(SECOND_ROW[i]) {
      assert i < 3 ==> |Upper(SECOND_ROW[i])| > 1;
      assert Upper(">") == ">";
    }
  }

  lemma {:induction false} SecondRowWords()
    ensures forall w | w in SECOND_ROW :: ContentWord(w)
  {
    forall i | 0 <= i < |SECOND_ROW| ensures ContentWord(SECOND_ROW[i]) {
      assert |SECOND_ROW[i]| < |"description"|;
    }
  }

  lemma {:induction false} ThirdRowIs()
    ensures IsHeading(Texts(ThirdRow())) && ThirdRow() != [] && StrictlyOrdered(ThirdRow()) && AllAt(ThirdRow(), 8.0)
  {
    hide Names;
    assert Texts(ThirdRow()) == ["$200?"];
    assert Lower("$200?") == "$200?";
    NamesItself(["$200?"], 0, "$200?");
  }

  lemma {:induction false} FooterIs(top: real)
    ensures IsFooterLine(Join(FOOTER_WORDS)) && !IsHeading(FOOTER_WORDS) && Texts(FooterLine(top)) == FOOTER_WORDS
  {
    hide Names, Contains, Join;
    FooterJoined();
    FooterStartLetters();
    FooterMiddleLetters();
    FooterEndLetters();
    var x, y, z := ["*", "For", "the", "complete"], ["list", "of", "asset"], ["type", "abbreviations,"];
    assert FOOTER_WORDS == x + (y + z);
    assert forall w | w in FOOTER_WORDS :: Clean(w);
    assert "owner"[1] == 'w' && "amount"[3] == 'u' && "gains"[0] == 'g' && "$200?"[0] == '$';
    NoNames(FOOTER_WORDS, "owner", 'w');
    NoNames(FOOTER_WORDS, "amount", 'u');
    NoNames(FOOTER_WORDS, "gains", 'g');
    NoNames(FOOTER_WORDS, "$200?", '$');
    NoteTexts(FOOTER_WORDS, top);
  }

  predicate Clean(w: string) {
    'w' !in Lower(w) && 'u' !in Lower(w) && 'g' !in Lower(w) && '$' !in Lower(w)
  }

  lemma {:induction false} FooterStartLetters()
    ensures Clean("*") && Clean("For") && Clean("the") && Clean("complete")
  {
  }

  lemma {:induction false} FooterMiddleLetters()
    ensures Clean("list") && Clean("of") && Clean("asset")
  {
  }

  lemma {:induction false} FooterEndLetters()
    ensures Clean("type") && Clean("abbreviations,")
  {
  }

  lemma {:induction false} FooterStart()
    ensures "*" + " " + ("For" + " " + ("the" + " " + "complete")) == "* " + "For the complete"
  {
  }

  lemma {:induction false} FooterMiddle()
    ensures "list" + " " + ("of" + " " + "asset") == "list of asset"
  {
  }

  lemma {:induction false} FooterEnd()
    ensures "type" + " " + "abbreviations," == "type abbreviations" + ","
  {
  }

  lemma {:induction false} FooterParts()
    ensures "For the complete" + " " + ("list of asset" + " " + "type abbreviations") == FOOTER_MARKER
  {
  }

  lemma {:induction false} Reassociate(a: string, b: string, c: string, d: string, e: string)
    ensures (a + b) + " " + (c + " " + (d + e)) == a + ((b + " " + (c + " " + d)) + e)
  {
  }

  lemma {:induction false} JoinFew(a: string, b: string, c: string, d: string)
    ensures Join([a, b]) == a + " " + b && Join([a, b, c]) == a + " " + (b + " " + c)
    ensures Join([a, b, c, d]) == a + " " + (b + " " + (c + " " + d))
  {
    assert [a, b, c, d][1..] == [b, c, d] && [b, c, d][1..] == [c, d] && [c, d][1..] == [d];
    assert [a, b, c][1..] == [b, c] && [b, c][1..] == [c] && [a, b][1..] == [b];
    assert Join([b, c]) == b + " " + c && Join([c, d]) == c + " " + d;
    assert Join([b, c, d]) == b + " " + (c + " " + d);
  }

  lemma {:induction false} FooterJoined()
    ensures Join(FOOTER_WORDS) == "* " + (FOOTER_MARKER + ",")
    ensures IsFooterLine(Join(FOOTER_WORDS))
  {
    hide Contains, Join;
    var x, y, z := ["*", "For", "the", "complete"], ["list", "of", "asset"], ["type", "abbreviations,"];
    assert FOOTER_WORDS == x + (y + z);
    JoinConcat(x, y + z);
    JoinConcat(y, z);
    JoinFew("*", "For", "the", "complete");
    JoinFew("list", "of", "asset", "");
    JoinFew("type", "abbreviations,", "", "");
    FooterStart();
    FooterMiddle();
    FooterEnd();
    FooterParts();
    Reassociate("* ", "For the complete", "list of asset", "type abbreviations", ",");
    ContainsSelf(FOOTER_MARKER);
    ContainsLeft(FOOTER_MARKER, ",", FOOTER_MARKER);
    ContainsRight("* ", FOOTER_MARKER + ",", FOOTER_MARKER);
  }

  lemma {:induction false} ContainsSelf(s: string)
    ensures Contains(s, s)
  {
    assert s[0..|s|] == s;
    assert OccursAt(s, s, 0);
  }

  /** Every list of transactions whose lines do not read like a heading or the footer, with any
      descriptions, has a document on the 2026 form that parses to exactly that list, with its labels
      printed either way. Each transaction is followed by its filing status and its description, the
      page ends with the footer and a line that would start a transaction above it. */
  lemma {:induction false} EveryListHasADocument(ts: seq<Trade>, p: Print, rules: Rules) returns (pages: seq<Page>)
    requires forall t | t in ts :: Printable(t, p)
    ensures pages == [PageOf(ts, p)] && ValidPage(pages[0])
    ensures IsElectronic(WordsOf(pages)) && Parsed(WordsOf(pages), rules) == AllExpected(ts, 0, rules)
  {
    hide Parsed, AllExpected, IsElectronic, AllLaidOut, PageOf, OnTemplate, ValidPage, LayoutsBody, HeaderRowBounds;
    hide NoStarts, SecondRow;
    pages := [PageOf(ts, p)];
    PageIsValid(ts, p);
    PageOnTemplate(ts, p);
    AllLayouts(ts, p);
    OnlySecondRow();
    TemplateRoundTrip(ts, Layouts(ts, 0, p), [SecondRow()], pages, 0, 0, rules);
  }

  lemma {:induction false} OnlySecondRow()
    ensures NoStarts([SecondRow()], DEFAULT_BOUNDS)
  {
    hide SecondRow, StartsTransaction, IsLabel, ContentWord;
    SecondRowIs();
  }

  lemma {:induction false} AllLayouts(ts: seq<Trade>, p: Print)
    requires forall t | t in ts :: Printable(t, p)
    ensures AllLaidOut(ts, Layouts(ts, 0, p), DEFAULT_BOUNDS)
  {
    hide LaidOut, Printable, ValidTrade, Layouts, LayoutOf;
    forall i | 0 <= i < |ts| ensures ValidTrade(ts[i]) && LaidOut(ts[i], Layouts(ts, 0, p)[i], DEFAULT_BOUNDS) {
      assert Printable(ts[i], p);
      PrintableValid(ts[i], p);
      LayoutAt(ts, 0, i, p);
      LayoutIs(ts[i], i, p);
    }
  }

  lemma {:induction false} ItemsCons(item: Item, rest: seq<Item>)
    ensures ItemLines([item] + rest) == [item.line] + ItemLines(rest)
    ensures BodyLines([item] + rest) == (if item.BodyLine? then [item.line] else []) + BodyLines(rest)
  {
    assert ([item] + rest)[1..] == rest;
  }

  lemma {:induction false} HeadItemLines(items: seq<Item>)
    ensures ItemLines(HeadItems() + items) == [HeaderRow(), SecondRow(), ThirdRow()] + ItemLines(items)
    ensures BodyLines(HeadItems() + items) == [SecondRow()] + BodyLines(items)
  {
    hide HeaderRow, SecondRow, ThirdRow, ItemLines, BodyLines;
    var two := [Heading(ThirdRow())] + items;
    var one := [BodyLine(SecondRow())] + two;
    ItemsCons(Heading(ThirdRow()), items);
    ItemsCons(BodyLine(SecondRow()), two);
    ItemsCons(Heading(HeaderRow()), one);
    assert HeadItems() + items == [Heading(HeaderRow())] + one;
    assert [] + BodyLines(items) == BodyLines(items);
    assert [] + BodyLines(one) == BodyLines(one);
  }

  lemma {:induction false} PageOnTemplate(ts: seq<Trade>, p: Print)
    ensures OnTemplate([PageOf(ts, p)], 0, 0)
    ensures HeaderRowBounds([PageOf(ts, p)][0].items[0].line) == DEFAULT_BOUNDS
    ensures BodyLines(PageOf(ts, p).items) == [SecondRow()] + LayoutsBody(Layouts(ts, 0, p))
    ensures DocumentBody([PageOf(ts, p)]) == [SecondRow()] + LayoutsBody(Layouts(ts, 0, p))
  {
    hide HeaderRow, SecondRow, ThirdRow, IsHeaderRow, HeaderRowBounds, LayoutsBody, Flatten, BodyLines, HasColumnWords;
    HeaderRowIs();
    var page, body := PageOf(ts, p), LayoutsBody(Layouts(ts, 0, p));
    assert page.items[0] == Heading(HeaderRow());
    HeadItemLines(BodyItems(body));
    assert [page][1..] == [];
    assert DocumentBody([page]) == BodyLines(page.items) + [];
  }

  lemma {:induction false} PrintableValid(t: Trade, p: Print)
    requires Printable(t, p)
    ensures ValidTrade(t)
  {
  }

  lemma {:induction false} HeadStacked(rest: seq<Line>)
    requires Stacked(rest, 12.0)
    ensures Stacked([HeaderRow(), SecondRow(), ThirdRow()] + rest, 0.0)
  {
    hide HeaderRow, SecondRow, ThirdRow, StrictlyOrdered, IsHeaderRow, IsHeading, BodyText, IsLabel, ContentWord;
    hide StartsTransaction;
    HeaderRowIs();
    SecondRowIs();
    ThirdRowIs();
    var two := [ThirdRow()] + rest;
    var one := [SecondRow()] + two;
    assert two[1..] == rest && one[1..] == two && ([HeaderRow()] + one)[1..] == one;
    AtTop(ThirdRow(), 8.0);
    AtTop(SecondRow(), 4.0);
    AtTop(HeaderRow(), 0.0);
    assert Stacked(two, 8.0);
    assert Stacked(one, 4.0);
    assert [HeaderRow(), SecondRow(), ThirdRow()] + rest == [HeaderRow()] + one;
  }

  lemma {:induction false} AtTop(line: Line, top: real)
    requires line != [] && AllAt(line, top)
    ensures line[0].top == top
  {
  }

  lemma {:induction false} FooterStacked(top: real)
    ensures Stacked(Footer(top), top)
  {
    hide Stacked, Show;
    NothingStacked(top + 8.0);
    var last := [Cell(TypeZone, "P")];
    ShownStack(last, top + 4.0, top + 4.0, []);
    assert [Show(last, top + 4.0)] + [] == [UnderFooter(top + 4.0)];
    NoteStack(FOOTER_WORDS, top, [UnderFooter(top + 4.0)]);
    assert [FooterLine(top)] + [UnderFooter(top + 4.0)] == Footer(top);
  }

  lemma {:induction false} NothingStacked(from: real)
    ensures Stacked([], from)
  {
  }

  lemma {:induction false} PageIsValid(ts: seq<Trade>, p: Print)
    requires forall t | t in ts :: Printable(t, p)
    ensures ValidPage(PageOf(ts, p))
  {
    hide Printable, LayoutsBody, HeaderRow, SecondRow, ThirdRow, IsHeading, IsFooterLine, StrictlyOrdered, Separated;
    hide Flatten, Layouts, IsHeaderRow, Join, NoteLine, UnderFooter, RowTop, Stacked, IsLabel, ContentWord;
    hide StartsTransaction, ItemLines;
    var body, top := LayoutsBody(Layouts(ts, 0, p)), RowTop(|ts|);
    var page := PageOf(ts, p);
    HeaderRowIs();
    HeaderRowIsHeading(HeaderRow());
    SecondRowIs();
    ThirdRowIs();
    FooterIs(top);
    FooterStacked(top);
    FirstTop();
    BodyStacked(ts, 0, p, 12.0, Footer(top));
    HeadStacked(body + Footer(top));
    HeadItemLines(BodyItems(body));
    assert ItemLines(page.items) + page.footer == [HeaderRow(), SecondRow(), ThirdRow()] + (body + Footer(top));
    StackedSeparated(ItemLines(page.items) + page.footer, 0.0);
    LineTextIs(FooterLine(top));
    LineTextIs(SecondRow());
    forall i | 0 <= i < |page.items| ensures ValidItem(page.items[i]) {
      if i >= 3 {
        assert page.items[i] == BodyLine(body[i - 3]) && body[i - 3] in body;
        LineTextIs(body[i - 3]);
      }
    }
  }

  lemma {:induction false} FirstTop()
    ensures RowTop(0) == 12.0
  {
  }

  // ---- a page break inside a description ----

  /** A transaction with a description on one page, and a second page with the header row and `rows`. */
  function BrokenPages(t: Trade, p: Print, rows: seq<Line>): seq<Page> {
    [PageOf([t], p), Page([Heading(HeaderRow())] + BodyItems(rows), [], Flatten([HeaderRow()] + rows))]
  }

  lemma {:induction false} SecondPageValid(t: Trade, p: Print, rows: seq<Line>)
    requires rows == [] || rows == [SecondRow()]
    ensures ValidPage(BrokenPages(t, p, rows)[1])
  {
    hide HeaderRow, SecondRow, IsHeading, IsFooterLine, StrictlyOrdered, Separated, Flatten, IsHeaderRow, Join;
    hide StartsTransaction, IsLabel, ContentWord, PageOf;
    HeaderRowIs();
    HeaderRowIsHeading(HeaderRow());
    SecondRowIs();
    LineTextIs(SecondRow());
    var page := BrokenPages(t, p, rows)[1];
    assert rows != [] ==> rows[1..] == [];
    assert Stacked(rows, 4.0);
    assert ([HeaderRow()] + rows)[1..] == rows;
    assert Stacked([HeaderRow()] + rows, 0.0);
    StackedSeparated([HeaderRow()] + rows, 0.0);
    assert page.items[1..] == BodyItems(rows);
    assert ItemLines(page.items) + page.footer == [HeaderRow()] + rows;
    forall i | 0 <= i < |page.items| ensures ValidItem(page.items[i]) {
      if i > 0 {
        assert page.items[i] == BodyLine(rows[i - 1]);
      }
    }
  }

  /** The layout whose annotation runs on over the page break. */
  function BrokenLayout(t: Trade, p: Print, rows: seq<Line>): Layout {
    var l := LayoutOf(t, 0, p);
    l.(notes := l.notes + if rows == [] then [] else [Note(SecondRow(), None, SECOND_ROW)])
  }

  function Leaked(t: Trade, rows: seq<Line>): Trade {
    if rows == [] then t else t.(description := t.description + SECOND_ROW)
  }

  lemma {:induction false} BrokenLayoutIs(t: Trade, p: Print, rows: seq<Line>)
    requires Printable(t, p) && t.description != [] && (rows == [] || rows == [SecondRow()])
    ensures LaidOut(Leaked(t, rows), BrokenLayout(t, p, rows), DEFAULT_BOUNDS) && ValidTrade(Leaked(t, rows))
  {
    hide StartCells, Placed, BodyText, ContentWord, RowTop, SecondRow, StartsTransaction, IsLabel, NoteLine;
    hide InZone, BandWords, LabelWord, StatusWords, DescriptionWords, StartTexts, ShowsColumn;
    var l, broken := LayoutOf(t, 0, p), BrokenLayout(t, p, rows);
    LayoutIs(t, 0, p);
    SecondRowIs();
    if rows == [] {
      assert broken.notes == l.notes;
    } else {
      var second := Note(SecondRow(), None, SECOND_ROW);
      TwoNotes(l.notes[0], l.notes[1], second);
      assert broken.notes == [l.notes[0], l.notes[1], second];
      var amount := BandWords(t.amount);
      forall z ensures StartTexts(Leaked(t, rows), t.asset, amount, z) == StartTexts(t, t.asset, amount, z) {
        SameStart(t, Leaked(t, rows), t.asset, amount, z);
      }
    }
  }

  lemma {:induction false} SameStart(t: Trade, u: Trade, asset: seq<string>, amount: seq<string>, z: Zone)
    requires u == t.(description := u.description)
    ensures StartTexts(u, asset, amount, z) == StartTexts(t, asset, amount, z)
  {
  }

  lemma {:induction false} BrokenBody(t: Trade, p: Print, rows: seq<Line>)
    requires Printable(t, p) && t.description != [] && (rows == [] || rows == [SecondRow()])
    ensures DocumentBody(BrokenPages(t, p, rows)) == [SecondRow()] + LayoutsBody([BrokenLayout(t, p, rows)])
  {
    hide HeaderRow, SecondRow, Flatten, PageOf, BrokenLayout, LayoutOf, LayoutsBody, LayoutLines, Printable;
    var pages := BrokenPages(t, p, rows);
    BrokenLines(t, p, rows);
    PageOnTemplate([t], p);
    var one, two := BodyLines(pages[0].items), BodyLines(pages[1].items);
    assert pages[1].items[1..] == BodyItems(rows);
    assert two == [] + rows;
    assert pages[1..] == [pages[1]] && pages[1..][1..] == [];
    assert DocumentBody(pages[1..]) == two + [];
    assert DocumentBody(pages) == one + (two + []);
  }

  lemma {:induction false} BrokenLines(t: Trade, p: Print, rows: seq<Line>)
    requires Printable(t, p) && t.description != [] && (rows == [] || rows == [SecondRow()])
    ensures LayoutsBody([BrokenLayout(t, p, rows)]) == LayoutsBody(Layouts([t], 0, p)) + rows
  {
    hide SecondRow, RowCells, Show, RowTop, BodyText, ContentWord, ValidTrade, NoteLine, StatusWords;
    var l, broken := LayoutOf(t, 0, p), BrokenLayout(t, p, rows);
    assert [t][1..] == [] && [broken][1..] == [] && [l][1..] == [];
    assert Layouts([t], 0, p) == [l];
    assert LayoutsBody([l]) == LayoutLines(l) + [] && LayoutsBody([broken]) == LayoutLines(broken) + [];
    NoteLinesConcat(l.notes, if rows == [] then [] else [Note(SecondRow(), None, SECOND_ROW)]);
    OneNoteLine(Note(SecondRow(), None, SECOND_ROW));
    assert LayoutLines(l) == [l.start] + NoteLines(l.notes);
    assert LayoutLines(broken) == [l.start] + NoteLines(broken.notes);
  }

  lemma {:induction false} OneNoteLine(n: Note)
    ensures NoteLines([n]) == [n.line]
  {
    assert [n][1..] == [];
  }

  lemma {:induction false} NoteLinesConcat(x: seq<Note>, y: seq<Note>)
    ensures NoteLines(x + y) == NoteLines(x) + NoteLines(y)
  {
    if x == [] {
      assert x + y == y;
    } else {
      assert (x + y)[1..] == x[1..] + y;
      NoteLinesConcat(x[1..], y);
    }
  }

  /** At a page break inside a description the words of the second header row join the description:
      with the row the document parses to the transaction with that longer description, without it to
      the transaction itself. */
  lemma {:induction false} SecondHeaderRowLeaks(t: Trade, p: Print, rows: seq<Line>, rules: Rules)
    requires Printable(t, p) && t.description != [] && (rows == [] || rows == [SecondRow()])
    ensures forall i | 0 <= i < 2 :: ValidPage(BrokenPages(t, p, rows)[i])
    ensures Parsed(WordsOf(BrokenPages(t, p, rows)), rules) == AllExpected([Leaked(t, rows)], 0, rules)
  {
    hide Parsed, AllExpected, IsElectronic, LaidOut, ValidTrade, PageOf, ValidPage, LayoutsBody, HeaderRowBounds;
    hide NoStarts, Printable, BrokenLayout, Leaked, DocumentBody, HeaderBounds, SecondRow, PageLines, IsHeaderRow;
    hide HasColumnWords;
    var pages := BrokenPages(t, p, rows);
    PageIsValid([t], p);
    SecondPageValid(t, p, rows);
    PageOnTemplate([t], p);
    BrokenLayoutIs(t, p, rows);
    BrokenBody(t, p, rows);
    OnlySecondRow();
    assert [PageOf([t], p)][0] == pages[0];
    assert OnTemplate(pages, 0, 0);
    TemplateRoundTrip([Leaked(t, rows)], [BrokenLayout(t, p, rows)], [SecondRow()], pages, 0, 0, rules);
  }
}
