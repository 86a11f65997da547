/** Laying out holdings on Schedule A, and the round trip through the parser. */
module ScheduleALayout {
  import opened Optional
  import opened Text
  import opened Money
  import opened Lines
  import AssetNames
  import opened ScheduleA
  import opened ScheduleAWords
  import P = PtrParser
  import L = PtrLayout

  // ---- what a report says ----

  datatype Value = NoValue | Undetermined | Closed(low: nat, high: nat) | Over(low: nat) | SpouseOver(low: nat)

  function ValueWords(v: Value): seq<string> {
    match v
    case NoValue => ["None"]
    case Undetermined => ["Undetermined"]
    case Closed(low, high) => ["$" + Commas(low), "-", "$" + Commas(high)]
    case Over(low) => ["Over", "$" + Commas(low)]
    case SpouseOver(low) => ["Spouse/DC", "Over", "$" + Commas(low)]
  }

  /** Only a closed band and an "Over" band carry numbers the band parser reads. */
  function ValueRange(v: Value): (Option<real>, Option<real>) {
    match v
    case Closed(low, high) => (Some(low as real), Some(high as real))
    case Over(low) => (Some(low as real), None)
    case _ => (None, None)
  }

  datatype Holding = Holding(
    owner: P.Owner, asset: seq<string>, value: Value, incomeType: seq<string>, income: seq<string>)

  predicate ValidHolding(h: Holding) {
    forall w | w in h.asset + h.incomeType + h.income :: IsWord(w)
  }

  function Expected(h: Holding, rowIndex: nat): ParsedHolding {
    var description := Join(h.asset);
    var (ticker, assetType) := AssetNames.TickerAndType(description);
    ParsedHolding(rowIndex, h.owner, description, ticker, assetType,
                  Join(ValueWords(h.value)), ValueRange(h.value).0, ValueRange(h.value).1,
                  if h.incomeType == [] then None else Some(Join(h.incomeType)),
                  if h.income == [] then None else Some(Join(h.income)))
  }

  // ---- values ----

  lemma {:induction false} ValueReads(v: Value)
    ensures Strip(Join(ValueWords(v))) == Join(ValueWords(v))
    ensures ParseAmountRange(Join(ValueWords(v))) == ValueRange(v)
  {
    hide ParseAmountRange;
    ValueIsWords(v);
    JoinOfWords(ValueWords(v));
    match v
    case NoValue =>
      assert Lower("None")[0] == 'n';
      PlainText("None");
    case Undetermined =>
      assert Lower("Undetermined")[0] == 'u';
      PlainText("Undetermined");
    case Closed(low, high) => ParseClosed(low, high);
    case Over(low) => ParseOver(low);
    case SpouseOver(low) => SpouseReads(low);
  }

  lemma {:induction false} ValueIsWords(v: Value)
    ensures forall w | w in ValueWords(v) :: IsWord(w)
  {
    match v
    case Closed(low, high) =>
      DollarsIsWord(low);
      DollarsIsWord(high);
    case Over(low) => DollarsIsWord(low);
    case SpouseOver(low) => DollarsIsWord(low);
    case _ =>
  }

  lemma {:induction false} DollarsIsWord(n: nat)
    ensures IsWord("$" + Commas(n)) && '-' !in Commas(n) && !EndsWith("$" + Commas(n), "-")
    ensures !StartsValue(["$" + Commas(n)])
  {
    CommasStrip(n);
    var s := "$" + Commas(n);
    assert s[|s| - 1] == Commas(n)[|Commas(n)| - 1];
    assert Lower(s)[0] == '$';
  }

  /** A complete value is never left open. */
  lemma {:induction false} ValueCloses(v: Value)
    ensures ValueWords(v) != [] && !ValueOpen(ValueWords(v))
  {
    match v
    case NoValue => assert "None"[3] == 'e';
    case Undetermined => assert "Undetermined"[11] == 'd';
    case Closed(_, high) => DollarsIsWord(high);
    case Over(low) => DollarsIsWord(low);
    case SpouseOver(low) => DollarsIsWord(low);
  }

  lemma {:induction false} DollarsStart(n: nat)
    ensures IsDollars("$" + Commas(n))
  {
    CommasStrip(n);
    var s := "$" + Commas(n);
    forall i | 1 <= i < |s| ensures IsDigit(s[i]) || s[i] == ',' {
      assert s[i] == Commas(n)[i - 1] && s[i] in Commas(n);
    }
  }

  lemma {:induction false} ValueWordsStart()
    ensures Lower("Over") == "over" && Lower("Spouse/DC") == "spouse/dc"
  {
  }

  /** A value cell broken in two after `i` words reads as one value. */
  predicate BreaksWell(v: Value, i: nat)
    requires i <= |ValueWords(v)|
  {
    var first, second := ValueWords(v)[..i], ValueWords(v)[i..];
    StartsValue(first) && (StartsValue(second) ==> ValueOpen(first))
  }

  /** Exactly which breaks are safe: after the dash of a band, after "Over", and after "Spouse/DC Over";
      "Spouse/DC" alone on its line is taken for a value of its own. */
  lemma {:induction false} BreaksWellIff(v: Value, i: nat)
    requires 0 < i < |ValueWords(v)|
    ensures BreaksWell(v, i) <==> v.Over? || i == 2
  {
    ValueWordsStart();
    var words := ValueWords(v);
    assert words[..i][0] == words[0] && words[i..][0] == words[i];
    match v
    case Closed(low, high) =>
      DollarsIsWord(low);
      DollarsIsWord(high);
      DollarsStart(low);
      if i == 1 {
        assert words[..1] == ["$" + Commas(low)];
      } else {
        assert words[..2][1] == "-" && words[2..] == ["$" + Commas(high)];
      }
    case Over(low) =>
      DollarsIsWord(low);
      assert words[1..] == ["$" + Commas(low)];
    case SpouseOver(low) =>
      DollarsIsWord(low);
      if i == 1 {
        assert words[..1] == ["Spouse/DC"] && "Spouse/DC"[8..] == "C";
      } else {
        assert words[2..] == ["$" + Commas(low)];
      }
    case _ =>
  }

  // ---- lines ----

  /** A line and the texts it shows in the columns. */
  datatype Shown = Shown(line: Line, asset: seq<string>, value: seq<string>, incomeType: seq<string>,
                         income: seq<string>)

  predicate Shows(s: Shown, owner: seq<string>, c: Columns) {
    && In(s.line, c, AssetColumn) == s.asset && In(s.line, c, OwnerColumn) == owner
    && In(s.line, c, ValueColumn) == s.value
    && In(s.line, c, IncomeTypeColumn) == s.incomeType && In(s.line, c, IncomeColumn) == s.income
  }

  /** Neither a heading, a header row, a footnote nor an annotation. */
  predicate Plain(line: Line) {
    && line != [] && !IsHeading(line) && !HasTableWords(line)
    && !IsSkippedWord(line[0].text) && !IsAnnotationWord(line[0].text)
  }

  /** A line without effect: the header row repeated, the second header line or a footnote, or
      check boxes only. */
  predicate Idle(line: Line, c: Columns) {
    && line != [] && !IsHeading(line)
    && if HasTableWords(line) then HeaderColumns(line) == Some(c)
       else IsSkippedWord(line[0].text) || (!IsAnnotationWord(line[0].text) && OnlyGlyphs(line, c))
  }

  predicate IsNote(line: Line) {
    && line != [] && !IsHeading(line) && !HasTableWords(line) && !IsSkippedWord(line[0].text)
    && IsAnnotationWord(line[0].text)
  }

  datatype Tail = Wrapped(shown: Shown) | Without(line: Line)

  function LineOf(t: Tail): Line {
    match t case Wrapped(s) => s.line case Without(line) => line
  }

  /** A wrapped line has no owner code and does not open a value. */
  predicate ValidTail(t: Tail, c: Columns) {
    match t
    case Without(line) => Idle(line, c)
    case Wrapped(s) => Plain(s.line) && Shows(s, [], c) && !OnlyGlyphs(s.line, c) && !StartsValue(s.value)
  }

  /** Once a holding is complete: annotation lines, and under them anything that opens no value. */
  predicate ValidNote(line: Line, c: Columns) {
    || Idle(line, c) || IsNote(line)
    || (Plain(line) && !StartsValue(In(line, c, ValueColumn)))
  }

  datatype Layout = Layout(first: Shown, tails: seq<Tail>, notes: seq<Line>)

  function TailCells(tails: seq<Tail>, f: Shown -> seq<string>): seq<string> {
    if tails == [] then []
    else (match tails[0] case Wrapped(s) => f(s) case Without(_) => []) + TailCells(tails[1..], f)
  }

  function TailLines(tails: seq<Tail>): seq<Line> {
    if tails == [] then [] else [LineOf(tails[0])] + TailLines(tails[1..])
  }

  function LayoutLines(l: Layout): seq<Line> {
    [l.first.line] + (TailLines(l.tails) + l.notes)
  }

  const ASSET: Shown -> seq<string> := (s: Shown) => s.asset
  const VALUE: Shown -> seq<string> := (s: Shown) => s.value
  const INCOME_TYPE: Shown -> seq<string> := (s: Shown) => s.incomeType
  const INCOME: Shown -> seq<string> := (s: Shown) => s.income

  /** `l` lays out `h`: cells are cut into lines anyhow, the first line opens the value. */
  predicate LaidOut(h: Holding, l: Layout, c: Columns) {
    && Plain(l.first.line) && Shows(l.first, L.OwnerTexts(h.owner), c) && StartsValue(l.first.value)
    && (forall i | 0 <= i < |l.tails| :: ValidTail(l.tails[i], c))
    && (forall i | 0 <= i < |l.notes| :: ValidNote(l.notes[i], c))
    && (l.notes != [] ==> IsNote(l.notes[0]))
    && l.first.asset + TailCells(l.tails, ASSET) == h.asset
    && l.first.value + TailCells(l.tails, VALUE) == ValueWords(h.value)
    && l.first.incomeType + TailCells(l.tails, INCOME_TYPE) == h.incomeType
    && l.first.income + TailCells(l.tails, INCOME) == h.income
  }

  /** The row of a laid-out holding. */
  function RowOf(h: Holding): RowData {
    RowData(h.asset, L.CodeOf(h.owner), ValueWords(h.value), h.incomeType, h.income)
  }

  // ---- the pass over a laid-out holding ----

  function ModeEnd(m: Mode, lines: seq<Line>): Mode
    requires NonEmpty(lines)
    decreases |lines|
  {
    if lines == [] then m else ModeEnd(Classify(m, lines[0]).0, lines[1..])
  }

  lemma {:induction false} EntriesConcat(m: Mode, x: seq<Line>, y: seq<Line>)
    requires NonEmpty(x) && NonEmpty(y)
    ensures NonEmpty(x + y) && Entries(m, x + y) == Entries(m, x) + Entries(ModeEnd(m, x), y)
    ensures ModeEnd(m, x + y) == ModeEnd(ModeEnd(m, x), y)
    decreases |x|
  {
    hide Classify;
    if x == [] {
      assert x + y == y;
    } else {
      assert (x + y)[1..] == x[1..] + y;
      EntriesConcat(Classify(m, x[0]).0, x[1..], y);
    }
  }

  function TailEntries(tails: seq<Tail>, c: Columns): seq<Entry> {
    if tails == [] then []
    else
      (match tails[0] case Wrapped(s) => [Entry(s.line, c, false)] case Without(_) => [])
      + TailEntries(tails[1..], c)
  }

  /** Reading a row with value `v` on columns `c`. */
  function Reading(c: Columns, inAnnotation: bool, v: seq<string>): Mode {
    Mode(Some(c), inAnnotation, Some(v))
  }

  lemma {:induction false} IdleClassify(m: Mode, line: Line, c: Columns)
    requires Idle(line, c) && m.cols == Some(c)
    ensures Classify(m, line) == (m, None)
  {
    hide In, ScheduleLetter, HeaderColumns, IsSkipped, IsAnnotation, OnlyGlyphs;
    hide IsHeading, HasTableWords, IsSkippedWord, IsAnnotationWord;
    LineIff(line);
  }

  lemma {:induction false} WrapClassify(s: Shown, c: Columns, v: seq<string>)
    requires ValidTail(Wrapped(s), c)
    ensures Classify(Reading(c, false, v), s.line) == (Reading(c, false, v + s.value), Some(Entry(s.line, c, false)))
  {
    hide In, ScheduleLetter, HeaderColumns, IsSkipped, IsAnnotation, OnlyGlyphs, StartsValue;
    hide IsHeading, HasTableWords, IsSkippedWord, IsAnnotationWord;
    LineIff(s.line);
  }

  lemma {:induction false} TailsRead(tails: seq<Tail>, c: Columns, v: seq<string>)
    requires forall i | 0 <= i < |tails| :: ValidTail(tails[i], c)
    ensures NonEmpty(TailLines(tails))
    ensures Entries(Reading(c, false, v), TailLines(tails)) == TailEntries(tails, c)
    ensures ModeEnd(Reading(c, false, v), TailLines(tails)) == Reading(c, false, v + TailCells(tails, VALUE))
  {
    hide Classify, Idle, Plain, Shows, StartsValue, OnlyGlyphs;
    if tails == [] {
      assert v + [] == v;
    } else {
      var t, rest := tails[0], tails[1..];
      assert ValidTail(t, c);
      assert LineOf(t) != [] by { TailNotEmpty(t, c); }
      match t {
        case Without(line) =>
          IdleClassify(Reading(c, false, v), line, c);
          TailsRead(rest, c, v);
          assert [] + TailCells(rest, VALUE) == TailCells(rest, VALUE);
          assert [] + TailEntries(rest, c) == TailEntries(rest, c);
        case Wrapped(s) =>
          WrapClassify(s, c, v);
          TailsRead(rest, c, v + s.value);
          Assoc(v, s.value, TailCells(rest, VALUE));
      }
      assert ([LineOf(t)] + TailLines(rest))[1..] == TailLines(rest);
    }
  }

  lemma {:induction false} TailNotEmpty(t: Tail, c: Columns)
    requires ValidTail(t, c)
    ensures LineOf(t) != []
  {
  }

  lemma {:induction false} NoteClassify(line: Line, c: Columns, inAnnotation: bool, v: seq<string>)
    requires ValidNote(line, c) && !ValueOpen(v) && (inAnnotation || IsNote(line))
    ensures line != []
    ensures Classify(Reading(c, inAnnotation, v), line) == (Reading(c, true, v), None)
  {
    hide In, ScheduleLetter, HeaderColumns, IsSkipped, IsAnnotation, StartsValue, ValueOpen;
    hide IsHeading, HasTableWords, IsSkippedWord, IsAnnotationWord;
    LineIff(line);
  }

  lemma {:induction false} NotesRead(notes: seq<Line>, c: Columns, inAnnotation: bool, v: seq<string>)
    requires forall i | 0 <= i < |notes| :: ValidNote(notes[i], c)
    requires !ValueOpen(v) && (inAnnotation || (notes != [] ==> IsNote(notes[0])))
    ensures NonEmpty(notes)
    ensures Entries(Reading(c, inAnnotation, v), notes) == []
    ensures ModeEnd(Reading(c, inAnnotation, v), notes) == Reading(c, inAnnotation || notes != [], v)
  {
    hide Classify, ValidNote, IsNote, ValueOpen;
    if notes != [] {
      NoteClassify(notes[0], c, inAnnotation, v);
      NotesRead(notes[1..], c, true, v);
    }
  }

  /** Before a holding: nothing read yet, or a complete row. */
  predicate Ready(m: Mode, c: Columns) {
    m.cols == Some(c) && (m.open.None? || !ValueOpen(m.open.value)) && (m.open.None? ==> !m.inAnnotation)
  }

  lemma {:induction false} FirstClassify(h: Holding, l: Layout, m: Mode, c: Columns)
    requires LaidOut(h, l, c) && Ready(m, c)
    ensures Classify(m, l.first.line) == (Reading(c, false, l.first.value), Some(Entry(l.first.line, c, true)))
  {
    hide In, ScheduleLetter, HeaderColumns, IsSkipped, IsAnnotation, ValueOpen, ValueWords, TailCells;
    hide IsHeading, HasTableWords, IsSkippedWord, IsAnnotationWord;
    LineIff(l.first.line);
    ShownNotGlyphs(l.first, L.OwnerTexts(h.owner), c);
  }

  lemma {:induction false} ShownNotGlyphs(s: Shown, owner: seq<string>, c: Columns)
    requires Shows(s, owner, c) && StartsValue(s.value)
    ensures !OnlyGlyphs(s.line, c)
  {
    hide In;
  }

  lemma {:induction false} LayoutEntries(h: Holding, l: Layout, m: Mode, c: Columns)
    requires LaidOut(h, l, c) && Ready(m, c)
    ensures NonEmpty(LayoutLines(l))
    ensures Entries(m, LayoutLines(l)) == [Entry(l.first.line, c, true)] + TailEntries(l.tails, c)
    ensures Ready(ModeEnd(m, LayoutLines(l)), c)
  {
    hide Classify, ValidTail, ValidNote, IsNote, Shows, StartsValue, Plain, TailCells, ValueWords, Entries, ModeEnd;
    hide ValueOpen;
    var tails := TailLines(l.tails);
    var m1 := Reading(c, false, l.first.value);
    FirstClassify(h, l, m, c);
    ValueCloses(h.value);
    TailsRead(l.tails, c, l.first.value);
    NotesRead(l.notes, c, false, ValueWords(h.value));
    EntriesConcat(m1, tails, l.notes);
    FirstNotEmpty(l.first);
    EntriesFirst(m, l.first.line, tails + l.notes);
    assert TailEntries(l.tails, c) + [] == TailEntries(l.tails, c);
  }

  lemma {:induction false} FirstNotEmpty(s: Shown)
    requires Plain(s.line)
    ensures s.line != []
  {
  }

  lemma {:induction false} EntriesFirst(m: Mode, line: Line, rest: seq<Line>)
    requires line != [] && NonEmpty(rest)
    ensures NonEmpty([line] + rest)
    ensures var (m', e) := Classify(m, line);
            && Entries(m, [line] + rest) == (if e.Some? then [e.value] else []) + Entries(m', rest)
            && ModeEnd(m, [line] + rest) == ModeEnd(m', rest)
  {
    hide Classify;
    EntriesUnfold(m, line, rest);
    assert ([line] + rest)[1..] == rest;
  }

  // ---- the rows ----

  function WithTails(r: RowData, tails: seq<Tail>): RowData {
    RowData(r.asset + TailCells(tails, ASSET), r.owner, r.value + TailCells(tails, VALUE),
            r.incomeType + TailCells(tails, INCOME_TYPE), r.income + TailCells(tails, INCOME))
  }

  lemma {:induction false} WrapAdds(r: RowData, s: Shown, c: Columns)
    requires Shows(s, [], c)
    ensures WithLine(r, s.line, c)
         == RowData(r.asset + s.asset, r.owner, r.value + s.value, r.incomeType + s.incomeType, r.income + s.income)
  {
    hide In;
  }

  lemma {:induction false} TailsSplit(t: Tail, rest: seq<Tail>, x: seq<string>, f: Shown -> seq<string>)
    ensures TailCells([t] + rest, f) == (match t case Wrapped(s) => f(s) case Without(_) => []) + TailCells(rest, f)
    ensures t.Wrapped? ==> x + TailCells([t] + rest, f) == (x + f(t.shown)) + TailCells(rest, f)
    ensures t.Without? ==> x + TailCells([t] + rest, f) == x + TailCells(rest, f)
  {
    assert ([t] + rest)[1..] == rest;
  }

  lemma {:induction false} WithTailsStep(r: RowData, t: Tail, rest: seq<Tail>)
    ensures t.Without? ==> WithTails(r, [t] + rest) == WithTails(r, rest)
    ensures t.Wrapped? ==>
              var s := t.shown;
              WithTails(r, [t] + rest)
              == WithTails(
                   RowData(r.asset + s.asset, r.owner, r.value + s.value, r.incomeType + s.incomeType,
                           r.income + s.income),
                   rest)
  {
    TailsSplit(t, rest, r.asset, ASSET);
    TailsSplit(t, rest, r.value, VALUE);
    TailsSplit(t, rest, r.incomeType, INCOME_TYPE);
    TailsSplit(t, rest, r.income, INCOME);
  }

  lemma {:induction false} TailRows(tails: seq<Tail>, c: Columns, r: RowData, later: seq<Entry>)
    requires forall i | 0 <= i < |tails| :: ValidTail(tails[i], c)
    ensures RowsFrom(TailEntries(tails, c) + later, Some(r)) == RowsFrom(later, Some(WithTails(r, tails)))
  {
    hide RowsFrom, Idle, Plain, Shows, StartsValue, OnlyGlyphs, WithLine, WithTails;
    if tails == [] {
      NoTails(r);
      assert TailEntries(tails, c) + later == later;
    } else {
      var t, rest := tails[0], tails[1..];
      assert ValidTail(t, c) && tails == [t] + rest;
      WithTailsStep(r, t, rest);
      match t {
        case Without(_) =>
          assert TailEntries(tails, c) + later == TailEntries(rest, c) + later;
          TailRows(rest, c, r, later);
        case Wrapped(s) =>
          var e := Entry(s.line, c, false);
          assert TailEntries(tails, c) + later == [e] + (TailEntries(rest, c) + later);
          RowsUnfold(e, TailEntries(rest, c) + later, Some(r));
          WrapAdds(r, s, c);
          TailRows(rest, c, WithLine(r, s.line, c), later);
      }
    }
  }

  lemma {:induction false} NoTails(r: RowData)
    ensures WithTails(r, []) == r
  {
  }

  lemma {:induction false} FirstRow(h: Holding, l: Layout, c: Columns)
    requires LaidOut(h, l, c)
    ensures WithTails(WithLine(EMPTY_ROW, l.first.line, c), l.tails) == RowOf(h)
  {
    hide In, Plain, ValidTail, ValidNote, IsNote, StartsValue, TailCells, ValueWords;
    OwnerShown(h.owner, l.first, c);
    var s := l.first;
    assert [] + s.asset == s.asset && [] + s.value == s.value;
    assert [] + s.incomeType == s.incomeType && [] + s.income == s.income;
  }

  lemma {:induction false} OwnerShown(o: P.Owner, s: Shown, c: Columns)
    requires Shows(s, L.OwnerTexts(o), c)
    ensures OwnerCode(s.line, c) == L.CodeOf(o)
  {
    hide In;
    if o != P.Self {
      var code := L.OwnerCode(o);
      assert Upper(code) == code;
    }
  }

  // ---- whole reports ----

  function LayoutsBody(ls: seq<Layout>): seq<Line> {
    if ls == [] then [] else LayoutLines(ls[0]) + LayoutsBody(ls[1..])
  }

  predicate AllLaidOut(hs: seq<Holding>, ls: seq<Layout>, c: Columns) {
    |hs| == |ls| && forall i | 0 <= i < |hs| :: ValidHolding(hs[i]) && LaidOut(hs[i], ls[i], c)
  }

  function RowsOf(hs: seq<Holding>): seq<RowData> {
    if hs == [] then [] else [RowOf(hs[0])] + RowsOf(hs[1..])
  }

  function AllExpected(hs: seq<Holding>, base: nat): seq<ParsedHolding> {
    if hs == [] then [] else [Expected(hs[0], base)] + AllExpected(hs[1..], base + 1)
  }

  lemma {:induction false} HoldingFlushed(h: Holding)
    ensures Flushed(Some(RowOf(h))) == [RowOf(h)]
  {
    ValueCloses(h.value);
  }

  /** A laid-out holding closes the row before it and leaves its own row open. */
  lemma {:induction false} LayoutRows(h: Holding, l: Layout, m: Mode, c: Columns, current: Option<RowData>,
                                      rest: seq<Line>)
    requires LaidOut(h, l, c) && Ready(m, c) && NonEmpty(rest)
    ensures NonEmpty(LayoutLines(l)) && NonEmpty(LayoutLines(l) + rest)
    ensures RowsFrom(Entries(m, LayoutLines(l) + rest), current)
            == Flushed(current) + RowsFrom(Entries(ModeEnd(m, LayoutLines(l)), rest), Some(RowOf(h)))
  {
    hide LaidOut, RowsFrom, Flushed, Ready, Entries, ModeEnd, LayoutLines, TailEntries, WithLine, WithTails, RowOf;
    LayoutEntries(h, l, m, c);
    EntriesConcat(m, LayoutLines(l), rest);
    var later := Entries(ModeEnd(m, LayoutLines(l)), rest);
    var e := Entry(l.first.line, c, true);
    var tails := TailEntries(l.tails, c);
    assert ([e] + tails) + later == [e] + (tails + later);
    RowsUnfold(e, tails + later, current);
    ValidTails(h, l, c);
    TailRows(l.tails, c, WithLine(EMPTY_ROW, l.first.line, c), later);
    FirstRow(h, l, c);
  }

  lemma {:induction false} ValidTails(h: Holding, l: Layout, c: Columns)
    requires LaidOut(h, l, c)
    ensures forall i | 0 <= i < |l.tails| :: ValidTail(l.tails[i], c)
  {
  }

  lemma {:induction false} LayoutsRead(hs: seq<Holding>, ls: seq<Layout>, m: Mode, c: Columns, current: Option<RowData>)
    requires AllLaidOut(hs, ls, c) && Ready(m, c)
    ensures NonEmpty(LayoutsBody(ls))
    ensures RowsFrom(Entries(m, LayoutsBody(ls)), current) == Flushed(current) + RowsOf(hs)
    decreases |hs|
  {
    hide LaidOut, Flushed, Ready, ModeEnd, LayoutLines, RowOf, ValidHolding, Classify, RowsFrom, Entries;
    if hs == [] {
      NothingRead(m, current);
    } else {
      LayoutEntries(hs[0], ls[0], m, c);
      var m' := ModeEnd(m, LayoutLines(ls[0]));
      LayoutsRead(hs[1..], ls[1..], m', c, Some(RowOf(hs[0])));
      LayoutRows(hs[0], ls[0], m, c, current, LayoutsBody(ls[1..]));
      HoldingFlushed(hs[0]);
    }
  }

  lemma {:induction false} NothingRead(m: Mode, current: Option<RowData>)
    ensures NonEmpty([]) && RowsFrom(Entries(m, []), current) == Flushed(current) + []
  {
  }

  lemma {:induction false} RowReads(h: Holding, rowIndex: nat)
    requires ValidHolding(h)
    ensures Finalize(RowOf(h), rowIndex) == Expected(h, rowIndex)
  {
    hide AssetNames.TickerAndType, ParseAmountRange, ValueWords, ValueRange, Join, Strip;
    ValueReads(h.value);
    assert forall w | w in h.asset :: w in h.asset + h.incomeType + h.income;
    assert forall w | w in h.incomeType :: w in h.asset + h.incomeType + h.income;
    assert forall w | w in h.income :: w in h.asset + h.incomeType + h.income;
    JoinOfWords(h.asset);
    JoinOfWords(h.incomeType);
    JoinOfWords(h.income);
    JoinOfNone();
    assert P.OwnerOf(L.CodeOf(h.owner)) == h.owner;
  }

  lemma {:induction false} JoinOfNone()
    ensures Join([]) == ""
  {
  }

  lemma {:induction false} RowsRead(hs: seq<Holding>, base: nat)
    requires forall i | 0 <= i < |hs| :: ValidHolding(hs[i])
    ensures FinalizeAll(RowsOf(hs), base) == AllExpected(hs, base)
  {
    hide Finalize, RowOf, Expected, ValidHolding;
    if hs != [] {
      RowReads(hs[0], base);
      RowsRead(hs[1..], base + 1);
      assert ([RowOf(hs[0])] + RowsOf(hs[1..]))[1..] == RowsOf(hs[1..]);
    }
  }

  /** Lines before the header row of the section, without effect. */
  lemma {:induction false} FrontIgnored(front: seq<Line>, row: Line, rest: seq<Line>, c: Columns)
    requires NonEmpty(front) && NonEmpty(rest) && row != [] && HeaderColumns(row) == Some(c)
    requires forall i | 0 <= i < |front| :: HeaderColumns(front[i]).None?
    ensures NonEmpty(front + ([row] + rest))
    ensures Entries(BEGIN, front + ([row] + rest)) == Entries(Mode(Some(c), false, None), rest)
  {
    hide HeaderColumns, IsSkipped, IsAnnotation, In;
    if front == [] {
      assert front + ([row] + rest) == [row] + rest;
      EntriesUnfold(BEGIN, row, rest);
      assert [] + Entries(Mode(Some(c), false, None), rest) == Entries(Mode(Some(c), false, None), rest);
    } else {
      FrontIgnored(front[1..], row, rest, c);
      var tail := front[1..] + ([row] + rest);
      assert front + ([row] + rest) == [front[0]] + tail;
      EntriesUnfold(BEGIN, front[0], tail);
      assert [] + Entries(BEGIN, tail) == Entries(BEGIN, tail);
    }
  }

  /** A page: its lines and the bag of words the text layer yields. */
  datatype Page = Page(lines: seq<Line>, words: seq<Word>)

  predicate ValidPage(p: Page) {
    Separated(p.lines) && multiset(p.words) == multiset(Flatten(p.lines))
  }

  function WordsOf(pages: seq<Page>): seq<seq<Word>> {
    if pages == [] then [] else [pages[0].words] + WordsOf(pages[1..])
  }

  function LinesOf(pages: seq<Page>): seq<Line> {
    if pages == [] then [] else pages[0].lines + LinesOf(pages[1..])
  }

  lemma {:induction false} PagesRecovered(pages: seq<Page>)
    requires forall i | 0 <= i < |pages| :: ValidPage(pages[i])
    ensures AllLines(WordsOf(pages)) == LinesOf(pages)
  {
    hide Grouped, Separated, Flatten;
    if pages != [] {
      assert ValidPage(pages[0]);
      BagRecoversLines(pages[0].words, pages[0].lines);
      PagesRecovered(pages[1..]);
      assert WordsOf(pages)[1..] == WordsOf(pages[1..]);
    }
  }

  predicate NoScheduleA(lines: seq<Line>) {
    forall i | 0 <= i < |lines| :: !IsHeadingOf(lines[i], "a")
  }

  predicate NoHeadings(lines: seq<Line>) {
    forall i | 0 <= i < |lines| :: !IsHeading(lines[i])
  }

  /** What follows the section: nothing, or another schedule's heading and anything after it. */
  predicate Outro(lines: seq<Line>) {
    lines != [] ==> IsHeading(lines[0]) && !IsHeadingOf(lines[0], "a")
  }

  lemma {:induction false} SectionInner(inner: seq<Line>, outro: seq<Line>)
    requires NoHeadings(inner) && Outro(outro)
    ensures Section(inner + outro, true) == inner
  {
    hide ScheduleLetter, IsHeading, IsHeadingOf;
    if inner == [] {
      assert inner + outro == outro;
      if outro != [] {
        NoHeadingIff(outro[0]);
        HeadingIff(outro[0], "a");
      }
    } else {
      NoHeadingIff(inner[0]);
      assert (inner + outro)[0] == inner[0] && (inner + outro)[1..] == inner[1..] + outro;
      SectionInner(inner[1..], outro);
    }
  }

  /** The section is what stands between the Schedule A heading and the next schedule's heading;
      what stands before and after has no say. */
  lemma {:induction false} SectionFound(intro: seq<Line>, heading: Line, inner: seq<Line>, outro: seq<Line>)
    requires NoScheduleA(intro) && IsHeadingOf(heading, "a") && NoHeadings(inner) && Outro(outro)
    ensures Section(intro + ([heading] + (inner + outro)), false) == inner
  {
    hide ScheduleLetter, Outro, IsHeading, IsHeadingOf;
    var rest := [heading] + (inner + outro);
    HeadingIff(heading, "a");
    if intro == [] {
      assert intro + rest == rest && rest[1..] == inner + outro;
      SectionInner(inner, outro);
    } else {
      var all := intro + rest;
      HeadingIff(intro[0], "a");
      assert all[0] == intro[0] && all[1..] == intro[1..] + rest;
      SectionFound(intro[1..], heading, inner, outro);
      assert [] + Section(all[1..], false) == Section(all[1..], false);
    }
  }

  lemma {:induction false} LayoutNoHeadings(h: Holding, l: Layout, c: Columns)
    requires LaidOut(h, l, c)
    ensures NoHeadings(LayoutLines(l))
  {
    hide IsHeading, HeaderColumns, HasTableWords, In, IsSkippedWord, IsAnnotationWord, OnlyGlyphs, Shows, StartsValue;
    hide TailCells;
    TailsNoHeadings(l.tails, c);
    forall i | 0 <= i < |l.notes| ensures !IsHeading(l.notes[i]) {
      assert ValidNote(l.notes[i], c);
    }
  }

  lemma {:induction false} TailsNoHeadings(tails: seq<Tail>, c: Columns)
    requires forall i | 0 <= i < |tails| :: ValidTail(tails[i], c)
    ensures NoHeadings(TailLines(tails))
  {
    hide IsHeading, HeaderColumns, HasTableWords, IsSkippedWord, IsAnnotationWord, OnlyGlyphs, Shows, StartsValue;
    if tails != [] {
      assert ValidTail(tails[0], c);
      TailsNoHeadings(tails[1..], c);
    }
  }

  lemma {:induction false} LayoutsNoHeadings(hs: seq<Holding>, ls: seq<Layout>, c: Columns)
    requires AllLaidOut(hs, ls, c)
    ensures NoHeadings(LayoutsBody(ls))
  {
    hide LaidOut, LayoutLines, IsHeading, ValidHolding;
    if ls != [] {
      LayoutNoHeadings(hs[0], ls[0], c);
      LayoutsNoHeadings(hs[1..], ls[1..], c);
    }
  }

  /** Lines without effect under the header row: the second header line, a repeated header row. */
  lemma {:induction false} UnderIgnored(under: seq<Line>, rest: seq<Line>, c: Columns)
    requires NonEmpty(rest) && forall i | 0 <= i < |under| :: Idle(under[i], c)
    ensures NonEmpty(under) && NonEmpty(under + rest)
    ensures Entries(Mode(Some(c), false, None), under + rest) == Entries(Mode(Some(c), false, None), rest)
    decreases |under|
  {
    hide Idle, Classify;
    if under == [] {
      assert under + rest == rest;
    } else {
      UnderIgnored(under[1..], rest, c);
      IdleNotEmpty(under[0], c);
      assert under + rest == [under[0]] + (under[1..] + rest);
      assert under == [under[0]] + under[1..];
      IdleClassify(Mode(Some(c), false, None), under[0], c);
      EntriesUnfold(Mode(Some(c), false, None), under[0], under[1..] + rest);
      var entries := Entries(Mode(Some(c), false, None), under[1..] + rest);
      assert [] + entries == entries;
    }
  }

  lemma {:induction false} IdleNotEmpty(line: Line, c: Columns)
    requires Idle(line, c)
    ensures line != [] && !IsHeading(line)
  {
    hide IsHeading, HasTableWords, HeaderColumns, OnlyGlyphs;
  }

  /** Round trip: holdings laid out under the Schedule A heading, its header row and the second header
      line, over any pages, in any word order, parse back to exactly themselves; nothing before the
      heading or from the next schedule on contributes. */
  lemma {:induction false} ScheduleRoundTrip(
    hs: seq<Holding>, ls: seq<Layout>, c: Columns, intro: seq<Line>, heading: Line, front: seq<Line>, row: Line,
    under: seq<Line>, outro: seq<Line>, pages: seq<Page>)
    requires forall i | 0 <= i < |pages| :: ValidPage(pages[i])
    requires AllLaidOut(hs, ls, c)
    requires NoScheduleA(intro) && IsHeadingOf(heading, "a") && Outro(outro)
    requires NonEmpty(front) && NoHeadings(front) && forall i | 0 <= i < |front| :: !HasTableWords(front[i])
    requires row != [] && !IsHeading(row) && HeaderColumns(row) == Some(c)
    requires forall i | 0 <= i < |under| :: Idle(under[i], c)
    requires LinesOf(pages) == intro + ([heading] + ((front + ([row] + (under + LayoutsBody(ls)))) + outro))
    ensures Holdings(WordsOf(pages)) == AllExpected(hs, 0)
  {
    hide IsHeading, IsHeadingOf, HeaderColumns, HasTableWords, Section, AllLines, Entries, RowsFrom, FinalizeAll;
    hide AllExpected, Outro, ValidPage, LayoutsBody, Idle;
    PagesRecovered(pages);
    var body := LayoutsBody(ls);
    LayoutsNoHeadings(hs, ls, c);
    forall i | 0 <= i < |under| ensures !IsHeading(under[i]) {
      IdleNotEmpty(under[i], c);
    }
    forall i | 0 <= i < |front| ensures HeaderColumns(front[i]).None? {
      TableIff(front[i]);
    }
    var inner := front + ([row] + (under + body));
    SectionFound(intro, heading, inner, outro);
    var m := Mode(Some(c), false, None);
    LayoutsRead(hs, ls, m, c, None);
    UnderIgnored(under, body, c);
    FrontIgnored(front, row, under + body, c);
    NothingFlushed(hs);
    RowsRead(hs, 0);
  }

  lemma {:induction false} NothingFlushed(hs: seq<Holding>)
    ensures Flushed(None) + RowsOf(hs) == RowsOf(hs)
  {
  }
}
