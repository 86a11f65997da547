/** Laying out transactions on the PTR column template, and the round trip through the parser. */
module PtrLayout {
  import opened Optional
  import opened Text
  import opened Money
  import opened Lines
  import opened PtrParser
  import opened PtrPass
  import opened PtrWords
  import opened PtrLaws
  import AssetNames

  // ---- what a form says ----

  datatype Band = Closed(low: nat, high: nat) | Over(low: nat) | SpouseOver(low: nat) | NoBand

  function BandWords(band: Band): seq<string> {
    match band
    case Closed(low, high) => ["$" + Commas(low), "-", "$" + Commas(high)]
    case Over(low) => ["Over", "$" + Commas(low)]
    case SpouseOver(low) => ["Spouse/DC", "Over", "$" + Commas(low)]
    case NoBand => []
  }

  function BandValue(band: Band): (Option<real>, Option<real>) {
    match band
    case Closed(low, high) => (Some(low as real), Some(high as real))
    case Over(low) => (Some(low as real), None)
    case _ => (None, None)
  }

  lemma {:induction false} BandRoundTrip(band: Band)
    ensures ParseAmountRange(Join(BandWords(band))) == BandValue(band)
  {
    match band
    case Closed(low, high) => ParseClosed(low, high);
    case Over(low) => ParseOver(low);
    case SpouseOver(low) => SpouseReads(low);
    case NoBand =>
  }

  /** A calendar day and whether the form pads its month and day. */
  datatype Day = Day(year: nat, month: nat, day: nat, padMonth: bool, padDay: bool)

  predicate ValidDay(d: Day) {
    d.year < 10000 && d.month < 100 && d.day < 100
  }

  function Pad4(n: nat): string {
    if n < 10 then "000" + Digits(n) else if n < 100 then "00" + Digits(n)
    else if n < 1000 then "0" + Digits(n) else Digits(n)
  }

  function PadIf(n: nat, pad: bool): string {
    if pad then Pad2(n) else Digits(n)
  }

  function DayText(d: Day): string {
    PadIf(d.month, d.padMonth) + ['/'] + (PadIf(d.day, d.padDay) + ['/'] + Pad4(d.year))
  }

  function DayIso(d: Day): string {
    Pad4(d.year) + "-" + Pad2(d.month) + "-" + Pad2(d.day)
  }

  lemma {:induction false} PadIfReads(n: nat, pad: bool)
    requires n < 100
    ensures var s := PadIf(n, pad); 1 <= |s| <= 2 && AllDigits(s) && NatOf(s) == n
  {
    DigitsLength(n);
    LeadingZero(Digits(n));
  }

  lemma {:induction false} Pad4Reads(n: nat)
    requires n < 10000
    ensures |Pad4(n)| == 4 && AllDigits(Pad4(n))
  {
    if n < 1000 {
      DigitsLength(n);
    } else {
      DigitsLength(n / 10);
    }
  }

  /** A day cell reads back as its ISO date, padded or not. */
  lemma {:induction false} DayRoundTrip(d: Day)
    requires ValidDay(d)
    ensures IsDate(DayText(d)) && IsoDate(DayText(d)) == Some(DayIso(d))
  {
    hide PadIf, Pad4, Digits, Pad2, NatOf;
    PadIfReads(d.month, d.padMonth);
    PadIfReads(d.day, d.padDay);
    Pad4Reads(d.year);
    var m, dd, y := PadIf(d.month, d.padMonth), PadIf(d.day, d.padDay), Pad4(d.year);
    assert '/' !in m && '/' !in dd;
    SplitFirstAt(m, '/', dd + ['/'] + y);
    SplitFirstAt(dd, '/', y);
  }

  datatype Trade = Trade(
    id: Option<string>, owner: Owner, asset: seq<string>, kind: TxType, txDay: Option<Day>, notifDay: Option<Day>,
    amount: Band, description: seq<string>)

  predicate ValidTrade(t: Trade) {
    && (t.txDay.Some? ==> ValidDay(t.txDay.value))
    && (t.notifDay.Some? ==> ValidDay(t.notifDay.value))
    && forall w | w in t.asset :: IsWord(w)
  }

  // ---- printing on the template ----

  datatype Cell = Cell(zone: Zone, text: string)

  function OwnerCode(o: Owner): string
    requires o != Self
  {
    match o case Spouse => "SP" case Joint => "JT" case Child => "DC"
  }

  function TypeLetter(kind: TxType): string {
    match kind
    case Purchase => "P"
    case SaleFull => "S"
    case SalePartial => "S"
    case Exchange => "E"
  }

  function CellsOf(zone: Zone, texts: seq<string>): (cells: seq<Cell>)
    ensures |cells| == |texts| && forall i | 0 <= i < |texts| :: cells[i] == Cell(zone, texts[i])
  {
    seq(|texts|, i requires 0 <= i < |texts| => Cell(zone, texts[i]))
  }

  function OptionTexts(text: Option<string>): seq<string> {
    match text case None => [] case Some(t) => [t]
  }

  function OptionDay(d: Option<Day>): seq<string> {
    match d case None => [] case Some(day) => [DayText(day)]
  }

  function OwnerTexts(o: Owner): seq<string> {
    if o == Self then [] else [OwnerCode(o)]
  }

  function TypeTexts(kind: TxType): seq<string> {
    [TypeLetter(kind)] + if kind == SalePartial then ["(partial)"] else []
  }

  /** The texts of each column of the start line, in column order. */
  function StartTexts(t: Trade, asset: seq<string>, amount: seq<string>, z: Zone): seq<string> {
    match z
    case IdZone => OptionTexts(t.id)
    case OwnerZone => OwnerTexts(t.owner)
    case AssetZone => asset
    case TypeZone => TypeTexts(t.kind)
    case DateZone => OptionDay(t.txDay)
    case NotifZone => OptionDay(t.notifDay)
    case AmountZone => amount
    case Outside => []
  }

  const COLUMNS: seq<Zone> := [IdZone, OwnerZone, AssetZone, TypeZone, DateZone, NotifZone, AmountZone]

  function ColumnCells(t: Trade, asset: seq<string>, amount: seq<string>, zones: seq<Zone>): seq<Cell> {
    if zones == [] then []
    else
      var n := |zones| - 1;
      ColumnCells(t, asset, amount, zones[..n])
          + CellsOf(zones[n], StartTexts(t, asset, amount, zones[n]))
  }

  /** The start line of a transaction, with the part of the asset and amount that fit on it. */
  function StartCells(t: Trade, asset: seq<string>, amount: seq<string>): seq<Cell> {
    ColumnCells(t, asset, amount, COLUMNS)
  }

  /** `line` shows `cells` left to right, each word somewhere in its own column. */
  predicate Placed(line: Line, cells: seq<Cell>, b: ColumnBounds) {
    |line| == |cells|
    && forall i | 0 <= i < |line| :: line[i].text == cells[i].text && ZoneOf(line[i].x0, b) == cells[i].zone
  }

  /** The start line shows each column's texts, and anything to the right of the columns; owner codes
      and types are printed in any letter case. */
  predicate ShowsStart(cells: seq<Cell>, t: Trade, asset: seq<string>, amount: seq<string>) {
    forall z | z != Outside :: ShowsColumn(InZone(cells, z), StartTexts(t, asset, amount, z), z)
  }

  predicate ShowsColumn(shown: seq<string>, texts: seq<string>, z: Zone) {
    if z == OwnerZone || z == TypeZone then SameButCase(shown, texts) else shown == texts
  }

  /** A line under the start line, with words in whatever columns. */
  datatype WrapLine = WrapLine(line: Line, cells: seq<Cell>)

  predicate ShowsWrap(w: WrapLine, b: ColumnBounds) {
    && w.line != [] && (forall l :: !IsLabel(w.line[0].text, l)) && !StartsTransaction(w.line, b)
    && Placed(w.line, w.cells, b)
  }

  function WrapLines(ws: seq<WrapLine>): seq<Line> {
    if ws == [] then [] else [ws[0].line] + WrapLines(ws[1..])
  }

  function WrapTexts(ws: seq<WrapLine>, z: Zone): seq<string> {
    if ws == [] then [] else InZone(ws[0].cells, z) + WrapTexts(ws[1..], z)
  }

  /** An annotation line: its label, if it begins with one, and the words after it. */
  datatype Note = Note(line: Line, tag: Option<Label>, words: seq<string>)

  predicate ShowsNote(n: Note, b: ColumnBounds) {
    && n.line != [] && !StartsTransaction(n.line, b)
    && (forall l :: IsLabel(n.line[0].text, l) <==> n.tag == Some(l))
    && n.words == if n.tag.Some? then Texts(n.line)[1..] else Texts(n.line)
  }

  /** A word that is not printed as a label. */
  predicate ContentWord(text: string) {
    NUL !in text && !PrintsPlain(text, "description")
  }

  function NoteLines(notes: seq<Note>): seq<Line> {
    if notes == [] then [] else [notes[0].line] + NoteLines(notes[1..])
  }

  function Describes(n: Note, describing: bool): bool {
    if n.tag.Some? then n.tag == Some(Description) else describing
  }

  /** The words of a description: all those under a "description" label, until the next label. */
  function DescriptionText(notes: seq<Note>, describing: bool): seq<string> {
    if notes == [] then []
    else
      var d := Describes(notes[0], describing);
      (if d then notes[0].words else []) + DescriptionText(notes[1..], d)
  }

  predicate DescribedByWords(notes: seq<Note>, describing: bool) {
    notes != [] ==>
      var d := Describes(notes[0], describing);
      (d ==> forall w | w in notes[0].words :: ContentWord(w)) && DescribedByWords(notes[1..], d)
  }

  /** One transaction on the form: its start line, wrapped lines and annotation lines. */
  datatype Layout = Layout(
    start: Line, cells: seq<Cell>, asset: seq<string>, amount: seq<string>, wraps: seq<WrapLine>,
    notes: seq<Note>)

  function LayoutLines(l: Layout): (lines: seq<Line>)
    ensures lines != [] && lines[0] == l.start
  {
    [l.start] + (WrapLines(l.wraps) + NoteLines(l.notes))
  }

  /** `l` lays out `t`: the cells are cut into lines anyhow; the annotation lines begin with a label
      and contain no start, and the words under a "description" label are the description. */
  predicate LaidOut(t: Trade, l: Layout, b: ColumnBounds) {
    && Placed(l.start, l.cells, b) && ShowsStart(l.cells, t, l.asset, l.amount)
    && (forall i | 0 <= i < |l.wraps| :: ShowsWrap(l.wraps[i], b))
    && l.asset + WrapTexts(l.wraps, AssetZone) == t.asset
    && l.amount + WrapTexts(l.wraps, AmountZone) == BandWords(t.amount)
    && (forall i | 0 <= i < |l.notes| :: ShowsNote(l.notes[i], b))
    && (l.notes != [] ==> l.notes[0].tag.Some?)
    && DescribedByWords(l.notes, false) && t.description == DescriptionText(l.notes, false)
  }

  /** The columns stand in the form's order. */
  predicate InOrder(b: ColumnBounds) {
    b.idMax <= b.ownerMax <= b.assetMax <= b.typeMax <= b.dateMax <= b.notifMax <= b.amountMax
  }

  // ---- reading a laid-out transaction ----

  function Expected(t: Trade, rowIndex: nat, rules: Rules): ParsedTransaction {
    var asset := Join(t.asset);
    var (ticker, assetType) := AssetNames.TickerAndType(asset);
    ParsedTransaction(
      rowIndex, t.owner, asset, ticker, assetType,
      if assetType == Some("OP") then rules.optionDetails(Join(t.description)) else NO_OPTION,
      Some(t.kind),
      if t.txDay.Some? then Some(DayIso(t.txDay.value)) else None,
      if t.notifDay.Some? then Some(DayIso(t.notifDay.value)) else None,
      BandValue(t.amount).0, BandValue(t.amount).1, t.id)
  }

  /** The texts of the cells of one column. */
  function InZone(cells: seq<Cell>, z: Zone): seq<string> {
    if cells == [] then []
    else
      var n := |cells| - 1;
      InZone(cells[..n], z) + if cells[n].zone == z then [cells[n].text] else []
  }

  lemma {:induction false} InZoneConcat(x: seq<Cell>, y: seq<Cell>, z: Zone)
    ensures InZone(x + y, z) == InZone(x, z) + InZone(y, z)
    decreases |y|
  {
    if y == [] {
      assert x + y == x;
    } else {
      var n := |y| - 1;
      assert (x + y)[..|x + y| - 1] == x + y[..n];
      InZoneConcat(x, y[..n], z);
    }
  }

  lemma {:induction false} InZoneOfCells(zone: Zone, texts: seq<string>, z: Zone)
    ensures InZone(CellsOf(zone, texts), z) == if zone == z then texts else []
  {
    if texts != [] {
      var n := |texts| - 1;
      assert CellsOf(zone, texts)[..n] == CellsOf(zone, texts[..n]);
      InZoneOfCells(zone, texts[..n], z);
      assert texts == texts[..n] + [texts[n]];
    }
  }

  lemma {:induction false} PlacedPicks(line: Line, cells: seq<Cell>, b: ColumnBounds, z: Zone)
    requires Placed(line, cells, b)
    ensures Picked(line, b, Zoned(z)) == InZone(cells, z)
  {
    if line != [] {
      var n := |line| - 1;
      PlacedPicks(line[..n], cells[..n], b, z);
    }
  }

  lemma {:induction false} SnocMember(zones: seq<Zone>, z: Zone)
    requires zones != [] && Distinct(zones)
    ensures var n := |zones| - 1;
            z in zones <==> (z in zones[..n] || z == zones[n])
    ensures zones[|zones| - 1] !in zones[..|zones| - 1] && Distinct(zones[..|zones| - 1])
  {
    var n := |zones| - 1;
    assert zones == zones[..n] + [zones[n]];
  }

  lemma {:induction false} StartColumn(t: Trade, asset: seq<string>, amount: seq<string>,
                                       zones: seq<Zone>, z: Zone)
    requires Distinct(zones)
    ensures InZone(ColumnCells(t, asset, amount, zones), z)
            == if z in zones then StartTexts(t, asset, amount, z) else []
  {
    hide StartTexts, Distinct, InZone, CellsOf;
    if zones == [] {
      InZoneOfCells(z, [], z);
      assert CellsOf(z, []) == [];
    } else {
      var n := |zones| - 1;
      var texts := StartTexts(t, asset, amount, zones[n]);
      SnocMember(zones, z);
      StartColumn(t, asset, amount, zones[..n], z);
      InZoneConcat(ColumnCells(t, asset, amount, zones[..n]), CellsOf(zones[n], texts), z);
      InZoneOfCells(zones[n], texts, z);
    }
  }

  predicate Distinct(zones: seq<Zone>) {
    forall i, j | 0 <= i < j < |zones| :: zones[i] != zones[j]
  }

  lemma {:induction false} ColumnsComplete(z: Zone)
    ensures Distinct(COLUMNS)
    ensures z in COLUMNS <==> z != Outside
  {
    match z
    case IdZone => assert COLUMNS[0] == z;
    case OwnerZone => assert COLUMNS[1] == z;
    case AssetZone => assert COLUMNS[2] == z;
    case TypeZone => assert COLUMNS[3] == z;
    case DateZone => assert COLUMNS[4] == z;
    case NotifZone => assert COLUMNS[5] == z;
    case AmountZone => assert COLUMNS[6] == z;
    case Outside =>
  }

  lemma {:induction false} StartPicks(t: Trade, l: Layout, b: ColumnBounds, z: Zone)
    requires Placed(l.start, l.cells, b) && ShowsStart(l.cells, t, l.asset, l.amount) && z != Outside
    ensures ShowsColumn(Picked(l.start, b, Zoned(z)), StartTexts(t, l.asset, l.amount, z), z)
  {
    hide Placed, InZone, Picked, StartTexts, ShowsColumn;
    PlacedPicks(l.start, l.cells, b, z);
  }

  /** The words of the columns alone, in column order. */
  lemma {:induction false} StartCellsShow(t: Trade, asset: seq<string>, amount: seq<string>)
    ensures ShowsStart(StartCells(t, asset, amount), t, asset, amount)
  {
    hide InZone, ColumnCells, StartTexts;
    forall z | z != Outside
      ensures InZone(StartCells(t, asset, amount), z) == StartTexts(t, asset, amount, z)
    {
      ColumnsComplete(z);
      StartColumn(t, asset, amount, COLUMNS, z);
    }
  }

  // ---- the record of a laid-out transaction ----

  function CodeOf(o: Owner): Option<string> {
    if o == Self then None else Some(OwnerCode(o))
  }

  lemma {:induction false} TypeLetterReads(kind: TxType)
    ensures IsTypeLetter(TypeLetter(kind)) && !IsTypeLetter("(partial)") && IsPartialMark("(partial)")
    ensures !IsPartialMark(TypeLetter(kind))
    ensures TypeOf(Upper(TypeLetter(kind)), kind == SalePartial) == Some(kind)
  {
    var s := TypeLetter(kind);
    assert |s| == 1 && |Upper(s)| == 1 && |Lower(s)| == 1;
    assert Upper(s)[0] in "PSE";
    assert Upper(s) == "P" || Upper(s) == "S" || Upper(s) == "E";
    assert |Upper("(partial)")| == 9;
    assert Lower("(partial)") == "(partial)";
  }

  lemma {:induction false} LastOfOne(t: string, test: Test)
    ensures LastPassing([t], test) == if Passes(test, t) then Some(t) else None
    ensures LastPassing([], test) == None
  {
    assert [t][..0] == [];
  }

  lemma {:induction false} TypeColumnReads(kind: TxType)
    ensures TypeOf(TypeField(TypeTexts(kind)), AnyPartial(TypeTexts(kind))) == Some(kind)
  {
    hide IsTypeLetter, IsPartialMark, TypeOf, TypeLetter;
    TypeLetterReads(kind);
    var s := TypeLetter(kind);
    LastOfOne(s, TypeTest);
    if kind == SalePartial {
      assert TypeTexts(kind) == [s] + ["(partial)"];
      LastPassingSnoc([s], "(partial)", TypeTest);
      AnyPartialSnoc([s], "(partial)");
    } else {
      assert TypeTexts(kind) == [s];
      assert !AnyPartial([s]);
    }
  }

  lemma {:induction false} OwnerColumnReads(o: Owner)
    ensures OwnerOf(OwnerField(OwnerTexts(o))) == o
  {
    if o != Self {
      var c := OwnerCode(o);
      assert Upper(c) == c;
      LastOfOne(c, OwnerTest);
    }
  }

  lemma {:induction false} DayColumnReads(d: Option<Day>)
    requires d.Some? ==> ValidDay(d.value)
    ensures IsoDate(DateField(OptionDay(d))) == if d.Some? then Some(DayIso(d.value)) else None
  {
    hide DayText, DayIso, ParseDate;
    if d.Some? {
      DayRoundTrip(d.value);
      LastOfOne(DayText(d.value), DateTest);
    } else {
      NoDateInNothing();
    }
  }

  lemma {:induction false} NoDateInNothing()
    ensures ParseDate("") == None
  {
  }

  lemma {:induction false} IdColumnReads(id: Option<string>)
    ensures LastPassing(OptionTexts(id), Any) == id
  {
    if id.Some? {
      LastOfOne(id.value, Any);
    }
  }

  /** In ordered columns the bands `extend` reads are the asset and amount columns. */
  lemma {:induction false} BandsAreZones(line: Line, b: ColumnBounds)
    requires InOrder(b)
    ensures Picked(line, b, MoreAsset) == Picked(line, b, Zoned(AssetZone))
    ensures Picked(line, b, MoreAmount) == Picked(line, b, Zoned(AmountZone))
  {
    if line != [] {
      BandsAreZones(line[..|line| - 1], b);
    }
  }

  lemma {:induction false} WrapPicks(w: WrapLine, b: ColumnBounds)
    requires ShowsWrap(w, b) && InOrder(b)
    ensures Picked(w.line, b, MoreAsset) == InZone(w.cells, AssetZone)
    ensures Picked(w.line, b, MoreAmount) == InZone(w.cells, AmountZone)
  {
    hide InZone, Picked, InOrder, StartsTransaction, AnnotationLabel, Placed;
    BandsAreZones(w.line, b);
    PlacedPicks(w.line, w.cells, b, AssetZone);
    PlacedPicks(w.line, w.cells, b, AmountZone);
  }

  lemma {:induction false} WrapsGather(ws: seq<WrapLine>, b: ColumnBounds)
    requires InOrder(b) && forall i | 0 <= i < |ws| :: ShowsWrap(ws[i], b)
    ensures |WrapLines(ws)| == |ws| && NonEmptyLines(WrapLines(ws)) && NoStarts(WrapLines(ws), b)
    ensures forall i | 0 <= i < |ws| :: LineLabel(WrapLines(ws)[i]).None?
    ensures Gather(WrapLines(ws), b, MoreAsset) == WrapTexts(ws, AssetZone)
    ensures Gather(WrapLines(ws), b, MoreAmount) == WrapTexts(ws, AmountZone)
  {
    hide InOrder, StartsTransaction, AnnotationLabel, IsLabel, Placed, Picked, InZone;
    if ws != [] {
      WrapsGather(ws[1..], b);
      WrapPicks(ws[0], b);
      NoLabelIff(ws[0].line[0].text);
      assert ([ws[0].line] + WrapLines(ws[1..]))[1..] == WrapLines(ws[1..]);
    }
  }

  lemma {:induction false} ContentPicked(line: Line, b: ColumnBounds, k: nat, n: nat)
    requires k <= n <= |line| && k <= 1
    requires k == 1 ==> !ContentWord(line[0].text)
    requires forall i | k <= i < n :: ContentWord(line[i].text)
    ensures Picked(line[..n], b, Content) == Texts(line)[k..n]
  {
    hide StripColons, Lower, Picks, ContentWord;
    if n > 0 {
      ContentIff(line[n - 1], b);
    }
    if n > k {
      ContentPicked(line, b, k, n - 1);
      assert line[..n][..n - 1] == line[..n - 1];
    } else if n == 1 {
      assert line[..1] == [line[0]] && [line[0]][..0] == [];
    }
  }

  lemma {:induction false} DescriptionLabel(text: string)
    requires IsLabel(text, Description)
    ensures !ContentWord(text)
  {
  }

  /** What `add_description_words` keeps. */
  lemma {:induction false} ContentIff(w: Word, b: ColumnBounds)
    ensures Picks(Content, w, b) <==> ContentWord(w.text)
  {
    hide StripColons, Lower, PrintsPlain;
    PlainIff(w.text, "description");
  }

  lemma {:induction false} NotePicks(n: Note, b: ColumnBounds, describing: bool)
    requires ShowsNote(n, b) && Describes(n, describing) && forall w | w in n.words :: ContentWord(w)
    ensures Picked(n.line, b, Content) == n.words
  {
    hide AnnotationLabel, IsLabel, StartsTransaction, Picked, ContentWord;
    var k := if n.tag.Some? then 1 else 0;
    if k == 1 {
      DescriptionLabel(n.line[0].text);
    }
    forall i | k <= i < |n.line| ensures ContentWord(n.line[i].text) {
      assert Texts(n.line)[i] == n.words[i - k];
    }
    ContentPicked(n.line, b, k, |n.line|);
    assert n.line[..|n.line|] == n.line && Texts(n.line)[k..|n.line|] == n.words;
  }

  /** The tag of a printed line is the label the parser reads. */
  lemma {:induction false} TagReads(n: Note, b: ColumnBounds)
    requires ShowsNote(n, b)
    ensures LineLabel(n.line) == n.tag
  {
    hide AnnotationLabel, IsLabel, StartsTransaction;
    var text := n.line[0].text;
    if n.tag.Some? {
      LabelIff(text, n.tag.value);
    } else {
      NoLabelIff(text);
    }
  }

  lemma {:induction false} NotesDescribe(notes: seq<Note>, b: ColumnBounds, describing: bool)
    requires forall i | 0 <= i < |notes| :: ShowsNote(notes[i], b)
    requires DescribedByWords(notes, describing)
    ensures |NoteLines(notes)| == |notes| && NonEmptyLines(NoteLines(notes)) && NoStarts(NoteLines(notes), b)
    ensures notes != [] ==> LineLabel(NoteLines(notes)[0]) == notes[0].tag
    ensures DescriptionWords(NoteLines(notes), b, describing) == DescriptionText(notes, describing)
    decreases |notes|
  {
    hide AnnotationLabel, IsLabel, StartsTransaction, Picked, ContentWord;
    if notes != [] {
      TagReads(notes[0], b);
      var d := Describes(notes[0], describing);
      NotesDescribe(notes[1..], b, d);
      if d {
        NotePicks(notes[0], b, describing);
      }
      assert ([notes[0].line] + NoteLines(notes[1..]))[1..] == NoteLines(notes[1..]);
    }
  }

  lemma {:induction false} UnlabelledThenNotes(wrapped: seq<Line>, notes: seq<Line>)
    requires NonEmptyLines(wrapped) && NonEmptyLines(notes)
    requires forall i | 0 <= i < |wrapped| :: LineLabel(wrapped[i]).None?
    requires notes != [] ==> LineLabel(notes[0]).Some?
    ensures NonEmptyLines(wrapped + notes) && UnlabelledLength(wrapped + notes) == |wrapped|
  {
    hide AnnotationLabel;
    if wrapped == [] {
      assert wrapped + notes == notes;
    } else {
      assert (wrapped + notes)[1..] == wrapped[1..] + notes;
      UnlabelledThenNotes(wrapped[1..], notes);
    }
  }

  lemma {:induction false} DescriptionAfterWraps(wrapped: seq<Line>, notes: seq<Line>, b: ColumnBounds)
    requires NonEmptyLines(wrapped) && NonEmptyLines(notes)
    requires forall i | 0 <= i < |wrapped| :: LineLabel(wrapped[i]).None?
    ensures NonEmptyLines(wrapped + notes)
    ensures DescriptionWords(wrapped + notes, b, false) == DescriptionWords(notes, b, false)
  {
    hide AnnotationLabel;
    if wrapped == [] {
      assert wrapped + notes == notes;
    } else {
      assert (wrapped + notes)[1..] == wrapped[1..] + notes;
      DescriptionAfterWraps(wrapped[1..], notes, b);
    }
  }

  lemma {:induction false} LayoutIsSegment(t: Trade, l: Layout, b: ColumnBounds)
    requires LaidOut(t, l, b) && InOrder(b)
    ensures NonEmptyLines(LayoutLines(l)) && StartsTransaction(l.start, b) && NoStarts(LayoutLines(l)[1..], b)
  {
    hide InOrder, AnnotationLabel, Placed, ShowsWrap, ShowsStart, ShowsNote, BandWords, DescribedByWords;
    hide StartsTransaction;
    WrapsGather(l.wraps, b);
    NotesDescribe(l.notes, b, false);
    StartLineStarts(t, l, b);
    assert LayoutLines(l)[1..] == WrapLines(l.wraps) + NoteLines(l.notes);
  }

  lemma {:induction false} StartLineStarts(t: Trade, l: Layout, b: ColumnBounds)
    requires Placed(l.start, l.cells, b) && ShowsStart(l.cells, t, l.asset, l.amount) && InOrder(b)
    ensures l.start != [] && StartsTransaction(l.start, b)
  {
    hide Placed, ShowsStart, IsTypeLetter;
    StartPicks(t, l, b, TypeZone);
    var types, letter := Picked(l.start, b, Zoned(TypeZone)), TypeLetter(t.kind);
    TypeLetterReads(t.kind);
    assert StartTexts(t, l.asset, l.amount, TypeZone)[0] == letter;
    SameUpper(types[0], letter);
    SameTests(types[0], letter);
    PickedMember(l.start, b, Zoned(TypeZone), types[0]);
  }

  /** The record of a laid-out transaction, field by field. */
  lemma {:induction false} LayoutRecord(t: Trade, l: Layout, b: ColumnBounds)
    requires LaidOut(t, l, b) && InOrder(b) && NonEmptyLines(LayoutLines(l))
    ensures var r := RecordOfSegment(LayoutLines(l), b);
            && r.id == LastPassing(OptionTexts(t.id), Any)
            && r.owner == OwnerField(OwnerTexts(t.owner))
            && r.asset == t.asset
            && r.txType == TypeField(TypeTexts(t.kind))
            && r.partial == AnyPartial(TypeTexts(t.kind))
            && r.txDate == DateField(OptionDay(t.txDay))
            && r.notifDate == DateField(OptionDay(t.notifDay))
            && r.amount == BandWords(t.amount)
            && r.description == t.description
  {
    hide InOrder, AnnotationLabel, Placed, ShowsWrap, BandWords, Gather, DescriptionWords, UnlabelledLength;
    hide Picked, OwnerField, TypeField, AnyPartial, DateField, LastPassing, StartsTransaction;
    hide ShowsStart, ShowsNote, DescribedByWords;
    WrapsGather(l.wraps, b);
    NotesDescribe(l.notes, b, false);
    UnlabelledThenNotes(WrapLines(l.wraps), NoteLines(l.notes));
    DescriptionAfterWraps(WrapLines(l.wraps), NoteLines(l.notes), b);
    var tail := WrapLines(l.wraps) + NoteLines(l.notes);
    assert LayoutLines(l)[1..] == tail;
    assert tail[..|WrapLines(l.wraps)|] == WrapLines(l.wraps);
    forall z | z != Outside
      ensures ShowsColumn(Picked(l.start, b, Zoned(z)), StartTexts(t, l.asset, l.amount, z), z)
    {
      StartPicks(t, l, b, z);
    }
    CaseHasNoSay(Picked(l.start, b, Zoned(OwnerZone)), OwnerTexts(t.owner));
    CaseHasNoSay(Picked(l.start, b, Zoned(TypeZone)), TypeTexts(t.kind));
  }

  lemma {:induction false} LayoutReads(t: Trade, l: Layout, b: ColumnBounds, rowIndex: nat, rules: Rules)
    requires ValidTrade(t) && LaidOut(t, l, b) && InOrder(b) && NonEmptyLines(LayoutLines(l))
    ensures Finalize(RecordOfSegment(LayoutLines(l), b), rowIndex, rules) == Expected(t, rowIndex, rules)
  {
    hide RecordOfSegment, LaidOut, InOrder, AssetNames.TickerAndType, ParseAmountRange, BandWords, TypeOf, OwnerOf;
    hide IsoDate;
    hide OwnerField, TypeField, AnyPartial, DateField, LastPassing, BandValue, Join, Strip, DayIso, ValidDay;
    LayoutRecord(t, l, b);
    IdColumnReads(t.id);
    OwnerColumnReads(t.owner);
    TypeColumnReads(t.kind);
    DayColumnReads(t.txDay);
    DayColumnReads(t.notifDay);
    BandRoundTrip(t.amount);
    JoinOfWords(t.asset);
  }

  // ---- whole documents ----

  /** What a page shows above its footer: repeated headings and body lines. */
  datatype Item = Heading(line: Line) | BodyLine(line: Line)

  /** A page: its items, its footer (if it has one, with whatever stands under it), and the
      bag of words the text layer yields, in any order. */
  datatype Page = Page(items: seq<Item>, footer: seq<Line>, words: seq<Word>)

  function ItemLines(items: seq<Item>): seq<Line> {
    if items == [] then [] else [items[0].line] + ItemLines(items[1..])
  }

  function BodyLines(items: seq<Item>): seq<Line> {
    if items == [] then []
    else (if items[0].BodyLine? then [items[0].line] else []) + BodyLines(items[1..])
  }

  predicate ValidItem(item: Item) {
    if item.Heading? then IsHeading(Texts(item.line))
    else !IsHeading(Texts(item.line)) && !IsFooterLine(LineText(item.line))
  }

  predicate ValidPage(p: Page) {
    var lines := ItemLines(p.items) + p.footer;
    && (forall i | 0 <= i < |p.items| :: ValidItem(p.items[i]))
    && (p.footer != [] ==> IsFooterLine(LineText(p.footer[0])) && !IsHeading(Texts(p.footer[0])))
    && Separated(lines)
    && multiset(p.words) == multiset(Flatten(lines))
  }

  function WordsOf(pages: seq<Page>): seq<seq<Word>> {
    if pages == [] then [] else [pages[0].words] + WordsOf(pages[1..])
  }

  function DocumentBody(pages: seq<Page>): seq<Line> {
    if pages == [] then [] else BodyLines(pages[0].items) + DocumentBody(pages[1..])
  }

  function LayoutsBody(ls: seq<Layout>): seq<Line> {
    if ls == [] then [] else LayoutLines(ls[0]) + LayoutsBody(ls[1..])
  }

  function LayoutSegments(ls: seq<Layout>): seq<seq<Line>> {
    if ls == [] then [] else [LayoutLines(ls[0])] + LayoutSegments(ls[1..])
  }

  predicate AllLaidOut(ts: seq<Trade>, ls: seq<Layout>, b: ColumnBounds) {
    |ts| == |ls| && forall i | 0 <= i < |ts| :: ValidTrade(ts[i]) && LaidOut(ts[i], ls[i], b)
  }

  function AllExpected(ts: seq<Trade>, base: nat, rules: Rules): seq<ParsedTransaction> {
    if ts == [] then [] else [Expected(ts[0], base, rules)] + AllExpected(ts[1..], base + 1, rules)
  }

  lemma {:induction false} ItemsBody(items: seq<Item>, footer: seq<Line>)
    requires forall i | 0 <= i < |items| :: ValidItem(items[i])
    requires footer != [] ==> IsFooterLine(LineText(footer[0])) && !IsHeading(Texts(footer[0]))
    ensures BodyOf(ItemLines(items) + footer) == BodyLines(items)
  {
    hide IsHeaderLine, IsHeading, IsFooterLine, LineText;
    if items == [] {
      if footer != [] {
        HeadingIff(footer[0]);
      }
      assert ItemLines(items) + footer == footer;
    } else {
      var rest := ItemLines(items[1..]) + footer;
      assert ItemLines(items) + footer == [items[0].line] + rest;
      assert ([items[0].line] + rest)[1..] == rest;
      assert ValidItem(items[0]);
      HeadingIff(items[0].line);
      ItemsBody(items[1..], footer);
    }
  }

  lemma {:induction false} PagesBody(pages: seq<Page>)
    requires forall i | 0 <= i < |pages| :: ValidPage(pages[i])
    ensures Body(WordsOf(pages)) == DocumentBody(pages)
  {
    hide IsHeaderLine, IsHeading, IsFooterLine, LineText, Separated, Grouped, Flatten, BodyOf;
    if pages != [] {
      var p := pages[0];
      assert ValidPage(p);
      BagRecoversLines(p.words, ItemLines(p.items) + p.footer);
      ItemsBody(p.items, p.footer);
      PagesBody(pages[1..]);
      assert WordsOf(pages)[1..] == WordsOf(pages[1..]);
    }
  }

  lemma {:induction false} SegmentThenRest(seg: seq<Line>, rest: seq<Line>, b: ColumnBounds)
    requires seg != [] && StartsTransaction(seg[0], b) && NoStarts(seg[1..], b)
    requires rest != [] ==> StartsTransaction(rest[0], b)
    ensures Segments(seg + rest, b) == [seg] + Segments(rest, b)
  {
    hide StartsTransaction, Segments, TailLength;
    var all := seg + rest;
    assert all[1..] == seg[1..] + rest;
    TailLengthIs(all, b, 0);
    TailLengthIs(seg[1..] + rest, b, |seg| - 1);
    assert [] + all == all;
    FirstSegment([], all, b);
    assert all[..|seg|] == seg && all[|seg|..] == rest;
  }

  lemma {:induction false} LayoutsAreSegments(ts: seq<Trade>, ls: seq<Layout>, b: ColumnBounds)
    requires AllLaidOut(ts, ls, b) && InOrder(b)
    ensures Segments(LayoutsBody(ls), b) == LayoutSegments(ls) && WellFormed(LayoutSegments(ls))
    ensures LayoutsBody(ls) != [] ==> StartsTransaction(LayoutsBody(ls)[0], b)
  {
    hide LaidOut, InOrder, StartsTransaction, ValidTrade, LayoutLines, TailLength, Segments;
    if ls == [] {
      NothingToSegment(b);
    } else {
      LayoutsAreSegments(ts[1..], ls[1..], b);
      LayoutIsSegment(ts[0], ls[0], b);
      SegmentThenRest(LayoutLines(ls[0]), LayoutsBody(ls[1..]), b);
    }
  }

  lemma {:induction false} NothingToSegment(b: ColumnBounds)
    ensures Segments([], b) == []
  {
  }

  lemma {:induction false} SegmentsRead(ts: seq<Trade>, ls: seq<Layout>, base: nat, b: ColumnBounds, rules: Rules)
    requires AllLaidOut(ts, ls, b) && InOrder(b) && WellFormed(LayoutSegments(ls))
    ensures Transactions(LayoutSegments(ls), base, b, rules) == AllExpected(ts, base, rules)
  {
    hide LaidOut, InOrder, ValidTrade, LayoutLines, Finalize, RecordOfSegment, Expected;
    if ls != [] {
      var segs := LayoutSegments(ls[1..]);
      assert LayoutSegments(ls)[1..] == segs && LayoutSegments(ls)[0] == LayoutLines(ls[0]);
      assert WellFormed(segs) by {
        forall i | 0 <= i < |segs| ensures segs[i] != [] && NonEmptyLines(segs[i]) {
          assert segs[i] == LayoutSegments(ls)[i + 1];
        }
      }
      SegmentsRead(ts[1..], ls[1..], base + 1, b, rules);
      LayoutReads(ts[0], ls[0], b, base, rules);
    }
  }

  /** Round trip: transactions laid out on ordered columns, over any pages with any headings and
      footers, in any word order, after any preamble, parse back to exactly themselves. */
  lemma {:induction false} LayoutRoundTrip(ts: seq<Trade>, ls: seq<Layout>, preamble: seq<Line>, pages: seq<Page>,
                                           rules: Rules)
    requires forall i | 0 <= i < |pages| :: ValidPage(pages[i])
    requires InOrder(DetectColumnBounds(WordsOf(pages)))
    requires AllLaidOut(ts, ls, DetectColumnBounds(WordsOf(pages)))
    requires NoStarts(preamble, DetectColumnBounds(WordsOf(pages)))
    requires DocumentBody(pages) == preamble + LayoutsBody(ls)
    ensures Parsed(WordsOf(pages), rules) == AllExpected(ts, 0, rules)
  {
    hide DetectColumnBounds, InOrder, Segments, Transactions, AllExpected, StartsTransaction, AllLaidOut;
    var b := DetectColumnBounds(WordsOf(pages));
    PagesBody(pages);
    LayoutsAreSegments(ts, ls, b);
    PreambleIgnored(preamble, LayoutsBody(ls), b);
    SegmentsRead(ts, ls, 0, b, rules);
  }

  // ---- the form's own header row ----

  /** The header row's words, in any letter case, at the given positions; older forms have no "Cap."
      column. */
  predicate IsHeaderRow(line: Line) {
    (|line| == 7 || |line| == 8) && forall i | 0 <= i < |line| :: Lower(line[i].text) == Lower(HEADER_WORDS[i])
  }

  predicate HeaderPrefix(line: Line) {
    |line| <= 8 && forall i | 0 <= i < |line| :: Lower(line[i].text) == Lower(HEADER_WORDS[i])
  }

  lemma {:induction false} HeaderPositions(line: Line, i: nat)
    requires HeaderPrefix(line) && i < |HEADER_WORDS|
    ensures HEADER_WORDS[i] in Positions(line) <==> i < |line|
    ensures i < |line| ==> Positions(line)[HEADER_WORDS[i]] == line[i].x0
  {
    hide HeaderWord, Lower;
    if line != [] {
      var n := |line| - 1;
      HeaderPositions(line[..n], i);
      HeaderWordIff(line[n].text, n);
      if i < n {
        HeaderWordsDiffer(i, n);
      } else if n < i {
        HeaderWordsDiffer(n, i);
      }
    }
  }

  lemma {:induction false} FirstDate(line: Line, low: real, high: real, i: nat)
    requires i < |line| && HeaderWord(line[i].text) == "Date" && low < line[i].x0 < high
    requires forall j | 0 <= j < i :: HeaderWord(line[j].text) != "Date"
    ensures DateBetween(line, low, high) == Some(line[i].x0)
  {
    hide HeaderWord;
    if i > 0 {
      FirstDate(line[1..], low, high, i - 1);
    }
  }

  function HeaderRowBounds(line: Line): ColumnBounds
    requires IsHeaderRow(line)
  {
    ColumnBounds(
      55.0, line[2].x0 - 3.0, line[3].x0 - 3.0, line[4].x0 - 3.0, line[5].x0 - 3.0, line[6].x0 - 3.0,
      if |line| == 8 then line[7].x0 - 3.0 else line[6].x0 + 79.0)
  }

  /** The form's header row gives the columns; they stand in order when the asset column starts
      right of the ID column. */
  lemma {:induction false} HeaderRowDetected(line: Line)
    requires IsHeaderRow(line) && StrictlyOrdered(line)
    ensures HeaderBounds(line) == Some(HeaderRowBounds(line))
    ensures line[2].x0 - 3.0 >= 55.0 ==>
          InOrder(HeaderRowBounds(line)) && TypeZoneClear(HeaderRowBounds(line))
  {
    hide HeaderWord, Positions, DateBetween, Lower;
    forall i | 0 <= i < |HEADER_WORDS|
      ensures HEADER_WORDS[i] in Positions(line) <==> i < |line|
      ensures i < |line| ==> Positions(line)[HEADER_WORDS[i]] == line[i].x0
    {
      HeaderPositions(line, i);
    }
    assert HEADER_WORDS[1] == "Owner" && HEADER_WORDS[2] == "Asset" && HEADER_WORDS[3] == "Transaction";
    assert HEADER_WORDS[5] == "Notification" && HEADER_WORDS[6] == "Amount" && HEADER_WORDS[7] == "Cap.";
    forall j | 0 <= j <= 4 ensures HeaderWord(line[j].text) == "Date" <==> j == 4 {
      HeaderWordIff(line[j].text, 4);
      if j < 4 {
        HeaderWordsDiffer(j, 4);
      }
    }
    assert HEADER_WORDS[4] == "Date";
    FirstDate(line, line[3].x0, line[5].x0, 4);
  }

  /** The header row is dropped as a heading wherever it repeats. */
  lemma {:induction false} HeaderRowIsHeading(line: Line)
    requires IsHeaderRow(line)
    ensures IsHeading(Texts(line)) && IsHeaderLine(LineText(line))
  {
    hide Names;
    HeadingIff(line);
    assert Lower("Owner") == "owner" && Lower("Asset") == "asset";
    assert HEADER_WORDS[1] == "Owner" && HEADER_WORDS[2] == "Asset";
    NamesItself(Texts(line), 1, "owner");
    NamesItself(Texts(line), 2, "asset");
  }

  /** The first header row of the document is the form's own, item `k` of page `p`: nothing before it
      is a header row, and its asset column starts right of the ID column. */
  predicate OnTemplate(pages: seq<Page>, p: nat, k: nat) {
    && p < |pages| && k < |pages[p].items|
    && (forall q, i | 0 <= q < p && 0 <= i < |PageLines(pages[q])| :: !HasColumnWords(PageLines(pages[q])[i]))
    && (forall i | 0 <= i < k :: !HasColumnWords(pages[p].items[i].line))
    && IsHeaderRow(pages[p].items[k].line)
    && pages[p].items[k].line[2].x0 - 3.0 >= 55.0
  }

  function PageLines(p: Page): seq<Line> {
    ItemLines(p.items) + p.footer
  }

  lemma {:induction false} ItemLineAt(items: seq<Item>, k: nat)
    requires k < |items|
    ensures |ItemLines(items)| == |items| && ItemLines(items)[k] == items[k].line
  {
    if k > 0 {
      ItemLineAt(items[1..], k - 1);
    } else if |items| > 1 {
      ItemLineAt(items[1..], 0);
    }
  }

  lemma {:induction false} FirstHeaderAt(lines: seq<Line>, k: nat)
    requires k < |lines| && forall i | 0 <= i < k :: !HasColumnWords(lines[i])
    requires HeaderBounds(lines[k]).Some?
    ensures FirstHeader(lines) == HeaderBounds(lines[k])
  {
    hide HeaderBounds, HasColumnWords;
    if k > 0 {
      ColumnsIff(lines[0]);
      FirstHeaderAt(lines[1..], k - 1);
    }
  }

  lemma {:induction false} NoHeader(lines: seq<Line>)
    requires forall i | 0 <= i < |lines| :: !HasColumnWords(lines[i])
    ensures FirstHeader(lines).None?
  {
    hide HeaderBounds, HasColumnWords;
    if lines != [] {
      ColumnsIff(lines[0]);
      NoHeader(lines[1..]);
    }
  }

  lemma {:induction false} TemplateBounds(pages: seq<Page>, p: nat, k: nat)
    requires OnTemplate(pages, p, k) && forall i | 0 <= i <= p :: ValidPage(pages[i])
    ensures FindColumnBounds(WordsOf(pages)) == Some(HeaderRowBounds(pages[p].items[k].line))
    ensures InOrder(HeaderRowBounds(pages[p].items[k].line))
    decreases p
  {
    hide HeaderBounds, HasColumnWords, Grouped, Separated, IsHeaderRow, FirstHeader, InOrder, HeaderRowBounds;
    hide ValidItem;
    hide IsFooterLine, IsHeaderLine, ValidPage, PageLines;
    var lines := PageLines(pages[0]);
    PageRecovered(pages[0]);
    assert WordsOf(pages)[0] == pages[0].words && WordsOf(pages)[1..] == WordsOf(pages[1..]);
    if p > 0 {
      NoHeader(lines);
      assert forall i | 0 <= i <= p - 1 :: pages[1..][i] == pages[i + 1];
      TemplateBounds(pages[1..], p - 1, k);
    } else {
      FirstPageBounds(pages, k);
    }
  }

  lemma {:induction false} PageRecovered(page: Page)
    requires ValidPage(page)
    ensures Grouped(page.words) == PageLines(page)
  {
    hide Grouped, Separated;
    BagRecoversLines(page.words, PageLines(page));
  }

  lemma {:induction false} FirstPageBounds(pages: seq<Page>, k: nat)
    requires OnTemplate(pages, 0, k) && ValidPage(pages[0])
    ensures FirstHeader(PageLines(pages[0])) == Some(HeaderRowBounds(pages[0].items[k].line))
    ensures InOrder(HeaderRowBounds(pages[0].items[k].line))
  {
    hide HeaderBounds, HasColumnWords, Grouped, Separated, IsHeaderRow, FirstHeader, InOrder, HeaderRowBounds;
    hide ValidItem;
    hide IsFooterLine, IsHeaderLine;
    var lines := PageLines(pages[0]);
    forall i | 0 <= i <= k ensures i < |lines| && lines[i] == pages[0].items[i].line {
      ItemLineAt(pages[0].items, i);
    }
    RowOrdered(lines, k);
    HeaderRowDetected(pages[0].items[k].line);
    FirstHeaderAt(lines, k);
  }

  lemma {:induction false} RowOrdered(lines: seq<Line>, k: nat)
    requires Separated(lines) && k < |lines|
    ensures StrictlyOrdered(lines[k])
  {
    assert lines[k] in lines;
  }

  /** The round trip with the columns found from the form itself, wherever its first header row
      stands. */
  lemma {:induction false} TemplateRoundTrip(ts: seq<Trade>, ls: seq<Layout>, preamble: seq<Line>, pages: seq<Page>,
                                             p: nat, k: nat, rules: Rules)
    requires forall i | 0 <= i < |pages| :: ValidPage(pages[i])
    requires OnTemplate(pages, p, k)
    requires AllLaidOut(ts, ls, HeaderRowBounds(pages[p].items[k].line))
    requires NoStarts(preamble, HeaderRowBounds(pages[p].items[k].line))
    requires DocumentBody(pages) == preamble + LayoutsBody(ls)
    ensures IsElectronic(WordsOf(pages))
    ensures Parsed(WordsOf(pages), rules) == AllExpected(ts, 0, rules)
  {
    hide ValidPage, HeaderRowBounds, InOrder, AllLaidOut, NoStarts, DocumentBody, Parsed, AllExpected, IsHeaderRow;
    hide FindColumnBounds;
    TemplateBounds(pages, p, k);
    LayoutRoundTrip(ts, ls, preamble, pages, rules);
  }

  // ---- the second header row ----

  const SECOND_ROW: seq<string> := ["Type", "Date", "Gains", ">"]

  /** The form's second header row is not caught as a heading. What it does in any state of the pass:
      nothing exactly when no record is open, or no description is and either an annotation is or the
      row stands clear of the asset and amount columns. */
  lemma {:induction false} SecondHeaderRowHarmlessIff(s: PassState, row: Line, b: ColumnBounds, rules: Rules)
    requires Texts(row) == SECOND_ROW && !StartsTransaction(row, b)
    ensures !IsHeaderLine(LineText(row)) && !IsFooterLine(LineText(row))
    ensures row != []
    ensures Step(s, row, b, rules) == s
            <==> s.current.None?
                 || (!s.describing
                     && (s.inAnnotation || (Picked(row, b, MoreAsset) == [] && Picked(row, b, MoreAmount) == [])))
    ensures s.current.Some? && s.describing ==>
              var r := s.current.value;
              Step(s, row, b, rules) == s.(current := Some(r.(description := r.description + SECOND_ROW)))
  {
    hide IsHeaderLine, IsFooterLine, Picked, AnnotationLabel;
    SecondRowText(row);
    SecondRowIsBody();
    SecondRowContent(row, b);
    if s.current.Some? {
      var r := s.current.value;
      assert |r.description + SECOND_ROW| == |r.description| + 4;
      GrowsByNothing(r.asset, Picked(row, b, MoreAsset));
      GrowsByNothing(r.amount, Picked(row, b, MoreAmount));
    }
  }

  lemma {:induction false} GrowsByNothing(x: seq<string>, y: seq<string>)
    ensures x + y == x <==> y == []
  {
    assert |x + y| == |x| + |y|;
  }

  lemma {:induction false} JoinThree(texts: seq<string>)
    requires |texts| > 3
    ensures Join(texts) == texts[0] + " " + texts[1] + " " + texts[2] + " " + Join(texts[3..])
  {
    assert texts[1..][1..] == texts[2..] && texts[2..][1..] == texts[3..];
    assert Join(texts) == texts[0] + " " + Join(texts[1..]);
    assert Join(texts[1..]) == texts[1] + " " + Join(texts[2..]);
    assert Join(texts[2..]) == texts[2] + " " + Join(texts[3..]);
  }

  lemma {:induction false} SecondRowText(row: Line)
    requires Texts(row) == SECOND_ROW
    ensures LineText(row) == "Type Date Gains >"
  {
    JoinThree(Texts(row));
    assert Texts(row)[3..] == [">"];
  }

  lemma {:induction false} SecondRowIsBody()
    ensures !IsHeaderLine("Type Date Gains >") && !IsFooterLine("Type Date Gains >")
  {
    hide Contains;
    var text := Lower("Type Date Gains >");
    assert 'o' !in "Type Date Gains >" && FOOTER_MARKER[|FOOTER_MARKER| - 3] == 'o';
    LacksChar("Type Date Gains >", FOOTER_MARKER, 'o');
    LowerOfSecondRow();
    assert "owner"[0] == 'o' && "notification"[1] == 'o' && "cap."[0] == 'c' && "$200?"[0] == '$';
    LacksChar(text, "owner", 'o');
    LacksChar(text, "notification", 'o');
    LacksChar(text, "cap.", 'c');
    LacksChar(text, "$200?", '$');
  }

  lemma {:induction false} LowerOfSecondRow()
    ensures var text := Lower("Type Date Gains >"); 'o' !in text && 'c' !in text && '$' !in text
  {
    assert Lower("Type Date Gains >") == "type date gains >";
  }

  lemma {:induction false} ContainsChar(s: string, t: string, c: char)
    requires Contains(s, t) && c in t
    ensures c in s
  {
    var i :| 0 <= i <= |s| && OccursAt(s, t, i);
    var k :| 0 <= k < |t| && t[k] == c;
    assert s[i..i + |t|][k] == s[i + k];
  }

  lemma {:induction false} LacksChar(s: string, t: string, c: char)
    requires c in t && c !in s
    ensures !Contains(s, t)
  {
    if Contains(s, t) {
      ContainsChar(s, t, c);
    }
  }

  lemma {:induction false} SecondRowContent(row: Line, b: ColumnBounds)
    requires Texts(row) == SECOND_ROW
    ensures row != [] && LineLabel(row).None?
    ensures Picked(row, b, Content) == SECOND_ROW
  {
    assert |row| == 4;
    forall i | 0 <= i < 4
      ensures row[i].text == Texts(row)[i] && NUL !in row[i].text && Lower(StripColons(row[i].text)) != "description"
    {
      assert Texts(row)[i] == SECOND_ROW[i];
      assert |Lower(StripColons(row[i].text))| < |"description"|;
    }
    assert Lower(StripColons("Type"))[0] == 't';
    assert AnnotationLabel("Type") == None;
    ContentOf(row, b, 4);
    assert row[..4] == row;
  }

  lemma {:induction false} ContentOf(row: Line, b: ColumnBounds, n: nat)
    requires n <= |row| && forall i | 0 <= i < n :: Picks(Content, row[i], b)
    ensures Picked(row[..n], b, Content) == Texts(row)[..n]
  {
    if n > 0 {
      ContentOf(row, b, n - 1);
      assert row[..n][..n - 1] == row[..n - 1];
    }
  }
}
