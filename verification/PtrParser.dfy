/** The positional parser of House PTR forms (`parsers/house_ptr.py`). */
module PtrParser {
  import opened Optional
  import opened Text
  import opened Money
  import opened Lines
  import AssetNames

  // ---- columns ----

  datatype ColumnBounds = ColumnBounds(
    idMax: real, ownerMax: real, assetMax: real, typeMax: real,
    dateMax: real, notifMax: real, amountMax: real)

  const ID_MAX_X: real := 55.0
  const NOTIF_DATE_MAX_X: real := 445.0
  const AMOUNT_MAX_X: real := 524.0
  const COLUMN_MARGIN: real := 3.0
  const DEFAULT_BOUNDS := ColumnBounds(ID_MAX_X, 100.0, 260.0, 325.0, 380.0, NOTIF_DATE_MAX_X, AMOUNT_MAX_X)

  const HEADER_WORDS: seq<string> :=
    ["ID", "Owner", "Asset", "Transaction", "Date", "Notification", "Amount", "Cap."]

  function FindIgnoringCase(words: seq<string>, text: string): string {
    if words == [] then text
    else if Lower(words[0]) == Lower(text) then words[0]
    else FindIgnoringCase(words[1..], text)
  }

  /** The canonical spelling of a header word, or the text unchanged. */
  function HeaderWord(text: string): string {
    FindIgnoringCase(HEADER_WORDS, text)
  }

  /** Where each word of a line stands; the last one of a repeated word counts. */
  function Positions(line: Line): map<string, real> {
    if line == [] then map[]
    else
      var n := |line| - 1;
      Positions(line[..n])[HeaderWord(line[n].text) := line[n].x0]
  }

  function DateBetween(line: Line, low: real, high: real): (x: Option<real>)
    ensures x.Some? ==> low < x.value < high
  {
    if line == [] then None
    else if HeaderWord(line[0].text) == "Date" && low < line[0].x0 < high then Some(line[0].x0)
    else DateBetween(line[1..], low, high)
  }

  function HeaderBounds(line: Line): (b: Option<ColumnBounds>)
    ensures b.Some? ==> b.value.assetMax < b.value.typeMax < b.value.dateMax && b.value.idMax == ID_MAX_X
  {
    var at := Positions(line);
    if "Owner" !in at || "Asset" !in at then None
    else if "Transaction" !in at || "Notification" !in at then None
    else if "Amount" !in at then None
    else
      match DateBetween(line, at["Transaction"], at["Notification"])
      case None => None
      case Some(dateX) =>
        Some(ColumnBounds(
          ID_MAX_X,
          at["Asset"] - COLUMN_MARGIN,
          at["Transaction"] - COLUMN_MARGIN,
          dateX - COLUMN_MARGIN,
          at["Notification"] - COLUMN_MARGIN,
          at["Amount"] - COLUMN_MARGIN,
          if "Cap." in at then at["Cap."] - COLUMN_MARGIN else at["Amount"] + (AMOUNT_MAX_X - NOTIF_DATE_MAX_X)))
  }

  function FirstHeader(lines: seq<Line>): Option<ColumnBounds> {
    if lines == [] then None
    else if HeaderBounds(lines[0]).Some? then HeaderBounds(lines[0])
    else FirstHeader(lines[1..])
  }

  function FindColumnBounds(pages: seq<seq<Word>>): Option<ColumnBounds> {
    if pages == [] then None
    else if FirstHeader(Grouped(pages[0])).Some? then FirstHeader(Grouped(pages[0]))
    else FindColumnBounds(pages[1..])
  }

  predicate IsElectronic(pages: seq<seq<Word>>) {
    FindColumnBounds(pages).Some?
  }

  function DetectColumnBounds(pages: seq<seq<Word>>): ColumnBounds {
    match FindColumnBounds(pages)
    case Some(b) => b
    case None => DEFAULT_BOUNDS
  }

  datatype Zone = IdZone | OwnerZone | AssetZone | TypeZone | DateZone | NotifZone | AmountZone | Outside

  /** The branch of `from_line` a word takes. */
  function ZoneOf(x: real, b: ColumnBounds): Zone {
    if x < b.idMax then IdZone
    else if x < b.ownerMax then OwnerZone
    else if x < b.assetMax then AssetZone
    else if x < b.typeMax then TypeZone
    else if x < b.dateMax then DateZone
    else if x < b.notifMax then NotifZone
    else if x < b.amountMax then AmountZone
    else Outside
  }

  // ---- words ----

  datatype Owner = Self | Spouse | Joint | Child

  datatype TxType = Purchase | SaleFull | SalePartial | Exchange

  predicate IsOwnerCode(text: string) {
    Upper(text) in ["SP", "JT", "DC"]
  }

  function OwnerOf(code: Option<string>): Owner {
    match code
    case Some("SP") => Spouse
    case Some("JT") => Joint
    case Some("DC") => Child
    case _ => Self
  }

  /** `_TX_TYPE_RE`: one of the letters P, S, E in either case. */
  predicate IsTypeLetter(text: string) {
    Upper(text) in ["P", "S", "E"]
  }

  predicate IsPartialMark(text: string) {
    Lower(text) == "(partial)"
  }

  function TypeOf(letter: string, partial: bool): Option<TxType> {
    if letter == "P" then Some(Purchase)
    else if letter == "S" then Some(if partial then SalePartial else SaleFull)
    else if letter == "E" then Some(Exchange)
    else None
  }

  datatype FormDate = FormDate(month: nat, day: nat, year: string)

  /** `_DATE_RE` and the split of `_to_iso_date`: "11/7/2017". */
  function ParseDate(raw: string): (d: Option<FormDate>)
    ensures d.Some? ==> d.value.month < 100 && d.value.day < 100 && |d.value.year| == 4
  {
    match SplitFirst(raw, '/')
    case None => None
    case Some((month, rest)) =>
      match SplitFirst(rest, '/')
      case None => None
      case Some((day, year)) =>
        if 1 <= |month| <= 2 && 1 <= |day| <= 2 && |year| == 4
           && AllDigits(month) && AllDigits(day) && AllDigits(year)
        then
          TwoDigits(month); TwoDigits(day);
          Some(FormDate(NatOf(month), NatOf(day), year))
        else None
  }

  lemma {:induction false} TwoDigits(s: string)
    requires 1 <= |s| <= 2 && AllDigits(s)
    ensures NatOf(s) < 100
  {
    hide NatOf;
    NatOfOne(s[0]);
    if |s| == 1 {
      assert s == [s[0]];
    } else {
      NatOfSnoc([s[0]], s[1]);
      assert s == [s[0]] + [s[1]];
    }
  }

  lemma {:induction false} NatOfOne(c: char)
    requires IsDigit(c)
    ensures NatOf([c]) == DigitValue(c) < 10
  {
    assert [c][..0] == "";
  }

  predicate IsDate(text: string) {
    ParseDate(text).Some?
  }

  function Pad2(n: nat): string {
    if n < 10 then "0" + Digits(n) else Digits(n)
  }

  /** `_to_iso_date`, applied to the text of a date cell; an empty cell has no date. */
  function IsoDate(raw: string): Option<string> {
    match ParseDate(raw)
    case None => None
    case Some(d) => Some(d.year + "-" + Pad2(d.month) + "-" + Pad2(d.day))
  }

  datatype Label = Filing | Subholding | Description | Location

  /** Which annotation label a line's first word is, in either encoding of the form. */
  function AnnotationLabel(text: string): Option<Label> {
    if NUL in text then
      match UpperChar(text[0])
      case 'F' => Some(Filing)
      case 'S' => Some(Subholding)
      case 'D' => Some(Description)
      case 'L' => Some(Location)
      case _ => None
    else
      var stripped := Lower(StripColons(text));
      if stripped == "filing" then Some(Filing)
      else if stripped == "subholding" then Some(Subholding)
      else if stripped == "description" then Some(Description)
      else if stripped == "location" then Some(Location)
      else None
  }

  function LineLabel(line: Line): Option<Label>
    requires line != []
  {
    AnnotationLabel(line[0].text)
  }

  // ---- lines ----

  function Texts(line: Line): seq<string> {
    seq(|line|, i requires 0 <= i < |line| => line[i].text)
  }

  function LineText(line: Line): string {
    Join(Texts(line))
  }

  const FOOTER_MARKER := "For the complete list of asset type abbreviations"

  predicate IsHeaderLine(lineText: string) {
    var text := Lower(lineText);
    || (Contains(text, "owner") && Contains(text, "asset"))
    || (Contains(text, "notification") && Contains(text, "amount"))
    || (Contains(text, "cap.") && Contains(text, "gains"))
    || Contains(text, "$200?")
  }

  predicate IsFooterLine(lineText: string) {
    Contains(lineText, FOOTER_MARKER)
  }

  predicate StartsTransaction(line: Line, b: ColumnBounds) {
    exists i | 0 <= i < |line| :: b.assetMax <= line[i].x0 < b.typeMax && IsTypeLetter(line[i].text)
  }

  /** Which words of a line a part of an open record collects. */
  datatype Pick = Zoned(zone: Zone) | MoreAsset | MoreAmount | Content

  predicate Picks(pick: Pick, w: Word, b: ColumnBounds) {
    match pick
    case Zoned(z) => ZoneOf(w.x0, b) == z
    case MoreAsset => b.ownerMax <= w.x0 < b.assetMax
    case MoreAmount => !(b.ownerMax <= w.x0 < b.assetMax) && b.notifMax <= w.x0 < b.amountMax
    case Content => NUL !in w.text && Lower(StripColons(w.text)) != "description"
  }

  function Picked(line: Line, b: ColumnBounds, pick: Pick): seq<string> {
    if line == [] then []
    else
      var n := |line| - 1;
      Picked(line[..n], b, pick) + if Picks(pick, line[n], b) then [line[n].text] else []
  }

  /** The last text that satisfies a test. */
  datatype Test = Any | OwnerTest | TypeTest | DateTest

  predicate Passes(test: Test, text: string) {
    match test
    case Any => true
    case OwnerTest => IsOwnerCode(text)
    case TypeTest => IsTypeLetter(text)
    case DateTest => IsDate(text)
  }

  function LastPassing(texts: seq<string>, test: Test): Option<string> {
    if texts == [] then None
    else
      var n := |texts| - 1;
      if Passes(test, texts[n]) then Some(texts[n]) else LastPassing(texts[..n], test)
  }

  function OrEmpty(text: Option<string>): string {
    match text case None => "" case Some(t) => t
  }

  function UpperOption(text: Option<string>): Option<string> {
    match text case None => None case Some(t) => Some(Upper(t))
  }

  function OwnerField(texts: seq<string>): Option<string> {
    UpperOption(LastPassing(texts, OwnerTest))
  }

  function TypeField(texts: seq<string>): string {
    Upper(OrEmpty(LastPassing(texts, TypeTest)))
  }

  function DateField(texts: seq<string>): string {
    OrEmpty(LastPassing(texts, DateTest))
  }

  // ---- open records ----

  /** The fields of an open record. */
  datatype Record = Record(
    id: Option<string>, owner: Option<string>, asset: seq<string>, txType: string, partial: bool,
    txDate: string, notifDate: string, amount: seq<string>, description: seq<string>)

  /** The record a start line opens: each column's words, read on their own. */
  function RecordOf(line: Line, b: ColumnBounds): Record {
    var types := Picked(line, b, Zoned(TypeZone));
    Record(
      LastPassing(Picked(line, b, Zoned(IdZone)), Any),
      OwnerField(Picked(line, b, Zoned(OwnerZone))),
      Picked(line, b, Zoned(AssetZone)),
      TypeField(types),
      AnyPartial(types),
      DateField(Picked(line, b, Zoned(DateZone))),
      DateField(Picked(line, b, Zoned(NotifZone))),
      Picked(line, b, Zoned(AmountZone)),
      [])
  }

  datatype ParsedTransaction = ParsedTransaction(
    rowIndex: nat, owner: Owner, asset: string, ticker: Option<string>, assetType: Option<string>,
    option: OptionDetails, txType: Option<TxType>, txDate: Option<string>, notifDate: Option<string>,
    amountMin: Option<real>, amountMax: Option<real>, sourceId: Option<string>)

  datatype OptionDetails = OptionDetails(kind: Option<string>, strike: Option<real>, expiry: Option<string>)

  /** The regular expressions over an option description. */
  datatype Rules = Rules(optionDetails: string -> OptionDetails)

  const NO_OPTION := OptionDetails(None, None, None)

  function Finalize(r: Record, rowIndex: nat, rules: Rules): ParsedTransaction {
    var asset := Strip(Join(r.asset));
    var (ticker, assetType) := AssetNames.TickerAndType(asset);
    var (low, high) := ParseAmountRange(Join(r.amount));
    ParsedTransaction(
      rowIndex, OwnerOf(r.owner), asset, ticker, assetType,
      if assetType == Some("OP") then rules.optionDetails(Join(r.description)) else NO_OPTION,
      TypeOf(r.txType, r.partial), IsoDate(r.txDate), IsoDate(r.notifDate), low, high, r.id)
  }

  class OpenRecord {
    var id: Option<string>
    var owner: Option<string>
    var asset: seq<string>
    var txType: string
    var partial: bool
    var txDate: string
    var notifDate: string
    var amount: seq<string>
    var description: seq<string>

    function View(): Record
      reads this
    {
      Record(id, owner, asset, txType, partial, txDate, notifDate, amount, description)
    }

    constructor FromLine(line: Line, b: ColumnBounds)
      ensures View() == RecordOf(line, b)
    {
      id, owner, asset, txType, partial := None, None, [], "", false;
      txDate, notifDate, amount, description := "", "", [], [];
      new;
      hide RecordOf, WithWord;
      assert line[..0] == [];
      RecordOfNothing(b);
      for i := 0 to |line|
        invariant View() == RecordOf(line[..i], b)
      {
        ReadWord(line[i], b);
        RecordOfSnoc(line[..i], line[i], b);
        assert line[..i] + [line[i]] == line[..i + 1];
      }
      assert line[..|line|] == line;
    }

    method ReadWord(w: Word, b: ColumnBounds)
      modifies this
      ensures View() == WithWord(old(View()), w, b)
    {
      if w.x0 < b.idMax {
        id := Some(w.text);
      } else if w.x0 < b.ownerMax {
        if IsOwnerCode(w.text) {
          owner := Some(Upper(w.text));
        }
      } else if w.x0 < b.assetMax {
        asset := asset + [w.text];
      } else if w.x0 < b.typeMax {
        if IsTypeLetter(w.text) {
          txType := Upper(w.text);
        } else if IsPartialMark(w.text) {
          partial := true;
        }
      } else if w.x0 < b.dateMax {
        if IsDate(w.text) {
          txDate := w.text;
        }
      } else if w.x0 < b.notifMax {
        if IsDate(w.text) {
          notifDate := w.text;
        }
      } else if w.x0 < b.amountMax {
        amount := amount + [w.text];
      }
    }

    method Extend(line: Line, b: ColumnBounds)
      modifies this
      ensures View() == Extended(old(View()), line, b)
    {
      ghost var before := View();
      assert line[..0] == [];
      for i := 0 to |line|
        invariant View() == Extended(before, line[..i], b)
      {
        var w := line[i];
        assert line[..i + 1][..i] == line[..i];
        if b.ownerMax <= w.x0 < b.assetMax {
          asset := asset + [w.text];
        } else if b.notifMax <= w.x0 < b.amountMax {
          amount := amount + [w.text];
        }
      }
      assert line[..|line|] == line;
    }

    method AddDescriptionWords(line: Line, ghost b: ColumnBounds)
      modifies this
      ensures View() == Described(old(View()), line, b)
    {
      ghost var before := View();
      assert line[..0] == [];
      for i := 0 to |line|
        invariant View() == Described(before, line[..i], b)
      {
        var w := line[i];
        assert line[..i + 1][..i] == line[..i];
        if NUL in w.text {
          continue;
        }
        if Lower(StripColons(w.text)) == "description" {
          continue;
        }
        description := description + [w.text];
      }
      assert line[..|line|] == line;
    }
  }

  /** One more word of a start line. */
  function WithWord(r: Record, w: Word, b: ColumnBounds): Record {
    match ZoneOf(w.x0, b)
    case IdZone => r.(id := Some(w.text))
    case OwnerZone => if IsOwnerCode(w.text) then r.(owner := Some(Upper(w.text))) else r
    case AssetZone => r.(asset := r.asset + [w.text])
    case TypeZone =>
      if IsTypeLetter(w.text) then r.(txType := Upper(w.text))
      else if IsPartialMark(w.text) then r.(partial := true)
      else r
    case DateZone => if IsDate(w.text) then r.(txDate := w.text) else r
    case NotifZone => if IsDate(w.text) then r.(notifDate := w.text) else r
    case AmountZone => r.(amount := r.amount + [w.text])
    case Outside => r
  }

  lemma {:induction false} PickedSnoc(line: Line, w: Word, b: ColumnBounds, pick: Pick)
    ensures Picked(line + [w], b, pick) == Picked(line, b, pick) + if Picks(pick, w, b) then [w.text] else []
  {
    assert (line + [w])[..|line|] == line;
  }

  lemma {:induction false} LastPassingSnoc(texts: seq<string>, t: string, test: Test)
    ensures LastPassing(texts + [t], test) == if Passes(test, t) then Some(t) else LastPassing(texts, test)
  {
    assert (texts + [t])[..|texts|] == texts;
  }

  /** A type letter is never the partial mark. */
  lemma {:induction false} LetterOrMark(text: string)
    ensures !(IsTypeLetter(text) && IsPartialMark(text))
  {
    assert |Upper(text)| == |text| == |Lower(text)|;
  }

  predicate AnyPartial(texts: seq<string>) {
    exists i | 0 <= i < |texts| :: IsPartialMark(texts[i])
  }

  lemma {:induction false} AnyPartialSnoc(texts: seq<string>, t: string)
    ensures AnyPartial(texts + [t]) <==> AnyPartial(texts) || IsPartialMark(t)
  {
    var s := texts + [t];
    assert s[|texts|] == t;
    assert forall i | 0 <= i < |texts| :: s[i] == texts[i];
  }

  /** Reading a start line word by word builds the record that reads each column on its own. */
  lemma {:induction false} RecordOfNothing(b: ColumnBounds)
    ensures RecordOf([], b) == Record(None, None, [], "", false, "", "", [], [])
  {
  }

  lemma {:induction false} RecordOfSnoc(line: Line, w: Word, b: ColumnBounds)
    ensures RecordOf(line + [w], b) == WithWord(RecordOf(line, b), w, b)
  {
    hide OwnerField, TypeField, DateField, AnyPartial, LastPassing, Picked, IsTypeLetter, IsPartialMark, IsOwnerCode;
    hide IsDate;
    var z := ZoneOf(w.x0, b);
    forall z' ensures Picked(line + [w], b, Zoned(z')) == GrowIf(Picked(line, b, Zoned(z')), z' == z, w.text) {
      PickedSnoc(line, w, b, Zoned(z'));
    }
    FieldsSnoc(Picked(line, b, Zoned(z)), w.text);
  }

  lemma {:induction false} FieldsSnoc(texts: seq<string>, t: string)
    ensures LastPassing(texts + [t], Any) == Some(t)
    ensures OwnerField(texts + [t]) == if IsOwnerCode(t) then Some(Upper(t)) else OwnerField(texts)
    ensures TypeField(texts + [t]) == if IsTypeLetter(t) then Upper(t) else TypeField(texts)
    ensures AnyPartial(texts + [t]) == ((!IsTypeLetter(t) && IsPartialMark(t)) || AnyPartial(texts))
    ensures DateField(texts + [t]) == if IsDate(t) then t else DateField(texts)
  {
    LastPassingSnoc(texts, t, Any);
    LastPassingSnoc(texts, t, OwnerTest);
    LastPassingSnoc(texts, t, TypeTest);
    LastPassingSnoc(texts, t, DateTest);
    AnyPartialSnoc(texts, t);
    LetterOrMark(t);
  }

  function GrowIf(texts: seq<string>, grow: bool, t: string): seq<string> {
    if grow then texts + [t] else texts
  }

  function Extended(r: Record, line: Line, b: ColumnBounds): Record {
    r.(asset := r.asset + Picked(line, b, MoreAsset), amount := r.amount + Picked(line, b, MoreAmount))
  }

  function Described(r: Record, line: Line, b: ColumnBounds): Record {
    r.(description := r.description + Picked(line, b, Content))
  }
}
