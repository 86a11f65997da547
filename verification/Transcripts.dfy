/** Reading a CSV of transcribed scanned filings (`ingest/transcribed_ptrs.py`). */
module Transcripts {
  import opened Optional
  import opened Text
  import AssetNames
  import Money

  type FilingId = string

  /** One CSV row; missing cells read as empty. */
  datatype CsvRow = CsvRow(docId: string, assetName: string, ticker: string, owner: string, txType: string,
                           txDate: string, notificationDate: string, amountBand: string,
                           confidence: string, review: string, note: string)

  datatype TranscribedRow = TranscribedRow(
    asset: string, ticker: Option<string>, owner: Option<string>, txType: Option<string>,
    txDate: Option<string>, notificationDate: Option<string>, amountMin: Option<real>, amountMax: Option<real>,
    confidence: Option<string>, review: Option<string>, note: Option<string>)

  datatype Provenance = Provenance(confidence: Option<string>, review: Option<string>, note: Option<string>,
                                   file: string)

  /** The printed range of a closed band: from `low` thousands and one to `high` thousands. */
  function ClosedBand(low: string, high: string): string {
    ("$" + low + ",001") + " - " + ("$" + high + ",000")
  }

  function BandText(band: string): string {
    match band
    case "A" => ClosedBand("1", "15")
    case "B" => ClosedBand("15", "50")
    case "C" => ClosedBand("50", "100")
    case "D" => ClosedBand("100", "250")
    case "E" => ClosedBand("250", "500")
    case "F" => ClosedBand("500", "1,000")
    case "G" => ClosedBand("1,000", "5,000")
    case "H" => ClosedBand("5,000", "25,000")
    case "I" => ClosedBand("25,000", "50,000")
    case "J" => "Over $50,000,000"
    case _ => ""
  }

  function Nonempty(s: string): Option<string> {
    if s == "" then None else Some(s)
  }

  function OneOf(s: string, allowed: set<string>): Option<string> {
    if s in allowed then Some(s) else None
  }

  const TX_TYPES := {"purchase", "sale_full", "sale_partial", "exchange"}
  const OWNERS := {"self", "spouse", "joint", "child"}

  /** Which dates are real calendar days. */
  datatype Reader = Reader(isDay: string -> bool)

  function FilingIdOf(raw: CsvRow): FilingId {
    "house:" + Strip(raw.docId)
  }

  function RowOf(raw: CsvRow, reader: Reader): TranscribedRow {
    var name := Strip(raw.assetName);
    var ticker := Nonempty(Upper(Strip(raw.ticker)));
    var (low, high) := Money.ParseAmountRange(BandText(Upper(Strip(raw.amountBand))));
    TranscribedRow(
      name, if ticker.None? then AssetNames.TickerInName(Upper(name)) else ticker,
      OneOf(Strip(raw.owner), OWNERS), OneOf(Strip(raw.txType), TX_TYPES),
      Nonempty(Strip(raw.txDate)), Nonempty(Strip(raw.notificationDate)), low, high,
      Nonempty(Strip(raw.confidence)), Nonempty(Strip(raw.review)), Nonempty(Strip(raw.note)))
  }

  /** `date.fromisoformat` raises on anything but a real day. */
  predicate Readable(raw: CsvRow, reader: Reader) {
    (Strip(raw.assetName) != "" && Strip(raw.txDate) != "" ==> reader.isDay(Strip(raw.txDate)))
    && (Strip(raw.assetName) != "" && Strip(raw.notificationDate) != "" ==> reader.isDay(Strip(raw.notificationDate)))
  }

  /** The rows of each filing that has any, and the filings named only by empty rows. */
  datatype Transcript = Transcript(byFiling: map<FilingId, seq<TranscribedRow>>, empty: set<FilingId>) {
    function RowsOf(id: FilingId): seq<TranscribedRow> {
      if id in byFiling then byFiling[id] else []
    }

    function Ids(): set<FilingId> {
      byFiling.Keys + empty
    }
  }

  /** The rows a file holds for one filing, in file order. */
  function FilingRows(csv: seq<CsvRow>, id: FilingId, reader: Reader): seq<TranscribedRow> {
    if csv == [] then []
    else
      var raw := csv[|csv| - 1];
      FilingRows(csv[..|csv| - 1], id, reader)
      + if FilingIdOf(raw) == id && Strip(raw.assetName) != "" then [RowOf(raw, reader)] else []
  }

  ghost predicate Names(csv: seq<CsvRow>, id: FilingId) {
    exists i | 0 <= i < |csv| :: FilingIdOf(csv[i]) == id
  }

  /** What a read has gathered from the rows so far. */
  ghost predicate Gathered(t: Transcript, csv: seq<CsvRow>, reader: Reader) {
    && (forall raw | raw in csv :: Readable(raw, reader))
    && (forall id :: t.RowsOf(id) == FilingRows(csv, id, reader))
    && (forall id | id in t.byFiling :: t.byFiling[id] != [])
    && (forall id :: Names(csv, id) <==> id in t.Ids())
  }

  /** An empty date cell, or one that is a real day. */
  predicate IsDayCell(cell: string, reader: Reader) {
    Strip(cell) == "" || reader.isDay(Strip(cell))
  }

  predicate DatesReal(raw: CsvRow, reader: Reader) {
    Strip(raw.assetName) != "" ==> IsDayCell(raw.txDate, reader) && IsDayCell(raw.notificationDate, reader)
  }

  lemma {:induction false} ReadableIff(raw: CsvRow, reader: Reader)
    ensures Readable(raw, reader) <==> DatesReal(raw, reader)
  {
    hide Strip;
  }

  /** One malformed date of a row that names an asset makes the whole read raise. Otherwise every such row
      lands with its filing, in file order; a filing is listed as empty exactly when it is named and has none. */
  method ReadCsv(csv: seq<CsvRow>, reader: Reader) returns (r: Option<Transcript>)
    ensures r.Some? <==> forall i | 0 <= i < |csv| :: DatesReal(csv[i], reader)
    ensures r.Some? ==> forall id :: r.value.RowsOf(id) == FilingRows(csv, id, reader)
    ensures r.Some? ==> forall id :: id in r.value.byFiling <==> FilingRows(csv, id, reader) != []
    ensures r.Some? ==> forall id :: id in r.value.empty <==> Names(csv, id) && FilingRows(csv, id, reader) == []
  {
    hide Strip, RowOf, FilingIdOf, FilingRows, Names, Readable, DatesReal;
    var byFiling: map<FilingId, seq<TranscribedRow>> := map[];
    var empty: set<FilingId> := {};
    NothingGathered(reader);
    for i := 0 to |csv|
      invariant Gathered(Transcript(byFiling, empty), csv[..i], reader)
    {
      var id := FilingIdOf(csv[i]);
      ReadableIff(csv[i], reader);
      var before := Transcript(byFiling, empty);
      if Strip(csv[i].assetName) == "" {
        empty := empty + {id};
        GatherEmpty(before, csv, i, reader);
        continue;
      }
      if !Readable(csv[i], reader) {
        return None;
      }
      byFiling := byFiling[id := before.RowsOf(id) + [RowOf(csv[i], reader)]];
      GatherRow(before, csv, i, reader);
    }
    assert csv[..|csv|] == csv;
    r := Some(Transcript(byFiling, empty - byFiling.Keys));
    assert Gathered(Transcript(byFiling, empty), csv, reader);
    forall i | 0 <= i < |csv| ensures DatesReal(csv[i], reader) {
      assert csv[i] in csv;
      ReadableIff(csv[i], reader);
    }
    GatheredIs(Transcript(byFiling, empty), csv, reader);
  }

  lemma {:induction false} NothingGathered(reader: Reader)
    ensures Gathered(Transcript(map[], {}), [], reader)
  {
  }

  lemma {:induction false} GatheredIs(t: Transcript, csv: seq<CsvRow>, reader: Reader)
    requires Gathered(t, csv, reader)
    ensures forall id :: id in t.byFiling <==> FilingRows(csv, id, reader) != []
    ensures forall id :: id in t.empty - t.byFiling.Keys <==> Names(csv, id) && FilingRows(csv, id, reader) == []
  {
    hide FilingRows, Names, Readable;
    forall id ensures id in t.byFiling <==> FilingRows(csv, id, reader) != []
              ensures id in t.empty - t.byFiling.Keys <==> Names(csv, id) && FilingRows(csv, id, reader) == []
    {
      assert t.RowsOf(id) == FilingRows(csv, id, reader);
      assert Names(csv, id) <==> id in t.Ids();
    }
  }

  lemma {:induction false} RowsMore(csv: seq<CsvRow>, i: nat, id: FilingId, reader: Reader)
    requires i < |csv|
    ensures FilingRows(csv[..i + 1], id, reader)
            == FilingRows(csv[..i], id, reader)
               + if FilingIdOf(csv[i]) == id && Strip(csv[i].assetName) != "" then [RowOf(csv[i], reader)] else []
  {
    assert csv[..i + 1][..i] == csv[..i];
  }

  lemma {:induction false} GatherEmpty(t: Transcript, csv: seq<CsvRow>, i: nat, reader: Reader)
    requires i < |csv| && Gathered(t, csv[..i], reader) && Strip(csv[i].assetName) == ""
    ensures Gathered(t.(empty := t.empty + {FilingIdOf(csv[i])}), csv[..i + 1], reader)
  {
    hide FilingRows, FilingIdOf, Names, RowOf;
    var t' := t.(empty := t.empty + {FilingIdOf(csv[i])});
    NamesMore(csv, i);
    forall id ensures t'.RowsOf(id) == FilingRows(csv[..i + 1], id, reader) {
      RowsMore(csv, i, id, reader);
      assert t.RowsOf(id) == FilingRows(csv[..i], id, reader);
    }
    forall id ensures Names(csv[..i + 1], id) <==> id in t'.Ids() {
      assert Names(csv[..i], id) <==> id in t.Ids();
    }
    ReadableMore(csv, i, reader);
  }

  lemma {:induction false} GatherRow(t: Transcript, csv: seq<CsvRow>, i: nat, reader: Reader)
    requires i < |csv| && Gathered(t, csv[..i], reader) && Strip(csv[i].assetName) != "" && Readable(csv[i], reader)
    ensures var id := FilingIdOf(csv[i]);
            Gathered(t.(byFiling := t.byFiling[id := t.RowsOf(id) + [RowOf(csv[i], reader)]]), csv[..i + 1], reader)
  {
    hide FilingRows, FilingIdOf, Names, RowOf;
    var f := FilingIdOf(csv[i]);
    var t' := t.(byFiling := t.byFiling[f := t.RowsOf(f) + [RowOf(csv[i], reader)]]);
    NamesMore(csv, i);
    forall id ensures t'.RowsOf(id) == FilingRows(csv[..i + 1], id, reader) {
      RowsMore(csv, i, id, reader);
      assert t.RowsOf(id) == FilingRows(csv[..i], id, reader);
    }
    forall id ensures Names(csv[..i + 1], id) <==> id in t'.Ids() {
      assert Names(csv[..i], id) <==> id in t.Ids();
    }
    ReadableMore(csv, i, reader);
  }

  lemma {:induction false} ReadableMore(csv: seq<CsvRow>, i: nat, reader: Reader)
    requires i < |csv| && (forall raw | raw in csv[..i] :: Readable(raw, reader)) && Readable(csv[i], reader)
    ensures forall raw | raw in csv[..i + 1] :: Readable(raw, reader)
  {
    hide Readable;
    assert csv[..i + 1] == csv[..i] + [csv[i]];
  }

  lemma {:induction false} NamesMore(csv: seq<CsvRow>, i: nat)
    requires i < |csv|
    ensures forall id :: Names(csv[..i + 1], id) <==> Names(csv[..i], id) || FilingIdOf(csv[i]) == id
  {
    forall id ensures Names(csv[..i + 1], id) <==> Names(csv[..i], id) || FilingIdOf(csv[i]) == id {
      if Names(csv[..i], id) {
        var j :| 0 <= j < i && FilingIdOf(csv[..i][j]) == id;
        assert csv[..i + 1][j] == csv[j];
      }
      if Names(csv[..i + 1], id) {
        var j :| 0 <= j < i + 1 && FilingIdOf(csv[..i + 1][j]) == id;
        assert j < i ==> csv[..i][j] == csv[j];
      }
      assert csv[..i + 1][i] == csv[i];
    }
  }

  // ---- the rows of a filing ----

  /** The row names an asset and belongs to the filing. */
  predicate IsFor(raw: CsvRow, id: FilingId) {
    "house:" + Strip(raw.docId) == id && Strip(raw.assetName) != ""
  }

  /** The rows before `n` that are for the filing. */
  function ForBefore(csv: seq<CsvRow>, n: nat, id: FilingId): set<nat>
    requires n <= |csv|
  {
    set i: nat | i < n && IsFor(csv[i], id)
  }

  /** What the text of a cell means: nothing when it is empty or white space. */
  predicate Holds(field: Option<string>, cell: string) {
    field == (if Strip(cell) == "" then None else Some(Strip(cell)))
  }

  predicate HoldsOneOf(field: Option<string>, cell: string, known: set<string>) {
    field == (if Strip(cell) in known then Some(Strip(cell)) else None)
  }

  /** The bounds a band letter stands for, in any letter case; an unknown one has none. */
  function BandBounds(band: string): (Option<real>, Option<real>) {
    if band in {"A", "B", "C", "D", "E", "F", "G", "H", "I"} then
      (Some(Bounds(band).0 as real), Some(Bounds(band).1 as real))
    else if band == "J" then (Some(50_000_000.0), None)
    else (None, None)
  }

  /** Which cell fills which field. The ticker is the cell's, in capitals, or else the one the name ends in. */
  predicate IsRowOf(row: TranscribedRow, raw: CsvRow) {
    && row.asset == Strip(raw.assetName)
    && row.ticker == (if Strip(raw.ticker) == "" then AssetNames.TickerInName(Upper(Strip(raw.assetName)))
                      else Some(Upper(Strip(raw.ticker))))
    && HoldsOneOf(row.owner, raw.owner, {"self", "spouse", "joint", "child"})
    && HoldsOneOf(row.txType, raw.txType, {"purchase", "sale_full", "sale_partial", "exchange"})
    && Holds(row.txDate, raw.txDate) && Holds(row.notificationDate, raw.notificationDate)
    && (row.amountMin, row.amountMax) == BandBounds(Upper(Strip(raw.amountBand)))
    && Holds(row.confidence, raw.confidence) && Holds(row.review, raw.review) && Holds(row.note, raw.note)
  }

  predicate FilingRowsMatch(rows: seq<TranscribedRow>, csv: seq<CsvRow>, id: FilingId) {
    && |rows| == |ForBefore(csv, |csv|, id)|
    && forall i | 0 <= i < |csv| && IsFor(csv[i], id) ::
         var k := |ForBefore(csv, i, id)|;
         k < |rows| && IsRowOf(rows[k], csv[i])
  }

  lemma {:induction false} RowHolds(raw: CsvRow, reader: Reader)
    ensures IsRowOf(RowOf(raw, reader), raw)
  {
    hide Strip, AssetNames.TickerInName, Money.ParseAmountRange, Bounds;
    var band := Upper(Strip(raw.amountBand));
    if band in {"A", "B", "C", "D", "E", "F", "G", "H", "I"} {
      BandAmounts(band);
    } else if band == "J" {
      OpenBand();
    } else {
      NoBand(band);
    }
    assert Upper(Strip(raw.ticker)) == "" <==> Strip(raw.ticker) == "";
  }

  lemma {:induction false} NoBand(band: string)
    requires band !in {"A", "B", "C", "D", "E", "F", "G", "H", "I", "J"}
    ensures Money.ParseAmountRange(BandText(band)) == (None, None)
  {
    assert BandText(band) == "";
    assert Strip("") == "";
  }

  lemma {:induction false} ForPrefix(csv: seq<CsvRow>, m: nat, n: nat, id: FilingId)
    requires n <= m <= |csv|
    ensures ForBefore(csv[..m], n, id) == ForBefore(csv, n, id)
  {
    hide IsFor;
  }

  lemma {:induction false} ForMore(csv: seq<CsvRow>, n: nat, id: FilingId)
    requires n < |csv|
    ensures |ForBefore(csv, n + 1, id)| == |ForBefore(csv, n, id)| + if IsFor(csv[n], id) then 1 else 0
  {
    hide IsFor;
    assert ForBefore(csv, n + 1, id) == ForBefore(csv, n, id) + if IsFor(csv[n], id) then {n} else {};
  }

  /** The k-th row of a filing is read from the k-th row of the file that is for it. */
  lemma {:induction false} FilingRowsAre(csv: seq<CsvRow>, id: FilingId, reader: Reader)
    ensures FilingRowsMatch(FilingRows(csv, id, reader), csv, id)
  {
    hide IsRowOf, ForBefore, RowOf, Strip;
    if csv == [] {
      NoneFor(id);
    } else {
      var n := |csv| - 1;
      var before, rows := FilingRows(csv[..n], id, reader), FilingRows(csv, id, reader);
      FilingRowsAre(csv[..n], id, reader);
      ForMore(csv, n, id);
      ForPrefix(csv, n, n, id);
      RowHolds(csv[n], reader);
      forall i | 0 <= i < |csv| && IsFor(csv[i], id)
        ensures |ForBefore(csv, i, id)| < |rows| && IsRowOf(rows[|ForBefore(csv, i, id)|], csv[i])
      {
        if i < n {
          assert csv[..n][i] == csv[i];
          ForPrefix(csv, n, i, id);
        }
      }
    }
  }

  lemma {:induction false} NoneFor(id: FilingId)
    ensures ForBefore([], 0, id) == {}
  {
  }

  // ---- the amount bands ----

  function Bounds(band: string): (nat, nat) {
    match band
    case "A" => (1_001, 15_000)
    case "B" => (15_001, 50_000)
    case "C" => (50_001, 100_000)
    case "D" => (100_001, 250_000)
    case "E" => (250_001, 500_000)
    case "F" => (500_001, 1_000_000)
    case "G" => (1_000_001, 5_000_000)
    case "H" => (5_000_001, 25_000_000)
    case _ => (25_000_001, 50_000_000)
  }

  lemma {:induction false} CommasOf(k: nat, d: nat)
    requires k > 0 && d < 2
    ensures Money.Commas(1000 * k + d) == Money.Commas(k) + if d == 0 then ",000" else ",001"
  {
    assert (1000 * k + d) / 1000 == k && (1000 * k + d) % 1000 == d;
    assert Money.Digits(d) == if d == 0 then "0" else "1";
  }

  /** How a number of thousands is printed. */
  function Thousands(k: nat): string {
    match k
    case 1 => "1"
    case 5 => "5"
    case 15 => "15"
    case 25 => "25"
    case 50 => "50"
    case 100 => "100"
    case 250 => "250"
    case 500 => "500"
    case 1000 => "1,000"
    case 5000 => "5,000"
    case 25000 => "25,000"
    case _ => "50,000"
  }

  lemma {:induction false} ThousandsSmall(k: nat)
    requires k in {1, 5, 15, 25, 50, 100, 250, 500}
    ensures Money.Commas(k) == Thousands(k)
  {
    assert Money.Digits(1) == "1" && Money.Digits(2) == "2" && Money.Digits(5) == "5";
    assert Money.Digits(10) == "10" && Money.Digits(25) == "25" && Money.Digits(50) == "50";
  }

  lemma {:induction false} ThousandsLarge(k: nat)
    requires k in {1000, 5000, 25_000, 50_000}
    ensures Money.Commas(k) == Thousands(k)
  {
    hide Money.Commas;
    var j := k / 1000;
    ThousandsSmall(j);
    CommasOf(j, 0);
  }

  lemma {:induction false} Dashed(a: string, b: string)
    ensures Join([a, "-", b]) == a + " - " + b
  {
    assert [a, "-", b][1..] == ["-", b] && ["-", b][1..] == [b];
    assert Join([b]) == b;
    assert Join(["-", b]) == "-" + " " + b;
    assert Join([a, "-", b]) == a + " " + ("-" + " " + b);
    assert a + " " + ("-" + " " + b) == a + " - " + b;
  }

  lemma {:induction false} Grouped(k: nat, group: string)
    ensures "$" + (Thousands(k) + group) == "$" + Thousands(k) + group
  {
    hide Thousands;
  }

  lemma {:induction false} BandReads(k: nat, m: nat)
    requires {k, m} <= {1, 5, 15, 25, 50, 100, 250, 500, 1000, 5000, 25_000, 50_000}
    ensures Money.ParseAmountRange(ClosedBand(Thousands(k), Thousands(m))) == (Some((1000 * k + 1) as real),
          Some((1000 * m) as real))
  {
    hide Money.ParseAmountRange, Money.Commas, Thousands, Join;
    if k >= 1000 { ThousandsLarge(k); } else { ThousandsSmall(k); }
    if m >= 1000 { ThousandsLarge(m); } else { ThousandsSmall(m); }
    CommasOf(k, 1);
    CommasOf(m, 0);
    Grouped(k, ",001");
    Grouped(m, ",000");
    Dashed("$" + Money.Commas(1000 * k + 1), "$" + Money.Commas(1000 * m));
    Money.ParseClosed(1000 * k + 1, 1000 * m);
  }

  /** Every closed band letter of the form reads as its own pair of bounds. */
  lemma {:induction false} BandAmounts(band: string)
    requires band in {"A", "B", "C", "D", "E", "F", "G", "H", "I"}
    ensures Money.ParseAmountRange(BandText(band)) == (Some(Bounds(band).0 as real), Some(Bounds(band).1 as real))
  {
    hide Money.ParseAmountRange, ClosedBand;
    match band
    case "A" => BandReads(1, 15);
    case "B" => BandReads(15, 50);
    case "C" => BandReads(50, 100);
    case "D" => BandReads(100, 250);
    case "E" => BandReads(250, 500);
    case "F" => BandReads(500, 1000);
    case "G" => BandReads(1000, 5000);
    case "H" => BandReads(5000, 25_000);
    case _ => BandReads(25_000, 50_000);
  }

  /** "J" has no upper bound. */
  lemma {:induction false} OpenBand()
    ensures Money.ParseAmountRange(BandText("J")) == (Some(50_000_000.0), None)
  {
    hide Money.ParseAmountRange, Money.Commas;
    ThousandsLarge(50_000);
    CommasOf(50_000, 0);
    var b := "$" + Money.Commas(50_000_000);
    assert ["Over", b][1..] == [b];
    assert Join(["Over", b]) == "Over" + " " + b;
    assert BandText("J") == Join(["Over", b]);
    Money.ParseOver(50_000_000);
  }
}
