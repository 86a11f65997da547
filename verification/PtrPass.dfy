/** The one pass over a PTR's lines (`parse_ptr_transactions`, `parsers/house_ptr.py`) and the
    declarative segmentation it refines. */
module PtrPass {
  import opened Optional
  import opened Lines
  import opened PtrParser

  // ---- body lines ----

  /** A page's lines without header lines, up to the footer. */
  function BodyOf(lines: seq<Line>): seq<Line> {
    if lines == [] then []
    else if IsHeaderLine(LineText(lines[0])) then BodyOf(lines[1..])
    else if IsFooterLine(LineText(lines[0])) then []
    else [lines[0]] + BodyOf(lines[1..])
  }

  function Body(pages: seq<seq<Word>>): seq<Line> {
    if pages == [] then [] else BodyOf(Grouped(pages[0])) + Body(pages[1..])
  }

  // ---- segmentation ----

  /** How many leading lines do not start a transaction. */
  function TailLength(lines: seq<Line>, b: ColumnBounds): (n: nat)
    ensures n <= |lines|
  {
    if lines == [] || StartsTransaction(lines[0], b) then 0 else 1 + TailLength(lines[1..], b)
  }

  lemma {:induction false} TailLengthExact(lines: seq<Line>, b: ColumnBounds)
    ensures NoStarts(lines[..TailLength(lines, b)], b)
    ensures TailLength(lines, b) < |lines| ==> StartsTransaction(lines[TailLength(lines, b)], b)
  {
    hide StartsTransaction;
    if lines != [] && !StartsTransaction(lines[0], b) {
      var n := TailLength(lines[1..], b);
      TailLengthExact(lines[1..], b);
      var prefix := lines[..n + 1];
      forall i | 0 <= i < |prefix| ensures !StartsTransaction(prefix[i], b) {
        assert i > 0 ==> prefix[i] == lines[1..][..n][i - 1];
      }
    }
  }

  predicate NoStarts(lines: seq<Line>, b: ColumnBounds) {
    forall i | 0 <= i < |lines| :: !StartsTransaction(lines[i], b)
  }

  /** Split at the start lines; what precedes the first of them is dropped. */
  function Segments(lines: seq<Line>, b: ColumnBounds): seq<seq<Line>>
    decreases |lines|
  {
    var k := TailLength(lines, b);
    if k == |lines| then []
    else
      var n := 1 + TailLength(lines[k + 1..], b);
      [lines[k..k + n]] + Segments(lines[k + n..], b)
  }

  predicate NonEmptyLines(lines: seq<Line>) {
    forall i | 0 <= i < |lines| :: lines[i] != []
  }

  /** How many leading lines carry no annotation label. */
  function UnlabelledLength(lines: seq<Line>): (n: nat)
    requires NonEmptyLines(lines)
    ensures n <= |lines|
    ensures forall i | 0 <= i < n :: LineLabel(lines[i]).None?
    ensures n < |lines| ==> LineLabel(lines[n]).Some?
  {
    if lines == [] || LineLabel(lines[0]).Some? then 0 else 1 + UnlabelledLength(lines[1..])
  }

  function Gather(lines: seq<Line>, b: ColumnBounds, pick: Pick): seq<string> {
    if lines == [] then [] else Picked(lines[0], b, pick) + Gather(lines[1..], b, pick)
  }

  /** The content words of the lines whose latest label is "description". */
  function DescriptionWords(lines: seq<Line>, b: ColumnBounds, describing: bool): seq<string>
    requires NonEmptyLines(lines)
  {
    if lines == [] then []
    else
      var d := if LineLabel(lines[0]).Some? then LineLabel(lines[0]) == Some(Description) else describing;
      (if d then Picked(lines[0], b, Content) else []) + DescriptionWords(lines[1..], b, d)
  }

  /** A segment's record: the start line, the wrapped lines before the first label, and the
      description block. */
  function RecordOfSegment(seg: seq<Line>, b: ColumnBounds): Record
    requires seg != [] && NonEmptyLines(seg)
  {
    var tail := seg[1..];
    var wrapped := tail[..UnlabelledLength(tail)];
    var r := RecordOf(seg[0], b);
    r.(asset := r.asset + Gather(wrapped, b, MoreAsset),
       amount := r.amount + Gather(wrapped, b, MoreAmount),
       description := DescriptionWords(tail, b, false))
  }

  predicate WellFormed(segs: seq<seq<Line>>) {
    forall i | 0 <= i < |segs| :: segs[i] != [] && NonEmptyLines(segs[i])
  }

  /** One transaction per segment, numbered from `base`; each depends on its own segment only. */
  function Transactions(segs: seq<seq<Line>>, base: nat, b: ColumnBounds, rules: Rules): (ts: seq<ParsedTransaction>)
    requires WellFormed(segs)
    ensures |ts| == |segs|
  {
    hide Finalize, RecordOfSegment;
    if segs == [] then []
    else [Finalize(RecordOfSegment(segs[0], b), base, rules)] + Transactions(segs[1..], base + 1, b, rules)
  }

  lemma {:induction false} TransactionAt(segs: seq<seq<Line>>, base: nat, b: ColumnBounds, rules: Rules, i: nat)
    requires WellFormed(segs) && i < |segs|
    ensures Transactions(segs, base, b, rules)[i] == Finalize(RecordOfSegment(segs[i], b), base + i, rules)
  {
    hide Finalize, RecordOfSegment;
    if i > 0 {
      TransactionAt(segs[1..], base + 1, b, rules, i - 1);
    }
  }

  /** The meaning of a whole document. */
  function Parsed(pages: seq<seq<Word>>, rules: Rules): seq<ParsedTransaction> {
    var b := DetectColumnBounds(pages);
    BodyNonEmpty(pages);
    SegmentsNonEmptyLines(Body(pages), b);
    Transactions(Segments(Body(pages), b), 0, b, rules)
  }

  lemma {:induction false} BodyOfNonEmpty(lines: seq<Line>)
    requires NonEmptyLines(lines)
    ensures NonEmptyLines(BodyOf(lines))
  {
    hide IsHeaderLine, IsFooterLine, LineText;
    if lines != [] {
      BodyOfNonEmpty(lines[1..]);
    }
  }

  lemma {:induction false} BodyNonEmpty(pages: seq<seq<Word>>)
    ensures NonEmptyLines(Body(pages))
  {
    if pages != [] {
      GroupedNonEmpty(pages[0]);
      BodyOfNonEmpty(Grouped(pages[0]));
      BodyNonEmpty(pages[1..]);
    }
  }

  /** Clustering never yields an empty line, so nothing but a start line ends an annotation block. */
  lemma {:induction false} GroupedNonEmpty(words: seq<Word>)
    ensures NonEmptyLines(Grouped(words))
  {
    GroupedIsClustering(words);
    forall i | 0 <= i < |Grouped(words)| ensures Grouped(words)[i] != [] {
      assert Grouped(words)[i] in Grouped(words);
    }
  }

  // ---- the pass ----

  datatype PassState = PassState(
    results: seq<ParsedTransaction>, current: Option<Record>, inAnnotation: bool, describing: bool)

  const START := PassState([], None, false, false)

  function Closed(s: PassState, rules: Rules): seq<ParsedTransaction> {
    match s.current
    case None => s.results
    case Some(r) => s.results + [Finalize(r, |s.results|, rules)]
  }

  /** What a body line does. */
  function Step(s: PassState, line: Line, b: ColumnBounds, rules: Rules): PassState
    requires line != []
  {
    if StartsTransaction(line, b) then PassState(Closed(s, rules), Some(RecordOf(line, b)), false, false)
    else
      var tag := LineLabel(line);
      if tag.Some? then
        var d := tag == Some(Description);
        s.(inAnnotation := true, describing := d,
           current := if d && s.current.Some? then Some(Described(s.current.value, line, b)) else s.current)
      else if s.describing && s.current.Some? then s.(current := Some(Described(s.current.value, line, b)))
      else if s.inAnnotation || s.current.None? then s
      else s.(current := Some(Extended(s.current.value, line, b)))
  }

  function Run(s: PassState, lines: seq<Line>, b: ColumnBounds, rules: Rules): PassState
    requires NonEmptyLines(lines)
    decreases |lines|
  {
    if lines == [] then s else Run(Step(s, lines[0], b, rules), lines[1..], b, rules)
  }

  // ---- the pass refines the segmentation ----

  lemma {:induction false} SegmentsNonEmptyLines(lines: seq<Line>, b: ColumnBounds)
    requires NonEmptyLines(lines)
    ensures WellFormed(Segments(lines, b))
    decreases |lines|
  {
    hide StartsTransaction, TailLength, Segments;
    var k := TailLength(lines, b);
    if k < |lines| {
      var n := 1 + TailLength(lines[k + 1..], b);
      SegmentsNonEmptyLines(lines[k + n..], b);
      SegmentsUnfold(lines, b);
    } else {
      NoneToSegment(lines, b);
    }
  }

  lemma {:induction false} NoneToSegment(lines: seq<Line>, b: ColumnBounds)
    requires TailLength(lines, b) == |lines|
    ensures Segments(lines, b) == []
  {
  }

  lemma {:induction false} RunConcat(s: PassState, x: seq<Line>, y: seq<Line>, b: ColumnBounds, rules: Rules)
    requires NonEmptyLines(x) && NonEmptyLines(y)
    decreases |x|
    ensures NonEmptyLines(x + y) && Run(s, x + y, b, rules) == Run(Run(s, x, b, rules), y, b, rules)
  {
    if x == [] {
      assert x + y == y;
    } else {
      assert (x + y)[1..] == x[1..] + y;
      RunConcat(Step(s, x[0], b, rules), x[1..], y, b, rules);
    }
  }

  /** Lines before any record is open leave no trace in the results. */
  lemma {:induction false} RunUnopened(s: PassState, lines: seq<Line>, b: ColumnBounds, rules: Rules)
    requires NonEmptyLines(lines) && NoStarts(lines, b) && s.current.None?
    decreases |lines|
    ensures var t := Run(s, lines, b, rules); t.results == s.results && t.current.None?
  {
    if lines != [] {
      RunUnopened(Step(s, lines[0], b, rules), lines[1..], b, rules);
    }
  }

  /** Inside an annotation block only a description collects words. */
  lemma {:induction false} RunAnnotated(s: PassState, lines: seq<Line>, b: ColumnBounds, rules: Rules)
    requires NonEmptyLines(lines) && NoStarts(lines, b) && s.current.Some? && s.inAnnotation
    decreases |lines|
    ensures var t := Run(s, lines, b, rules);
            && t.results == s.results
            && t.current == Some(s.current.value.(
                 description := s.current.value.description + DescriptionWords(lines, b, s.describing)))
  {
    Unit(s.current.value.description);
    if lines != [] {
      var s' := Step(s, lines[0], b, rules);
      RunAnnotated(s', lines[1..], b, rules);
      var d := if LineLabel(lines[0]).Some? then LineLabel(lines[0]) == Some(Description) else s.describing;
      var words := if d then Picked(lines[0], b, Content) else [];
      assert s'.describing == d && s'.current.value.description == s.current.value.description + words;
      Assoc(s.current.value.description, words, DescriptionWords(lines[1..], b, d));
    }
  }

  lemma {:induction false} Unit<T>(x: seq<T>)
    ensures x + [] == x
  {
  }

  /** From a freshly opened record to the next start. */
  lemma {:induction false} RunTail(s: PassState, lines: seq<Line>, b: ColumnBounds, rules: Rules)
    requires NonEmptyLines(lines) && NoStarts(lines, b)
    requires s.current.Some? && !s.inAnnotation && !s.describing
    decreases |lines|
    ensures var t := Run(s, lines, b, rules);
            var wrapped := lines[..UnlabelledLength(lines)];
            var r := s.current.value;
            && t.results == s.results
            && t.current == Some(r.(asset := r.asset + Gather(wrapped, b, MoreAsset),
                                    amount := r.amount + Gather(wrapped, b, MoreAmount),
                                    description := r.description + DescriptionWords(lines, b, false)))
  {
    var r := s.current.value;
    Unit(r.asset);
    Unit(r.amount);
    Unit(r.description);
    if lines != [] {
      var s' := Step(s, lines[0], b, rules);
      if LineLabel(lines[0]).Some? {
        RunAnnotated(s', lines[1..], b, rules);
        var words := if s'.describing then Picked(lines[0], b, Content) else [];
        assert s'.current.value.description == r.description + words;
        Assoc(r.description, words, DescriptionWords(lines[1..], b, s'.describing));
      } else {
        RunTail(s', lines[1..], b, rules);
        assert DescriptionWords(lines, b, false) == DescriptionWords(lines[1..], b, false);
        var n := UnlabelledLength(lines);
        var wrapped := lines[1..][..n - 1];
        assert lines[..n][1..] == wrapped && lines[..n][0] == lines[0];
        Assoc(r.asset, Picked(lines[0], b, MoreAsset), Gather(wrapped, b, MoreAsset));
        Assoc(r.amount, Picked(lines[0], b, MoreAmount), Gather(wrapped, b, MoreAmount));
      }
    }
  }

  lemma {:induction false} NoDescriptionYet(line: Line, b: ColumnBounds)
    ensures RecordOf(line, b).description == []
  {
  }

  /** Opening a record and reading to the next start yields the record of that segment. */
  lemma {:induction false} RunSegment(s: PassState, seg: seq<Line>, b: ColumnBounds, rules: Rules)
    requires seg != [] && NonEmptyLines(seg) && StartsTransaction(seg[0], b) && NoStarts(seg[1..], b)
    ensures var t := Run(s, seg, b, rules);
            t.results == Closed(s, rules) && t.current == Some(RecordOfSegment(seg, b))
  {
    hide Finalize, RecordOf, StartsTransaction;
    NoDescriptionYet(seg[0], b);
    var begun := Step(s, seg[0], b, rules);
    RunTail(begun, seg[1..], b, rules);
    assert [] + DescriptionWords(seg[1..], b, false) == DescriptionWords(seg[1..], b, false);
  }

  /** Lines before the first start leave nothing behind. */
  lemma {:induction false} RunToFirstStart(s: PassState, lines: seq<Line>, b: ColumnBounds, rules: Rules)
    requires NonEmptyLines(lines)
    requires s.current.None? || TailLength(lines, b) == 0
    ensures var k := TailLength(lines, b);
            var t := Run(s, lines[..k], b, rules);
            Closed(t, rules) == Closed(s, rules) && Run(s, lines, b, rules) == Run(t, lines[k..], b, rules)
  {
    hide StartsTransaction;
    var k := TailLength(lines, b);
    TailLengthExact(lines, b);
    assert lines == lines[..k] + lines[k..];
    RunConcat(s, lines[..k], lines[k..], b, rules);
    if k > 0 {
      RunUnopened(s, lines[..k], b, rules);
    }
  }

  lemma {:induction false} RunFirstSegment(t: PassState, lines: seq<Line>, k: nat, n: nat, b: ColumnBounds,
                                           rules: Rules)
    requires NonEmptyLines(lines) && k < |lines| && k == TailLength(lines, b)
    requires n == 1 + TailLength(lines[k + 1..], b)
    ensures k + n <= |lines| && TailLength(lines[k + n..], b) == 0
    ensures var seg, rest := lines[k..k + n], lines[k + n..];
            var u := Run(t, seg, b, rules);
            && Run(t, lines[k..], b, rules) == Run(u, rest, b, rules)
            && Closed(u, rules) == Closed(t, rules) + [Finalize(RecordOfSegment(seg, b), |Closed(t, rules)|, rules)]
  {
    hide Finalize, RecordOfSegment, Run, StartsTransaction;
    TailLengthExact(lines, b);
    TailLengthExact(lines[k + 1..], b);
    var seg, rest := lines[k..k + n], lines[k + n..];
    assert lines[k..] == seg + rest;
    assert seg[1..] == lines[k + 1..][..n - 1] && rest == lines[k + 1..][n - 1..];
    RunConcat(t, seg, rest, b, rules);
    RunSegment(t, seg, b, rules);
  }

  lemma {:induction false} RunSegments(s: PassState, lines: seq<Line>, b: ColumnBounds, rules: Rules)
    requires NonEmptyLines(lines)
    requires s.current.None? || TailLength(lines, b) == 0
    decreases |lines|
    ensures WellFormed(Segments(lines, b))
    ensures Closed(Run(s, lines, b, rules), rules)
            == Closed(s, rules) + Transactions(Segments(lines, b), |Closed(s, rules)|, b, rules)
  {
    hide Finalize, RecordOfSegment, Run, StartsTransaction, Closed, Segments, Transactions, TailLength;
    SegmentsNonEmptyLines(lines, b);
    RunToFirstStart(s, lines, b, rules);
    var k := TailLength(lines, b);
    var t := Run(s, lines[..k], b, rules);
    if k < |lines| {
      var n := 1 + TailLength(lines[k + 1..], b);
      RunFirstSegment(t, lines, k, n, b, rules);
      var seg, rest := lines[k..k + n], lines[k + n..];
      SegmentsUnfold(lines, b);
      RunSegments(Run(t, seg, b, rules), rest, b, rules);
      ConsTransactions(Closed(s, rules), seg, Segments(rest, b), b, rules);
    } else {
      NoSegments(s, lines, t, b, rules);
    }
  }

  lemma {:induction false} SegmentsUnfold(lines: seq<Line>, b: ColumnBounds)
    requires TailLength(lines, b) < |lines|
    ensures var k := TailLength(lines, b);
            var n := 1 + TailLength(lines[k + 1..], b);
            Segments(lines, b) == [lines[k..k + n]] + Segments(lines[k + n..], b)
  {
    hide StartsTransaction, TailLength;
  }

  lemma {:induction false} NoSegments(s: PassState, lines: seq<Line>, t: PassState, b: ColumnBounds, rules: Rules)
    requires NonEmptyLines(lines) && TailLength(lines, b) == |lines|
    requires Closed(t, rules) == Closed(s, rules)
    ensures Segments(lines, b) == [] && lines[|lines|..] == []
    ensures Closed(Run(t, [], b, rules), rules) == Closed(s, rules) + Transactions([], |Closed(s, rules)|, b, rules)
  {
    Unit(Closed(s, rules));
  }

  lemma {:induction false} ConsTransactions(before: seq<ParsedTransaction>, seg: seq<Line>, segs: seq<seq<Line>>,
                                            b: ColumnBounds, rules: Rules)
    requires seg != [] && NonEmptyLines(seg) && WellFormed(segs)
    ensures WellFormed([seg] + segs)
    ensures before + Transactions([seg] + segs, |before|, b, rules)
            == (before + [Finalize(RecordOfSegment(seg, b), |before|, rules)])
                + Transactions(segs, |before| + 1, b, rules)
  {
    assert ([seg] + segs)[1..] == segs;
    Assoc(before, [Finalize(RecordOfSegment(seg, b), |before|, rules)], Transactions(segs, |before| + 1, b, rules));
  }

  /** The pass from the start of a document computes the segmentation. */
  lemma {:induction false} PassIsSegmentation(pages: seq<seq<Word>>, rules: Rules)
    ensures NonEmptyLines(Body(pages))
    ensures Closed(Run(START, Body(pages), DetectColumnBounds(pages), rules), rules) == Parsed(pages, rules)
  {
    BodyNonEmpty(pages);
    RunSegments(START, Body(pages), DetectColumnBounds(pages), rules);
  }

  // ---- the method ----

  /** The state of the pass held in local variables. */
  function StateOf(results: seq<ParsedTransaction>, current: OpenRecord?, inAnnotation: bool,
                   describing: bool): PassState
    reads current
  {
    PassState(results, if current == null then None else Some(current.View()), inAnnotation, describing)
  }

  /** The body lines still to come on a page. */
  function Remaining(lines: seq<Line>, pastFooter: bool): seq<Line> {
    if pastFooter then [] else BodyOf(lines)
  }

  /** From state `s`, with `rest` to come, the pass ends as it would from the beginning. */
  ghost predicate OnTrack(s: PassState, rest: seq<Line>, pages: seq<seq<Word>>, b: ColumnBounds, rules: Rules) {
    NonEmptyLines(rest) && Closed(Run(s, rest, b, rules), rules) == Parsed(pages, rules)
  }

  lemma {:induction false} BeginDocument(pages: seq<seq<Word>>, rules: Rules)
    ensures OnTrack(START, Body(pages[0..]), pages, DetectColumnBounds(pages), rules)
  {
    hide Run, Parsed, Body;
    PassIsSegmentation(pages, rules);
    assert pages[0..] == pages;
  }

  lemma {:induction false} NextPage(pages: seq<seq<Word>>, p: nat, lines: seq<Line>)
    requires p < |pages| && lines == Grouped(pages[p])
    ensures Body(pages[p..]) == Remaining(lines[0..], false) + Body(pages[p + 1..])
  {
    assert pages[p..][1..] == pages[p + 1..];
    assert lines[0..] == lines;
  }

  lemma {:induction false} SkipLine(lines: seq<Line>, k: nat, pastFooter: bool, later: seq<Line>)
    requires k < |lines|
    requires pastFooter || IsHeaderLine(LineText(lines[k]))
    ensures Remaining(lines[k..], pastFooter) + later == Remaining(lines[k + 1..], pastFooter) + later
  {
    assert lines[k..][1..] == lines[k + 1..];
  }

  lemma {:induction false} ReadLine(lines: seq<Line>, k: nat, later: seq<Line>, s: PassState,
                 pages: seq<seq<Word>>, b: ColumnBounds, rules: Rules)
    requires k < |lines| && !IsHeaderLine(LineText(lines[k])) && !IsFooterLine(LineText(lines[k]))
    requires OnTrack(s, BodyOf(lines[k..]) + later, pages, b, rules)
    ensures lines[k] != []
    ensures OnTrack(Step(s, lines[k], b, rules), BodyOf(lines[k + 1..]) + later, pages, b, rules)
  {
    hide IsHeaderLine, IsFooterLine, Step, Parsed, Closed;
    assert lines[k..][1..] == lines[k + 1..];
    var rest := BodyOf(lines[k..]) + later;
    assert rest[0] == lines[k] && rest[1..] == BodyOf(lines[k + 1..]) + later;
  }

  method ParsePtrTransactions(pages: seq<seq<Word>>, rules: Rules) returns (results: seq<ParsedTransaction>)
    ensures results == Parsed(pages, rules)
  {
    hide OnTrack, Body, BodyOf, IsHeaderLine, IsFooterLine, RecordOf, StartsTransaction, Grouped;
    hide DetectColumnBounds, Finalize, Extended, Described, AnnotationLabel;
    var b := DetectColumnBounds(pages);
    results := [];
    var current: OpenRecord? := null;
    var inAnnotation := false;
    var describing := false;
    var rowIndex := 0;
    BeginDocument(pages, rules);
    for p := 0 to |pages|
      invariant current != null ==> fresh(current)
      invariant rowIndex == |results|
      invariant OnTrack(StateOf(results, current, inAnnotation, describing), Body(pages[p..]), pages, b, rules)
    {
      var pastFooter := false;
      var lines := GroupLines(pages[p]);
      ghost var later := Body(pages[p + 1..]);
      NextPage(pages, p, lines);
      for k := 0 to |lines|
        invariant current != null ==> fresh(current)
        invariant rowIndex == |results|
        invariant OnTrack(StateOf(results, current, inAnnotation, describing),
                          Remaining(lines[k..], pastFooter) + later, pages, b, rules)
      {
        var line := lines[k];
        var lineText := LineText(line);
        if IsHeaderLine(lineText) {
          SkipLine(lines, k, pastFooter, later);
          continue;
        }
        if IsFooterLine(lineText) {
          FooterEnds(lines, k);
          pastFooter := true;
          continue;
        }
        if pastFooter {
          SkipLine(lines, k, pastFooter, later);
          continue;
        }
        ReadLine(lines, k, later, StateOf(results, current, inAnnotation, describing), pages, b, rules);
        if StartsTransaction(line, b) {
          if current != null {
            results := results + [Finalize(current.View(), rowIndex, rules)];
            rowIndex := rowIndex + 1;
          }
          current := new OpenRecord.FromLine(line, b);
          inAnnotation := false;
          describing := false;
          continue;
        }
        var tag := AnnotationLabel(line[0].text);
        if tag.Some? {
          inAnnotation := true;
          describing := tag == Some(Description);
          if describing && current != null {
            current.AddDescriptionWords(line, b);
          }
          continue;
        }
        if describing && current != null {
          current.AddDescriptionWords(line, b);
          continue;
        }
        if inAnnotation {
          continue;
        }
        if current != null {
          current.Extend(line, b);
        }
      }
      EndOfPage(lines, pastFooter, later);
    }
    EndOfDocument(pages, StateOf(results, current, inAnnotation, describing), b, rules);
    if current != null {
      results := results + [Finalize(current.View(), rowIndex, rules)];
    }
  }

  lemma {:induction false} EndOfPage(lines: seq<Line>, pastFooter: bool, later: seq<Line>)
    ensures Remaining(lines[|lines|..], pastFooter) + later == later
  {
  }

  lemma {:induction false} EndOfDocument(pages: seq<seq<Word>>, s: PassState, b: ColumnBounds, rules: Rules)
    requires OnTrack(s, Body(pages[|pages|..]), pages, b, rules)
    ensures Closed(s, rules) == Parsed(pages, rules)
  {
  }

  lemma {:induction false} FooterEnds(lines: seq<Line>, k: nat)
    requires k < |lines| && !IsHeaderLine(LineText(lines[k])) && IsFooterLine(LineText(lines[k]))
    ensures BodyOf(lines[k..]) == []
  {
  }
}
