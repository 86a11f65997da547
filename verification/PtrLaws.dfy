/** Laws of the PTR pass that hold for every document. */
module PtrLaws {
  import opened Optional
  import opened Text
  import opened Lines
  import opened PtrParser
  import opened PtrPass

  // ---- transaction types ----

  /** No column boundary cuts into the transaction-type zone from the left. */
  predicate TypeZoneClear(b: ColumnBounds) {
    b.idMax <= b.assetMax && b.ownerMax <= b.assetMax
  }

  lemma {:induction false} PickedMember(line: Line, b: ColumnBounds, pick: Pick, t: string)
    ensures t in Picked(line, b, pick) <==> exists i | 0 <= i < |line| :: Picks(pick, line[i], b) && line[i].text == t
  {
    hide Picks;
    if line != [] {
      var n := |line| - 1;
      PickedMember(line[..n], b, pick, t);
      forall i | 0 <= i < n ensures line[..n][i] == line[i] {}
    }
  }

  lemma {:induction false} LastPassingExists(texts: seq<string>, test: Test, t: string)
    requires t in texts && Passes(test, t)
    ensures LastPassing(texts, test).Some?
  {
    hide Passes;
    var n := |texts| - 1;
    if !Passes(test, texts[n]) {
      assert texts == texts[..n] + [texts[n]];
      LastPassingExists(texts[..n], test, t);
    }
  }

  lemma {:induction false} LastPassingPasses(texts: seq<string>, test: Test)
    ensures LastPassing(texts, test).Some? ==> Passes(test, LastPassing(texts, test).value)
  {
    hide Passes;
    if texts != [] {
      LastPassingPasses(texts[..|texts| - 1], test);
    }
  }

  /** A start line opens a record of a known type exactly when its type letter is in the zone
      the word-by-word chain gives it. */
  lemma {:induction false} StartLineType(line: Line, b: ColumnBounds)
    requires StartsTransaction(line, b) && TypeZoneClear(b)
    ensures TypeOf(RecordOf(line, b).txType, RecordOf(line, b).partial).Some?
  {
    hide OwnerField, DateField, AnyPartial, LastPassing, Picked;
    var i :| 0 <= i < |line| && b.assetMax <= line[i].x0 < b.typeMax && IsTypeLetter(line[i].text);
    var texts := Picked(line, b, Zoned(TypeZone));
    assert Picks(Zoned(TypeZone), line[i], b);
    PickedMember(line, b, Zoned(TypeZone), line[i].text);
    LastPassingExists(texts, TypeTest, line[i].text);
    LastPassingPasses(texts, TypeTest);
    assert IsTypeLetter(LastPassing(texts, TypeTest).value);
  }

  /** The columns for which every start line opens a record of a known type: those without a
      type zone, and those whose type zone no other column cuts into. */
  lemma {:induction false} TypesKnownIff(b: ColumnBounds)
    ensures (forall line | StartsTransaction(line, b) ::
               TypeOf(RecordOf(line, b).txType, RecordOf(line, b).partial).Some?)
            <==> b.assetMax >= b.typeMax || TypeZoneClear(b)
  {
    if b.assetMax < b.typeMax && !TypeZoneClear(b) {
      var line := [Word("P", b.assetMax, 0.0)];
      assert line[..0] == [];
      assert Upper("P") == "P";
      assert b.assetMax <= line[0].x0 < b.typeMax && IsTypeLetter(line[0].text);
      assert StartsTransaction(line, b);
      assert ZoneOf(b.assetMax, b) != TypeZone;
      assert !Picks(Zoned(TypeZone), line[0], b);
      assert Picked(line, b, Zoned(TypeZone)) == [];
    } else if TypeZoneClear(b) {
      forall line | StartsTransaction(line, b)
        ensures TypeOf(RecordOf(line, b).txType, RecordOf(line, b).partial).Some?
      {
        StartLineType(line, b);
      }
    }
  }

  lemma {:induction false} SegmentsStart(lines: seq<Line>, b: ColumnBounds, i: nat)
    requires i < |Segments(lines, b)|
    ensures Segments(lines, b)[i] != [] && StartsTransaction(Segments(lines, b)[i][0], b)
    decreases |lines|
  {
    hide StartsTransaction, TailLength;
    var k := TailLength(lines, b);
    TailLengthExact(lines, b);
    var n := 1 + TailLength(lines[k + 1..], b);
    if i > 0 {
      SegmentsStart(lines[k + n..], b, i - 1);
    }
  }

  /** Every parsed row has a known type, so saving it never flags an unknown one. */
  lemma {:induction false} ParsedTypesKnown(pages: seq<seq<Word>>, rules: Rules)
    requires TypeZoneClear(DetectColumnBounds(pages))
    ensures forall i | 0 <= i < |Parsed(pages, rules)| :: Parsed(pages, rules)[i].txType.Some?
  {
    hide RecordOf, StartsTransaction, Body, Segments, DetectColumnBounds, TypeZoneClear;
    var b := DetectColumnBounds(pages);
    var segs := Segments(Body(pages), b);
    BodyNonEmpty(pages);
    SegmentsNonEmptyLines(Body(pages), b);
    forall i | 0 <= i < |segs| ensures Parsed(pages, rules)[i].txType.Some? {
      TransactionAt(segs, 0, b, rules, i);
      SegmentsStart(Body(pages), b, i);
      StartLineType(segs[i][0], b);
    }
  }

  /** Rows are numbered 0, 1, 2, ... in reading order. */
  lemma {:induction false} ParsedRowIndex(pages: seq<seq<Word>>, rules: Rules, i: nat)
    requires i < |Parsed(pages, rules)|
    ensures Parsed(pages, rules)[i].rowIndex == i
  {
    hide RecordOf, RecordOfSegment, Body, Segments, DetectColumnBounds;
    var b := DetectColumnBounds(pages);
    BodyNonEmpty(pages);
    SegmentsNonEmptyLines(Body(pages), b);
    TransactionAt(Segments(Body(pages), b), 0, b, rules, i);
  }

  // ---- locality ----

  /** Lines before the first start produce nothing. */
  lemma {:induction false} PreambleIgnored(preamble: seq<Line>, lines: seq<Line>, b: ColumnBounds)
    requires NoStarts(preamble, b)
    requires lines == [] || StartsTransaction(lines[0], b)
    ensures Segments(preamble + lines, b) == Segments(lines, b)
  {
    hide StartsTransaction, TailLength;
    TailLengthIs(preamble + lines, b, |preamble|);
    TailLengthIs(lines, b, 0);
    if lines != [] {
      FirstSegment(preamble, lines, b);
      assert [] + lines == lines;
      FirstSegment([], lines, b);
    }
  }

  /** The first segment starts right after the preamble. */
  lemma {:induction false} FirstSegment(preamble: seq<Line>, lines: seq<Line>, b: ColumnBounds)
    requires lines != [] && TailLength(preamble + lines, b) == |preamble|
    ensures var n := 1 + TailLength(lines[1..], b);
            Segments(preamble + lines, b) == [lines[..n]] + Segments(lines[n..], b)
  {
    hide StartsTransaction, TailLength, Segments;
    var all, p := preamble + lines, |preamble|;
    assert all[p + 1..] == lines[1..];
    var n := 1 + TailLength(lines[1..], b);
    assert all[p..p + n] == lines[..n];
    assert all[p + n..] == lines[n..];
    SegmentsUnfold(all, b);
  }

  lemma {:induction false} TailLengthIs(lines: seq<Line>, b: ColumnBounds, n: nat)
    requires n <= |lines|
    requires forall i | 0 <= i < n :: !StartsTransaction(lines[i], b)
    requires n < |lines| ==> StartsTransaction(lines[n], b)
    ensures TailLength(lines, b) == n
  {
    hide StartsTransaction;
    if n > 0 {
      TailLengthIs(lines[1..], b, n - 1);
    }
  }

  // ---- annotation blocks ----

  /** The same transaction, apart from what a description block contributes. */
  predicate SameButOption(s: ParsedTransaction, t: ParsedTransaction) {
    s == t.(option := s.option)
  }

  predicate SameRecord(r: Option<Record>, q: Option<Record>) {
    (r.None? && q.None?) || (r.Some? && q.Some? && r.value == q.value.(description := r.value.description))
  }

  predicate SameTransactions(xs: seq<ParsedTransaction>, ys: seq<ParsedTransaction>) {
    |xs| == |ys| && forall i | 0 <= i < |xs| :: SameButOption(xs[i], ys[i])
  }

  /** Two states of the pass that differ at most in a description block. */
  predicate Alike(s: PassState, t: PassState) {
    && SameTransactions(s.results, t.results)
    && SameRecord(s.current, t.current)
    && s.inAnnotation == t.inAnnotation
    && (s.describing == t.describing || s.inAnnotation)
  }

  lemma {:induction false} FinalizeAlike(r: Record, q: Record, i: nat, rules: Rules)
    requires r == q.(description := r.description)
    ensures SameButOption(Finalize(r, i, rules), Finalize(q, i, rules))
  {
  }

  lemma {:induction false} ClosedAlike(s: PassState, t: PassState, rules: Rules)
    requires Alike(s, t)
    ensures SameTransactions(Closed(s, rules), Closed(t, rules))
  {
    hide Finalize;
    if s.current.Some? {
      FinalizeAlike(s.current.value, t.current.value, |s.results|, rules);
    }
  }

  lemma {:induction false} StepAlike(s: PassState, t: PassState, line: Line, b: ColumnBounds, rules: Rules)
    requires Alike(s, t) && line != []
    ensures Alike(Step(s, line, b, rules), Step(t, line, b, rules))
  {
    hide Finalize, RecordOf, StartsTransaction, AnnotationLabel, Picked, Closed;
    ClosedAlike(s, t, rules);
  }

  lemma {:induction false} RunAlike(s: PassState, t: PassState, lines: seq<Line>, b: ColumnBounds, rules: Rules)
    requires Alike(s, t) && NonEmptyLines(lines)
    ensures Alike(Run(s, lines, b, rules), Run(t, lines, b, rules))
    decreases |lines|
  {
    hide Alike, Step;
    if lines != [] {
      StepAlike(s, t, lines[0], b, rules);
      RunAlike(Step(s, lines[0], b, rules), Step(t, lines[0], b, rules), lines[1..], b, rules);
    }
  }

  lemma {:induction false} SealedAlike(s: PassState, lines: seq<Line>, b: ColumnBounds, rules: Rules)
    requires NonEmptyLines(lines) && NoStarts(lines, b) && s.inAnnotation
    ensures Alike(Run(s, lines, b, rules), s)
    decreases |lines|
  {
    hide Finalize, RecordOf, StartsTransaction, AnnotationLabel, Picked;
    if lines != [] {
      SealedAlike(Step(s, lines[0], b, rules), lines[1..], b, rules);
      assert Alike(Step(s, lines[0], b, rules), s);
    }
  }

  /** After an annotation label, whatever lines come before the next start (on this page or a
      later one), every transaction of the document keeps all its fields but the option details. */
  lemma {:induction false} AnnotationSeals(before: seq<Line>, labelled: Line, noise: seq<Line>, after: seq<Line>,
                        b: ColumnBounds, rules: Rules)
    requires NonEmptyLines(before) && NonEmptyLines(noise) && NonEmptyLines(after)
    requires labelled != [] && LineLabel(labelled).Some? && !StartsTransaction(labelled, b) && NoStarts(noise, b)
    ensures NonEmptyLines(before + [labelled] + noise + after) && NonEmptyLines(before + [labelled] + after)
    ensures SameTransactions(
              Closed(Run(START, before + [labelled] + noise + after, b, rules), rules),
              Closed(Run(START, before + [labelled] + after, b, rules), rules))
  {
    hide Finalize, RecordOf, StartsTransaction, AnnotationLabel, Picked, Closed;
    var s := Run(START, before, b, rules);
    RunConcat(START, before, [labelled], b, rules);
    var t := Run(START, before + [labelled], b, rules);
    assert t == Step(s, labelled, b, rules);
    RunConcat(START, before + [labelled], noise, b, rules);
    RunConcat(START, before + [labelled] + noise, after, b, rules);
    RunConcat(START, before + [labelled], after, b, rules);
    SealedAlike(t, noise, b, rules);
    RunAlike(Run(t, noise, b, rules), t, after, b, rules);
    ClosedAlike(Run(Run(t, noise, b, rules), after, b, rules), Run(t, after, b, rules), rules);
  }
}
