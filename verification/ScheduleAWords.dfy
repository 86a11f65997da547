/** How the lines of an annual report are printed, and what the Schedule A parser takes them for. */
module ScheduleAWords {
  import opened Optional
  import opened Text
  import opened Lines
  import opened ScheduleA
  import P = PtrParser
  import W = PtrWords

  // ---- section headings ----

  /** "Schedule" in any letter case, or its initial and one or more NULs. */
  predicate PrintsSchedule(text: string) {
    || Lower(text) == "schedule"
    || (|text| >= 2 && LowerChar(text[0]) == 's' && forall i | 1 <= i < |text| :: text[i] == NUL)
  }

  /** The letter in either case, and one or more colons. */
  predicate PrintsLetter(text: string, letter: string) {
    && W.PrintsPlain(text, letter) && |letter| < |text|
    && (letter == "" || letter[|letter| - 1] != ':')
  }

  predicate IsHeadingOf(line: Line, letter: string) {
    |line| >= 2 && PrintsSchedule(line[0].text) && PrintsLetter(line[1].text, letter)
  }

  predicate IsHeading(line: Line) {
    |line| >= 2 && PrintsSchedule(line[0].text) && line[1].text != "" && line[1].text[|line[1].text| - 1] == ':'
  }

  lemma {:induction false} ScheduleIff(text: string)
    ensures PrintsSchedule(text)
       <==> Lower(text) == "schedule"
            || (|text| > 1 && text[0] in "Ss" && forall i | 1 <= i < |text| :: text[i] == NUL)
  {
    if text != "" {
      assert text[0] in "Ss" <==> LowerChar(text[0]) == 's';
    }
  }

  lemma {:induction false} EndsInColon(text: string)
    ensures EndsWith(text, ":") <==> text != "" && text[|text| - 1] == ':'
  {
    if text != "" {
      assert text[|text| - 1..] == [text[|text| - 1]];
    }
  }

  lemma {:induction false} LetterIff(text: string, letter: string)
    ensures EndsWith(text, ":") && Lower(StripColons(text)) == letter <==> PrintsLetter(text, letter)
  {
    hide StripColons;
    EndsInColon(text);
    W.Stripped(text);
    if letter == "" || letter[|letter| - 1] != ':' {
      W.PlainIff(text, letter);
      if W.PrintsPlain(text, letter) && |letter| == |text| && text != "" {
        assert text[..|letter|] == text;
        assert Lower(text)[|text| - 1] == LowerChar(text[|text| - 1]);
      }
    }
  }

  /** A line opens the section of a letter exactly when it is printed as its heading, either way. */
  lemma {:induction false} HeadingIff(line: Line, letter: string)
    ensures ScheduleLetter(line) == Some(letter) <==> IsHeadingOf(line, letter)
  {
    hide StripColons, Lower, EndsWith, PrintsLetter;
    if |line| >= 2 {
      ScheduleIff(line[0].text);
      LetterIff(line[1].text, letter);
    }
  }

  lemma {:induction false} NoHeadingIff(line: Line)
    ensures ScheduleLetter(line).None? <==> !IsHeading(line)
  {
    hide StripColons, Lower;
    if |line| >= 2 {
      ScheduleIff(line[0].text);
      EndsInColon(line[1].text);
    }
  }

  // ---- annotations ----

  /** The name in any letter case, and then the end of the word or of its letters. */
  predicate BeginsWithName(text: string, name: string) {
    && |name| <= |text| && Lower(text[..|name|]) == name
    && (|text| == |name| || !IsWordChar(text[|name|]))
  }

  predicate IsAnnotationWord(text: string) {
    || NUL in text
    || BeginsWithName(text, "description") || BeginsWithName(text, "location") || BeginsWithName(text, "subholding")
    || BeginsWithName(text, "comments") || BeginsWithName(text, "filing")
  }

  lemma {:induction false} BeginsIff(text: string, name: string)
    ensures BeginsWithWord(Lower(text), name) <==> BeginsWithName(text, name)
  {
    if |name| <= |text| {
      assert Lower(text)[..|name|] == Lower(text[..|name|]);
      if |name| < |text| {
        assert Lower(text)[|name|] == LowerChar(text[|name|]);
      }
    }
  }

  lemma {:induction false} AnnotationIff(text: string)
    ensures IsAnnotation(text) <==> IsAnnotationWord(text)
  {
    hide BeginsWithWord, BeginsWithName, Lower;
    BeginsIff(text, "description");
    BeginsIff(text, "location");
    BeginsIff(text, "subholding");
    BeginsIff(text, "comments");
    BeginsIff(text, "filing");
    assert ANNOTATIONS[0] == "description" && ANNOTATIONS[1] == "location" && ANNOTATIONS[2] == "subholding";
    assert ANNOTATIONS[3] == "comments" && ANNOTATIONS[4] == "filing";
  }

  // ---- the second header line and footnotes ----

  predicate StartsInAnyCase(text: string, prefix: string) {
    |prefix| <= |text| && Lower(text[..|prefix|]) == prefix
  }

  /** Lines that begin with "type(s)", a link or an asterisk. */
  predicate IsSkippedWord(text: string) {
    StartsInAnyCase(text, "type(s)") || StartsInAnyCase(text, "http") || StartsInAnyCase(text, "*")
  }

  lemma {:induction false} StartOfLine(line: Line, prefix: string)
    requires line != [] && prefix != "" && ' ' !in prefix
    ensures StartsWith(Lower(P.LineText(line)), prefix) <==> StartsInAnyCase(line[0].text, prefix)
  {
    var first, text := line[0].text, P.LineText(line);
    FirstWord(line);
    assert first <= text;
    if |prefix| <= |first| {
      assert text[..|prefix|] == first[..|prefix|];
      assert Lower(text)[..|prefix|] == Lower(text[..|prefix|]);
    } else {
      assert prefix[|first|] in prefix;
      if |text| > |first| {
        assert Lower(text)[|first|] == LowerChar(text[|first|]) == ' ';
      }
    }
  }

  lemma {:induction false} FirstWord(line: Line)
    requires line != []
    ensures line[0].text <= P.LineText(line)
    ensures |P.LineText(line)| > |line[0].text| ==> P.LineText(line)[|line[0].text|] == ' '
  {
    var words := P.Texts(line);
    if |words| > 1 {
      assert Join(words) == words[0] + " " + Join(words[1..]);
    }
  }

  lemma {:induction false} SkippedIff(line: Line)
    requires line != []
    ensures IsSkipped(line) <==> IsSkippedWord(line[0].text)
  {
    hide P.LineText;
    StartOfLine(line, "type(s)");
    StartOfLine(line, "http");
    StartOfLine(line, "*");
    Asterisk(P.LineText(line));
  }

  lemma {:induction false} Asterisk(text: string)
    ensures StartsWith(text, "*") <==> StartsWith(Lower(text), "*")
  {
    if text != "" {
      assert Lower(text)[0] == LowerChar(text[0]);
      assert text[..1] == [text[0]] && Lower(text)[..1] == [Lower(text)[0]];
    }
  }

  // ---- the header row ----

  predicate Spelled(line: Line, name: string) {
    exists i | 0 <= i < |line| :: Lower(line[i].text) == name
  }

  predicate SpelledTwice(line: Line, name: string) {
    exists i, j | 0 <= i < j < |line| :: Lower(line[i].text) == name && Lower(line[j].text) == name
  }

  /** The row begins with "asset" and has the words of the other columns, "income" twice. */
  predicate HasTableWords(line: Line) {
    && line != [] && Lower(line[0].text) == "asset" && Spelled(line, "owner") && Spelled(line, "value")
    && SpelledTwice(line, "income") && Spelled(line, "tx.")
  }

  lemma {:induction false} SpelledRest(line: Line, name: string)
    requires line != []
    ensures Spelled(line, name) <==> Lower(line[0].text) == name || Spelled(line[1..], name)
    ensures SpelledTwice(line, name)
       <==> (Lower(line[0].text) == name && Spelled(line[1..], name)) || SpelledTwice(line[1..], name)
  {
    hide Lower;
    var rest := line[1..];
    if i :| 0 <= i < |rest| && Lower(rest[i].text) == name {
      assert line[i + 1] == rest[i];
    }
    if i :| 0 <= i < |line| && Lower(line[i].text) == name {
      assert i > 0 ==> rest[i - 1] == line[i];
    }
    if i, j :| 0 <= i < j < |rest| && Lower(rest[i].text) == name && Lower(rest[j].text) == name {
      assert line[i + 1] == rest[i] && line[j + 1] == rest[j];
    }
    if i, j :| 0 <= i < j < |line| && Lower(line[i].text) == name && Lower(line[j].text) == name {
      assert rest[j - 1] == line[j];
      assert i > 0 ==> rest[i - 1] == line[i];
    }
  }

  lemma {:induction false} OccurrencesIff(line: Line, name: string)
    ensures Occurrences(line, name) != [] <==> Spelled(line, name)
    ensures |Occurrences(line, name)| >= 2 <==> SpelledTwice(line, name)
  {
    hide Lower, Spelled, SpelledTwice;
    if line == [] {
      NothingSpelled(name);
    } else {
      OccurrencesIff(line[1..], name);
      SpelledRest(line, name);
    }
  }

  lemma {:induction false} NothingSpelled(name: string)
    ensures !Spelled([], name) && !SpelledTwice([], name)
  {
  }

  lemma {:induction false} TextsSpelled(line: Line, name: string)
    ensures name in LowerTexts(line) <==> Spelled(line, name)
  {
    hide Lower;
    if name in LowerTexts(line) {
      var i :| 0 <= i < |LowerTexts(line)| && LowerTexts(line)[i] == name;
      assert Lower(line[i].text) == name;
    }
    if Spelled(line, name) {
      var i :| 0 <= i < |line| && Lower(line[i].text) == name;
      assert LowerTexts(line)[i] == name;
    }
  }

  /** A line gives the columns exactly when it has these words, in any letter case. */
  lemma {:induction false} TableIff(line: Line)
    ensures HeaderColumns(line).Some? <==> HasTableWords(line)
  {
    hide Lower, Occurrences, Spelled, SpelledTwice;
    TextsSpelled(line, "owner");
    TextsSpelled(line, "value");
    OccurrencesIff(line, "owner");
    OccurrencesIff(line, "value");
    OccurrencesIff(line, "income");
    OccurrencesIff(line, "tx.");
  }

  /** The first word spelled `name` from `from` on. */
  predicate FirstFrom(line: Line, name: string, from: nat, i: nat) {
    from <= i < |line| && Lower(line[i].text) == name && forall k | from <= k < i :: Lower(line[k].text) != name
  }

  lemma {:induction false} OccurrencesFrom(line: Line, name: string, i: nat)
    requires FirstFrom(line, name, 0, i)
    ensures Occurrences(line, name) == [line[i].x0] + Occurrences(line[i + 1..], name)
  {
    hide Lower;
    if i > 0 {
      OccurrencesFrom(line[1..], name, i - 1);
      assert line[1..][i..] == line[i + 1..];
    }
  }

  /** Each column begins three points left of its word: the first "owner", "value" and "tx." and the first
      two "income". */
  lemma {:induction false} ColumnsAre(line: Line, owner: nat, value: nat, incomeType: nat, income: nat, tx: nat)
    requires line != [] && Lower(line[0].text) == "asset"
    requires FirstFrom(line, "owner", 0, owner) && FirstFrom(line, "value", 0, value) && FirstFrom(line, "tx.", 0, tx)
    requires FirstFrom(line, "income", 0, incomeType) && FirstFrom(line, "income", incomeType + 1, income)
    ensures HeaderColumns(line)
         == Some(Columns(line[owner].x0 - 3.0, line[value].x0 - 3.0, line[incomeType].x0 - 3.0, line[income].x0 - 3.0,
                         line[tx].x0 - 3.0))
  {
    hide Lower, Occurrences;
    TextsSpelled(line, "owner");
    TextsSpelled(line, "value");
    OccurrencesFrom(line, "owner", owner);
    OccurrencesFrom(line, "value", value);
    OccurrencesFrom(line, "tx.", tx);
    OccurrencesFrom(line, "income", incomeType);
    OccurrencesFrom(line[incomeType + 1..], "income", income - incomeType - 1);
  }

  // ---- the cells of a line ----

  lemma {:induction false} InSnoc(line: Line, c: Columns, column: Column)
    requires line != []
    ensures var n := |line| - 1;
            In(line, c, column)
            == In(line[..n], c, column) + if Stands(line[n].x0, c, column) then [line[n].text] else []
  {
    hide Stands;
    var n := |line| - 1;
    if n == 0 {
      assert line[..0] == [] && line[1..] == [];
    } else {
      InSnoc(line[1..], c, column);
      assert line[1..][..n - 1] == line[..n][1..];
    }
  }

  /** Each column is what stands between its bound and the next one's; the asset column reaches to the left
      edge. */
  lemma {:induction false} CellsAre(line: Line, c: Columns)
    ensures In(line, c, AssetColumn) == W.Between(line, None, c.ownerX)
    ensures In(line, c, OwnerColumn) == W.Between(line, Some(c.ownerX), c.valueX)
    ensures In(line, c, ValueColumn) == W.Between(line, Some(c.valueX), c.incomeTypeX)
    ensures In(line, c, IncomeTypeColumn) == W.Between(line, Some(c.incomeTypeX), c.incomeX)
    ensures In(line, c, IncomeColumn) == W.Between(line, Some(c.incomeX), c.txX)
  {
    hide In;
    if line == [] {
      NoCells(c);
    } else {
      CellsAre(line[..|line| - 1], c);
      InSnoc(line, c, AssetColumn);
      InSnoc(line, c, OwnerColumn);
      InSnoc(line, c, ValueColumn);
      InSnoc(line, c, IncomeTypeColumn);
      InSnoc(line, c, IncomeColumn);
    }
  }

  lemma {:induction false} NoCells(c: Columns)
    ensures forall column :: In([], c, column) == []
  {
  }

  predicate RightOfAll(x: real, c: Columns) {
    x >= c.ownerX && x >= c.valueX && x >= c.incomeTypeX && x >= c.incomeX && x >= c.txX
  }

  /** A line is passed over as check boxes if and only if all its words stand right of every column. */
  lemma {:induction false} GlyphsIff(line: Line, c: Columns)
    ensures OnlyGlyphs(line, c) <==> forall i | 0 <= i < |line| :: RightOfAll(line[i].x0, c)
  {
    if line == [] {
      NoCells(c);
    } else {
      var rest := line[1..];
      GlyphsIff(rest, c);
      if forall i | 0 <= i < |line| :: RightOfAll(line[i].x0, c) {
        forall i | 0 <= i < |rest| ensures RightOfAll(rest[i].x0, c) {
          assert rest[i] == line[i + 1];
        }
      }
      if OnlyGlyphs(line, c) {
        forall i | 0 <= i < |line| ensures RightOfAll(line[i].x0, c) {
          assert i > 0 ==> line[i] == rest[i - 1];
        }
      }
    }
  }

  // ---- values ----

  /** A dollar sign and then one digit or comma at least, and nothing else. */
  ghost predicate PrintsDollars(text: string) {
    exists body :: text == "$" + body && body != "" && forall c | c in body :: '0' <= c <= '9' || c == ','
  }

  /** A value begins with one of four words in any letter case, or with a dollar amount and a lone dash. */
  lemma {:induction false} StartsValueIff(texts: seq<string>)
    ensures StartsValue(texts)
       <==> texts != []
            && (Lower(texts[0]) in {"none", "undetermined", "over", "spouse/dc"}
                || (|texts| > 1 && texts[1] == "-" && PrintsDollars(texts[0])))
  {
    hide Lower;
    if texts != [] {
      DollarsIff(texts[0]);
    }
  }

  lemma {:induction false} DollarsIff(text: string)
    ensures IsDollars(text) <==> PrintsDollars(text)
  {
    if IsDollars(text) {
      var body := text[1..];
      assert text == "$" + body;
      forall c | c in body ensures '0' <= c <= '9' || c == ',' {
        var i :| 0 <= i < |body| && body[i] == c;
        assert text[i + 1] == c;
      }
    }
    if PrintsDollars(text) {
      var body :| text == "$" + body && body != "" && forall c | c in body :: '0' <= c <= '9' || c == ',';
      forall i | 1 <= i < |text| ensures '0' <= text[i] <= '9' || text[i] == ',' {
        assert text[i] == body[i - 1] && body[i - 1] in body;
      }
    }
  }

  /** All that the pass asks of a line's words. */
  lemma {:induction false} LineIff(line: Line)
    requires line != []
    ensures ScheduleLetter(line).None? <==> !IsHeading(line)
    ensures HeaderColumns(line).Some? <==> HasTableWords(line)
    ensures IsSkipped(line) <==> IsSkippedWord(line[0].text)
    ensures IsAnnotation(line[0].text) <==> IsAnnotationWord(line[0].text)
  {
    hide ScheduleLetter, IsHeading, HeaderColumns, HasTableWords, IsSkipped, IsSkippedWord, IsAnnotation;
    hide IsAnnotationWord;
    NoHeadingIff(line);
    TableIff(line);
    SkippedIff(line);
    AnnotationIff(line[0].text);
  }
}
