/** How the words of the form are printed, and what the parser takes them for. */
module PtrWords {
  import opened Optional
  import opened Text
  import opened Money
  import opened Lines
  import opened PtrParser

  // ---- annotation labels ----

  function LabelName(l: Label): string {
    match l
    case Filing => "filing"
    case Subholding => "subholding"
    case Description => "description"
    case Location => "location"
  }

  /** The name in any letter case, and any number of colons. */
  predicate PrintsPlain(text: string, name: string) {
    && |name| <= |text| && Lower(text[..|name|]) == name
    && forall i | |name| <= i < |text| :: text[i] == ':'
  }

  /** The initial in either case, one or more NULs for the other letters, and perhaps a colon. */
  predicate PrintsEncoded(text: string, name: string)
    requires name != ""
  {
    && |text| >= 2 && LowerChar(text[0]) == name[0] && text[1] == NUL
    && forall i | 2 <= i < |text| :: text[i] == NUL || (text[i] == ':' && i == |text| - 1)
  }

  /** The plain name, or any word with a NUL in it that begins with the initial. */
  predicate IsLabel(text: string, l: Label) {
    PrintsPlain(text, LabelName(l)) || (NUL in text && LowerChar(text[0]) == LabelName(l)[0])
  }

  lemma {:induction false} PlainIff(text: string, name: string)
    requires name == "" || name[|name| - 1] != ':'
    ensures Lower(StripColons(text)) == name <==> PrintsPlain(text, name)
  {
    if text != "" && text[|text| - 1] == ':' {
      var init := text[..|text| - 1];
      PlainIff(init, name);
      if PrintsPlain(text, name) {
        if name != "" {
          assert Lower(text[..|name|])[|name| - 1] == LowerChar(text[|name| - 1]);
        }
        assert |name| < |text|;
        assert init[..|name|] == text[..|name|];
      }
      if PrintsPlain(init, name) {
        assert init[..|name|] == text[..|name|];
      }
    } else {
      assert StripColons(text) == text;
      if PrintsPlain(text, name) {
        assert |text| == |name| && text[..|name|] == text;
      }
      if Lower(text) == name {
        assert text[..|name|] == text;
      }
    }
  }

  lemma {:induction false} Stripped(text: string)
    ensures var s := Lower(StripColons(text)); s == "" || s[|s| - 1] != ':'
  {
    if text != "" && text[|text| - 1] == ':' {
      Stripped(text[..|text| - 1]);
    }
  }

  lemma {:induction false} PlainHasNoNul(text: string, l: Label)
    requires PrintsPlain(text, LabelName(l))
    ensures NUL !in text
  {
    var name := LabelName(l);
    NamesAreLetters(l);
    forall i | 0 <= i < |text| ensures text[i] != NUL {
      if i < |name| {
        assert Lower(text[..|name|])[i] == LowerChar(text[i]) == name[i];
      }
    }
  }

  lemma {:induction false} NamesAreLetters(l: Label)
    ensures forall c | c in LabelName(l) :: 'a' <= c <= 'z'
  {
  }

  lemma {:induction false} Initial(c: char)
    ensures UpperChar(c) == 'F' <==> LowerChar(c) == 'f'
    ensures UpperChar(c) == 'S' <==> LowerChar(c) == 's'
    ensures UpperChar(c) == 'D' <==> LowerChar(c) == 'd'
    ensures UpperChar(c) == 'L' <==> LowerChar(c) == 'l'
  {
  }

  /** What a line's first word is taken for, exactly: a word with a NUL goes by its initial, any other
      is one of the four names in any letter case, with or without colons, or no label. */
  lemma {:induction false} LabelIff(text: string, l: Label)
    ensures AnnotationLabel(text) == Some(l) <==> IsLabel(text, l)
  {
    if NUL in text {
      Initial(text[0]);
      if PrintsPlain(text, LabelName(l)) {
        PlainHasNoNul(text, l);
      }
    } else {
      NamesDiffer();
      PlainIff(text, "filing");
      PlainIff(text, "subholding");
      PlainIff(text, "description");
      PlainIff(text, "location");
    }
  }

  lemma {:induction false} NamesDiffer()
    ensures forall l, m | l != m :: LabelName(l) != LabelName(m) && LabelName(l)[0] != LabelName(m)[0]
  {
    forall l, m | l != m ensures LabelName(l)[0] != LabelName(m)[0] {
    }
  }

  /** Both printed forms of a label are read as that label. */
  lemma {:induction false} PrintedLabelReads(text: string, l: Label)
    requires PrintsPlain(text, LabelName(l)) || PrintsEncoded(text, LabelName(l))
    ensures AnnotationLabel(text) == Some(l)
  {
    LabelIff(text, l);
    if PrintsEncoded(text, LabelName(l)) {
      assert text[1] in text;
    }
  }

  /** No label: a word with a NUL and another initial, or one without that spells no name. */
  lemma {:induction false} NoLabelIff(text: string)
    ensures AnnotationLabel(text) == None <==> forall l :: !IsLabel(text, l)
  {
    hide AnnotationLabel, IsLabel;
    forall l ensures AnnotationLabel(text) == Some(l) <==> IsLabel(text, l) {
      LabelIff(text, l);
    }
  }

  // ---- headings ----

  /** Some word has the name in it, in any letter case. */
  predicate Names(words: seq<string>, name: string) {
    exists i | 0 <= i < |words| :: Contains(Lower(words[i]), name)
  }

  /** A line of the form's header rows, word by word. */
  predicate IsHeading(words: seq<string>) {
    || (Names(words, "owner") && Names(words, "asset"))
    || (Names(words, "notification") && Names(words, "amount"))
    || (Names(words, "cap.") && Names(words, "gains"))
    || Names(words, "$200?")
  }

  lemma {:induction false} ContainsLeft(a: string, b: string, t: string)
    requires Contains(a, t)
    ensures Contains(a + b, t)
  {
    var i :| 0 <= i <= |a| && OccursAt(a, t, i);
    assert (a + b)[i..i + |t|] == a[i..i + |t|];
    assert OccursAt(a + b, t, i);
  }

  lemma {:induction false} ContainsRight(a: string, b: string, t: string)
    requires Contains(b, t)
    ensures Contains(a + b, t)
  {
    var i :| 0 <= i <= |b| && OccursAt(b, t, i);
    assert (a + b)[|a| + i..|a| + i + |t|] == b[i..i + |t|];
    assert OccursAt(a + b, t, |a| + i);
  }

  /** A text without spaces does not reach over the space between two words. */
  lemma {:induction false} ContainsSpaced(a: string, b: string, t: string)
    requires t != "" && ' ' !in t
    ensures Contains(a + " " + b, t) <==> Contains(a, t) || Contains(b, t)
  {
    var s := a + " " + b;
    if Contains(a, t) {
      ContainsLeft(a, " " + b, t);
      assert a + (" " + b) == s;
    }
    if Contains(b, t) {
      ContainsRight(a + " ", b, t);
    }
    if Contains(s, t) {
      var i :| 0 <= i <= |s| && OccursAt(s, t, i);
      if i + |t| <= |a| {
        assert s[i..i + |t|] == a[i..i + |t|];
        assert OccursAt(a, t, i);
      } else if i > |a| {
        var j := i - |a| - 1;
        assert s[i..i + |t|] == b[j..j + |t|];
        assert OccursAt(b, t, j);
      } else {
        SpaceInside(s, t, i, |a|);
      }
    }
  }

  lemma {:induction false} SpaceInside(s: string, t: string, i: nat, k: nat)
    requires OccursAt(s, t, i) && i <= k < i + |t| && s[k] == ' '
    ensures ' ' in t
  {
    assert t[k - i] == s[k];
  }

  lemma {:induction false} LowerJoin(words: seq<string>, t: string)
    requires t != "" && ' ' !in t
    ensures Contains(Lower(Join(words)), t) <==> Names(words, t)
  {
    hide Contains;
    if words == [] {
      NothingContains(t);
    } else if |words| == 1 {
      assert Names(words, t) <==> Contains(Lower(words[0]), t);
    } else {
      LowerJoin(words[1..], t);
      var rest := Join(words[1..]);
      assert Lower(words[0] + " " + rest) == Lower(words[0]) + " " + Lower(rest);
      ContainsSpaced(Lower(words[0]), Lower(rest), t);
      NamesRest(words, t);
    }
  }

  lemma {:induction false} NothingContains(t: string)
    requires t != ""
    ensures !Contains(Lower(""), t)
  {
  }

  lemma {:induction false} NamesRest(words: seq<string>, t: string)
    requires words != []
    ensures Names(words, t) <==> Contains(Lower(words[0]), t) || Names(words[1..], t)
  {
    hide Contains;
    if Names(words[1..], t) {
      var i :| 0 <= i < |words[1..]| && Contains(Lower(words[1..][i]), t);
      assert words[i + 1] == words[1..][i];
    }
    if Names(words, t) {
      var i :| 0 <= i < |words| && Contains(Lower(words[i]), t);
      assert i > 0 ==> words[1..][i - 1] == words[i];
    }
  }

  /** Whether a line is dropped as a heading is a matter of its words, each taken by itself. */
  lemma {:induction false} HeadingIff(line: Line)
    ensures IsHeaderLine(LineText(line)) <==> IsHeading(Texts(line))
  {
    hide Contains, Names, Join;
    var words := Texts(line);
    LowerJoin(words, "owner");
    LowerJoin(words, "asset");
    LowerJoin(words, "notification");
    LowerJoin(words, "amount");
    LowerJoin(words, "cap.");
    LowerJoin(words, "gains");
    LowerJoin(words, "$200?");
  }

  lemma {:induction false} FooterIff(line: Line)
    ensures IsFooterLine(LineText(line))
       <==> Contains(Join(Texts(line)), "For the complete list of asset type abbreviations")
  {
  }

  /** A word is contained in itself. */
  lemma {:induction false} NamesItself(words: seq<string>, i: nat, name: string)
    requires i < |words| && Lower(words[i]) == name
    ensures Names(words, name)
  {
    assert name[0..|name|] == name;
    assert OccursAt(name, name, 0);
  }

  // ---- the header row ----

  lemma {:induction false} LowerDiffers(s: string, t: string, k: nat)
    requires |s| != |t| || (k < |s| == |t| && LowerChar(s[k]) != LowerChar(t[k]))
    ensures Lower(s) != Lower(t)
  {
    if |s| == |t| {
      assert Lower(s)[k] != Lower(t)[k];
    } else {
      assert |Lower(s)| != |Lower(t)|;
    }
  }

  /** No two header words are spelled alike. */
  lemma {:induction false} HeaderWordsDiffer(i: nat, j: nat)
    requires i < j < |HEADER_WORDS|
    ensures Lower(HEADER_WORDS[i]) != Lower(HEADER_WORDS[j])
  {
    LowerDiffers(HEADER_WORDS[i], HEADER_WORDS[j], 0);
  }

  lemma {:induction false} FindsFirst(words: seq<string>, text: string, i: nat)
    requires i < |words| && Lower(words[i]) == Lower(text)
    requires forall j | 0 <= j < i :: Lower(words[j]) != Lower(text)
    ensures FindIgnoringCase(words, text) == words[i]
  {
    hide Lower;
    if i > 0 {
      FindsFirst(words[1..], text, i - 1);
    }
  }

  lemma {:induction false} FindKeepsCase(words: seq<string>, text: string)
    ensures Lower(FindIgnoringCase(words, text)) == Lower(text)
  {
    hide Lower;
    if words != [] {
      FindKeepsCase(words[1..], text);
    }
  }

  /** A header word is recognised in any letter case, and nothing else is taken for it. */
  lemma {:induction false} HeaderWordIff(text: string, i: nat)
    requires i < |HEADER_WORDS|
    ensures HeaderWord(text) == HEADER_WORDS[i] <==> Lower(text) == Lower(HEADER_WORDS[i])
  {
    hide Lower, FindIgnoringCase;
    FindKeepsCase(HEADER_WORDS, text);
    if Lower(text) == Lower(HEADER_WORDS[i]) {
      forall j | 0 <= j < i ensures Lower(HEADER_WORDS[j]) != Lower(text) {
        HeaderWordsDiffer(j, i);
      }
      FindsFirst(HEADER_WORDS, text, i);
    }
  }

  /** Where the last word spelled `name` stands. */
  function LastAt(line: Line, name: string): Option<real> {
    if line == [] then None
    else
      var n := |line| - 1;
      if Lower(line[n].text) == name then Some(line[n].x0) else LastAt(line[..n], name)
  }

  /** The line has the words of the form's columns, with a "date" between the transaction's and the
      notification's. */
  predicate HasColumnWords(line: Line) {
    && LastAt(line, "owner").Some? && LastAt(line, "asset").Some? && LastAt(line, "amount").Some?
    && LastAt(line, "transaction").Some? && LastAt(line, "notification").Some?
    && exists i | 0 <= i < |line| ::
         Lower(line[i].text) == "date"
         && LastAt(line, "transaction").value < line[i].x0 < LastAt(line, "notification").value
  }

  lemma {:induction false} PositionIs(line: Line, i: nat, name: string)
    requires i < |HEADER_WORDS| && name == Lower(HEADER_WORDS[i])
    ensures HEADER_WORDS[i] in Positions(line) <==> LastAt(line, name).Some?
    ensures LastAt(line, name).Some? ==> Positions(line)[HEADER_WORDS[i]] == LastAt(line, name).value
  {
    hide HeaderWord, Lower;
    if line != [] {
      var n := |line| - 1;
      PositionIs(line[..n], i, name);
      HeaderWordIff(line[n].text, i);
    }
  }

  lemma {:induction false} DateBetweenIff(line: Line, low: real, high: real)
    ensures DateBetween(line, low, high).Some?
       <==> exists i | 0 <= i < |line| :: Lower(line[i].text) == "date" && low < line[i].x0 < high
  {
    hide HeaderWord, Lower;
    if line != [] {
      assert HEADER_WORDS[4] == "Date";
      LowerDate();
      HeaderWordIff(line[0].text, 4);
      DateBetweenIff(line[1..], low, high);
      if i :| 0 <= i < |line[1..]| && Lower(line[1..][i].text) == "date" && low < line[1..][i].x0 < high {
        assert line[i + 1] == line[1..][i];
      }
      if i :| 0 <= i < |line| && Lower(line[i].text) == "date" && low < line[i].x0 < high {
        assert i > 0 ==> line[1..][i - 1] == line[i];
      }
    }
  }

  lemma {:induction false} LowerDate()
    ensures Lower("Date") == "date"
  {
  }

  lemma {:induction false} LowerColumns()
    ensures Lower(HEADER_WORDS[1]) == "owner" && Lower(HEADER_WORDS[2]) == "asset"
    ensures Lower(HEADER_WORDS[3]) == "transaction" && Lower(HEADER_WORDS[5]) == "notification"
    ensures Lower(HEADER_WORDS[6]) == "amount"
  {
  }

  /** A line gives the columns exactly when it has these words, in any letter case. */
  lemma {:induction false} ColumnsIff(line: Line)
    ensures HeaderBounds(line).Some? <==> HasColumnWords(line)
  {
    hide HeaderWord, Lower, Positions, LastAt, DateBetween;
    LowerColumns();
    PositionIs(line, 1, "owner");
    PositionIs(line, 2, "asset");
    PositionIs(line, 3, "transaction");
    PositionIs(line, 5, "notification");
    PositionIs(line, 6, "amount");
    if LastAt(line, "transaction").Some? && LastAt(line, "notification").Some? {
      DateBetweenIff(line, LastAt(line, "transaction").value, LastAt(line, "notification").value);
    }
  }

  // ---- letter case ----

  /** The same words but for the case of their letters. */
  predicate SameButCase(x: seq<string>, y: seq<string>) {
    |x| == |y| && forall i | 0 <= i < |x| :: Lower(x[i]) == Lower(y[i])
  }

  lemma {:induction false} SameUpper(a: string, b: string)
    requires Lower(a) == Lower(b)
    ensures Upper(a) == Upper(b)
  {
    assert |Lower(a)| == |a| && |Lower(b)| == |b|;
    forall i | 0 <= i < |a| ensures UpperChar(a[i]) == UpperChar(b[i]) {
      assert Lower(a)[i] == LowerChar(a[i]) && Lower(b)[i] == LowerChar(b[i]);
    }
  }

  /** Owner codes, type letters and the mark of a partial sale are read in any letter case. */
  lemma {:induction false} CaseHasNoSay(x: seq<string>, y: seq<string>)
    requires SameButCase(x, y)
    ensures OwnerField(x) == OwnerField(y) && TypeField(x) == TypeField(y) && AnyPartial(x) == AnyPartial(y)
  {
    hide IsOwnerCode, IsTypeLetter, IsPartialMark;
    if x == [] {
    } else {
      var n := |x| - 1;
      CaseHasNoSay(x[..n], y[..n]);
      SameUpper(x[n], y[n]);
      SameTests(x[n], y[n]);
    }
  }

  lemma {:induction false} SameTests(a: string, b: string)
    requires Lower(a) == Lower(b) && Upper(a) == Upper(b)
    ensures IsOwnerCode(a) == IsOwnerCode(b) && IsTypeLetter(a) == IsTypeLetter(b)
    ensures IsPartialMark(a) == IsPartialMark(b)
  {
  }

  lemma {:induction false} SameLower(a: string, b: string)
    requires Upper(a) == Upper(b)
    ensures Lower(a) == Lower(b)
  {
    assert |Upper(a)| == |a| && |Upper(b)| == |b|;
    forall i | 0 <= i < |a| ensures LowerChar(a[i]) == LowerChar(b[i]) {
      assert Upper(a)[i] == UpperChar(a[i]) && Upper(b)[i] == UpperChar(b[i]);
    }
  }

  lemma {:induction false} InEitherCase(text: string, upper: string)
    ensures Upper(text) == Upper(upper) <==> Lower(text) == Lower(upper)
  {
    if Upper(text) == Upper(upper) {
      SameLower(text, upper);
    }
    if Lower(text) == Lower(upper) {
      SameUpper(text, upper);
    }
  }

  /** A type letter is one of three letters, an owner code one of three pairs, in any letter case. */
  lemma {:induction false} LettersAndCodes(text: string)
    ensures IsTypeLetter(text) <==> Lower(text) in {"p", "s", "e"}
    ensures IsOwnerCode(text) <==> Lower(text) in {"sp", "jt", "dc"}
  {
    assert Upper("P") == "P" && Upper("S") == "S" && Upper("E") == "E";
    assert Lower("P") == "p" && Lower("S") == "s" && Lower("E") == "e";
    assert Upper("SP") == "SP" && Upper("JT") == "JT" && Upper("DC") == "DC";
    assert Lower("SP") == "sp" && Lower("JT") == "jt" && Lower("DC") == "dc";
    InEitherCase(text, "P");
    InEitherCase(text, "S");
    InEitherCase(text, "E");
    InEitherCase(text, "SP");
    InEitherCase(text, "JT");
    InEitherCase(text, "DC");
  }

  /** Of the texts of a column the last that passes counts. */
  lemma {:induction false} LastCounts(texts: seq<string>, test: Test, i: nat)
    ensures i < |texts| && Passes(test, texts[i]) && (forall j | i < j < |texts| :: !Passes(test, texts[j])) ==>
              LastPassing(texts, test) == Some(texts[i])
    ensures (forall j | 0 <= j < |texts| :: !Passes(test, texts[j])) ==> LastPassing(texts, test) == None
  {
    hide Passes;
    if texts != [] {
      LastCounts(texts[..|texts| - 1], test, i);
    }
  }

  // ---- dates ----

  predicate DigitsOnly(s: string) {
    forall c | c in s :: '0' <= c <= '9'
  }

  /** Month and day of one or two digits and a year of four, with slashes between. */
  ghost predicate PrintsDate(text: string, month: string, day: string, year: string) {
    && text == month + ['/'] + (day + ['/'] + year) && DigitsOnly(month + day + year)
    && 1 <= |month| <= 2 && 1 <= |day| <= 2 && |year| == 4
  }

  function TwoDigitsOf(s: string): string {
    if |s| == 1 then "0" + s else s
  }

  lemma {:induction false} OnlyDigits(s: string)
    ensures AllDigits(s) <==> DigitsOnly(s)
  {
    if AllDigits(s) {
      forall c | c in s ensures '0' <= c <= '9' {
        var i :| 0 <= i < |s| && s[i] == c;
      }
    }
  }

  lemma {:induction false} PadsTo(s: string)
    requires 1 <= |s| <= 2 && AllDigits(s)
    ensures Pad2(NatOf(s)) == TwoDigitsOf(s)
  {
    hide NatOf;
    NatOfOne(s[0]);
    OneDigit(s[0]);
    if |s| == 1 {
      assert s == [s[0]];
    } else {
      NatOfOne(s[1]);
      NatOfSnoc([s[0]], s[1]);
      OneDigit(s[1]);
      assert s == [s[0]] + [s[1]];
      assert NatOf(s) / 10 == DigitValue(s[0]) && NatOf(s) % 10 == DigitValue(s[1]);
    }
  }

  lemma {:induction false} OneDigit(c: char)
    requires IsDigit(c)
    ensures Digits(DigitValue(c)) == [c]
  {
  }

  /** A text is a date exactly when it is printed so; it reads with the year first, and month and day filled up
      to two digits. */
  lemma {:induction false} DateIff(text: string)
    ensures IsDate(text) <==> exists month, day, year :: PrintsDate(text, month, day, year)
    ensures forall month, day, year | PrintsDate(text, month, day, year) ::
              IsoDate(text) == Some(year + "-" + TwoDigitsOf(month) + "-" + TwoDigitsOf(day))
  {
    hide NatOf, Pad2, TwoDigitsOf, AllDigits;
    forall month, day, year | PrintsDate(text, month, day, year)
      ensures IsDate(text) && IsoDate(text) == Some(year + "-" + TwoDigitsOf(month) + "-" + TwoDigitsOf(day))
    {
      DateReads(text, month, day, year);
    }
    if IsDate(text) {
      var (month, rest) := SplitFirst(text, '/').value;
      var (day, year) := SplitFirst(rest, '/').value;
      OnlyDigits(month);
      OnlyDigits(day);
      OnlyDigits(year);
      assert PrintsDate(text, month, day, year);
    }
  }

  lemma {:induction false} DateReads(text: string, month: string, day: string, year: string)
    requires PrintsDate(text, month, day, year)
    ensures IsDate(text) && IsoDate(text) == Some(year + "-" + TwoDigitsOf(month) + "-" + TwoDigitsOf(day))
  {
    hide NatOf, Pad2, TwoDigitsOf, AllDigits, SplitFirst;
    assert forall c | c in month :: c in month + day + year;
    assert forall c | c in day :: c in month + day + year;
    assert forall c | c in year :: c in month + day + year;
    OnlyDigits(month);
    OnlyDigits(day);
    OnlyDigits(year);
    SplitFirstAt(month, '/', day + ['/'] + year);
    SplitFirstAt(day, '/', year);
    PadsTo(month);
    PadsTo(day);
  }

  // ---- columns ----

  function Boundaries(b: ColumnBounds): seq<real> {
    [b.idMax, b.ownerMax, b.assetMax, b.typeMax, b.dateMax, b.notifMax, b.amountMax]
  }

  const ZONES: seq<Zone> := [IdZone, OwnerZone, AssetZone, TypeZone, DateZone, NotifZone, AmountZone]

  /** A word of a start line belongs to the first column whose boundary stands right of it. */
  lemma {:induction false} ZoneIs(x: real, b: ColumnBounds, i: nat)
    requires i < 7
    ensures ZoneOf(x, b) == ZONES[i] <==> x < Boundaries(b)[i] && forall j | 0 <= j < i :: Boundaries(b)[j] <= x
  {
    var bs := Boundaries(b);
    if forall j | 0 <= j < i :: bs[j] <= x {
      assert i > 0 ==> bs[0] <= x;
      assert i > 1 ==> bs[1] <= x;
      assert i > 2 ==> bs[2] <= x;
      assert i > 3 ==> bs[3] <= x;
      assert i > 4 ==> bs[4] <= x;
      assert i > 5 ==> bs[5] <= x;
    }
  }

  /** A line starts a transaction exactly when a type letter stands between the second and third of these. */
  lemma {:induction false} StartIff(line: Line, b: ColumnBounds)
    ensures StartsTransaction(line, b)
       <==> exists i | 0 <= i < |line| :: b.assetMax <= line[i].x0 < b.typeMax && Lower(line[i].text) in {"p", "s", "e"}
  {
    hide Lower, IsTypeLetter;
    forall i | 0 <= i < |line| ensures IsTypeLetter(line[i].text) <==> Lower(line[i].text) in {"p", "s", "e"} {
      LettersAndCodes(line[i].text);
    }
  }

  /** The texts of the words that begin at `low` or right of it, if there is such a bound, and left of `high`. */
  function Between(line: Line, low: Option<real>, high: real): seq<string> {
    if line == [] then []
    else
      var n := |line| - 1;
      Between(line[..n], low, high)
      + if (low.Some? ==> low.value <= line[n].x0) && line[n].x0 < high then [line[n].text] else []
  }

  /** A wrapped line adds to the asset what stands in the asset column, and to the amount what stands in the
      amount column, which is right of it. */
  lemma {:induction false} WrapAdds(line: Line, b: ColumnBounds)
    ensures Picked(line, b, MoreAsset) == Between(line, Some(b.ownerMax), b.assetMax)
    ensures b.assetMax <= b.notifMax ==> Picked(line, b, MoreAmount) == Between(line, Some(b.notifMax), b.amountMax)
  {
    if line != [] {
      WrapAdds(line[..|line| - 1], b);
    }
  }
}
