/** Dollar amounts: the comma-grouped printer of `ingest/house_ptrs.py` and the
    band parser of `parsers/amounts.py`. */
module Money {
  import opened Optional
  import opened Text

  // ---- reading ----

  predicate IsDigit(c: char) {
    '0' <= c <= '9'
  }

  predicate AllDigits(s: string) {
    forall c | c in s :: IsDigit(c)
  }

  function DigitValue(c: char): nat
    requires IsDigit(c)
  {
    c as int - '0' as int
  }

  function NatOf(s: string): nat
    requires AllDigits(s)
  {
    if s == "" then 0 else 10 * NatOf(s[..|s| - 1]) + DigitValue(s[|s| - 1])
  }

  function Pow10(n: nat): (p: nat)
    ensures p > 0
  {
    if n == 0 then 1 else 10 * Pow10(n - 1)
  }

  /** `float(s)` on plain decimals without a sign: "12", "12.", "12.5", ".5". */
  function ParseUnsigned(s: string): Option<real> {
    match SplitFirst(s, '.')
    case None => if s != "" && AllDigits(s) then Some(NatOf(s) as real) else None
    case Some((whole, frac)) =>
      if AllDigits(whole) && AllDigits(frac) && whole + frac != "" then
        Some(NatOf(whole) as real + NatOf(frac) as real / Pow10(|frac|) as real)
      else None
  }

  /** `float(s)` on plain signed decimals; every other text is a ValueError. */
  function ParseFloat(s: string): Option<real> {
    if s != "" && s[0] == '-' then
      match ParseUnsigned(s[1..])
      case None => None
      case Some(v) => Some(-v)
    else if s != "" && s[0] == '+' then ParseUnsigned(s[1..])
    else ParseUnsigned(s)
  }

  function ToNumber(raw: string): Option<real> {
    var cleaned := Strip(Remove(Remove(raw, '$'), ','));
    if cleaned == "" then None else ParseFloat(cleaned)
  }

  function ParseAmountRange(text: string): (Option<real>, Option<real>) {
    var raw := Strip(text);
    if raw == "" then (None, None)
    else if StartsWith(Lower(raw), "over") then
      match SplitFirst(raw, '$')
      case None => (None, None)
      case Some((_, rest)) => (ToNumber(rest), None)
    else
      match SplitFirst(raw, '-')
      case None => (None, None)
      case Some((low, high)) => (ToNumber(low), ToNumber(high))
  }

  // ---- printing ----

  function Digits(n: nat): (s: string)
    ensures s != "" && AllDigits(s) && NatOf(s) == n
  {
    var last := [('0' as int + n % 10) as char];
    if n < 10 then assert last[..0] == ""; last
    else
      var s := Digits(n / 10) + last;
      assert s[..|s| - 1] == Digits(n / 10);
      s
  }

  function Pad3(n: nat): string
    requires n < 1000
  {
    if n < 10 then "00" + Digits(n) else if n < 100 then "0" + Digits(n) else Digits(n)
  }

  /** The `,` format option: digits in groups of three from the right. */
  function Commas(n: nat): string {
    if n < 1000 then Digits(n) else Commas(n / 1000) + "," + Pad3(n % 1000)
  }

  /** The `.0f` format option: to the nearest integer, ties to even. */
  function RoundHalfEven(r: real): (n: int)
    ensures -0.5 <= n as real - r <= 0.5
    ensures (n as real - r == 0.5 || n as real - r == -0.5) ==> n % 2 == 0
    ensures r >= 0.0 ==> n >= 0
  {
    var low := r.Floor;
    var rest := r - low as real;
    if rest < 0.5 || (rest == 0.5 && low % 2 == 0) then low else low + 1
  }

  /** `f"{r:,.0f}"`; a negative number keeps its sign even when it rounds to zero. */
  function FormatWhole(r: real): string {
    if r < 0.0 then "-" + Commas(RoundHalfEven(-r)) else Commas(RoundHalfEven(r))
  }

  function FormatAmount(low: Option<real>, high: Option<real>): string {
    if low.None? || high.None? then ""
    else "$" + FormatWhole(low.value) + "-$" + FormatWhole(high.value)
  }

  // ---- the printer and the parser invert each other ----

  lemma {:induction false} NatOfSnoc(s: string, c: char)
    requires AllDigits(s) && IsDigit(c)
    ensures AllDigits(s + [c]) && NatOf(s + [c]) == 10 * NatOf(s) + DigitValue(c)
  {
    assert (s + [c])[..|s|] == s;
  }

  /** Three more digits: the step from one comma group to the next. */
  lemma {:induction false} NatOfGroup(s: string, g: string)
    requires AllDigits(s) && AllDigits(g) && |g| == 3
    ensures AllDigits(s + g) && NatOf(s + g) == 1000 * NatOf(s) + NatOf(g)
  {
    NatOfSnoc(s, g[0]);
    NatOfSnoc(s + [g[0]], g[1]);
    NatOfSnoc(s + [g[0]] + [g[1]], g[2]);
    assert s + g == s + [g[0]] + [g[1]] + [g[2]];
    NatOfSnoc("", g[0]);
    NatOfSnoc("" + [g[0]], g[1]);
    NatOfSnoc("" + [g[0]] + [g[1]], g[2]);
    assert g == "" + [g[0]] + [g[1]] + [g[2]];
  }

  lemma {:induction false} DigitsLength(n: nat)
    requires n < 1000
    ensures |Digits(n)| == if n < 10 then 1 else if n < 100 then 2 else 3
  {
    assert n >= 10 ==> |Digits(n)| == |Digits(n / 10)| + 1;
    assert n >= 100 ==> |Digits(n / 10)| == |Digits(n / 10 / 10)| + 1;
  }

  lemma {:induction false} LeadingZero(s: string)
    requires AllDigits(s)
    ensures AllDigits("0" + s) && NatOf("0" + s) == NatOf(s)
  {
    if s != "" {
      LeadingZero(s[..|s| - 1]);
      assert ("0" + s)[..|s|] == "0" + s[..|s| - 1];
    }
  }

  lemma {:induction false} Pad3Value(n: nat)
    requires n < 1000
    ensures |Pad3(n)| == 3 && AllDigits(Pad3(n)) && NatOf(Pad3(n)) == n
  {
    DigitsLength(n);
    LeadingZero(Digits(n));
    LeadingZero("0" + Digits(n));
    assert "0" + ("0" + Digits(n)) == "00" + Digits(n);
  }

  /** Text made of digits and commas, with a digit at each end. */
  predicate CommaGrouped(s: string) {
    && s != "" && IsDigit(s[0]) && IsDigit(s[|s| - 1])
    && forall c | c in s :: IsDigit(c) || c == ','
  }

  /** Comma stripping undoes comma grouping, for numbers of any size. */
  lemma {:induction false} CommasStrip(n: nat)
    ensures CommaGrouped(Commas(n))
    ensures AllDigits(Remove(Commas(n), ',')) && NatOf(Remove(Commas(n), ',')) == n
  {
    hide Digits, Pad3, NatOf, Remove;
    if n < 1000 {
      RemoveAbsent(Digits(n), ',');
    } else {
      var head, tail := Commas(n / 1000), Pad3(n % 1000);
      CommasStrip(n / 1000);
      Pad3Value(n % 1000);
      RemoveBetween(head, tail);
      NatOfGroup(Remove(head, ','), tail);
    }
  }

  lemma {:induction false} RemoveBetween(head: string, tail: string)
    requires ',' !in tail
    ensures Remove(head + "," + tail, ',') == Remove(head, ',') + tail
  {
    hide Remove;
    RemoveConcat(head + ",", tail, ',');
    RemoveConcat(head, ",", ',');
    RemoveAbsent(tail, ',');
    RemoveOne();
    assert Remove(head, ',') + "" == Remove(head, ',');
  }

  lemma {:induction false} RemoveOne()
    ensures Remove(",", ',') == ""
  {
  }

  /** Every fourth character from the right, and no other, is a comma. */
  predicate CommaEveryFourth(s: string) {
    forall i | 0 <= i < |s| :: s[i] == ',' <==> (|s| - i) % 4 == 0
  }

  lemma {:induction false} GroupingStep(head: string, group: string)
    requires CommaEveryFourth(head) && |group| == 3 && AllDigits(group)
    ensures CommaEveryFourth(head + "," + group)
  {
    var s := head + "," + group;
    forall i | 0 <= i < |s| ensures s[i] == ',' <==> (|s| - i) % 4 == 0 {
      if i < |head| {
        var k := |head| - i;
        assert s[i] == head[i] && |s| - i == k + 4;
        assert (k + 4) % 4 == k % 4;
      } else if i > |head| {
        assert s[i] == group[i - |head| - 1];
        assert IsDigit(s[i]) && 0 < |s| - i < 4;
      } else {
        assert s[i] == ',' && |s| - i == 4;
      }
    }
  }

  lemma {:induction false} CommasGrouping(n: nat)
    ensures CommaEveryFourth(Commas(n))
  {
    if n < 1000 {
      DigitsLength(n);
    } else {
      CommasGrouping(n / 1000);
      Pad3Value(n % 1000);
      GroupingStep(Commas(n / 1000), Pad3(n % 1000));
    }
  }

  /** The sign and the digits are what is left of a printed number, whatever pads it. */
  lemma {:induction false} CleanedNumber(before: string, sign: string, digits: string, after: string)
    requires before in ["", "$", " $"] && after in ["", " "] && sign in ["", "-"] && CommaGrouped(digits)
    ensures Strip(Remove(Remove(before + sign + digits + after, '$'), ',')) == sign + Remove(digits, ',')
  {
    RemoveAll(before, sign, digits, after);
    RemoveEnds(digits, ',');
    var bare := Remove(digits, ',');
    var pad := if before == " $" then " " else "";
    var core := sign + bare;
    assert core[0] == if sign == "" then bare[0] else '-';
    assert core[|core| - 1] == bare[|bare| - 1];
    assert pad + sign + bare == pad + core;
    StripBoth(pad, core, after);
  }

  lemma {:induction false} ParseDigits(bare: string)
    requires bare != "" && AllDigits(bare)
    ensures ParseUnsigned(bare) == Some(NatOf(bare) as real)
  {
    assert '.' !in bare;
  }

  lemma {:induction false} ParseNegative(bare: string)
    requires bare != "" && AllDigits(bare)
    ensures ParseFloat("-" + bare) == Some(-(NatOf(bare) as real))
  {
    ParseDigits(bare);
    var s := "-" + bare;
    assert s[0] == '-' && s[1..] == bare;
  }

  lemma {:induction false} ParsePositive(bare: string)
    requires bare != "" && AllDigits(bare)
    ensures ParseFloat(bare) == Some(NatOf(bare) as real)
  {
    ParseDigits(bare);
    assert IsDigit(bare[0]);
  }

  lemma {:induction false} BareDigits(n: nat) returns (bare: string)
    ensures bare == Remove(Commas(n), ',') && bare != "" && AllDigits(bare) && NatOf(bare) == n
    ensures CommaGrouped(Commas(n))
  {
    bare := Remove(Commas(n), ',');
    CommasStrip(n);
    RemoveEnds(Commas(n), ',');
  }

  lemma {:induction false} ToNumberPositive(before: string, n: nat, after: string)
    requires before in ["", "$", " $"] && after in ["", " "]
    ensures ToNumber(before + Commas(n) + after) == Some(n as real)
  {
    var bare := BareDigits(n);
    CleanedNumber(before, "", Commas(n), after);
    assert before + "" == before && "" + bare == bare;
    ParsePositive(bare);
  }

  lemma {:induction false} ToNumberNegative(before: string, n: nat, after: string)
    requires before in ["", "$", " $"] && after in ["", " "]
    ensures ToNumber(before + "-" + Commas(n) + after) == Some(-(n as real))
  {
    var bare := BareDigits(n);
    CleanedNumber(before, "-", Commas(n), after);
    ParseNegative(bare);
  }

  /** What `to_number` reads from a printed number, with any padding around it. */
  lemma {:induction false} ToNumberOfWhole(r: real, before: string, after: string)
    requires before in ["", "$", " $"] && after in ["", " "]
    ensures ToNumber(before + FormatWhole(r) + after) ==
            Some(if r < 0.0 then -(RoundHalfEven(-r) as real) else RoundHalfEven(r) as real)
  {
    var n := RoundHalfEven(if r < 0.0 then -r else r);
    if r < 0.0 {
      ToNumberNegative(before, n, after);
      assert before + ("-" + Commas(n)) == before + "-" + Commas(n);
    } else {
      ToNumberPositive(before, n, after);
    }
  }

  lemma {:induction false} RemoveParts(a: string, b: string, d: string, e: string, c: char)
    ensures Remove(a + b + d + e, c) == Remove(a, c) + Remove(b, c) + Remove(d, c) + Remove(e, c)
  {
    RemoveConcat(a + b + d, e, c);
    RemoveConcat(a + b, d, c);
    RemoveConcat(a, b, c);
  }

  lemma {:induction false} RemoveShort(c: char)
    ensures Remove([c], c) == "" && (c != ' ' ==> Remove([' ', c], c) == " ")
  {
    assert [' ', c][1..] == [c];
  }

  lemma {:induction false} RemoveDollar(before: string)
    requires before in ["", "$", " $"]
    ensures Remove(before, '$') == if before == " $" then " " else ""
  {
    RemoveShort('$');
    assert " $" == [' ', '$'];
  }

  lemma {:induction false} RemoveAll(before: string, sign: string, digits: string, after: string)
    requires before in ["", "$", " $"] && after in ["", " "] && sign in ["", "-"] && CommaGrouped(digits)
    ensures Remove(Remove(before + sign + digits + after, '$'), ',')
            == (if before == " $" then " " else "") + sign + Remove(digits, ',') + after
  {
    var pad := if before == " $" then " " else "";
    RemoveDollar(before);
    assert '$' !in sign && '$' !in digits && '$' !in after;
    RemoveAbsent(sign, '$');
    RemoveAbsent(digits, '$');
    RemoveAbsent(after, '$');
    RemoveParts(before, sign, digits, after, '$');
    assert Remove(before + sign + digits + after, '$') == pad + sign + digits + after;
    RemoveCommas(pad, sign, digits, after);
  }

  lemma {:induction false} RemoveCommas(pad: string, sign: string, digits: string, after: string)
    requires ',' !in pad && ',' !in sign && ',' !in after
    ensures Remove(pad + sign + digits + after, ',') == pad + sign + Remove(digits, ',') + after
  {
    RemoveParts(pad, sign, digits, after, ',');
    RemoveAbsent(pad, ',');
    RemoveAbsent(sign, ',');
    RemoveAbsent(after, ',');
  }

  lemma {:induction false} StripBoth(pad: string, core: string, after: string)
    requires pad in ["", " "] && after in ["", " "] && Trim(core) && core != ""
    ensures Strip(pad + core + after) == core
  {
    var s := core + after;
    assert s[0] == core[0];
    assert pad + core + after == pad + s;
    if pad == " " {
      assert (" " + s)[1..] == s;
    } else {
      assert pad + s == s;
    }
    assert StripLeft(pad + s) == s;
    StripNothing(core);
    StripPadded(core);
    assert StripLeft(core + after) == core + after;
    if after == "" {
      assert core + after == core;
    }
  }

  /** Removing a character keeps an end that is another character. */
  lemma {:induction false} RemoveEnds(s: string, c: char)
    requires s != "" && s[|s| - 1] != c && s[0] != c
    ensures Remove(s, c) != ""
    ensures Remove(s, c)[0] == s[0] && Remove(s, c)[|Remove(s, c)| - 1] == s[|s| - 1]
  {
    var n := |s| - 1;
    assert s == s[..n] + [s[n]];
    RemoveConcat(s[..n], [s[n]], c);
    assert Remove([s[n]], c) == [s[n]];
  }

  /** The single split of a band falls between its two numbers. */
  lemma {:induction false} ParseBand(left: string, right: string)
    requires left != "" && left[0] == '$' && '-' !in left
    requires right != "" && !IsSpace(right[|right| - 1])
    ensures ParseAmountRange(left + ['-'] + right) == (ToNumber(left), ToNumber(right))
  {
    var text := left + ['-'] + right;
    assert text[0] == '$' && text[|text| - 1] == right[|right| - 1];
    StripNothing(text);
    assert Lower(text)[0] == '$' != "over"[0];
    SplitFirstAt(left, '-', right);
  }

  predicate IsWhole(r: real) {
    r == r.Floor as real
  }

  lemma {:induction false} RoundWhole(r: real)
    ensures RoundHalfEven(r) as real == r <==> IsWhole(r)
    ensures RoundHalfEven(-r) as real == -r <==> IsWhole(r)
  {
    assert IsWhole(r) ==> (-r).Floor == -(r.Floor);
    assert IsWhole(-r) ==> r.Floor == -((-r).Floor);
  }

  lemma {:induction false} FormatWholeEnds(r: real)
    ensures FormatWhole(r) != "" && IsDigit(FormatWhole(r)[|FormatWhole(r)| - 1])
    ensures r >= 0.0 ==> '-' !in FormatWhole(r)
  {
    CommasStrip(RoundHalfEven(if r < 0.0 then -r else r));
  }

  lemma {:induction false} ReadBackNonNegative(a: real, b: real)
    requires a >= 0.0
    ensures var (low, high) := ParseAmountRange(FormatAmount(Some(a), Some(b)));
            low == Some(RoundHalfEven(a) as real)
            && high == Some(if b < 0.0 then -(RoundHalfEven(-b) as real) else RoundHalfEven(b) as real)
  {
    hide ParseAmountRange, FormatWhole, ToNumber, RoundHalfEven, Commas;
    var left, right := "$" + FormatWhole(a), "$" + FormatWhole(b);
    FormatWholeEnds(a);
    FormatWholeEnds(b);
    assert right[|right| - 1] == FormatWhole(b)[|FormatWhole(b)| - 1];
    assert FormatAmount(Some(a), Some(b)) == left + ['-'] + right;
    ParseBand(left, right);
    ToNumberOfWhole(a, "$", "");
    ToNumberOfWhole(b, "$", "");
    assert left + "" == left && right + "" == right;
  }

  /** The sign of a negative lower amount is taken for the dash of the band. */
  lemma {:induction false} NegativeLowIsLost(a: real, b: real)
    requires a < 0.0
    ensures ParseAmountRange(FormatAmount(Some(a), Some(b))).0 == None
  {
    hide ParseAmountRange, FormatAmount, ToNumber, Commas, RoundHalfEven;
    FormatWholeEnds(b);
    var rest := Commas(RoundHalfEven(-a)) + "-$" + FormatWhole(b);
    assert rest[|rest| - 1] == FormatWhole(b)[|FormatWhole(b)| - 1];
    NegativeText(a, b);
    ParseBand("$", rest);
    DollarAlone();
  }

  lemma {:induction false} NegativeText(a: real, b: real)
    requires a < 0.0
    ensures FormatAmount(Some(a), Some(b)) == "$" + ['-'] + (Commas(RoundHalfEven(-a)) + "-$" + FormatWhole(b))
  {
    hide Commas, RoundHalfEven;
  }

  lemma {:induction false} DollarAlone()
    ensures ToNumber("$") == None
  {
    RemoveShort('$');
    assert Remove("$", '$') == "" && Remove("", ',') == "";
  }

  /** Reading back a printed pair of amounts gives the pair exactly when both are whole
      dollars and the lower one is not negative. */
  lemma {:induction false} FormatParseRoundTrip(a: real, b: real)
    ensures ParseAmountRange(FormatAmount(Some(a), Some(b))) == (Some(a), Some(b))
            <==> a >= 0.0 && IsWhole(a) && IsWhole(b)
  {
    RoundWhole(a);
    RoundWhole(b);
    if a >= 0.0 {
      ReadBackNonNegative(a, b);
    } else {
      NegativeLowIsLost(a, b);
    }
  }

  // ---- decimals ----

  function Zeros(n: nat): string {
    seq(n, _ => '0')
  }

  lemma {:induction false} ZerosScale(n: nat)
    ensures AllDigits("1" + Zeros(n)) && NatOf("1" + Zeros(n)) == Pow10(n)
  {
    if n == 0 {
      assert "1" + Zeros(0) == "1" && "1"[..0] == "";
      assert NatOf("1") == 10 * NatOf("") + 1;
    } else {
      ZerosScale(n - 1);
      assert "1" + Zeros(n) == ("1" + Zeros(n - 1)) + ['0'];
      NatOfSnoc("1" + Zeros(n - 1), '0');
    }
  }

  lemma {:induction false} NatOfConcat(a: string, b: string)
    requires AllDigits(a) && AllDigits(b)
    ensures AllDigits(a + b) && NatOf(a + b) == NatOf(a) * Pow10(|b|) + NatOf(b)
  {
    if b == "" {
      assert a + b == a;
    } else {
      var n := |b| - 1;
      NatOfConcat(a, b[..n]);
      assert a + b == (a + b[..n]) + [b[n]];
      NatOfSnoc(a + b[..n], b[n]);
      assert NatOf(a) * Pow10(|b|) == 10 * (NatOf(a) * Pow10(n));
    }
  }

  lemma {:induction false} PointReads(whole: string, frac: string)
    requires AllDigits(whole) && AllDigits(frac) && whole + frac != ""
    ensures ParseUnsigned(whole + "." + frac)
         == Some(NatOf(whole) as real + NatOf(frac) as real / Pow10(|frac|) as real)
  {
    hide NatOf, Pow10, SplitFirst;
    SplitFirstAt(whole, '.', frac);
    assert whole + "." + frac == whole + ['.'] + frac;
  }

  lemma {:induction false} SignReads(text: string)
    requires text != "" && text[0] != '-' && text[0] != '+'
    ensures ParseFloat(text) == ParseUnsigned(text) && ParseFloat("+" + text) == ParseUnsigned(text)
    ensures ParseUnsigned(text).Some? ==> ParseFloat("-" + text) == Some(-ParseUnsigned(text).value)
  {
    hide ParseUnsigned;
    assert ("+" + text)[1..] == text && ("-" + text)[1..] == text;
  }

  lemma {:induction false} Scaled(a: nat, f: nat, p: nat) returns (v: real)
    requires p > 0
    ensures v == a as real + f as real / p as real && v * p as real == (a * p + f) as real
  {
    v := a as real + f as real / p as real;
    var x, y, z := a as real, f as real, p as real;
    assert (x + y / z) * z == x * z + y;
    assert x * z == (a * p) as real;
  }

  /** A number with a decimal point reads as its digits without the point, scaled down by a one with as many
      zeros as there are digits behind it; with a sign in front it reads signed. */
  lemma {:induction false} DecimalReads(whole: string, frac: string) returns (v: real)
    requires AllDigits(whole) && AllDigits(frac) && whole + frac != ""
    ensures AllDigits(whole + frac) && AllDigits("1" + Zeros(|frac|))
    ensures v * NatOf("1" + Zeros(|frac|)) as real == NatOf(whole + frac) as real
    ensures ParseFloat(whole + "." + frac) == Some(v)
    ensures ParseFloat("+" + (whole + "." + frac)) == Some(v) && ParseFloat("-" + (whole + "." + frac)) == Some(-v)
  {
    hide NatOf, Pow10, ParseUnsigned, ParseFloat;
    ZerosScale(|frac|);
    NatOfConcat(whole, frac);
    v := Scaled(NatOf(whole), NatOf(frac), Pow10(|frac|));
    PointReads(whole, frac);
    assert (whole + "." + frac)[0] == if whole == "" then '.' else whole[0];
    assert whole != "" ==> IsDigit(whole[0]);
    SignReads(whole + "." + frac);
  }

  /** What is printed for whole dollars: each number after a dollar sign, with a comma at every fourth place
      from the right and the digits of its value, and a dash between; nothing when either bound is missing. */
  lemma {:induction false} PairPrints(a: nat, b: nat) returns (low: string, high: string)
    ensures FormatAmount(Some(a as real), Some(b as real)) == "$" + low + "-$" + high
    ensures CommaEveryFourth(low) && AllDigits(Remove(low, ',')) && NatOf(Remove(low, ',')) == a
    ensures CommaEveryFourth(high) && AllDigits(Remove(high, ',')) && NatOf(Remove(high, ',')) == b
    ensures FormatAmount(None, Some(b as real)) == "" == FormatAmount(Some(a as real), None)
  {
    hide RoundHalfEven, Commas, NatOf, Remove, CommaEveryFourth, AllDigits;
    low, high := Commas(a), Commas(b);
    WholeText(a);
    WholeText(b);
    CommasStrip(a);
    CommasStrip(b);
    CommasGrouping(a);
    CommasGrouping(b);
    assert FormatWhole(a as real) == Commas(a);
  }

  lemma {:induction false} WholeText(n: nat)
    ensures FormatWhole(n as real) == Commas(n) && RoundHalfEven(n as real) == n
  {
    RoundWhole(n as real);
  }

  /** The open-ended band: "Over $50,000,000". */
  lemma {:induction false} ParseOver(n: nat)
    ensures ParseAmountRange(Join(["Over", "$" + Commas(n)])) == (Some(n as real), None)
  {
    hide ParseAmountRange, Commas, ToNumber;
    CommasStrip(n);
    assert ["Over", "$" + Commas(n)][1..] == ["$" + Commas(n)];
    assert Join(["Over", "$" + Commas(n)]) == "Over " + ['$'] + Commas(n);
    OverText(Commas(n));
    WholeText(n);
    ToNumberOfWhole(n as real, "", "");
    assert "" + Commas(n) + "" == Commas(n);
  }

  lemma {:induction false} OverText(number: string)
    requires number != "" && !IsSpace(number[|number| - 1])
    ensures ParseAmountRange("Over " + ['$'] + number) == (ToNumber(number), None)
  {
    hide ToNumber;
    var text := "Over " + ['$'] + number;
    assert text[0] == 'O' && text[|text| - 1] == number[|number| - 1];
    StripNothing(text);
    assert Lower(text)[..4] == "over";
    SplitFirstAt("Over ", '$', number);
  }

  lemma {:induction false} JoinBand(a: string, b: string)
    ensures Join([a, "-", b]) == (a + " ") + ['-'] + (" " + b)
  {
    assert [a, "-", b][1..] == ["-", b] && ["-", b][1..] == [b];
    assert Join(["-", b]) == "-" + " " + b;
  }

  lemma {:induction false} ParseSpaced(a: string, b: string)
    requires a != "" && a[0] == '$' && '-' !in a
    requires b != "" && !IsSpace(b[|b| - 1])
    ensures ParseAmountRange(Join([a, "-", b])) == (ToNumber(a + " "), ToNumber(" " + b))
  {
    JoinBand(a, b);
    var left, right := a + " ", " " + b;
    assert left[0] == '$' && right[|right| - 1] == b[|b| - 1];
    ParseBand(left, right);
  }

  lemma {:induction false} ToNumberOfCommas(n: nat)
    ensures ToNumber("$" + Commas(n) + " ") == ToNumber(" " + ("$" + Commas(n))) == Some(n as real)
  {
    WholeText(n);
    ToNumberOfWhole(n as real, "$", " ");
    ToNumberOfWhole(n as real, " $", "");
    assert " " + ("$" + Commas(n)) == " $" + Commas(n) + "";
  }

  /** A closed band as the forms print it: "$15,001 - $50,000". */
  lemma {:induction false} ParseClosed(low: nat, high: nat)
    ensures ParseAmountRange(Join(["$" + Commas(low), "-", "$" + Commas(high)]))
         == (Some(low as real), Some(high as real))
  {
    CommasStrip(low);
    CommasStrip(high);
    var a, b := "$" + Commas(low), "$" + Commas(high);
    assert b[|b| - 1] == Commas(high)[|Commas(high)| - 1];
    ParseSpaced(a, b);
    ToNumberOfCommas(low);
    ToNumberOfCommas(high);
  }

  // ---- texts that are no band ----

  lemma {:induction false} PlainText(text: string)
    requires Trim(text) && text != "" && !StartsWith(Lower(text), "over") && '-' !in text
    ensures ParseAmountRange(text) == (None, None)
  {
    StripNothing(text);
  }

  lemma {:induction false} JoinOfThree(a: string, b: string, d: string)
    ensures Join([a, b, d]) == a + " " + (b + " " + d)
  {
    assert [a, b, d][1..] == [b, d] && [b, d][1..] == [d];
    assert Join([d]) == d;
    assert Join([b, d]) == b + " " + d;
  }

  /** "Spouse/DC Over $1,000,000" reads as no amount. */
  lemma {:induction false} SpouseReads(low: nat)
    ensures ParseAmountRange(Join(["Spouse/DC", "Over", "$" + Commas(low)])) == (None, None)
  {
    hide ParseAmountRange;
    CommasStrip(low);
    var a, b, d := "Spouse/DC", "Over", "$" + Commas(low);
    JoinOfThree(a, b, d);
    var text := a + " " + (b + " " + d);
    assert d[|d| - 1] == Commas(low)[|Commas(low)| - 1];
    assert text[0] == 'S' && Lower(text)[0] == 's' && text[|text| - 1] == d[|d| - 1];
    assert '-' !in a && '-' !in b && '-' !in d;
    PlainText(text);
  }
}
