/** The patterns at the end of an asset description: a ticker in parentheses and a type code in brackets
    (`parsers/house_ptr.py`, `parsers/house_fd.py`, `ingest/transcribed_ptrs.py`). */
module AssetNames {
  import opened Optional
  import opened Text

  predicate IsCapital(c: char) {
    'A' <= c <= 'Z'
  }

  predicate IsLetter(c: char) {
    IsCapital(c) || 'a' <= c <= 'z'
  }

  /** `[A-Za-z0-9.\-/]` */
  predicate IsTickerChar(c: char) {
    IsLetter(c) || '0' <= c <= '9' || c in {'.', '-', '/'}
  }

  /** `[A-Z.\-]` */
  predicate IsCapitalTickerChar(c: char) {
    IsCapital(c) || c in {'.', '-'}
  }

  /** How many characters at the end of the text pass. */
  function RunBack(s: string, ok: char -> bool): (n: nat)
    ensures n <= |s|
  {
    if s != "" && ok(s[|s| - 1]) then RunBack(s[..|s| - 1], ok) + 1 else 0
  }

  /** What stands between `open` and `close` at the very end of the text, and the text before it. */
  function Enclosed(s: string, open: char, close: char, ok: char -> bool, max: nat): Option<(string, string)> {
    if s == "" || s[|s| - 1] != close then None
    else
      var inner := s[..|s| - 1];
      var n := RunBack(inner, ok);
      if 1 <= n <= max && n < |inner| && inner[|inner| - n - 1] == open
      then Some((inner[..|inner| - n - 1], inner[|inner| - n..]))
      else None
  }

  const MAX_TICKER := 15
  const MAX_TYPE := 4
  const MAX_TRANSCRIBED_TICKER := 6

  function TickerAtEnd(s: string): Option<(string, string)> {
    Enclosed(StripRight(s), '(', ')', IsTickerChar, MAX_TICKER)
  }

  function TypeAtEnd(s: string): Option<(string, string)> {
    Enclosed(StripRight(s), '[', ']', IsLetter, MAX_TYPE)
  }

  /** A ticker before a type code, or else a type code alone, or else a ticker alone. */
  function TickerAndType(asset: string): (Option<string>, Option<string>) {
    match TypeAtEnd(asset)
    case Some((before, kind)) =>
      (match TickerAtEnd(before)
       case Some((_, ticker)) => (Some(Upper(ticker)), Some(Upper(kind)))
       case None => (None, Some(Upper(kind))))
    case None =>
      match TickerAtEnd(asset)
      case Some((_, ticker)) => (Some(Upper(ticker)), None)
      case None => (None, None)
  }

  /** The pattern over a transcribed name: capitals only, and a letter first. */
  function TickerInName(name: string): Option<string> {
    match Enclosed(StripRight(name), '(', ')', IsCapitalTickerChar, MAX_TRANSCRIBED_TICKER)
    case Some((_, ticker)) => if IsCapital(ticker[0]) then Some(ticker) else None
    case None => None
  }

  // ---- what the patterns match ----

  predicate AllPass(s: string, ok: char -> bool) {
    forall c | c in s :: ok(c)
  }

  lemma {:induction false} RunBackPasses(s: string, ok: char -> bool)
    ensures AllPass(s[|s| - RunBack(s, ok)..], ok)
    ensures RunBack(s, ok) < |s| ==> !ok(s[|s| - RunBack(s, ok) - 1])
  {
    if s != "" && ok(s[|s| - 1]) {
      var init := s[..|s| - 1];
      RunBackPasses(init, ok);
      var n := RunBack(init, ok);
      assert s[|s| - n - 1..] == init[|init| - n..] + [s[|s| - 1]];
    }
  }

  lemma {:induction false} RunBackIs(before: string, c: char, body: string, ok: char -> bool)
    requires !ok(c) && AllPass(body, ok)
    ensures RunBack(before + [c] + body, ok) == |body|
  {
    var s := before + [c] + body;
    if body == "" {
      assert s[|s| - 1] == c;
    } else {
      var init := body[..|body| - 1];
      assert s[|s| - 1] == body[|body| - 1] && body[|body| - 1] in body;
      assert s[..|s| - 1] == before + [c] + init;
      assert forall d | d in init :: d in body;
      RunBackIs(before, c, init, ok);
    }
  }

  /** Exactly what stands between the marks at the end is read. */
  lemma {:induction false} EnclosedIff(s: string, open: char, close: char, ok: char -> bool, max: nat,
                                       before: string, body: string)
    requires !ok(open)
    ensures Enclosed(s, open, close, ok, max) == Some((before, body))
       <==> s == before + [open] + body + [close] && 1 <= |body| <= max && AllPass(body, ok)
  {
    if s == before + [open] + body + [close] && AllPass(body, ok) {
      var inner := before + [open] + body;
      assert s[..|s| - 1] == inner && s[|s| - 1] == close;
      RunBackIs(before, open, body, ok);
      assert inner[|before| + 1..] == body && inner[..|before|] == before && inner[|before|] == open;
    }
    if Enclosed(s, open, close, ok, max) == Some((before, body)) {
      var inner := s[..|s| - 1];
      RunBackPasses(inner, ok);
      assert inner == before + [open] + body;
      assert s == inner + [close];
    }
  }

  /** `body` between the marks at the end of the text, with nothing but white space behind. */
  ghost predicate EndsWithMarked(s: string, before: string, open: char, body: string, close: char) {
    exists gap | AllBlank(gap) :: s == before + [open] + body + [close] + gap
  }

  lemma {:induction false} StripRightOf(s: string, gap: string)
    requires AllBlank(gap) && (s == "" || !IsSpace(s[|s| - 1]))
    ensures StripRight(s + gap) == s
  {
    if gap == "" {
      assert s + gap == s;
    } else {
      var n := |gap| - 1;
      assert gap[n] in gap && forall c | c in gap[..n] :: c in gap;
      assert (s + gap)[..|s + gap| - 1] == s + gap[..n];
      StripRightOf(s, gap[..n]);
    }
  }

  /** With white space after it, too. */
  lemma {:induction false} MarkedIff(s: string, open: char, close: char, ok: char -> bool, max: nat, before: string,
                                     body: string)
    requires !ok(open) && !IsSpace(close)
    ensures Enclosed(StripRight(s), open, close, ok, max) == Some((before, body))
       <==> EndsWithMarked(s, before, open, body, close) && 1 <= |body| <= max && AllPass(body, ok)
  {
    hide Enclosed;
    var after := StripRightIs(s);
    EnclosedIff(StripRight(s), open, close, ok, max, before, body);
    var marked := before + [open] + body + [close];
    if gap :| AllBlank(gap) && s == before + [open] + body + [close] + gap {
      assert marked[|marked| - 1] == close;
      StripRightOf(marked, gap);
    }
  }

  /** A ticker of at most fifteen letters, digits, dots, dashes and slashes. */
  predicate IsTicker(s: string) {
    1 <= |s| <= 15 && forall c | c in s :: 'A' <= c <= 'Z' || 'a' <= c <= 'z' || '0' <= c <= '9' || c in ".-/"
  }

  /** A type code of at most four letters. */
  predicate IsTypeCode(s: string) {
    1 <= |s| <= 4 && forall c | c in s :: 'A' <= c <= 'Z' || 'a' <= c <= 'z'
  }

  /** The description ends in "(ticker)", in "[kind]", in one after the other. */
  ghost predicate NamesTicker(asset: string, before: string, ticker: string) {
    EndsWithMarked(asset, before, '(', ticker, ')') && IsTicker(ticker)
  }

  ghost predicate NamesType(asset: string, before: string, kind: string) {
    EndsWithMarked(asset, before, '[', kind, ']') && IsTypeCode(kind)
  }

  lemma {:induction false} TickerAtEndIff(s: string, before: string, ticker: string)
    ensures TickerAtEnd(s) == Some((before, ticker)) <==> NamesTicker(s, before, ticker)
  {
    hide Enclosed, EndsWithMarked;
    MarkedIff(s, '(', ')', IsTickerChar, MAX_TICKER, before, ticker);
  }

  lemma {:induction false} TypeAtEndIff(s: string, before: string, kind: string)
    ensures TypeAtEnd(s) == Some((before, kind)) <==> NamesType(s, before, kind)
  {
    hide Enclosed, EndsWithMarked;
    MarkedIff(s, '[', ']', IsLetter, MAX_TYPE, before, kind);
  }

  /** A description that ends in a ticker and a type code gives both, in capitals; one that ends in a type
      code with no ticker before it the type alone; one that ends in a ticker the ticker alone; and any
      other neither. */
  lemma {:induction false} TickerAndTypeIs(asset: string)
    ensures forall before, kind, rest, ticker | NamesType(asset, before, kind) && NamesTicker(before, rest, ticker) ::
              TickerAndType(asset) == (Some(Upper(ticker)), Some(Upper(kind)))
    ensures forall before, kind | NamesType(asset, before, kind) && NoTicker(before) ::
              TickerAndType(asset) == (None, Some(Upper(kind)))
    ensures forall rest, ticker | NamesTicker(asset, rest, ticker) ::
              TickerAndType(asset) == (Some(Upper(ticker)), None)
    ensures NoTicker(asset) && NoType(asset) ==> TickerAndType(asset) == (None, None)
  {
    hide NamesTicker, NamesType, TickerAtEnd, TypeAtEnd;
    forall before, kind ensures TypeAtEnd(asset) == Some((before, kind)) <==> NamesType(asset, before, kind) {
      TypeAtEndIff(asset, before, kind);
    }
    forall s, rest, ticker ensures TickerAtEnd(s) == Some((rest, ticker)) <==> NamesTicker(s, rest, ticker) {
      TickerAtEndIff(s, rest, ticker);
    }
    forall rest, ticker, before, kind | NamesTicker(asset, rest, ticker) ensures !NamesType(asset, before, kind) {
      NotBoth(asset, rest, ticker, before, kind);
    }
  }

  ghost predicate NoTicker(asset: string) {
    forall before, ticker :: !NamesTicker(asset, before, ticker)
  }

  ghost predicate NoType(asset: string) {
    forall before, kind :: !NamesType(asset, before, kind)
  }

  lemma {:induction false} NotBoth(asset: string, rest: string, ticker: string, before: string, kind: string)
    requires NamesTicker(asset, rest, ticker)
    ensures !NamesType(asset, before, kind)
  {
    if NamesType(asset, before, kind) {
      var x, y := rest + ['('] + ticker + [')'], before + ['['] + kind + [']'];
      var g :| AllBlank(g) && asset == x + g;
      var h :| AllBlank(h) && asset == y + h;
      assert x[|x| - 1] == ')' && y[|y| - 1] == ']';
      StripRightOf(x, g);
      StripRightOf(y, h);
      assert false;
    }
  }

  lemma {:induction false} JoinLast(name: seq<string>, word: string)
    requires name != []
    ensures Join(name + [word]) == Join(name) + " " + word
  {
    JoinConcat(name, [word]);
    assert Join([word]) == word;
  }

  lemma {:induction false} MarkedAtEnd(before: string, open: char, body: string, close: char)
    ensures EndsWithMarked(before + [open] + body + [close], before, open, body, close)
  {
    var s := before + [open] + body + [close];
    assert s == before + [open] + body + [close] + "" && AllBlank("");
  }

  lemma {:induction false} NoTickerBehind(s: string)
    requires Trim(s) && !EndsWith(s, ")")
    ensures NoTicker(s + " ")
  {
    forall before, ticker ensures !NamesTicker(s + " ", before, ticker) {
      if NamesTicker(s + " ", before, ticker) {
        var x := before + ['('] + ticker + [')'];
        var gap :| AllBlank(gap) && s + " " == x + gap;
        assert x[|x| - 1] == ')' && EndsWith(x, ")");
        StripRightOf(x, gap);
        StripRightOf(s, " ");
        assert false;
      }
    }
  }

  /** A name printed as words reads as it is printed: with a ticker and a type code, with a ticker alone, and
      with a type code alone when its last word closes no parenthesis. */
  lemma {:induction false} PrintedNameReads(name: seq<string>, ticker: string, kind: string)
    requires name != [] && (forall w | w in name :: IsWord(w)) && IsTicker(ticker) && IsTypeCode(kind)
    ensures TickerAndType(Join(name + ["(" + ticker + ")", "[" + kind + "]"]))
            == (Some(Upper(ticker)), Some(Upper(kind)))
    ensures TickerAndType(Join(name + ["(" + ticker + ")"])) == (Some(Upper(ticker)), None)
    ensures !EndsWith(Join(name), ")") ==> TickerAndType(Join(name + ["[" + kind + "]"])) == (None, Some(Upper(kind)))
  {
    hide TickerAndType, EndsWithMarked, IsTicker, IsTypeCode, Join, NoTicker;
    var words, t, k := Join(name), "(" + ticker + ")", "[" + kind + "]";
    JoinOfWords(name);
    JoinLast(name, t);
    JoinLast(name, k);
    JoinLast(name + [t], k);
    assert name + [t] + [k] == name + [t, k];
    var both := Join(name + [t]) + " ";
    TypeMarked(both, kind);
    TypeMarked(words + " ", kind);
    TickerMarked(words + " ", ticker, "");
    assert words + " " + t + "" == words + " " + t;
    TickerMarked(words + " ", ticker, " ");
    TickerAndTypeIs(Join(name + [t, k]));
    TickerAndTypeIs(Join(name + [t]));
    TickerAndTypeIs(Join(name + [k]));
    if !EndsWith(words, ")") {
      NoTickerBehind(words);
    }
  }

  lemma {:induction false} TypeMarked(before: string, kind: string)
    requires IsTypeCode(kind)
    ensures NamesType(before + ("[" + kind + "]"), before, kind)
  {
    hide EndsWithMarked;
    MarkedAtEnd(before, '[', kind, ']');
    assert before + ("[" + kind + "]") == before + ['['] + kind + [']'];
  }

  lemma {:induction false} TickerMarked(before: string, ticker: string, gap: string)
    requires IsTicker(ticker) && AllBlank(gap)
    ensures NamesTicker(before + ("(" + ticker + ")") + gap, before, ticker)
  {
    assert before + ("(" + ticker + ")") + gap == before + ['('] + ticker + [')'] + gap;
  }

  /** A transcribed name gives a ticker exactly when it ends in one to six capitals, dots and dashes in
      parentheses, the first a capital. */
  lemma {:induction false} TickerInNameIff(name: string, ticker: string)
    ensures TickerInName(name) == Some(ticker)
       <==> (exists before :: EndsWithMarked(name, before, '(', ticker, ')'))
            && 1 <= |ticker| <= 6 && 'A' <= ticker[0] <= 'Z' && forall c | c in ticker :: 'A' <= c <= 'Z' || c in ".-"
  {
    hide Enclosed, EndsWithMarked;
    forall before {
      MarkedIff(name, '(', ')', IsCapitalTickerChar, MAX_TRANSCRIBED_TICKER, before, ticker);
    }
  }
}
