/** Optional values: the collector's `X | None`. */
module Optional {
  datatype Option<+T> = None | Some(value: T)
}

/** The string operations the parsers use, on ASCII text. */
module Text {
  import opened Optional

  const NUL: char := '\0'

  function LowerChar(c: char): char {
    if 'A' <= c <= 'Z' then c + 32 as char else c
  }

  function UpperChar(c: char): char {
    if 'a' <= c <= 'z' then c - 32 as char else c
  }

  function Lower(s: string): string {
    seq(|s|, i requires 0 <= i < |s| => LowerChar(s[i]))
  }

  function Upper(s: string): string {
    seq(|s|, i requires 0 <= i < |s| => UpperChar(s[i]))
  }

  predicate OccursAt(s: string, t: string, i: nat) {
    i + |t| <= |s| && s[i..i + |t|] == t
  }

  /** `t in s` */
  predicate Contains(s: string, t: string) {
    exists i | 0 <= i <= |s| :: OccursAt(s, t, i)
  }

  predicate StartsWith(s: string, t: string) {
    t <= s
  }

  predicate EndsWith(s: string, t: string) {
    |t| <= |s| && s[|s| - |t|..] == t
  }

  predicate IsSpace(c: char) {
    c == ' ' || '\t' <= c <= '\r' || '\U{1C}' <= c <= '\U{1F}'
  }

  function StripLeft(s: string): string {
    if s != "" && IsSpace(s[0]) then StripLeft(s[1..]) else s
  }

  function StripRight(s: string): string {
    if s != "" && IsSpace(s[|s| - 1]) then StripRight(s[..|s| - 1]) else s
  }

  function Strip(s: string): string {
    StripRight(StripLeft(s))
  }

  /** `s.rstrip(":")` */
  function StripColons(s: string): string {
    if s != "" && s[|s| - 1] == ':' then StripColons(s[..|s| - 1]) else s
  }

  /** `s.replace(c, "")` */
  function Remove(s: string, c: char): string {
    if s == "" then "" else (if s[0] == c then "" else [s[0]]) + Remove(s[1..], c)
  }

  /** `s.split(c, 1)`: the text before and after the first `c`, if there is one. */
  function SplitFirst(s: string, c: char): (r: Option<(string, string)>)
    ensures r.Some? <==> c in s
    ensures r.Some? ==> s == r.value.0 + [c] + r.value.1 && c !in r.value.0
  {
    if s == "" then None
    else if s[0] == c then Some(("", s[1..]))
    else
      match SplitFirst(s[1..], c)
      case None => None
      case Some((before, after)) => Some(([s[0]] + before, after))
  }

  /** `" ".join(parts)` */
  function Join(parts: seq<string>): string {
    if parts == [] then ""
    else if |parts| == 1 then parts[0]
    else parts[0] + " " + Join(parts[1..])
  }

  // ---- laws ----

  /** A word as `extract_words` yields it: not empty, no white space. */
  predicate IsWord(s: string) {
    s != "" && forall c | c in s :: !IsSpace(c)
  }

  lemma {:induction false} SplitFirstAt(a: string, c: char, b: string)
    requires c !in a
    ensures SplitFirst(a + [c] + b, c) == Some((a, b))
  {
    var s := a + [c] + b;
    if a == "" {
      assert s[0] == c && s[1..] == b;
    } else {
      assert s[0] == a[0] && s[1..] == a[1..] + [c] + b;
      SplitFirstAt(a[1..], c, b);
      assert [a[0]] + a[1..] == a;
    }
  }

  lemma {:induction false} RemoveConcat(a: string, b: string, c: char)
    ensures Remove(a + b, c) == Remove(a, c) + Remove(b, c)
  {
    if a == "" {
      assert a + b == b;
    } else {
      assert (a + b)[1..] == a[1..] + b;
      RemoveConcat(a[1..], b, c);
    }
  }

  lemma {:induction false} RemoveAbsent(s: string, c: char)
    requires c !in s
    ensures Remove(s, c) == s
  {
    if s != "" {
      RemoveAbsent(s[1..], c);
    }
  }

  /** Text whose ends `strip` leaves alone. */
  predicate Trim(s: string) {
    s == "" || (!IsSpace(s[0]) && !IsSpace(s[|s| - 1]))
  }

  lemma {:induction false} StripNothing(s: string)
    requires Trim(s)
    ensures Strip(s) == s
  {
  }

  lemma {:induction false} StripPadded(s: string)
    requires Trim(s)
    ensures Strip(" " + s) == s && Strip(s + " ") == s
  {
    assert (" " + s)[0] == ' ' && (" " + s)[1..] == s;
    assert StripLeft(" " + s) == StripLeft(s) == s;
    assert (s + " ")[|s|] == ' ' && (s + " ")[..|s|] == s;
    if s == "" {
      assert s + " " == " ";
      assert StripLeft(" ") == StripLeft("");
    } else {
      assert (s + " ")[0] == s[0];
      assert StripLeft(s + " ") == s + " ";
      assert StripRight(s + " ") == StripRight(s) == s;
    }
  }

  /** The same place in two alphabets of 26 letters, or the same character outside the first. */
  predicate SameLetter(from: char, to: char, c: char, d: char) {
    if 0 <= c as int - from as int < 26 then c as int - from as int == d as int - to as int else c == d
  }

  /** Changing the case changes letters to their counterparts and nothing else. */
  lemma {:induction false} CaseChanges(s: string, i: nat)
    requires i < |s|
    ensures |Upper(s)| == |s| && SameLetter('a', 'A', s[i], Upper(s)[i])
    ensures |Lower(s)| == |s| && SameLetter('A', 'a', s[i], Lower(s)[i])
  {
    assert Upper(s)[i] == UpperChar(s[i]) && Lower(s)[i] == LowerChar(s[i]);
  }

  /** The white space of ASCII: tab to carriage return, the four separators, and the space. */
  predicate AllBlank(s: string) {
    forall c | c in s :: c as int in {9, 10, 11, 12, 13, 28, 29, 30, 31, 32}
  }

  /** `strip` takes white space off both ends, as much as there is, and nothing else. */
  lemma {:induction false} StripIs(s: string) returns (before: string, after: string)
    ensures s == before + Strip(s) + after && AllBlank(before) && AllBlank(after)
    ensures Strip(s) == "" || (!AllBlank(Strip(s)[..1]) && !AllBlank(Strip(s)[|Strip(s)| - 1..]))
  {
    hide StripLeft, StripRight, AllBlank;
    before := StripLeftIs(s);
    after := StripRightIs(StripLeft(s));
    var t := Strip(s);
    assert s == before + t + after;
    if t != "" {
      assert t[0] == StripLeft(s)[0];
      EndsNotBlank(t);
    }
  }

  lemma {:induction false} EndsNotBlank(t: string)
    requires t != "" && !IsSpace(t[0]) && !IsSpace(t[|t| - 1])
    ensures !AllBlank(t[..1]) && !AllBlank(t[|t| - 1..])
  {
    assert t[..1] == [t[0]] && t[|t| - 1..] == [t[|t| - 1]];
    assert t[0] in t[..1] && t[|t| - 1] in t[|t| - 1..];
  }

  lemma {:induction false} StripLeftIs(s: string) returns (before: string)
    ensures s == before + StripLeft(s) && AllBlank(before)
    ensures StripLeft(s) != "" ==> !IsSpace(StripLeft(s)[0])
  {
    if s != "" && IsSpace(s[0]) {
      var rest := StripLeftIs(s[1..]);
      before := [s[0]] + rest;
    } else {
      before := "";
    }
  }

  lemma {:induction false} StripRightIs(s: string) returns (after: string)
    ensures s == StripRight(s) + after && AllBlank(after)
    ensures StripRight(s) != "" ==> !IsSpace(StripRight(s)[|StripRight(s)| - 1])
  {
    if s != "" && IsSpace(s[|s| - 1]) {
      var rest := StripRightIs(s[..|s| - 1]);
      after := rest + [s[|s| - 1]];
    } else {
      after := "";
    }
  }

  lemma {:induction false} JoinConcat(x: seq<string>, y: seq<string>)
    requires x != [] && y != []
    ensures Join(x + y) == Join(x) + " " + Join(y)
  {
    if |x| == 1 {
      assert (x + y)[1..] == y;
    } else {
      assert (x + y)[1..] == x[1..] + y;
      JoinConcat(x[1..], y);
      assert Join(x) == x[0] + " " + Join(x[1..]);
      assert Join(x + y) == x[0] + " " + (Join(x[1..]) + " " + Join(y));
    }
  }

  /** Joining words never makes white space at either end. */
  lemma {:induction false} JoinOfWords(parts: seq<string>)
    requires forall p | p in parts :: IsWord(p)
    ensures Trim(Join(parts)) && Strip(Join(parts)) == Join(parts)
    ensures parts != [] ==> Join(parts) != ""
  {
    if |parts| == 1 {
      assert IsWord(parts[0]);
    } else if |parts| > 1 {
      JoinOfWords(parts[1..]);
      assert IsWord(parts[0]);
      var head, tail := parts[0], Join(parts[1..]);
      assert (head + " " + tail)[0] == head[0];
      assert (head + " " + tail)[|head + " " + tail| - 1] == tail[|tail| - 1];
    }
    StripNothing(Join(parts));
  }
}
