/** Clustering a page's words into visual lines (`_group_lines`, `parsers/house_ptr.py`). */
module Lines {
  import opened Sorting

  datatype Word = Word(text: string, x0: real, top: real)

  type Line = seq<Word>

  const ROW_TOLERANCE: real := 3.0

  function ByTopThenX(w: Word): Key { (w.top, w.x0) }

  function ByX(w: Word): Key { (w.x0, 0.0) }

  function Abs(r: real): real { if r < 0.0 then -r else r }

  predicate Near(w: Word, top: real) {
    Abs(w.top - top) <= ROW_TOLERANCE
  }

  /** How many leading words stay within tolerance of `top`. */
  function NearPrefix(words: seq<Word>, top: real): (n: nat)
    ensures n <= |words|
    ensures forall i | 0 <= i < n :: Near(words[i], top)
    ensures n < |words| ==> !Near(words[n], top)
  {
    if words == [] || !Near(words[0], top) then 0 else 1 + NearPrefix(words[1..], top)
  }

  /** The clusters of an ordered list: each is anchored at its first word. */
  function Clusters(ordered: seq<Word>): (groups: seq<Line>)
    ensures forall i | 0 <= i < |groups| :: groups[i] != []
  {
    if ordered == [] then []
    else
      var n := NearPrefix(ordered, ordered[0].top);
      [ordered[..n]] + Clusters(ordered[n..])
  }

  function SortEach(groups: seq<Line>): (lines: seq<Line>)
    ensures |lines| == |groups|
    ensures forall i | 0 <= i < |groups| :: lines[i] == Sort(groups[i], ByX)
  {
    if groups == [] then [] else [Sort(groups[0], ByX)] + SortEach(groups[1..])
  }

  function Grouped(words: seq<Word>): seq<Line> {
    SortEach(Clusters(Sort(words, ByTopThenX)))
  }

  function Flatten<T>(parts: seq<seq<T>>): seq<T> {
    if parts == [] then [] else parts[0] + Flatten(parts[1..])
  }

  method GroupLines(words: seq<Word>) returns (lines: seq<Line>)
    ensures lines == Grouped(words)
  {
    if words == [] {
      return [];
    }
    var ordered := Sort(words, ByTopThenX);
    SortSorts(words, ByTopThenX);
    lines := [];
    var currentLine := [ordered[0]];
    var currentTop := ordered[0].top;
    Open(words, ordered);
    for i := 1 to |ordered|
      invariant ordered == Sort(words, ByTopThenX)
      invariant currentLine != [] && currentTop == currentLine[0].top
      invariant Gathered(words, lines, currentLine, ordered[i..])
    {
      var word := ordered[i];
      if Abs(word.top - currentTop) <= ROW_TOLERANCE {
        Absorb(words, lines, currentLine, ordered, i);
        currentLine := currentLine + [word];
      } else {
        CloseGroup(words, lines, currentLine, ordered, i);
        lines := lines + [Sort(currentLine, ByX)];
        currentLine := [word];
        currentTop := word.top;
      }
    }
    CloseLast(words, lines, currentLine, ordered[|ordered|..]);
    lines := lines + [Sort(currentLine, ByX)];
  }

  predicate AllNear(words: seq<Word>, top: real) {
    forall i | 0 <= i < |words| :: Near(words[i], top)
  }

  /** `lines` are finished, `g` is the open group and `rest` is still to be read. */
  ghost predicate Gathered(words: seq<Word>, lines: seq<Line>, g: Line, rest: seq<Word>) {
    && g != [] && AllNear(g, g[0].top)
    && Grouped(words) == lines + SortEach(Clusters(g + rest))
  }

  lemma {:induction false} Open(words: seq<Word>, ordered: seq<Word>)
    requires ordered == Sort(words, ByTopThenX) && ordered != []
    ensures Gathered(words, [], [ordered[0]], ordered[1..])
  {
    assert [ordered[0]] + ordered[1..] == ordered;
  }

  lemma {:induction false} Absorb(words: seq<Word>, lines: seq<Line>, g: Line, ordered: seq<Word>, i: nat)
    requires i < |ordered| && Gathered(words, lines, g, ordered[i..]) && Near(ordered[i], g[0].top)
    ensures Gathered(words, lines, g + [ordered[i]], ordered[i + 1..])
  {
    assert g + ordered[i..] == (g + [ordered[i]]) + ordered[i + 1..];
  }

  lemma {:induction false} CloseGroup(words: seq<Word>, lines: seq<Line>, g: Line, ordered: seq<Word>, i: nat)
    requires i < |ordered| && Gathered(words, lines, g, ordered[i..]) && !Near(ordered[i], g[0].top)
    ensures Gathered(words, lines + [Sort(g, ByX)], [ordered[i]], ordered[i + 1..])
  {
    hide Clusters, SortEach, Sort, Grouped;
    FirstLine(g, ordered[i..]);
    Shift(lines, Sort(g, ByX), SortEach(Clusters(ordered[i..])));
    assert [ordered[i]] + ordered[i + 1..] == ordered[i..];
  }

  lemma {:induction false} FirstLine(g: Line, rest: seq<Word>)
    requires g != [] && AllNear(g, g[0].top)
    requires rest != [] ==> !Near(rest[0], g[0].top)
    ensures SortEach(Clusters(g + rest)) == [Sort(g, ByX)] + SortEach(Clusters(rest))
  {
    ClusterCloses(g, rest);
    var cs := Clusters(rest);
    assert ([g] + cs)[1..] == cs;
  }

  lemma {:induction false} Shift<T>(a: seq<T>, x: T, b: seq<T>)
    ensures a + ([x] + b) == (a + [x]) + b
  {
  }

  lemma {:induction false} CloseLast(words: seq<Word>, lines: seq<Line>, g: Line, rest: seq<Word>)
    requires Gathered(words, lines, g, rest) && rest == []
    ensures Grouped(words) == lines + [Sort(g, ByX)]
  {
    hide Clusters, Sort, Grouped;
    FirstLine(g, rest);
    assert SortEach(Clusters([])) == [] by { NoLines(); }
  }

  lemma {:induction false} NoLines()
    ensures SortEach(Clusters([])) == []
  {
  }

  lemma {:induction false} NearPrefixExact(words: seq<Word>, n: nat, top: real)
    requires n <= |words|
    requires forall i | 0 <= i < n :: Near(words[i], top)
    requires n < |words| ==> !Near(words[n], top)
    ensures NearPrefix(words, top) == n
  {
  }

  /** A group is closed by the first word out of tolerance of the group's first word. */
  lemma {:induction false} ClusterCloses(g: Line, rest: seq<Word>)
    requires g != [] && AllNear(g, g[0].top)
    requires rest != [] ==> !Near(rest[0], g[0].top)
    ensures Clusters(g + rest) == [g] + Clusters(rest)
  {
    var s := g + rest;
    assert forall i | 0 <= i < |g| :: s[i] == g[i];
    NearPrefixExact(s, |g|, s[0].top);
    assert s[..|g|] == g && s[|g|..] == rest;
  }

  // ---- what clustering keeps ----

  lemma {:induction false} ClustersFlatten(ordered: seq<Word>)
    ensures Flatten(Clusters(ordered)) == ordered
  {
    if ordered != [] {
      var n := NearPrefix(ordered, ordered[0].top);
      assert Near(ordered[0], ordered[0].top);
      ClustersFlatten(ordered[n..]);
      var gs := Clusters(ordered[n..]);
      assert ([ordered[..n]] + gs)[1..] == gs;
    }
  }

  lemma {:induction false} SortEachFlatten(groups: seq<Line>)
    ensures multiset(Flatten(SortEach(groups))) == multiset(Flatten(groups))
  {
    if groups != [] {
      SortEachFlatten(groups[1..]);
      SortSorts(groups[0], ByX);
    }
  }

  predicate InReadingOrder(line: Line) {
    forall i, j | 0 <= i < j < |line| :: line[i].x0 <= line[j].x0
  }

  /** Any two words of a line differ by at most the tolerance of three points in height. */
  predicate WithinTolerance(line: Line) {
    forall v, w | v in line && w in line :: v.top - w.top <= 3.0
  }

  lemma {:induction false} ClustersWithinTolerance(ordered: seq<Word>)
    requires Sorted(ordered, ByTopThenX)
    ensures forall i | 0 <= i < |Clusters(ordered)| :: WithinTolerance(Clusters(ordered)[i])
  {
    if ordered != [] {
      var n := NearPrefix(ordered, ordered[0].top);
      ClustersWithinTolerance(ordered[n..]);
      var g := ordered[..n];
      forall v, w | v in g && w in g ensures v.top - w.top <= ROW_TOLERANCE {
        var i :| 0 <= i < n && ordered[i] == v;
        var j :| 0 <= j < n && ordered[j] == w;
        assert Near(ordered[i], ordered[0].top);
        assert j > 0 ==> Le(ByTopThenX(ordered[0]), ByTopThenX(ordered[j]));
      }
    }
  }

  /** The lines of a page are not empty, hold exactly the page's words, each read left to
      right, each of them within the row tolerance. */
  lemma {:induction false} GroupedIsClustering(words: seq<Word>)
    ensures multiset(Flatten(Grouped(words))) == multiset(words)
    ensures forall l | l in Grouped(words) :: l != [] && InReadingOrder(l) && WithinTolerance(l)
  {
    var ordered := Sort(words, ByTopThenX);
    SortSorts(words, ByTopThenX);
    ClustersFlatten(ordered);
    SortEachFlatten(Clusters(ordered));
    ClustersWithinTolerance(ordered);
    LinesWellFormed(Clusters(ordered));
  }

  lemma {:induction false} LinesWellFormed(groups: seq<Line>)
    requires forall i | 0 <= i < |groups| :: groups[i] != [] && WithinTolerance(groups[i])
    ensures forall l | l in SortEach(groups) :: l != [] && InReadingOrder(l) && WithinTolerance(l)
  {
    forall l | l in SortEach(groups) ensures l != [] && InReadingOrder(l) && WithinTolerance(l) {
      var i :| 0 <= i < |groups| && SortEach(groups)[i] == l;
      SortedLine(groups[i]);
    }
  }

  lemma {:induction false} SortedLine(g: Line)
    requires g != [] && WithinTolerance(g)
    ensures var l := Sort(g, ByX); l != [] && InReadingOrder(l) && WithinTolerance(l)
  {
    SortSorts(g, ByX);
    var l := Sort(g, ByX);
    forall i, j | 0 <= i < j < |l| ensures l[i].x0 <= l[j].x0 {
      assert Le(ByX(l[i]), ByX(l[j]));
    }
    forall v, w | v in l && w in l ensures v.top - w.top <= ROW_TOLERANCE {
      assert v in multiset(l) && w in multiset(l);
      assert v in multiset(g) && w in multiset(g);
    }
  }

  // ---- greedy clustering is optimal ----

  predicate FarApart(words: seq<Word>) {
    forall i, j | 0 <= i < j < |words| :: words[j].top - words[i].top > 3.0
  }

  predicate Covers(parts: seq<Line>, words: seq<Word>) {
    forall w | w in words :: exists p | p in parts :: w in p
  }

  /** The first word of every cluster. */
  function Anchors(groups: seq<Line>): (heads: seq<Word>)
    requires forall i | 0 <= i < |groups| :: groups[i] != []
    ensures |heads| == |groups|
    ensures forall i | 0 <= i < |groups| :: heads[i] == groups[i][0]
  {
    seq(|groups|, i requires 0 <= i < |groups| => groups[i][0])
  }

  lemma {:induction false} AnchorsFarApart(ordered: seq<Word>)
    requires Sorted(ordered, ByTopThenX)
    ensures FarApart(Anchors(Clusters(ordered)))
    ensures forall w | w in Anchors(Clusters(ordered)) :: w in ordered
  {
    if ordered != [] {
      var n := NearPrefix(ordered, ordered[0].top);
      var rest := ordered[n..];
      AnchorsFarApart(rest);
      var b := Anchors(Clusters(rest));
      assert Anchors(Clusters(ordered)) == [ordered[0]] + b;
      forall j | 0 <= j < |b| ensures b[j].top - ordered[0].top > ROW_TOLERANCE {
        assert b[j] in b;
        BeyondCluster(ordered, n, b[j]);
      }
    }
  }

  lemma {:induction false} BeyondCluster(ordered: seq<Word>, n: nat, w: Word)
    requires Sorted(ordered, ByTopThenX) && 0 < n < |ordered| && w in ordered[n..]
    requires !Near(ordered[n], ordered[0].top)
    ensures w.top - ordered[0].top > ROW_TOLERANCE
  {
    var k :| n <= k < |ordered| && ordered[k] == w;
    assert Le(ByTopThenX(ordered[0]), ByTopThenX(ordered[n]));
    assert k > n ==> Le(ByTopThenX(ordered[n]), ByTopThenX(ordered[k]));
  }

  /** Words pairwise further apart than the tolerance need one group each. */
  lemma {:induction false} FarApartNeedGroups(apart: seq<Word>, parts: seq<Line>)
    requires FarApart(apart) && Covers(parts, apart)
    requires forall p | p in parts :: WithinTolerance(p)
    ensures |apart| <= |parts|
  {
    if apart != [] {
      var last := |apart| - 1;
      assert apart[last] in apart;
      var p :| p in parts && apart[last] in p;
      var k :| 0 <= k < |parts| && parts[k] == p;
      var others := parts[..k] + parts[k + 1..];
      var fewer := apart[..last];
      forall w | w in fewer ensures exists q | q in others :: w in q {
        assert w in apart;
        var i :| 0 <= i < last && apart[i] == w;
        var q :| q in parts && w in q;
        assert apart[last].top - apart[i].top > ROW_TOLERANCE;
        assert WithinTolerance(p);
        OtherPart(parts, k, q);
      }
      FarApartNeedGroups(fewer, others);
    }
  }

  lemma {:induction false} OtherPart(parts: seq<Line>, k: nat, q: Line)
    requires k < |parts| && q in parts && q != parts[k]
    ensures q in parts[..k] + parts[k + 1..]
  {
    var m :| 0 <= m < |parts| && parts[m] == q;
    var others := parts[..k] + parts[k + 1..];
    assert m < k ==> others[m] == q;
    assert m > k ==> others[m - 1] == q;
  }

  /** No way of covering a page's words by groups within the tolerance uses fewer groups. */
  lemma {:induction false} GreedyIsOptimal(words: seq<Word>, parts: seq<Line>)
    requires Covers(parts, words)
    requires forall p | p in parts :: WithinTolerance(p)
    ensures |Grouped(words)| <= |parts|
  {
    var ordered := Sort(words, ByTopThenX);
    SortSorts(words, ByTopThenX);
    AnchorsFarApart(ordered);
    var a := Anchors(Clusters(ordered));
    forall w | w in a ensures exists p | p in parts :: w in p {
      assert w in multiset(ordered);
      assert w in multiset(words);
      assert w in words;
    }
    FarApartNeedGroups(a, parts);
  }

  // ---- the flattened output clusters back to itself ----

  lemma {:induction false} SortEachWithKey(groups: seq<Line>, k: Key)
    ensures WithKey(Flatten(SortEach(groups)), ByTopThenX, k) == WithKey(Flatten(groups), ByTopThenX, k)
  {
    if groups != [] {
      SortEachWithKey(groups[1..], k);
      WithKeyConcat(groups[0], Flatten(groups[1..]), ByTopThenX, k);
      WithKeyConcat(Sort(groups[0], ByX), Flatten(SortEach(groups[1..])), ByTopThenX, k);
      FinerKey(Sort(groups[0], ByX), k);
      FinerKey(groups[0], k);
      SortIsStable(groups[0], ByX, (k.1, 0.0));
    }
  }

  /** Words with one `top` and `x0` are among those with that `x0`. */
  lemma {:induction false} FinerKey(words: seq<Word>, k: Key)
    ensures WithKey(words, ByTopThenX, k) == WithKey(WithKey(words, ByX, (k.1, 0.0)), ByTopThenX, k)
  {
    if words != [] {
      FinerKey(words[1..], k);
      if ByX(words[0]) == (k.1, 0.0) {
        var t := WithKey(words[1..], ByX, (k.1, 0.0));
        assert WithKey(words, ByX, (k.1, 0.0)) == [words[0]] + t;
        assert ([words[0]] + t)[1..] == t;
      } else {
        assert WithKey(words, ByX, (k.1, 0.0)) == WithKey(words[1..], ByX, (k.1, 0.0));
        assert ByTopThenX(words[0]) != k;
      }
    }
  }

  lemma {:induction false} GroupingIsIdempotent(words: seq<Word>)
    ensures Grouped(Flatten(Grouped(words))) == Grouped(words)
  {
    var ordered := Sort(words, ByTopThenX);
    var flat := Flatten(Grouped(words));
    var again := Sort(flat, ByTopThenX);
    SortSorts(words, ByTopThenX);
    SortSorts(flat, ByTopThenX);
    ClustersFlatten(ordered);
    forall k ensures WithKey(again, ByTopThenX, k) == WithKey(ordered, ByTopThenX, k) {
      SortIsStable(flat, ByTopThenX, k);
      SortEachWithKey(Clusters(ordered), k);
    }
    StableSortUnique(again, ordered, ByTopThenX);
  }

  // ---- any bag of the words of well separated lines clusters into those lines ----

  /** Left to right without overlap. */
  predicate StrictlyOrdered(line: Line) {
    forall i, j | 0 <= i < j < |line| :: line[i].x0 < line[j].x0
  }

  /** `w` is a topmost word of `line`. */
  predicate Topmost(w: Word, line: Line) {
    w in line && forall v | v in line :: w.top <= v.top
  }

  /** Every word of `below` lies more than the tolerance under a topmost word of `line`. */
  predicate Above(line: Line, below: Line) {
    forall w, v | w in line && v in below && Topmost(w, line) :: v.top - w.top > 3.0
  }

  predicate Separated(lines: seq<Line>) {
    && (forall l | l in lines :: l != [] && StrictlyOrdered(l) && WithinTolerance(l))
    && (forall i, j | 0 <= i < j < |lines| :: Above(lines[i], lines[j]))
  }

  function SortEachByTop(lines: seq<Line>): (groups: seq<Line>)
    ensures |groups| == |lines|
    ensures forall i | 0 <= i < |lines| :: groups[i] == Sort(lines[i], ByTopThenX)
  {
    if lines == [] then [] else [Sort(lines[0], ByTopThenX)] + SortEachByTop(lines[1..])
  }

  lemma {:induction false} SortedTopmost(line: Line)
    requires line != [] && WithinTolerance(line)
    ensures var g := Sort(line, ByTopThenX);
            && g != [] && Topmost(g[0], line)
            && (forall w :: w in g <==> w in line)
            && AllNear(g, g[0].top)
  {
    SortSorts(line, ByTopThenX);
    var g := Sort(line, ByTopThenX);
    forall w ensures w in g <==> w in line {
      assert w in multiset(g) <==> w in multiset(line);
    }
    forall v | v in line ensures g[0].top <= v.top {
      var i :| 0 <= i < |g| && g[i] == v;
      assert i > 0 ==> Le(ByTopThenX(g[0]), ByTopThenX(g[i]));
    }
  }

  lemma {:induction false} FlattenMember<T>(parts: seq<seq<T>>, x: T)
    ensures x in Flatten(parts) <==> exists p | p in parts :: x in p
  {
    if parts != [] {
      FlattenMember(parts[1..], x);
      if exists p | p in parts :: x in p {
        var p :| p in parts && x in p;
        assert p == parts[0] || p in parts[1..];
      }
    }
  }

  lemma {:induction false} SeparatedSorted(lines: seq<Line>)
    requires Separated(lines)
    ensures Sorted(Flatten(SortEachByTop(lines)), ByTopThenX)
    ensures Clusters(Flatten(SortEachByTop(lines))) == SortEachByTop(lines)
    ensures multiset(Flatten(SortEachByTop(lines))) == multiset(Flatten(lines))
  {
    if lines != [] {
      SeparatedTail(lines);
      SeparatedSorted(lines[1..]);
      SortSorts(lines[0], ByTopThenX);
      SortedTopmost(lines[0]);
      var g, rest := Sort(lines[0], ByTopThenX), Flatten(SortEachByTop(lines[1..]));
      RestIsBelow(lines, rest);
      SortedAbove(g, rest);
      assert rest != [] ==> !Near(rest[0], g[0].top);
      ClusterCloses(g, rest);
    }
  }

  lemma {:induction false} SeparatedTail(lines: seq<Line>)
    requires lines != [] && Separated(lines)
    ensures Separated(lines[1..])
    ensures lines[0] != [] && StrictlyOrdered(lines[0]) && WithinTolerance(lines[0])
  {
    assert lines[0] in lines;
    forall l | l in lines[1..] ensures l != [] && StrictlyOrdered(l) && WithinTolerance(l) {
      assert l in lines;
    }
  }

  lemma {:induction false} RestIsBelow(lines: seq<Line>, rest: seq<Word>)
    requires lines != [] && Separated(lines)
    requires multiset(rest) == multiset(Flatten(lines[1..]))
    ensures var g := Sort(lines[0], ByTopThenX);
            g != [] && forall i | 0 <= i < |rest| :: rest[i].top - g[0].top > ROW_TOLERANCE
  {
    SeparatedTail(lines);
    SortedTopmost(lines[0]);
    var g := Sort(lines[0], ByTopThenX);
    forall i | 0 <= i < |rest| ensures rest[i].top - g[0].top > ROW_TOLERANCE {
      var v := rest[i];
      assert v in multiset(rest) && v in multiset(Flatten(lines[1..]));
      FlattenMember(lines[1..], v);
      var p :| p in lines[1..] && v in p;
      var j :| 0 < j < |lines| && lines[j] == p;
      assert Above(lines[0], lines[j]);
    }
  }

  lemma {:induction false} SortedAbove(g: Line, rest: seq<Word>)
    requires g != [] && AllNear(g, g[0].top) && Sorted(g, ByTopThenX) && Sorted(rest, ByTopThenX)
    requires forall i | 0 <= i < |rest| :: rest[i].top - g[0].top > ROW_TOLERANCE
    ensures Sorted(g + rest, ByTopThenX)
  {
    var s := g + rest;
    forall i, j | 0 <= i < j < |s| ensures Le(ByTopThenX(s[i]), ByTopThenX(s[j])) {
      if j < |g| {
        assert Le(ByTopThenX(g[i]), ByTopThenX(g[j]));
      } else if i >= |g| {
        assert Le(ByTopThenX(rest[i - |g|]), ByTopThenX(rest[j - |g|]));
      } else {
        assert Near(g[i], g[0].top) && s[j] == rest[j - |g|];
      }
    }
  }

  /** In separated lines no two different words share both coordinates. */
  lemma {:induction false} SeparatedKeys(lines: seq<Line>, i: nat, v: Word, j: nat, w: Word)
    requires Separated(lines) && i <= j < |lines| && v in lines[i] && w in lines[j]
    requires ByTopThenX(v) == ByTopThenX(w)
    ensures v == w
  {
    assert lines[i] in lines;
    if i < j {
      NotTwoLines(lines[i], v, lines[j], w);
    } else {
      var a :| 0 <= a < |lines[i]| && lines[i][a] == v;
      var b :| 0 <= b < |lines[i]| && lines[i][b] == w;
    }
  }

  lemma {:induction false} SeparatedKeysDistinct(lines: seq<Line>, words: seq<Word>)
    requires Separated(lines) && multiset(words) == multiset(Flatten(lines))
    ensures KeysDistinct(words, ByTopThenX)
  {
    forall v, w | v in words && w in words && ByTopThenX(v) == ByTopThenX(w) ensures v == w {
      var i := LineOf(lines, words, v);
      var j := LineOf(lines, words, w);
      if i <= j {
        SeparatedKeys(lines, i, v, j, w);
      } else {
        SeparatedKeys(lines, j, w, i, v);
      }
    }
  }

  lemma {:induction false} LineOf(lines: seq<Line>, words: seq<Word>, w: Word) returns (i: nat)
    requires multiset(words) == multiset(Flatten(lines)) && w in words
    ensures i < |lines| && w in lines[i]
  {
    assert w in multiset(words) && w in multiset(Flatten(lines));
    FlattenMember(lines, w);
    var p :| p in lines && w in p;
    i :| 0 <= i < |lines| && lines[i] == p;
  }

  lemma {:induction false} NotTwoLines(line: Line, v: Word, below: Line, w: Word)
    requires line != [] && WithinTolerance(line) && Above(line, below) && v in line && w in below
    ensures v.top != w.top
  {
    SortedTopmost(line);
    var t := Sort(line, ByTopThenX)[0];
    assert Topmost(t, line) && v.top - t.top <= ROW_TOLERANCE < w.top - t.top;
  }

  /** Whatever order a page's words arrive in, clustering recovers its lines. */
  lemma {:induction false} BagRecoversLines(bag: seq<Word>, lines: seq<Line>)
    requires Separated(lines) && multiset(bag) == multiset(Flatten(lines))
    ensures Grouped(bag) == lines
  {
    var groups := SortEachByTop(lines);
    SeparatedSorted(lines);
    SortSorts(bag, ByTopThenX);
    var ordered := Sort(bag, ByTopThenX);
    SeparatedKeysDistinct(lines, ordered);
    SortedPermUnique(ordered, Flatten(groups), ByTopThenX);
    var out := SortEach(groups);
    forall i | 0 <= i < |lines| ensures out[i] == lines[i] {
      LineRecovered(lines[i]);
    }
  }

  lemma {:induction false} StrictKeys(line: Line, words: seq<Word>)
    requires StrictlyOrdered(line) && multiset(words) == multiset(line)
    ensures Sorted(line, ByX) && KeysDistinct(words, ByX)
  {
    forall v, w | v in words && w in words && ByX(v) == ByX(w) ensures v == w {
      assert v in multiset(words) && w in multiset(words);
      var a :| 0 <= a < |line| && line[a] == v;
      var b :| 0 <= b < |line| && line[b] == w;
    }
  }

  lemma {:induction false} LineRecovered(line: Line)
    requires StrictlyOrdered(line)
    ensures Sort(Sort(line, ByTopThenX), ByX) == line
  {
    var g := Sort(line, ByTopThenX);
    SortSorts(line, ByTopThenX);
    SortSorts(g, ByX);
    StrictKeys(line, Sort(g, ByX));
    SortedPermUnique(Sort(g, ByX), line, ByX);
  }

  // ---- sequences ----

  lemma {:induction false} Assoc<T>(x: seq<T>, y: seq<T>, z: seq<T>)
    ensures (x + y) + z == x + (y + z)
  {
  }
}
