/** The two-tier batch scheduler shared by the archive, politician and ticker steps
    (`ingest/house_pdfs.py`, `ingest/politician_links.py`, `ingest/tickers.py`), and the drain loop
    around them (`ingest/catchup_house_backlog.py`). */
module Scheduler {

  /** The items still to do, and those flagged by an open issue. */
  datatype Queue<Item(==)> = Queue(pending: set<Item>, flagged: set<Item>)

  function Untried<Item>(q: Queue<Item>): set<Item> {
    q.pending - q.flagged
  }

  /** The sort key of `ORDER BY`: flagged last, then by type. */
  function Rank<Item>(q: Queue<Item>, tier: Item -> nat, x: Item): (nat, nat) {
    (if x in q.flagged then 1 else 0, tier(x))
  }

  predicate RankLe(a: (nat, nat), b: (nat, nat)) {
    a.0 < b.0 || (a.0 == b.0 && a.1 <= b.1)
  }

  function Members<Item>(xs: seq<Item>): set<Item> {
    set x | x in xs
  }

  function Min(x: nat, y: nat): nat {
    if x < y then x else y
  }

  /** What `ORDER BY rank LIMIT size` may return: as many items as there are up to the limit, none
      of them ranked behind an item left out. Ties are the database's choice. */
  predicate IsBatch<Item>(q: Queue<Item>, tier: Item -> nat, size: nat, batch: set<Item>) {
    && batch <= q.pending && |batch| == Min(size, |q.pending|)
    && forall x, y | x in batch && y in q.pending && y !in batch :: RankLe(Rank(q, tier, x), Rank(q, tier, y))
  }

  /** After a run every item of its batch is done or flagged, and nothing else moved. */
  predicate Ran<Item>(q: Queue<Item>, batch: set<Item>, q': Queue<Item>) {
    && q'.pending <= q.pending && q.pending - q'.pending <= batch
    && (forall x | x in q'.pending :: x in q'.flagged <==> x in q.flagged || x in batch)
  }

  // ---- no starvation ----

  /** A flagged item is selected only when no untried one is left out. */
  lemma {:induction false} UntriedFirst<Item(!new)>(q: Queue<Item>, tier: Item -> nat, size: nat, batch: set<Item>,
                                             x: Item)
    requires IsBatch(q, tier, size, batch) && x in batch && x in q.flagged
    ensures Untried(q) <= batch
  {
    forall y | y in Untried(q) ensures y in batch {
      assert !RankLe(Rank(q, tier, x), Rank(q, tier, y));
    }
  }

  /** An untried item is left out only for untried items of its own type tier or a higher one. */
  lemma {:induction false} NoLowerTierFirst<Item(!new)>(q: Queue<Item>, tier: Item -> nat, size: nat,
                                                 batch: set<Item>, x: Item, y: Item)
    requires IsBatch(q, tier, size, batch) && x in batch && y in Untried(q) && y !in batch
    ensures x in Untried(q) && tier(x) <= tier(y)
  {
    assert RankLe(Rank(q, tier, x), Rank(q, tier, y));
  }

  lemma {:induction false} SubsetSize<Item>(a: set<Item>, b: set<Item>)
    requires a <= b
    ensures |a| <= |b|
    ensures |a| == |b| ==> a == b
  {
    assert b == a + (b - a);
  }

  /** A run attempts as many untried items as its batch holds. */
  lemma {:induction false} BatchUntried<Item(!new)>(q: Queue<Item>, tier: Item -> nat, size: nat, batch: set<Item>)
    requires IsBatch(q, tier, size, batch)
    ensures |Untried(q) - batch| == if |Untried(q)| <= size then 0 else |Untried(q)| - size
  {
    var u := Untried(q);
    SubsetSize(u, q.pending);
    if x :| x in batch && x in q.flagged {
      UntriedFirst(q, tier, size, batch, x);
      assert u - batch == {};
      SubsetSize(u, batch);
    } else {
      assert batch <= u;
      SubsetSize(batch, u);
      assert u == batch + (u - batch);
    }
  }

  lemma {:induction false} RanUntried<Item(!new)>(q: Queue<Item>, batch: set<Item>, q': Queue<Item>)
    requires Ran(q, batch, q')
    ensures Untried(q') == Untried(q) - batch
  {
  }

  /** Runs without arrivals. */
  ghost predicate Runs<Item(!new)>(qs: seq<Queue<Item>>, batches: seq<set<Item>>, tier: Item -> nat, size: nat) {
    && |qs| == |batches| + 1
    && forall i | 0 <= i < |batches| :: IsBatch(qs[i], tier, size, batches[i]) && Ran(qs[i], batches[i], qs[i + 1])
  }

  function Attempted<Item>(batches: seq<set<Item>>): set<Item> {
    if batches == [] then {} else Attempted(batches[..|batches| - 1]) + batches[|batches| - 1]
  }

  /** What is still untried after `n` runs: exactly `u - n * size` items, those no batch held. */
  lemma {:induction false} UntriedAfter<Item(!new)>(qs: seq<Queue<Item>>, batches: seq<set<Item>>,
                                             tier: Item -> nat, size: nat, n: nat)
    requires Runs(qs, batches, tier, size) && n <= |batches|
    ensures Untried(qs[n]) == Untried(qs[0]) - Attempted(batches[..n])
    ensures |Untried(qs[n])| == Left(|Untried(qs[0])|, n, size)
  {
    hide IsBatch, Ran, Left;
    LeftStep(|Untried(qs[0])|, 0, size);
    if n > 0 {
      UntriedAfter(qs, batches, tier, size, n - 1);
      assert IsBatch(qs[n - 1], tier, size, batches[n - 1]) && Ran(qs[n - 1], batches[n - 1], qs[n]);
      BatchUntried(qs[n - 1], tier, size, batches[n - 1]);
      RanUntried(qs[n - 1], batches[n - 1], qs[n]);
      assert batches[..n][..n - 1] == batches[..n - 1];
      LeftStep(|Untried(qs[0])|, n - 1, size);
    }
  }

  /** Of `u` items, those left after `n` batches. */
  function Left(u: nat, n: nat, size: nat): nat {
    if u <= n * size then 0 else u - n * size
  }

  lemma {:induction false} LeftStep(u: nat, n: nat, size: nat)
    ensures Left(u, 0, size) == u
    ensures Left(u, n + 1, size) == if Left(u, n, size) <= size then 0 else Left(u, n, size) - size
  {
    assert (n + 1) * size == n * size + size;
  }

  /** Starvation freedom: after `ceil(u / size)` runs every item that was untried has been attempted,
      however the database broke ties and whatever the attempts' outcomes; one run fewer does not
      suffice. */
  lemma {:induction false} EveryItemAttempted<Item(!new)>(qs: seq<Queue<Item>>, batches: seq<set<Item>>,
                                                   tier: Item -> nat, size: nat, n: nat)
    requires Runs(qs, batches, tier, size) && n <= |batches| && size > 0
    ensures Untried(qs[0]) <= Attempted(batches[..n]) <==> n >= CeilDiv(|Untried(qs[0])|, size)
  {
    UntriedAfter(qs, batches, tier, size, n);
    var u := |Untried(qs[0])|;
    CeilDivLe(u, size, n);
    if Untried(qs[0]) <= Attempted(batches[..n]) {
      assert Untried(qs[n]) == {};
    } else {
      var y :| y in Untried(qs[0]) && y !in Attempted(batches[..n]);
      assert y in Untried(qs[n]);
    }
  }

  function CeilDiv(x: nat, y: nat): nat
    requires y > 0
  {
    (x + y - 1) / y
  }

  lemma {:induction false} CeilDivLe(x: nat, y: nat, n: nat)
    requires y > 0
    ensures x <= n * y <==> n >= CeilDiv(x, y)
  {
    var c := CeilDiv(x, y);
    DivBounds(x + y - 1, y);
    assert c * y <= x + y - 1 < c * y + y;
    if n >= c {
      MulMonotone(c, n, y);
    } else {
      MulMonotone(n + 1, c, y);
      assert (n + 1) * y == n * y + y;
    }
  }

  lemma {:induction false} DivBounds(a: nat, y: nat)
    requires y > 0
    ensures a / y * y <= a < a / y * y + y
  {
  }

  lemma {:induction false} MulMonotone(a: nat, b: nat, y: nat)
    requires a <= b
    ensures a * y <= b * y
  {
  }

  // ---- the drain loop ----

  /** Consecutive states of a drain: each step was taken with something pending, and all but the
      last one shrank the pending count. */
  ghost predicate Drained<S(!new)>(states: seq<S>, countPending: S -> nat, step: S -> (S, nat)) {
    && states != []
    && (forall i | 0 <= i < |states| - 1 :: countPending(states[i]) > 0 && states[i + 1] == step(states[i]).0)
    && (forall i | 0 <= i < |states| - 2 :: countPending(states[i + 1]) < countPending(states[i]))
  }

  function Processed<S>(states: seq<S>, step: S -> (S, nat)): nat {
    if |states| <= 1 then 0 else Processed(states[..|states| - 1], step) + step(states[|states| - 2]).1
  }

  function Iterated<S>(world: S, step: S -> (S, nat), n: nat): S {
    if n == 0 then world else step(Iterated(world, step, n - 1)).0
  }

  /** The states before and after each of the first `n` steps. */
  function History<S>(world: S, step: S -> (S, nat), n: nat): seq<S> {
    if n == 0 then [world] else History(world, step, n - 1) + [Iterated(world, step, n)]
  }

  lemma {:induction false} HistoryAt<S(!new)>(world: S, step: S -> (S, nat), n: nat)
    ensures |History(world, step, n)| == n + 1
    ensures forall i | 0 <= i <= n :: History(world, step, n)[i] == Iterated(world, step, i)
  {
    if n > 0 {
      HistoryAt(world, step, n - 1);
    }
  }

  /** Stops at zero pending, or after a step that did not shrink the pending count. The callbacks
      work on the whole state of the world, which holds the outcomes still to come as well. */
  method Drain<S(!new)>(world: S, countPending: S -> nat, step: S -> (S, nat))
    returns (final: S, total: nat, steps: nat)
    ensures Drained(History(world, step, steps), countPending, step)
    ensures final == Iterated(world, step, steps) && total == Processed(History(world, step, steps), step)
    ensures countPending(final) == 0
            || (steps > 0 && countPending(final) >= countPending(Iterated(world, step, steps - 1)))
    ensures steps <= countPending(world) + 1
  {
    final, total, steps := world, 0, 0;
    while true
      invariant final == Iterated(world, step, steps)
      invariant Drained(History(world, step, steps), countPending, step)
      invariant total == Processed(History(world, step, steps), step)
      invariant steps > 0 ==> countPending(final) < countPending(Iterated(world, step, steps - 1))
      invariant steps + countPending(final) <= countPending(world)
      decreases countPending(final)
    {
      var pendingBefore := countPending(final);
      if pendingBefore == 0 {
        return;
      }
      DrainedMore(world, countPending, step, steps);
      var (next, count) := step(final);
      final, total, steps := next, total + count, steps + 1;
      var pendingAfter := countPending(final);
      if pendingAfter >= pendingBefore {
        return;
      }
    }
  }

  /** One more step of a drain that has shrunk the pending count every time. */
  lemma {:induction false} DrainedMore<S(!new)>(world: S, countPending: S -> nat, step: S -> (S, nat), n: nat)
    requires Drained(History(world, step, n), countPending, step) && countPending(Iterated(world, step, n)) > 0
    requires n > 0 ==> countPending(Iterated(world, step, n)) < countPending(Iterated(world, step, n - 1))
    ensures Drained(History(world, step, n + 1), countPending, step)
    ensures Processed(History(world, step, n + 1), step)
         == Processed(History(world, step, n), step) + step(Iterated(world, step, n)).1
  {
    HistoryAt(world, step, n);
    HistoryAt(world, step, n + 1);
    var before, after := History(world, step, n), History(world, step, n + 1);
    assert after[..|after| - 1] == before;
    assert forall i | 0 <= i <= n :: after[i] == before[i];
  }

  /** Every step took a whole batch, or all there was, off the backlog. */
  ghost predicate Shrinks<S(!new)>(states: seq<S>, countPending: S -> nat, size: nat) {
    forall i | 0 <= i < |states| - 1 ::
      countPending(states[i + 1]) == countPending(states[i]) - Min(size, countPending(states[i]))
  }

  /** When every step takes `min(size, pending)` items off the backlog, a drain ends at zero after
      exactly `ceil(p / size)` steps. */
  lemma {:induction false} DrainEmpties<S(!new)>(states: seq<S>, countPending: S -> nat, step: S -> (S, nat), size: nat)
    requires size > 0 && Drained(states, countPending, step)
    requires countPending(states[|states| - 1]) == 0
             || (|states| > 1 && countPending(states[|states| - 1]) >= countPending(states[|states| - 2]))
    requires Shrinks(states, countPending, size)
    ensures countPending(states[|states| - 1]) == 0
    ensures |states| - 1 == CeilDiv(countPending(states[0]), size)
  {
    var p, n := countPending(states[0]), |states| - 1;
    DrainProgress(states, countPending, step, size, n);
    if n > 0 {
      assert countPending(states[n - 1]) > 0;
      DrainProgress(states, countPending, step, size, n - 1);
      CeilDivLe(p, size, n - 1);
    } else {
      assert p == 0;
    }
    CeilDivLe(p, size, n);
  }

  lemma {:induction false} DrainProgress<S(!new)>(states: seq<S>, countPending: S -> nat, step: S -> (S, nat),
                                           size: nat, n: nat)
    requires size > 0 && Drained(states, countPending, step) && n < |states|
    requires Shrinks(states, countPending, size)
    ensures var p := countPending(states[0]);
            countPending(states[n]) == if p <= n * size then 0 else p - n * size
  {
    if n > 0 {
      DrainProgress(states, countPending, step, size, n - 1);
      assert countPending(states[n - 1 + 1]) == countPending(states[n - 1]) - Min(size, countPending(states[n - 1]));
      assert n * size == (n - 1) * size + size;
    }
  }
}
