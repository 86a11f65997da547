/** The storage budget (`storage/quota.py`): the usage table, and the protocol of the uploaders
    (`ingest/house_pdfs.py`) and the reconciles (`storage/r2_storage.py`) that share it. */
module Quota {
  // ---- the usage table ----

  datatype Usage = Usage(totalBytes: nat, objectCount: nat)

  type Bucket = string

  predicate WouldExceed(current: nat, additional: nat, ceiling: nat) {
    current + additional > ceiling
  }

  function CurrentUsage(rows: map<Bucket, Usage>, bucket: Bucket): nat {
    if bucket in rows then rows[bucket].totalBytes else 0
  }

  datatype Budget = Within | BudgetExceeded(wouldBe: nat, ceiling: nat)

  class UsageTable {
    var rows: map<Bucket, Usage>

    constructor ()
      ensures rows == map[]
    {
      rows := map[];
    }

    /** Reads the running total once; nothing is reserved. */
    method EnsureBudget(bucket: Bucket, additional: nat, ceiling: nat) returns (r: Budget)
      ensures r.Within? <==> CurrentUsage(rows, bucket) + additional <= ceiling
      ensures r.BudgetExceeded? ==> r == BudgetExceeded(CurrentUsage(rows, bucket) + additional, ceiling)
    {
      var current := CurrentUsage(rows, bucket);
      if WouldExceed(current, additional, ceiling) {
        return BudgetExceeded(current + additional, ceiling);
      }
      return Within;
    }

    /** The atomic upsert: insert the row, or add to it. */
    method RecordBytes(bucket: Bucket, additional: nat)
      modifies this
      ensures rows == Recorded(old(rows), bucket, additional)
      ensures rows.Keys == old(rows).Keys + {bucket}
      ensures rows[bucket].totalBytes == CurrentUsage(old(rows), bucket) + additional
      ensures rows[bucket].objectCount == (if bucket in old(rows) then old(rows)[bucket].objectCount else 0) + 1
      ensures forall b | b in old(rows) && b != bucket :: rows[b] == old(rows)[b]
    {
      if bucket in rows {
        rows := rows[bucket := Usage(rows[bucket].totalBytes + additional, rows[bucket].objectCount + 1)];
      } else {
        rows := rows[bucket := Usage(additional, 1)];
      }
    }

    /** Lists the bucket page by page and overwrites the row with what the listing found. */
    method Reconcile(bucket: Bucket, pages: seq<seq<(Key, nat)>>) returns (totalBytes: nat, objectCount: nat)
      modifies this
      ensures totalBytes == Sizes(Listing(pages)) && objectCount == |Listing(pages)|
      ensures rows == Reconciled(old(rows), bucket, totalBytes, objectCount)
      ensures rows.Keys == old(rows).Keys + {bucket} && rows[bucket] == Usage(totalBytes, objectCount)
      ensures forall b | b in old(rows) && b != bucket :: rows[b] == old(rows)[b]
    {
      totalBytes, objectCount := BucketTotals(pages);
      rows := rows[bucket := Usage(totalBytes, objectCount)];
    }
  }

  method BucketTotals(pages: seq<seq<(Key, nat)>>) returns (totalBytes: nat, objectCount: nat)
    ensures totalBytes == Sizes(Listing(pages)) && objectCount == |Listing(pages)|
  {
    totalBytes, objectCount := 0, 0;
    for p := 0 to |pages|
      invariant totalBytes == Sizes(Listing(pages[..p])) && objectCount == |Listing(pages[..p])|
    {
      var page, before := pages[p], Listing(pages[..p]);
      assert pages[..p + 1][..p] == pages[..p];
      assert before + page[..0] == before;
      for i := 0 to |page|
        invariant totalBytes == Sizes(before + page[..i]) && objectCount == |before| + i
      {
        assert (before + page[..i + 1])[..|before| + i] == before + page[..i];
        totalBytes, objectCount := totalBytes + page[i].1, objectCount + 1;
      }
      assert page[..|page|] == page;
    }
    assert pages[..|pages|] == pages;
  }

  /** What a listing in pages returns: keys and sizes. */
  function Listing(pages: seq<seq<(Key, nat)>>): seq<(Key, nat)> {
    if pages == [] then [] else Listing(pages[..|pages| - 1]) + pages[|pages| - 1]
  }

  function Sizes(listing: seq<(Key, nat)>): nat {
    if listing == [] then 0 else Sizes(listing[..|listing| - 1]) + listing[|listing| - 1].1
  }

  function Recorded(rows: map<Bucket, Usage>, bucket: Bucket, additional: nat): map<Bucket, Usage> {
    var count := if bucket in rows then rows[bucket].objectCount else 0;
    rows[bucket := Usage(CurrentUsage(rows, bucket) + additional, count + 1)]
  }

  function Reconciled(rows: map<Bucket, Usage>, bucket: Bucket, bytes: nat, count: nat): map<Bucket, Usage> {
    rows[bucket := Usage(bytes, count)]
  }

  // ---- the protocol ----

  type Key = string

  type WalkId = nat

  /** Where an uploader is: idle; past `ensure_budget` for an object of some size; or past `upload`
      but not yet past `record_bytes`, `behind` the reconciles whose listing had passed the key. */
  datatype Uploader = Idle | Checked(key: Key, size: nat) | Uploaded(size: nat, behind: set<WalkId>)

  /** A reconcile that has not overwritten the row yet: the keys its listing has passed and what it
      found there. For the statements only: the bytes that came to passed keys and were recorded, or
      failed to be, since; and the bytes found that were replaced since. */
  datatype Walk = Walk(passed: iset<Key>, bytes: nat, count: nat, lost: nat, excess: nat)

  /** The usage table, the objects really in the bucket, the uploaders and the running reconciles; and,
      for the statements only, the bytes in the bucket that the row will never count, the bytes it
      counts, or will count, too many, and the total of the last reconcile plus the sizes then in
      flight. */
  datatype State = State(
    rows: map<Bucket, Usage>, objects: map<Key, nat>, uploaders: seq<Uploader>, walks: map<WalkId, Walk>,
    unrecorded: nat, excess: nat, reconciled: nat)

  datatype Config = Config(bucket: Bucket, ceiling: nat, maxSize: nat)

  /** One atomic step of an uploader or of a reconcile.
      - `Check`: the total is read and the upload passes or is refused;
      - `Put`: the object is in the bucket and the call returned;
      - `PutFails`: the call raised, whether or not the object was stored;
      - `Record`: the increment is committed; `RecordFails`: it is not;
      - `Begin`: a reconcile starts; `Page`: its listing covers another range of keys;
      - `Overwrite`: having passed all keys it overwrites the row. */
  datatype Event =
    | Check(i: nat, key: Key, size: nat)
    | Put(i: nat)
    | PutFails(i: nat, stored: bool)
    | Record(i: nat)
    | RecordFails(i: nat)
    | Begin(r: WalkId)
    | Page(r: WalkId, range: iset<Key>)
    | Overwrite(r: WalkId)

  predicate AtRest(s: State) {
    forall i | 0 <= i < |s.uploaders| :: s.uploaders[i].Idle?
  }

  function Behind(u: Uploader): set<WalkId> {
    match u case Uploaded(_, behind) => behind case _ => {}
  }

  ghost predicate Complete(w: Walk) {
    forall k :: k in w.passed
  }

  /** Several reconciles may run at once; each has a name of its own. */
  ghost predicate Enabled(s: State, e: Event, cfg: Config) {
    match e
    case Check(i, key, size) => i < |s.uploaders| && s.uploaders[i].Idle? && size <= cfg.maxSize
    case Put(i) => i < |s.uploaders| && s.uploaders[i].Checked?
    case PutFails(i, _) => i < |s.uploaders| && s.uploaders[i].Checked?
    case Record(i) => i < |s.uploaders| && s.uploaders[i].Uploaded?
    case RecordFails(i) => i < |s.uploaders| && s.uploaders[i].Uploaded?
    case Begin(r) => r !in s.walks && forall i | 0 <= i < |s.uploaders| :: r !in Behind(s.uploaders[i])
    case Page(r, _) => r in s.walks
    case Overwrite(r) => r in s.walks && Complete(s.walks[r])
  }

  /** The recorded total of the bucket. */
  function Total(s: State, cfg: Config): nat {
    CurrentUsage(s.rows, cfg.bucket)
  }

  /** The sizes of all objects together. */
  ghost function BucketBytes(objects: map<Key, nat>): nat {
    if objects == map[] then 0
    else
      var k :| k in objects;
      objects[k] + BucketBytes(objects - {k})
  }

  ghost function Part(objects: map<Key, nat>, keys: iset<Key>): map<Key, nat> {
    map k | k in objects && k in keys :: objects[k]
  }

  function OldSize(objects: map<Key, nat>, key: Key): nat {
    if key in objects then objects[key] else 0
  }

  ghost function Passing(walks: map<WalkId, Walk>, key: Key): set<WalkId> {
    set r | r in walks && key in walks[r].passed
  }

  function Replaced(walks: map<WalkId, Walk>, behind: set<WalkId>, size: nat): map<WalkId, Walk> {
    map r | r in walks :: if r in behind then walks[r].(excess := walks[r].excess + size) else walks[r]
  }

  function Missed(walks: map<WalkId, Walk>, behind: set<WalkId>, size: nat): map<WalkId, Walk> {
    map r | r in walks :: if r in behind then walks[r].(lost := walks[r].lost + size) else walks[r]
  }

  /** The object is in the bucket, in place of an earlier one under its key. */
  ghost function Stored(s: State, key: Key, size: nat): State {
    var replaced := OldSize(s.objects, key);
    s.(objects := s.objects[key := size], walks := Replaced(s.walks, Passing(s.walks, key), replaced),
       excess := s.excess + replaced)
  }

  /** The listing reads the objects that are in the range now. */
  ghost function PageRead(w: Walk, objects: map<Key, nat>, range: iset<Key>): Walk {
    var page := Part(objects, range - w.passed);
    w.(passed := w.passed + range, bytes := w.bytes + BucketBytes(page), count := w.count + |page|)
  }

  function Overwritten(s: State, r: WalkId, cfg: Config): State
    requires r in s.walks
  {
    var w := s.walks[r];
    s.(rows := Reconciled(s.rows, cfg.bucket, w.bytes, w.count), walks := s.walks - {r}, unrecorded := w.lost,
       excess := w.excess + PutSeen(s.uploaders, r), reconciled := w.bytes + InFlight(s.uploaders))
  }

  ghost function Next(s: State, e: Event, cfg: Config): State
    requires Enabled(s, e, cfg)
  {
    match e
    case Check(i, key, size) =>
      if WouldExceed(Total(s, cfg), size, cfg.ceiling) then s
      else s.(uploaders := s.uploaders[i := Checked(key, size)])
    case Put(i) =>
      var u := s.uploaders[i];
      Stored(s, u.key, u.size).(uploaders := s.uploaders[i := Uploaded(u.size, Passing(s.walks, u.key))])
    case PutFails(i, stored) =>
      var u := s.uploaders[i];
      if stored then
        var t := Stored(s, u.key, u.size);
        t.(uploaders := s.uploaders[i := Idle], unrecorded := s.unrecorded + u.size,
           walks := Missed(t.walks, Passing(s.walks, u.key), u.size))
      else s.(uploaders := s.uploaders[i := Idle])
    case Record(i) =>
      var u := s.uploaders[i];
      s.(rows := Recorded(s.rows, cfg.bucket, u.size), uploaders := s.uploaders[i := Idle],
         walks := Missed(s.walks, u.behind, u.size))
    case RecordFails(i) =>
      var u := s.uploaders[i];
      s.(uploaders := s.uploaders[i := Idle], unrecorded := s.unrecorded + u.size,
         walks := Missed(s.walks, u.behind, u.size))
    case Begin(r) => s.(walks := s.walks[r := Walk(iset{}, 0, 0, 0, 0)])
    case Page(r, range) => s.(walks := s.walks[r := PageRead(s.walks[r], s.objects, range)])
    case Overwrite(r) => Overwritten(s, r, cfg)
  }

  function Start(uploaders: nat): State {
    State(map[], map[], seq(uploaders, _ => Idle), map[], 0, 0, 0)
  }

  /** A run: the states it goes through, one event apart. */
  ghost predicate IsRun(states: seq<State>, events: seq<Event>, cfg: Config) {
    && |states| == |events| + 1
    && forall i | 0 <= i < |events| ::
         Enabled(states[i], events[i], cfg) && states[i + 1] == Next(states[i], events[i], cfg)
  }

  // ---- in-flight bytes ----

  function SizeOf(u: Uploader): nat {
    match u case Idle => 0 case Checked(_, size) => size case Uploaded(size, _) => size
  }

  function PutSize(u: Uploader): nat {
    match u case Uploaded(size, _) => size case _ => 0
  }

  function BehindSize(u: Uploader, r: WalkId): nat {
    if r in Behind(u) then PutSize(u) else 0
  }

  /** Sizes that passed the check and are not yet recorded. */
  function InFlight(us: seq<Uploader>): nat {
    if us == [] then 0 else SizeOf(us[0]) + InFlight(us[1..])
  }

  /** Sizes that are in the bucket and not yet recorded. */
  function PutUnrecorded(us: seq<Uploader>): nat {
    if us == [] then 0 else PutSize(us[0]) + PutUnrecorded(us[1..])
  }

  /** Of these, the ones the listing of reconcile `r` had passed when they were put. */
  function PutBehind(us: seq<Uploader>, r: WalkId): nat {
    if us == [] then 0 else BehindSize(us[0], r) + PutBehind(us[1..], r)
  }

  /** And those it found, or was yet to find. */
  function PutSeen(us: seq<Uploader>, r: WalkId): nat {
    if us == [] then 0 else PutSize(us[0]) - BehindSize(us[0], r) + PutSeen(us[1..], r)
  }

  lemma {:induction false} PutParts(us: seq<Uploader>, r: WalkId)
    ensures PutUnrecorded(us) == PutBehind(us, r) + PutSeen(us, r)
  {
    if us != [] {
      PutParts(us[1..], r);
    }
  }

  lemma {:induction false} InFlightUpdate(us: seq<Uploader>, i: nat, u: Uploader)
    requires i < |us|
    ensures InFlight(us[i := u]) == InFlight(us) - SizeOf(us[i]) + SizeOf(u)
    ensures PutUnrecorded(us[i := u]) == PutUnrecorded(us) - PutSize(us[i]) + PutSize(u)
  {
    if i > 0 {
      InFlightUpdate(us[1..], i - 1, u);
      assert us[i := u][1..] == us[1..][i - 1 := u];
    } else {
      assert us[0 := u][1..] == us[1..];
    }
  }

  lemma {:induction false} BehindUpdate(us: seq<Uploader>, i: nat, u: Uploader, r: WalkId)
    requires i < |us|
    ensures PutBehind(us[i := u], r) == PutBehind(us, r) - BehindSize(us[i], r) + BehindSize(u, r)
  {
    if i > 0 {
      BehindUpdate(us[1..], i - 1, u, r);
      assert us[i := u][1..] == us[1..][i - 1 := u];
    } else {
      assert us[0 := u][1..] == us[1..];
    }
  }

  lemma {:induction false} NoneBehind(us: seq<Uploader>, r: WalkId)
    requires forall i | 0 <= i < |us| :: r !in Behind(us[i])
    ensures PutBehind(us, r) == 0
  {
    if us != [] {
      NoneBehind(us[1..], r);
    }
  }

  lemma {:induction false} InFlightBound(us: seq<Uploader>, i: nat, max: nat)
    requires i < |us| && us[i].Idle? && forall j | 0 <= j < |us| :: SizeOf(us[j]) <= max
    ensures InFlight(us) <= (|us| - 1) * max
  {
    var n := |us| - 1;
    if i > 0 {
      InFlightBound(us[1..], i - 1, max);
      assert n * max == (n - 1) * max + max;
    } else {
      AllInFlightBound(us[1..], max);
    }
  }

  lemma {:induction false} AllInFlightBound(us: seq<Uploader>, max: nat)
    requires forall j | 0 <= j < |us| :: SizeOf(us[j]) <= max
    ensures InFlight(us) <= |us| * max
  {
    if us != [] {
      var n := |us|;
      AllInFlightBound(us[1..], max);
      assert n * max == (n - 1) * max + max;
    }
  }

  lemma {:induction false} RestInFlight(us: seq<Uploader>)
    requires forall i | 0 <= i < |us| :: us[i].Idle?
    ensures InFlight(us) == 0 && PutUnrecorded(us) == 0
  {
    if us != [] {
      RestInFlight(us[1..]);
    }
  }

  lemma {:induction false} BucketBytesSplit(objects: map<Key, nat>, k: Key)
    requires k in objects
    ensures BucketBytes(objects) == objects[k] + BucketBytes(objects - {k})
    decreases |objects|
  {
    var j :| j in objects && BucketBytes(objects) == objects[j] + BucketBytes(objects - {j});
    if j != k {
      assert objects - {j} - {k} == objects - {k} - {j};
      BucketBytesSplit(objects - {j}, k);
      BucketBytesSplit(objects - {k}, j);
    }
  }

  /** Storing an object adds its size and takes away that of the object it replaces. */
  lemma {:induction false} BucketBytesPut(objects: map<Key, nat>, k: Key, size: nat)
    ensures BucketBytes(objects[k := size]) + OldSize(objects, k) == BucketBytes(objects) + size
  {
    var after := objects[k := size];
    BucketBytesSplit(after, k);
    if k in objects {
      assert after - {k} == objects - {k};
      BucketBytesSplit(objects, k);
    } else {
      assert after - {k} == objects;
    }
  }

  lemma {:induction false} BytesUnion(x: map<Key, nat>, y: map<Key, nat>)
    requires x.Keys !! y.Keys
    ensures BucketBytes(x + y) == BucketBytes(x) + BucketBytes(y)
    decreases |x|
  {
    hide BucketBytes;
    if x == map[] {
      NoBytes();
      assert x + y == y;
    } else {
      var k :| k in x;
      BucketBytesSplit(x, k);
      BucketBytesSplit(x + y, k);
      UnionMinus(x, y, k);
      BytesUnion(x - {k}, y);
    }
  }

  lemma {:induction false} UnionMinus(x: map<Key, nat>, y: map<Key, nat>, k: Key)
    requires k in x && k !in y
    ensures (x + y) - {k} == (x - {k}) + y && (x + y)[k] == x[k]
  {
  }

  function KeysOf(listing: seq<(Key, nat)>): seq<Key> {
    seq(|listing|, i requires 0 <= i < |listing| => listing[i].0)
  }

  /** The objects a listing names. */
  function Contents(listing: seq<(Key, nat)>): (objects: map<Key, nat>)
    ensures forall k | k in objects :: k in KeysOf(listing)
  {
    if listing == [] then map[]
    else
      var n := |listing| - 1;
      assert KeysOf(listing) == KeysOf(listing[..n]) + [listing[n].0];
      Contents(listing[..n])[listing[n].0 := listing[n].1]
  }

  /** When no key is listed twice, summing the pages gives the bytes and the number of the objects. */
  lemma {:induction false} ListingExact(listing: seq<(Key, nat)>)
    requires forall i, j | 0 <= i < j < |listing| :: listing[i].0 != listing[j].0
    ensures Sizes(listing) == BucketBytes(Contents(listing)) && |listing| == |Contents(listing)|
  {
    hide BucketBytes;
    if listing == [] {
      NoBytes();
    } else {
      var n := |listing| - 1;
      var k, before := listing[n].0, Contents(listing[..n]);
      assert k !in KeysOf(listing[..n]);
      ListingExact(listing[..n]);
      BucketBytesPut(before, k, listing[n].1);
      assert before[k := listing[n].1].Keys == before.Keys + {k};
    }
  }

  lemma {:induction false} PageParts(objects: map<Key, nat>, passed: iset<Key>, range: iset<Key>)
    ensures BucketBytes(Part(objects, passed + range))
         == BucketBytes(Part(objects, passed)) + BucketBytes(Part(objects, range - passed))
  {
    hide BucketBytes;
    assert Part(objects, passed + range) == Part(objects, passed) + Part(objects, range - passed);
    BytesUnion(Part(objects, passed), Part(objects, range - passed));
  }

  lemma {:induction false} PartPut(objects: map<Key, nat>, passed: iset<Key>, k: Key, size: nat)
    ensures BucketBytes(Part(objects[k := size], passed)) + (if k in passed then OldSize(objects, k) else 0)
         == BucketBytes(Part(objects, passed)) + (if k in passed then size else 0)
  {
    hide BucketBytes;
    if k in passed {
      BucketBytesPut(Part(objects, passed), k, size);
      assert Part(objects[k := size], passed) == Part(objects, passed)[k := size];
    } else {
      assert Part(objects[k := size], passed) == Part(objects, passed);
    }
  }

  // ---- invariants ----

  function Max(x: nat, y: nat): nat {
    if x < y then y else x
  }

  /** No larger file passes a check. */
  function Largest(cfg: Config): nat {
    if cfg.maxSize < cfg.ceiling then cfg.maxSize else cfg.ceiling
  }

  /** The most that concurrent checks can let through. */
  function Bound(uploaders: nat, cfg: Config): nat
    requires uploaders > 0
  {
    cfg.ceiling + (uploaders - 1) * Largest(cfg)
  }

  ghost predicate Budgeted(s: State, uploaders: nat, cfg: Config)
    requires uploaders > 0
  {
    && |s.uploaders| == uploaders
    && (forall j | 0 <= j < |s.uploaders| :: SizeOf(s.uploaders[j]) <= Largest(cfg))
    && Total(s, cfg) + InFlight(s.uploaders) <= Max(Bound(uploaders, cfg), s.reconciled)
  }

  /** Every byte of the bucket is recorded, waiting for its record or never recorded, and only the
      excess is counted beyond that. */
  ghost predicate Accounted(s: State, cfg: Config) {
    BucketBytes(s.objects) + s.excess == Total(s, cfg) + PutUnrecorded(s.uploaders) + s.unrecorded
  }

  /** The same of what the listing of a running reconcile has passed. */
  ghost predicate WalkAccounted(s: State, r: WalkId)
    requires r in s.walks
  {
    var w := s.walks[r];
    BucketBytes(Part(s.objects, w.passed)) + w.excess == w.bytes + w.lost + PutBehind(s.uploaders, r)
  }

  /** What every step keeps. */
  ghost predicate Inv(s: State, uploaders: nat, cfg: Config)
    requires uploaders > 0
  {
    Budgeted(s, uploaders, cfg) && Accounted(s, cfg) && forall r | r in s.walks :: WalkAccounted(s, r)
  }

  lemma {:induction false} NextBudgeted(s: State, e: Event, uploaders: nat, cfg: Config)
    requires uploaders > 0 && Budgeted(s, uploaders, cfg) && Enabled(s, e, cfg)
    ensures Budgeted(Next(s, e, cfg), uploaders, cfg)
  {
    hide InFlight, PutUnrecorded, BucketBytes, Passing, Missed, Replaced, PutSeen, Part;
    match e
    case Check(i, key, size) =>
      InFlightUpdate(s.uploaders, i, Checked(key, size));
      InFlightBound(s.uploaders, i, Largest(cfg));
    case Put(i) => InFlightUpdate(s.uploaders, i, Uploaded(s.uploaders[i].size, Passing(s.walks, s.uploaders[i].key)));
    case PutFails(i, _) => InFlightUpdate(s.uploaders, i, Idle);
    case Record(i) => InFlightUpdate(s.uploaders, i, Idle);
    case RecordFails(i) => InFlightUpdate(s.uploaders, i, Idle);
    case Begin(_) =>
    case Page(_, _) =>
    case Overwrite(_) =>
  }

  lemma {:induction false} NextAccounted(s: State, e: Event, cfg: Config)
    requires Accounted(s, cfg) && Enabled(s, e, cfg) && !e.Overwrite?
    ensures Accounted(Next(s, e, cfg), cfg)
  {
    hide InFlight, PutUnrecorded, BucketBytes, Passing, Missed, Replaced, PutSeen, Part;
    match e
    case Check(i, key, size) => InFlightUpdate(s.uploaders, i, Checked(key, size));
    case Put(i) =>
      InFlightUpdate(s.uploaders, i, Uploaded(s.uploaders[i].size, Passing(s.walks, s.uploaders[i].key)));
      BucketBytesPut(s.objects, s.uploaders[i].key, s.uploaders[i].size);
    case PutFails(i, _) =>
      InFlightUpdate(s.uploaders, i, Idle);
      BucketBytesPut(s.objects, s.uploaders[i].key, s.uploaders[i].size);
    case Record(i) => InFlightUpdate(s.uploaders, i, Idle);
    case RecordFails(i) => InFlightUpdate(s.uploaders, i, Idle);
    case Begin(_) =>
    case Page(_, _) =>
  }

  /** A complete listing accounts for the whole bucket. */
  lemma {:induction false} OverwriteAccounted(s: State, r: WalkId, cfg: Config)
    requires r in s.walks && Complete(s.walks[r]) && WalkAccounted(s, r)
    ensures Accounted(Overwritten(s, r, cfg), cfg)
  {
    hide InFlight, PutUnrecorded, BucketBytes, PutSeen;
    assert Part(s.objects, s.walks[r].passed) == s.objects;
    PutParts(s.uploaders, r);
  }

  lemma {:induction false} NextWalk(s: State, e: Event, cfg: Config, r: WalkId)
    requires Enabled(s, e, cfg) && r in Next(s, e, cfg).walks && (r in s.walks ==> WalkAccounted(s, r))
    ensures WalkAccounted(Next(s, e, cfg), r)
  {
    hide InFlight, PutUnrecorded, BucketBytes, PutSeen, Part, PutBehind;
    match e
    case Check(i, key, size) => BehindUpdate(s.uploaders, i, Checked(key, size), r);
    case Put(i) =>
      var u := s.uploaders[i];
      BehindUpdate(s.uploaders, i, Uploaded(u.size, Passing(s.walks, u.key)), r);
      PartPut(s.objects, s.walks[r].passed, u.key, u.size);
    case PutFails(i, _) =>
      BehindUpdate(s.uploaders, i, Idle, r);
      PartPut(s.objects, s.walks[r].passed, s.uploaders[i].key, s.uploaders[i].size);
    case Record(i) => BehindUpdate(s.uploaders, i, Idle, r);
    case RecordFails(i) => BehindUpdate(s.uploaders, i, Idle, r);
    case Begin(b) =>
      if r == b {
        NoneBehind(s.uploaders, r);
        NothingPassed(s.objects);
      }
    case Page(p, range) =>
      if r == p {
        PageParts(s.objects, s.walks[r].passed, range);
      }
    case Overwrite(_) =>
  }

  lemma {:induction false} NothingPassed(objects: map<Key, nat>)
    ensures BucketBytes(Part(objects, iset{})) == 0
  {
    assert Part(objects, iset{}) == map[];
  }

  lemma {:induction false} NextKeepsInv(s: State, e: Event, uploaders: nat, cfg: Config)
    requires uploaders > 0 && Inv(s, uploaders, cfg) && Enabled(s, e, cfg)
    ensures Inv(Next(s, e, cfg), uploaders, cfg)
  {
    hide Budgeted, Accounted, WalkAccounted;
    NextBudgeted(s, e, uploaders, cfg);
    if e.Overwrite? {
      OverwriteAccounted(s, e.r, cfg);
    } else {
      NextAccounted(s, e, cfg);
    }
    forall r | r in Next(s, e, cfg).walks ensures WalkAccounted(Next(s, e, cfg), r) {
      NextWalk(s, e, cfg, r);
    }
  }

  /** Over all interleavings of `k` uploaders and any number of reconciles: the budget bound, and an
      exact account of the real bytes. */
  lemma {:induction false} BudgetBound(states: seq<State>, events: seq<Event>, k: nat, cfg: Config, n: nat)
    requires k > 0 && IsRun(states, events, cfg) && states[0] == Start(k) && n < |states|
    ensures Inv(states[n], k, cfg)
  {
    hide Next, Enabled, Inv;
    if n == 0 {
      StartInv(k, cfg);
    } else {
      BudgetBound(states, events, k, cfg, n - 1);
      assert Enabled(states[n - 1], events[n - 1], cfg) && states[n] == Next(states[n - 1], events[n - 1], cfg);
      NextKeepsInv(states[n - 1], events[n - 1], k, cfg);
    }
  }

  lemma {:induction false} StartInv(k: nat, cfg: Config)
    requires k > 0
    ensures Inv(Start(k), k, cfg)
  {
    RestInFlight(Start(k).uploaders);
  }

  /** When no upload waits for its record the total is right if and only if the bytes it misses and
      the bytes it counts too many are equally many. */
  lemma {:induction false} TotalRightIff(states: seq<State>, events: seq<Event>, k: nat, cfg: Config, n: nat)
    requires k > 0 && IsRun(states, events, cfg) && states[0] == Start(k) && n < |states|
    requires PutUnrecorded(states[n].uploaders) == 0
    ensures Total(states[n], cfg) == BucketBytes(states[n].objects) <==> states[n].unrecorded == states[n].excess
  {
    BudgetBound(states, events, k, cfg, n);
  }

  /** What a reconcile found was the recorded total plus the sizes in flight right after it. */
  lemma {:induction false} ReconciledSeen(states: seq<State>, events: seq<Event>, k: nat, cfg: Config, n: nat)
    returns (m: nat)
    requires IsRun(states, events, cfg) && states[0] == Start(k) && n < |states|
    ensures m <= n && Total(states[m], cfg) + InFlight(states[m].uploaders) >= states[n].reconciled
  {
    hide AtRest, InFlight, PutSeen, Missed, Replaced, Passing, BucketBytes;
    if n == 0 {
      m := 0;
    } else {
      var s, e := states[n - 1], events[n - 1];
      assert Enabled(s, e, cfg) && states[n] == Next(s, e, cfg);
      if e.Overwrite? {
        m := n;
      } else {
        m := ReconciledSeen(states, events, k, cfg, n - 1);
      }
    }
  }

  /** The plain bound holds throughout a run exactly when no reconcile of the run found more in
      the bucket, together with the sizes then in flight, than the bound. */
  lemma {:induction false} PlainBoundIff(states: seq<State>, events: seq<Event>, k: nat, cfg: Config)
    requires k > 0 && IsRun(states, events, cfg) && states[0] == Start(k)
    ensures (forall n | 0 <= n < |states| :: Total(states[n], cfg) + InFlight(states[n].uploaders) <= Bound(k, cfg))
            <==> (forall n | 0 <= n < |states| :: states[n].reconciled <= Bound(k, cfg))
  {
    hide InFlight, Total, IsRun;
    forall n: nat | n < |states|
      ensures Total(states[n], cfg) + InFlight(states[n].uploaders) <= Max(Bound(k, cfg), states[n].reconciled)
      ensures exists m: nat :: m <= n && Total(states[m], cfg) + InFlight(states[m].uploaders) >= states[n].reconciled
    {
      BudgetBound(states, events, k, cfg, n);
      var m := ReconciledSeen(states, events, k, cfg, n);
    }
    if forall n | 0 <= n < |states| :: Total(states[n], cfg) + InFlight(states[n].uploaders) <= Bound(k, cfg) {
      forall n: nat | n < |states| ensures states[n].reconciled <= Bound(k, cfg) {
        var m: nat :| m <= n && Total(states[m], cfg) + InFlight(states[m].uploaders) >= states[n].reconciled;
        assert Total(states[m], cfg) + InFlight(states[m].uploaders) <= Bound(k, cfg);
      }
    }
  }

  /** The plain bound holds at every moment of a run whose reconciles each overwrite the row when all
      bytes of the bucket are recorded, nothing the listing had found having been replaced. */
  lemma {:induction false} CleanReconciles(states: seq<State>, events: seq<Event>, k: nat, cfg: Config, n: nat)
    requires k > 0 && IsRun(states, events, cfg) && states[0] == Start(k) && n < |states|
    requires forall i | 0 <= i < |events| && events[i].Overwrite? ::
               && states[i].unrecorded == 0 && PutUnrecorded(states[i].uploaders) == 0
               && (events[i].r in states[i].walks ==> states[i].walks[events[i].r].excess == 0)
    ensures states[n].reconciled <= Bound(k, cfg)
    ensures Total(states[n], cfg) + InFlight(states[n].uploaders) <= Bound(k, cfg)
  {
    hide InFlight, PutUnrecorded, AtRest, BucketBytes, PutBehind, PutSeen, Next;
    BudgetBound(states, events, k, cfg, n);
    if n > 0 {
      CleanReconciles(states, events, k, cfg, n - 1);
      BudgetBound(states, events, k, cfg, n - 1);
      var s, e := states[n - 1], events[n - 1];
      assert Enabled(s, e, cfg) && states[n] == Next(s, e, cfg);
      if e.Overwrite? {
        CleanOverwrite(s, e.r, cfg);
      } else {
        SameReconciled(s, e, cfg);
      }
      assert states[n].reconciled <= Max(Bound(k, cfg), s.reconciled);
    }
  }

  lemma {:induction false} SameReconciled(s: State, e: Event, cfg: Config)
    requires Enabled(s, e, cfg) && !e.Overwrite?
    ensures Next(s, e, cfg).reconciled == s.reconciled
  {
  }

  lemma {:induction false} CleanOverwrite(s: State, r: WalkId, cfg: Config)
    requires r in s.walks && Complete(s.walks[r]) && WalkAccounted(s, r) && Accounted(s, cfg)
    requires s.unrecorded == 0 && PutUnrecorded(s.uploaders) == 0 && s.walks[r].excess == 0
    ensures Overwritten(s, r, cfg).reconciled <= Total(s, cfg) + InFlight(s.uploaders)
    ensures Next(s, Overwrite(r), cfg) == Overwritten(s, r, cfg)
  {
    hide InFlight, PutUnrecorded, BucketBytes, PutBehind, PutSeen;
    assert Part(s.objects, s.walks[r].passed) == s.objects;
  }

  /** With one uploader the recorded total passes the ceiling only if a reconcile found it there. */
  lemma {:induction false} SingleUploader(states: seq<State>, events: seq<Event>, cfg: Config, n: nat)
    requires IsRun(states, events, cfg) && states[0] == Start(1) && n < |states|
    ensures Total(states[n], cfg) <= Max(cfg.ceiling, states[n].reconciled)
  {
    BudgetBound(states, events, 1, cfg, n);
  }

  /** The bucket's real size: within the bound, apart from what the row will never count: uploads whose
      record failed, and uploads that the last reconcile's listing missed and its overwriting erased. */
  lemma {:induction false} RealBytesBound(states: seq<State>, events: seq<Event>, k: nat, cfg: Config, n: nat)
    requires k > 0 && IsRun(states, events, cfg) && states[0] == Start(k) && n < |states|
    ensures BucketBytes(states[n].objects) <= Max(Bound(k, cfg), states[n].reconciled) + states[n].unrecorded
  {
    BudgetBound(states, events, k, cfg, n);
    PutWithinFlight(states[n].uploaders);
  }

  lemma {:induction false} PutWithinFlight(us: seq<Uploader>)
    ensures PutUnrecorded(us) <= InFlight(us)
  {
    if us != [] {
      PutWithinFlight(us[1..]);
    }
  }

  // ---- reachable states ----

  predicate Failing(e: Event) {
    e.PutFails? || e.RecordFails?
  }

  /** `clean`: without a step that fails. */
  ghost predicate Reaches(s: State, t: State, cfg: Config, clean: bool) {
    exists states, events ::
      && IsRun(states, events, cfg) && states[0] == s && states[|events|] == t
      && (clean ==> forall i | 0 <= i < |events| :: !Failing(events[i]))
  }

  lemma {:induction false} ReachesSelf(s: State, cfg: Config, clean: bool)
    ensures Reaches(s, s, cfg, clean)
  {
    assert IsRun([s], [], cfg);
  }

  lemma {:induction false} ReachesNext(s: State, t: State, e: Event, cfg: Config, clean: bool)
    requires Reaches(s, t, cfg, clean) && Enabled(t, e, cfg) && (clean ==> !Failing(e))
    ensures Reaches(s, Next(t, e, cfg), cfg, clean)
  {
    hide Next, Enabled;
    var states, events :| IsRun(states, events, cfg) && states[0] == s && states[|events|] == t
                          && (clean ==> forall i | 0 <= i < |events| :: !Failing(events[i]));
    var states', events' := states + [Next(t, e, cfg)], events + [e];
    assert IsRun(states', events', cfg);
  }

  /** A whole upload under a new key by an idle uploader: check, put, and a record that succeeds or
      fails. */
  ghost function AfterUpload(t: State, key: Key, size: nat, recorded: bool, cfg: Config): State {
    var stored := Stored(t, key, size);
    var missed := stored.(walks := Missed(stored.walks, Passing(t.walks, key), size));
    if recorded then missed.(rows := Recorded(t.rows, cfg.bucket, size))
    else missed.(unrecorded := t.unrecorded + size)
  }

  lemma {:induction false} UploadReaches(s: State, t: State, key: Key, size: nat, recorded: bool, cfg: Config,
                                         clean: bool)
    requires Reaches(s, t, cfg, clean) && (clean ==> recorded) && t.uploaders != [] && t.uploaders[0].Idle?
    requires size <= cfg.maxSize && Total(t, cfg) + size <= cfg.ceiling
    ensures Reaches(s, AfterUpload(t, key, size, recorded, cfg), cfg, clean)
  {
    hide Reaches, Passing, Missed, Replaced;
    var checked := Next(t, Check(0, key, size), cfg);
    ReachesNext(s, t, Check(0, key, size), cfg, clean);
    ReachesNext(s, checked, Put(0), cfg, clean);
    var put := Next(checked, Put(0), cfg);
    ReachesNext(s, put, if recorded then Record(0) else RecordFails(0), cfg, clean);
    assert put.uploaders[0 := Idle] == t.uploaders;
  }

  // ---- the bound is tight ----

  /** A state with any total up to the ceiling is reached by recorded uploads. */
  lemma {:induction false} FillTo(k: nat, cfg: Config, target: nat) returns (t: State)
    requires k > 0 && Largest(cfg) > 0 && target <= cfg.ceiling
    ensures Reaches(Start(k), t, cfg, true) && Total(t, cfg) == target
    ensures |t.uploaders| == k && AtRest(t) && t.reconciled == 0
    decreases target
  {
    hide Reaches;
    if target == 0 {
      t := Start(k);
      ReachesSelf(t, cfg, true);
    } else {
      var size := if target < Largest(cfg) then target else Largest(cfg);
      var before := FillTo(k, cfg, target - size);
      UploadReaches(Start(k), before, "k", size, true, cfg, true);
      t := AfterUpload(before, "k", size, true, cfg);
    }
  }

  /** The state after the first `n` uploaders have passed their check with a file of the largest size. */
  function Passed(s: State, cfg: Config, n: nat): State
    requires n <= |s.uploaders|
  {
    s.(uploaders := seq(n, _ => Checked("k", Largest(cfg))) + s.uploaders[n..])
  }

  lemma {:induction false} PassedInFlight(s: State, cfg: Config, n: nat)
    requires AtRest(s) && n <= |s.uploaders|
    ensures InFlight(Passed(s, cfg, n).uploaders) == n * Largest(cfg)
  {
    hide Largest;
    if n == 0 {
      RestInFlight(s.uploaders);
      assert Passed(s, cfg, 0).uploaders == s.uploaders;
    } else {
      PassedInFlight(s, cfg, n - 1);
      InFlightUpdate(Passed(s, cfg, n - 1).uploaders, n - 1, Checked("k", Largest(cfg)));
      assert Passed(s, cfg, n).uploaders == Passed(s, cfg, n - 1).uploaders[n - 1 := Checked("k", Largest(cfg))];
      assert n * Largest(cfg) == (n - 1) * Largest(cfg) + Largest(cfg);
    }
  }

  lemma {:induction false} CheckPasses(s: State, cfg: Config, i: nat)
    requires AtRest(s) && i < |s.uploaders| && Total(s, cfg) + Largest(cfg) <= cfg.ceiling
    ensures Enabled(Passed(s, cfg, i), Check(i, "k", Largest(cfg)), cfg)
    ensures Passed(s, cfg, i + 1) == Next(Passed(s, cfg, i), Check(i, "k", Largest(cfg)), cfg)
  {
    var us := Passed(s, cfg, i).uploaders;
    assert us[i] == s.uploaders[i];
    assert Passed(s, cfg, i + 1).uploaders == us[i := Checked("k", Largest(cfg))];
  }

  lemma {:induction false} PassedReached(start: State, s: State, cfg: Config, n: nat)
    requires Reaches(start, s, cfg, true) && AtRest(s) && n <= |s.uploaders|
    requires Total(s, cfg) + Largest(cfg) <= cfg.ceiling
    ensures Reaches(start, Passed(s, cfg, n), cfg, true)
  {
    hide Reaches, Next, Enabled, Largest;
    if n == 0 {
      assert Passed(s, cfg, 0).uploaders == s.uploaders;
    } else {
      PassedReached(start, s, cfg, n - 1);
      CheckPasses(s, cfg, n - 1);
      ReachesNext(start, Passed(s, cfg, n - 1), Check(n - 1, "k", Largest(cfg)), cfg, true);
    }
  }

  /** From the empty table `k` uploaders reach the bound without any reconcile, so no smaller bound
      holds. */
  lemma {:induction false} BoundIsTight(k: nat, cfg: Config) returns (t: State)
    requires k > 0 && Largest(cfg) > 0
    ensures Reaches(Start(k), t, cfg, true) && t.reconciled == 0
    ensures Total(t, cfg) + InFlight(t.uploaders) == Bound(k, cfg)
  {
    hide Reaches, InFlight, AtRest;
    var m := Largest(cfg);
    var s := FillTo(k, cfg, cfg.ceiling - m);
    PassedReached(Start(k), s, cfg, k);
    PassedInFlight(s, cfg, k);
    t := Passed(s, cfg, k);
    assert k * m == (k - 1) * m + m;
  }

  // ---- lost records ----

  function NthKey(n: nat): Key {
    seq(n, _ => 'k')
  }

  /** `n` different objects of the largest size. */
  function Lost(n: nat, cfg: Config): (objects: map<Key, nat>)
    ensures forall k | k in objects :: |k| < n
  {
    if n == 0 then map[] else Lost(n - 1, cfg)[NthKey(n - 1) := Largest(cfg)]
  }

  lemma {:induction false} LostBytes(n: nat, cfg: Config)
    ensures BucketBytes(Lost(n, cfg)) == n * Largest(cfg)
  {
    hide BucketBytes, Largest;
    if n == 0 {
      NoBytes();
    } else {
      var before := Lost(n - 1, cfg);
      LostBytes(n - 1, cfg);
      assert |NthKey(n - 1)| == n - 1;
      BucketBytesSplit(Lost(n, cfg), NthKey(n - 1));
      assert Lost(n, cfg) - {NthKey(n - 1)} == before;
      assert n * Largest(cfg) == (n - 1) * Largest(cfg) + Largest(cfg);
    }
  }

  lemma {:induction false} NoBytes()
    ensures BucketBytes(map[]) == 0
  {
  }

  lemma {:induction false} LostReached(k: nat, cfg: Config, n: nat)
    requires k > 0
    ensures Reaches(Start(k), Start(k).(objects := Lost(n, cfg), unrecorded := n * Largest(cfg)), cfg, false)
  {
    hide Reaches, Largest;
    if n == 0 {
      ReachesSelf(Start(k), cfg, false);
    } else {
      LostReached(k, cfg, n - 1);
      var before := Start(k).(objects := Lost(n - 1, cfg), unrecorded := (n - 1) * Largest(cfg));
      LargestFits(cfg);
      UploadReaches(Start(k), before, NthKey(n - 1), Largest(cfg), false, cfg, false);
      assert n * Largest(cfg) == (n - 1) * Largest(cfg) + Largest(cfg);
      assert |NthKey(n - 1)| == n - 1;
      assert AfterUpload(before, NthKey(n - 1), Largest(cfg), false, cfg)
          == Start(k).(objects := Lost(n, cfg), unrecorded := n * Largest(cfg));
    }
  }

  lemma {:induction false} LargestFits(cfg: Config)
    ensures Largest(cfg) <= cfg.maxSize && Largest(cfg) <= cfg.ceiling
  {
  }

  /** A listing in one page, when no other reconcile is running. */
  ghost function Listed(s: State, r: WalkId): State {
    s.(walks := s.walks[r := PageRead(Walk(iset{}, 0, 0, 0, 0), s.objects, ALL_KEYS)])
  }

  ghost const ALL_KEYS: iset<Key> := iset k: Key | true

  lemma {:induction false} ListedReached(start: State, s: State, r: WalkId, cfg: Config, clean: bool)
    requires Reaches(start, s, cfg, clean) && AtRest(s) && r !in s.walks
    ensures Reaches(start, Listed(s, r), cfg, clean)
    ensures var w := Listed(s, r).walks[r];
            Complete(w) && w.bytes == BucketBytes(s.objects) && w.lost == 0 && w.excess == 0
  {
    hide Reaches, BucketBytes;
    var begun := Next(s, Begin(r), cfg);
    ReachesNext(start, s, Begin(r), cfg, clean);
    ReachesNext(start, begun, Page(r, ALL_KEYS), cfg, clean);
    assert Part(s.objects, ALL_KEYS - iset{}) == s.objects;
    assert Next(begun, Page(r, ALL_KEYS), cfg).walks == Listed(s, r).walks;
  }

  /** Uploads whose record step fails, then one reconcile at rest: the recorded total passes any
      bound, with any number of uploaders. */
  lemma {:induction false} LostRecordsPassAnyBound(k: nat, cfg: Config, n: nat) returns (t: State)
    requires k > 0 && Largest(cfg) > 0
    ensures Reaches(Start(k), t, cfg, false) && AtRest(t) && Total(t, cfg) == n * Largest(cfg) >= n
  {
    hide Reaches, Largest, BucketBytes, InFlight, PutSeen;
    LostReached(k, cfg, n);
    LostBytes(n, cfg);
    var s := Start(k).(objects := Lost(n, cfg), unrecorded := n * Largest(cfg));
    ListedReached(Start(k), s, 0, cfg, false);
    t := Overwritten(Listed(s, 0), 0, cfg);
    ReachesNext(Start(k), Listed(s, 0), Overwrite(0), cfg, false);
    AtLeastOne(n, Largest(cfg));
  }

  lemma {:induction false} AtLeastOne(n: nat, m: nat)
    requires m > 0
    ensures n * m >= n
  {
  }

  // ---- reconciling while uploads wait for their record ----

  /** The first `n` uploaders have recorded what they had uploaded. */
  function Settled(s: State, cfg: Config, n: nat): (t: State)
    requires n <= |s.uploaders|
    ensures |t.uploaders| == |s.uploaders| && t.uploaders[n..] == s.uploaders[n..] && t.objects == s.objects
    ensures forall i | 0 <= i < n :: !t.uploaders[i].Uploaded?
  {
    if n == 0 then s
    else
      var t := Settled(s, cfg, n - 1);
      assert t.uploaders[n - 1] == t.uploaders[n - 1..][0] == s.uploaders[n - 1];
      assert t.uploaders[n..] == t.uploaders[n - 1..][1..] == s.uploaders[n - 1..][1..] == s.uploaders[n..];
      if t.uploaders[n - 1].Uploaded? then
        t.(rows := Recorded(t.rows, cfg.bucket, t.uploaders[n - 1].size), uploaders := t.uploaders[n - 1 := Idle],
           walks := Missed(t.walks, t.uploaders[n - 1].behind, t.uploaders[n - 1].size))
      else t
  }

  lemma {:induction false} SettledReached(s: State, cfg: Config, n: nat)
    requires n <= |s.uploaders|
    ensures Reaches(s, Settled(s, cfg, n), cfg, true)
    ensures Total(Settled(s, cfg, n), cfg) == Total(s, cfg) + PutUnrecorded(s.uploaders[..n])
  {
    hide Reaches, Missed;
    if n == 0 {
      ReachesSelf(s, cfg, true);
    } else {
      var t := Settled(s, cfg, n - 1);
      SettledReached(s, cfg, n - 1);
      assert t.uploaders[n - 1] == t.uploaders[n - 1..][0] == s.uploaders[n - 1];
      PutSnoc(s.uploaders, n);
      if t.uploaders[n - 1].Uploaded? {
        ReachesNext(s, t, Record(n - 1), cfg, true);
      }
    }
  }

  lemma {:induction false} PutSnoc(us: seq<Uploader>, n: nat)
    requires 0 < n <= |us|
    ensures PutUnrecorded(us[..n]) == PutUnrecorded(us[..n - 1]) + PutSize(us[n - 1])
    decreases n
  {
    if n > 1 {
      PutSnoc(us[1..], n - 1);
      assert us[..n][1..] == us[1..][..n - 1] && us[..n - 1][1..] == us[1..][..n - 2];
    } else {
      assert us[..1] == [us[0]] && us[..1][1..] == [] && us[..0] == [];
    }
  }

  /** A reconcile overwrites the row in any state, and then the uploads that were waiting are recorded:
      the total is what the listing found plus those uploads, so it is right if and only if that is what
      the bucket held when the row was overwritten. */
  lemma {:induction false} ReconcileExactIff(s: State, r: WalkId, cfg: Config)
    requires r in s.walks && Complete(s.walks[r])
    ensures var t := Settled(Overwritten(s, r, cfg), cfg, |s.uploaders|);
            && Reaches(s, t, cfg, true) && t.objects == s.objects
            && (forall i | 0 <= i < |t.uploaders| :: !t.uploaders[i].Uploaded?)
            && Total(t, cfg) == s.walks[r].bytes + PutUnrecorded(s.uploaders)
            && (Total(t, cfg) == BucketBytes(t.objects)
                <==> BucketBytes(s.objects) == s.walks[r].bytes + PutUnrecorded(s.uploaders))
  {
    hide BucketBytes, InFlight, PutSeen, IsRun, Settled, PutUnrecorded;
    var after := Overwritten(s, r, cfg);
    SettledReached(after, cfg, |s.uploaders|);
    ReachesSelf(s, cfg, true);
    ReachesNext(s, s, Overwrite(r), cfg, true);
    ReachesTrans(s, after, Settled(after, cfg, |s.uploaders|), cfg);
    assert s.uploaders[..|s.uploaders|] == s.uploaders;
  }

  lemma {:induction false} ReachesTrans(s: State, t: State, u: State, cfg: Config)
    requires Reaches(s, t, cfg, true) && Reaches(t, u, cfg, true)
    ensures Reaches(s, u, cfg, true)
  {
    hide Enabled, Next;
    var xs, es :| IsRun(xs, es, cfg) && xs[0] == s && xs[|es|] == t && forall i | 0 <= i < |es| :: !Failing(es[i]);
    var ys, fs :| IsRun(ys, fs, cfg) && ys[0] == t && ys[|fs|] == u && forall i | 0 <= i < |fs| :: !Failing(fs[i]);
    var states, events := xs + ys[1..], es + fs;
    forall i | 0 <= i < |events|
      ensures Enabled(states[i], events[i], cfg) && states[i + 1] == Next(states[i], events[i], cfg)
      ensures !Failing(events[i])
    {
      if i < |es| {
        assert events[i] == es[i] && states[i] == xs[i] && states[i + 1] == xs[i + 1];
      } else {
        var j := i - |es|;
        assert events[i] == fs[j] && states[i] == ys[j] && states[i + 1] == ys[j + 1];
      }
    }
    assert IsRun(states, events, cfg);
  }

  // ---- uploads behind the listing ----

  /** The reconciles `lo` to `hi - 1`, all at the same point. */
  function Alike(lo: nat, hi: nat, w: Walk): (walks: map<WalkId, Walk>)
    ensures forall r :: r in walks <==> lo <= r < hi
    ensures forall r | r in walks :: walks[r] == w
  {
    if lo >= hi then map[] else Alike(lo, hi - 1, w)[hi - 1 := w]
  }

  /** A reconcile that listed the empty bucket, after `lost` bytes of uploads. */
  ghost function Early(lost: nat): Walk {
    Walk(ALL_KEYS, 0, 0, lost, 0)
  }

  /** `n` reconciles have listed the empty bucket. */
  ghost function Begun(k: nat, n: nat): State {
    Start(k).(walks := Alike(0, n, Early(0)))
  }

  lemma {:induction false} BegunReached(k: nat, n: nat, cfg: Config)
    ensures Reaches(Start(k), Begun(k, n), cfg, true)
  {
    hide Reaches, BucketBytes, Listed, Early;
    if n == 0 {
      ReachesSelf(Start(k), cfg, true);
    } else {
      BegunReached(k, n - 1, cfg);
      ListedReached(Start(k), Begun(k, n - 1), n - 1, cfg, true);
      OneMoreBegun(k, n);
    }
  }

  lemma {:induction false} OneMoreBegun(k: nat, n: nat)
    requires n > 0
    ensures Listed(Begun(k, n - 1), n - 1) == Begun(k, n)
  {
    hide BucketBytes;
    NothingPassed(map[]);
    assert Part(map[], ALL_KEYS - iset{}) == map[];
    assert iset{} + ALL_KEYS == ALL_KEYS;
  }

  /** The first `j` of them have overwritten the row, each after one more upload. */
  ghost function Erased(k: nat, cfg: Config, n: nat, j: nat): State
    requires j <= n
  {
    var lost := j * Largest(cfg);
    if j == 0 then Begun(k, n)
    else
      Start(k).(rows := map[cfg.bucket := Usage(0, 0)], objects := Lost(j, cfg), unrecorded := lost,
                walks := Alike(j, n, Early(lost)))
  }

  lemma {:induction false} ErasedReached(k: nat, cfg: Config, n: nat, j: nat)
    requires k > 0 && j <= n
    ensures Reaches(Start(k), Erased(k, cfg, n, j), cfg, true)
    decreases j
  {
    hide Reaches, Largest;
    if j == 0 {
      BegunReached(k, n, cfg);
    } else {
      var before := Erased(k, cfg, n, j - 1);
      var key, m := NthKey(j - 1), Largest(cfg);
      ErasedReached(k, cfg, n, j - 1);
      LargestFits(cfg);
      UploadReaches(Start(k), before, key, m, true, cfg, true);
      var uploaded := AfterUpload(before, key, m, true, cfg);
      UploadErased(k, cfg, n, j);
      ReachesNext(Start(k), uploaded, Overwrite(j - 1), cfg, true);
    }
  }

  lemma {:induction false} UploadErased(k: nat, cfg: Config, n: nat, j: nat)
    requires k > 0 && 0 < j <= n
    ensures var uploaded := AfterUpload(Erased(k, cfg, n, j - 1), NthKey(j - 1), Largest(cfg), true, cfg);
            Enabled(uploaded, Overwrite(j - 1), cfg) && Overwritten(uploaded, j - 1, cfg) == Erased(k, cfg, n, j)
  {
    hide Largest, NthKey, Missed, Replaced, Passing, Alike, InFlight, PutSeen, Recorded;
    var before, key, m := Erased(k, cfg, n, j - 1), NthKey(j - 1), Largest(cfg);
    assert j * m == (j - 1) * m + m;
    NewKey(j, cfg);
    WalksMiss(before.walks, key, m, (j - 1) * m, j - 1, n);
    NothingInFlight(k, j - 1);
    OneLess(j - 1, n, Early(j * m));
    OneRow(before.rows, cfg, m);
  }

  lemma {:induction false} NothingInFlight(k: nat, r: WalkId)
    ensures InFlight(Start(k).uploaders) == 0 && PutSeen(Start(k).uploaders, r) == 0
  {
    RestInFlight(Start(k).uploaders);
    PutParts(Start(k).uploaders, r);
  }

  lemma {:induction false} OneLess(lo: nat, hi: nat, w: Walk)
    requires lo < hi
    ensures Alike(lo, hi, w) - {lo} == Alike(lo + 1, hi, w)
  {
  }

  lemma {:induction false} OneRow(rows: map<Bucket, Usage>, cfg: Config, size: nat)
    requires rows == map[] || rows == map[cfg.bucket := Usage(0, 0)]
    ensures Reconciled(Recorded(rows, cfg.bucket, size), cfg.bucket, 0, 0) == map[cfg.bucket := Usage(0, 0)]
  {
  }

  lemma {:induction false} NewKey(j: nat, cfg: Config)
    requires j > 0
    ensures NthKey(j - 1) !in Lost(j - 1, cfg)
  {
    assert |NthKey(j - 1)| == j - 1;
  }

  /** An upload under a new key, which every listing has passed. */
  lemma {:induction false} WalksMiss(walks: map<WalkId, Walk>, key: Key, size: nat, lost: nat, lo: nat, hi: nat)
    requires walks == Alike(lo, hi, Early(lost))
    ensures Missed(Replaced(walks, Passing(walks, key), 0), Passing(walks, key), size)
         == Alike(lo, hi, Early(lost + size))
  {
  }

  /** Uploads put and recorded between a reconcile's listing and its overwriting are erased from the
      total, without any step that fails: one uploader and one reconcile fill the bucket to twice the
      largest file, twice the ceiling if files may be that large, with a total of one; and reconciles
      that list before the first one overwrites take it past any bound. */
  lemma {:induction false} UploadsErased(k: nat, cfg: Config, n: nat) returns (t: State)
    requires k > 0
    ensures Reaches(Start(k), t, cfg, true) && AtRest(t) && t.walks == map[]
    ensures Total(t, cfg) == Largest(cfg) && BucketBytes(t.objects) == (n + 1) * Largest(cfg)
  {
    hide Reaches, Largest, BucketBytes;
    var before := Erased(k, cfg, n, n);
    ErasedReached(k, cfg, n, n);
    LargestFits(cfg);
    UploadReaches(Start(k), before, NthKey(n), Largest(cfg), true, cfg, true);
    t := AfterUpload(before, NthKey(n), Largest(cfg), true, cfg);
    assert t.objects == Lost(n + 1, cfg);
    LostBytes(n + 1, cfg);
  }
}
