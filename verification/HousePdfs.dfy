/** Archiving House PDFs (`ingest/house_pdfs.py`). */
module HousePdfs {
  import opened Optional
  import opened Issues
  import opened Scheduler
  import Text
  import Money
  import Quota
  import Sorting

  type FilingId = string

  datatype Filing = Filing(house: bool, filingType: string, filedYear: Option<nat>, rawKey: Option<string>,
        sha256: Option<string>)

  datatype Db = Db(filings: map<FilingId, Filing>, issues: seq<Issue>,
                   usage: map<Quota.Bucket, Quota.Usage>, objects: map<Quota.Key, nat>)

  const BUCKET := "congress-raw"

  // ---- the outside world ----

  datatype Response = Served(size: nat, sha256: string) | NotFound | Failed

  datatype UploadOutcome = Stored | RaisedStored | RaisedLost

  /** What the Clerk's site, the bucket, the record step and the session that closes an attempt do
      during one run. */
  datatype World = World(
    pdf: (FilingId, nat) -> Response, upload: FilingId -> UploadOutcome, recordOk: FilingId -> bool,
    commitOk: FilingId -> bool, thisYear: nat, ceiling: nat)

  // ---- fetching one PDF ----

  function CandidateYears(filedYear: nat): seq<nat> {
    [filedYear, if filedYear == 0 then 0 else filedYear - 1, filedYear + 1]
  }

  datatype Fetch = Pdf(year: nat, size: nat, sha256: string) | NoPdf

  /** The first candidate year that does not answer 404 decides; an error other than 404 ends the search. */
  function FetchFrom(id: FilingId, years: seq<nat>, world: World): Fetch {
    if years == [] then NoPdf
    else
      match world.pdf(id, years[0])
      case Served(size, sha) => Pdf(years[0], size, sha)
      case NotFound => FetchFrom(id, years[1..], world)
      case Failed => NoPdf
  }

  method FetchPdf(id: FilingId, filedYear: nat, world: World) returns (r: Fetch)
    ensures r == FetchFrom(id, CandidateYears(filedYear), world)
  {
    var years := CandidateYears(filedYear);
    assert years[0..] == years;
    for i := 0 to |years|
      invariant FetchFrom(id, years, world) == FetchFrom(id, years[i..], world)
    {
      assert years[i..][1..] == years[i + 1..];
      var response := world.pdf(id, years[i]);
      match response
      case Served(size, sha) => return Pdf(years[i], size, sha);
      case NotFound =>
      case Failed => return NoPdf;
    }
    r := NoPdf;
  }

  /** Folder `i` serves the PDF and every folder tried before answers 404. */
  predicate FoundAt(id: FilingId, years: seq<nat>, i: nat, world: World)
    requires i < |years|
  {
    world.pdf(id, years[i]).Served? && forall j | 0 <= j < i :: world.pdf(id, years[j]).NotFound?
  }

  /** A PDF is found in a folder exactly when that folder serves it and every folder tried before
      answers 404. */
  lemma {:induction false} FetchFromFinds(id: FilingId, years: seq<nat>, world: World)
    ensures FetchFrom(id, years, world).Pdf? <==> exists i | 0 <= i < |years| :: FoundAt(id, years, i, world)
  {
    if years != [] {
      var rest := years[1..];
      FetchFromFinds(id, rest, world);
      if world.pdf(id, years[0]).Served? {
        assert FoundAt(id, years, 0, world);
      }
      if i :| 0 <= i < |rest| && FoundAt(id, rest, i, world) {
        if world.pdf(id, years[0]).NotFound? {
          assert years[i + 1] == rest[i];
          forall j | 0 <= j < i + 1 ensures world.pdf(id, years[j]).NotFound? {
            assert j > 0 ==> years[j] == rest[j - 1];
          }
          assert FoundAt(id, years, i + 1, world);
        }
      }
      if i :| 0 <= i < |years| && FoundAt(id, years, i, world) {
        if i > 0 {
          assert world.pdf(id, years[0]).NotFound?;
          assert rest[i - 1] == years[i];
          forall j | 0 <= j < i - 1 ensures world.pdf(id, rest[j]).NotFound? {
            assert rest[j] == years[j + 1];
          }
          assert FoundAt(id, rest, i - 1, world);
        }
      }
    }
  }

  // ---- selecting a batch ----

  function Pending(db: Db): set<FilingId> {
    set f | f in db.filings && db.filings[f].house && db.filings[f].rawKey.None?
  }

  function QueueOf(db: Db): Queue<FilingId> {
    Queue(Pending(db), Flagged(db.issues))
  }

  /** PTRs, then electronic annual reports, then everything else. */
  function TypeTier(db: Db, f: FilingId): nat {
    if f !in db.filings then 2
    else if db.filings[f].filingType == "P" then 0
    else if db.filings[f].filingType == "O" && Text.StartsWith(f, "house:100") then 1
    else 2
  }

  function Tier(db: Db): FilingId -> nat {
    (f: FilingId) => TypeTier(db, f)
  }

  function RankKey(db: Db): FilingId -> Sorting.Key {
    (f: FilingId) => (if f in Flagged(db.issues) then 1.0 else 0.0, TypeTier(db, f) as real)
  }

  /** `ORDER BY failed, type LIMIT limit`, for rows the table yields in the order `scan`. */
  function FetchPending(db: Db, scan: seq<FilingId>, limit: nat): seq<FilingId> {
    var ordered := Sorting.Sort(scan, RankKey(db));
    if |ordered| <= limit then ordered else ordered[..limit]
  }

  ghost predicate Scans(scan: seq<FilingId>, items: set<FilingId>) {
    (forall i, j | 0 <= i < j < |scan| :: scan[i] != scan[j]) && forall f :: f in scan <==> f in items
  }

  lemma {:induction false} MembersSize<T>(xs: seq<T>)
    requires forall i, j | 0 <= i < j < |xs| :: xs[i] != xs[j]
    ensures |Members(xs)| == |xs|
  {
    if xs != [] {
      MembersSize(xs[1..]);
      assert Members(xs) == {xs[0]} + Members(xs[1..]);
    }
  }

  lemma {:induction false} DistinctFromMultiset<T>(xs: seq<T>, ys: seq<T>)
    requires multiset(xs) == multiset(ys)
    requires forall i, j | 0 <= i < j < |ys| :: ys[i] != ys[j]
    ensures forall i, j | 0 <= i < j < |xs| :: xs[i] != xs[j]
  {
    forall i, j | 0 <= i < j < |xs| ensures xs[i] != xs[j] {
      if xs[i] == xs[j] {
        TwiceInSeq(xs, i, j);
        assert multiset(ys)[xs[i]] >= 2;
        OnceInDistinct(ys, xs[i]);
        assert false;
      }
    }
  }

  lemma {:induction false} TwiceInSeq<T>(xs: seq<T>, i: nat, j: nat)
    requires i < j < |xs| && xs[i] == xs[j]
    ensures multiset(xs)[xs[i]] >= 2
  {
    assert xs == xs[..j] + ([xs[j]] + xs[j + 1..]);
    assert multiset(xs) == multiset(xs[..j]) + (multiset{xs[j]} + multiset(xs[j + 1..]));
    assert xs[..j][i] == xs[i];
    assert xs[i] in multiset(xs[..j]);
  }

  lemma {:induction false} OnceInDistinct<T>(ys: seq<T>, y: T)
    requires forall i, j | 0 <= i < j < |ys| :: ys[i] != ys[j]
    ensures multiset(ys)[y] <= 1
  {
    if ys != [] {
      OnceInDistinct(ys[1..], y);
      assert ys == [ys[0]] + ys[1..];
      assert ys[0] !in ys[1..];
      assert ys[0] !in multiset(ys[1..]);
    }
  }

  /** The selected filings are a batch in the scheduler's sense, each listed once. */
  lemma {:induction false} FetchIsBatch(db: Db, scan: seq<FilingId>, limit: nat)
    requires Scans(scan, Pending(db))
    ensures var batch := FetchPending(db, scan, limit);
            && (forall i, j | 0 <= i < j < |batch| :: batch[i] != batch[j])
            && IsBatch(QueueOf(db), Tier(db), limit, Members(batch))
  {
    hide TypeTier, Sorting.Sort, Flagged, Pending;
    var ordered := Sorting.Sort(scan, RankKey(db));
    Sorting.SortSorts(scan, RankKey(db));
    DistinctFromMultiset(ordered, scan);
    var batch := FetchPending(db, scan, limit);
    MembersSize(batch);
    MembersSize(scan);
    assert Members(scan) == Pending(db);
    forall f ensures f in ordered <==> f in Pending(db) {
      assert f in multiset(ordered) <==> f in multiset(scan);
    }
    forall x, y | x in Members(batch) && y in Pending(db) && y !in Members(batch)
      ensures RankLe(Rank(QueueOf(db), Tier(db), x), Rank(QueueOf(db), Tier(db), y))
    {
      var i :| 0 <= i < |batch| && batch[i] == x;
      assert y in ordered;
      var j :| 0 <= j < |ordered| && ordered[j] == y;
      assert j >= |batch| && ordered[i] == x;
      assert Sorting.Le(RankKey(db)(ordered[i]), RankKey(db)(ordered[j]));
    }
  }

  // ---- one attempt ----

  function DocId(id: FilingId): string {
    if Text.StartsWith(id, "house:") then id[6..] else id
  }

  function ObjectKey(year: nat, id: FilingId): Quota.Key {
    "house/" + Money.Digits(year) + "/" + DocId(id) + ".pdf"
  }

  /** `_record_archived` */
  function ArchivedAs(db: Db, id: FilingId, key: Quota.Key, sha: string): Db {
    var filings :=
      if id in db.filings then db.filings[id := db.filings[id].(rawKey := Some(key), sha256 := Some(sha))]
      else db.filings;
    db.(filings := filings, issues := IssuesResolved(db.issues, id))
  }

  /** The guarded part of an attempt: fetch, check the budget, upload, record. It leaves bytes in the
      bucket and in the usage table, and the key and hash to store if all went well. */
  function Tried(db: Db, id: FilingId, world: World): (Db, Option<(Quota.Key, string)>) {
    var year :=
      if id in db.filings && db.filings[id].filedYear.Some? then db.filings[id].filedYear.value else world.thisYear;
    match FetchFrom(id, CandidateYears(year), world)
    case NoPdf => (db, None)
    case Pdf(found, size, sha) =>
      if Quota.WouldExceed(Quota.CurrentUsage(db.usage, BUCKET), size, world.ceiling) then (db, None)
      else
        var key := ObjectKey(found, id);
        var stored := db.(objects := db.objects[key := size]);
        match world.upload(id)
        case RaisedLost => (db, None)
        case RaisedStored => (stored, None)
        case Stored =>
          if !world.recordOk(id) then (stored, None)
          else (stored.(usage := Quota.Recorded(db.usage, BUCKET, size)), Some((key, sha)))
  }

  datatype Outcome = Archived | NotArchived | Aborted

  /** Any failure of the guarded part flags the filing and moves on; only an exception of the closing
      session, which stands outside the guard, aborts the run. */
  function Attempt(db: Db, id: FilingId, world: World): (Db, Outcome) {
    var (tried, stored) := Tried(db, id, world);
    if !world.commitOk(id) then (tried, Aborted)
    else
      match stored
      case Some((key, sha)) => (ArchivedAs(tried, id, key, sha), Archived)
      case None => (tried.(issues := FlaggedAs(tried.issues, id)), NotArchived)
  }

  /** `attempted` counts the attempts that came to their end. */
  datatype ArchiveRun = ArchiveRun(db: Db, archived: nat, attempted: nat, aborted: bool)

  function RunBatch(db: Db, batch: seq<FilingId>, world: World): ArchiveRun {
    if batch == [] then ArchiveRun(db, 0, 0, false)
    else
      var n := |batch| - 1;
      var before := RunBatch(db, batch[..n], world);
      if before.aborted then before
      else
        var (after, outcome) := Attempt(before.db, batch[n], world);
        if outcome == Aborted then ArchiveRun(after, before.archived, before.attempted, true)
        else
          ArchiveRun(after, if outcome == Archived then before.archived + 1 else before.archived,
                     before.attempted + 1, false)
  }

  class Archive {
    var filings: map<FilingId, Filing>
    var issues: seq<Issue>
    var usage: map<Quota.Bucket, Quota.Usage>
    var objects: map<Quota.Key, nat>

    function View(): Db
      reads this
    {
      Db(filings, issues, usage, objects)
    }

    constructor ()
      ensures View() == Db(map[], [], map[], map[])
    {
      filings, issues, usage, objects := map[], [], map[], map[];
    }

    method RecordArchived(id: FilingId, key: Quota.Key, sha: string)
      modifies this
      ensures View() == ArchivedAs(old(View()), id, key, sha)
    {
      if id in filings {
        filings := filings[id := filings[id].(rawKey := Some(key), sha256 := Some(sha))];
      }
      ghost var before := issues;
      for i := 0 to |issues|
        invariant |issues| == |before|
        invariant forall j | 0 <= j < i :: issues[j] == IssuesResolved(before, id)[j]
        invariant forall j | i <= j < |before| :: issues[j] == before[j]
        invariant usage == old(usage) && objects == old(objects)
        invariant filings == ArchivedAs(old(View()), id, key, sha).filings
      {
        if issues[i].subject == id && !issues[i].resolved {
          issues := issues[i := issues[i].(resolved := true)];
        }
      }
      assert issues == IssuesResolved(before, id);
    }

    method RecordFetchFailed(id: FilingId)
      modifies `issues
      ensures issues == FlaggedAs(old(issues), id)
      ensures Flagged(issues) == Flagged(old(issues)) + {id} && old(issues) <= issues
      ensures OneOpenIssue(old(issues)) ==> OneOpenIssue(issues)
    {
      FlagIssue(issues, id);
      if !HasOpenIssue(issues, id) {
        issues := issues + [Issue(id, false)];
      }
    }

    method ArchiveOne(id: FilingId, world: World) returns (outcome: Outcome)
      modifies this
      ensures (View(), outcome) == Attempt(old(View()), id, world)
    {
      var stored := TryArchive(id, world);
      if !world.commitOk(id) {
        return Aborted;
      }
      if stored.None? {
        RecordFetchFailed(id);
        return NotArchived;
      }
      RecordArchived(id, stored.value.0, stored.value.1);
      return Archived;
    }

    method TryArchive(id: FilingId, world: World) returns (stored: Option<(Quota.Key, string)>)
      modifies `objects, `usage
      ensures (View(), stored) == Tried(old(View()), id, world)
    {
      var year := if id in filings && filings[id].filedYear.Some? then filings[id].filedYear.value else world.thisYear;
      var r := FetchPdf(id, year, world);
      if r.NoPdf? || Quota.WouldExceed(Quota.CurrentUsage(usage, BUCKET), r.size, world.ceiling) {
        return None;
      }
      var key := ObjectKey(r.year, id);
      var outcome := world.upload(id);
      if outcome != RaisedLost {
        objects := objects[key := r.size];
      }
      if outcome != Stored || !world.recordOk(id) {
        return None;
      }
      usage := Quota.Recorded(usage, BUCKET, r.size);
      return Some((key, r.sha256));
    }

    method ArchivePending(scan: seq<FilingId>, batchSize: nat, world: World)
      returns (archived: nat, ghost attempted: nat, aborted: bool)
      modifies this
      ensures ArchiveRun(View(), archived, attempted, aborted)
           == RunBatch(old(View()), FetchPending(old(View()), scan, batchSize), world)
    {
      hide Attempt, FetchPending;
      var pending := FetchPending(View(), scan, batchSize);
      archived, attempted := 0, 0;
      for i := 0 to |pending|
        invariant ArchiveRun(View(), archived, attempted, false) == RunBatch(old(View()), pending[..i], world)
      {
        assert pending[..i + 1][..i] == pending[..i];
        RunBatchAborted(old(View()), pending, i + 1, world);
        var outcome := ArchiveOne(pending[i], world);
        if outcome == Aborted {
          return archived, attempted, true;
        }
        attempted := attempted + 1;
        if outcome == Archived {
          archived := archived + 1;
        }
      }
      assert pending[..|pending|] == pending;
      aborted := false;
    }
  }

  lemma {:induction false} RunBatchAborted(db: Db, batch: seq<FilingId>, n: nat, world: World)
    requires n <= |batch|
    ensures RunBatch(db, batch[..n], world).aborted ==> RunBatch(db, batch, world) == RunBatch(db, batch[..n], world)
    decreases |batch|
  {
    hide Attempt;
    if n == |batch| {
      assert batch[..n] == batch;
    } else {
      var m := |batch| - 1;
      RunBatchAborted(db, batch[..m], n, world);
      assert batch[..m][..n] == batch[..n];
    }
  }

  // ---- the archive step refines the scheduler ----

  lemma {:induction false} TriedOnlyStores(db: Db, id: FilingId, world: World)
    ensures var tried := Tried(db, id, world).0;
            && tried.filings == db.filings && tried.issues == db.issues
            && Quota.CurrentUsage(tried.usage, BUCKET) <= Quota.Max(world.ceiling, Quota.CurrentUsage(db.usage, BUCKET))
  {
    hide FetchFrom, CandidateYears, ObjectKey;
  }

  /** An attempt on a pending filing takes it off the backlog, or flags it, or aborts the run and leaves
      filings and flags alone; the last exactly when the closing session raises. */
  lemma {:induction false} AttemptMoves(db: Db, id: FilingId, world: World)
    requires id in Pending(db) && OneOpenIssue(db.issues)
    ensures var (after, outcome) := Attempt(db, id, world);
            && (outcome == Aborted <==> !world.commitOk(id))
            && OneOpenIssue(after.issues)
            && Pending(after) == (if outcome == Archived then Pending(db) - {id} else Pending(db))
            && Flagged(after.issues) == (match outcome
                                         case Archived => Flagged(db.issues) - {id}
                                         case NotArchived => Flagged(db.issues) + {id}
                                         case Aborted => Flagged(db.issues))
            && (forall f :: TypeTier(after, f) == TypeTier(db, f))
            && Quota.CurrentUsage(after.usage, BUCKET) <= Quota.Max(world.ceiling, Quota.CurrentUsage(db.usage, BUCKET))
  {
    hide FlaggedAs, IssuesResolved, Flagged, OneOpenIssue, Tried, Quota.CurrentUsage;
    FlagIssue(db.issues, id);
    ResolveIssue(db.issues, id);
    TriedOnlyStores(db, id, world);
  }

  /** What a run leaves behind: of the filings attempted to the end the archived ones left the backlog
      and the others are flagged, the returned count is the number archived, and one uploader never
      takes the recorded total past the ceiling. */
  ghost predicate RunDid(db: Db, batch: seq<FilingId>, world: World, r: ArchiveRun) {
    && r.attempted <= |batch| && (r.aborted <==> r.attempted < |batch|)
    && (forall i | 0 <= i < r.attempted :: world.commitOk(batch[i]))
    && (r.aborted ==> !world.commitOk(batch[r.attempted]))
    && OneOpenIssue(r.db.issues)
    && Ran(QueueOf(db), Members(batch[..r.attempted]), QueueOf(r.db))
    && r.archived == |Pending(db)| - |Pending(r.db)|
    && (forall f :: TypeTier(r.db, f) == TypeTier(db, f))
    && Quota.CurrentUsage(r.db.usage, BUCKET) <= Quota.Max(world.ceiling, Quota.CurrentUsage(db.usage, BUCKET))
  }

  /** A run attempts its batch in order up to the first filing whose closing session raises. */
  lemma {:induction false} RunBatchMoves(db: Db, batch: seq<FilingId>, world: World)
    requires OneOpenIssue(db.issues) && Members(batch) <= Pending(db)
    requires forall i, j | 0 <= i < j < |batch| :: batch[i] != batch[j]
    ensures RunDid(db, batch, world, RunBatch(db, batch, world))
  {
    hide Attempt, Flagged, OneOpenIssue, Pending, TypeTier, RunDid;
    if batch == [] {
      NothingDone(db, world);
    } else {
      MembersSplit(batch);
      RunBatchMoves(db, batch[..|batch| - 1], world);
      RunOneMore(db, batch, world, RunBatch(db, batch[..|batch| - 1], world));
    }
  }

  lemma {:induction false} NothingDone(db: Db, world: World)
    requires OneOpenIssue(db.issues)
    ensures RunDid(db, [], world, ArchiveRun(db, 0, 0, false))
  {
    hide Flagged, OneOpenIssue, Pending, TypeTier;
    RanNothing(QueueOf(db));
    NoMembers();
  }

  lemma {:induction false} RunOneMore(db: Db, batch: seq<FilingId>, world: World, before: ArchiveRun)
    requires batch != [] && Members(batch) <= Pending(db)
    requires forall i, j | 0 <= i < j < |batch| :: batch[i] != batch[j]
    requires RunDid(db, batch[..|batch| - 1], world, before)
    requires before == RunBatch(db, batch[..|batch| - 1], world)
    ensures RunDid(db, batch, world, RunBatch(db, batch, world))
  {
    hide Attempt, Flagged, OneOpenIssue, Pending, TypeTier, Ran, Quota.CurrentUsage, Members;
    var n := |batch| - 1;
    MembersSplit(batch);
    assert batch[..n][..before.attempted] == batch[..before.attempted];
    if !before.aborted {
      StillPending(QueueOf(db), Members(batch[..n]), QueueOf(before.db), batch[n]);
      AttemptMoves(before.db, batch[n], world);
      AttemptDid(db, batch, world, before, Attempt(before.db, batch[n], world).0,
                 Attempt(before.db, batch[n], world).1);
    }
  }

  lemma {:induction false} AttemptDid(db: Db, batch: seq<FilingId>, world: World, before: ArchiveRun, after: Db,
                                      outcome: Outcome)
    requires batch != [] && !before.aborted && RunDid(db, batch[..|batch| - 1], world, before)
    requires forall i, j | 0 <= i < j < |batch| :: batch[i] != batch[j]
    requires var id := batch[|batch| - 1];
             && (outcome == Aborted <==> !world.commitOk(id))
             && OneOpenIssue(after.issues) && id in Pending(before.db)
             && Pending(after) == (if outcome == Archived then Pending(before.db) - {id} else Pending(before.db))
             && Flagged(after.issues) == (match outcome
                                          case Archived => Flagged(before.db.issues) - {id}
                                          case NotArchived => Flagged(before.db.issues) + {id}
                                          case Aborted => Flagged(before.db.issues))
             && (forall f :: TypeTier(after, f) == TypeTier(before.db, f))
             && Quota.CurrentUsage(after.usage, BUCKET)
                  <= Quota.Max(world.ceiling, Quota.CurrentUsage(before.db.usage, BUCKET))
    ensures var archived := if outcome == Archived then before.archived + 1 else before.archived;
            RunDid(db, batch, world,
                   if outcome == Aborted then ArchiveRun(after, before.archived, before.attempted, true)
                   else ArchiveRun(after, archived, before.attempted + 1, false))
  {
    hide Flagged, OneOpenIssue, Pending, TypeTier, Ran, Quota.CurrentUsage, Members;
    var n := |batch| - 1;
    MembersSplit(batch);
    assert batch[..|batch|] == batch && batch[..n][..n] == batch[..n];
    if outcome == Aborted {
      assert QueueOf(after) == QueueOf(before.db);
    } else {
      RanOneMore(QueueOf(db), Members(batch[..n]), QueueOf(before.db), batch[n], outcome == Archived, QueueOf(after));
    }
  }

  lemma {:induction false} NoMembers()
    ensures Members<FilingId>([]) == {}
  {
  }

  /** A run whose first filing aborts it leaves backlog and flags as they were, so that the next run may
      select that filing first again: such an exception is the one thing that can starve the backlog. */
  lemma {:induction false} AbortedAtOnce(db: Db, batch: seq<FilingId>, world: World)
    requires OneOpenIssue(db.issues) && Members(batch) <= Pending(db)
    requires forall i, j | 0 <= i < j < |batch| :: batch[i] != batch[j]
    requires batch != [] && !world.commitOk(batch[0])
    ensures var r := RunBatch(db, batch, world);
            r.aborted && r.archived == 0 && Pending(r.db) == Pending(db)
            && forall f | f in Pending(db) :: f in Flagged(r.db.issues) <==> f in Flagged(db.issues)
  {
    hide Flagged, OneOpenIssue, Pending, TypeTier, Quota.CurrentUsage, RunBatch;
    RunBatchMoves(db, batch, world);
    var r := RunBatch(db, batch, world);
    assert batch[..0] == [];
    NoMembers();
    RanOverNothing(QueueOf(db), QueueOf(r.db));
  }

  lemma {:induction false} RanOverNothing<Item(!new)>(q: Queue<Item>, q': Queue<Item>)
    requires Ran(q, {}, q')
    ensures q'.pending == q.pending && forall x | x in q.pending :: x in q'.flagged <==> x in q.flagged
  {
    assert q.pending - q'.pending == {};
    assert q.pending == q'.pending + (q.pending - q'.pending);
  }

  lemma {:induction false} MembersSplit<T>(xs: seq<T>)
    requires xs != []
    requires forall i, j | 0 <= i < j < |xs| :: xs[i] != xs[j]
    ensures var n := |xs| - 1;
            Members(xs) == Members(xs[..n]) + {xs[n]} && xs[n] !in Members(xs[..n])
  {
    assert xs == xs[..|xs| - 1] + [xs[|xs| - 1]];
  }

  lemma {:induction false} RanNothing<Item(!new)>(q: Queue<Item>)
    ensures Ran(q, {}, q)
  {
  }

  lemma {:induction false} StillPending<Item(!new)>(q: Queue<Item>, batch: set<Item>, q': Queue<Item>, x: Item)
    requires Ran(q, batch, q') && x in q.pending && x !in batch
    ensures x in q'.pending
  {
  }

  /** One more attempt extends a run: done items leave the backlog, failed ones are flagged. */
  lemma {:induction false} RanOneMore<Item(!new)>(q: Queue<Item>, batch: set<Item>, q1: Queue<Item>, x: Item,
                                           ok: bool, q2: Queue<Item>)
    requires Ran(q, batch, q1)
    requires q2.pending == if ok then q1.pending - {x} else q1.pending
    requires q2.flagged == if ok then q1.flagged - {x} else q1.flagged + {x}
    ensures Ran(q, batch + {x}, q2)
  {
  }

  /** Starvation freedom of the archive step: with no arrivals and no closing session that raises, every
      filing that was never tried has been attempted after `ceil(u / size)` runs and no sooner. */
  lemma {:induction false} ArchiveNoStarvation(dbs: seq<Db>, scans: seq<seq<FilingId>>, worlds: seq<World>, size: nat)
    returns (batches: seq<set<FilingId>>)
    requires |dbs| == |scans| + 1 == |worlds| + 1 && size > 0 && OneOpenIssue(dbs[0].issues)
    requires forall i | 0 <= i < |scans| :: Scans(scans[i], Pending(dbs[i]))
    requires forall i | 0 <= i < |scans| ::
          dbs[i + 1] == RunBatch(dbs[i], FetchPending(dbs[i], scans[i], size), worlds[i]).db
    requires forall i | 0 <= i < |scans| ::
          forall f | f in FetchPending(dbs[i], scans[i], size) :: worlds[i].commitOk(f)
    ensures |batches| == |scans|
    ensures forall i | 0 <= i < |scans| :: batches[i] == Members(FetchPending(dbs[i], scans[i], size))
    ensures Untried(QueueOf(dbs[0])) <= Attempted(batches) <==> |scans| >= CeilDiv(|Untried(QueueOf(dbs[0]))|, size)
  {
    hide RunBatch, FetchPending, Pending, Flagged, OneOpenIssue, IsBatch, Ran, TypeTier, Untried;
    var tier := Tier(dbs[0]);
    batches := seq(|scans|, i requires 0 <= i < |scans| => Members(FetchPending(dbs[i], scans[i], size)));
    var qs := seq(|dbs|, i requires 0 <= i < |dbs| => QueueOf(dbs[i]));
    var n := 0;
    while n < |scans|
      invariant n <= |scans| && OneOpenIssue(dbs[n].issues)
      invariant forall f :: TypeTier(dbs[n], f) == TypeTier(dbs[0], f)
      invariant forall i | 0 <= i < n :: IsBatch(qs[i], tier, size, batches[i]) && Ran(qs[i], batches[i], qs[i + 1])
    {
      var batch := FetchPending(dbs[n], scans[n], size);
      FetchIsBatch(dbs[n], scans[n], size);
      SameTier(qs[n], Tier(dbs[n]), tier, size, batches[n]);
      BatchPending(qs[n], tier, size, batches[n]);
      RunBatchMoves(dbs[n], batch, worlds[n]);
      WholeRun(dbs[n], batch, worlds[n], RunBatch(dbs[n], batch, worlds[n]));
      n := n + 1;
    }
    EveryItemAttempted(qs, batches, tier, size, |scans|);
    assert batches[..|scans|] == batches;
  }

  lemma {:induction false} WholeRun(db: Db, batch: seq<FilingId>, world: World, r: ArchiveRun)
    requires RunDid(db, batch, world, r) && forall f | f in batch :: world.commitOk(f)
    ensures !r.aborted && Ran(QueueOf(db), Members(batch), QueueOf(r.db)) && OneOpenIssue(r.db.issues)
    ensures forall f :: TypeTier(r.db, f) == TypeTier(db, f)
  {
    hide Ran, TypeTier, OneOpenIssue, Members, Quota.CurrentUsage;
    if r.attempted < |batch| {
      MemberAt(batch, r.attempted);
    } else {
      assert batch[..r.attempted] == batch;
    }
  }

  lemma {:induction false} MemberAt<T>(xs: seq<T>, i: nat)
    requires i < |xs|
    ensures xs[i] in xs
  {
  }

  lemma {:induction false} SameTier(q: Queue<FilingId>, a: FilingId -> nat, b: FilingId -> nat, size: nat,
                                    batch: set<FilingId>)
    requires forall f :: a(f) == b(f)
    ensures IsBatch(q, a, size, batch) ==> IsBatch(q, b, size, batch)
  {
    if IsBatch(q, a, size, batch) {
      forall x, y | x in batch && y in q.pending && y !in batch ensures RankLe(Rank(q, b, x), Rank(q, b, y)) {
        assert RankLe(Rank(q, a, x), Rank(q, a, y));
      }
    }
  }

  lemma {:induction false} BatchPending(q: Queue<FilingId>, tier: FilingId -> nat, size: nat, batch: set<FilingId>)
    requires IsBatch(q, tier, size, batch)
    ensures batch <= q.pending
  {
  }
}
