/** What the archive step selects and what one attempt leaves behind, in terms of the filings, the Clerk's
    folders and the storage budget. */
module HousePdfOutcomes {
  import opened Optional
  import opened Issues
  import opened HousePdfs
  import Money
  import Quota
  import Scheduler
  import Sorting

  // ---- which filings a batch holds ----

  /** A House filing without an archived PDF. */
  predicate Waiting(db: Db, f: FilingId) {
    f in db.filings && db.filings[f].house && db.filings[f].rawKey == None
  }

  /** No attempt on it has failed since its last success. */
  predicate Untried(db: Db, f: FilingId) {
    Waiting(db, f) && !HasOpenIssue(db.issues, f)
  }

  predicate UntriedPtr(db: Db, f: FilingId) {
    Untried(db, f) && db.filings[f].filingType == "P"
  }

  /** An annual report of the electronic series. */
  predicate UntriedReport(db: Db, f: FilingId) {
    Untried(db, f) && db.filings[f].filingType == "O" && |f| >= 9 && f[..9] == "house:100"
  }

  /** The rows of the waiting filings, each once, in the order the table yields them. */
  ghost predicate ScansWaiting(scan: seq<FilingId>, db: Db) {
    (forall i, j | 0 <= i < j < |scan| :: scan[i] != scan[j]) && forall f :: f in scan <==> Waiting(db, f)
  }

  /** A filing that comes first in the batch, or is in it while another is left out: it has no worse claim. */
  predicate Precedes(db: Db, f: FilingId, g: FilingId) {
    && (Untried(db, g) ==> Untried(db, f))
    && (UntriedPtr(db, g) ==> UntriedPtr(db, f))
    && (UntriedReport(db, g) ==> UntriedPtr(db, f) || UntriedReport(db, f))
  }

  lemma {:induction false} RankPrecedes(db: Db, f: FilingId, g: FilingId)
    requires Waiting(db, f) && Waiting(db, g) && Sorting.Le(RankKey(db)(f), RankKey(db)(g))
    ensures Precedes(db, f, g)
  {
    hide Flagged, HasOpenIssue;
    FlaggedMember(db.issues, f);
    FlaggedMember(db.issues, g);
  }

  /** PTRs first: a batch holds as many of the waiting filings as the limit allows, each once. An untried
      PTR is left out, or comes later, only for untried PTRs; an untried electronic annual report only for
      untried PTRs and such reports; and a filing whose last attempt failed is in the batch only when no
      untried one is left out, and behind them all. */
  lemma {:induction false} PtrsFirst(db: Db, scan: seq<FilingId>, limit: nat)
    requires ScansWaiting(scan, db)
    ensures var batch := FetchPending(db, scan, limit);
            && |batch| == (if |scan| <= limit then |scan| else limit)
            && (forall i, j | 0 <= i < j < |batch| :: batch[i] != batch[j] && Precedes(db, batch[i], batch[j]))
            && (forall f | f in batch :: Waiting(db, f))
            && (forall f, g | f in batch && Waiting(db, g) && g !in batch :: Precedes(db, f, g))
  {
    hide Precedes, Waiting, Sorting.Sort, Sorting.Le, RankKey;
    var ordered := Sorting.Sort(scan, RankKey(db));
    Sorting.SortSorts(scan, RankKey(db));
    DistinctFromMultiset(ordered, scan);
    var batch := FetchPending(db, scan, limit);
    forall f ensures f in ordered <==> Waiting(db, f) {
      assert f in multiset(ordered) <==> f in multiset(scan);
    }
    forall i, j | 0 <= i < j < |ordered| ensures Precedes(db, ordered[i], ordered[j]) {
      assert Sorting.Le(RankKey(db)(ordered[i]), RankKey(db)(ordered[j]));
      RankPrecedes(db, ordered[i], ordered[j]);
    }
    forall f, g | f in batch && Waiting(db, g) && g !in batch ensures Precedes(db, f, g) {
      var i :| 0 <= i < |batch| && batch[i] == f;
      var j :| 0 <= j < |ordered| && ordered[j] == g;
      assert j >= |batch|;
    }
  }

  /** The backlog of the scheduler, and what is untried in it, are these filings. */
  lemma {:induction false} QueueIs(db: Db, f: FilingId)
    ensures f in Pending(db) <==> Waiting(db, f)
    ensures f in Scheduler.Untried(QueueOf(db)) <==> Untried(db, f)
  {
    hide Flagged, HasOpenIssue;
    FlaggedMember(db.issues, f);
  }

  // ---- one attempt ----

  /** The PDF is in the folder of the filing's year, or else of the year before, or else of the year after;
      each folder is looked into only when those before answer 404. */
  predicate ServedIn(id: FilingId, year: nat, found: nat, world: World)
    requires year > 0
  {
    && world.pdf(id, found).Served?
    && (found == year
        || (found == year - 1 && world.pdf(id, year).NotFound?)
        || (found == year + 1 && world.pdf(id, year).NotFound? && world.pdf(id, year - 1).NotFound?))
  }

  lemma {:induction false} FetchIs(id: FilingId, year: nat, world: World)
    requires year > 0
    ensures match FetchFrom(id, CandidateYears(year), world)
            case Pdf(found, size, sha) => ServedIn(id, year, found, world) && world.pdf(id, found) == Served(size, sha)
            case NoPdf => forall y: nat :: !ServedIn(id, year, y, world)
  {
    var years := CandidateYears(year);
    assert years[1..] == [year - 1, year + 1] && years[1..][1..] == [year + 1] && years[1..][1..][1..] == [];
    assert FetchFrom(id, [], world) == NoPdf;
    if world.pdf(id, year).NotFound? {
      assert FetchFrom(id, years, world) == FetchFrom(id, [year - 1, year + 1], world);
      if world.pdf(id, year - 1).NotFound? {
        assert FetchFrom(id, [year - 1, year + 1], world) == FetchFrom(id, [year + 1], world);
      }
    }
  }

  /** The year of the filing, or of the run when it has none. */
  function YearOf(db: Db, id: FilingId, world: World): nat {
    if id in db.filings && db.filings[id].filedYear.Some? then db.filings[id].filedYear.value else world.thisYear
  }

  function Recorded(db: Db): nat {
    if "congress-raw" in db.usage then db.usage["congress-raw"].totalBytes else 0
  }

  /** Some folder serves the PDF and it fits under the ceiling. */
  ghost predicate Uploads(db: Db, id: FilingId, world: World)
    requires YearOf(db, id, world) > 0
  {
    exists y: nat :: ServedIn(id, YearOf(db, id, world), y, world) && Fits(db, world.pdf(id, y), world)
  }

  /** Neither the upload nor its recording raises. */
  ghost predicate Succeeds(db: Db, id: FilingId, world: World)
    requires YearOf(db, id, world) > 0
  {
    Uploads(db, id, world) && world.upload(id) == Stored && world.recordOk(id)
  }

  predicate Fits(db: Db, response: Response, world: World) {
    response.Served? && Recorded(db) + response.size <= world.ceiling
  }

  /** The object of folder `y`: the only one whose bytes an attempt can change. */
  function KeyIn(y: nat, doc: string): string {
    "house/" + Money.Digits(y) + "/" + doc + ".pdf"
  }

  /** What a successful attempt on a House document leaves: its key and hash on the filing, its bytes in the
      bucket and in the usage table, and its failure issues resolved. */
  predicate ArchivedFrom(db: Db, after: Db, doc: string, y: nat, world: World)
    requires ("house:" + doc) in db.filings && world.pdf("house:" + doc, y).Served?
  {
    var id := "house:" + doc;
    var Served(size, sha) := world.pdf(id, y);
    && after.filings == db.filings[id := db.filings[id].(rawKey := Some(KeyIn(y, doc)), sha256 := Some(sha))]
    && after.objects == db.objects[KeyIn(y, doc) := size]
    && after.issues == IssuesResolved(db.issues, id)
    && after.usage.Keys == db.usage.Keys + {"congress-raw"}
    && after.usage["congress-raw"].totalBytes == Recorded(db) + size
    && after.usage["congress-raw"].objectCount
       == (if "congress-raw" in db.usage then db.usage["congress-raw"].objectCount else 0) + 1
    && forall b | b in db.usage && b != "congress-raw" :: after.usage[b] == db.usage[b]
  }

  /** What an attempt on a House document comes to: archived when it succeeds, flagged when it does not. */
  ghost predicate EndsRight(db: Db, after: Db, outcome: Outcome, doc: string, world: World)
    requires var id := "house:" + doc; id in db.filings && YearOf(db, id, world) > 0
  {
    var id := "house:" + doc;
    if Succeeds(db, id, world) then
      && outcome == Archived
      && exists y: nat :: ServedIn(id, YearOf(db, id, world), y, world) && ArchivedFrom(db, after, doc, y, world)
    else
      && outcome == NotArchived && after.filings == db.filings && after.usage == db.usage
      && after.issues == (if HasOpenIssue(db.issues, id) then db.issues else db.issues + [Issue(id, false)])
      && if Uploads(db, id, world) && world.upload(id) != RaisedLost
         then
           exists y: nat ::
             && ServedIn(id, YearOf(db, id, world), y, world)
             && after.objects == db.objects[KeyIn(y, doc) := world.pdf(id, y).size]
         else after.objects == db.objects
  }

  /** An attempt whose closing session does not raise archives the filing exactly when it succeeds, under the
      folder that served it. Otherwise it flags the filing with one open issue, and changes no filing and no
      recorded total; bytes are left in the bucket exactly when an upload took place and was not lost. */
  lemma {:induction false} AttemptArchives(db: Db, doc: string, world: World)
    requires var id := "house:" + doc; id in db.filings && YearOf(db, id, world) > 0 && world.commitOk(id)
    ensures var (after, outcome) := Attempt(db, "house:" + doc, world); EndsRight(db, after, outcome, doc, world)
  {
    hide IssuesResolved, HasOpenIssue, FetchFrom, CandidateYears, ServedIn;
    var id := "house:" + doc;
    FetchIs(id, YearOf(db, id, world), world);
    match FetchFrom(id, CandidateYears(YearOf(db, id, world)), world)
    case NoPdf =>
    case Pdf(found, size, sha) => FoundArchives(db, doc, world, found);
  }

  lemma {:induction false} FoundArchives(db: Db, doc: string, world: World, found: nat)
    requires var id := "house:" + doc; id in db.filings && YearOf(db, id, world) > 0 && world.commitOk(id)
    requires var id := "house:" + doc;
             && ServedIn(id, YearOf(db, id, world), found, world) && world.pdf(id, found).Served?
             && FetchFrom(id, CandidateYears(YearOf(db, id, world)), world)
                == Pdf(found, world.pdf(id, found).size, world.pdf(id, found).sha256)
    ensures var (after, outcome) := Attempt(db, "house:" + doc, world); EndsRight(db, after, outcome, doc, world)
  {
    hide IssuesResolved, HasOpenIssue, FetchFrom, CandidateYears, ServedIn;
    var id := "house:" + doc;
    assert id[6..] == doc;
    OnlyFolder(id, YearOf(db, id, world), found, world);
    assert ObjectKey(found, id) == KeyIn(found, doc);
    assert Fits(db, world.pdf(id, found), world) <==> Uploads(db, id, world);
  }

  lemma {:induction false} OnlyFolder(id: FilingId, year: nat, found: nat, world: World)
    requires year > 0 && ServedIn(id, year, found, world)
    ensures forall y: nat :: ServedIn(id, year, y, world) ==> y == found
  {
  }

  /** A closing session that raises aborts the run, with no filing and no issue changed. */
  lemma {:induction false} AttemptAborts(db: Db, id: FilingId, world: World)
    ensures Attempt(db, id, world).1 == Aborted <==> !world.commitOk(id)
    ensures var after := Attempt(db, id, world).0;
            !world.commitOk(id) ==> after.filings == db.filings && after.issues == db.issues
  {
    hide FetchFrom, CandidateYears, Quota.CurrentUsage, ObjectKey;
  }
}
