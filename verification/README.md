# Congress disclosure collector: verified model

The collector reads the financial disclosures of the members of Congress. It fetches the yearly
indexes, archives the PDFs within a storage budget, parses the positioned words of each form into
transactions and holdings, links them to instruments, keeps one current row per amended transaction,
and compares its filings with a community archive. This project models the parts of it that carry
state, geometry or concurrency, and proves what they keep.

- **Forms.** `Text`, `Money`, `Sorting`, `Lines`, `AssetNames`: ASCII strings, money printing and
  parsing, the stable sort, the greedy clustering of words into lines, and the patterns of tickers and
  type codes. `PtrParser`, `PtrPass`, `PtrWords`, `PtrLaws`: the periodic transaction report parser, its
  one pass, what each word is taken for, and the laws of that pass. `PtrLayout`, `PtrDocuments`: laying
  transactions out on the form, and the round trip. `ScheduleA`, `ScheduleAWords`, `ScheduleALaws`,
  `ScheduleALayout`, `ScheduleADocuments`: the holdings of annual reports, likewise.
- **Backlog.** `Scheduler`, `Issues`: the two-tier batch order, the drain loop and the flags.
  `HousePdfs`, `HousePdfOutcomes`: archiving, as an instance of it. `Insertion`: recording new filings
  while other writers race. `SenateIndex`: pagination and chunked backfill. `Transcripts`, `Lifecycle`,
  `LifecycleLaws`, `LifecycleOutcomes`: a House filing from pending to parsed, through parse, re-parse
  and transcript import. `TickerLinks`, `TickerResolution`, `TickerOverlap`: instruments, the caches that
  mirror their tables, what decides a transaction, and sessions that overlap.
- **Shared tables.** `Quota`: the budget protocol. `Amendments`, `AmendmentLaws`, `AmendmentRuns`:
  amendment groups. `Community`: import, re-match and survivorship report.

Code that updates state is a class or a method with loops, proved equal to a function of the old
state; the theorems are lemmas about those functions. A database table is a map or a sequence with
its primary and unique keys; a session commits atomically or leaves nothing behind. Interleavings
are sequences of states one atomic step apart. What lies outside enters as a parameter: the pages of
a PDF, the answers of the Clerk's site, the server's rows, the clock, the order in which a query
returns its rows, fresh UUIDs, and the regular expressions over option and link text.
Coordinates are real numbers.

Findings about the code, each a lemma in the table below:

- The plain storage bound fails once a reconcile finds more bytes than it: uploads whose record step
  failed pass any bound (`Quota.PlainBoundIff`, `Quota.LostRecordsPassAnyBound`). A reconcile erases the
  uploads recorded between its listing and its overwriting, so the bucket can pass the ceiling without
  any step that fails (`Quota.UploadsErased`), and counts twice those it found waiting for their record
  (`Quota.ReconcileExactIff`).
- Flags of amended transactions are confluent; the best-effort supersedes links are so exactly for
  filings that correct one filing (`AmendmentRuns.LinkDeterminedIff`), and rows tied for newest leave
  the flags to the query order (`AmendmentRuns.FlagsDeterminedIff`).
- `transcribed_ptrs.py` says that an imported filing keeps format "scanned"; one whose parse had
  failed stays "electronic" (`LifecycleLaws.ImportedFormat`).
- A form with a date that is no calendar day, or one the parser raises on (an option row with the
  description "Call options; strike price $,; expires 06/18/2026"), aborts a parse run
  (`LifecycleLaws.ParseRunDoes`). Overlapping parse runs can call a filing with rows failed
  (`LifecycleLaws.OverlappingRuns`).
- An exception of the session that closes an archive attempt aborts the run without flagging the filing
  (`HousePdfs.AbortedAtOnce`).
- The second header row of a PTR is not recognised as a heading and leaks into a description at a page
  break (`PtrLayout.SecondHeaderRowHarmlessIff`, `PtrDocuments.SecondHeaderRowLeaks`), and the
  empty-line branch of the pass is dead (`PtrPass.GroupedNonEmpty`).
- A negative lower amount does not survive printing (`Money.NegativeLowIsLost`).
- Ticker overrides without a CIK share one instrument (`TickerLinks.OverridesShareIff`). Overlapping
  linking sessions that both miss a CIK create two instruments for it (`TickerOverlap.OverlapShareIff`).
- A re-parse that was selected before an import can add form rows to the transcribed filing
  (`LifecycleLaws.StaleReparseIff`).

`dafny verify dfyconfig.toml` checks the whole project.

## Model

| member | source | states |
|---|---|---|
| `Lines.GroupLines` | src/congress_collector/parsers/house_ptr.py:380-396 | The clustering loop over a sorted page computes the cluster specification: a line is closed by the first word more than 3 points below its first word. |
| `Lines.GroupedIsClustering` | src/congress_collector/parsers/house_ptr.py:380-396 | The lines of a page hold exactly the multiset of its words, none is empty, each reads left to right, and any two words of a line are within the tolerance. |
| `Lines.GreedyIsOptimal` | src/congress_collector/parsers/house_ptr.py:380-396 | No cover of a page by groups of vertical extent at most the tolerance has fewer groups than the greedy clustering. |
| `Lines.GroupingIsIdempotent` | src/congress_collector/parsers/house_ptr.py:380-396 | Clustering the flattened lines again gives the same lines. |
| `Lines.BagRecoversLines` | src/congress_collector/parsers/house_ptr.py:380-396 | Any bag of the words of lines more than 3 points apart clusters back into exactly those lines, whatever order the words arrive in. |
| `Sorting.SortSorts` | src/congress_collector/parsers/house_ptr.py:381-381 | The sort yields an ordered permutation. |
| `Sorting.StableSortUnique` | src/congress_collector/parsers/house_ptr.py:381-392 | An ordered list with the same sequence of elements at every key is the stable sort: the two stable sorts of the clustering are determined by that. |
| `PtrPass.ParsePtrTransactions` | src/congress_collector/parsers/house_ptr.py:311-377 | The one pass over all pages (open record, wrapped lines, annotation and description flags, repeated headers, footers) returns the segmentation of the document: one transaction per segment between start lines. |
| `PtrPass.PassIsSegmentation` | src/congress_collector/parsers/house_ptr.py:311-377 | The step-by-step machine run over the body lines equals splitting them at the start lines and reading each segment on its own. |
| `PtrPass.TransactionAt` | src/congress_collector/parsers/house_ptr.py:321-377 | The i-th result is a function of the i-th segment alone, numbered i. |
| `PtrPass.GroupedNonEmpty` | src/congress_collector/parsers/house_ptr.py:322-325 | Clustering never yields an empty line, so the empty-line branch is dead and only a start line ends an annotation block. |
| `PtrParser.OpenRecord.FromLine` | src/congress_collector/parsers/house_ptr.py:458-500 | Reading the words of a start line one by one gives the record whose fields are computed column by column. |
| `PtrParser.OpenRecord.Extend` | src/congress_collector/parsers/house_ptr.py:502-507 | A wrapped line appends exactly its asset-zone and amount-zone words, in order. |
| `PtrParser.OpenRecord.AddDescriptionWords` | src/congress_collector/parsers/house_ptr.py:509-515 | A description line appends exactly its content words. |
| `PtrLaws.StartLineType` | src/congress_collector/parsers/house_ptr.py:438-500 | The start test and the word-by-word zone chain agree: a start line opens a record of a known type when no boundary cuts into the type zone. |
| `PtrLaws.TypesKnownIff` | src/congress_collector/parsers/house_ptr.py:438-500 | Every start line opens a record of a known type if and only if the columns have no type zone or none cuts into it. |
| `PtrLaws.ParsedTypesKnown` | src/congress_collector/parsers/house_ptr.py:517-568 | Every parsed row of a document with clear columns has a known transaction type. |
| `PtrLaws.ParsedRowIndex` | src/congress_collector/parsers/house_ptr.py:311-377 | Rows are numbered 0..n-1 in reading order, for every document. |
| `PtrLaws.PreambleIgnored` | src/congress_collector/parsers/house_ptr.py:311-377 | Lines before the first start line produce nothing. |
| `PtrLaws.AnnotationSeals` | src/congress_collector/parsers/house_ptr.py:337-377 | After an annotation label, whatever lines come before the next start, also on later pages, every transaction keeps all its fields but the option details a description feeds. |
| `PtrWords.LabelIff` | src/congress_collector/parsers/house_ptr.py:417-436 | What the first word of a line is taken for, exactly: a word with a NUL goes by its initial (F, S, D or L in either case), any other is one of the four names in any letter case, with or without colons; nothing else is a label. |
| `PtrWords.PrintedLabelReads` | src/congress_collector/parsers/house_ptr.py:417-436 | Both printed forms of each label, plain in any letter case and initial followed by NULs with or without a colon, read as that label. |
| `PtrWords.HeadingIff` | src/congress_collector/parsers/house_ptr.py:399-414 | A line is dropped as a heading if and only if, by its single words in any letter case, it names owner and asset, notification and amount, cap. and gains, or "$200?". |
| `PtrWords.ColumnsIff` | src/congress_collector/parsers/house_ptr.py:249-308 | A line gives the columns if and only if it has the five column words in any letter case and a "date" between those of transaction and notification. |
| `PtrWords.LettersAndCodes` | src/congress_collector/parsers/house_ptr.py:132-167 | Type letters and owner codes are p, s, e and sp, jt, dc in any letter case, and nothing else. |
| `PtrWords.StartIff` | src/congress_collector/parsers/house_ptr.py:438-442 | A line starts a transaction if and only if a type letter in either case stands from the type column's left bound up to the next. |
| `PtrWords.ZoneIs` | src/congress_collector/parsers/house_ptr.py:458-500 | A word of a start line belongs to the first column whose right bound stands right of it. |
| `PtrWords.WrapAdds` | src/congress_collector/parsers/house_ptr.py:502-507 | A wrapped line adds to the asset what stands in the asset column and to the amount what stands in the amount column. |
| `PtrWords.LastCounts` | src/congress_collector/parsers/house_ptr.py:458-500 | Of several words of a column that pass its test the last one counts; without one the field is empty. |
| `PtrWords.DateIff` | src/congress_collector/parsers/house_ptr.py:145-145 | A cell is a date if and only if it is one or two digits, a slash, one or two digits, a slash and four digits; it reads year first, with month and day filled up to two digits. |
| `AssetNames.TickerAndTypeIs` | src/congress_collector/parsers/house_ptr.py:168-173 | A description that ends in "(ticker)" and "[code]" gives both in capitals, one that ends in a code with no ticker before it the code alone, one that ends in a ticker the ticker alone, and any other neither; at most 15 and 4 characters of the allowed kinds, white space between and behind. |
| `AssetNames.PrintedNameReads` | src/congress_collector/parsers/house_ptr.py:517-548 | A name printed as words followed by its ticker and its code, its ticker, or its code reads as exactly those. |
| `PtrLayout.DayRoundTrip` | src/congress_collector/parsers/house_ptr.py:587-589 | A day cell printed with or without zero padding reads back as its ISO date. |
| `PtrLayout.BandRoundTrip` | src/congress_collector/parsers/amounts.py:8-18 | A closed, open or absent amount band printed as the form prints it reads back as its bounds; "Spouse/DC Over" reads as none. |
| `PtrLayout.HeaderRowDetected` | src/congress_collector/parsers/house_ptr.py:249-308 | The header row of the form (with or without "Cap.") yields the column boundaries, and they stand in order when the asset column starts right of the ID column. |
| `PtrLayout.HeaderRowIsHeading` | src/congress_collector/parsers/house_ptr.py:399-414 | The header row is dropped as a heading wherever it repeats. |
| `PtrLayout.LayoutRoundTrip` | src/congress_collector/parsers/house_ptr.py:249-396 | Transactions laid out on ordered columns over any pages parse back to exactly themselves, indexed 0..n-1. Annotation lines begin with a printed label in either encoding, headings and the footer are given by their words, letters and codes come in any case; wrapped lines may have words in whatever columns, the words any order, the document any preamble. The description is what the form prints under its "description" labels. |
| `PtrLayout.TemplateRoundTrip` | src/congress_collector/parsers/house_ptr.py:249-396 | The same with the columns detected from the first header row of the document, on whatever page and under whatever title lines it stands; the document then counts as electronic. |
| `PtrLayout.SecondHeaderRowHarmlessIff` | src/congress_collector/parsers/house_ptr.py:311-414 | The second header row ("Type Date Gains >") is no heading. In any state of the pass it does nothing if and only if no record is open, or no description is open and either an annotation is or the row stands clear of the asset and amount columns; in an open description it adds its four words. |
| `PtrDocuments.EveryListHasADocument` | src/congress_collector/parsers/house_ptr.py:234-436 | For every list of transactions whose lines do not read like a heading, a label or the footer there is a document on the 2026 form, with its labels plain or NUL-encoded as one wishes, a "Filing Status" line and a description line under each transaction, a repeated header row and a footer, that parses to exactly that list. |
| `PtrDocuments.SecondHeaderRowLeaks` | src/congress_collector/parsers/house_ptr.py:311-414 | A two-page document whose page break falls into a description: with the second header row on page two it parses to the transaction with the row's words added to its description, without it to the transaction itself. |
| `Money.CommasGrouping` | src/congress_collector/ingest/house_ptrs.py:301-304 | The printer puts a comma at every fourth character from the right and nowhere else. |
| `Money.PairPrints` | src/congress_collector/ingest/house_ptrs.py:301-304 | A pair of whole amounts prints as dollar sign and number, a dash, dollar sign and number, each number with its commas and of its value; a pair with a missing bound prints as nothing. |
| `Money.CommasStrip` | src/congress_collector/parsers/amounts.py:21-28 | Stripping the commas of a grouped number of any size leaves its digits and its value. |
| `Money.DecimalReads` | src/congress_collector/parsers/amounts.py:21-28 | A number with a decimal point reads as its digits without the point over a one with as many zeros as digits behind it, signed by the sign in front. |
| `Money.FormatParseRoundTrip` | src/congress_collector/parsers/amounts.py:8-28 | Reading back a printed pair of amounts gives the pair if and only if both are whole dollars and the lower one is not negative. |
| `Money.ReadBackNonNegative` | src/congress_collector/parsers/amounts.py:8-28 | For a non-negative lower amount the pair reads back rounded to whole dollars, ties to even, the upper one with its sign. |
| `Money.NegativeLowIsLost` | src/congress_collector/parsers/amounts.py:8-28 | A negative lower amount never reads back: its sign is taken for the dash of the band. |
| `ScheduleA.ParseScheduleA` | src/congress_collector/parsers/house_fd.py:170-237 | The nested loops with their flush compute the holdings of the first Schedule A section. |
| `ScheduleALaws.SectionConserved` | src/congress_collector/parsers/house_fd.py:170-237 | Every asset and value word of the contributing lines of the first Schedule A section lands in exactly one holding, in reading order, and no other word does. A line contributes when it has words in the columns of the last header row before it, is no header row, second header line, footnote or annotation, and opens a row or stands outside an annotation run. |
| `ScheduleALaws.EntriesContribute` | src/congress_collector/parsers/house_fd.py:196-233 | The flags of the pass pick exactly the lines that contribute by that description of the lines alone, and open a row exactly where there is none yet, where a value starts and the one being read is complete, or where an owner code stands outside an annotation run. |
| `ScheduleALaws.HoldingAt` | src/congress_collector/parsers/house_fd.py:177-182 | Holdings are numbered 0..n-1 and each is read from its own row. |
| `ScheduleALaws.AnnotationRun` | src/congress_collector/parsers/house_fd.py:196-233 | The pass is inside an annotation run exactly when some earlier line started an annotation and no line since has opened a row. |
| `ScheduleAWords.HeadingIff` | src/congress_collector/parsers/house_fd.py:115-129 | A line opens the section of a letter if and only if it is printed as its heading: "schedule" in any letter case, or s followed by NULs, and then the letter in either case with its colon. |
| `ScheduleAWords.NoHeadingIff` | src/congress_collector/parsers/house_fd.py:115-129 | A line is no heading if and only if it is printed as none: a first word that is neither form of "schedule", or a second one that does not end in a colon, or fewer than two words. |
| `ScheduleAWords.AnnotationIff` | src/congress_collector/parsers/house_fd.py:45-45 | An annotation begins with one of the five names in any letter case, as a whole word, and nothing else does. |
| `ScheduleAWords.SkippedIff` | src/congress_collector/parsers/house_fd.py:200-202 | A line is skipped if and only if its first word begins with "type(s)", "http" or "*". |
| `ScheduleAWords.TableIff` | src/congress_collector/parsers/house_fd.py:132-149 | A line gives the columns if and only if it has the header words in any letter case, "income" twice. |
| `ScheduleAWords.ColumnsAre` | src/congress_collector/parsers/house_fd.py:132-149 | Each column begins three points left of its word: the first "owner", "value" and "tx." and the first two "income". |
| `ScheduleAWords.CellsAre` | src/congress_collector/parsers/house_fd.py:208-212 | Each column's cell is what stands from its left bound up to the next column's; the asset column reaches to the left edge. |
| `ScheduleAWords.GlyphsIff` | src/congress_collector/parsers/house_fd.py:213-214 | A line is passed over as check boxes if and only if all its words stand right of every column bound. |
| `ScheduleAWords.StartsValueIff` | src/congress_collector/parsers/house_fd.py:159-167 | A value begins with "none", "undetermined", "over" or "spouse/dc" in any letter case, or with a dollar sign and digits or commas before a lone dash, and with nothing else. |
| `ScheduleALayout.ValueReads` | src/congress_collector/parsers/house_fd.py:85-108 | Each kind of value cell keeps its text and reads as its bounds; "None", "Undetermined" and "Spouse/DC Over" carry none. |
| `ScheduleALayout.BreaksWellIff` | src/congress_collector/parsers/house_fd.py:81-168 | A value cell broken in two after its first word or later reads as one value if and only if the break stands after the dash of a band, after "Over", or after "Spouse/DC Over"; "Spouse/DC" alone on a line opens a holding of its own. |
| `ScheduleALayout.SectionFound` | src/congress_collector/parsers/house_fd.py:115-199 | The section is what stands between the printed heading of Schedule A and that of another schedule, each in either encoding; what comes before and after has no say. |
| `ScheduleALayout.ScheduleRoundTrip` | src/congress_collector/parsers/house_fd.py:85-237 | Holdings laid out with wrapped bands, descriptions and annotation lines under the printed heading in either encoding, the header row and the second header line, over any pages and in any word order, parse back to exactly themselves. |
| `ScheduleADocuments.EveryListHasAReport` | src/congress_collector/parsers/house_fd.py:81-237 | For every list of holdings whose lines read like no heading, header row, footnote or annotation there is a report, its headings plain or NUL-encoded as one wishes, with a comment under each holding and closed by Schedule B with a row of its own, that parses to exactly that list. |
| `Quota.UsageTable.EnsureBudget` | src/congress_collector/storage/quota.py:50-58 | Passes if and only if the total plus the new size stays within the ceiling, and reports the excess otherwise. |
| `Quota.UsageTable.RecordBytes` | src/congress_collector/storage/quota.py:61-77 | The atomic upsert adds the size and one object to the bucket's row, starting from nothing when it has none, and touches no other bucket. |
| `Quota.NextKeepsInv` | src/congress_collector/storage/quota.py:50-97 | Every step of every uploader and of every reconcile (it begins, lists one page, overwrites the row) keeps the budget bound and two exact accounts: bucket bytes + bytes counted too many = recorded + uploaded-unrecorded + never counted, and the same of the part of the bucket each running listing has passed. |
| `Quota.BudgetBound` | src/congress_collector/storage/quota.py:50-97 | At every moment of every interleaving of k uploaders with files of at most M bytes and any number of reconciles, recorded total plus checked-but-unrecorded sizes stays within max(ceiling + (k-1) * min(M, ceiling), what the last reconcile found plus the sizes then in flight), and the account of the real bytes is exact. |
| `Quota.TotalRightIff` | src/congress_collector/storage/quota.py:61-97 | At any moment of any run with no upload waiting for its record, the recorded total is the size of the bucket if and only if the bytes it will never count and the bytes it counts too many are equally many. |
| `Quota.PlainBoundIff` | src/congress_collector/storage/quota.py:50-97 | The plain bound ceiling + (k-1) * min(M, ceiling) holds throughout a run if and only if no reconcile of the run found more, together with the sizes then in flight. |
| `Quota.CleanReconciles` | src/congress_collector/storage/quota.py:50-97 | The plain bound holds throughout every run whose reconciles each overwrite the row when nothing has been lost and no upload waits for its record, no object the listing had passed having been replaced. |
| `Quota.LostRecordsPassAnyBound` | src/congress_collector/ingest/house_pdfs.py:46-55 | From the empty table, uploads whose record step fails and one reconcile at rest take the recorded total past any bound, with any number of uploaders. |
| `Quota.SingleUploader` | src/congress_collector/storage/quota.py:50-77 | With one uploader the recorded total passes the ceiling only if a reconcile found it there. |
| `Quota.RealBytesBound` | src/congress_collector/ingest/house_pdfs.py:46-55 | The real bytes of the bucket stay within the bound plus the bytes the row will never count: uploads whose record failed, and uploads recorded between the listing of the last reconcile and its overwriting. |
| `Quota.UploadsErased` | src/congress_collector/storage/quota.py:80-97 | From the empty table and without any step that fails, one uploader, one reconcile and two files of the largest size leave a bucket of twice that size with a total of once; n reconciles that list before the first overwrites leave n + 1 times it. |
| `Quota.BoundIsTight` | src/congress_collector/storage/quota.py:50-77 | From the empty table k uploaders reach the bound without any reconcile, so no smaller one holds. |
| `Quota.ReconcileExactIff` | src/congress_collector/storage/quota.py:80-97 | After a reconcile overwrites the row, in any state, and the waiting uploads are recorded, the total is what the listing found plus those uploads: it is right if and only if that is what the bucket held at the overwriting. |
| `Quota.BucketTotals` | src/congress_collector/storage/r2_storage.py:88-101 | The nested loop over the pages of a listing sums its sizes and counts its objects. |
| `Quota.ListingExact` | src/congress_collector/storage/r2_storage.py:88-101 | When no key is listed twice those are the bytes and the number of the objects listed. |
| `Amendments.Store.ResolveGroup` | src/congress_collector/ingest/amendments.py:58-88 | The loop over one group's rows flags exactly the last of the stably sorted rows, links its filing once, and counts the changed flags; the order is that of `Amendments.EarlierIff`. |
| `Amendments.EarlierIff` | src/congress_collector/ingest/amendments.py:67-74 | The sort puts one filing before another if and only if it was filed on an earlier day, a missing date before every day, or on the same day and first seen earlier. |
| `Amendments.Store.LinkAmendments` | src/congress_collector/ingest/amendments.py:36-44 | A run resolves every amended group and returns the number of rows whose flag changed over the whole run. |
| `AmendmentLaws.RowOrderIrrelevant` | src/congress_collector/ingest/amendments.py:58-88 | When filings that share a source id have different keys, the order of the query rows does not matter: exactly the newest row of the group becomes current. |
| `AmendmentLaws.LinkedTxs` | src/congress_collector/ingest/amendments.py:36-88 | A whole run gives every row of every amended group its canonical flag and leaves all other rows alone. |
| `AmendmentRuns.RunMonotone` | src/congress_collector/ingest/amendments.py:74-86 | Over any run of inserts and linking runs nothing disappears, a row turned false never turns true again, and supersedes links are write-once. |
| `AmendmentRuns.Confluence` | src/congress_collector/ingest/amendments.py:36-88 | After a linking run the flags depend only on the set of rows, however inserts and earlier linking runs were interleaved and whatever order the queries returned. |
| `AmendmentRuns.ExactlyOneCurrent` | src/congress_collector/ingest/amendments.py:74-79 | After a linking run every amended group has exactly one current row, its newest. |
| `AmendmentRuns.CurrentIsLatest` | src/congress_collector/ingest/amendments.py:67-79 | After a linking run a row of an amended group is current if and only if every other row of the group is of a filing filed earlier, or filed the same day and first seen earlier. |
| `AmendmentRuns.SecondRunIdle` | src/congress_collector/ingest/amendments.py:36-88 | An immediate second linking run changes no row and no link. |
| `AmendmentRuns.ChainsEnd` | src/congress_collector/ingest/amendments.py:81-86 | At every point of every run a chain of supersedes links never meets a filing twice, so it ends. |
| `AmendmentRuns.FlagsDeterminedIff` | src/congress_collector/ingest/amendments.py:67-79 | In any tables, the flags of a group are the same for every order of its query rows if and only if one row alone is newest. |
| `AmendmentRuns.TieGoesToLast` | src/congress_collector/ingest/amendments.py:67-74 | In a group of any size each of the rows tied for newest becomes the only current one for some order of the query rows. |
| `AmendmentRuns.LinkIsFirst` | src/congress_collector/ingest/amendments.py:81-86 | A run links an unlinked filing to the oldest filing of the first group whose newest row it holds, if there is such a group. |
| `AmendmentRuns.LinksToFirstFiled` | src/congress_collector/ingest/amendments.py:67-86 | A run links an unlinked filing to the filing filed first in an amended group in which it was filed last, in the same columns, and leaves it unlinked when there is no such group. |
| `AmendmentRuns.LinkDeterminedIff` | src/congress_collector/ingest/amendments.py:36-88 | The link a run gives an unlinked filing is the same for every order of the groups and of their rows if and only if all amended groups whose newest row it holds have their oldest row in one filing. |
| `AmendmentRuns.LinksDependOnOrder` | src/congress_collector/ingest/amendments.py:81-86 | Three filings for which it is not the same: an amendment that corrects rows of two filings. |
| `Scheduler.UntriedFirst` | src/congress_collector/ingest/house_pdfs.py:143-163 | A flagged item is selected only when no untried one is left out. |
| `Scheduler.NoLowerTierFirst` | src/congress_collector/ingest/house_pdfs.py:146-150 | An untried item is left out only for untried items of its own type tier or a higher one. |
| `Scheduler.UntriedAfter` | src/congress_collector/ingest/house_pdfs.py:115-163 | After n runs without arrivals exactly u - n*b items are still untried, those no batch held. |
| `Scheduler.EveryItemAttempted` | src/congress_collector/ingest/house_pdfs.py:115-163 | With batches of b, all u untried items have been attempted after n runs if and only if n >= ceil(u/b), however ties are broken and whatever the outcomes. |
| `Scheduler.Drain` | src/congress_collector/ingest/catchup_house_backlog.py:61-82 | The drain terminates, stops only at zero pending or after a step that did not shrink it, returns the sum of the step counts, and takes at most one step more than there were items. |
| `Scheduler.DrainEmpties` | src/congress_collector/ingest/catchup_house_backlog.py:61-82 | If every step takes min(b, pending) items off the backlog, a drain ends at zero after exactly ceil(p/b) steps. |
| `HousePdfs.FetchPdf` | src/congress_collector/ingest/house_pdfs.py:77-92 | Tries the filed year, the year before and the year after. |
| `HousePdfs.FetchFromFinds` | src/congress_collector/ingest/house_pdfs.py:64-92 | A PDF is found in a folder if and only if that folder serves it and every folder tried before answers 404. |
| `HousePdfs.FetchIsBatch` | src/congress_collector/ingest/house_pdfs.py:115-163 | The selected filings are a batch in the scheduler's sense, for any order the table yields its rows in, each listed once; `HousePdfOutcomes.PtrsFirst` says it by types and ids. |
| `HousePdfOutcomes.PtrsFirst` | src/congress_collector/ingest/house_pdfs.py:115-163 | The batch holds as many waiting House filings as the limit allows, each once. An untried PTR is left out, or comes later, only for untried PTRs; an untried annual report of type O with an id from "house:100" only for untried PTRs and such reports; and a filing whose last attempt failed is in it only when no untried one is left out, and behind them all. |
| `HousePdfOutcomes.FetchIs` | src/congress_collector/ingest/house_pdfs.py:64-92 | The PDF found is that of the filed year, else of the year before, else of the year after, each looked for only when those before answer 404; nothing is found exactly when there is no such folder. |
| `HousePdfs.Archive.RecordArchived` | src/congress_collector/ingest/house_pdfs.py:166-179 | Stores key and hash and resolves every open fetch issue of the filing, and nothing else. |
| `Issues.FlagIssue` | src/congress_collector/ingest/house_pdfs.py:182-194 | Flagging a filing adds it to the flagged ones and no other, keeps every row, and never opens a second issue for it. |
| `HousePdfs.Archive.ArchivePending` | src/congress_collector/ingest/house_pdfs.py:24-61 | The loop over a batch computes fetch, budget check, upload, record and closing session of each filing in turn, counts the archived ones, and stops only where a closing session raises. |
| `HousePdfOutcomes.AttemptArchives` | src/congress_collector/ingest/house_pdfs.py:30-61 | An attempt archives the filing if and only if some folder serves it, it fits under the ceiling, and neither upload nor record raises: then its key is "house/<folder year>/<document>.pdf", with the hash, its issues are resolved and its bytes are counted. Otherwise it ends with one open issue, no filing and no total changes, and bytes are left in the bucket exactly when an upload took place and was not lost. |
| `HousePdfOutcomes.AttemptAborts` | src/congress_collector/ingest/house_pdfs.py:52-58 | A closing session that raises, and nothing else, aborts the run, with no filing and no issue changed. |
| `HousePdfs.AttemptMoves` | src/congress_collector/ingest/house_pdfs.py:30-61 | An attempt takes the filing off the backlog and resolves its flag, or flags it, or, exactly when its closing session raises, aborts the run and leaves both alone; there is never a second open issue, and one uploader never takes the total past the ceiling. |
| `HousePdfs.RunBatchMoves` | src/congress_collector/ingest/house_pdfs.py:24-61 | A run attempts its batch in order up to the first filing whose closing session raises: so far it is a run in the scheduler's sense, its count is the shrinkage of the backlog, and the budget holds throughout. |
| `HousePdfs.AbortedAtOnce` | src/congress_collector/ingest/house_pdfs.py:52-58 | A run whose first filing aborts it leaves backlog and flags as they were, so the next one may select it first again. |
| `HousePdfs.ArchiveNoStarvation` | src/congress_collector/ingest/house_pdfs.py:24-61 | Runs without arrivals and without a closing session that raises attempt every untried filing after ceil(u/b) runs and no sooner, for any order the table yields its rows in and whatever the site, the bucket and the record step do. |
| `Insertion.NewEntries` | src/congress_collector/ingest/house.py:43-60 | The loop over a fetched list computes the fresh entries. |
| `Insertion.FreshIsFirstOccurrences` | src/congress_collector/ingest/house.py:43-60 | They are, in list order, the first occurrence of every id not stored yet, and nothing else. |
| `Insertion.Filings.InsertOnConflictDoNothing` | src/congress_collector/ingest/house.py:176-184 | The statement adds a row for each id that has none and returns exactly those ids. |
| `Insertion.Filings.InsertNewFilings` | src/congress_collector/ingest/house.py:138-185 | An uninterrupted call inserts what is missing and returns what it inserted. |
| `Insertion.InsertAdds` | src/congress_collector/ingest/house.py:138-185 | Even with a stale snapshot a call leaves all its ids stored, changes no row, and returns exactly the ids it added, each once, with the row of its first entry and clock. |
| `Insertion.InsertedRow` | src/congress_collector/ingest/house.py:109-185 | The row a call adds for an id is that of the first entry with it: "house:" or "senate:" id, stamped with the clock of a live sync, with the filed day to the day by a backfill, or with the backfill's clock to ten years when there is no date; unknown and pending for the House, electronic and pending or paper and deferred for the Senate. |
| `Insertion.StepKeepsInv` | src/congress_collector/ingest/house.py:155-185 | Every step of every call (read, insert, abort) keeps: returned ids, with multiplicity, are the rows added so far. |
| `Insertion.ExactlyOnce` | src/congress_collector/ingest/house.py:138-185 | At every moment of every interleaving a filing is returned by exactly one call, once, if it was added, by none otherwise; that call made its row; and a call that returned leaves all it fetched stored. |
| `Insertion.RowsNeverChange` | src/congress_collector/ingest/house.py:158-184 | A stored row, first_seen_at and its precision included, is never changed or removed by later calls. |
| `Insertion.ChambersApart` | src/congress_collector/ingest/senate.py:155-195 | A House id is never a Senate id, and equal ids mean the same document. |
| `SenateIndex.ParseRows` | src/congress_collector/sources/senate.py:172-194 | The loop over raw rows keeps the linked ones in order and raises on a malformed date. |
| `SenateIndex.EntriesOfRows` | src/congress_collector/sources/senate.py:172-202 | The parse raises if and only if a linked row has a malformed date; otherwise its k-th entry is that of the k-th linked row: the report of its link, its stripped names, and its date if it has one. |
| `SenateIndex.FetchPtrIndex` | src/congress_collector/sources/senate.py:113-132 | For any page size the fetch ends with the parse of the whole server list, after exactly floor(n/size) + 1 requests, however many rows are dropped; a malformed date anywhere makes it raise. |
| `SenateIndex.EntriesConcat` | src/congress_collector/sources/senate.py:172-188 | Parsing page by page is parsing the whole list. |
| `SenateIndex.InsertConcat` | src/congress_collector/ingest/senate.py:143-195 | Two inserts in a row are one insert of the joined list: same rows, same new filings. |
| `SenateIndex.InsertDeduplicated` | src/congress_collector/ingest/senate.py:46-62 | Inserting a list is inserting it without its repeats. |
| `SenateIndex.BackfillInChunks` | src/congress_collector/ingest/senate.py:114-117 | A backfill in chunks of any size stores the same rows and reports the same total as one insert. |
| `SenateIndex.SecondInsertIdle` | src/congress_collector/ingest/senate.py:155-195 | Inserting the same list again, by live sync or backfill, inserts nothing. |
| `Transcripts.ReadCsv` | src/congress_collector/ingest/transcribed_ptrs.py:74-86 | One malformed date makes the read raise; otherwise every row naming an asset lands with its filing in file order, and a filing counts as empty exactly when it is named and has no such row. |
| `Transcripts.FilingRowsAre` | src/congress_collector/ingest/transcribed_ptrs.py:89-115 | The k-th row of a filing is read from the k-th row of the file that names it: which cell fills which field, owners and types only from the known ones, the ticker from the cell or else from the end of the name, and the bounds of the band letter, none for an unknown one. |
| `AssetNames.TickerInNameIff` | src/congress_collector/ingest/transcribed_ptrs.py:55-55 | A transcribed name gives a ticker if and only if it ends in one to six capitals, dots and dashes in parentheses, the first a capital. |
| `Transcripts.BandAmounts` | src/congress_collector/ingest/transcribed_ptrs.py:41-52 | Each closed band letter A to I reads as its own pair of bounds. |
| `Transcripts.OpenBand` | src/congress_collector/ingest/transcribed_ptrs.py:41-52 | Band J reads as a lower bound without an upper one. |
| `Lifecycle.Store.SaveTransactions` | src/congress_collector/ingest/house_ptrs.py:162-199 | One session: an unreal date or a key conflict leaves nothing behind, otherwise typed rows are stored, untyped ones flagged, and the filing is parsed. |
| `Lifecycle.Store.ResolveParseFailed` | src/congress_collector/ingest/reparse_failed_house_ptrs.py:128-136 | Every parse-failed issue of the filing ends resolved; no other issue changes. |
| `Lifecycle.Store.ParsePending` | src/congress_collector/ingest/house_ptrs.py:55-98 | The run over a batch computes the fold of single parses, returns the parsed ids, and stops where the parser or an unreal date raises; what each filing ends as is `LifecycleOutcomes.RunMarks`. |
| `Lifecycle.Store.ReparseFailed` | src/congress_collector/ingest/reparse_failed_house_ptrs.py:46-73 | The run over failed and deferred filings computes the fold of single re-parses with its two counters. |
| `Lifecycle.Store.ImportTranscript` | src/congress_collector/ingest/transcribed_ptrs.py:118-176 | The import over the filings of a file computes the fold of single imports with its three counters. |
| `LifecycleLaws.StepKeepsInv` | src/congress_collector/ingest/house_ptrs.py:55-199 | Every insertion, archiving, parse, re-parse and import keeps: format unknown exactly while pending, failed is electronic, deferred is scanned, only parsed filings have rows, and provenance marks exactly the transcribed rows; and it touches one filing only. |
| `LifecycleLaws.RunKeepsInv` | src/congress_collector/ingest/house_ptrs.py:55-199 | The same over any sequence of such steps. |
| `LifecycleLaws.ParsedIsFinalIff` | src/congress_collector/ingest/reparse_failed_house_ptrs.py:46-136 | Over any sequence of insertions, archivings, parses, imports and re-parses, also of filings parsed since they were selected: parsed is never left and no row of a parsed filing is lost or changed; status, format, rows and provenance stay exactly as they are if and only if no such stale re-parse adds to it. |
| `LifecycleLaws.StaleReparseIff` | src/congress_collector/ingest/reparse_failed_house_ptrs.py:46-136 | A re-parse of a filing parsed since it was selected, by an import say, keeps the invariant, and leaves the filing alone if and only if it comes to no save, or one of its row numbers is taken, or it has no row to add to a filing already electronic; otherwise its rows join those there. |
| `LifecycleLaws.RowsFromOneSave` | src/congress_collector/ingest/reparse_failed_house_ptrs.py:46-136 | In any run a filing that is parsed in the end and was not at first was saved by exactly one step; it had no rows before, and its rows are all the rows of that step and nothing else. |
| `LifecycleLaws.SavedFormComplete` | src/congress_collector/ingest/house_ptrs.py:162-199 | With clear columns a save stores one row for each parsed transaction under its position and never takes the unknown-type branch. |
| `LifecycleLaws.ParseEffect` | src/congress_collector/ingest/house_ptrs.py:55-98 | With one run at a time a parse never meets a key conflict, and it keeps the invariant. |
| `LifecycleLaws.ParseOutcome` | src/congress_collector/ingest/house_ptrs.py:60-98 | A parse of a pending filing takes it out of "unknown" unless it aborts, ends with status parsed exactly when it reports success, and touches no other filing. |
| `LifecycleLaws.ParseRunDoes` | src/congress_collector/ingest/house_ptrs.py:55-98 | A run takes every selected filing off the backlog unless it is aborted, which it is if and only if the parser raises on a selected form or that has a date that is no calendar day; it returns exactly the selected ids now parsed. |
| `LifecycleLaws.ParseDrainEmpties` | src/congress_collector/ingest/catchup_house_backlog.py:61-82 | Draining the parse backlog b at a time ends with nothing pending after exactly ceil(p/b) steps, when no form pending at first aborts a run. |
| `LifecycleOutcomes.ParseMarks` | src/congress_collector/ingest/house_ptrs.py:60-98 | A parse of a selected filing defers it as scanned, without an issue, if and only if content without a header row was read; marks it failed and electronic, with one open parse-failed issue, if and only if the read failed or a form yielded nothing; stores the form's rows, marks it parsed and electronic and files one issue per transaction without a type when the form reads; and leaves everything as it was if and only if it aborts. |
| `LifecycleOutcomes.RunMarks` | src/congress_collector/ingest/house_ptrs.py:55-159 | The same for every filing of a run up to the first that aborts it, which files exactly their issues in order and touches no other filing. |
| `LifecycleOutcomes.RunStops` | src/congress_collector/ingest/house_ptrs.py:55-98 | There the run stops, with all it has stored. |
| `LifecycleOutcomes.ReparseMarks` | src/congress_collector/ingest/reparse_failed_house_ptrs.py:46-136 | A re-parse leaves no mark: all stays as it was, unless the form reads. Then the filing is parsed and electronic with the form's rows, its parse-failed issues are resolved, one issue is filed per transaction without a type, and no other issue changes. It comes to nothing exactly when the read fails, a deferred filing has no header row still, or nothing parses. |
| `LifecycleOutcomes.ReparseRunMarks` | src/congress_collector/ingest/reparse_failed_house_ptrs.py:46-73 | The same for every filing of a run, whose two counters are the numbers of filings that came to nothing and of the others. |
| `LifecycleOutcomes.ImportMarks` | src/congress_collector/ingest/transcribed_ptrs.py:118-176 | An import takes exactly the filings that are deferred or failed and have no rows. The filing is parsed and keeps its format; each row of known type is stored under its position with its confidence, review, note and file, and one issue is filed for each of the others. |
| `LifecycleOutcomes.ImportCounters` | src/congress_collector/ingest/transcribed_ptrs.py:118-176 | The three counters: filings taken, rows of known type in them, filings left alone; no other filing is touched. |
| `LifecycleLaws.ImportedFormat` | src/congress_collector/ingest/transcribed_ptrs.py:174-174 | An imported PTR ends parsed and scanned if and only if it was deferred as paper; one whose parse had failed stays electronic. |
| `LifecycleLaws.SecondImportIdle` | src/congress_collector/ingest/transcribed_ptrs.py:118-176 | Importing the same file again changes nothing and skips every filing it names. |
| `LifecycleLaws.SecondSaveConflicts` | src/congress_collector/ingest/house_ptrs.py:81-96 | A second save of the same form by an overlapping run conflicts and changes nothing. |
| `LifecycleLaws.StaleParseIff` | src/congress_collector/ingest/house_ptrs.py:55-98 | A parse of a filing selected some time ago, whatever has become of it since, keeps the invariant if and only if it does not mark a filing that has rows as failed or deferred. |
| `LifecycleLaws.OverlappingRuns` | src/congress_collector/ingest/house_ptrs.py:55-98 | Two runs that selected the same pending filing, the second reaching it after the first: the invariant is lost if and only if the first saved rows and the second marks the filing, and when the first saves rows. |
| `TickerLinks.Session.LinkPending` | src/congress_collector/ingest/tickers.py:85-162 | Working on the caches gives exactly what table lookups alone would give, and the caches mirror the tables throughout. |
| `TickerLinks.Session.InstrumentFor` | src/congress_collector/ingest/tickers.py:134-147 | The cached instrument of a CIK is the table's, or a new one when the table has none. |
| `TickerLinks.BatchDoes` | src/congress_collector/ingest/tickers.py:85-162 | A batch links every selected transaction that resolves, flags every other one once, touches no unselected one, keeps CIKs, (instrument, ticker) pairs and open issues unique, and reports the number linked. |
| `TickerResolution.BatchDecides` | src/congress_collector/ingest/tickers.py:165-200 | After a batch every selected transaction is as the first source that knows it decides: an override of its ticker, the reference data on its ticker, an override of its description, the fuzzy match. It is linked to the one instrument of that CIK, known by that ticker, and keeps its own ticker; or it is flagged and otherwise unchanged. An override without a ticker leaves it unmatched, a listed ticker stands for its company, an unlisted one for a company with the zero-filled CIK. |
| `TickerResolution.ZfillPads` | src/congress_collector/ingest/tickers.py:195-199 | The zero-filled CIK has ten characters at least: zeros between the sign, if any, and the rest. |
| `TickerLinks.RunKeeps` | src/congress_collector/ingest/tickers.py:85-162 | Over any number of batches, one at a time, and arrivals the uniqueness holds, nothing added is taken away, and a linked transaction never changes. |
| `TickerLinks.InstrumentPerCik` | src/congress_collector/ingest/tickers.py:134-161 | Two transactions resolved in whatever batches that ran one at a time, under whatever reference data, end with the same instrument if and only if they resolved to the same CIK. |
| `TickerLinks.OverridesShareIff` | src/congress_collector/ingest/tickers.py:187-200 | Transactions resolved by overrides of unlisted tickers, in whatever batches, end with one instrument if and only if the zero-filled CIK texts agree; so all overrides without a CIK share one. |
| `TickerLinks.LinkNoStarvation` | src/congress_collector/ingest/tickers.py:103-117 | Every untried transaction is attempted within ceil(u/b) batches, however many permanently unmatched ones there are. |
| `TickerOverlap.OverlapKeepsIff` | src/congress_collector/ingest/tickers.py:93-161 | Two overlapping batches, both reading the tables before either commits, keep CIKs, (instrument, ticker) pairs and open issues unique if and only if they miss no CIK in common, no ticker of an instrument in common, and flag no transaction in common. |
| `TickerOverlap.OverlapShareIff` | src/congress_collector/ingest/tickers.py:134-161 | Transactions of two overlapping batches that resolve to one CIK end with one instrument if and only if the tables had it before. |
| `TickerOverlap.BatchAddsOnly` | src/congress_collector/ingest/tickers.py:85-162 | A batch adds an instrument only for a CIK it needs and the tables lack, a pair only for a new instrument or a missing ticker, and an issue only for an unmatched transaction without one. |
| `Community.ImportedIs` | src/congress_collector/ingest/community_archive.py:70-110 | An import keeps every stored row and adds, for each new key, the row of the first record with it. |
| `Community.Archive.ImportChunk` | src/congress_collector/ingest/community_archive.py:70-110 | One chunk computes "add if absent" in order and reports the growth of the table. |
| `Community.Archive.ImportRecords` | src/congress_collector/ingest/community_archive.py:61-67 | The same table and total for every chunk size. |
| `Community.ReimportIdle` | src/congress_collector/ingest/community_archive.py:61-110 | Importing the same records again adds nothing, whatever filings have arrived since. |
| `Community.Archive.RematchUnmatched` | src/congress_collector/ingest/community_archive.py:120-144 | The loop re-matches exactly the unmatched rows whose filing is known and counts them. |
| `Community.MatchesStaySound` | src/congress_collector/ingest/community_archive.py:70-144 | Matches stay sound through imports, re-matching and newly arriving filings. |
| `Community.RematchedExact` | src/congress_collector/ingest/community_archive.py:120-144 | After a re-match a row is matched if and only if its external id is among our filings, and a second one finds nothing. |
| `Community.ImportThenRematch` | src/congress_collector/ingest/community_archive.py:61-144 | Importing before the filings arrive and re-matching later gives the table of importing afterwards. |
| `Community.Archive.SurvivorshipReport` | src/congress_collector/ingest/community_archive.py:147-165 | The loop counts, per source with external ids, the distinct matched and unmatched pairs. |
| `Community.CountsPartitionIff` | src/congress_collector/ingest/community_archive.py:147-165 | The two counts of a source add up to its distinct external ids if and only if no id has both a matched and an unmatched row. |
| `Community.ReportAfterRematch` | src/congress_collector/ingest/community_archive.py:120-165 | Right after a re-match the counts are the source's filings we have and those we do not, none counted twice. |

## Left out

- `parse_option_details`, the link pattern of the Senate index, fuzzy matching of company and politician names, and the content hash of a community record are given functions of their text.
- `politician_links.py` has the two tiers, the issue deduplication and the loop of `tickers.py`; a second copy of that model would add nothing.
- PDF, HTML, XML and YAML extraction, HTTP sessions and retries, notifications, scrape-run records, reports of data quality, SIC, committee and legislator synchronisation, and migrations.
- `report_year`, `has_schedule_a` and `is_electronic_fd`, and saving holdings, which repeats saving transactions.
- `scan_verification.py` and `scan_classification.py`: easy members only.
- Non-ASCII case folding and white space; the words of a page contain no white space.
- Money.FormatParseRoundTrip: `float` is modelled on plain signed decimals with exact numbers, so "inf", "1e5", underscores and rounding beyond 2^53 are not captured.
- PtrLayout.LayoutRoundTrip: the lines of a page stand more than the tolerance apart, each with its words left to right without overlap.
- PtrDocuments.EveryListHasADocument: places each transaction on one line, with its annotations on two lines below; wrapped and multi-page documents are the matter of `PtrLayout.LayoutRoundTrip`.
- ScheduleALayout.ScheduleRoundTrip: a wrapped line must not itself begin a value (`ScheduleALayout.BreaksWellIff` says which breaks do), and header rows repeated inside the section stand at the same columns.
- Quota.BudgetBound: a page of a listing is read at one moment, as the store lists consistently, and nothing deletes objects.
- TickerLinks.RunKeeps: batches run one at a time; `TickerOverlap.OverlapKeepsIff` says what two overlapping ones keep.
- TickerLinks.InstrumentPerCik: likewise; `TickerOverlap.OverlapShareIff` says what becomes of a CIK two overlapping batches meet.
- LifecycleLaws.ParsedIsFinalIff: `backfill_house_reparse.py`, which fills source ids, asset types and option fields still missing in stored rows, is not a step.
- LifecycleLaws.RowsFromOneSave: no re-parse is stale; `LifecycleLaws.StaleReparseIff` says what a stale one adds.
- AmendmentRuns.RunMonotone: source ids filled in later by that backfill are not an event.
- ScheduleADocuments.EveryListHasAReport: places each holding on one line.
- AmendmentRuns.Confluence: filings that share a source id have different (filed date, first seen) keys, and a filing lists a source id once.
- HousePdfs.ArchiveNoStarvation: runs without arrivals; nothing is claimed about the order among filings that already failed.
- LifecycleLaws.RunKeepsInv: runs that select from the table do so one at a time, and no import falls between the selection of a re-parse and its step; `LifecycleLaws.OverlappingRuns` and `LifecycleLaws.StaleReparseIff` show why. Of filings that are no House PTRs it only says that their rows come with status parsed.
- LifecycleLaws.ParseRunDoes: on which documents the parser raises is a given predicate, and a lost database connection is not modelled.
- Insertion.ExactlyOnce: the insert statement and its commit are one step, as the primary key makes concurrent inserts of one id wait for each other.
- SenateIndex.FetchPtrIndex: the server's list does not change during a fetch.
- SenateIndex.BackfillInChunks: "now" for entries without a filed date is a function of the entry, the same for every chunk.
- Community.Archive.ImportRecords: the records passed with a source carry that source, as both callers' do; the filings do not change during an import.
- Transcripts.ReadCsv: the CSV text is already split into cells.
