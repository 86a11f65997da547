/** Open data-quality issues (`dq_issues`) that put an item behind the untried ones: `_record_fetch_failed`
    of `ingest/house_pdfs.py` and the unmatched flags of `ingest/tickers.py`. */
module Issues {

  /** A row of one issue type; the subject is a filing or a transaction. */
  datatype Issue = Issue(subject: string, resolved: bool)

  predicate HasOpenIssue(issues: seq<Issue>, id: string) {
    exists i | 0 <= i < |issues| :: issues[i] == Issue(id, false)
  }

  function Flagged(issues: seq<Issue>): set<string> {
    set i | 0 <= i < |issues| && !issues[i].resolved :: issues[i].subject
  }

  /** A subject has at most one open issue. */
  predicate OneOpenIssue(issues: seq<Issue>) {
    forall i, j | 0 <= i < j < |issues| && issues[i].subject == issues[j].subject ::
      issues[i].resolved || issues[j].resolved
  }

  function FlaggedAs(issues: seq<Issue>, id: string): seq<Issue> {
    if HasOpenIssue(issues, id) then issues else issues + [Issue(id, false)]
  }

  function IssuesResolved(issues: seq<Issue>, id: string): (r: seq<Issue>)
    ensures |r| == |issues|
    ensures forall i | 0 <= i < |issues| :: r[i] == if issues[i].subject == id then Issue(id, true) else issues[i]
  {
    seq(|issues|, i requires 0 <= i < |issues| => if issues[i].subject == id then Issue(id, true) else issues[i])
  }

  lemma {:induction false} FlaggedMember(issues: seq<Issue>, id: string)
    ensures id in Flagged(issues) <==> HasOpenIssue(issues, id)
  {
    if HasOpenIssue(issues, id) {
      var i :| 0 <= i < |issues| && issues[i] == Issue(id, false);
      assert issues[i].subject in Flagged(issues);
    }
    if id in Flagged(issues) {
      var i :| 0 <= i < |issues| && !issues[i].resolved && issues[i].subject == id;
      assert issues[i] == Issue(id, false);
    }
  }

  lemma {:induction false} IssueAdded(issues: seq<Issue>, id: string)
    ensures forall x :: HasOpenIssue(issues + [Issue(id, false)], x) <==> x == id || HasOpenIssue(issues, x)
  {
    var after := issues + [Issue(id, false)];
    forall x ensures HasOpenIssue(after, x) <==> x == id || HasOpenIssue(issues, x) {
      assert after[|issues|] == Issue(id, false);
      if i :| 0 <= i < |issues| && issues[i] == Issue(x, false) {
        assert after[i] == Issue(x, false);
      }
      if x != id && HasOpenIssue(after, x) {
        var i :| 0 <= i < |after| && after[i] == Issue(x, false);
        assert issues[i] == Issue(x, false);
      }
    }
  }

  /** Flagging adds one subject to the flagged ones, keeps every row, and never opens a second issue. */
  lemma {:induction false} FlagIssue(issues: seq<Issue>, id: string)
    ensures issues <= FlaggedAs(issues, id)
    ensures Flagged(FlaggedAs(issues, id)) == Flagged(issues) + {id}
    ensures OneOpenIssue(issues) ==> OneOpenIssue(FlaggedAs(issues, id))
  {
    hide Flagged;
    var after := FlaggedAs(issues, id);
    IssueAdded(issues, id);
    forall f ensures f in Flagged(after) <==> f in Flagged(issues) + {id} {
      FlaggedMember(issues, f);
      FlaggedMember(after, f);
    }
    if !HasOpenIssue(issues, id) {
      forall i | 0 <= i < |issues| && issues[i].subject == id ensures issues[i].resolved {
        assert issues[i] == Issue(id, issues[i].resolved);
      }
    }
  }

  lemma {:induction false} ResolveIssue(issues: seq<Issue>, id: string)
    requires OneOpenIssue(issues)
    ensures OneOpenIssue(IssuesResolved(issues, id))
    ensures Flagged(IssuesResolved(issues, id)) == Flagged(issues) - {id}
  {
    var after := IssuesResolved(issues, id);
    forall f ensures f in Flagged(after) <==> f in Flagged(issues) - {id} {
      FlaggedMember(issues, f);
      FlaggedMember(after, f);
      if HasOpenIssue(issues, f) && f != id {
        var i :| 0 <= i < |issues| && issues[i] == Issue(f, false);
        assert after[i] == Issue(f, false);
      }
      if HasOpenIssue(after, f) {
        var i :| 0 <= i < |after| && after[i] == Issue(f, false);
        assert issues[i] == Issue(f, false) && f != id;
      }
    }
  }
}
