/** The server's email collection and its HTTP handlers. The document
    database is a map from email id to the stored email; each handler is one
    atomic step on it. */
module EmailStore {
  import opened Wrappers
  import opened Models
  import opened TriageRules

  const NOT_FOUND := HttpError(404, "Email not found")
  const DEFAULT_STATUS := PENDING
  const DEFAULT_LIMIT := 50
  const PRIORITY_DESC := "priority_desc"
  const ALL := "all"
  const GENERATED := "generated"
  const SENT := "sent"
  const SYSTEM := "system"
  const USER := "user"
  const REAL_MODE := "real"

  /** Query parameters of `GET /emails`, each `None` when the request leaves it out. */
  datatype ListQuery = ListQuery(status: Option<string>, limit: Option<int>, sort: Option<string>)

  // ---------------------------------------------------------------------------
  // Mock ingest

  /** One of the built-in sample emails. */
  datatype Sample = Sample(sender: string, senderName: string, subject: string, body: string)

  const SAMPLE_EMAILS: seq<Sample> := [
    Sample("john.customer@email.com", "John Customer",
      "URGENT: Order #12345 not delivered - need immediate help",
      "Hi, I placed order #12345 three weeks ago and still haven't received it. This is extremely urgent as it was a gift for my daughter's birthday which is tomorrow. I've tried calling but can't get through. My alternate email is john.backup@gmail.com and phone is +1-555-0123. Please help immediately!"),
    Sample("sarah.jones@company.com", "Sarah Jones",
      "Billing question about recent charge",
      "Hello, I noticed a charge of $29.99 on my credit card from your company but I don't remember making this purchase. Could you please help me understand what this charge is for? My order reference might be ORD-7891. Thanks!"),
    Sample("mike.developer@tech.com", "Mike Developer",
      "Feature request: API rate limiting",
      "Hi team, I'm a developer using your API and would love to see better rate limiting controls. Currently, I hit limits unexpectedly which breaks my application. Could you add configurable rate limits per API key? This would help many developers like me. Contact me at mike.dev@tech.com for more details."),
    Sample("angry.customer@email.com", "Frustrated Customer",
      "Terrible service - demanding refund NOW",
      "I am absolutely furious with your service. Nothing works as advertised and your support is useless. I want a full refund immediately or I'm reporting to BBB. This is the worst experience I've ever had. Call me at 555-9876 to resolve this NOW!"),
    Sample("happy.user@domain.com", "Happy User",
      "Love the new features!",
      "Just wanted to say thank you for the recent updates. The new dashboard is amazing and has made my workflow so much better. Keep up the excellent work! You guys are the best.")
  ]

  /** What the outside world contributes to ingesting one sample: the fresh
      id, the model's extraction and sentiment answers (`None` when the call
      failed), the regular-expression matches of the extraction fallback and
      the age of the email in hours when it is scored. */
  datatype IngestInputs = IngestInputs(
    id: string,
    extractionText: Option<string>,
    regex: RegexMatches,
    sentimentText: Option<string>,
    ageHours: real)

  /** The email stored for one sample: extracted, labelled and scored, with
      no draft, no retrieval hits, an empty audit trail and status pending. */
  function MockEmail(sample: Sample, inputs: IngestInputs, now: int, parser: map<string, Extracted>): (e: Email)
    ensures e.id == inputs.id && e.status == PENDING
    ensures e.extracted == ExtractEmailInfo(sample.body, inputs.extractionText, parser, inputs.regex)
    ensures e.sentiment == AnalyzeSentiment(sample.body, inputs.sentimentText)
    ensures var p := ComputePriorityScore(ScoredFields(sample.sender, sample.subject, sample.body, e.sentiment, inputs.ageHours), {});
      e.priorityScore == p.score && e.priorityRationale == p.rationale
    ensures e.sender == sample.sender && e.senderName == sample.senderName
    ensures e.subject == sample.subject && e.body == sample.body
    ensures IsSentimentLabel(e.sentiment) && e.priorityScore <= 1000
    ensures e.draftReply == None && e.retrievalHits == [] && e.auditLog == []
    ensures e.dateReceived == e.createdAt == e.updatedAt == now
  {
    var extracted := ExtractEmailInfo(sample.body, inputs.extractionText, parser, inputs.regex);
    var sentiment := AnalyzeSentiment(sample.body, inputs.sentimentText);
    var priority := ComputePriorityScore(
      ScoredFields(sample.sender, sample.subject, sample.body, sentiment, inputs.ageHours), {});
    Email(inputs.id, sample.sender, sample.senderName, sample.subject, sample.body, now, None,
          extracted, sentiment, priority.score, priority.rationale, [], None, [], PENDING, now, now)
  }

  /** The emails made from the samples, in order. */
  function MockEmails(samples: seq<Sample>, inputs: seq<IngestInputs>, now: int, parser: map<string, Extracted>): (es: seq<Email>)
    requires |samples| == |inputs|
    ensures |es| == |samples|
    ensures forall i :: 0 <= i < |es| ==> es[i] == MockEmail(samples[i], inputs[i], now, parser)
  {
    seq(|samples|, i requires 0 <= i < |samples| => MockEmail(samples[i], inputs[i], now, parser))
  }

  // ---------------------------------------------------------------------------
  // Listing

  /** Whether an email passes the status filter of a listing. */
  predicate Matches(e: Email, status: string) {
    status == ALL || e.status == status
  }

  /** The field a listing sorts on. */
  function SortKey(e: Email, sort: string): int {
    if sort == PRIORITY_DESC then e.priorityScore else e.dateReceived
  }

  function SummaryKey(s: EmailSummary, sort: string): int {
    if sort == PRIORITY_DESC then s.priorityScore else s.dateReceived
  }

  predicate SortedDesc(es: seq<Email>, sort: string) {
    forall i, j :: 0 <= i < j < |es| ==> SortKey(es[j], sort) <= SortKey(es[i], sort)
  }

  predicate NoDupIds(es: seq<Email>) {
    forall i, j :: 0 <= i < j < |es| ==> es[i].id != es[j].id
  }

  function Abs(n: int): nat {
    if n < 0 then -n else n
  }

  /** How many documents a cursor limit lets through: 0 means no limit,
      a negative limit counts as its absolute value. */
  function LimitCount(limit: int, n: nat): (k: nat)
    ensures k <= n
    ensures limit == 0 ==> k == n
    ensures limit != 0 ==> k <= Abs(limit) && (k < Abs(limit) ==> k == n)
  {
    if limit == 0 || n <= Abs(limit) then n else Abs(limit)
  }

  /** The summary of an email in a listing. */
  function Summarize(e: Email): (s: EmailSummary)
    ensures s.id == e.id && s.status == e.status && s.priorityScore == e.priorityScore
    ensures s.sender == e.sender && s.subject == e.subject && s.sentiment == e.sentiment
    ensures s.dateReceived == e.dateReceived
    ensures s.preview == Preview(e.body) && |s.preview| <= 103
  {
    EmailSummary(e.id, e.sender, e.subject, e.sentiment, e.priorityScore, e.status, Preview(e.body), e.dateReceived)
  }

  /** Inserts an email into a list sorted by descending key. */
  function InsertByKey(e: Email, es: seq<Email>, sort: string): (r: seq<Email>)
    requires SortedDesc(es, sort)
    ensures SortedDesc(r, sort)
    ensures multiset(r) == multiset(es) + multiset{e}
    ensures |r| == |es| + 1
    ensures forall x :: x in r <==> x == e || x in es
  {
    if es == [] || SortKey(es[0], sort) <= SortKey(e, sort) then [e] + es
    else
      var rest := InsertByKey(e, es[1..], sort);
      InsertBehindHead(e, es, rest, sort);
      [es[0]] + rest
  }

  /** The recursive step of the insertion: an email that sorts below the
      head goes into the tail, and the head stays in front. */
  lemma InsertBehindHead(e: Email, es: seq<Email>, rest: seq<Email>, sort: string)
    requires es != [] && SortedDesc(es, sort) && SortKey(e, sort) < SortKey(es[0], sort)
    requires SortedDesc(rest, sort)
    requires multiset(rest) == multiset(es[1..]) + multiset{e}
    ensures SortedDesc([es[0]] + rest, sort)
    ensures multiset([es[0]] + rest) == multiset(es) + multiset{e}
    ensures |[es[0]] + rest| == |es| + 1
    ensures forall x :: x in [es[0]] + rest <==> x == e || x in es
  {
    assert es == [es[0]] + es[1..];
    forall y | y in rest
      ensures SortKey(y, sort) <= SortKey(es[0], sort)
    {
      assert y in multiset(rest);
      if y != e {
        assert y in es[1..];
      }
    }
    ConsSorted(es[0], rest, sort);
    assert |rest| == |multiset(rest)|;
    forall x
      ensures x in [es[0]] + rest <==> x == e || x in es
    {
      assert x in [es[0]] + rest <==> x in multiset([es[0]] + rest);
      assert x in es <==> x in multiset(es);
    }
  }

  /** Putting an email in front of a descending list of emails that sort no
      higher keeps the list descending. */
  lemma ConsSorted(x: Email, rest: seq<Email>, sort: string)
    requires SortedDesc(rest, sort)
    requires forall y :: y in rest ==> SortKey(y, sort) <= SortKey(x, sort)
    ensures SortedDesc([x] + rest, sort)
  {
    var r := [x] + rest;
    forall i, j | 0 <= i < j < |r|
      ensures SortKey(r[j], sort) <= SortKey(r[i], sort)
    {
      assert r[j] == rest[j - 1] && rest[j - 1] in rest;
      if i > 0 {
        assert r[i] == rest[i - 1];
      }
    }
  }

  /** Inserting an email whose id is new keeps the ids distinct. */
  lemma {:induction false} InsertKeepsIdsDistinct(e: Email, es: seq<Email>, sort: string)
    requires SortedDesc(es, sort) && NoDupIds(es)
    requires forall x :: x in es ==> x.id != e.id
    ensures NoDupIds(InsertByKey(e, es, sort))
  {
    if es != [] && SortKey(e, sort) < SortKey(es[0], sort) {
      var rest := InsertByKey(e, es[1..], sort);
      assert SortedDesc(es[1..], sort);
      assert NoDupIds(es[1..]);
      InsertKeepsIdsDistinct(e, es[1..], sort);
      forall x | x in rest
        ensures x.id != es[0].id
      {
        if x != e {
          var k :| 0 <= k < |es[1..]| && es[1..][k] == x;
          assert es[k + 1] == x;
        }
      }
      assert InsertByKey(e, es, sort) == [es[0]] + rest;
    }
  }

  /** What `GET /emails` promises about its answer `r` for the given store,
      status filter, limit and sort option: at most the limit; each summary
      is that of a stored email that passes the filter; no email twice;
      descending order of the sort field (both sort options sort
      descending); and an email that passes the filter but is left out lies
      behind a full page of emails that sort at least as high. */
  ghost predicate IsEmailsAnswer(emails: map<string, Email>, status: string, limit: int, sort: string, r: seq<EmailSummary>)
  {
    && (limit != 0 ==> |r| <= Abs(limit))
    && PageFromStore(emails, status, r)
    && PageDistinctDesc(sort, r)
    && PageComplete(emails, status, limit, sort, r)
  }

  /** Each summary is that of a stored email that passes the filter. */
  ghost predicate PageFromStore(emails: map<string, Email>, status: string, r: seq<EmailSummary>)
  {
    forall i :: 0 <= i < |r| ==>
      && r[i].id in emails && r[i] == Summarize(emails[r[i].id])
      && Matches(emails[r[i].id], status) && (status == ALL || r[i].status == status)
  }

  /** No email twice, and descending order of the sort field. */
  ghost predicate PageDistinctDesc(sort: string, r: seq<EmailSummary>)
  {
    forall i, j :: 0 <= i < j < |r| ==> r[i].id != r[j].id && SummaryKey(r[j], sort) <= SummaryKey(r[i], sort)
  }

  /** A matching email left out lies behind a full page that sorts at least as high. */
  ghost predicate PageComplete(emails: map<string, Email>, status: string, limit: int, sort: string, r: seq<EmailSummary>)
  {
    forall id :: id in emails && Matches(emails[id], status) && (forall i :: 0 <= i < |r| ==> r[i].id != id) ==>
      && limit != 0 && |r| == Abs(limit)
      && (forall i :: 0 <= i < |r| ==> SortKey(emails[id], sort) <= SummaryKey(r[i], sort))
  }

  /** What the database's `find(query).sort(field, -1)` yields: the stored
      emails that pass the filter, each once, in descending order. */
  ghost predicate IsFindResult(emails: map<string, Email>, status: string, sort: string, found: seq<Email>)
  {
    && SortedDesc(found, sort) && NoDupIds(found)
    && (forall e :: e in found ==> e.id in emails && emails[e.id] == e && Matches(e, status))
    && (forall id :: id in emails && Matches(emails[id], status) ==> emails[id] in found)
  }

  /** The summaries of the first `LimitCount` emails of a find result
      answer the listing. */
  lemma {:induction false} PageIsAnswer(emails: map<string, Email>, status: string, limit: int, sort: string,
                                        found: seq<Email>, r: seq<EmailSummary>)
    requires forall id :: id in emails ==> emails[id].id == id
    requires IsFindResult(emails, status, sort, found)
    requires |r| == LimitCount(limit, |found|)
    requires forall j :: 0 <= j < |r| ==> r[j] == Summarize(found[j])
    ensures IsEmailsAnswer(emails, status, limit, sort, r)
  {
    PageIsFromStore(emails, status, sort, found, r);
    PageIsDistinctDesc(emails, status, sort, found, r);
    PageIsComplete(emails, status, limit, sort, found, r);
  }

  lemma {:induction false} PageIsFromStore(emails: map<string, Email>, status: string, sort: string,
                                           found: seq<Email>, r: seq<EmailSummary>)
    requires IsFindResult(emails, status, sort, found)
    requires |r| <= |found|
    requires forall j :: 0 <= j < |r| ==> r[j] == Summarize(found[j])
    ensures PageFromStore(emails, status, r)
  {
    forall i | 0 <= i < |r|
      ensures r[i].id in emails && r[i] == Summarize(emails[r[i].id])
      ensures Matches(emails[r[i].id], status) && (status == ALL || r[i].status == status)
    {
      assert found[i] in found;
    }
  }

  lemma {:induction false} PageIsDistinctDesc(emails: map<string, Email>, status: string, sort: string,
                                              found: seq<Email>, r: seq<EmailSummary>)
    requires IsFindResult(emails, status, sort, found)
    requires |r| <= |found|
    requires forall j :: 0 <= j < |r| ==> r[j] == Summarize(found[j])
    ensures PageDistinctDesc(sort, r)
  {
    forall i, j | 0 <= i < j < |r|
      ensures r[i].id != r[j].id && SummaryKey(r[j], sort) <= SummaryKey(r[i], sort)
    {
    }
  }

  lemma {:induction false} PageIsComplete(emails: map<string, Email>, status: string, limit: int, sort: string,
                                          found: seq<Email>, r: seq<EmailSummary>)
    requires forall id :: id in emails ==> emails[id].id == id
    requires IsFindResult(emails, status, sort, found)
    requires |r| == LimitCount(limit, |found|)
    requires forall j :: 0 <= j < |r| ==> r[j] == Summarize(found[j])
    ensures PageComplete(emails, status, limit, sort, r)
  {
    forall id | id in emails && Matches(emails[id], status) && (forall i :: 0 <= i < |r| ==> r[i].id != id)
      ensures limit != 0 && |r| == Abs(limit)
      ensures forall i :: 0 <= i < |r| ==> SortKey(emails[id], sort) <= SummaryKey(r[i], sort)
    {
      var p :| 0 <= p < |found| && found[p] == emails[id];
      assert found[p].id == id;
      assert forall i :: 0 <= i < |r| ==> r[i].id == found[i].id;
      assert p >= |r|;
    }
  }

  // ---------------------------------------------------------------------------
  // Updates

  /** The email after a generate: new draft and hits, one `generated` audit
      entry by the system carrying the draft text, a new update time, and
      nothing else changed. */
  function WithDraft(e: Email, hits: seq<RetrievalHit>, draft: DraftReply, now: int): (e': Email)
    ensures e'.draftReply == Some(draft) && e'.retrievalHits == hits && e'.updatedAt == now
    ensures e'.auditLog == e.auditLog + [AuditEntry(GENERATED, SYSTEM, draft.text, now)]
    ensures e'.(draftReply := e.draftReply, retrievalHits := e.retrievalHits, auditLog := e.auditLog, updatedAt := e.updatedAt) == e
  {
    e.(retrievalHits := hits, draftReply := Some(draft), updatedAt := now,
       auditLog := e.auditLog + [AuditEntry(GENERATED, SYSTEM, draft.text, now)])
  }

  /** The email after a send: status resolved, one `sent` audit entry by the
      user carrying the final text, a new update time, and nothing else
      changed. The prior status is not consulted. */
  function MarkSent(e: Email, finalText: string, now: int): (e': Email)
    ensures e'.status == RESOLVED && e'.updatedAt == now
    ensures e'.auditLog == e.auditLog + [AuditEntry(SENT, USER, finalText, now)]
    ensures e'.(status := e.status, auditLog := e.auditLog, updatedAt := e.updatedAt) == e
  {
    e.(status := RESOLVED, updatedAt := now, auditLog := e.auditLog + [AuditEntry(SENT, USER, finalText, now)])
  }

  /** A send moves a pending email from the pending count to the resolved
      count. */
  lemma {:induction false} SendMovesToResolved(emails: map<string, Email>, id: string, finalText: string, now: int)
    requires id in emails && emails[id].status == PENDING
    ensures var after := emails[id := MarkSent(emails[id], finalText, now)];
      && |StatusIds(after, PENDING)| == |StatusIds(emails, PENDING)| - 1
      && |StatusIds(after, RESOLVED)| == |StatusIds(emails, RESOLVED)| + 1
  {
    var after := emails[id := MarkSent(emails[id], finalText, now)];
    assert StatusIds(after, PENDING) == StatusIds(emails, PENDING) - {id};
    assert StatusIds(after, RESOLVED) == StatusIds(emails, RESOLVED) + {id};
  }

  /** After a send, a listing of pending emails does not hold the sent one. */
  lemma SentEmailNotListed(emails: map<string, Email>, id: string, finalText: string, now: int,
                           limit: int, sort: string, r: seq<EmailSummary>)
    requires id in emails
    requires IsEmailsAnswer(emails[id := MarkSent(emails[id], finalText, now)], PENDING, limit, sort, r)
    ensures forall i :: 0 <= i < |r| ==> r[i].id != id
  {
  }

  /** The message of a successful send: "sent" only in real mode. */
  function SendMessage(sendMode: string): (m: string)
    ensures sendMode == REAL_MODE ==> m == "Email reply sent successfully"
    ensures sendMode != REAL_MODE ==> m == "Email reply mock sent successfully"
  {
    "Email reply " + (if sendMode == REAL_MODE then "sent" else "mock sent") + " successfully"
  }

  // ---------------------------------------------------------------------------
  // Analytics

  function StatusIds(emails: map<string, Email>, status: string): set<string> {
    set id | id in emails && emails[id].status == status
  }

  function SentimentIds(emails: map<string, Email>, sentiment: string): set<string> {
    set id | id in emails && emails[id].sentiment == sentiment
  }

  /** The sentiment grouping: each label that occurs, with its number of emails. */
  function Breakdown(emails: map<string, Email>): map<string, nat> {
    map l | l in (set id | id in emails :: emails[id].sentiment) :: |SentimentIds(emails, l)|
  }

  /** The sum of the counts of a grouping. */
  ghost function SumValues(m: map<string, nat>): nat
    decreases |m|
  {
    if m == map[] then 0
    else
      var k :| k in m;
      m[k] + SumValues(m - {k})
  }

  /** The sum does not depend on which key is taken first. */
  lemma {:induction false} SumValuesRemove(m: map<string, nat>, k: string)
    requires k in m
    ensures SumValues(m) == m[k] + SumValues(m - {k})
    decreases |m|
  {
    var k' :| k' in m && SumValues(m) == m[k'] + SumValues(m - {k'});
    if k' != k {
      assert (m - {k'}).Keys == m.Keys - {k'};
      assert (m - {k}).Keys == m.Keys - {k};
      SumValuesRemove(m - {k'}, k);
      SumValuesRemove(m - {k}, k');
      assert m - {k'} - {k} == m - {k} - {k'};
    }
  }

  /** Removing one email lowers the count of its sentiment by one (dropping
      a count that reaches zero) and leaves the other counts alone. */
  lemma BreakdownRemove(emails: map<string, Email>, id: string)
    requires id in emails
    ensures var b, b', l := Breakdown(emails), Breakdown(emails - {id}), emails[id].sentiment;
      && l in b && b - {l} == b' - {l}
      && b[l] == (if l in b' then b'[l] else 0) + 1
  {
    BreakdownRemoveOwnLabel(emails, id);
    BreakdownRemoveOtherLabels(emails, id);
  }

  /** Removing an email lowers the count of its own label by one. */
  lemma BreakdownRemoveOwnLabel(emails: map<string, Email>, id: string)
    requires id in emails
    ensures var b, b', l := Breakdown(emails), Breakdown(emails - {id}), emails[id].sentiment;
      l in b && b[l] == (if l in b' then b'[l] else 0) + 1
  {
    var rest := emails - {id};
    var l := emails[id].sentiment;
    assert SentimentIds(emails, l) == SentimentIds(rest, l) + {id};
    if SentimentIds(rest, l) != {} {
      var j :| j in SentimentIds(rest, l);
      assert rest[j].sentiment == l;
    }
  }

  /** Removing an email leaves the counts of the other labels alone. */
  lemma BreakdownRemoveOtherLabels(emails: map<string, Email>, id: string)
    requires id in emails
    ensures var b, b', l := Breakdown(emails), Breakdown(emails - {id}), emails[id].sentiment;
      b - {l} == b' - {l}
  {
    var rest := emails - {id};
    var b, b', l := Breakdown(emails), Breakdown(rest), emails[id].sentiment;
    forall l' | l' != l
      ensures SentimentIds(emails, l') == SentimentIds(rest, l')
      ensures l' in b <==> l' in b'
    {
      if l' in b {
        var j :| j in emails && emails[j].sentiment == l';
        assert j in rest;
      }
    }
    assert (b - {l}).Keys == (b' - {l}).Keys;
  }

  /** The grouping counts every stored email exactly once. */
  lemma {:induction false} BreakdownSum(emails: map<string, Email>)
    ensures SumValues(Breakdown(emails)) == |emails|
    decreases |emails|
  {
    if emails == map[] {
      assert Breakdown(emails) == map[];
    } else {
      var id :| id in emails;
      var rest := emails - {id};
      var l := emails[id].sentiment;
      assert |rest| == |emails| - 1;
      BreakdownSum(rest);
      BreakdownRemove(emails, id);
      SumValuesRemove(Breakdown(emails), l);
      if l in Breakdown(rest) {
        SumValuesRemove(Breakdown(rest), l);
      } else {
        assert Breakdown(rest) - {l} == Breakdown(rest);
      }
    }
  }

  /** `get_analytics` without the average: the counts by status, every
      email in exactly one sentiment group. */
  function Analytics(emails: map<string, Email>): (a: AnalyticsResponse)
    ensures a.totalEmails == |emails|
    ensures a.pendingCount + a.resolvedCount <= a.totalEmails
    ensures a.pendingCount == |StatusIds(emails, PENDING)| && a.resolvedCount == |StatusIds(emails, RESOLVED)|
    ensures SumValues(a.sentimentBreakdown) == a.totalEmails
    ensures forall l :: l in a.sentimentBreakdown <==> exists id :: id in emails && emails[id].sentiment == l
    ensures forall l :: l in a.sentimentBreakdown ==> a.sentimentBreakdown[l] == |SentimentIds(emails, l)|
  {
    BreakdownSum(emails);
    var pending, resolved := StatusIds(emails, PENDING), StatusIds(emails, RESOLVED);
    assert pending + resolved <= emails.Keys;
    assert pending * resolved == {};
    assert |pending + resolved| <= |emails.Keys| by {
      SubsetCard(pending + resolved, emails.Keys);
    }
    AnalyticsResponse(|emails|, |pending|, |resolved|, Breakdown(emails))
  }

  lemma {:induction false} SubsetCard(a: set<string>, b: set<string>)
    requires a <= b
    ensures |a| <= |b|
  {
    assert b == a + (b - a);
  }

  // ---------------------------------------------------------------------------
  // The collection

  class EmailCollection {
    /** The stored emails by id. */
    var emails: map<string, Email>

    /** Every email is stored under its own id. */
    ghost predicate Valid()
      reads this
    {
      forall id :: id in emails ==> emails[id].id == id
    }

    constructor ()
      ensures Valid() && emails == map[]
    {
      emails := map[];
    }

    /** `POST /emails/ingest/mock` over a list of samples (the route passes
        `SAMPLE_EMAILS`): each sample becomes an email, extracted, labelled
        and scored, inserted under its fresh id; the answer is how many
        were inserted. */
    method IngestMockEmails(samples: seq<Sample>, inputs: seq<IngestInputs>, now: int, parser: map<string, Extracted>)
      returns (ingested: nat)
      requires Valid()
      requires |inputs| == |samples|
      requires forall i, j :: 0 <= i < j < |inputs| ==> inputs[i].id != inputs[j].id
      requires forall i :: 0 <= i < |inputs| ==> inputs[i].id !in emails
      modifies this
      ensures Valid()
      ensures ingested == |samples| && |emails| == |old(emails)| + ingested
      ensures forall id :: id in old(emails) ==> id in emails && emails[id] == old(emails)[id]
      ensures forall i :: 0 <= i < |inputs| ==>
        inputs[i].id in emails && emails[inputs[i].id] == MockEmail(samples[i], inputs[i], now, parser)
    {
      var made := MockEmails(samples, inputs, now, parser);
      ingested := InsertAll(made);
    }

    /** The route itself: the built-in samples. */
    method IngestSampleEmails(inputs: seq<IngestInputs>, now: int, parser: map<string, Extracted>)
      returns (ingested: nat)
      requires Valid()
      requires |inputs| == |SAMPLE_EMAILS|
      requires forall i, j :: 0 <= i < j < |inputs| ==> inputs[i].id != inputs[j].id
      requires forall i :: 0 <= i < |inputs| ==> inputs[i].id !in emails
      modifies this
      ensures Valid()
      ensures ingested == 5 && |emails| == |old(emails)| + 5
      ensures forall id :: id in old(emails) ==> id in emails && emails[id] == old(emails)[id]
      ensures forall i :: 0 <= i < |inputs| ==>
        inputs[i].id in emails && emails[inputs[i].id] == MockEmail(SAMPLE_EMAILS[i], inputs[i], now, parser)
    {
      ingested := IngestMockEmails(SAMPLE_EMAILS, inputs, now, parser);
    }

    /** The insertion loop of the ingest: emails with fresh, distinct ids
        are inserted one by one; the answer is how many. */
    method InsertAll(made: seq<Email>) returns (inserted: nat)
      requires Valid()
      requires forall i, j :: 0 <= i < j < |made| ==> made[i].id != made[j].id
      requires forall i :: 0 <= i < |made| ==> made[i].id !in emails
      modifies this
      ensures Valid()
      ensures inserted == |made| && |emails| == |old(emails)| + inserted
      ensures forall id :: id in old(emails) ==> id in emails && emails[id] == old(emails)[id]
      ensures forall i :: 0 <= i < |made| ==> made[i].id in emails && emails[made[i].id] == made[i]
    {
      inserted := 0;
      while inserted < |made|
        invariant Valid()
        invariant inserted <= |made|
        invariant |emails| == |old(emails)| + inserted
        invariant forall id :: id in old(emails) ==> id in emails && emails[id] == old(emails)[id]
        invariant forall i :: 0 <= i < inserted ==> made[i].id in emails && emails[made[i].id] == made[i]
        invariant forall i :: inserted <= i < |made| ==> made[i].id !in emails
      {
        emails := emails[made[inserted].id := made[inserted]];
        inserted := inserted + 1;
      }
    }

    /** The database's `find(query).sort(field, -1)`: the emails that pass
        the status filter, each once, in descending order of the sort field. */
    method FindSorted(status: string, sort: string) returns (found: seq<Email>)
      requires Valid()
      ensures IsFindResult(emails, status, sort, found)
    {
      var rest := emails.Keys;
      found := [];
      while rest != {}
        invariant rest <= emails.Keys
        invariant SortedDesc(found, sort) && NoDupIds(found)
        invariant forall e :: e in found ==> e.id in emails && emails[e.id] == e && Matches(e, status) && e.id !in rest
        invariant forall id :: id in emails.Keys - rest && Matches(emails[id], status) ==> emails[id] in found
        decreases rest
      {
        var id :| id in rest;
        if Matches(emails[id], status) {
          InsertKeepsIdsDistinct(emails[id], found, sort);
          found := InsertByKey(emails[id], found, sort);
        }
        rest := rest - {id};
      }
    }

    /** `GET /emails`: missing parameters default to status pending, limit
        50 and priority order; the page of matches becomes summaries. */
    method GetEmails(q: ListQuery) returns (summaries: seq<EmailSummary>)
      requires Valid()
      ensures IsEmailsAnswer(emails, q.status.GetOr(DEFAULT_STATUS), q.limit.GetOr(DEFAULT_LIMIT),
                             q.sort.GetOr(PRIORITY_DESC), summaries)
    {
      var status, limit, sort := q.status.GetOr(DEFAULT_STATUS), q.limit.GetOr(DEFAULT_LIMIT), q.sort.GetOr(PRIORITY_DESC);
      var found := FindSorted(status, sort);
      var count := LimitCount(limit, |found|);
      summaries := [];
      for i := 0 to count
        invariant |summaries| == i
        invariant forall j :: 0 <= j < i ==> summaries[j] == Summarize(found[j])
      {
        summaries := summaries + [Summarize(found[i])];
      }
      PageIsAnswer(emails, status, limit, sort, found, summaries);
    }

    /** `GET /emails/{id}`: the stored email, or 404. */
    function GetEmailDetail(id: string): (r: Result<Email, HttpError>)
      reads this
      ensures r.Ok? <==> id in emails
      ensures r.Ok? ==> r.value == emails[id]
      ensures r.Err? ==> r.error == NOT_FOUND
    {
      if id in emails then Ok(emails[id]) else Err(NOT_FOUND)
    }

    /** `POST /emails/{id}/generate`: 404 and no change for an unknown id;
        otherwise the draft made from the model's answer and the given
        retrieval hits is stored and answered. */
    method GenerateEmailReply(id: string, hits: seq<RetrievalHit>, modelText: Option<string>,
                              parser: map<string, ReplyFields>, now: int)
      returns (r: Result<GenerateResponse, HttpError>)
      requires Valid()
      modifies this
      ensures Valid()
      ensures id !in old(emails) ==> r == Err(NOT_FOUND) && emails == old(emails)
      ensures id in old(emails) ==>
        var draft := GenerateReply(old(emails)[id].subject, old(emails)[id].sentiment, modelText, parser, now);
        && r == Ok(GenerateResponse(draft, hits))
        && emails == old(emails)[id := WithDraft(old(emails)[id], hits, draft, now)]
    {
      if id !in emails {
        return Err(NOT_FOUND);
      }
      var email := emails[id];
      var draft := GenerateReply(email.subject, email.sentiment, modelText, parser, now);
      emails := emails[id := email.(retrievalHits := hits, draftReply := Some(draft), updatedAt := now)];
      var entry := AuditEntry(GENERATED, SYSTEM, draft.text, now);
      emails := emails[id := emails[id].(auditLog := emails[id].auditLog + [entry])];
      r := Ok(GenerateResponse(draft, hits));
    }

    /** `POST /emails/{id}/send`: 404 and no change for an unknown id;
        otherwise the email is resolved with a `sent` audit entry, whatever
        its status was. */
    method SendEmailReply(id: string, request: SendEmailRequest, now: int)
      returns (r: Result<SendResponse, HttpError>)
      requires Valid()
      modifies this
      ensures Valid()
      ensures id !in old(emails) ==> r == Err(NOT_FOUND) && emails == old(emails)
      ensures id in old(emails) ==>
        && r == Ok(SendResponse(SENT, request.Mode(), SendMessage(request.Mode())))
        && emails == old(emails)[id := MarkSent(old(emails)[id], request.finalText, now)]
    ensures id in old(emails) && request.sendMode.None? ==>
      r == Ok(SendResponse(SENT, "mock", "Email reply mock sent successfully"))
    {
      if id !in emails {
        return Err(NOT_FOUND);
      }
      var entry := AuditEntry(SENT, USER, request.finalText, now);
      emails := emails[id := emails[id].(status := RESOLVED, updatedAt := now, auditLog := emails[id].auditLog + [entry])];
      r := Ok(SendResponse(SENT, request.Mode(), SendMessage(request.Mode())));
    }

    /** `GET /analytics`. */
    function GetAnalytics(): (a: AnalyticsResponse)
      reads this
      ensures a == Analytics(emails)
    {
      Analytics(emails)
    }
  }
}
