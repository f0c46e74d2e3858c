/** The inbox screen of the client. Every handler is one atomic step: the
    outcome of each request it awaits is a parameter (`None` when the
    request raised), and the requests it issues are returned in order.
    `AppState` and the step functions state what each handler does; the
    class `App` holds the same state in mutable fields and its methods are
    proved to follow the step functions. */
module TriageApp {
  import opened Wrappers
  import opened Models
  import opened TriageRules
  import opened EmailStore

  /** A request the client sends to the server. */
  datatype Request =
    | ListEmails(query: ListQuery)
    | FetchAnalytics
    | IngestMock
    | EmailDetail(id: string)
    | GenerateDraft(id: string)
    | SendDraft(id: string, body: SendEmailRequest)

  /** The state of the screen. */
  datatype AppState = AppState(
    emails: seq<EmailSummary>,
    selectedEmail: Option<Email>,
    analytics: Option<AnalyticsResponse>,
    loading: bool,
    draftText: string)

  /** The state after a handler and the requests it issued. */
  datatype Step = Step(state: AppState, sent: seq<Request>)

  const INITIAL := AppState([], None, None, false, "")
  const MOCK_MODE := "mock"

  /** The list query: only the sort option, so the server's default status
      filter (pending) and limit (50) apply. */
  const EMAIL_LIST_QUERY := ListQuery(None, None, Some(PRIORITY_DESC))

  /** The list query asks for the 50 highest-priority pending emails. */
  lemma EmailListQueryDefaults()
    ensures EMAIL_LIST_QUERY.status.GetOr(DEFAULT_STATUS) == PENDING
    ensures EMAIL_LIST_QUERY.limit.GetOr(DEFAULT_LIMIT) == 50
    ensures EMAIL_LIST_QUERY.sort.GetOr(PRIORITY_DESC) == PRIORITY_DESC
  {
  }

  // ---------------------------------------------------------------------------
  // Handlers as steps

  /** `fetchEmails`: the list is replaced wholesale on success and kept on failure. */
  function FetchEmailsStep(s: AppState, list: Option<seq<EmailSummary>>): (t: Step)
    ensures t.sent == [ListEmails(EMAIL_LIST_QUERY)]
    ensures list.Some? ==> t.state == s.(emails := list.value)
    ensures list.None? ==> t.state == s
  {
    Step(if list.Some? then s.(emails := list.value) else s, [ListEmails(EMAIL_LIST_QUERY)])
  }

  /** `fetchAnalytics`: the analytics are replaced on success and kept on failure. */
  function FetchAnalyticsStep(s: AppState, analytics: Option<AnalyticsResponse>): (t: Step)
    ensures t.sent == [FetchAnalytics]
    ensures analytics.Some? ==> t.state == s.(analytics := analytics)
    ensures analytics.None? ==> t.state == s
  {
    Step(if analytics.Some? then s.(analytics := analytics) else s, [FetchAnalytics])
  }

  /** The mount effect: the list, then the analytics. */
  function MountStep(s: AppState, list: Option<seq<EmailSummary>>, analytics: Option<AnalyticsResponse>): (t: Step)
    ensures t.sent == [ListEmails(EMAIL_LIST_QUERY), FetchAnalytics]
    ensures t.state.emails == (if list.Some? then list.value else s.emails)
    ensures t.state.analytics == (if analytics.Some? then analytics else s.analytics)
    ensures t.state.(emails := s.emails, analytics := s.analytics) == s
  {
    var a := FetchEmailsStep(s, list);
    var b := FetchAnalyticsStep(a.state, analytics);
    Step(b.state, a.sent + b.sent)
  }

  /** `ingestMockEmails`: after a successful ingest the list and the
      analytics are refetched (a failed list fetch does not stop the
      analytics fetch); after a failed ingest neither changes. Loading ends
      false either way. */
  function IngestStep(s: AppState, ingested: bool, list: Option<seq<EmailSummary>>,
                      analytics: Option<AnalyticsResponse>): (t: Step)
    ensures !t.state.loading
    ensures !ingested ==> t.sent == [IngestMock] && t.state == s.(loading := false)
    ensures ingested ==> t.sent == [IngestMock, ListEmails(EMAIL_LIST_QUERY), FetchAnalytics]
    ensures ingested ==> t.state == MountStep(s, list, analytics).state.(loading := false)
    ensures t.state.selectedEmail == s.selectedEmail && t.state.draftText == s.draftText
  {
    var busy := s.(loading := true);
    if ingested then
      var refreshed := MountStep(busy, list, analytics);
      Step(refreshed.state.(loading := false), [IngestMock] + refreshed.sent)
    else
      Step(busy.(loading := false), [IngestMock])
  }

  /** The text the editor shows for an email: its draft, or empty. */
  function DraftTextOf(e: Email): (text: string)
    ensures e.draftReply.Some? ==> text == e.draftReply.value.text
    ensures e.draftReply.None? ==> text == ""
  {
    match e.draftReply
    case Some(d) => d.text
    case None => ""
  }

  /** `selectEmail`: on success the detail is selected and the editor shows
      its draft (or nothing); on failure nothing changes. Loading is not
      touched. */
  function SelectEmailStep(s: AppState, id: string, detail: Option<Email>): (t: Step)
    ensures t.sent == [EmailDetail(id)]
    ensures t.state.loading == s.loading && t.state.emails == s.emails && t.state.analytics == s.analytics
    ensures detail.Some? ==> t.state.selectedEmail == detail && t.state.draftText == DraftTextOf(detail.value)
    ensures detail.None? ==> t.state == s
  {
    match detail
    case Some(e) => Step(s.(selectedEmail := Some(e), draftText := DraftTextOf(e)), [EmailDetail(id)])
    case None => Step(s, [EmailDetail(id)])
  }

  /** `generateReply`: nothing at all without a selection; otherwise on
      success only the draft and the retrieval hits of the selection change
      and the editor shows the new draft, discarding edits; on failure only
      loading changes. Loading ends false. */
  function GenerateReplyStep(s: AppState, response: Option<GenerateResponse>): (t: Step)
    ensures s.selectedEmail.None? ==> t == Step(s, [])
    ensures s.selectedEmail.Some? ==>
      && t.sent == [GenerateDraft(s.selectedEmail.value.id)]
      && !t.state.loading
      && t.state.emails == s.emails && t.state.analytics == s.analytics
    ensures s.selectedEmail.Some? && response.Some? ==>
      && t.state.selectedEmail.Some?
      && t.state.selectedEmail.value.draftReply == Some(response.value.draftReply)
      && t.state.selectedEmail.value.retrievalHits == response.value.retrievalHits
      && t.state.selectedEmail.value.(draftReply := s.selectedEmail.value.draftReply,
                                       retrievalHits := s.selectedEmail.value.retrievalHits) == s.selectedEmail.value
      && t.state.draftText == response.value.draftReply.text
    ensures s.selectedEmail.Some? && response.None? ==> t.state == s.(loading := false)
  {
    match s.selectedEmail
    case None => Step(s, [])
    case Some(selected) =>
      var busy := s.(loading := true);
      var after := match response
        case Some(g) =>
          busy.(selectedEmail := Some(selected.(draftReply := Some(g.draftReply), retrievalHits := g.retrievalHits)),
                draftText := g.draftReply.text)
        case None => busy;
      Step(after.(loading := false), [GenerateDraft(selected.id)])
  }

  /** `sendReply`: nothing at all without a selection or with an empty
      draft; otherwise the draft is sent in mock mode, and on success the
      list and analytics are refetched and then the selection is marked
      resolved with every other field kept. Loading ends false. */
  function SendReplyStep(s: AppState, sentOk: bool, list: Option<seq<EmailSummary>>,
                         analytics: Option<AnalyticsResponse>): (t: Step)
    ensures s.selectedEmail.None? || s.draftText == "" ==> t == Step(s, [])
    ensures s.selectedEmail.Some? && s.draftText != "" ==>
      var request := SendDraft(s.selectedEmail.value.id, SendEmailRequest(s.draftText, Some(MOCK_MODE)));
      && !t.state.loading
      && t.state.draftText == s.draftText
      && (!sentOk ==> t.sent == [request] && t.state == s.(loading := false))
      && (sentOk ==> t.sent == [request, ListEmails(EMAIL_LIST_QUERY), FetchAnalytics])
      && (sentOk ==> t.state.selectedEmail == Some(s.selectedEmail.value.(status := RESOLVED)))
      && (sentOk ==> t.state.emails == MountStep(s, list, analytics).state.emails)
      && (sentOk ==> t.state.analytics == MountStep(s, list, analytics).state.analytics)
  {
    if s.selectedEmail.None? || s.draftText == "" then Step(s, [])
    else
      var selected := s.selectedEmail.value;
      var busy := s.(loading := true);
      var request := SendDraft(selected.id, SendEmailRequest(s.draftText, Some(MOCK_MODE)));
      if sentOk then
        var refreshed := MountStep(busy, list, analytics);
        Step(refreshed.state.(selectedEmail := Some(selected.(status := RESOLVED)), loading := false),
             [request] + refreshed.sent)
      else
        Step(busy.(loading := false), [request])
  }

  /** Typing in the editor changes only the draft text. */
  function EditDraftStep(s: AppState, text: string): (t: AppState)
    ensures t.draftText == text
    ensures t.(draftText := s.draftText) == s
  {
    s.(draftText := text)
  }

  // ---------------------------------------------------------------------------
  // Rendering rules

  /** The Send button is shown only for a selection that has a draft. */
  predicate SendButtonShown(s: AppState) {
    s.selectedEmail.Some? && s.selectedEmail.value.draftReply.Some?
  }

  /** The Send button is enabled only when not loading, with a non-empty
      draft, for a selection that is not resolved. */
  predicate SendButtonEnabled(s: AppState)
    requires SendButtonShown(s)
  {
    !s.loading && s.draftText != "" && s.selectedEmail.value.status != RESOLVED
  }

  datatype Badge = High | Med | Low {
    function Text(): string {
      match this
      case High => "HIGH"
      case Med => "MED"
      case Low => "LOW"
    }
    function Level(): nat {
      match this
      case High => 2
      case Med => 1
      case Low => 0
    }
  }

  /** `getPriorityBadge` on a score in thousandths: HIGH from 0.7, MED from 0.4. */
  function PriorityBadge(score: nat): (b: Badge)
    ensures b == High <==> score >= 700
    ensures b == Med <==> 400 <= score < 700
    ensures b == Low <==> score < 400
  {
    if score >= 700 then High else if score >= 400 then Med else Low
  }

  // ---------------------------------------------------------------------------
  // Properties

  /** A higher score never gets a lower badge. */
  lemma BadgeMonotone(a: nat, b: nat)
    requires a <= b
    ensures PriorityBadge(a).Level() <= PriorityBadge(b).Level()
  {
  }

  /** A HIGH badge on a computed score means an urgency keyword was found,
      and an urgent email is never LOW. */
  lemma BadgeAndUrgency(e: ScoredFields, vipList: set<string>)
    ensures PriorityBadge(ComputePriorityScore(e, vipList).score) == High ==> IsUrgent(e.subject, e.body)
    ensures IsUrgent(e.subject, e.body) ==> PriorityBadge(ComputePriorityScore(e, vipList).score) != Low
  {
  }

  /** Generating twice keeps only the second draft, and edits made in
      between are discarded. */
  lemma GenerateDiscardsEdits(s: AppState, g1: GenerateResponse, text: string, g2: GenerateResponse)
    requires s.selectedEmail.Some?
    ensures var t := GenerateReplyStep(EditDraftStep(GenerateReplyStep(s, Some(g1)).state, text), Some(g2)).state;
      && t.draftText == g2.draftReply.text
      && t.selectedEmail.Some? && t.selectedEmail.value.draftReply == Some(g2.draftReply)
  {
  }

  /** The handler's own guard asks only for a selection and a non-empty
      draft, so every click on an enabled Send button issues the send, and
      so does a call on a resolved selection: the resolved status is checked
      by the button alone. */
  lemma SendGuard(s: AppState, sentOk: bool, list: Option<seq<EmailSummary>>, analytics: Option<AnalyticsResponse>)
    ensures var sent := SendReplyStep(s, sentOk, list, analytics).sent;
      sent != [] <==> s.selectedEmail.Some? && s.draftText != ""
    ensures SendButtonShown(s) && SendButtonEnabled(s) ==> SendReplyStep(s, sentOk, list, analytics).sent != []
    ensures SendButtonShown(s) && s.selectedEmail.value.status == RESOLVED && s.draftText != "" ==>
      !SendButtonEnabled(s) && SendReplyStep(s, sentOk, list, analytics).sent != []
  {
  }

  /** After a successful send the Send button of the selection is disabled. */
  lemma SendDisablesButton(s: AppState, list: Option<seq<EmailSummary>>, analytics: Option<AnalyticsResponse>)
    requires s.selectedEmail.Some? && s.draftText != ""
    ensures var t := SendReplyStep(s, true, list, analytics).state;
      SendButtonShown(t) ==> !SendButtonEnabled(t)
  {
  }

  /** When the send succeeds at the server and the refetched list is the
      server's answer to the list query over the updated store, the sent
      email is no longer in the client's list. */
  lemma SentEmailLeavesList(s: AppState, store: map<string, Email>, now: int,
                            list: seq<EmailSummary>, analytics: Option<AnalyticsResponse>)
    requires s.selectedEmail.Some? && s.draftText != ""
    requires s.selectedEmail.value.id in store
    requires IsEmailsAnswer(store[s.selectedEmail.value.id := MarkSent(store[s.selectedEmail.value.id], s.draftText, now)],
                            EMAIL_LIST_QUERY.status.GetOr(DEFAULT_STATUS), EMAIL_LIST_QUERY.limit.GetOr(DEFAULT_LIMIT),
                            EMAIL_LIST_QUERY.sort.GetOr(PRIORITY_DESC), list)
    ensures var t := SendReplyStep(s, true, Some(list), analytics).state;
      forall i :: 0 <= i < |t.emails| ==> t.emails[i].id != s.selectedEmail.value.id
  {
    EmailListQueryDefaults();
    SentEmailNotListed(store, s.selectedEmail.value.id, s.draftText, now, 50, PRIORITY_DESC, list);
  }

  // ---------------------------------------------------------------------------
  // The component

  class App {
    var emails: seq<EmailSummary>
    var selectedEmail: Option<Email>
    var analytics: Option<AnalyticsResponse>
    var loading: bool
    var draftText: string

    function State(): AppState
      reads this
    {
      AppState(emails, selectedEmail, analytics, loading, draftText)
    }

    constructor ()
      ensures State() == INITIAL
    {
      emails, selectedEmail, analytics, loading, draftText := [], None, None, false, "";
    }

    method FetchEmails(list: Option<seq<EmailSummary>>) returns (sent: seq<Request>)
      modifies this
      ensures State() == FetchEmailsStep(old(State()), list).state
      ensures sent == FetchEmailsStep(old(State()), list).sent
    {
      sent := [ListEmails(EMAIL_LIST_QUERY)];
      if list.Some? {
        emails := list.value;
      }
    }

    method FetchAnalytics(response: Option<AnalyticsResponse>) returns (sent: seq<Request>)
      modifies this
      ensures State() == FetchAnalyticsStep(old(State()), response).state
      ensures sent == FetchAnalyticsStep(old(State()), response).sent
    {
      sent := [Request.FetchAnalytics];
      if response.Some? {
        analytics := response;
      }
    }

    method Mount(list: Option<seq<EmailSummary>>, response: Option<AnalyticsResponse>) returns (sent: seq<Request>)
      modifies this
      ensures State() == MountStep(old(State()), list, response).state
      ensures sent == MountStep(old(State()), list, response).sent
    {
      var first := FetchEmails(list);
      var second := FetchAnalytics(response);
      sent := first + second;
    }

    method IngestMockEmails(ingested: bool, list: Option<seq<EmailSummary>>, response: Option<AnalyticsResponse>)
      returns (sent: seq<Request>)
      modifies this
      ensures State() == IngestStep(old(State()), ingested, list, response).state
      ensures sent == IngestStep(old(State()), ingested, list, response).sent
    {
      loading := true;
      sent := [IngestMock];
      if ingested {
        var refreshed := Mount(list, response);
        sent := sent + refreshed;
      }
      loading := false;
    }

    method SelectEmail(id: string, detail: Option<Email>) returns (sent: seq<Request>)
      modifies this
      ensures State() == SelectEmailStep(old(State()), id, detail).state
      ensures sent == SelectEmailStep(old(State()), id, detail).sent
    {
      sent := [EmailDetail(id)];
      if detail.Some? {
        selectedEmail := detail;
        draftText := DraftTextOf(detail.value);
      }
    }

    method GenerateReply(response: Option<GenerateResponse>) returns (sent: seq<Request>)
      modifies this
      ensures State() == GenerateReplyStep(old(State()), response).state
      ensures sent == GenerateReplyStep(old(State()), response).sent
    {
      if selectedEmail.None? {
        return [];
      }
      var selected := selectedEmail.value;
      loading := true;
      sent := [GenerateDraft(selected.id)];
      if response.Some? {
        var g := response.value;
        selectedEmail := Some(selected.(draftReply := Some(g.draftReply), retrievalHits := g.retrievalHits));
        draftText := g.draftReply.text;
      }
      loading := false;
    }

    method SendReply(sentOk: bool, list: Option<seq<EmailSummary>>, response: Option<AnalyticsResponse>)
      returns (sent: seq<Request>)
      modifies this
      ensures State() == SendReplyStep(old(State()), sentOk, list, response).state
      ensures sent == SendReplyStep(old(State()), sentOk, list, response).sent
    {
      if selectedEmail.None? || draftText == "" {
        return [];
      }
      var selected := selectedEmail.value;
      loading := true;
      sent := [SendDraft(selected.id, SendEmailRequest(draftText, Some(MOCK_MODE)))];
      if sentOk {
        var refreshed := Mount(list, response);
        sent := sent + refreshed;
        selectedEmail := Some(selected.(status := RESOLVED));
      }
      loading := false;
    }

    method EditDraft(text: string)
      modifies this
      ensures State() == EditDraftStep(old(State()), text)
    {
      draftText := text;
    }
  }
}
