/** The records the triage server stores and returns (the pydantic models of
    backend/server.py). Clock readings are opaque integers; floating-point
    fields the model only passes through (confidence, retrieval score) are reals. */
module Models {
  import opened Wrappers

  /** Fields pulled out of an email body. */
  datatype Extracted = Extracted(
    phone: Option<string>,
    altEmail: Option<string>,
    orderId: Option<string>,
    requestedAction: Option<string>,
    urgencyKeywords: seq<string>)

  /** One knowledge-base passage judged relevant to an email. */
  datatype RetrievalHit = RetrievalHit(docId: string, title: string, snippet: string, score: real)

  /** A machine-generated candidate reply. */
  datatype DraftReply = DraftReply(text: string, sourcesUsed: seq<string>, confidence: real, generatedAt: int)

  /** One entry of an email's audit trail (`event` is generated|edited|sent, `actor` is the `by` field: user|system). */
  datatype AuditEntry = AuditEntry(event: string, actor: string, text: string, timestamp: int)

  /** The reasons recorded beside a priority score, in the order they are listed. */
  datatype Reason = UrgencyKeywords | NegativeSentiment | RecentEmail | VipSender {
    /** The label stored in `priority_rationale`. */
    function Label(): string {
      match this
      case UrgencyKeywords => "urgency_keywords"
      case NegativeSentiment => "negative_sentiment"
      case RecentEmail => "recent_email"
      case VipSender => "vip_sender"
    }

    /** Position in the fixed order in which the reasons are appended. */
    function Rank(): nat {
      match this
      case UrgencyKeywords => 0
      case NegativeSentiment => 1
      case RecentEmail => 2
      case VipSender => 3
    }
  }

  /** A stored email document. `priorityScore` is in thousandths (0..1000). */
  datatype Email = Email(
    id: string,
    sender: string,
    senderName: string,
    subject: string,
    body: string,
    dateReceived: int,
    rawHtml: Option<string>,
    extracted: Extracted,
    sentiment: string,
    priorityScore: nat,
    priorityRationale: seq<Reason>,
    retrievalHits: seq<RetrievalHit>,
    draftReply: Option<DraftReply>,
    auditLog: seq<AuditEntry>,
    status: string,
    createdAt: int,
    updatedAt: int)

  /** The list view of an email returned by `GET /emails`. */
  datatype EmailSummary = EmailSummary(
    id: string,
    sender: string,
    subject: string,
    sentiment: string,
    priorityScore: nat,
    status: string,
    preview: string,
    dateReceived: int)

  /** The send mode of a request that leaves `send_mode` out. */
  const DEFAULT_SEND_MODE := "mock"

  /** Body of `POST /emails/{id}/send`; `sendMode` is `None` when the field
      is left out of the request. */
  datatype SendEmailRequest = SendEmailRequest(finalText: string, sendMode: Option<string>) {
    /** The mode the handler sees once the default is filled in. */
    function Mode(): (m: string)
      ensures sendMode.None? ==> m == DEFAULT_SEND_MODE
      ensures sendMode.Some? ==> m == sendMode.value
    {
      sendMode.GetOr(DEFAULT_SEND_MODE)
    }
  }

  /** Body of the answer to a successful send. */
  datatype SendResponse = SendResponse(status: string, mode: string, message: string)

  /** Body of the answer to a successful generate. */
  datatype GenerateResponse = GenerateResponse(draftReply: DraftReply, retrievalHits: seq<RetrievalHit>)

  /** Body of `GET /analytics` (without the floating-point average). */
  datatype AnalyticsResponse = AnalyticsResponse(
    totalEmails: nat,
    pendingCount: nat,
    resolvedCount: nat,
    sentimentBreakdown: map<string, nat>)

  /** An HTTP error answer. */
  datatype HttpError = HttpError(statusCode: nat, detail: string)

  const PENDING := "pending"
  const ESCALATED := "escalated"
  const RESOLVED := "resolved"

  const POSITIVE := "Positive"
  const NEUTRAL := "Neutral"
  const NEGATIVE := "Negative"

  /** One of the three sentiment labels the server stores. */
  predicate IsSentimentLabel(s: string) {
    s == POSITIVE || s == NEUTRAL || s == NEGATIVE
  }
}
