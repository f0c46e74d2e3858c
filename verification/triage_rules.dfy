/** The pure triage rules of the server: priority score and rationale,
    sentiment labels, cleaning of model output, truncation and the
    fallback reply and extraction. Calls to the language model are not
    modelled: their text (or their failure, `None`) is a parameter, and
    so is the JSON decoder applied to that text, as the finite map from
    the texts it accepts to the values it yields. */
module TriageRules {
  import opened Wrappers
  import opened Text
  import opened Models

  // ---------------------------------------------------------------------------
  // Keyword search

  /** Python's `any(k in text for k in keywords)`. */
  function AnyKeywordIn(keywords: seq<string>, text: string): (r: bool)
    ensures r <==> exists k :: k in keywords && Contains(text, k)
  {
    if keywords == [] then false
    else
      var rest := AnyKeywordIn(keywords[1..], text);
      assert forall k :: k in keywords <==> k == keywords[0] || k in keywords[1..];
      assert Contains(text, keywords[0]) ==> keywords[0] in keywords;
      Contains(text, keywords[0]) || rest
  }

  /** No string occurs twice in the list. */
  predicate Distinct(ks: seq<string>) {
    forall i, j :: 0 <= i < j < |ks| ==> ks[i] != ks[j]
  }

  /** The position of the first occurrence of `k` in `ks`. */
  function FirstIndex(ks: seq<string>, k: string): (i: nat)
    requires k in ks
    ensures i < |ks| && ks[i] == k
    ensures forall j :: 0 <= j < i ==> ks[j] != k
  {
    if ks[0] == k then 0 else 1 + FirstIndex(ks[1..], k)
  }

  /** Python's `[k for k in keywords if k in text]`: the keywords that occur,
      and, for a list without repeats, each once and in the list's order. */
  function KeywordsIn(keywords: seq<string>, text: string): (r: seq<string>)
    ensures |r| <= |keywords|
    ensures forall k :: k in r <==> k in keywords && Contains(text, k)
    ensures Distinct(keywords) ==>
      forall i, j :: 0 <= i < j < |r| ==> FirstIndex(keywords, r[i]) < FirstIndex(keywords, r[j])
  {
    if keywords == [] then []
    else
      var rest := KeywordsIn(keywords[1..], text);
      var head := if Contains(text, keywords[0]) then [keywords[0]] else [];
      assert Distinct(keywords) ==> Distinct(keywords[1..]);
      assert Distinct(keywords) ==> forall k :: k in rest ==> k != keywords[0] && FirstIndex(keywords, k) == 1 + FirstIndex(keywords[1..], k);
      head + rest
  }

  // ---------------------------------------------------------------------------
  // Priority score

  const URGENCY_KEYWORDS: seq<string> :=
    ["immediately", "urgent", "asap", "cannot", "can't", "critical", "now", "blocked", "down", "emergency", "help"]

  /** Weights in thousandths: 0.6, 0.25, 0.1, 0.05. */
  const W_URGENCY: nat := 600
  const W_SENTIMENT: nat := 250
  const W_RECENCY: nat := 100
  const W_VIP: nat := 50

  /** Sentiment factors in halves; a label outside the map counts 0.5. */
  const SENTIMENT_FACTORS: map<string, nat> := map[NEGATIVE := 2, NEUTRAL := 1, POSITIVE := 0]

  /** The fields of an email the score reads; `ageHours` is the time since
      receipt, in hours, at the moment of scoring. */
  datatype ScoredFields = ScoredFields(sender: string, subject: string, body: string, sentiment: string, ageHours: real)

  /** A score in thousandths with the reasons that contributed to it. */
  datatype Priority = Priority(score: nat, rationale: seq<Reason>)

  /** Some urgency keyword occurs in the lower-cased subject or body. */
  predicate IsUrgent(subject: string, body: string): (urgent: bool)
    ensures urgent <==> exists k :: k in URGENCY_KEYWORDS && (Contains(Lower(subject), k) || Contains(Lower(body), k))
  {
    AnyKeywordIn(URGENCY_KEYWORDS, Lower(subject)) || AnyKeywordIn(URGENCY_KEYWORDS, Lower(body))
  }

  /** The sentiment factor in halves: 1.0 for Negative, 0.0 for Positive,
      and 0.5 for Neutral and for any label outside the map. */
  function SentimentFactor(sentiment: string): (f: nat)
    ensures IsFactor(f)
    ensures f == 2 <==> sentiment == NEGATIVE
    ensures f == 0 <==> sentiment == POSITIVE
    ensures f == 1 <==> sentiment != NEGATIVE && sentiment != POSITIVE
  {
    if sentiment in SENTIMENT_FACTORS then SENTIMENT_FACTORS[sentiment] else 1
  }

  /** 1.0 within the first hour, 0.5 within the first day, then 0.0. */
  function RecencyFactor(ageHours: real): (f: nat)
    ensures IsFactor(f)
    ensures f == 2 <==> ageHours <= 1.0
    ensures f == 1 <==> 1.0 < ageHours <= 24.0
    ensures f == 0 <==> ageHours > 24.0
  {
    if ageHours <= 1.0 then 2 else if ageHours <= 24.0 then 1 else 0
  }

  /** A factor of 0.0, 0.5 or 1.0, counted in halves (0, 1, 2). */
  predicate IsFactor(f: nat) {
    f <= 2
  }

  /** 0.6 urgency + 0.25 sentiment + 0.1 recency + 0.05 vip, in thousandths.
      Every weight is even in thousandths, so half of it is exact and so is
      the score: rounding to three decimals changes nothing. */
  function WeightedScore(urgency: nat, sentiment: nat, recency: nat, vip: nat): (score: nat)
    requires IsFactor(urgency) && IsFactor(sentiment) && IsFactor(recency) && IsFactor(vip)
    ensures score <= 1000
    ensures urgency == 2 ==> score >= 600
    ensures urgency == 0 ==> score <= 400
  {
    (W_URGENCY / 2) * urgency + (W_SENTIMENT / 2) * sentiment + (W_RECENCY / 2) * recency + (W_VIP / 2) * vip
  }

  /** The rationale list: each reason exactly when its condition holds, in a fixed order. */
  function Rationale(urgent: bool, negative: bool, recent: bool, vip: bool): (rs: seq<Reason>)
    ensures UrgencyKeywords in rs <==> urgent
    ensures NegativeSentiment in rs <==> negative
    ensures RecentEmail in rs <==> recent
    ensures VipSender in rs <==> vip
    ensures forall i, j :: 0 <= i < j < |rs| ==> rs[i].Rank() < rs[j].Rank()
  {
    (if urgent then [UrgencyKeywords] else []) +
    (if negative then [NegativeSentiment] else []) +
    (if recent then [RecentEmail] else []) +
    (if vip then [VipSender] else [])
  }

  /** `compute_priority_score`: the weighted score, exact to the thousandth
      (so rounding to three decimals changes nothing), and the rationale. */
  function ComputePriorityScore(e: ScoredFields, vipList: set<string>): (p: Priority)
    ensures p.score <= 1000
    ensures p.score == (if IsUrgent(e.subject, e.body) then W_URGENCY else 0)
                     + (W_SENTIMENT / 2) * SentimentFactor(e.sentiment)
                     + (W_RECENCY / 2) * RecencyFactor(e.ageHours)
                     + (if e.sender in vipList then W_VIP else 0)
    ensures IsUrgent(e.subject, e.body) <==> p.score >= 600
    ensures UrgencyKeywords in p.rationale <==> IsUrgent(e.subject, e.body)
    ensures NegativeSentiment in p.rationale <==> e.sentiment == NEGATIVE
    ensures RecentEmail in p.rationale <==> e.ageHours <= 24.0
    ensures VipSender in p.rationale <==> e.sender in vipList
    ensures forall i, j :: 0 <= i < j < |p.rationale| ==> p.rationale[i].Rank() < p.rationale[j].Rank()
  {
    var urgency := if IsUrgent(e.subject, e.body) then 2 else 0;
    var sentiment := SentimentFactor(e.sentiment);
    var recency := RecencyFactor(e.ageHours);
    var vip := if e.sender in vipList then 2 else 0;
    Priority(WeightedScore(urgency, sentiment, recency, vip),
             Rationale(urgency > 0, sentiment > 1, recency > 0, vip > 0))
  }

  // ---------------------------------------------------------------------------
  // Sentiment

  const NEGATIVE_WORDS: seq<string> := ["angry", "frustrated", "terrible", "awful", "hate", "disappointed", "complaint"]
  const POSITIVE_WORDS: seq<string> := ["great", "excellent", "love", "amazing", "wonderful", "perfect", "thank"]

  /** The label check applied to the model's one-word answer. */
  function NormalizeSentiment(reply: string): (sentiment: string)
    ensures IsSentimentLabel(sentiment)
    ensures IsSentimentLabel(Strip(reply)) ==> sentiment == Strip(reply)
    ensures !IsSentimentLabel(Strip(reply)) ==> sentiment == NEUTRAL
  {
    var answer := Strip(reply);
    if IsSentimentLabel(answer) then answer else NEUTRAL
  }

  /** Normalising a label that was already normalised gives it back. */
  lemma NormalizeSentimentIdempotent(reply: string)
    ensures NormalizeSentiment(NormalizeSentiment(reply)) == NormalizeSentiment(reply)
  {
    LabelUnpadded(NormalizeSentiment(reply));
  }

  /** The labels carry no surrounding whitespace, so stripping keeps them. */
  lemma LabelUnpadded(l: string)
    requires IsSentimentLabel(l)
    ensures Strip(l) == l
  {
    assert l[0] in "PN" && l[|l| - 1] in "el";
    StripUnpadded(l);
  }

  /** The keyword fallback used when the model call fails: a negative word
      wins over any positive word. */
  function KeywordSentiment(body: string): (sentiment: string)
    ensures IsSentimentLabel(sentiment)
    ensures sentiment == NEGATIVE <==> exists w :: w in NEGATIVE_WORDS && Contains(Lower(body), w)
    ensures sentiment == POSITIVE <==>
      (forall w :: w in NEGATIVE_WORDS ==> !Contains(Lower(body), w)) &&
      (exists w :: w in POSITIVE_WORDS && Contains(Lower(body), w))
  {
    var text := Lower(body);
    if AnyKeywordIn(NEGATIVE_WORDS, text) then NEGATIVE
    else if AnyKeywordIn(POSITIVE_WORDS, text) then POSITIVE
    else NEUTRAL
  }

  /** `analyze_sentiment`: `modelAnswer` is the model's text, `None` when the call failed. */
  function AnalyzeSentiment(body: string, modelAnswer: Option<string>): (sentiment: string)
    ensures IsSentimentLabel(sentiment)
    ensures modelAnswer.Some? ==> sentiment == NormalizeSentiment(modelAnswer.value)
    ensures modelAnswer.None? ==> sentiment == KeywordSentiment(body)
  {
    match modelAnswer
    case Some(answer) => NormalizeSentiment(answer)
    case None => KeywordSentiment(body)
  }

  // ---------------------------------------------------------------------------
  // Cleaning of model output

  const JSON_FENCE := "```json"
  const FENCE := "```"

  /** A text that opens with the JSON fence cannot end in a fence unless it
      is at least ten characters long: the two markers never overlap. */
  lemma FencesDoNotOverlap(text: string)
    requires JSON_FENCE <= text && EndsWith(text, FENCE)
    ensures |text| >= |JSON_FENCE| + |FENCE|
  {
    var n := |text|;
    assert forall i :: 0 <= i < |JSON_FENCE| ==> text[i] == JSON_FENCE[i];
    assert text[n - 3] == FENCE[0];
    if n < 10 {
      assert false;
    }
  }

  /** Removes an opening "```json" and then a closing "```". The result is
      the slice of the text that starts after the opening fence (when there
      is one) and stops before the closing fence (when there is one). */
  function StripFence(text: string): (r: string)
    ensures var lead := if JSON_FENCE <= text then |JSON_FENCE| else 0;
            && lead + |r| <= |text|
            && r == text[lead..lead + |r|]
            && |text| - lead - |r| == (if EndsWith(text, FENCE) then |FENCE| else 0)
    ensures !(JSON_FENCE <= text) && !EndsWith(text, FENCE) ==> r == text
  {
    var rest := if JSON_FENCE <= text then text[|JSON_FENCE|..] else text;
    assert EndsWith(rest, FENCE) <==> EndsWith(text, FENCE) by {
      if JSON_FENCE <= text && EndsWith(text, FENCE) {
        FencesDoNotOverlap(text);
        assert rest[|rest| - 3..] == text[|text| - 3..];
      }
      if JSON_FENCE <= text && EndsWith(rest, FENCE) {
        assert rest[|rest| - 3..] == text[|text| - 3..];
      }
    }
    if EndsWith(rest, FENCE) then rest[..|rest| - |FENCE|] else rest
  }

  /** Wrapping a payload in the JSON fence and stripping it gives the payload back. */
  lemma {:induction false} StripFenceRoundTrip(payload: string)
    ensures StripFence(JSON_FENCE + payload + FENCE) == payload
  {
    var text := JSON_FENCE + payload + FENCE;
    assert JSON_FENCE <= text;
    assert text[|text| - 3..] == FENCE;
    assert text[7..7 + |payload|] == payload;
  }

  /** What the server decodes: the stripped model text without its fence. */
  function CleanModelOutput(raw: string): string {
    StripFence(Strip(raw))
  }

  /** The model's answer after cleaning and decoding: `None` when the call
      failed or the decoder rejects the cleaned text. */
  function DecodeAnswer<T>(parser: map<string, T>, modelText: Option<string>): (r: Option<T>)
    ensures r.Some? <==> modelText.Some? && CleanModelOutput(modelText.value) in parser
    ensures r.Some? ==> r.value == parser[CleanModelOutput(modelText.value)]
  {
    if modelText.Some? && CleanModelOutput(modelText.value) in parser then
      Some(parser[CleanModelOutput(modelText.value)])
    else None
  }

  // ---------------------------------------------------------------------------
  // Truncation

  /** `s[:n] + "..." if len(s) > n else s`. */
  function Truncate(s: string, n: nat): (r: string)
    ensures |r| <= n + 3
    ensures |s| <= n ==> r == s
    ensures |s| > n ==> |r| == n + 3 && r[..n] == s[..n] && r[n..] == "..."
  {
    if |s| > n then s[..n] + "..." else s
  }

  /** The list preview of an email body. */
  function Preview(body: string): (r: string)
    ensures |body| <= 100 ==> r == body
    ensures |body| > 100 ==> r == body[..100] + "..."
    ensures |r| <= 103
  {
    Truncate(body, 100)
  }

  /** The snippet of a knowledge-base passage in a retrieval hit. */
  function Snippet(content: string): (r: string)
    ensures |content| <= 150 ==> r == content
    ensures |content| > 150 ==> r == content[..150] + "..."
    ensures |r| <= 153
  {
    Truncate(content, 150)
  }

  // ---------------------------------------------------------------------------
  // Draft replies

  const APOLOGY := "I understand your frustration, and I sincerely apologize for any inconvenience. "
  const FALLBACK_HEAD := "Thank you for reaching out to us. I've received your inquiry regarding "
  const FALLBACK_TAIL := " and will ensure it gets the proper attention it deserves. Our team will review the details and provide a comprehensive response shortly."
  const DEFAULT_REPLY_TEXT := "Thank you for contacting us. We'll review your inquiry and respond soon."
  const DEFAULT_CONFIDENCE: real := 0.7
  const FALLBACK_CONFIDENCE: real := 0.5

  /** The fields of the model's JSON reply, each absent when the key is missing. */
  datatype ReplyFields = ReplyFields(replyText: Option<string>, sourcesUsed: Option<seq<string>>, confidence: Option<real>)

  /** The reply used when generation fails: the apology first when the email
      is Negative, otherwise the thanks first; the quoted subject; no
      sources; confidence 0.5. */
  function FallbackDraft(subject: string, sentiment: string, now: int): (d: DraftReply)
    ensures sentiment == NEGATIVE ==> APOLOGY <= d.text
    ensures sentiment != NEGATIVE ==> FALLBACK_HEAD <= d.text
    ensures Contains(d.text, "'" + subject + "'")
    ensures d.sourcesUsed == [] && d.confidence == FALLBACK_CONFIDENCE && d.generatedAt == now
  {
    var lead := if sentiment == NEGATIVE then APOLOGY else "";
    var quoted := "'" + subject + "'";
    var text := lead + FALLBACK_HEAD + quoted + FALLBACK_TAIL;
    ContainsInfix(lead + FALLBACK_HEAD, quoted, FALLBACK_TAIL);
    DraftReply(text, [], FALLBACK_CONFIDENCE, now)
  }

  /** `generate_reply`: `modelText` is the model's answer (`None` when the
      call failed) and `parser` stands for `json.loads` followed by the
      field conversion (a text is absent when either raises). Missing keys
      take their defaults; any failure gives the fallback draft. */
  function GenerateReply(subject: string, sentiment: string, modelText: Option<string>,
                         parser: map<string, ReplyFields>, now: int): (d: DraftReply)
    ensures d.generatedAt == now
    ensures DecodeAnswer(parser, modelText).None? ==> d == FallbackDraft(subject, sentiment, now)
    ensures DecodeAnswer(parser, modelText).Some? ==>
      var f := DecodeAnswer(parser, modelText).value;
      && d.text == f.replyText.GetOr(DEFAULT_REPLY_TEXT)
      && d.sourcesUsed == f.sourcesUsed.GetOr([])
      && d.confidence == f.confidence.GetOr(DEFAULT_CONFIDENCE)
  {
    match DecodeAnswer(parser, modelText)
    case None => FallbackDraft(subject, sentiment, now)
    case Some(f) =>
      DraftReply(f.replyText.GetOr(DEFAULT_REPLY_TEXT), f.sourcesUsed.GetOr([]),
                 f.confidence.GetOr(DEFAULT_CONFIDENCE), now)
  }

  // ---------------------------------------------------------------------------
  // Extraction

  const FALLBACK_URGENCY_KEYWORDS: seq<string> := ["immediately", "urgent", "asap", "critical", "now", "blocked", "down"]
  const MANUAL_REVIEW_ACTION := "Customer inquiry - needs manual review"

  /** The results of the three regular-expression searches of the fallback. */
  datatype RegexMatches = RegexMatches(phone: Option<string>, altEmail: Option<string>, orderId: Option<string>)

  /** `extract_email_info`: the decoded model answer, or on any failure the
      regular-expression matches, the manual-review action and the
      fallback urgency keywords found in the lower-cased body. */
  function ExtractEmailInfo(body: string, modelText: Option<string>,
                            parser: map<string, Extracted>, regex: RegexMatches): (x: Extracted)
    ensures DecodeAnswer(parser, modelText).Some? ==> x == DecodeAnswer(parser, modelText).value
    ensures DecodeAnswer(parser, modelText).None? ==>
      && x.phone == regex.phone && x.altEmail == regex.altEmail && x.orderId == regex.orderId
      && x.requestedAction == Some(MANUAL_REVIEW_ACTION)
      && (forall k :: k in x.urgencyKeywords <==> k in FALLBACK_URGENCY_KEYWORDS && Contains(Lower(body), k))
      && (forall i, j :: 0 <= i < j < |x.urgencyKeywords| ==>
            FirstIndex(FALLBACK_URGENCY_KEYWORDS, x.urgencyKeywords[i]) < FirstIndex(FALLBACK_URGENCY_KEYWORDS, x.urgencyKeywords[j]))
  {
    assert Distinct(FALLBACK_URGENCY_KEYWORDS);
    match DecodeAnswer(parser, modelText)
    case Some(fields) => fields
    case None =>
      Extracted(regex.phone, regex.altEmail, regex.orderId, Some(MANUAL_REVIEW_ACTION),
                KeywordsIn(FALLBACK_URGENCY_KEYWORDS, Lower(body)))
  }
}
