# Smart communication assistant: a Dafny model of the triage core

This project models the support-email triage assistant: a FastAPI server that
ingests sample support emails, scores their priority, labels their sentiment,
extracts structured fields, drafts replies and records sends, plus the React
inbox screen and knowledge-base manager that drive it.

- `wrappers.dfy`: `Option` and `Result`.
- `text.dfy`: the Python string operations the server relies on (`strip`,
  `lower`, substring `in`, `endswith`).
- `models.dfy`: the server's records (`Email`, `EmailSummary`, `DraftReply`,
  `AuditEntry`, the request and response bodies) and the status and
  sentiment labels.
- `triage_rules.dfy`: the pure rules of `backend/server.py`. These are the
  priority score and rationale, sentiment normalisation and its keyword
  fallback, cleaning of model output, truncation, and the fallback reply and
  extraction.
- `email_store.dfy`: the email collection as a class over a map from id to
  email, with one method per HTTP handler. Each handler is specified by
  predicates and functions, and the lemmas relate the handlers to each other.
- `triage_app.dfy`: the inbox screen of `frontend/src/App.js`. Step functions
  over `AppState` specify each handler. The class `App` keeps the same state
  in fields, and its methods are proved to follow the step functions.
- `knowledge_base.dfy`: `frontend/src/components/KnowledgeBase.js`, built the
  same way with step functions and the class `Manager`.

Conventions:

- Priority scores are integers in thousandths. Every weight is even in
  thousandths and every factor is 0, 0.5 or 1, so the score is exact and
  rounding to three decimals changes nothing. The client's badge thresholds
  0.7 and 0.4 become 700 and 400.
- Clock readings are integer parameters. The age of an email when it is
  scored is a real parameter in hours.
- Each call to the language model is an `Option<string>` parameter, with
  `None` when the call raised.
- `json.loads` followed by the record conversion is a finite map from the
  texts it accepts to the values it yields.
- Each client handler is one atomic step. The outcome of every request it
  awaits is a parameter (`None` or `false` when the request raised). The
  requests it issues are returned in order.
- A cursor `limit` follows the database driver: 0 means no limit, and a
  negative limit counts as its absolute value.

About the client's behaviour:

- The client keeps a single list of emails, the pending ones, which it
  re-fetches after an ingest and after a send.
- After a send it does not re-fetch the email's detail. `sendReply`
  patches the status of its local copy to resolved.
- Overlapping calls are not rejected. The only guard is the shared
  `loading` flag, which disables buttons.
- The send handler checks only for a selection and a non-empty draft. The
  resolved status is checked only by the button's `disabled` rule.

## Model

| member | source | states |
|---|---|---|
| Text.Contains | backend/server.py:137 | Python's substring test: true exactly when the key occurs at some position |
| Text.StripUnpadded | backend/server.py:235 | stripping a text that neither starts nor ends with whitespace gives it back |
| Text.Strip | backend/server.py:192 | Python's `strip()`: leading and trailing whitespace removed, by the whitespace set Python uses |
| Text.LowerChar | backend/server.py:134-135 | ASCII capitals become lower-case letters, the Kelvin sign becomes k, every other character is kept |
| Text.Lower | backend/server.py:134-135 | the lower-cased text has the same length and is lower-cased character by character |
| Text.KelvinSignLowersToK | backend/server.py:134-135 | for every text, a Kelvin sign in it lower-cases exactly as the letter K in its place would |
| TriageRules.AnyKeywordIn | backend/server.py:137 | true exactly when some keyword of the list occurs in the text |
| TriageRules.IsUrgent | backend/server.py:134-137 | urgent exactly when some urgency keyword occurs in the lower-cased subject or the lower-cased body |
| TriageRules.KeywordsIn | backend/server.py:209 | the keywords found are exactly the listed ones that occur in the text; for a list without repeats each appears once and in the list's order |
| TriageRules.SentimentFactor | backend/server.py:139-140 | 1.0 exactly for Negative, 0.0 exactly for Positive, 0.5 for Neutral and for every unknown label |
| TriageRules.RecencyFactor | backend/server.py:147-148 | 1.0 exactly within the first hour, 0.5 exactly after one and within 24 hours, 0.0 exactly after 24 hours |
| TriageRules.WeightedScore | backend/server.py:152-154 | the weighted score is at most 1.0; full urgency guarantees at least 0.6; no urgency caps it at 0.4 |
| TriageRules.Rationale | backend/server.py:156-164 | each reason is listed exactly when its condition holds, in the fixed order urgency, sentiment, recency, vip |
| TriageRules.ComputePriorityScore | backend/server.py:131-166 | the score is 0.6 for urgency plus 0.25 times the sentiment factor plus 0.1 times the recency factor plus 0.05 for a vip sender, exact in thousandths and at most 1.0; at least 0.6 exactly when an urgency keyword occurs in the lower-cased subject or body; each rationale entry present exactly when its factor is positive, in order |
| TriageRules.NormalizeSentiment | backend/server.py:235-238 | always a label; the stripped answer when it is a label, Neutral otherwise |
| TriageRules.NormalizeSentimentIdempotent | backend/server.py:235-238 | normalising an already normalised answer changes nothing |
| TriageRules.KeywordSentiment | backend/server.py:243-251 | Negative exactly when a negative word occurs; Positive exactly when no negative and some positive word occurs; always a label |
| TriageRules.AnalyzeSentiment | backend/server.py:220-251 | always a label; the normalised model answer when the call succeeds, the keyword fallback when it fails |
| TriageRules.FencesDoNotOverlap | backend/server.py:193-196 | a text that opens with the JSON fence and ends with a fence is at least ten characters long |
| TriageRules.StripFence | backend/server.py:193-196 | the result is the slice between an optional leading JSON fence and an optional trailing fence; a text with neither comes back unchanged |
| TriageRules.StripFenceRoundTrip | backend/server.py:193-196 | wrapping a payload in the JSON fence and stripping it yields the payload |
| TriageRules.DecodeAnswer | backend/server.py:192-198 | an answer exactly when the call succeeded and the decoder accepts the stripped, unfenced text, and then the decoded value |
| TriageRules.CleanModelOutput | backend/server.py:192-196 | the model text stripped of whitespace and then of its code fences |
| TriageRules.Truncate | backend/server.py:429 | texts within the bound are unchanged; longer ones keep their first n characters followed by "..." |
| TriageRules.Preview | backend/server.py:429 | a body of at most 100 characters is its own preview; every longer body becomes its first 100 characters plus "..." |
| TriageRules.Snippet | backend/server.py:267 | a passage of at most 150 characters is its own snippet; every longer passage becomes its first 150 characters plus "..." |
| TriageRules.FallbackDraft | backend/server.py:322-332 | the apology leads exactly for Negative emails, otherwise the thanks; the quoted subject occurs; no sources; confidence 0.5 |
| TriageRules.GenerateReply | backend/server.py:274-332 | a decoded answer gives its fields with the defaults for missing keys; any failure gives the fallback draft |
| TriageRules.ExtractEmailInfo | backend/server.py:169-217 | a decoded answer is returned as is; any failure gives the regex matches, the manual-review action and exactly the fallback urgency keywords found in the lower-cased body, once each and in the list's order |
| EmailStore.MockEmail | backend/server.py:382-402 | the stored email carries the sample's fields, the fresh id, the extraction and sentiment rules' results on the body, the score and rationale the priority rule gives for them with no vip list, status pending, no draft, no hits, an empty audit log and the ingest time |
| EmailStore.MockEmails | backend/server.py:382-402 | one email per sample, in order |
| EmailStore.LimitCount | backend/server.py:425 | limit 0 lets every document through; otherwise at most the absolute limit, and fewer only when fewer exist |
| EmailStore.Summarize | backend/server.py:428-439 | the summary copies id, sender, subject, sentiment, score, status and date, and its preview is the body's preview |
| EmailStore.InsertByKey | backend/server.py:422-425 | inserting keeps a list sorted in descending key order and the result is a permutation of the old list plus the new email |
| EmailStore.InsertKeepsIdsDistinct | backend/server.py:422-425 | inserting an email whose id is new keeps the ids distinct |
| EmailStore.IsEmailsAnswer | backend/server.py:410-441 | the listing's promise: at most the limit, summaries of stored matching emails, no email twice, descending order, and omitted matches rank no higher than a full page |
| EmailStore.PageIsAnswer | backend/server.py:425-441 | the summaries of the first page of a filtered, descending find result meet every promise of the listing, including that any omitted matching email ranks no higher than a full page |
| EmailStore.WithDraft | backend/server.py:469-490 | a generate sets the draft, hits and update time and appends one system "generated" audit entry, changing nothing else |
| EmailStore.MarkSent | backend/server.py:504-520 | a send sets status resolved and the update time and appends one user "sent" audit entry, changing nothing else |
| EmailStore.SendMovesToResolved | backend/server.py:511-533 | sending a pending email lowers the pending count by one and raises the resolved count by one |
| EmailStore.SentEmailNotListed | backend/server.py:411-441 | after a send, no listing of pending emails contains the sent email |
| EmailStore.SendMessage | backend/server.py:522-526 | the message says "sent" for the real mode and "mock sent" for every other mode |
| EmailStore.Breakdown | backend/server.py:536-540 | one entry per occurring sentiment label, with the number of emails carrying it |
| EmailStore.BreakdownSum | backend/server.py:536-540 | the sentiment counts add up to the number of stored emails |
| EmailStore.Analytics | backend/server.py:529-555 | the total is the number of emails; the pending and resolved counts are the sizes of those status groups and together at most the total; the breakdown has exactly the occurring labels, each with the number of emails carrying it, and sums to the total |
| EmailStore.EmailCollection.IngestMockEmails | backend/server.py:380-408 | one new email per sample under its fresh id, built as the ingest rules say; existing emails untouched; the count returned is the number of samples |
| EmailStore.EmailCollection.IngestSampleEmails | backend/server.py:339-408 | the mock-ingest route adds exactly the five built-in samples and reports 5 |
| EmailStore.EmailCollection.InsertAll | backend/server.py:405-406 | every email is inserted under its id, the old entries are kept, and the count equals the number inserted |
| EmailStore.EmailCollection.FindSorted | backend/server.py:417-425 | the result holds exactly the stored emails that pass the filter, each once, in descending order of the sort field |
| EmailStore.EmailCollection.GetEmails | backend/server.py:410-441 | with the defaults pending, 50 and priority_desc applied, the answer meets every promise of the listing |
| EmailStore.EmailCollection.GetEmailDetail | backend/server.py:443-453 | the stored email exactly when the id is stored, otherwise the 404 "Email not found" error |
| EmailStore.EmailCollection.GenerateEmailReply | backend/server.py:455-495 | 404 and no change for an unknown id; otherwise the stored email gets the draft from the reply rules and the hits, and the answer returns both |
| Models.SendEmailRequest.Mode | backend/server.py:119-121 | a request that leaves `send_mode` out is handled in mode "mock"; a given mode is kept |
| EmailStore.EmailCollection.SendEmailReply | backend/server.py:497-526 | 404 and no change for an unknown id; otherwise the email is marked sent with the final text and the answer echoes the mode, which is "mock" when the request leaves it out |
| EmailStore.EmailCollection.GetAnalytics | backend/server.py:528-555 | the analytics of the current collection |
| TriageApp.EmailListQueryDefaults | frontend/src/App.js:23 | the client's list query asks for the 50 highest-priority pending emails |
| TriageApp.FetchEmailsStep | frontend/src/App.js:21-28 | on success the list is replaced wholesale, on failure nothing changes; one list request |
| TriageApp.FetchAnalyticsStep | frontend/src/App.js:30-37 | on success the analytics are replaced, on failure nothing changes; one analytics request |
| TriageApp.MountStep | frontend/src/App.js:16-19 | mounting fetches the list then the analytics, changing nothing else |
| TriageApp.IngestStep | frontend/src/App.js:39-49 | a failed ingest changes nothing but loading; a successful one refetches the list and analytics; loading ends false; selection and draft untouched |
| TriageApp.DraftTextOf | frontend/src/App.js:56 | the editor shows the email's draft text, or nothing when it has no draft |
| TriageApp.SelectEmailStep | frontend/src/App.js:51-59 | on success the detail is selected with its draft in the editor; on failure nothing changes; loading untouched |
| TriageApp.GenerateReplyStep | frontend/src/App.js:61-76 | no selection: no request and no change; success replaces only the draft and hits of the selection and shows the new draft; failure changes only loading; loading ends false |
| TriageApp.SendReplyStep | frontend/src/App.js:78-93 | no selection or empty draft: no request and no change; success refetches and then marks the selection resolved with every other field kept; failure changes only loading; loading ends false |
| TriageApp.EditDraftStep | frontend/src/App.js:324 | typing changes only the draft text |
| TriageApp.SendButtonShown | frontend/src/App.js:329 | the Send button is shown only for a selection that has a draft |
| TriageApp.SendButtonEnabled | frontend/src/App.js:337-339 | the Send button is enabled only when not loading, with a non-empty draft, for a selection that is not resolved |
| TriageApp.SendGuard | frontend/src/App.js:78-79 | the handler sends exactly when there is a selection and a non-empty draft, so an enabled button always sends, and a resolved selection is kept from sending only by the button rule |
| TriageApp.PriorityBadge | frontend/src/App.js:95-99 | HIGH exactly from 0.7, MED exactly in [0.4, 0.7), LOW exactly below 0.4 |
| TriageApp.BadgeMonotone | frontend/src/App.js:95-99 | a higher score never gets a lower badge |
| TriageApp.BadgeAndUrgency | frontend/src/App.js:95-99 | a HIGH badge on a computed score implies an urgency keyword, and an urgent email is never LOW |
| TriageApp.GenerateDiscardsEdits | frontend/src/App.js:68-73 | generating, editing and generating again leaves the second draft in the editor and on the selection |
| TriageApp.SendDisablesButton | frontend/src/App.js:337-339 | after a successful send the Send button is disabled |
| TriageApp.SentEmailLeavesList | frontend/src/App.js:85-87 | when the refetched list is the server's answer after the send, the sent email is no longer in the client's list |
| TriageApp.App.constructor | frontend/src/App.js:9-14 | empty list, no selection, no analytics, not loading, empty draft |
| TriageApp.App.FetchEmails | frontend/src/App.js:21-28 | follows the list fetch step |
| TriageApp.App.FetchAnalytics | frontend/src/App.js:30-37 | follows the analytics fetch step |
| TriageApp.App.Mount | frontend/src/App.js:16-19 | follows the mount step |
| TriageApp.App.IngestMockEmails | frontend/src/App.js:39-49 | follows the ingest step |
| TriageApp.App.SelectEmail | frontend/src/App.js:51-59 | follows the select step |
| TriageApp.App.GenerateReply | frontend/src/App.js:61-76 | follows the generate step |
| TriageApp.App.SendReply | frontend/src/App.js:78-93 | follows the send step |
| TriageApp.App.EditDraft | frontend/src/App.js:324 | follows the edit step |
| KnowledgeBase.FetchStep | frontend/src/components/KnowledgeBase.js:21-51 | the items become the answer, or exactly the three seed items when the request fails; nothing else changes; loading ends false |
| KnowledgeBase.SaveRequest | frontend/src/components/KnowledgeBase.js:56-62 | an update exactly when the item has a non-empty id, otherwise a create, carrying the item |
| KnowledgeBase.HasId | frontend/src/components/KnowledgeBase.js:56 | an id counts only when it is present and non-empty, as JavaScript truthiness has it |
| KnowledgeBase.SaveStep | frontend/src/components/KnowledgeBase.js:53-71 | success refetches and clears the editor, the add form and the form data; failure changes only loading; loading ends false |
| KnowledgeBase.DeleteStep | frontend/src/components/KnowledgeBase.js:73-84 | unconfirmed: no request and no change; confirmed: the delete is sent and a successful one refetches; loading ends false |
| KnowledgeBase.CategoryColor | frontend/src/components/KnowledgeBase.js:86-95 | the colour of a known category; the inherited member for a name of the object prototype, such as constructor or toString; the general colour for any other category |
| KnowledgeBase.FormStart | frontend/src/components/KnowledgeBase.js:98-100 | an edit form starts from the item; an add form starts blank, without an id, in the general category |
| KnowledgeBase.SaveEnabled | frontend/src/components/KnowledgeBase.js:151 | the item form's Save button is enabled only when the title and the content are both non-empty |
| KnowledgeBase.SaveThenFailedFetch | frontend/src/components/KnowledgeBase.js:63 | a save whose refetch fails leaves exactly the seed list |
| KnowledgeBase.FormCategoriesColoured | frontend/src/components/KnowledgeBase.js:122-132 | every category the item form offers gets a colour of its own |
| KnowledgeBase.FormDispatch | frontend/src/components/KnowledgeBase.js:97-151 | a blank add form cannot be saved; however its fields are edited, a form saves as an update exactly when it was opened on an item with an id |
| KnowledgeBase.FetchIdempotent | frontend/src/components/KnowledgeBase.js:21-51 | fetching twice with the same outcome is the same as fetching once |
| KnowledgeBase.Manager.constructor | frontend/src/components/KnowledgeBase.js:7-15 | no items, not loading, no editor, no add form, blank form data |
| KnowledgeBase.Manager.FetchKnowledgeBase | frontend/src/components/KnowledgeBase.js:21-51 | follows the fetch step |
| KnowledgeBase.Manager.HandleSave | frontend/src/components/KnowledgeBase.js:53-71 | follows the save step |
| KnowledgeBase.Manager.HandleDelete | frontend/src/components/KnowledgeBase.js:73-84 | follows the delete step |
| KnowledgeBase.Manager.StartEditing | frontend/src/components/KnowledgeBase.js:229 | only the item being edited changes |
| KnowledgeBase.Manager.CancelEditing | frontend/src/components/KnowledgeBase.js:213 | only the item being edited is cleared |
| KnowledgeBase.Manager.SetShowAddForm | frontend/src/components/KnowledgeBase.js:189 | only the add-form flag changes |

## Left out

- The language-model calls are not modelled. Their text, or their failure, is a parameter of the functions that use it.
- Text embedding, the vector index, `build_knowledge_base` and `retrieve_relevant_docs` are not modelled: they work on floating-point vectors and opaque libraries. Retrieval hits are a parameter of the generate handler, and only the snippet truncation is modelled.
- The fallback regular-expression searches are not modelled. Their matches are a parameter.
- `avg_priority` in the analytics is not modelled, because it is a floating-point average with rounding. The modelled response omits it.
- The database is an in-memory map from id to email. Its I/O, the `_id` field and the concurrency of the async driver are not modelled.
- The clock and `uuid4` are not modelled. Times are parameters, and ingest takes the fresh ids as a parameter and requires them to be distinct and unused.
- EmailStore.MockEmail: one clock reading stands for all of them. The server reads the clock separately for each sample's receipt date, and again for the creation and update times after the model calls. Readings taken one after another never decrease but can be equal, and the database keeps dates only to the millisecond, so the receipt dates of one ingest mostly tie at the server as they do in the model; the model does not capture the rare case where they differ.
- EmailStore.WithDraft, EmailStore.EmailCollection.GenerateEmailReply: one clock reading `now` stands for the draft's generation time, the email's update time and the audit entry's time, which the server reads separately.
- EmailStore.MarkSent, EmailStore.EmailCollection.SendEmailReply: one clock reading `now` stands for the update time and the audit entry's time, which the server reads separately.
- Text.Lower: only ASCII capitals and the Kelvin sign are lower-cased. Other non-ASCII capitals keep their case, and U+0130 is not expanded to `i` plus a combining dot as Python does. Only these two characters lower to ASCII letters, and no keyword ends in `i`, so the keyword matches of the triage rules are unaffected. The lower-cased text itself still differs from Python's for such characters.
- EmailStore.EmailCollection.GetEmails: when several emails share a sort key, the database may order them in any way. The contract therefore fixes the order only up to ties.
- Framework setup is not modelled: routing, CORS, logging, environment loading, the shutdown hook and the root status route.
- React rendering is not modelled: markup, CSS classes, the tab switch (`activeTab`), the spinner, `getSentimentColor` and the text fields inside `ItemForm`. The Send-button rules and the item form's start and save-enable rule are modelled.
- `window.confirm` is a boolean parameter of the delete handler.
- The interleaving of concurrent handlers is not modelled. Each handler is one atomic step that reads the state as it was when it was invoked.
- The knowledge-base endpoints the client calls are not defined by the server, so each request to them is only a success or a failure.
