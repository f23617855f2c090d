# Dermatology portal: a verified Dafny model

This project models the decision logic of a dermatology portal. Patients
upload photos of a skin lesion with a description of their symptoms. A
generative model gives a first reading of the image. Doctors review the
pending cases, and a patient can also ask a keyword-driven health assistant
questions. The model covers nine parts:

- **The `skin-diagnosis` edge function** (`SkinDiagnosis`, pure). It covers:
  - the CORS preflight, the image and API-key checks;
  - removal of the `data:image/<kind>;base64,` header;
  - the user prompt;
  - extraction of the JSON text from the model's reply: the fenced `json` block, else the outermost braces, else the whole reply;
  - per-field defaulting with JavaScript falsiness;
  - the fixed fallback used when parsing fails;
  - the error statuses.

  The HTTP call to the model and `JSON.parse` are function parameters.
- **The health assistant** (`HealthAssistant`, mixed). It covers:
  - the first-match keyword cascade over the lower-cased question, shown to be an ordered rule table with a mandatory default;
  - the chat panel as a class whose message list only grows, with the greeting first. A bubble is the greeting, a user question or an assistant answer; `Content` gives its text and `Sender` its side;
  - the blank-input guard;
  - the delayed reply.
- **The diagnosis service** (`DiagnosisService`, imperative). The storage bucket and the `diagnosis_records` table are a `Backend` class. Its parts:
  - the upload loop;
  - record creation and its error order: upload, then login, then insert;
  - the doctor's update, which merges fields and has no status guard;
  - the two newest-first listings.
- **The patient list** (`PatientManagement`, pure). It covers:
  - per-patient counts, the last visit and the risk escalation;
  - the fallbacks of `loadPatients`;
  - the case-insensitive name search;
  - the summary cards.
- **The doctor's review panel** (`DoctorReview`, imperative). It covers:
  - case selection;
  - notes validation;
  - the submitting state and its timed completion;
  - the urgency and risk badges.
- **The patient's upload form** (`DiagnosisUpload`, imperative). It covers:
  - file selection;
  - the progress loop;
  - the fixed analysis result and the save through the service.
- **The dashboard** (`Dashboard`, mixed). It covers:
  - the role derived from the profile;
  - the sidebar entries;
  - the tab body rendered for the active tab.
- **The registration form** (`RegisterForm`, mixed). It covers:
  - single-field updates;
  - the browser's own validation, which decides whether `onSubmit` fires at all;
  - the order of the submit checks;
  - the simulated registration.
- **The sign-in form** (`LoginForm`, mixed). It covers the browser's validation of the submit and the name and role derived from the email.

`Records` holds the record and status types of `src/types/database.ts`.
`Text` holds the JavaScript string operations the code relies on: `\s`,
`trim`, `toLowerCase`, `includes`, `indexOf`, `lastIndexOf` and `substring`.
`Wrappers` holds `Option` and `Result`. `Sequences` holds the subsequence
relation and the fact that sequences with the same multiset hold the same elements.

**Timers.** Every `setTimeout` callback is a separate method: `DeliverReply`,
`FinishReview`, `Complete` and `CompleteRegistration`. The values a callback
captures wait in a FIFO field of the class (`awaiting`, `scheduled`), so the
model keeps the stale-closure behaviour. For example, edits made while a
registration is pending do not reach the registered user.

**Where the code differs from what its own labels and comments suggest, the model follows the code:**

- `updateDiagnosis` has no "only from pending" guard. It also has no conditional update and no validation error for empty notes. It overwrites the status whatever the record's current status (`DiagnosisService.UpdateIgnoresCurrentStatus`).
- The upload form writes the AI result into `doctor_diagnosis` and `doctor_notes`, not into the `ai_*` columns. It sets no status, so the record stays pending (`DiagnosisUpload.SavedRecordStaysPending`).
- The upload form ignores the error the AI-result update returns: a rejected update still shows the success notice, and the record stays without the AI result (`DiagnosisUpload.Save`).
- The review panel works on built-in sample cases, and submitting a review never calls `updateDiagnosis`. No review reaches the table, so no record leaves pending through the interface (`DoctorReview.ReviewForm.SubmitReview`).
- The register and login forms hold link buttons with no `type` (the terms and privacy links, and "forgot password"). Inside a form these are submit buttons, and the first one is what Enter presses, so disabling the real submit button does not stop a submit. The register form therefore reaches its "accept the terms" check, and either form can be submitted again while loading, which schedules a second completion (`LoginForm.DoubleSignIn`).
- `createDiagnosis` does not reject an empty list of files: it inserts a record with no images.
- Images uploaded before a failing upload, or before a login failure, stay in the bucket.
- The edge function does not clamp `confidence` to 0..100: a truthy value is passed on unchanged, and 0 becomes 75 (`SkinDiagnosis.ConfidenceDefaulting`).

## Model

| member | source | states |
|---|---|---|
| Records.RiskFromText | src/types/database.ts:18 | a stored risk text reads back as a grade exactly when it is one of the three grade texts |
| Records.RiskTextRoundTrip | src/types/database.ts:18 | every risk grade survives being written out and read back |
| Text.TrimEmptyIffBlank | src/components/dashboard/HealthAssistant.tsx:31 | `trim()` gives the empty string exactly for strings made only of `\s` characters |
| Text.TrimSurrounded | supabase/functions/skin-diagnosis/index.ts:116 | trimming whitespace around a text that does not start or end with whitespace gives that text back |
| Text.LowerIdempotent | src/components/dashboard/HealthAssistant.tsx:58 | lower-casing twice is lower-casing once |
| Text.ContainsIff | src/components/dashboard/PatientManagement.tsx:139 | `includes` holds exactly when the pattern occurs at some position |
| Text.ContainsInConcat | src/components/auth/LoginForm.tsx:26 | a text containing the pattern still contains it with anything added before and after |
| SkinDiagnosis.Crash | supabase/functions/skin-diagnosis/index.ts:156-162 | an exception becomes status 500 carrying its message, or the generic message when that is empty |
| SkinDiagnosis.UserMessage | supabase/functions/skin-diagnosis/index.ts:53-55 | the prompt is the symptoms lead followed by the symptoms exactly when symptoms are given and non-empty, else the fixed no-symptom prompt |
| SkinDiagnosis.WordRunLength | supabase/functions/skin-diagnosis/index.ts:58 | the greedy `\w+` run: every character in it is a word character and the next one is not |
| SkinDiagnosis.StripDataUrlPrefix | supabase/functions/skin-diagnosis/index.ts:58 | the result is a suffix of the input, equal to it or obtained by removing one `data:image/<word>;base64,` header; text not starting with `data:image/` is unchanged |
| SkinDiagnosis.StripDataUrlRoundTrip | supabase/functions/skin-diagnosis/index.ts:58 | a well-formed data URL gives back exactly its payload |
| SkinDiagnosis.Prepare | supabase/functions/skin-diagnosis/index.ts:10-88 | OPTIONS gets the empty preflight answer; an unreadable body gives the crash answer with the thrown message; a missing or empty image gets 400 '请提供图片'; an image without an API key gets 500 'API密钥未配置'; the model is called exactly when the method is not OPTIONS, the body was read, and the image and API key are present; the call carries the stripped image, the chosen prompt and the system prompt; early replies are 200, 400 or 500 |
| SkinDiagnosis.MakeCall | supabase/functions/skin-diagnosis/index.ts:58-88 | the API key is appended to the endpoint URL; the image is sent without its data-URL header (a suffix of what the client sent), always labelled `image/jpeg`; the user prompt is `UserMessage` of the symptoms; temperature 0.3 and 1024 output tokens |
| SkinDiagnosis.FencePositions | supabase/functions/skin-diagnosis/index.ts:116-118 | a found fence is the first "```json" and the first "```" after it; when none is found, no opening fence is followed by closing ticks |
| SkinDiagnosis.FirstFenceUnique | supabase/functions/skin-diagnosis/index.ts:116 | the fenced block a reply holds is unique |
| SkinDiagnosis.BraceSpan | supabase/functions/skin-diagnosis/index.ts:121-124 | a found span runs from the first `{` to the last `}`, and the `}` comes later; when none is found, no `{` is followed by a `}` |
| SkinDiagnosis.ExtractJson | supabase/functions/skin-diagnosis/index.ts:115-125 | the trimmed inside of the first fenced block wins, else the brace span (which starts with `{` and ends with `}`), else the whole reply |
| SkinDiagnosis.FencedRoundTrip | supabase/functions/skin-diagnosis/index.ts:116-118 | a JSON text wrapped in a `json` fence on lines of its own is extracted unchanged |
| SkinDiagnosis.BareObjectRoundTrip | supabase/functions/skin-diagnosis/index.ts:121-124 | chatter around a bare object, free of fences and stray braces, is dropped |
| SkinDiagnosis.WithDefaults | supabase/functions/skin-diagnosis/index.ts:127-139 | each truthy field passes through unchanged; each falsy field becomes its default ('未知', 75, '中风险', ['分析完成'], ['建议咨询专业医生']); the review flag is set |
| SkinDiagnosis.Fallback | supabase/functions/skin-diagnosis/index.ts:140-153 | diagnosis '需要专业医生评估', confidence 70, risk '中风险', details = the fixed notice plus the reply's first 200 characters, the three fixed recommendations in order, review flag set |
| SkinDiagnosis.Interpret | supabase/functions/skin-diagnosis/index.ts:113-154 | a parse failure gives the fallback, and so does a parsed null or undefined, whose field read throws; a parsed non-null value gives the defaulted fields; either way the review flag is set |
| SkinDiagnosis.ConfidenceDefaulting | supabase/functions/skin-diagnosis/index.ts:132 | a parsed confidence of 0 is reported as 75; any other number is passed on unclamped |
| SkinDiagnosis.CandidateText | supabase/functions/skin-diagnosis/index.ts:99-102 | the optional chain yields a value exactly when the response data is not null or undefined; which value is stated by the three lemmas below |
| SkinDiagnosis.CandidateTextFound | supabase/functions/skin-diagnosis/index.ts:102 | for a response whose first candidate's content has a first part, the chain yields that part's `text` |
| SkinDiagnosis.CandidateTextMissing | supabase/functions/skin-diagnosis/index.ts:102 | a response without `candidates`, or with an empty list of them, yields `undefined` |
| SkinDiagnosis.CandidateTextNoParts | supabase/functions/skin-diagnosis/index.ts:102 | a first candidate whose content has no `parts` yields `undefined` |
| SkinDiagnosis.Finish | supabase/functions/skin-diagnosis/index.ts:90-162 | the status is 200 exactly for a diagnosis body, else 500; a rejected fetch and a failed `json()` give the crash answer with their message, and null or undefined data the crash answer with the TypeError's message; a non-ok upstream gives the service-unavailable error, or the crash answer when reading its error text throws; a falsy candidate text gives '未能获取分析结果'; a string text gives 200 with the interpreted result; a non-string text crashes to 500 |
| SkinDiagnosis.Handle | supabase/functions/skin-diagnosis/index.ts:8-163 | the answer is `Prepare`'s reply when it replies early; otherwise exactly `Prepare`'s call is made once and the answer is `Finish` of the model's reply; at most one model call; none for OPTIONS or a missing image; the call carries the stripped image; the status is 200, 400 or 500; a diagnosis body has status 200, follows a model call and asks for doctor review; the only other 200 is the preflight |
| HealthAssistant.FirstMatch | src/components/dashboard/HealthAssistant.tsx:60-90 | the reply is the default or some rule's reply; when a rule matches, the reply comes from a matching rule no later than it; with no match it is the default |
| HealthAssistant.FourRuleCascade | src/components/dashboard/HealthAssistant.tsx:60-90 | a four-rule table behaves as the four-way `if` cascade |
| HealthAssistant.FirstMatchStep | src/components/dashboard/HealthAssistant.tsx:60-90 | the head rule is tried before the rest of the table |
| HealthAssistant.GenerateResponseIsFirstMatch | src/components/dashboard/HealthAssistant.tsx:57-91 | `generateAIResponse` is the rule table skin, diet, exercise, sleep applied to the lower-cased input, with the generic reply as default |
| HealthAssistant.GenerateResponse | src/components/dashboard/HealthAssistant.tsx:57-91 | no contract of its own: `GenerateResponseIsFirstMatch`, `SkinTopicWins`, `DietTopicAfterSkin` and `ResponseIgnoresCase` state which reply it picks |
| HealthAssistant.LowerKeepsOccurrence | src/components/dashboard/HealthAssistant.tsx:58 | lower-casing keeps an occurrence of a keyword without capitals at the same position |
| HealthAssistant.LowerKeepsKeyword | src/components/dashboard/HealthAssistant.tsx:58 | lower-casing keeps every keyword without capitals the input contains |
| HealthAssistant.SkinTopicWins | src/components/dashboard/HealthAssistant.tsx:60-69 | any input containing a skin keyword gets the skin reply, whatever else it mentions |
| HealthAssistant.DietTopicAfterSkin | src/components/dashboard/HealthAssistant.tsx:60-79 | an input with a diet keyword gets the diet reply unless a skin keyword is also present |
| HealthAssistant.ResponseIgnoresCase | src/components/dashboard/HealthAssistant.tsx:58 | the reply to an input and to its lower-cased form are the same |
| HealthAssistant.Chat.constructor | src/components/dashboard/HealthAssistant.tsx:19-28 | the chat starts with the greeting alone, an empty input and no loading |
| HealthAssistant.Chat.Type | src/components/dashboard/HealthAssistant.tsx:193-195 | typing, possible only while no reply is loading, replaces the input and nothing else |
| HealthAssistant.Chat.Send | src/components/dashboard/HealthAssistant.tsx:30-55 | while a reply is loading (input box and button disabled) or with a blank input nothing changes; otherwise exactly one user question carrying the input is appended, the input is cleared, loading starts and the reply is scheduled with that text; the greeting stays first |
| HealthAssistant.Chat.DeliverReply | src/components/dashboard/HealthAssistant.tsx:45-54 | the timer appends exactly one assistant answer, the reply `generateAIResponse` chooses for the captured text, and ends loading |
| HealthAssistant.SendAndReply | src/components/dashboard/HealthAssistant.tsx:30-55 | from an idle panel, a non-blank send followed by its reply appends exactly the text and its reply and ends idle; a blank one appends nothing |
| DiagnosisService.Uploads | src/services/diagnosisService.ts:10-25 | the URLs are the upload results of the files in file order; the run stops at the first failure and reports that failure's error; there is no error exactly when every file uploads |
| DiagnosisService.UploadImages | src/services/diagnosisService.ts:10-25 | the loop's URLs and error are exactly those of `Uploads` |
| DiagnosisService.NewRecord | src/services/diagnosisService.ts:31-38 | the inserted row has the given id, the user as patient, the URLs, the symptoms and status pending; no AI diagnosis, confidence or risk grade; no doctor, doctor diagnosis or notes; created and updated at the given time |
| DiagnosisService.ApplyUpdate | src/services/diagnosisService.ts:81-90 | the supplied fields, the doctor and the update time are written; every other field is kept |
| DiagnosisService.Merge | src/services/diagnosisService.ts:81-88 | no contract of its own: a key present in the update object replaces the stored value and an absent one keeps it, as `ApplyUpdate` states field by field |
| DiagnosisService.UpdateNeverReopens | src/services/diagnosisService.ts:76 | after an update the record is pending exactly when it was pending and no status was given |
| DiagnosisService.UpdateIgnoresCurrentStatus | src/services/diagnosisService.ts:81-88 | with a status given, the result does not depend on the record's current status: there is no status guard |
| DiagnosisService.UpdateIdempotent | src/services/diagnosisService.ts:81-90 | repeating the same update at the same time changes nothing more |
| DiagnosisService.InsertByTime | src/services/diagnosisService.ts:53 | insertion into a newest-first list keeps it newest first, one longer, headed by the new record or the old head |
| DiagnosisService.InsertByTimeAddsOne | src/services/diagnosisService.ts:53 | insertion adds exactly the one record to the multiset of rows |
| DiagnosisService.SortNewestFirst | src/services/diagnosisService.ts:53 | the result is newest first and as long as the input |
| DiagnosisService.SortIsPermutation | src/services/diagnosisService.ts:53 | the sorted rows are a permutation of the input |
| DiagnosisService.PendingOnly | src/services/diagnosisService.ts:66 | exactly the pending records are kept, each as many times as in the input, in their original relative order |
| DiagnosisService.Backend.Rows | src/services/diagnosisService.ts:50-52 | the table's rows in insertion order |
| DiagnosisService.Backend.constructor | src/services/diagnosisService.ts:5 | an empty bucket and table |
| DiagnosisService.Backend.Insert | src/services/diagnosisService.ts:31-40 | one pending row under an id not yet in the table is added and appended to the insertion order; nothing else changes |
| DiagnosisService.Backend.CreateDiagnosis | src/services/diagnosisService.ts:7-46 | the bucket grows by the URLs of `Uploads`; the first upload error aborts with that error and no insert; then a missing login, then an insert rejection; success inserts one pending row with the user as patient, one URL per file and the given symptoms under a fresh id, and nothing else changes |
| DiagnosisService.Backend.UpdateDiagnosis | src/services/diagnosisService.ts:73-93 | without a login it fails (thrown) with no change; a missing id, or an update the backend rejects, fails with that error and no change; otherwise that row becomes the merged row and no other row changes |
| DiagnosisService.Backend.GetUserDiagnoses | src/services/diagnosisService.ts:49-56 | the rows newest first, a permutation of the table; on a query error no rows and that error |
| DiagnosisService.Backend.GetPendingDiagnoses | src/services/diagnosisService.ts:59-70 | exactly the pending rows, each as often as in the table, newest first; on a query error no rows and that error |
| DiagnosisService.CreatedRecordIsPending | src/services/diagnosisService.ts:7-70 | after successful uploads a created record has one URL per file, exactly the URLs the bucket gained, and appears in the pending listing |
| PatientManagement.CountPending | src/components/dashboard/PatientManagement.tsx:101 | the pending count is at most the number of records; it is 0 exactly when none is pending and equals the total exactly when all are |
| PatientManagement.MaxCreated | src/components/dashboard/PatientManagement.tsx:102-103 | the result is at least every record's creation time and equal to one of them |
| PatientManagement.LastVisit | src/components/dashboard/PatientManagement.tsx:102-104 | the latest record time, or the profile's creation time when there are no records |
| PatientManagement.Escalate | src/components/dashboard/PatientManagement.tsx:106-109 | high iff some record is high risk; medium iff none is high and some is medium; else low |
| PatientManagement.EscalateMonotone | src/components/dashboard/PatientManagement.tsx:106-109 | one more record never lowers the grade |
| PatientManagement.AvatarOrNone | src/components/dashboard/PatientManagement.tsx:91 | an empty or missing avatar URL counts as none; a non-empty one is kept |
| PatientManagement.StatsFor | src/components/dashboard/PatientManagement.tsx:78-123 | the profile's fields are copied, and pending never exceeds total; a failed query gives 0, 0, low risk and the profile time; otherwise the count, pending count, last visit and grade of the records |
| PatientManagement.RecordsOf | src/components/dashboard/PatientManagement.tsx:79-82 | exactly the records of the given patient, each as many times as in the table, in table order |
| PatientManagement.RecordsOfExtremes | src/components/dashboard/PatientManagement.tsx:79-82 | a table of only the patient's records comes back whole; a table with none of them gives nothing |
| PatientManagement.StatsCountOwnRecords | src/components/dashboard/PatientManagement.tsx:78-101 | a patient's counts never exceed those of the whole table; the total is the table's size when every record is the patient's, and 0 when none is |
| PatientManagement.OwnPendingBound | src/components/dashboard/PatientManagement.tsx:101 | one patient's pending count is at most the table's |
| PatientManagement.CountPendingAppend | src/components/dashboard/PatientManagement.tsx:101 | the pending count of a concatenation is the sum of the counts |
| PatientManagement.LoadPatients | src/components/dashboard/PatientManagement.tsx:50-136 | a failed roles or profiles query keeps the previous list; no patient ids empties it; otherwise one row per profile, in order, each computed from that patient's query |
| PatientManagement.FilterByName | src/components/dashboard/PatientManagement.tsx:138-140 | exactly the patients whose lower-cased name contains the lower-cased term are kept |
| PatientManagement.FilterIsSubsequence | src/components/dashboard/PatientManagement.tsx:138-140 | the filter keeps the list order |
| PatientManagement.EmptyTermKeepsAll | src/components/dashboard/PatientManagement.tsx:138-140 | an empty term keeps every patient |
| PatientManagement.TermCaseIgnored | src/components/dashboard/PatientManagement.tsx:139 | the term's case does not matter |
| PatientManagement.HighRiskCount | src/components/dashboard/PatientManagement.tsx:197 | the high-risk card is at most the number of patients, and 0 exactly when none is high risk |
| PatientManagement.SumPending | src/components/dashboard/PatientManagement.tsx:184 | the pending card is at least each patient's pending count, and 0 exactly when no patient has a pending record; `PendingWithinTotal` bounds it by the total card |
| PatientManagement.SumTotal | src/components/dashboard/PatientManagement.tsx:210 | the total card is at least each patient's record count, and 0 exactly when no patient has a record |
| PatientManagement.PendingWithinTotal | src/components/dashboard/PatientManagement.tsx:184-210 | the pending card never exceeds the total card when every row is consistent |
| PatientManagement.LoadKeepsConsistent | src/components/dashboard/PatientManagement.tsx:50-136 | every load keeps the rows consistent, so the pending sum stays within the total sum |
| DoctorReview.UrgencyBadge | src/components/dashboard/DoctorReview.tsx:74-85 | each known urgency gets its fixed badge; the neutral tone is used exactly for unknown values, which show themselves |
| DoctorReview.RiskBadge | src/components/dashboard/DoctorReview.tsx:87-98 | the badge text is the level itself; green, yellow and red exactly when the level is the stored text of the low, medium and high grade; secondary exactly for any other text |
| DoctorReview.SampleCasesHaveKnownBadges | src/components/dashboard/DoctorReview.tsx:28-98 | every sample case has a known urgency and risk grade |
| DoctorReview.Notice | src/components/dashboard/DoctorReview.tsx:122 | the notice names the confirm or modify decision |
| DoctorReview.ReviewForm.constructor | src/components/dashboard/DoctorReview.tsx:22-25 | no case selected, empty notes and diagnosis, not submitting |
| DoctorReview.ReviewForm.SelectCase | src/components/dashboard/DoctorReview.tsx:100-104 | the case is selected, the notes are cleared and the final diagnosis becomes the case's AI diagnosis |
| DoctorReview.ReviewForm.EditNotes | src/components/dashboard/DoctorReview.tsx:288-289 | only the notes change |
| DoctorReview.ReviewForm.ChooseDiagnosis | src/components/dashboard/DoctorReview.tsx:268 | only the final diagnosis changes |
| DoctorReview.ReviewForm.SubmitReview | src/components/dashboard/DoctorReview.tsx:106-118 | reachable only with a case selected, as the buttons are shown only then; while a review is submitting (both buttons disabled) or with blank notes nothing changes; otherwise submitting starts and the completion is scheduled with the decision |
| DoctorReview.ReviewForm.FinishReview | src/components/dashboard/DoctorReview.tsx:119-129 | the selection, notes and diagnosis are cleared and submitting ends whatever the decision; the decision only chooses the notice |
| DoctorReview.ReviewCase | src/components/dashboard/DoctorReview.tsx:100-129 | a whole review with non-blank notes ends with a cleared idle form and the decision's notice; with blank notes the form stays on the case |
| DiagnosisUpload.RiskBadgeColor | src/components/dashboard/DiagnosisUpload.tsx:116-123 | each grade text gets its colour; anything else gets grey |
| DiagnosisUpload.ProgressTraceIncreasing | src/components/dashboard/DiagnosisUpload.tsx:48-62 | the progress values increase strictly and end at 100 |
| DiagnosisUpload.UploadForm.constructor | src/components/dashboard/DiagnosisUpload.tsx:23-27 | no file, no result, empty symptoms, progress 0 |
| DiagnosisUpload.UploadForm.SelectFile | src/components/dashboard/DiagnosisUpload.tsx:29-35 | picking nothing changes nothing; picking a file selects it and clears the previous result |
| DiagnosisUpload.UploadForm.EditSymptoms | src/components/dashboard/DiagnosisUpload.tsx:171 | only the symptoms change |
| DiagnosisUpload.UploadForm.RunSteps | src/components/dashboard/DiagnosisUpload.tsx:51-62 | the bar takes the values 0, 20, 40, 60, 80, 100 in turn |
| DiagnosisUpload.Save | src/components/dashboard/DiagnosisUpload.tsx:88-113 | the record is created exactly when the upload and login succeed and the insert is accepted, and a failed create leaves the table unchanged; the bucket gains the file's URL exactly when its upload succeeds; the success notice shows exactly when the record is created and the update finds a login; the row is created at the first clock reading and, when updated, stamped with the second; the new row carries the AI result exactly when that update also goes through, so a rejected update still shows success |
| DiagnosisUpload.UploadForm.Analyze | src/components/dashboard/DiagnosisUpload.tsx:37-114 | without a file nothing changes, neither the form nor the backend; otherwise the bar runs to 100, the fixed result is shown and kept whether or not saving works; the table, the bucket and the notice then follow `Save` for `[file]` and the symptoms |
| DiagnosisUpload.SavedRecordStaysPending | src/components/dashboard/DiagnosisUpload.tsx:95-99 | the saved record stays pending, so it reaches the review queue |
| Dashboard.TabBodies | src/components/dashboard/Dashboard.tsx:215-231 | at most one body; upload shows the review panel to doctors and the upload form to patients; history and settings show their body to both; the assistant tab shows the assistant to a patient and nothing to a doctor, the patients tab the patient list to a doctor and nothing to a patient; an unknown tab shows nothing |
| Dashboard.RoleGatedBodies | src/components/dashboard/Dashboard.tsx:215-220 | a doctor never sees the assistant or upload form, and a patient never the patient list or review panel, whatever the tab |
| Dashboard.Nav | src/components/dashboard/Dashboard.tsx:80-125 | four entries; the assistant entry exactly for patients, the patients entry exactly for doctors |
| Dashboard.NavEntriesRender | src/components/dashboard/Dashboard.tsx:215-231 | every sidebar entry a role sees renders exactly one body |
| Dashboard.Render | src/components/dashboard/Dashboard.tsx:35-231 | the loading view exactly when there is no profile; otherwise the role badge, the role's sidebar and the active tab's body |
| Dashboard.IsDoctor | src/components/dashboard/Dashboard.tsx:35 | no contract of its own: a loaded profile with the doctor role, and nothing else (a missing profile is not a doctor); `Render` states which sidebar and tab bodies follow from it |
| Dashboard.DashboardState.constructor | src/components/dashboard/Dashboard.tsx:31 | the initial tab is upload |
| Dashboard.DashboardState.SelectTab | src/components/dashboard/Dashboard.tsx:84 | a click makes that tab active |
| Dashboard.Landing | src/components/dashboard/Dashboard.tsx:31-217 | right after sign-in a doctor sees the review panel and a patient the upload form |
| RegisterForm.SetField | src/components/auth/RegisterForm.tsx:66-68 | the named field takes the value and every other field is kept |
| RegisterForm.SetFieldSameValue | src/components/auth/RegisterForm.tsx:66-68 | writing a field's own value changes nothing |
| RegisterForm.SetFieldOverwrite | src/components/auth/RegisterForm.tsx:66-68 | the later write to a field wins |
| RegisterForm.SetFieldCommutes | src/components/auth/RegisterForm.tsx:66-68 | writes to different fields commute |
| RegisterForm.Check | src/components/auth/RegisterForm.tsx:26-42 | a password mismatch is reported first, regardless of the terms; then missing agreement; otherwise accepted |
| RegisterForm.Registered | src/components/auth/RegisterForm.tsx:47-56 | the registered user carries the form's name, email and role |
| RegisterForm.RegisterFormState.constructor | src/components/auth/RegisterForm.tsx:13-21 | the blank form with role patient, not agreed, not loading |
| RegisterForm.RegisterFormState.Edit | src/components/auth/RegisterForm.tsx:66-68 | the form becomes the single-field update; nothing else changes |
| RegisterForm.RegisterFormState.SetAgreed | src/components/auth/RegisterForm.tsx:170-171 | only the agreement changes |
| RegisterForm.RegisterFormState.Submit | src/components/auth/RegisterForm.tsx:23-47 | a submit the browser blocks (a required field empty, a malformed email) changes nothing; otherwise a failed check changes nothing and sets no loading, and a passed one starts loading and schedules the completion with the current form; the check is `Check` of the form and the agreement, so unticked terms reach the "accept the terms" notice; a submit while loading schedules a second completion |
| RegisterForm.RegisterFormState.Fires | src/components/auth/RegisterForm.tsx:79-179 | no contract of its own: the browser lets the form submit when every `required` field is filled and the email is well formed, whatever the submit button's state, since the type-less link buttons also submit; `Submit` states that nothing happens otherwise |
| RegisterForm.RegisterFormState.CompleteRegistration | src/components/auth/RegisterForm.tsx:47-63 | the completion hands over the captured form's user and ends loading |
| RegisterForm.EditWhileRegistering | src/components/auth/RegisterForm.tsx:23-68 | an edit made while registration is pending does not reach the registered user |
| LoginForm.NameOf | src/components/auth/LoginForm.tsx:25 | the name is a prefix of the email without '@', either the whole email or followed by its first '@' |
| LoginForm.NameOfAddress | src/components/auth/LoginForm.tsx:25 | the name is recovered from any address built on it |
| LoginForm.RoleOf | src/components/auth/LoginForm.tsx:26 | doctor exactly when the email contains "doctor", else patient |
| LoginForm.DoctorAnywhere | src/components/auth/LoginForm.tsx:26 | "doctor" anywhere in the address signs in as a doctor |
| LoginForm.DeriveUser | src/components/auth/LoginForm.tsx:23-30 | id 1, the email unchanged, the placeholder avatar, the name `NameOf` takes from before the '@' and the role `RoleOf` reads off the address |
| LoginForm.LoginFormState.constructor | src/components/auth/LoginForm.tsx:12-14 | empty fields, not loading |
| LoginForm.LoginFormState.EditEmail | src/components/auth/LoginForm.tsx:59 | only the email changes |
| LoginForm.LoginFormState.EditPassword | src/components/auth/LoginForm.tsx:74 | only the password changes |
| LoginForm.LoginFormState.Submit | src/components/auth/LoginForm.tsx:16-21 | a submit the browser blocks (a required field empty, a malformed email) changes nothing; otherwise loading starts and a completion is scheduled with the current email, behind any already pending |
| LoginForm.LoginFormState.Fires | src/components/auth/LoginForm.tsx:49-89 | no contract of its own: the browser lets the form submit when both `required` fields are filled and the email is well formed, whatever the submit button's state, since the type-less "forgot password" button also submits; `Submit` states that nothing happens otherwise |
| LoginForm.LoginFormState.Complete | src/components/auth/LoginForm.tsx:21-37 | the completion hands over the user derived from the captured email and ends loading |
| LoginForm.SignIn | src/components/auth/LoginForm.tsx:16-38 | one sign-in with a well-formed address and a password hands over exactly one user, with the typed email and the name before its '@' |
| LoginForm.DoubleSignIn | src/components/auth/LoginForm.tsx:16-38 | a second submit while the first is pending hands the same user to `onLogin` twice and ends idle |

## Left out

- Network and backend I/O are inputs: the model fetch, Supabase storage, `getPublicUrl`, `auth.getUser` and the table queries. Their outcomes are parameters (`gemini`, `upload`, `user`, `insertError`, `updateUser`, `updateError`, `queryError`, the query `Result`s). The update's own `getUser` is a separate input from the create's. The stored files themselves are not modelled.
- `JSON.parse` is an abstract partial function. The JSON grammar and the parsed value's own prototype properties are not modelled; a field read sees own keys only.
- SkinDiagnosis.Prepare: the model gives the request body's `imageBase64` and `symptoms` string types by choice; the code reads an untyped JSON body. Two behaviours are therefore not modelled: a truthy non-string `imageBase64` makes `.replace` throw, which ends in the 500 crash answer, and a non-string `symptoms` is converted to text inside the prompt. The exact text of the request body, the generation settings other than temperature and token limit, and the `console` logging are left out.
- NaN is not among the JavaScript values, so a NaN confidence, which is falsy, is not modelled.
- Text.Lower lower-cases ASCII letters only. Every keyword of the health assistant is Chinese or lower-case ASCII, so its replies are unaffected.
- PatientManagement.FilterByName: the name search lower-cases user-typed names and terms, which JavaScript does for all of Unicode. The model folds ASCII only, so a name "ÉMILE" matches the term "é" in the portal but not in the model; TermCaseIgnored holds for ASCII capitals only.
- Timestamps are integers. `Date.now()` in storage file names, `toISOString` and the ISO-string ordering of `created_at` are not modelled. The uploader parameter answers per file, so it cannot express the collision of two same-named files uploaded in the same millisecond (the storage name is the time followed by the file name), where the second upload fails after the first succeeded.
- Row-level security is a database policy. So `getUserDiagnoses` returns every row the backend holds, and the per-user filtering is not modelled.
- The `profiles(name)` join of `getPendingDiagnoses` is not modelled.
- The order of rows with equal `created_at` is left open by the listing contracts.
- DiagnosisService.performAIDiagnosis is not modelled: it returns a fixed value after a delay and nothing calls it.
- Only a single outstanding timer per form is followed in order. The interleaving of several in-flight async calls, the `mounted` flags and the React re-render timing are not modelled.
- Toasts, icons, styling, JSX layout, the message ids and timestamps of chat bubbles, and the Enter-key handler of the chat input are presentation only.
- In PatientManagement, the selected-patient dialog, `getStatusIcon`, the page's own risk badge colours and the loading spinner are presentation only.
- The dashboard's statistic cards and `handleLogout` are left out. They come from `useDoctorStats`/`usePatientStats` and `useAuth`, which are not part of this model.
- `useAuth`, `useDoctorStats`, `usePatientStats`, `chatService`, `DiagnosisHistory` and the landing page `Index` are not part of this model.
- DiagnosisUpload.UploadForm.Analyze: the 800 ms pauses between progress steps are not modelled, and neither is the step message text shown beside the bar. The save's update result is ignored, as in the code.
- Strings are sequences of Unicode scalar values, while JavaScript counts UTF-16 code units. So `substring(0, 200)` in the fallback details (SkinDiagnosis.Fallback, via Text.Prefix) and `?.[0]` on a string (SkinDiagnosis.OptFirst) differ from the edge function for replies holding characters outside the Basic Multilingual Plane, such as emoji.
- The browser's check of the `type="email"` format is an input (`emailWellFormed`) of LoginForm.LoginFormState.Submit and RegisterForm.RegisterFormState.Submit; its grammar is not modelled.
