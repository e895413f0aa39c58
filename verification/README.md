# English writing tutor — a Dafny model of its core logic

The English writing tutor is a browser client with a Cloudflare Pages
Functions back end. The client does several jobs:

- It asks an AI provider for writing topics, learning material and an
  evaluation of a student's text.
- It awards points and badges.
- It shows a dashboard, a result page and a shareable result card.

The back end keeps everything in one key-value store, keyed
`user:<name>`, `profile:<name>` and `history:<name>`. It serves
authentication, configuration, profile, history, an AI proxy and an admin
endpoint.

The model covers three groups:

1. **Recovering JSON from an AI reply and shaping AI requests.**
   - `AiExtract` is the `extractJson` fallback cascade. Its two regular
     expressions are written as explicit leftmost-search functions.
   - `AiService` covers reply-text selection, the topic fallback and the
     non-ok handling.
   - `AiProxy` is the server proxy as a decision function.
   - `JSON.parse` is an abstract `parse: string -> Option<J>` parameter.
2. **The key-value handlers.**
   - The modules are `AuthApi`, `ConfigApi`, `ProfileApi`, `HistoryApi` and
     `AdminApi`.
   - Each handler is a function from a request and a store to a `Step`: a
     response plus the store afterwards.
   - The store is one `map<string, Value>`. `KvStore.Value` is a typed
     stand-in for the stored JSON text.
   - A field is `Absent` (undefined), `Null` or `Present`, so the source's
     `!== undefined` tests and truthiness tests stay exact.
3. **Gamification and client logic.**
   - `Constants`, `StorageService` (points and badges) and `KnowledgeBase`
     (the memo cache).
   - `App` is the client's navigation state machine.
   - Pure helpers from the UI files: `WritingPhase`, `ChangePasswordModal`,
     `DashboardView`, `ResultPhase`, `ShareCard` and `ScoreBands`.
   - `TextRuns` and `Strings` hold the string helpers these share: `\s`,
     `trim`, `split(/\s+/)`, `replace(/\s+/g, '-')` and `slice`.
   - `QueryString` is what happens to a name written unencoded into a
     `?username=` query, on its way from the client to a handler.

Network answers, the clock and `Math.random` are parameters. Every fetch
outcome is an `Http.Fetched` value: either the error it threw, or its `ok`
flag, status and body.

## Model

| member | source | states |
|---|---|---|
| Strings.Take | components/ShareCard.tsx:65 | `slice(0, n)` keeps the first n characters, or all of a shorter text, as a prefix |
| Strings.Trim | services/aiService.ts:16 | `trim()` removes exactly the whitespace runs at both ends: the result is a stretch of the input with only whitespace outside it, and neither of its ends is whitespace |
| Strings.TrimUnpadded | services/aiService.ts:16 | a text whose ends are not whitespace is left unchanged by `trim()` |
| Strings.NatToString | components/Dashboard.tsx:25 | `${n}` for a non-negative integer: decimal digits without a leading zero whose value is n |
| Constants.BadgeTableWellFormed | constants.ts:5-10 | badge thresholds strictly increase (10 < 100 < 500 < 1000) and badge ids are pairwise distinct |
| Constants.LevelIndex | constants.ts:3 | every level has a position in `LEVELS` holding that very level |
| Constants.LevelsEnumerateAll | constants.ts:3 | `LEVELS` has 14 entries, contains every level and repeats none |
| Constants.LevelValueInjective | constants.ts:15-30 | distinct levels have distinct enum values, so the per-level tables are keyed unambiguously |
| Constants.OneEssayFromZero | constants.ts:6-7 | a worked example: from 0 points one essay reaches 100, which clears 'novice' and 'scholar' but not 'master' or 'legend'; a sentence drill is worth 20 |
| AiExtract.FirstClose | services/aiService.ts:15 | the lazy fence group stops at the least position where optional whitespace and "```" follow, and at no earlier one |
| AiExtract.FenceFrom | services/aiService.ts:15 | the fence regex's match is at the leftmost start that matches; no earlier start matches |
| AiExtract.LastIndexOf | services/aiService.ts:21 | the index of the last occurrence of a character, or none when it does not occur |
| AiExtract.SpanFrom | services/aiService.ts:21 | the span regex matches at the leftmost start that has a span; no earlier start does |
| AiExtract.NoSpanNoPair | services/aiService.ts:21 | a position where the span regex does not match opens no pair with any later closer |
| AiExtract.GreedySpan | services/aiService.ts:21 | the span runs from the leftmost opener `{` or `[` that has a matching closer after it (no earlier position opens such a pair) to the last matching closer; there is no span exactly when no opener has a matching closer after it |
| AiExtract.ExtractJson | services/aiService.ts:9-33 | text that parses directly is returned as is; otherwise a non-empty chosen fence whose trimmed interior parses yields that parse, padding and all; unparsable text with no fence rethrows the original error; any other success is the parse of the greedy span, reached only after a non-empty fence interior failed to parse |
| AiExtract.JsonFencePreferred | services/aiService.ts:15 | when a ```json fence occurs anywhere, the chosen fence is the first ```json fence |
| AiExtract.JsonFenceBeatsEarlierPlainFence | services/aiService.ts:15 | a worked example of the ```json preference: an untagged fence at position 0 loses to a ```json fence at position 6 |
| AiExtract.EmptyFenceRethrows | services/aiService.ts:16-31 | a fence with an empty interior rethrows the original parse error |
| AiExtract.NoTicksNoFence | services/aiService.ts:15 | text without "```" has no fence |
| AiExtract.ProseWrappedJsonFails | services/aiService.ts:15-31 | unparsable text containing no "```" has no fence and fails with the original error, even when a JSON span is inside it |
| AiExtract.SpanFallbackOutcome | services/aiService.ts:19-31 | after a failed fence: no span rethrows the original error, an unparsable span gives "Failed to parse AI response as JSON", a parsable span is returned |
| AiExtract.SpanErrorNeedsFailedFence | services/aiService.ts:19-27 | the span error implies the text failed, a non-empty fence was found and failed, and the span failed |
| AiExtract.TicksInsideWrapped | services/aiService.ts:15 | inside a wrapped tick-free interior no "```" starts |
| AiExtract.FenceRoundTrip | services/aiService.ts:15-18 | wrapping a trimmed, tick-free JSON text in a ```json fence extracts exactly its parse |
| AiService.ReplyText | services/aiService.ts:53 | the reply text is the first non-empty of the Gemini and OpenAI paths, else "" |
| AiService.ExplainLanguage | services/aiService.ts:70 | the explanation language is "Chinese (Simplified)" iff lang is cn, and "English" iff it is en |
| AiService.ModeLabel | services/aiService.ts:105 | "Essay Writing" iff the mode is essay, "Sentence Drilling" iff it is a sentence drill |
| AiService.TopicsCall | services/aiService.ts:35-50 | the topics request carries the user, the level and that level's prompt context |
| AiService.MaterialCall | services/aiService.ts:68-84 | the material request carries user, level and topic, and the explanation language follows lang |
| AiService.EvaluationCall | services/aiService.ts:93-114 | the evaluation request carries user, level, topic and submission; its mode label and language follow the inputs |
| AiService.FallbackIndex | services/aiService.ts:64 | `Math.floor(roll * 4)` is a valid index into the four fallback lists |
| AiService.GenerateTopics | services/aiService.ts:45-65 | generated iff a body was read and its reply text extracts, and then the topics are exactly what extraction returned; otherwise one of the four fixed lists, chosen by the roll |
| AiService.AskAi | services/aiService.ts:80-90 | a thrown fetch is rethrown, a non-ok answer is "AI Service Error", and success is exactly a successful extraction of the reply text |
| AiService.Delivered | functions/api/ai.ts:58-69 | what the client reads from a proxy answer: ok iff relayed, with the relayed data as body |
| AiService.ProxyFailureSurfaces | services/aiService.ts:55-86 | a proxy refusal or provider error makes material and evaluation fail with "AI Service Error", and topics fall back |
| AiService.FallbacksAreThreeDistinct | services/aiService.ts:58-64 | every fallback list holds three distinct titles |
| AiProxy.EffectiveConfig | functions/api/ai.ts:12-21 | a present override is used as is; otherwise the stored profile's config, and 404 when there is no profile |
| AiProxy.PlanCall | functions/api/ai.ts:29-56 | gemini gets `<base><model>:generateContent?key=<apiKey>`, the prompt as its one text part and responseMimeType "application/json"; openai gets the fixed URL, `Bearer <apiKey>`, the model, the prompt as its one user message and response_format `json_object`; any other provider is 400 "Unsupported provider" |
| AiProxy.Relay | functions/api/ai.ts:58-70 | an ok body passes through unchanged; a non-ok answer keeps the upstream status and body under details; a throw or unreadable body is 500 |
| AiProxy.HandleAi | functions/api/ai.ts:3-71 | a missing username or prompt is 400 and a missing profile 404; no config or an empty key is 400 "AI API Key not configured"; a keyed request with a supported provider makes exactly the planned call and relays its answer, any other provider is 400 "Unsupported provider" |
| AiProxy.OverrideIgnoresStore | functions/api/ai.ts:12-14 | a request carrying its own config gets the same answer whatever the store holds |
| AiProxy.StoredConfigUsed | functions/api/ai.ts:14-21 | without an override only the stored profile's config matters |
| AiProxy.NoKeyNoCall | functions/api/ai.ts:23-25 | a missing config or empty apiKey is 400 "AI API Key not configured", whatever the provider would answer |
| KvStore.WithConfig | functions/api/config.ts:19-20 | setting the config on a record changes only its config |
| KvStore.WithPassword | functions/api/auth.ts:29 | setting the password on a record changes only its passwordHash |
| KvStore.KeyKinds | functions/api/auth.ts:18 | user, profile and history keys carry exactly their own prefix |
| KvStore.KeysDistinct | functions/api/config.ts:15-30 | keys of different users or of different kinds never collide |
| KvStore.PutKeepsWellTyped | functions/api/config.ts:20-48 | writing a record of the right kind keeps every key holding its kind of document |
| AuthApi.ChangePassword | functions/api/auth.ts:12-35 | missing fields give 400, an unknown user 404, a wrong old password 401, each leaving the store unchanged; success replaces only that user's passwordHash |
| AuthApi.LoginOrRegister | functions/api/auth.ts:37-78 | missing credentials give 400; a known user with the right password gets the stored config and nothing is written; a wrong password is 401; an unknown user is stored as name and password with no config |
| AuthApi.HandleAuth | functions/api/auth.ts:6-12 | the change-password action goes to change-password, any other action to login/register |
| AuthApi.RegisterThenLogin | functions/api/auth.ts:45-76 | registering and repeating the same credentials logs in with no config and writes nothing more |
| AuthApi.ChangeThenLogin | functions/api/auth.ts:24-62 | after a password change the new password logs in and the old one is refused |
| AuthApi.AuthKeepsWellTyped | functions/api/auth.ts:30-70 | neither action makes the store ill typed |
| ConfigApi.SaveConfig | functions/api/config.ts:3-54 | missing username or config is 400 and an unknown user 404, both writing nothing; success sets only the user's config, creates a missing profile as no points, no badges and level null, and keeps every other profile field |
| ConfigApi.SavedConfigAgrees | functions/api/config.ts:20-51 | after a save, user.config, profile.config and the echoed config all equal the submitted config |
| ProfileApi.GetProfile | functions/api/profile.ts:4-19 | no username is 400; a stored profile is served unchanged, an absent one as points 0, no badges, level null |
| ProfileApi.Merge | functions/api/profile.ts:31-38 | points, badges and level come from the request iff it defines them, else from the stored document; every other field is kept and config is never taken from the request |
| ProfileApi.PostProfile | functions/api/profile.ts:22-45 | no username is 400 with the store unchanged; otherwise only that profile key is written, and the stored value is the response body |
| ProfileApi.NameOnlyPostIsIdempotent | functions/api/profile.ts:31-40 | a POST with only a username leaves a stored profile unchanged, or materialises the defaults |
| ProfileApi.PostThenGet | functions/api/profile.ts:16-42 | a GET after a POST serves exactly what the POST answered |
| ProfileApi.PostKeepsWellTyped | functions/api/profile.ts:40 | a POST keeps the store well typed |
| HistoryApi.GetHistory | functions/api/history.ts:4-19 | no username is 400; stored history is served unchanged, absent history as [] |
| HistoryApi.PostHistory | functions/api/history.ts:22-41 | missing username or record is 400 with the store unchanged; success stores the record followed by the older records in order, under the history key only |
| HistoryApi.PostThenGet | functions/api/history.ts:16-34 | a GET after a POST serves the posted record at index 0 and the older ones after it |
| HistoryApi.PostKeepsWellTyped | functions/api/history.ts:36 | a POST keeps the store well typed |
| AdminApi.IndexOf | functions/api/admin.ts:34 | the first occurrence of a character, or none |
| AdminApi.SecondSegment | functions/api/admin.ts:34 | `split(':')[1]` is the colon-free text between the first colon and the next colon or the end; undefined iff there is no colon |
| AdminApi.SecondSegmentOfUserKey | functions/api/admin.ts:30-34 | a user key whose name has no colon lists exactly that name |
| AdminApi.ColonNameIsCut | functions/api/admin.ts:34 | a name with a colon is listed by its part before the first colon: `a:b` lists as `a` |
| AdminApi.Summarize | functions/api/admin.ts:36-44 | points, badge count and level come from the profile, with defaults 0, 0 and 'N/A' when the profile or the field is missing |
| AdminApi.Summaries | functions/api/admin.ts:33-45 | one row per listed key, in listing order |
| AdminApi.DeleteUser | functions/api/admin.ts:83-94 | removes exactly the user key, the profile key and every key starting with `history:<t>`; everything else is kept unchanged |
| AdminApi.HandleAdmin | functions/api/admin.ts:9-105 | an unset secret is 500 and a wrong key 401, both with no store access; GET lists the users; POST is exactly the admin action; a method other than GET or POST is 405 |
| AdminApi.AdminAction | functions/api/admin.ts:54-101 | a missing target is 400; reset_password is 404 for an unknown user and otherwise sets the password to "123456"; delete_user always succeeds; any other action is 400 |
| AdminApi.OneRowPerUser | functions/api/admin.ts:30-45 | with a faithful listing there are exactly as many rows as stored user keys |
| AdminApi.DistinctCard | functions/api/admin.ts:33 | a listing without repeats has as many distinct keys as entries |
| AdminApi.DeleteReachesLongerNames | functions/api/admin.ts:91-94 | deleting `t` also deletes the history of any user whose name extends `t`, while that user's record and profile stay |
| AdminApi.AdminKeepsWellTyped | functions/api/admin.ts:72-94 | reset and delete keep the store well typed |
| StorageService.Ids | constants.ts:5-10 | the ids of a badge table, in table order |
| StorageService.NewBadges | services/storageService.ts:44-48 | a badge is newly awarded iff its threshold is at most the new total and its id is not yet held |
| StorageService.NewBadgesInTableOrder | services/storageService.ts:44-48 | new badges appear in badge-table order |
| StorageService.NewBadgesDistinct | services/storageService.ts:44-48 | with distinct table ids, no new badge repeats |
| StorageService.AwardRequest | services/storageService.ts:40-54 | the new total is current points plus pointsToAdd; the saved badges are the old list followed by the new badges; username and level pass through |
| StorageService.AwardKeepsBadgesDistinct | services/storageService.ts:45-53 | holding distinct badges before, the saved list still has no duplicate |
| StorageService.AwardCoversEarned | services/storageService.ts:44-53 | after an award every badge whose threshold the total reaches is held |
| StorageService.AwardStored | services/storageService.ts:50-54 | posting the award stores exactly the new points and badges and keeps the stored config and username |
| StorageService.FetchProfile | services/storageService.ts:6-15 | a profile comes back iff the answer was ok and readable; otherwise null |
| QueryString.StripTrailing | services/storageService.ts:8 | the URL parser removes exactly the trailing C0 controls and spaces |
| QueryString.DropBreaks | services/storageService.ts:8 | the URL parser drops every tab, line feed and carriage return, and changes nothing else in break-free text |
| QueryString.DropBreaksPrefix | services/storageService.ts:8 | break-free text in front passes through unchanged |
| QueryString.BeforeChar | functions/api/profile.ts:7 | the text before the first occurrence of a character, or all of it |
| QueryString.HexValue | functions/api/profile.ts:7 | a hexadecimal digit's value is below 16 |
| QueryString.Escape | functions/api/profile.ts:7 | a `%XX` escape decodes to an ASCII character |
| QueryString.FormDecode | functions/api/profile.ts:7 | form decoding never lengthens the value and leaves text without `+` or `%` unchanged |
| QueryString.SafeNameArrives | services/storageService.ts:8 | a name free of `&`, `#`, `+`, `%`, breaks and trailing spaces reaches the handler as itself |
| QueryString.NameCutAtSeparator | services/storageService.ts:8 | a name `a&b` or `a#b` reaches the handler as `a` |
| QueryString.HexDigitValue | services/storageService.ts:8 | an upper-case hex digit reads back as its value |
| QueryString.EncodeChar | services/storageService.ts:8 | an encoded character holds no space, control, `#`, `&` or `+` |
| QueryString.Encode | services/storageService.ts:8 | an encoded name holds no space, control, `#`, `&` or `+` |
| QueryString.DecodeChar | services/storageService.ts:8 | decoding an encoded character gives it back, whatever follows |
| QueryString.DecodeEncode | services/storageService.ts:8 | form decoding undoes `encodeURIComponent` |
| QueryString.EncodedNameArrives | services/storageService.ts:8 | with `encodeURIComponent` every name reaches the handler as itself |
| StorageService.ServedProfile | services/storageService.ts:6-15 | the handler reads the name as the query decodes it: answered ok with that name's stored document or the defaults iff the decoded name is non-empty, else 400 with no document |
| StorageService.ServedProfileEncoded | services/storageService.ts:8 | with the name encoded, a non-empty name is answered ok with its own stored document or the defaults |
| StorageService.CrossUserRead | services/storageService.ts:8 | as written, `a&b` or `a#b` loads `a`'s stored profile, config included; a name starting with `&` or `#` loads nothing |
| StorageService.FreshUserProfileHasNoName | functions/api/profile.ts:16 | a user with no stored profile is given the defaults, which carry no username |
| StorageService.ChangePasswordOutcome | services/storageService.ts:76-86 | success iff the answer is ok; otherwise the server's error text, or 'Failed to change password' when it has none |
| StorageService.Delivered | functions/api/auth.ts:15-34 | the client sees ok iff the handler answered 200, and the handler's status and error text otherwise |
| KnowledgeBase.FilenameInjective | services/knowledgeBaseService.ts:41-56 | no two levels share a knowledge-base file |
| KnowledgeBase.LevelNamed | services/knowledgeBaseService.ts:66 | the level whose enum value is the given text, or none |
| KnowledgeBase.FilenameFor | services/knowledgeBaseService.ts:41-66 | a file name exists iff the text is a level's value, and it is that level's file |
| KnowledgeBase.GetKnowledgeBase | services/knowledgeBaseService.ts:65-88 | no file name gives null with no fetch and no cache write; a cached value, null included, is returned without a fetch; a non-ok answer or a throw caches and returns null; an ok answer caches and returns the data |
| KnowledgeBase.CacheOnlyGrows | services/knowledgeBaseService.ts:69-87 | the cache only grows, and an entry once written never changes |
| KnowledgeBase.Calls | services/knowledgeBaseService.ts:65-88 | successive calls give one result each |
| KnowledgeBase.CachedStaysPut | services/knowledgeBaseService.ts:69-71 | once a level is cached, every later call returns the cached value |
| KnowledgeBase.RepeatedCallsAgree | services/knowledgeBaseService.ts:69-87 | after the first call for a level, every later call returns the same value |
| KnowledgeBase.NoFileNeverFetches | services/knowledgeBaseService.ts:66-67 | text that names no level yields null from every call |
| App.Landing | App.tsx:70-76 | Config iff the profile has no config; Welcome iff it has a config but no level; Dashboard iff it has both |
| App.AuthSuccessAsWritten | App.tsx:59-79 | a null profile only clears initializing; a loaded profile is kept as served, with the history, and lands where Landing says |
| App.Named | App.tsx:59-79 | the loaded document with the signed-in name set, and nothing else changed |
| App.AuthSuccess | App.tsx:59-79 | as handleAuthSuccess, but the held profile always names the signed-in user |
| App.HandleLogin | App.tsx:81-102 | nothing happens without a username and password; the user signs in iff the answer is ok; otherwise the server's error, 'Auth failed' or 'Connection error' is shown; nothing else changes |
| App.LoginAgainstServer | App.tsx:86-96 | against the real handler, the right password signs in and a wrong one shows "Invalid password" |
| App.WithClientConfig | App.tsx:113 | `{ ...userProfile, config }` changes only the config |
| App.HandleSaveConfig | App.tsx:104-122 | nothing happens without a profile or an apiKey; otherwise the config is sent under the profile's username, kept locally, and the screen becomes Welcome when there is no level, else Dashboard |
| App.StartNewSession | App.tsx:140-145 | the screen becomes TopicSelection with topic, evaluation and content cleared, and nothing else changes |
| App.HandleSubmit | App.tsx:147-188 | nothing happens without a username and level; an award is sent iff the evaluation succeeded; the record is prepended to the local history; the Result screen is reached only when evaluation, save and history all succeeded |
| App.SubmitAwardsByMode | App.tsx:163-164 | an essay adds 100 points and a sentence drill 20 |
| App.FirstConfigSaveRejected | App.tsx:59-213 | as written, a new user lands on the Config screen holding a nameless profile, so the header throws on the first render whether or not the language lookup resolves; even past that, the first config save posts no username, is refused with 400 and stores nothing, yet the client moves on to Welcome |
| App.FirstConfigSaveStored | App.tsx:59-122 | with the name filled in, the header shows the name's first letter exactly when `translations[undefined]` resolves and throws otherwise, and the first save stores the config on the user record and on a newly created profile |
| App.ResultCardAsWritten | App.tsx:380-386 | as written, the result page's share card always fails to render |
| App.ProfileName | App.tsx:380-386 | the name the held profile carries, when it has one |
| App.HeaderInitial | App.tsx:190-213 | the spinner renders while initializing; otherwise the render throws iff the language lookup (`translations['cn']` without a profile, `translations[undefined]` with one) fails or a held profile has no username; without a profile no avatar shows; otherwise the avatar shows the name's first character, or nothing for an empty name |
| App.ResultCard | App.tsx:380-386 | with the profile's name passed down, the card renders iff that name is non-empty, shows its initial and counts the corrections |
| App.ResultCardAfterSubmit | App.tsx:178-182 | a submission reaching the result page with a named profile renders the card with the name passed down, and fails as written |
| TextRuns.FirstSpace | components/WritingPhase.tsx:37 | the first whitespace character, with none before it |
| TextRuns.WordEnd | components/WritingPhase.tsx:37 | the end of the opening non-whitespace run |
| TextRuns.WordEndUnique | components/WritingPhase.tsx:37 | that end is the only index with both properties |
| TextRuns.SplitOnSpaces | components/WritingPhase.tsx:37 | `split(/\s+/)` pieces contain no whitespace |
| TextRuns.NonEmptyCount | components/WritingPhase.tsx:37 | the count of non-empty pieces is at most the number of pieces |
| TextRuns.RunsSkipSpaces | components/WritingPhase.tsx:37 | leading whitespace does not change the run count |
| TextRuns.SplitCountsRuns | components/WritingPhase.tsx:37 | the non-empty pieces of the split are exactly the maximal non-whitespace runs |
| TextRuns.RunsAppendSpaces | components/WritingPhase.tsx:37 | trailing whitespace does not change the run count |
| TextRuns.RunsOfTrim | components/WritingPhase.tsx:37 | trimming does not change the run count |
| TextRuns.DashRuns | components/ResultPhase.tsx:77 | `replace(/\s+/g, '-')` leaves no whitespace and never lengthens the text |
| TextRuns.DashRunsKeepsWord | components/ResultPhase.tsx:77 | a stretch without whitespace is copied unchanged |
| TextRuns.DashRunsIsSplitJoin | components/ResultPhase.tsx:77 | replacing each whitespace run by a dash equals splitting on the runs and joining with '-' |
| WritingPhase.Utf16Length | components/WritingPhase.tsx:110 | `length` counts one or two UTF-16 units per character |
| WritingPhase.WordCount | components/WritingPhase.tsx:37 | the word count equals the number of maximal non-whitespace runs |
| WritingPhase.NoRunsIffBlank | components/WritingPhase.tsx:37 | a text has no runs iff it is empty or all whitespace |
| WritingPhase.WordCountZeroIffBlank | components/WritingPhase.tsx:37 | the word count is 0 iff the text is empty or all whitespace |
| WritingPhase.SelectImage | components/WritingPhase.tsx:20-30 | selecting an image stores it, sets the placeholder text, and so enables submit |
| WritingPhase.ClearImage | components/WritingPhase.tsx:32-35 | clearing removes the image and empties the text, which disables submit |
| WritingPhase.SubmitArguments | components/WritingPhase.tsx:109 | submit passes the text, and the image iff one was captured |
| WritingPhase.WordCounter | components/WritingPhase.tsx:51-54 | the word count is shown iff there is no image, and then equals the run count |
| ChangePasswordModal.MismatchMessage | components/ChangePasswordModal.tsx:27 | the Chinese mismatch text iff lang is cn |
| ChangePasswordModal.LengthMessage | components/ChangePasswordModal.tsx:31 | the Chinese length text iff lang is cn |
| ChangePasswordModal.FailureMessage | components/ChangePasswordModal.tsx:44 | the Chinese failure text iff lang is cn |
| ChangePasswordModal.Validate | components/ChangePasswordModal.tsx:23-38 | an empty field returns silently; a mismatch shows the mismatch error, even when the password is also short; a short new password shows the length error; otherwise exactly one call with the username, old and new password |
| ChangePasswordModal.Submit | components/ChangePasswordModal.tsx:35-47 | no call keeps or sets the error as validation says; a successful call sets success and clears the error; a failed call shows the thrown message or the localized fallback |
| ChangePasswordModal.WrongOldPasswordShown | components/ChangePasswordModal.tsx:38-44 | against the real handler, a wrong old password shows "Incorrect old password" in the dialog |
| ScoreBands.BandMonotone | components/Dashboard.tsx:116 | a higher score never falls in a lower band |
| ScoreBands.Hex | components/Dashboard.tsx:116 | each band's colour is a hex colour string |
| ScoreBands.HexInjective | components/Dashboard.tsx:116 | the colour identifies the band |
| DashboardView.Recent | components/Dashboard.tsx:18 | the recent list is the first min(5, n) records, in order |
| DashboardView.Reverse | components/Dashboard.tsx:23 | entry i of the reversal is entry n-1-i of the input |
| DashboardView.Label | components/Dashboard.tsx:25 | the label is "Ex " followed by the decimal i+1 |
| DashboardView.ChartData | components/Dashboard.tsx:21-27 | the chart has min(10, n) bars; bar i is labelled Ex i+1 and has the score of history[k-1-i] |
| DashboardView.LabelsDistinct | components/Dashboard.tsx:25 | no two bars share a label |
| DashboardView.ChartFill | components/Dashboard.tsx:116 | the bar colour is the colour of the score's 80/60 band |
| DashboardView.ListClasses | components/Dashboard.tsx:171 | the recent-list colour classes are those of the score's 80/60 band |
| DashboardView.ChartAndListAgree | components/Dashboard.tsx:116-171 | two scores get the same chart colour iff they get the same list colour: the thresholds coincide |
| DashboardView.StatsOf | components/Dashboard.tsx:68-137 | exercises completed equals the history length; badge i is lit iff its id is held |
| DashboardView.AwardLightsEarned | components/Dashboard.tsx:137 | after an award every badge the new total reaches is lit, and no lit badge goes dark |
| DashboardView.NewestRecordShows | components/Dashboard.tsx:18-68 | a record just prepended adds one exercise, heads the recent list and is the chart's last bar |
| ResultPhase.ScoreData | components/ResultPhase.tsx:84-87 | the Score and Remaining values sum to 100 |
| ResultPhase.ScoreColour | components/ResultPhase.tsx:88 | the score colour is the colour of the score's 80/60 band |
| ResultPhase.ResultMatchesChart | components/ResultPhase.tsx:88 | the result page colours a score exactly as the dashboard chart does |
| ResultPhase.Quote | components/ResultPhase.tsx:48 | each line break becomes "\n> ", adding two characters per line break; every line break is followed by "> " |
| ResultPhase.QuoteRoundTrip | components/ResultPhase.tsx:48 | unquoting the quoted text gives the original back |
| ResultPhase.QuotedOriginal | components/ResultPhase.tsx:47-48 | the quoted block starts with "> ", every line of it continues the quote, and the original reads back from it |
| ResultPhase.Block | components/ResultPhase.tsx:56-61 | the block of correction i starts with the heading numbered i+1 |
| ResultPhase.Blocks | components/ResultPhase.tsx:56-61 | one block per correction, in order |
| ResultPhase.JoinPlaces | components/ResultPhase.tsx:61 | in a joined text each part sits whole at its offset |
| ResultPhase.CorrectionsSection | components/ResultPhase.tsx:56 | the perfect line iff there are no corrections; otherwise the section opens with heading 1 |
| ResultPhase.CorrectionsNumberedInOrder | components/ResultPhase.tsx:56-61 | correction i appears whole under the number i+1, after correction i-1 |
| ResultPhase.OffsetStep | components/ResultPhase.tsx:61 | each part starts one separator after the previous part ends |
| ResultPhase.ReportFilename | components/ResultPhase.tsx:77 | each whitespace run of the topic becomes one '-' and the date is the first 10 characters of the ISO timestamp; with a whitespace-free date the name has no whitespace |
| ResultPhase.ShareFilename | components/ResultPhase.tsx:32 | the image name is "Report-", the topic's first 10 characters, then ".png" |
| ShareCard.TierMonotone | components/ShareCard.tsx:19-31 | a higher score never gets a lower tier |
| ShareCard.Gradient | components/ShareCard.tsx:19-24 | the gradient is the one for the score's 90/80/60 tier |
| ShareCard.Emoji | components/ShareCard.tsx:26-31 | the emoji is the one for the score's 90/80/60 tier |
| ShareCard.SameThresholds | components/ShareCard.tsx:19-31 | two scores share a gradient iff they share an emoji |
| ShareCard.Snippet | components/ShareCard.tsx:65 | feedback of at most 120 code units is shown unchanged; longer feedback shows a prefix of it of at most 120 characters followed by "..." |
| ShareCard.Upper | components/ShareCard.tsx:86 | a-z are upper-cased and every other character is kept |
| ShareCard.Render | components/ShareCard.tsx:15-90 | the card renders iff a non-empty username is given, with the tier's gradient and emoji, the snippet, the corrections count and the name's initial |

## Left out

- Real network I/O is not modelled. Upstream answers and statuses are inputs (`Http.Fetched`, a `call` or `fetch` function). KV eventual consistency, list pagination and the order of the sequential awaits in the admin handler are not modelled either.
- JSON parsing and serialisation are abstract: `parse` is a parameter, and the store holds typed `Value`s instead of text. Field types the source never writes, such as a number in `points` being a string, are not represented.
- Nothing under services/geminiService.ts is modelled: it wraps a provider SDK that is not part of this model.
- components/AIConfigModal.tsx and components/CorrectionChat.tsx are not modelled. They call AI service functions that are not part of this model.
- AdminPanel, LevelSelector, TopicPhase and LearningPhase are fetch and UI plumbing with no statable logic, so they are not modelled. The App handlers `handleLevelSelect` and `handleLogout` are not modelled either.
- Rendering, CSS, charts, image capture, downloads, Blob/URL, localStorage, alert and timers are left out. In particular, App's badge alert after a submit is not modelled.
- `Math.random` is not modelled as such: `AiService.FallbackIndex` takes the random number as a parameter. `Date.now` ids and ISO timestamps are parameters too (`id`, `date`, `isoNow`).
- AdminApi.HandleAdmin: the 500 'Failed to list users' answer of the GET branch is not modelled, because it only arises from a failing KV call. The listing itself is the parameter `listing`.
- AiProxy.Relay: the 500 answer does not carry the exception's `details` text.
- AiService.TopicsCall, AiService.MaterialCall, AiService.EvaluationCall: the exact wording of the prompt templates is not modelled, only what each prompt is built from.
- ResultPhase.CorrectionsSection: the fixed Markdown text around the sections, and the locale date, are not modelled.
- ResultPhase.ShareFilename and ShareCard.Snippet count Unicode characters where `slice` counts UTF-16 code units. The two differ only for characters beyond U+FFFF, whose halves Dafny strings cannot hold. The "..." decision does use UTF-16 length.
- ShareCard.Upper upper-cases only a-z. Other characters are kept, where `toUpperCase` would apply full Unicode case mapping.
- Scores are modelled as integers; the source's `number` could also hold a fraction.
- A missing `apiKey` in a stored config reads as "", which the proxy treats like a missing key. `provider` is free text, since the server accepts whatever the client sends.
- The proxy sends only the prompt text to the provider, never an image; the image captured in the writing editor is dropped by App's submit handler. The client reads the reply text directly and does not unwrap nested results. /api/ai takes the configuration from the request or else from the stored profile, with no third source.
- `extractJson` first parses the raw text, not a trimmed copy; only the fence interior is trimmed.
- Security issues are modelled as written: plaintext passwords and a non-constant-time key comparison.
- The history array is never mutated in Dafny, so "slice before reverse keeps the history in order" holds by construction rather than by a lemma.
- QueryString.FormDecode: a `%XX` escape of a byte 0x80 or above is kept literally. URLSearchParams would decode it as part of a UTF-8 sequence.
- QueryString.Encode: non-ASCII characters are kept as they are, where `encodeURIComponent` writes their UTF-8 escapes. The URL parser escapes them itself and the handler decodes them, so the name that arrives is the same.
- QueryString.SentName: only the behaviour of a name placed last in the URL is modelled, and only the `username` parameter.
- getHistory (services/storageService.ts:67-70) builds the same unencoded query, so `QueryString.SentName` applies to it too. Its outcome reaches App as a parameter, and its use of `res.json()` without an `ok` check is not modelled.
- App.FirstConfigSaveRejected, App.FirstConfigSaveStored: stated for names that reach the handler unchanged (`QueryString.QuerySafe`); other names are the subject of `StorageService.CrossUserRead`.
- ProfileApi.Merge: spreading a stored value that is an array would copy its index entries into the merged document; the model keeps only the named fields. `KvStore.WellTyped` stores never hold an array at a profile key, so the case does not arise for them.
- The UI's translation tables are not part of this model. Nor is the `language` field, which App reads from the profile but nothing ever stores.
- App.HeaderInitial, App.FirstConfigSaveStored: whether `translations[lang]` is a table is the parameter `resolves`, because translations.ts is not part of this model. A held profile carries no `language`, so the header looks up `translations[undefined]`. The corrected first login shows the name's initial only when that lookup resolves, and throws at `t.appTitle` otherwise.
- App.ResultCard, App.ResultCardAfterSubmit: assume that ResultPhase's `translations[lang]` lookup (components/ResultPhase.tsx:20) yields a table, for the same reason.

## Findings

| source | as written | input that shows it | evidently intended | confidence | as-written member | corrected member |
|---|---|---|---|---|---|---|
| App.tsx:59-79, 112, 213; functions/api/profile.ts:16 | after sign-in the client keeps the profile GET /api/profile served; for a user with no stored profile that is `{points:0,badges:[],level:null}` with no username. The header's `userProfile.username[0]` then throws on the first render after sign-in. Past that, `saveAIConfig(userProfile.username, …)` would post no username, /api/config would answer 400 and store nothing, and the client would move on to Welcome anyway | a freshly registered user "ann" with no `profile:ann` key signs in | the held profile carries the signed-in name, so the first save stores the config on `user:ann` and creates `profile:ann`, and the header shows "a" provided `translations[userProfile.language]` resolves (translations.ts is not part of this model) | high (not executed) | App.FirstConfigSaveRejected | App.FirstConfigSaveStored |
| App.tsx:380-386; components/ResultPhase.tsx:211-219; components/ShareCard.tsx:86 | App renders ResultPhase without its `username` prop; ResultPhase always renders the hidden ShareCard, whose `username[0].toUpperCase()` throws on `undefined` | any successful submission that reaches the Result screen | App passes the signed-in user's name, so the card shows its initial | high (not executed) | App.ResultCardAsWritten | App.ResultCard |
| services/storageService.ts:8, 68; functions/api/profile.ts:7 | `getProfile` and `getHistory` put the name into `?username=${username}` unencoded; the handler's `searchParams` cuts the value at `&` and the URL at `#`, so a name such as `a&b` (which registration accepts) loads user `a`'s profile, AI key included, and `a`'s history | register "a&b" while user "a" has a stored profile, then sign in as "a&b" | the name is passed through `encodeURIComponent`, so every name reaches the handler as itself | high (not executed) | StorageService.CrossUserRead | StorageService.ServedProfileEncoded |
