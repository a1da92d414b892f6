# AdGenius core, modelled in Dafny

AdGenius is a Next.js marketing dashboard with a Telegram bot in front of it.
This project models the parts of it that make decisions, and proves properties
about them:

- **The rule-based answer engine of the Deepseek client** (`Deepseek`). It covers the
  ordered substring classifier behind `generateMockResponse`, the mock-or-remote
  choice of `chat`, and the prompt that `answerQuestion` builds.
- **The two Telegram webhooks** (`Webhook`, `WebhookSimple`, `AiModeStore`). Each keeps a
  per-user AI-mode map that message handling updates in place. The model covers the
  command dispatch order and the order in which `POST` validates a request.
- **The middleware access decision** (`Middleware`). It includes the Telegram Mini App
  heuristic and the path matcher.
- **The users-table logic of the auth service** (`Auth`): Telegram login, Google
  login and account linking. Supabase is replaced by an in-memory table, and `.single()`
  succeeds only for exactly one row.
- **The metric helpers and colour bands** (`Utils`).
- **The dashboard components**:
  - the insights panel (`InsightsPanel`);
  - the performance chart data (`PerformanceChart`);
  - the metrics cards (`MetricsCard`, `AnimatedMetricsCard`);
  - the campaign list (`CampaignList`).
  - Both the insights panel and the chart use the per-platform reduce, which lives in
    `PlatformGroups`.
- **The ad-provider registry and Meta record mapping** (`AdPlatforms`).
- **The Telegram bot's message composition and webhook-secret check** (`Telegram`).

Shared modules hold the supporting pieces:

- `Common`: optional values and results, plus JavaScript truthiness of strings and
  interpolated fields.
- `Text`: ASCII lower-casing, substring and prefix tests, decimal rendering.
- `JsNumber`: division yielding Infinity or NaN, and `x || 0`.
- `Seqs`: filter, map, a stable descending sort and `slice(0, k)`.
- `Types`: the records of `src/types/index.ts`.

State the source changes in place is modelled as classes:

- `AiModeStore.ModeStore` holds the `userAiModeState` map.
- `Auth.UserTable` holds the users table.
- `AdPlatforms.AdPlatformManager` holds the integrations registry.

Each method of these classes is proved against a pure function of the old state. The
loops of `generateInsights` and the platform `reduce` are methods proved equal to the
functions that specify them. I/O is represented by its outcome, passed as a parameter:

- the HTTP reply of the Deepseek API;
- the Telegram and provider calls;
- a database fault.

Some behaviours of the code are easy to miss, and the model keeps them:

- **Deepseek.Chat, empty replies.** A successful remote reply without content yields the
  empty string. So `answerQuestion` does not always return a non-empty answer
  (`Deepseek.SuccessMayBeEmpty`).
- **Deepseek.AnswerQuestion, what is classified.** In mock mode the classifier reads the
  lowercased user prompt that `answerQuestion` built, not the bare question. So an empty
  question does not get the default answer through `answerQuestion`. Only an empty last
  message does (`Deepseek.EmptyGetsDefault`).
- **Auth.Link, the unchecked delete.** `linkAccounts` does not look at the outcome of
  the delete of the Google row. When that delete fails the call still reports success,
  and two rows carry the Google id, so a later lookup by it finds no single user
  (`Auth.LinkDeleteFailsDuplicates`).
- **Mock templates.** The mock answers are constant texts that never read the context.
  The model represents them as the `Deepseek.Template` enumeration.

## Model

| member | source | states |
|---|---|---|
| Deepseek.AnyOfMeansSomePhrase | src/lib/deepseek.ts:79-84 | a rule's `a \|\| b \|\| …` of `includes` calls holds iff some listed phrase occurs in the message |
| Deepseek.FirstMatch | src/lib/deepseek.ts:79-712 | the rule picked from the priority table is one of the table's rules |
| Deepseek.FirstMatchAt | src/lib/deepseek.ts:79-712 | in a table of distinct rules, rule k is the first match iff it fires and no earlier rule does |
| Deepseek.FirstMatchNone | src/lib/deepseek.ts:79-712 | there is no first match iff no rule fires |
| Deepseek.PriorityDistinct | src/lib/deepseek.ts:79-712 | the fifteen rules of the priority order are pairwise distinct |
| Deepseek.PriorityNames | src/lib/deepseek.ts:79-712 | the priority order is named campaign, action list, best, worst, optimize, platforms, ROAS, budget, time window, compare, sales, audience, creative, seasonal, overview |
| Deepseek.Classify | src/lib/deepseek.ts:79-738 | the `if` chain of `generateMockResponse` over the lowercased message; its meaning is stated by Deepseek.ClassifyRank, Deepseek.ClassifyDefault and Deepseek.ClassifyAgreesWithTable |
| Deepseek.OverviewCondition | src/lib/deepseek.ts:668-679 | the overview rule's condition: "performance" with "overall" or "general", "how are" with "campaigns", a listed phrase, or "ctr" with "cpa"; used by Deepseek.OverviewRule |
| Deepseek.ClassifyFirstFiring | src/lib/deepseek.ts:79-712 | when rule k is the first to fire, the `if` chain returns rule k's answer |
| Deepseek.ClassifyNoneFiring | src/lib/deepseek.ts:714-738 | when no rule fires, the `if` chain falls through to the default answer |
| Deepseek.ClassifyAgreesWithTable | src/lib/deepseek.ts:79-738 | the `if` chain and first-match over the priority table give the same answer on every message |
| Deepseek.Position | src/lib/deepseek.ts:79-712 | every rule has a place in the priority order |
| Deepseek.RankOfAnswer | src/lib/deepseek.ts:79-712 | the answer a rule gives ranks at that rule's place |
| Deepseek.ClassifyRank | src/lib/deepseek.ts:79-738 | the answer ranks at k iff rule k fires and no earlier rule fires (first match wins) |
| Deepseek.ClassifyDefault | src/lib/deepseek.ts:714-738 | the default answer is given iff no rule fires |
| Deepseek.ClassifyRankAtMost | src/lib/deepseek.ts:79-712 | a firing rule bounds the answer's rank: no later rule can answer |
| Deepseek.PhraseFires | src/lib/deepseek.ts:79-84 | one listed phrase in the message makes the rule's condition true |
| Deepseek.PauseBeatsBest | src/lib/deepseek.ts:164-240 | a message with "pause" and "best" never gets the top-performer answer, and gets the action list unless it names a campaign |
| Deepseek.NamedCampaignOrder | src/lib/deepseek.ts:79-160 | inside the named-campaign rule, "cyber monday" beats "valentine", which beats "summer style" |
| Deepseek.RoasRule | src/lib/deepseek.ts:359-392 | the ROAS answer is given iff "roas" occurs, "overall" does not, and none of the six earlier rules fires |
| Deepseek.CustomersNeverAudience | src/lib/deepseek.ts:506-550 | "customers" always reaches the conversions rule first, so it never gets the audience answer |
| Deepseek.OverviewRule | src/lib/deepseek.ts:668-712 | the overview answer is given iff the overview condition (its conjunctions or listed phrases) holds and no earlier rule fires |
| Deepseek.OverviewPhrasesShadowed | src/lib/deepseek.ts:668-680 | "total spend", "spesa totale" and "total revenue" can never select the overview answer, because earlier rules match words inside them |
| Deepseek.NoPhraseInEmpty | src/lib/deepseek.ts:73-74 | the empty message contains a phrase only if that phrase is empty |
| Deepseek.EmptyFiresNothing | src/lib/deepseek.ts:73-712 | no rule fires on the empty message |
| Deepseek.EmptyGetsDefault | src/lib/deepseek.ts:714-738 | the empty message gets the default answer |
| Deepseek.MockResponse | src/lib/deepseek.ts:72-74 | with no messages or an empty last message, the mock gives the default answer |
| Deepseek.MockIgnoresCase | src/lib/deepseek.ts:72-74 | only the lowercase form of the last message decides the mock answer |
| Deepseek.DeepseekClient.Chat | src/lib/deepseek.ts:35-70 | mock mode returns the mock answer without using the remote outcome; otherwise a success returns the first choice's text (or ""), and an HTTP error or exception returns the mock answer for the same messages |
| Deepseek.NewClient | src/lib/deepseek.ts:25-33 | mock mode holds iff the API key is missing or empty; the base URL defaults to the public endpoint |
| Deepseek.SuccessMayBeEmpty | src/lib/deepseek.ts:63-64 | a successful reply with no choices, or with a choice without content, yields "" |
| Deepseek.AnswerMessages | src/lib/deepseek.ts:868-871 | `answerQuestion` sends exactly the system prompt and then the user prompt |
| Deepseek.SystemPrompt | src/lib/deepseek.ts:776-827 | the expert framing, the command or general framing by isAICommand, the demo block only with isMockData, then the expertise list; sent first by Deepseek.AnswerMessages |
| Deepseek.DemoBlock | src/lib/deepseek.ts:791-817 | the demo-data paragraph with each summary figure or its default ("User", "Multiple", "54,859", …) |
| Deepseek.UserPrompt | src/lib/deepseek.ts:829-866 | the summary prompt with a mock summary, else the recent-metrics prompt (first five rows), else the bare question with the command or no-data note; Deepseek.QuestionPhraseInPrompt states that the question survives into it |
| Deepseek.AnswerQuestion | src/lib/deepseek.ts:772-871 | in mock mode the answer is the classification of the lowercased user prompt |
| Deepseek.QuestionPhraseInPrompt | src/lib/deepseek.ts:831-866 | any phrase in the lowercased question is also in the lowercased prompt, whichever prompt is built |
| Deepseek.CyberMondayQuestion | src/lib/deepseek.ts:79-112 | in mock mode a question naming Cyber Monday gets the Cyber Monday answer whatever the context |
| Deepseek.ActionQuestion | src/lib/deepseek.ts:164-206 | in mock mode a question with a named-campaign or action phrase gets one of those two answers whatever the context |
| Deepseek.BestPracticesLowered | src/lib/deepseek.ts:858-866 | the lowercased note that ends in "best practices." contains "best" |
| Deepseek.BestPhraseRank | src/lib/deepseek.ts:79-242 | a top-performer phrase ("best", "top", …) in the message means the answer comes from one of the first three rules |
| Deepseek.BestPracticesAnswer | src/lib/deepseek.ts:858-871 | a bot command with no summary and no recent metrics gets, in mock mode, an answer from one of the first three rules |
| Deepseek.TopLineInPrompt | src/lib/deepseek.ts:831-849 | whatever the "Top Performer" line contains, the summary prompt contains |
| Deepseek.SummaryPromptSplit | src/lib/deepseek.ts:831-849 | the summary prompt always contains "top", and contains "cyber monday" when the best campaign's name does |
| Deepseek.SummaryAnswer | src/lib/deepseek.ts:831-849 | with a mock summary the mock answer comes from one of the first three rules, and is the Cyber Monday answer when the best campaign is named so |
| AiModeStore.ModeOf | src/app/api/telegram/webhook/route.ts:47-49 | a user is in AI mode iff the map holds true for them; a user without an entry is not |
| AiModeStore.ModeIsMembership | src/app/api/telegram/webhook/route.ts:43-53 | when the map only ever holds true, being in AI mode is having an entry |
| AiModeStore.IsExitCommand | src/app/api/telegram/webhook/route.ts:144-148 | the lowercased text is "/exit", "/stop" or "/end"; its case-insensitivity is stated by AiModeStore.ExitCommandIgnoresCase |
| AiModeStore.ExitCommandIgnoresCase | src/app/api/telegram/webhook/route.ts:144-148 | "/exit", "/stop" and "/end" are recognised whatever their letter case |
| AiModeStore.ModeStore.constructor | src/app/api/telegram/webhook/route.ts:40 | the map starts empty |
| AiModeStore.ModeStore.SetUserAiMode | src/app/api/telegram/webhook/route.ts:43-45 | sets the user's entry and nothing else |
| AiModeStore.ModeStore.IsUserInAiMode | src/app/api/telegram/webhook/route.ts:47-49 | reads the user's entry, false when absent |
| AiModeStore.ModeStore.ClearUserAiMode | src/app/api/telegram/webhook/route.ts:51-53 | removes the user's entry and nothing else |
| Webhook.CommandOf | src/app/api/telegram/webhook/route.ts:163-175 | prefixes are tested in the order /start, /help, /ai, each iff the text starts with it |
| Webhook.FirstName | src/app/api/telegram/webhook/route.ts:104-110 | the first name is the given one when truthy, otherwise a non-empty default |
| Webhook.ConversationContext | src/app/api/telegram/webhook/route.ts:344-380 | the AI conversation passes a bot-command context with the recent metrics and no mock data |
| Webhook.Respond | src/app/api/telegram/webhook/route.ts:98-207 | no user gets the apology; the exit and AI replies come exactly for an authenticated user in AI mode, where exit commands exit and other text goes to the AI; outside it /start, /help and /ai each give their reply exactly when the text starts with them, and other text is unrecognised |
| Webhook.NextState | src/app/api/telegram/webhook/route.ts:122-175 | only /ai outside AI mode sets the user's mode, only an exit command in AI mode clears it, no user leaves the map unchanged, and other users' entries never change |
| Webhook.NextStateOnlyTrue | src/app/api/telegram/webhook/route.ts:140-175 | handling a message keeps every stored mode true |
| Webhook.HandleMessage | src/app/api/telegram/webhook/route.ts:98-207 | the reply and the new map are those that Respond and NextState give for the old map |
| Webhook.PostResponse | src/app/api/telegram/webhook/route.ts:55-96 | an unparsable body gets 400 before the secret is checked, a wrong secret gets 401, a null body 500, otherwise `{ok:true}` |
| Webhook.Post | src/app/api/telegram/webhook/route.ts:55-96 | the response is PostResponse's; a message is handled only when acknowledged, and an update without text leaves the map unchanged |
| Webhook.NoMetricsAnswer | src/app/api/telegram/webhook/route.ts:344-380 | with no recent metrics, an AI conversation in mock mode gets an answer from one of the first three rules |
| WebhookSimple.CommandOf | src/app/api/telegram/webhook-simple/route.ts:106-176 | prefixes are tested in the order /start, /help, /ai, /insights |
| WebhookSimple.SecretMatches | src/app/api/telegram/webhook-simple/route.ts:52-56 | strict equality of the header with the configured secret, so an absent header never passes; used by WebhookSimple.PostResponse |
| WebhookSimple.MockContext | src/app/api/telegram/webhook-simple/route.ts:243-253 | the AI conversation always passes isMockData and isAICommand true, with the mock summary |
| WebhookSimple.Respond | src/app/api/telegram/webhook-simple/route.ts:72-180 | the exit and AI replies come exactly in AI mode, where exit commands exit and other text goes to the AI; outside it /start, /help, /ai and /insights each give their reply exactly when the text starts with them, and other text is echoed |
| WebhookSimple.NextState | src/app/api/telegram/webhook-simple/route.ts:83-161 | only /ai outside AI mode sets the mode, only an exit command in AI mode clears it, other users never change |
| WebhookSimple.HandleSimpleMessage | src/app/api/telegram/webhook-simple/route.ts:72-180 | the reply and the new map are those that Respond and NextState give for the old map |
| WebhookSimple.PostResponse | src/app/api/telegram/webhook-simple/route.ts:45-70 | a secret mismatch gets 401 before the body is read, an unreadable body 500, otherwise `{ok:true}` |
| WebhookSimple.Post | src/app/api/telegram/webhook-simple/route.ts:45-70 | a handled message is always acknowledged; an update without text leaves the map unchanged |
| WebhookSimple.MockAnswer | src/app/api/telegram/webhook-simple/route.ts:217-253 | in mock mode every AI conversation gets an answer from one of the first three rules |
| Middleware.KeyInQueryString | src/middleware.ts:19 | every query parameter's key occurs in the serialised query string |
| Middleware.IsTelegramMiniApp | src/middleware.ts:22-46 | the Telegram hints in agent, referer, origin, requested-with, init data and query, or a /dashboard request via ngrok or from a non-browser agent; stated by Middleware.StartParamImpliesTg and Middleware.NonBrowserDashboardPasses |
| Middleware.MatcherApplies | src/middleware.ts:96-107 | the matcher: every path except those under api, _next/static, _next/image and favicon.ico; stated by Middleware.MatcherSkips |
| Middleware.StartParamImpliesTg | src/middleware.ts:37-39 | the `tgWebAppStartParam` test is implied by the "tg" query-string test |
| Middleware.IsAuthenticated | src/middleware.ts:74-78 | authenticated iff there is a truthy authorization header or the auth cookie |
| Middleware.Decide | src/middleware.ts:58-93 | /dashboard passes on the Telegram heuristic, on an ngrok host or when authenticated; otherwise it redirects to /auth/signin with redirect=/dashboard; an authenticated /auth/signin goes to /dashboard; other paths pass |
| Middleware.NgrokCheckRedundant | src/middleware.ts:41-70 | the second ngrok check never changes the decision |
| Middleware.NonBrowserDashboardPasses | src/middleware.ts:43-46 | a /dashboard request whose agent names neither Chrome, Firefox nor Safari (case-sensitively) always passes |
| Middleware.MatcherSkips | src/middleware.ts:96-107 | paths starting with api, _next/static, _next/image or favicon.ico are not matched |
| Auth.Select | src/lib/auth.ts:32-36 | a query returns exactly the rows that match its filter |
| Auth.Single | src/lib/auth.ts:36 | `.single()` succeeds iff exactly one row matches, and returns that row |
| Auth.UpdateWhere | src/lib/auth.ts:40-54 | an update rewrites exactly the matching rows |
| Auth.DeleteWhere | src/lib/auth.ts:217-220 | a delete removes exactly the matching rows |
| Auth.PatchAll | src/lib/auth.ts:40-54 | applies one patch to each row |
| Auth.SelectAppend | src/lib/auth.ts:79-83 | a query over an appended row is the query over the old rows plus the new row's match |
| Auth.SelectAfterProfileUpdate | src/lib/auth.ts:40-54 | after the profile update, the rows with that telegram_id are the old ones updated |
| Auth.SelectAfterIdUpdate | src/lib/auth.ts:118-129 | after an update by id, the rows with that id are the old ones updated |
| Auth.NewTelegramUser | src/lib/auth.ts:66-77 | a new Telegram row has language "en" by default, is_premium false by default, and provider telegram |
| Auth.NewGoogleUser | src/lib/auth.ts:140-156 | a new Google row carries the Google id and email, language "en" and provider google |
| Auth.TelegramLogin | src/lib/auth.ts:25-96 | an existing row is updated (or returned unchanged when the update fails) with isNewUser false; otherwise one row is inserted with isNewUser true; an insert error returns its message and an exception "Authentication failed" |
| Auth.TelegramLoginThenFound | src/lib/auth.ts:65-91 | after a successful first login, the user's telegram_id finds exactly the inserted row |
| Auth.TelegramLoginValid | src/lib/auth.ts:25-96 | login keeps row ids unique and below the next id |
| Auth.GoogleLogin | src/lib/auth.ts:101-171 | a single row matching google_id or email is updated, keeping its names and avatar; zero or several matches insert a fresh Google row |
| Auth.GoogleLoginValid | src/lib/auth.ts:101-171 | Google login keeps row ids unique and below the next id |
| Auth.GoogleLoginUpdated | src/lib/auth.ts:118-129 | on update, google_id and email are overwritten; existing truthy first name, last name and avatar win, and otherwise the Google profile's given value is written |
| Auth.UpdatedSingle | src/lib/auth.ts:118-129 | on a table with unique ids, an update by a row's id reads back through `.single()` as that row patched |
| Auth.SelectSingleId | src/lib/auth.ts:118-129 | with unique ids, selecting a row's id finds exactly that row |
| Auth.NoneSelected | src/lib/auth.ts:32-36 | a filter matching no row selects nothing |
| Auth.GoogleLoginAmbiguous | src/lib/auth.ts:107-166 | when the OR-lookup matches zero or several rows, a new row is inserted |
| Auth.Link | src/lib/auth.ts:176-228 | as written: false with no change if either user is missing or the update fails; on success the table does not grow, holds only old rows and the merged Telegram row (the Google row's google_id and email, `google.avatar_url \|\| telegram.avatar_url`), and keeps every other untouched row; after the delete no row has the Google row's id, and when the unchecked delete fails the Google row stays beside the merged one |
| Auth.LinkSameRowDeletes | src/lib/auth.ts:194-223 | when both lookups find the same row, the merged row is deleted and the call still reports success |
| Auth.MergedRowDeleted | src/lib/auth.ts:194-223 | as written, once the Telegram row is merged with itself, no row with that telegram_id survives the delete |
| Auth.SingleMatchIsRow | src/lib/auth.ts:36 | any row matching a filter that `.single()` answered is that answer |
| Auth.LinkSameRowExample | src/lib/auth.ts:194-223 | a one-row table linked to itself ends empty |
| Auth.LinkFixed | src/lib/auth.ts:176-228 | corrected: the same failures and the same bound on the resulting table; on success the merged Telegram row always survives, every other untouched row survives, and the Google row is deleted only when it is a different row and the delete succeeds |
| Auth.MergeKept | src/lib/auth.ts:206-215 | the merge update keeps the single matching row, patched, and every row it does not match, and adds no other row |
| Auth.LinkMergeSurvives | src/lib/auth.ts:206-220 | after the merge and the delete by the Google row's id, the merged row survives unless it carries that id, so does every untouched row with another id, and every remaining row is an old one or the merged one |
| Auth.LinkRowsDeleted | src/lib/auth.ts:206-220 | after the merge and a successful delete: no growth, only old rows and the merged row, untouched rows kept, the Google id gone, the merged row kept when it is another row |
| Auth.LinkRowsKept | src/lib/auth.ts:206-220 | after the merge alone: the same length, only old rows and the merged row, untouched rows and the merged row kept, and a distinct Google row left in place |
| Auth.GoogleRowUntouched | src/lib/auth.ts:206-215 | a Google row other than the Telegram row is not matched by the Telegram id, so the merge leaves it in the table |
| Auth.LinkDeleteFailsDuplicates | src/lib/auth.ts:218-222 | when the ignored delete fails on two distinct rows, linking still reports success and a lookup by the Google id no longer finds a single user |
| Auth.TwoMatchesNoSingle | src/lib/auth.ts:190-195 | two different matching rows make `.single()` fail |
| Auth.LinkFixedKeepsTelegramRow | src/lib/auth.ts:194-223 | after a successful corrected link, the Telegram user's row survives and carries the Google id |
| Auth.UserTable.constructor | src/lib/auth.ts:1-23 | the table starts empty |
| Auth.UserTable.Insert | src/lib/auth.ts:79-83 | an insert appends one row with the next id |
| Auth.UserTable.AuthenticateTelegramUser | src/lib/auth.ts:25-96 | the table and result are those TelegramLogin gives |
| Auth.UserTable.AuthenticateGoogleUser | src/lib/auth.ts:101-171 | the table and result are those GoogleLogin gives |
| Auth.UserTable.LinkAccounts | src/lib/auth.ts:176-228 | the table and result are those Link gives |
| Auth.UserTable.GetUserByTelegramId | src/lib/auth.ts:233-254 | the row with the telegram_id when exactly one matches, else none |
| Auth.UserTable.GetUserByGoogleId | src/lib/auth.ts:256-274 | the row with the google_id when exactly one matches, else none |
| Utils.GuardedRatio | src/lib/utils.ts:48-66 | 0 when the denominator is 0, else the quotient |
| Utils.GuardedRatioZero | src/lib/utils.ts:48-66 | a guarded ratio is 0 iff its denominator or numerator is 0 |
| Utils.CalculateRoas | src/lib/utils.ts:48-51 | 0 when spend is 0, else revenue / spend |
| Utils.CalculateCtr | src/lib/utils.ts:53-56 | 0 when impressions are 0, else clicks / impressions |
| Utils.CalculateCpc | src/lib/utils.ts:58-61 | 0 when clicks are 0, else spend / clicks |
| Utils.CalculateCpa | src/lib/utils.ts:63-66 | 0 when conversions are 0, else spend / conversions |
| Utils.PerformanceColor | src/lib/utils.ts:68-92 | the ROAS, CTR, CPC and CPA thresholds of the green and red bands, gray for any other type |
| Utils.PerformanceColorMonotone | src/lib/utils.ts:72-88 | raising ROAS or CTR never moves toward red; raising CPC or CPA never moves toward green |
| Utils.ValidateTelegramWebAppData | src/lib/utils.ts:94-98 | accepts every input |
| PlatformGroups.AddTo | src/components/Dashboard/InsightsPanel.tsx:78-85 | a campaign either bumps its platform's group or adds one |
| PlatformGroups.Groups | src/components/Dashboard/InsightsPanel.tsx:78-85 | the reduce over the campaigns in order; its entries are stated by PlatformGroups.GroupsAgree, PlatformGroups.GroupsDistinct and PlatformGroups.GroupsTotals |
| Types.PlatformKey | src/components/Dashboard/InsightsPanel.tsx:79 | the platform name when truthy, else "Unknown" |
| Types.SpendOf | src/components/Dashboard/InsightsPanel.tsx:61 | `metrics?.spend \|\| 0`: the spend, 0 without metrics |
| Types.RevenueOf | src/components/Dashboard/InsightsPanel.tsx:62 | `metrics?.revenue \|\| 0`: the revenue, 0 without metrics |
| Types.RoasOf | src/components/Dashboard/InsightsPanel.tsx:29 | `metrics?.roas \|\| 0`: the ROAS, 0 without metrics |
| PlatformGroups.Find | src/components/Dashboard/InsightsPanel.tsx:80-82 | a lookup by platform finds that platform's group or proves there is none |
| PlatformGroups.FindAddTo | src/components/Dashboard/InsightsPanel.tsx:78-85 | adding a campaign changes only its own platform's group |
| PlatformGroups.AddToDistinct | src/components/Dashboard/InsightsPanel.tsx:78-85 | adding a campaign keeps one group per platform |
| PlatformGroups.AddToSums | src/components/Dashboard/InsightsPanel.tsx:78-85 | adding a campaign adds 1 to the counts and its spend and revenue to the sums |
| PlatformGroups.NoCampaignsNoSums | src/components/Dashboard/InsightsPanel.tsx:78-85 | a platform without campaigns has zero spend and revenue |
| PlatformGroups.GroupsAgree | src/components/Dashboard/InsightsPanel.tsx:78-85 | each platform's group holds its campaign count and spend and revenue sums |
| PlatformGroups.GroupsDistinct | src/components/Dashboard/InsightsPanel.tsx:78-85 | the reduce yields one group per platform |
| PlatformGroups.GroupsTotals | src/components/Dashboard/InsightsPanel.tsx:78-85 | the counts sum to the number of campaigns, the spends and revenues to the totals |
| PlatformGroups.AddToAt | src/components/Dashboard/InsightsPanel.tsx:80-84 | an existing platform's group is bumped in place |
| PlatformGroups.AddToMissing | src/components/Dashboard/InsightsPanel.tsx:80-81 | a new platform's group is appended with count 1 |
| PlatformGroups.GroupByPlatform | src/components/Dashboard/InsightsPanel.tsx:78-85 | the in-place reduce computes the platform groups |
| InsightsPanel.UnderperformingText | src/components/Dashboard/InsightsPanel.tsx:49-50 | the warning text starts with the count |
| InsightsPanel.BestCampaign | src/components/Dashboard/InsightsPanel.tsx:27-29 | the best campaign has metrics and the highest ROAS among them; none iff no campaign has metrics |
| InsightsPanel.BestCampaignFirst | src/components/Dashboard/InsightsPanel.tsx:26-28 | of campaigns with equal ROAS the first is named: the best campaign occurs no later than any campaign with metrics whose ROAS reaches its own |
| Seqs.FilterSortHeadFirst | src/components/Dashboard/InsightsPanel.tsx:27-29 | the head of the stably sorted filter occurs no later than any kept element whose key reaches its own |
| InsightsPanel.BestPlatform | src/components/Dashboard/InsightsPanel.tsx:87-89 | the best platform has the highest non-NaN ROAS; none iff every platform's ROAS is NaN |
| InsightsPanel.BestPlatformFirst | src/components/Dashboard/InsightsPanel.tsx:87-89 | of platforms with equal ROAS the first is named: the best platform occurs no later than any non-NaN platform whose ROAS reaches its own |
| InsightsPanel.HighPerformerPart | src/components/Dashboard/InsightsPanel.tsx:27-41 | at most one insight, and only a best-campaign one |
| InsightsPanel.UnderperformingPart | src/components/Dashboard/InsightsPanel.tsx:44-58 | at most one insight, and only an underperforming one |
| InsightsPanel.BudgetPart | src/components/Dashboard/InsightsPanel.tsx:61-75 | at most one insight, and only a budget one |
| InsightsPanel.PlatformPart | src/components/Dashboard/InsightsPanel.tsx:78-101 | at most one insight, and only a platform one |
| InsightsPanel.Insights | src/components/Dashboard/InsightsPanel.tsx:22-104 | the four parts in rule order; stated by InsightsPanel.InsightsOrdered and the four Iff lemmas |
| InsightsPanel.SlotsOrdered | src/components/Dashboard/InsightsPanel.tsx:22-103 | parts of at most one insight each, from rules 0 to 3, concatenate into a list in rule order |
| InsightsPanel.InsightsOrdered | src/components/Dashboard/InsightsPanel.tsx:22-103 | at most four insights, in the order best campaign, underperforming, budget, platform |
| InsightsPanel.HighPerformerIff | src/components/Dashboard/InsightsPanel.tsx:27-41 | the best-campaign insight appears iff some campaign with metrics has ROAS above 4 |
| InsightsPanel.UnderperformingIff | src/components/Dashboard/InsightsPanel.tsx:44-58 | the warning appears iff some campaign with metrics has ROAS below 2, and carries that count |
| InsightsPanel.ZeroSpendBudgetInsight | src/components/Dashboard/InsightsPanel.tsx:61-75 | zero spend with positive revenue gives the budget insight with an Infinity ROAS |
| InsightsPanel.BudgetIff | src/components/Dashboard/InsightsPanel.tsx:61-75 | with positive spend, the budget insight appears iff revenue exceeds three times spend |
| InsightsPanel.PlatformIff | src/components/Dashboard/InsightsPanel.tsx:78-101 | the platform insight appears iff some platform's ROAS exceeds 3.5 |
| InsightsPanel.GenerateInsights | src/components/Dashboard/InsightsPanel.tsx:22-104 | the step-by-step pushes produce exactly the specified insights |
| InsightsPanel.GetColorClasses | src/components/Dashboard/InsightsPanel.tsx:108-143 | green, red and blue get their own classes, anything else gray |
| InsightsPanel.InsightsNeverGray | src/components/Dashboard/InsightsPanel.tsx:108-143 | no generated insight falls back to the gray classes |
| PerformanceChart.Truncate | src/components/Dashboard/PerformanceChart.tsx:35 | a longer name becomes its first n characters plus "..."; a shorter one is unchanged |
| PerformanceChart.RoasData | src/components/Dashboard/PerformanceChart.tsx:32-42 | the campaigns with metrics as points, sorted by ROAS, first ten; stated by PerformanceChart.RoasDataShape, PerformanceChart.RoasDataCount and PerformanceChart.RoasDataIsTop |
| PerformanceChart.BudgetVsPerformance | src/components/Dashboard/PerformanceChart.tsx:62-72 | the campaigns with metrics as bars, sorted by revenue, first eight; stated by PerformanceChart.BudgetVsPerformanceShape, PerformanceChart.BudgetVsPerformanceCount and PerformanceChart.BudgetVsPerformanceIsTop |
| PerformanceChart.RoasDataShape | src/components/Dashboard/PerformanceChart.tsx:32-42 | at most 10 points, in non-increasing ROAS order, each from a campaign with metrics |
| PerformanceChart.RoasDataCount | src/components/Dashboard/PerformanceChart.tsx:32-42 | 10 points, or one per campaign with metrics when there are fewer; as a multiset, the points are contained in the mapped campaigns with metrics |
| PerformanceChart.RoasDataIsTop | src/components/Dashboard/PerformanceChart.tsx:32-42 | a campaign whose ROAS beats the tenth point shown is itself shown |
| PerformanceChart.BudgetVsPerformanceShape | src/components/Dashboard/PerformanceChart.tsx:62-72 | at most 8 bars, in non-increasing revenue order, each from a campaign with metrics, names cut at 12 |
| PerformanceChart.BudgetVsPerformanceCount | src/components/Dashboard/PerformanceChart.tsx:62-72 | 8 bars, or one per campaign with metrics when there are fewer; as a multiset, the bars are contained in the mapped campaigns with metrics |
| PerformanceChart.BudgetVsPerformanceIsTop | src/components/Dashboard/PerformanceChart.tsx:62-72 | a campaign whose revenue beats the eighth bar shown is itself shown |
| Seqs.TopOfSort | src/components/Dashboard/PerformanceChart.tsx:41-42 | sorting then taking k keeps min(n, k) elements, a sub-multiset of the input |
| PerformanceChart.PlatformDataTotals | src/components/Dashboard/PerformanceChart.tsx:44-60 | every campaign counts toward its platform; the counts sum to the number of campaigns and the spends to the total spend |
| PerformanceChart.PieColor | src/components/Dashboard/PerformanceChart.tsx:25-28 | every pie cell gets one of the ten colours |
| PerformanceChart.PieColorCycle | src/components/Dashboard/PerformanceChart.tsx:171-173 | the colours repeat every ten cells and the first ten differ |
| AdPlatforms.PlatformNameInjective | src/types/index.ts:98 | distinct platforms have distinct names |
| AdPlatforms.MapAccount | src/services/adPlatforms.ts:82-92 | a Meta account is active iff account_status is 1, never "error", with platform meta and the account's id and name |
| AdPlatforms.MapCampaign | src/services/adPlatforms.ts:106-119 | the status is lowercased, the account id is the requested one, the budget type is daily iff the daily budget is truthy |
| AdPlatforms.ChosenBudget | src/services/adPlatforms.ts:113 | `daily_budget \|\| lifetime_budget \|\| 0`; stated by AdPlatforms.MapCampaignBudget |
| AdPlatforms.MapCampaignBudget | src/services/adPlatforms.ts:113-114 | the budget is the daily budget, else the lifetime budget, else 0, and agrees with the budget type |
| AdPlatforms.MapCampaignStatusLowered | src/services/adPlatforms.ts:111 | the mapped status is already lower case |
| AdPlatforms.MapMetric | src/services/adPlatforms.ts:134-149 | the id is campaignId-date_start, and no figure is NaN |
| AdPlatforms.MapMetricFigures | src/services/adPlatforms.ts:138-147 | unparsable figures become 0 and parsable ones (impressions, clicks, spend, conversions, revenue) are kept; each of ctr, cpc, cpa and roas is its two figures' `a / b \|\| 0`: 0 when either is unparsable, both are 0, the denominator is infinite or both are; the quotient over a non-zero finite denominator; an infinity of the numerator's sign over zero; an infinite numerator stays infinite over a finite denominator, flipped by a negative one |
| AdPlatforms.MetricIdSplits | src/services/adPlatforms.ts:135 | the metric id reads back as campaign id and date, so two days never share an id |
| AdPlatforms.Authenticate | src/services/adPlatforms.ts:51-72 | an error reply fails with its message; Meta keeps only the access token, Google also the refresh token |
| AdPlatforms.RefreshToken | src/services/adPlatforms.ts:152-157 | Meta always fails with "Meta token refresh not implemented"; Google passes the exchange's outcome on |
| AdPlatforms.GetAccounts | src/services/adPlatforms.ts:74-93 | an error reply fails; Meta maps every account in order; Google returns [] |
| AdPlatforms.GetCampaigns | src/services/adPlatforms.ts:95-120 | an error reply fails; Meta maps every campaign in order; Google returns [] |
| AdPlatforms.GuardedQuotient | src/services/adPlatforms.ts:143-147 | `a / b \|\| 0` on any two parsed figures, NaN and ±Infinity included, follows the IEEE case table: 0 for NaN, 0/0, x/±Infinity and ±Infinity/±Infinity; a/b for finite non-zero b; a signed infinity for an infinite numerator or a zero denominator |
| AdPlatforms.GetMetrics | src/services/adPlatforms.ts:122-150 | an error reply fails; Meta maps every day in order; Google returns [] |
| AdPlatforms.MetaMetricsIds | src/services/adPlatforms.ts:134-136 | all metrics belong to the requested campaign and distinct days get distinct ids |
| AdPlatforms.AdPlatformManager.constructor | src/services/adPlatforms.ts:243-246 | the registry holds exactly meta and google |
| AdPlatforms.AdPlatformManager.GetIntegration | src/services/adPlatforms.ts:248-254 | a registered platform gets its integration; any other fails with "Platform X not supported" |
| AdPlatforms.SupportedPlatforms | src/services/adPlatforms.ts:240-254 | a fresh manager serves exactly meta and google and refuses tiktok with its message |
| Telegram.BotToken | src/lib/telegram.ts:20-27 | the token when set and non-empty, else the "TELEGRAM_BOT_TOKEN not configured" error |
| Telegram.SendMessageResult | src/lib/telegram.ts:33-61 | true iff the token exists and the reply's ok flag is true; false on any exception |
| Telegram.ValidateWebhookData | src/lib/telegram.ts:160-168 | true iff a secret is configured and equals the token |
| Telegram.AlertTemplate | src/lib/telegram.ts:102-111 | the four known alert types each give a template naming the campaign; others give none |
| Telegram.CampaignAlert | src/lib/telegram.ts:97-118 | sent as Markdown; the fallback text exactly for unknown alert types, else naming the campaign |
| Telegram.TopInsightLine | src/lib/telegram.ts:128 | the "Top Insight" line appears iff the insight is truthy, and carries it |
| Telegram.DailySummaryMessage | src/lib/telegram.ts:120-137 | sent as Markdown, with the top-insight line exactly when the insight is truthy |
| Telegram.BotCommands | src/lib/telegram.ts:64-77 | exactly start, ai and help, in that order |
| Telegram.SetBotCommandsResult | src/lib/telegram.ts:63-95 | true iff the token exists and the reply's ok flag is true |
| MetricsCard.FormatValue | src/components/Dashboard/MetricsCard.tsx:22-32 | currency to the currency formatter, percentage to the percentage formatter, anything else to the locale number |
| MetricsCard.TrendIcon | src/components/Dashboard/MetricsCard.tsx:34-41 | no icon when the previous value is missing or 0; up iff the value rose, down iff it fell, flat iff equal |
| MetricsCard.TrendTextOf | src/components/Dashboard/MetricsCard.tsx:43-55 | no text without a baseline; otherwise the percentage times the baseline's magnitude is the change's magnitude times 100, "+" only for a rise; green exactly for a rise, red exactly for a fall, gray exactly for no change |
| MetricsCard.TrendTextMatchesIcon | src/components/Dashboard/MetricsCard.tsx:34-55 | text and icon appear together; "+" with the up arrow, red with the down arrow, 0% exactly with the flat one |
| MetricsCard.TrendTextDropsMinus | src/components/Dashboard/MetricsCard.tsx:46-49 | a rise and a fall by the same amount show the same percentage; the fall has no minus sign |
| MetricsCard.ValueColor | src/components/Dashboard/MetricsCard.tsx:57 | the performance colour when a type is given, else "text-gray-900" |
| MetricsCard.ValueColorBands | src/components/Dashboard/MetricsCard.tsx:57 | a typed card is green, yellow or red, and a ROAS card is green iff the value is at least 4 |
| AnimatedMetricsCard.FormatValue | src/components/Dashboard/AnimatedMetricsCard.tsx:29-50 | strings are shown unchanged; numbers go to the currency, percentage, ROAS-times (ROAS card) or locale (other card) format, each keeping the number |
| AnimatedMetricsCard.GradientColor | src/components/Dashboard/AnimatedMetricsCard.tsx:52-61 | non-ROAS cards are indigo; ROAS is green at 4 or more, blue from 3 to below 4, yellow from 2 to below 3, and red below 2 (NaN included) |
| AnimatedMetricsCard.GradientMonotone | src/components/Dashboard/AnimatedMetricsCard.tsx:53-58 | a higher ROAS never gets a worse gradient; unparsable ROAS text is red |
| AnimatedMetricsCard.GradientTextAgrees | src/components/Dashboard/AnimatedMetricsCard.tsx:54 | a number and a text parsing to it get the same gradient |
| AnimatedMetricsCard.TrendBadge | src/components/Dashboard/AnimatedMetricsCard.tsx:111-131 | a badge iff a trend is given, whose magnitude is the non-negative one of the value and its negation, styled up iff the direction is up |
| AnimatedMetricsCard.BadgeIgnoresSign | src/components/Dashboard/AnimatedMetricsCard.tsx:121-131 | the sign of the trend value never shows |
| CampaignList.StatusColor | src/components/Dashboard/CampaignList.tsx:26-39 | active green, paused yellow, completed blue, deleted red, anything else gray, by the lowercased status |
| CampaignList.StatusColorIgnoresCase | src/components/Dashboard/CampaignList.tsx:27 | the badge colour does not depend on letter case |
| CampaignList.ToggleTarget | src/components/Dashboard/CampaignList.tsx:142-145 | "paused" iff the status is exactly "active", else "active" |
| CampaignList.ToggleRoundTrip | src/components/Dashboard/CampaignList.tsx:142-145 | toggling twice restores active or paused; every other status is sent to active |
| CampaignList.ToggleIsCaseSensitive | src/components/Dashboard/CampaignList.tsx:109-144 | an "ACTIVE" campaign wears the green badge yet its toggle asks for "active" |
| CampaignList.CountLine | src/components/Dashboard/CampaignList.tsx:87 | the count line starts with the number of campaigns |
| CampaignList.CountLinePlural | src/components/Dashboard/CampaignList.tsx:87 | "campaign" is singular exactly for one campaign |
| CampaignList.CampaignView | src/components/Dashboard/CampaignList.tsx:46-114 | loading shows the skeleton whatever the list; an empty list shows "No campaigns found"; otherwise one row per campaign, in order, each the campaign's own row (id, name, badge, toggle, metrics iff the campaign has them) |
| CampaignList.RowsToggleAgree | src/components/Dashboard/CampaignList.tsx:144-152 | the pause icon shows exactly when the toggle would pause |

## Left out

- Network calls are not modelled. Each one is replaced by an outcome value passed in as
  a parameter. This covers:
  - the `fetch` in `DeepseekClient.chat`;
  - the Telegram API calls, including the typing indicator and `setWebhook`;
  - the provider OAuth and Graph API requests.
- `generateCampaignInsights` and `generateDashboardSummary` are not modelled. They only
  pass fixed prompts to `chat`.
- Supabase is not part of this model; an in-memory table stands in for it:
  - Timestamps and the `name` column are omitted.
  - A failed lookup is treated as "not found", as the code does.
- `syncAccountData` is not modelled. Its loop only issues network calls.
- The thin HTTP route handlers outside the two webhooks are not modelled. The same goes
  for the React rendering, animation and pages.
- Floating-point rounding and number formatting are not modelled. Figures are reals, and
  a formatted number is represented by which formatter it went to. This covers
  `toFixed`, `toLocaleString`, `Intl.NumberFormat` and date formatting.
- JsNumber.DivParsed does not model the sign of zero: a zero divisor counts as +0. In the
  source, a figure parsed from "-0" is -0, and a positive value divided by it is
  -Infinity where the model gives Infinity.
- Timestamps, random ids, `debounce` and logging are not modelled.
- Concurrency is not modelled. The process-global AI-mode map is modelled
  single-threaded.
- Messages without a chat or a sender are not modelled. Both handlers read `message.chat.id`
  and `message.from.id` before their own `try`, so such a message makes both `POST`
  handlers answer 500 `{error: "Internal error"}`. The model's message type always
  carries a chat and a sender.
- Telegram.AlertTemplate and PlatformGroups.Groups do not model lookups of keys inherited
  from `Object`, such as "constructor". The model treats such an alert type as unknown,
  and a platform of that name as a new group; in the source's reduce the inherited value
  is truthy, so no group would be created for it.
- InsightsPanel.BestPlatform picks the highest ROAS among the non-NaN platforms.
  - A platform with zero spend and zero revenue has NaN ROAS.
  - The JavaScript sort's placement of a NaN under a NaN-producing comparator depends on
    the engine. There, a NaN group sorted first can hide the insight.
- PlatformGroups.Groups keeps platforms in first-seen order. JavaScript's
  `Object.values` (PerformanceChart.tsx:60) and `Object.entries` (InsightsPanel.tsx:87)
  put integer-like keys first; platform names are not such keys.
- Lower-casing and lengths are ASCII and code-point based. `toLowerCase` on non-ASCII
  letters is not modelled, nor the UTF-16 length that `substring` counts.
- `parseInt` and `parseFloat` are not modelled. Their results are given as inputs to the
  Meta metric mapping and the animated card.
- The `|| 0` on a metrics record's own roas, spend and revenue fields in the chart data
  is not modelled. These fields are required numbers of `AdMetrics`, which is a real here.
- Deepseek.BestPracticesAnswer is weaker than the source's promise. It proves that such
  a question gets the answer of one of the first three rules. It does not prove the
  converse: that without a rule-1 or rule-2 phrase the answer is the top-performer one.
  That needs "phrase not in this text" facts about long literal prompts, which the
  verifier cannot evaluate within its limits.
- Deepseek.SummaryAnswer is weaker in the same way. It bounds the answer's rank by three
  but does not pin it down.

## Findings

| source | as written | input that shows it | evidently intended | confidence | as-written member | corrected member |
|---|---|---|---|---|---|---|
| src/lib/auth.ts:194-223 | `linkAccounts` merges the Google fields into the Telegram row, then deletes the row with the Google user's id | a user whose single row already has both telegram_id "7" and google_id "g", linked with ("7", "g"): both lookups find that row, it is merged and then deleted, and the call returns true | delete the Google row only when it is a different row from the Telegram row | not executed | Auth.LinkSameRowDeletes | Auth.LinkFixedKeepsTelegramRow |
