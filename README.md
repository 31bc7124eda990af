# Bestow web client: simulated vault, campaign hub, risk scorer, launch form and chat assistant

Bestow is a crowdfunding platform. Campaigns hold donations in escrow, and a
yield vault pays interest on deposits. The web client's vault, explore and
launch pages run against a browser-side simulation. This project models that
simulation and the client logic around it:

- **MockContracts** (`web/lib/mockContracts.ts`): one user's simulated state.
  - The state is a USDC balance, one position per vault and the list of campaigns.
  - The vault operations are deposit, withdraw, yield calculation and the user-data read.
  - The hub operations are create campaign, list campaigns and donate.
  - The state is a class `UserState`. Deposit, withdraw, create campaign and donate are methods that change it. The position, yield, user-data and campaign-list reads are functions of it.
  - Yield is the linear 12.5%-a-year accrual of the source.
  - The deposit restarts the 20-second lockup.
  - Every error path of the source is modelled: short balance, short position, funds locked, unknown campaign.
- **RiskAnalysis** (`web/lib/riskAnalysis.ts`): the heuristic risk report.
  - It scores eleven red-flag keywords, the description length, the goal size and shouting in capitals.
  - The raw score is graded into a level and capped at 100.
  - The method `AnalyzeRisk` keeps the source's imperative shape: a keyword loop, then the rule checks.
  - It is proved equal to a functional report `Report`, whose properties are proved as lemmas.
- **Milestones** and **Launch** (`web/app/launch/page.tsx`): the campaign launch form.
  - The form holds milestone rows. New rows are blank, and percentages come from an integer parse that may give NaN.
  - Submission passes three guards in order: wallet connected, fields filled, percentages summing to 100.
  - It then analyses the risk and builds the payload, which carries the risk score and level.
  - The handler first asks the contract service in `web/lib/contracts.ts` to create the campaign. That service defines no such operation, so the call always throws, and every accepted launch goes into the simulated hub.
- **ChatBot** (`web/components/ChatBot.tsx`): the keyword-matching assistant.
  - The reply comes from a first-match scan of the six-entry knowledge table over the lower-cased input.
  - The session ignores blank input and otherwise appends the user's message and the reply.
- **Text**: the string primitives the client relies on: lower/upper case, substring containment and trimming.

What the simulation does, as the code states it:
- Vault yield is a flat 12.5% a year.
- The lockup is 20 seconds from the last deposit.
- Input checks:
  - The simulated deposit, withdrawal and donation do not check that the amount is positive; the pages calling them do.
  - The launch form checks no minimum lengths, durations or per-row percentage ranges.
  - The only percentage check is the total of 100.
- Donations carry no fee, no deadline and no pause.
- The risk scorer and the chat assistant are client code and are modelled.

## Model

| member | source | states |
|---|---|---|
| MockContracts.UserState.constructor | web/lib/mockContracts.ts:16-20 | A fresh user starts with a balance of 10,000, no vault positions and no campaigns. |
| MockContracts.UserState.VaultState | web/lib/mockContracts.ts:40-45 | A vault without a stored position reads as the zero position. Otherwise the stored position is returned. |
| MockContracts.UserState.CalculateYield | web/lib/mockContracts.ts:92-100 | Yield is the linear accrual on the vault's principal since its last claim, and it is zero for a missing position. It is non-negative when the principal is non-negative and the clock has not gone back. |
| MockContracts.UserState.GetUserData | web/lib/mockContracts.ts:102-110 | Returns the balance and the position (zero position if none), plus the yield pending on that position. A vault with no position has no pending yield. |
| MockContracts.UserState.GetCampaigns | web/lib/mockContracts.ts:133-137 | Returns the stored campaigns in creation order. |
| MockContracts.UserState.Deposit | web/lib/mockContracts.ts:47-66 | Fails with InsufficientBalance exactly when the balance is below the amount, and then changes nothing. Otherwise it pays out the pending yield, moves the amount into the position and restarts both the lockup and the accrual clock. Balance plus principal grows by exactly the yield paid. |
| MockContracts.UserState.Withdraw | web/lib/mockContracts.ts:68-90 | A position smaller than the amount fails with InsufficientVaultBalance. Otherwise, inside 20 s of the last deposit, it fails with FundsLocked and the exact wait. A failure changes nothing. Otherwise it pays the pending yield plus the amount, keeps the deposit time and restarts accrual. The remaining principal is non-negative, and value is conserved apart from the yield. |
| MockContracts.TopUpRestartsLockup | web/lib/mockContracts.ts:61-79 | A second deposit restarts the lockup: a withdrawal after the first deposit's lockup but within the second's is refused with FundsLocked. |
| MockContracts.DepositWithdrawRoundTrip | web/lib/mockContracts.ts:47-90 | Depositing an affordable amount and withdrawing all of it once the lockup has passed succeeds. The position ends at zero, and the balance ends exactly the accrued yield above where it started. |
| MockContracts.UserState.CreateCampaign | web/lib/mockContracts.ts:114-132 | Appends exactly one campaign, with id `now`, nothing raised, the mock creator and status ACTIVE. Balance and positions are untouched. |
| MockContracts.UserState.Donate | web/lib/mockContracts.ts:138-152 | A balance below the amount fails with InsufficientBalance, checked before the lookup. Otherwise an unknown id fails with CampaignNotFound. A failure changes nothing. On success only the first campaign with that id gains the amount, and balance plus total raised is conserved. |
| MockContracts.FindCampaign | web/lib/mockContracts.ts:144-145 | Returns the index of the first campaign with the id. It returns None exactly when no campaign has that id. |
| MockContracts.TotalRaisedUpdate | web/lib/mockContracts.ts:147-148 | Replacing one campaign changes the total raised by exactly the difference in that campaign's raised amount. |
| MockContracts.AccruedNonNegative | web/lib/mockContracts.ts:97-99 | Accrual on a non-negative principal over forward time is non-negative. |
| MockContracts.AccruedZeroElapsed | web/lib/mockContracts.ts:97-99 | No elapsed time accrues no yield. |
| MockContracts.AccruedSplit | web/lib/mockContracts.ts:97-99 | Accrual over an interval equals the sum over its two halves, so the claim times do not change the total paid. |
| MockContracts.AccruedOneYear | web/lib/mockContracts.ts:36-99 | One year's accrual is the advertised APY (12.5%) of the principal, so the hard-coded rate and the advertised APY agree. |
| RiskAnalysis.AnalyzeRisk | web/lib/riskAnalysis.ts:15-65 | The report equals the functional report. Its score lies in 0..100, and there is one flag per rule fired. |
| RiskAnalysis.ApplyRules | web/lib/riskAnalysis.ts:19-51 | The score is the sum of points of every rule that fires, and the flags are their messages in rule order. |
| RiskAnalysis.ScanKeywords | web/lib/riskAnalysis.ts:24-30 | The keyword loop scores 20 per keyword found in the lower-cased title or description, and emits their messages in table order. |
| RiskAnalysis.KeywordStep | web/lib/riskAnalysis.ts:25-30 | One keyword-loop step adds that keyword's finding if and only if it occurs in the title or the description. |
| RiskAnalysis.KeywordHitsExact | web/lib/riskAnalysis.ts:24-30 | A keyword is reported if and only if it is in the table and occurs in the lower-cased title or description. There are never more hits than keywords. |
| RiskAnalysis.KeywordHitsDistinct | web/lib/riskAnalysis.ts:24-30 | A keyword occurring in both title and description is still reported once. |
| RiskAnalysis.ReportFlagsDistinct | web/lib/riskAnalysis.ts:10-51 | A report never lists the same flag twice, so each table keyword is flagged at most once. |
| RiskAnalysis.KeywordScore | web/lib/riskAnalysis.ts:26-28 | Keywords contribute exactly 20 points per hit, and one finding per hit. |
| RiskAnalysis.RawScoreDecomposition | web/lib/riskAnalysis.ts:19-51 | The raw score is 20 times the keyword hits, plus 30 or 10 for a description under 50 or 100 characters, plus 15 for a goal over 1,000,000, plus 25 for shouting. |
| RiskAnalysis.MessagesLength | web/lib/riskAnalysis.ts:24-51 | The flags list has one message per finding, in order. |
| RiskAnalysis.LengthRule | web/lib/riskAnalysis.ts:33-39 | Under 50 characters scores 30, under 100 scores 10, otherwise nothing. At most one length flag is raised. |
| RiskAnalysis.GoalRule | web/lib/riskAnalysis.ts:42-45 | A goal above 1,000,000 scores exactly 15 more than any goal at or below it, other inputs equal. |
| RiskAnalysis.RawScoreNonNegative | web/lib/riskAnalysis.ts:19-51 | The raw score is never negative. |
| RiskAnalysis.RawScoreBound | web/lib/riskAnalysis.ts:10-51 | The raw score is at most 20·11 + 30 + 15 + 25. |
| RiskAnalysis.LevelMonotone | web/lib/riskAnalysis.ts:54-57 | A higher score never gives a lower level. |
| RiskAnalysis.LevelOfClamped | web/lib/riskAnalysis.ts:54-65 | Capping the score at 100 does not change its level. |
| RiskAnalysis.SummaryDeterminesLevel | web/lib/riskAnalysis.ts:60-63 | Different levels get different summaries. |
| RiskAnalysis.ShortDescriptionNeverLow | web/lib/riskAnalysis.ts:33-57 | A description under 50 characters never gets a Low level. |
| RiskAnalysis.ShoutingShortDescriptionHigh | web/lib/riskAnalysis.ts:33-57 | A short description in capitals is rated at least High. |
| Milestones.TotalPercentAppend | web/app/launch/page.tsx:60 | The percentage total of two row lists joined is the sum of their totals. |
| Milestones.TotalPercentUpdate | web/app/launch/page.tsx:201-205 | Replacing one row changes the total by exactly the difference between the new and old row values, NaN counting as 0. |
| Milestones.BlankRowsKeepTotal | web/app/launch/page.tsx:26-28 | Appending any number of blank rows leaves the total unchanged. |
| Milestones.UneditedFormFails | web/app/launch/page.tsx:24-28 | The default 50% row plus any number of blank rows never sums to 100. |
| Milestones.OutOfRangeRowsPass | web/app/launch/page.tsx:60-61 | Only the total is checked: rows of 150% and -50% are accepted. |
| Milestones.NaNRowCountsAsZero | web/app/launch/page.tsx:60 | A row whose percentage parsed to NaN adds nothing to the total. |
| Launch.ToPayloadMilestones | web/app/launch/page.tsx:76-79 | The payload has one entry per form row, carrying that row's text and percentage. |
| Launch.PayloadRoundTrip | web/app/launch/page.tsx:76-79 | Reading the payload rows back gives the form rows unchanged, so nothing is lost in the payload. |
| Launch.CheckSubmission | web/app/launch/page.tsx:48-64 | Each rejection is stated as an if-and-only-if. No wallet means WalletNotConnected. Otherwise a missing title, goal or description means MissingField. Otherwise a total other than 100 means BadPercentTotal, carrying that total. Otherwise the submission is accepted. |
| Launch.LaunchedPercentagesSumToHundred | web/app/launch/page.tsx:59-79 | When the submission is accepted, the milestone percentages in the payload sum to exactly 100. |
| Launch.LaunchForm.constructor | web/app/launch/page.tsx:24 | The form starts with the single row "Initial Release" at 50%. |
| Launch.LaunchForm.AddMilestone | web/app/launch/page.tsx:26-28 | Appends one blank row and keeps the percentage total. |
| Launch.LaunchForm.EditDescription | web/app/launch/page.tsx:189-193 | Changes only row i's text. The total is unchanged. |
| Launch.LaunchForm.EditPercent | web/app/launch/page.tsx:201-205 | Changes only row i's percentage. The total moves by the difference. |
| Launch.LaunchForm.Submit | web/app/launch/page.tsx:46-106 | It is rejected exactly when CheckSubmission rejects, with that reason, and then the hub is unchanged. When launched, the payload is built from the form and the risk report. Exactly one campaign, with the cover gradient, is then appended to the simulated hub, because the contract call always fails. Balance and positions are never touched. |
| ChatBot.SelectReply | web/components/ChatBot.tsx:74-82 | The loop returns the reply of the first table entry with a keyword in the lower-cased input, or the fallback. |
| ChatBot.FirstMatchIsFirst | web/components/ChatBot.tsx:77-82 | If entry i matches and no earlier entry does, entry i's reply is given. |
| ChatBot.NoMatchFallback | web/components/ChatBot.tsx:75-82 | When no entry matches, the fallback reply is given. |
| ChatBot.ReplyIgnoresCase | web/components/ChatBot.tsx:74 | Upper-casing or lower-casing the question does not change the reply. |
| ChatBot.KeywordInAnyCaseMatches | web/components/ChatBot.tsx:74-78 | A keyword typed in any case inside the question makes its entry match. |
| ChatBot.SubstringNotWord | web/components/ChatBot.tsx:78 | Matching is by substring, not by word: "this" gets the greeting reply because it contains "hi". |
| ChatBot.CampaignNeverSelectsCampaignEntry | web/components/ChatBot.tsx:32-36 | A question containing "campaign" never gets the crowdfunding entry's reply, because "campaign" contains "ai", a keyword of the risk entry checked before it. |
| ChatBot.ChatSession.constructor | web/components/ChatBot.tsx:43-46 | A session starts with the greeting message and an empty input. |
| ChatBot.ChatSession.SetInput | web/components/ChatBot.tsx:163 | Typing replaces the input and leaves the messages alone. |
| ChatBot.ChatSession.HandleSend | web/components/ChatBot.tsx:58-94 | A blank (white-space only) input changes nothing. Otherwise it appends the user's message and the selected reply, in that order, and clears the input. |
| Text.Lower | web/lib/riskAnalysis.ts:21-22 | Lower-casing keeps the length and maps each character. |
| Text.Upper | web/lib/riskAnalysis.ts:48 | Upper-casing keeps the length and maps each character. |
| Text.LowerOfUpper | web/components/ChatBot.tsx:74 | Lower-casing after upper-casing is lower-casing. |
| Text.LowerIdempotent | web/lib/riskAnalysis.ts:21-22 | Lower-casing twice is lower-casing once. |
| Text.Contains | web/lib/riskAnalysis.ts:26 | The substring test holds exactly when the substring occurs at some position. |
| Text.ContainsLower | web/components/ChatBot.tsx:74-78 | An occurrence survives lower-casing both strings. |
| Text.TrimEmptyIffBlank | web/components/ChatBot.tsx:59 | The trimmed input is empty exactly when every character is white space. |

## Left out

- The browser `localStorage` store is left out. Each class instance is the stored state, and an operation that throws writes nothing.
- Aliasing of the shared `INITIAL_STATE` object on first load is left out.
- The simulated network delays and the chat's reply delay (`setTimeout`) are left out. Operations are atomic.
- The clock is a parameter. The source reads `Date.now()` several times within one operation; the model uses one reading per operation. The chat's two messages take two readings.
- Numbers are exact reals and integers, not IEEE doubles, so rounding in the yield formula is not modelled.
- Launch.CheckSubmission: the percentage total is summed exactly, while the source adds doubles. The two differ only for totals beyond 2^53: rows of 9007199254740992, 1, 1 and -9007199254740892 total 100 in JavaScript, because 2^53 + 1 rounds to 2^53, but 102 in the model, which rejects them with BadPercentTotal(102). Launch.LaunchedPercentagesSumToHundred is exact in the same sense.
- The `Math.ceil` seconds in the lockup message are left out. `FundsLocked` carries the remaining milliseconds.
- Rendering, loading, success and typing flags, scrolling, form reset and alerts are left out. A rejection is returned as a value.
- Message timestamps (`Date` objects) are left out. Message ids are the integer clock readings, not their decimal strings.
- The wallet connection is a parameter `connected`.
- The ethers wrappers in `web/lib/contracts.ts` are left out. Its contract service defines no campaign-creation operation, so the launch handler's call to it always throws. The model goes straight to the simulated-hub fallback. The logged warning is left out.
- The Solidity contracts are not part of this model; only the client-side simulation is.
- The goal field is given as an optional real, and `parseFloat` itself is left out. A number input yields either an empty string or a number, so the `|| 0` fallback before risk analysis is never needed.
- The percentage field is given as the result of `parseInt`, with NaN as None. The parse itself is left out.
- Text.Lower: case mapping covers ASCII letters only, while JavaScript's `toLowerCase` maps all of Unicode. Characters that JavaScript lower-cases to ASCII letters, such as U+212A KELVIN SIGN or U+0130, are left alone. So a keyword written with them ("PRIVATE \u212AEY") fires in JavaScript but not in RiskAnalysis.AnalyzeRisk or ChatBot.SelectReply.
- Text.Upper: ASCII letters only, while JavaScript's `toUpperCase` maps all of Unicode. A lower-case Cyrillic, Greek or accented description longer than 20 characters therefore equals its model upper-case form. RiskAnalysis.IsShouting then holds for it, and RiskAnalysis.AnalyzeRisk adds 25 points and the capitalization flag where JavaScript would not. JavaScript also upper-cases U+0131 (dotless i) to "I" and U+017F (long s) to "S", which the model does not. So ChatBot.ReplyIgnoresCase and Text.LowerOfUpper hold for the modelled mapping only: in JavaScript "thıs" gets the fallback reply, while its upper-case form "THIS" gets the greeting.
- String lengths count characters, not UTF-16 code units, so characters outside the Basic Multilingual Plane count once instead of twice in the description-length rules.
- Launch.LaunchForm.EditDescription: the source copies the row list but changes the row object in place, and that object is shared with every earlier copy of the list. The model replaces the row by value, so it does not capture that sharing.
- Launch.LaunchForm.EditPercent: the same in-place change of a shared row object, not captured for the same reason.
- Launch.LaunchForm.Submit: modelled as one atomic step. In the source the submit handler keeps the row list across two awaited 1.5-second delays and reads it again when it builds the payload and the campaign. Rows edited during that wait change the shared row objects, so the submitted rows can differ from the rows that passed the check.
- Launch.LaunchedPercentagesSumToHundred: holds only when no row is edited while a launch is pending. For example, with rows of 50 and 50, typing 60 into the second row during the wait submits 50 and 60.
- The vault and explore pages are left out. They call the simulated vault and hub behind their own checks: an amount above 0 and at most the balance or position, and a donation of at most 10,000. The model does not apply these checks, so the simulated methods are modelled for every amount.
- The admin page is left out. It calls contract-service operations that do not exist, so none of its actions reach the simulation.
- The market ticker only displays data, so it is left out.
