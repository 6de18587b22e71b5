# A model of CorpersHub

CorpersHub places corpers of the Nigerian youth service with companies. This project models the parts of
its API whose correctness is spread over several functions, and proves what they promise together, over
every input, every run and every provider answer.

- **Billing** (`Billing*.dfy`). A ledger of payment attempts, subscriptions and Flutterwave records, driven by
  initiation, cancellation, timeout sweep, redirect, status poll and webhook in any order. The step functions
  are in `Billing`; `BillingStore` holds the tables as a class whose methods update rows as the services do and
  are proved to leave exactly the ledger the steps describe. `BillingSafety` and `BillingRuns` prove the
  invariant of every run, `BillingAccess` what it means for access, `BillingLaws` that outcomes fold to a join
  and that lazy expiry is eager expiry, `BillingEffects` what each request leaves row by row, in the words of
  redirects and replies, `BillingWitness` a run that shows where a plausible promise fails.
- **Corper verification** (`Verification*.dfy`). An attempt log and a profile that save each other.
  `VerificationDesk` has the mutually recursive methods, `Verification` their specification,
  `VerificationAgreement` and `VerificationRuns` when log and profile agree, `VerificationEffects` what each
  submission, review and edit stores and logs.
- **Calendar and age** (`Calendar.dfy`, `AgeFilter.dfy`). Adding months to dates and instants, plan terms, and
  the birth-date filter against the age it stands for.
- **Match scoring** (`Matching.dfy`, `Allowance.dfy`, `Recommendation.dfy`). Eleven components over exact
  reals, allowance ranges with open ends, and what a recommendation means.
- **Identity lookups** (`Payload.dfy`, `LookupCache.dfy`). JSON cleaning, a memory cache and a shared table.
- **One-time codes** (`OneTimeCodes.dfy`, `OneTimeCodeEffects.dfy`, `OneTimeCodeStore.dfy`) and **company
  approval** (`CompanyApproval.dfy`, `CompanyEffects.dfy`, `CompanyProfileStore.dfy`). What keeps their rows and
  statuses sound in every run, and what each step writes and when it succeeds.

Every HTTP handler or background job is one atomic step at one instant. Instants are microseconds on one
clock; a provider's, registry's or signature check's answer is an argument of the step. Where the services
update rows, a class has those rows as fields and each method is tied, by equality, to a function on values;
the lemmas are about those functions. Counters such as `activations`, `replies`, `presented`, `uses` and
`confirmed` keep book for the statements and are read by no step.

Promises that turned out not to hold are stated with the exact condition on which they do:

- adding months keeps dates in order but not instants (`Calendar.AddMonthsAtOrder`);
- a late success can end access that another payment was giving (`BillingAccess.LateSuccessEndsAccess`,
  `BillingWitness.LateSuccessCanEndAccess`);
- the access flag in the interest lists is implied by paid access, not equal to it
  (`BillingAccess.AnnotationExactly`, `BillingWitness.FlagWithoutAccess`);
- log and profile part when an overtaken attempt is reviewed (`VerificationAgreement.ReviewSettlesExactly`,
  `VerificationRuns.ReviewOfAnOlderAttempt`);
- approval and confirmation part when the registry is out of reach in the middle of an edit
  (`CompanyApproval.HandleAgreesExactly`, `CompanyApproval.RenameDuringAnOutage`, `CompanyApproval.SampleRun`);
- wrong codes run out (`OneTimeCodes.GuessesRunOut`, `OneTimeCodes.WrongCodesPerIssue`) except at a corper's or
  company's sign-up, whose transaction undoes their count (`OneTimeCodes.SignupGuessesNeverRunOut`);
- a reset session outlives its code: a verified later code of the same row revives it
  (`OneTimeCodes.SessionFollowsTheRow`, `OneTimeCodes.EarlierSessionIsRedeemed`);
- an overlap of allowance ranges can score less than a mere touch, exactly when it is under a fifth of the narrower
  closed range (`Recommendation.TouchAgainstOverlap`);
- the age filter raises instead of answering for bounds outside the years a date can have
  (`AgeFilter.FilterAnswers`, `AgeFilter.FilterOverflows`).

The written signal threshold of three never decides a recommendation: fifty points already need five signals
(`Recommendation.FiftyNeedsFive`).

## Model

| member | source | states |
|---|---|---|
| `Calendar.AddMonthsIndex` | api/apps/subscriptions/services.py:46-51 | the sum lands exactly that many months on, on the same day or the last of a shorter month, and is a real date |
| `Calendar.AddMonthsSpan` | api/apps/subscriptions/services.py:46-51 | k months move a date by at least 28k and at most 31k days |
| `Calendar.AddMonthsMonotone` | api/apps/subscriptions/services.py:46-51 | addition never reverses the order of two dates |
| `Calendar.AddMonthsStrict` | api/apps/subscriptions/services.py:46-51 | more months from one date land strictly later |
| `Calendar.AddMonthsCompose` | api/apps/subscriptions/services.py:46-51 | adding a then b never passes a + b, and equals it exactly when the stop-over month cut nothing that the landing month keeps; so always up to day 28 |
| `Calendar.AddMonthsMerge` | api/apps/subscriptions/services.py:46-51 | two dates land on one day exactly when they are equal or both are cut to it |
| `Calendar.AddMonthsAtLands` | api/apps/accounts/account_lifecycle.py:19-30 | the instant k months on lies on the date k months on, at the same time of day; the account expiry adds its months by the same function |
| `Calendar.AddMonthsAtOrder` | api/apps/subscriptions/services.py:46-51 | instants keep their order, except exactly when their dates merge and the later date has the earlier time of day |
| `Calendar.ClampSwapExists` | api/apps/subscriptions/services.py:46-51 | order of instants is lost in fact: 30 January 23:00 and 31 January 01:00 swap in every common year |
| `Calendar.PlanLengths` | api/apps/subscriptions/services.py:54-65 | a trial lasts exactly 7 days, a month 28 to 31, a quarter 89 to 92, half a year 181 to 184, a year 365 or 366, whatever day it starts on |
| `Calendar.PlanEndsOnTheCalendar` | api/apps/subscriptions/services.py:54-65 | a paid plan ends one, three, six or twelve calendar months on, on the same day or the last of a shorter month, at the time of day it started; a trial ends seven days on |
| `Calendar.YearSpan` | api/apps/subscriptions/services.py:46-51 | twelve months are 365 or 366 days, also from 29 February |
| `Calendar.PlanEndsOrdered` | api/apps/subscriptions/services.py:54-65 | from one start, trial, month, quarter, half-year and year end in strictly this order |
| `Calendar.NextDayOrdinal` | api/apps/search/services.py:1027-1028 | the next calendar day is the next ordinal |
| `Calendar.OrdinalIsGregorian` | api/apps/subscriptions/services.py:46-51 | the ordinal, defined by adding up months, is the Gregorian day count: 365 days a year, a leap day every fourth year, centuries only if divisible by 400 |
| `AgeFilter.YearsAgo` | api/apps/search/services.py:1020-1024 | the shifted date exists exactly when its year is representable, and is then the same day of the same month, or the last of a shorter February |
| `AgeFilter.AtLeastAge` | api/apps/search/services.py:970-973 | born on or before the shifted date is being at least that old, for every leap-day case |
| `AgeFilter.NotBeforeNextDay` | api/apps/search/services.py:975-977 | on or after the next day is strictly after |
| `AgeFilter.FilterMatchesAge` | api/apps/search/services.py:962-979 | whenever the filter answers, it accepts a profile exactly when its age lies in the bounds, swapped if reversed; a profile without a birth date fails every bound |
| `AgeFilter.FilterAnswers` | api/apps/search/services.py:962-979 | the filter answers exactly when each shifted date lies in the representable years; otherwise the date error escapes |
| `AgeFilter.FilterOverflows` | api/apps/search/services.py:1020-1024 | a minimum age of the current year raises, on every day and for every profile |
| `Rounding.HalfEven` | api/apps/payments/services.py:935-936 | nearest integer, ties to even |
| `Rounding.HalfEvenUnique` | api/apps/search/services.py:261 | no other integer is nearest with ties to even |
| `BillingStore.Store.SyncFlutterwaveRecord` | api/apps/payments/services.py:939-977 | the record mirrors the attempt: reference, status, known provider id, verification time |
| `BillingStore.Store.TransitionSubscription` | api/apps/payments/services.py:980-992 | a waiting subscription is stopped on a cancellation and past due on any other failure; any other row stays |
| `BillingStore.Store.SetTerminalPaymentStatus` | api/apps/payments/services.py:995-1049 | the attempt, its record, its subscription and the notices after an attempt ends |
| `BillingStore.Store.ExpireStalePendingTransactions` | api/apps/payments/services.py:1052-1077 | the loop leaves the ledger and the count of the sweep |
| `BillingStore.Store.CancelPaymentAttempt` | api/apps/payments/services.py:1092-1106 | only an open attempt is cancelled |
| `BillingStore.Store.RefreshUserSubscriptions` | api/apps/subscriptions/services.py:149-166 | a user's rows past their end are ended, all others stay |
| `BillingStore.Store.ActivatePaidSubscription` | api/apps/subscriptions/services.py:260-289 | the chosen row runs from the given start, every other running row of the user ends |
| `BillingStore.Store.ConfirmPayment` | api/apps/payments/services.py:1305-1345 | a success marks the attempt paid, activates its subscription from the start it was ordered at, and notifies once |
| `BillingStore.Store.ApplyPaymentOutcome` | api/apps/payments/services.py:1288-1371 | one provider outcome on one attempt, for every combination of status and outcome |
| `BillingStore.Store.VerifyFlutterwaveTransaction` | api/apps/payments/services.py:1109-1226 | which of redirect status, record and provider answer decides, and to what |
| `BillingStore.Store.CreatePendingPayment` | api/apps/payments/services.py:695-809 | a new attempt with its subscription and record, failed at once when the checkout cannot be opened |
| `BillingStore.Store.StartNewPayment` | api/apps/payments/views.py:123-158 | no attempt is opened beside an open one, and none for an unranked plan |
| `BillingStore.Store.InitiatePaymentPost` | api/apps/payments/views.py:81-176 | the guards in order, the trial only once |
| `BillingStore.Store.ReactivationPaymentPost` | api/apps/payments/views.py:179-252 | the same without a trial |
| `BillingStore.Store.VerifyTransactionByReference` | api/apps/payments/services.py:1229-1254 | a sweep, then a verification of the named Flutterwave attempt |
| `BillingStore.Store.SyncTransactionStatus` | api/apps/payments/services.py:1374-1388 | a status poll: nothing for a paid attempt, else a sweep and a verification |
| `BillingStore.Store.ProcessRecordedWebhookEvent` | api/apps/payments/services.py:1391-1441 | an event is applied once, and only recorded as processed when it was |
| `BillingSafety.SetTerminalKeeps` | api/apps/payments/services.py:995-1049 | ending an open attempt keeps the books; the step itself does not check that it is open |
| `BillingSafety.SucceedKeeps` | api/apps/payments/services.py:1305-1345 | confirming an unpaid attempt, open or not, keeps the books |
| `BillingSafety.KeepGoingKeeps` | api/apps/payments/services.py:1357-1371 | an outcome in progress keeps the books |
| `BillingSafety.FailCheckoutKeeps` | api/apps/payments/services.py:764-787 | a checkout that cannot be opened keeps the books |
| `BillingSafety.RefreshKeeps` | api/apps/subscriptions/services.py:149-166 | expiry keeps the books |
| `BillingSafety.AddTrialKeeps` | api/apps/subscriptions/services.py:169-193 | a first trial keeps the books |
| `BillingSafety.AddPendingKeeps` | api/apps/payments/services.py:707-742 | a new attempt of a user without an open one keeps the books |
| `BillingRuns.ApplyOutcomeGood` | api/apps/payments/services.py:1288-1371 | any outcome keeps the books and moves every payment forward, if a Flutterwave success carries a matching charge |
| `BillingRuns.VerifyGood` | api/apps/payments/services.py:1109-1226 | a verification, with any provider answers, keeps the books and moves them forward |
| `BillingRuns.SweepGood` | api/apps/payments/services.py:1052-1077 | a sweep keeps the books and moves them forward |
| `BillingRuns.SweepExact` | api/apps/payments/services.py:1052-1077 | exactly the pending attempts of 120 minutes or more, and of the user if one is named, become expired; no other attempt changes |
| `BillingRuns.SweepCounts` | api/apps/payments/services.py:1052-1077 | the number returned is the number of those attempts |
| `BillingRuns.SweepTwice` | api/apps/payments/services.py:1052-1077 | repeated at once, a sweep changes nothing and returns nought |
| `BillingRuns.StartPaymentGood` | api/apps/payments/views.py:123-158 | starting a payment keeps the books, whatever the guard finds |
| `BillingRuns.WebhookGood` | api/apps/payments/services.py:1391-1441 | a webhook, first or repeated, keeps the books and moves them forward |
| `BillingRuns.HandleGood` | api/apps/payments/services.py:980-1441 | every request, with any arguments and provider answers, keeps the whole invariant and moves every row forward |
| `BillingRuns.RunAdvances` | api/apps/payments/services.py:980-1441 | so does every finite run of requests in any order |
| `BillingRuns.AtMostThreeChanges` | api/apps/payments/services.py:1008-1014 | in any run an attempt's status climbs at each change, so it changes at most three times |
| `BillingRuns.EveryRunIsSafe` | api/apps/payments/services.py:980-1049 | in every state reached from the empty books: open means its subscription waits, cancelled means stopped or ended, failed, expired or abandoned mean past due, successful means active or ended; paid time exactly when successful; one activation and one success notice exactly when successful, at most one failure notice |
| `BillingRuns.EveryRunIsConsistent` | api/apps/payments/services.py:939-977 | in every reached state: records are exactly the Flutterwave attempts and mirror them; at most one open attempt and one running subscription a user; running rows carry the term of their plan from their start, stopped rows none; activations number the successful attempts |
| `BillingRuns.TrialOnlyOnce` | api/apps/payments/views.py:100-115 | in every run each row of a user after the first is for a priced plan, so a user has at most one trial, and nothing before it |
| `BillingEffects.OutcomeDoes` | api/apps/payments/services.py:1288-1371 | for each status and outcome, in row fields: what becomes of the attempt, its record, its subscription, every other subscription of the user, the activations and the notices; a success confirms any unpaid attempt, a failure ends only an open one |
| `BillingEffects.VerificationDecides` | api/apps/payments/services.py:1109-1226 | in the words of the redirect and the reply: a charge for the attempt, by reference, currency and rounded amount, confirms it if it succeeded and keeps it going if in progress; any other charge fails an open attempt; no charge or an error leaves attempts and subscriptions alone; without any provider id a final redirect word ends an open attempt in its own status |
| `BillingEffects.SweepDoes` | api/apps/payments/services.py:1052-1077 | a sweep, row by row: attempts pending for two hours expire with their records and waiting subscriptions and one failure notice each, all other rows stay, and the count is theirs |
| `BillingEffects.RefreshDoes` | api/apps/subscriptions/services.py:149-166 | a refresh ends exactly the user's running or stopped rows whose end has come |
| `BillingEffects.InitiateDoes` | api/apps/payments/views.py:81-176 | a free plan adds one trial row for its term, only to a user without rows; a priced one is refused while an attempt is open after the sweep, or if it has no rank, and otherwise adds one attempt and one waiting row, both failed at once if the checkout does not open |
| `BillingEffects.ReactivateDoes` | api/apps/payments/views.py:179-252 | the same for a reactivation, where a free plan is refused |
| `BillingEffects.SweepRequestsDo` | api/apps/payments/services.py:1052-1077 | listing sweeps the user's attempts, the job everybody's |
| `BillingEffects.CancelDoes` | api/apps/payments/services.py:1092-1106 | a user cancels his own open attempts only; its waiting subscription is stopped |
| `BillingEffects.RedirectDoes` | api/apps/payments/services.py:1229-1254 | what a redirect leaves, for every attempt, word and answer |
| `BillingEffects.PollDoes` | api/apps/payments/services.py:1374-1388 | what a poll leaves, for every attempt and answer |
| `BillingEffects.WebhookDoes` | api/apps/payments/services.py:1391-1441 | what a webhook leaves, new or repeated, for either gateway; an event is marked processed exactly when it was applied |
| `BillingEffects.RedirectConfirms` | api/apps/payments/services.py:1229-1254 | with the provider's id, a matching successful charge leaves the attempt successful and activated once, whatever its status was |
| `BillingEffects.PollConfirms` | api/apps/payments/services.py:1374-1388 | so does a poll, if the id is on record or the attempt still open after the sweep |
| `BillingEffects.WebhookConfirms` | api/apps/payments/services.py:1391-1441 | so does the first webhook of an event, for Flutterwave by the provider's answer and for a card by the event itself |
| `BillingAccess.AccessIsPaidFor` | api/apps/subscriptions/services.py:220-240 | paid access at an instant is a successful attempt of that user for that very row, its term not over, and for Flutterwave a charge whose reference, currency and rounded amount match |
| `BillingAccess.AccessByRow` | api/apps/subscriptions/services.py:220-240 | an active row gives access exactly before its term ends |
| `BillingAccess.SuccessGivesAccess` | api/apps/payments/services.py:1305-1345 | a confirmation gives access exactly while the term, counted from the start of the attempt, still runs |
| `BillingAccess.LateSuccessEndsAccess` | api/apps/payments/services.py:1305-1345 | for either gateway: confirming an unpaid attempt ends the row that gave access, and there is access afterwards exactly while the attempt's own term still runs |
| `BillingWitness.LateSuccessCanEndAccess` | api/apps/subscriptions/services.py:260-289 | a run where a late confirmation of a cancelled order ends the access that another payment was giving |
| `BillingAccess.Newest` | api/apps/subscriptions/services.py:202-234 | the newest of a user's rows that a test picks, or none if it picks none |
| `BillingAccess.BrowseExactly` | api/apps/subscriptions/services.py:202-217 | the current subscription is the newest stored row that is active, on trial, or stopped with an end, and not past its end; none if there is no such row |
| `BillingAccess.PaidExactly` | api/apps/subscriptions/services.py:220-240 | paid access comes from the newest stored active or stopped row of a priced plan whose end is still to come, and there is none without such a row |
| `BillingAccess.ClientAgrees` | web/src/lib/subscriptions.ts:70-95 | on the refreshed list, the client's three passes choose the server's row, and its paid check gives the server's answer |
| `BillingAccess.OneRunningRow` | web/src/lib/subscriptions.ts:141-148 | what makes the passes agree: one running row a user, no stopped row with an end |
| `BillingAccess.AnnotationExactly` | api/apps/interests/views.py:26-32 | the directory's flag is raised exactly by paid access, by a stopped row of a priced plan, or by an active one whose term is over |
| `BillingAccess.CancellingLeavesAccess` | api/apps/payments/services.py:1092-1106 | cancelling an attempt changes nobody's access, now or later |
| `BillingAccess.CancellingRaisesTheFlag` | api/apps/interests/views.py:26-32 | cancelling any open attempt raises the flag and leaves the user's access as it was, so the flag is not paid access |
| `BillingWitness.FlagWithoutAccess` | api/apps/interests/views.py:26-32 | a run that shows it: after one order, cancelled, the flag is raised and there is no access at any time |
| `BillingLaws.FoldIsJoin` | api/apps/payments/services.py:1288-1371 | any sequence of outcomes on any fresh attempt, whatever charges they carry, ends in their join in pending, processing, failed, successful, with one activation exactly if a success is among them |
| `BillingLaws.FoldKeepsBooks` | api/apps/payments/services.py:1288-1371 | and keeps the books, if each Flutterwave success carries a matching charge, as its caller sees to |
| `BillingLaws.OrderNeverMatters` | api/apps/payments/services.py:1288-1371 | sequences with the same outcomes, in any order and number, give the same status and activations |
| `BillingLaws.HandleAlike` | api/apps/payments/services.py:980-1441 | ledgers that differ only in rows already lapsed answer and stay so under every request |
| `BillingLaws.QueriesLeaveNoTrace` | api/apps/subscriptions/services.py:149-166 | dropping every refresh from a run changes nothing but rows already lapsed |
| `BillingLaws.LazyExpiryIsEager` | api/apps/subscriptions/services.py:202-240 | runs that differ only in when rows were refreshed give the same current, paid and access answers |
| `Verification.Newest` | api/apps/corpers/models.py:508-513 | the newest attempt of a kind whose status is not excluded, or none |
| `VerificationDesk.CorperDesk.Save` | api/apps/corpers/models.py:376-450 | the row with its derived overall status and, unless told to skip, the log, as specified; the mutual recursion ends |
| `VerificationDesk.CorperDesk.SyncVerificationAttempts` | api/apps/corpers/models.py:452-520 | the loop over the five statuses pushes each changed one into the newest attempt of its kind |
| `VerificationDesk.CorperDesk.LatestNotFailed` | api/apps/corpers/models.py:508-513 | the search finds the newest attempt not excluded |
| `VerificationDesk.CorperDesk.SaveWithStatus` | api/apps/verification/models.py:44-46 | an attempt's save updates the log and then the profile |
| `VerificationDesk.CorperDesk.SyncCorperStatus` | api/apps/verification/models.py:48-126 | what each kind and status of attempt writes to the profile |
| `VerificationDesk.CorperDesk.ApproveLatestBiodataAttempt` | api/apps/verification/models.py:128-141 | the newest undecided or refused biodata attempt becomes approved, no other changes |
| `VerificationDesk.CorperDesk.Submission` | api/apps/verification/views.py:237-637 | a submission of each kind, accepted, refused, or contradicted by the registry |
| `VerificationDesk.CorperDesk.ReviewAttempt` | api/apps/verification/views.py:680-719 | a decision on any attempt |
| `VerificationDesk.CorperDesk.UpdateByAdmin` | api/apps/corpers/serializers.py:636-651 | several statuses set in one request |
| `VerificationAgreement.SaveAttemptSettles` | api/apps/verification/models.py:48-126 | pushing a status into the newest attempt of its kind settles that kind and unsettles none; approving a number verifies the biodata |
| `VerificationAgreement.ApproveLeavesApproved` | api/apps/verification/models.py:128-141 | afterwards the newest biodata attempt not failed is approved, and every other attempt is as it was |
| `VerificationAgreement.PushAll` | api/apps/corpers/models.py:452-520 | after n passes of the loop the first n kinds agree and the others agree if unchanged |
| `VerificationAgreement.SaveProfileSettles` | api/apps/corpers/models.py:376-450 | a complete save settles log and profile |
| `VerificationAgreement.AdminUpdateSettles` | api/apps/corpers/serializers.py:636-651 | any combination of statuses set at once leaves log and profile in agreement |
| `VerificationAgreement.CreateSettles` | api/apps/verification/views.py:462-602 | a new attempt leads the profile |
| `VerificationAgreement.SubmitSettles` | api/apps/verification/views.py:237-637 | every submission leaves log and profile in agreement |
| `VerificationEffects.NumberSubmitted` | api/apps/verification/views.py:476-540 | a number the registry confirms becomes verified with the biodata and its attempt approved; one it contradicts becomes rejected with a rejected attempt, and no other part changes |
| `VerificationEffects.OtherSubmitted` | api/apps/verification/views.py:464-602 | biodata, call-up and state code become pending with a pending attempt, the other parts as before; the whole profile only logs its attempt |
| `VerificationEffects.SubmissionRefused` | api/apps/verification/views.py:237-460 | a refusal stores nothing and logs one failed attempt; verified biodata sent again does nothing at all |
| `VerificationEffects.ReviewDoes` | api/apps/verification/views.py:680-719 | a decision is stored in its part and its attempt alone, except that an approved number also verifies the biodata and approves its newest undecided attempt |
| `VerificationEffects.AdminUpdateLogs` | api/apps/corpers/models.py:452-520 | an edit writes only to the newest attempt of a kind, the biodata of an approved number aside, and the newest attempt on the whole profile follows the overall status if it changed |
| `VerificationEffects.ApproveLatestExactly` | api/apps/verification/models.py:128-141 | exactly the newest pending or rejected biodata attempt becomes approved, if there is one |
| `VerificationAgreement.ReviewIsSave` | api/apps/verification/views.py:689-719 | the handler's second save adds nothing to the attempt's own |
| `VerificationAgreement.ReviewSettlesExactly` | api/apps/verification/views.py:680-719 | a review keeps the agreement exactly when the attempt is on the whole profile or no newer attempt of its kind, failed ones aside, says otherwise |
| `VerificationRuns.AdminUpdateStores` | api/apps/corpers/serializers.py:636-651 | an edit stores exactly what it names, except that a number turning verified while its newest attempt is not approved also verifies the biodata, even one rejected in the same request |
| `VerificationRuns.StepSettlesExactly` | api/apps/verification/views.py:680-719 | a step loses the agreement exactly if it decides an attempt that a newer one contradicts |
| `VerificationRuns.EveryRunSettles` | api/apps/corpers/models.py:376-520 | log and profile agree after every run without such a decision |
| `VerificationRuns.NewDeskSettled` | api/apps/corpers/models.py:452-520 | a new profile without attempts is in agreement, so those runs may start there |
| `VerificationRuns.ReviewOfAnOlderAttempt` | api/apps/verification/views.py:680-719 | a run that loses the agreement: of two pending call-up submissions the older is approved, and the profile is verified while the newest attempt is pending |
| `VerificationRuns.EveryRunDerives` | api/apps/corpers/models.py:303-325 | in every run the stored overall status is the derived one: never under review, verified exactly when all four parts are, rejected exactly when some part is |
| `Matching.Similarity` | api/apps/search/services.py:731-753 | between nought and one; above nought exactly for phrases that are equal, contained or share a token; 0.95 for a phrase that contains another |
| `Matching.SimilarityCases` | api/apps/search/services.py:731-753 | what decides a likeness: an empty phrase, equality, containment either way, else the shared tokens |
| `Matching.OccursExactly` | api/apps/search/services.py:737-740 | containment: some text before, the phrase, some text after |
| `Matching.TokenOverlap` | api/apps/search/services.py:742-753 | one exactly for equal token sets, nought exactly for disjoint ones; the cap at one is idle |
| `Matching.TokenOverlapExactly` | api/apps/search/services.py:751-753 | shared tokens count three quarters by the desired and one quarter by the candidate's |
| `Matching.OverlapOfContained` | api/apps/search/services.py:751-753 | covering the desired is worth three quarters, being all desired a quarter, the rest goes by size |
| `Matching.BestOf` | api/apps/search/services.py:701-706 | no candidate is more like the phrase, and one is as like |
| `Matching.BestPairIsBest` | api/apps/search/services.py:715-728 | no pair of phrases is more alike, and one is as alike |
| `Matching.PhraseCoverage` | api/apps/search/services.py:690-712 | the two loops compute the average of the best likenesses |
| `Matching.CoverageIsAverage` | api/apps/search/services.py:708-712 | the average never passes one, so the cap on it is idle |
| `Matching.CoverageExactly` | api/apps/search/services.py:700-708 | nothing exactly when no evidence is like any desired phrase, full exactly when each has a whole likeness |
| `Matching.CoverageAdds` | api/apps/search/services.py:700-708 | coverage adds up over the desired phrases, each counted at its best evidence |
| `Matching.Highest` | api/apps/search/services.py:756-760 | the highest level held |
| `Matching.Lowest` | api/apps/search/services.py:478 | the lowest level wanted |
| `Matching.QualificationExactly` | api/apps/search/services.py:461-490 | full points for a wanted level, nine or more exactly for a level at or above some wanted one, none exactly from two below them all |
| `Matching.QualificationBands` | api/apps/search/services.py:461-490 | ten points one level above all wanted, nine farther above, 10.8 between two wanted levels, 4.8 one below them all |
| `Recommendation.FirstWrittenListDecides` | api/apps/search/services.py:493-519 | full points exactly when the corper's state is in the first of the three lists that is written; a later list never helps |
| `Matching.AgeExactly` | api/apps/search/services.py:522-566 | more than six points exactly inside a range, 3.6 one year off, 1.6 at two, none exactly from three, for ranges written in either order |
| `Matching.AgeOpenExactly` | api/apps/search/services.py:552-566 | with one bound only, eight points from it on, 3.6 one year short, none from two; none without an age or bounds |
| `Matching.AgeInRangeExactly` | api/apps/search/services.py:538-543 | inside a range points fall from eight evenly with the distance from the middle |
| `Matching.AgeRewardsTheMiddle` | api/apps/search/services.py:538-543 | an age nearer the middle never earns less |
| `Matching.TextExactly` | api/apps/search/services.py:621-639 | something exactly from a likeness of 0.35, everything exactly from 0.95, at the likest listed phrases, or of the whole texts when one lists none |
| `Matching.CoverageEarns` | api/apps/search/services.py:586-618 | skills earn their coverage of the maximum, experience the same from a coverage of 0.2 and nothing below |
| `Allowance.Parse` | api/apps/search/services.py:1038-1058 | a parsed range is never reversed |
| `Allowance.ParseExactly` | api/apps/search/services.py:1038-1058 | which wordings parse, and which numbers the range holds, starts and ends at |
| `Allowance.ParseWords` | api/apps/search/services.py:1038-1058 | negotiable exactly when the wording says so; a wording of none that does not is a range of nought alone, whatever numbers it holds |
| `Allowance.Symmetric` | api/apps/search/services.py:1061-1107 | overlap ratio and gap do not depend on the order of the ranges |
| `Allowance.GapIsDistance` | api/apps/search/services.py:1093-1107 | the gap is the least distance between an amount of one range and an amount of the other, reached by some pair |
| `Allowance.RatioExactly` | api/apps/search/services.py:1061-1090 | the ratio is a proportion; nought exactly when a gap separates the ranges; one exactly when they share more than one amount and one is open or holds the other, two open ends included |
| `Allowance.RatioIsShare` | api/apps/search/services.py:1072-1090 | closed ranges that share more than one amount count by the part of the narrower that they share |
| `Allowance.OverlapIsIntersection` | api/apps/search/services.py:1072-1073 | the overlap holds exactly the amounts of both ranges |
| `Recommendation.RangePointsByDistance` | api/apps/search/services.py:642-687 | shared amounts earn over 65 per cent, ranges within 25,000 of each other 35, and only farther ones are compared as text |
| `Recommendation.RangePointsExactly` | api/apps/search/services.py:642-687 | equal ranges seven points, overlapping ones 4.55 and the ratio's part of 2.45, a gap up to 25,000 2.45, a wider one the points of the texts |
| `Recommendation.AllowanceRules` | api/apps/search/services.py:642-687 | two negotiable allowances match fully, one of two half, two ranges by their amounts, anything else as text |
| `Recommendation.TouchAgainstOverlap` | api/apps/search/services.py:1061-1090 | for all ranges: a single shared amount counts a fifth; ranges that share more count less than that exactly when both are closed and share under a fifth of the narrower; an open range counts fully |
| `Recommendation.TouchOutranksOverlap` | api/apps/search/services.py:1074-1090 | so ranges that only touch can outrank ranges that share a stretch |
| `Recommendation.ComponentsBounded` | api/apps/search/services.py:269-356 | each of the eleven components lies between nought and its maximum |
| `Recommendation.ComponentLooksAt` | api/apps/search/services.py:269-356 | each component depends on its own sides of the pair and on nothing else |
| `Recommendation.PerfectPair` | api/apps/search/services.py:269-356 | a pair that matches in every respect earns every maximum and a hundred in all |
| `Recommendation.BothSeeTheSame` | api/apps/search/services.py:359-446 | a side remark: the list of the other scorer adds up to the same score and number of signals for every pair |
| `Recommendation.SumBounded` | api/apps/search/services.py:449-450 | so does each partial total |
| `Recommendation.SumChanges` | api/apps/search/services.py:449-450 | changing one component changes the total by the difference |
| `Recommendation.SignalsAreTheSigns` | api/apps/search/services.py:453-457 | the signals are the number of components above nought |
| `Recommendation.SignalsCarryTheScore` | api/apps/search/services.py:449-457 | a total is at most ten points a signal and four more |
| `Recommendation.FiftyNeedsFive` | api/apps/search/services.py:253-266 | the total lies in 0..100, so the clamp is idle; a rounded score of fifty is a total of 49.5 and needs five signals |
| `Recommendation.Listing.AttachRecommendation` | api/apps/search/services.py:253-266 | the annotated fields for any total and count |
| `Recommendation.Listing.Recommend` | api/apps/search/services.py:269-356 | for a real pair, recommended exactly when the rounded score is fifty or more; the signal threshold decides nothing |
| `Payload.DikriptKeeps` | api/apps/verification/dikript.py:54-69 | after cleaning, an answer is reusable exactly when its status holds and its data name something besides picture and signature |
| `Payload.DikriptCleanKeeps` | api/apps/verification/dikript.py:54-69 | every member survives cleaning as it was, and of the data all but picture and signature; anything but an object becomes an empty one |
| `Payload.DikriptReusableExactly` | api/apps/verification/dikript.py:65-69 | an answer is reusable exactly when its status and its data say something, the data being an object |
| `Payload.PremblyCleanIsClean` | api/apps/verification/prembly_verification.py:154-164 | no dropped key is left at any depth |
| `Payload.PremblyCleanKeeps` | api/apps/verification/prembly_verification.py:154-164 | at every path, at any depth, an answer holds after cleaning just what it held, cleaned; nothing is left behind a dropped key in any letter case |
| `Payload.PremblyReusableExactly` | api/apps/verification/prembly_verification.py:167-192 | a reusable answer: status true, a code if any of 00 or 200, verification statuses if any verified, and data that hold something |
| `Payload.PremblyCleanFixes` | api/apps/verification/prembly_verification.py:154-164 | cleaning changes an answer exactly when something in it is to be dropped |
| `Payload.PremblyCleanTwice` | api/apps/verification/prembly_verification.py:154-164 | cleaning twice is cleaning once |
| `LookupCache.LookupHonest` | api/apps/verification/dikript.py:107-149 | a lookup either asks the provider and returns its cleaned answer, or returns a reusable answer that was given for the same hashed text and type less than two lifetimes ago; both caches hold only such answers afterwards |
| `LookupCache.LookupDoes` | api/apps/verification/prembly_verification.py:252-294 | by where the answer is found, in memory, in the table, at the provider or nowhere: what is returned, what each cache holds afterwards and until when |
| `LookupCache.SharedExactly` | api/apps/verification/prembly_verification.py:146-151 | two different lookups of one type share entries exactly when one is a Dikript lookup of the text the other, a Prembly lookup, hashes |
| `LookupCache.AnswersAreReused` | api/apps/verification/prembly_verification.py:268-294 | a reusable answer is returned for a whole lifetime without asking again, whatever is evicted |
| `LookupCache.UnusableIsNeverKept` | api/apps/verification/dikript.py:142-149 | an answer that may not be reused reaches neither cache |
| `LookupCache.RunHonest` | api/apps/verification/dikript.py:107-149 | both caches hold only given answers after every run of lookups, evictions and waits |
| `LookupCache.EveryHitIsGiven` | api/apps/verification/prembly_verification.py:252-294 | in every run, a hit is an answer given less than two lifetimes ago to this very query, or to one that clashes with it |
| `LookupCache.PassedIsPlain` | api/apps/companies/verification.py:46-53 | digits and capital letters, which is all that callers pass to Dikript, never clash with a Prembly lookup |
| `LookupCache.EveryHitIsOwn` | api/apps/verification/views.py:477-482 | so in every run of such lookups a hit is an answer this provider itself gave for this very value |
| `LookupCache.LookupStore.DikriptLookup` | api/apps/verification/dikript.py:107-149 | the Dikript lookup, cache by cache |
| `LookupCache.LookupStore.PremblyLookup` | api/apps/verification/prembly_verification.py:252-294 | the Prembly lookup, cache by cache |
| `OneTimeCodes.Newest` | api/apps/accounts/services.py:295-300 | the newest open row of an address and purpose, or none |
| `OneTimeCodeStore.CodeStore.IssueCode` | api/apps/accounts/models.py:199-229 | a row is issued or issued again, unless one was sent within the window |
| `OneTimeCodeStore.CodeStore.InvalidateRow` | api/apps/accounts/models.py:246-250 | an open row is closed, a closed one left |
| `OneTimeCodeStore.CodeStore.RegisterFailedAttempt` | api/apps/accounts/models.py:262-268 | one more failure, closing the row at the limit |
| `OneTimeCodeStore.CodeStore.MarkRowVerified` | api/apps/accounts/models.py:231-235 | the first verification time stays |
| `OneTimeCodeStore.CodeStore.MarkRowConsumed` | api/apps/accounts/models.py:237-244 | consumed now, and verified now if it was not |
| `OneTimeCodeStore.CodeStore.GetValidOtp` | api/apps/accounts/services.py:292-309 | expired or exhausted rows are closed, wrong codes counted, a right one returns the row untouched |
| `OneTimeCodeStore.CodeStore.ConsumeValidOtp` | api/apps/accounts/services.py:312-316 | a right code is verified and consumed at once |
| `OneTimeCodeStore.CodeStore.CompleteSignupVerification` | api/apps/accounts/services.py:362-400 | a failure in the transaction leaves every row as it was |
| `OneTimeCodeStore.CodeStore.VerifyPasswordResetCode` | api/apps/accounts/serializers.py:314-328 | a right code opens a session for its row |
| `OneTimeCodeStore.CodeStore.ResetPasswordWithToken` | api/apps/accounts/services.py:332-359 | a session consumes its row while it is open, verified and in time |
| `OneTimeCodeStore.CodeStore.ResetPasswordWithCode` | api/apps/accounts/serializers.py:361-390 | a code alone does the same, unless the password is the old one |
| `OneTimeCodes.IssueKeeps` | api/apps/accounts/models.py:199-229 | issuing never leaves two open rows, and never touches a consumed one |
| `OneTimeCodes.CheckKeeps` | api/apps/accounts/services.py:292-309 | a check keeps the rows sound and returns the one open row, in time and with its code presented |
| `OneTimeCodes.MarkConsumedKeeps` | api/apps/accounts/models.py:237-244 | consuming uses an issue that was not used before |
| `OneTimeCodes.StepKeeps` | api/apps/accounts/services.py:292-359 | every step keeps the rows sound |
| `OneTimeCodes.EveryRunKeeps` | api/apps/accounts/models.py:199-268 | in every run: one open row an address and purpose, open rows under the limit, each issue used at most once and only after its own code was presented, consumed rows never written again |
| `OneTimeCodes.UsesAreEarned` | api/apps/accounts/services.py:292-359 | a step uses at most one row: open, in time, under the limit, its current code presented; a session only if genuine, and session or code only for a new password |
| `OneTimeCodeEffects.IssueDoes` | api/apps/accounts/models.py:199-229 | a request inside the window is refused and changes nothing; any other fills the open row, or a new one, with this code, no attempts and its time |
| `OneTimeCodeEffects.CheckDoes` | api/apps/accounts/services.py:292-309 | when a check finds a row, and exactly what it writes otherwise: an attempt more, or the row closed |
| `OneTimeCodeEffects.ConsumeDoes` | api/apps/accounts/services.py:312-316 | consuming succeeds exactly when the code holds, and uses its row and no other |
| `OneTimeCodeEffects.CompleteSignupDoes` | api/apps/accounts/services.py:362-400 | a sign-up succeeds exactly when the code holds and nothing later fails; otherwise nothing changes |
| `OneTimeCodeEffects.VerifyResetDoes` | api/apps/accounts/serializers.py:314-328 | a session opens exactly when the code holds, for that row, which is verified and not used |
| `OneTimeCodeEffects.RedeemDoes` | api/apps/accounts/services.py:332-359 | a session is redeemed exactly when it is genuine, the password is new, and its row is an open, verified reset row of its address, in time; otherwise nothing changes |
| `OneTimeCodeEffects.ResetWithCodeDoes` | api/apps/accounts/serializers.py:361-390 | a code resets the password exactly when it holds and the password is new; the old password again writes nothing |
| `OneTimeCodes.GuessesRunOut` | api/apps/accounts/services.py:303-308 | as many wrong codes as the limit leave no open row, at any times, through any flow that commits its checks, with any steps on other addresses and purposes in between; fewer change nothing but the count |
| `OneTimeCodes.WrongCodesPerIssue` | api/apps/accounts/models.py:213-229 | in every run, with any steps in any order, the wrong codes counted for an address and purpose are at most the limit for each code issued to it, and what its open row still allowed at the start |
| `OneTimeCodes.IssueRestoresTheLimit` | api/apps/accounts/models.py:219-227 | issuing gives the open row all its attempts back |
| `OneTimeCodes.SignupGuessesNeverRunOut` | api/apps/accounts/services.py:362-366 | at a corper's or company's sign-up no number of wrong codes closes the row: each is undone with its transaction, and the right code still completes the sign-up |
| `OneTimeCodes.SessionFollowsTheRow` | api/apps/accounts/services.py:319-359 | issuing again suspends an earlier reset session, and it works again exactly if the new code is verified, until that one expires; that verification opens this very session |
| `OneTimeCodes.EarlierSessionIsRedeemed` | api/apps/accounts/services.py:332-359 | a run that shows it: the session of the first code is redeemed after the second was verified, and uses the second |
| `CompanyProfileStore.CompanyProfile.SetUnsubmitted` | api/apps/companies/views.py:23-32 | both statuses are withdrawn |
| `CompanyProfileStore.CompanyProfile.VerifyOrReject` | api/apps/companies/views.py:35-51 | a confirmation verifies, a refusal rejects and ends the request, an outage only ends it |
| `CompanyProfileStore.CompanyProfile.SyncApproval` | api/apps/accounts/onboarding.py:30-36 | approved exactly when ready |
| `CompanyProfileStore.CompanyProfile.HandleVerificationUpdate` | api/apps/companies/views.py:81-102 | the verification handler |
| `CompanyProfileStore.CompanyProfile.HandleProfileUpdate` | api/apps/companies/views.py:126-171 | the profile handler, with its early return for an approved company |
| `CompanyProfileStore.CompanyProfile.AfterIdentityChange` | api/apps/companies/views.py:161-165 | a new identity is put to the registry if terms and identity are complete, else withdrawn |
| `CompanyProfileStore.CompanyProfile.FollowProfileSave` | api/apps/companies/views.py:151-169 | what follows a stored profile: nothing for an approved company of the same identity |
| `CompanyProfileStore.CompanyProfile.HandleSubmission` | api/apps/companies/views.py:220-236 | the submission handler |
| `CompanyApproval.UpdateVerificationAgrees` | api/apps/companies/views.py:81-102 | the verification handler keeps the agreement unless interrupted |
| `CompanyEffects.UpdateVerificationDoes` | api/apps/companies/views.py:81-102 | an invalid or blanked request changes nothing; any other stores its fields, and a new identity is asked about: a confirmation verifies it, a refusal rejects it and withdraws the approval, an outage leaves both statuses |
| `CompanyEffects.UpdateProfileDoes` | api/apps/companies/views.py:126-171 | a locked, invalid or incomplete profile changes nothing; any other is stored, and then left, synced or asked about by whether it was approved and its identity is new |
| `CompanyEffects.SubmitDoes` | api/apps/companies/views.py:220-236 | a submission without a complete identity, or with terms or documents not accepted, changes nothing; confirmed it accepts the terms and verifies, refused it rejects, in an outage nothing changes |
| `CompanyEffects.ShownDoes` | api/apps/companies/serializers.py:27-38 | which status is shown for each stored one |
| `CompanyApproval.UpdateProfileAgrees` | api/apps/companies/views.py:126-171 | the profile handler does, although it returns early without syncing: the serializer asks for every required field |
| `CompanyApproval.SubmitAgrees` | api/apps/companies/views.py:220-236 | the submission handler always does |
| `CompanyApproval.SyncAgrees` | api/apps/accounts/onboarding.py:30-36 | after a sync, approved means complete, with terms and verified |
| `CompanyApproval.HandleAgreesExactly` | api/apps/companies/views.py:23-65 | a handler loses the agreement exactly if the registry is out of reach just when a verified company has stored a new identity |
| `CompanyApproval.EveryRunAgrees` | api/apps/companies/views.py:81-236 | so approved means ready, and verified means confirmed, after every run without such an outage |
| `CompanyApproval.NewCompanyAgrees` | api/apps/companies/services.py:14-40 | every company whose statuses were never set is in agreement, whatever values its sign-up gave it, so those runs may start there |
| `CompanyApproval.RenameDuringAnOutage` | api/apps/companies/views.py:81-171 | for every approved company and every other name, stored through either handler during an outage: it stays approved and verified under a name never confirmed |
| `CompanyApproval.OutageRunUnconfirms` | api/apps/companies/views.py:126-236 | from every new company, a complete profile, a confirmed submission and any other name stored during an outage lead there |
| `CompanyApproval.SampleRun` | api/apps/companies/serializers.py:193-213 | one such run, with a registration number, tax number, capacity and contacts of the accepted formats |
| `CompanyApproval.ApprovedMeansConfirmed` | api/apps/accounts/onboarding.py:18-36 | when the registry always answers, a company is approved exactly when complete, with terms and verified, and then its very name, number and date were confirmed |
| `CompanyApproval.ShownAsStored` | api/apps/companies/serializers.py:27-38 | the shown status is approved exactly when the stored one is |

## Left out

- Calendar.AddMonthsAtLands: does not model the error for years after 9999 or the offset of a local time zone; instants are on one clock.
- Matching.Similarity: takes phrases already normalised, split and tokenised; regular expressions, stop words and accents are not modelled.
- Matching.PhraseCoverage: takes the evidence texts with their concatenation as one list, and leaves out the list of matched phrases shown in reasons.
- Recommendation.BothSeeTheSame: leaves out the reasons, whose wording is all in which the two scorers differ.
- Recommendation.Listing.AttachRecommendation: leaves out the reasons, their order and the cut to four.
- LookupCache.SharedExactly: takes the SHA-256 of a lookup to be injective.
- Payload.PremblyCleanIsClean: lower case is that of the Latin letters without accents.
- BillingStore.Store.SyncFlutterwaveRecord: leaves out the amount, currency, customer e-mail and payload copies on a record.
- BillingStore.Store.ProcessRecordedWebhookEvent: begins with a stored event; storing it, its signature, its event id and the mark on a failed one are not modelled.
- BillingStore.Store.ConfirmPayment: leaves out the reactivation of the user's account.
- BillingStore.Store.ApplyPaymentOutcome: leaves out the same reactivation.
- BillingStore.Store.SetTerminalPaymentStatus: leaves out the text of notices and the merging of payload dictionaries beyond the charge they carry.
- BillingStore.Store.CreatePendingPayment: leaves out return addresses and checkout data; whether the checkout opens is an argument.
- VerificationDesk.CorperDesk.Submission: the duplicate, deleted-account and persistence failures that record a failed attempt are one argument.
- VerificationDesk.CorperDesk.SyncCorperStatus: leaves out the personal details copied from an approved biodata attempt.
- VerificationDesk.CorperDesk.Save: leaves out names, numbers, hashes and documents on the profile, which no status depends on.
- OneTimeCodeStore.CodeStore.IssueCode: a row holds its code instead of a salted hash; generating and mailing codes are not modelled.
- OneTimeCodeStore.CodeStore.CompleteSignupVerification: the purge of expired sign-ups before the transaction is a step of its own, `Purge`.
- OneTimeCodes.EveryRunKeeps: the attempt limit is at least one, as configured.
- CompanyProfileStore.CompanyProfile.VerifyOrReject: the comparison of a registry record with the profile is one of three answers.
- CompanyProfileStore.CompanyProfile.HandleVerificationUpdate: formats and uniqueness are one argument.
- CompanyProfileStore.CompanyProfile.HandleProfileUpdate: values are taken as the serializer cleans them; uniqueness, formats and image processing are one argument.
- Concurrency inside one handler: steps are atomic, as in one database transaction.
- Plan price edits, Django admin edits and the administrator's own user editor, which can set any field.
- Directory counts per sector and state: sums over one loop, which would add only easy members.
- Account deactivation, reactivation (also the one a successful payment brings) and the 13-month expiry flag beyond the addition of months.
- Chat, interests, notifications, registration validators, files and the web client beyond its subscription choice.
- Network calls, tokens, e-mail, job queues and signatures.
- Floating point: scores are exact reals.
