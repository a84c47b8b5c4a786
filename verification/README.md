# Verification model of the hiring-assessment platform

A Dafny model of the parts of the platform whose behaviour is hardest to see from any one function: the candidate
session runtime and its rebuild from the response log, the credential chains, the per-organisation forks of shared
questions, the report arithmetic and ranking, the framing debouncer and the practice picker.

`dafny verify dfyconfig.toml` checks everything.

## How it is organised

| file | what it holds |
|---|---|
| `EngineTypes`, `AdaptiveEngine` | one module's state and what the adaptive engine does to it, as functions on snapshots |
| `SessionRuntime` | the session as a state machine: rows, the blob that the store may lose, one function per request, runs |
| `RunState`, `SessionService` | the mutable objects and the service methods, each proved to do what the state machine says |
| `SessionReplay`, `SessionInvariant` | what a log determines; the invariant that every request keeps |
| `SessionTheorems`, `SessionClocks` | the results over whole runs: rebuild, order, conservation, finishing, deadlines, budget |
| `SessionRecords` | what the rows mean: verdicts against the bank, and every stored or live figure as a summary of the rows |
| `SessionRequests` | single requests to reachable sessions: which answers are stored, what replies say, how sessions end |
| `SessionRebuilds`, `SessionExamples` | what a rebuild does not give back and exactly when, with concrete runs |
| `StartProtocol` | concurrent `start` calls, one database statement at a time |
| `RefreshTokens`, `ResetTokens` | the refresh-token list against a history that forgets nothing; interleaved redemption of reset links |
| `QuestionForks` | the question bank with copy-on-write forks, and what each organisation sees |
| `Rounding`, `BehavioralProfiles`, `ReportBuilder`, `Ranking` | the report's arithmetic and the competition ranking |
| `Framing`, `Practice` | the webcam debouncer and the round-robin practice picker |

A session is modelled by its database rows (the session row, the append-only responses, the results by module) and an
optional blob, the live state. A request is one atomic step that reads the clock once; losing the blob is a step of its
own that may happen at any time. What a request observes from outside - the time, the selector's pick for a state, the
current difficulty of a question - is a parameter of the step. The selector is any function that returns a question
of the module, with the details the module needs, that was not shown in it yet. The estimator, the evaluator, the
trait scorer and the probe comparison are arbitrary functions of what they are given. Question content does not change
during a run; difficulty may.

The mutable parts of the source are classes here. `SessionService.SessionsService.Handle` serves every request by
updating the live objects and the rows in place, and its postcondition says that rows and reply are those of
`SessionRuntime.Apply`, about which the theorems are proved.

## Where the code does not do what is expected of it

- The comment at `backend/src/sessions/sessions.service.ts:711-715` says the run can be replayed exactly, but for the
  clocks. Counts, tallies, patterns, pairs and seen ids can; estimates come back at two decimals (`RebuildSimulates`).
  The information sum comes back if and only if the differences between the information at each estimate and at the
  rounded estimate, over the answers since the live state was last built, cancel out (`InformationDrift`), in particular
  when none of those estimates needed rounding (`InformationRecovered`). `DriftingRun` is a run in which it does not.
- "A question is on screen exactly when the current module is running" is not kept by every request. An answer that
  reaches a running module whose question was lost with the blob is refused, but the rebuilt state has been saved
  (`StrandedRun` is such a run). `ScreenAfterRequest` says it is kept if and only if the request is not of that kind,
  and `Strands` can be checked before the call.
- `finalize` rewrites the rows of modules that closed earlier. Scores, counts, stop reason and completion time survive
  (`ClosedRowsSurvive`); the start time becomes null if and only if the module was already closed when the live state
  was last rebuilt (`StartTimeLost`, with a run in `StartTimeLostRun`).
- Two reset links of one account can both be redeemed when the second claim comes before the first caller's burn
  (`TwoLinksCanBothBeRedeemed`). A looked-up link can be claimed if and only if it was not claimed and its account not
  burned since it was minted (`ClaimSucceedsIffAlive`): claims of other links do not count (`SecondLinkUnaffected`), and
  neither does its expiry.
- A composite can leave the hull of its traits by rounding alone when the traits have more than one decimal
  (`HullNeedsTenths`); the report rounds them to one decimal first (`backend/src/reports/reports.service.ts:1662`), and
  then it cannot (`CompositeInHull`).
- The comment at `backend/src/reports/report-builder.ts:334-336` says that somebody who answered two questions badly has
  not earned "not recommended" either. The code leaves that band as it is: whatever the coverage, a report says "not
  recommended" if and only if the score is below the borderline (`NotRecommendedIffLow`); `TwoAnswers` has such a report.
- The comment at `frontend/src/hooks/useProctoring.ts:30-32` says one dropped read must never write "no face visible".
  A single absent read does when the verdict before it was another framing problem (`OneAbsentReadLogged`);
  `AbsentOnOneRead` says exactly when.

## Model

| member | source | states |
|---|---|---|
| `SessionTheorems.RebuildSimulates` | backend/src/sessions/sessions.service.ts:717-864 | in every reachable running session, folding the log back gives every module its answered and correct counts, tallies, patterns, pairs, seen ids and served groups (less those of the question on screen) and its estimates at two decimals, however often it was rebuilt before; a running module with answers gets a fresh clock from now, an unanswered started one comes back pending; index, totals and session clocks agree |
| `SessionRebuilds.RunTracked` | backend/src/sessions/sessions.service.ts:717-864 | over every run: each live estimate is the unrounded fold of the rows stored since the state was last built, its information sum differs from the rebuilt one by the drift of those rows, and a closed module lacks its start time exactly when it was closed at that build |
| `SessionRebuilds.InformationDrift` | backend/src/sessions/sessions.service.ts:763-773 | over every run: a rebuild changes a module's information sum by exactly the accumulated differences between scoring the answers since the last build at the estimate and at the rounded estimate, so the sum comes back if and only if they cancel out |
| `SessionRebuilds.InformationRecovered` | backend/src/sessions/sessions.service.ts:763-773 | the sum comes back, whatever the information function, when every one of those answers was scored at an estimate with at most two decimals |
| `SessionExamples.DriftingRun` | backend/src/sessions/sessions.service.ts:711-715 | a concrete run (start and two answers) whose information sum no rebuild gives back |
| `SessionReplay.AnswerMirrored` | backend/src/adaptive-engine/adaptive-engine.service.ts:222-355 | recording an answer and replaying the row it stored keep a live module and its replayed twin in step, for every answer, question and difficulty; the stored estimate survives another rounding |
| `SessionReplay.ReplayFacts` | backend/src/sessions/sessions.service.ts:743-815 | a well-formed log describes each module as begun exactly when it has answers, with one seen id per answer, and as many answers in all as it has rows |
| `SessionReplay.ReplaySeen` | backend/src/sessions/sessions.service.ts:749-755 | every question of the log is seen in the module its row names |
| `SessionReplay.ReplayAppend` | backend/src/sessions/sessions.service.ts:749-815 | one more row changes the replay of the module it names and no other |
| `SessionInvariant.CreateOk` | backend/src/sessions/sessions.service.ts:187-276 | a new session satisfies the invariant |
| `SessionInvariant.RehydrateOk` | backend/src/sessions/sessions.service.ts:717-864 | the rebuilt state of a running session satisfies everything the lost one did, with nothing on screen |
| `SessionInvariant.AnswerKept` | backend/src/sessions/sessions.service.ts:518-553 | an answer to the question on screen that is scored and stored keeps rows and live state in step, takes the question off the screen and leaves the module running |
| `SessionInvariant.UnansweredAccepted` | backend/src/sessions/sessions.service.ts:561-574 | scoring the question on screen as unanswered never fails: it is in the bank, has its details, and has no row yet |
| `SessionInvariant.CompleteKept` | backend/src/sessions/sessions.service.ts:555-586 | closing the running module never fails and leaves it completed, its result stored in agreement with the log, and the next index current |
| `SessionInvariant.FinalizeKept` | backend/src/sessions/sessions.service.ts:620-650 | closing a running session reaches a finished one: every module has exactly one row that agrees with the log, at most one shown question has none |
| `SessionInvariant.AdvanceKept` | backend/src/sessions/sessions.service.ts:448-516 | driving a running session on never fails, keeps the invariant, and leaves a question on screen exactly when the current module runs |
| `SessionInvariant.ApplyKept` | backend/src/sessions/sessions.service.ts:278-438 | every request, auto-submit and loss keeps the invariant, from running and from finished sessions |
| `SessionInvariant.RunKept` | backend/src/sessions/sessions.service.ts:278-687 | every run from a new session keeps the invariant |
| `SessionInvariant.FinishedApply` | backend/src/sessions/sessions.service.ts:318-347 | on a finished session no request changes status, submission time, responses or results, although starting a module may still move its clock |
| `SessionTheorems.SessionInOrder` | backend/src/sessions/sessions.service.ts:448-516 | over every run: modules before the current one are completed, later ones pending, the current one not completed, and a question on screen belongs to it while it runs |
| `SessionTheorems.ScreenAfterRequest` | backend/src/sessions/sessions.service.ts:398-431 | after a request a question is on screen exactly when the current module runs, if and only if the request was not an answer to a state that has no question up |
| `SessionTheorems.ScreenOverRuns` | backend/src/sessions/sessions.service.ts:398-516 | over every run without such an answer the screen is in step with the current module |
| `SessionExamples.StrandedRun` | backend/src/sessions/sessions.service.ts:398-413 | a concrete run (start, answer, loss, answer) that leaves a running module with nothing on screen |
| `SessionTheorems.Conservation` | backend/src/sessions/sessions.service.ts:500-553 | over every run: rows are numbered 1..n, no question has two, n is the total and the sum of the modules' answers; while running each module's seen ids are its answers plus the one on screen, within its length; a finish leaves at most one shown question unrecorded |
| `SessionRecords.VerdictsOverRuns` | backend/src/adaptive-engine/evaluation/evaluation.service.ts:16-29 | over every run: an objective row says correct if and only if the option stored with it is the bank's correct one, so an unanswered question is wrong; a trait row says nothing |
| `SessionRecords.ReplayCounts` | backend/src/sessions/sessions.service.ts:749-773 | a log determines a module's answered and correct counts as numbers of its rows and of those that chose the bank's correct option, its estimate as the last one stored and its window as the last four |
| `SessionRecords.TalliesAreTotals` | backend/src/adaptive-engine/ability-estimator/ability-estimator.service.ts:167-188 | a log determines every trait tally as the sums, counts and squares over what the module's rows expressed, and the scale over what their questions made possible |
| `SessionRecords.PatternsAreCounted` | backend/src/sessions/sessions.service.ts:799-802 | a pattern's count is the number of the module's rows whose question has it, answered or not |
| `SessionRecords.PairsFromRows` | backend/src/adaptive-engine/consistency-probe/consistency-probe.service.ts:111-185 | every probe pair was opened by an answered row of its group with more than eight questions to go, closed by a later row of the group, and compares what those two rows say, first with second; at most two pairs and one open pair for a group |
| `SessionRecords.PairOpenedIff` | backend/src/adaptive-engine/consistency-probe/consistency-probe.service.ts:111-185 | a row opens a pair exactly when its question has a group, no pair of the group waits, it was answered, fewer than two were opened and more than eight questions are to go; it closes the waiting pair of its group exactly when there is one |
| `SessionRecords.ResultsSummarise` | backend/src/sessions/sessions.service.ts:588-613 | over every run: every stored result is the summary of its module's rows - how many, how many correct by the bank, the last estimate, traits scored from the sums over the rows, the pairs the rows make; null scores when there is none |
| `SessionRecords.LiveSummarises` | backend/src/adaptive-engine/adaptive-engine.service.ts:222-355 | over every run: a live module's counts, tallies and pairs are those of its rows |
| `SessionRecords.GroupsOverRuns` | backend/src/adaptive-engine/adaptive-engine.service.ts:172-179 | over every run: a live module holds back exactly the probe groups of which a question was shown, answered or not |
| `SessionRecords.ReasonsOverRuns` | backend/src/adaptive-engine/adaptive-engine.service.ts:117-144 | over every run: a module closed while the session runs is out of time exactly when it closed at or after its start plus its limit; otherwise it answered its whole length, or less because the pool was empty; a module without a reason was never answered |
| `SessionRequests.AnswersStoredOverRuns` | backend/src/sessions/sessions.service.ts:390-438 | in every reachable state a submitted answer is stored if and only if it has one of the two shapes, comes from the candidate before the session's deadline and within 2000 ms of the module's, answers the question on screen, and is one the question can take; then exactly one row is appended, with what was chosen, its place, time, difficulty, verdict and estimate |
| `SessionRequests.RepliesAreTrue` | backend/src/sessions/sessions.service.ts:448-516 | in every reachable running session a reply is true of the state it leaves: completed if it has just ended by its deadline or with all modules closed, an intro if the current module has not begun, a question if it is on screen and in time |
| `SessionRequests.ScreenSticks` | backend/src/sessions/sessions.service.ts:483-490 | asking again, or starting a module already running, changes nothing while a question is up and in time |
| `SessionRequests.HowSessionsEnd` | backend/src/sessions/sessions.service.ts:456-466 | a request that ends a session stamps it with its own time; the session is auto-submitted if and only if the request was the auto-submit or came at or after the deadline, and otherwise every module is closed |
| `SessionRequests.AutoSubmitCutsOff` | backend/src/sessions/sessions.service.ts:620-687 | auto-submitting cuts the running module off there and then as out of time, gives an unbegun one an empty row, and keeps closed rows but for their start time |
| `SessionRequests.ExpiredMeansEnded` | backend/src/sessions/sessions.service.ts:456-461 | once the deadline has passed, the candidate's next call, or the job, ends the session |
| `SessionRequests.FinishedSaysSo` | backend/src/sessions/sessions.service.ts:448-451 | after the end every well-formed call of the candidate's is told that it is over |
| `SessionRequests.StrangersAreRefused` | backend/src/sessions/sessions.service.ts:691-708 | over every run another candidate's call is refused and changes nothing, whether or not the blob is there |
| `SessionTheorems.FinishedForGood` | backend/src/sessions/sessions.service.ts:620-687 | from a finished session, no sequence of calls, losses and rebuilds - whatever the selector does - changes the record, and every configured module, and no other, has a result |
| `SessionTheorems.FinishingIsAbsorbing` | backend/src/sessions/sessions.service.ts:620-687 | the same for every session that a run from the start has brought to an end |
| `SessionTheorems.ClosedRowRewritten` | backend/src/sessions/sessions.service.ts:588-637 | re-persisting a closed module writes its row back to itself, up to the start time the live state has |
| `SessionTheorems.ClosedRowsSurvive` | backend/src/sessions/sessions.service.ts:620-637 | closing any reachable session, live or rebuilt, keeps every closed module's scores, counts, stop reason and completion time, and the whole row if and only if the state it is closed from still has the module's start time; otherwise the stored start time, never null before, becomes null |
| `SessionRebuilds.StartTimeLost` | backend/src/sessions/sessions.service.ts:820-837 | over every run: that happens if and only if the module was already closed when the live state was last rebuilt |
| `SessionExamples.StartTimeLostRun` | backend/src/sessions/sessions.service.ts:620-637 | a concrete run (start, three answers, loss, auto-submit) that turns a stored start time into null |
| `SessionClocks.ChoicesInTime` | backend/src/sessions/sessions.service.ts:398-431 | from any state at all, a request only appends rows stamped now, and a row with a choice only by an answer before the session's deadline and within 2000 ms of the module's |
| `SessionClocks.AnswersInTime` | backend/src/sessions/sessions.service.ts:398-431 | over every run, a choice is only recorded while the module has a deadline and no later than 2000 ms after it, and before the session's |
| `SessionClocks.RowsBeforeDeadline` | backend/src/sessions/sessions.service.ts:398-461 | over every run with rebuilds, all stored rows are from before the session deadline in force |
| `SessionClocks.RebasedOnlyUntouched` | backend/src/sessions/sessions.service.ts:328-341 | a request moves the session's deadline only while no response is stored and no module has closed |
| `SessionRequests.ClockStartsWithFirstModule` | backend/src/sessions/sessions.service.ts:363-380 | over every run, starting the first module puts the start at that moment and the deadline at the sum of all limits plus 120 s per module after it |
| `SessionRequests.FirstDeadline` | backend/src/sessions/sessions.service.ts:194-216 | a new session's deadline is two hours beyond that budget |
| `SessionClocks.BudgetSuffices` | backend/src/sessions/sessions.service.ts:363-380 | in a run without loss whose later modules are started within 120 s of the previous deadline, every module's deadline plus the answer grace falls before the session's, for any modules and limits; start calls that start nothing may come at any time |
| `SessionClocks.RequestWithinBudget` | backend/src/sessions/sessions.service.ts:328-380 | each request of such a run leaves every started module an intermission before its share of the budget ends |
| `RunState.ModuleRunState.Record` | backend/src/adaptive-engine/adaptive-engine.service.ts:153-162 | the in-place scoring of an answer is the function on snapshots; a rejected answer leaves the module as it was |
| `RunState.ModuleRunState.RecordObjective` | backend/src/adaptive-engine/adaptive-engine.service.ts:222-291 | as above for objective modules, with the outcome that is stored |
| `RunState.ModuleRunState.RecordTrait` | backend/src/adaptive-engine/adaptive-engine.service.ts:293-379 | as above for trait modules, with the shape check |
| `RunState.ModuleRunState.Register` | backend/src/adaptive-engine/consistency-probe/consistency-probe.service.ts:149-185 | the search for an open pair closes the first one of the group, or opens one where there is room |
| `RunState.ModuleRunState.Replay` | backend/src/sessions/sessions.service.ts:749-815 | folding one stored response in place is the replay function |
| `RunState.ModuleRunState.SettleFrom` | backend/src/sessions/sessions.service.ts:817-839 | a stored completed result closes the module; otherwise a begun one gets its clock restarted |
| `SessionService.SessionsService.RecordResponse` | backend/src/sessions/sessions.service.ts:518-553 | one answer in place: module, total, screen and the inserted row, or an error that leaves the database alone |
| `SessionService.SessionsService.CloseModule` | backend/src/sessions/sessions.service.ts:555-586 | the question on screen is recorded as unanswered and the module closed and persisted, or the error of that answer |
| `SessionService.SessionsService.FinalizeSession` | backend/src/sessions/sessions.service.ts:620-650 | cuts running modules off, rewrites every row, drops the question on screen, closes the row; nothing on a second call |
| `SessionService.SessionsService.AdvanceSession` | backend/src/sessions/sessions.service.ts:448-516 | the guarded loop computes the recursive advance, and the guard of 2n+3 passes is never used up: the reply is never the "could not be advanced" error |
| `SessionService.SessionsService.StepModule` | backend/src/sessions/sessions.service.ts:492-513 | a pass that continues has moved the index by exactly one |
| `SessionService.SessionsService.RebuildState` | backend/src/sessions/sessions.service.ts:717-864 | the replay and settling loops compute the rebuilt state and save it |
| `SessionService.SessionsService.BeginSessionClock` | backend/src/sessions/sessions.service.ts:363-384 | both copies of start and deadline are rebased to now plus the whole budget |
| `SessionService.SessionsService.StartModuleNow` | backend/src/sessions/sessions.service.ts:318-347 | starting the current module, from the store or from a rebuild |
| `SessionService.SessionsService.SubmitTo` | backend/src/sessions/sessions.service.ts:390-438 | every branch of submitting an answer, with its rows and reply |
| `SessionService.SessionsService.Handle` | backend/src/sessions/sessions.service.ts:278-438 | every request does to rows and blob, and replies, what the state machine says |
| `StartProtocol.EveryCallJoinsTheOneSession` | backend/src/sessions/sessions.service.ts:163-185 | for any number of calls and any interleaving, no call fails, an invitation never has two sessions, and all calls made with it that have returned joined the one it has |
| `StartProtocol.JoinsForItsInvitation` | backend/src/sessions/sessions.service.ts:163-185 | a call works for the invitation it was made with to the end, what it joins is stored for that invitation, and sessions are stored only for invitations some call was made with |
| `StartProtocol.ThreeStatementsJoin` | backend/src/sessions/sessions.service.ts:163-185 | three statements of a call, whatever others do between them, and it has joined its invitation's session |
| `StartProtocol.EveryCallReturns` | backend/src/sessions/sessions.service.ts:163-185 | each statement of a call brings it closer to returning and no other call's sets it back |
| `RefreshTokens.BoundedListIsEnough` | backend/src/auth/auth.service.ts:251-276 | over any run, the bounded list accepts a token exactly when it is current or among the five most recently superseded of this chain and superseded within the window |
| `RefreshTokens.RunRefines` | backend/src/users/users.service.ts:633-669 | over any run, the stored columns agree with the full history on everything still live, now and at any later time |
| `RefreshTokens.TrimLosesNothing` | backend/src/auth/auth.service.ts:523-535 | trimming at a rotation drops nothing a later look would accept |
| `RefreshTokens.BrokenForGood` | backend/src/auth/auth.service.ts:269-276 | after a sign-in, a logout or reset, or an unknown token, nothing issued earlier is accepted again, whatever follows |
| `RefreshTokens.GraceEndsOnTime` | backend/src/auth/auth.service.ts:466-484 | over any run with unique tokens, a superseded token is dead one window after it was superseded, however many grace hits came between |
| `RefreshTokens.CurrentNotListed` | backend/src/auth/auth.service.ts:507-531 | with unique tokens the current one is never also in the superseded list |
| `RefreshTokens.UserRow.RefreshWith` | backend/src/auth/auth.service.ts:251-272 | acceptance and the new columns of one refresh, including revocation on an unknown token |
| `RefreshTokens.UserRow.MatchesRecentToken` | backend/src/auth/auth.service.ts:476-484 | the loop finds a token exactly when the live list has it |
| `ResetTokens.RedemptionIsSafe` | backend/src/auth/auth.service.ts:412-449 | for any interleaving of any callers, each link is claimed at most once, and no link minted before a burn of its account is claimed after it |
| `ResetTokens.ClaimSucceedsIffAlive` | backend/src/auth/auth.service.ts:432-449 | in every reachable state, a looked-up link can be claimed if and only if nobody has claimed it and no redemption has burned its account since it was minted |
| `ResetTokens.LookupSucceedsIff` | backend/src/auth/auth.service.ts:412-426 | in every reachable state, a new caller's lookup succeeds if and only if the link was minted within the hour, nobody has claimed it and no redemption has burned its account since; the caller then holds that link and the account it was minted for |
| `ResetTokens.ClaimedWasTimely` | backend/src/auth/auth.service.ts:417-441 | every link that was ever claimed was looked up by its claimer within an hour of being minted |
| `ResetTokens.BurnSpendsTheAccount` | backend/src/auth/auth.service.ts:446-449 | in every reachable state, the burn after a claim spends every link of that link's account and changes no other account's |
| `ResetTokens.SecondLinkUnaffected` | backend/src/auth/auth.service.ts:432-449 | of two looked-up links, claiming one leaves the other exactly as claimable as it was, until a burn |
| `ResetTokens.TwoLinksCanBothBeRedeemed` | backend/src/auth/auth.service.ts:432-449 | an interleaving in which two links of one account are both claimed |
| `ResetTokens.ResetTokenTable.ResetPassword` | backend/src/auth/auth.service.ts:412-459 | without interleaving: succeeds if and only if the link is stored, unused and not past its expiry, spends every link of its account, and leaves others alone |
| `ResetTokens.ResetTokenTable.BurnAll` | backend/src/auth/auth.service.ts:446-449 | exactly the account's unspent links become spent |
| `QuestionForks.TenantsAreIsolated` | backend/src/question-bank/question-visibility.ts:23-34 | no sequence of operations by other organisations changes what an organisation sees or its content |
| `QuestionForks.ExactlyOneVersion` | backend/src/question-bank/question-visibility.ts:23-34 | in every reachable bank an organisation sees exactly one version of every platform question |
| `QuestionForks.EditingForks` | backend/src/question-bank/question-bank.service.ts:356-390 | editing a platform question swaps it for a private copy for this organisation and for nobody else, and leaves the original as it was |
| `QuestionForks.ForkingIsEditing` | backend/src/question-bank/question-bank.service.ts:299-451 | editing through a fork and editing in place give the same content, and no other row changes |
| `QuestionForks.StatusChangeOnly` | backend/src/question-bank/question-bank.service.ts:528-549 | a status change of any visible question alters nothing but the status of the organisation's version |
| `QuestionForks.EditTakesEffect` | backend/src/question-bank/question-bank.service.ts:405-451 | an edit gives the organisation's version what it names, clears a group named as empty, and leaves everything else as it was |
| `QuestionForks.EditedIff` | backend/src/question-bank/question-bank.service.ts:356-402 | an edit succeeds exactly when the question is in view, a new block is the valid one for its module and the group named stays in the module; it is not found exactly when it is out of view |
| `QuestionForks.CreatedIff` | backend/src/question-bank/question-bank.service.ts:121-187 | a question is stored exactly when its module exists, it has the one valid block the module calls for - with a pattern for traits - and its group stays in the module; it is then visible to its own organisation alone, with what was authored |
| `QuestionForks.NamedGroupInOneModule` | backend/src/question-bank/question-bank.service.ts:84-113 | after an edit that names a probe group, the organisation has that group in one module only |
| `QuestionForks.DetailsFitOverRuns` | backend/src/question-bank/question-bank.service.ts:560-596 | no run of authoring, forking and deleting leaves a question without the details its module's scoring type needs |
| `QuestionForks.RemovingForkRestores` | backend/src/question-bank/question-bank.service.ts:485-513 | deleting its fork gives an organisation the original back, as it was, as its only version |
| `QuestionForks.RemovedIffOwnAndUnanswered` | backend/src/question-bank/question-bank.service.ts:485-513 | a question leaves the bank exactly when its own organisation removes it and nobody has answered it; otherwise nothing changes, and if it does no other row changes |
| `QuestionForks.RemovalRefused` | backend/src/question-bank/question-bank.service.ts:485-513 | not found, forbidden or conflict exactly for a question out of view, the platform's, or answered |
| `QuestionForks.PlatformIsReadOnly` | backend/src/question-bank/question-bank.service.ts:285-349 | no sequence of operations changes or deletes a platform question |
| `QuestionForks.RunKeeps` | backend/src/question-bank/entities/question.entity.ts:124-130 | over every run, forks are private copies of existing platform questions and an organisation has at most one of each |
| `QuestionForks.QuestionTable.CreateQuestion` | backend/src/question-bank/question-bank.service.ts:121-187 | the new row, or the error and an untouched table |
| `QuestionForks.QuestionTable.UpdateQuestion` | backend/src/question-bank/question-bank.service.ts:356-451 | fork or edit in place, the id of the organisation's version, or the error and an untouched table |
| `QuestionForks.QuestionTable.SetStatusOf` | backend/src/question-bank/question-bank.service.ts:528-549 | the same for a status change |
| `QuestionForks.QuestionTable.RemoveQuestion` | backend/src/question-bank/question-bank.service.ts:485-513 | deletes exactly an own, never answered question and unlinks its references, or says why not |
| `BehavioralProfiles.CompositeInHull` | backend/src/reports/behavioral-profiles.ts:174-206 | a reported composite lies between the least and the greatest of its own measured traits, at the one decimal they are reported with |
| `BehavioralProfiles.HullNeedsTenths` | backend/src/reports/behavioral-profiles.ts:200-206 | with finer traits rounding alone can leave the hull |
| `BehavioralProfiles.UnmeasuredDropped` | backend/src/reports/behavioral-profiles.ts:174-193 | a trait without evidence changes no composite |
| `BehavioralProfiles.ScoredByConfidence` | backend/src/reports/behavioral-profiles.ts:195-219 | a composite is listed exactly when one of its traits was measured, scored when all of those have half confidence, and not when all have less |
| `BehavioralProfiles.BandAgreesWithScore` | backend/src/reports/behavioral-profiles.ts:262-266 | the band agrees with the score shown, up to a score shown at a threshold |
| `BehavioralProfiles.UniformIndex` | backend/src/reports/behavioral-profiles.ts:246-260 | when every measured trait has the same one-decimal score with full confidence, so has the index |
| `BehavioralProfiles.WeighedByShare` | backend/src/reports/behavioral-profiles.ts:200-206 | an example of two traits weighed by their own shares |
| `BehavioralProfiles.IndexRaised` | backend/src/reports/behavioral-profiles.ts:167-260 | raising trait scores at fixed confidence lowers no composite, band or index and makes none appear or vanish |
| `BehavioralProfiles.IndexInRange` | backend/src/reports/behavioral-profiles.ts:246-260 | the index of composites in 0..100 is in 0..100, at one decimal |
| `BehavioralProfiles.BuildBehavioralProfiles` | backend/src/reports/behavioral-profiles.ts:167-236 | the loop builds the composites of the specification, dropping unmeasured ones |
| `ReportBuilder.BlendBetweenHalves` | backend/src/reports/report-builder.ts:280-298 | the overall score lies between its halves, is the half when there is one, and is null exactly when there is none |
| `ReportBuilder.SevenToThree` | backend/src/reports/report-builder.ts:280-298 | with both halves the overall score is at one decimal and within 0.05 of seven tenths ability and three tenths behaviour |
| `ReportBuilder.TwoSectionsReport` | backend/src/reports/report-builder.ts:236-270 | a whole report: ability 90 and behaviour 30 make 72 and recommended |
| `ReportBuilder.NormalisedInRange` | backend/src/reports/report-builder.ts:221-225 | every estimate maps into 0..100 at one decimal |
| `ReportBuilder.NormalisedIs` | backend/src/reports/report-builder.ts:221-225 | eight points of estimate are one point of score, from 600 at 0 to 1400 at 100, to one decimal |
| `ReportBuilder.AbilityWhenAttempted` | backend/src/reports/report-builder.ts:237-248 | ability is null exactly when no objective module was attempted |
| `ReportBuilder.AbilityOfAttempted` | backend/src/reports/report-builder.ts:237-248 | unattempted and trait modules do not touch ability, and order does not matter |
| `ReportBuilder.AbilityInHull` | backend/src/reports/report-builder.ts:241-248 | ability lies between the least and greatest score of the attempted modules, a missing one being 0 |
| `ReportBuilder.ReportInRange` | backend/src/reports/report-builder.ts:236-270 | with inputs in 0..100 every composite, the index, the ability and the overall score are in 0..100, the last between its halves |
| `ReportBuilder.ReportIsMonotone` | backend/src/reports/report-builder.ts:236-356 | raising any trait or module score lowers no composite, index or score and never worsens the recommendation, through rounding, bands and the cap |
| `ReportBuilder.CapOnlyLowers` | backend/src/reports/report-builder.ts:312-341 | thin coverage gives the lower of the band and borderline |
| `ReportBuilder.RecommendationTable` | backend/src/reports/report-builder.ts:312-356 | the recommendation of every report, by its overall score against 75, 55 and 40 and by whether three fifths of the questions were answered |
| `ReportBuilder.TwoAnswers` | backend/src/reports/report-builder.ts:332-341 | two reports on 2 of 100 questions: one comes out not recommended, the other is capped at borderline |
| `ReportBuilder.NamedCompositesAreScored` | backend/src/reports/report-builder.ts:379-453 | every composite listed as a strength or weakness has a reported score |
| `ReportBuilder.StrengthsExactly` | backend/src/reports/report-builder.ts:358-388 | what is listed as a strength: exactly modules at 65 or more on three answers, traits at 65 or more with confidence 0.8, and strong composites with confidence 0.8 |
| `ReportBuilder.WeaknessesExactly` | backend/src/reports/report-builder.ts:390-431 | what is listed as a weakness: exactly the counterparts at 35 or less, the developing composites, and every section begun and not finished |
| `ReportBuilder.Blend` | backend/src/reports/report-builder.ts:280-298 | the list of existing halves blends to the specified score |
| `ReportBuilder.CollectStrengths` | backend/src/reports/report-builder.ts:358-388 | the loop lists module and trait strengths in order, then the strong composites |
| `ReportBuilder.CollectWeaknesses` | backend/src/reports/report-builder.ts:390-431 | the loop lists module, trait and thin-section weaknesses in order, then the developing composites |
| `Ranking.RankIsOnePlusAbove` | backend/src/reports/reports.service.ts:959-987 | a scored row's rank is one more than the number of rows with a strictly greater score and at most the cohort size; unscored rows have none |
| `Ranking.OrderDoesNotMatter` | backend/src/reports/reports.service.ts:959-987 | the same rows in any order get the same ranks |
| `Ranking.ScanRanks` | backend/src/reports/reports.service.ts:972-980 | the scan of any descending list, whatever order ties are left in, gives each entry one more than the number above it |
| `Ranking.RankByScore` | backend/src/reports/reports.service.ts:959-987 | the scan loop fills in the specified standings |
| `Framing.CountersRefineReference` | frontend/src/hooks/useProctoring.ts:765-793 | the counting loop reports, over any reads, what a reference that looks back one verdict and keeps no counters reports on the verdicts heard |
| `Framing.ReportIsLastAgreement` | frontend/src/hooks/useProctoring.ts:765-793 | the report stands on the side of the latest two consecutive verdicts that agreed |
| `Framing.EventNeedsTwoBadReads` | frontend/src/hooks/useProctoring.ts:772-793 | an event is logged only on the second of two unframed verdicts with no other verdict between |
| `Framing.EventNamesTheProblem` | frontend/src/hooks/useProctoring.ts:793-816 | an event is logged exactly when the report changes to a problem, and names that problem and the number of faces read |
| `Framing.IsolatedReadNeverEmits` | frontend/src/hooks/useProctoring.ts:756-797 | one bad verdict between two good ones logs nothing and leaves the report alone |
| `Framing.ChangesAreSpaced` | frontend/src/hooks/useProctoring.ts:772-793 | two changes of the report are at least two reads apart |
| `Framing.NotFramedOncePerDeparture` | frontend/src/hooks/useProctoring.ts:774-812 | "not framed" is logged at most once between two confirmations of being framed |
| `Framing.ConsecutiveReportsDiffer` | frontend/src/hooks/useProctoring.ts:774-793 | consecutive reports differ, and one problem replaces another only as nobody or several people |
| `Framing.SustainedIsReported` | frontend/src/hooks/useProctoring.ts:765-793 | what holds for two verdicts is reported; two of nobody, or of several people, exactly as that |
| `Framing.AbsentOnOneRead` | frontend/src/hooks/useProctoring.ts:786-796 | exactly when one absent verdict is enough to log "no face" |
| `Framing.OneAbsentReadLogged` | frontend/src/hooks/useProctoring.ts:786-796 | a sequence of reads in which it is |
| `Framing.Debouncer.Tick` | frontend/src/hooks/useProctoring.ts:745-817 | one tick's new variables and event |
| `Practice.PicksArePrefixes` | backend/src/question-bank/practice.service.ts:105-124 | for any target and rows: as many picks as the lesser of the two, and from each subject the first of its rows in order |
| `Practice.PicksAreFair` | backend/src/question-bank/practice.service.ts:114-124 | two subjects differ by more than one pick only when the one behind has nothing left |
| `Practice.EverySubjectShown` | backend/src/question-bank/practice.service.ts:92-98 | a target of at least one per subject shows every subject |
| `Practice.FirstPicks` | backend/src/question-bank/practice.service.ts:105-124 | the first picks are the first rows of the subjects, in the order in which the subjects appear |
| `Practice.TourVisitsAll` | backend/src/question-bank/practice.service.ts:105-124 | without a target the rounds visit every row exactly once |
| `Practice.Group` | backend/src/question-bank/practice.service.ts:105-110 | one queue per subject, in order of first appearance, each with that subject's rows in order |
| `Practice.RoundRobin` | backend/src/question-bank/practice.service.ts:112-124 | the shifting loop terminates and picks the tour of the queues cut off at the target |
| `Practice.ForModules` | backend/src/question-bank/practice.service.ts:66-124 | the picks for the actual target of three |

## Left out

- Time inside one request: the source reads the clock several times in a request, the model once.
- Half-executed requests: except in `StartProtocol` and `ResetTokens`, a request is one atomic step. The code takes no
  lock, and two simultaneous answers or refreshes are not covered.
- The bodies of the estimator, evaluator, selector, trait scorer and probe comparison; they are arbitrary functions.
- The selector's contract includes that a pick fits the module and carries its details; its query for due twins does
  not join the details and is trusted to return such a question.
- Edits to questions, details or modules while a session runs, and answers to questions that no longer exist in the
  bank, beyond the error the runtime raises for them.
- Candidate and invitation windows, the error for an assessment with no modules, session views and remaining times.
- The auto-submit queue: the job may fire at any time. Redis expiry, per-module clock keys and namespacing.
- Exposure and correctness counters of questions, and the recalibration of difficulty: the difficulty a question has
  when it is answered is a parameter of the step.
- Module names, slugs, organisation and trait definitions in the live state; they are carried along unread.
- The payload's size limits and option-key formats.
- The means and totals derived from probe pairs, and the confidence figure of a module.
- SessionClocks.BudgetSuffices: assumes no state loss, since a rebuild restarts the running module's clock and not the
  session's.
- SessionTheorems.ScreenAfterRequest: the loss of the blob is covered trivially, as nothing is on screen without one.
- RefreshTokens.GraceEndsOnTime: takes tokens to be unique, as the random id in each makes them.
- Hashing, token signing, passwords, mail and the shape of links; a token is an opaque unique value.
- Refresh is atomic: its read and write are two statements in the source.
- Question options, trait weights and the content checks on them: opaque values and an arbitrary predicate.
- Question counters, authorship, list queries and imports. `archive` is the status change it calls.
- Rounding is over the reals; floating-point error in the means is not modelled.
- The contributions listed under a composite, the profile confidence, labels and all narrative wording.
- Array sorting is modelled by a stable insertion; `Ranking.ScanRanks` shows the result does not depend on it.
- The geometry that turns face boxes into a framing verdict, and the on-screen notices.
- `busy` and `stopped` ticks of the camera loop count as failed detections.
- The query that selects and orders practice rows, and the fields copied from a pick for display.
