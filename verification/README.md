# Verified model of the law practice, resource, identity and setup code

This project models the parts of the repository whose correctness rests on more
than one function, in Dafny 4.11, and proves what they promise over every input
and every run. `dafny verify dfyconfig.toml` checks all of it.

Five groups, one module per component:

- **The authorization index.** `Tuples`, `Engine`, `Reconcile`, `FirmRows`,
  `Projection`, `FirmIndex`, `AuthzModel`, `Policy`. The firm's rows are projected
  into relationship tuples; per-request deltas keep the tuples current; a diff
  repairs them; rewrite rules evaluate them for the policy. Proved: the engine
  equals the projection of the rows after every request of every run, what a
  failed sync leaves behind, that racing reconcilers converge, and that the policy
  read through the tuples says what the rows say.
- **One-time refresh tokens.** `RefreshTokens`, `ActivationCodes`, `AuthService`,
  `SessionKit`, `TabCoordination`, `TabSessions`. The server's statements are atomic steps; many
  tabs share one cookie, a lock and a broadcast channel. Proved: exactly when a
  token is accepted, that replays are caught, that refreshing and signing in never
  set off the alarm while answers arrive, and exactly when anything else does.
- **The resource commons.** `Store`, `Pipeline`, `CreateChain`, `Filters`, `Like`,
  `Listing`. Concurrent creates on one key, the filter compiler against the
  in-memory evaluator, substring search through LIKE, ordering, paging, counting.
- **Convergence and events.** `Setup`, `TextSets`, `Publisher`, `Matters`. The
  crash-tolerant setup, and the event cascade that keeps "the lead is a member"
  and "next hearing date" true.
- **Algorithms with exact specifications.** `CodePoints`, `ModelNormal`,
  `RateLimit`, `FindInPage`, `Highlight`, `Paise`.

`TextOrder`, `Whitespace` and `Wrappers` are shared vocabulary. Components that
change state are classes whose methods are proved against step functions; the
theorems about runs are about those functions. `opened` imports are used where a
module speaks the vocabulary of another throughout.

Where a promise fails without a condition, the code is modelled as it is, a lemma
shows the failure, and another says exactly when the promise holds:

- `apps/law/backend/src/domain/authz/tuples.ts:25-27` says a missed sync grants
  too little. A missed delete grants too much, and then only (`Policy.RemovalStillOpensIff`,
  `Policy.RefusedWritesOnlyWithhold`);
  `FirmIndex.DriftOfFailedSync` states both directions.
- Giving a member row another user desynchronises the engine exactly when a case
  or a membership refers to the member (`FirmIndex.RebindSyncsIffUnreferenced`).
- Tuple identities can collide, but only with a bar in a user id and one in a case id
  (`Tuples.TupleIdCollides`, `Tuples.ClashTakesBothBars`).
- Syncs that overtake each other on a tuple leave the engine wrong
  (`FirmIndex.InterleavedSyncsIff`).
- Clerks do resolve deadlines, their own, and a deadline is moved between cases without
  asking about either (`Policy.ClerkResolvesIff`, `Policy.UncheckedMoveIff`).
- Two partners can demote each other at the same moment (`FirmIndex.CrossedDemotionsIff`).
- A token that a refresh or sign-in had outstanding outlives the reset meant to end it
  (`AuthService.RefreshOutlivesReset`, `AuthService.ResetIsFinalIff`).
- A lost refresh answer, or a sign-out beside a refresh, does set off the reuse
  alarm, and so does a refresh that its tab gave up on and the server still handles, under
  exact conditions (`TabSessions.LostAnswerIff`, `TabSessions.OverlapAlarmsIff`,
  `TabSessions.AbandonedRefreshAlarmsIff`, `TabSessions.HandledBehindAlarmsIff`).
- Broadcasts that cross leave tabs disagreeing (`TabSessions.CrossingOutcomesSwap`,
  `TabSessions.DeliveredTabsAgreeIff`).
- A hearing moved to another case can leave the old case's date stale
  (`Matters.MovedHearingLeavesDateIff`), and so can the turn of the day (`Matters.DayTurnIff`).
- The two stores differ on a stored empty text (`Filters.ConditionAgreesIff`).
- A secrets file that contradicts a vault is not repaired (`Setup.VaultHoldsReturnedKeyIff`).
- Checks that overlap overrun the failure budget by exactly the attempts in flight beyond
  the first (`RateLimit.BudgetHolds`, `RateLimit.BudgetIsTight`); for one at a time the bound
  is one better than twice the budget.
- A printed negative amount is not read back (`Paise.RoundTripIffNotNegative`).

## Model

| member | source | states |
|---|---|---|
| `Tuples.RefRoundTrip` | packages/authorization/src/tuples.ts:18-30 | a reference read back by `idOf` gives its id, and references of different types or ids differ |
| `Tuples.TupleIdInjective` | packages/authorization/src/tuples.ts:32-34 | the set identity tells tuples apart when their relations carry no bar and either their users or their objects do not |
| `Tuples.ClashTakesBothBars` | packages/authorization/src/tuples.ts:32-34 | a clash takes a bar in a user and a bar in an object |
| `Tuples.TupleIdCollides` | packages/authorization/src/tuples.ts:32-34 | with a bar in a user id and in a case id two different tuples of the projected form share one identity |
| `Engine.Engine.WriteEach` | packages/authorization/src/engine.ts:86-97 | a batch of writes adds exactly the accepted tuples, and a tuple already there counts as settled |
| `Engine.Engine.DeleteEach` | packages/authorization/src/engine.ts:86-98 | a batch of deletes removes exactly the accepted tuples, and a tuple already gone counts as settled |
| `Engine.Engine.Write` | packages/authorization/src/engine.ts:86-99 | writes then deletes are applied tuple by tuple whatever else is refused, and the call fails exactly when one of its tuples was refused |
| `Engine.Engine.ReadAll` | packages/authorization/src/engine.ts:101-115 | following the continuation token ends and returns every stored tuple once |
| `Engine.AssertSettled` | packages/authorization/src/engine.ts:59-69 | the batch passes exactly when no per-tuple result is a real failure |
| `Reconcile.Diff` | packages/authorization/src/reconcile.ts:24-37 | the diff by identity is the set difference in both directions, each tuple listed once |
| `Reconcile.ReconcileTuples` | packages/authorization/src/reconcile.ts:24-40 | from any stored set one pass with nothing refused ends at the desired set; the counts are the sizes of the drift; what is refused stays as it was, and the call fails exactly when a refused tuple was part of the drift |
| `Reconcile.RaceConverges` | apps/law/backend/src/domain/authz/reconcile-loop.ts:10-13 | replicas interleaving single pages of their reads, single writes and single deletes over unchanged rows: once one of them completes, the stored set is the desired one and stays it |
| `Reconcile.RaceStartsAnywhere` | apps/law/backend/src/domain/authz/reconcile-loop.ts:19-31 | whatever the engine held before, any interleaving in which some replica finishes its pass ends at the desired set |
| `Reconcile.DriftOnlyShrinks` | apps/law/backend/src/domain/authz/reconcile-loop.ts:10-13 | no step of any replica, abandoned ones included, adds to the drift |
| `Reconcile.CanAlwaysFinish` | apps/law/backend/src/domain/authz/reconcile-loop.ts:19-31 | from any stored set, with any other replicas in flight, a replica can finish its pass |
| `Projection.OneSupporter` | apps/law/backend/src/domain/authz/tuples.ts:103-147 | with the natural keys unique, no tuple is supported by two rows |
| `Projection.ProjectAuthorizationTuples` | apps/law/backend/src/domain/authz/tuples.ts:103-147 | the listing loops compute exactly the set the rows project to |
| `Projection.SpelledOut` | apps/law/backend/src/domain/authz/tuples.ts:30-80 | the firm, lead and member tuples as the engine is sent them |
| `Projection.FirmMemberDeltaIsRowDiff` | apps/law/backend/src/domain/authz/tuples.ts:156-168 | the role delta writes what the row newly supports and deletes what it no longer does, and nothing else |
| `Projection.CaseDeltaIsRowDiff` | apps/law/backend/src/domain/authz/tuples.ts:170-196 | the firm-link and lead delta is exactly the difference of what the case row supports |
| `Projection.CaseMemberDeltaIsRowDiff` | apps/law/backend/src/domain/authz/tuples.ts:198-212 | the membership delta is exactly the difference of what the membership row supports |
| `Projection.RowDiffSyncs` | apps/law/backend/src/domain/authz/tuples.ts:149-212 | applying the difference of one changed row to the projection gives the projection of the changed rows, so a delete never removes a tuple another row supports |
| `Projection.DeltaSyncs` | apps/law/backend/src/domain/authz/tuples.ts:149-212 | every admissible row write followed by its delta takes the projection to the new projection |
| `FirmRows.ApplyKeepsRows` | apps/law/backend/src/domain/casemember/casemember-resource.ts:91-98 | a write the natural keys and reference checks admit keeps every table keyed, unique and resolving |
| `FirmIndex.PlanAdmissible` | apps/law/backend/src/domain/firmmember/firmmember-resource.ts:82-122 | whatever passes the create, update and remove pipelines is a write the keys and references admit |
| `FirmIndex.CreateMemberIff` | apps/law/backend/src/domain/firmmember/firmmember-resource.ts:37-47 | a member is created for a user nobody is bound to, active unless told otherwise; each refusal has its code |
| `FirmIndex.UpdateMemberIff` | apps/law/backend/src/domain/firmmember/firmmember-resource.ts:70-122 | an update is refused exactly to a caller deactivating their own active row, and to one that leaves no acting managing partner; otherwise the row is as sent, an unsent flag meaning active |
| `FirmIndex.UpdateMemberRefused` | apps/law/backend/src/domain/firmmember/firmmember-resource.ts:165-181 | no user, no row, or another member bound to the user: each with its code |
| `FirmIndex.NobodyDeactivatesThemselves` | apps/law/backend/src/domain/firmmember/firmmember-resource.ts:89-97 | over every run no request deactivates the active member whose user sent it |
| `FirmIndex.CreateCaseIff` | apps/law/backend/src/domain/case/case-resource.ts:189-236 | a case is created exactly with a number no case has and a lead who is a member, as it was sent |
| `FirmIndex.UpdateCaseIff` | apps/law/backend/src/domain/case/case-resource.ts:189-236 | a case keeps its number or takes one no other case has; the row is as it was sent |
| `FirmIndex.AddMembershipIff` | apps/law/backend/src/domain/casemember/casemember-resource.ts:85-112 | a period is opened exactly for an existing case and member with none in force |
| `FirmIndex.RemoveMembershipIff` | apps/law/backend/src/domain/casemember/casemember-resource.ts:114-145 | a period is ended exactly when it is in force and does not make the lead a member; the row is kept |
| `FirmIndex.RunKeepsSync` | apps/law/backend/src/domain/authz/tuples.ts:149-212 | over every run of member, case and membership requests whose syncs succeed, with each member keeping their user, the engine equals the projection of the rows after every request |
| `FirmIndex.RunKeepsRows` | apps/law/backend/src/domain/casemember/casemember-resource.ts:104-145 | over every run, whatever the engine refuses, the rows keep their natural keys and references |
| `FirmIndex.RebindSyncsIffUnreferenced` | apps/law/backend/src/domain/authz/tuples.ts:156-168 | moving a member to another user keeps the engine in sync exactly when no case is led by them and no membership of theirs is in force |
| `FirmIndex.DriftOfFailedSync` | apps/law/backend/src/domain/authz/tuples.ts:230-245 | what a failed sync leaves is exactly the refused writes missing and the refused deletes remaining |
| `FirmIndex.DeltaIsExact` | apps/law/backend/src/domain/authz/tuples.ts:149-212 | a delta writes only tuples that are missing and deletes only tuples that are there |
| `FirmIndex.RunNeverClashes` | packages/authorization/src/tuples.ts:32-34 | over every run with bar-free case ids, or with bar-free user ids, failed syncs included, no stored or desired tuple is mistaken for another |
| `FirmIndex.InterleavedSyncsIff` | apps/law/backend/src/domain/authz/tuples.ts:230-245 | however the syncs of two writes interleave, tuple by tuple, the engine ends in sync exactly when every tuple both touch is touched by the earlier write's sync first |
| `FirmIndex.RunStaysAdministered` | apps/law/backend/src/domain/firmmember/firmmember-resource.ts:70-122 | once the firm has an active managing partner, no sequential run of requests leaves it without one |
| `FirmIndex.TurnsStayAdministered` | apps/law/backend/src/domain/firmmember/firmmember-resource.ts:97-122 | with the guard's read and the save as separate steps of interleaved requests, one always remains if each demotion begins while some other is not being lowered |
| `FirmIndex.SteadyIff` | apps/law/backend/src/domain/firmmember/firmmember-resource.ts:97-122 | over all such runs one always remains exactly when one is now acting whom no update in flight lowers |
| `FirmIndex.AloneLeavesOne` | apps/law/backend/src/domain/firmmember/firmmember-resource.ts:97-122 | the guard's own read is enough for a demotion that overlaps no other update lowering a member |
| `FirmIndex.CrossedDemotionsIff` | apps/law/backend/src/domain/firmmember/firmmember-resource.ts:97-122 | two demotions that both pass the guard before either is saved leave an active managing partner exactly when there was a third |
| `FirmIndex.FirmService.Handle` | apps/law/backend/src/domain/casemember/casemember-resource.ts:104-145 | one request answers as planned and leaves rows and engine as one step of the run |
| `FirmIndex.FirmService.ApplyTupleDeltaSafely` | apps/law/backend/src/domain/authz/tuples.ts:230-245 | an engine failure is contained: exactly the accepted part of the delta is applied |
| `FirmIndex.FirmService.ReconcileAuthzOnce` | apps/law/backend/src/domain/authz/reconcile-loop.ts:19-31 | one reconcile over the complete listings restores the projection from whatever the engine holds, and one over an engine in sync reports nothing and changes nothing |
| `AuthzModel.LawyersAre` | apps/law/backend/src/domain/authz/model.ts:40-42 | the lawyers group is the partners and the holders of the associate and junior tuples |
| `AuthzModel.CaseContentVerb` | apps/law/backend/src/domain/authz/model.ts:66-73 | working on content, or entering deadlines, is membership of the case with a case-worker, or lawyer, role of its firm, or being a partner of its firm |
| `AuthzModel.CaseManagementVerb` | apps/law/backend/src/domain/authz/model.ts:74-76 | managing a case is being its lead or a partner of its firm |
| `AuthzModel.CheckMonotone` | apps/law/backend/src/domain/authz/model.ts:26-76 | no rule takes a permission away when tuples are added |
| `Policy.InSyncAgrees` | apps/law/backend/src/domain/authz/policy.ts:142-184 | with the tuples in sync every relation the policy asks about answers what the rows say |
| `Policy.ListedCasesAreWorkable` | apps/law/backend/src/domain/authz/policy.ts:695-703 | the ids of the objects the engine lists are exactly the cases the rows let the member work |
| `Policy.VisibleCasesAreWorkable` | apps/law/backend/src/domain/authz/policy.ts:695-708 | partners are unrestricted; anyone else sees exactly the cases whose content they may work on, and lawyers list every case |
| `Policy.AuthorizeInSync` | apps/law/backend/src/domain/authz/policy.ts:644-672 | the gate and the matrix together, tuples in sync: the caller's one row must be active and is the one the matrix is asked about, answered as the rows say |
| `Policy.StoredContentIff` | apps/law/backend/src/domain/authz/policy.ts:406-466 | end to end on the subject's fields: content is read and changed by those who may work the case its row names, a library paper by every case worker, and moved by those who may work the case it moves to as well, a mark's being its document's |
| `Policy.ReadingIff` | apps/law/backend/src/domain/authz/policy.ts:334-551 | a case is read on its own id, and its deadlines, pages and members on the case their rows name |
| `Policy.CommentIff` | apps/law/backend/src/domain/authz/policy.ts:468-488 | a comment is judged on the case of its task, read, changed or created |
| `Policy.CreatingContentIff` | apps/law/backend/src/domain/authz/policy.ts:406-432 | content is created by those who may work the case it names, a mark's its document's; with none named, by every case worker |
| `Policy.EnteringDeadlineIff` | apps/law/backend/src/domain/authz/policy.ts:516-528 | end to end, entering a deadline takes a lawyer's role and the right to work its case |
| `Policy.ChangingDeadlineIff` | apps/law/backend/src/domain/authz/policy.ts:530-540 | end to end, changing or resolving a deadline is for an active partner or its active owner, of any role, on the case or off it, whatever the change |
| `Policy.ClerkResolvesIff` | apps/law/backend/src/domain/authz/policy.ts:516-540 | a clerk resolves a deadline exactly when they own it, although clerks are said never to |
| `Policy.UncheckedMoveIff` | apps/law/backend/src/domain/authz/policy.ts:251-262 | a deadline is moved to a case its mover may not work exactly when an active owner below partner level, not a case worker on that case, moves it |
| `Policy.ManagingIff` | apps/law/backend/src/domain/authz/policy.ts:334-404 | a case and its members are managed by its lead and by partners; partners and associates open cases |
| `Policy.ListingIff` | apps/law/backend/src/domain/authz/policy.ts:237-615 | lists and the library shelf are for case workers; what no cell allows is for nobody |
| `Policy.RegistersIff` | apps/law/backend/src/domain/authz/policy.ts:265-319 | accounts, members, clients, change history and notifications, by role, own account and recipient |
| `Policy.EveryCellIsStated` | apps/law/backend/src/domain/authz/policy.ts:237-615 | every kind and operation falls under one of these statements |
| `Policy.ClerksNeverEnterDeadlines` | apps/law/backend/src/domain/authz/policy.ts:516-528 | a clerk is never allowed to enter a deadline, on any case |
| `Policy.MoneyIff` | apps/law/backend/src/domain/authz/policy.ts:553-580 | fees are for partner-level members only; the ledger also takes receipts that office staff record |
| `Policy.OfficeStaffReach` | apps/law/backend/src/domain/authz/policy.ts:237-615 | everything office staff are ever allowed: the member list, themselves, their notifications, recording receipts, a deadline they own, and the case they lead, if it is the one acted on |
| `Policy.DeactivationRefusesEverything` | apps/law/backend/src/domain/authz/policy.ts:142-152 | a caller whose member row is not active is refused every operation, whatever the tuples say |
| `Policy.RemovalEndsWork` | apps/law/backend/src/domain/casemember/casemember-resource.ts:114-145 | removing a non-partner from a case ends their right to its content |
| `Policy.RefusedWritesOnlyWithhold` | apps/law/backend/src/domain/authz/tuples.ts:25-27 | over every run in which no delete is refused, failed syncs only grant too little: whatever the engine then allows, to anyone on anything, the projection of the rows allows |
| `Policy.RemovalStillOpensIff` | apps/law/backend/src/domain/authz/tuples.ts:25-27 | after a removal the policy still opens the case exactly to an active partner, or to an active case worker whose tuple's delete was refused, whom no row lets in any more |
| `Matters.RecomputeNextHearing` | apps/law/backend/src/domain/case/case-resource.ts:78-104 | the earliest date, not before today, of the case's hearings without an outcome, or none |
| `Matters.PublishIsDispatch` | packages/resource-api/src/publisher.ts:51-69 | the cascade runs exactly the handlers the dispatcher runs for the event's kind, in its order |
| `Matters.OperationSettles` | apps/law/backend/src/domain/case/lead-membership-handler.ts:33-66 | after every operation with its nested event cascade, each case's lead is an active member and each stored date is the earliest upcoming one |
| `Matters.RunSettles` | apps/law/backend/src/domain/case/next-hearing-refresh-handler.ts:21-34 | the same after every operation of every sequential run in which hearings keep their case and the day does not change |
| `Matters.LeadHoldsExactlyOne` | apps/law/backend/src/domain/case/lead-membership-handler.ts:1-15 | in a settled state the lead holds exactly one membership in force |
| `Matters.LeadHeldIffOpen` | apps/law/backend/src/domain/case/lead-membership-handler.ts:39-47 | with colon-free case ids the handler's lookup by composed key finds a period exactly when the lead holds one |
| `Matters.RemovalKeepsLeads` | apps/law/backend/src/domain/casemember/casemember-resource.ts:114-132 | no accepted removal takes a lead's membership away |
| `Matters.CaseEventSettles` | apps/law/backend/src/domain/case/lead-membership-handler.ts:33-66 | handling a case event makes the lead a member and disturbs no other case |
| `Matters.HearingEventSettles` | apps/law/backend/src/domain/case/next-hearing-refresh-handler.ts:26-34 | handling a hearing event makes the case's stored date current and disturbs no other case |
| `Matters.RecordingSettles` | apps/law/backend/src/domain/hearing/hearing-resource.ts:108-165 | recording an outcome and scheduling the next hearing, two separate writes, ends settled |
| `Matters.RecordedIs` | apps/law/backend/src/domain/hearing/hearing-resource.ts:108-165 | recording leaves the hearing with its outcome and, with a next date, one new open hearing of the same case; refused, nothing |
| `Matters.ScheduledIs` | apps/law/backend/src/domain/hearing/hearing-resource.ts:98-103 | scheduling leaves exactly one new open hearing; refused, nothing |
| `Matters.RescheduledIs` | apps/law/backend/src/domain/hearing/hearing-resource.ts:66-107 | rescheduling leaves exactly the open hearing on its new date and case; a recorded one is frozen |
| `Matters.HearingWriteOnCases` | apps/law/backend/src/domain/case/next-hearing-refresh-handler.ts:26-34 | a hearing write changes no case but in the date of its own |
| `Matters.CaseStoredIs` | apps/law/backend/src/domain/case/case-resource.ts:78-104 | an accepted case request stores its row with the recomputed date |
| `Matters.OperationKeepsSync` | apps/law/backend/src/domain/case/case-resource.ts:143-152 | the writes the cascade makes sync too: the engine stays the projection of the rows |
| `Matters.MovedHearingLeavesDateIff` | apps/law/backend/src/domain/case/next-hearing-refresh-handler.ts:26-34 | rescheduling a hearing into another case, cascade included, leaves the case it came from with a current date exactly when that date is another day's or another open hearing of it falls on the same day |
| `Matters.MoveRefreshesOneCase` | apps/law/backend/src/domain/case/next-hearing-refresh-handler.ts:26-34 | the refresh after a hearing write touches no case row but the hearing's own |
| `Matters.DayTurnIff` | apps/law/backend/src/domain/case/case-resource.ts:92-96 | when the day changes a stored date stays current exactly when it has not passed |
| `Publisher.InProcessEventDispatcher.Publish` | packages/resource-api/src/publisher.ts:51-69 | the kind's subscribers run in order, then those to every kind, each once per subscription whatever fails |
| `Publisher.ReportedExactly` | packages/resource-api/src/publisher.ts:56-67 | a handler's failure is reported as often as it ran and failed |
| `Publisher.SubscriptionsAppend` | packages/resource-api/src/publisher.ts:45-49 | later subscriptions never reorder or drop earlier ones |
| `RefreshTokens.AcceptedIff` | packages/identity/src/postgres/stores.ts:47-98 | over every interleaving with fresh hashes, a token is accepted exactly when it is presented in time and was not presented before, purged, revoked or lost to a reuse of its user |
| `RefreshTokens.ReplayIsCaught` | packages/identity/src/postgres/stores.ts:71-76 | presenting an accepted token again answers "reused", even past its expiry, exactly as long as its consumed row is kept, and otherwise "invalid" |
| `RefreshTokens.RevocationIsFinal` | packages/identity/src/postgres/stores.ts:100-102 | after a revocation or a detected reuse every token the user held is answered "invalid" for ever |
| `RefreshTokens.OthersSurviveRevocation` | packages/identity/src/postgres/stores.ts:75-76 | a revocation or reuse takes away the rows of that user and no other |
| `RefreshTokens.RefreshTokenStore.Insert` | packages/identity/src/postgres/stores.ts:35-45 | expired rows go and the new row comes, as two steps of the run |
| `RefreshTokens.RefreshTokenStore.Consume` | packages/identity/src/postgres/stores.ts:47-98 | one transaction answers and leaves the rows as one step of the run |
| `ActivationCodes.RedeemIff` | packages/identity/src/postgres/stores.ts:106-136 | a code redeems for its own user exactly when presented in time, not before, and not replaced by a newer code |
| `ActivationCodes.ActivationCodeStore.Issue` | packages/identity/src/postgres/stores.ts:108-120 | issuing replaces the user's code unless another user holds the same hash |
| `ActivationCodes.ActivationCodeStore.Consume` | packages/identity/src/postgres/stores.ts:122-134 | the presented code is deleted and answers its user exactly when it has not expired |
| `AuthService.ResetIsFinalIff` | packages/identity/src/auth-service.ts:221-228 | from the revocation of a reset on, no run lets in a token an earlier password earned exactly when no sign-in or refresh let in by one has its token outstanding at that moment |
| `AuthService.RefreshOutlivesReset` | packages/identity/src/auth-service.ts:137-157 | a refresh let in before the reset stores a live token after it |
| `AuthService.RunConserves` | packages/identity/src/auth-service.ts:80-162 | however requests interleave, live tokens and tokens about to be stored never outnumber those there were and the passwords checked since |
| `AuthService.OnlyChecksAdd` | packages/identity/src/auth-service.ts:131-162 | a run in which no password is checked adds no session |
| `AuthService.AdmitsOne` | packages/identity/src/auth-service.ts:96-129 | the sign-in rules leave one answer and one limiter, and let in exactly the right credentials within the budget |
| `AuthService.Service.Login` | packages/identity/src/auth-service.ts:96-129 | who is refused and why, what each outcome costs the limiter, and that a session is issued, as its steps of the run, exactly when the credentials are right |
| `AuthService.Service.Refresh` | packages/identity/src/auth-service.ts:131-162 | every answer, a user since deleted included, with the steps of the run it leaves |
| `AuthService.Service.Logout` | packages/identity/src/auth-service.ts:164-174 | the presented token is consumed, not deleted, and nothing else changes |
| `AuthService.Service.RedeemActivationCode` | packages/identity/src/auth-service.ts:196-229 | who is refused and why, what each refusal costs the limiter, and what a redeemed code replaces and revokes |
| `TabSessions.RefreshesAndSignInsRaiseNoAlarm` | apps/law/web/src/session/session.ts:137-163 | any tabs, any interleaving of refreshes and sign-ins, any broadcast delay, every request either lost on the way or answered and heard: no token the browser presents is answered "reused", and whenever the lock is free the cookie is absent or unconsumed |
| `TabSessions.RunRaisesNoAlarm` | apps/law/web/src/session/session.ts:137-211 | and so with sign-outs, abandoned requests and lost answers, as long as the server accepts no token that is still to be presented again and no unheard answer was to replace a cookie that still stands |
| `TabSessions.StepKeepsInv` | packages/identity/src/auth-service.ts:131-174 | every single request, statement, answer or loss allowed by the stated conditions keeps that invariant |
| `TabSessions.CarefulIffKept` | apps/law/web/src/session/session.ts:137-211 | the conditions are exact: asking, signing out, being handled and being lost keep the invariant exactly when they are careful |
| `TabSessions.StartAlarmsIff` | apps/law/web/src/session/session.ts:201-211 | a refresh or sign-out that starts sets off the alarm exactly when the cookie is stored and an outstanding exchange has acted on it |
| `TabSessions.OverlapAlarmsIff` | apps/law/web/src/session/session.ts:201-211 | an outstanding refresh and an outstanding sign-out or abandoned request set off the alarm exactly when they present the same token and the server accepts the first of them, whichever that is |
| `TabSessions.AbandonedRefreshAlarmsIff` | apps/law/web/src/session/session.ts:139-163 | a refresh whose tab gave up, and the next one, set off the alarm exactly when the cookie is still the one the first presented and the server accepts whichever it handles first |
| `TabSessions.HandledBehindAlarmsIff` | apps/law/web/src/session/session.ts:139-163 | an abandoned request handled behind the browser's back makes the next refresh alarm exactly when it was accepted and the cookie is still its own |
| `TabSessions.OverlappingCallsAlarmIff` | apps/law/web/src/session/session.ts:201-211 | and so do two outstanding sign-outs or abandoned requests |
| `TabSessions.LostAnswerIff` | apps/law/web/src/session/session.ts:147-160 | losing an answer the server acted on is harmless, to the invariant and to the next refresh, exactly when the cookie has been replaced or its row is gone |
| `TabSessions.LostSignOutIff` | apps/law/web/src/session/session.ts:201-211 | and so is losing the answer to a sign-out |
| `TabSessions.LostAnswerAlarms` | packages/identity/src/auth-service.ts:137-148 | otherwise the next refresh raises the alarm and ends every session of the user |
| `TabSessions.WholeSignIn` | apps/law/web/src/session/session.ts:190-199 | a whole sign-in ends with the new cookie, the tab signed in and the siblings told |
| `TabSessions.WholeSignOut` | apps/law/web/src/session/session.ts:197-211 | a whole sign-out ends with the token spent, the cookie gone, the tab signed out and the siblings told |
| `TabSessions.RefusedRefresh` | apps/law/web/src/session/session.ts:137-163 | a refused refresh clears the cookie and tells its tab and the siblings the server's reason, none without a cookie |
| `TabSessions.DeliveredTabsAgreeIff` | apps/law/web/src/session/session.ts:122-135 | from any state, once the mail after an outcome is delivered the tabs agree exactly when its sender had heard everything, or last had to hear the same token |
| `TabSessions.CrossingOutcomesSwap` | apps/law/web/src/session/session.ts:122-135 | two tabs that refresh one after the other, the second not having heard of the first, end up holding each other's token |
| `SessionKit.Kit.GetAccessToken` | apps/law/web/src/session/session.ts:137-163 | the tab asks the server exactly when neither its own token nor the last one heard while queueing is usable, and tells its siblings every outcome of asking |
| `SessionKit.Kit.OnBroadcast` | apps/law/web/src/session/session.ts:122-135 | a sibling's message is applied and never passed on |
| `SessionKit.LastMessageDecides` | apps/law/web/src/session/session.ts:122-135 | of any messages heard, the last alone decides the token held |
| `SessionKit.FreshIff` | apps/law/web/src/session/session.ts:98-100 | a token is fresh exactly when it stays good for the next half minute |
| `TabCoordination.MemoryCoordinationHub.Broadcast` | apps/law/web/src/session/tab-coordination.ts:86-91 | a message reaches every tab but its sender, behind what that tab was told before |
| `TabCoordination.MemoryCoordinationHub.Release` | apps/law/web/src/session/tab-coordination.ts:81-85 | the section that ends is the one open, and only then the next in request order begins |
| `TabCoordination.SectionsDoNotOverlap` | apps/law/web/src/session/tab-coordination.ts:81-85 | between the beginnings of two lock sections the first has ended |
| `Store.MemoryStore.Insert` | packages/resource-api/src/store/memory-store.ts:54-61 | a row is added unless its id or its natural key is held, and nothing changes otherwise |
| `Store.MemoryStore.Save` | packages/resource-api/src/store/memory-store.ts:63-67 | a row is added or replaced in place unless another row holds its natural key |
| `Store.MemoryStore.GetByNaturalKey` | packages/resource-api/src/store/memory-store.ts:106-115 | the row found under a key is the only one there |
| `Store.WritesKeepValid` | packages/resource-api/src/store/memory-store.ts:54-98 | both writes keep ids and natural keys unique |
| `CreateChain.RunKeepsInv` | packages/resource-api/src/resource.ts:532-635 | any interleaving of concurrent creates keeps at most one row per natural key and every answer true to the table |
| `CreateChain.SuccessesAgree` | packages/resource-api/src/resource.ts:407-456 | two successes on one key answer the same row with the content both asked for, and happen only in an idempotent kind |
| `CreateChain.VerdictIff` | packages/resource-api/src/resource.ts:407-456 | the verdict of every finished, unaborted create is decided by the row that ends up holding its key: its own, created; another's, ALREADY_EXISTS in a refuse kind and in an idempotent one the holder or, for other content, its refusal; it never fails |
| `CreateChain.KeylessIsCreated` | packages/resource-api/src/resource.ts:560-612 | a create without a key meets nobody |
| `CreateChain.FailedOnlyByItsId` | packages/resource-api/src/resource.ts:425-434 | nothing but a minted id that was stored already fails a create |
| `CreateChain.AloneIff` | packages/resource-api/src/resource.ts:532-635 | what one create on its own answers, and leaves, by what the table holds |
| `CreateChain.RefusalIsHonest` | packages/resource-api/src/resource.ts:435-456 | the plain ALREADY_EXISTS is only given in a refuse kind, and only when a row holds the key |
| `CreateChain.AnnouncedIsInserted` | packages/resource-api/src/resource.ts:612-635 | once every create is done and none failed after its write, the announcements are the inserted rows, each once |
| `CreateChain.AloneIsARun` | packages/resource-api/src/resource.ts:532-635 | a create nothing interferes with is one of the interleavings |
| `CreateChain.Create` | packages/resource-api/src/resource.ts:532-635 | the executor's code path answers and leaves the store as that create does |
| `Pipeline.AcceptedIffMissingIsNotFound` | packages/resource-api/src/pipeline.ts:68-82 | a chain is accepted exactly when a caller without permission asking for a missing resource hears NOT_FOUND |
| `Pipeline.Execute` | packages/resource-api/src/pipeline.ts:36-58 | steps run in order up to the first failure, whose code is heard, an untyped one as INTERNAL |
| `Filters.NormalizeFilterValue` | packages/resource-api/src/store/store.ts:90-127 | a filter value is accepted exactly when it has one condition shape, and then keeps its meaning |
| `Filters.FilterConditions` | packages/resource-api/src/postgres/store.ts:334-371 | after any parameters already bound, every placeholder resolves to its own value and the conditions together, in three-valued logic, keep exactly the rows the filter matches |
| `Filters.RenderRange` | packages/resource-api/src/postgres/store.ts:356-363 | a range renders one comparison per bound, each on its own placeholder |
| `Filters.List` | packages/resource-api/src/postgres/store.ts:157-192 | the page and its count keep the same rows, and limit and offset sit on placeholders of their own |
| `Filters.Grouped` | packages/resource-api/src/postgres/store.ts:223-235 | counting and summing keep exactly the filtered rows of the wanted groups |
| `Filters.SearchText` | packages/resource-api/src/postgres/store.ts:282-325 | the search keeps exactly the filtered rows whose folded text contains the folded query, and refuses an empty query |
| `Filters.ConditionAgreesIff` | packages/resource-api/src/store/memory-store.ts:370-395 | a condition means the same to both stores exactly when the stored text is not empty or the condition cannot tell empty from absent |
| `Filters.CompareIff` | packages/resource-api/src/store/memory-store.ts:370-395 | the four comparators, each with its opposite, strict ones leaving equal texts out |
| `Filters.AdaptersAgree` | packages/resource-api/src/store/memory-store.ts:370-395 | on rows without empty texts the in-memory store and the SQL conditions keep the same rows for every filter |
| `Like.SearchIsSubstring` | packages/resource-api/src/postgres/store.ts:293-312 | the escaped pattern matches exactly the texts that contain the query, its wildcards taken literally |
| `Like.SearchesAgree` | packages/resource-api/src/postgres/store.ts:297-312 | with case folded character by character both adapters' searches find the same texts |
| `Like.SearchPatternWellFormed` | packages/resource-api/src/postgres/store.ts:297-298 | no query makes the pattern malformed |
| `Like.UnescapedWouldDiffer` | packages/resource-api/src/postgres/store.ts:293-297 | without the escaping a query's wildcard would match texts that do not contain it |
| `Listing.ComparatorIsTotalOrder` | packages/resource-api/src/store/memory-store.ts:151-168 | the list comparator is a total order that is zero only between rows of one id |
| `Listing.ComparedByField` | packages/resource-api/src/store/memory-store.ts:147-177 | set values compare by direction, unset ones last or first whatever the direction, and ties by id |
| `TextOrder.TextLeIff` | packages/resource-api/src/store/memory-store.ts:153-167 | texts compare as in a dictionary of code units |
| `Listing.IsIntegerIff` | packages/resource-api/src/store/memory-store.ts:225-235 | an integer is one or more digits, with or without a minus |
| `Listing.IntegerOfPrinted` | packages/resource-api/src/store/memory-store.ts:225-236 | a printed integer of either sign is read as itself |
| `Listing.SortedUnique` | packages/resource-api/src/store/memory-store.ts:139-168 | with distinct ids there is exactly one sorted arrangement |
| `Listing.SortIgnoresInsertionOrder` | packages/resource-api/src/store/memory-store.ts:139-150 | the listing does not depend on the order rows were inserted in |
| `Listing.List` | packages/resource-api/src/store/memory-store.ts:128-175 | the page is the slice of the filtered, sorted rows, and the total ignores the paging |
| `Listing.PagesConcatenate` | packages/resource-api/src/store/memory-store.ts:170-173 | fixed-size pages concatenate to the whole sequence |
| `Listing.ListAll` | apps/law/backend/src/domain/authz/tuples.ts:86-100 | reading page by page ends and returns every row of the table exactly once, in order |
| `Listing.CountBy` | packages/resource-api/src/store/memory-store.ts:190-207 | each wanted value's count is the total of the list filtered to it, and values without rows have no entry |
| `Listing.SumBy` | packages/resource-api/src/store/memory-store.ts:209-238 | each group's entry is the sum over its rows that carry a value, absent when none does, and a value that is no integer is an error |
| `Listing.SumsAreListTotals` | packages/resource-api/src/store/memory-store.ts:209-238 | those sums are the totals over the lists filtered to each group |
| `Setup.RunConverges` | apps/ledger-demo/setup/converge.ts:117-239 | an applied run reaches the wanted world from any remote its secrets file does not contradict, each vault holding the returned key |
| `Setup.ConvergedIff` | apps/ledger-demo/setup/converge.ts:88-239 | the world that is reached, field by field: Acme's settings, the Agent's description, instructions, sharing, tools, needs and servers, and every customer's vault, minter and settings |
| `Setup.EmbeddingIff` | apps/ledger-demo/setup/converge.ts:88-96 | settings are the same exactly when flag, role and, in any order, origins and vaults are |
| `Setup.RerunIsQuiet` | apps/ledger-demo/setup/converge.ts:20-23 | running again with the returned secrets writes nothing and returns the same keys |
| `Setup.CutOffRunConverges` | apps/ledger-demo/setup/main.ts:48-57 | a run cut off after any prefix of its writes, its secrets lost, still converges on a rerun with the old secrets file |
| `Setup.VaultHoldsReturnedKeyIff` | apps/ledger-demo/setup/converge.ts:204-210 | a vault ends with the returned ledger key exactly when the secrets file did not contradict the vault |
| `Setup.DryRunZeroIff` | apps/ledger-demo/setup/converge.ts:20-23 | a dry run reports zero changes exactly when applying would write nothing |
| `Setup.CustomerWritesEffect` | apps/ledger-demo/setup/converge.ts:178-239 | a customer's writes make exactly its organization, vault, key, minter and settings, and touch nothing else |
| `Setup.ConvergeCustomer` | apps/ledger-demo/setup/converge.ts:178-239 | the code path makes those writes in order and counts each once, and a dry run none |
| `Setup.Converge` | apps/ledger-demo/setup/converge.ts:117-176 | a refused run changes nothing, a dry run writes nothing, an applied run makes exactly the planned writes and counts each once |
| `TextSets.CanonicalIff` | apps/ledger-demo/setup/converge.ts:88-96 | the sorted, joined comparison ignores order and nothing else on non-empty texts without newlines |
| `TextSets.CanonicalConfuses` | apps/ledger-demo/setup/converge.ts:88-96 | it cannot tell an empty list from one with an empty text |
| `CodePoints.DecodeEncode` | apps/law/backend/src/ocr/document-ai.ts:312-316 | a decoded code point encodes back to exactly the units it was read from, unpaired surrogates included |
| `CodePoints.PairIff` | apps/law/backend/src/ocr/document-ai.ts:302-330 | two units are one code point exactly for a high surrogate with a low one after it, and its value |
| `CodePoints.CutIsWhole` | apps/law/backend/src/ocr/document-ai.ts:302-320 | cutting a text into code points loses no unit |
| `CodePoints.BuildCodePointIndex` | apps/law/backend/src/ocr/document-ai.ts:302-320 | one entry per code point where it begins, and the text's length at the end |
| `CodePoints.OffsetsIncrease` | apps/law/backend/src/ocr/document-ai.ts:302-320 | the index strictly increases and stays in the text |
| `CodePoints.SliceIsBetween` | apps/law/backend/src/ocr/document-ai.ts:339-369 | slicing between two index entries gives exactly the units of the code points between them |
| `CodePoints.SlicesJoin` | apps/law/backend/src/ocr/document-ai.ts:339-369 | adjacent slices join without loss or overlap |
| `CodePoints.SliceAnchoredText` | apps/law/backend/src/ocr/document-ai.ts:339-369 | the segments' code points in order after clamping; any offset that is no safe integer is refused |
| `CodePoints.AnchoredIs` | apps/law/backend/src/ocr/document-ai.ts:335-369 | an absent offset is zero, one outside the text is kept within it, and a segment ending before it starts is empty |
| `ModelNormal.NormalizesEqualIff` | packages/authorization/src/bootstrap.ts:58-96 | two models normalise equal exactly when they differ only in padding fields and key order, at any depth |
| `ModelNormal.InsignificantIffPadding` | packages/authorization/src/bootstrap.ts:74-79 | a value collapses exactly when it says nothing at any depth |
| `ModelNormal.NormalizeIdempotent` | packages/authorization/src/bootstrap.ts:81-96 | normalising twice is normalising once |
| `ModelNormal.ReorderingIsIgnored` | packages/authorization/src/bootstrap.ts:87-93 | the order of an object's keys makes no difference |
| `ModelNormal.AddedFieldIsIgnoredIff` | packages/authorization/src/bootstrap.ts:87-93 | a field added anywhere in an object is ignored exactly when it is padding |
| `ModelNormal.ChangeInsideIsIgnored` | packages/authorization/src/bootstrap.ts:81-96 | what is ignored in one element or field is ignored in the whole |
| `ModelNormal.ItemsStay` | packages/authorization/src/bootstrap.ts:82-84 | arrays keep their length and every element its position |
| `RateLimit.BudgetHolds` | packages/identity/src/rate-limit.ts:65-106 | with at most p attempts between check and settlement, no half-open interval of a window's length holds as many failures as twice the budget and the p - 1 that can overrun it, for all emails together and for one since it last signed in |
| `RateLimit.BudgetIsTight` | packages/identity/src/auth-service.ts:102-118 | for every p a run reaches that bound, for all emails together and for one alone when its budget is no larger than everyone's, so two attempts in flight already exceed the bound for one at a time |
| `RateLimit.SweepChangesNoDecision` | packages/identity/src/rate-limit.ts:65-78 | over every run with a non-decreasing clock the limiter answers exactly as one that never sweeps |
| `RateLimit.RetryAfterExpires` | packages/identity/src/rate-limit.ts:80-81 | waiting as long as the refusal says expires the window that refused, and a second less does not |
| `RateLimit.DeniedIff` | packages/identity/src/rate-limit.ts:80-94 | an attempt is refused exactly when its email or everyone has used up a running window, and the wait named is that window's |
| `RateLimit.MemoryRateLimiter.Sweep` | packages/identity/src/rate-limit.ts:70-75 | exactly the expired entries are deleted |
| `RateLimit.MemoryRateLimiter.Check` | packages/identity/src/rate-limit.ts:84-94 | the decision and the windows it leaves, sweep included |
| `RateLimit.MemoryRateLimiter.RecordFailure` | packages/identity/src/rate-limit.ts:95-102 | both windows count the failure, and the first of a window starts it |
| `RateLimit.Sessions.CheckPasscode` | apps/ledger-demo/server/session.ts:30-38 | limited exactly when ten wrong tries fall in the last minute, and no eleven wrong tries ever span less than a minute |
| `RateLimit.NoMinuteHoldsEleven` | apps/ledger-demo/server/session.ts:12-13 | no minute, however it is placed, holds more than ten wrong tries |
| `FindInPage.CompileKeepsCharacters` | apps/law/web/src/pdf/find.ts:39-44 | the compiled words are the query's characters without its whitespace |
| `FindInPage.NothingToFindIff` | apps/law/web/src/pdf/find.ts:40-41 | there is nothing to search for exactly when the query is all whitespace |
| `FindInPage.WordAtIff` | apps/law/web/src/pdf/find.ts:30-64 | a word stands where the text reads as it does up to case, the end of the text included |
| `FindInPage.OccursIffMatches` | apps/law/web/src/pdf/find.ts:39-45 | the expression matches at a position exactly when the words stand there with only whitespace between, and ends where they do |
| `FindInPage.FindMatchesOnPage` | apps/law/web/src/pdf/find.ts:47-64 | the reported matches are occurrences in order without overlap, and no occurrence begins outside all of them |
| `FindInPage.ExactlyOne` | apps/law/web/src/pdf/find.ts:47-64 | only one list of matches is like that |
| `Highlight.ResolveMatch` | apps/law/web/src/pdf/highlight.ts:72-94 | the walk finds a range whose ends are exactly the offsets and whose text is the page text between them, and none exactly when they fall outside the text |
| `Highlight.AlignedRangeForMatch` | apps/law/web/src/pdf/highlight.ts:112-129 | the painted range always contains the match: exact when every run it touches is faithful, otherwise exactly those runs whole |
| `Highlight.ReportedMatchResolves` | apps/law/web/src/pdf/highlight.ts:99-104 | a reported match always lies in the rendered text |
| `Paise.RoundTripIffNotNegative` | apps/law/web/src/lib/format.ts:52-73 | reading a printed amount gives it back exactly when it is not negative; a negative one is refused |
| `Paise.GroupPlaces` | apps/law/web/src/lib/format.ts:46-57 | commas stand at the Indian places and nowhere else |
| `Paise.CommasAreIgnored` | apps/law/web/src/lib/format.ts:65-66 | texts that differ in commas only, however many and wherever they stand, read the same |
| `Paise.AmountIff` | apps/law/web/src/lib/format.ts:64-72 | a cleaned text is read exactly when it is digits, or digits, a point and one or two more |
| `Paise.AmountIs` | apps/law/web/src/lib/format.ts:64-72 | and is worth its rupees a hundred times and its fraction, one digit counting as tens |
| `Paise.PrintedDiffer` | apps/law/web/src/lib/format.ts:52-57 | two amounts, negative ones included, never print the same |

## Left out

- The OpenFGA and PostgreSQL servers: an engine is the set of its tuples with a set of tuples it refuses, a table is its rows; transactions and single statements are atomic steps. The ListObjects cap is not modelled.
- HTTP, Connect, MCP and S3 transports, cookies' attributes, React components and pdf.js: plumbing and user interface.
- Cryptography: a token stands for its hash, new tokens are unused identifiers, and passwords are compared by value.
- Protobuf validation, cloning and reflection: a request is taken as validated where its pipeline has validated it; required fields are the checks the plans make first.
- The court-number check and the references to User and Client rows (`case-resource.ts`, `firmmember-resource.ts`): easy members beside the natural keys that are modelled.
- Case lifecycle, document counts and open-deadline counts: stored or derived without a rule that spans operations.
- Notifications, reminders, tasks and comments, except where the policy's matrix decides over them.
- Updates and deletes during concurrent creates, and the update chain beyond its checks in `FirmIndex`.
- Collation: both stores are taken to order text by code units. `sumBy` totals are unbounded integers, without the safe-integer range of the original's numbers.
- `sumBy` and `countBy` with an empty list of values return early in the Postgres store; the rendered statement is the same and keeps no row.
- `JSON.stringify` at the end of model comparison, which also equates an undefined array element with null; the comparison here is of the normalised values.
- The order in which JavaScript enumerates integer-like object keys.
- `findOrCreateStore` and the boot sequence around model comparison: paging like the loop in `Engine.Engine.ReadAll`.
- `changePassword` and `whoAmI`: the first is a sign-in's password check followed by the replacement and revocation `AuthService.Service.RedeemActivationCode` makes; the second only reads.
- AuthService.Service.Login: the email arrives trimmed and lowercased, and the minutes in the refusal's text are not modelled.
- AuthService.Service.Refresh: one call without interference; its steps interleave with everyone else's in the runs of `AuthService` and of `TabSessions`.
- The browser's fallback without the Web Locks API, where refreshes serialise within one tab only; no cross-tab claim holds there.
- The hydration of a tab's user after a broadcast is a step of its own; what it does to the state after a later sign-out is not stated.
- Reconcile.ReconcileTuples: takes tuples whose identities do not clash; `FirmIndex.RunNeverClashes` shows every run with bar-free user ids or bar-free case ids keeps it so.
- FirmIndex.FirmService.ReconcileAuthzOnce: takes the complete listings as parameters; `Listing.ListAll` is the loop that produces them.
- FirmIndex.RunKeepsSync: a request's row write and its sync are one step; `FirmIndex.InterleavedSyncsIff` says what two of them keep when their syncs interleave, and no more than two are interleaved.
- FirmIndex.RunStaysAdministered: sequential requests; `FirmIndex.SteadyIff` and `FirmIndex.CrossedDemotionsIff` say what overlapping ones keep.
- CreateChain.RunKeepsInv: the store reports the natural key that is taken. The Postgres store reports one field of a composite key (`packages/resource-api/src/postgres/store.ts:127`); the one idempotent kind, AuditEntry, has a key of one field, and in the others only the message differs.
- TabCoordination.SectionsDoNotOverlap: `TabSessions` takes from the lock that one exchange holds it at a time, without its queue.
- Matters.RunSettles: sequential operations with every event delivered; the day and each hearing's case are fixed, as the exact-condition lemmas beside it explain.
- Setup.RunConverges: the child organization found by the customer's id is taken to carry the customer's slug, under which its vault is looked up; settings compared by `sameAgent` are a multiset of tools and servers, without the order among servers of one name.
- Setup.Converge: the wanted Agent is an input; `agentSpec`, which builds it from the ledger address, is text only. Line output is reduced to its count of changes.
- RateLimit.MemoryRateLimiter.Check: one clock reading per call, where the original may read it several times within a call.
- FindInPage.FindMatchesOnPage: case is folded character by character and offsets count characters, so surrogate pairs under the `u` flag and foldings of several characters are not modelled. The branch for an empty match cannot be reached, since every word is non-empty, and is left out.
- Highlight.ResolveMatch: the text nodes are their strings in order; ranges whose end precedes their start are not modelled, as no reported match has one.
- Filters.FilterConditions: takes normalised conditions, whose ranges have at least one bound as `Filters.NormalizeFilterValue` ensures; column names and their validation are text only.
- Listing.List: sorting is by insertion; `Listing.SortedUnique` shows any sort gives the same rows. Offsets and limits are not negative.
- CodePoints.SliceAnchoredText: an offset arrives parsed, as a safe integer or not; the parsing of its text is not modelled.
