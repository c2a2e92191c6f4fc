# GodForge in Dafny

GodForge runs SMITE game nights on Discord. This project models the parts of it
that keep state or choose teams, and proves what they keep over every run.

The project has six parts.

1. **Team formation** (`TeamFormation*`). Two teams are chosen with roles of their
   own, from half of the splits; the main theorem is that no split of the roster with
   any roles beats the result. Captain mode is a snake draft.
2. **Queue and ready check** (`PartyQueue*`). Capacity, waitlist, role-aware
   promotion, a deadline with extensions, roster resets, and the table a queue is
   stored in.
3. **Post-match continuity** (`Match*` without the history). One decision a match,
   then a projection onto queue, rooms and next match with durable checkpoints. Crashes
   are allowed before every step; the main theorem is that they do not matter.
4. **Lobbies** (`PartyStore*`, `PartyRepository`, `PartyLifecycle`, `PartyLobby*`). The store with its
   lifecycle, audit log, operation IDs and two-stage expiry; and the handlers that
   keep the store's rosters and the queues in agreement.
5. **Fearless draft** (`Draft*`). Steps, claims, game advances and unlimited undo over
   shared game objects.
6. **Results, nights, scrims** (`MatchHistory*`, `PartySchedule*`, `ScheduledLobby*`,
   `Scrim*`, `PartyDraft*`). Two-captain confirmation, RSVP lines, reminders, weekly
   series, the challenge handshake, and the way from locked rosters to a draft.

Each store and service is there twice. A file of functions says what one transaction
or one handler does to the tables, as values; a class has the source's fields and
loops, and the `ensures` of its methods equate the new fields with those functions.
Theorems about runs are lemmas about the functions. A SQLite transaction is one method
of a class; an exception rolls the fields back. An asynchronous handler is a sequence
of such steps, and an exception in one leaves the steps before it done.

Errors are values of `Result`. IDs and fingerprints that the source derives by hashing
or by joining strings are datatype values, or come from a naming record passed in.
Times are integers on one clock; the schedule counts minutes.

## Model

| member | source | states |
|---|---|---|
| `TeamFormation.OptimizedSplitIsGloballyOptimal` | utils/team_formation.py:134-188 | On every even roster of 2 to 10 players, no equal split with any different roles on either team has a smaller (archetype penalty, fit, captain penalty, strength gap) than the returned match, although roles are chosen per team and only splits with the smallest ID on Blue are tried; what the key is worth is told without it in NoLineUpIsBetter |
| `TeamFormationTheorems.FormationIsGloballyOptimal` | utils/team_formation.py:111-131 | The same for the public entry point, from the unsorted input, in both optimising modes |
| `TeamFormationQuality.NoLineUpIsBetter` | utils/team_formation.py:111-188 | Seat by seat, without the keys: no two equal sides that seat every player once, with no role twice on a side, are nearer the tanks a side should have, or as near with more first choices, or then more second choices, or then a volunteer on each side where the result has not, or then a smaller gap in strength |
| `TeamFormationQuality.VolunteersAreKeptApart` | utils/team_formation.py:162-165 | When a side of the result has no volunteer, every legal line-up with a volunteer on each side is strictly worse in composition or fit |
| `TeamFormationQuality.ReportedGap` | utils/team_formation.py:182-188 | The reported difference is the gap in strength between the two sides as seated, with the mode asked for and no draft order unless drafted |
| `TeamFormationQuality.SidesAreLed` | utils/team_formation.py:241-276 | Each side of an optimised result names its volunteer with the least ID, or without one its least ID; the least ID of all is on Blue |
| `TeamFormationQuality.StrengthFollowsBands` | utils/team_formation.py:16-65 | A band higher is never outweighed by experience and equalled only by a hundred matches against none; within a band experience decides up to a hundred; an adjustment counts in full |
| `TeamFormation.SeparateRolesSuffice` | utils/team_formation.py:164-182 | Optimising each team's roles alone optimises the match of one split |
| `TeamFormation.MirrorSymmetry` | utils/team_formation.py:168-182 | Exchanging the two sides leaves the match key as it is |
| `TeamFormation.BestRolesLeast` | utils/team_formation.py:241-276 | The roles chosen for one team have the least key of all choices of different roles |
| `TeamFormationTies.TiesGoByName` | utils/team_formation.py:241-276 | Roles as good for the same team differ first, player by player, in a role whose name comes later in the alphabet |
| `TeamFormation.BestTeamIsBest` | utils/team_formation.py:241-276 | Within one team, penalty and fit are least |
| `TeamFormation.HalvesSplit` | utils/team_formation.py:139-160 | A half of the roster and its complement are both among the halves enumerated |
| `TeamFormation.StrongestVolunteers` | utils/team_formation.py:191-199 | The two captains are the strongest volunteers, the smaller ID first on a tie |
| `TeamFormationTheorems.CaptainDraftIsSnake` | utils/team_formation.py:191-238 | Captain mode: every player on exactly one of two equal teams, the two strongest volunteers on opposite sides, everyone else picked in B, R, R, B order, each pick one that no player left would better: most different preferred roles for the side, then the smallest gap in strength, then the least ID; with IDs that are not negative each side names its own captain, and in general exactly when the captain's ID is not 0 or no volunteer of the side has a smaller one |
| `TeamFormationTheorems.ChosenIsNamedWhen` | utils/team_formation.py:241-276 | A team names its chosen volunteer exactly when the ID is not 0 or no volunteer of the team has a smaller one |
| `TeamFormationTheorems.ChosenIsNamed` | utils/team_formation.py:241-276 | With IDs that are not negative, a team always names its chosen volunteer |
| `TeamFormationTheorems.ZeroIsPassedOver` | utils/team_formation.py:268 | Chosen with ID 0 beside a volunteer with ID -1: the other is named |
| `TeamFormationTheorems.FormationFailsWhen` | utils/team_formation.py:111-131 | Formation fails exactly on odd, empty or oversized rosters, repeated players, and in captain mode with fewer than two volunteers |
| `TeamFormationTheorems.InputOrderDoesNotMatter` | utils/team_formation.py:111-131 | Any permutation of the input gives the same result, or the same error, in every mode |
| `TeamFormationTheorems.ReportedCounts` | utils/team_formation.py:182-188 | First choices and fills are reported as counted, second choices with the opposite sign; with that sign turned, the three add up to the players |
| `TeamFormationTheorems.BestTeamSeats` | utils/team_formation.py:241-276 | A formed team seats exactly its members, with different roles, reporting each one's own preference and strength |
| `TeamFormationLoops.BestRoleAssignment` | utils/team_formation.py:241-276 | The loop over permutations computes the specified team |
| `TeamFormationLoops.TabulateTeams` | utils/team_formation.py:139-152 | The dictionary of best teams, filled half by half, holds the best team of every half |
| `TeamFormationLoops.OptimizeSplit` | utils/team_formation.py:134-188 | Filling the dictionary and comparing candidates computes the specified split |
| `TeamFormationLoops.RunSnake` | utils/team_formation.py:200-219 | The loop that appends to and removes from the three lists is the specified draft |
| `TeamFormationLoops.FormTeams` | utils/team_formation.py:111-131 | The whole entry point, loops included, equals its specification, errors included |
| `PartyQueueInvariant.EveryRunIsSound` | utils/party_queue.py:215-432 | After any run of operations: no user in two places, active within capacity, nobody waits while a seat is free, the waitlist in the order of joining, answers only from active players, and while checking deadline = start + timeout + used × extension with used within the maximum; roster resets are those that fill the seats |
| `PartyQueueInvariant.JoinRecords` | utils/party_queue.py:295-313 | A new player gets the next place in the order of joining, at the end of the active list or of the waitlist, with the roles given, each once, in order |
| `PartyQueueInvariant.EveryRunKeepsRoles` | utils/party_queue.py:295-313 | In every run every player in the queue holds each role once |
| `PartyQueueInvariant.ResetKeepsExactlyWhenItFills` | utils/party_queue.py:266-293 | reset_roster keeps that invariant exactly when the new roster fills the seats that can be filled |
| `PartyQueueInvariant.ResetCanStrandAPlayer` | utils/party_queue.py:266-293 | A concrete reset that leaves a seat free while a player waits |
| `PartyQueueInvariant.ResetSeats` | utils/party_queue.py:266-293 | An accepted roster becomes the active list in its order, the others wait in the order of joining, the check is cleared |
| `PartyQueueInvariant.ResetWithoutRoster` | utils/party_queue.py:266-293 | Without a roster a reset is always accepted, clears the check and moves nobody |
| `PartyQueueInvariant.PromotedIsBest` | utils/party_queue.py:415-432 | The promoted player brings at least as many roles that no active player has as anyone waiting, counted as a set, and on a tie joined first; the others keep their order |
| `PartyQueueInvariant.FillSeatsPromotes` | utils/party_queue.py:250-264 | Promotion goes on until the seats or the waiters run out, and reports exactly those it promoted, in order |
| `PartyQueueInvariant.LeaveKeeps` | utils/party_queue.py:315-325 | A departure removes exactly that player, and a freed seat goes to one who waited |
| `PartyQueueInvariant.DropKeeps` | utils/party_queue.py:341-376 | Dropping out ends the check for everybody, clears the answers and fills the seat |
| `PartyQueueInvariant.ExpireKeeps` | utils/party_queue.py:378-403 | A check that runs out cancels the queue, or without cancellation sends away exactly those not ready and fills their seats |
| `PartyQueueAnswers.RespondsWhen` | utils/party_queue.py:341-376 | A response is refused exactly outside a check, at or past its deadline, from one not seated, or for more time without an extension left; each with its own error |
| `PartyQueueAnswers.AnswerRecords` | utils/party_queue.py:341-376 | An accepted Ready or Need5 replaces that player's answer by the status given and no other; Need5 alone moves the deadline, by one extension out of the budget |
| `PartyQueueAnswers.StoredAnswersAreTheLast` | utils/party_queue.py:341-376 | Over any run, a stored answer is its player's last accepted response since the check began |
| `PartyQueueCommands.EveryCommandLeavesSo` | utils/party_queue.py:250-403 | Any command, accepted or refused, leaves capacity, status, deadline, extensions and each single answer as told: a check begins, is given up, is extended, or runs out; a departure takes its own answer only |
| `PartyQueueTable.SaveThenLoad` | utils/party_queue.py:130-208 | Loading what was saved, whatever order the rows come in, gives the queue back if and only if every answer is a member's |
| `PartyQueueTable.ReachableQueuesPersist` | utils/party_queue.py:130-208 | For every queue a run can reach, saving then loading is the identity |
| `PartyQueueReplay.DeparturesRestart` | utils/party_queue.py:315-325 | Departures cut short and started over end as those not interrupted |
| `PartyQueueReplay.ResetTwice` | utils/party_queue.py:266-293 | Repeating an accepted roster reset changes nothing more |
| `PartyQueueReplay.SettlingRestarts` | utils/match_continuity.py:363-375 | Departures and the reset, cut short anywhere and started over, end the same, accepted or refused |
| `PartyQueueServices.RemoveMember` | utils/party_queue.py:442-447 | The search-and-delete loop removes the first entry and says whether there was one |
| `PartyQueueServices.PartyQueueService.Create` | utils/party_queue.py:237-245 | A new empty queue, or the error, and the stored map after it |
| `PartyQueueServices.PartyQueueService.Resize` | utils/party_queue.py:250-264 | The resized queue with its promotions, or the error, and the stored map after it |
| `PartyQueueServices.PartyQueueService.PromoteWhileFree` | utils/party_queue.py:258-262 | The promotion loop is the specified filling of seats |
| `PartyQueueServices.PartyQueueService.ResetRoster` | utils/party_queue.py:266-293 | The reset queue or the error, and the stored map after it |
| `PartyQueueServices.PartyQueueService.Join` | utils/party_queue.py:295-313 | Where the player ends up, or the error, and the stored map after it |
| `PartyQueueServices.PartyQueueService.Leave` | utils/party_queue.py:315-325 | The queue without the player, who was promoted, and the stored map after it |
| `PartyQueueServices.PartyQueueService.StartReadyCheck` | utils/party_queue.py:327-339 | The queue in its ready check, or the error, and the stored map after it |
| `PartyQueueServices.PartyQueueService.Respond` | utils/party_queue.py:341-376 | Each answer's effect or error, as AnswerRecords and DropKeeps say, and the stored map after it |
| `PartyQueueServices.PartyQueueService.Expire` | utils/party_queue.py:378-403 | The timed-out queue and those who were late, and the stored map after it |
| `MatchReplayTheorems.CrashesDoNotMatter` | utils/match_continuity.py:244-290 | Once a decision is made, any sequence of attempts with any arguments, each killed before any step it likes, followed by one that is not, ends in the world and outcome of a single uninterrupted attempt |
| `MatchReplayTheorems.ProjectionRestarts` | utils/match_continuity.py:363-408 | A projection killed after any number of steps, or refused by one, and run again ends like one never cut short |
| `MatchReplayTheorems.AttemptKeeps` | utils/match_continuity.py:244-290 | Every attempt, crashing or not, keeps draft_projected ⇒ rooms_projected ⇒ queue_projected and every action already chosen |
| `MatchReplayTheorems.EveryRunKeepsDecisions` | utils/match_continuity.py:138-227 | Over any run at most one action is ever chosen for a match |
| `MatchReplayTheorems.NextIdsNeverClash` | utils/match_continuity.py:292-300 | The unique index on the next match's ID never refuses a decision |
| `MatchDelivery.ReadyDecisionDelivers` | utils/match_continuity.py:363-408 | An uninterrupted projection finishes exactly when the queue accepts departures and roster and no other teams hold the next match's ID; then queue, rooms, match and flags are exactly as decided |
| `MatchDelivery.RosterAcceptedWhen` | utils/party_queue.py:266-293 | A roster without repeats is accepted exactly when all its players are in the lobby |
| `MatchTeamsTheorems.ChangesLeadToTheNewTeams` | utils/match_continuity.py:473-494 | Applying the changes to the old assignment yields exactly the new one |
| `MatchTeamsTheorems.DeparturesAreRecovered` | utils/match_continuity.py:256-276 | A decision that waits for substitutes remembers exactly who left, so a resumed attempt asks for the same departures |
| `MatchTeamsTheorems.DepartingLostTheirSeat` | utils/match_continuity.py:473-494 | The departures among the changes of a new match are exactly the players who had a seat and have none |
| `MatchTeamsTheorems.SubstitutesAreWaiting` | utils/match_continuity.py:302-326 | The promoted substitutes are different waiting players, as many as fit or wait |
| `MatchSubstitutes.PromotedInTurn` | utils/match_continuity.py:317-330 | Each promoted substitute in turn brings at least as many roles nobody on the roster so far plays, counted as a set, as any player still waiting, and on a tie joined no later; each is seated in a departed player's role when playing it, else in their own first role |
| `MatchSubstitutes.NoRoleIsPassedOver` | utils/match_continuity.py:497-506 | No substitute who brings no missing role is taken while somebody waits who brings one |
| `MatchSubstitutes.SubstitutesAreUsers` | utils/match_continuity.py:317-330 | No substitute with an ID that is not positive is seated, and a roster is refused only when one waits |
| `MatchDecisions.DecidesWhen` | utils/match_continuity.py:292-361 | Which decision is built, from action, roster and departures: back to the queue without teams, waiting for substitutes when fewer than ten remain, refused for a departure of nobody in the match or for a series there is none of, else ready with the teams made |
| `MatchDecisions.WaitingTells` | utils/match_continuity.py:332-340 | A waiting decision names for each departure the seat it leaves, team and role, and no seat in its place |
| `MatchDecisions.ChangesTell` | utils/match_continuity.py:473-494 | Every change of a ready decision tells where the player sat and where they sit, team and role, and that differs |
| `MatchDecisions.SidesAreNamed` | utils/match_continuity.py:411-470 | A continuation is Blue against Red in the places of the old teams, everybody in their role of the roster; a side whose captain departed is led by its first player |
| `MatchDecisions.ShufflesWhen` | utils/match_continuity.py:411-470 | A shuffle succeeds exactly for an even roster of two to ten different players in known roles, and seats the balanced formation of that roster, sides exchanged when Blue would have the players it had |
| `MatchDecisions.OldCaptainsAreKeptApart` | utils/match_continuity.py:420-436 | When a side of a shuffled match has neither old captain, every legal line-up with one on each side is a worse fit |
| `MatchTeamsTheorems.FiveExactlyWithoutOverlap` | utils/match_continuity.py:302-359 | Both teams of a 5v5 continuation have five players exactly when nobody who was promoted had stayed |
| `MatchOverlap.FiveEachWhenNoStayerWaits` | utils/match_continuity.py:302-359 | Told from record, queue and departures: when no player who stays is on the waitlist, the continuation is made, with five on each side and every survivor on his |
| `MatchOverlap.NotFiveEachWhenOthersAreTooFew` | utils/match_continuity.py:302-359 | When fewer others wait than seats are free, the sides are not five each |
| `MatchOverlap.FiveEachExactlyWhenNoStayerWaits` | utils/match_continuity.py:302-359 | When everybody who waits is needed, the sides are five each exactly when none of them stays |
| `MatchOverlap.ARejoinedPlayerIsSeatedTwice` | utils/match_continuity.py:302-359 | A concrete match and queue: a player leaves the queue, joins again to wait, and is promoted into the match he never left |
| `MatchTeamsTheorems.ContinuationKeepsSides` | utils/match_continuity.py:411-470 | Then survivors keep their side, every survivor and substitute is seated once, and both sides have a captain of their own, the old one where he stayed |
| `MatchTeamsTheorems.ShuffleChangesBlue` | utils/match_continuity.py:411-454 | A shuffle seats the roster on two equal teams and never gives Blue the players it had |
| `MatchContinuityServices.MatchContinuityRepository.Reserve` | utils/match_continuity.py:138-168 | The first decision for a match is stored, another is refused or answered with |
| `MatchContinuityServices.MatchContinuityRepository.MarkProjection` | utils/match_continuity.py:170-195 | Exactly one flag of the decision is set |
| `MatchContinuityServices.MatchContinuityRepository.CompleteSubstitutes` | utils/match_continuity.py:197-227 | An awaiting decision is replaced by the ready one, and by nothing else |
| `MatchReservations.ReservesTheFirst` | utils/match_continuity.py:138-168 | A reservation answers with the first decision made for the match when it is of the action asked for, stores its own when there is none, and fails exactly on another action, an operation ID in use, or a next match already named |
| `MatchReservations.ResumeStoresTheBuilt` | utils/match_continuity.py:197-227 | A waiting decision taken up again stores what is built for the departures it recorded, under its old lobby and rooms, or stays when it still waits |
| `MatchReservations.EveryRunKeepsOperations` | utils/match_continuity.py:138-168 | Over any run of attempts, crashing or not, no operation ID stands for the decisions of two matches |
| `MatchContinuityServices.FillRoster` | utils/match_continuity.py:317-330 | The loop that takes substitutes off the waitlist is the filling PromotedInTurn is about |
| `MatchContinuityServices.SeatNewcomers` | utils/match_continuity.py:436-441 | The loop that seats newcomers is the specified placing |
| `MatchContinuityServices.Build` | utils/match_continuity.py:292-361 | The built result equals its specification, errors included |
| `MatchContinuityServices.MatchContinuityService.Project` | utils/match_continuity.py:363-408 | The stepwise projection equals the specified sequence of steps |
| `MatchContinuityServices.MatchContinuityService.ContinueMatch` | utils/match_continuity.py:244-290 | One call, not killed, equals the specified attempt: world and answer |
| `PartyStoreInvariant.EveryRunIsOrdered` | utils/party_store.py:451-611 | In every run each lobby's audit log is one connected path of legal transitions from OPEN to the stored state, operation IDs are recorded once, and the active lobbies of a guild have different queue codes |
| `PartyStoreInvariant.EditIsProper` | utils/party.py:92-97 | Every accepted edit of a valid lobby moves along the lifecycle graph, keeps its identity, and leaves a lobby the constructor accepts |
| `PartyLifecycle.TransitionsEnter` | utils/party.py:30-74 | The lifecycle graph read backwards: the states each state is entered from |
| `PartyLifecycle.StagesInOrder` | utils/party.py:30-74 | In every run a completed lobby's log enters ready check, forming and active in this order; a forming or active one's the stages before it |
| `PartyStoreTheorems.ExactlyOnce` | utils/party_store.py:910-936 | A command takes effect once: after any further run the same command changes nothing, nor does any other with its ID |
| `PartyStoreTheorems.RepeatedCommandIsIdle` | utils/party_store.py:191-197 | A recorded command issued again answers with the lobby as it is and leaves the store as it is |
| `PartyStoreTheorems.ReusedOperationIsIdle` | utils/party_store.py:910-920 | An ID recorded for another command changes nothing |
| `PartyStoreTheorems.EveryChangeIsRecorded` | utils/party_store.py:922-936 | Every command that changes the store records its own, new, operation in the same transaction |
| `PartyStoreTheorems.TerminalLobbiesStay` | utils/party_store.py:451-611 | A terminal lobby changes nothing but delivery, version and update time |
| `PartyStoreEffects.PartsAreAsLastGiven` | utils/party_store.py:167-717 | In every run the name, organizer, metadata and capacity, state, clock, prompt, delivery, and each player's row and joining time of a stored lobby are what the last accepted command of the kinds that set them gave; no other command touches them |
| `PartyStoreEffects.TakesEffectWhen` | utils/party_store.py:259-717 | A command changes the store exactly when it names a lobby of its guild under a new operation and may edit it: the organizer alone edits, hands over and renames, terminal lobbies take no edit, rosters fit, moves are legal, clocks run |
| `PartyStoreEffects.CreatesWhen` | utils/party_store.py:167-257 | A creation makes a lobby exactly when its operation is new, its ID, given or derived, is free and not blank, it has two seats or more, and one of fifty queue codes is free in the guild |
| `PartyStoreEffects.MarksAreRequests` | utils/party_store.py:167-717 | Two commands have the same fingerprint exactly when they ask the same of the same lobby; who asks counts for a transfer only |
| `PartyStoreEffects.RostersAreInOrder` | utils/party_store.py:497-543 | In every run rosters are in the order of joining, ties by ID |
| `PartyStoreTheorems.ExpiryHasTwoStages` | utils/party_store.py:719-786 | A sweep closes a lobby only when a prompt was recorded for it at least the grace period earlier and nothing touched it since, provided delivery updates never put a prompt up |
| `PartyStoreClock.LatePromptIsRefused` | utils/party_store.py:657-717 | A prompt is recorded only if the clock it was posted for has not been set anew |
| `PartyStoreClock.DueForOneThing` | utils/party_store.py:629-655 | An open or full lobby is due from the minute its clock runs out, for the prompt or with one up for the end; no other is due |
| `PartyStoreClock.ForgedPromptExpires` | utils/party_store.py:587-611 | A delivery update that puts a prompt up by itself lets a sweep close a lobby nobody was asked about |
| `PartyStoreClock.SweepClosesWhatIsDue` | utils/party_store.py:719-786 | A sweep closes every due lobby among its rows |
| `PartyStoreClock.SweepClosesExactlyWhatIsDue` | utils/party_store.py:719-786 | A sweep closes a lobby exactly when it is among its rows, recruiting in the guild, with a prompt up, its deadline passed, and not swept at it before; every other lobby stays as it was |
| `PartyStoreClock.StaleDeliveryExpires` | utils/party_lobby.py:378-387 | A delivery read while a prompt was up and written back after a touch puts the prompt up again: the sweep closes the lobby when the new clock runs out, and would not have without that write |
| `PartyRepositories.SQLitePartyRepository.Operation` | utils/party_store.py:910-920 | The recorded event of an ID, a conflict, or nothing |
| `PartyRepositories.SQLitePartyRepository.UniqueQueueCode` | utils/party_store.py:236-253 | The first code free among the guild's active lobbies, or none |
| `PartyRepositories.SQLitePartyRepository.CreateLobby` | utils/party_store.py:167-234 | Tables and answer after a creation, a repetition, or any of its errors |
| `PartyRepositories.SQLitePartyRepository.UpdateMetadata` | utils/party_store.py:259-304 | Tables and answer after an edit by the organizer, a repetition, or an error |
| `PartyRepositories.SQLitePartyRepository.TransferOrganizer` | utils/party_store.py:306-349 | Tables and answer after a transfer to a participant, a repetition, or an error |
| `PartyRepositories.SQLitePartyRepository.Rename` | utils/party_store.py:351-381 | Tables and answer after a rename, a repetition, or an error |
| `PartyRepositories.SQLitePartyRepository.TouchRecruitingActivity` | utils/party_store.py:383-433 | Tables and answer after a touch, which outside recruiting does nothing before looking at its ID |
| `PartyRepositories.SQLitePartyRepository.Transition` | utils/party_store.py:451-495 | Tables and answer after a legal move, a repeated state, a repetition, or an error |
| `PartyRepositories.SQLitePartyRepository.SaveParticipant` | utils/party_store.py:497-543 | Tables and answer after seating a player, or an error |
| `PartyRepositories.SQLitePartyRepository.RemoveParticipant` | utils/party_store.py:545-585 | Tables and answer after a removal, or a recorded no-op |
| `PartyRepositories.SQLitePartyRepository.SetDelivery` | utils/party_store.py:587-611 | Tables and answer after a delivery update |
| `PartyRepositories.SQLitePartyRepository.RecordInactivityPromptSent` | utils/party_store.py:657-717 | Compare-and-set on the expiry: the prompt and its grace, or nothing |
| `PartyRepositories.SQLitePartyRepository.ExpireDueRecruitment` | utils/party_store.py:719-786 | The loop over due rows is the specified sweep; one conflict rolls all back |
| `PartyLobbyHistory.RostersFollowQueues` | utils/party_lobby.py:645-685 | In every run of handler calls, each live lobby's roster is exactly its queue's active list, of the same size within capacity, and its organizer is on it |
| `PartyLobbyHistory.NobodyIsBookedTwice` | utils/party_lobby.py:1028-1053 | In every run no player is on the roster, active list or waitlist of two live lobbies of one guild |
| `PartyLobbyHandlers.EnsuresLive` | utils/party_lobby.py:645-685 | On a live lobby the bootstrap cannot fail: neither the resize nor the seating of the promoted meets a guard |
| `PartyLobbyHandlers.AfterLeaveDone` | utils/party_lobby.py:1284-1297 | After the roster has followed a departure nothing can fail, and the lobby ends led, or cancelled |
| `PartyLobbyStages.Follows` | utils/party_lobby.py:1262-1283 | Taking the departed off and the promoted on cannot fail: the seat is free |
| `PartyLobbyStages.Succeeds` | utils/party_lobby.py:1209-1234 | Succession cannot fail: the organizer is on the roster, or the lobby is cancelled |
| `PartyLobbyTheorems.DeparturesHandOn` | utils/party_lobby.py:1209-1234 | After a leave from a live lobby, or a drop out of its ready check, the organizer is unchanged unless they departed; then the first of the participants who joined earliest is, or with nobody left the lobby is cancelled |
| `PartyLobbyEffects.LeavesAsAsked` | utils/party_lobby.py:1236-1299 | A leave that succeeds leaves no row of the player, an open lobby in place of a ready check they were in, a clock anew while recruiting, the row of one who is promoted as their stored preferences say, and every other row and part as it was |
| `PartyLobbyEffects.DropsAsAsked` | utils/party_lobby.py:1982-2076 | The same for a player who drops out of a ready check |
| `PartyLobbyStages.SeatsAll` | utils/party_lobby.py:655-678 | Seating the players a larger capacity promotes cannot fail |
| `PartyLobbyCalls.LeavesLive` | utils/party_lobby.py:1236-1299 | A leave on a live lobby fails exactly for a seated player of a lobby in READY_CHECK whose queue runs no check (NotReadyChecking) or one past its deadline (CheckExpired); no other guard of resize, roster or transfer is met |
| `PartyLobbyCalls.AnswerReadyKeeps` | utils/party_lobby.py:1982-2076 | Every answer to a ready check keeps rosters and queues in agreement |
| `PartyLobbyForming.FormsWhen` | utils/party_lobby.py:1915-2076 | A response other than a drop brings a lobby in READY_CHECK to FORMING exactly when it is an accepted Ready, everybody else seated is ready, and they are even in number, two to ten |
| `PartyLobbyForming.FormsOnceEveryoneIsReady` | utils/party_lobby.py:1915-2076 | In every run of calls a lobby comes to FORMING only out of READY_CHECK, by a Ready, when each seated player's last accepted answer was Ready and has stood since |
| `PartyLobbyRuns.CreateKeepsWorld` | utils/party_lobby.py:882-965 | Creating keeps the agreement and never books a player twice |
| `PartyLobbyRuns.JoinKeepsWorld` | utils/party_lobby.py:1083-1207 | Joining keeps the agreement and never books a player twice, through promotion, waitlist and the sweep |
| `PartyLobbyRuns.NotBookedElsewhere` | utils/party_lobby.py:1028-1053 | The booking check covers rosters and queues, waitlists included |
| `PartyLobbyRuns.RejoiningFromTheWaitlistFails` | utils/party_lobby.py:1083-1149 | A join of a live lobby ends in the store's LobbyFull exactly for a player on the waitlist of the queue it finds; that is the queue before the call when it has the lobby's capacity |
| `PartyLobbyEffects.CreatesAsAsked` | utils/party_lobby.py:882-965 | A lobby created is new, open, of an even size up to ten, with the metadata, name and clock asked for, and its organizer the one player, seated as their preferences say, in lobby and queue |
| `PartyLobbyEffects.OddSizesAreRefused` | utils/party_lobby.py:890-896 | Odd sizes, and sizes outside two to ten, are refused before anything is done |
| `PartyLobbyEffects.CreatingIsRefusedWhen` | utils/party_lobby.py:882-965 | A creation is refused exactly for its size, or when, after the sweep, the organizer is on the roster, active or waiting in a live lobby of the guild |
| `PartyLobbyEffects.JoiningIsRefusedWhen` | utils/party_lobby.py:1083-1149 | A join is refused exactly when, after the sweep, the player has a place in another live lobby of the guild |
| `PartyLobbyEffects.JoinsAsAsked` | utils/party_lobby.py:1083-1207 | A join that succeeds stores the profile; with a seat the player has a row that says what the profile says, else none; the clock is set anew; a filled recruiting lobby has its check just begun; the rest is as the bootstrap left it |
| `PartyLobbyEffects.EditsTake` | utils/party_lobby.py:1604-1642 | An edit that succeeds was the organizer's, and leaves metadata and capacity as given and the clock anew |
| `PartyLobbyEffects.StartsForTheOrganizer` | utils/party_lobby.py:1440-1492 | A check started by hand was started by the organizer of a recruiting lobby with two or more and even in number, and has just begun in queue and lobby |
| `PartyLobbyEffects.CancelsForTheOrganizer` | utils/party_lobby.py:1582-1603 | Only the organizer cancels a lobby from its card |
| `PartyLobbyEffects.HandsOver` | utils/party_lobby.py:1393-1439 | A lobby is handed over by its organizer, to a participant |
| `PartyLobbyEntry.WaiterIsRefused` | utils/party_lobby.py:1137-1149 | The saving that follows an unchanged waiting place is refused, and changes nothing |
| `PartyLobbyEntry.SweptKeeps` | utils/party_store.py:613-627 | The sweep inside every look-up keeps the agreement |
| `PartyLobbyTheorems.TickKeeps` | utils/party_lobby.py:2147-2207 | The periodic pass keeps the agreement under the default configuration |
| `PartyLobbyTheorems.TimeoutWithoutCancelling` | utils/party_lobby.py:2191-2203 | With cancellation off, roster and queue agree after a timeout exactly when every active player had answered Ready |
| `PartyLobbyHistory.TimeoutClosesWhenSomebodyIsLate` | utils/party_lobby.py:2187-2203 | A check that runs out cancels its queue; it closes the lobby exactly when somebody had not answered Ready |
| `PartyLobbyHistory.StrandedLobbyIsStuck` | utils/party_lobby.py:1254-1260 | In a lobby so left behind nobody can leave, answer, or join |
| `PartyLobbyStranded.AReadyRosterIsStranded` | utils/party_lobby.py:2187-2203 | A concrete run of eight calls from the empty store: capacity four, a check started with two, a third player joins, all three answer Ready, and the deadline leaves the lobby so |
| `PartyLobbyServices.PartyLobbyService.EnsurePartyQueue` | utils/party_lobby.py:645-685 | The bootstrap, step by step on repository and queue service, equals its specification |
| `PartyLobbyServices.PartyLobbyService.HandleCreateLobbySubmission` | utils/party_lobby.py:882-965 | Store, queues and answer after the handler, errors included |
| `PartyLobbyServices.PartyLobbyService.JoinLobbyFromPreferences` | utils/party_lobby.py:1083-1207 | Store, queues, preferences and answer after the handler, errors included |
| `PartyLobbyServices.PartyLobbyService.ApplyOrganizerSuccession` | utils/party_lobby.py:1209-1234 | Store and answer after the succession; who takes over is what DeparturesHandOn says |
| `PartyLobbyServices.PartyLobbyService.ProcessLeave` | utils/party_lobby.py:1236-1299 | Store, queues and answer after the handler, errors included |
| `PartyLobbyServices.PartyLobbyService.HandleReadyCheckAction` | utils/party_lobby.py:1982-2076 | Store, queues and answer after each kind of response |
| `PartyLobbyServices.PartyLobbyService.ExpireReadyChecks` | utils/party_lobby.py:2147-2207 | The loop over active lobbies equals the specified pass |
| `DraftUndo.UndoInverts` | utils/draft.py:228-254 | Undoing an operation that just succeeded reports it and restores the whole draft, but for claim messages an advance forgets |
| `DraftUndo.AdvanceForgetsMessages` | utils/draft.py:256-273 | An advance taken back is fully restored exactly when no claim message had been posted |
| `DraftUndo.UndosRestore` | utils/draft.py:215-273 | After any interleaving of successful steps, claims and advances, n undos restore current game, completed games, pool and claims of n operations ago |
| `DraftUndo.EveryRunReplays` | utils/draft.py:215-273 | After any run, undos included, the draft is what the operations still in effect make of a new one |
| `DraftUndo.UndoReportsTheLast` | utils/draft.py:228-254 | An undo finds something exactly when an operation is in effect, reports that one, and never pops an empty list |
| `DraftUndo.UndoNeverCrashes` | utils/draft.py:111-120 | In every run no undo crashes |
| `DraftFearless.BoardIsDealt` | utils/draft.py:90-120 | Each side's lists are the gods called at that side's turns of the table up to the step |
| `DraftFearless.CompleteBoard` | utils/draft.py:18-27 | A complete game has five bans and five picks on each side |
| `DraftOrder.TableIsThePhases` | utils/draft.py:18-27 | Six bans, six picks, four bans, four picks; Blue opens the first two phases, Red the others; bans alternate, picks go one, two, two, one |
| `DraftOrder.CallsAreInTurn` | utils/draft.py:18-27 | A captain's call changes the draft exactly when his side is to move, the phase is of that action and the god is free; then it is the last god of that list and nothing else moves but the step |
| `DraftOrder.WebCallsAreInTurn` | utils/draft.py:215-219 | A web request lands on the side to move, in the action of the phase, and is refused when it names the other |
| `DraftOrder.NoSideGetsAhead` | utils/draft.py:18-27 | In every run, undos included, Blue's lead over Red in bans and in picks is what the phases say: never more than one |
| `DraftOrder.MessagesAreTheLastPosted` | utils/draft.py:139-180 | In every run, undos included, the claim message a draft knows for a side is the last one posted for it in the current game |
| `DraftFearless.LegalDraftsAreFair` | utils/draft.py:200-203 | Where callers pick available gods only: the pool is the picks of the completed games, ten for each, no god twice in a game, none picked in a completed game called later |
| `DraftFearless.EveryRunIsFair` | utils/draft.py:200-273 | The same in every run, after undos too |
| `DraftObjects.GameState.Claim` | utils/draft.py:73-85 | The object after a claim, and whether it was taken |
| `DraftObjects.GameState.Execute` | utils/draft.py:102-109 | The object after a step of the table |
| `DraftObjects.GameState.UndoStep` | utils/draft.py:111-120 | The object after its last step is taken back |
| `DraftObjects.DraftState.ExecuteStep` | utils/draft.py:215-219 | Draft and shared game objects after a step, with its entry on the stack |
| `DraftObjects.DraftState.ClaimGod` | utils/draft.py:221-226 | Draft and shared game objects after a claim |
| `DraftObjects.DraftState.AdvanceGame` | utils/draft.py:256-273 | The finished game object is completed and kept on the stack, a new one is current |
| `DraftObjects.DraftState.Undo` | utils/draft.py:228-254 | Draft after an undo of any kind; the game object shared with the completed games is current again |
| `MatchHistoryTheorems.OutcomesAreConfirmed` | utils/match_history.py:270-373 | In every run: a winner without resolution means both stored reports name it, DISPUTED means they differ, a resolved winner was named over a dispute, and a stored score agrees with the winner |
| `MatchHistoryTheorems.WinnersWereReportedTwice` | utils/match_history.py:270-325 | A winner without resolution: each team's captain sent that very report in the run |
| `MatchHistoryOrigins.MatchesAreAsCreated` | utils/match_history.py:214-268 | In every run a stored match has the teams, organizer and draft its one creation named |
| `MatchHistoryOrigins.StoredReportsAreTheLast` | utils/match_history.py:296-313 | A stored report is its captain's last accepted one |
| `MatchHistoryOrigins.OutcomesAreAsLastGiven` | utils/match_history.py:270-373 | Outcome, score, resolver and time are those its last accepted command left |
| `MatchHistoryOrigins.WinnersAreAsNamed` | utils/match_history.py:214-373 | The winner is the side its creator named; both captains named by the creator last reported that side, or they differed and the named organizer settled on it |
| `MatchHistoryOrigins.CreatesWhen` | utils/match_history.py:214-268 | A match is created exactly under a new operation, with two proper teams, under an ID, given or derived, that is not blank and not taken in the guild |
| `MatchHistoryOrigins.ReportsWhen` | utils/match_history.py:270-325 | A report counts exactly under a new operation, for a winner, with a proper score or none, by a captain of a pending match, and, when the other captain agrees, with a score that winner won |
| `MatchHistoryOrigins.ResolvesWhen` | utils/match_history.py:327-373 | A resolution counts exactly under a new operation, with a final outcome, by the organizer of an open match; a winner only over a dispute and with a score that winner won, anything else without score |
| `MatchHistoryOrigins.MarksAreRequests` | utils/match_history.py:214-373 | Two commands have the same fingerprint exactly when they ask the same of the same match |
| `MatchHistoryTheorems.HowAWinnerComesAbout` | utils/match_history.py:302-353 | Exactly two ways: a captain confirms what the other reported, or the organizer settles a dispute |
| `MatchHistoryTheorems.TerminalForever` | utils/match_history.py:293-294 | However a run goes on, a terminal match stays as it is |
| `MatchHistoryTheorems.ExactlyOnce` | utils/match_history.py:505-520 | After any further run a recorded command changes nothing and answers with the current match; its ID serves no other |
| `MatchHistoryTheorems.EveryChangeIsRecorded` | utils/match_history.py:515-520 | Every change records its operation, which was new |
| `MatchHistory.DecidedIsVerdict` | utils/match_history.py:305-313 | Counting reports and distinct values comes to the two captains' verdict |
| `MatchHistoryRepositories.MatchHistoryRepository.CreateMatch` | utils/match_history.py:214-268 | Tables and answer after a creation, a repetition, or an error |
| `MatchHistoryRepositories.MatchHistoryRepository.ReportWinner` | utils/match_history.py:270-325 | Tables and answer after a report; a score that does not fit rolls the report back |
| `MatchHistoryRepositories.MatchHistoryRepository.ResolveMatch` | utils/match_history.py:327-373 | Tables and answer after a resolution, or any of its errors |
| `MatchHistoryRepositories.PlayerStats` | utils/match_history.py:407-434 | Wins, the run of wins the newest matches start with, and exact counts of roles and teammates |
| `MatchHistoryRepositories.StreakWithinWins` | utils/match_history.py:417-426 | A streak is made of wins, and is all matches exactly when all are won |
| `MatchHistoryRepositories.TeammatesAreMutual` | utils/match_history.py:427-433 | Players who share their matches count each other equally often |
| `PartyScheduleTheorems.PositionsAreTheLine` | utils/party_schedule.py:346-480 | In every run the going positions of a night are exactly 1..n, waitlisted means behind the capacity, a Maybe holds no position |
| `PartyScheduleTheorems.LinesMove` | utils/party_schedule.py:346-480 | Each command moves every night's rows as a first-come-first-served line: join at the back, leave, or nothing when refused |
| `PartyScheduleTheorems.NobodyFallsBack` | utils/party_schedule.py:464-480 | Whatever happens, a player who stays in line keeps a place that never grows |
| `PartyScheduleTheorems.PlacesOnlyShrink` | utils/party_schedule.py:464-480 | Nor do two players who stay exchange their order |
| `PartyScheduleTheorems.SeatsGoDownTheLine` | utils/party_schedule.py:616-648 | The decoded roster is the front of the line up to the capacity, the waitlist the rest, in order |
| `PartyScheduleLine.LineIs` | utils/party_schedule.py:470-474 | Ordering the going rows by position gives the line they spell |
| `PartyScheduleSeries.WeeklyIsLeast` | utils/party_schedule.py:170-189 | The occurrence is the least series time at or after the sweep, in any zone whose dates follow the instant around unambiguous times |
| `PartyScheduleSeries.RemindersOnce` | utils/party_schedule.py:570-605 | Over any run a reminder is handed out at most once, and only inside [occurrence − lead, occurrence) |
| `PartyScheduleSeries.ClaimSweeps` | utils/party_schedule.py:570-605 | A sweep hands out exactly the reminders it adds, and leaves none unclaimed that is in its window |
| `PartyScheduleSeries.SweepFailsWhen` | utils/party_schedule.py:585-605 | A sweep fails exactly when one scheduled night's local time does not exist or is ambiguous, and then claims nothing |
| `PartyScheduleSeries.OneNightStopsAllReminders` | utils/party_schedule.py:585-605 | A concrete weekly night that stops another guild's due reminder |
| `PartyScheduleSeries.SuccessorKeepsLocalTime` | utils/party_schedule.py:482-534 | The next night of a series: one week on by the local calendar, same local time, with the card |
| `PartyScheduleSeries.ConvertingTwiceIsOnce` | utils/party_schedule.py:482-534 | Converting again for the same lobby changes nothing |
| `PartyScheduleSeries.ConvertedOnce` | utils/party_schedule.py:493-495 | A night that has a lobby keeps it in every further run |
| `PartyScheduleSeries.NextTimeIs` | utils/party_schedule.py:585-605 | Reminders lead up to the start of a night held once or not begun; of a series that has begun, to its least time at or after the sweep |
| `PartyScheduleEffects.CardsAreAsCreated` | utils/party_schedule.py:275-303 | In every run each night has the title, organizer, guild, zone, recurrence, capacity and reminders, longest lead first and each once, that one creation asked for: its own, or that of the first night of its series |
| `PartyScheduleEffects.CommandNights` | utils/party_schedule.py:275-556 | What each command does to each night: a confirmation schedules a waiting one, a conversion marks its own, a delivery is set where asked, a new one is a creation's or the next of a converted series; all else stays |
| `PartyScheduleEffects.AnswersAreTheLast` | utils/party_schedule.py:346-462 | In every run a player's row says, Going or Maybe and with which preferences, what the player's last accepted answer said; no row means none, or a withdrawal last |
| `PartyScheduleEffects.CommandAnswers` | utils/party_schedule.py:346-462 | A response counts from now on when it is the first or a Maybe in place of Going; otherwise since the earlier one; everybody else's row stays |
| `PartyScheduleEffects.RespondsWhen` | utils/party_schedule.py:346-462 | Responses need a scheduled night, withdrawing only the night |
| `PartyScheduleEffects.ConfirmsWhen` | utils/party_schedule.py:329-344 | Only the organizer confirms, and confirming again is no error |
| `PartyScheduleEffects.CreatesWhen` | utils/party_schedule.py:67-80 | A night has two to twenty seats and reminders of five minutes to a week |
| `ScheduleRepositories.ScheduleRepository.CreateNight` | utils/party_schedule.py:275-303 | Tables after a creation, ignored when the night is there |
| `ScheduleRepositories.ScheduleRepository.ConfirmNight` | utils/party_schedule.py:329-344 | Tables and answer after a confirmation |
| `ScheduleRepositories.ScheduleRepository.RsvpGoing` | utils/party_schedule.py:346-405 | Tables and answer after a Going response |
| `ScheduleRepositories.ScheduleRepository.MarkMaybe` | utils/party_schedule.py:407-443 | Tables and answer after a Maybe response |
| `ScheduleRepositories.ScheduleRepository.Cancel` | utils/party_schedule.py:445-462 | Tables and answer after a withdrawal |
| `ScheduleRepositories.RemoveGoingAndReindex` | utils/party_schedule.py:464-480 | The renumbering loop gives each remaining player their place in line |
| `ScheduleRepositories.ScheduleRepository.ConvertNight` | utils/party_schedule.py:482-534 | Tables and answer after a conversion |
| `ScheduleRepositories.ScheduleRepository.ClaimDueReminders` | utils/party_schedule.py:570-605 | The double loop of the sweep equals its specification; a failing night rolls all back |
| `ScheduledLobbyTheorems.ConversionSeatsTheLine` | utils/party_schedule.py:651-710 | An uninterrupted conversion succeeds exactly when a queue code is free and the next week has this local time; the seated line is then the roster, the whole line the queue, and a full roster is in its ready check |
| `ScheduledLobbyTheorems.ConversionRestarts` | utils/party_schedule.py:651-710 | A conversion cut short between any two of its transactions and called again seats the same line, and takes no seat and no operation twice; called again after its end it changes nothing, the deadline of the ready check included |
| `ScheduledLobbyTheorems.Creates` | utils/party_schedule.py:656-666 | The lobby is made exactly when a queue code is free |
| `ScheduledLobbyEffects.ConvertedLobbySays` | utils/party_schedule.py:651-710 | Cut short before or not, the lobby a conversion answers with closes four hours after the night begins, names the night and its recurrence, and has every player's row as that player answered |
| `ScrimLaunchServices.LobbyLauncher.ConvertToLobby` | utils/party_schedule.py:651-710 | The conversion, step by step on the three repositories, equals its specification |
| `ScrimsTheorems.HandshakeCameFirst` | utils/scrims.py:193-349 | In every run a challenge's changes of state happened in the order issued, accepted (or rejected, which ends it), checked in, locked, launched, each by its own command, the answer by the recipient's captain; a launched one has all five |
| `ScrimsTheorems.LaunchedAfterBothCheckIns` | utils/scrims.py:269-298 | A locked or launched challenge: each team was checked in by the captain it then had, and both rosters are locked |
| `ScrimsTheorems.EveryRunIsGood` | utils/scrims.py:193-349 | In every run each challenge is exactly as far as its check-ins, locked rosters and lobby say |
| `ScrimsTheorems.StepsByOne` | utils/scrims.py:193-349 | One command makes at most one change of state; a rejection is final |
| `ScrimsTheorems.LockedForever` | utils/scrims.py:300-329 | However a run goes on, team edits included, locked rosters, sides and a launched challenge's lobby stay |
| `ScrimsRosters.LockedAsTheyWere` | utils/scrims.py:300-329 | In every run a locked or launched challenge was locked at one step, by its organizer or an override, and each team's locked roster is the roster that very team had before it |
| `ScrimsRosters.CaptainsAreOnTheirRosters` | utils/scrims.py:377-392 | When neither team is saved after the lock, each team's present captain is on its locked roster |
| `ScrimsRosters.UneditedScrimIsDrafted` | utils/scrims.py:377-392 | So a launched scrim of unedited teams, its ten players ready in time, is drafted: the rosters and captains of the lock |
| `ScrimsEffects.TeamsAreAsLastSaved` | utils/scrims.py:125-176 | In every run a team has the captain, texts and rosters, each player once in the order named, of its last accepted save, and the guild and name of its first |
| `ScrimsEffects.TermsAreAsLastProposed` | utils/scrims.py:193-267 | In every run a challenge has the time and organizer of its last accepted proposal, made for a time to come by the captain of the team that challenges |
| `ScrimsEffects.TeamsAreAsIssued` | utils/scrims.py:193-230 | In every run a challenge stays between the two teams it was issued between, both of its guild, and in its zone |
| `ScrimsEffects.SavesWhen` | utils/scrims.py:125-176 | A save is accepted exactly with name, region and availability, two to ten different players, the captain among them and none also a substitute, by the stored captain or a manager, under an operation that fits |
| `ScrimsEffects.IssuesWhen` | utils/scrims.py:193-230 | A challenge is accepted exactly for a time to come, between two different teams of one guild, from the captain of the first |
| `ScrimsEffects.RespondsWhen` | utils/scrims.py:231-267 | A response is accepted exactly from the challenged captain, and a proposal to an open challenge with a time to come |
| `ScrimsEffects.ChecksInWhen` | utils/scrims.py:269-298 | A check-in is accepted exactly from a captain of one of the two teams of an accepted challenge, or as a repetition |
| `ScrimsEffects.LocksWhen` | utils/scrims.py:300-329 | A lock is accepted exactly when both teams are checked in, from the organizer or by override, or as a repetition |
| `ScrimsEffects.LaunchesWhen` | utils/scrims.py:331-349 | A launch mark is accepted exactly on a locked challenge, or on a launched one for the same lobby |
| `ScrimsTheorems.CheckInCompletesWhen` | utils/scrims.py:283-295 | A check-in completes the pair exactly when the recipient's side is in and the challenger's captain comes, or the challenger's side is in and the recipient's captain comes who is not the challenger's too |
| `ScrimsTheorems.OneCaptainNeverChecksInBoth` | utils/scrims.py:283-295 | A concrete run: one captain of both teams checks in twice, and no further check-in of his completes it |
| `ScrimsReissue.ReissueChangesWhen` | utils/scrims.py:418-432 | In every run a recorded command issued again changes the store exactly when it still applies; another under its ID changes nothing |
| `ScrimsReissue.ReplayedSaveUndoesTheEdit` | utils/scrims.py:147-176 | A team edit delivered again undoes the edit made in between |
| `ScrimsReissue.ReplayedProposalComesBack` | utils/scrims.py:231-267 | An earlier proposal delivered again takes the place of the counter-proposal |
| `ScrimRepositories.ScrimRepository.SaveTeam` | utils/scrims.py:125-176 | Tables and answer after a team is saved |
| `ScrimRepositories.ScrimRepository.IssueChallenge` | utils/scrims.py:193-229 | Tables and answer after a challenge |
| `ScrimRepositories.ScrimRepository.RespondToChallenge` | utils/scrims.py:231-267 | Tables and answer after each response; a refusal takes its record back |
| `ScrimRepositories.ScrimRepository.CheckInTeam` | utils/scrims.py:269-298 | Tables and answer after a check-in |
| `ScrimRepositories.ScrimRepository.Lock` | utils/scrims.py:300-329 | Tables and answer after the lock; whose rosters are locked is what LockedAsTheyWere says |
| `ScrimRepositories.ScrimRepository.Launch` | utils/scrims.py:331-349 | Tables and answer after the launch mark |
| `ScrimLaunchTheorems.UninterruptedLaunch` | utils/scrims.py:440-475 | An uninterrupted launch succeeds exactly when the locked rosters are two times five different players and a queue code is free; the lobby then has exactly these ten, in its ready check, and the challenge is LAUNCHED into it |
| `ScrimLaunchTheorems.InterruptedLaunch` | utils/scrims.py:440-475 | A launch cut short anywhere and repeated succeeds, into the same lobby with the same ten, exactly when it was not cut between the conversion of its night and the mark on the challenge; there every later launch fails and changes nothing |
| `ScrimLaunchTheorems.PreparesWhen` | utils/scrims.py:457-469 | Ten players can answer exactly when the night, if it is there, is this organizer's and is neither converted nor cancelled |
| `ScrimLaunchTheorems.ConvertedLaunchIsStuck` | utils/scrims.py:464-470 | A locked challenge whose night is converted cannot be launched |
| `ScrimLaunchEffects.LaunchedNightSays` | utils/scrims.py:440-475 | A launched scrim is a converted night once, at the challenge's time and in its zone, named after its two teams, for ten; its lobby says so, closes four hours later, and seats ten players without preferences |
| `ScrimLaunchEffects.LaunchingAgainAnswers` | utils/scrims.py:440-448 | A launched scrim launched again, under any operation ID, is answered with the same lobby, and nothing changes |
| `ScrimLaunchEffects.SidesAre` | utils/scrims.py:377-392 | The sides of a locked scrim of two fives: the challenger's Blue, the other's Red, under their present captains, in the locked order as solo, jungle, mid, support, adc |
| `ScrimLaunchTheorems.AllReadyForms` | utils/party_lobby.py:1915-2076 | When every seated player answers Ready in time, in whatever order, the lobby goes to FORMING with the same players |
| `ScrimLaunchTheorems.DraftTakesTheLockedRosters` | utils/scrims.py:377-392 | Whatever team edits follow, the draft's sides are the locked rosters, and the partition guard accepts them exactly when both present captains are on them |
| `ScrimLaunchTheorems.LaunchedScrimIsDrafted` | utils/scrims.py:377-392 | From launch to draft: after ten answers in time the draft's sides are the locked rosters, whatever became of the teams; only a captain off the locked roster stops it |
| `ScrimLaunchServices.LobbyLauncher.LaunchScrim` | utils/scrims.py:440-475 | The launch, step by step on the four repositories, equals its specification |
| `PartyDraft.StartsOnceUnlessFailed` | utils/party_draft.py:149-234 | Over any run two starts of one lobby's draft have a failure between them |
| `PartyDraft.ReservedStays` | utils/party_draft.py:149-234 | A reserved launch keeps its sides until it fails |
| `PartyDraft.ActiveStays` | utils/party_draft.py:218-234 | An active launch stays active, with its sides |
| `PartyDraftEffects.LaunchesAreAsLastSet` | utils/party_draft.py:149-274 | In every run a launch has the operation, channel and sides of its last start, the match named last, and stands as it was last told to, a failure with the first 500 characters of its reason |
| `PartyDraftEffects.BeginsWhen` | utils/party_draft.py:149-216 | A start is answered exactly when sides can be formed and the interaction belongs to no other lobby, unless the lobby's own standing launch is found first; the draft is started exactly when none stands |
| `PartyDraftEffects.FormsWhen` | utils/party_draft.py:59-111 | Sides are formed exactly for a lobby in FORMING: the premade ones when they part its players, else the automatic ones |
| `PartyDraftLaunches.PartyDraftLaunchRepository.BeginLaunch` | utils/party_draft.py:149-216 | Launches and answer after begin: reserved, already there, or refused |
| `PartyDraftLaunches.PartyDraftLaunchRepository.MarkLaunchFailed` | utils/party_draft.py:221-234 | Only a pending launch fails |
| `PartyDraftLaunches.PartyDraftLaunchRepository.MarkLaunchActive` | utils/party_draft.py:254-274 | The launch is active, with the match it was given |

## Findings

Places where the code does something other than its names, comments or callers
suggest. The model follows the code.

| source | as written | input | intended | confidence |
|---|---|---|---|---|
| utils/team_formation.py:186 | `second_choices` is reported with a minus sign: it is taken from the sort key, which line 312 negates (`ReportedCounts`) | any roster somebody of which plays a second choice | the count itself | high |
| utils/team_formation.py:268 | a chosen captain with ID 0 counts as none, and the side's volunteer with the least ID is named (`ChosenIsNamedWhen`, `ZeroIsPassedOver`) | a chosen captain with ID 0 whose side has a volunteer with a negative ID; Discord has no such IDs | only an absent captain counts as none | low |
| utils/party_queue.py:273-287 | `reset_roster` checks repeats and membership only, so a seat can stay free while somebody waits (`ResetKeepsExactlyWhenItFills`, `ResetCanStrandAPlayer`) | a roster smaller than the seats that can be filled | the freed seats are filled, or the roster refused | medium |
| utils/draft.py:228-273 | undoing a game advance does not bring back the claim message IDs (`AdvanceForgetsMessages`) | claim messages posted before the advance | the undo restores all the advance changed | medium |
| utils/match_continuity.py:302-359 | a 5v5 continuation builds sides that are not five each: substitutes are taken from the waitlist without looking at who stays (`NotFiveEachWhenOthersAreTooFew`, `ARejoinedPlayerIsSeatedTwice`; never otherwise, `FiveEachWhenNoStayerWaits`) | a match player who left the queue and waits again, when another departs | each player is seated once | high |
| utils/party_store.py:587-611 | a delivery update overwrites the prompt fields with whatever the caller read, so a prompt that was taken down can come back and the sweep closes the lobby (`StaleDeliveryExpires`; also `ForgedPromptExpires`) | utils/party_lobby.py:378-387 reads the delivery, posts a card, and writes it back after a player touched the lobby | only a recorded prompt nobody answered starts the second stage | medium |
| utils/party_lobby.py:1137-1149 | joining again from the waitlist reaches `save_participant`, and its refusal is not caught (`RejoiningFromTheWaitlistFails`, exactly for waiting players) | a waiting player of a full lobby confirms again | the player is told they are waiting | high |
| utils/party_lobby.py:2187-2203 | a ready check that runs out with everybody Ready cancels the queue but not the lobby, which then lets nobody leave, answer or join (`TimeoutClosesWhenSomebodyIsLate`, `StrandedLobbyIsStuck`; reached in `AReadyRosterIsStranded`) | a third player joins a check of two, and all three answer Ready | a cancelled queue cancels its lobby | high |
| utils/party_lobby.py:2191-2203 | players sent away by a timeout stay on the lobby's roster (`TimeoutWithoutCancelling`, exactly when somebody has not answered Ready) | `cancel_on_timeout=False` and somebody late | the roster follows the queue | medium |
| utils/party_schedule.py:585-605 | one weekly night whose local time is skipped or ambiguous makes every reminder sweep fail, for all guilds, while it is the series' next time or its week is running (`SweepFailsWhen`, `OneNightStopsAllReminders`) | a clock change through the night's hour in the coming or the running week of the series | the other nights' reminders go out | high |
| utils/scrims.py:147-176 | `save_team` writes again under a recorded operation ID and so undoes later edits (`ReissueChangesWhen`, `ReplayedSaveUndoesTheEdit`) | an edit delivered twice, another in between | a repeated operation changes nothing | high |
| utils/scrims.py:231-267 | a recorded proposal delivered again replaces the counter-proposal (`ReplayedProposalComesBack`) | propose, counter-propose, the first again | a repeated operation changes nothing | medium |
| utils/scrims.py:283-295 | a captain of both teams is always taken for the challenger's, so their check-in is never complete unless the recipient's side was checked in by an earlier captain (`CheckInCompletesWhen`, `OneCaptainNeverChecksInBoth`) | one captain of both teams | both teams can check in, or the challenge is refused | medium |
| utils/scrims.py:464-470 | a launch interrupted after the conversion cannot be taken up again: the converted night refuses RSVPs, though the conversion itself could be repeated (`InterruptedLaunch`, `PreparesWhen`, `ConversionRestarts`) | a crash between conversion and launch mark, and at no other moment | a launch can be repeated | high |

## Left out

- RostersFollowQueues: handlers run one after another, each with an interaction ID not seen before, ready-check buttons are pressed in the lobby's guild, and the queue service cancels on timeout, as the bot configures it. Interleaving of two handlers at their awaits is not part of this model, nor are lobbies made by schedule or scrim conversions.
- NobodyIsBookedTwice: the same conditions; a converted night does not look for other bookings.
- PromotedIsBest: those who wait hold each role once, which every run keeps (`EveryRunKeepsRoles`); the same for PromotedInTurn.
- EveryRunIsSound: roster resets in the run fill the seats, which is exactly when they keep the invariant.
- ExpiryHasTwoStages: delivery updates leave the prompt fields as they read them; `ForgedPromptExpires` shows why.
- EveryRunIsFair: captains are offered available gods only, as the coordinator checks before a step.
- WeeklyIsLeast: of the zone it needs that around an unambiguous wall time the local date follows the instant; the time zone database is not part of this model.
- ConvertingTwiceIsOnce: the ID derived for the next week is not the night's own; the same for CardsAreAsCreated and CommandNights.
- LeavesAsAsked: what was there before is taken after the sweep and the bootstrap of the queue that the handler begins with; the same for DropsAsAsked and JoinsAsAsked.
- UninterruptedLaunch: the names derived for the scrim's night and lobby are not in use yet; the same for LaunchedNightSays and LaunchingAgainAnswers.
- ConversionRestarts: between the cut and the next call nobody else changes the night or its lobby; the same for InterruptedLaunch and ConvertedLobbySays.
- FiveExactlyWithoutOverlap: when more wait than are needed and one of them stays, who is promoted depends on the roles; the condition is then on who was promoted.
- ConversionSeatsTheLine: no part of the night's lobby exists yet; the actor and reason recorded with a transition are not part of this model.
- PlayerStats: the rows of the query are given, newest first; the query's order is not part of this model.
- ReadyDecisionDelivers: room reconciliation is an idempotent setting of participants, and the draft starter a map from match IDs to teams.
- HandleReadyCheckAction: the rooms of a complete check are provided; their retries and messages are not part of this model.
- ActiveStays: the automatic teams of a lobby's profiles are a parameter of the launch; `TeamFormation` says what they are.
- Continuity is modelled for the ten players it is written for (utils/match_continuity.py:324).
- Discord objects, embeds, views, messages, permissions and logging: a message ID is an opaque number, and sending is left out.
- SQL, schema migration, JSON encoding and WAL: tables are maps and sequences.
- Trimming, case folding and truncation of text, and the joining of fingerprints and operation IDs into strings with colons, so also two different inputs that would join to one string.
- Randomness and hashing: queue codes and IDs come from naming functions; only the loop over salts is modelled.
- The order of a game's claims, the expiry of idle drafts and the export of a draft.
- Parsing of natural-language times, calendar files, role slots of a night.
- The web server, the Activity backend, settings, permissions, the legacy economy, random pickers and session picks: network plumbing or members that would only be easy.
