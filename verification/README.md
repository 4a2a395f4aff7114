# ThinPi session guarantees

ThinPi is a kiosk: an agent on a device starts remote desktop clients, and a
controller decides who may start what. This project models the parts of both
that carry the guarantees about sessions, and proves those guarantees.

- **The agent.** `Sessions` has the table of sessions and its critical sections.
  `AgentSystem` is the session manager as a step relation: one run per launch,
  removal timers, cancels, answers, window and audio calls outside the lock, in
  every interleaving. `AgentInvariant`, `AgentViews` and `AgentPreservation` hold
  the invariant and its proof, `AgentTheorems` what follows, `AgentAudio` exactly
  when sessions stay audible, `AgentAnswers` what follows an answer, an end or a cancel. `AgentManager` is the
  same manager as an object whose calls do not overlap, with the source's loops.
- **The controller.** `Access` has the permission queries with their joins and
  NULLs, `Quota` policies and used time, `Stamps` the text form of times, `Lockout`
  failed logins. `Controller` has the tables and every request as one step,
  `ControllerInvariant` what each request keeps, `ControllerTheorems` tokens over
  whole runs, `ControllerLedger` the usage ledger over whole runs,
  `ControllerAnswers` what each
  answer means, `PermissionTables` what changes an entitlement, `ControllerEvents` what
  a session event does, `ControllerLateTicket` one run that redeems a ticket its policy forbids. `Stores` does the
  requests statement by statement on fields and is proved against those steps.
- **Both together.** `Composition` joins one agent and the controller over a
  network that delays, loses and repeats messages.
- **Around them.** `SshTrust` is the host-key file as a map, `Output` the bounded
  client output and its wake-ups, `FreeRdp` the argument text, `Windows` the text
  that remembers minimised windows, `Environment` the flags of a native client,
  `Migrations` the migration runner. `Strings`, `Sorting`, `Hosts`, `Rows` and
  `Options` are shared.

Reading notes:

- Times are nanoseconds since year 0; a time is written as text the way the
  program writes it, without trailing zeros in the fraction, and compared as text
  where the program does so.
- A token and its row share one number, and numbers are drawn once: random
  tokens are taken as fresh and hashes as injective. A device's number stands for
  its unique identifier.
- The controller's pool has one connection (`controller/internal/database/database.go:28`),
  so every statement and every transaction is one step. Launching
  (`controller/internal/app/store.go:378-406`) and saving a policy
  (`controller/internal/web/server.go:823-834`) are no transactions: the first is
  two steps, a decision and an insertion, the second a save and the deletion of
  pending tickets, and other requests may come between.
- `docs/architecture.md:55` says that only one interactive session is admitted.
  The code admits any number, one per connection, and the model follows the code.
- Redemption of a launch ticket does not look at whether the user is still
  enabled; neither does the model, and no theorem says so.
- Rows that start in the first second after local midnight, but not at its exact
  instant, are not counted for the day, because the comparison is on text.
- A migration that breaks foreign keys is reported once and stays applied:
  `Migrations.BrokenOnce`, and the last clauses of `Migrate` for the exact condition.

## Model

| member | source | states |
|---|---|---|
| AgentPreservation.InvKept | agent/internal/launch/launch.go:288-747 | Every step any interleaving can take (a run's own move, a timer, a cancel, an answer, a window or audio call outside the lock) keeps the invariant of the whole agent. |
| AgentTheorems.BehaviourInv | agent/internal/launch/launch.go:343-656 | The invariant holds after every prefix of every behaviour from the empty agent. |
| AgentTheorems.EarlierIsSuperseded | agent/internal/launch/launch.go:363-378 | Of two tracked sessions bound to one non-zero connection, the earlier bound one is cancelled, is stopping, or is still in some run's list of duplicates. |
| AgentTheorems.OneLivePerConnection | agent/internal/launch/launch.go:363-378 | Once no run stands between its scan and its cancels, a connection has at most one uncancelled session that is not stopping. |
| AgentTheorems.NoOrphan | agent/internal/launch/launch.go:301-491 | A tracked session has a run that still goes on, an armed removal timer, an open host-key question, or a removal in flight. |
| AgentTheorems.NoUntrackedClient | agent/internal/launch/launch.go:343-441 | A client that executes belongs to a tracked session or to a cancelled run. |
| AgentTheorems.NeverRevived | agent/internal/launch/launch.go:288-318 | A removed session is never tracked again, whatever late timers and state changes still arrive for its number. |
| AgentTheorems.RemovedByOwn | agent/internal/launch/launch.go:301-318 | Only the session's own run, its own timer or a removal of that very session takes it out of the table. |
| AgentTheorems.PlayingIsAccounted | agent/internal/launch/launch.go:301-341 | A sink that is not suspended is referenced by a tracked session or by an operation in flight that will attach, suspend or recheck it. |
| AgentTheorems.SilentWhenIdle | agent/internal/launch/launch.go:603-656 | With no sessions and nothing in flight every sink is suspended. |
| AgentTheorems.ReportsInOrder | agent/internal/launch/launch.go:400-470 | A run reports nothing, one failure, or a start followed by an exit, across the restart without audio as well. |
| AgentTheorems.StateFollowsPoint | agent/internal/launch/launch.go:353-491 | The visible state of an uncancelled session is a function of where its run stands. |
| AgentTheorems.StateFollowsArrows | agent/internal/launch/launch.go:353-491 | An uncancelled session moves only along redeeming, preparing, starting, active, failed, with failed to starting as the one way back. |
| AgentTheorems.RestartIsAccepted | agent/internal/launch/launch.go:443-461 | Failed becomes starting again only after an accepted audio question and with audio disabled. |
| AgentTheorems.RestartsOnce | agent/internal/launch/launch.go:443-461 | A launch restarts at most once in any behaviour. |
| AgentTheorems.PromptOnlyWhenEnding | agent/internal/launch/launch.go:493-521 | A confirmation is open only while the session shows failed or stopping. |
| AgentTheorems.OneAnswer | agent/internal/launch/launch.go:523-535 | A question takes at most one answer and is closed to a second one. |
| AgentTheorems.AnswerNeverBlocks | agent/internal/launch/launch.go:523-535 | The channel has room for every accepted answer, so answering does not wait. |
| AgentPreservation.OnePerConnectionKept | agent/internal/launch/launch.go:363-378 | Every step keeps the order of binds per connection, including the step that binds. |
| AgentPreservation.NoLeakKept | agent/internal/launch/launch.go:301-341 | Every step keeps every playing sink accounted for. |
| AgentViews.PassiveStep | agent/internal/launch/launch.go:288-656 | What other launches, timers and calls may do to a launch: cancel it, stop it, remove it, or take its answer, and nothing else. |
| AgentPreservation.ResumeKept | agent/internal/launch/launch.go:677-747 | Every step keeps window operations on clients that are known, and a resume in flight on the sink its session has. |
| AgentAudio.HeardStep | agent/internal/launch/launch.go:301-341 | From a state in which every wanted sink plays (one that a session sounds through, a run is about to attach, or a resume is about to show), a step leads to another such state if and only if it does not carry out a suspension of a wanted sink. |
| AgentAudio.HeardExactly | agent/internal/launch/launch.go:677-747 | A behaviour of any interleaving keeps every wanted sink playing if and only if none of its steps carries out a suspension of a wanted sink. |
| AgentAudio.SessionsHeard | agent/internal/launch/launch.go:677-747 | Until such a suspension every active, visible session with a sink is heard, unless it was restarted without audio. |
| AgentAudio.PromptSuspension | agent/internal/launch/launch.go:301-341 | A step that decides to suspend a sink finds nobody playing it: carried out at once the suspension mutes somebody exactly when the sink is being prepared or restored at that moment. |
| AgentAudio.LateSuspensionMutes | agent/internal/launch/launch.go:677-747 | From any reachable active session with a sink of its own, minimise and resume before the suspension arrives reach an active, visible and mute session. |
| AgentAudio.SoundingReached | agent/internal/launch/launch.go:343-441 | One launch reaches such a session, for any sink. |
| AgentAudio.MuteReached | agent/internal/launch/launch.go:677-747 | So some behaviour from the empty agent mutes an active, visible session whose audio is on. |
| AgentAnswers.AcceptedTurnsOff | agent/internal/launch/launch.go:448-456 | The next own move of a run whose taken answer accepts turns its audio off and reports nothing. |
| AgentAnswers.AcceptedRestarts | agent/internal/launch/launch.go:448-461 | An accepted question leads back to a running client: until its client has been started over without audio, the run stands at the answer, before the restart or in it, and has reported its start only. |
| AgentAnswers.NoExitBeforeRestart | agent/internal/launch/launch.go:448-461 | Such a run neither reports an exit nor finishes before its client has been started over. |
| AgentAnswers.RestartShown | agent/internal/launch/launch.go:455-461 | Meanwhile an uncancelled session shows failed, then starting, then active. |
| AgentAnswers.DeclinedEnds | agent/internal/launch/launch.go:448-453 | A declined question ends in one exit report and the removal of the session, and in nothing else. |
| AgentAnswers.RestartReached | agent/internal/launch/launch.go:433-461 | Some behaviour restarts a session without audio and shows it active again. |
| AgentAnswers.ReturnDecides | agent/internal/launch/launch.go:463-490 | A client without a time limit that returns without an error is stopped and its session removed; one that returns with an error shows the failure until its timer, unless the run is cancelled. |
| AgentAnswers.AbandonEnds | agent/internal/launch/launch.go:445-447 | A question abandoned because of a cancel or the time limit ends the run like an error. |
| AgentAnswers.DeadlineShows | agent/internal/launch/launch.go:472-476 | A run that met its time limit shows a failure until its timer. |
| AgentAnswers.FailureStartsNothing | agent/internal/launch/launch.go:353-413 | A refused launch, a client that cannot be built and a changed host key never start a client and never report a start. |
| AgentAnswers.KeyDecisionRemoves | agent/internal/launch/launch.go:537-559 | Deciding a changed host key leads to the removal of the session. |
| AgentAnswers.KeyQuestionReached | agent/internal/launch/launch.go:386-401 | Some behaviour asks about a changed host key. |
| AgentAnswers.CancelStops | agent/internal/launch/launch.go:638-656 | Cancelling stops the session, cancels its run, leaves a removal for a terminal one, and touches no other session. |
| AgentAnswers.CancelAllStops | agent/internal/launch/launch.go:603-637 | Cancelling everything does so for every session. |
| AgentManager.SilentAfterwards | agent/internal/launch/launch.go:677-747 | After a minimise a sink plays only if it played and another session plays it, after a failed resume only if a session plays it; a resume that works shows the session and plays its sink. |
| AgentManager.PerformKeepsAudible | agent/internal/launch/launch.go:320-341 | With calls that do not overlap, every call keeps each active, visible session with a sink audible, unless it was restarted without audio. |
| AgentManager.NeverMuted | agent/internal/launch/launch.go:677-747 | The same over any history of launches, minimises, resumes, cancels and removals, for any number of sessions sharing sinks. |
| AgentManager.Manager.Launch | agent/internal/launch/launch.go:343-351 | A launch gets the next number and a fresh session. |
| AgentManager.Manager.AudioSinkInUse | agent/internal/launch/launch.go:320-327 | The scan finds a session that plays a sink exactly when one does. |
| AgentManager.Manager.ReleaseAudioIfUnused | agent/internal/launch/launch.go:329-341 | Suspends a sink no session plays. |
| AgentManager.Manager.Remove | agent/internal/launch/launch.go:301-318 | Removes one session and suspends its sink if nobody else plays it. |
| AgentManager.Manager.Cancel | agent/internal/launch/launch.go:638-656 | Stops one session, removes it at once if it was failed or awaits a host key, and releases its sink. |
| AgentManager.Manager.BindAndScan | agent/internal/launch/launch.go:363-373 | Binds the session and returns exactly the other sessions of the connection that are not stopping. |
| AgentManager.Manager.ReplaceConnection | agent/internal/launch/launch.go:363-378 | After the scan and the cancels, in whatever order: the replaced sessions are cancelled and gone or stopping, of their sinks exactly those nobody plays any more are suspended, and every other session is as it was. |
| AgentManager.Manager.StopEvery | agent/internal/launch/launch.go:605-626 | The locked loop stops and cancels all sessions and returns exactly the terminal ones and all their sinks. |
| AgentManager.Manager.RemoveEach | agent/internal/launch/launch.go:627-629 | Removes exactly the given sessions and suspends exactly those of their sinks that nobody plays any more. |
| AgentManager.Manager.ReleaseEach | agent/internal/launch/launch.go:633-635 | With no active session every given sink ends suspended. |
| AgentManager.Manager.CancelAll | agent/internal/launch/launch.go:603-637 | Cancelling everything keeps only clients that still have to exit and suspends every sink any session had, whatever order the loops take. |
| AgentManager.Manager.Minimize | agent/internal/launch/launch.go:677-715 | Minimises an active, visible session whose client is known and suspends its sink unless another session plays it. |
| AgentManager.Manager.ResolveAudioUnavailable | agent/internal/launch/launch.go:523-535 | Accepts an answer exactly when a question is open, closes the question and sends the answer. |
| AgentManager.Manager.Resume | agent/internal/launch/launch.go:717-747 | Restores a minimised session with its sink, or releases the sink again when the windows do not come back. |
| Environment.NativeEnvironmentFlag | agent/internal/launch/runner_unix.go:338-347 | The backward loop returns whether the last entry that sets the name is 1, true or yes. |
| Environment.PrepareMoonlightAudio | agent/internal/launch/runner_unix.go:249-300 | With audio disabled, without Moonlight or with another driver no sink is asked for and no audio error can occur. |
| Environment.RestartIsSilent | agent/internal/launch/launch.go:456 | Appending the disabling entry disables audio whatever the environment said before, so the restart cannot lose audio again. |
| Stamps.At | controller/internal/app/store.go:41 | The calendar date and time of every instant of the years 0 to 9999; it converts back to the same instant. |
| Stamps.SecondsDecide | controller/internal/app/store.go:41 | Text order of two written times is decided by their whole seconds when those differ. |
| Stamps.StampOrder | controller/internal/app/store.go:41 | Text order agrees with time order whenever the whole seconds differ. |
| Stamps.StampOrderInSecond | controller/internal/app/store.go:41 | Inside one second text order is wrong exactly when the earlier time's kept fraction digits are a proper prefix of the later one's. |
| Stamps.TextOrderIsNotTimeOrder | controller/internal/app/store.go:41 | A concrete pair in one second that sorts the wrong way. |
| Stamps.NotBelowWholeSecond | controller/internal/app/store.go:333 | What comparing against the stamp of a whole second means: later seconds and the exact instant, but not the rest of that second. |
| Lockout.LoginStore.CountFailures | controller/internal/app/store.go:131-133 | The count of failures after the cutoff, compared as text. |
| Lockout.LoginStore.Authenticate | controller/internal/app/store.go:128-150 | Refuses exactly when eight failures are in the window, otherwise records the attempt and its outcome. |
| Lockout.WindowIsSeen | controller/internal/app/store.go:131-133 | Every failure at least 599 seconds recent is seen by the textual window of a login. |
| Lockout.RefusedMeans | controller/internal/app/store.go:128-150 | A login is refused only if eight failures of that very key were recorded in the last 601 seconds, and always if they were in the last 599: other keys, successes and older failures refuse nobody. |
| Lockout.AtMostEightFailures | controller/internal/app/store.go:128-150 | In any 599 seconds, whole or not, a good log has at most eight failures of one key. |
| Lockout.NoBurst | controller/internal/app/store.go:128-150 | So has the log after any run of logins that follow one another. |
| Access.QueriesAgree | controller/internal/app/store.go:290-294 | The one EXISTS query and redemption's two queries accept the same user and connection. |
| Access.CanLaunchMeans | controller/internal/app/store.go:290-294 | A launch is possible exactly when the connection is enabled and a permission of the user, or of one of the user's groups, grants it. |
| Access.ListingExact | controller/internal/app/store.go:273-294 | The joined listing, with its NULLs, shows a connection exactly when it may be launched. |
| Access.ListedOnce | controller/internal/app/store.go:273-288 | A connection is listed once, however many permissions lead to it. |
| Access.DirectCredentialWins | controller/internal/app/store.go:473 | The direct permission's credential is used when it has one. |
| Access.LowestGroupDecides | controller/internal/app/store.go:473 | Otherwise the lowest-numbered group that grants the launch with a credential decides. |
| Access.DefaultCredential | controller/internal/app/store.go:473 | Otherwise the connection's own credential is used. |
| Quota.PolicyStatus | controller/internal/app/store.go:305-376 | The loop over the day's rows and the branches compute the status from the used seconds of the ledger. |
| Quota.StatusMeans | controller/internal/app/store.go:317-374 | A status allows a launch exactly when the weekday's bit of the mask is set, the minute lies in the hours read as a circle, and the daily limit leaves time; its cap is the smaller of the limits there are and its minutes are rounded up. |
| Quota.CapBounds | controller/internal/app/store.go:355-374 | An allowed launch under a daily limit gets a positive cap of at most what is left, one under a session limit at most that; the cap is 0 only without limits. |
| Quota.NightIsComplement | controller/internal/app/store.go:318-327 | Access hours that wrap around midnight are the complement of the hours between. |
| Quota.CountsFromMeans | controller/internal/app/store.go:333 | Which rows the textual comparison with midnight counts. |
| Quota.UsedGrowsWithTime | controller/internal/app/store.go:337-353 | Used time does not fall as the clock goes on. |
| Quota.UsedSplits | controller/internal/app/store.go:337-353 | Used time is the sum of the used times of any two complementary parts of the ledger. |
| Quota.UsedOfDay | controller/internal/app/store.go:333 | The used time is that of the rows of the user and the day. |
| Quota.LedgerLag | controller/internal/app/store.go:350-352 | Truncation makes the ledger run behind real time, by less than a second per finished session. |
| ControllerInvariant.EffectHolds | controller/internal/app/store.go:206-579 | What each request does to the token tables: redemption marks one live token, issuing adds one, dropping pending tickets and deleting a connection remove theirs, nothing else touches them. |
| ControllerInvariant.DecisionStep | controller/internal/app/store.go:378-406 | A decision appears by deciding, under the next number, and is used up by inserting. |
| ControllerInvariant.DbOkKept | controller/internal/app/store.go:206-619 | Every request keeps the keys, the credential references, the token rows and the ledger of the database. |
| ControllerInvariant.TokenStep | controller/internal/app/store.go:429-579 | A request changes nothing of a token but its redemption time, once, from empty. |
| ControllerInvariant.LedgerKept | controller/internal/app/store.go:589-619 | Every request keeps each usage row on a redeemed ticket with the same user, device and connection, with its duration equal to the whole seconds from start to end, one row per ticket. |
| ControllerInvariant.KeyedKept | controller/internal/web/server.go:685-727 | Every request keeps the primary keys of the permission tables. |
| ControllerTheorems.RedeemedIff | controller/internal/app/store.go:224-579 | Over any run, a launch, maintenance, handoff or enrolment redemption succeeds exactly when an earlier request made that token for it, its time is not over, no request since redeemed it, dropped the user's pending tickets or deleted the connection, and device, permission and administrator checks hold at that moment. |
| ControllerTheorems.RedeemedOnce | controller/internal/app/store.go:224-579 | No token of any kind is redeemed twice in any run. |
| ControllerTheorems.Origin | controller/internal/app/store.go:206-538 | Every stored token was made by an earlier request of its kind, under that kind's conditions, with the user, device, connection, cap and expiry that request gave it. |
| ControllerTheorems.DecisionOrigin | controller/internal/app/store.go:378-390 | A decision under way was made by an earlier request, with the cap of the policy then in force, and has not been inserted. |
| ControllerTheorems.OneTicketPerDecision | controller/internal/app/store.go:401 | A decision makes at most one ticket. |
| ControllerTheorems.DecidedBefore | controller/internal/app/store.go:378-519 | Every redeemed launch ticket has its insertion and before it its decision, whose policy allowed it and gave its cap. |
| ControllerTheorems.PolicyInForce | controller/internal/web/server.go:823-834 | The policy in force at a redemption is the one that decided the ticket if and only if no policy of the user was saved since the decision or the last one saved equals it; a save that came after the insertion can only be one whose pending tickets have not been dropped yet. |
| ControllerTheorems.InForceIffUnsaved | controller/internal/web/server.go:823-834 | If the two statements of every save follow each other, that is so if and only if no policy of the user was saved between decision and insertion, or the last one saved there equals it. |
| ControllerTheorems.UnderCurrentPolicy | controller/internal/web/server.go:823-834 | So with atomic requests no ticket decided under a superseded policy is redeemed. |
| ControllerLateTicket.LateTicketRedeemed | controller/internal/app/store.go:378-406 | A run in which a policy that forbids everything is saved between decision and insertion, and the ticket is redeemed all the same. |
| ControllerTheorems.Life | controller/internal/app/store.go:206-579 | A token is live exactly while its time is not over and no request has ended it. |
| ControllerTheorems.PurgeSparesLive | controller/internal/app/store.go:216 | The purge of old handoffs, which compares text, never deletes one that could still be redeemed. |
| ControllerAnswers.RedeemedCredential | controller/internal/app/store.go:461-519 | The credential of a redemption is the direct grant's, else that of the lowest-numbered granting group with one, else the enabled connection's own. |
| ControllerAnswers.ApprovedIff | controller/internal/app/store.go:378-389 | Over any run a launch is approved exactly when the user is entitled to the connection, the last saved policy (or access at any time) allows the day and the minute, and its daily limit leaves time; the decision carries the smaller of the limits there are. |
| ControllerAnswers.IssuedIff | controller/internal/app/store.go:206-427 | When tokens of each kind are issued, both ways. |
| ControllerAnswers.SavedIff | controller/internal/web/server.go:823-834 | A policy is saved exactly for a known user and with its numbers in range. |
| PermissionTables.UserGrantStep | controller/internal/web/server.go:685-714 | Only a grant, a revocation or the deletion of the connection changes what a user is granted directly, and how. |
| PermissionTables.GroupGrantStep | controller/internal/web/server.go:685-714 | The same for a group, with the deletion of the group. |
| PermissionTables.MemberStep | controller/internal/web/server.go:715-727 | Only setting a membership or deleting its group changes who belongs to a group. |
| PermissionTables.EnabledStep | controller/internal/web/server.go:779-797 | Only creating, updating or deleting a connection enables or disables it. |
| PermissionTables.AfterSetting | controller/internal/web/server.go:685-714 | After a revocation a user can launch the connection only through a group; after a grant, if it is enabled. |
| PermissionTables.GrantStored | controller/internal/web/server.go:709 | A grant leaves exactly its own row for the subject and the connection, with its credential. |
| PermissionTables.ConnectionStored | controller/internal/web/server.go:635-663 | Creating or updating a connection stores its flag and its credential. |
| PermissionTables.UserStep | controller/internal/web/server.go:753-770 | Users change only by being created or updated. |
| PermissionTables.DeviceStep | controller/internal/web/server.go:807-822 | Devices change only by enrolling or being switched. |
| ControllerEvents.RedeemedBy | controller/internal/app/store.go:461-519 | A redeemed launch ticket was redeemed by a request of its own device, and its connection was not deleted since. |
| ControllerEvents.EventEffect | controller/internal/app/store.go:589-607 | Over any run, an event from an enabled device that redeemed the ticket before, naming its connection that was not deleted since, opens the ticket's row if it is a start and there is none, or closes its open row now with the whole seconds elapsed; every other event changes nothing. |
| ControllerLedger.CredentialExists | controller/internal/app/store.go:490-496 | The credential of a manifest is always a stored one. |
| ControllerLedger.RowHistory | controller/internal/app/store.go:589-607 | Every usage row was opened by the first accepted start event of its ticket and closed by the first accepted end event after it; repeated and late events leave it alone. |
| ControllerLedger.StartedHasRow | controller/internal/app/store.go:597-598 | Once a start event was accepted the ticket has a row as long as the ticket exists. |
| ControllerLedger.RowLives | controller/internal/app/store.go:589-607 | A row's start never changes and its end is written at most once; a row goes only with its connection. |
| ControllerLedger.DropErasesNothing | controller/internal/web/server.go:830-833 | The cascade of saving a policy deletes no usage row. |
| ControllerLedger.UsedStep | controller/internal/app/store.go:333-353 | Only the clock raises used time and only deleting a connection lowers it; starts, ends, policy saves and all other requests leave it exactly as it was. |
| ControllerLedger.UsedNeverFalls | controller/internal/app/store.go:333-353 | Over any run without connection deletions the used time of a policy day never falls. |
| ControllerLedger.DeletionForgets | controller/internal/web/server.go:894-915 | Deleting a connection gives back exactly the time its own sessions had used. |
| ControllerLedger.ExhaustedStays | controller/internal/app/store.go:355-362 | After the allowance of a policy day is used up every launch of that day is decided against until the policy changes or a connection is deleted. |
| ControllerLedger.TicketDecided | controller/internal/app/store.go:378-406 | Every usage row's ticket was inserted after a decision for that user. |
| ControllerLedger.DailyLimitOfRun | controller/internal/app/store.go:355-374 | Over any run, the finished sessions of a policy day, the last of which stops within its ticket's cap, take at most the daily limit in real time, one second each but the last, and what the earlier sessions were charged after that ticket was decided, which is all that overlapping tickets can add. |
| ControllerLedger.DailyLimitHolds | controller/internal/app/store.go:355-374 | So sessions that follow one another take at most the daily limit and k-1 seconds. |
| Stores.Store.DecideLaunchTicket | controller/internal/app/store.go:378-389 | Permission and policy in the source's order end in the state and answer of the decision's step. |
| Stores.Store.InsertLaunchTicket | controller/internal/app/store.go:390-406 | The device query and the insertion with its foreign key end in the state and answer of the insertion's step. |
| Stores.Store.CreateLaunchTicket | controller/internal/app/store.go:378-406 | Undisturbed, a launch request is its decision followed by its insertion. |
| Stores.Store.RedeemLaunchTicket | controller/internal/app/store.go:461-519 | Row, expiry, permission, credential and the guarded update end in the state and answer of the request's step. |
| Stores.Store.CreateMaintenanceTicket | controller/internal/app/store.go:411-427 | Only an enabled administrator on an enabled device gets a ticket. |
| Stores.Store.RedeemMaintenanceTicket | controller/internal/app/store.go:429-459 | The same device, an enabled administrator, in time and once. |
| Stores.Store.CreateAdminHandoff | controller/internal/app/store.go:206-222 | Purges old handoffs and issues one for 45 seconds. |
| Stores.Store.RedeemAdminHandoff | controller/internal/app/store.go:224-271 | In time, once, by an enabled administrator. |
| Stores.Store.EnrolDevice | controller/internal/app/store.go:540-579 | An identifier already in use fails and spends no token; otherwise device and redemption are written together. |
| Stores.Store.RecordSessionEvent | controller/internal/app/store.go:589-607 | Rejects events that do not fit their ticket, opens a row once, closes it once. |
| Stores.Store.CloseRows | controller/internal/app/store.go:604 | The guarded update closes exactly the open rows of the ticket. |
| Stores.Store.CreateEnrolmentToken | controller/internal/web/server.go:669-684 | Issues a token for one minute to one day and refuses other lives. |
| Stores.Store.SetPermission | controller/internal/web/server.go:685-714 | Grants replace the one row of the subject and connection or add it, refusing unknown subjects, connections and credentials; revocations delete that row. |
| Stores.Store.SetMember | controller/internal/web/server.go:715-727 | Adds a membership once or deletes it. |
| Stores.Store.SetDevice | controller/internal/web/server.go:807-822 | Switches a known device and reports a revocation exactly when it is switched off. |
| Stores.Store.SavePolicyOf | controller/internal/web/server.go:823-834 | Validates and saves, then drops the user's pending tickets with their cascade. |
| Stores.Store.RemoveConnection | controller/internal/web/server.go:894-915 | Deletes a connection with its permissions, tickets and usage rows. |
| Stores.Store.MarkRedeemed | controller/internal/app/store.go:502-509 | The guarded update changes one row or none. |
| Composition.HistoryOk | agent/internal/launch/launch.go:353-491 | In every joint history of one agent and the controller, with lost, delayed and repeated messages, the agent's invariant, the ownership of tickets and the origin of ledger rows hold together. |
| Composition.TicketsDistinct | controller/internal/app/store.go:461-519 | Two runs of an agent never hold the same ticket. |
| Composition.RowIsReported | agent/internal/launch/launch.go:412-470 | Every usage row of the device belongs to one run that reported its start with that ticket and connection; a closed row means the run's whole trace is start and exit. |
| Composition.DeliveredCounts | controller/internal/app/store.go:589-607 | A report of a run whose ticket still exists and whose device is enabled is recorded when it is delivered. |
| Composition.RunningIsCounted | agent/internal/launch/launch.go:412-470 | While a client executes, its usage row is open, so its time goes on being counted. |
| SshTrust.KnownHostInjective | agent/internal/launch/ssh_trust.go:175-180 | Different endpoints have different known-host names. |
| SshTrust.NameReadsBack | agent/internal/launch/ssh_trust.go:175-180 | Host and port are read back from the name, which is the bare host for port 22. |
| SshTrust.ListMatches | agent/internal/launch/ssh_trust.go:192-203 | A line that lists several hosts matches each of them and no other. |
| SshTrust.LineMatches | agent/internal/launch/ssh_trust.go:192-203 | A stored line matches a name exactly when it was written for that endpoint. |
| SshTrust.ReadWrite | agent/internal/launch/ssh_trust.go:96-136 | Reading back what was written gives the same lines. |
| SshTrust.EqualStringSets | agent/internal/launch/ssh_trust.go:205-218 | Comparing sorted copies decides equality as multisets. |
| SshTrust.MatchingText | agent/internal/launch/ssh_trust.go:182-190 | The matching lines of a text are the keys of the endpoint and the others are the text without it. |
| SshTrust.PrepareRefines | agent/internal/launch/ssh_trust.go:50-76 | First use adds, an equal scan is trusted, a changed scan changes nothing and is reported. |
| SshTrust.AcceptRefines | agent/internal/launch/ssh_trust.go:78-94 | Accepting replaces the keys of exactly one endpoint. |
| SshTrust.HistoryRefines | agent/internal/launch/ssh_trust.go:50-94 | Over any history the file represents the map and both give the same answers. |
| SshTrust.FileIsMap | agent/internal/launch/ssh_trust.go:50-136 | The same from a missing file. |
| SshTrust.KnownKept | agent/internal/launch/ssh_trust.go:50-94 | Known keys stay until another acceptance for their endpoint. |
| SshTrust.AcceptedIsTrusted | agent/internal/launch/ssh_trust.go:50-94 | Accepted keys are trusted later, in any order, whatever happened to other endpoints meanwhile. |
| SshTrust.KeepOthers | agent/internal/launch/ssh_trust.go:87-92 | The filter that writes behind its own reading keeps exactly the other lines, in order. |
| SshTrust.SshTrustStore.ReadLines | agent/internal/launch/ssh_trust.go:96-113 | The trimmed, non-empty lines of the file, none for a missing file. |
| SshTrust.SshTrustStore.MatchingLines | agent/internal/launch/ssh_trust.go:182-190 | The loop collects exactly the matching lines. |
| SshTrust.SshTrustStore.Prepare | agent/internal/launch/ssh_trust.go:50-76 | The object's file and answer are those of the specification, error cases included. |
| SshTrust.SshTrustStore.Accept | agent/internal/launch/ssh_trust.go:78-94 | Likewise for an acceptance, which needs pending lines. |
| Output.LastAppend | agent/internal/launch/launch.go:138-147 | Trimming after every write shows the same as trimming once at the end. |
| Output.BoundedOutput.Write | agent/internal/launch/launch.go:138-153 | The buffer is the end of everything written, within its limit, and the signal is set. |
| Output.BoundedOutput.Text | agent/internal/launch/launch.go:155-159 | What is shown is a suffix of everything written, and all of it until the limit is reached. |
| Output.WakeUps | agent/internal/launch/runner_unix.go:144-167 | In any interleaving, unseen output implies a signal in the channel, a writer about to send, or a reader between receiving and reading; what the reader saw is the end of what had been written then. |
| Output.QuietIsSeen | agent/internal/launch/runner_unix.go:144-167 | When only a new write could happen the reader has seen the whole buffer. |
| FreeRdp.FreeRDPCommand | agent/internal/launch/launch.go:772-855 | Accepts exactly the valid manifests and produces their argument text. |
| FreeRdp.SplitStdin | agent/internal/launch/launch.go:854 | Splitting the input on newlines gives exactly the argument list. |
| FreeRdp.ScreenMeans | agent/internal/launch/launch.go:798-809 | The screen, sound and microphone switches are in the list exactly when they are configured. |
| FreeRdp.DevicesMean | agent/internal/launch/launch.go:810-833 | So are the printer, smartcard and reconnect switches, and the clipboard always is. |
| FreeRdp.CredentialsMean | agent/internal/launch/launch.go:792-797 | User name and password are in the list exactly when there are any. |
| FreeRdp.DriveMeans | agent/internal/launch/launch.go:815-824 | A configured drive shares the session's home, by default /home/thinpi. |
| FreeRdp.CertificateMeans | agent/internal/launch/launch.go:834-853 | The certificate's name is there exactly if there is one, and its mode is tofu without one. |
| FreeRdp.FindLine | agent/internal/launch/launch.go:791-853 | Every argument is found in its own place and no other line can be mistaken for it. |
| FreeRdp.AddressBack | agent/internal/launch/launch.go:791 | Host and port are recovered from the address, colons and brackets included. |
| FreeRdp.ParseBack | agent/internal/launch/launch.go:772-855 | A line parser recovers host, port, user name, password and the normalised switches. |
| FreeRdp.StdinInjective | agent/internal/launch/launch.go:772-855 | So manifests with the same input are the same to FreeRDP. |
| Windows.Minimize | agent/internal/launch/window_unix.go:16-61 | Chooses and minimises the windows in order and returns the text that names them, or fails. |
| Windows.Resume | agent/internal/launch/window_unix.go:63-84 | Maps the windows of a state text in order and activates its primary one, or fails. |
| Windows.ChosenWell | agent/internal/launch/window_unix.go:22-55 | The primary window is among the chosen ones and none is nameless; it is the last visible window of the process, and without one the active window unless that is the launcher. |
| Windows.StateReadsBack | agent/internal/launch/window_unix.go:60-84 | Reading a state text gives back the same windows in the same order and the same primary exactly when no id has a comma and the primary has no bar. |
| Windows.DesktopReadsBack | agent/internal/launch/window_unix.go:16-84 | The same from the desktop: what resume reads is what minimise chose, exactly under that condition on the chosen ids. |
| Windows.MinimizeAndResume | agent/internal/launch/window_unix.go:16-84 | Under it, resuming maps exactly the minimised windows in their order and activates the primary. |
| Migrations.Database.Migrate | controller/internal/database/database.go:49-114 | Through failures and crashes at any statement the applied versions stay a growing prefix of the plan, body and record together; at every return that is no crash, foreign keys are enforced unless a pragma that should turn them on failed; completion means the whole plan, and the last check covered it exactly if this run applied something or found a checked database. |
| Migrations.Database.Open | controller/internal/database/database.go:19-47 | The same for opening the database on a new connection. |
| Migrations.Database.Restart | controller/internal/database/database.go:19-114 | The same over any number of lives of the process from an empty database, without repeats, enforcement included. |
| Migrations.Database.ApplyOne | controller/internal/database/database.go:81-111 | One migration with its switch: off, transaction, on at every return, check. |
| Migrations.BrokenOnce | controller/internal/database/database.go:107-111 | A migration that breaks a foreign key stops the run that applies it, and the next run completes over the broken database. |
| Migrations.Database.Transaction | controller/internal/database/database.go:86-102 | A migration's body and its record are committed together or not at all. |
| Migrations.PlannedInOrder | controller/internal/database/database.go:57-66 | Migrations are planned in the order of their file names. |
| Migrations.PlanPlaces | controller/internal/database/database.go:57-66 | Each planned version is that of a migration file, at rising places of the list. |
| Migrations.VersionMeans | controller/internal/database/database.go:62-66 | A file's version is the number before its first underscore. |
| Migrations.PlanExtends | controller/internal/database/database.go:57-66 | The plan never repeats a version and never takes back what it started with. |
| Migrations.PlanHasAll | controller/internal/database/database.go:57-66 | The plan of well-named files has the version of every one of them. |
| Migrations.NextInPlan | controller/internal/database/database.go:71-77 | A database that is a prefix of the plan is at the runner's next version or already past it. |

## Left out

- Cryptography, random numbers, password hashing, HTTP routing, cookies, CSRF, templates and TLS: tokens are fresh numbers, a valid login is an input.
- User sessions and their idle time: requests come from some signed-in user, and a redeemed handoff creates no session row in the model.
- Decrypting credentials, the kiosk theme row and malformed stored times: a redemption that fails there spends no ticket and is not modelled.
- The compatibility of credential types with protocols: only that a credential exists is checked.
- Time zones: the local weekday, minute and midnight of a launch are inputs, so the policy has no zone of its own.
- Whole seconds of a duration are an integer division; the program divides as a floating-point number first, which agrees for durations below 2^22 seconds.
- The order of the connection listing.
- Deleting users and devices: the program has no request for it.
- The audit log and its rows for rejected events.
- Cancelling: its removal and its release of the sink are independent tasks in `AgentSystem`, which allows more interleavings than the code; retries of termination change no table and are left out.
- An agent that stops and starts again: `Composition` follows one life of one agent, other devices being arbitrary.
- The texts of errors and the extra fields of a status.
- Mock sessions, which are minimised without a window, and the identifiers passed to the audio calls.
- Requests of two statements without a transaction other than launching and saving a policy (creating maintenance tickets and handoffs, granting permissions, session events) are one step; redemption repeats the checks on administrators and devices, and foreign keys those on rows. Within a launch decision, permission and policy are read in one step.
- Failing file-system calls of the host-key store, its 64 KiB limit on a line, and running ssh-keyscan: a scan is an input.
- Case folding outside ASCII.
- `redactClientOutput`: sequential replacement does not promise that a secret is gone.
- JSON decoding of the FreeRDP configuration: the decoded value or its failure is an input.
- VNC, SSH and Moonlight argument lists, failure classification, pairing and the probes for audio devices.
- The effect of a migration's statements: a body is applied or not.
- A migration commit that reports a failure although its effect survived.
- The Qt launcher, which is an arbitrary client of the agent.
