# Verified models of Pinpawo's protocols

Dafny models of the parts of the repository where several actors interleave or two
independently written parts must agree, with the properties those parts are for. One
module per component; `dafny verify dfyconfig.toml` checks them all.

- `ProjectFiles`, `ProjectFilesService`: the write protocol of Project Files. Any number of
  writers with locks, temporary files and two comparisons, each of which may fail or crash
  between any two file-system calls, beside editors that ignore the locks.
  `ProjectFilesLimit` is about the number of documents, `ProjectFilesRuns` holds runs that
  show what can happen.
- `StudioCore`, `Studio`: a Studio's dispatch with its idempotency records, and the start
  and stop of its Plugins. What runs between two awaits is one action; the methods run
  among the actions of everything else in flight.
- `TriggerService`, `TriggerDispatch`: deliveries in a database that several Studios share,
  and the way of a delivery to its Pet and back through the Channel Plugin and the core.
- `SchedulerService`: schedules, their claims and the polls of several Studios.
- `StudioPluginHooks`: the hook registry, with a journal of what the Plugins see happen and
  a record of every installer and cleanup that is called.
- `AgentSession` and the modules after it: the session reducer of a reader. `...Timeline`
  follows entries and streamed text, `...Messages` what each input says in the timeline,
  `...Runs` runs and reviews, `...Usage` the token ledger, `...Window` the windows the Host
  sends.
- `ChannelLog`, `ChannelView`: pages of a growing message log and the Console's window on it.
- `EventStream`: the two readers of server-sent events.
- `ParticipantId`: participant ids, their readers, and mention links.
- `ReviewBatch`: review answers, from the client's picks to the Host's validation.
- `ChannelMembers`: members of Channels under locked transactions.
- `History`: runs of changes, row stores and event logs, used by the components above.
- `Options`, `Sequences`: optional values and results; reversal and distinctness.
- `JsText`: white space and trimming as ECMAScript has them.

Interleavings are runs of actions over a state; an action that cannot happen changes
nothing. The classes run the code's own loops and exits over that state: at each await,
`Others` lets any actions of the others happen. Which of a call's file-system calls throw,
what a send is answered and when a poll stops are parameters of the methods. What a store
promises is taken from its contract: a transaction is atomic, a transition updates only from
the expected status, a delivery is inserted once per trigger and key, a Channel's lock is
held to the end of its transaction, and a page is an exact slice of an ascending log.

## Where the code does not do what it is meant to

Each has a lemma that shows it, on an input or on all inputs of a kind, and the condition
under which it holds.

- A windowed session snapshot can leave a tool call running for good in the part the reader
  already held (`AgentSessionRuns.WindowStrandsCall`); it does not exactly when the snapshot
  brings a run or a review or that part has no running call (`SnapshotExclusive`).
- A review resumed by the terminal client overlaps its run until an input clears either; a
  run that is interrupted, finished or completed meanwhile leaves the calls of the paused run
  running (`AgentSessionRuns.PausedIsStranded`), and no other input does (`OverlapNext`,
  `ReaderInOrder`).
- Usages that the parser takes can make totals that it does not: cache reads may be reported
  without what was eligible for them, and an accumulation then makes up an eligible count that
  does not cover them (`AgentSessionUsage.TotalsBreak`). One accumulation goes well exactly
  when the cache reads on both sides are covered by the eligible counts on both sides
  (`AccumulationStaysWellFormed`), a whole run exactly when each does (`TotalsStayWellFormed`);
  reporting the two counts together suffices (`TotalsStaySensible`).
- `--member pets` is read as the Pet `pets`: without a colon the code cuts the last code unit
  off the kind (`ParticipantId.PetsIsRead`, `ColonlessRefs`).
- A mention link after a link that was left open is read as part of it
  (`ParticipantId.OpenLinkTakesMention`, `LinkMentionsItsMember`).
- A review option that answers with a message but asks for no text can be chosen and sent by
  every client and is refused by the Host (`ReviewBatch.UnanswerableOption`); likewise one
  that authorizes without approving (`UnauthorizedOption`); all others agree
  (`ClientAndHostAgree`).
- An event whose data is empty ends the CLI's stream and is passed over by the Console
  (`EventStream.EmptyDataParts`, `ReadersAgree`).
- Editors that ignore the locks can lose their own change, as the comment before
  `writeDocument` warns (`ProjectFilesRuns.EditorLosesChange`), and can bring about more
  documents than the limit by a creation, a deletion or a move within it
  (`ProjectFilesLimit.EditorCreates`, `EditorDeletes`, `EditorBreaksLimit`); they cannot
  exactly as long as they leave room for what is on its way (`NeverTooMany`, `SafeIsExact`).
- A creation whose temporary name cannot be unlinked after the link, and any write whose lock
  cannot be removed, is reported as failed although the document is there
  (`ProjectFilesRuns.UnlinkFails`, `CreationLeaks`, `UpdateLeaks`); no other is
  (`ProjectFiles.ReturnMeansWritten`).

## Model

| member | source | states |
|---|---|---|
| ProjectFiles.WritesAreAtomic | plugins/project-files/src/projectFilesService.ts:202-306 | In every interleaving of calls, failures, crashes, editors and stale-lock removals the documents are what the logged writes leave when each takes effect at once; every creation found its path free, and every update found the content whose digest its caller passed, unless an editor touched that path after the call's second comparison |
| ProjectFiles.ReturnMeansWritten | plugins/project-files/src/projectFilesService.ts:268-306 | A call that returns has written exactly once, its own content at its own path, and left no temporary file; of the calls that have written, those throw whose unlink after the link threw or that could not remove a lock, and no others; the first happens to creations only |
| ProjectFiles.LocksReturned | plugins/project-files/src/projectFilesService.ts:298-305 | A call that has ended without a crash owns no lock but those whose removal failed, and then it has thrown |
| ProjectFiles.OthersLocksUntouched | plugins/project-files/src/projectFilesService.ts:98-120 | No step of one call takes or removes a lock of another |
| ProjectFilesLimit.NeverTooMany | plugins/project-files/src/projectFilesService.ts:269-276 | As long as every editor's action leaves room for what is on its way, the number of documents never passes the limit, or what was there at the start if that was more |
| ProjectFilesLimit.SafeIsExact | plugins/project-files/src/projectFilesService.ts:269-297 | From every state a run can reach, the calls alone never pass the limit if and only if there is that room: for the counted creations, for the targets that updates between second comparison and rename will bring back, and for these beside all that can still be created |
| ProjectFilesLimit.CallsKeepSafe | plugins/project-files/src/projectFilesService.ts:269-305 | No step of a call, failure, crash or removal of a stale lock takes that room away |
| ProjectFilesLimit.UnsafeBreaks | plugins/project-files/src/projectFilesService.ts:269-297 | Wherever the room is missing, the calls have a run of their own that passes the limit |
| ProjectFilesLimit.EditorMay | plugins/project-files/src/projectFilesService.ts:193-201 | An editor may change any document, delete one that no update is about to rename over, and create one while there is room beside what is on its way |
| ProjectFilesLimit.EditorCreates | plugins/project-files/src/projectFilesService.ts:193-201 | A creation alone, within the limit and while a creator has counted and not linked, leads past it |
| ProjectFilesLimit.EditorDeletes | plugins/project-files/src/projectFilesService.ts:193-201 | A deletion alone, of the target of an update before its rename, leads past it by way of a creator that takes the freed place |
| ProjectFilesLimit.EditorBreaksLimit | plugins/project-files/src/projectFilesService.ts:193-201 | An editor that moves a document between an update's second comparison and its rename, itself within the limit, brings about one document too many |
| ProjectFilesRuns.EditorLosesChange | plugins/project-files/src/projectFilesService.ts:193-201 | An editor's change in that gap is overwritten unseen |
| ProjectFilesRuns.UnlinkFails | plugins/project-files/src/projectFilesService.ts:289-304 | A creation whose unlink after the link throws, with every lock removed: the document is there and the call has failed |
| ProjectFilesRuns.CreationLeaks | plugins/project-files/src/projectFilesService.ts:298-305 | The same for a creation whose lock cannot be removed |
| ProjectFilesRuns.UpdateLeaks | plugins/project-files/src/projectFilesService.ts:298-305 | And for an update whose lock cannot be removed |
| ProjectFiles.FreshStays | plugins/project-files/src/projectFilesService.ts:285-295 | From the second comparison on no other call can change the target, so only an editor's touch makes the comparison out of date |
| ProjectFiles.HoldsMoved | plugins/project-files/src/projectFilesService.ts:241-305 | A call's locks at each stage are what its steps took and gave back; a crash only leaves them uncertain |
| ProjectFilesService.ProjectFilesService.WriteDocument | plugins/project-files/src/projectFilesService.ts:202-306 | The whole call, with its early exits and its clean-up among everybody else's steps: it ends, makes only moves of the protocol and writes nothing but its own content at its own path. It returns only if none of the file-system calls it needs threw, with one write made, no lock kept and no temporary file. If none of them threw, it fails only if at some moment of the call another call had the lock of its target or, for a creation, the shared lock, the target did not have the content expected, or, for a creation, the documents had reached the limit. What it leaves behind is a lock or a temporary file whose own removal threw |
| ProjectFilesService.ProjectFilesService.AcquireLock | plugins/project-files/src/projectFilesService.ts:98-120 | Held means that the target's lock is this call's and neither its opening nor its writing threw; otherwise one of them did or at some moment another call had it, and the call has thrown and keeps no lock but that one if its removal threw too |
| ProjectFilesService.ProjectFilesService.AcquireCreateLock | plugins/project-files/src/projectFilesService.ts:269-272 | The shared lock is held, or it could not be opened or written or another call had it, and the call is in the clean-up without having written |
| ProjectFilesService.ProjectFilesService.ReserveSlot | plugins/project-files/src/projectFilesService.ts:269-276 | A creation goes on only while both locks are its own; it is turned away only if the shared lock could not be taken, the documents could not be listed, or at some moment there were as many as the limit allows |
| ProjectFilesService.ProjectFilesService.WriteTemporary | plugins/project-files/src/projectFilesService.ts:277-284 | The temporary file holds the whole content of the caller exactly if neither its opening nor its writing threw; otherwise the call is in the clean-up |
| ProjectFilesService.ProjectFilesService.Prepare | plugins/project-files/src/projectFilesService.ts:277-288 | Publication is reached only through the second comparison: unless an editor has touched the target since, it still holds the content whose digest the caller passed, and the temporary file the content to publish; it is not reached only if a file-system call threw or the target had another content at some moment |
| ProjectFilesService.ProjectFilesService.Publish | plugins/project-files/src/projectFilesService.ts:289-297 | Publication writes exactly once or not at all, and not at all only if link or rename threw or a creation's target was there; it has failed exactly if it did not write or the unlink after the link threw |
| ProjectFilesService.ProjectFilesService.TryWrite | plugins/project-files/src/projectFilesService.ts:244-297 | Every path through the protected part ends in the clean-up, having written once, and then failed just if the unlink after the link threw, or having written nothing and failed; it fails only for a call that threw, another content at the target, a taken shared lock or a full directory |
| ProjectFilesService.ProjectFilesService.CleanUp | plugins/project-files/src/projectFilesService.ts:298-305 | The clean-up ends the call whatever throws in it: it writes nothing, a lock stays only if its own removal threw and the temporary file only if its unlink did, and only a lock that stays makes the call fail |
| StudioCore.OnePortDispatchPerKey | packages/studio/src/createStudio.ts:195-282 | However often a key is dispatched and whatever fails or shuts down meanwhile, the Pet accepts it at most once in a Studio's lifetime |
| StudioCore.DispatchKeepsSingle | packages/studio/src/createStudio.ts:222-281 | Two admissions under one key that may reach the Pet, or have, never coexist: also when an announcement fails after the Pet accepted, because by then nothing is reserved any more |
| StudioCore.ReceiptsArePorted | packages/studio/src/createStudio.ts:243-281 | A receipt is only given for an admission the Pet accepted |
| StudioCore.NothingBeginsOnceStopped | packages/studio/src/createStudio.ts:195-216 | Once stopping has begun, no dispatch reserves and no further Plugin is started |
| StudioCore.StopsGoDown | packages/studio/src/createStudio.ts:324-342 | At every moment of activation, start failure and shutdown the stops called so far begin the exact reverse of the start order, and only after stopping began |
| StudioCore.StopsOnce | packages/studio/src/createStudio.ts:324-342 | No Plugin is stopped twice |
| StudioCore.CoreClosesLast | packages/studio/src/createStudio.ts:344-403 | The core closes at most once, and only when every Plugin whose start was entered has been stopped and no stop is still awaited; a shutdown that is over has closed it |
| StudioCore.AdmissionGrows | packages/studio/src/createStudio.ts:224-282 | An admission keeps its key, and a fulfilled one stays fulfilled |
| StudioCore.DispatchRuns | packages/studio/src/createStudio.ts:222-281 | A dispatch that nothing disturbs and the Pet accepts is fulfilled and keeps its key; nothing else changes |
| StudioCore.RejectionRuns | packages/studio/src/createStudio.ts:224-282 | One that the Pet rejects is rejected and its key is free again |
| StudioCore.ComesAndGoes | packages/studio/src/createStudio.ts:359-403 | A Studio can come up with every Plugin started in order, and its shutdown then stops each, the last first, and closes the core once |
| StudioCore.FailsAndGoes | packages/studio/src/createStudio.ts:324-387 | Where the start of one Plugin throws, those entered so far are stopped, this one first, and the core closes; a later shutdown closes nothing again |
| StudioCore.StopsMidway | packages/studio/src/createStudio.ts:363-403 | A shutdown called while Plugins are starting makes the activation stop what it has started, and then comes to its own end |
| Studio.Studio.Dispatch | packages/studio/src/createStudio.ts:195-282 | A dispatch among everything else in flight: it joins the admission recorded under its key or reserves its own; a caller that joined gets the receipt of the admission it joined exactly if that is fulfilled when its wait is over; one that did not gets its own unless the Pet is unknown, its port refuses or the Studio is stopped meanwhile, and a failure of its own leaves no record behind; a receipt is for an admission under that key that the Pet accepted |
| Studio.Studio.Admit | packages/studio/src/createStudio.ts:224-281 | The port and then the announcement decide: the Pet has accepted exactly if its port did not refuse, and the admission fails only if it refused or the Studio was stopped meanwhile; an admission that failed is in no record afterwards |
| Studio.Studio.StopStartedPlugins | packages/studio/src/createStudio.ts:324-342 | The stop loop stops exactly the Plugins on the list, the last started first |
| Studio.Studio.StopOne | packages/studio/src/createStudio.ts:325-341 | One stop at a time, awaited before the next |
| Studio.Studio.CloseCore | packages/studio/src/createStudio.ts:344-357 | Called again it changes nothing but ending its caller's teardown; called the first time it closes, once, and the bus and the records go exactly if the Pets could be closed |
| Studio.Studio.StartPlugins | packages/studio/src/createStudio.ts:363-377 | The start loop ends with every Plugin entered and started, or with a teardown under way because a start threw or a shutdown was called |
| Studio.Studio.StartNext | packages/studio/src/createStudio.ts:364-374 | One start; a shutdown called meanwhile or a failure ends the loop |
| Studio.Studio.ActivatePlugins | packages/studio/src/createStudio.ts:359-387 | Either everything was restored and every Plugin was entered in order and started, or all that were entered have been stopped in reverse order and the core is closed; that is only so if the restoration or a start threw or a shutdown was called |
| StudioPluginHooks.StudioPluginHookRegistry.Expose | packages/studio/src/studioPluginHooks.ts:69-95 | A blank or taken name is refused and no installer called; otherwise the installers of the contributions waiting for the hook are called in their order, and if all of them do their work these are attached; if one does not, registry and attachments are as before and what was installed was taken back, last first |
| StudioPluginHooks.StudioPluginHookRegistry.AttachOrUndo | packages/studio/src/studioPluginHooks.ts:76-94 | The exposure's loop and its rollback as one: all or nothing |
| StudioPluginHooks.StudioPluginHookRegistry.AttachAll | packages/studio/src/studioPluginHooks.ts:80-89 | Exactly the contributions to this hook have their installers called, in their order, up to the first that does not do its work; those before it are attached, and every cleanup returned is kept |
| StudioPluginHooks.StudioPluginHookRegistry.Attach | packages/studio/src/studioPluginHooks.ts:51-58 | A contribution is attached exactly if its installer returned nothing or a cleanup, which it then holds; one that throws or returns anything else changes nothing |
| StudioPluginHooks.StudioPluginHookRegistry.RunCleanup | packages/studio/src/studioPluginHooks.ts:30-44 | Detached once, its cleanup run exactly if it held one, and neither provider nor cleanup is left |
| StudioPluginHooks.StudioPluginHookRegistry.Install | packages/studio/src/studioPluginHooks.ts:51-58 | The cleanups still owed after an installer's call are those before it and the one it returned |
| StudioPluginHooks.StudioPluginHookRegistry.Detach | packages/studio/src/studioPluginHooks.ts:30-44 | Of the cleanups owed only this contribution's is run, so none is lost and none is run twice |
| StudioPluginHooks.StudioPluginHookRegistry.RollBack | packages/studio/src/studioPluginHooks.ts:90-94 | Attached contributions are detached in reverse order, others left alone |
| StudioPluginHooks.StudioPluginHookRegistry.RemoveProvider | packages/studio/src/studioPluginHooks.ts:60-67 | What the provider held is detached and its name is free; a disposer whose provider was replaced changes nothing |
| StudioPluginHooks.StudioPluginHookRegistry.DetachAll | packages/studio/src/studioPluginHooks.ts:63-65 | Exactly this provider's contributions are detached |
| StudioPluginHooks.StudioPluginHookRegistry.Contribute | packages/studio/src/studioPluginHooks.ts:97-126 | A contribution is attached at once if its hook is exposed and its installer does its work, and waits, uncalled, if it is not exposed; one whose installer fails leaves no trace |
| StudioPluginHooks.StudioPluginHookRegistry.RemoveContribution | packages/studio/src/studioPluginHooks.ts:122-125 | The disposer detaches once, however often it is called |
| StudioPluginHooks.StudioPluginHookRegistry.WithdrawAll | packages/studio/src/studioPluginHooks.ts:140-145 | A released Plugin's contributions go, the others stay in order |
| StudioPluginHooks.StudioPluginHookRegistry.RemoveAll | packages/studio/src/studioPluginHooks.ts:146-148 | A released Plugin's exposures go, the others stay |
| StudioPluginHooks.StudioPluginHookRegistry.ReleasePlugin | packages/studio/src/studioPluginHooks.ts:140-149 | Afterwards nothing of the Plugin is left, and what others contributed to it is detached |
| StudioPluginHooks.StudioPluginHookRegistry.JournalBalances | packages/studio/src/studioPluginHooks.ts:30-126 | Installs that took effect minus detachments are, pair by pair, the attachments that exist |
| StudioPluginHooks.LegalFromTheStart | packages/studio/src/studioPluginHooks.ts:30-44 | At no moment was anything detached that was not attached, so no cleanup runs twice |
| StudioPluginHooks.StudioPluginHookRegistry.OrderMakesNoDifference | packages/studio/src/studioPluginHooks.ts:47-126 | Two registries, whatever happened in them and in whatever order, that expose the same hooks and hold the same offers have taken up the same ones, each by the provider of its own hook |
| StudioPluginHooks.TakenUpIsExposed | packages/studio/src/studioPluginHooks.ts:47-126 | Offer by offer, what is taken up is decided by which hooks are exposed |
| StudioPluginHooks.ExposureFailed | packages/studio/src/studioPluginHooks.ts:76-94 | A failed exposure cancels out in what the Plugins saw |
| TriggerService.EveryDeliveryIsAWord | plugins/trigger/src/triggerService.ts:37-191 | In every history of Studios on one database each delivery's events form the word, the row's status is the one its last event leaves, and no two deliveries share trigger and key |
| TriggerService.TrackIsShape | plugins/trigger/src/triggerService.ts:165-191 | Following the guarded transitions event by event accepts exactly the words (received or redelivered) ((failed or recovered) retried)* with at most one accepted, failed or recovered at the end |
| TriggerService.OneClaimIsFirst | plugins/trigger/src/triggerService.ts:37-70 | Of all callers that claim one key at most one is told it is no duplicate, and that delivery's history begins with its event |
| TriggerService.EvolvesExtends | plugins/trigger/src/triggerService.ts:72-86 | Whatever happens later, a delivery keeps its trigger, key and input, its events only grow, and an accepted row never changes |
| TriggerService.TriggerService.Claim | plugins/trigger/src/triggerService.ts:37-70 | Blank texts are refused, and nothing else; the returned delivery has the trigger and key without the white space around them, it is no duplicate exactly when it is this call's own, and then it stores an input exactly if one was given: this Pet and this request, each from its first to its last character that is no white space |
| TriggerService.TriggerService.TransitionTo | plugins/trigger/src/triggerService.ts:165-191 | The guarded change happened from the expected status, or the call fails and at some moment meanwhile the store would not have made it; an acceptance stands with its receipt, and an accepted delivery is never changed |
| TriggerService.TriggerService.Redeliver | plugins/trigger/src/triggerService.ts:94-125 | A fresh delivery of an accepted one's trigger and input under a key of its own; the accepted one stays, and one that kept its input can always be redelivered |
| TriggerService.TriggerService.RecoverOne | plugins/trigger/src/triggerService.ts:154-161 | A delivery seen dispatching has had an event since, made here or by somebody else |
| TriggerService.TriggerService.RecoverInterrupted | plugins/trigger/src/triggerService.ts:151-163 | The recovery loop leaves no delivery as it found it dispatching |
| TriggerDispatch.OneDispatchPerDelivery | plugins/trigger/src/triggerPlugin.ts:441-466 | Within one Studio lifetime a delivery reaches its Pet at most once, through any failures, recoveries, retries and shutdowns, also when the session could not be confirmed after the Pet had accepted |
| TriggerDispatch.AcceptedStoresItsDispatch | plugins/trigger/src/triggerPlugin.ts:458-466 | An accepted delivery stores the invocation its Pet accepted, and in that lifetime the Pet accepted no other for it |
| TriggerDispatch.RetryFindsTheDispatch | plugins/channel/src/channelPlugin.ts:122-140 | A retry in a lifetime that dispatched already can only come back with that same invocation |
| TriggerDispatch.KeysDiffer | plugins/trigger/src/triggerPlugin.ts:441-445 | Deliveries never share a dispatch key |
| TriggerDispatch.Delivers | plugins/trigger/src/triggerPlugin.ts:441-466 | A delivery that nothing disturbs reaches its own Pet under its own key and is accepted with the receipt of that dispatch |
| TriggerDispatch.FailsBefore | plugins/trigger/src/triggerPlugin.ts:441-466 | A handler that cannot even dispatch marks its delivery failed and the Studios hear nothing of it |
| TriggerDispatch.RetryDelivers | plugins/channel/src/channelPlugin.ts:122-140 | One whose session cannot be confirmed after the Pet has accepted it fails; retried in the same lifetime it is accepted with that same dispatch, and the Pet gets no second one |
| SchedulerService.EveryScheduleIsAPath | plugins/scheduler/src/schedulerService.ts:38-164 | In every history the log of a schedule is created then cancelled, or created, claimed and at most one outcome, and the row agrees with the replayed log |
| SchedulerService.EvolvesExtends | plugins/scheduler/src/schedulerService.ts:123-149 | A schedule keeps its task and time and never goes back, and a terminal one never changes |
| SchedulerService.EachSentOnce | plugins/scheduler/src/schedulerPlugin.ts:83-108 | Under any interleaving of the Studios' polls no schedule is sent twice |
| SchedulerService.ClaimedOnce | plugins/scheduler/src/schedulerService.ts:66-80 | A claim takes a schedule that still waits, and afterwards it waits no more |
| SchedulerService.RunsAlone | plugins/scheduler/src/schedulerPlugin.ts:90-105 | A due schedule that nobody else takes is claimed, sent once and ends with the receipt of that send or as failed, its task and time unchanged |
| SchedulerService.MadeStays | plugins/scheduler/src/schedulerService.ts:123-149 | An outcome once recorded stands: a dispatched schedule with just the receipt it was recorded with, any other end without one |
| SchedulerService.SchedulerService.Create | plugins/scheduler/src/schedulerService.ts:38-60 | Refused are blank texts and a time that is no date, nothing else; the new schedule has the time asked for and Pet, Channel and request without the white space around them |
| SchedulerService.SchedulerService.ClaimDue | plugins/scheduler/src/schedulerService.ts:66-80 | The claim loop ends as long as the others create only finitely many schedules: with a schedule claimed by this call, at some moment the earliest of those due, or at a moment when none was due |
| SchedulerService.SchedulerService.EarliestDue | plugins/scheduler/src/schedulerService.ts:68-69 | A schedule that is due and none due before it, or none is due |
| SchedulerService.SchedulerService.TransitionTo | plugins/scheduler/src/schedulerService.ts:123-149 | The outcome is recorded from the status it needs and stands for good, or the call fails and at some moment meanwhile the schedule was not in it |
| SchedulerService.SchedulerService.Conclude | plugins/scheduler/src/schedulerPlugin.ts:97-103 | A delivered send is recorded with its receipt, or as failed if that was refused; one that threw as failed; the poll ends only if the failure is refused too, because somebody else had moved the schedule |
| SchedulerService.SchedulerService.PollOnce | plugins/scheduler/src/schedulerPlugin.ts:94-103 | One turn sends exactly the schedule it claims, with that schedule's own task, and records what the send was answered |
| SchedulerService.SchedulerService.Poll | plugins/scheduler/src/schedulerPlugin.ts:90-105 | The poll loop ends, with the clock read anew at each claim; it sends exactly what it claims, in that order and each with its own task, claims nothing twice, and every schedule but a last one that could not be recorded ends with the receipt of its own send or as failed; it stops early only when nothing is due |
| AgentSessionTimeline.EventKeepsIds | packages/agent-session/src/project.ts:216-270 | Every runtime event keeps the old timeline's ids as a prefix of the new |
| AgentSessionTimeline.UpsertKeepsIds | packages/agent-session/src/project.ts:816-823 | An entry whose id is known replaces the first of that id where it stands, another one comes last, and no other entry changes |
| AgentSessionTimeline.EventOther | packages/agent-session/src/project.ts:216-270 | While a run goes on, an entry without calls is changed by nothing but the events addressed to it |
| AgentSessionTimeline.TextIsItsDeltas | packages/agent-session/src/project.ts:329-366 | A streaming message is exactly its own deltas in arrival order, whatever other events come in between |
| AgentSessionTimeline.NewMessageText | packages/agent-session/src/project.ts:329-366 | The same for a message nobody had heard of before |
| AgentSessionTimeline.OperationIsItsReports | packages/agent-session/src/project.ts:397-439 | An operation's entry is exactly its own reports, whatever comes in between |
| AgentSessionTimeline.OperationKeepsLatest | packages/agent-session/src/timeline.ts:40-80 | Title, target and summary are what was last said; a report that leaves one out does not erase it |
| AgentSessionMessages.CompletionStands | packages/agent-session/src/project.ts:368-395 | A completion that is taken leaves a message of that id that is the assistant's, not streaming and of that run; its text is the completed text without the white space around it, or if that is blank what had streamed so far, or a mark if both are |
| AgentSessionMessages.StreamsThenCompletes | packages/agent-session/src/project.ts:329-395 | A message that has streamed and is completed without text says exactly its own deltas, in the order they came |
| AgentSessionMessages.CompletionSays | packages/agent-session/src/project.ts:368-395 | Such a completion changes no other entry, but where it ends the run that is followed the calls that still ran |
| AgentSessionMessages.DeltaExtends | packages/agent-session/src/project.ts:329-366 | A token extends the message that streams under its id or begins it as the assistant's, and nothing else changes |
| AgentSessionMessages.CallsStand | packages/agent-session/src/project.ts:441-476 | A message's calls stand in its entry in the order they were made: one that was made already keeps its status, a new one runs |
| AgentSessionMessages.CallSettles | packages/agent-session/src/project.ts:478-497 | A settled call gets its outcome in the first message that makes it, and no other call or entry changes |
| AgentSessionMessages.RunBegins | packages/agent-session/src/project.ts:272-297 | A run begins with nothing pending, and its input, if it says anything, comes last as the user's message of that run |
| AgentSessionMessages.UserSpeaks | packages/agent-session/src/project.ts:189-214 | What a user of the terminal says comes last as the user's message of the new run |
| AgentSessionMessages.NoticeSpeaks | packages/agent-session/src/project.ts:311-327 | A notice of the run that is followed comes last as the system's with just its text, and clears the review; another one changes nothing |
| AgentSessionMessages.SubagentSpeaks | packages/agent-session/src/project.ts:521-554 | A subagent's message stands whole and not streaming under its namespace and its source's id |
| AgentSessionMessages.StopsSay | packages/agent-session/src/project.ts:576-633 | An interruption or an error of the run that is followed ends it, closes what it left open and says so; of another run it changes nothing |
| AgentSessionMessages.FinishSays | packages/agent-session/src/project.ts:576-608 | A run that finishes settles its messages, interrupts its open calls and says its last messages in order |
| AgentSessionMessages.AppendedAllSpeak | packages/agent-session/src/project.ts:635-654 | Each of a list of messages comes last under its own id or the next free one of its owner and role |
| AgentSessionMessages.OperationMoves | packages/agent-session/src/project.ts:397-439 | While an operation of the run is open the run is using a tool; once none is, it is thinking again, unless it is being interrupted |
| AgentSessionMessages.SilentInputs | packages/agent-session/src/project.ts:299-310 | Plans, states and interrupt requests change the run's view or the plan and no entry |
| AgentSessionMessages.SnapshotBrings | packages/agent-session/src/project.ts:118-166 | A snapshot brings its run, review and plan, and its usage of the last run unless the one held may be kept |
| AgentSessionMessages.UsageShows | packages/agent-session/src/project.ts:697-721 | A usage that is not out of date becomes the one shown, with the context window it came with or the one known |
| AgentSessionRuns.EventExclusive | packages/agent-session/src/project.ts:216-297 | Every runtime event keeps run and review apart, and leaves no call running when both are over |
| AgentSessionRuns.FinishQuiet | packages/agent-session/src/project.ts:576-608 | A run that ends outside a review leaves no call open |
| AgentSessionRuns.ConsoleExclusive | apps/studio-console/src/petSession.ts:62-73 | The same at every moment of every run of the Console's inputs, events and full snapshots |
| AgentSessionRuns.InputExclusive | packages/agent-session/src/project.ts:69-116 | And of every other input of the reducer, all but the resumption of a review |
| AgentSessionRuns.SnapshotExclusive | packages/agent-session/src/project.ts:170-187 | A windowed snapshot keeps the exclusion exactly when it brings a run or a review or the part it leaves standing has no running call |
| AgentSessionRuns.WindowStrandsCall | packages/agent-session/src/project.ts:170-187 | Two sides in order whose splice leaves a call running for good |
| AgentSessionRuns.OverlapNext | packages/agent-session/src/project.ts:576-633 | While a resumed review overlaps its run, an input that does not end the run leaves an overlap or the exclusion; an interruption, a finish or a completion that ends it restores the exclusion exactly when no call is left running, those of the completed message aside |
| AgentSessionRuns.ReaderInOrder | packages/agent-session/src/project.ts:69-187 | Over every run of the terminal client's inputs, resumptions and full snapshots among them, run and review are in order at every moment exactly if no input ends such a run with calls left running |
| AgentSessionRuns.ResumeStrandsCalls | packages/agent-session/src/project.ts:610-633 | Right after the resumption each of the ends restores the exclusion exactly when the paused timeline had no call to strand |
| AgentSessionRuns.PausedIsStranded | packages/agent-session/src/project.ts:610-633 | A paused session with a running call, which each of the three ends leaves running |
| AgentSessionUsage.EventUsage | packages/agent-session/src/project.ts:697-721 | An event changes the session's usage by what it counts and by nothing else |
| AgentSessionUsage.UsageConverges | packages/agent-session/src/project.ts:118-166 | Usages of one epoch, in any order and however often, by event or snapshot: the reader ends with the totals of the highest revision, and its revision never goes down |
| AgentSessionUsage.FoldsToNewest | packages/agent-session/src/project.ts:697-721 | Step by step the newer mark is kept |
| AgentSessionUsage.TotalsAddUp | packages/agent-session/src/project.ts:723-752 | With run usages the session's totals, its cache reads and whether anything is missing are the sum of what was counted |
| AgentSessionUsage.TotalsAreTheBill | packages/agent-session/src/project.ts:368-395 | With run usages the totals are what they were and, once for each distinct completed message and each run's review, the usage of its first delivery that counted, however often it is delivered, if no run is started again after one of them |
| AgentSessionUsage.CountedOnce | packages/agent-session/src/project.ts:368-395 | Of two deliveries of one completion or interrupt the later counts nothing, so the sum is over distinct ones |
| AgentSessionUsage.RedeliveryCountsNothing | packages/agent-session/src/project.ts:368-395 | However much arrives in between, as long as the run is not started again |
| AgentSessionUsage.EventCompleted | packages/agent-session/src/project.ts:329-395 | A message once complete stays complete whatever event comes |
| AgentSessionUsage.AccumulationStaysWellFormed | packages/agent-session/src/project.ts:723-752 | A run's usage that the parser takes, added to totals that it takes, leaves such totals if and only if the cache reads of both are covered by what both report as eligible, or neither reports any |
| AgentSessionUsage.TotalsStayWellFormed | packages/agent-session/src/project.ts:697-752 | Over every run of events and snapshots that the parser takes, the totals are such at every moment exactly if no event adds a usage that leaves cache reads uncovered |
| AgentSessionUsage.TotalsStaySensible | packages/agent-session/src/project.ts:697-752 | If every usage and every snapshot's totals report cache reads only together with what was eligible, of whatever scope, the totals do, and stay well-formed, at every moment |
| AgentSessionUsage.TotalsBreak | packages/agent-contracts/src/state.ts:63-79 | Session totals with cache reads and nothing eligible and then a run's usage without cache counts: the parser takes both, and the totals are ill-formed |
| AgentSessionUsage.PairedFitsAll | packages/agent-contracts/src/state.ts:63-79 | Among totals that pair their cache counts a run's usage fits all of them exactly when it pairs its own, and one that does not breaks an empty ledger |
| AgentSessionUsage.UnpairedMayFit | packages/agent-contracts/src/state.ts:63-79 | An unpaired usage can still fit particular totals |
| AgentSessionWindow.WindowShown | packages/agent-session/src/project.ts:170-187 | One window, however old, leaves the reader with the Host's ids of that moment from some place on, and it knows how many are missing before |
| AgentSessionWindow.SnapshotsShowTheHost | packages/agent-session/src/project.ts:170-187 | The same after any sequence of full and windowed snapshots in any order of age |
| AgentSessionWindow.WindowStart | packages/agent-session/src/timeline.ts:17-26 | A window never starts inside the open run, holds everything if no limit is given, never fewer entries than asked for unless it holds all, and never more unless the open run reaches further back |
| AgentSessionWindow.RunStart | services/host/src/conversation/agentSessionSnapshot.ts:40-46 | The open run begins at the latest user message |
| AgentSessionWindow.EarlierShows | apps/studio-console/src/petSession.ts:43-50 | Each earlier read brings a page more, or everything; just a page more where no open run reaches further back |
| AgentSessionWindow.LoadEverything | apps/studio-console/src/petSession.ts:43-50 | Against a Host that does not change, loading earlier entries reaches the whole timeline in at most six reads |
| ChannelView.ViewIsSegment | apps/studio-console/src/ChannelPanel.tsx:133-178 | Whatever is opened, refreshed, read later or earlier, answered late or dropped while messages are posted, the view is without gap or repetition, ascending, exactly the stretch of one log between the held window's edges, and it knows whether there is more before |
| ChannelView.LaterJoins | apps/studio-console/src/channelData.ts:229-233 | What is read after the held window's newer edge joins on, and only that edge moves |
| ChannelView.EarlierJoins | apps/studio-console/src/channelData.ts:235-240 | Older messages read from the window's edge join on before it |
| ChannelView.ApplyEarlierKeepsInv | apps/studio-console/src/ChannelPanel.tsx:159-178 | An earlier page that was read for another window is dropped, one for this window leaves no gap |
| ChannelView.ApplyKeepsInv | apps/studio-console/src/ChannelPanel.tsx:143-151 | The same for an opening or a later read |
| ChannelView.LaterApplies | apps/studio-console/src/ChannelPanel.tsx:143-151 | In every reachable state a later read that is applied while its window is held brings the newer edge at least to its cursor, keeps the older edge, and adds exactly the entries read; for another window it changes nothing |
| ChannelView.EarlierApplies | apps/studio-console/src/ChannelPanel.tsx:159-178 | An earlier page that is applied while its window is held moves the older edge to its own and adds exactly its entries; for another window it changes nothing |
| ChannelView.OpenApplies | apps/studio-console/src/ChannelPanel.tsx:133-142 | An opening that is applied shows exactly the page read, holds its edges, and makes everything read for an earlier window stale |
| ChannelView.RefreshShowsAll | apps/studio-console/src/channelData.ts:182-233 | A later read that is started, answered page by page to the end and applied shows every message of the log from the held window's older edge on |
| ChannelView.OpeningShows | apps/studio-console/src/channelData.ts:182-233 | An opening that runs through shows the newest page of the log and says truly whether there is more before |
| ChannelView.EarlierShowsMore | apps/studio-console/src/ChannelPanel.tsx:159-178 | An earlier page that runs through shows one page more before what was shown |
| ChannelLog.MergeStretches | apps/studio-console/src/channelData.ts:242-246 | Two stretches of one log that touch or overlap merge into one, whatever the order |
| ChannelLog.ChannelReader.ReadPages | apps/studio-console/src/channelData.ts:182-198 | The page loop ends whatever is posted meanwhile, with every message after its cursor that there is when the last page is read |
| ChannelLog.ChannelReader.ReadPage | apps/studio-console/src/channelData.ts:187-197 | Each page goes on where the earlier ones ended, and the cursor advances whenever there is more |
| ChannelLog.AfterIsSlice | plugins/channel/src/store/kysely/store.ts:136-144 | A page after a cursor is the log's next slice, and says truly whether there is more |
| ChannelLog.UpToIsSlice | plugins/channel/src/store/kysely/store.ts:145-152 | A page before a cursor is the log's slice up to it, and says truly whether there is more before |
| ChannelLog.NewestIsSlice | plugins/channel/src/store/kysely/store.ts:145-152 | The newest page is the log's end |
| ChannelLog.PagesDescribe | plugins/channel/src/store/kysely/store.ts:132-153 | Every page holds the messages between its two cursors, which are its first and last message if it has any, and its two flags tell exactly whether there are messages on either side |
| EventStream.ReadEvents | packages/studio/src/studioOperatorCli.ts:334-356 | However the text is cut into chunks, the CLI writes the longest beginning of the whole text's payloads that are JSON, and fails exactly if that is not all of them |
| EventStream.ObserveEventStream | apps/studio-console/src/studioEvents.ts:62-82 | However the text is cut into chunks, the Console delivers the longest beginning of the whole text's non-empty payloads that it takes, and fails exactly if that is not all; the retry delay is the number of the first well-formed retry line of the last handled block that has one, but at least one second and at most thirty |
| EventStream.CutAllAppend | apps/studio-console/src/studioEvents.ts:68-82 | Cutting may stop anywhere and go on later with what was left, for any cut that more text does not move |
| EventStream.BlockCutStable | apps/studio-console/src/studioEvents.ts:69-81 | A blank line once found stays the first one however the text goes on |
| EventStream.LineCutStable | packages/studio/src/studioOperatorCli.ts:342-343 | A line end once found stays the first one |
| EventStream.BlocksCarryPayloads | apps/studio-console/src/studioEvents.ts:73-77 | Cut into blocks or read line by line a text carries the same events, but for empty data |
| EventStream.ConsoleDelivers | apps/studio-console/src/studioEvents.ts:62-82 | The Console delivers the CLI's payloads with the empty ones passed over |
| EventStream.ReadersAgree | packages/studio/src/studioOperatorCli.ts:334-356 | The Console takes only JSON that is an event: without empty data it delivers just what it accepts of the CLI's payloads, and where the JSON payloads are events the readers deliver the same, but for exactly what follows an empty-data event, which the CLI refuses |
| EventStream.EmptyDataParts | apps/studio-console/src/studioEvents.ts:77-81 | A stream with an empty-data event, of which the Console delivers the next event and the CLI nothing |
| EventStream.PayloadsAreStandard | packages/studio/src/studioOperatorCli.ts:344-351 | For every text, split at LF or CRLF, there is one payload for each event of section 9.2.6 of the WHATWG HTML Standard, in order, if bare data lines are left out: the event's values, each without the white space at its start, with one line feed between two |
| EventStream.TrimStartTrims | apps/studio-console/src/studioEvents.ts:76 | Trimming cuts exactly the white space at the start |
| EventStream.JoinJoins | packages/studio/src/studioOperatorCli.ts:346 | Joined values stand one after the other with one line feed between two |
| EventStream.RetryIsLast | apps/studio-console/src/studioEvents.ts:74-75 | Over any blocks the delay is set by the last block that asks for one, by the first well-formed retry line in it |
| ParticipantId.MemberRefInverts | packages/studio/src/studioOperatorCli.ts:214-221 | Reading an id back gives the kind and id it was made for, for every well-formed id that is not blank |
| ParticipantId.IdsDiffer | plugins/channel/src/channelParticipants.ts:15-20 | No two members share an id |
| ParticipantId.TwoPasses | plugins/channel/src/channelParticipants.ts:16-18 | Encoding in the code's two passes is encoding all but the unreserved characters of RFC 3986 section 2.3 |
| ParticipantId.DecodeEncoded | packages/studio/src/studioOperatorCli.ts:218 | Decoding inverts the encoding over UTF-8 |
| ParticipantId.DecodeIsSpelled | packages/studio/src/studioOperatorCli.ts:218 | Decoding reads a text exactly if it is made of characters other than the percent sign that stand for themselves and of escapes, in either case of the digits, of the UTF-8 of whole characters, and then gives what it spells |
| ParticipantId.Utf8RoundTrip | plugins/channel/src/channelParticipants.ts:18 | The UTF-8 of RFC 3629 section 3, byte by byte, is read back |
| ParticipantId.ColonlessRefs | packages/studio/src/studioOperatorCli.ts:214-221 | A reference without a colon is read as a member if and only if it is a kind's name and one more character, other than a percent sign and of one UTF-16 code unit; its whole text is then the id |
| ParticipantId.PetsIsRead | packages/studio/src/studioOperatorCli.ts:214-221 | The text pets is read as the Pet of that name, pet and an emoji is refused |
| ParticipantId.LinkMentionsItsMember | apps/studio-console/src/channelData.ts:79-95 | However a member is labelled and whatever stands before and after, its link adds a mention of exactly that member to those before and after it, if and only if no link left open before it reaches through the label |
| ParticipantId.ComposedMentions | apps/studio-console/src/channelData.ts:79-95 | A message mentions its members in order, between the links its own text has, if and only if no link left open swallows one of the mentions |
| ParticipantId.OpenLinkTakesMention | apps/studio-console/src/channelData.ts:93-95 | A link left open before a mention is read through to the mention's end as one id |
| ParticipantId.IdsFitLinks | apps/studio-console/src/channelData.ts:46-50 | Every participant id can stand in a link |
| ParticipantId.MentionShows | apps/studio-console/src/channelData.ts:79-83 | A mention shows the member's title, or its id if it has none, as it is but for brackets and backslashes, which are left out |
| ReviewBatch.ClientAndHostAgree | packages/agent-session/src/reviewDecision.ts:24-79 | What a client can put together and send is accepted exactly when its options are all answerable, and every accepted batch of canonical answers can be sent by a client |
| ReviewBatch.SentIsBuildable | packages/agent-session/src/reviewDecision.ts:24-63 | The batches a client can send are the canonical ones that stop at the first stop or at the end |
| ReviewBatch.ValidateResponses | services/host/src/pendingHumanReviewInterrupt.ts:53-112 | The Host's loop accepts exactly the batches that answer the reviews in order, go on only after approvals and end with a stop or the last review; a refusal names the first answer that fails and why |
| ReviewBatch.AcceptedTakes | services/host/src/pendingHumanReviewInterrupt.ts:53-112 | An accepted batch answers review by review: each answer names its own review and the first option of its id, brings text only where it is asked for, authorizes only by approving, and brings text if it responds; every answer but the last approves, and the last approves only the last review |
| ReviewBatch.ResolveSays | services/host/src/pendingHumanReviewInterrupt.ts:86-92 | What each refusal of one answer means |
| ReviewBatch.PrepareSays | packages/agent-session/src/reviewDecision.ts:24-79 | A pick is stale exactly if an earlier answer no longer waits on its interaction or the option is unknown, lacks input exactly if its option asks for text and the text is blank, and otherwise adds one answer that names its interaction and option, with the trimmed text just if it was asked for |
| ReviewBatch.UnanswerableOption | services/host/src/pendingHumanReviewInterrupt.ts:92 | A review can offer an answer without its text that a client can send and the Host cannot take |
| ReviewBatch.UnauthorizedOption | services/host/src/pendingHumanReviewInterrupt.ts:92 | So can one that authorizes without approving |
| ChannelMembers.ChannelsKeepAHuman | plugins/channel/src/channelService.ts:159-258 | A Channel created by a human has a current human member at every moment, with concurrent additions and removals whose reading and writing are separate steps |
| ChannelMembers.WriteTakesEffect | plugins/channel/src/channelService.ts:226-255 | An addition that is not refused leaves its member current, a removal does not, and nobody else changes |
| ChannelMembers.WhenRefused | plugins/channel/src/channelService.ts:247-253 | Refused are exactly those who have no Studio authority and are not current members, and the removal of the only human whose membership is current |
| ChannelMembers.WriteKeepsHuman | plugins/channel/src/channelService.ts:249-255 | A write that the members allow leaves a human wherever there was one |
| ChannelMembers.RunsAlone | plugins/channel/src/channelService.ts:226-258 | A transaction that is let through makes its member current exactly if it was added, leaves everybody else and every other Channel as they were, and gives its lock back; refused, it changes nothing |
| ChannelMembers.GivesUp | plugins/channel/src/channelService.ts:226-258 | One that is given up before it has written leaves nothing behind, wherever it stands |
| ChannelMembers.FoundersStay | plugins/channel/src/channelService.ts:159-185 | A new Channel's current members are its creator and the Pets named |
| ChannelMembers.LockIsNeeded | plugins/channel/src/channelService.ts:244-246 | Without the lock two removals can both pass and take the last human together |

## Left out

- Symbolic links, path validation, directories and permissions in Project Files: paths are distinct targets and any such check is a call that may throw.
- The walk of `listDocuments`: the number of documents is read at once. Under the shared lock no other call changes it.
- SHA-256: a digest determines its content.
- The state of Project Files, the core, the Trigger handlers, the Channel view and the Channel transactions is one value that actions replace, so their model has no aliasing and no order of fields; the classes `ProjectFilesService` and `Studio` run the code's methods over such a value.
- The handlers of the Trigger and Channel Plugins and the two loaders of the Channel panel are actions of those state machines, not methods of their own.
- Promises that never settle: in `Studio.Studio.Dispatch` the wait of a caller that joined an admission may be over before the admission has settled, and then it gets no receipt.
- `activatePlugins` and `shutdown` called again return the promise they already have; the model has one activation and one shutdown.
- Context providers, dispatch scopes, attachments and Pets of the core, beyond that each may make an admission fail before its port.
- Clocks, dates, notes, display names, plans' contents, message attachments and notices: carried along by the code and decided on by none of the modelled parts.
- Timeline ids are constructors by kind, not the strings they are built from; that ids of different kinds do not clash is a hypothesis where it matters.
- Run timestamps and their normalisation, actors, model profiles and the rest of the runtime view.
- Replaying missed events over a snapshot: not idempotent in general, and not claimed.
- The outer connection loop of the Console's event stream with its back-off; the end of the CLI's stream, where text without a line end is dropped as the code drops it; the text decoder.
- JSON: a payload is the text given to the parser; whether it parses, and whether it is an event the Console takes, are parameters.
- `parseChannelMentions` and its Markdown parser; lone surrogates, on which `encodeURIComponent` throws.
- Messages of a Channel are their sequence numbers; their bodies, routing and deliveries are not modelled.
- The Scheduler's `recoverInterrupted` loop, which is the Trigger's over another table; its change is part of every history.
- Reentrant installers and cleanups of the hook registry, which would change it in the middle of a loop.
- The Kysely stores, the HTTP routes, tokens and rendering.
